/** The physics systems of packages/core/src/modules/physics.ts: contact bookkeeping
    for sensor areas, the pose-sync passes around the physics step and the rigid-body
    lifecycle. Entities, collider handles and body handles are opaque numbers; the
    physics engine's step is an opaque producer of collision events. */
module Physics {
  import opened Errors
  import opened Core

  type Entity = nat
  type Handle = nat
  type BodyId = nat

  datatype Quat = Quat(x: real, y: real, z: real, w: real)

  /** A collider as the sync passes and sensors see it. */
  datatype Collider = Collider(handle: Handle, translation: Vec3, rotation: Quat, sensor: bool, collisionEvents: bool)

  /** One entry of an area's `collisions` record. */
  datatype Contact = Contact(otherEntity: Entity, otherCollider: Handle)

  /** The `Area3D` trait: a sensor collider, its active contacts keyed by the other
      collider's handle, and whether the optional callbacks are set. */
  datatype Area = Area(collider: Collider, collisions: map<Handle, Contact>, hasOnEnter: bool, hasOnExit: bool)

  /** A rigid body of the physics world: its colliders (in index order), its pose and
      its `userData` entity. */
  datatype Body = Body(colliders: seq<Handle>, translation: Vec3, rotation: Quat, userData: Option<Entity>)

  /** One drained collision event: two collider handles and whether contact started. */
  datatype CollisionEvent = CollisionEvent(handleA: Handle, handleB: Handle, started: bool)

  /** Observable side effects, in order: callback invocations and console warnings. */
  datatype Notice =
    | Entered(area: Entity, other: Entity)
    | Exited(area: Entity, other: Entity)
    | ColliderNotFound
    | BodyNotFound(entity: Entity)

  function Lookup(m: map<Handle, Contact>, h: Handle): Option<Contact> {
    if h in m then Some(m[h]) else None
  }

  // ---------------------------------------------------------------------------
  // Pose sync, one entity at a time

  /** The push pass writes the pose into a body: translation from position, rotation
      as the quaternion (rx, ry, rz, 1). */
  function PushedBody(b: Body, t: Transform): Body {
    b.(translation := t.position, rotation := Quat(t.rotation.x, t.rotation.y, t.rotation.z, 1.0))
  }

  /** The push pass for an area's collider. */
  function PushedCollider(c: Collider, t: Transform): Collider {
    c.(translation := t.position, rotation := Quat(t.rotation.x, t.rotation.y, t.rotation.z, 1.0))
  }

  /** The pull pass reads a body's pose back: position from translation, rotation from
      the quaternion's x, y and z; scale is kept. */
  function PulledTransform(t: Transform, b: Body): Transform {
    t.(position := b.translation, rotation := Vec3(b.rotation.x, b.rotation.y, b.rotation.z))
  }

  /** If the step leaves a body where the push pass put it, the pull pass gives back
      exactly the pose that was pushed, for a pose with zero rotation. The engine
      stores (rx, ry, rz, 1) normalised to a unit quaternion, so for any other
      rotation the pulled x, y and z come back scaled; `PushedBody` keeps the
      unnormalised quaternion, and the rotation requirement keeps this lemma to the
      case where both agree. */
  lemma PullUndoesPush(t: Transform, b: Body)
    requires t.rotation == Vec3(0.0, 0.0, 0.0)
    ensures PulledTransform(t, PushedBody(b, t)) == t
  {
  }

  /** The other way round the sync is lossy: pushing a pulled pose restores the body
      only when its quaternion has w = 1. */
  lemma PushUndoesPullIffUnitW(t: Transform, b: Body)
    ensures PushedBody(b, PulledTransform(t, b)) == b <==> b.rotation.w == 1.0
  {
  }

  /** A fresh entity's pose pushes its body to the origin with the identity
      quaternion (0, 0, 0, 1); so reading that pose back and pushing it again
      restores the body exactly. */
  lemma DefaultPoseIsIdentity(b: Body)
    ensures PushedBody(b, DefaultTransform()).translation == Vec3(0.0, 0.0, 0.0)
    ensures PushedBody(b, DefaultTransform()).rotation == Quat(0.0, 0.0, 0.0, 1.0)
    ensures var pushed := PushedBody(b, DefaultTransform());
            PushedBody(pushed, PulledTransform(DefaultTransform(), pushed)) == pushed
  {
  }

  // ---------------------------------------------------------------------------
  // Collider index

  /** Entity `e` is an area whose collider has handle `h`. */
  ghost predicate AreaOwns(areas: map<Entity, Area>, e: Entity, h: Handle) {
    e in areas && areas[e].collider.handle == h
  }

  /** Entity `e` holds a rigid body one of whose colliders has handle `h`. */
  ghost predicate BodyOwns(rigidBodies: map<Entity, BodyId>, bodies: map<BodyId, Body>, e: Entity, h: Handle) {
    e in rigidBodies && rigidBodies[e] in bodies && h in bodies[rigidBodies[e]].colliders
  }

  /** `index` is what the two filling loops of `physicsSystem` produce: every area
      collider and every collider of every rigid body is a key, each key maps to an
      owner, and a rigid-body owner wins over an area sharing the handle (its entry is
      written last). */
  ghost predicate IsColliderIndex(index: map<Handle, Entity>, areas: map<Entity, Area>,
                                  rigidBodies: map<Entity, BodyId>, bodies: map<BodyId, Body>)
  {
    && (forall e, h | AreaOwns(areas, e, h) :: h in index)
    && (forall e, h | BodyOwns(rigidBodies, bodies, e, h) :: h in index && BodyOwns(rigidBodies, bodies, index[h], h))
    && (forall h | h in index :: AreaOwns(areas, index[h], h) || BodyOwns(rigidBodies, bodies, index[h], h))
  }

  /** No collider handle has two owners of the same kind, as in the physics engine,
      where a handle names one collider and a collider has one parent. */
  ghost predicate HandlesUnique(areas: map<Entity, Area>, rigidBodies: map<Entity, BodyId>, bodies: map<BodyId, Body>) {
    && (forall e1, e2, h | AreaOwns(areas, e1, h) && AreaOwns(areas, e2, h) :: e1 == e2)
    && (forall e1, e2, h | BodyOwns(rigidBodies, bodies, e1, h) && BodyOwns(rigidBodies, bodies, e2, h) :: e1 == e2)
  }

  /** With unique handles the index is fully determined, whatever order the queries
      visit the entities in. */
  lemma ColliderIndexIsUnique(i1: map<Handle, Entity>, i2: map<Handle, Entity>, areas: map<Entity, Area>,
                              rigidBodies: map<Entity, BodyId>, bodies: map<BodyId, Body>)
    requires HandlesUnique(areas, rigidBodies, bodies)
    requires IsColliderIndex(i1, areas, rigidBodies, bodies) && IsColliderIndex(i2, areas, rigidBodies, bodies)
    ensures i1 == i2
  {
    forall h | h in i1 ensures h in i2 && i1[h] == i2[h] {
      if exists e :: BodyOwns(rigidBodies, bodies, e, h) {
        var e :| BodyOwns(rigidBodies, bodies, e, h);
        assert BodyOwns(rigidBodies, bodies, i1[h], h) && BodyOwns(rigidBodies, bodies, i2[h], h);
      } else {
        assert AreaOwns(areas, i1[h], h);
        assert AreaOwns(areas, i2[h], h);
      }
    }
    forall h | h in i2 ensures h in i1 {
      assert AreaOwns(areas, i2[h], h) || BodyOwns(rigidBodies, bodies, i2[h], h);
    }
  }

  // ---------------------------------------------------------------------------
  // Draining collision events

  /** The part of the world that event draining changes. */
  datatype Sensors = Sensors(areas: map<Entity, Area>, log: seq<Notice>)

  /** Does event `ev` concern the contact of `area`'s sensor with collider `other`?
      Both handles resolve, to two different entities, and one side is `area` with
      `other` on the opposite side. */
  predicate Touches(index: map<Handle, Entity>, ev: CollisionEvent, area: Entity, other: Handle) {
    && ev.handleA in index && ev.handleB in index
    && index[ev.handleA] != index[ev.handleB]
    && ((index[ev.handleA] == area && ev.handleB == other) || (index[ev.handleB] == area && ev.handleA == other))
  }

  /** The callback an area side of an event fires, if the area has it set. */
  function SideNotice(areas: map<Entity, Area>, area: Entity, other: Entity, started: bool): seq<Notice> {
    if area !in areas then []
    else if started then (if areas[area].hasOnEnter then [Entered(area, other)] else [])
    else (if areas[area].hasOnExit then [Exited(area, other)] else [])
  }

  /** One side of an event: if `area` is an area, record or drop the contact keyed by
      `otherHandle` and fire its callback. */
  function Touch(s: Sensors, area: Entity, otherHandle: Handle, other: Entity, started: bool): (r: Sensors)
    ensures r.areas.Keys == s.areas.Keys
    ensures forall e | e in s.areas && e != area :: r.areas[e] == s.areas[e]
    ensures r.log == s.log + SideNotice(s.areas, area, other, started)
  {
    if area !in s.areas then s
    else
      var ar := s.areas[area];
      if started then
        Sensors(s.areas[area := ar.(collisions := ar.collisions[otherHandle := Contact(other, otherHandle)])],
                s.log + (if ar.hasOnEnter then [Entered(area, other)] else []))
      else
        Sensors(s.areas[area := ar.(collisions := ar.collisions - {otherHandle})],
                s.log + (if ar.hasOnExit then [Exited(area, other)] else []))
  }

  /** The `drainCollisionEvents` callback for one event: an unresolved handle only
      warns, a self-contact does nothing, otherwise side A then side B is applied and
      only the areas of the two entities named change. */
  function ApplyEvent(s: Sensors, index: map<Handle, Entity>, ev: CollisionEvent): (r: Sensors)
    ensures r.areas.Keys == s.areas.Keys
    ensures ev.handleA !in index || ev.handleB !in index ==> r == Sensors(s.areas, s.log + [ColliderNotFound])
    ensures ev.handleA in index && ev.handleB in index && index[ev.handleA] == index[ev.handleB] ==> r == s
    ensures ev.handleA in index && ev.handleB in index && index[ev.handleA] != index[ev.handleB] ==>
      && r.log == s.log + SideNotice(s.areas, index[ev.handleA], index[ev.handleB], ev.started)
                        + SideNotice(s.areas, index[ev.handleB], index[ev.handleA], ev.started)
      && forall e | e in s.areas && e != index[ev.handleA] && e != index[ev.handleB] :: r.areas[e] == s.areas[e]
  {
    if ev.handleA !in index || ev.handleB !in index then Sensors(s.areas, s.log + [ColliderNotFound])
    else
      var a, b := index[ev.handleA], index[ev.handleB];
      if a == b then s
      else Touch(Touch(s, a, ev.handleB, b, ev.started), b, ev.handleA, a, ev.started)
  }

  /** What one event does to one area's contact with one collider: set on started,
      deleted on ended when the event concerns the pair, untouched otherwise. */
  lemma ApplyEventContact(s: Sensors, index: map<Handle, Entity>, ev: CollisionEvent, area: Entity, other: Handle)
    requires area in s.areas
    ensures area in ApplyEvent(s, index, ev).areas
    ensures ApplyEvent(s, index, ev).areas[area].collider == s.areas[area].collider
    ensures Lookup(ApplyEvent(s, index, ev).areas[area].collisions, other) ==
      if Touches(index, ev, area, other) then (if ev.started then Some(Contact(index[other], other)) else None)
      else Lookup(s.areas[area].collisions, other)
  {
    if ev.handleA in index && ev.handleB in index && index[ev.handleA] != index[ev.handleB] {
      var a, b := index[ev.handleA], index[ev.handleB];
      var s1 := Touch(s, a, ev.handleB, b, ev.started);
      assert area in s1.areas;
    }
  }

  /** Drains events in order. */
  function ApplyEvents(s: Sensors, index: map<Handle, Entity>, events: seq<CollisionEvent>): (r: Sensors)
    ensures r.areas.Keys == s.areas.Keys
    decreases events
  {
    if events == [] then s else ApplyEvents(ApplyEvent(s, index, events[0]), index, events[1..])
  }

  /** Reference definition of an area's contact with one collider: the last event
      that concerns the pair decides it (started: present, ended: absent); with no
      such event it stays as it was. */
  function LastContact(index: map<Handle, Entity>, events: seq<CollisionEvent>, area: Entity, other: Handle,
                       current: Option<Contact>): Option<Contact>
    decreases events
  {
    if events == [] then current
    else
      var next := if Touches(index, events[0], area, other)
                  then (if events[0].started then Some(Contact(index[other], other)) else None)
                  else current;
      LastContact(index, events[1..], area, other, next)
  }

  /** Draining events keeps every area's contact with every collider equal to the
      reference definition: no stale and no missing entries. */
  lemma {:induction false} DrainMatchesLastEvent(s: Sensors, index: map<Handle, Entity>, events: seq<CollisionEvent>,
                                                 area: Entity, other: Handle)
    requires area in s.areas
    ensures area in ApplyEvents(s, index, events).areas
    ensures Lookup(ApplyEvents(s, index, events).areas[area].collisions, other)
            == LastContact(index, events, area, other, Lookup(s.areas[area].collisions, other))
    decreases events
  {
    if events != [] {
      var s1 := ApplyEvent(s, index, events[0]);
      ApplyEventContact(s, index, events[0], area, other);
      DrainMatchesLastEvent(s1, index, events[1..], area, other);
    }
  }

  /** A self-contact (both colliders owned by one entity) changes nothing and fires
      no callback, and neither does any event that concerns no area. */
  lemma {:induction false} EventWithoutAreaIsSilent(s: Sensors, index: map<Handle, Entity>, ev: CollisionEvent)
    requires ev.handleA in index && ev.handleB in index
    requires index[ev.handleA] == index[ev.handleB] || (index[ev.handleA] !in s.areas && index[ev.handleB] !in s.areas)
    ensures ApplyEvent(s, index, ev) == s
  {
    if index[ev.handleA] != index[ev.handleB] {
      var a, b := index[ev.handleA], index[ev.handleB];
      assert Touch(s, a, ev.handleB, b, ev.started) == s;
    }
  }

  /** A sensor that one other body enters and later leaves: `onEnter` fires once,
      `onExit` fires once, and the contact is present in between and gone after. */
  lemma EnterThenExit(s: Sensors, area: Entity, other: Entity, hArea: Handle, hOther: Handle)
    requires area != other && hArea != hOther
    requires area in s.areas && other !in s.areas
    requires s.areas[area].hasOnEnter && s.areas[area].hasOnExit
    ensures var index := map[hArea := area, hOther := other];
            var enter := ApplyEvent(s, index, CollisionEvent(hArea, hOther, true));
            var exit := ApplyEvent(enter, index, CollisionEvent(hOther, hArea, false));
            && enter.log == s.log + [Entered(area, other)]
            && Lookup(enter.areas[area].collisions, hOther) == Some(Contact(other, hOther))
            && exit.log == s.log + [Entered(area, other), Exited(area, other)]
            && Lookup(exit.areas[area].collisions, hOther) == None
  {
    var index := map[hArea := area, hOther := other];
    var enter := ApplyEvent(s, index, CollisionEvent(hArea, hOther, true));
    ApplyEventContact(s, index, CollisionEvent(hArea, hOther, true), area, hOther);
    ApplyEventContact(enter, index, CollisionEvent(hOther, hArea, false), area, hOther);
    assert other !in enter.areas;
  }

  // ---------------------------------------------------------------------------
  // Rigid-body lifecycle

  /** `find`'s predicate can read the `entity` of a body's `userData` only when the
      `userData` is set; on an unset one it throws. */
  predicate Readable(bodies: map<BodyId, Body>, id: BodyId) {
    id in bodies && bodies[id].userData.Some?
  }

  predicate OwnedBy(bodies: map<BodyId, Body>, id: BodyId, e: Entity) {
    id in bodies && bodies[id].userData == Some(e)
  }

  /** How `bodies.getAll().find(...)` ends: at the position of the first body whose
      `userData` entity is `e`, with no match, or by throwing on an unset `userData`. */
  datatype Search = Found(position: nat) | NoMatch | Unreadable(position: nat)

  /** `find` over the engine's bodies in `getAll` order. */
  function FindOwnedBy(order: seq<BodyId>, bodies: map<BodyId, Body>, e: Entity): (r: Search)
    ensures r.Found? ==> r.position < |order| && OwnedBy(bodies, order[r.position], e)
    ensures r.Unreadable? ==> r.position < |order| && !Readable(bodies, order[r.position])
    ensures r.Found? || r.Unreadable? ==>
      forall j | 0 <= j < r.position :: Readable(bodies, order[j]) && !OwnedBy(bodies, order[j], e)
    ensures r.NoMatch? ==> forall j | 0 <= j < |order| :: Readable(bodies, order[j]) && !OwnedBy(bodies, order[j], e)
    decreases order
  {
    if order == [] then NoMatch
    else if !Readable(bodies, order[0]) then Unreadable(0)
    else if OwnedBy(bodies, order[0], e) then Found(0)
    else match FindOwnedBy(order[1..], bodies, e)
      case NoMatch => NoMatch
      case Found(i) => Found(i + 1)
      case Unreadable(i) => Unreadable(i + 1)
  }

  /** The engine's body set: bodies by handle, and the order `getAll` lists them in. */
  datatype BodyStore = BodyStore(bodies: map<BodyId, Body>, order: seq<BodyId>, log: seq<Notice>)

  /** The removal branch for one entity: remove the first body whose `userData` is that
      entity, or warn and skip it; `find` throws on an unset `userData` before a match. */
  function RemoveOwned(st: BodyStore, e: Entity): (r: Result<BodyStore>)
    ensures r.Err? <==> FindOwnedBy(st.order, st.bodies, e).Unreadable?
    ensures r.Err? ==> r.error == UnsetUserData
    ensures FindOwnedBy(st.order, st.bodies, e).NoMatch? ==> r == Ok(st.(log := st.log + [BodyNotFound(e)]))
    ensures FindOwnedBy(st.order, st.bodies, e).Found? ==>
      var i := FindOwnedBy(st.order, st.bodies, e).position;
      && r.Ok? && r.value.log == st.log
      && r.value.bodies == st.bodies - {st.order[i]} && r.value.order == st.order[..i] + st.order[i + 1..]
  {
    match FindOwnedBy(st.order, st.bodies, e)
    case NoMatch => Ok(st.(log := st.log + [BodyNotFound(e)]))
    case Unreadable(_) => Err(UnsetUserData)
    case Found(i) => Ok(BodyStore(st.bodies - {st.order[i]}, st.order[..i] + st.order[i + 1..], st.log))
  }

  /** The body set after the removal branch, and how the branch ended. */
  datatype Removal = Removal(store: BodyStore, outcome: Outcome)

  /** The removal branch over all removed entities in order; a throw stops it with the
      removals done so far kept. */
  function RemoveAllOwned(st: BodyStore, removed: seq<Entity>): Removal
    decreases removed
  {
    if removed == [] then Removal(st, Completed)
    else match RemoveOwned(st, removed[0])
      case Err(err) => Removal(st, Threw(err))
      case Ok(st1) => RemoveAllOwned(st1, removed[1..])
  }

  /** Removal only ever takes out bodies whose `userData` names a removed entity. */
  lemma {:induction false} RemovalKeepsOtherBodies(st: BodyStore, removed: seq<Entity>, id: BodyId)
    requires id in st.bodies
    requires st.bodies[id].userData.None? || st.bodies[id].userData.value !in removed
    ensures id in RemoveAllOwned(st, removed).store.bodies
    ensures RemoveAllOwned(st, removed).store.bodies[id] == st.bodies[id]
    decreases removed
  {
    if removed != [] && RemoveOwned(st, removed[0]).Ok? {
      var st1 := RemoveOwned(st, removed[0]).value;
      assert id in st1.bodies && st1.bodies[id] == st.bodies[id];
      RemovalKeepsOtherBodies(st1, removed[1..], id);
    }
  }

  /** When every body has its `userData` set, the removal branch cannot throw. */
  lemma {:induction false} RemovalWithReadableBodies(st: BodyStore, removed: seq<Entity>)
    requires forall i, j | 0 <= i < j < |st.order| :: st.order[i] != st.order[j]
    requires forall id | id in st.order :: Readable(st.bodies, id)
    ensures RemoveAllOwned(st, removed).outcome == Completed
    decreases removed
  {
    if removed != [] {
      assert forall j | 0 <= j < |st.order| :: Readable(st.bodies, st.order[j]);
      var f := FindOwnedBy(st.order, st.bodies, removed[0]);
      var st1 := RemoveOwned(st, removed[0]).value;
      if f.Found? {
        var i := f.position;
        forall k | 0 <= k < |st1.order| ensures st1.order[k] == st.order[if k < i then k else k + 1] {
        }
        forall id | id in st1.order ensures Readable(st1.bodies, id) {
          var k :| 0 <= k < |st1.order| && st1.order[k] == id;
          var k' := if k < i then k else k + 1;
          assert id == st.order[k'] && k' != i;
          assert id != st.order[i];
        }
      }
      RemovalWithReadableBodies(st1, removed[1..]);
    }
  }

  // ---------------------------------------------------------------------------
  // Consistency of the engine's body set with the RigidBody3D traits

  /** `order` lists each body of the engine exactly once. */
  ghost predicate OrderLists(ids: set<BodyId>, order: seq<BodyId>) {
    && (forall i, j | 0 <= i < j < |order| :: order[i] != order[j])
    && (forall id :: id in ids <==> id in order)
  }

  /** Every `RigidBody3D` trait refers to a live body of its own, whose `userData` is
      unset or names that entity. */
  ghost predicate OwnersAgree(rigidBodies: map<Entity, BodyId>, bodies: map<BodyId, Body>) {
    && (forall e | e in rigidBodies ::
          rigidBodies[e] in bodies
          && (bodies[rigidBodies[e]].userData == None || bodies[rigidBodies[e]].userData == Some(e)))
    && (forall e1, e2 | e1 in rigidBodies && e2 in rigidBodies && e1 != e2 :: rigidBodies[e1] != rigidBodies[e2])
  }

  lemma UpdateBodyKeepsOwners(rigidBodies: map<Entity, BodyId>, bodies: map<BodyId, Body>, id: BodyId, b: Body)
    requires OwnersAgree(rigidBodies, bodies)
    requires id in bodies && b.userData == bodies[id].userData
    ensures OwnersAgree(rigidBodies, bodies[id := b])
  {
  }

  lemma MarkKeepsOwners(rigidBodies: map<Entity, BodyId>, bodies: map<BodyId, Body>, e: Entity)
    requires OwnersAgree(rigidBodies, bodies) && e in rigidBodies
    ensures OwnersAgree(rigidBodies, bodies[rigidBodies[e] := bodies[rigidBodies[e]].(userData := Some(e))])
  {
  }

  /** Removing the body at position `k` of the order, whose `userData` names an entity
      that no longer holds a rigid body, keeps the body set consistent. */
  lemma RemovingUnownedBodyKeepsConsistency(rigidBodies: map<Entity, BodyId>, bodies: map<BodyId, Body>,
                                            order: seq<BodyId>, k: nat, e: Entity)
    requires OrderLists(bodies.Keys, order) && OwnersAgree(rigidBodies, bodies)
    requires e !in rigidBodies
    requires k < |order| && order[k] in bodies && bodies[order[k]].userData == Some(e)
    ensures OrderLists((bodies - {order[k]}).Keys, order[..k] + order[k + 1..])
    ensures OwnersAgree(rigidBodies, bodies - {order[k]})
  {
    var id := order[k];
    var order' := order[..k] + order[k + 1..];
    forall i | 0 <= i < |order'| ensures order'[i] == order[if i < k then i else i + 1] {
    }
    forall x ensures x in (bodies - {id}).Keys <==> x in order' {
      if x in order' {
        var i :| 0 <= i < |order'| && order'[i] == x;
      }
      if x in bodies - {id} {
        var i :| 0 <= i < |order| && order[i] == x;
        assert i != k;
        assert order'[if i < k then i else i - 1] == x;
      }
    }
    forall e' | e' in rigidBodies ensures rigidBodies[e'] != id {
    }
  }

  /** The added branch: each added entity's body records that entity as `userData`. */
  function MarkOwners(bodies: map<BodyId, Body>, rigidBodies: map<Entity, BodyId>, added: seq<Entity>): (r: map<BodyId, Body>)
    requires forall i | 0 <= i < |added| :: added[i] in rigidBodies && rigidBodies[added[i]] in bodies
    ensures r.Keys == bodies.Keys
    decreases |added|
  {
    if added == [] then bodies
    else
      var e := added[|added| - 1];
      var m := MarkOwners(bodies, rigidBodies, added[..|added| - 1]);
      m[rigidBodies[e] := m[rigidBodies[e]].(userData := Some(e))]
  }

  lemma MarkOwnersSnoc(bodies: map<BodyId, Body>, rigidBodies: map<Entity, BodyId>, added: seq<Entity>, e: Entity)
    requires forall i | 0 <= i < |added| :: added[i] in rigidBodies && rigidBodies[added[i]] in bodies
    requires e in rigidBodies && rigidBodies[e] in bodies
    ensures var m := MarkOwners(bodies, rigidBodies, added);
            MarkOwners(bodies, rigidBodies, added + [e]) == m[rigidBodies[e] := m[rigidBodies[e]].(userData := Some(e))]
  {
    assert (added + [e])[..|added|] == added;
  }

  /** After the added branch each added entity's body names it as `userData`; every
      other body, and everything but `userData`, is as before. */
  lemma {:induction false} MarkOwnersEffect(bodies: map<BodyId, Body>, rigidBodies: map<Entity, BodyId>, added: seq<Entity>,
                                            id: BodyId)
    requires OwnersAgree(rigidBodies, bodies)
    requires forall i | 0 <= i < |added| :: added[i] in rigidBodies
    requires id in bodies
    ensures var r := MarkOwners(bodies, rigidBodies, added);
            && r[id] == (if exists i :: 0 <= i < |added| && rigidBodies[added[i]] == id
                         then bodies[id].(userData := Some(var i :| 0 <= i < |added| && rigidBodies[added[i]] == id; added[i]))
                         else bodies[id])
    decreases |added|
  {
    if added != [] {
      var init := added[..|added| - 1];
      var e := added[|added| - 1];
      MarkOwnersEffect(bodies, rigidBodies, init, id);
      if rigidBodies[e] == id {
        forall i | 0 <= i < |added| && rigidBodies[added[i]] == id ensures added[i] == e {
        }
      } else {
        assert (exists i :: 0 <= i < |added| && rigidBodies[added[i]] == id)
           <==> (exists i :: 0 <= i < |init| && rigidBodies[init[i]] == id) by {
          forall i | 0 <= i < |added| && rigidBodies[added[i]] == id ensures i < |init| && init[i] == added[i] {
          }
          forall i | 0 <= i < |init| && rigidBodies[init[i]] == id ensures added[i] == init[i] {
          }
        }
        if exists i :: 0 <= i < |init| && rigidBodies[init[i]] == id {
          var i :| 0 <= i < |init| && rigidBodies[init[i]] == id;
          forall i' | 0 <= i' < |added| && rigidBodies[added[i']] == id ensures added[i'] == init[i] {
          }
        }
      }
    }
  }

  /** The loop of `IndexBodyColliders`: enter every collider of one body under its
      entity, overwriting earlier entries. */
  method IndexBodyColliders(index: map<Handle, Entity>, colliders: seq<Handle>, e: Entity) returns (r: map<Handle, Entity>)
    ensures forall h :: h in r <==> h in index || h in colliders
    ensures forall h | h in colliders :: r[h] == e
    ensures forall h | h in index && h !in colliders :: r[h] == index[h]
  {
    r := index;
    var i := 0;
    while i < |colliders|
      invariant 0 <= i <= |colliders|
      invariant forall h :: h in r <==> h in index || h in colliders[..i]
      invariant forall h | h in colliders[..i] :: r[h] == e
      invariant forall h | h in index && h !in colliders[..i] :: r[h] == index[h]
    {
      assert colliders[..i + 1] == colliders[..i] + [colliders[i]];
      r := r[colliders[i] := e];
      i := i + 1;
    }
    assert colliders[..i] == colliders;
  }

  /** Every body of an entity in `done` holds the pose pushed from its transform. */
  ghost predicate PushedFor(bodies0: map<BodyId, Body>, bodies: map<BodyId, Body>, transforms: map<Entity, Transform>,
                            rigidBodies: map<Entity, BodyId>, done: set<Entity>)
    requires done <= transforms.Keys * rigidBodies.Keys
    requires bodies.Keys == bodies0.Keys && OwnersAgree(rigidBodies, bodies)
  {
    forall e | e in done :: bodies[rigidBodies[e]] == PushedBody(bodies0[rigidBodies[e]], transforms[e])
  }

  /** Every body that no entity in `done` holds is as it was. */
  ghost predicate UntouchedOutside(bodies0: map<BodyId, Body>, bodies: map<BodyId, Body>,
                                   rigidBodies: map<Entity, BodyId>, done: set<Entity>)
    requires done <= rigidBodies.Keys && bodies.Keys == bodies0.Keys
  {
    forall id | id in bodies && (forall e | e in done :: rigidBodies[e] != id) :: bodies[id] == bodies0[id]
  }

  /** Pushing the pose of one more entity keeps both facts, for the enlarged set. */
  lemma PushStep(bodies0: map<BodyId, Body>, bodies: map<BodyId, Body>, transforms: map<Entity, Transform>,
                 rigidBodies: map<Entity, BodyId>, done: set<Entity>, e: Entity)
    requires done <= transforms.Keys * rigidBodies.Keys && e in transforms && e in rigidBodies && e !in done
    requires bodies.Keys == bodies0.Keys && OwnersAgree(rigidBodies, bodies)
    requires PushedFor(bodies0, bodies, transforms, rigidBodies, done)
    requires UntouchedOutside(bodies0, bodies, rigidBodies, done)
    ensures var id := rigidBodies[e];
            var bodies' := bodies[id := PushedBody(bodies[id], transforms[e])];
            && OwnersAgree(rigidBodies, bodies')
            && PushedFor(bodies0, bodies', transforms, rigidBodies, done + {e})
            && UntouchedOutside(bodies0, bodies', rigidBodies, done + {e})
  {
    var id := rigidBodies[e];
    assert forall e' | e' in done :: rigidBodies[e'] != id;
    UpdateBodyKeepsOwners(rigidBodies, bodies, id, PushedBody(bodies[id], transforms[e]));
  }

  // ---------------------------------------------------------------------------
  // The world

  /** The ECS world's physics-related traits together with the physics world. */
  class World {
    var transforms: map<Entity, Transform>   // the Transform trait
    var areas: map<Entity, Area>             // the Area3D trait
    var rigidBodies: map<Entity, BodyId>     // the RigidBody3D trait (a body reference)
    var hasPhysicsWorld: bool                // the GlobalPhysicsWorld trait is present
    var bodies: map<BodyId, Body>            // the physics world's rigid bodies
    var bodyOrder: seq<BodyId>               // ... in the order getAll lists them
    var log: seq<Notice>

    ghost predicate Valid()
      reads this
    {
      OrderLists(bodies.Keys, bodyOrder) && OwnersAgree(rigidBodies, bodies)
    }

    constructor (withPhysicsWorld: bool)
      ensures Valid()
      ensures transforms == map[] && areas == map[] && rigidBodies == map[]
      ensures hasPhysicsWorld == withPhysicsWorld && bodies == map[] && bodyOrder == [] && log == []
    {
      transforms, areas, rigidBodies := map[], map[], map[];
      hasPhysicsWorld := withPhysicsWorld;
      bodies, bodyOrder, log := map[], [], [];
    }

    /** `createArea3D`: a sensor with collision events on, no contacts, no callbacks. */
    function CreateArea3D(desc: Collider): (r: Result<Area>)
      reads this
      ensures r.Ok? <==> hasPhysicsWorld
      ensures r.Err? ==> r.error == Plain("GlobalPhysicsWorld not found in world")
      ensures r.Ok? ==> r.value.collider.handle == desc.handle && r.value.collider.sensor && r.value.collider.collisionEvents
      ensures r.Ok? ==> r.value.collisions == map[] && !r.value.hasOnEnter && !r.value.hasOnExit
    {
      if !hasPhysicsWorld then Err(Plain("GlobalPhysicsWorld not found in world"))
      else Ok(Area(desc.(sensor := true, collisionEvents := true), map[], false, false))
    }

    /** The two loops of `physicsSystem` that fill the collider map: areas first, then
        every collider of every rigid body. */
    method BuildColliderIndex() returns (index: map<Handle, Entity>)
      requires Valid()
      ensures IsColliderIndex(index, areas, rigidBodies, bodies)
    {
      index := map[];
      var pendingAreas := areas.Keys;
      while pendingAreas != {}
        invariant pendingAreas <= areas.Keys
        invariant forall e, h | e !in pendingAreas && AreaOwns(areas, e, h) :: h in index
        invariant forall h | h in index :: AreaOwns(areas, index[h], h)
        decreases pendingAreas
      {
        var e :| e in pendingAreas;
        index := index[areas[e].collider.handle := e];
        pendingAreas := pendingAreas - {e};
      }

      var pendingBodies := rigidBodies.Keys;
      while pendingBodies != {}
        invariant pendingBodies <= rigidBodies.Keys
        invariant forall e, h | AreaOwns(areas, e, h) :: h in index
        invariant forall e, h | e !in pendingBodies && BodyOwns(rigidBodies, bodies, e, h) ::
          h in index && BodyOwns(rigidBodies, bodies, index[h], h)
        invariant forall h | h in index :: AreaOwns(areas, index[h], h) || BodyOwns(rigidBodies, bodies, index[h], h)
        decreases pendingBodies
      {
        var e :| e in pendingBodies;
        var colliders := bodies[rigidBodies[e]].colliders;
        index := IndexBodyColliders(index, colliders, e);
        pendingBodies := pendingBodies - {e};
      }
    }

    /** `physicsSystem`: step the engine (its events are `events`), index the
        colliders, then apply the events in drain order. */
    method PhysicsStep(events: seq<CollisionEvent>) returns (outcome: Outcome, ghost index: map<Handle, Entity>)
      requires Valid()
      modifies this
      ensures Valid()
      ensures transforms == old(transforms) && rigidBodies == old(rigidBodies) && hasPhysicsWorld == old(hasPhysicsWorld)
      // the engine step's motion of the bodies is not modelled: their poses stay as they were
      ensures bodies == old(bodies) && bodyOrder == old(bodyOrder)
      ensures !hasPhysicsWorld ==>
        outcome == Threw(GlobalNotFound(GlobalPhysicsWorld, Some("Physics"))) && areas == old(areas) && log == old(log)
      ensures hasPhysicsWorld ==>
        && outcome == Completed
        && IsColliderIndex(index, old(areas), rigidBodies, bodies)
        && Sensors(areas, log) == ApplyEvents(Sensors(old(areas), old(log)), index, events)
    {
      index := map[];
      if !hasPhysicsWorld {
        return Threw(GlobalNotFound(GlobalPhysicsWorld, Some("Physics"))), index;
      }
      var colliderMap := BuildColliderIndex();
      index := colliderMap;
      ghost var start := Sensors(areas, log);
      var i := 0;
      while i < |events|
        invariant 0 <= i <= |events|
        invariant transforms == old(transforms) && rigidBodies == old(rigidBodies) && hasPhysicsWorld == old(hasPhysicsWorld)
        invariant bodies == old(bodies) && bodyOrder == old(bodyOrder)
        invariant ApplyEvents(Sensors(areas, log), colliderMap, events[i..]) == ApplyEvents(start, colliderMap, events)
      {
        assert events[i..][1..] == events[i + 1..];
        var ev := events[i];
        if ev.handleA !in colliderMap || ev.handleB !in colliderMap {
          log := log + [ColliderNotFound];
        } else {
          var a, b := colliderMap[ev.handleA], colliderMap[ev.handleB];
          if a != b {
            var s := Touch(Touch(Sensors(areas, log), a, ev.handleB, b, ev.started), b, ev.handleA, a, ev.started);
            areas, log := s.areas, s.log;
          }
        }
        i := i + 1;
      }
      outcome := Completed;
    }

    /** `syncTransformToRigidbodySystem`: push every entity's pose into its body. */
    method SyncTransformToRigidbody()
      requires Valid()
      modifies this
      ensures Valid()
      ensures transforms == old(transforms) && areas == old(areas) && rigidBodies == old(rigidBodies)
      ensures hasPhysicsWorld == old(hasPhysicsWorld) && bodyOrder == old(bodyOrder) && log == old(log)
      ensures bodies.Keys == old(bodies).Keys
      ensures forall e | e in transforms && e in rigidBodies ::
        bodies[rigidBodies[e]] == PushedBody(old(bodies)[rigidBodies[e]], transforms[e])
      ensures forall id | id in bodies && (forall e | e in transforms && e in rigidBodies :: rigidBodies[e] != id) ::
        bodies[id] == old(bodies)[id]
    {
      var pending := transforms.Keys * rigidBodies.Keys;
      ghost var done: set<Entity> := {};
      while pending != {}
        invariant pending + done == transforms.Keys * rigidBodies.Keys && pending !! done
        invariant transforms == old(transforms) && areas == old(areas) && rigidBodies == old(rigidBodies)
        invariant hasPhysicsWorld == old(hasPhysicsWorld) && bodyOrder == old(bodyOrder) && log == old(log)
        invariant bodies.Keys == old(bodies).Keys
        invariant OwnersAgree(rigidBodies, bodies)
        invariant PushedFor(old(bodies), bodies, transforms, rigidBodies, done)
        invariant UntouchedOutside(old(bodies), bodies, rigidBodies, done)
        decreases pending
      {
        var e :| e in pending;
        ghost var before := bodies;
        PushPose(e);
        PushStep(old(bodies), before, transforms, rigidBodies, done, e);
        pending, done := pending - {e}, done + {e};
      }
    }

    /** One entity of `syncTransformToRigidbodySystem`: its body takes its pose. */
    method PushPose(e: Entity)
      requires e in transforms && e in rigidBodies && OwnersAgree(rigidBodies, bodies)
      modifies this
      ensures OwnersAgree(rigidBodies, bodies)
      ensures transforms == old(transforms) && areas == old(areas) && rigidBodies == old(rigidBodies)
      ensures hasPhysicsWorld == old(hasPhysicsWorld) && bodyOrder == old(bodyOrder) && log == old(log)
      ensures bodies == old(bodies)[rigidBodies[e] := PushedBody(old(bodies)[rigidBodies[e]], transforms[e])]
    {
      var id := rigidBodies[e];
      UpdateBodyKeepsOwners(rigidBodies, bodies, id, PushedBody(bodies[id], transforms[e]));
      bodies := bodies[id := PushedBody(bodies[id], transforms[e])];
    }

    /** `syncTransformToArea3DSystem`: push every entity's pose into its area collider. */
    method SyncTransformToArea3D()
      requires Valid()
      modifies this
      ensures Valid()
      ensures transforms == old(transforms) && rigidBodies == old(rigidBodies) && bodies == old(bodies)
      ensures hasPhysicsWorld == old(hasPhysicsWorld) && bodyOrder == old(bodyOrder) && log == old(log)
      ensures areas.Keys == old(areas).Keys
      ensures forall e | e in areas ::
        areas[e] == if e in transforms then old(areas)[e].(collider := PushedCollider(old(areas)[e].collider, transforms[e]))
                    else old(areas)[e]
    {
      var pending := transforms.Keys * areas.Keys;
      while pending != {}
        invariant pending <= transforms.Keys * areas.Keys
        invariant transforms == old(transforms) && rigidBodies == old(rigidBodies) && bodies == old(bodies)
        invariant hasPhysicsWorld == old(hasPhysicsWorld) && bodyOrder == old(bodyOrder) && log == old(log)
        invariant areas.Keys == old(areas).Keys
        invariant forall e | e in areas ::
          areas[e] == if e in transforms && e !in pending
                      then old(areas)[e].(collider := PushedCollider(old(areas)[e].collider, transforms[e]))
                      else old(areas)[e]
        decreases pending
      {
        var e :| e in pending;
        var area := areas[e];
        areas := areas[e := area.(collider := PushedCollider(area.collider, transforms[e]))];
        pending := pending - {e};
      }
    }

    /** `syncRigidbodyToTransformSystem`: pull every body's pose into its entity's
        transform. */
    method SyncRigidbodyToTransform()
      requires Valid()
      modifies this
      ensures Valid()
      ensures areas == old(areas) && rigidBodies == old(rigidBodies) && bodies == old(bodies)
      ensures hasPhysicsWorld == old(hasPhysicsWorld) && bodyOrder == old(bodyOrder) && log == old(log)
      ensures transforms.Keys == old(transforms).Keys
      ensures forall e | e in transforms ::
        transforms[e] == if e in rigidBodies then PulledTransform(old(transforms)[e], bodies[rigidBodies[e]])
                         else old(transforms)[e]
    {
      var pending := transforms.Keys * rigidBodies.Keys;
      while pending != {}
        invariant pending <= transforms.Keys * rigidBodies.Keys
        invariant areas == old(areas) && rigidBodies == old(rigidBodies) && bodies == old(bodies)
        invariant hasPhysicsWorld == old(hasPhysicsWorld) && bodyOrder == old(bodyOrder) && log == old(log)
        invariant transforms.Keys == old(transforms).Keys
        invariant forall e | e in transforms ::
          transforms[e] == if e in rigidBodies && e !in pending
                           then PulledTransform(old(transforms)[e], bodies[rigidBodies[e]])
                           else old(transforms)[e]
        decreases pending
      {
        var e :| e in pending;
        transforms := transforms[e := PulledTransform(transforms[e], bodies[rigidBodies[e]])];
        pending := pending - {e};
      }
    }

    /** `rigidbodyLifecycleSystem`: `added` and `removed` are the entities the added-
        and removed-trait queries report. Each added entity's body gets the entity as
        its `userData`; then each removed entity's body is found and removed. */
    method RigidbodyLifecycle(added: seq<Entity>, removed: seq<Entity>) returns (outcome: Outcome)
      requires Valid()
      requires forall i | 0 <= i < |added| :: added[i] in rigidBodies
      requires forall i | 0 <= i < |removed| :: removed[i] !in rigidBodies
      modifies this
      ensures Valid()
      ensures transforms == old(transforms) && areas == old(areas) && rigidBodies == old(rigidBodies)
      ensures hasPhysicsWorld == old(hasPhysicsWorld)
      ensures var marked := BodyStore(MarkOwners(old(bodies), rigidBodies, added), old(bodyOrder), old(log));
              if removed != [] && !hasPhysicsWorld
              then outcome == Threw(GlobalNotFound(GlobalPhysicsWorld, Some("Physics")))
                   && BodyStore(bodies, bodyOrder, log) == marked
              else Removal(BodyStore(bodies, bodyOrder, log), outcome) == RemoveAllOwned(marked, removed)
    {
      MarkAdded(added);
      outcome := RemoveBodiesOf(removed);
    }

    /** The added branch of `rigidbodyLifecycleSystem`. */
    method MarkAdded(added: seq<Entity>)
      requires Valid()
      requires forall i | 0 <= i < |added| :: added[i] in rigidBodies
      modifies this
      ensures Valid()
      ensures transforms == old(transforms) && areas == old(areas) && rigidBodies == old(rigidBodies)
      ensures hasPhysicsWorld == old(hasPhysicsWorld) && bodyOrder == old(bodyOrder) && log == old(log)
      ensures bodies == MarkOwners(old(bodies), rigidBodies, added)
    {
      var i := 0;
      while i < |added|
        invariant 0 <= i <= |added|
        invariant transforms == old(transforms) && areas == old(areas) && rigidBodies == old(rigidBodies)
        invariant hasPhysicsWorld == old(hasPhysicsWorld) && bodyOrder == old(bodyOrder) && log == old(log)
        invariant bodies.Keys == old(bodies).Keys
        invariant OwnersAgree(rigidBodies, bodies)
        invariant bodies == MarkOwners(old(bodies), rigidBodies, added[..i])
      {
        var e := added[i];
        var id := rigidBodies[e];
        MarkKeepsOwners(rigidBodies, bodies, e);
        MarkOwnersSnoc(old(bodies), rigidBodies, added[..i], e);
        assert added[..i + 1] == added[..i] + [e];
        bodies := bodies[id := bodies[id].(userData := Some(e))];
        i := i + 1;
      }
      assert added[..i] == added;
    }

    /** The removed branch for one entity, with a physics world present: the `find`
        and the removal (or the warning). */
    method RemoveBodyOf(e: Entity) returns (outcome: Outcome)
      requires Valid() && e !in rigidBodies
      modifies this
      ensures Valid()
      ensures transforms == old(transforms) && areas == old(areas) && rigidBodies == old(rigidBodies)
      ensures hasPhysicsWorld == old(hasPhysicsWorld)
      ensures RemoveOwned(BodyStore(old(bodies), old(bodyOrder), old(log)), e)
              == if outcome.Threw? then Err(UnsetUserData) else Ok(BodyStore(bodies, bodyOrder, log))
      ensures outcome.Threw? ==> outcome == Threw(UnsetUserData)
      ensures outcome.Threw? ==> bodies == old(bodies) && bodyOrder == old(bodyOrder) && log == old(log)
    {
      var found := FindOwnedBy(bodyOrder, bodies, e);
      if found.Unreadable? {
        return Threw(UnsetUserData);
      } else if found.NoMatch? {
        log := log + [BodyNotFound(e)];
      } else {
        var k := found.position;
        RemovingUnownedBodyKeepsConsistency(rigidBodies, bodies, bodyOrder, k, e);
        bodies := bodies - {bodyOrder[k]};
        bodyOrder := bodyOrder[..k] + bodyOrder[k + 1..];
      }
      outcome := Completed;
    }

    /** The removed branch of `rigidbodyLifecycleSystem`. */
    method RemoveBodiesOf(removed: seq<Entity>) returns (outcome: Outcome)
      requires Valid()
      requires forall i | 0 <= i < |removed| :: removed[i] !in rigidBodies
      modifies this
      ensures Valid()
      ensures transforms == old(transforms) && areas == old(areas) && rigidBodies == old(rigidBodies)
      ensures hasPhysicsWorld == old(hasPhysicsWorld)
      ensures if removed != [] && !hasPhysicsWorld
              then outcome == Threw(GlobalNotFound(GlobalPhysicsWorld, Some("Physics")))
                   && bodies == old(bodies) && bodyOrder == old(bodyOrder) && log == old(log)
              else Removal(BodyStore(bodies, bodyOrder, log), outcome)
                     == RemoveAllOwned(BodyStore(old(bodies), old(bodyOrder), old(log)), removed)
    {
      ghost var start := BodyStore(bodies, bodyOrder, log);
      var j := 0;
      while j < |removed|
        invariant 0 <= j <= |removed|
        invariant transforms == old(transforms) && areas == old(areas) && rigidBodies == old(rigidBodies)
        invariant hasPhysicsWorld == old(hasPhysicsWorld)
        invariant Valid()
        invariant j > 0 ==> hasPhysicsWorld
        invariant j == 0 ==> BodyStore(bodies, bodyOrder, log) == start
        invariant RemoveAllOwned(BodyStore(bodies, bodyOrder, log), removed[j..]) == RemoveAllOwned(start, removed)
      {
        if !hasPhysicsWorld {
          return Threw(GlobalNotFound(GlobalPhysicsWorld, Some("Physics")));
        }
        assert removed[j..][1..] == removed[j + 1..];
        outcome := RemoveBodyOf(removed[j]);
        if outcome.Threw? {
          return;
        }
        j := j + 1;
      }
      outcome := Completed;
    }
  }
}
