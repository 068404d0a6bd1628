# SBX engine core, modelled in Dafny

SBX is a small TypeScript game engine built on an ECS world (koota), a physics engine
(Rapier), three.js rendering and Web Audio. This project models the engine's own logic
around those libraries and proves properties of it:

- **Frame driver** (`core.dfy`, module `Core`). `Game.Loop` turns a wall-clock time
  into a delta in seconds. It runs the fixed-rate schedule once per whole 1/60 s in
  the accumulator and keeps the remainder. It then runs the variable-rate schedule once
  with the full delta, and requests the next frame. `loop` has no `try`: a system that
  throws during a run ends the frame at once, and no further frame is ever requested.
  Which run throws is a parameter of `Game.Loop`. `Game.Start` builds both schedules
  and stamps the start time. Schedule runs are recorded in a log; their contents are
  opaque, except `input.update()`, which the engine itself places on the update
  schedule.
- **Keyboard edge state** (`core.dfy`, class `Input`). This is a per-key record of
  pressed / just pressed / just released. It changes on `keydown`, `keyup` and the
  per-frame `update()`. Every transition keeps "just pressed implies down" and "just
  released implies up". The keyboard table is also specified by pure functions, and
  lemmas about whole press/frame/release sequences are stated on those.
- **Physics systems** (`physics.dfy`, module `Physics`, class `World`):
  - the collider index that `physicsSystem` builds from areas and rigid bodies;
  - the draining of collision events into each sensor's `collisions` record and its
    `onEnter`/`onExit` callbacks (recorded as a notice log);
  - the three pose-sync passes;
  - `rigidbodyLifecycleSystem`, which tags added bodies and removes the bodies of
    removed entities;
  - `createArea3D`'s initial sensor state.

  Draining is specified by a pure left fold, `ApplyEvents`. It is proved against a
  per-contact reference definition, `LastContact`: the last event that concerns a pair
  decides whether the contact is recorded.
- **Audio bus registry** (`audio.dfy`, module `Audio`). It covers `AudioBus`, the
  `AudioBusManager` with its master bus, its name→bus table and its throwing lookup,
  and `audioRoutingSystem`. Gain nodes become a `gain` field plus the list of sinks a
  bus's output is connected to.
  - The master bus is never entered in the table.
  - New audio sources ask for the bus "master".
  - Routing a default source therefore throws `AudioBusNotFoundError`, unless a bus
    named "master" was created explicitly (`DefaultSourceWithoutMasterEntry`). The
    routing system runs on the update schedule, so this throw stops the game loop.
- **Debug meshes** (`physics_graphics.dfy`, module `PhysicsGraphics`). Maps a
  collider shape to a wireframe sphere or box of the same extents, with white (body)
  or yellow (area) as the default colour.
- **Error messages** (`errors.dfy`, module `Errors`). Covers the message of
  `GlobalNotFoundError` and the shared `Option`, `Result` and `Outcome` types. A
  thrown exception is modelled as a returned `Threw`/`Err` value.

Entities, collider handles and body handles are opaque numbers. Times and poses are
exact `real`s.

The rigid-body removal branch uses `find` over all bodies, reading `userData.entity`.
A body whose `userData` was never set therefore makes the system throw a `TypeError`,
if `find` reaches it before a match. The model keeps this behaviour: `FindOwnedBy`
returns `Unreadable`, and the system ends with `Threw(UnsetUserData)`.
`RemovalWithReadableBodies` shows that this cannot happen when every body has its
`userData` set.

## Model

| member | source | states |
|---|---|---|
| Errors.GlobalNotFoundMessage | packages/core/src/errors/global-not-found-error.ts:1-9 | the base text `name + " not found in world."` is always a prefix; with a falsy module the message is exactly the base text; with a truthy module the rest is the "Did you forget to initialize the … module?" hint |
| Errors.EmptyModuleIsAbsent | packages/core/src/errors/global-not-found-error.ts:4 | an empty module name gives the same message as no module (truthiness test) |
| Errors.MessageDeterminesName | packages/core/src/errors/global-not-found-error.ts:3-7 | for a fixed module argument, equal messages mean equal global names |
| Errors.HintIsVisible | packages/core/src/errors/global-not-found-error.ts:3-6 | a message with a non-empty module hint never equals a message without one |
| Core.Pressing | packages/core/src/core.ts:24-31 | keydown on a key that is up sets (pressed, justPressed, not justReleased); on a key that is down it changes nothing; the key is down afterwards; the edge invariant is kept |
| Core.Releasing | packages/core/src/core.ts:33-39 | keyup sets (up, not justPressed, justReleased) for any key, including unseen ones, and leaves every other key as it was; the edge invariant is kept |
| Core.ClearEdges | packages/core/src/core.ts:54-63 | update clears both edge flags of every key, keeps every pressed level and the set of known keys, and yields a consistent table |
| Core.HeldKeyIsJustPressedOnce | packages/core/src/core.ts:24-31 | repeated keydowns of a held key after a frame leave it down and not just pressed |
| Core.PressReleaseCycle | packages/core/src/core.ts:24-63 | press, frame, release, frame: just pressed after the press, just released after the release, all-false at the end |
| Core.Input.constructor | packages/core/src/core.ts:18-21 | the key table starts empty (and so consistent) |
| Core.Input.KeyDown | packages/core/src/core.ts:24-32 | the table becomes `Pressing(old table, code)`; the edge invariant is preserved |
| Core.Input.KeyUp | packages/core/src/core.ts:33-39 | the table becomes `Releasing(old table, code)`; the edge invariant is preserved |
| Core.Input.IsKeyPressed | packages/core/src/core.ts:42-44 | reads the pressed level of the code, false for an unknown code |
| Core.Input.IsKeyJustPressed | packages/core/src/core.ts:46-48 | reads the justPressed flag, false for an unknown code; under the invariant it implies the key is pressed |
| Core.Input.IsKeyJustReleased | packages/core/src/core.ts:50-52 | reads the justReleased flag, false for an unknown code; under the invariant it implies the key is not pressed |
| Core.Input.Update | packages/core/src/core.ts:54-63 | the for-in loop leaves the table equal to `ClearEdges` of the old one |
| Core.FixedSteps | packages/core/src/core.ts:97-102 | for a non-negative total, the steps taken leave between 0 and 1/60 s; below 1/60 s no step is taken |
| Core.FixedStepsIsFloor | packages/core/src/core.ts:97-102 | the fixed loop runs exactly floor(total·60) times and leaves an accumulator in [0, 1/60) |
| Core.StepsCompose | packages/core/src/core.ts:97-102 | carrying the leftover into the next frame loses no time: the steps of two frames add up to the steps of their combined time, and the leftovers agree |
| Core.StepsOverFrames | packages/core/src/core.ts:91-102 | over any run of frames, the fixed schedule runs floor((acc + Σdelta)·60) times in all, and the accumulator holds exactly the unconsumed time |
| Core.ThreeFrameExample | packages/core/src/core.ts:97-102 | frames of 0.01, 0.02 and 0.05 s run the fixed schedule 4 times and leave 0.08 − 4/60 s |
| Core.Game.constructor | packages/core/src/core.ts:71-74 | a fresh input tracker, zero last frame time and zero accumulator |
| Core.Game.Loop | packages/core/src/core.ts:91-108 | delta = (now − last)/1000; last := now; the fixed schedule runs FixedSteps(acc + delta) times with 1/60 and the accumulator keeps acc + delta − n/60 (in [0, 1/60) when acc ≥ 0, time does not go back and the frame completes); then one variable run with the full delta, which clears the input edges, then the next frame is requested. If fixed run k < n throws, the frame stops there: the accumulator keeps acc + delta − k/60, the edges are not cleared and no frame is requested; if the variable run throws, no frame is requested and the edges are cleared only if `input.update()` had already run |
| Core.Game.Start | packages/core/src/core.ts:110-118 | both schedules are built, last frame time := now, a frame is requested, and the callback runs once exactly when given; the accumulator is untouched |
| Physics.DefaultPoseIsIdentity | packages/core/src/core.ts:11-15 | a fresh Transform (zero position and rotation, unit scale) pushes its body to the origin with the identity quaternion (0, 0, 0, 1), so pull-then-push restores that body exactly |
| Physics.PullUndoesPush | packages/core/src/modules/physics.ts:46-79 | for a pose with zero rotation, pulling a pose that was just pushed gives back the same transform; with any other rotation the engine normalises the quaternion and the round trip does not hold |
| Physics.PushUndoesPullIffUnitW | packages/core/src/modules/physics.ts:46-79 | pushing a pulled pose restores the body exactly when its quaternion has w = 1 |
| Physics.ColliderIndexIsUnique | packages/core/src/modules/physics.ts:91-102 | with unique handles, any two maps the filling loops can produce are equal (the query order does not matter) |
| Physics.IndexBodyColliders | packages/core/src/modules/physics.ts:97-101 | every collider of the body is entered under its entity, and other entries are kept |
| Physics.Touch | packages/core/src/modules/physics.ts:118-135 | one area side of an event changes only that area, and appends its callback notice if the callback is set |
| Physics.ApplyEvent | packages/core/src/modules/physics.ts:104-137 | an unresolved handle only warns; a self-contact changes nothing; otherwise side A's notice precedes side B's, and only the two named areas change |
| Physics.ApplyEventContact | packages/core/src/modules/physics.ts:118-135 | for each area and collider, a started event concerning the pair records {otherEntity, otherCollider}, an ended one deletes it (present or not), and any other event leaves it |
| Physics.ApplyEvents | packages/core/src/modules/physics.ts:104 | draining keeps the set of areas |
| Physics.DrainMatchesLastEvent | packages/core/src/modules/physics.ts:104-137 | after draining in order, each area's contact with each collider is what the last event concerning the pair decided |
| Physics.EventWithoutAreaIsSilent | packages/core/src/modules/physics.ts:111-117 | a self-contact, or an event between two non-areas, changes no collisions record and fires nothing |
| Physics.EnterThenExit | packages/core/src/modules/physics.ts:118-135 | a body entering then leaving a sensor fires onEnter then onExit once each; the contact is present in between and gone after |
| Physics.FindOwnedBy | packages/core/src/modules/physics.ts:37 | `find` returns the first body in getAll order whose userData entity matches, reports no match, or throws at the first body whose userData is unset |
| Physics.RemoveOwned | packages/core/src/modules/physics.ts:37-42 | removes exactly the found body (from the set and from the order), warns when none matches, and throws on an unset userData |
| Physics.RemovalKeepsOtherBodies | packages/core/src/modules/physics.ts:31-43 | a body whose userData names no removed entity survives the removal branch unchanged |
| Physics.RemovalWithReadableBodies | packages/core/src/modules/physics.ts:31-43 | with a physics world present and every body's userData set, the removal branch never throws |
| Physics.MarkOwners | packages/core/src/modules/physics.ts:26-29 | the added branch keeps the set of bodies |
| Physics.MarkOwnersEffect | packages/core/src/modules/physics.ts:26-29 | after the added branch, each added entity's body has that entity as userData, and every other body is unchanged |
| Physics.UpdateBodyKeepsOwners | packages/core/src/modules/physics.ts:46-54 | overwriting a body's pose keeps each rigid body trait pointing at a live body of its own |
| Physics.MarkKeepsOwners | packages/core/src/modules/physics.ts:26-29 | tagging a body with its own entity keeps that agreement |
| Physics.RemovingUnownedBodyKeepsConsistency | packages/core/src/modules/physics.ts:37-42 | removing a body whose entity no longer holds the trait keeps the order duplicate-free and in step with the body set |
| Physics.World.CreateArea3D | packages/core/src/modules/physics.ts:167-178 | without a physics world it throws "GlobalPhysicsWorld not found in world"; otherwise the collider is a sensor with collision events, with no contacts and no callbacks |
| Physics.World.BuildColliderIndex | packages/core/src/modules/physics.ts:90-102 | the map built covers every area collider and every rigid-body collider, maps each handle to an owner, and a rigid body wins a shared handle |
| Physics.World.PhysicsStep | packages/core/src/modules/physics.ts:81-138 | without a physics world it throws GlobalNotFoundError(…, "Physics") and changes nothing; otherwise the areas and notices become the in-order drain `ApplyEvents` of the events over a valid collider index, and the model's step leaves body poses and transforms as they were (engine motion not modelled) |
| Physics.World.SyncTransformToRigidbody | packages/core/src/modules/physics.ts:46-54 | each body of an entity with a Transform takes its position and (rx, ry, rz, 1); other bodies and all other state are unchanged |
| Physics.World.PushPose | packages/core/src/modules/physics.ts:48-53 | one entity of the push pass: only its own body changes, to `PushedBody` of its transform, and owner agreement is kept |
| Physics.World.SyncTransformToArea3D | packages/core/src/modules/physics.ts:56-64 | each area collider of an entity with a Transform takes its pose; other areas are unchanged |
| Physics.World.SyncRigidbodyToTransform | packages/core/src/modules/physics.ts:66-79 | each Transform of an entity with a body takes the body's translation and quaternion x/y/z, and keeps its scale; other transforms are unchanged |
| Physics.World.RigidbodyLifecycle | packages/core/src/modules/physics.ts:25-44 | added entities' bodies are tagged first; then, with removals and no physics world, it throws GlobalNotFoundError(…, "Physics"); otherwise the bodies, order and warnings are `RemoveAllOwned` of the tagged store |
| Physics.World.MarkAdded | packages/core/src/modules/physics.ts:26-29 | the bodies become `MarkOwners` of the old bodies, and the world stays consistent |
| Physics.World.RemoveBodyOf | packages/core/src/modules/physics.ts:37-42 | one removed entity: the store becomes `RemoveOwned` of the old one (body removed or warning); on an unset userData it throws and changes nothing |
| Physics.World.RemoveBodiesOf | packages/core/src/modules/physics.ts:31-43 | throws on the first removed entity when no physics world exists; otherwise the result and outcome are `RemoveAllOwned` over the removed entities in order |
| Audio.AudioBusNotFoundMessage | packages/core/src/modules/audio.ts:6-12 | the message quotes the bus name right after `Bus "` |
| Audio.BusMessageDeterminesName | packages/core/src/modules/audio.ts:6-12 | equal messages mean equal bus names |
| Audio.AudioBusOptions.constructor | packages/core/src/modules/audio.ts:14 | an options record with the given parent and initial gain |
| Audio.AudioBus.constructor | packages/core/src/modules/audio.ts:22-36 | name as given, gain = initial gain (default 1.0), and the output is connected to the parent's input exactly when a parent is given |
| Audio.AudioBus.SetGain | packages/core/src/modules/audio.ts:38-40 | the gain becomes the value and the connections are unchanged |
| Audio.AudioBusManager.constructor | packages/core/src/modules/audio.ts:48-52 | a fresh "master" bus at gain 1.0 connected to the destination, and an empty table |
| Audio.AudioBusManager.GetBus | packages/core/src/modules/audio.ts:64-69 | Ok with the registered bus exactly when the name is in the table, otherwise AudioBusNotFoundError(name); never returns master |
| Audio.AudioBusManager.CreateBus | packages/core/src/modules/audio.ts:54-62 | a missing parent in the caller's options is set to master; a fresh bus built from the options is connected to that parent and stored under the name, replacing any earlier one; getBus(name) then returns it and other names are unaffected |
| Audio.AudioBusManager.RouteSources | packages/core/src/modules/audio.ts:101-106 | sources are routed in order to their registered buses; the first source whose bus is missing throws AudioBusNotFoundError with its name |
| Audio.AudioRoutingSystem | packages/core/src/modules/audio.ts:95-107 | with no manager it throws GlobalNotFoundError(…, "Audio"); otherwise changed sources, then added ones, are routed until the first missing bus throws |
| Audio.DefaultSourceWithoutMasterEntry | packages/core/src/modules/audio.ts:46-69 | with a fresh manager, routing a source that keeps its default bus "master" (the trait default at audio.ts:87-90) throws AudioBusNotFoundError("master"), since master is never entered in the table |
| PhysicsGraphics.CreateMeshFromCollider | packages/core/src/modules/integrations/physics-graphics.ts:5-25 | a ball gives a sphere and a cuboid a box, with the same half-extents as the collider; the material is wireframe in the given colour (white by default); any other shape throws "Collider shape type not supported for debug mesh" |
| PhysicsGraphics.CreateRigidBodyDebugMesh | packages/core/src/modules/integrations/physics-graphics.ts:34-41 | drawn from collider 0 only, white by default, with that collider's extents; a body with no collider fails in the engine |
| PhysicsGraphics.CreateAreaDebugMesh | packages/core/src/modules/integrations/physics-graphics.ts:43-49 | the area collider's mesh, yellow by default, with its extents; unsupported shapes throw |
| PhysicsGraphics.OnlyFirstColliderDrawn | packages/core/src/modules/integrations/physics-graphics.ts:27-40 | colliders after the first never change a body's debug mesh |
| PhysicsGraphics.DefaultColours | packages/core/src/modules/integrations/physics-graphics.ts:34-49 | without a colour, a body and an area of one shape get the same geometry, white and yellow respectively |

## Left out

- The `directed` schedules (tags, ordering, build, run) are library code. A schedule run is one log entry with its delta. Of the systems placed on the schedules, only `input.update()` is applied in `Game.Loop`; the physics and audio systems are modelled on their own, and whether one of them throws is a parameter of `Game.Loop`.
- Browser I/O is replaced by parameters and log entries:
  - `performance.now()` becomes a parameter;
  - `requestAnimationFrame` becomes a `FrameRequested` entry, and the callback it schedules is not re-entered;
  - the `window` listeners become `KeyDown`/`KeyUp`;
  - `console.warn` becomes a notice in the log.
- Floating-point rounding is left out. Times, deltas, poses and audio gains are exact reals (a Web Audio gain is a 32-bit float, so `SetGain`'s `gain == value` holds for the model only), so the floor(total·60) step count holds for the model, not for IEEE doubles.
- The physics engine (Rapier) is modelled only in part:
  - its step is an opaque producer of the drained event sequence; what the step does to poses is not modelled;
  - `getAll`'s order is the `bodyOrder` sequence;
  - colliders are handles;
  - `PushedBody` and `PushedCollider` store the rotation as the quaternion (rx, ry, rz, 1) without normalising it, while the engine keeps a unit quaternion. A pushed-then-pulled pose therefore matches the program only at zero rotation, which is why `Physics.PullUndoesPush` requires it.
  - `createArea3D`'s collider is the given descriptor marked as sensor, and it is not entered in a collider set. `setSensor(true)` and the `activeEvents` assignment also change the caller's descriptor object (its builders return `this`); `CreateArea3D` is a function and leaves its argument as it was.
- Physics.World.RigidbodyLifecycle: requires that the added-query entities still hold a rigid body and the removed-query entities no longer do. This is what the ECS queries deliver.
- The `collisions` record starts as `[]` in `createArea3D`. It is used only as a number-keyed record, so it is modelled as a map; array-ness (a `length` field) is not captured.
- The ECS trait `.name` string is library-supplied. `GlobalNotFound` records which global was missing instead; `GlobalNotFoundMessage` states the format for any name.
- User callbacks (`onEnter`, `onExit`, `start`'s callback) are recorded as notices. Their own effects are not modelled.
- Web Audio nodes are reduced to a gain value and a list of output connections. The `AudioContext` and the `AudioListener` are left out.
- `routeToBus` only forwards to Web Audio; the routed bus is returned instead.
- `createRigidBody3D` is a thin library wrapper and is not modelled.
- `syncTransformToPositionalAudioSystem` and `initDefault` are not modelled: they only copy into three.js objects and register systems.
- JavaScript prototype keys (e.g. a key code `"toString"`) are not modelled in the key table.
- `graphics.ts` (rendering and camera sizing) is not part of this model.
