/** The frame driver and keyboard state of packages/core/src/core.ts: the `Transform`
    pose record, the `Input` edge-state machine and the `Game` fixed-timestep loop.
    Schedules are opaque: running one is recorded as an entry of the game's log. */
module Core {
  import opened Errors

  // ---------------------------------------------------------------------------
  // Pose

  datatype Vec3 = Vec3(x: real, y: real, z: real)

  /** The `Transform` trait: position, Euler rotation and scale. */
  datatype Transform = Transform(position: Vec3, rotation: Vec3, scale: Vec3)

  /** The value a fresh `Transform` trait starts with. */
  function DefaultTransform(): Transform {
    Transform(Vec3(0.0, 0.0, 0.0), Vec3(0.0, 0.0, 0.0), Vec3(1.0, 1.0, 1.0))
  }

  // ---------------------------------------------------------------------------
  // Keyboard edge state

  /** The record `Input` keeps per key code. */
  datatype KeyState = KeyState(pressed: bool, justPressed: bool, justReleased: bool)

  const Released: KeyState := KeyState(false, false, false)

  /** An edge flag always agrees with the level: a key just pressed is down, a key
      just released is up. */
  predicate Consistent(k: KeyState) {
    (k.justPressed ==> k.pressed) && (k.justReleased ==> !k.pressed)
  }

  predicate AllConsistent(keys: map<string, KeyState>) {
    forall code | code in keys :: Consistent(keys[code])
  }

  /** What the three `isKey*` queries read for a code: a code never seen reads as
      all-false (the `?.` / `?? false` fallbacks). */
  function StateOf(keys: map<string, KeyState>, code: string): KeyState {
    if code in keys then keys[code] else Released
  }

  /** The `keydown` listener's effect on the key table. */
  function Pressing(keys: map<string, KeyState>, code: string): (r: map<string, KeyState>)
    ensures AllConsistent(keys) ==> AllConsistent(r)
    ensures StateOf(keys, code).pressed ==> r == keys
    ensures !StateOf(keys, code).pressed ==> r == keys[code := KeyState(true, true, false)]
    ensures StateOf(r, code).pressed
  {
    if StateOf(keys, code).pressed then keys else keys[code := KeyState(true, true, false)]
  }

  /** The `keyup` listener's effect: the key is up and just released, whatever it
      was before (also for a code never seen). */
  function Releasing(keys: map<string, KeyState>, code: string): (r: map<string, KeyState>)
    ensures AllConsistent(keys) ==> AllConsistent(r)
    ensures r.Keys == keys.Keys + {code}
    ensures StateOf(r, code) == KeyState(false, false, true)
    ensures forall c | c != code :: StateOf(r, c) == StateOf(keys, c)
  {
    keys[code := KeyState(false, false, true)]
  }

  /** `update()`'s effect: every edge flag is cleared and every level kept. */
  function ClearEdges(keys: map<string, KeyState>): (r: map<string, KeyState>)
    ensures r.Keys == keys.Keys
    ensures AllConsistent(r)
    ensures forall c :: StateOf(r, c) == KeyState(StateOf(keys, c).pressed, false, false)
  {
    map c | c in keys :: KeyState(keys[c].pressed, false, false)
  }

  /** A key held down across frames is reported just-pressed in one frame only:
      the repeated `keydown` events the browser sends while it is held change nothing. */
  lemma HeldKeyIsJustPressedOnce(keys: map<string, KeyState>, code: string)
    ensures StateOf(Pressing(keys, code), code).pressed
    ensures StateOf(Pressing(ClearEdges(Pressing(keys, code)), code), code) == KeyState(true, false, false)
  {
  }

  /** Press, frame, release, frame: the key ends up and quiet, and it was reported
      just-pressed after the press and just-released after the release. */
  lemma {:induction false} PressReleaseCycle(keys: map<string, KeyState>, code: string)
    requires !StateOf(keys, code).pressed
    ensures StateOf(Pressing(keys, code), code) == KeyState(true, true, false)
    ensures StateOf(Releasing(ClearEdges(Pressing(keys, code)), code), code) == KeyState(false, false, true)
    ensures StateOf(ClearEdges(Releasing(ClearEdges(Pressing(keys, code)), code)), code) == Released
  {
  }

  /** The keyboard tracker. The two `window` listeners are the methods `KeyDown` and
      `KeyUp`; the browser calls them with `event.code`. */
  class Input {
    var keys: map<string, KeyState>

    ghost predicate Valid()
      reads this
    {
      AllConsistent(keys)
    }

    constructor ()
      ensures Valid() && keys == map[]
    {
      keys := map[];
    }

    method KeyDown(code: string)
      requires Valid()
      modifies this
      ensures Valid()
      ensures keys == Pressing(old(keys), code)
    {
      if !(code in keys && keys[code].pressed) {
        keys := keys[code := KeyState(true, true, false)];
      }
    }

    method KeyUp(code: string)
      requires Valid()
      modifies this
      ensures Valid()
      ensures keys == Releasing(old(keys), code)
    {
      keys := keys[code := KeyState(false, false, true)];
    }

    function IsKeyPressed(code: string): (r: bool)
      reads this
      ensures r == StateOf(keys, code).pressed
      ensures r ==> code in keys
    {
      code in keys && keys[code].pressed
    }

    function IsKeyJustPressed(code: string): (r: bool)
      reads this
      ensures r == StateOf(keys, code).justPressed
      ensures r ==> code in keys
      ensures Valid() && r ==> IsKeyPressed(code)
    {
      code in keys && keys[code].justPressed
    }

    function IsKeyJustReleased(code: string): (r: bool)
      reads this
      ensures r == StateOf(keys, code).justReleased
      ensures r ==> code in keys
      ensures Valid() && r ==> !IsKeyPressed(code)
    {
      code in keys && keys[code].justReleased
    }

    /** The per-frame reset: visits every recorded key and clears its edge flags. */
    method Update()
      requires Valid()
      modifies this
      ensures Valid()
      ensures keys == ClearEdges(old(keys))
    {
      var pending := keys.Keys;
      while pending != {}
        invariant pending <= keys.Keys
        invariant keys.Keys == old(keys).Keys
        invariant forall c | c in keys ::
          keys[c] == if c in pending then old(keys)[c] else KeyState(old(keys)[c].pressed, false, false)
        decreases pending
      {
        var c :| c in pending;
        if keys[c].justPressed {
          keys := keys[c := keys[c].(justPressed := false)];
        }
        if keys[c].justReleased {
          keys := keys[c := keys[c].(justReleased := false)];
        }
        pending := pending - {c};
      }
    }
  }

  // ---------------------------------------------------------------------------
  // Fixed-timestep accounting

  /** The fixed simulation step, 1/60 s. */
  const FixedDelta: real := 1.0 / 60.0

  /** How many fixed steps the accumulator loop takes when it starts holding
      `total` seconds: one per whole fixed step held. */
  function FixedSteps(total: real): (n: nat)
    ensures total >= 0.0 ==> 0.0 <= total - n as real * FixedDelta < FixedDelta
    ensures total < FixedDelta ==> n == 0
    decreases (total * 60.0).Floor
  {
    if total < FixedDelta then 0 else 1 + FixedSteps(total - FixedDelta)
  }

  /** The accumulator left once those steps are taken. */
  function Leftover(total: real): real {
    total - FixedSteps(total) as real * FixedDelta
  }

  /** The step count is floor(total * 60) for a non-negative total. */
  lemma FixedStepsIsFloor(total: real)
    requires total >= 0.0
    ensures FixedSteps(total) == (total * 60.0).Floor
    ensures 0.0 <= Leftover(total) < FixedDelta
  {
  }

  /** Fixed steps over consecutive frames: the steps of two frames add up to the
      steps of their combined time, and carrying the leftover forward loses nothing. */
  lemma StepsCompose(acc: real, delta: real)
    requires acc >= 0.0 && delta >= 0.0
    ensures FixedSteps(acc) + FixedSteps(Leftover(acc) + delta) == FixedSteps(acc + delta)
    ensures Leftover(Leftover(acc) + delta) == Leftover(acc + delta)
  {
    FixedStepsIsFloor(acc);
    FixedStepsIsFloor(Leftover(acc) + delta);
    FixedStepsIsFloor(acc + delta);
    var k := FixedSteps(acc);
    assert (Leftover(acc) + delta) * 60.0 == (acc + delta) * 60.0 - k as real;
    var m := FixedSteps(Leftover(acc) + delta);
    assert (k + m) as real * FixedDelta == k as real * FixedDelta + m as real * FixedDelta;
  }

  function Sum(deltas: seq<real>): real {
    if deltas == [] then 0.0 else deltas[0] + Sum(deltas[1..])
  }

  predicate AllNonNegative(deltas: seq<real>) {
    forall i | 0 <= i < |deltas| :: deltas[i] >= 0.0
  }

  lemma {:induction false} SumNonNegative(deltas: seq<real>)
    requires AllNonNegative(deltas)
    ensures Sum(deltas) >= 0.0
  {
    if deltas != [] {
      assert AllNonNegative(deltas[1..]) by {
        forall i | 0 <= i < |deltas| - 1 ensures deltas[1..][i] >= 0.0 {
          assert deltas[1..][i] == deltas[i + 1];
        }
      }
      SumNonNegative(deltas[1..]);
    }
  }

  /** Fixed steps taken over frames with the given deltas, starting from
      accumulator `acc`. */
  function StepsOver(acc: real, deltas: seq<real>): nat
    decreases deltas
  {
    if deltas == [] then 0
    else FixedSteps(acc + deltas[0]) + StepsOver(Leftover(acc + deltas[0]), deltas[1..])
  }

  /** The accumulator after frames with the given deltas. */
  function AccumulatorAfter(acc: real, deltas: seq<real>): real
    decreases deltas
  {
    if deltas == [] then acc else AccumulatorAfter(Leftover(acc + deltas[0]), deltas[1..])
  }

  /** Over any run of frames the fixed schedule runs floor((acc + total) * 60) times in
      all, and the accumulator keeps exactly the time those runs did not consume. */
  lemma {:induction false} StepsOverFrames(acc: real, deltas: seq<real>)
    requires 0.0 <= acc < FixedDelta && AllNonNegative(deltas)
    ensures StepsOver(acc, deltas) == FixedSteps(acc + Sum(deltas))
    ensures AccumulatorAfter(acc, deltas) == Leftover(acc + Sum(deltas))
    decreases deltas
  {
    if deltas != [] {
      var d, rest := deltas[0], deltas[1..];
      assert AllNonNegative(rest) by {
        forall i | 0 <= i < |rest| ensures rest[i] >= 0.0 {
          assert rest[i] == deltas[i + 1];
        }
      }
      var l, total := Leftover(acc + d), Sum(rest);
      StepsOverFrames(l, rest);
      SumNonNegative(rest);
      StepsCompose(acc + d, total);
      assert acc + d + total == acc + Sum(deltas);
    }
  }

  /** Frames of 0.01 s, 0.02 s and 0.05 s from a fresh game run the fixed schedule
      floor(0.08 * 60) = 4 times and leave 0.08 - 4/60 s in the accumulator. */
  lemma ThreeFrameExample()
    ensures StepsOver(0.0, [0.01, 0.02, 0.05]) == 4
    ensures AccumulatorAfter(0.0, [0.01, 0.02, 0.05]) == 0.08 - 4.0 * FixedDelta
  {
    var ds := [0.01, 0.02, 0.05];
    assert AllNonNegative(ds);
    assert Sum(ds) == 0.08 by {
      assert ds[1..] == [0.02, 0.05];
      assert ds[1..][1..] == [0.05];
    }
    StepsOverFrames(0.0, ds);
    FixedStepsIsFloor(0.08);
  }

  // ---------------------------------------------------------------------------
  // The game loop

  datatype ScheduleKind = VariableRate | FixedRate

  /** What the driver does, in order: building a schedule, running a schedule with
      a context delta, asking the browser for the next frame, calling `start`'s
      callback. */
  datatype DriverEvent =
    | Built(kind: ScheduleKind)
    | Ran(kind: ScheduleKind, delta: real)
    | FrameRequested
    | CallbackInvoked

  /** A system of the fixed-rate schedule throws during the run with index `run`
      (counting from 0) of this frame. */
  datatype FixedFault = FixedFault(run: nat, error: Error)

  /** A system of the variable-rate schedule throws; `inputUpdated` says whether
      `input.update()` had already run by then (it sits at the postUpdate tag, so a
      preUpdate or update system throws before it). */
  datatype UpdateFault = UpdateFault(error: Error, inputUpdated: bool)

  /** `n` runs of the fixed-rate schedule, each with the fixed delta. */
  function FixedRuns(n: nat): seq<DriverEvent> {
    seq(n, _ => Ran(FixedRate, FixedDelta))
  }

  /** The driver. Wall-clock times are in milliseconds, deltas in seconds. The update
      schedule holds `input.update()` at its postUpdate tag; running it is modelled as
      logging the run and then clearing the input edges. */
  class Game {
    const input: Input
    var lastFrameTime: real
    var fixedTimeAccumulator: real
    var log: seq<DriverEvent>

    ghost predicate Valid()
      reads this, input
    {
      input.Valid()
    }

    constructor ()
      ensures Valid() && fresh(input)
      ensures input.keys == map[]
      ensures lastFrameTime == 0.0 && fixedTimeAccumulator == 0.0 && log == []
    {
      input := new Input();
      lastFrameTime := 0.0;
      fixedTimeAccumulator := 0.0;
      log := [];
    }

    /** One animation-frame callback at wall-clock time `now`. What the schedules'
        systems do is opaque; `fixedFault` and `updateFault` say whether one of them
        throws. A throw leaves `loop` at once: the later runs, the edge reset and the
        request for the next frame do not happen, so the game stops. A run is logged
        when it starts. */
    method Loop(now: real, fixedFault: Option<FixedFault>, updateFault: Option<UpdateFault>) returns (outcome: Outcome)
      requires Valid()
      modifies this, input
      ensures Valid()
      ensures lastFrameTime == now
      ensures var delta := (now - old(lastFrameTime)) / 1000.0;
              var n := FixedSteps(old(fixedTimeAccumulator) + delta);
              if fixedFault.Some? && fixedFault.value.run < n then
                var k := fixedFault.value.run;
                && outcome == Threw(fixedFault.value.error)
                && fixedTimeAccumulator == old(fixedTimeAccumulator) + delta - k as real * FixedDelta
                && log == old(log) + FixedRuns(k) + [Ran(FixedRate, FixedDelta)]
                && input.keys == old(input.keys)
              else
                && fixedTimeAccumulator == old(fixedTimeAccumulator) + delta - n as real * FixedDelta
                && (updateFault.None? ==>
                      && outcome == Completed
                      && log == old(log) + FixedRuns(n) + [Ran(VariableRate, delta), FrameRequested]
                      && input.keys == ClearEdges(old(input.keys)))
                && (updateFault.Some? ==>
                      && outcome == Threw(updateFault.value.error)
                      && log == old(log) + FixedRuns(n) + [Ran(VariableRate, delta)]
                      && input.keys == if updateFault.value.inputUpdated then ClearEdges(old(input.keys)) else old(input.keys))
      ensures old(fixedTimeAccumulator) >= 0.0 && now >= old(lastFrameTime) && outcome.Completed? ==>
              0.0 <= fixedTimeAccumulator < FixedDelta
    {
      var delta := (now - lastFrameTime) / 1000.0;
      lastFrameTime := now;

      fixedTimeAccumulator := fixedTimeAccumulator + delta;
      ghost var total := fixedTimeAccumulator;
      var k: nat := 0;
      while fixedTimeAccumulator >= FixedDelta
        invariant fixedTimeAccumulator == total - k as real * FixedDelta
        invariant FixedSteps(total) == k + FixedSteps(fixedTimeAccumulator)
        invariant log == old(log) + FixedRuns(k)
        invariant lastFrameTime == now && input.keys == old(input.keys)
        invariant fixedFault.Some? ==> k <= fixedFault.value.run
        decreases (fixedTimeAccumulator * 60.0).Floor
      {
        log := log + [Ran(FixedRate, FixedDelta)];
        if fixedFault.Some? && fixedFault.value.run == k {
          return Threw(fixedFault.value.error);
        }
        fixedTimeAccumulator := fixedTimeAccumulator - FixedDelta;
        k := k + 1;
        assert FixedRuns(k) == FixedRuns(k - 1) + [Ran(FixedRate, FixedDelta)];
      }

      log := log + [Ran(VariableRate, delta)];
      if updateFault.Some? {
        if updateFault.value.inputUpdated {
          input.Update();
        }
        return Threw(updateFault.value.error);
      }
      input.Update();

      log := log + [FrameRequested];
      outcome := Completed;
    }

    /** Builds both schedules, stamps the start time, requests the first frame and
        calls the optional callback once. */
    method Start(now: real, hasCallback: bool)
      modifies this
      ensures lastFrameTime == now
      ensures fixedTimeAccumulator == old(fixedTimeAccumulator)
      ensures log == old(log) + [Built(VariableRate), Built(FixedRate), FrameRequested]
                     + (if hasCallback then [CallbackInvoked] else [])
    {
      log := log + [Built(VariableRate), Built(FixedRate)];
      lastFrameTime := now;
      log := log + [FrameRequested];
      if hasCallback {
        log := log + [CallbackInvoked];
      }
    }
  }
}
