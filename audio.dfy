/** The audio bus registry of packages/core/src/modules/audio.ts: named gain buses
    wired into a tree under a master bus, a name->bus table with a throwing lookup, and
    the system that routes audio sources to their buses. Web Audio nodes are replaced by
    a gain value and the list of connections made from a bus's output. */
module Audio {
  import opened Errors

  /** Where a bus's output is connected: another bus's input, or the context's
      destination (the speakers). */
  datatype Sink = BusInput(bus: AudioBus) | Destination

  /** The message of `AudioBusNotFoundError`. */
  function AudioBusNotFoundMessage(name: string): (msg: string)
    ensures |msg| == |name| + 101
    ensures msg[..5] == "Bus \"" && msg[5..5 + |name|] == name && msg[5 + |name|] == '"'
  {
    var head, tail := "Bus \"", ['"'] + " not found. Make sure to set the bus to \"master\" or create the bus through the AudioBusManager.";
    assert |head| == 5;
    assert (head + name + tail)[5 + |name|] == tail[0];
    head + name + tail
  }

  /** The message names the missing bus unambiguously. */
  lemma {:induction false} BusMessageDeterminesName(n1: string, n2: string)
    requires AudioBusNotFoundMessage(n1) == AudioBusNotFoundMessage(n2)
    ensures n1 == n2
  {
    var m1, m2 := AudioBusNotFoundMessage(n1), AudioBusNotFoundMessage(n2);
    assert |n1| == |n2|;
    assert n1 == m1[5..5 + |n1|];
    assert n2 == m2[5..5 + |n2|];
  }

  /** `initialGain = 1.0` as a destructuring default: it applies only when the option
      is absent, so an explicit 0 stays 0. */
  function InitialGain(initialGain: Option<real>): real {
    match initialGain
    case Some(v) => v
    case None => 1.0
  }

  /** The caller's options object; `createBus` writes its `parent`. */
  class AudioBusOptions {
    var parent: AudioBus?
    var initialGain: Option<real>

    constructor (parent: AudioBus?, initialGain: Option<real>)
      ensures this.parent == parent && this.initialGain == initialGain
    {
      this.parent := parent;
      this.initialGain := initialGain;
    }
  }

  /** A bus: one gain node serving as both its input and its output. */
  class AudioBus {
    const name: string
    var gain: real
    var outputs: seq<Sink>

    /** A new bus has the initial gain (1.0 by default) and is connected to its
        parent's input exactly when a parent is given. */
    constructor (name: string, parent: AudioBus?, initialGain: Option<real>)
      ensures this.name == name && gain == InitialGain(initialGain)
      ensures outputs == if parent != null then [BusInput(parent)] else []
    {
      this.name := name;
      gain := InitialGain(initialGain);
      outputs := if parent != null then [BusInput(parent)] else [];
    }

    /** `setGain`: the gain changes and nothing else. */
    method SetGain(value: real)
      modifies this
      ensures gain == value && outputs == old(outputs)
    {
      gain := value;
    }
  }

  class AudioBusManager {
    const master: AudioBus
    var buses: map<string, AudioBus>

    /** The master bus is never entered in the table. */
    ghost predicate Valid()
      reads this
    {
      forall n | n in buses :: buses[n] != master
    }

    /** The master bus is created with the defaults and its output goes to the
        destination; the table starts empty. */
    constructor ()
      ensures Valid() && fresh(master)
      ensures master.name == "master" && master.gain == 1.0 && master.outputs == [Destination]
      ensures buses == map[]
    {
      var m := new AudioBus("master", null, None);
      m.outputs := m.outputs + [Destination];
      master := m;
      buses := map[];
    }

    /** `getBus`: the bus registered under `name`, or `AudioBusNotFoundError`. */
    function GetBus(name: string): (r: Result<AudioBus>)
      reads this
      ensures r.Ok? <==> name in buses
      ensures r.Ok? ==> r.value == buses[name]
      ensures r.Err? ==> r.error == AudioBusNotFound(name)
      ensures Valid() && r.Ok? ==> r.value != master
    {
      if name !in buses then Err(AudioBusNotFound(name)) else Ok(buses[name])
    }

    /** `createBus`: a missing parent in the caller's options is set to `master`; the
        new bus is built from the options and stored under `name`, replacing any
        earlier bus of that name. */
    method CreateBus(name: string, options: AudioBusOptions) returns (bus: AudioBus)
      requires Valid()
      modifies this, options
      ensures Valid()
      ensures options.parent == if old(options.parent) == null then master else old(options.parent)
      ensures options.initialGain == old(options.initialGain)
      ensures fresh(bus) && bus.name == name && bus.gain == InitialGain(options.initialGain)
      ensures bus.outputs == [BusInput(options.parent)]
      ensures buses == old(buses)[name := bus]
      ensures GetBus(name) == Ok(bus)
      ensures forall n | n != name :: GetBus(n) == old(GetBus(n))
    {
      if options.parent == null {
        options.parent := master;
      }
      bus := new AudioBus(name, options.parent, options.initialGain);
      buses := buses[name := bus];
    }

    /** One `updateEach` pass of `audioRoutingSystem`: look up each source's bus in
        order; the first missing bus throws and ends the pass. `routed` lists the buses
        the sources were routed to. */
    method RouteSources(sources: seq<AudioSource>) returns (outcome: Outcome, routed: seq<AudioBus>)
      ensures |routed| <= |sources|
      ensures forall i | 0 <= i < |routed| :: sources[i].bus in buses && routed[i] == buses[sources[i].bus]
      ensures outcome == Completed <==> |routed| == |sources|
      ensures outcome.Threw? ==>
        sources[|routed|].bus !in buses && outcome == Threw(AudioBusNotFound(sources[|routed|].bus))
    {
      routed := [];
      var i := 0;
      while i < |sources|
        invariant i <= |sources| && |routed| == i
        invariant forall j | 0 <= j < i :: sources[j].bus in buses && routed[j] == buses[sources[j].bus]
      {
        var found := GetBus(sources[i].bus);
        if found.Err? {
          return Threw(found.error), routed;
        }
        routed := routed + [found.value];
        i := i + 1;
      }
      outcome := Completed;
    }
  }

  /** The `AudioSource` trait; its three.js audio object is left out, only the bus
      name it asks for is kept. New sources ask for "master". */
  datatype AudioSource = AudioSource(bus: string)

  const DefaultSource: AudioSource := AudioSource("master")

  /** With only the master bus, routing a source that keeps its default bus throws
      `AudioBusNotFoundError("master")`: the master bus is not in the table. */
  method DefaultSourceWithoutMasterEntry() returns (outcome: Outcome)
    ensures outcome == Threw(AudioBusNotFound("master"))
  {
    var manager := new AudioBusManager();
    var routed;
    assert [DefaultSource][0].bus !in manager.buses;
    outcome, routed := manager.RouteSources([DefaultSource]);
  }

  /** `audioRoutingSystem`: `manager` is the registered `GlobalAudioBusManager`, or
      null when none is; `changed` and `added` are the sources the two queries report.
      Changed sources are routed before added ones, and the first missing bus throws. */
  method AudioRoutingSystem(manager: AudioBusManager?, changed: seq<AudioSource>, added: seq<AudioSource>)
    returns (outcome: Outcome, routed: seq<AudioBus>)
    ensures manager == null ==> outcome == Threw(GlobalNotFound(GlobalAudioBusManager, Some("Audio"))) && routed == []
    ensures manager != null ==>
      var all := changed + added;
      && |routed| <= |all|
      && (forall i | 0 <= i < |routed| :: all[i].bus in manager.buses && routed[i] == manager.buses[all[i].bus])
      && (outcome == Completed <==> |routed| == |all|)
      && (outcome.Threw? ==> all[|routed|].bus !in manager.buses && outcome == Threw(AudioBusNotFound(all[|routed|].bus)))
  {
    if manager == null {
      return Threw(GlobalNotFound(GlobalAudioBusManager, Some("Audio"))), [];
    }
    var first;
    outcome, first := manager.RouteSources(changed);
    if outcome.Threw? {
      return outcome, first;
    }
    var second;
    outcome, second := manager.RouteSources(added);
    routed := first + second;
  }
}
