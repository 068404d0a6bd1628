/** Error values shared by the modules, and the message of `GlobalNotFoundError`
    (packages/core/src/errors/global-not-found-error.ts). A thrown exception of the
    source is modelled as a returned `Threw`/`Err` value. */
module Errors {

  datatype Option<+T> = None | Some(value: T)

  /** The globally registered singletons that systems look up in the world. */
  datatype Global = GlobalPhysicsWorld | GlobalAudioBusManager

  datatype Error =
    /** `GlobalNotFoundError(<trait>.name, moduleName)`; the trait's `.name` string is
        supplied by the ECS library, so the error records which global was missing. */
    | GlobalNotFound(global: Global, moduleName: Option<string>)
    /** `AudioBusNotFoundError(name)` */
    | AudioBusNotFound(bus: string)
    /** a plain `Error` thrown with this message */
    | Plain(message: string)
    /** an exception raised inside the physics engine itself */
    | EngineFailure
    /** the `TypeError` of reading `entity` from a body whose `userData` was never set */
    | UnsetUserData

  datatype Result<+T> = Ok(value: T) | Err(error: Error)

  /** How a system run ends: it completes, or it throws and aborts the schedule run. */
  datatype Outcome = Completed | Threw(error: Error)

  /** JavaScript truthiness of an optional string: absent and "" are both falsy. */
  predicate Truthy(s: Option<string>) {
    s.Some? && s.value != ""
  }

  function BaseMessage(name: string): string {
    name + " not found in world."
  }

  function ModuleHint(moduleName: string): string {
    " Did you forget to initialize the " + moduleName + " module?"
  }

  /** The message `GlobalNotFoundError` passes to `Error`. */
  function GlobalNotFoundMessage(name: string, moduleName: Option<string>): (msg: string)
    ensures BaseMessage(name) <= msg
    ensures !Truthy(moduleName) ==> msg == BaseMessage(name)
    ensures Truthy(moduleName) ==> msg[|BaseMessage(name)|..] == ModuleHint(moduleName.value)
  {
    var msg := BaseMessage(name);
    if Truthy(moduleName) then msg + ModuleHint(moduleName.value) else msg
  }

  /** An empty module name adds nothing: it reads exactly like a missing one. */
  lemma EmptyModuleIsAbsent(name: string)
    ensures GlobalNotFoundMessage(name, Some("")) == GlobalNotFoundMessage(name, None)
  {
  }

  /** Two strings followed by the same text are equal if the results are. */
  lemma {:induction false} CommonSuffix(a: string, b: string, tail: string)
    requires a + tail == b + tail
    ensures a == b
  {
    assert |a| == |b|;
    assert a == (a + tail)[..|a|];
    assert b == (b + tail)[..|b|];
  }

  /** For a fixed module argument the message determines the missing global's name. */
  lemma {:induction false} MessageDeterminesName(n1: string, n2: string, moduleName: Option<string>)
    requires GlobalNotFoundMessage(n1, moduleName) == GlobalNotFoundMessage(n2, moduleName)
    ensures n1 == n2
  {
    if Truthy(moduleName) {
      CommonSuffix(BaseMessage(n1), BaseMessage(n2), ModuleHint(moduleName.value));
    }
    CommonSuffix(n1, n2, " not found in world.");
  }

  /** A message carrying the module hint ends in '?', one without it in '.', so the
      two can never be confused. */
  lemma {:induction false} HintIsVisible(n1: string, n2: string, moduleName: string)
    requires moduleName != ""
    ensures GlobalNotFoundMessage(n1, Some(moduleName)) != GlobalNotFoundMessage(n2, None)
  {
    var m1, m2 := GlobalNotFoundMessage(n1, Some(moduleName)), GlobalNotFoundMessage(n2, None);
    assert m1 == (n1 + " not found in world.") + (" Did you forget to initialize the " + moduleName + " module?");
    assert m1[|m1| - 1] == '?';
    assert m2[|m2| - 1] == '.';
  }
}
