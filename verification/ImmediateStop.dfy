/** The emergency stop latch (core/immediate_stop.py). */
module ImmediateStop {
  import opened Text

  datatype StopReason =
    | ManualKill | PermissionExpansion | SafetyGateBypass | SecretAccess | SelfDisableStopControl
    | UnauthorizedExternalAction | ScopeExpansion | ResultMismatch | RepeatedFailure | MutualAiConflict

  /** The latch file: absent, unreadable or corrupt, readable without `stopped: true`, or set. */
  datatype LatchFile = Missing | Unreadable | NotSet | Latched(reason: StopReason, evidence: string)

  /** The table of dangerous patterns: the reason of the first one that matches. */
  type Patterns = string -> Option<StopReason>

  predicate Blocks(file: LatchFile) {
    file.Unreadable? || file.Latched?
  }

  function Tail(s: string, n: nat): (r: string)
    ensures |r| <= n
  {
    if |s| <= n then s else s[|s| - n..]
  }

  class ImmediateStopController {
    var file: LatchFile

    constructor (initial: LatchFile)
      ensures file == initial
    {
      file := initial;
    }

    method IsStopped() returns (stopped: bool)
      ensures stopped <==> Blocks(file)
    {
      var state := file;
      stopped := state == Unreadable || state.Latched?;
    }

    /** There is no way back: a request leaves the latch set whatever it held before. */
    method RequestStop(reason: StopReason, evidence: string)
      modifies this
      ensures file == Latched(reason, Tail(evidence, 4000)) && Blocks(file)
    {
      file := Latched(reason, Tail(evidence, 4000));
    }

    /** Sets the latch exactly on a dangerous, nonempty text and otherwise leaves it alone. */
    method InspectText(danger: Patterns, text: string) returns (signal: Option<StopReason>)
      modifies this
      ensures signal == if text == "" then None else danger(text)
      ensures signal.Some? ==> file == Latched(signal.value, Tail(text, 4000))
      ensures signal.None? ==> file == old(file)
    {
      if text == "" {
        return None;
      }
      signal := danger(text);
      if signal.Some? {
        RequestStop(signal.value, text);
      }
    }
  }
}
