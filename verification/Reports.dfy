/** The answers of executors and safety gates, and the reports of the runtimes
    (core/agent_runtime.py), shared by every runtime. */
module Reports {
  import opened Text
  import opened MultiAgent

  datatype Reply = Raises(text: string) | NotAResult | Replies(result: AgentResult)

  datatype Verdict = Verified | Rejected | GateRaises(text: string)

  datatype RuntimeTaskResult = RuntimeTaskResult(task: AgentTask, result: AgentResult)

  datatype RuntimeReport = RuntimeReport(
    completed: seq<RuntimeTaskResult>,
    failedTaskId: Option<string>,
    error: Option<string>,
    rounds: nat,
    repairAttempts: nat,
    integrationReady: bool)
  {
    predicate Success() {
      failedTaskId.None? && error.None?
    }
  }

  function TasksOf(completed: seq<RuntimeTaskResult>): (r: seq<AgentTask>)
    ensures |r| == |completed|
    ensures forall i | 0 <= i < |r| :: r[i] == completed[i].task
  {
    seq(|completed|, i requires 0 <= i < |completed| => completed[i].task)
  }

  /** Position of the first task without an executor; the length when there is none. */
  function FirstMissing(roles: set<AgentRole>, batch: seq<AgentTask>): (i: nat)
    ensures i <= |batch|
    ensures i < |batch| ==> batch[i].role !in roles
    ensures forall j | 0 <= j < i :: batch[j].role in roles
  {
    if batch == [] || batch[0].role !in roles then 0 else 1 + FirstMissing(roles, batch[1..])
  }
}
