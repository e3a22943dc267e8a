/** The bounded development runtime (core/agent_runtime.py): one static plan, and the
    Implementer - Tester - Reviewer - Integrator loop with bounded repairs. */
module AgentRuntime {
  import opened Text
  import opened MultiAgent
  import opened Reports

  // ----- the world: executors, safety gate and repair planner, all arbitrary -----

  lemma SampleName(s: string)
    requires s == "task"
    ensures ShortName(s)
  {
    assert s[0] == 't';
  }

  /** Tasks that exist have passed the checks of their constructor. */
  type Task = t: AgentTask | ValidTask(t)
    witness (SampleName("task"); AgentTask("task", Manager, "task", {}, [], 0))

  datatype RepairReply = RepairRaises(text: string) | Repairs(task: Task)

  /** Executor calls are numbered in the order they are made, so answering by number
      covers executors that keep state or answer differently each time. */
  datatype World = World(
    roles: set<AgentRole>,
    reply: (nat, AgentTask) -> Reply,
    gate: Option<(nat, AgentTask, AgentResult) -> Verdict>,
    repair: Option<(AgentTask, AgentResult, nat) -> RepairReply>)

  /** Call `n` ran `t` and its result `r` got through the checks and the gate. */
  ghost predicate Accepted(w: World, n: nat, t: AgentTask, r: AgentResult) {
    && w.reply(n, t) == Replies(r)
    && r.taskId == t.id
    && (w.gate.Some? ==> w.gate.value(n, t, r) == Verified)
  }

  /** `completed` is what calls `n`, `n + 1`, ... made of the first tasks of `flat`. */
  ghost predicate Executed(w: World, n: nat, flat: seq<AgentTask>, completed: seq<RuntimeTaskResult>) {
    && |completed| <= |flat|
    && forall i | 0 <= i < |completed| ::
         && completed[i].task == flat[i]
         && Accepted(w, n + i, flat[i], completed[i].result)
         && completed[i].result.success
  }

  // ----- one static run -----

  /** The answer of call `n` after the checks and the gate, or the error they raise. */
  function Checked(w: World, n: nat, t: AgentTask): Result<AgentResult, string> {
    match w.reply(n, t)
    case Raises(text) => Err(text)
    case NotAResult => Err("TypeError: executor must return AgentResult")
    case Replies(r) =>
      if r.taskId != t.id then Err("ValueError: executor returned another task_id")
      else if w.gate.None? then Ok(r)
      else
        match w.gate.value(n, t, r)
        case GateRaises(text) => Err(text)
        case Rejected => Err("RuntimeError: execution safety gate rejected actual worktree state")
        case Verified => Ok(r)
  }

  function NoExecutor(role: AgentRole): string {
    "missing executor for role: " + RoleName(role)
  }

  /** What stops a task: no executor, a bad or unverified answer, or an honest failure. */
  function Fault(w: World, n: nat, t: AgentTask): Option<string> {
    if t.role !in w.roles then Some(NoExecutor(t.role))
    else
      match Checked(w, n, t)
      case Err(text) => Some(text)
      case Ok(r) => if r.success then None else Some(if r.summary == "" then "agent task failed" else r.summary)
  }

  lemma FaultlessIsAccepted(w: World, n: nat, t: AgentTask)
    ensures forall r :: Checked(w, n, t) == Ok(r) <==> Accepted(w, n, t, r)
    ensures Fault(w, n, t).None? <==> t.role in w.roles && exists r :: Accepted(w, n, t, r) && r.success
  {
    if Checked(w, n, t).Ok? {
      assert Accepted(w, n, t, Checked(w, n, t).value);
    }
  }

  predicate Launches(w: World, batch: seq<AgentTask>) {
    forall i | 0 <= i < |batch| :: batch[i].role in w.roles
  }

  ghost predicate AllChecked(w: World, n: nat, batch: seq<AgentTask>, upTo: nat)
    requires upTo <= |batch|
  {
    forall i | 0 <= i < upTo :: Checked(w, n + i, batch[i]).Ok?
  }

  /** Task `k` is the one to blame for the batch that begins with call `n`: the first one
      without an executor; else the first one whose answer is refused; else the first one
      that failed, and then the `kept` tasks before it are recorded. */
  ghost predicate Blamed(w: World, n: nat, batch: seq<AgentTask>, k: nat, kept: nat, text: string)
    requires k < |batch|
  {
    && Fault(w, n + k, batch[k]) == Some(text)
    && if batch[k].role !in w.roles then kept == 0 && Launches(w, batch[..k])
       else if Checked(w, n + k, batch[k]).Err? then kept == 0 && Launches(w, batch) && AllChecked(w, n, batch, k)
       else kept == k && Launches(w, batch) && AllChecked(w, n, batch, |batch|)
  }

  ghost predicate BlamedTask(w: World, n: nat, batch: seq<AgentTask>, kept: nat, id: string, text: string) {
    exists k | 0 <= k < |batch| :: batch[k].id == id && Blamed(w, n, batch, k, kept, text)
  }

  /** Batch `k` contains the task to blame; what it adds to `completed` is kept. */
  ghost predicate BlamedIn(
    w: World, n: nat, batches: seq<seq<AgentTask>>, k: nat, completed: seq<RuntimeTaskResult>, id: string,
    text: string)
    requires k < |batches|
  {
    var before := |Flatten(batches[..k])|;
    before <= |completed| && BlamedTask(w, n + before, batches[k], |completed| - before, id, text)
  }

  /** The run ends in batch `k`: the batches before it ran completely and successfully, the
      batch itself was started unless an executor is missing, and nothing after it was. */
  ghost predicate StopsIn(
    w: World, n: nat, batches: seq<seq<AgentTask>>, k: nat, completed: seq<RuntimeTaskResult>, started: seq<AgentTask>,
    id: string, text: string)
    requires k < |batches|
  {
    var done := Flatten(batches[..k]);
    && started == (if Launches(w, batches[k]) then done + batches[k] else done)
    && |done| <= |completed| && Executed(w, n, done + batches[k], completed)
    && BlamedIn(w, n, batches, k, completed, id, text)
  }

  ghost predicate RunOfPlan(
    w: World, n: nat, batches: seq<seq<AgentTask>>, report: RuntimeReport, started: seq<AgentTask>)
  {
    && (report.failedTaskId.None? <==> report.error.None?)
    && if report.failedTaskId.None?
       then started == Flatten(batches) && Executed(w, n, started, report.completed) && |report.completed| == |started|
       else exists k | 0 <= k < |batches| ::
              StopsIn(w, n, batches, k, report.completed, started, report.failedTaskId.value, report.error.value)
  }

  function PlanError(r: PlanResult): string {
    match r
    case Planned(_) => ""
    case DuplicateId(id) => "ValueError: duplicate task_id: " + id
    case MissingDependency(id, dep) => "ValueError: missing dependency for " + id + ": " + dep
    case CyclicDependencies => "ValueError: cyclic task dependencies"
    case NothingSelected => "RuntimeError: scheduler could not select a ready task"
  }

  ghost predicate RunAfterPlan(w: World, n: nat, plan: PlanResult, report: RuntimeReport, started: seq<AgentTask>) {
    if plan.Planned? then RunOfPlan(w, n, plan.batches, report, started)
    else report.failedTaskId.None? && report.error == Some(PlanError(plan)) && report.completed == [] && started == []
  }

  /** The contract of one static run. `started` lists the tasks handed to an executor. */
  ghost predicate RunSpec(w: World, tasks: seq<AgentTask>, n: nat, report: RuntimeReport, started: seq<AgentTask>) {
    && !report.integrationReady && report.repairAttempts == 0
    && exists plan :: PlanSpec(tasks, plan) && RunAfterPlan(w, n, plan, report, started)
  }

  datatype BatchResult = BatchOk(results: seq<AgentResult>) | BatchError(taskId: string, text: string)

  /** Every task of the batch is handed to the pool before the first result is read, so
      all `|batch|` calls happen even when an early one is refused. */
  method RunBatch(w: World, batch: seq<AgentTask>, n: nat) returns (r: BatchResult, ghost at: nat)
    ensures r.BatchOk? ==> |r.results| == |batch|
    ensures r.BatchOk? ==> forall i | 0 <= i < |batch| :: Checked(w, n + i, batch[i]) == Ok(r.results[i])
    ensures r.BatchError? ==> at < |batch| && batch[at].id == r.taskId && AllChecked(w, n, batch, at)
    ensures r.BatchError? ==> Checked(w, n + at, batch[at]) == Err(r.text)
  {
    var results: seq<AgentResult> := [];
    at := 0;
    for i := 0 to |batch|
      invariant |results| == i
      invariant forall j | 0 <= j < i :: Checked(w, n + j, batch[j]) == Ok(results[j])
    {
      var checked := Checked(w, n + i, batch[i]);
      if checked.Err? {
        return BatchError(batch[i].id, checked.error), i;
      }
      results := results + [checked.value];
    }
    r := BatchOk(results);
  }

  /** The results of a batch that passed the checks, up to the first failure. */
  method KeepResults(ghost w: World, batch: seq<AgentTask>, ghost n: nat, results: seq<AgentResult>)
    returns (kept: seq<RuntimeTaskResult>, failure: Option<(string, string)>)
    requires |results| == |batch| && Launches(w, batch)
    requires forall i | 0 <= i < |batch| :: Checked(w, n + i, batch[i]) == Ok(results[i])
    ensures Executed(w, n, batch, kept)
    ensures failure.None? ==> |kept| == |batch|
    ensures failure.Some? ==> BlamedTask(w, n, batch, |kept|, failure.value.0, failure.value.1)
  {
    kept := [];
    for i := 0 to |batch|
      invariant |kept| == i
      invariant Executed(w, n, batch, kept)
    {
      FaultlessIsAccepted(w, n + i, batch[i]);
      if !results[i].success {
        var text := if results[i].summary == "" then "agent task failed" else results[i].summary;
        assert Blamed(w, n, batch, i, i, text);
        return kept, Some((batch[i].id, text));
      }
      kept := kept + [RuntimeTaskResult(batch[i], results[i])];
    }
    failure := None;
  }

  /** One batch of a plan: look up the executors, run them, keep results up to the first failure. */
  method RunStep(w: World, batch: seq<AgentTask>, n: nat)
    returns (kept: seq<RuntimeTaskResult>, launched: bool, failure: Option<(string, string)>)
    ensures Executed(w, n, batch, kept) && launched == Launches(w, batch)
    ensures failure.None? ==> |kept| == |batch| && launched
    ensures failure.Some? ==> BlamedTask(w, n, batch, |kept|, failure.value.0, failure.value.1)
  {
    kept := [];
    launched := false;
    var missing := FirstMissing(w.roles, batch);
    if missing < |batch| {
      var t := batch[missing];
      failure := Some((t.id, NoExecutor(t.role)));
      assert Blamed(w, n, batch, missing, 0, failure.value.1);
    } else {
      launched := true;
      var r, at := RunBatch(w, batch, n);
      if r.BatchError? {
        failure := Some((r.taskId, r.text));
        assert Blamed(w, n, batch, at, 0, r.text);
      } else {
        kept, failure := KeepResults(w, batch, n, r.results);
      }
    }
  }

  lemma ExecutedAppend(
    w: World, n: nat, done: seq<AgentTask>, before: seq<RuntimeTaskResult>, batch: seq<AgentTask>,
    kept: seq<RuntimeTaskResult>)
    requires Executed(w, n, done, before) && |before| == |done| && Executed(w, n + |done|, batch, kept)
    ensures Executed(w, n, done + batch, before + kept)
  {
    var flat, all := done + batch, before + kept;
    forall i | |done| <= i < |all|
      ensures all[i].task == flat[i] && all[i].result.success && Accepted(w, n + i, flat[i], all[i].result)
    {
      var j := i - |done|;
      assert kept[j].task == batch[j];
      assert Accepted(w, n + |done| + j, batch[j], kept[j].result);
    }
  }

  function Fail(completed: seq<RuntimeTaskResult>, id: string, error: string): RuntimeReport {
    RuntimeReport(completed, Some(id), Some(error), 0, 0, false)
  }

  method RunPlan(w: World, batches: seq<seq<AgentTask>>, n: nat)
    returns (report: RuntimeReport, started: seq<AgentTask>)
    ensures RunOfPlan(w, n, batches, report, started)
    ensures !report.integrationReady && report.repairAttempts == 0
  {
    var completed: seq<RuntimeTaskResult> := [];
    started := [];
    assert batches[..0] == [];
    for k := 0 to |batches|
      invariant started == Flatten(batches[..k]) && |completed| == |started|
      invariant Executed(w, n, started, completed)
    {
      var batch := batches[k];
      FlattenStep(batches, k);
      var kept, launched, failure := RunStep(w, batch, n + |started|);
      ExecutedAppend(w, n, started, completed, batch, kept);
      completed := completed + kept;
      if failure.Some? {
        var id, text := failure.value.0, failure.value.1;
        var last := if launched then started + batch else started;
        assert StopsIn(w, n, batches, k, completed, last, id, text);
        return Fail(completed, id, text), last;
      }
      started := started + batch;
    }
    assert batches[..|batches|] == batches;
    report := RuntimeReport(completed, None, None, 1, 0, false);
  }

  method Run(w: World, tasks: seq<AgentTask>, n: nat) returns (report: RuntimeReport, started: seq<AgentTask>)
    ensures RunSpec(w, tasks, n, report, started)
  {
    var plan := PlanBatches(tasks);
    if plan.Planned? {
      report, started := RunPlan(w, plan.batches, n);
    } else {
      report, started := RuntimeReport([], None, Some(PlanError(plan)), 0, 0, false), [];
    }
    assert RunAfterPlan(w, n, plan, report, started);
  }

  /** Every dependency of a started task was completed, successfully, before it. */
  ghost predicate DependenciesMet(started: seq<AgentTask>, completed: seq<RuntimeTaskResult>) {
    forall i, m | 0 <= i < |started| && 0 <= m < |started[i].dependsOn| ::
      exists j | 0 <= j < i && j < |completed| :: completed[j].task.id == started[i].dependsOn[m]
  }

  /** A batch needs nothing but the batches before it. */
  lemma BatchNeeds(tasks: seq<AgentTask>, batches: seq<seq<AgentTask>>, k: nat)
    requires PlanSpec(tasks, Planned(batches)) && k < |batches|
    ensures forall i | 0 <= i < |batches[k]| :: Ready(batches[k][i], IdsOf(Flatten(batches[..k])))
  {
    BatchIsGreedy(Elems(tasks), {}, batches, k);
    assert {} + IdsOf(Flatten(batches[..k])) == IdsOf(Flatten(batches[..k]));
  }

  lemma MetAlong(flat: seq<AgentTask>, started: seq<AgentTask>, completed: seq<RuntimeTaskResult>, done: nat)
    requires started <= flat && DependenciesFirst(flat) && done <= |flat| && done <= |completed|
    requires forall i | 0 <= i < done :: completed[i].task == flat[i]
    requires forall i | done <= i < |started| :: Ready(started[i], IdsOf(flat[..done]))
    ensures DependenciesMet(started, completed)
  {
    forall i, m | 0 <= i < |started| && 0 <= m < |started[i].dependsOn|
      ensures exists j | 0 <= j < i && j < |completed| :: completed[j].task.id == started[i].dependsOn[m]
    {
      var from := if i < done then i else done;
      assert Ready(flat[i], IdsOf(flat[..from])) by {
        assert started[i] == flat[i];
        assert Ready(flat[i], IdsOf(flat[..i]));
      }
      var before := flat[..from];
      assert flat[i].dependsOn[m] in IdsOf(before);
      var j :| 0 <= j < |before| && before[j].id == flat[i].dependsOn[m];
      assert completed[j].task == flat[j];
    }
  }

  lemma UpToBatch(
    tasks: seq<AgentTask>, batches: seq<seq<AgentTask>>, k: nat, completed: seq<RuntimeTaskResult>,
    started: seq<AgentTask>)
    requires PlanSpec(tasks, Planned(batches)) && k < |batches|
    requires started <= Flatten(batches[..k]) + batches[k] && |Flatten(batches[..k])| <= |completed|
    requires forall i | 0 <= i < |Flatten(batches[..k])| :: completed[i].task == Flatten(batches[..k])[i]
    ensures started <= Flatten(batches) && DependenciesMet(started, completed)
  {
    var flat, done := Flatten(batches), Flatten(batches[..k]);
    PlanIsTopological(tasks, batches);
    FlattenStep(batches, k);
    FlattenPrefix(batches, k + 1);
    assert done + batches[k] <= flat && flat[..|done|] == done;
    BatchNeeds(tasks, batches, k);
    MetAlong(flat, started, completed, |done|);
  }

  lemma ExecutedPrefix(
    w: World, n: nat, done: seq<AgentTask>, batch: seq<AgentTask>, completed: seq<RuntimeTaskResult>)
    requires Executed(w, n, done + batch, completed) && |done| <= |completed|
    ensures forall i | 0 <= i < |done| :: completed[i].task == done[i]
  {
    assert forall i | 0 <= i < |done| :: (done + batch)[i] == done[i];
  }

  lemma StoppedRunsNothingEarly(
    w: World, tasks: seq<AgentTask>, n: nat, batches: seq<seq<AgentTask>>, k: nat,
    completed: seq<RuntimeTaskResult>, started: seq<AgentTask>, id: string, text: string)
    requires PlanSpec(tasks, Planned(batches)) && k < |batches|
    requires StopsIn(w, n, batches, k, completed, started, id, text)
    ensures started <= Flatten(batches) && DependenciesMet(started, completed)
  {
    ExecutedPrefix(w, n, Flatten(batches[..k]), batches[k], completed);
    UpToBatch(tasks, batches, k, completed, started);
  }

  /** What was started is a prefix of the plan, as far as the end of the batch that failed,
      and no task was started before all its dependencies succeeded. */
  lemma NothingRunsEarly(
    w: World, tasks: seq<AgentTask>, n: nat, batches: seq<seq<AgentTask>>, report: RuntimeReport,
    started: seq<AgentTask>)
    requires PlanSpec(tasks, Planned(batches)) && RunOfPlan(w, n, batches, report, started)
    ensures started <= Flatten(batches) && |started| <= |tasks| && DependenciesMet(started, report.completed)
  {
    PlanIsTopological(tasks, batches);
    if report.failedTaskId.None? {
      MetAlong(started, started, report.completed, |started|);
    } else {
      var k :| 0 <= k < |batches| &&
               StopsIn(w, n, batches, k, report.completed, started, report.failedTaskId.value, report.error.value);
      StoppedRunsNothingEarly(w, tasks, n, batches, k, report.completed, started, report.failedTaskId.value,
          report.error.value);
    }
  }

  // ----- the development loop -----

  function FindTask(tasks: seq<AgentTask>, id: string): (r: Option<AgentTask>)
    ensures r.Some? ==> r.value in tasks && r.value.id == id
    ensures r.None? ==> id !in IdsOf(tasks)
  {
    if tasks == [] then None
    else if tasks[0].id == id then Some(tasks[0])
    else
      var r := FindTask(tasks[1..], id);
      assert forall i | 1 <= i < |tasks| :: tasks[i] == tasks[1..][i - 1];
      r
  }

  function LatestOfRole(completed: seq<RuntimeTaskResult>, role: AgentRole): (r: Option<RuntimeTaskResult>)
    ensures r.None? <==> forall i | 0 <= i < |completed| :: completed[i].task.role != role
  {
    if completed == [] then None
    else if completed[|completed| - 1].task.role == role then Some(completed[|completed| - 1])
    else LatestOfRole(completed[..|completed| - 1], role)
  }

  function RetestId(failed: AgentTask, round: nat): string {
    failed.id + ":retest" + Decimal(round)
  }

  function ReviewId(failed: AgentTask, round: nat): string {
    failed.id + (if failed.role == Tester then ":review" else ":rereview") + Decimal(round)
  }

  function GateId(integrator: AgentTask, round: nat): string {
    integrator.id + ":gate" + Decimal(round)
  }

  function RetestLead(failed: AgentTask): string {
    if failed.role == Tester then "Retest after repair task " else "Retest after reviewer-requested repair "
  }

  function ReviewLead(failed: AgentTask): string {
    if failed.role == Tester then "Review the validated change after " else "Re-review after "
  }

  function RetestTask(failed: AgentTask, repair: AgentTask, round: nat): AgentTask {
    AgentTask(RetestId(failed, round), Tester, RetestLead(failed) + repair.id + ".", failed.resources, [], 0)
  }

  function ReviewTask(failed: AgentTask, repair: AgentTask, round: nat): AgentTask {
    AgentTask(ReviewId(failed, round), Reviewer, ReviewLead(failed) + repair.id + ".", failed.resources,
              [RetestId(failed, round)], 0)
  }

  function GateTask(failed: AgentTask, integrator: AgentTask, round: nat): AgentTask {
    AgentTask(GateId(integrator, round), Integrator, "Run the integration gate after " + ReviewId(failed, round) + ".",
              integrator.resources, [ReviewId(failed, round)], 0)
  }

  /** Retest, re-review and integration gate after a repair; `None` when a derived id is
      refused by the constructor. */
  function FollowUp(failed: AgentTask, repair: AgentTask, integrator: AgentTask, round: nat): Option<seq<AgentTask>> {
    var retest, review, gate :=
      RetestTask(failed, repair, round), ReviewTask(failed, repair, round), GateTask(failed, integrator, round);
    if NewTask(retest).Some? && NewTask(review).Some? && NewTask(gate).Some?
    then Some([retest, review, gate])
    else None
  }

  /** The shape of a follow-up round: a chain of three gates. */
  ghost predicate IsFollowUp(tasks: seq<AgentTask>) {
    && |tasks| == 3
    && tasks[0].role == Tester && tasks[1].role == Reviewer && tasks[2].role == Integrator
    && tasks[0].dependsOn == []
    && tasks[1].dependsOn == [tasks[0].id]
    && tasks[2].dependsOn == [tasks[1].id]
    && DistinctIds(tasks)
  }

  lemma FollowUpSchedulable(tasks: seq<AgentTask>)
    requires IsFollowUp(tasks)
    ensures Schedulable(tasks)
  {
    ThreeInARow(tasks[0], tasks[1], tasks[2]);
    assert tasks == [tasks[0], tasks[1], tasks[2]];
  }

  /** The next to last character tells the three derived ids apart. */
  lemma DerivedIdsDiffer(failed: AgentTask, integrator: AgentTask, round: nat)
    requires round < 10
    ensures var retest, review, gate := RetestId(failed, round), ReviewId(failed, round), GateId(integrator, round);
            retest != review && retest != gate && review != gate
  {
    var retest, review, gate := RetestId(failed, round), ReviewId(failed, round), GateId(integrator, round);
    assert retest[|retest| - 2] == 't' && review[|review| - 2] == 'w' && gate[|gate| - 2] == 'e';
  }

  predicate GateIdsWithin(tasks: seq<AgentTask>, limit: int) {
    forall i | 0 <= i < |tasks| ::
      ValidTask(tasks[i]) && (tasks[i].role in {Tester, Reviewer} ==> |tasks[i].id| <= limit)
  }

  lemma FollowUpTasks(failed: AgentTask, repair: AgentTask, integrator: AgentTask, round: nat)
    requires FollowUp(failed, repair, integrator, round).Some?
    ensures ValidTask(RetestTask(failed, repair, round)) && ValidTask(ReviewTask(failed, repair, round))
    ensures ValidTask(GateTask(failed, integrator, round))
    ensures FollowUp(failed, repair, integrator, round).value ==
            [RetestTask(failed, repair, round), ReviewTask(failed, repair, round), GateTask(failed, integrator, round)]
  {
  }

  lemma DistinctThree(a: AgentTask, b: AgentTask, c: AgentTask)
    requires a.id != b.id && a.id != c.id && b.id != c.id
    ensures DistinctIds([a, b, c])
  {
  }

  lemma FollowUpChain(failed: AgentTask, repair: AgentTask, integrator: AgentTask, round: nat)
    requires FollowUp(failed, repair, integrator, round).Some? && round < 10
    ensures IsFollowUp(FollowUp(failed, repair, integrator, round).value)
  {
    FollowUpTasks(failed, repair, integrator, round);
    DerivedIdsDiffer(failed, integrator, round);
    DistinctThree(RetestTask(failed, repair, round), ReviewTask(failed, repair, round),
        GateTask(failed, integrator, round));
  }

  lemma DerivedLengths(failed: AgentTask, round: nat)
    requires round < 10
    ensures |RetestId(failed, round)| <= |failed.id| + 10 && |ReviewId(failed, round)| <= |failed.id| + 10
  {
  }

  lemma ThreeWithin(retest: AgentTask, review: AgentTask, gate: AgentTask, limit: int)
    requires ValidTask(retest) && ValidTask(review) && ValidTask(gate) && gate.role == Integrator
    requires |retest.id| <= limit && |review.id| <= limit
    ensures GateIdsWithin([retest, review, gate], limit)
  {
  }

  lemma FollowUpIds(failed: AgentTask, repair: AgentTask, integrator: AgentTask, round: nat)
    requires FollowUp(failed, repair, integrator, round).Some? && round < 10
    ensures GateIdsWithin(FollowUp(failed, repair, integrator, round).value, |failed.id| + 10)
  {
    FollowUpTasks(failed, repair, integrator, round);
    DerivedLengths(failed, round);
    ThreeWithin(RetestTask(failed, repair, round), ReviewTask(failed, repair, round),
        GateTask(failed, integrator, round), |failed.id| + 10);
  }

  /** The longest id of a failed gate that its repair can still append to. */
  function LongestGateId(failed: AgentTask): nat {
    if failed.role == Tester then 192 else 190
  }

  const LONGEST_INTEGRATOR_ID := 194

  predicate IdsFit(failed: AgentTask, integrator: AgentTask) {
    |failed.id| <= LongestGateId(failed) && |integrator.id| <= LONGEST_INTEGRATOR_ID
  }

  lemma DerivedId(id: string, infix: string, digits: string)
    requires |infix| >= 1 && !IsSpace(infix[0]) && |id| + |infix| + |digits| <= MAX_NAME
    ensures ShortName(id + infix + digits)
  {
    NotBlankAt(id + infix + digits, |id|);
  }

  lemma DerivedText(prefix: string, id: string)
    requires |prefix| >= 1 && !IsSpace(prefix[0]) && |prefix| <= 100 && |id| <= MAX_NAME
    ensures !Blank(prefix + id + ".") && |prefix + id + "."| <= 4000
  {
    NotBlankAt(prefix + id + ".", 0);
  }

  lemma RetestFits(failed: AgentTask, repair: AgentTask, round: nat)
    requires ValidTask(failed) && ValidTask(repair) && round < 10 && |failed.id| <= 192
    ensures ValidTask(RetestTask(failed, repair, round)) && ShortName(RetestId(failed, round))
  {
    var t := RetestTask(failed, repair, round);
    DerivedId(failed.id, ":retest", Decimal(round));
    DerivedText(RetestLead(failed), repair.id);
    Constructed(t.id, t.role, t.instruction, t.resources, []);
  }

  lemma ReviewFits(failed: AgentTask, repair: AgentTask, round: nat)
    requires ValidTask(failed) && ValidTask(repair) && round < 10 && |failed.id| <= LongestGateId(failed)
    ensures ValidTask(ReviewTask(failed, repair, round)) && ShortName(ReviewId(failed, round))
  {
    var t := ReviewTask(failed, repair, round);
    RetestFits(failed, repair, round);
    DerivedId(failed.id, if failed.role == Tester then ":review" else ":rereview", Decimal(round));
    DerivedText(ReviewLead(failed), repair.id);
    DerivedIdsDiffer(failed, failed, round);
    Constructed(t.id, t.role, t.instruction, t.resources, t.dependsOn);
  }

  lemma GateFits(failed: AgentTask, integrator: AgentTask, round: nat)
    requires ValidTask(failed) && ValidTask(integrator) && round < 10 && IdsFit(failed, integrator)
    ensures ValidTask(GateTask(failed, integrator, round))
  {
    var t := GateTask(failed, integrator, round);
    ReviewFits(failed, failed, round);
    DerivedId(integrator.id, ":gate", Decimal(round));
    DerivedText("Run the integration gate after ", ReviewId(failed, round));
    DerivedIdsDiffer(failed, integrator, round);
    Constructed(t.id, t.role, t.instruction, t.resources, t.dependsOn);
  }

  /** The derived tasks pass the checks of the constructor exactly when the ids that they
      derive from are short enough. */
  lemma FollowUpFits(failed: AgentTask, repair: AgentTask, integrator: AgentTask, round: nat)
    requires ValidTask(failed) && ValidTask(repair) && ValidTask(integrator) && round < 10
    ensures FollowUp(failed, repair, integrator, round).Some? <==> IdsFit(failed, integrator)
  {
    if IdsFit(failed, integrator) {
      RetestFits(failed, repair, round);
      ReviewFits(failed, repair, round);
      GateFits(failed, integrator, round);
    }
  }

  /** Whatever order the planner is free to choose, a chain runs in chain order. */
  lemma ChainOrder(tasks: seq<AgentTask>, flat: seq<AgentTask>)
    requires IsFollowUp(tasks)
    requires |flat| == 3 && Elems(flat) == Elems(tasks) && DistinctIds(flat) && DependenciesFirst(flat)
    ensures flat == tasks
  {
    var a, b, c := tasks[0], tasks[1], tasks[2];
    forall i | 0 <= i < 3 ensures flat[i] == a || flat[i] == b || flat[i] == c {
      assert flat[i] in Elems(tasks);
    }
    forall i, t | 0 <= i < 3 && flat[i] == t ensures Ready(t, IdsOf(flat[..i])) {
    }
    assert IdsOf(flat[..0]) == {};
    assert IdsOf(flat[..1]) == {flat[0].id};
    assert !Ready(b, {}) && !Ready(c, {}) by {
      assert b.dependsOn[0] == a.id && c.dependsOn[0] == b.id;
    }
    assert flat[0] == a;
    assert a in Elems(tasks) && b in Elems(tasks) && a != b;
    IdentifiedElems(flat);
    assert !Ready(c, {a.id}) by { assert c.dependsOn[0] == b.id; }
    assert flat[1] == b && flat[2] == c;
  }

  // ----- what one static run tells -----

  /** `t` has no executor, or one of the calls `n`, `n + 1`, ... was its own and `text` stopped it. */
  ghost predicate StoppedAt(w: World, n: nat, calls: seq<AgentTask>, t: AgentTask, text: string) {
    if t.role !in w.roles then text == NoExecutor(t.role)
    else exists i | 0 <= i < |calls| :: calls[i] == t && Fault(w, n + i, t) == Some(text)
  }

  ghost predicate BlamesOneOf(
    w: World, tasks: seq<AgentTask>, n: nat, started: seq<AgentTask>, id: string, text: string)
  {
    FindTask(tasks, id).Some? && StoppedAt(w, n, started, FindTask(tasks, id).value, text)
  }

  /** `completed` is the whole plan of `tasks`, in plan order. */
  ghost predicate RanWholePlan(tasks: seq<AgentTask>, completed: seq<RuntimeTaskResult>) {
    exists batches :: PlanSpec(tasks, Planned(batches)) && TasksOf(completed) == Flatten(batches)
  }

  /** The planner refuses `tasks` with this text. */
  ghost predicate RefusedPlan(tasks: seq<AgentTask>, text: string) {
    exists plan :: PlanSpec(tasks, plan) && !plan.Planned? && text == PlanError(plan)
  }

  lemma {:induction false} RefusedUnschedulable(tasks: seq<AgentTask>, text: string)
    requires RefusedPlan(tasks, text)
    ensures !Schedulable(tasks)
  {
    var plan :| PlanSpec(tasks, plan) && !plan.Planned? && text == PlanError(plan);
    PlannedIffSchedulable(tasks, plan);
  }

  lemma {:induction false} FoundOnce(tasks: seq<AgentTask>, t: AgentTask)
    requires DistinctIds(tasks) && t in tasks
    ensures FindTask(tasks, t.id) == Some(t)
  {
    IdentifiedElems(tasks);
    assert t in Elems(tasks) && t.id in IdsOf(tasks);
    assert FindTask(tasks, t.id).value in Elems(tasks);
  }

  lemma {:induction false} ExecutedWithin(
    w: World, n: nat, done: seq<AgentTask>, batch: seq<AgentTask>, completed: seq<RuntimeTaskResult>)
    requires Executed(w, n, done + batch, completed) && |completed| <= |done|
    ensures Executed(w, n, done, completed)
  {
    assert forall i | 0 <= i < |done| :: (done + batch)[i] == done[i];
  }

  lemma {:induction false} StopInBatch(
    w: World, n: nat, done: seq<AgentTask>, batch: seq<AgentTask>, i: nat, text: string)
    requires i < |batch| && batch[i].role in w.roles && Fault(w, n + |done| + i, batch[i]) == Some(text)
    ensures StoppedAt(w, n, done + batch, batch[i], text)
  {
    var j := |done| + i;
    assert (done + batch)[j] == batch[i] && n + j == n + |done| + i;
  }

  /** The blamed task was stopped, and what is kept of its batch leaves it out. */
  lemma {:induction false} BlamedStops(
    w: World, n: nat, done: seq<AgentTask>, batch: seq<AgentTask>, i: nat, kept: nat, text: string)
    requires i < |batch| && Blamed(w, n + |done|, batch, i, kept, text)
    ensures StoppedAt(w, n, if Launches(w, batch) then done + batch else done, batch[i], text)
    ensures kept < |batch| && (!Launches(w, batch) ==> kept == 0)
  {
    if batch[i].role in w.roles {
      StopInBatch(w, n, done, batch, i, text);
    } else {
      assert !Launches(w, batch);
    }
  }

  lemma {:induction false} BlamedStop(
    w: World, n: nat, done: seq<AgentTask>, batch: seq<AgentTask>, kept: nat, id: string, text: string)
    returns (t: AgentTask)
    requires BlamedTask(w, n + |done|, batch, kept, id, text)
    ensures t in batch && t.id == id
    ensures StoppedAt(w, n, if Launches(w, batch) then done + batch else done, t, text)
    ensures kept < |batch| && (!Launches(w, batch) ==> kept == 0)
  {
    var i :| 0 <= i < |batch| && batch[i].id == id && Blamed(w, n + |done|, batch, i, kept, text);
    BlamedStops(w, n, done, batch, i, kept, text);
    t := batch[i];
  }

  lemma {:induction false} StopFound(
    w: World, n: nat, batches: seq<seq<AgentTask>>, k: nat, completed: seq<RuntimeTaskResult>,
    started: seq<AgentTask>, id: string, text: string)
    returns (t: AgentTask)
    requires k < |batches| && StopsIn(w, n, batches, k, completed, started, id, text)
    ensures t in batches[k] && t.id == id && StoppedAt(w, n, started, t, text)
    ensures Executed(w, n, started, completed)
    ensures |completed| < |Flatten(batches[..k])| + |batches[k]|
  {
    var done, batch := Flatten(batches[..k]), batches[k];
    t := BlamedStop(w, n, done, batch, |completed| - |done|, id, text);
    if !Launches(w, batch) {
      ExecutedWithin(w, n, done, batch, completed);
    }
  }

  lemma {:induction false} StoppedIsSound(
    w: World, tasks: seq<AgentTask>, n: nat, batches: seq<seq<AgentTask>>, k: nat,
    completed: seq<RuntimeTaskResult>, started: seq<AgentTask>, id: string, text: string)
    requires PlanSpec(tasks, Planned(batches)) && k < |batches|
    requires StopsIn(w, n, batches, k, completed, started, id, text)
    ensures Executed(w, n, started, completed) && |completed| < |tasks|
    ensures BlamesOneOf(w, tasks, n, started, id, text)
  {
    var t := StopFound(w, n, batches, k, completed, started, id, text);
    BatchIsGreedy(Elems(tasks), {}, batches, k);
    FoundOnce(tasks, t);
    PlanIsTopological(tasks, batches);
    FlattenStep(batches, k);
    FlattenPrefix(batches, k + 1);
  }

  lemma {:induction false} PlannedIsSound(
    w: World, tasks: seq<AgentTask>, n: nat, batches: seq<seq<AgentTask>>, report: RuntimeReport,
    started: seq<AgentTask>)
    requires PlanSpec(tasks, Planned(batches)) && RunOfPlan(w, n, batches, report, started)
    ensures Executed(w, n, started, report.completed)
    ensures report.failedTaskId.Some? ==>
              && report.error.Some? && |report.completed| < |tasks|
              && BlamesOneOf(w, tasks, n, started, report.failedTaskId.value, report.error.value)
    ensures report.Success() ==>
              TasksOf(report.completed) == Flatten(batches) && |report.completed| == |tasks|
  {
    PlanIsTopological(tasks, batches);
    if report.failedTaskId.Some? {
      var id, text := report.failedTaskId.value, report.error.value;
      var k :| 0 <= k < |batches| && StopsIn(w, n, batches, k, report.completed, started, id, text);
      StoppedIsSound(w, tasks, n, batches, k, report.completed, started, id, text);
    }
  }

  lemma {:induction false} StartedFromTasks(
    w: World, tasks: seq<AgentTask>, n: nat, batches: seq<seq<AgentTask>>, report: RuntimeReport,
    started: seq<AgentTask>)
    requires PlanSpec(tasks, Planned(batches)) && RunOfPlan(w, n, batches, report, started)
    ensures |started| <= |tasks| && forall t | t in started :: t in tasks
  {
    NothingRunsEarly(w, tasks, n, batches, report, started);
    PlanIsTopological(tasks, batches);
    forall t | t in started ensures t in tasks {
      assert t in Elems(Flatten(batches));
    }
  }

  /** What a static run tells its caller: every entry is the accepted success of its own
      call; a failed run leaves out a task, and blames one of the tasks, which has no executor
      or whose own call was stopped by the reported text; a successful one ran the whole plan. */
  lemma {:induction false} RunIsSound(
    w: World, tasks: seq<AgentTask>, n: nat, report: RuntimeReport, started: seq<AgentTask>)
    requires RunSpec(w, tasks, n, report, started)
    ensures |started| <= |tasks| && Executed(w, n, started, report.completed)
    ensures forall t | t in started :: t in tasks
    ensures report.failedTaskId.Some? ==>
              report.error.Some? && BlamesOneOf(w, tasks, n, started, report.failedTaskId.value, report.error.value)
    ensures report.failedTaskId.Some? ==> |report.completed| < |tasks|
    ensures report.failedTaskId.None? && report.error.Some? ==>
              RefusedPlan(tasks, report.error.value) && report.completed == [] && started == []
    ensures report.Success() ==> RanWholePlan(tasks, report.completed) && |report.completed| == |tasks|
  {
    var plan :| PlanSpec(tasks, plan) && RunAfterPlan(w, n, plan, report, started);
    if plan.Planned? {
      StartedFromTasks(w, tasks, n, plan.batches, report, started);
      PlannedIsSound(w, tasks, n, plan.batches, report, started);
    }
  }

  lemma {:induction false} LaterCalls(
    w: World, calls: seq<AgentTask>, n: nat, started: seq<AgentTask>, t: AgentTask, text: string)
    requires n == |calls| && StoppedAt(w, n, started, t, text)
    ensures StoppedAt(w, 0, calls + started, t, text)
  {
    if t.role in w.roles {
      var i :| 0 <= i < |started| && started[i] == t && Fault(w, n + i, t) == Some(text);
      StopInBatch(w, 0, calls, started, i, text);
    }
  }

  ghost predicate Derives(failed: AgentTask, repair: AgentTask, integrator: AgentTask, round: nat,
      gates: seq<AgentTask>) {
    FollowUp(failed, repair, integrator, round) == Some(gates)
  }

  /** `gates` is the follow-up round that some failed gate and `repair` lead to. */
  ghost predicate GatesFor(gates: seq<AgentTask>, repair: AgentTask) {
    && repair.role == Repairer && IsFollowUp(gates)
    && exists failed, integrator, round :: Derives(failed, repair, integrator, round, gates)
  }

  lemma {:induction false} FollowUpResult(failed: AgentTask, repair: AgentTask, integrator: AgentTask, round: nat)
    requires ValidTask(repair) && repair.role == Repairer && round < 10
    ensures ValidTask(failed) && ValidTask(integrator) ==>
              (FollowUp(failed, repair, integrator, round).Some? <==> IdsFit(failed, integrator))
    ensures FollowUp(failed, repair, integrator, round).Some? ==>
              var next := FollowUp(failed, repair, integrator, round).value;
              GatesFor(next, repair) && GateIdsWithin(next, |failed.id| + 10)
  {
    if ValidTask(failed) && ValidTask(integrator) {
      FollowUpFits(failed, repair, integrator, round);
    }
    if FollowUp(failed, repair, integrator, round).Some? {
      FollowUpChain(failed, repair, integrator, round);
      FollowUpIds(failed, repair, integrator, round);
      assert Derives(failed, repair, integrator, round, FollowUp(failed, repair, integrator, round).value);
    }
  }

  function FirstOfRole(tasks: seq<AgentTask>, role: AgentRole): (r: Option<AgentTask>)
    ensures r.Some? ==> r.value in tasks && r.value.role == role
    ensures r.None? <==> forall i | 0 <= i < |tasks| :: tasks[i].role != role
  {
    if tasks == [] then None
    else if tasks[0].role == role then Some(tasks[0])
    else FirstOfRole(tasks[1..], role)
  }

  predicate HasRequiredRoles(tasks: seq<AgentTask>) {
    && FirstOfRole(tasks, Implementer).Some?
    && FirstOfRole(tasks, Tester).Some?
    && FirstOfRole(tasks, Reviewer).Some?
    && FirstOfRole(tasks, Integrator).Some?
  }

  /** A successful follow-up round leaves exactly its three gates, in order. */
  lemma {:induction false} FollowUpRuns(tasks: seq<AgentTask>, completed: seq<RuntimeTaskResult>)
    requires IsFollowUp(tasks) && RanWholePlan(tasks, completed)
    ensures TasksOf(completed) == tasks
  {
    var batches :| PlanSpec(tasks, Planned(batches)) && TasksOf(completed) == Flatten(batches);
    PlanIsTopological(tasks, batches);
    ChainOrder(tasks, Flatten(batches));
  }

  lemma {:induction false} SingletonRuns(t: AgentTask, completed: seq<RuntimeTaskResult>)
    requires RanWholePlan([t], completed)
    ensures |completed| == 1 && completed[0].task == t
  {
    var batches :| PlanSpec([t], Planned(batches)) && TasksOf(completed) == Flatten(batches);
    PlanIsTopological([t], batches);
    assert Flatten(batches)[0] in Elems([t]);
  }

  // ----- the history of a development run -----

  /** One static run of the loop: `started` lists the tasks that it handed to an executor, and
      `first` is the number of the first of these calls. */
  datatype StaticRun = StaticRun(
    first: nat, tasks: seq<AgentTask>, report: RuntimeReport, started: seq<AgentTask>)

  /** One round: the run of its plan, and the run of the repair task that followed, if any. */
  datatype Turn = Turn(run: StaticRun, repair: Option<StaticRun>) {
    function Started(): seq<AgentTask> {
      run.started + (if repair.Some? then repair.value.started else [])
    }

    function Completed(): seq<RuntimeTaskResult> {
      run.report.completed + (if repair.Some? then repair.value.report.completed else [])
    }
  }

  datatype Setup = Setup(w: World, tasks: seq<AgentTask>, maxRounds: nat, integrator: AgentTask)

  /** Every executor call of the rounds, in the order of their numbers. */
  function Calls(turns: seq<Turn>): seq<AgentTask> {
    if turns == [] then [] else Calls(turns[..|turns| - 1]) + turns[|turns| - 1].Started()
  }

  /** Every result that the rounds recorded. */
  function Recorded(turns: seq<Turn>): seq<RuntimeTaskResult> {
    if turns == [] then [] else Recorded(turns[..|turns| - 1]) + turns[|turns| - 1].Completed()
  }

  function BlamedBy(run: StaticRun): (r: Option<AgentTask>)
    ensures r.Some? ==> r.value in run.tasks
  {
    if run.report.failedTaskId.None? then None else FindTask(run.tasks, run.report.failedTaskId.value)
  }

  predicate IsGate(t: AgentTask) {
    t.role in {Tester, Reviewer}
  }

  function OrGateFailed(error: Option<string>): string {
    if error.None? || error.value == "" then "gate failed" else error.value
  }

  /** What the repair planner answers. */
  function Planner(w: World, failed: AgentTask, error: string, attempt: nat): RepairReply
    requires w.repair.Some?
  {
    w.repair.value(failed, AgentResult(failed.id, false, error, {}), attempt)
  }

  /** `current` is the repair task that the planner answers to the test or review which
      stopped the run of this round. */
  ghost predicate RepairOf(p: Setup, run: StaticRun, round: nat, current: seq<AgentTask>) {
    && p.w.repair.Some? && round < p.maxRounds
    && BlamedBy(run).Some? && IsGate(BlamedBy(run).value)
    && var answer := Planner(p.w, BlamedBy(run).value, OrGateFailed(run.report.error), round);
       answer.Repairs? && answer.task.role == Repairer && current == [answer.task]
  }

  /** `current` is the chain of gates that the repair in this round leads to. */
  ghost predicate FollowUpOf(p: Setup, turn: Turn, round: nat, current: seq<AgentTask>) {
    && BlamedBy(turn.run).Some?
    && turn.repair.Some? && turn.repair.value.report.Success() && |turn.repair.value.tasks| == 1
    && FollowUp(BlamedBy(turn.run).value, turn.repair.value.tasks[0], p.integrator, round) == Some(current)
  }

  /** The plan of the round after `before`: the given tasks, or the follow-up of the last repair. */
  ghost predicate PlanOf(p: Setup, before: seq<Turn>, current: seq<AgentTask>) {
    if before == [] then current == p.tasks else FollowUpOf(p, before[|before| - 1], |before|, current)
  }

  ghost predicate Ran(w: World, run: StaticRun) {
    RunSpec(w, run.tasks, run.first, run.report, run.started)
  }

  /** Round `k + 1` follows from the rounds before it, and its calls are numbered after theirs. */
  ghost predicate LinkedAt(p: Setup, turns: seq<Turn>, k: nat)
    requires k < |turns|
  {
    var run, repair := turns[k].run, turns[k].repair;
    && PlanOf(p, turns[..k], run.tasks) && run.first == |Calls(turns[..k])|
    && (repair.Some? ==>
          RepairOf(p, run, k + 1, repair.value.tasks) && repair.value.first == run.first + |run.started|)
  }

  ghost predicate RanAt(w: World, turns: seq<Turn>, k: nat)
    requires k < |turns|
  {
    Ran(w, turns[k].run)
  }

  ghost predicate RepairRanAt(w: World, turns: seq<Turn>, k: nat)
    requires k < |turns|
  {
    turns[k].repair.Some? ==> Ran(w, turns[k].repair.value)
  }

  ghost predicate AllRan(w: World, turns: seq<Turn>) {
    && (forall k | 0 <= k < |turns| :: RanAt(w, turns, k))
    && (forall k | 0 <= k < |turns| :: RepairRanAt(w, turns, k))
  }

  ghost predicate AllLinked(p: Setup, turns: seq<Turn>) {
    forall k | 0 <= k < |turns| :: LinkedAt(p, turns, k)
  }

  /** The rounds of a run: every run of a plan is one that `Run` may make, and each follows
      from those before it. */
  ghost predicate History(p: Setup, turns: seq<Turn>) {
    AllLinked(p, turns) && AllRan(p.w, turns)
  }

  lemma {:induction false} LinkedPrefix(p: Setup, turns: seq<Turn>, n: nat)
    requires AllLinked(p, turns) && n <= |turns|
    ensures AllLinked(p, turns[..n])
  {
    forall k | 0 <= k < n ensures LinkedAt(p, turns[..n], k) {
      assert LinkedAt(p, turns, k) && turns[..n][..k] == turns[..k];
    }
  }

  lemma {:induction false} RanPrefix(w: World, turns: seq<Turn>, n: nat)
    requires AllRan(w, turns) && n <= |turns|
    ensures AllRan(w, turns[..n])
  {
    forall k | 0 <= k < n ensures RanAt(w, turns[..n], k) && RepairRanAt(w, turns[..n], k) {
      assert RanAt(w, turns, k) && RepairRanAt(w, turns, k) && turns[..n][k] == turns[k];
    }
  }

  lemma {:induction false} LinkedSnoc(p: Setup, turns: seq<Turn>, turn: Turn)
    requires AllLinked(p, turns) && LinkedAt(p, turns + [turn], |turns|)
    ensures AllLinked(p, turns + [turn])
  {
    var all := turns + [turn];
    forall k | 0 <= k < |all| ensures LinkedAt(p, all, k) {
      if k < |turns| {
        assert LinkedAt(p, turns, k) && all[..k] == turns[..k];
      }
    }
  }

  lemma {:induction false} RanSnoc(w: World, turns: seq<Turn>, turn: Turn)
    requires AllRan(w, turns) && Ran(w, turn.run) && (turn.repair.Some? ==> Ran(w, turn.repair.value))
    ensures AllRan(w, turns + [turn])
  {
    var all := turns + [turn];
    forall k | 0 <= k < |all| ensures RanAt(w, all, k) && RepairRanAt(w, all, k) {
      if k < |turns| {
        assert RanAt(w, turns, k) && RepairRanAt(w, turns, k) && all[k] == turns[k];
      }
    }
  }

  lemma {:induction false} TurnAdded(turns: seq<Turn>, turn: Turn)
    ensures Calls(turns + [turn]) == Calls(turns) + turn.Started()
    ensures Recorded(turns + [turn]) == Recorded(turns) + turn.Completed()
  {
    assert (turns + [turn])[..|turns|] == turns;
  }

  /** The history without its last round. */
  lemma {:induction false} HistoryLast(p: Setup, turns: seq<Turn>)
    requires History(p, turns) && turns != []
    ensures History(p, turns[..|turns| - 1]) && LinkedAt(p, turns, |turns| - 1)
  {
    LinkedPrefix(p, turns, |turns| - 1);
    RanPrefix(p.w, turns, |turns| - 1);
  }

  /** `RunIsSound`, for a run of the history. */
  lemma {:induction false} RunTells(w: World, run: StaticRun)
    requires Ran(w, run)
    ensures |run.started| <= |run.tasks| && Executed(w, run.first, run.started, run.report.completed)
    ensures forall t | t in run.started :: t in run.tasks
    ensures run.report.failedTaskId.Some? ==>
              && run.report.error.Some? && |run.report.completed| < |run.tasks| && BlamedBy(run).Some?
              && StoppedAt(w, run.first, run.started, BlamedBy(run).value, run.report.error.value)
    ensures run.report.failedTaskId.None? && run.report.error.Some? ==>
              RefusedPlan(run.tasks, run.report.error.value) && run.report.completed == [] && run.started == []
    ensures run.report.Success() ==> RanWholePlan(run.tasks, run.report.completed)
  {
    RunIsSound(w, run.tasks, run.first, run.report, run.started);
  }

  /** The entries of `completed` are, in order, accepted successes of the calls at these numbers. */
  ghost predicate AnswersAt(w: World, calls: seq<AgentTask>, completed: seq<RuntimeTaskResult>, at: seq<nat>) {
    && |at| == |completed|
    && (forall i, j | 0 <= i < j < |at| :: at[i] < at[j])
    && forall i | 0 <= i < |at| ::
         && at[i] < |calls| && calls[at[i]] == completed[i].task
         && Accepted(w, at[i], completed[i].task, completed[i].result) && completed[i].result.success
  }

  ghost predicate AllSound(w: World, calls: seq<AgentTask>, completed: seq<RuntimeTaskResult>) {
    exists at :: AnswersAt(w, calls, completed, at)
  }

  lemma {:induction false} SoundConcat(
    w: World, calls: seq<AgentTask>, before: seq<RuntimeTaskResult>, n: nat, started: seq<AgentTask>,
    made: seq<RuntimeTaskResult>)
    requires AllSound(w, calls, before) && n == |calls| && Executed(w, n, started, made)
    ensures AllSound(w, calls + started, before + made)
  {
    var at :| AnswersAt(w, calls, before, at);
    var more: seq<nat> := seq(|made|, i requires 0 <= i < |made| => n + i);
    var numbers: seq<nat> := at + more;
    var all, completed := calls + started, before + made;
    forall i | 0 <= i < |completed|
      ensures numbers[i] < |all| && all[numbers[i]] == completed[i].task && completed[i].result.success
      ensures Accepted(w, numbers[i], completed[i].task, completed[i].result)
    {
      if i >= |before| {
        var j := i - |before|;
        assert made[j].task == started[j] && Accepted(w, n + j, started[j], made[j].result);
      }
    }
    assert AnswersAt(w, all, completed, numbers);
  }

  /** The calls and results of the last round. */
  lemma {:induction false} RoundRecords(p: Setup, turns: seq<Turn>)
    requires History(p, turns) && turns != []
    ensures var run := turns[|turns| - 1].run;
            && |run.started| <= |run.tasks| && Executed(p.w, run.first, run.started, run.report.completed)
            && forall t | t in run.started :: t in run.tasks
  {
    assert RanAt(p.w, turns, |turns| - 1);
    RunTells(p.w, turns[|turns| - 1].run);
  }

  lemma {:induction false} RepairRecords(p: Setup, turns: seq<Turn>)
    requires History(p, turns) && turns != [] && turns[|turns| - 1].repair.Some?
    ensures var repair := turns[|turns| - 1].repair.value;
            && |repair.started| <= |repair.tasks|
            && Executed(p.w, repair.first, repair.started, repair.report.completed)
  {
    assert RepairRanAt(p.w, turns, |turns| - 1);
    RunTells(p.w, turns[|turns| - 1].repair.value);
  }

  ghost predicate TurnExecuted(w: World, turn: Turn) {
    && Executed(w, turn.run.first, turn.run.started, turn.run.report.completed)
    && (turn.repair.Some? ==>
          && turn.repair.value.first == turn.run.first + |turn.run.started|
          && Executed(w, turn.repair.value.first, turn.repair.value.started, turn.repair.value.report.completed))
  }

  lemma {:induction false} LastExecuted(p: Setup, turns: seq<Turn>)
    requires History(p, turns) && turns != []
    ensures TurnExecuted(p.w, turns[|turns| - 1])
    ensures turns[|turns| - 1].run.first == |Calls(turns[..|turns| - 1])|
  {
    assert LinkedAt(p, turns, |turns| - 1);
    RoundRecords(p, turns);
    if turns[|turns| - 1].repair.Some? {
      RepairRecords(p, turns);
    }
  }

  lemma {:induction false} TurnIsSound(w: World, calls: seq<AgentTask>, made: seq<RuntimeTaskResult>, turn: Turn)
    requires AllSound(w, calls, made) && TurnExecuted(w, turn) && turn.run.first == |calls|
    ensures AllSound(w, calls + turn.Started(), made + turn.Completed())
  {
    var run := turn.run;
    SoundConcat(w, calls, made, run.first, run.started, run.report.completed);
    if turn.repair.Some? {
      var repair := turn.repair.value;
      var calls', made' := calls + run.started, made + run.report.completed;
      SoundConcat(w, calls', made', repair.first, repair.started, repair.report.completed);
      assert calls' + repair.started == calls + turn.Started();
      assert made' + repair.report.completed == made + turn.Completed();
    } else {
      assert run.started == turn.Started() && run.report.completed == turn.Completed();
    }
  }

  /** Whatever a development run records is, in order, the accepted success of one of its own calls. */
  lemma {:induction false} HistoryIsSound(p: Setup, turns: seq<Turn>)
    requires History(p, turns)
    ensures AllSound(p.w, Calls(turns), Recorded(turns))
    decreases |turns|
  {
    if turns == [] {
      assert AnswersAt(p.w, [], [], []);
    } else {
      HistoryLast(p, turns);
      HistoryIsSound(p, turns[..|turns| - 1]);
      LastExecuted(p, turns);
      TurnIsSound(p.w, Calls(turns[..|turns| - 1]), Recorded(turns[..|turns| - 1]), turns[|turns| - 1]);
    }
  }

  /** Repairs are within the budget. */
  lemma {:induction false} HistoryLength(p: Setup, turns: seq<Turn>)
    requires History(p, turns) && p.maxRounds >= 1
    ensures |turns| <= p.maxRounds
    ensures turns != [] && turns[|turns| - 1].repair.Some? ==> |turns| < p.maxRounds
  {
    if turns != [] {
      assert LinkedAt(p, turns, |turns| - 1);
      if |turns| > 1 {
        assert LinkedAt(p, turns, |turns| - 2);
      }
    }
  }

  lemma {:induction false} RepairTask(p: Setup, run: StaticRun, round: nat, current: seq<AgentTask>)
    requires RepairOf(p, run, round, current)
    ensures |current| == 1 && current[0].role == Repairer && ValidTask(current[0])
  {
  }

  /** The plan of a later round is a chain of three gates. */
  lemma {:induction false} PlanIsChain(p: Setup, turns: seq<Turn>, current: seq<AgentTask>)
    requires History(p, turns) && PlanOf(p, turns, current) && turns != [] && 1 <= p.maxRounds <= 3
    ensures IsFollowUp(current) && GatesFor(current, turns[|turns| - 1].repair.value.tasks[0])
  {
    HistoryLength(p, turns);
    HistoryLast(p, turns);
    var last := turns[|turns| - 1];
    RepairTask(p, last.run, |turns|, last.repair.value.tasks);
    FollowUpResult(BlamedBy(last.run).value, last.repair.value.tasks[0], p.integrator, |turns|);
  }

  /** The repair task of the last round. */
  lemma {:induction false} LastRepair(p: Setup, turns: seq<Turn>)
    requires History(p, turns) && turns != [] && turns[|turns| - 1].repair.Some?
    ensures var tasks := turns[|turns| - 1].repair.value.tasks;
            |tasks| == 1 && tasks[0].role == Repairer && ValidTask(tasks[0])
  {
    assert LinkedAt(p, turns, |turns| - 1);
    RepairTask(p, turns[|turns| - 1].run, |turns|, turns[|turns| - 1].repair.value.tasks);
  }

  /** A round costs at most one call for each of its tasks, a repair at most one. */
  lemma {:induction false} LastCalls(p: Setup, turns: seq<Turn>)
    requires History(p, turns) && turns != []
    ensures var last := turns[|turns| - 1];
            |last.Started()| <= |last.run.tasks| + (if last.repair.Some? then 1 else 0)
  {
    RoundRecords(p, turns);
    if turns[|turns| - 1].repair.Some? {
      LastRepair(p, turns);
      RepairRecords(p, turns);
    }
  }

  lemma {:induction false} HistoryCalls(p: Setup, turns: seq<Turn>)
    requires History(p, turns) && turns != [] && 1 <= p.maxRounds <= 3
    ensures |Calls(turns)| <= |p.tasks| + 4 * (|turns| - 1) + (if turns[|turns| - 1].repair.Some? then 1 else 0)
    decreases |turns|
  {
    var before, last := turns[..|turns| - 1], turns[|turns| - 1];
    HistoryLast(p, turns);
    LastCalls(p, turns);
    if before == [] {
      assert Calls(before) == [];
    } else {
      HistoryCalls(p, before);
      PlanIsChain(p, before, last.run.tasks);
    }
  }

  function CountRole(completed: seq<RuntimeTaskResult>, role: AgentRole): nat {
    if completed == [] then 0
    else CountRole(completed[..|completed| - 1], role) + (if completed[|completed| - 1].task.role == role then 1 else 0)
  }

  lemma {:induction false} CountConcat(a: seq<RuntimeTaskResult>, b: seq<RuntimeTaskResult>, role: AgentRole)
    ensures CountRole(a + b, role) == CountRole(a, role) + CountRole(b, role)
    decreases |b|
  {
    if b == [] {
      assert a + b == a;
    } else {
      CountConcat(a, b[..|b| - 1], role);
      assert (a + b)[..|a + b| - 1] == a + b[..|b| - 1];
    }
  }

  lemma {:induction false} CountNone(completed: seq<RuntimeTaskResult>, role: AgentRole)
    requires forall i | 0 <= i < |completed| :: completed[i].task.role != role
    ensures CountRole(completed, role) == 0
    decreases |completed|
  {
    if completed == [] {
      assert CountRole(completed, role) == 0;
    } else {
      CountNone(completed[..|completed| - 1], role);
    }
  }

  predicate Repaired(turn: Turn) {
    turn.repair.Some? && turn.repair.value.report.Success()
  }

  lemma {:induction false} RepairOutcome(p: Setup, turns: seq<Turn>)
    requires History(p, turns) && turns != [] && turns[|turns| - 1].repair.Some?
    ensures var repair := turns[|turns| - 1].repair.value;
            && (repair.report.Success() ==> RanWholePlan(repair.tasks, repair.report.completed))
            && (!repair.report.Success() ==> |repair.report.completed| < |repair.tasks|)
  {
    var repair := turns[|turns| - 1].repair.value;
    LastRepair(p, turns);
    assert RepairRanAt(p.w, turns, |turns| - 1);
    RunTells(p.w, repair);
  }

  /** A repair run records its task when it succeeds, and nothing when it fails. */
  lemma {:induction false} RepairResult(p: Setup, turns: seq<Turn>)
    requires History(p, turns) && turns != [] && turns[|turns| - 1].repair.Some?
    ensures var last := turns[|turns| - 1];
            && |last.repair.value.tasks| == 1 && last.repair.value.tasks[0].role == Repairer
            && TasksOf(last.repair.value.report.completed) ==
               if Repaired(last) then [last.repair.value.tasks[0]] else []
  {
    var repair := turns[|turns| - 1].repair.value;
    LastRepair(p, turns);
    RepairOutcome(p, turns);
    if repair.report.Success() {
      assert repair.tasks == [repair.tasks[0]];
      SingletonRuns(repair.tasks[0], repair.report.completed);
    }
  }

  lemma {:induction false} CountOne(completed: seq<RuntimeTaskResult>, t: AgentTask)
    requires TasksOf(completed) == [t]
    ensures CountRole(completed, t.role) == 1
  {
    assert completed == [] + [completed[0]] && TasksOf(completed)[0] == t;
    CountConcat([], [completed[0]], t.role);
  }

  lemma {:induction false} LastRepairs(p: Setup, turns: seq<Turn>)
    requires History(p, turns) && turns != []
    ensures var last := turns[|turns| - 1];
            CountRole(last.Completed(), Repairer) ==
            CountRole(last.run.report.completed, Repairer) + (if Repaired(last) then 1 else 0)
  {
    var last := turns[|turns| - 1];
    if last.repair.Some? {
      var made := last.repair.value.report.completed;
      RepairResult(p, turns);
      CountConcat(last.run.report.completed, made, Repairer);
      if Repaired(last) {
        CountOne(made, last.repair.value.tasks[0]);
      } else {
        assert made == [];
      }
    } else {
      assert last.Completed() == last.run.report.completed;
    }
  }

  lemma {:induction false} RecordsItsTasks(p: Setup, turns: seq<Turn>)
    requires History(p, turns) && turns != []
    ensures var run := turns[|turns| - 1].run;
            forall i | 0 <= i < |run.report.completed| :: run.report.completed[i].task in run.tasks
  {
    var run := turns[|turns| - 1].run;
    RoundRecords(p, turns);
    forall i | 0 <= i < |run.report.completed| ensures run.report.completed[i].task in run.tasks {
      assert run.report.completed[i].task == run.started[i];
    }
  }

  lemma {:induction false} LaterPlan(p: Setup, turns: seq<Turn>)
    requires History(p, turns) && |turns| > 1 && 1 <= p.maxRounds <= 3
    ensures forall t | t in turns[|turns| - 1].run.tasks :: t.role != Repairer
  {
    HistoryLast(p, turns);
    PlanIsChain(p, turns[..|turns| - 1], turns[|turns| - 1].run.tasks);
  }

  /** No follow-up round records a Repairer. */
  lemma {:induction false} ChainRecords(p: Setup, turns: seq<Turn>)
    requires History(p, turns) && |turns| > 1 && 1 <= p.maxRounds <= 3
    ensures CountRole(turns[|turns| - 1].run.report.completed, Repairer) == 0
  {
    LaterPlan(p, turns);
    RecordsItsTasks(p, turns);
    CountNone(turns[|turns| - 1].run.report.completed, Repairer);
  }

  lemma {:induction false} LastCounts(p: Setup, turns: seq<Turn>)
    requires History(p, turns) && turns != [] && 1 <= p.maxRounds <= 3
    ensures var before, last := turns[..|turns| - 1], turns[|turns| - 1];
            CountRole(Recorded(turns), Repairer) ==
            CountRole(Recorded(before), Repairer) + (if Repaired(last) then 1 else 0) +
            (if |turns| == 1 then CountRole(last.run.report.completed, Repairer) else 0)
  {
    LastRepairs(p, turns);
    CountConcat(Recorded(turns[..|turns| - 1]), turns[|turns| - 1].Completed(), Repairer);
    if |turns| > 1 {
      ChainRecords(p, turns);
    }
  }

  /** Only after a repair that succeeded there is another round. */
  lemma {:induction false} EarlierRepaired(p: Setup, turns: seq<Turn>)
    requires History(p, turns) && |turns| > 1
    ensures Repaired(turns[|turns| - 2])
  {
    var before := turns[..|turns| - 1];
    assert LinkedAt(p, turns, |turns| - 1) && before[|before| - 1] == turns[|turns| - 2];
  }

  /** Besides what the given tasks record, a run records exactly one Repairer for each repair
      that succeeded. */
  lemma {:induction false} HistoryRepairs(p: Setup, turns: seq<Turn>)
    requires History(p, turns) && turns != [] && 1 <= p.maxRounds <= 3
    ensures CountRole(Recorded(turns), Repairer) ==
            CountRole(turns[0].run.report.completed, Repairer) + |turns| -
            (if Repaired(turns[|turns| - 1]) then 0 else 1)
    decreases |turns|
  {
    LastCounts(p, turns);
    if |turns| == 1 {
      assert CountRole(Recorded(turns[..0]), Repairer) == 0;
    } else {
      var before := turns[..|turns| - 1];
      assert before[0] == turns[0] && before[|before| - 1] == turns[|turns| - 2];
      EarlierRepaired(p, turns);
      HistoryLast(p, turns);
      HistoryRepairs(p, before);
    }
  }

  /** Everything about a history that its end does not decide. */
  lemma {:induction false} HistoryFacts(p: Setup, turns: seq<Turn>)
    requires History(p, turns) && turns != [] && 1 <= p.maxRounds <= 3
    ensures |Calls(turns)| <= |p.tasks| + 4 * (p.maxRounds - 1)
    ensures AllSound(p.w, Calls(turns), Recorded(turns))
    ensures CountRole(Recorded(turns), Repairer) ==
            CountRole(turns[0].run.report.completed, Repairer) + |turns| -
            (if Repaired(turns[|turns| - 1]) then 0 else 1)
  {
    HistoryLength(p, turns);
    HistoryCalls(p, turns);
    HistoryIsSound(p, turns);
    HistoryRepairs(p, turns);
  }

  // ----- the end of a development run -----

  /** Which return statement ended the run. `IdTooLong` is the `ValueError` that building
      a follow-up task lets escape. */
  datatype Exit =
    | MissingRole | PlanRejected | NotRepairable | BudgetSpent | PlannerFailed | NotARepairer
    | RepairFailed | GateMissing | RoundLimit | Integrated | IdTooLong

  /** The trace ends with a repair and the three gates it had to pass, in this order. */
  ghost predicate EndsWithGates(completed: seq<RuntimeTaskResult>) {
    && |completed| >= 4
    && GatesFor(TasksOf(completed[|completed| - 3..]), completed[|completed| - 4].task)
  }

  /** Without a repair the whole plan ran; otherwise the last repair passed its gates. */
  ghost predicate PassedAllGates(tasks: seq<AgentTask>, completed: seq<RuntimeTaskResult>, repairs: nat) {
    if repairs == 0 then RanWholePlan(tasks, completed) else EndsWithGates(completed)
  }

  /** The last round ended, without a repair, because `text` stopped its task `t`. */
  ghost predicate StopsRound(p: Setup, turns: seq<Turn>, t: AgentTask, text: string) {
    && turns != [] && turns[|turns| - 1].repair.None?
    && BlamedBy(turns[|turns| - 1].run) == Some(t) && turns[|turns| - 1].run.report.error == Some(text)
    && StoppedAt(p.w, 0, Calls(turns), t, text)
  }

  /** What is reported after `text` stopped task `t` of the last round. */
  ghost predicate CauseOf(p: Setup, t: AgentTask, text: string, report: RuntimeReport, exit: Exit) {
    match exit
    case NotRepairable => !IsGate(t) && report.failedTaskId == Some(t.id) && report.error == Some(text)
    case BudgetSpent =>
      && IsGate(t) && (p.w.repair.None? || report.rounds == p.maxRounds)
      && report.failedTaskId == Some(t.id) && report.error == Some(OrGateFailed(Some(text)))
    case PlannerFailed =>
      && IsGate(t) && p.w.repair.Some?
      && var answer := Planner(p.w, t, OrGateFailed(Some(text)), report.rounds);
         answer.RepairRaises? && report.failedTaskId == Some(t.id)
         && report.error == Some("repair planner failed: " + answer.text)
    case NotARepairer =>
      && IsGate(t) && p.w.repair.Some?
      && var answer := Planner(p.w, t, OrGateFailed(Some(text)), report.rounds);
         answer.Repairs? && answer.task.role != Repairer && report.failedTaskId == Some(answer.task.id)
         && report.error == Some("repair planner returned non-repairer task")
    case _ => false
  }

  /** The last repair task was stopped, or could not be planned. */
  ghost predicate RepairStops(p: Setup, turns: seq<Turn>, report: RuntimeReport) {
    && turns != [] && turns[|turns| - 1].repair.Some? && |turns[|turns| - 1].repair.value.tasks| == 1
    && report.error.Some?
    && var repair := turns[|turns| - 1].repair.value.tasks[0];
       if report.failedTaskId.Some?
       then report.failedTaskId.value == repair.id && StoppedAt(p.w, 0, Calls(turns), repair, report.error.value)
       else RefusedPlan([repair], report.error.value)
  }

  ghost predicate Explained(p: Setup, turns: seq<Turn>, report: RuntimeReport, exit: Exit) {
    match exit
    case Integrated => report.failedTaskId.None? && report.error.None?
    case PlanRejected =>
      && |turns| == 1 && Calls(turns) == [] && report.completed == []
      && report.failedTaskId.None? && report.error.Some? && RefusedPlan(p.tasks, report.error.value)
    case RepairFailed => RepairStops(p, turns, report)
    case _ => exists t, text :: StopsRound(p, turns, t, text) && CauseOf(p, t, text, report, exit)
  }

  /** What every report of the development loop satisfies. */
  ghost predicate DevelopmentReport(p: Setup, turns: seq<Turn>, report: RuntimeReport, exit: Exit) {
    && (report.Success() <==> report.integrationReady)
    && (report.integrationReady <==> exit == Integrated)
    && report.completed == Recorded(turns)
    && report.rounds == |turns| <= p.maxRounds
    && report.repairAttempts == report.rounds - (if exit in {PlannerFailed, NotARepairer, RepairFailed} then 0 else 1)
    && report.repairAttempts <= p.maxRounds - 1
    && turns != [] && !Repaired(turns[|turns| - 1])
    && Explained(p, turns, report, exit)
    && (report.integrationReady ==> PassedAllGates(p.tasks, report.completed, report.repairAttempts))
  }

  /** The repair succeeded, but an id derived from the failed gate or the integrator is refused. */
  ghost predicate DerivedIdRefused(p: Setup, turns: seq<Turn>) {
    && turns != [] && Repaired(turns[|turns| - 1])
    && var last := turns[|turns| - 1];
       && BlamedBy(last.run).Some? && |last.repair.value.tasks| == 1
       && FollowUp(BlamedBy(last.run).value, last.repair.value.tasks[0], p.integrator, |turns|).None?
  }

  /** Ids short enough for every id that the repairs can derive from them. */
  predicate ShortGateIds(tasks: seq<AgentTask>) {
    && (forall i | 0 <= i < |tasks| :: ValidTask(tasks[i]))
    && (forall i | 0 <= i < |tasks| && IsGate(tasks[i]) :: |tasks[i].id| <= 180)
    && (forall i | 0 <= i < |tasks| && tasks[i].role == Integrator :: |tasks[i].id| <= 194)
  }

  lemma {:induction false} GateIdsWiden(tasks: seq<AgentTask>, a: int, b: int)
    requires GateIdsWithin(tasks, a) && a <= b
    ensures GateIdsWithin(tasks, b)
  {
  }

  /** Each repair lengthens the ids of the gates by at most ten characters. */
  lemma {:induction false} GateIdsGrow(p: Setup, turns: seq<Turn>, current: seq<AgentTask>)
    requires History(p, turns) && PlanOf(p, turns, current)
    requires ShortGateIds(p.tasks) && 1 <= p.maxRounds <= 3
    ensures GateIdsWithin(current, 180 + 10 * |turns|)
    decreases |turns|
  {
    if turns == [] {
      assert GateIdsWithin(current, 180);
    } else {
      var before, last := turns[..|turns| - 1], turns[|turns| - 1];
      HistoryLength(p, turns);
      HistoryLast(p, turns);
      GateIdsGrow(p, before, last.run.tasks);
      var failed := BlamedBy(last.run).value;
      FollowUpIds(failed, last.repair.value.tasks[0], p.integrator, |turns|);
      GateIdsWiden(current, |failed.id| + 10, 180 + 10 * |turns|);
    }
  }

  lemma {:induction false} ShortIdsAreAccepted(p: Setup, turns: seq<Turn>)
    requires History(p, turns) && ShortGateIds(p.tasks) && 1 <= p.maxRounds <= 3
    requires p.integrator in p.tasks && p.integrator.role == Integrator
    ensures !DerivedIdRefused(p, turns)
  {
    if DerivedIdRefused(p, turns) {
      var before, last := turns[..|turns| - 1], turns[|turns| - 1];
      HistoryLength(p, turns);
      HistoryLast(p, turns);
      RepairTask(p, last.run, |turns|, last.repair.value.tasks);
      GateIdsGrow(p, before, last.run.tasks);
      FollowUpFits(BlamedBy(last.run).value, last.repair.value.tasks[0], p.integrator, |turns|);
    }
  }

  lemma {:induction false} RoundTells(p: Setup, turns: seq<Turn>)
    requires History(p, turns) && turns != []
    ensures var run := turns[|turns| - 1].run;
            && (run.report.Success() ==> RanWholePlan(run.tasks, run.report.completed))
            && (run.report.failedTaskId.Some? ==>
                  && BlamedBy(run).Some? && run.report.error.Some?
                  && StoppedAt(p.w, run.first, run.started, BlamedBy(run).value, run.report.error.value))
            && (run.report.failedTaskId.None? && run.report.error.Some? ==>
                  RefusedPlan(run.tasks, run.report.error.value) && run.report.completed == [] && run.started == [])
  {
    assert RanAt(p.w, turns, |turns| - 1);
    RunTells(p.w, turns[|turns| - 1].run);
  }

  /** What the run of the last round tells. */
  lemma {:induction false} RoundRun(p: Setup, turns: seq<Turn>)
    requires History(p, turns) && turns != []
    ensures var run, before := turns[|turns| - 1].run, Calls(turns[..|turns| - 1]);
            && (run.report.Success() ==> RanWholePlan(run.tasks, run.report.completed))
            && (run.report.failedTaskId.Some? ==>
                  && BlamedBy(run).Some? && run.report.error.Some?
                  && StoppedAt(p.w, 0, before + run.started, BlamedBy(run).value, run.report.error.value))
            && (run.report.failedTaskId.None? && run.report.error.Some? ==>
                  RefusedPlan(run.tasks, run.report.error.value) && run.report.completed == [] && run.started == [])
  {
    var run, before := turns[|turns| - 1].run, Calls(turns[..|turns| - 1]);
    assert LinkedAt(p, turns, |turns| - 1);
    RoundTells(p, turns);
    if run.report.failedTaskId.Some? {
      LaterCalls(p.w, before, run.first, run.started, BlamedBy(run).value, run.report.error.value);
    }
  }

  /** A round without a repair that ended at a task. */
  lemma {:induction false} RoundStops(p: Setup, turns: seq<Turn>)
    requires History(p, turns) && turns != [] && turns[|turns| - 1].repair.None?
    requires turns[|turns| - 1].run.report.failedTaskId.Some?
    ensures var run := turns[|turns| - 1].run;
            && BlamedBy(run).Some? && run.report.error.Some?
            && StopsRound(p, turns, BlamedBy(run).value, run.report.error.value)
  {
    RoundRun(p, turns);
    assert turns[|turns| - 1].Started() == turns[|turns| - 1].run.started;
  }

  lemma {:induction false} RepairTells(p: Setup, turns: seq<Turn>)
    requires History(p, turns) && turns != [] && turns[|turns| - 1].repair.Some?
    ensures var repair := turns[|turns| - 1].repair.value;
            && (repair.report.failedTaskId.Some? ==>
                  && BlamedBy(repair).Some? && repair.report.error.Some?
                  && StoppedAt(p.w, repair.first, repair.started, BlamedBy(repair).value, repair.report.error.value))
            && (repair.report.failedTaskId.None? && repair.report.error.Some? ==>
                  RefusedPlan(repair.tasks, repair.report.error.value))
  {
    assert RepairRanAt(p.w, turns, |turns| - 1);
    RunTells(p.w, turns[|turns| - 1].repair.value);
  }

  lemma {:induction false} CallsWithRepair(turns: seq<Turn>)
    requires turns != [] && turns[|turns| - 1].repair.Some?
    ensures var last := turns[|turns| - 1];
            Calls(turns) == (Calls(turns[..|turns| - 1]) + last.run.started) + last.repair.value.started
  {
  }

  /** What the run of a repair task tells. */
  lemma {:induction false} RepairRun(p: Setup, turns: seq<Turn>)
    requires History(p, turns) && turns != [] && turns[|turns| - 1].repair.Some?
    ensures var repair := turns[|turns| - 1].repair.value;
            && (repair.report.failedTaskId.Some? ==>
                  && BlamedBy(repair).Some? && repair.report.error.Some?
                  && StoppedAt(p.w, 0, Calls(turns), BlamedBy(repair).value, repair.report.error.value))
            && (repair.report.failedTaskId.None? && repair.report.error.Some? ==>
                  RefusedPlan(repair.tasks, repair.report.error.value))
  {
    var last := turns[|turns| - 1];
    var repair, before := last.repair.value, Calls(turns[..|turns| - 1]) + last.run.started;
    assert LinkedAt(p, turns, |turns| - 1);
    RepairTells(p, turns);
    if repair.report.failedTaskId.Some? {
      LaterCalls(p.w, before, repair.first, repair.started, BlamedBy(repair).value, repair.report.error.value);
      CallsWithRepair(turns);
    }
  }

  /** A repair that did not succeed. */
  lemma {:induction false} RepairStopped(p: Setup, turns: seq<Turn>, report: RuntimeReport)
    requires History(p, turns) && turns != [] && turns[|turns| - 1].repair.Some?
    requires !Repaired(turns[|turns| - 1])
    requires report.failedTaskId == turns[|turns| - 1].repair.value.report.failedTaskId
    requires report.error == turns[|turns| - 1].repair.value.report.error
    ensures RepairStops(p, turns, report)
  {
    var repair := turns[|turns| - 1].repair.value;
    LastRepair(p, turns);
    RepairRun(p, turns);
    assert repair.tasks == [repair.tasks[0]];
  }

  lemma {:induction false} GatesFound(gates: seq<AgentTask>, completed: seq<RuntimeTaskResult>, at: nat)
    requires IsFollowUp(gates) && at <= |completed| && TasksOf(completed[at..]) == gates
    ensures LatestOfRole(completed, Reviewer).Some? && LatestOfRole(completed, Integrator).Some?
  {
    assert |completed| == at + 3;
    assert completed[at..][1] == completed[at + 1] && completed[at..][2] == completed[at + 2];
    assert completed[at + 1].task == gates[1] && completed[at + 2].task == gates[2];
  }

  lemma {:induction false} GatesAppended(
    current: seq<AgentTask>, before: seq<RuntimeTaskResult>, made: seq<RuntimeTaskResult>)
    requires before != [] && GatesFor(current, before[|before| - 1].task) && TasksOf(made) == current
    ensures EndsWithGates(before + made)
    ensures LatestOfRole(before + made, Reviewer).Some? && LatestOfRole(before + made, Integrator).Some?
  {
    var all, b := before + made, |before|;
    assert |all| - 3 == b && all[b..] == made;
    assert all[|all| - 4] == before[b - 1];
    GatesFound(current, all, b);
  }

  lemma {:induction false} PlanHasRole(tasks: seq<AgentTask>, made: seq<RuntimeTaskResult>, role: AgentRole)
    requires RanWholePlan(tasks, made) && FirstOfRole(tasks, role).Some?
    ensures LatestOfRole(made, role).Some?
  {
    var batches :| PlanSpec(tasks, Planned(batches)) && TasksOf(made) == Flatten(batches);
    PlanIsTopological(tasks, batches);
    var t := FirstOfRole(tasks, role).value;
    assert t in Elems(tasks);
    var i :| 0 <= i < |made| && TasksOf(made)[i] == t;
    assert made[i].task.role == role;
  }

  lemma {:induction false} RepairRecordedLast(p: Setup, turns: seq<Turn>)
    requires History(p, turns) && turns != [] && Repaired(turns[|turns| - 1])
    ensures Recorded(turns) != [] && |turns[|turns| - 1].repair.value.tasks| == 1
    ensures Recorded(turns)[|Recorded(turns)| - 1].task == turns[|turns| - 1].repair.value.tasks[0]
  {
    RepairResult(p, turns);
    var made := turns[|turns| - 1].repair.value.report.completed;
    assert TasksOf(made)[0] == made[0].task;
  }

  lemma {:induction false} FirstRoundSucceeds(p: Setup, made: seq<RuntimeTaskResult>)
    requires RanWholePlan(p.tasks, made) && HasRequiredRoles(p.tasks)
    ensures LatestOfRole(made, Reviewer).Some? && LatestOfRole(made, Integrator).Some?
  {
    PlanHasRole(p.tasks, made, Reviewer);
    PlanHasRole(p.tasks, made, Integrator);
  }

  lemma {:induction false} ChainSucceeds(
    p: Setup, before: seq<Turn>, current: seq<AgentTask>, made: seq<RuntimeTaskResult>)
    requires History(p, before) && before != [] && PlanOf(p, before, current) && 1 <= p.maxRounds <= 3
    requires RanWholePlan(current, made)
    ensures EndsWithGates(Recorded(before) + made)
    ensures LatestOfRole(Recorded(before) + made, Reviewer).Some?
    ensures LatestOfRole(Recorded(before) + made, Integrator).Some?
  {
    PlanIsChain(p, before, current);
    RepairRecordedLast(p, before);
    FollowUpRuns(current, made);
    GatesAppended(current, Recorded(before), made);
  }

  lemma {:induction false} LastRecorded(turns: seq<Turn>)
    requires turns != [] && turns[|turns| - 1].repair.None?
    ensures var before, made := turns[..|turns| - 1], turns[|turns| - 1].run.report.completed;
            Recorded(turns) == Recorded(before) + made && (before == [] ==> Recorded(turns) == made)
  {
    assert turns[|turns| - 1].Completed() == turns[|turns| - 1].run.report.completed;
    if |turns| == 1 {
      assert Recorded(turns[..0]) == [];
    }
  }

  /** What a successful round leaves: the whole plan in round 1, the repair and its three gates later. */
  lemma {:induction false} RoundSucceeds(p: Setup, turns: seq<Turn>)
    requires History(p, turns) && turns != [] && turns[|turns| - 1].repair.None?
    requires turns[|turns| - 1].run.report.Success() && 1 <= p.maxRounds <= 3 && HasRequiredRoles(p.tasks)
    ensures PassedAllGates(p.tasks, Recorded(turns), |turns| - 1)
    ensures LatestOfRole(Recorded(turns), Reviewer).Some? && LatestOfRole(Recorded(turns), Integrator).Some?
  {
    var before, last := turns[..|turns| - 1], turns[|turns| - 1];
    var made := last.run.report.completed;
    HistoryLast(p, turns);
    RoundRun(p, turns);
    LastRecorded(turns);
    if before == [] {
      FirstRoundSucceeds(p, made);
    } else {
      ChainSucceeds(p, before, last.run.tasks, made);
    }
  }

  /** Only the tasks that were handed in can be refused by the planner in a round. */
  lemma {:induction false} RefusedAtOnce(p: Setup, turns: seq<Turn>)
    requires History(p, turns) && turns != [] && turns[|turns| - 1].repair.None? && 1 <= p.maxRounds <= 3
    requires turns[|turns| - 1].run.report.failedTaskId.None? && turns[|turns| - 1].run.report.error.Some?
    ensures |turns| == 1 && Calls(turns) == [] && Recorded(turns) == []
    ensures RefusedPlan(p.tasks, turns[0].run.report.error.value)
  {
    var before, last := turns[..|turns| - 1], turns[|turns| - 1];
    HistoryLast(p, turns);
    RoundRun(p, turns);
    if before != [] {
      PlanIsChain(p, before, last.run.tasks);
      FollowUpSchedulable(last.run.tasks);
      RefusedUnschedulable(last.run.tasks, last.run.report.error.value);
    } else {
      assert Calls(before) == [] && Recorded(before) == [];
    }
  }

  // ----- the development loop -----

  datatype Round =
    | Stop(report: Option<RuntimeReport>, exit: Exit)
    | Continue(completed: seq<RuntimeTaskResult>, current: seq<AgentTask>)

  ghost predicate GoodStop(p: Setup, turns: seq<Turn>, r: Round) {
    && r.Stop?
    && r.exit != RoundLimit && r.exit != GateMissing && r.exit != MissingRole
    && (r.report.None? <==> r.exit == IdTooLong)
    && (r.report.None? ==> DerivedIdRefused(p, turns))
    && (r.report.Some? ==> DevelopmentReport(p, turns, r.report.value, r.exit))
  }

  /** The history so far, and what the loop keeps of it. */
  ghost predicate At(p: Setup, turns: seq<Turn>, completed: seq<RuntimeTaskResult>, calls: nat) {
    History(p, turns) && completed == Recorded(turns) && calls == |Calls(turns)| && 1 <= p.maxRounds <= 3
  }

  /** The current round is over and was stopped at `failed`; no repair has run yet. */
  ghost predicate StoppedRound(p: Setup, turns: seq<Turn>, round: nat, failed: AgentTask, error: Option<string>) {
    && 1 <= |turns| == round <= p.maxRounds && turns[round - 1].repair.None?
    && turns[round - 1].run.report.failedTaskId.Some?
    && BlamedBy(turns[round - 1].run) == Some(failed) && turns[round - 1].run.report.error == error
  }

  lemma {:induction false} RepairCounted(turns: seq<Turn>, turn: Turn)
    requires turns != [] && turns[|turns| - 1].repair.None?
    requires turn.repair.Some? && turn.run == turns[|turns| - 1].run
    ensures var longer := turns[..|turns| - 1] + [turn];
            && Calls(turns) == Calls(turns[..|turns| - 1]) + turn.run.started
            && Calls(longer) == Calls(turns) + turn.repair.value.started
            && Recorded(longer) == Recorded(turns) + turn.repair.value.report.completed
  {
    var before, last := turns[..|turns| - 1], turns[|turns| - 1];
    TurnAdded(before, turn);
    assert last.Started() == last.run.started && last.Completed() == last.run.report.completed;
  }

  lemma {:induction false} RepairLinked(p: Setup, turns: seq<Turn>, turn: Turn)
    requires AllLinked(p, turns) && turns != []
    requires turn.repair.Some? && turn.run == turns[|turns| - 1].run
    requires RepairOf(p, turn.run, |turns|, turn.repair.value.tasks)
    requires turn.repair.value.first == turn.run.first + |turn.run.started|
    ensures AllLinked(p, turns[..|turns| - 1] + [turn])
  {
    var k := |turns| - 1;
    var longer := turns[..k] + [turn];
    assert longer[..k] == turns[..k] && LinkedAt(p, turns, k);
    assert LinkedAt(p, longer, k);
    LinkedPrefix(p, turns, k);
    LinkedSnoc(p, turns[..k], turn);
  }

  lemma {:induction false} RepairRan(w: World, turns: seq<Turn>, turn: Turn)
    requires AllRan(w, turns) && turns != [] && turn.run == turns[|turns| - 1].run
    requires turn.repair.Some? && Ran(w, turn.repair.value)
    ensures AllRan(w, turns[..|turns| - 1] + [turn])
  {
    assert RanAt(w, turns, |turns| - 1);
    RanPrefix(w, turns, |turns| - 1);
    RanSnoc(w, turns[..|turns| - 1], turn);
  }

  /** The history with a repair added to its last round. */
  lemma {:induction false} RepairAdded(p: Setup, turns: seq<Turn>, turn: Turn)
    requires History(p, turns) && turns != [] && turns[|turns| - 1].repair.None?
    requires turn.repair.Some? && turn.run == turns[|turns| - 1].run
    requires RepairOf(p, turn.run, |turns|, turn.repair.value.tasks)
    requires Ran(p.w, turn.repair.value) && turn.repair.value.first == |Calls(turns)|
    ensures History(p, turns[..|turns| - 1] + [turn])
  {
    RepairCounted(turns, turn);
    assert LinkedAt(p, turns, |turns| - 1);
    RepairLinked(p, turns, turn);
    RepairRan(p.w, turns, turn);
  }

  method RunRound(
    p: Setup, ghost turns: seq<Turn>, ghost completed: seq<RuntimeTaskResult>, current: seq<AgentTask>, n: nat)
    returns (report: RuntimeReport, calls: nat, ghost longer: seq<Turn>)
    requires At(p, turns, completed, n) && PlanOf(p, turns, current)
    ensures At(p, longer, completed + report.completed, calls) && |longer| == |turns| + 1
    ensures longer[|turns|].repair.None? && longer[|turns|].run.report == report
    ensures longer[|turns|].run.tasks == current
  {
    var started;
    report, started := Run(p.w, current, n);
    ghost var turn := Turn(StaticRun(n, current, report, started), None);
    longer := turns + [turn];
    assert longer[..|turns|] == turns;
    LinkedSnoc(p, turns, turn);
    RanSnoc(p.w, turns, turn);
    TurnAdded(turns, turn);
    assert turn.Started() == started && turn.Completed() == report.completed;
    calls := n + |started|;
  }

  lemma {:induction false} RepairCalls(p: Setup, turns: seq<Turn>)
    requires History(p, turns) && turns != [] && turns[|turns| - 1].repair.Some?
    ensures |turns[|turns| - 1].repair.value.started| <= 1
  {
    RepairRecords(p, turns);
    LastRepair(p, turns);
  }

  method RunRepair(p: Setup, ghost turns: seq<Turn>, ghost completed: seq<RuntimeTaskResult>, repair: AgentTask, n: nat)
    returns (report: RuntimeReport, calls: nat, ghost longer: seq<Turn>)
    requires At(p, turns, completed, n) && turns != [] && turns[|turns| - 1].repair.None?
    requires RepairOf(p, turns[|turns| - 1].run, |turns|, [repair])
    ensures At(p, longer, completed + report.completed, calls) && |longer| == |turns|
    ensures n <= calls <= n + 1
    ensures longer[|turns| - 1].run == turns[|turns| - 1].run && longer[|turns| - 1].repair.Some?
    ensures longer[|turns| - 1].repair.value.report == report && longer[|turns| - 1].repair.value.tasks == [repair]
  {
    var started;
    report, started := Run(p.w, [repair], n);
    ghost var turn := Turn(turns[|turns| - 1].run, Some(StaticRun(n, [repair], report, started)));
    longer := turns[..|turns| - 1] + [turn];
    RepairAdded(p, turns, turn);
    RepairCounted(turns, turn);
    calls := n + |started|;
    RepairCalls(p, longer);
  }

  method Unrepairable(
    ghost p: Setup, ghost turns: seq<Turn>, failed: AgentTask, error: Option<string>,
    completed: seq<RuntimeTaskResult>, round: nat, repairs: nat, ghost calls: nat)
    returns (r: Round)
    requires At(p, turns, completed, calls) && StoppedRound(p, turns, round, failed, error)
    requires repairs == round - 1 && !IsGate(failed)
    ensures GoodStop(p, turns, r)
  {
    RoundStops(p, turns);
    r := Stop(Some(RuntimeReport(completed, Some(failed.id), error, round, repairs, false)), NotRepairable);
    assert StopsRound(p, turns, failed, error.value) && CauseOf(p, failed, error.value, r.report.value, r.exit);
  }

  /** A failed test or review that is not repaired any more. */
  method GiveUp(
    ghost p: Setup, ghost turns: seq<Turn>, failed: AgentTask, error: Option<string>,
    completed: seq<RuntimeTaskResult>, round: nat, repairs: nat, ghost calls: nat)
    returns (r: Round)
    requires At(p, turns, completed, calls) && StoppedRound(p, turns, round, failed, error)
    requires repairs == round - 1 && IsGate(failed) && (p.w.repair.None? || round == p.maxRounds)
    ensures GoodStop(p, turns, r)
  {
    RoundStops(p, turns);
    var text := OrGateFailed(error);
    r := Stop(Some(RuntimeReport(completed, Some(failed.id), Some(text), round, repairs, false)), BudgetSpent);
    assert StopsRound(p, turns, failed, error.value) && CauseOf(p, failed, error.value, r.report.value, r.exit);
  }

  /** The planner has no repair for a failed test or review. */
  method NoRepair(
    ghost p: Setup, ghost turns: seq<Turn>, failed: AgentTask, ghost error: Option<string>,
    completed: seq<RuntimeTaskResult>, round: nat, answer: RepairReply, ghost calls: nat)
    returns (r: Round)
    requires At(p, turns, completed, calls) && StoppedRound(p, turns, round, failed, error)
    requires IsGate(failed) && p.w.repair.Some? && round < p.maxRounds
    requires answer == Planner(p.w, failed, OrGateFailed(error), round)
    requires answer.RepairRaises? || answer.task.role != Repairer
    ensures GoodStop(p, turns, r)
  {
    RoundStops(p, turns);
    if answer.RepairRaises? {
      var text := "repair planner failed: " + answer.text;
      r := Stop(Some(RuntimeReport(completed, Some(failed.id), Some(text), round, round, false)), PlannerFailed);
    } else {
      var text := "repair planner returned non-repairer task";
      r := Stop(Some(RuntimeReport(completed, Some(answer.task.id), Some(text), round, round, false)), NotARepairer);
    }
    assert StopsRound(p, turns, failed, error.value) && CauseOf(p, failed, error.value, r.report.value, r.exit);
  }

  /** What follows the run of a repair task. */
  method AfterRepair(
    p: Setup, ghost turns: seq<Turn>, failed: AgentTask, repair: AgentTask, report: RuntimeReport,
    completed: seq<RuntimeTaskResult>, round: nat, ghost calls: nat)
    returns (r: Round)
    requires At(p, turns, completed, calls) && 1 <= |turns| == round < p.maxRounds
    requires BlamedBy(turns[round - 1].run) == Some(failed) && turns[round - 1].repair.Some?
    requires turns[round - 1].repair.value.tasks == [repair] && turns[round - 1].repair.value.report == report
    ensures r.Stop? ==> GoodStop(p, turns, r)
    ensures r.Continue? ==> PlanOf(p, turns, r.current) && r.completed == completed
  {
    if !report.Success() {
      r := Stop(Some(RuntimeReport(completed, report.failedTaskId, report.error, round, round, false)), RepairFailed);
      RepairStopped(p, turns, r.report.value);
    } else {
      var next := FollowUp(failed, repair, p.integrator, round);
      r := if next.None? then Stop(None, IdTooLong) else Continue(completed, next.value);
    }
  }

  /** A failed test or review that may be repaired: ask the planner, run its task alone, build
      the follow-up round. */
  method RepairOnce(
    p: Setup, ghost turns: seq<Turn>, failed: AgentTask, error: Option<string>,
    completed: seq<RuntimeTaskResult>, round: nat, n: nat)
    returns (r: Round, calls: nat, ghost longer: seq<Turn>)
    requires At(p, turns, completed, n) && StoppedRound(p, turns, round, failed, error)
    requires IsGate(failed) && p.w.repair.Some? && round < p.maxRounds
    ensures History(p, longer) && calls == |Calls(longer)| && |longer| == round
    ensures n <= calls <= n + 1
    ensures r.Stop? ==> GoodStop(p, longer, r)
    ensures r.Continue? ==> r.completed == Recorded(longer) && PlanOf(p, longer, r.current)
  {
    var answer := Planner(p.w, failed, OrGateFailed(error), round);
    if answer.RepairRaises? || answer.task.role != Repairer {
      r := NoRepair(p, turns, failed, error, completed, round, answer, n);
      calls, longer := n, turns;
    } else {
      var report;
      report, calls, longer := RunRepair(p, turns, completed, answer.task, n);
      r := AfterRepair(p, longer, failed, answer.task, report, completed + report.completed, round, calls);
    }
  }

  /** The part of a round that follows a failed run. */
  method FailedRound(
    p: Setup, ghost turns: seq<Turn>, current: seq<AgentTask>, report: RuntimeReport,
    completed: seq<RuntimeTaskResult>, round: nat, repairs: nat, n: nat)
    returns (r: Round, calls: nat, ghost longer: seq<Turn>)
    requires At(p, turns, completed, n) && 1 <= |turns| == round <= p.maxRounds
    requires repairs == round - 1 && !report.Success()
    requires turns[round - 1].run.tasks == current && turns[round - 1].run.report == report
    requires turns[round - 1].repair.None?
    ensures History(p, longer) && calls == |Calls(longer)| && |longer| == round
    ensures r.Stop? ==> GoodStop(p, longer, r)
    ensures r.Continue? ==> r.completed == Recorded(longer) && PlanOf(p, longer, r.current) && round < p.maxRounds
  {
    calls, longer := n, turns;
    if report.failedTaskId.None? {
      RefusedAtOnce(p, turns);
      r := Stop(Some(RuntimeReport(completed, None, report.error, round, repairs, false)), PlanRejected);
    } else {
      RoundStops(p, turns);
      var failed := FindTask(current, report.failedTaskId.value).value;
      if failed.role != Tester && failed.role != Reviewer {
        r := Unrepairable(p, turns, failed, report.error, completed, round, repairs, n);
      } else if p.w.repair.None? || repairs >= p.maxRounds - 1 {
        r := GiveUp(p, turns, failed, report.error, completed, round, repairs, n);
      } else {
        r, calls, longer := RepairOnce(p, turns, failed, report.error, completed, round, n);
      }
    }
  }

  lemma {:induction false} IntegratedReport(p: Setup, turns: seq<Turn>, report: RuntimeReport)
    requires History(p, turns) && turns != [] && turns[|turns| - 1].repair.None?
    requires report == RuntimeReport(Recorded(turns), None, None, |turns|, |turns| - 1, true)
    requires |turns| <= p.maxRounds && PassedAllGates(p.tasks, Recorded(turns), |turns| - 1)
    ensures DevelopmentReport(p, turns, report, Integrated)
  {
  }

  /** The end of a successful round: both gates are found. */
  method FinishRound(
    ghost p: Setup, ghost turns: seq<Turn>, completed: seq<RuntimeTaskResult>, round: nat, repairs: nat,
    ghost calls: nat)
    returns (r: Round)
    requires At(p, turns, completed, calls) && HasRequiredRoles(p.tasks)
    requires 1 <= |turns| == round <= p.maxRounds && repairs == round - 1
    requires turns[round - 1].repair.None? && turns[round - 1].run.report.Success()
    ensures GoodStop(p, turns, r)
  {
    RoundSucceeds(p, turns);
    if LatestOfRole(completed, Reviewer).None? {
      r := Stop(Some(RuntimeReport(completed, None, Some("reviewer gate missing"), round, repairs, false)),
          GateMissing);
    } else if LatestOfRole(completed, Integrator).None? {
      r := Stop(Some(RuntimeReport(completed, None, Some("integrator gate missing"), round, repairs, false)),
          GateMissing);
    } else {
      r := Stop(Some(RuntimeReport(completed, None, None, round, repairs, true)), Integrated);
      IntegratedReport(p, turns, r.report.value);
    }
  }

  method DoRound(
    p: Setup, ghost turns: seq<Turn>, current: seq<AgentTask>, completed: seq<RuntimeTaskResult>, round: nat,
    repairs: nat, n: nat)
    returns (r: Round, calls: nat, ghost longer: seq<Turn>)
    requires At(p, turns, completed, n) && PlanOf(p, turns, current) && HasRequiredRoles(p.tasks)
    requires |turns| == repairs == round - 1 && round <= p.maxRounds
    ensures History(p, longer) && calls == |Calls(longer)| && |longer| == round
    ensures r.Stop? ==> GoodStop(p, longer, r)
    ensures r.Continue? ==> r.completed == Recorded(longer) && PlanOf(p, longer, r.current) && round < p.maxRounds
  {
    var report;
    report, calls, longer := RunRound(p, turns, completed, current, n);
    var all := completed + report.completed;
    if report.Success() {
      r := FinishRound(p, longer, all, round, repairs, calls);
    } else {
      r, calls, longer := FailedRound(p, longer, current, report, all, round, repairs, calls);
    }
  }

  /** The loop over the rounds. */
  method Rounds(p: Setup) returns (r: Round, calls: nat, ghost turns: seq<Turn>)
    requires 1 <= p.maxRounds <= 3 && HasRequiredRoles(p.tasks)
    ensures turns != [] && History(p, turns) && calls == |Calls(turns)| && GoodStop(p, turns, r)
  {
    var completed: seq<RuntimeTaskResult> := [];
    var repairs: nat := 0;
    turns := [];
    r, calls := Continue(completed, p.tasks), 0;
    for round: nat := 1 to p.maxRounds + 1
      invariant round <= p.maxRounds && r.Continue? && r.completed == completed
      invariant At(p, turns, r.completed, calls) && PlanOf(p, turns, r.current)
      invariant |turns| == repairs == round - 1
    {
      r, calls, turns := DoRound(p, turns, r.current, r.completed, round, repairs, calls);
      if r.Stop? {
        return;
      }
      repairs := repairs + 1;
      completed := r.completed;
    }
    var text := "development round limit reached";
    r := Stop(Some(RuntimeReport(completed, None, Some(text), p.maxRounds, repairs, false)), RoundLimit);
  }

  /** `calls` counts the executor calls, and `turns` is the history of the rounds: what they
      ran, with the number of every call, and what followed from it. */
  method RunDevelopment(w: World, maxRounds: nat, tasks: seq<AgentTask>)
    returns (r: Option<RuntimeReport>, calls: nat, exit: Exit, ghost turns: seq<Turn>)
    requires 1 <= maxRounds <= 3
    ensures calls == |Calls(turns)| <= |tasks| + 4 * (maxRounds - 1)
    ensures AllSound(w, Calls(turns), Recorded(turns))
    ensures exit != RoundLimit && exit != GateMissing
    ensures exit == MissingRole <==> !HasRequiredRoles(tasks)
    ensures exit == MissingRole ==>
              turns == [] && r == Some(RuntimeReport([], None, Some("required development role missing"), 0, 0, false))
    ensures exit != MissingRole ==>
              var p := Setup(w, tasks, maxRounds, FirstOfRole(tasks, Integrator).value);
              && turns != [] && History(p, turns)
              && (r.None? ==> DerivedIdRefused(p, turns))
              && (r.Some? ==> DevelopmentReport(p, turns, r.value, exit))
    ensures exit != MissingRole && r.Some? ==>
              CountRole(r.value.completed, Repairer) ==
              CountRole(turns[0].run.report.completed, Repairer) + r.value.rounds - 1
    ensures r.None? <==> exit == IdTooLong
    ensures ShortGateIds(tasks) ==> r.Some?
  {
    if !HasRequiredRoles(tasks) {
      assert AnswersAt(w, [], [], []);
      var missing := "required development role missing";
      return Some(RuntimeReport([], None, Some(missing), 0, 0, false)), 0, MissingRole, [];
    }
    var p := Setup(w, tasks, maxRounds, FirstOfRole(tasks, Integrator).value);
    var last;
    last, calls, turns := Rounds(p);
    HistoryFacts(p, turns);
    if ShortGateIds(tasks) {
      ShortIdsAreAccepted(p, turns);
    }
    return last.report, calls, last.exit, turns;
  }
}
