/** The distributed scheduler (core/distributed_scheduler.py) and the coordinator that
    turns its result into a report (core/distributed_runtime.py). */
module Distributed {
  import opened Text
  import opened MultiAgent
  import opened Reports

  /** What an executor does with a task: raise, return something that is not a result or
      has fields of the wrong type, or answer. Each task runs at most once in a run, so a
      function of the task covers every behaviour, in any interleaving of a batch. */
  datatype Answer = Throws | WrongType | Answers(result: AgentResult)

  datatype Reason =
    | NoExecutor | ExecutorRaised | NotAnAgentResult | SummaryTooLong
    | MalformedResources | UndeclaredResource | WrongTaskId

  type Executor = AgentTask -> Answer

  /** Validation of one answer, in the order of the source. */
  function Validate(t: AgentTask, answer: Answer): Result<AgentResult, Reason> {
    match answer
    case Throws => Err(ExecutorRaised)
    case WrongType => Err(NotAnAgentResult)
    case Answers(r) =>
      if |r.summary| > 4000 then Err(SummaryTooLong)
      else if |r.changedResources| > 8 || exists x | x in r.changedResources :: !ShortName(x)
      then Err(MalformedResources)
      else if !(r.changedResources <= t.resources) then Err(UndeclaredResource)
      else if r.taskId != t.id then Err(WrongTaskId)
      else Ok(r)
  }

  predicate Succeeds(exec: Executor, t: AgentTask) {
    Validate(t, exec(t)).Ok? && Validate(t, exec(t)).value.success
  }

  datatype DistributedRun = DistributedRun(batches: seq<seq<AgentTask>>, results: seq<AgentResult>) {
    predicate Success() {
      forall i | 0 <= i < |results| :: results[i].success
    }
  }

  datatype Outcome =
    | Finished(run: DistributedRun)
    | Unplanned(plan: PlanResult)
    | Empty
    | Failed(taskId: string, reason: Reason)

  /** `results` are the validated answers to `tasks`, position by position. */
  ghost predicate Answered(exec: Executor, tasks: seq<AgentTask>, results: seq<AgentResult>) {
    |results| == |tasks| && forall i | 0 <= i < |tasks| :: Validate(tasks[i], exec(tasks[i])) == Ok(results[i])
  }

  ghost predicate AllSucceed(exec: Executor, tasks: seq<AgentTask>) {
    forall i | 0 <= i < |tasks| :: Succeeds(exec, tasks[i])
  }

  /** A started task finds each of its dependencies among the tasks started earlier, and
      that dependency succeeded. */
  ghost predicate DependenciesSucceeded(exec: Executor, started: seq<AgentTask>) {
    forall i, m | 0 <= i < |started| && 0 <= m < |started[i].dependsOn| ::
      exists j | 0 <= j < i :: started[j].id == started[i].dependsOn[m] && Succeeds(exec, started[j])
  }

  /** What stops a run at task `t`. */
  ghost predicate Faulty(roles: set<AgentRole>, exec: Executor, t: AgentTask, reason: Reason) {
    if t.role !in roles then reason == NoExecutor else Validate(t, exec(t)) == Err(reason)
  }

  ghost predicate FaultIn(roles: set<AgentRole>, exec: Executor, tasks: seq<AgentTask>, id: string, reason: Reason) {
    exists t :: t in tasks && t.id == id && Faulty(roles, exec, t, reason)
  }

  ghost predicate EndsAt(exec: Executor, batches: seq<seq<AgentTask>>, started: seq<AgentTask>, k: nat)
    requires 0 < k <= |batches|
  {
    started == Flatten(batches[..k]) && AllSucceed(exec, Flatten(batches[..k - 1]))
  }

  /** `started` is the flattened plan up to the end of some batch, and every batch before
      the last one succeeded. */
  ghost predicate AlignedPrefix(exec: Executor, batches: seq<seq<AgentTask>>, started: seq<AgentTask>) {
    exists k | 0 < k <= |batches| :: EndsAt(exec, batches, started, k)
  }

  /** Task `i` of the batch is the one that the run raises for: the first one without an
      executor, and then nothing of the batch is started; else the first one whose answer is
      not valid, and then the whole batch was. */
  ghost predicate RaisesAt(
    roles: set<AgentRole>, exec: Executor, batch: seq<AgentTask>, i: nat, reason: Reason, launched: seq<AgentTask>)
    requires i < |batch|
  {
    && Faulty(roles, exec, batch[i], reason)
    && if batch[i].role !in roles
       then launched == [] && forall j | 0 <= j < i :: batch[j].role in roles
       else launched == batch && forall j | 0 <= j < i :: Validate(batch[j], exec(batch[j])).Ok?
  }

  /** The run raises in batch `k`, after the batches before it succeeded. */
  ghost predicate RaisesIn(
    roles: set<AgentRole>, exec: Executor, batches: seq<seq<AgentTask>>, k: nat, id: string, reason: Reason,
    started: seq<AgentTask>)
    requires k < |batches|
  {
    var done := Flatten(batches[..k]);
    && AllSucceed(exec, done) && done <= started
    && exists i | 0 <= i < |batches[k]| ::
         batches[k][i].id == id && RaisesAt(roles, exec, batches[k], i, reason, started[|done|..])
  }

  ghost predicate Raised(
    roles: set<AgentRole>, exec: Executor, tasks: seq<AgentTask>, id: string, reason: Reason, started: seq<AgentTask>)
  {
    exists batches, k: nat ::
      PlanSpec(tasks, Planned(batches)) && k < |batches| && RaisesIn(roles, exec, batches, k, id, reason, started)
  }

  /** The whole contract of a run. `started` lists the tasks handed to an executor. */
  ghost predicate RunSpec(
    roles: set<AgentRole>, exec: Executor, tasks: seq<AgentTask>, r: Outcome, started: seq<AgentTask>)
  {
    && DependenciesSucceeded(exec, started)
    && DistinctIds(started) && Elems(started) <= Elems(tasks)
    && (forall i | 0 <= i < |started| :: started[i].role in roles)
    && match r {
         case Unplanned(plan) => !plan.Planned? && PlanSpec(tasks, plan) && started == []
         case Empty => tasks == [] && started == []
         case Failed(id, reason) =>
           && Schedulable(tasks) && FaultIn(roles, exec, tasks, id, reason)
           && Raised(roles, exec, tasks, id, reason, started)
         case Finished(run) =>
           && PlanSpec(tasks, Planned(run.batches)) && tasks != []
           && AlignedPrefix(exec, run.batches, started)
           && Answered(exec, started, run.results)
           && (run.Success() ==> started == Flatten(run.batches))
       }
  }

  /** All tasks of the batch are submitted before the first answer is looked at. */
  method RunBatch(roles: set<AgentRole>, exec: Executor, batch: seq<AgentTask>)
    returns (r: Result<seq<AgentResult>, (string, Reason)>, ghost at: nat)
    requires forall i | 0 <= i < |batch| :: batch[i].role in roles
    ensures r.Ok? ==> Answered(exec, batch, r.value)
    ensures r.Err? ==> at < |batch| && batch[at].id == r.error.0 && RaisesAt(roles, exec, batch, at, r.error.1, batch)
  {
    var results: seq<AgentResult> := [];
    for i := 0 to |batch|
      invariant Answered(exec, batch[..i], results)
    {
      var checked := Validate(batch[i], exec(batch[i]));
      if checked.Err? {
        return Err((batch[i].id, checked.error)), i;
      }
      results := results + [checked.value];
    }
    assert batch[..|batch|] == batch;
    return Ok(results), 0;
  }

  lemma {:induction false} StartBatch(exec: Executor, started: seq<AgentTask>, batch: seq<AgentTask>)
    requires DependenciesSucceeded(exec, started) && AllSucceed(exec, started)
    requires forall i | 0 <= i < |batch| :: Ready(batch[i], IdsOf(started))
    ensures DependenciesSucceeded(exec, started + batch)
  {
    var all := started + batch;
    forall i, m | 0 <= i < |all| && 0 <= m < |all[i].dependsOn|
      ensures exists j | 0 <= j < i :: all[j].id == all[i].dependsOn[m] && Succeeds(exec, all[j])
    {
      if i < |started| {
        var j :| 0 <= j < i && started[j].id == started[i].dependsOn[m] && Succeeds(exec, started[j]);
        assert all[j] == started[j];
      } else {
        assert Ready(batch[i - |started|], IdsOf(started));
        var j :| 0 <= j < |started| && started[j].id == all[i].dependsOn[m];
        assert all[j] == started[j];
      }
    }
  }

  lemma PrefixFacts(tasks: seq<AgentTask>, batches: seq<seq<AgentTask>>, k: nat)
    requires PlanSpec(tasks, Planned(batches)) && k <= |batches|
    ensures DistinctIds(Flatten(batches[..k])) && Elems(Flatten(batches[..k])) <= Elems(tasks)
  {
    FlattenPrefix(batches, k);
    PlanIsTopological(tasks, batches);
    var p, f := Flatten(batches[..k]), Flatten(batches);
    forall i | 0 <= i < |p| ensures p[i] == f[i] && p[i] in Elems(f) {
    }
  }

  lemma BatchReady(tasks: seq<AgentTask>, batches: seq<seq<AgentTask>>, k: nat)
    requires PlanSpec(tasks, Planned(batches)) && k < |batches|
    ensures forall i | 0 <= i < |batches[k]| :: Ready(batches[k][i], IdsOf(Flatten(batches[..k])))
    ensures forall t | t in batches[k] :: t in tasks
    ensures Flatten(batches[..k + 1]) == Flatten(batches[..k]) + batches[k]
  {
    BatchIsGreedy(Elems(tasks), {}, batches, k);
    FlattenStep(batches, k);
    assert {} + IdsOf(Flatten(batches[..k])) == IdsOf(Flatten(batches[..k]));
  }

  lemma WholePlanRan(exec: Executor, batches: seq<seq<AgentTask>>, started: seq<AgentTask>)
    requires batches != [] && started == Flatten(batches) && AllSucceed(exec, started)
    ensures AlignedPrefix(exec, batches, started)
  {
    var n := |batches|;
    assert batches[..n] == batches;
    FlattenStep(batches, n - 1);
    var f := Flatten(batches[..n - 1]);
    assert forall i | 0 <= i < |f| :: f[i] == started[i];
    assert EndsAt(exec, batches, started, n);
  }

  /** A batch with a failed task ends the run. */
  method JudgeBatch(
    ghost exec: Executor, batches: seq<seq<AgentTask>>, ghost before: seq<AgentTask>, ghost batch: seq<AgentTask>,
    done: seq<AgentResult>, answers: seq<AgentResult>)
    returns (stop: Option<Outcome>)
    requires Answered(exec, batch, answers) && AllSucceed(exec, before)
    ensures stop.Some? ==> stop.value == Finished(DistributedRun(batches, done + answers)) && !stop.value.run.Success()
    ensures stop.None? ==> AllSucceed(exec, before + batch)
  {
    stop := None;
    if exists i | 0 <= i < |answers| :: !answers[i].success {
      var run := DistributedRun(batches, done + answers);
      assert !run.Success() by {
        var i :| 0 <= i < |answers| && !answers[i].success;
        assert !run.results[|done| + i].success;
      }
      stop := Some(Finished(run));
    } else {
      assert forall i | 0 <= i < |batch| :: Validate(batch[i], exec(batch[i])) == Ok(answers[i]) && answers[i].success;
    }
  }

  ghost predicate Progress(
    roles: set<AgentRole>, exec: Executor, tasks: seq<AgentTask>, started: seq<AgentTask>, completed: seq<AgentResult>)
  {
    && DependenciesSucceeded(exec, started)
    && DistinctIds(started) && Elems(started) <= Elems(tasks)
    && (forall i | 0 <= i < |started| :: started[i].role in roles)
    && Answered(exec, started, completed)
  }

  lemma AnsweredMore(
    exec: Executor, started: seq<AgentTask>, completed: seq<AgentResult>, batch: seq<AgentTask>,
    answers: seq<AgentResult>)
    requires Answered(exec, started, completed) && Answered(exec, batch, answers)
    ensures Answered(exec, started + batch, completed + answers)
  {
  }

  lemma RunRaises(
    roles: set<AgentRole>, exec: Executor, tasks: seq<AgentTask>, batches: seq<seq<AgentTask>>, k: nat, i: nat,
    reason: Reason, launched: seq<AgentTask>)
    requires PlanSpec(tasks, Planned(batches)) && k < |batches| && i < |batches[k]|
    requires AllSucceed(exec, Flatten(batches[..k])) && RaisesAt(roles, exec, batches[k], i, reason, launched)
    ensures FaultIn(roles, exec, tasks, batches[k][i].id, reason)
    ensures Raised(roles, exec, tasks, batches[k][i].id, reason, Flatten(batches[..k]) + launched)
  {
    var done := Flatten(batches[..k]);
    BatchReady(tasks, batches, k);
    assert (done + launched)[|done|..] == launched;
    assert RaisesIn(roles, exec, batches, k, batches[k][i].id, reason, done + launched);
  }

  /** One turn of the loop: `stop` is set when the run ends here. */
  method NextBatch(
    roles: set<AgentRole>, exec: Executor, ghost tasks: seq<AgentTask>, batches: seq<seq<AgentTask>>, k: nat,
    before: seq<AgentTask>, done: seq<AgentResult>)
    returns (stop: Option<Outcome>, started: seq<AgentTask>, completed: seq<AgentResult>)
    requires PlanSpec(tasks, Planned(batches)) && tasks != [] && Schedulable(tasks) && k < |batches|
    requires before == Flatten(batches[..k]) && Progress(roles, exec, tasks, before, done) && AllSucceed(exec, before)
    ensures stop.Some? ==> RunSpec(roles, exec, tasks, stop.value, started)
    ensures stop.None? ==> started == Flatten(batches[..k + 1]) && AllSucceed(exec, started)
    ensures stop.None? ==> Progress(roles, exec, tasks, started, completed)
  {
    var batch := batches[k];
    BatchReady(tasks, batches, k);
    started, completed := before, done;
    var missing := FirstMissing(roles, batch);
    if missing < |batch| {
      assert RaisesAt(roles, exec, batch, missing, NoExecutor, []);
      RunRaises(roles, exec, tasks, batches, k, missing, NoExecutor, []);
      assert before + [] == before;
      stop := Some(Failed(batch[missing].id, NoExecutor));
    } else {
      StartBatch(exec, started, batch);
      PrefixFacts(tasks, batches, k + 1);
      started := started + batch;
      var answers, at := RunBatch(roles, exec, batch);
      if answers.Err? {
        RunRaises(roles, exec, tasks, batches, k, at, answers.error.1, batch);
        stop := Some(Failed(answers.error.0, answers.error.1));
      } else {
        AnsweredMore(exec, before, done, batch, answers.value);
        completed := done + answers.value;
        stop := JudgeBatch(exec, batches, before, batch, done, answers.value);
        assert EndsAt(exec, batches, started, k + 1);
      }
    }
  }

  method RunBatches(roles: set<AgentRole>, exec: Executor, tasks: seq<AgentTask>, batches: seq<seq<AgentTask>>)
    returns (r: Outcome, started: seq<AgentTask>)
    requires PlanSpec(tasks, Planned(batches)) && batches != [] && tasks != [] && Schedulable(tasks)
    ensures RunSpec(roles, exec, tasks, r, started)
  {
    started := [];
    var completed: seq<AgentResult> := [];
    assert batches[..0] == [];
    for k := 0 to |batches|
      invariant started == Flatten(batches[..k])
      invariant Progress(roles, exec, tasks, started, completed)
      invariant AllSucceed(exec, started)
    {
      var stop;
      stop, started, completed := NextBatch(roles, exec, tasks, batches, k, started, completed);
      if stop.Some? {
        return stop.value, started;
      }
    }
    assert batches[..|batches|] == batches;
    WholePlanRan(exec, batches, started);
    return Finished(DistributedRun(batches, completed)), started;
  }

  method Run(roles: set<AgentRole>, exec: Executor, tasks: seq<AgentTask>) returns (r: Outcome, started: seq<AgentTask>)
    ensures RunSpec(roles, exec, tasks, r, started)
  {
    var plan := PlanBatches(tasks);
    PlannedIffSchedulable(tasks, plan);
    if !plan.Planned? {
      return Unplanned(plan), [];
    }
    if plan.batches == [] {
      PlanIsTopological(tasks, []);
      return Empty, [];
    }
    EmptySchedule(Elems(tasks), {}, plan.batches);
    r, started := RunBatches(roles, exec, tasks, plan.batches);
  }

  // ----- consequences for callers -----

  /** A run finishes successfully exactly when the tasks can be scheduled, every role has an
      executor and every task's answer is valid and successful. */
  lemma SuccessExactly(roles: set<AgentRole>, exec: Executor, tasks: seq<AgentTask>, r: Outcome,
      started: seq<AgentTask>)
    requires RunSpec(roles, exec, tasks, r, started)
    ensures r.Finished? && r.run.Success() <==>
              tasks != [] && Schedulable(tasks) && forall t | t in tasks :: t.role in roles && Succeeds(exec, t)
  {
    match r
    case Unplanned(plan) => PlannedIffSchedulable(tasks, plan);
    case Empty =>
    case Failed(id, reason) =>
    case Finished(run) =>
      PlannedIffSchedulable(tasks, Planned(run.batches));
      if run.Success() {
        PlanIsTopological(tasks, run.batches);
        forall t | t in tasks ensures t.role in roles && Succeeds(exec, t) {
          assert t in Elems(tasks);
          var i :| 0 <= i < |started| && started[i] == t;
          assert Validate(started[i], exec(started[i])) == Ok(run.results[i]);
        }
      } else {
        var i :| 0 <= i < |run.results| && !run.results[i].success;
        assert Validate(started[i], exec(started[i])) == Ok(run.results[i]);
        assert started[i] in Elems(tasks) && started[i] in tasks && !Succeeds(exec, started[i]);
      }
  }

  /** Where the result of task `i` of batch `k` is. */
  function Position(run: DistributedRun, k: nat, i: nat): nat
    requires k < |run.batches|
  {
    |Flatten(run.batches[..k])| + i
  }

  lemma BatchConflictFree(
    roles: set<AgentRole>, exec: Executor, tasks: seq<AgentTask>, run: DistributedRun, started: seq<AgentTask>,
    k: nat, a: nat, b: nat)
    requires RunSpec(roles, exec, tasks, Finished(run), started)
    requires k < |run.batches| && a < b < |run.batches[k]|
    ensures run.batches[k][a].resources * run.batches[k][b].resources == {}
  {
    BatchIsGreedy(Elems(tasks), {}, run.batches, k);
    assert !Conflict(run.batches[k][a], run.batches[k][b]);
  }

  lemma DisjointSubsets<T>(a: set<T>, p: set<T>, b: set<T>, q: set<T>)
    requires a <= p && b <= q && p * q == {}
    ensures a !! b
  {
    forall x | x in a ensures x !in b {
      assert (x in p * q) == false;
    }
  }

  lemma TaskInBatch(run: DistributedRun, k: nat, i: nat)
    requires k < |run.batches| && i < |run.batches[k]|
    ensures Position(run, k, i) < |Flatten(run.batches[..k + 1])| <= |Flatten(run.batches)|
    ensures Flatten(run.batches)[Position(run, k, i)] == run.batches[k][i]
  {
    BatchPosition(run.batches, k);
    var start, batch := |Flatten(run.batches[..k])|, run.batches[k];
    assert Flatten(run.batches)[start..start + |batch|][i] == batch[i];
  }

  lemma StartedIsPrefix(
    roles: set<AgentRole>, exec: Executor, tasks: seq<AgentTask>, run: DistributedRun, started: seq<AgentTask>)
    requires RunSpec(roles, exec, tasks, Finished(run), started)
    ensures started <= Flatten(run.batches) && Answered(exec, started, run.results)
  {
    var n :| 0 < n <= |run.batches| && EndsAt(exec, run.batches, started, n);
    FlattenPrefix(run.batches, n);
  }

  lemma AnswerAt(exec: Executor, started: seq<AgentTask>, results: seq<AgentResult>, i: nat)
    requires Answered(exec, started, results) && i < |results|
    ensures results[i].taskId == started[i].id && results[i].changedResources <= started[i].resources
  {
    assert Validate(started[i], exec(started[i])) == Ok(results[i]);
  }

  lemma ResultInBatch(
    roles: set<AgentRole>, exec: Executor, tasks: seq<AgentTask>, run: DistributedRun, started: seq<AgentTask>,
    k: nat, i: nat)
    requires RunSpec(roles, exec, tasks, Finished(run), started)
    requires k < |run.batches| && i < |run.batches[k]|
    requires |Flatten(run.batches[..k + 1])| <= |run.results|
    ensures Position(run, k, i) < |run.results|
    ensures run.results[Position(run, k, i)].taskId == run.batches[k][i].id
    ensures run.results[Position(run, k, i)].changedResources <= run.batches[k][i].resources
  {
    StartedIsPrefix(roles, exec, tasks, run, started);
    TaskInBatch(run, k, i);
    AnswerAt(exec, started, run.results, Position(run, k, i));
  }

  /** Two tasks of one batch never report a change to the same resource. */
  lemma ChangesDisjoint(
    roles: set<AgentRole>, exec: Executor, tasks: seq<AgentTask>, run: DistributedRun, started: seq<AgentTask>,
    k: nat, a: nat, b: nat)
    requires RunSpec(roles, exec, tasks, Finished(run), started)
    requires k < |run.batches| && a < b < |run.batches[k]|
    requires |Flatten(run.batches[..k + 1])| <= |run.results|
    ensures Position(run, k, b) < |run.results|
    ensures run.results[Position(run, k, a)].changedResources !! run.results[Position(run, k, b)].changedResources
  {
    ResultInBatch(roles, exec, tasks, run, started, k, a);
    ResultInBatch(roles, exec, tasks, run, started, k, b);
    BatchConflictFree(roles, exec, tasks, run, started, k, a, b);
    var x, y := run.results[Position(run, k, a)], run.results[Position(run, k, b)];
    DisjointSubsets(x.changedResources, run.batches[k][a].resources, y.changedResources, run.batches[k][b].resources);
  }

  // ----- the coordinator -----

  /** The dictionary from ids to tasks; a later task replaces an earlier one. */
  function TaskNamed(tasks: seq<AgentTask>, id: string): (t: AgentTask)
    requires id in IdsOf(tasks)
    ensures t in tasks && t.id == id
  {
    var last := tasks[|tasks| - 1];
    if last.id == id then last
    else
      assert forall i | 0 <= i < |tasks| && tasks[i].id == id :: tasks[..|tasks| - 1][i] == tasks[i];
      TaskNamed(tasks[..|tasks| - 1], id)
  }

  function ExecutionOrder(tasks: seq<AgentTask>, batches: seq<seq<AgentTask>>): (r: seq<AgentTask>)
    requires IdsOf(Flatten(batches)) <= IdsOf(tasks)
    ensures |r| == |Flatten(batches)|
  {
    var f := Flatten(batches);
    seq(|f|, i requires 0 <= i < |f| => assert f[i].id in IdsOf(f); TaskNamed(tasks, f[i].id))
  }

  /** Python's `zip`: as long as the shorter list. */
  function Zip(tasks: seq<AgentTask>, results: seq<AgentResult>): (r: seq<RuntimeTaskResult>)
    ensures |r| == if |tasks| < |results| then |tasks| else |results|
    ensures forall i | 0 <= i < |r| :: r[i] == RuntimeTaskResult(tasks[i], results[i])
  {
    if tasks == [] || results == [] then []
    else [RuntimeTaskResult(tasks[0], results[0])] + Zip(tasks[1..], results[1..])
  }

  lemma ExecutionOrderIsPlan(tasks: seq<AgentTask>, batches: seq<seq<AgentTask>>)
    requires PlanSpec(tasks, Planned(batches))
    ensures IdsOf(Flatten(batches)) == IdsOf(tasks)
    ensures ExecutionOrder(tasks, batches) == Flatten(batches)
  {
    PlanIsTopological(tasks, batches);
    var f := Flatten(batches);
    IdsAgree(f);
    IdsAgree(tasks);
    IdentifiedElems(tasks);
    forall i | 0 <= i < |f| ensures f[i].id in IdsOf(tasks) && TaskNamed(tasks, f[i].id) == f[i] {
      assert f[i].id in IdsOf(f) && f[i] in Elems(f);
      assert TaskNamed(tasks, f[i].id) in Elems(tasks);
    }
  }

  /** What the coordinator's report says about a finished run. */
  ghost predicate ReportSpec(
    roles: set<AgentRole>, exec: Executor, tasks: seq<AgentTask>, report: RuntimeReport, started: seq<AgentTask>)
  {
    && TasksOf(report.completed) == started
    && (forall i | 0 <= i < |started| ::
          Validate(started[i], exec(started[i])) == Ok(report.completed[i].result)
          && report.completed[i].result.taskId == report.completed[i].task.id)
    && report.failedTaskId.None? && report.rounds == 1 && report.repairAttempts == 0
    && (report.integrationReady <==> report.Success())
    && (report.integrationReady <==>
          tasks != [] && Schedulable(tasks) && forall t | t in tasks :: t.role in roles && Succeeds(exec, t))
    && (report.integrationReady ==> |started| == |tasks| && Elems(started) == Elems(tasks))
  }

  lemma ZipPrefix(plan: seq<AgentTask>, started: seq<AgentTask>, results: seq<AgentResult>)
    requires started <= plan && |results| == |started|
    ensures |Zip(plan, results)| == |started| && TasksOf(Zip(plan, results)) == started
    ensures forall i | 0 <= i < |started| :: Zip(plan, results)[i] == RuntimeTaskResult(started[i], results[i])
  {
    assert forall i | 0 <= i < |started| :: plan[i] == started[i];
  }

  /** Zipping the plan with the results pairs every result with its own task, although a
      failed run has fewer results than the plan has tasks. */
  lemma PairedWithOwnTask(
    roles: set<AgentRole>, exec: Executor, tasks: seq<AgentTask>, run: DistributedRun, started: seq<AgentTask>,
    completed: seq<RuntimeTaskResult>)
    requires RunSpec(roles, exec, tasks, Finished(run), started)
    requires completed == Zip(Flatten(run.batches), run.results)
    ensures TasksOf(completed) == started
    ensures forall i | 0 <= i < |started| ::
              && Validate(started[i], exec(started[i])) == Ok(completed[i].result)
              && completed[i].result.taskId == completed[i].task.id
  {
    StartedIsPrefix(roles, exec, tasks, run, started);
    ZipPrefix(Flatten(run.batches), started, run.results);
    forall i | 0 <= i < |started| ensures completed[i].result.taskId == completed[i].task.id {
      AnswerAt(exec, started, run.results, i);
    }
  }

  method ReportOf(
    ghost roles: set<AgentRole>, ghost exec: Executor, tasks: seq<AgentTask>, run: DistributedRun,
    ghost started: seq<AgentTask>)
    returns (report: RuntimeReport)
    requires RunSpec(roles, exec, tasks, Finished(run), started)
    ensures ReportSpec(roles, exec, tasks, report, started)
  {
    ExecutionOrderIsPlan(tasks, run.batches);
    var completed := Zip(ExecutionOrder(tasks, run.batches), run.results);
    PairedWithOwnTask(roles, exec, tasks, run, started, completed);
    SuccessExactly(roles, exec, tasks, Finished(run), started);
    PlanIsTopological(tasks, run.batches);
    var ok := run.Success();
    report := RuntimeReport(completed, None, if ok then None else Some("distributed task failed"), 1, 0, ok);
  }

  method Coordinate(roles: set<AgentRole>, exec: Executor, tasks: seq<AgentTask>)
    returns (r: Result<RuntimeReport, Outcome>, started: seq<AgentTask>)
    ensures r.Ok? ==> ReportSpec(roles, exec, tasks, r.value, started)
    ensures r.Err? ==> !r.error.Finished? && RunSpec(roles, exec, tasks, r.error, started)
  {
    var outcome;
    outcome, started := Run(roles, exec, tasks);
    if !outcome.Finished? {
      return Err(outcome), started;
    }
    var report := ReportOf(roles, exec, tasks, outcome.run, started);
    return Ok(report), started;
  }
}
