/** The quality pipeline (core/quality_runtime.py): test loop, review loop and the
    Debugger - Refactorer - Retest repair, under the emergency stop latch. */
module QualityRuntime {
  import opened Text
  import opened MultiAgent
  import opened Reports
  import opened ImmediateStop

  datatype Moment = BeforeCheck | WhileExecuting | WhileVerifying

  /** Executors, safety gate, pattern table and operator, all arbitrary. Steps are
      numbered, so each answer may depend on everything that happened before. The
      operator may set the latch before a step looks at it, while the executor runs and
      while the gate verifies. */
  datatype Pipeline = Pipeline(
    roles: set<AgentRole>,
    reply: (nat, AgentTask) -> Reply,
    gate: Option<(nat, AgentTask, AgentResult) -> Verdict>,
    danger: Patterns,
    operator: (nat, Moment) -> bool)

  /** One `_execute`: whether the executor was called, and the recorded result. */
  datatype Step = Step(task: AgentTask, invoked: bool, result: AgentResult)

  ghost function LatchSet(c: ImmediateStopController?): bool
    reads c
  {
    c != null && Blocks(c.file)
  }

  ghost predicate Dangerous(p: Pipeline, r: AgentResult) {
    r.summary != "" && p.danger(r.summary).Some?
  }

  /** The gate verified `r`, unless there is no gate or the step is the manager's. */
  ghost predicate Verifies(p: Pipeline, k: nat, t: AgentTask, r: AgentResult) {
    p.gate.Some? && t.role != Manager ==> p.gate.value(k, t, r) == Verified
  }

  ghost predicate Refused(p: Pipeline, k: nat, t: AgentTask, r: AgentResult) {
    r.success && p.gate.Some? && t.role != Manager && p.gate.value(k, t, r) == Rejected
  }

  function Failure(t: AgentTask, text: string): AgentResult {
    AgentResult(t.id, false, text, {})
  }

  function Normalize(t: AgentTask, reply: Reply): AgentResult {
    match reply
    case Raises(text) => Failure(t, text)
    case NotAResult => Failure(t, "executor must return AgentResult")
    case Replies(r) => if r.taskId != t.id then Failure(t, "executor returned another task_id") else r
  }

  /** The executor's answer is a success of this task without dangerous text. */
  ghost predicate Harmless(p: Pipeline, controlled: bool, k: nat, t: AgentTask) {
    && p.reply(k, t).Replies?
    && p.reply(k, t).result.taskId == t.id && p.reply(k, t).result.success
    && !(controlled && Dangerous(p, p.reply(k, t).result))
  }

  /** The answer is harmless and the gate does not object. */
  ghost predicate Passes(p: Pipeline, controlled: bool, k: nat, t: AgentTask) {
    Harmless(p, controlled, k, t) && Verifies(p, k, t, p.reply(k, t).result)
  }

  /** The step gets as far as asking the gate. */
  ghost predicate Consulted(p: Pipeline, controlled: bool, k: nat, t: AgentTask) {
    Harmless(p, controlled, k, t) && p.gate.Some? && t.role != Manager
  }

  /** The request comes when this step has already looked at the latch. */
  ghost predicate OperatorTooLate(p: Pipeline, k: nat, t: AgentTask) {
    p.operator(k, WhileExecuting) || (Consulted(p, true, k, t) && p.operator(k, WhileVerifying))
  }

  /** An operator request falls into the step. */
  ghost predicate OperatorActs(p: Pipeline, k: nat, t: AgentTask, invoked: bool) {
    && t.role in p.roles
    && (p.operator(k, BeforeCheck) || (invoked && OperatorTooLate(p, k, t)))
  }

  /** The answer itself sets the latch: dangerous text, or a rejection by the gate. */
  ghost predicate Trips(p: Pipeline, k: nat, t: AgentTask) {
    Dangerous(p, Normalize(t, p.reply(k, t))) || Refused(p, k, t, Normalize(t, p.reply(k, t)))
  }

  /** Step `k` on task `t`; `before` and `after` tell whether the latch was set. The executor
      is called exactly when there is one and the latch is clear; the step succeeds exactly
      when the answer passes; and the latch is set afterwards exactly when it was before, the
      operator asked for it, or the answer tripped it. */
  ghost predicate StepSpec(p: Pipeline, controlled: bool, k: nat, t: AgentTask, before: bool, after: bool, s: Step) {
    && s.task == t && s.result.taskId == t.id
    && (s.invoked <==> t.role in p.roles && !before && !(controlled && p.operator(k, BeforeCheck)))
    && (s.result.success <==> s.invoked && Passes(p, controlled, k, t))
    && (s.result.success ==> p.reply(k, t) == Replies(s.result))
    && (after <==> before || (controlled && (OperatorActs(p, k, t, s.invoked) || (s.invoked && Trips(p, k, t)))))
  }

  method OperatorMoment(p: Pipeline, c: ImmediateStopController?, k: nat, m: Moment)
    modifies c
    ensures LatchSet(c) <==> old(LatchSet(c)) || (c != null && p.operator(k, m))
  {
    if c != null && p.operator(k, m) {
      c.RequestStop(ManualKill, "operator");
    }
  }

  /** Dangerous text replaces the result by a failure and sets the latch. */
  method Inspect(p: Pipeline, c: ImmediateStopController?, k: nat, result: AgentResult) returns (r: AgentResult)
    modifies c
    ensures r == if c != null && Dangerous(p, result)
                 then AgentResult(result.taskId, false, "IMMEDIATE STOP", {})
                 else result
    ensures LatchSet(c) <==> old(LatchSet(c)) || (c != null && Dangerous(p, result))
  {
    r := result;
    if c != null {
      var signal := c.InspectText(p.danger, result.summary);
      if signal.Some? {
        r := AgentResult(result.taskId, false, "IMMEDIATE STOP", {});
      }
    }
  }

  ghost predicate Asked(p: Pipeline, t: AgentTask, r: AgentResult) {
    r.success && p.gate.Some? && t.role != Manager
  }

  /** The safety gate has the last word on a success. */
  method Verify(p: Pipeline, c: ImmediateStopController?, k: nat, t: AgentTask, result: AgentResult)
    returns (r: AgentResult)
    requires result.taskId == t.id
    modifies c
    ensures r.taskId == t.id
    ensures r.success <==> result.success && Verifies(p, k, t, result)
    ensures r.success ==> r == result
    ensures LatchSet(c) <==>
              || old(LatchSet(c))
              || (c != null && Asked(p, t, result) && (p.operator(k, WhileVerifying) || Refused(p, k, t, result)))
  {
    r := result;
    if result.success && p.gate.Some? && t.role != Manager {
      OperatorMoment(p, c, k, WhileVerifying);
      match p.gate.value(k, t, result) {
        case Verified =>
        case GateRaises(text) =>
          r := Failure(t, "execution safety gate error: " + text);
        case Rejected =>
          if c != null {
            c.RequestStop(ResultMismatch, "Safety Gate rejected actual worktree state for " + t.id);
          }
          r := Failure(t, "execution safety gate rejected actual worktree state");
      }
    }
  }

  method Execute(p: Pipeline, c: ImmediateStopController?, k: nat, t: AgentTask) returns (s: Step)
    modifies c
    ensures StepSpec(p, c != null, k, t, old(LatchSet(c)), LatchSet(c), s)
  {
    if t.role !in p.roles {
      return Step(t, false, Failure(t, "missing executor for role: " + RoleName(t.role)));
    }
    OperatorMoment(p, c, k, BeforeCheck);
    var stopped := false;
    if c != null {
      stopped := c.IsStopped();
    }
    if stopped {
      var none := Inspect(p, c, k, Failure(t, "ImmediateStop: autonomous execution stopped"));
      return Step(t, false, none);
    }
    var result := Normalize(t, p.reply(k, t));
    OperatorMoment(p, c, k, WhileExecuting);
    result := Inspect(p, c, k, result);
    result := Verify(p, c, k, t, result);
    return Step(t, true, result);
  }

  // ----- the trace of a run -----

  /** Which step may come next: the order of the quality gates. */
  ghost predicate Follows(steps: seq<Step>, t: AgentTask) {
    var first := steps == [];
    var role := if first then Manager else steps[|steps| - 1].task.role;
    var ok := !first && steps[|steps| - 1].result.success;
    match t.role
    case Manager => first
    case Implementer => first || (role == Manager && ok)
    case Tester => ok && (role == Implementer || role == Refactorer)
    case Debugger => !first && !ok && (role == Tester || role == Reviewer)
    case Refactorer => ok && role == Debugger
    case Reviewer => ok && role == Tester
    case Integrator => ok && role == Reviewer
    case _ => false
  }

  ghost predicate TraceAt(p: Pipeline, controlled: bool, steps: seq<Step>, latch: seq<bool>, k: nat)
    requires k < |steps| && |latch| == |steps| + 1
  {
    && StepSpec(p, controlled, k, steps[k].task, latch[k], latch[k + 1], steps[k])
    && Follows(steps[..k], steps[k].task)
    && ValidTask(steps[k].task)
  }

  /** `steps` is a trace of the pipeline; `latch[k]` tells whether the latch was set when
      step `k` began, and the last element whether it is set now. */
  ghost predicate Trace(p: Pipeline, controlled: bool, steps: seq<Step>, latch: seq<bool>) {
    && |latch| == |steps| + 1
    && forall k | 0 <= k < |steps| :: TraceAt(p, controlled, steps, latch, k)
  }

  lemma TraceGrows(p: Pipeline, controlled: bool, steps: seq<Step>, latch: seq<bool>, s: Step, after: bool)
    requires Trace(p, controlled, steps, latch)
    requires StepSpec(p, controlled, |steps|, s.task, latch[|steps|], after, s)
    requires Follows(steps, s.task) && ValidTask(s.task)
    ensures Trace(p, controlled, steps + [s], latch + [after])
  {
    var more, flags := steps + [s], latch + [after];
    forall k | 0 <= k < |more| ensures TraceAt(p, controlled, more, flags, k) {
      if k < |steps| {
        assert TraceAt(p, controlled, steps, latch, k);
        assert more[..k] == steps[..k];
      } else {
        assert more[..k] == steps;
      }
    }
  }

  lemma TraceTask(p: Pipeline, controlled: bool, steps: seq<Step>, latch: seq<bool>, k: nat)
    requires Trace(p, controlled, steps, latch) && k < |steps|
    ensures ValidTask(steps[k].task)
  {
    assert TraceAt(p, controlled, steps, latch, k);
  }

  /** The repairs so far: those before the first review, those after it, and whether a
      review took place. */
  datatype Tally = Tally(tests: nat, reviews: nat, reviewed: bool)

  function Count(tally: Tally, role: AgentRole): Tally {
    match role
    case Debugger => if tally.reviewed then tally.(reviews := tally.reviews + 1) else tally.(tests := tally.tests + 1)
    case Reviewer => tally.(reviewed := true)
    case _ => tally
  }

  /** Every repair starts with one Debugger step. */
  function TallyOf(steps: seq<Step>): Tally {
    if steps == [] then Tally(0, 0, false)
    else Count(TallyOf(steps[..|steps| - 1]), steps[|steps| - 1].task.role)
  }

  lemma TallySnoc(steps: seq<Step>, s: Step)
    ensures TallyOf(steps + [s]) == Count(TallyOf(steps), s.task.role)
  {
    assert (steps + [s])[..|steps|] == steps;
  }

  // ----- which task a step runs -----

  /** The dictionary from roles to tasks: the last task of a role wins. */
  function Template(tasks: seq<AgentTask>, role: AgentRole): (r: Option<AgentTask>)
    ensures r.Some? ==> r.value in tasks && r.value.role == role
  {
    if tasks == [] then None
    else if tasks[|tasks| - 1].role == role then Some(tasks[|tasks| - 1])
    else Template(tasks[..|tasks| - 1], role)
  }

  function DebugId(failed: Step, attempt: nat): string {
    "debug:" + Decimal(attempt) + ":" + failed.task.id
  }

  function DebugTask(failed: Step, attempt: nat): (t: AgentTask)
    ensures t.role == Debugger
  {
    AgentTask(DebugId(failed, attempt), Debugger,
              "Analyze and fix the failure from " + failed.task.id + ": " + Tail(failed.result.summary, 2000),
              failed.task.resources, [], 0)
  }

  function RefactorId(failed: Step, attempt: nat): string {
    "refactor:" + Decimal(attempt) + ":" + failed.task.id
  }

  function RefactorTask(failed: Step, attempt: nat): (t: AgentTask)
    ensures t.role == Refactorer
  {
    AgentTask(RefactorId(failed, attempt), Refactorer,
              "Refactor the validated fix from " + DebugId(failed, attempt) + " without changing required behavior.",
              failed.task.resources, [DebugId(failed, attempt)], 0)
  }

  function RetestTask(failed: Step, attempt: nat): (t: AgentTask)
    ensures t.role == Tester
    ensures attempt < 10 ==> |t.id| == |failed.task.id| + 14
  {
    AgentTask("test:" + Decimal(attempt) + ":retest:" + failed.task.id, Tester,
              "Mandatory retest after " + RefactorId(failed, attempt) + ".", failed.task.resources, [], 0)
  }

  /** The review after a passed retest. */
  function RereviewTask(retest: Step, attempt: nat): (t: AgentTask)
    ensures t.role == Reviewer
  {
    AgentTask("review:" + Decimal(attempt) + ":rereview", Reviewer, "Re-review after " + retest.task.id + ".",
              retest.task.resources, [], 0)
  }

  /** The attempt that the last repair was. */
  function Attempt(tally: Tally): nat {
    if tally.reviewed then tally.reviews else tally.tests
  }

  /** The task of the next step, if there is one: the given task of the next role, or the
      repair task that the steps so far lead to. */
  function Next(tasks: seq<AgentTask>, steps: seq<Step>): Option<AgentTask> {
    var n, tally := |steps|, TallyOf(steps);
    if n == 0 then
      if Template(tasks, Manager).Some? then Template(tasks, Manager) else Template(tasks, Implementer)
    else
      var last := steps[n - 1];
      if !last.result.success then
        if last.task.role in {Tester, Reviewer} then Some(DebugTask(last, Attempt(tally) + 1)) else None
      else
        match last.task.role
        case Manager => Template(tasks, Implementer)
        case Implementer => Template(tasks, Tester)
        case Debugger => if n < 2 then None else Some(RefactorTask(steps[n - 2], Attempt(tally)))
        case Refactorer => if n < 3 then None else Some(RetestTask(steps[n - 3], Attempt(tally)))
        case Tester => if tally.reviewed then Some(RereviewTask(last, tally.reviews)) else Template(tasks, Reviewer)
        case Reviewer => Template(tasks, Integrator)
        case _ => None
  }

  /** What the next step runs, given the steps so far. */
  type Rule = seq<Step> -> Option<AgentTask>

  function NextOf(tasks: seq<AgentTask>): Rule {
    steps => Next(tasks, steps)
  }

  ghost predicate NextAt(rule: Rule, steps: seq<Step>, k: nat)
    requires k < |steps|
  {
    rule(steps[..k]) == Some(steps[k].task)
  }

  /** Every step runs the task that the rule and the steps before it determine. */
  ghost predicate Determined(rule: Rule, steps: seq<Step>) {
    forall k | 0 <= k < |steps| :: NextAt(rule, steps, k)
  }

  lemma {:induction false} DeterminedGrows(rule: Rule, steps: seq<Step>, s: Step)
    requires Determined(rule, steps) && rule(steps) == Some(s.task)
    ensures Determined(rule, steps + [s])
  {
    var more := steps + [s];
    forall k | 0 <= k < |more| ensures NextAt(rule, more, k) {
      if k < |steps| {
        assert NextAt(rule, steps, k) && more[..k] == steps[..k];
      } else {
        assert more[..k] == steps;
      }
    }
  }

  // ----- the run -----

  function Results(steps: seq<Step>): (r: seq<RuntimeTaskResult>)
    ensures |r| == |steps|
    ensures forall i | 0 <= i < |r| :: r[i] == RuntimeTaskResult(steps[i].task, steps[i].result)
  {
    seq(|steps|, i requires 0 <= i < |steps| => RuntimeTaskResult(steps[i].task, steps[i].result))
  }

  function Max(a: nat, b: nat): nat {
    if a < b then b else a
  }

  /** The pipeline has both roles that a repair needs. */
  predicate CanRepair(p: Pipeline) {
    Debugger in p.roles && Refactorer in p.roles
  }

  /** The run ended at a failed test or review, so it was not repaired. */
  predicate GateFailed(steps: seq<Step>) {
    steps != [] && steps[|steps| - 1].task.role in {Tester, Reviewer}
  }

  /** The two attempt counters, read off the trace: one attempt for each repair, and one for
      a failed gate that could not be repaired because a repair role is missing. */
  function Attempts(p: Pipeline, steps: seq<Step>, maxRounds: nat): (nat, nat) {
    var tally := TallyOf(steps);
    if CanRepair(p) || maxRounds <= 1 || !GateFailed(steps) then (tally.tests, tally.reviews)
    else if steps[|steps| - 1].task.role == Tester then (tally.tests + 1, tally.reviews)
    else (tally.tests, tally.reviews + 1)
  }

  /** The two repair budgets behind the numbers of a report. */
  ghost predicate Budgets(report: RuntimeReport, tests: nat, reviews: nat, maxRounds: nat) {
    && tests <= maxRounds - 1 && reviews <= maxRounds - 1
    && report.rounds == 1 + Max(tests, reviews)
    && report.repairAttempts == tests + reviews
  }

  /** A report that is not ready blames the last step, which failed. */
  ghost predicate BlamesLast(steps: seq<Step>, report: RuntimeReport) {
    && steps != []
    && report.failedTaskId == Some(steps[|steps| - 1].task.id)
    && !steps[|steps| - 1].result.success
  }

  ghost predicate Succeeded(steps: seq<Step>, i: int, role: AgentRole) {
    0 <= i < |steps| && steps[i].task.role == role && steps[i].result.success
  }

  /** What every report holds, once the required roles are there. */
  ghost predicate QualityReport(p: Pipeline, steps: seq<Step>, report: RuntimeReport, maxRounds: nat) {
    && report.completed == Results(steps)
    && (report.Success() <==> report.integrationReady)
    && (report.integrationReady ==> Succeeded(steps, |steps| - 1, Integrator))
    && (!report.integrationReady ==> BlamesLast(steps, report))
    && |steps| <= 5 + 7 * (maxRounds - 1)
    && (var (tests, reviews) := Attempts(p, steps, maxRounds); Budgets(report, tests, reviews, maxRounds))
    && (CanRepair(p) && GateFailed(steps) ==> report.rounds == maxRounds)
    && (CanRepair(p) && !report.integrationReady ==> report.error == Some(steps[|steps| - 1].result.summary))
  }

  /** `TaskRefused` is the `ValueError` that a derived id which is too long lets escape. */
  datatype RepairEnd = NoRepairers | TaskRefused | Last(step: Step)

  /** `Escaped` is the `ValueError` of a derived task that the constructor refuses. */
  datatype Phase = Go | Return(report: RuntimeReport) | Escaped

  /** The tasks of a repair, in order. */
  function RepairPlan(failed: Step, attempt: nat): (r: seq<AgentTask>)
    ensures |r| == 3
  {
    [DebugTask(failed, attempt), RefactorTask(failed, attempt), RetestTask(failed, attempt)]
  }

  /** `after` continues `before` with steps for the first tasks of `plan`. */
  ghost predicate Trail(before: seq<Step>, after: seq<Step>, plan: seq<AgentTask>) {
    && before <= after && |after| <= |before| + |plan|
    && forall k | 0 <= k < |after| - |before| :: after[|before| + k].task == plan[k]
  }

  /** A step for `t` leads to `next` when it succeeds, and ends the run when it fails. */
  ghost predicate Leads(rule: Rule, steps: seq<Step>, t: AgentTask, next: AgentTask) {
    forall s: Step {:trigger rule(steps + [s])} | s.task == t ::
      rule(steps + [s]) == if s.result.success then Some(next) else None
  }

  ghost predicate LeadsOn(rule: Rule, steps: seq<Step>, t: AgentTask, next: AgentTask, third: AgentTask) {
    && Leads(rule, steps, t, next)
    && forall s: Step {:trigger Leads(rule, steps + [s], next, third)} | s.task == t && s.result.success ::
         Leads(rule, steps + [s], next, third)
  }

  lemma {:induction false} AfterDebug(tasks: seq<AgentTask>, steps: seq<Step>, attempt: nat, s: Step)
    requires steps != [] && attempt == Attempt(TallyOf(steps)) + 1 && s.task.role == Debugger
    ensures Next(tasks, steps + [s]) ==
            if s.result.success then Some(RefactorTask(steps[|steps| - 1], attempt)) else None
    ensures Attempt(TallyOf(steps + [s])) == attempt
  {
    TallySnoc(steps, s);
    assert (steps + [s])[|steps| - 1] == steps[|steps| - 1];
  }

  lemma {:induction false} AfterRefactor(tasks: seq<AgentTask>, steps: seq<Step>, attempt: nat, s: Step)
    requires |steps| >= 2 && attempt == Attempt(TallyOf(steps)) && s.task.role == Refactorer
    ensures Next(tasks, steps + [s]) ==
            if s.result.success then Some(RetestTask(steps[|steps| - 2], attempt)) else None
  {
    TallySnoc(steps, s);
    assert (steps + [s])[|steps| - 2] == steps[|steps| - 2];
  }

  lemma {:induction false} RepairLeads(tasks: seq<AgentTask>, steps: seq<Step>, failed: Step, attempt: nat)
    requires steps != [] && failed == steps[|steps| - 1]
    requires !failed.result.success && failed.task.role in {Tester, Reviewer}
    requires attempt == Attempt(TallyOf(steps)) + 1
    ensures Next(tasks, steps) == Some(DebugTask(failed, attempt))
    ensures LeadsOn(NextOf(tasks), steps, DebugTask(failed, attempt), RefactorTask(failed, attempt),
                    RetestTask(failed, attempt))
  {
    var rule := NextOf(tasks);
    var debug, refactor, retest := DebugTask(failed, attempt), RefactorTask(failed, attempt),
        RetestTask(failed, attempt);
    forall s: Step | s.task == debug
      ensures rule(steps + [s]) == if s.result.success then Some(refactor) else None
      ensures s.result.success ==> Leads(rule, steps + [s], refactor, retest)
    {
      AfterDebug(tasks, steps, attempt, s);
      forall u: Step | u.task == refactor
        ensures rule((steps + [s]) + [u]) == if u.result.success then Some(retest) else None
      {
        AfterRefactor(tasks, steps + [s], attempt, u);
      }
    }
  }

  lemma {:induction false} StepDetermined(rule: Rule, before: seq<Step>, after: seq<Step>)
    requires Determined(rule, after) && before < after
    ensures rule(before) == Some(after[|before|].task)
    ensures before + [after[|before|]] <= after
  {
    assert NextAt(rule, after, |before|) && after[..|before|] == before;
  }

  /** What is determined after a failed gate is its repair. */
  lemma {:induction false} RepairTrail(
    rule: Rule, before: seq<Step>, after: seq<Step>, debug: AgentTask, refactor: AgentTask, retest: AgentTask)
    requires Determined(rule, after) && before <= after && |after| <= |before| + 3
    requires rule(before) == Some(debug) && LeadsOn(rule, before, debug, refactor, retest)
    ensures Trail(before, after, [debug, refactor, retest])
  {
    var n := |before|;
    if n < |after| {
      StepDetermined(rule, before, after);
    }
    if n + 1 < |after| {
      var one := before + [after[n]];
      StepDetermined(rule, one, after);
      if n + 2 < |after| {
        assert Leads(rule, one, refactor, retest);
        StepDetermined(rule, one + [after[n + 1]], after);
      }
    }
  }

  lemma PrefixedId(prefix: string, attempt: nat, infix: string, id: string)
    requires |prefix| >= 1 && !IsSpace(prefix[0]) && attempt < 10
    requires |prefix| + 1 + |infix| + |id| <= MAX_NAME
    ensures ShortName(prefix + Decimal(attempt) + infix + id)
  {
    NotBlankAt(prefix + Decimal(attempt) + infix + id, 0);
  }

  lemma DebugFits(failed: Step, attempt: nat)
    requires ValidTask(failed.task) && |failed.task.id| <= 186 && attempt < 10
    ensures ValidTask(DebugTask(failed, attempt)) && ShortName(DebugId(failed, attempt))
  {
    var t := DebugTask(failed, attempt);
    PrefixedId("debug:", attempt, ":", failed.task.id);
    NotBlankAt(t.instruction, 0);
    Constructed(t.id, t.role, t.instruction, t.resources, []);
  }

  lemma RefactorFits(failed: Step, attempt: nat)
    requires ValidTask(failed.task) && |failed.task.id| <= 186 && attempt < 10
    ensures ValidTask(RefactorTask(failed, attempt))
  {
    var t := RefactorTask(failed, attempt);
    PrefixedId("refactor:", attempt, ":", failed.task.id);
    DebugFits(failed, attempt);
    NotBlankAt(t.instruction, 0);
    assert t.id[0] == 'r' && DebugId(failed, attempt)[0] == 'd';
    Constructed(t.id, t.role, t.instruction, t.resources, [DebugId(failed, attempt)]);
  }

  lemma MandatoryRetestFits(failed: Step, attempt: nat)
    requires ValidTask(failed.task) && |failed.task.id| <= 186 && attempt < 10
    ensures ValidTask(RetestTask(failed, attempt))
  {
    var t := RetestTask(failed, attempt);
    PrefixedId("test:", attempt, ":retest:", failed.task.id);
    NotBlankAt(t.instruction, 0);
    Constructed(t.id, t.role, t.instruction, t.resources, []);
  }

  method RepairTasks(failed: Step, attempt: nat) returns (debug: AgentTask, refactor: AgentTask, retest: AgentTask)
    requires ValidTask(failed.task) && attempt < 10
    ensures [debug, refactor, retest] == RepairPlan(failed, attempt)
    ensures debug.role == Debugger && refactor.role == Refactorer && retest.role == Tester
    ensures refactor.dependsOn == [debug.id]
    ensures |retest.id| == |failed.task.id| + 14
    ensures |failed.task.id| <= 186 ==> ValidTask(debug) && ValidTask(refactor) && ValidTask(retest)
  {
    debug, refactor, retest := DebugTask(failed, attempt), RefactorTask(failed, attempt), RetestTask(failed, attempt);
    if |failed.task.id| <= 186 {
      DebugFits(failed, attempt);
      RefactorFits(failed, attempt);
      MandatoryRetestFits(failed, attempt);
    }
  }

  /** A repair ends with a test, or with a Debugger or Refactorer step that failed. */
  predicate RepairEnds(last: Step) {
    last.task.role == Tester || (last.task.role in {Debugger, Refactorer} && !last.result.success)
  }

  /** The test that a repair ends with is the mandatory retest. */
  lemma {:induction false} TrailEnds(before: seq<Step>, after: seq<Step>, failed: Step, attempt: nat)
    requires Trail(before, after, RepairPlan(failed, attempt)) && before < after
    requires after[|after| - 1].task.role == Tester
    ensures after[|after| - 1].task == RetestTask(failed, attempt)
  {
    var k := |after| - |before| - 1;
    assert after[|before| + k].task == RepairPlan(failed, attempt)[k];
  }

  /** A repair counts as one attempt. */
  lemma {:induction false} TrailTally(
    before: seq<Step>, after: seq<Step>, debug: AgentTask, refactor: AgentTask, retest: AgentTask)
    requires Trail(before, after, [debug, refactor, retest]) && before < after
    requires debug.role == Debugger && refactor.role == Refactorer && retest.role == Tester
    ensures TallyOf(after) == Count(TallyOf(before), Debugger)
  {
    var n, plan := |before|, [debug, refactor, retest];
    var one := before + [after[n]];
    assert after[n].task == plan[0];
    TallySnoc(before, after[n]);
    if |after| == n + 1 {
      assert after == one;
    } else {
      var two := one + [after[n + 1]];
      assert after[n + 1].task == plan[1];
      TallySnoc(one, after[n + 1]);
      if |after| == n + 2 {
        assert after == two;
      } else {
        assert after[n + 2].task == plan[2];
        TallySnoc(two, after[n + 2]);
        assert after == two + [after[n + 2]];
      }
    }
  }

  /** One run: the mutable list of completed steps, shared by all phases. */
  class Run {
    const p: Pipeline
    const c: ImmediateStopController?
    const maxRounds: nat
    const tasks: seq<AgentTask>
    ghost const next: Rule
    var steps: seq<Step>
    ghost var latch: seq<bool>
    ghost const stoppedAtStart: bool

    constructor (p: Pipeline, c: ImmediateStopController?, maxRounds: nat, tasks: seq<AgentTask>)
      ensures this.p == p && this.c == c && this.maxRounds == maxRounds && this.tasks == tasks
      ensures Valid() && Ruled() && steps == [] && stoppedAtStart == LatchSet(c)
    {
      this.p, this.c, this.maxRounds, this.tasks := p, c, maxRounds, tasks;
      this.next := NextOf(tasks);
      this.stoppedAtStart := LatchSet(c);
      this.steps, this.latch := [], [LatchSet(c)];
    }

    /** What a step runs is determined by the given tasks. */
    ghost predicate Ruled() {
      next == NextOf(tasks)
    }

    ghost predicate Valid()
      reads this, c
    {
      && Trace(p, c != null, steps, latch) && Determined(next, steps)
      && latch[0] == stoppedAtStart && latch[|steps|] == LatchSet(c)
    }

    /** `completed.append(self._execute(task))`. */
    method Do(t: AgentTask) returns (s: Step)
      requires Valid() && next(steps) == Some(t) && Follows(steps, t) && ValidTask(t)
      modifies this, c
      ensures Valid() && steps == old(steps) + [s] && s.task == t
      ensures latch == old(latch) + [LatchSet(c)]
      ensures TallyOf(steps) == Count(TallyOf(old(steps)), t.role)
    {
      s := Execute(p, c, |steps|, t);
      TraceGrows(p, c != null, steps, latch, s, LatchSet(c));
      TallySnoc(steps, s);
      DeterminedGrows(next, steps, s);
      steps, latch := steps + [s], latch + [LatchSet(c)];
    }

    /** Build a task and run it; `None` when the constructor refuses the task. */
    method Build(t: AgentTask) returns (s: Option<Step>)
      requires Valid() && next(steps) == Some(t) && Follows(steps, t)
      modifies this, c
      ensures Valid()
      ensures s.None? <==> !ValidTask(t)
      ensures s.None? ==> steps == old(steps)
      ensures s.Some? ==> steps == old(steps) + [s.value] && s.value.task == t && s.value == steps[|steps| - 1]
    {
      if NewTask(t).None? {
        return None;
      }
      var step := Do(t);
      return Some(step);
    }

    /** What follows the Debugger step, if it was successful. */
    method RefactorAndRetest(debugged: Step, refactor: AgentTask, retest: AgentTask) returns (refused: bool)
      requires Valid() && steps != [] && debugged == steps[|steps| - 1] && debugged.task.role == Debugger
      requires debugged.result.success ==> next(steps) == Some(refactor) && Leads(next, steps, refactor, retest)
      requires refactor.role == Refactorer && retest.role == Tester
      modifies this, c
      ensures Valid() && old(steps) <= steps && |steps| <= |old(steps)| + 2
      ensures !refused ==> RepairEnds(steps[|steps| - 1])
      ensures ValidTask(refactor) && ValidTask(retest) ==> !refused
    {
      if !debugged.result.success {
        return false;
      }
      var refactored := Build(refactor);
      if refactored.None? {
        refused := true;
      } else if !refactored.value.result.success {
        refused := false;
      } else {
        var retested := Build(retest);
        refused := retested.None?;
      }
    }

    /** The Debugger step and what follows it. `refused` tells that the constructor refused a
        derived task. */
    method DebugFirst(debug: AgentTask, refactor: AgentTask, retest: AgentTask) returns (refused: bool)
      requires Valid() && next(steps) == Some(debug) && LeadsOn(next, steps, debug, refactor, retest)
      requires Follows(steps, debug)
      requires debug.role == Debugger && refactor.role == Refactorer && retest.role == Tester
      modifies this, c
      ensures Valid() && old(steps) <= steps && |steps| <= |old(steps)| + 3
      ensures !refused ==> |steps| > |old(steps)| && RepairEnds(steps[|steps| - 1])
      ensures ValidTask(debug) && ValidTask(refactor) && ValidTask(retest) ==> !refused
    {
      var debugged := Build(debug);
      if debugged.None? {
        return true;
      }
      refused := RefactorAndRetest(debugged.value, refactor, retest);
    }

    /** Debugger, Refactorer, mandatory retest; stops at the first failure. */
    method RepairFailed(failed: Step, attempt: nat) returns (refused: bool)
      requires Valid() && Ruled() && steps != [] && failed == steps[|steps| - 1] && ValidTask(failed.task)
      requires !failed.result.success && failed.task.role in {Tester, Reviewer}
      requires attempt == Attempt(TallyOf(steps)) + 1 < 10
      modifies this, c
      ensures Valid() && Trail(old(steps), steps, RepairPlan(failed, attempt))
      ensures !refused ==> |steps| > |old(steps)| && RepairEnds(steps[|steps| - 1])
      ensures !refused ==> TallyOf(steps) == Count(TallyOf(old(steps)), Debugger)
      ensures |failed.task.id| <= 186 ==> !refused
    {
      var debug, refactor, retest := RepairTasks(failed, attempt);
      RepairLeads(tasks, steps, failed, attempt);
      refused := DebugFirst(debug, refactor, retest);
      RepairTrail(next, old(steps), steps, debug, refactor, retest);
      if !refused {
        TrailTally(old(steps), steps, debug, refactor, retest);
      }
    }

    /** Repair after a failed gate, when both repair roles have executors. */
    method QualityRepair(failed: Step, attempt: nat) returns (r: RepairEnd)
      requires Valid() && Ruled() && steps != [] && failed == steps[|steps| - 1]
      requires !failed.result.success && failed.task.role in {Tester, Reviewer}
      requires attempt == Attempt(TallyOf(steps)) + 1 < 10
      modifies this, c
      ensures Valid() && old(steps) <= steps && |steps| <= |old(steps)| + 3
      ensures r.NoRepairers? <==> !CanRepair(p)
      ensures r.NoRepairers? ==> steps == old(steps)
      ensures r.Last? ==> |steps| > |old(steps)| && r.step == steps[|steps| - 1]
      ensures r.Last? ==> TallyOf(steps) == Count(TallyOf(old(steps)), Debugger)
      ensures r.Last? ==> RepairEnds(r.step)
      ensures r.Last? && r.step.task.role == Tester ==> r.step.task == RetestTask(failed, attempt)
      ensures |failed.task.id| <= 186 ==> !r.TaskRefused?
    {
      if Debugger !in p.roles || Refactorer !in p.roles {
        r := NoRepairers;
      } else {
        TraceTask(p, c != null, steps, latch, |steps| - 1);
        assert ValidTask(failed.task);
        var refused := RepairFailed(failed, attempt);
        r := if refused then TaskRefused else Last(steps[|steps| - 1]);
        if r.Last? && r.step.task.role == Tester {
          TrailEnds(old(steps), steps, failed, attempt);
        }
      }
    }

    /** The report of a failure at the last step. */
    function Blame(error: string, tests: nat, reviews: nat): RuntimeReport
      requires steps != []
      reads this
    {
      RuntimeReport(Results(steps), Some(steps[|steps| - 1].task.id), Some(error), 1 + Max(tests, reviews),
          tests + reviews, false)
    }

    /** Everything that holds when a phase starts or ends; `extra` counts the steps outside repairs. */
    ghost predicate Inv(tests: nat, reviews: nat, reviewed: bool, extra: nat)
      reads this, c
    {
      && Valid() && steps != []
      && 1 <= maxRounds <= 3 && tests <= maxRounds - 1 && reviews <= maxRounds - 1
      && |steps| <= extra + 3 * tests + 4 * reviews
      && TallyOf(steps) == Tally(tests, reviews, reviewed)
    }

    ghost predicate Ended(r: Phase)
      reads this, c
    {
      && Valid() && r.Return? && !r.report.integrationReady
      && QualityReport(p, steps, r.report, maxRounds)
    }

    /** A failing report may be given now: the counters are those of the trace. */
    ghost predicate Due(error: string, tests: nat, reviews: nat)
      reads this, c
    {
      && Valid() && steps != [] && !steps[|steps| - 1].result.success
      && 1 <= maxRounds <= 3 && tests <= maxRounds - 1 && reviews <= maxRounds - 1
      && |steps| <= 5 + 3 * tests + 4 * reviews
      && Attempts(p, steps, maxRounds) == (tests, reviews)
      && (CanRepair(p) ==> error == steps[|steps| - 1].result.summary)
      && (CanRepair(p) && GateFailed(steps) ==> Max(tests, reviews) == maxRounds - 1)
    }

    /** The failing exits: each one blames the last step. */
    lemma Blamed(error: string, tests: nat, reviews: nat)
      requires Due(error, tests, reviews)
      ensures Ended(Return(Blame(error, tests, reviews)))
    {
      assert Budgets(Blame(error, tests, reviews), tests, reviews, maxRounds);
    }

    /** A step of the opening that has to succeed. */
    method Require(t: AgentTask) returns (r: Phase)
      requires Valid() && next(steps) == Some(t) && Follows(steps, t) && ValidTask(t)
      requires t.role in {Manager, Implementer}
      requires |steps| <= 1 && TallyOf(steps) == Tally(0, 0, false) && 1 <= maxRounds <= 3
      modifies this, c
      ensures Valid() && |steps| == |old(steps)| + 1 && TallyOf(steps) == Tally(0, 0, false) && !r.Escaped?
      ensures r.Go? ==> Succeeded(steps, |steps| - 1, t.role)
      ensures r.Return? ==> Ended(r)
    {
      var s := Do(t);
      if s.result.success {
        return Go;
      }
      Blamed(s.result.summary, 0, 0);
      return Return(Blame(s.result.summary, 0, 0));
    }

    /** Manager (when there is one), Implementer and the first test. */
    method Start(manager: Option<AgentTask>, implementer: AgentTask, tester: AgentTask) returns (r: Phase)
      requires Valid() && Ruled() && steps == [] && 1 <= maxRounds <= 3
      requires manager == Template(tasks, Manager) && Template(tasks, Implementer) == Some(implementer)
      requires Template(tasks, Tester) == Some(tester)
      requires ValidTask(implementer) && ValidTask(tester) && (manager.Some? ==> ValidTask(manager.value))
      modifies this, c
      ensures Valid()
      ensures r.Go? ==> Inv(0, 0, false, 3) && steps[|steps| - 1].task == tester
      ensures Valid() && !r.Escaped?
      ensures r.Return? ==> Ended(r)
    {
      r := Go;
      if manager.Some? {
        r := Require(manager.value);
      }
      if r.Go? {
        r := Require(implementer);
      }
      if r.Go? {
        var tested := Do(tester);
      }
    }

    /** `Inv` with one attempt charged but its repair not yet made. */
    ghost predicate Charged(tests: nat, reviews: nat, reviewed: bool, extra: nat)
      reads this
    {
      && 1 <= maxRounds <= 3 && tests <= maxRounds - 1 && reviews <= maxRounds - 1
      && |steps| + 3 <= extra + 3 * tests + 4 * reviews
      && Count(TallyOf(steps), Debugger) == Tally(tests, reviews, reviewed)
    }

    /** One failed gate, after an attempt was charged to its budget: run the repair.
        `Go` means that a retest was made. */
    method Repair(failed: Step, attempt: nat, tests: nat, reviews: nat, ghost reviewed: bool, ghost extra: nat)
      returns (r: Phase, last: Step)
      requires Valid() && Ruled() && steps != [] && failed == steps[|steps| - 1]
      requires !failed.result.success && failed.task.role in {Tester, Reviewer}
      requires Charged(tests, reviews, reviewed, extra) && extra <= 4
      requires attempt == if reviewed then reviews else tests
      requires !CanRepair(p) ==> (reviewed <==> failed.task.role == Reviewer)
      modifies this, c
      ensures Valid()
      ensures r.Go? ==> Inv(tests, reviews, reviewed, extra) && last == steps[|steps| - 1] && last.task.role == Tester
      ensures r.Go? ==> CanRepair(p)
      ensures r.Go? ==> |last.task.id| <= |failed.task.id| + 14 && last.task.resources == failed.task.resources
      ensures r.Return? ==> Ended(r)
      ensures |failed.task.id| <= 186 ==> !r.Escaped?
    {
      last := failed;
      var end := QualityRepair(failed, attempt);
      match end {
        case NoRepairers =>
          Blamed("Debugger and Refactorer are required", tests, reviews);
          r := Return(Blame("Debugger and Refactorer are required", tests, reviews));
        case TaskRefused => r := Escaped;
        case Last(step) =>
          if step.task.role == Debugger || step.task.role == Refactorer {
            Blamed(step.result.summary, tests, reviews);
            r := Return(Blame(step.result.summary, tests, reviews));
          } else {
            last := step;
            r := Go;
          }
      }
    }

    /** Repeat test and repair until a test passes. */
    method TestLoop(tester: AgentTask) returns (r: Phase, tests: nat)
      requires Ruled() && Inv(0, 0, false, 3) && steps[|steps| - 1].task == tester && tester.role == Tester
      modifies this, c
      ensures Valid()
      ensures r.Go? ==> Inv(tests, 0, false, 3) && Succeeded(steps, |steps| - 1, Tester)
      ensures r.Return? ==> Ended(r)
      ensures |tester.id| <= 172 ==> !r.Escaped?
    {
      tests := 0;
      var last := steps[|steps| - 1];
      while !last.result.success
        invariant Inv(tests, 0, false, 3) && last == steps[|steps| - 1] && last.task.role == Tester
        invariant tests > 0 ==> CanRepair(p)
        invariant |last.task.id| <= |tester.id| + 14 * tests
        decreases maxRounds - tests
      {
        if tests >= maxRounds - 1 {
          Blamed(last.result.summary, tests, 0);
          return Return(Blame(last.result.summary, tests, 0)), tests;
        }
        tests := tests + 1;
        r, last := Repair(last, tests, tests, 0, false, 3);
        if !r.Go? {
          return r, tests;
        }
      }
      r := Go;
    }

    /** The re-review after a passed retest. */
    method Rereview(failed: Step, retest: Step, reviews: nat) returns (s: Step)
      requires Valid() && Ruled() && Succeeded(steps, |steps| - 1, Tester) && retest == steps[|steps| - 1]
      requires TallyOf(steps).reviewed && reviews == TallyOf(steps).reviews < 10
      requires ValidTask(failed.task) && retest.task.resources == failed.task.resources
      modifies this, c
      ensures Valid() && steps == old(steps) + [s] && s.task.role == Reviewer && |s.task.id| == 17
      ensures TallyOf(steps) == Count(TallyOf(old(steps)), Reviewer)
    {
      TraceTask(p, c != null, steps, latch, |steps| - 1);
      var id := "review:" + Decimal(reviews) + ":rereview";
      var text := "Re-review after " + retest.task.id + ".";
      PrefixedId("review:", reviews, ":rereview", "");
      NotBlankAt(text, 0);
      Constructed(id, Reviewer, text, failed.task.resources, []);
      assert id + "" == id;
      s := Do(AgentTask(id, Reviewer, text, failed.task.resources, [], 0));
    }

    /** Repeat review, repair, retest and re-review until a review passes. */
    method ReviewLoop(reviewer: AgentTask, tests: nat) returns (r: Phase, reviews: nat)
      requires Ruled() && Inv(tests, 0, false, 3) && Succeeded(steps, |steps| - 1, Tester)
      requires Template(tasks, Reviewer) == Some(reviewer) && ValidTask(reviewer)
      modifies this, c
      ensures Valid()
      ensures r.Go? ==> Inv(tests, reviews, true, 4) && Succeeded(steps, |steps| - 1, Reviewer)
      ensures r.Return? ==> Ended(r)
      ensures |reviewer.id| <= 172 ==> !r.Escaped?
    {
      reviews := 0;
      var last := Do(reviewer);
      while !last.result.success
        invariant Inv(tests, reviews, true, 4) && last == steps[|steps| - 1]
        invariant last.task.role == Reviewer || (last.task.role == Tester && !last.result.success && CanRepair(p))
        invariant reviews > 0 ==> CanRepair(p)
        invariant |reviewer.id| <= 172 ==> |last.task.id| <= 172 + 14 * reviews
        decreases maxRounds - reviews
      {
        if reviews >= maxRounds - 1 {
          Blamed(last.result.summary, tests, reviews);
          return Return(Blame(last.result.summary, tests, reviews)), reviews;
        }
        reviews := reviews + 1;
        TraceTask(p, c != null, steps, latch, |steps| - 1);
        var failed := last;
        r, last := Repair(last, reviews, tests, reviews, true, 3);
        if !r.Go? {
          return r, reviews;
        }
        if last.result.success {
          last := Rereview(failed, last, reviews);
        }
      }
      r := Go;
    }

    method Integrate(integrator: AgentTask, tests: nat, reviews: nat) returns (report: RuntimeReport)
      requires Ruled() && Inv(tests, reviews, true, 4) && Succeeded(steps, |steps| - 1, Reviewer)
      requires Template(tasks, Integrator) == Some(integrator) && ValidTask(integrator)
      modifies this, c
      ensures Valid() && QualityReport(p, steps, report, maxRounds)
    {
      var integrated := Do(integrator);
      if !integrated.result.success {
        Blamed(integrated.result.summary, tests, reviews);
        return Blame(integrated.result.summary, tests, reviews);
      }
      report := RuntimeReport(Results(steps), None, None, 1 + Max(tests, reviews), tests + reviews, true);
      assert Budgets(report, tests, reviews, maxRounds);
    }

    /** Both loops: tests until one passes, then reviews until one passes. */
    method Gates(tester: AgentTask, reviewer: AgentTask) returns (r: Phase, tests: nat, reviews: nat)
      requires Ruled() && Inv(0, 0, false, 3) && steps[|steps| - 1].task == tester && tester.role == Tester
      requires Template(tasks, Reviewer) == Some(reviewer) && ValidTask(reviewer)
      modifies this, c
      ensures Valid()
      ensures r.Go? ==> Inv(tests, reviews, true, 4) && Succeeded(steps, |steps| - 1, Reviewer)
      ensures r.Return? ==> Ended(r)
      ensures |tester.id| <= 172 && |reviewer.id| <= 172 ==> !r.Escaped?
    {
      reviews := 0;
      r, tests := TestLoop(tester);
      if r.Go? {
        r, reviews := ReviewLoop(reviewer, tests);
      }
    }

    method Phases(
      manager: Option<AgentTask>, implementer: AgentTask, tester: AgentTask, reviewer: AgentTask, integrator: AgentTask)
      returns (report: Option<RuntimeReport>)
      requires Valid() && Ruled() && steps == [] && 1 <= maxRounds <= 3
      requires manager == Template(tasks, Manager) && Template(tasks, Implementer) == Some(implementer)
      requires Template(tasks, Tester) == Some(tester) && Template(tasks, Reviewer) == Some(reviewer)
      requires Template(tasks, Integrator) == Some(integrator)
      requires ValidTask(implementer) && ValidTask(tester) && (manager.Some? ==> ValidTask(manager.value))
      requires ValidTask(reviewer) && ValidTask(integrator)
      modifies this, c
      ensures Valid()
      ensures report.Some? ==> QualityReport(p, steps, report.value, maxRounds)
      ensures |tester.id| <= 172 && |reviewer.id| <= 172 ==> report.Some?
    {
      var tests, reviews := 0, 0;
      var phase := Start(manager, implementer, tester);
      if phase.Go? {
        phase, tests, reviews := Gates(tester, reviewer);
      }
      match phase {
        case Return(failure) => report := Some(failure);
        case Escaped => report := None;
        case Go =>
          var last := Integrate(integrator, tests, reviews);
          report := Some(last);
      }
    }
  }

  predicate HasRequiredRoles(tasks: seq<AgentTask>) {
    && Template(tasks, Implementer).Some?
    && Template(tasks, Tester).Some?
    && Template(tasks, Reviewer).Some?
    && Template(tasks, Integrator).Some?
  }

  /** One quality run. The run object returned holds the trace of its steps; no report
      means that a derived id was too long and the `ValueError` escaped. */
  method RunQuality(p: Pipeline, c: ImmediateStopController?, maxRounds: nat, tasks: seq<AgentTask>)
    returns (report: Option<RuntimeReport>, run: Run)
    requires 1 <= maxRounds <= 3
    requires forall i | 0 <= i < |tasks| :: ValidTask(tasks[i])
    modifies c
    ensures fresh(run) && run.p == p && run.c == c
    ensures Trace(p, c != null, run.steps, run.latch) && Determined(NextOf(tasks), run.steps)
    ensures run.latch[0] == old(LatchSet(c)) && run.latch[|run.steps|] == LatchSet(c)
    ensures HasRequiredRoles(tasks) && report.Some? ==> QualityReport(p, run.steps, report.value, maxRounds)
    ensures !HasRequiredRoles(tasks) ==>
              run.steps == [] && report.Some? && !report.value.Success() && !report.value.integrationReady
    ensures (forall i | 0 <= i < |tasks| :: |tasks[i].id| <= 172) ==> report.Some?
  {
    run := new Run(p, c, maxRounds, tasks);
    if !HasRequiredRoles(tasks) {
      return Some(RuntimeReport([], None, Some("required development role missing"), 0, 0, false)), run;
    }
    report := run.Phases(Template(tasks, Manager), Template(tasks, Implementer).value, Template(tasks, Tester).value,
                         Template(tasks, Reviewer).value, Template(tasks, Integrator).value);
  }

  // ----- what a run guarantees -----

  lemma {:induction false} LatchMonotone(
    p: Pipeline, controlled: bool, steps: seq<Step>, latch: seq<bool>, i: nat, j: nat)
    requires Trace(p, controlled, steps, latch) && i <= j <= |steps| && latch[i]
    ensures latch[j]
    decreases j - i
  {
    if i < j {
      assert TraceAt(p, controlled, steps, latch, i);
      LatchMonotone(p, controlled, steps, latch, i + 1, j);
    }
  }

  /** Once the latch is set, no executor is called and no step succeeds. */
  lemma NothingRunsOnceStopped(
    p: Pipeline, controlled: bool, steps: seq<Step>, latch: seq<bool>, i: nat, k: nat)
    requires Trace(p, controlled, steps, latch) && i <= k < |steps| && latch[i]
    ensures !steps[k].invoked && !steps[k].result.success
  {
    LatchMonotone(p, controlled, steps, latch, i, k);
    assert TraceAt(p, controlled, steps, latch, k);
  }

  /** Step `k` met dangerous text or a gate rejection. */
  ghost predicate Trouble(p: Pipeline, steps: seq<Step>, k: nat)
    requires k < |steps|
  {
    && steps[k].invoked
    && p.reply(k, steps[k].task).Replies?
    && p.reply(k, steps[k].task).result.taskId == steps[k].task.id
    && (Dangerous(p, p.reply(k, steps[k].task).result)
        || Refused(p, k, steps[k].task, p.reply(k, steps[k].task).result))
  }

  /** An operator request that falls into a step stops the run: the latch is set when the
      step ends, and no later step calls an executor or succeeds. */
  lemma OperatorStops(p: Pipeline, steps: seq<Step>, latch: seq<bool>, k: nat, j: nat)
    requires Trace(p, true, steps, latch) && k < |steps|
    requires OperatorActs(p, k, steps[k].task, steps[k].invoked)
    ensures latch[k + 1]
    ensures k < j < |steps| ==> !steps[j].invoked && !steps[j].result.success
  {
    assert TraceAt(p, true, steps, latch, k);
    if k < j < |steps| {
      NothingRunsOnceStopped(p, true, steps, latch, k + 1, j);
    }
  }

  /** An integration comes right after a successful review, a review after a successful test. */
  lemma StepBefore(p: Pipeline, controlled: bool, steps: seq<Step>, latch: seq<bool>, k: nat)
    requires Trace(p, controlled, steps, latch) && k < |steps|
    ensures steps[k].task.role == Integrator ==> Succeeded(steps, k - 1, Reviewer)
    ensures steps[k].task.role == Reviewer ==> Succeeded(steps, k - 1, Tester)
  {
    assert TraceAt(p, controlled, steps, latch, k);
    assert Follows(steps[..k], steps[k].task);
  }

  /** When the last step succeeds, the latch was clear all the way and no step met trouble. */
  lemma ClearUntilSuccess(p: Pipeline, controlled: bool, steps: seq<Step>, latch: seq<bool>, k: nat)
    requires Trace(p, controlled, steps, latch) && k < |steps| && steps[|steps| - 1].result.success
    ensures !latch[k] && (controlled ==> !Trouble(p, steps, k))
  {
    var n := |steps|;
    if latch[k] {
      NothingRunsOnceStopped(p, controlled, steps, latch, k, n - 1);
    }
    assert TraceAt(p, controlled, steps, latch, k);
    if latch[k + 1] && k + 1 < n {
      NothingRunsOnceStopped(p, controlled, steps, latch, k + 1, n - 1);
    }
  }

  /** Readiness means: the last three steps are a test, a review and an integration that all
      succeeded, with no repair after the test; the latch was clear when every step began;
      and under a controller no step met dangerous text or a gate rejection, and no operator
      request fell into a step, except one that the last step was too far on to see. */
  lemma ReadyMeansGated(
    p: Pipeline, controlled: bool, steps: seq<Step>, latch: seq<bool>, report: RuntimeReport, maxRounds: nat)
    requires Trace(p, controlled, steps, latch)
    requires QualityReport(p, steps, report, maxRounds) && report.integrationReady
    ensures Succeeded(steps, |steps| - 1, Integrator)
    ensures Succeeded(steps, |steps| - 2, Reviewer)
    ensures Succeeded(steps, |steps| - 3, Tester)
    ensures forall k | 0 <= k < |steps| :: !latch[k]
    ensures controlled ==> forall k | 0 <= k < |steps| :: !Trouble(p, steps, k)
    ensures controlled ==> forall k | 0 <= k < |steps| - 1 :: !OperatorActs(p, k, steps[k].task, steps[k].invoked)
  {
    StepBefore(p, controlled, steps, latch, |steps| - 1);
    StepBefore(p, controlled, steps, latch, |steps| - 2);
    forall k | 0 <= k < |steps| ensures !latch[k] && (controlled ==> !Trouble(p, steps, k)) {
      ClearUntilSuccess(p, controlled, steps, latch, k);
    }
    if controlled {
      forall k | 0 <= k < |steps| - 1 ensures !OperatorActs(p, k, steps[k].task, steps[k].invoked) {
        if OperatorActs(p, k, steps[k].task, steps[k].invoked) {
          OperatorStops(p, steps, latch, k, |steps| - 1);
        }
      }
    }
  }

  /** A ready report can leave the latch set, exactly when the operator asked for the stop
      while the integration executed, or while the gate verified it: by then the code has
      looked at the latch for the last time. */
  lemma ReadyThoughStopped(p: Pipeline, steps: seq<Step>, latch: seq<bool>, report: RuntimeReport, maxRounds: nat)
    requires Trace(p, true, steps, latch)
    requires QualityReport(p, steps, report, maxRounds) && report.integrationReady
    ensures latch[|steps|] <==> OperatorTooLate(p, |steps| - 1, steps[|steps| - 1].task)
  {
    var n := |steps| - 1;
    ClearUntilSuccess(p, true, steps, latch, n);
    assert TraceAt(p, true, steps, latch, n);
  }

  function Sample(id: string, role: AgentRole): AgentTask {
    AgentTask(id, role, "do it", {}, [], 0)
  }

  lemma SampleValid(id: string, role: AgentRole)
    requires id in {"i", "t", "r", "g"}
    ensures ValidTask(Sample(id, role))
  {
    NotBlankAt(id, 0);
    NotBlankAt("do it", 0);
    Constructed(id, role, "do it", {}, []);
  }

  function Pass(t: AgentTask): Step {
    Step(t, true, AgentResult(t.id, true, "", {}))
  }

  lemma FourPasses(i: AgentTask, t: AgentTask, r: AgentTask, g: AgentTask)
    requires i.role == Implementer && t.role == Tester && r.role == Reviewer && g.role == Integrator
    ensures TallyOf([Pass(i), Pass(t), Pass(r), Pass(g)]) == Tally(0, 0, true)
  {
    TallySnoc([], Pass(i));
    TallySnoc([Pass(i)], Pass(t));
    TallySnoc([Pass(i), Pass(t)], Pass(r));
    TallySnoc([Pass(i), Pass(t), Pass(r)], Pass(g));
    assert [] + [Pass(i)] == [Pass(i)];
    assert [Pass(i)] + [Pass(t)] == [Pass(i), Pass(t)];
    assert [Pass(i), Pass(t)] + [Pass(r)] == [Pass(i), Pass(t), Pass(r)];
    assert [Pass(i), Pass(t), Pass(r)] + [Pass(g)] == [Pass(i), Pass(t), Pass(r), Pass(g)];
  }

  /** A run in which the operator stops the system while the integration executes, and which
      reports readiness all the same. */
  lemma LateStop() returns (p: Pipeline, steps: seq<Step>, latch: seq<bool>, report: RuntimeReport)
    ensures Trace(p, true, steps, latch) && QualityReport(p, steps, report, 1)
    ensures report.integrationReady && !latch[0] && latch[|steps|]
  {
    p := Pipeline({Implementer, Tester, Reviewer, Integrator},
        (_, t: AgentTask) => Replies(AgentResult(t.id, true, "", {})),
                  None, _ => None, (k, m) => k == 3 && m == WhileExecuting);
    var i, t, r, g := Sample("i", Implementer), Sample("t", Tester), Sample("r", Reviewer), Sample("g", Integrator);
    SampleValid("i", Implementer);
    SampleValid("t", Tester);
    SampleValid("r", Reviewer);
    SampleValid("g", Integrator);
    latch := [false];
    steps := [];
    TraceGrows(p, true, steps, latch, Pass(i), false);
    steps, latch := steps + [Pass(i)], latch + [false];
    TraceGrows(p, true, steps, latch, Pass(t), false);
    steps, latch := steps + [Pass(t)], latch + [false];
    TraceGrows(p, true, steps, latch, Pass(r), false);
    steps, latch := steps + [Pass(r)], latch + [false];
    TraceGrows(p, true, steps, latch, Pass(g), true);
    steps, latch := steps + [Pass(g)], latch + [true];
    report := RuntimeReport(Results(steps), None, None, 1, 0, true);
    FourPasses(i, t, r, g);
    assert steps == [Pass(i), Pass(t), Pass(r), Pass(g)];
  }

  /** Every recorded success but the manager's was begun with the latch clear, is the
      executor's own answer, and was verified by the gate when there is one. */
  lemma SuccessesAreVerified(p: Pipeline, controlled: bool, steps: seq<Step>, latch: seq<bool>, k: nat)
    requires Trace(p, controlled, steps, latch) && k < |steps| && steps[k].result.success
    ensures !latch[k] && steps[k].invoked
    ensures p.reply(k, steps[k].task) == Replies(steps[k].result)
    ensures steps[k].task.role != Manager && p.gate.Some? ==>
              p.gate.value(k, steps[k].task, steps[k].result) == Verified
  {
    assert TraceAt(p, controlled, steps, latch, k);
  }
}
