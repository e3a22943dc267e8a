/** The Control Tower (core/control_tower.py): it turns a runtime report into evidence, runs
    the Creator/Critic duel on it and exposes a task only after a pass. */
module ControlTower {
  import opened Text
  import opened MultiAgent
  import opened Reports
  import opened CreatorCritic
  import Distributed
  import QualityRuntime

  // ----- evidence of a report -----

  function Max(a: real, b: real): real {
    if a < b then b else a
  }

  function Flag(b: bool): Value {
    Number(Finite(if b then 1.0 else 0.0))
  }

  predicate Integrable(report: RuntimeReport) {
    report.Success() && report.integrationReady
  }

  function RepairPenalty(report: RuntimeReport): real {
    if report.repairAttempts > 3 then 0.3 else report.repairAttempts as real * 0.1
  }

  function RuntimeEvidence(report: RuntimeReport): Evidence {
    var ready := if Integrable(report) then 1.0 else 0.0;
    var rounds := if report.rounds < 1 then 1 else report.rounds;
    var penalty := RepairPenalty(report);
    map[
      Accuracy := Number(Finite(ready)),
      Stability := Number(Finite(Max(0.0, ready - penalty))),
      Efficiency := Number(Finite(Max(0.0, 1.0 - (rounds - 1) as real * 0.15 - penalty))),
      Safety := Number(Finite(ready)),
      RuntimeSuccess := Flag(report.Success()),
      IntegrationReady := Flag(report.integrationReady),
      Rounds := Number(Finite(report.rounds as real)),
      RepairAttempts := Number(Finite(report.repairAttempts as real))]
  }

  /** Facts of the runtime that explicit evidence cannot replace. */
  const PROTECTED: set<Key> := {Safety, RuntimeSuccess, IntegrationReady, Rounds, RepairAttempts}

  /** `_report_evidence`. */
  function ReportEvidence(report: RuntimeReport, extra: Evidence): Evidence {
    RuntimeEvidence(report) + (extra - PROTECTED)
  }

  // ----- decisions -----

  type Hash = AgentTask -> string

  /** SHA-256 over the canonical JSON of a task, taken to be free of collisions. */
  ghost predicate Injective(hash: Hash) {
    forall a, b :: hash(a) == hash(b) ==> a == b
  }

  datatype Proposal = Proposal(title: string, task: Option<AgentTask>)

  datatype Decision = Decision(
    proposal: Option<Proposal>, duel: seq<DuelResult>, approvedTaskHash: Option<string>, reviewError: Option<Problem>)
  {
    predicate ApprovedForPipeline() {
      Approves(duel)
    }

    function ApprovedTask(hash: Hash): Option<AgentTask> {
      if !ApprovedForPipeline() || proposal.None? || approvedTaskHash.None? then None
      else if proposal.value.task.None? then None
      else if hash(proposal.value.task.value) != approvedTaskHash.value then None
      else proposal.value.task
    }

    predicate ApprovedTaskMatches(hash: Hash, task: Option<AgentTask>) {
      task.Some? && ApprovedForPipeline() && approvedTaskHash == Some(hash(task.value))
    }
  }

  function Inert(proposal: Option<Proposal>): Decision {
    Decision(proposal, [], None, None)
  }

  /** `(objective or proposal.title).strip()`. */
  function Target(objective: string, proposal: Proposal): string {
    Strip(if objective != "" then objective else proposal.title)
  }

  function Measured(report: RuntimeReport, extra: Evidence, hash: string): Evidence {
    ReportEvidence(report, extra)[ApprovedTaskHash := NoNumber(hash)]
  }

  /** Nothing stands in the way of a duel. */
  predicate Reviewable(reviewer: Option<Duel>, proposal: Option<Proposal>, objective: string) {
    reviewer.Some? && proposal.Some? && Target(objective, proposal.value) != "" && proposal.value.task.Some?
  }

  /** The measurements are the same in every iteration. */
  ghost predicate ReviewFails(reviewer: Duel, target: string, measured: Evidence, done: seq<DuelResult>) {
    FailsAfter(reviewer, target, _ => Ok(measured), done)
  }

  ghost predicate Reviewed(
    reviewer: Duel, report: RuntimeReport, proposal: Proposal, objective: string, extra: Evidence, hash: Hash,
    d: Decision)
    requires proposal.task.Some?
  {
    var id := hash(proposal.task.value);
    var measured := Measured(report, extra, id);
    if d.reviewError.Some?
    then
      && d.duel == [] && d.approvedTaskHash.None?
      && exists done :: ReviewFails(reviewer, Target(objective, proposal), measured, done)
    else
      && d.approvedTaskHash == Some(id)
      && Finished(reviewer, Target(objective, proposal), _ => Ok(measured), d.duel)
  }

  /** The whole contract of a decision. */
  ghost predicate DecisionSpec(
    reviewer: Option<Duel>, report: RuntimeReport, proposal: Option<Proposal>, objective: string, extra: Evidence,
    hash: Hash, d: Decision)
  {
    && d.proposal == proposal
    && if Reviewable(reviewer, proposal, objective)
       then Reviewed(reviewer.value, report, proposal.value, objective, extra, hash, d)
       else d == Inert(proposal)
  }

  method EvaluateProposal(
    reviewer: Option<Duel>, report: RuntimeReport, proposal: Proposal, objective: string, extra: Evidence, hash: Hash)
    returns (d: Decision)
    requires reviewer.Some? ==> reviewer.value.Valid()
    ensures DecisionSpec(reviewer, report, Some(proposal), objective, extra, hash, d)
  {
    if reviewer.None? || Target(objective, proposal) == "" || proposal.task.None? {
      return Inert(Some(proposal));
    }
    var approvedHash := hash(proposal.task.value);
    var measured := Measured(report, extra, approvedHash);
    var duel, done := RunDuel(reviewer.value, Target(objective, proposal), _ => Ok(measured));
    if duel.Err? {
      assert ReviewFails(reviewer.value, Target(objective, proposal), measured, done);
      return Decision(Some(proposal), [], None, Some(duel.error));
    }
    return Decision(Some(proposal), duel.value, Some(approvedHash), None);
  }

  /** `observe`, given what the feedback engine proposes. */
  method Observe(
    reviewer: Option<Duel>, report: RuntimeReport, proposal: Option<Proposal>, objective: string, extra: Evidence,
    hash: Hash)
    returns (d: Decision)
    requires reviewer.Some? ==> reviewer.value.Valid()
    ensures DecisionSpec(reviewer, report, proposal, objective, extra, hash, d)
  {
    if proposal.None? || reviewer.None? {
      return Inert(proposal);
    }
    d := EvaluateProposal(reviewer, report, proposal.value, objective, extra, hash);
  }

  // ----- what an approval means -----

  lemma MeasuredMetrics(report: RuntimeReport, extra: Evidence, hash: string)
    ensures var e := Measured(report, extra, hash);
            && Complete(e)
            && e[Safety] == Number(Finite(if Integrable(report) then 1.0 else 0.0))
            && e[Accuracy] ==
               (if Accuracy in extra then extra[Accuracy] else Number(Finite(if Integrable(report) then 1.0 else 0.0)))
            && e[Stability] == (if Stability in extra then extra[Stability] else RuntimeEvidence(report)[Stability])
  {
  }

  /** Whatever the models answer and whatever evidence is added, an approval means that the
      report succeeded and was ready for integration. */
  lemma ApprovedMeansReady(
    reviewer: Option<Duel>, report: RuntimeReport, proposal: Option<Proposal>, objective: string, extra: Evidence,
    hash: Hash, d: Decision)
    requires reviewer.Some? ==> reviewer.value.Valid()
    requires DecisionSpec(reviewer, report, proposal, objective, extra, hash, d) && d.ApprovedForPipeline()
    ensures Integrable(report)
    ensures |d.duel| == 1 && d.reviewError.None?
    ensures Reviewable(reviewer, proposal, objective)
  {
    var id := hash(proposal.value.task.value);
    MeasuredMetrics(report, extra, id);
    EvidenceDecides(reviewer.value, Target(objective, proposal.value), Measured(report, extra, id), d.duel);
  }

  ghost predicate AnswersAt(d: Duel, n: nat) {
    d.creator(n).Says? && !Blank(d.creator(n).text) && d.critic(n).Says? && !Blank(d.critic(n).text)
  }

  /** Both models answer with text in every iteration. */
  ghost predicate Answering(d: Duel) {
    forall n: nat :: AnswersAt(d, n)
  }

  lemma TargetKept(objective: string, proposal: Proposal)
    requires Target(objective, proposal) != ""
    ensures !Blank(Target(objective, proposal))
  {
    var text := if objective != "" then objective else proposal.title;
    assert Strip(text)[|Strip(text)| - 1] == Target(objective, proposal)[|Strip(text)| - 1];
  }

  /** A review only fails when a model gives no text or a metric overflows. */
  lemma AnswersSuffice(d: Duel, objective: string, measured: Evidence, done: seq<DuelResult>)
    requires d.Valid() && Answering(d) && !Blank(objective)
    requires Complete(measured) && MetricsOf(measured).Some?
    ensures !ReviewFails(d, objective, measured, done)
  {
    var n, carried := |done| + 1, if done == [] then Carried(None, map[]) else Carried(Some(done[|done| - 1]),
        measured);
    assert AnswersAt(d, n);
    CreateFails(d, objective, carried, n);
    var c := Create(d, objective, carried, n).value;
    MeasurementsDecide(c.evidence, measured);
    EvaluateFails(d, c, measured, n);
  }

  lemma PlainMetrics(report: RuntimeReport, hash: string)
    ensures var m := MetricsOf(Measured(report, map[], hash));
            m.Some? && (m.value.Passed() <==> Integrable(report))
  {
    MeasuredMetrics(report, map[], hash);
  }

  /** When the models answer and no evidence is added, approval is exactly readiness, and it
      comes with the first iteration. */
  lemma ReadyIsApproved(
    reviewer: Option<Duel>, report: RuntimeReport, proposal: Option<Proposal>, objective: string, hash: Hash,
    d: Decision)
    requires Reviewable(reviewer, proposal, objective) && reviewer.value.Valid() && Answering(reviewer.value)
    requires DecisionSpec(reviewer, report, proposal, objective, map[], hash, d)
    ensures d.ApprovedForPipeline() <==> Integrable(report)
    ensures d.reviewError.None? && |d.duel| == if Integrable(report) then 1 else reviewer.value.maxIterations
  {
    var id := hash(proposal.value.task.value);
    var measured := Measured(report, map[], id);
    MeasuredMetrics(report, map[], id);
    PlainMetrics(report, id);
    TargetKept(objective, proposal.value);
    forall done ensures !ReviewFails(reviewer.value, Target(objective, proposal.value), measured, done) {
      AnswersSuffice(reviewer.value, Target(objective, proposal.value), measured, done);
    }
    EvidenceDecides(reviewer.value, Target(objective, proposal.value), measured, d.duel);
  }

  /** Exactly the proposed task is exposed, exactly after a pass. */
  lemma OnlyTheReviewedTask(
    reviewer: Option<Duel>, report: RuntimeReport, proposal: Option<Proposal>, objective: string, extra: Evidence,
    hash: Hash, d: Decision, task: AgentTask)
    requires Injective(hash) && (reviewer.Some? ==> reviewer.value.Valid())
    requires DecisionSpec(reviewer, report, proposal, objective, extra, hash, d)
    ensures d.ApprovedTaskMatches(hash, Some(task)) <==> d.ApprovedForPipeline() && proposal.value.task == Some(task)
    ensures d.ApprovedTask(hash) == Some(task) <==> d.ApprovedTaskMatches(hash, Some(task))
  {
    if d.ApprovedForPipeline() {
      ApprovedMeansReady(reviewer, report, proposal, objective, extra, hash, d);
    }
  }

  // ----- composition with the runtimes -----

  /** An approval over a distributed run: every task ran and succeeded. */
  lemma ApprovedDistributedRun(
    reviewer: Option<Duel>, report: RuntimeReport, proposal: Option<Proposal>, objective: string, extra: Evidence,
    hash: Hash, d: Decision,
    roles: set<AgentRole>, exec: Distributed.Executor, tasks: seq<AgentTask>, started: seq<AgentTask>)
    requires reviewer.Some? ==> reviewer.value.Valid()
    requires DecisionSpec(reviewer, report, proposal, objective, extra, hash, d) && d.ApprovedForPipeline()
    requires Distributed.ReportSpec(roles, exec, tasks, report, started)
    ensures Schedulable(tasks) && Elems(TasksOf(report.completed)) == Elems(tasks)
    ensures forall t | t in tasks :: t.role in roles && Distributed.Succeeds(exec, t)
  {
    ApprovedMeansReady(reviewer, report, proposal, objective, extra, hash, d);
  }

  /** An approval over a quality run: it ended with a test, a review and an integration that
      succeeded, and the stop latch was clear at every step. */
  lemma ApprovedQualityRun(
    reviewer: Option<Duel>, report: RuntimeReport, proposal: Option<Proposal>, objective: string, extra: Evidence,
    hash: Hash, d: Decision,
    p: QualityRuntime.Pipeline, controlled: bool, steps: seq<QualityRuntime.Step>, latch: seq<bool>, maxRounds: nat)
    requires reviewer.Some? ==> reviewer.value.Valid()
    requires DecisionSpec(reviewer, report, proposal, objective, extra, hash, d) && d.ApprovedForPipeline()
    requires QualityRuntime.Trace(p, controlled, steps, latch)
    requires QualityRuntime.QualityReport(p, steps, report, maxRounds)
    ensures QualityRuntime.Succeeded(steps, |steps| - 3, Tester)
    ensures QualityRuntime.Succeeded(steps, |steps| - 2, Reviewer)
    ensures QualityRuntime.Succeeded(steps, |steps| - 1, Integrator)
    ensures forall k | 0 <= k < |steps| :: !latch[k]
  {
    ApprovedMeansReady(reviewer, report, proposal, objective, extra, hash, d);
    QualityRuntime.ReadyMeansGated(p, controlled, steps, latch, report, maxRounds);
  }
}
