/** The bounded duel of Creator and Critic (core/creator_critic.py): models propose and
    comment, measured evidence alone decides. */
module CreatorCritic {
  import opened Text

  // ----- evidence -----

  /** The keys of the evidence dictionaries. */
  datatype Key =
    | Accuracy | Stability | Efficiency | Safety
    | RuntimeSuccess | IntegrationReady | Rounds | RepairAttempts
    | ApprovedTaskHash | CriticFeedback | OtherKey(name: string)

  /** A Python float, with exact arithmetic on the finite ones. */
  datatype Float = Finite(x: real) | PosInf | NegInf | NaN

  /** A value, described by what `float()` makes of it: a number, a `TypeError` or
      `ValueError`, which the Critic absorbs, or an `OverflowError`, which it does not. */
  datatype Value = Number(value: Float) | NoNumber(text: string) | TooLarge

  type Evidence = map<Key, Value>

  /** Comparison of floats; every comparison with NaN is false. */
  predicate Greater(a: Float, b: Float) {
    match (a, b)
    case (NaN, _) => false
    case (_, NaN) => false
    case (Finite(x), Finite(y)) => x > y
    case (PosInf, _) => !b.PosInf?
    case (_, NegInf) => !a.NegInf?
    case _ => false
  }

  /** `min(1.0, max(0.0, number))`: both keep the first argument unless the second beats it. */
  function Clamp(number: Float): Float {
    var low := if Greater(number, Finite(0.0)) then number else Finite(0.0);
    if Greater(Finite(1.0), low) then low else Finite(1.0)
  }

  lemma ClampInRange(number: Float)
    ensures Clamp(number).Finite? && 0.0 <= Clamp(number).x <= 1.0
    ensures number.Finite? && 0.0 <= number.x <= 1.0 ==> Clamp(number) == number
    ensures Clamp(number).x > 0.0 <==> number.PosInf? || (number.Finite? && number.x > 0.0)
    ensures Clamp(number).x == 1.0 <==> number.PosInf? || (number.Finite? && number.x >= 1.0)
  {
  }

  /** One normalized metric; `None` when the conversion raises. */
  function Metric(e: Evidence, key: Key): (r: Option<real>)
    ensures r.Some? ==> 0.0 <= r.value <= 1.0
    ensures r.None? <==> key in e && e[key].TooLarge?
    ensures key !in e ==> r == Some(0.0)
  {
    if key !in e then Some(0.0)
    else
      match e[key]
      case Number(value) =>
        ClampInRange(value);
        Some(Clamp(value).x)
      case NoNumber(_) => Some(0.0)
      case TooLarge => None
  }

  datatype Metrics = Metrics(accuracy: real, stability: real, efficiency: real, safety: real) {
    predicate InRange() {
      0.0 <= accuracy <= 1.0 && 0.0 <= stability <= 1.0 && 0.0 <= efficiency <= 1.0 && 0.0 <= safety <= 1.0
    }

    function Score(): real {
      0.35 * accuracy + 0.25 * stability + 0.15 * efficiency + 0.25 * safety
    }

    predicate Passed() {
      safety >= 0.8 && accuracy >= 0.6 && stability >= 0.6
    }
  }

  /** `_evidence_metrics`. */
  function MetricsOf(e: Evidence): (r: Option<Metrics>)
    ensures r.Some? ==> r.value.InRange()
  {
    var a, s, f, y := Metric(e, Accuracy), Metric(e, Stability), Metric(e, Efficiency), Metric(e, Safety);
    if a.Some? && s.Some? && f.Some? && y.Some?
    then Some(Metrics(a.value, s.value, f.value, y.value))
    else None
  }

  /** Scores stay between 0 and 1, and a passing score is at least 0.56. */
  lemma ScoreInRange(m: Metrics)
    requires m.InRange()
    ensures 0.0 <= m.Score() <= 1.0
    ensures m.Passed() ==> m.Score() >= 0.56
  {
  }

  // ----- the two agents -----

  datatype Answer = Raises | Says(text: string)

  datatype Problem =
    | ModelRaised | ObjectiveRequired | EmptyProposal | EmptyFeedback | MetricOverflow
    | ProviderRaised | InvalidCandidate | InvalidEvaluation

  datatype Candidate = Candidate(id: string, objective: string, proposal: string, evidence: Evidence)

  datatype Evaluation = Evaluation(
    candidateId: string, passed: bool, score: real, metrics: Metrics, feedback: string, evidence: Evidence)

  datatype DuelResult = DuelResult(candidate: Candidate, evaluation: Evaluation, submit: bool)

  /** The checks of the two constructors. */
  predicate ValidCandidate(c: Candidate) {
    !Blank(c.id) && !Blank(c.objective) && !Blank(c.proposal)
  }

  predicate ValidEvaluation(e: Evaluation) {
    0.0 <= e.score <= 1.0 && e.metrics.InRange() && !Blank(e.feedback)
  }

  /** The models, each answering once per iteration, and the limits of the agents. */
  datatype Duel = Duel(creator: nat -> Answer, critic: nat -> Answer, creatorChars: nat, criticChars: nat,
      maxIterations: nat) {
    predicate Valid() {
      creatorChars >= 1 && criticChars >= 1 && 1 <= maxIterations <= 3
    }
  }

  function Truncate(s: string, n: nat): string {
    if |s| <= n then s else s[..n]
  }

  /** `CreatorAgent.create`. */
  function Create(d: Duel, objective: string, evidence: Evidence, iteration: nat): Result<Candidate, Problem> {
    if Blank(objective) then Err(ObjectiveRequired)
    else
      var answer := d.creator(iteration);
      if answer.Raises? then Err(ModelRaised)
      else if Blank(answer.text) then Err(EmptyProposal)
      else
        var c := Candidate("creator-" + Decimal(iteration), Strip(objective),
            Truncate(Strip(answer.text), d.creatorChars), evidence);
        if ValidCandidate(c) then Ok(c) else Err(InvalidCandidate)
  }

  /** `CriticAgent.evaluate`: the fresh evidence overrides what the candidate carries. */
  function Evaluate(d: Duel, c: Candidate, measured: Evidence, iteration: nat): Result<Evaluation, Problem> {
    var observed := c.evidence + measured;
    var answer := d.critic(iteration);
    if answer.Raises? then Err(ModelRaised)
    else if Blank(answer.text) then Err(EmptyFeedback)
    else
      var metrics := MetricsOf(observed);
      if metrics.None? then Err(MetricOverflow)
      else
        var m := metrics.value;
        var e := Evaluation(c.id, m.Passed(), m.Score(), m, Truncate(Strip(answer.text), d.criticChars), observed);
        if ValidEvaluation(e) then Ok(e) else Err(InvalidEvaluation)
  }

  lemma TruncatedKeepsText(s: string, n: nat)
    requires !Blank(s) && n >= 1
    ensures !Blank(Truncate(Strip(s), n))
  {
    StripKeepsText(s);
    assert !IsSpace(Truncate(Strip(s), n)[0]);
  }

  /** The agents fail only for the reasons that their own code states: no constructor
      refuses what they built. */
  lemma CreateFails(d: Duel, objective: string, evidence: Evidence, iteration: nat)
    requires d.Valid()
    ensures Create(d, objective, evidence, iteration).Ok? <==>
              !Blank(objective) && d.creator(iteration).Says? && !Blank(d.creator(iteration).text)
  {
    if !Blank(objective) && d.creator(iteration).Says? && !Blank(d.creator(iteration).text) {
      TruncatedKeepsText(d.creator(iteration).text, d.creatorChars);
      StripKeepsText(objective);
      assert !IsSpace(Strip(objective)[0]);
      var id := "creator-" + Decimal(iteration);
      assert !IsSpace(id[0]);
    }
  }

  lemma EvaluateFails(d: Duel, c: Candidate, measured: Evidence, iteration: nat)
    requires d.Valid()
    ensures Evaluate(d, c, measured, iteration).Ok? <==>
              && d.critic(iteration).Says? && !Blank(d.critic(iteration).text)
              && MetricsOf(c.evidence + measured).Some?
  {
    if d.critic(iteration).Says? && !Blank(d.critic(iteration).text) && MetricsOf(c.evidence + measured).Some? {
      TruncatedKeepsText(d.critic(iteration).text, d.criticChars);
      ScoreInRange(MetricsOf(c.evidence + measured).value);
    }
  }

  // ----- the loop -----

  /** What an iteration shows to the Creator: the feedback and measurements of the last one. */
  function Carried(last: Option<DuelResult>, measured: Evidence): Evidence {
    if last.None? then map[] else map[CriticFeedback := NoNumber(last.value.evaluation.feedback)] + measured
  }

  /** Iteration `i` of a duel, counted from 0, and the fact that only the last one passes. */
  ghost predicate Iteration(
    d: Duel, objective: string, provider: nat -> Result<Evidence, Problem>, duel: seq<DuelResult>, i: nat)
    requires i < |duel|
  {
    && provider(i).Ok? && (i > 0 ==> provider(i - 1).Ok?)
    && (var carried := if i == 0 then Carried(None, map[]) else Carried(Some(duel[i - 1]), provider(i - 1).value);
        Create(d, objective, carried, i + 1) == Ok(duel[i].candidate))
    && Evaluate(d, duel[i].candidate, provider(i).value, i + 1) == Ok(duel[i].evaluation)
    && duel[i].submit == duel[i].evaluation.passed
    && (duel[i].evaluation.passed ==> i == |duel| - 1)
  }

  ghost predicate Iterations(
    d: Duel, objective: string, provider: nat -> Result<Evidence, Problem>, duel: seq<DuelResult>)
  {
    forall i | 0 <= i < |duel| :: Iteration(d, objective, provider, duel, i)
  }

  predicate Approves(duel: seq<DuelResult>) {
    duel != [] && duel[|duel| - 1].evaluation.passed
  }

  /** A finished duel. */
  ghost predicate Finished(
    d: Duel, objective: string, provider: nat -> Result<Evidence, Problem>, duel: seq<DuelResult>)
  {
    && 1 <= |duel| <= d.maxIterations
    && Iterations(d, objective, provider, duel)
    && (Approves(duel) || |duel| == d.maxIterations)
  }

  /** An error escapes at the iteration after `done`, none of which passed. */
  ghost predicate FailsAfter(
    d: Duel, objective: string, provider: nat -> Result<Evidence, Problem>, done: seq<DuelResult>)
  {
    && |done| < d.maxIterations && Iterations(d, objective, provider, done) && !Approves(done)
    && (var carried := if done == [] then Carried(None, map[]) else
                       (var last := done[|done| - 1];
                        assert Iteration(d, objective, provider, done, |done| - 1);
                        Carried(Some(last), provider(|done| - 1).value));
        var c := Create(d, objective, carried, |done| + 1);
        c.Err? || provider(|done|).Err? || Evaluate(d, c.value, provider(|done|).value, |done| + 1).Err?)
  }

  lemma IterationsGrow(
    d: Duel, objective: string, provider: nat -> Result<Evidence, Problem>, duel: seq<DuelResult>, r: DuelResult)
    requires Iterations(d, objective, provider, duel) && !Approves(duel)
    requires Iteration(d, objective, provider, duel + [r], |duel|)
    ensures Iterations(d, objective, provider, duel + [r])
  {
    var more := duel + [r];
    forall i | 0 <= i < |more| ensures Iteration(d, objective, provider, more, i) {
      if i < |duel| {
        assert Iteration(d, objective, provider, duel, i);
      }
    }
  }

  /** Propose, measure, evaluate. */
  method Play(d: Duel, objective: string, provider: nat -> Result<Evidence, Problem>, carried: Evidence, n: nat)
    returns (r: Result<DuelResult, Problem>)
    ensures r.Ok? ==>
              && provider(n).Ok?
              && Create(d, objective, carried, n + 1) == Ok(r.value.candidate)
              && Evaluate(d, r.value.candidate, provider(n).value, n + 1) == Ok(r.value.evaluation)
              && r.value.submit == r.value.evaluation.passed
    ensures r.Err? ==>
              var c := Create(d, objective, carried, n + 1);
              c.Err? || provider(n).Err? || Evaluate(d, c.value, provider(n).value, n + 1).Err?
  {
    var candidate := Create(d, objective, carried, n + 1);
    if candidate.Err? {
      return Err(candidate.error);
    }
    var measured := provider(n);
    if measured.Err? {
      return Err(measured.error);
    }
    var evaluation := Evaluate(d, candidate.value, measured.value, n + 1);
    if evaluation.Err? {
      return Err(evaluation.error);
    }
    return Ok(DuelResult(candidate.value, evaluation.value, evaluation.value.passed));
  }

  /** `CreatorCriticLoop.run`. */
  method RunDuel(d: Duel, objective: string, provider: nat -> Result<Evidence, Problem>)
    returns (r: Result<seq<DuelResult>, Problem>, ghost done: seq<DuelResult>)
    requires d.Valid()
    ensures r.Ok? ==> Finished(d, objective, provider, r.value)
    ensures r.Err? ==> FailsAfter(d, objective, provider, done)
  {
    var results: seq<DuelResult> := [];
    done := [];
    if Blank(objective) {
      return Err(ObjectiveRequired), done;
    }
    var evidence: Evidence := map[];
    var n := 0;
    while n < d.maxIterations
      invariant n == |results| <= d.maxIterations && done == results
      invariant Iterations(d, objective, provider, results) && !Approves(results)
      invariant n == 0 ==> evidence == Carried(None, map[])
      invariant n > 0 ==> provider(n - 1).Ok? && evidence == Carried(Some(results[n - 1]), provider(n - 1).value)
    {
      var played := Play(d, objective, provider, evidence, n);
      if played.Err? {
        return Err(played.error), done;
      }
      IterationsGrow(d, objective, provider, results, played.value);
      results := results + [played.value];
      if played.value.evaluation.passed {
        return Ok(results), done;
      }
      evidence := Carried(Some(played.value), provider(n).value);
      assert results[n] == played.value;
      n := n + 1;
      done := results;
    }
    return Ok(results), done;
  }

  // ----- the models have no say -----

  predicate Complete(e: Evidence) {
    Accuracy in e && Stability in e && Efficiency in e && Safety in e
  }

  /** Whatever the candidate carries, complete measurements decide the metrics. */
  lemma MeasurementsDecide(carried: Evidence, measured: Evidence)
    requires Complete(measured)
    ensures MetricsOf(carried + measured) == MetricsOf(measured)
  {
  }

  /** With the same complete measurements in every iteration the verdict depends on them
      alone: the duel passes in its first iteration or never. */
  lemma EvidenceDecides(d: Duel, objective: string, measured: Evidence, duel: seq<DuelResult>)
    requires d.Valid() && Complete(measured)
    requires Finished(d, objective, _ => Ok(measured), duel)
    ensures MetricsOf(measured).Some?
    ensures Approves(duel) <==> MetricsOf(measured).value.Passed()
    ensures |duel| == if Approves(duel) then 1 else d.maxIterations
    ensures forall i | 0 <= i < |duel| :: duel[i].evaluation.metrics == MetricsOf(measured).value
  {
    var provider: nat -> Result<Evidence, Problem> := _ => Ok(measured);
    forall i | 0 <= i < |duel|
      ensures MetricsOf(measured).Some?
      ensures duel[i].evaluation.metrics == MetricsOf(measured).value
      ensures duel[i].evaluation.passed == MetricsOf(measured).value.Passed()
      ensures duel[i].evaluation.passed ==> i == |duel| - 1
    {
      assert Iteration(d, objective, provider, duel, i);
      MeasurementsDecide(duel[i].candidate.evidence, measured);
    }
    assert duel[0].evaluation.passed == duel[|duel| - 1].evaluation.passed;
  }

  /** Scores of a duel stay between 0 and 1, and only its last entry can pass. */
  lemma DuelShape(
    d: Duel, objective: string, provider: nat -> Result<Evidence, Problem>, duel: seq<DuelResult>, i: nat)
    requires Finished(d, objective, provider, duel) && i < |duel|
    ensures 0.0 <= duel[i].evaluation.score <= 1.0 && duel[i].evaluation.metrics.InRange()
    ensures duel[i].evaluation.passed <==> duel[i].evaluation.metrics.Passed()
    ensures duel[i].evaluation.passed ==> i == |duel| - 1
  {
    assert Iteration(d, objective, provider, duel, i);
    ScoreInRange(duel[i].evaluation.metrics);
  }
}
