/** The leased job queue (db.py): create, typed claim with stale sweep, token-checked
    completion and operator cancel. Each SQLite transaction is one atomic step; the clock
    and the supply of fresh tokens are part of the state. */
module JobQueue {
  import opened Text

  type Token = nat

  datatype Status = Pending | Running | Completed | Failed

  datatype Job = Job(
    jobType: string,
    message: string,
    status: Status,
    retryCount: int,
    maxRetries: int,
    lastError: Option<string>,
    result: Option<string>,
    claimToken: Option<Token>,
    updatedAt: int)

  /** What happened to a job so far; not stored by the program. */
  datatype History = History(claims: nat, lastClaim: Option<Token>, completions: nat, cancelled: bool)

  datatype State = State(rows: map<int, Job>, past: map<int, History>, nextId: int, clock: int, supply: Token)

  /** SHA-256, taken to be injective. */
  datatype Digest = Sha256(text: string)

  datatype Event =
    | Create(jobType: string, message: string, maxRetries: int)
    | Claim(jobType: string, staleAfter: int)
    | Complete(id: int, token: Token, success: bool, result: Option<string>, error: Option<string>)
    | Cancel(id: int, jobType: string, expected: Digest)
    | Tick(seconds: nat)

  datatype Reply =
    | Created(id: int) | InvalidArgument | NoJob | Claimed(id: int, token: Token) | Accepted(ok: bool)
    | NotFound | MessageMismatch | NotPending | NotCancellable | Cancelled | Ticked

  const MAX_JOB_ID := 0x7FFF_FFFF
  const TIMED_OUT := "worker claim timed out after maximum retries"
  const OPERATOR_CANCEL := "cancelled by operator"

  const EMPTY_DB := State(map[], map[], 1, 0, 0)

  // ----- the steps, one job at a time -----

  predicate Expired(job: Job, jobType: string, staleAfter: int, now: int) {
    job.jobType == jobType && job.status == Running && job.updatedAt < now - staleAfter
  }

  /** The two sweep statements seen from one job. */
  function Sweep(job: Job, jobType: string, staleAfter: int, now: int): Job {
    if !Expired(job, jobType, staleAfter, now) then job
    else if job.retryCount >= job.maxRetries then
      job.(status := Failed, lastError := Some(TIMED_OUT), claimToken := None, updatedAt := now)
    else
      job.(status := Pending, claimToken := None, retryCount := job.retryCount + 1, updatedAt := now)
  }

  predicate Waiting(rows: map<int, Job>, id: int, jobType: string) {
    id in rows && rows[id].jobType == jobType && rows[id].status == Pending
  }

  /** The least waiting id from `i` on, below `n`. */
  function FirstWaiting(rows: map<int, Job>, jobType: string, i: int, n: int): (r: Option<int>)
    ensures r.None? ==> forall j | i <= j < n :: !Waiting(rows, j, jobType)
    ensures r.Some? ==> i <= r.value < n && Waiting(rows, r.value, jobType)
    ensures r.Some? ==> forall j | i <= j < r.value :: !Waiting(rows, j, jobType)
    decreases n - i
  {
    if i >= n then None
    else if Waiting(rows, i, jobType) then Some(i)
    else FirstWaiting(rows, jobType, i + 1, n)
  }

  const NEW_HISTORY := History(0, None, 0, false)

  function PastOf(s: State, id: int): History {
    if id in s.past then s.past[id] else NEW_HISTORY
  }

  function SweepAll(rows: map<int, Job>, jobType: string, staleAfter: int, now: int): map<int, Job> {
    map id | id in rows :: Sweep(rows[id], jobType, staleAfter, now)
  }

  function ApplyClaim(s: State, jobType: string, staleAfter: int): (State, Reply) {
    var swept := SweepAll(s.rows, jobType, staleAfter, s.clock);
    var token := s.supply;
    var s' := s.(rows := swept, supply := token + 1);
    var pick := FirstWaiting(swept, jobType, 1, s.nextId);
    if pick.None? then (s', NoJob)
    else
      var id := pick.value;
      var past := PastOf(s, id);
      (s'.(rows := swept[id := swept[id].(status := Running, claimToken := Some(token), updatedAt := s.clock)],
           past := s.past[id := past.(claims := past.claims + 1, lastClaim := Some(token))]),
       Claimed(id, token))
  }

  function ApplyComplete(s: State, id: int, token: Token, success: bool, result: Option<string>,
      error: Option<string>): (State, Reply) {
    if id in s.rows && s.rows[id].status == Running && s.rows[id].claimToken == Some(token) then
      var job := s.rows[id].(status := if success then Completed else Failed, result := result, lastError := error,
                             claimToken := None, updatedAt := s.clock);
      var past := PastOf(s, id);
      (s.(rows := s.rows[id := job], past := s.past[id := past.(completions := past.completions + 1)]), Accepted(true))
    else (s, Accepted(false))
  }

  function ApplyCancel(s: State, id: int, jobType: string, expected: Digest): (State, Reply) {
    if id !in s.rows || s.rows[id].jobType != jobType then (s, NotFound)
    else if Sha256(s.rows[id].message) != expected then (s, MessageMismatch)
    else if s.rows[id].status != Pending then (s, NotPending)
    else if s.rows[id].claimToken.Some? then (s, NotCancellable)
    else
      var job := s.rows[id].(status := Failed, lastError := Some(OPERATOR_CANCEL), claimToken := None,
          updatedAt := s.clock);
      (s.(rows := s.rows[id := job], past := s.past[id := PastOf(s, id).(cancelled := true)]), Cancelled)
  }

  function Apply(s: State, e: Event): (State, Reply) {
    match e
    case Create(jobType, message, maxRetries) =>
      var job := Job(jobType, message, Pending, 0, maxRetries, None, None, None, s.clock);
      (s.(rows := s.rows[s.nextId := job], past := s.past[s.nextId := NEW_HISTORY], nextId := s.nextId + 1),
       Created(s.nextId))
    case Claim(jobType, staleAfter) =>
      if Blank(jobType) || staleAfter < 60 || staleAfter > 3600 then (s, InvalidArgument)
      else ApplyClaim(s, Strip(jobType), staleAfter)
    case Complete(id, token, success, result, error) =>
      if id <= 0 then (s, InvalidArgument) else ApplyComplete(s, id, token, success, result, error)
    case Cancel(id, jobType, expected) =>
      if id <= 0 || id > MAX_JOB_ID || Blank(jobType) then (s, InvalidArgument)
      else ApplyCancel(s, id, Strip(jobType), expected)
    case Tick(seconds) => (s.(clock := s.clock + seconds), Ticked)
  }

  /** The state after any sequence of steps, by any number of workers and operators. */
  function After(s: State, events: seq<Event>): State
    decreases |events|
  {
    if events == [] then s else After(Apply(s, events[0]).0, events[1..])
  }

  // ----- the invariant -----

  /** What a typed operation can ask for: its argument is refused when blank and stripped
      otherwise. */
  predicate Typed(jobType: string) {
    !Blank(jobType) && Strip(jobType) == jobType
  }

  lemma StrippedIsTyped(jobType: string)
    requires !Blank(jobType)
    ensures Typed(Strip(jobType))
  {
    StripKeepsText(jobType);
    StripStable(jobType);
    assert !IsSpace(Strip(jobType)[0]);
  }

  function Budget(job: Job): nat {
    if job.maxRetries < 0 then 0 else job.maxRetries
  }

  predicate Terminal(job: Job) {
    job.status == Completed || job.status == Failed
  }

  ghost predicate JobInv(job: Job, past: History, supply: Token) {
    && (job.status == Running <==> job.claimToken.Some?)
    && (job.claimToken.Some? ==> past.lastClaim == job.claimToken)
    && (past.lastClaim.Some? ==> past.lastClaim.value < supply)
    && 0 <= job.retryCount <= Budget(job)
    && past.claims == job.retryCount + (if job.status == Pending || past.cancelled then 0 else 1)
    && past.completions <= 1
    && (past.completions == 1 ==> Terminal(job) && !past.cancelled)
    && (job.status == Completed ==> past.completions == 1)
    && (past.cancelled ==> job.status == Failed)
    && (!Typed(job.jobType) ==> job.status == Pending && past.claims == 0)
  }

  ghost predicate JobAt(s: State, id: int) {
    id in s.rows && id in s.past && JobInv(s.rows[id], s.past[id], s.supply)
  }

  ghost predicate Inv(s: State) {
    && (forall id :: (id in s.rows ==> 1 <= id < s.nextId) && (id in s.past ==> id in s.rows))
    && (forall id | 1 <= id < s.nextId :: JobAt(s, id))
    && (forall a, b | a in s.past && b in s.past && a != b && s.past[a].lastClaim.Some? ::
          s.past[a].lastClaim != s.past[b].lastClaim)
    && 1 <= s.nextId
  }

  lemma SweepKeepsJob(job: Job, past: History, supply: Token, jobType: string, staleAfter: int, now: int)
    requires JobInv(job, past, supply) && Typed(jobType)
    ensures JobInv(Sweep(job, jobType, staleAfter, now), past, supply + 1)
  {
  }

  lemma ClaimKeepsInv(s: State, jobType: string, staleAfter: int)
    requires Inv(s) && Typed(jobType)
    ensures Inv(ApplyClaim(s, jobType, staleAfter).0)
  {
    var s' := ApplyClaim(s, jobType, staleAfter).0;
    forall id | 1 <= id < s'.nextId ensures JobAt(s', id) {
      assert JobAt(s, id);
      SweepKeepsJob(s.rows[id], s.past[id], s.supply, jobType, staleAfter, s.clock);
    }
    assert forall id | id in s.past :: JobAt(s, id);
  }

  lemma CompleteKeepsInv(s: State, id: int, token: Token, success: bool, result: Option<string>, error: Option<string>)
    requires Inv(s)
    ensures Inv(ApplyComplete(s, id, token, success, result, error).0)
  {
    var s' := ApplyComplete(s, id, token, success, result, error).0;
    forall i | 1 <= i < s'.nextId ensures JobAt(s', i) {
      assert JobAt(s, i);
    }
  }

  lemma CancelKeepsInv(s: State, id: int, jobType: string, expected: Digest)
    requires Inv(s) && Typed(jobType)
    ensures Inv(ApplyCancel(s, id, jobType, expected).0)
  {
    var s' := ApplyCancel(s, id, jobType, expected).0;
    forall i | 1 <= i < s'.nextId ensures JobAt(s', i) {
      assert JobAt(s, i);
    }
  }

  lemma InvStep(s: State, e: Event)
    requires Inv(s)
    ensures Inv(Apply(s, e).0)
  {
    var s' := Apply(s, e).0;
    match e
    case Create(jobType, message, maxRetries) =>
      forall id | 1 <= id < s'.nextId ensures JobAt(s', id) {
        assert id < s.nextId ==> JobAt(s, id);
      }
    case Claim(jobType, staleAfter) =>
      if !(Blank(jobType) || staleAfter < 60 || staleAfter > 3600) {
        StrippedIsTyped(jobType);
        ClaimKeepsInv(s, Strip(jobType), staleAfter);
      }
    case Complete(id, token, success, result, error) =>
      CompleteKeepsInv(s, id, token, success, result, error);
    case Cancel(id, jobType, expected) =>
      if !Blank(jobType) {
        StrippedIsTyped(jobType);
        CancelKeepsInv(s, id, Strip(jobType), expected);
      }
    case Tick(seconds) =>
      forall id | 1 <= id < s'.nextId ensures JobAt(s', id) {
        assert JobAt(s, id);
      }
  }

  lemma {:induction false} InvAfter(s: State, events: seq<Event>)
    requires Inv(s)
    ensures Inv(After(s, events))
    decreases |events|
  {
    if events == [] {
    } else {
      InvStep(s, events[0]);
      InvAfter(Apply(s, events[0]).0, events[1..]);
    }
  }

  // ----- what holds over every run -----

  /** Any state reached from an empty database. */
  ghost predicate Reachable(s: State) {
    exists events :: s == After(EMPTY_DB, events)
  }

  lemma ReachableInv(s: State)
    requires Reachable(s)
    ensures Inv(s)
  {
    var events :| s == After(EMPTY_DB, events);
    InvAfter(EMPTY_DB, events);
  }

  /** A job is running exactly when it holds a token, and live tokens are distinct. */
  lemma LiveTokens(s: State, a: int, b: int)
    requires Reachable(s) && a in s.rows && b in s.rows
    ensures s.rows[a].status == Running <==> s.rows[a].claimToken.Some?
    ensures a != b && s.rows[a].claimToken.Some? ==> s.rows[a].claimToken != s.rows[b].claimToken
  {
    ReachableInv(s);
    assert JobAt(s, a) && JobAt(s, b);
  }

  /** Claims are bounded by the retry budget, and every one but the running or last one
      cost a retry. */
  lemma ClaimsBounded(s: State, id: int)
    requires Reachable(s) && id in s.rows
    ensures id in s.past
    ensures var job, past := s.rows[id], s.past[id];
            && past.claims <= Budget(job) + 1
            && (!past.cancelled ==> past.claims == job.retryCount + if job.status == Pending then 0 else 1)
            && past.completions <= 1
  {
    ReachableInv(s);
    assert JobAt(s, id);
  }

  /** The retry counter stays within `max_retries` exactly for jobs created with a
      nonnegative budget; `create_job` does not check the argument. */
  lemma RetriesWithinMaximum(s: State, id: int)
    requires Reachable(s) && id in s.rows
    ensures s.rows[id].retryCount <= s.rows[id].maxRetries <==> s.rows[id].maxRetries >= 0
  {
    ReachableInv(s);
    assert JobAt(s, id);
  }

  lemma NegativeBudgetExceeded()
    ensures var s := After(EMPTY_DB, [Create("t", "m", -1)]);
            Reachable(s) && 1 in s.rows && s.rows[1].retryCount > s.rows[1].maxRetries
  {
    var events := [Create("t", "m", -1)];
    assert events[1..] == [];
    assert After(EMPTY_DB, events) == After(Apply(EMPTY_DB, events[0]).0, []);
  }

  lemma {:induction false} TerminalStep(s: State, e: Event, id: int)
    requires Inv(s) && id in s.rows && Terminal(s.rows[id])
    ensures var s' := Apply(s, e).0; id in s'.rows && s'.rows[id] == s.rows[id]
  {
    assert JobAt(s, id);
  }

  /** Completed and failed are absorbing: nothing ever changes such a row again. */
  lemma {:induction false} TerminalForever(s: State, events: seq<Event>, id: int)
    requires Inv(s) && id in s.rows && Terminal(s.rows[id])
    ensures var s' := After(s, events); id in s'.rows && s'.rows[id] == s.rows[id]
    decreases |events|
  {
    if events == [] {
    } else {
      TerminalStep(s, events[0], id);
      InvStep(s, events[0]);
      TerminalForever(Apply(s, events[0]).0, events[1..], id);
    }
  }

  /** A completion is accepted exactly when the token is the live one, which is then the
      token of the job's latest claim; it is the job's only completion. */
  lemma CompletionAccepted(s: State, id: int, token: Token, success: bool, result: Option<string>,
      error: Option<string>)
    requires Reachable(s) && id > 0
    ensures var (s', reply) := Apply(s, Complete(id, token, success, result, error));
            && (reply == Accepted(true) <==> id in s.rows && s.rows[id].claimToken == Some(token))
            && (reply == Accepted(true) ==>
                  && id in s.past && s.past[id].lastClaim == Some(token) && s.past[id].completions == 0
                  && s'.past[id].completions == 1 && Terminal(s'.rows[id]) && s'.rows[id].result == result)
            && (reply != Accepted(true) ==> s' == s)
  {
    ReachableInv(s);
    if id in s.rows {
      assert JobAt(s, id);
    }
  }

  /** A token that was issued and is not the live token of `id`. */
  ghost predicate Dead(s: State, id: int, token: Token) {
    token < s.supply && (id in s.rows ==> s.rows[id].claimToken != Some(token))
  }

  lemma DeadStep(s: State, e: Event, id: int, token: Token)
    requires Inv(s) && Dead(s, id, token)
    ensures Dead(Apply(s, e).0, id, token)
  {
    if id in s.rows { assert JobAt(s, id); }
  }

  /** A worker whose lease was swept, completed or taken over can never complete the job,
      whatever happens afterwards: tokens are not issued twice. */
  lemma {:induction false} DeadNeverCompletes(
    s: State, events: seq<Event>, id: int, token: Token, success: bool, result: Option<string>, error: Option<string>)
    requires Inv(s) && Dead(s, id, token) && id > 0
    ensures Apply(After(s, events), Complete(id, token, success, result, error)) == (After(s, events), Accepted(false))
    decreases |events|
  {
    if events == [] {
    } else {
      DeadStep(s, events[0], id, token);
      InvStep(s, events[0]);
      DeadNeverCompletes(Apply(s, events[0]).0, events[1..], id, token, success, result, error);
    }
  }

  /** A sweep kills the lease: after any claim that finds the lease expired, the old token
      is dead, and the job is failed or has one retry less. */
  lemma SweptLeaseIsDead(s: State, jobType: string, staleAfter: int, id: int, token: Token)
    requires Reachable(s) && id in s.rows && s.rows[id].claimToken == Some(token)
    requires !Blank(jobType) && 60 <= staleAfter <= 3600
    requires Expired(s.rows[id], Strip(jobType), staleAfter, s.clock)
    ensures var s' := Apply(s, Claim(jobType, staleAfter)).0;
            && Dead(s', id, token)
            && (s.rows[id].retryCount >= s.rows[id].maxRetries ==> s'.rows[id].status == Failed)
            && (s.rows[id].retryCount < s.rows[id].maxRetries ==> s'.rows[id].retryCount == s.rows[id].retryCount + 1)
  {
    ReachableInv(s);
    assert JobAt(s, id);
  }

  /** A claim answers the least waiting job of its type, counting the jobs it requeued, with a
      fresh token; it answers nothing exactly when none waits after the sweep. */
  lemma ClaimPicksLeast(s: State, jobType: string, staleAfter: int)
    requires Reachable(s) && !Blank(jobType) && 60 <= staleAfter <= 3600
    ensures var (s', reply) := Apply(s, Claim(jobType, staleAfter));
            var swept := SweepAll(s.rows, Strip(jobType), staleAfter, s.clock);
            && (reply == NoJob <==> forall id :: !Waiting(swept, id, Strip(jobType)))
            && (reply != NoJob ==>
                  && reply.Claimed? && reply.token == s.supply
                  && Waiting(swept, reply.id, Strip(jobType))
                  && (forall id | Waiting(swept, id, Strip(jobType)) :: reply.id <= id)
                  && s'.rows[reply.id].claimToken == Some(reply.token)
                  && (forall id | id in s.rows && id != reply.id :: s'.rows[id] == swept[id])
                  && (forall id | id in s.rows :: s.rows[id].claimToken != Some(reply.token)))
  {
    ReachableInv(s);
    var swept := SweepAll(s.rows, Strip(jobType), staleAfter, s.clock);
    forall id | Waiting(swept, id, Strip(jobType)) ensures 1 <= id < s.nextId {
      assert id in s.rows;
    }
    forall id | id in s.rows ensures s.rows[id].claimToken != Some(s.supply) {
      assert JobAt(s, id);
    }
  }

  /** The branch that reports a pending job with a token is unreachable. */
  lemma CancelOutcome(s: State, id: int, jobType: string, expected: Digest)
    requires Reachable(s) && 0 < id <= MAX_JOB_ID && !Blank(jobType)
    ensures var (s', reply) := Apply(s, Cancel(id, jobType, expected));
            && reply != NotCancellable
            && (reply == Cancelled <==>
                  id in s.rows && s.rows[id].jobType == Strip(jobType) && s.rows[id].status == Pending &&
                  Sha256(s.rows[id].message) == expected)
            && (reply == Cancelled ==> s'.rows[id].status == Failed && s'.past[id].cancelled)
            && (reply != Cancelled ==> s' == s)
  {
    ReachableInv(s);
    if id in s.rows { assert JobAt(s, id); }
  }

  // ----- which jobs can ever be worked on -----

  lemma StrandedStep(s: State, e: Event, id: int)
    requires Inv(s) && id in s.rows && !Typed(s.rows[id].jobType)
    ensures var s' := Apply(s, e).0; id in s'.rows && s'.rows[id] == s.rows[id]
  {
    assert JobAt(s, id);
    if (e.Claim? || e.Cancel?) && !Blank(e.jobType) { StrippedIsTyped(e.jobType); }
  }

  lemma {:induction false} StrandedForever(s: State, events: seq<Event>, id: int)
    requires Inv(s) && id in s.rows && !Typed(s.rows[id].jobType)
    ensures var s' := After(s, events); id in s'.rows && s'.rows[id] == s.rows[id] && s'.rows[id].status == Pending
    decreases |events|
  {
    assert JobAt(s, id);
    if events == [] {
    } else {
      StrandedStep(s, events[0], id);
      InvStep(s, events[0]);
      StrandedForever(Apply(s, events[0]).0, events[1..], id);
    }
  }

  /** The shortest stale limit that a claim accepts. */
  const SHORTEST_LEASE := 60

  predicate Lapsed(s: State, j: int, jobType: string) {
    j in s.rows && Expired(s.rows[j], jobType, SHORTEST_LEASE, s.clock)
  }

  /** The jobs ahead of `id` that a claim of its type may answer instead. */
  ghost function Ahead(s: State, id: int): set<int>
    requires id in s.rows
  {
    set j | 1 <= j < id && (Waiting(s.rows, j, s.rows[id].jobType) || Lapsed(s, j, s.rows[id].jobType))
  }

  /** A claim of its type runs a waiting job or shortens the queue ahead of it. */
  lemma ClaimAdvances(s: State, id: int)
    requires Inv(s) && id in s.rows && s.rows[id].status == Pending && Typed(s.rows[id].jobType)
    ensures var s' := Apply(s, Claim(s.rows[id].jobType, SHORTEST_LEASE)).0;
            && id in s'.rows && s'.rows[id].jobType == s.rows[id].jobType
            && (s'.rows[id].status == Running || (s'.rows[id] == s.rows[id] && Ahead(s', id) < Ahead(s, id)))
  {
    var jobType := s.rows[id].jobType;
    var swept := SweepAll(s.rows, jobType, SHORTEST_LEASE, s.clock);
    assert Waiting(swept, id, jobType);
    var pick := FirstWaiting(swept, jobType, 1, s.nextId).value;
    if pick < id {
      var s' := ApplyClaim(s, jobType, SHORTEST_LEASE).0;
      assert pick in Ahead(s, id) && pick !in Ahead(s', id);
      assert Ahead(s', id) <= Ahead(s, id);
    }
  }

  lemma ProperSubsetSize(a: set<int>, b: set<int>)
    requires a < b
    ensures |a| < |b|
  {
    assert b == a + (b - a);
  }

  ghost predicate Starts(s: State, events: seq<Event>, id: int) {
    id in After(s, events).rows && After(s, events).rows[id].status == Running
  }

  lemma {:induction false} RunsEventually(s: State, id: int) returns (events: seq<Event>)
    requires Inv(s) && id in s.rows && s.rows[id].status == Pending && Typed(s.rows[id].jobType)
    ensures Starts(s, events, id)
    decreases |Ahead(s, id)|
  {
    var e := Claim(s.rows[id].jobType, SHORTEST_LEASE);
    var s' := Apply(s, e).0;
    ClaimAdvances(s, id);
    if s'.rows[id].status == Running {
      events := [e];
      assert After(s', []) == s';
    } else {
      InvStep(s, e);
      ProperSubsetSize(Ahead(s', id), Ahead(s, id));
      var rest := RunsEventually(s', id);
      events := [e] + rest;
    }
  }

  ghost predicate Changes(s: State, events: seq<Event>, id: int)
    requires id in s.rows
  {
    !(id in After(s, events).rows && After(s, events).rows[id] == s.rows[id])
  }

  /** `create_job` stores the type as given, while every typed operation refuses a blank
      argument and strips any other. A pending job can be started, or changed at all, by some
      sequence of steps exactly when its type is not blank and has no surrounding whitespace. */
  lemma WorkableExactly(s: State, id: int)
    requires Reachable(s) && id in s.rows && s.rows[id].status == Pending
    ensures (exists events :: Starts(s, events, id)) <==> Typed(s.rows[id].jobType)
    ensures (exists events :: Changes(s, events, id)) <==> Typed(s.rows[id].jobType)
  {
    ReachableInv(s);
    if Typed(s.rows[id].jobType) {
      var events := RunsEventually(s, id);
      assert Starts(s, events, id) && Changes(s, events, id);
    } else {
      forall events ensures !Starts(s, events, id) && !Changes(s, events, id) {
        StrandedForever(s, events, id);
      }
    }
  }

  /** An operator can cancel a pending job under the same condition, if its id is in the
      range that the cancellation accepts. */
  lemma CancellableExactly(s: State, id: int)
    requires Reachable(s) && id in s.rows && s.rows[id].status == Pending
    ensures (exists jobType, expected :: Apply(s, Cancel(id, jobType, expected)).1 == Cancelled) <==>
              Typed(s.rows[id].jobType) && id <= MAX_JOB_ID
  {
    ReachableInv(s);
    var job := s.rows[id];
    assert JobAt(s, id);
    if Typed(job.jobType) && id <= MAX_JOB_ID {
      assert Apply(s, Cancel(id, job.jobType, Sha256(job.message))).1 == Cancelled;
    }
    forall jobType, expected | Apply(s, Cancel(id, jobType, expected)).1 == Cancelled
      ensures Typed(job.jobType) && id <= MAX_JOB_ID
    {
      StrippedIsTyped(jobType);
    }
  }

  lemma OneJob(jobType: string) returns (s: State)
    ensures Reachable(s) && 1 in s.rows && s.rows[1].jobType == jobType && s.rows[1].status == Pending
  {
    var events := [Create(jobType, "m", 3)];
    assert events[1..] == [];
    s := After(EMPTY_DB, events);
    assert s == After(Apply(EMPTY_DB, events[0]).0, []);
  }

  ghost predicate Stuck(s: State, events: seq<Event>, id: int) {
    && id in s.rows && s.rows[id].status == Pending
    && id in After(s, events).rows && After(s, events).rows[id] == s.rows[id]
  }

  /** Both ways to miss the condition occur: a leading blank, and an empty type. */
  lemma StrandedJobs(jobType: string) returns (s: State)
    requires jobType in {" t", ""}
    ensures Reachable(s) && 1 in s.rows && s.rows[1].jobType == jobType
    ensures forall events :: Stuck(s, events, 1)
  {
    s := OneJob(jobType);
    ReachableInv(s);
    assert StripLeft(" t") == StripLeft("t");
    assert Strip(" t") != " t";
    forall events ensures Stuck(s, events, 1) {
      StrandedForever(s, events, 1);
    }
  }

  // ----- the operations on the table -----

  /** The first UPDATE of a claim. */
  function FailExhausted(rows: map<int, Job>, jobType: string, staleAfter: int, now: int): map<int, Job> {
    map id | id in rows ::
      if Expired(rows[id], jobType, staleAfter, now) && rows[id].retryCount >= rows[id].maxRetries
      then rows[id].(status := Failed, lastError := Some(TIMED_OUT), claimToken := None, updatedAt := now)
      else rows[id]
  }

  /** The second UPDATE of a claim. */
  function RequeueExpired(rows: map<int, Job>, jobType: string, staleAfter: int, now: int): map<int, Job> {
    map id | id in rows ::
      if Expired(rows[id], jobType, staleAfter, now) && rows[id].retryCount < rows[id].maxRetries
      then rows[id].(status := Pending, claimToken := None, retryCount := rows[id].retryCount + 1, updatedAt := now)
      else rows[id]
  }

  /** Run one after the other, the two statements sweep each job once. */
  lemma SweepIsTwoStatements(rows: map<int, Job>, jobType: string, staleAfter: int, now: int)
    ensures RequeueExpired(FailExhausted(rows, jobType, staleAfter, now), jobType, staleAfter, now)
         == SweepAll(rows, jobType, staleAfter, now)
  {
    var first := FailExhausted(rows, jobType, staleAfter, now);
    var both := RequeueExpired(first, jobType, staleAfter, now);
    var swept := SweepAll(rows, jobType, staleAfter, now);
    assert both.Keys == rows.Keys == swept.Keys;
    forall id | id in rows ensures both[id] == swept[id] {
      assert both[id].retryCount == swept[id].retryCount;
    }
  }

  class JobDb {
    var rows: map<int, Job>
    var nextId: int
    var clock: int
    var supply: Token
    ghost var past: map<int, History>

    ghost function Abs(): State
      reads this
    {
      State(rows, past, nextId, clock, supply)
    }

    constructor ()
      ensures Abs() == EMPTY_DB
    {
      rows, past, nextId, clock, supply := map[], map[], 1, 0, 0;
    }

    /** The `Tick` step: time passes between two calls. No code of the queue does this. */
    method Sleep(seconds: nat)
      modifies `clock
      ensures (Abs(), Ticked) == Apply(old(Abs()), Tick(seconds))
    {
      clock := clock + seconds;
    }

    method CreateJob(jobType: string, message: string, maxRetries: int) returns (id: int)
      modifies this
      ensures (Abs(), Created(id)) == Apply(old(Abs()), Create(jobType, message, maxRetries))
    {
      id := nextId;
      rows := rows[id := Job(jobType, message, Pending, 0, maxRetries, None, None, None, clock)];
      past := past[id := NEW_HISTORY];
      nextId := nextId + 1;
    }

    method ClaimPendingJobByType(jobType: string, staleAfter: int) returns (reply: Reply)
      modifies this
      ensures (Abs(), reply) == Apply(old(Abs()), Claim(jobType, staleAfter))
    {
      if Blank(jobType) || staleAfter < 60 || staleAfter > 3600 {
        return InvalidArgument;
      }
      var wanted := Strip(jobType);
      var token := supply;
      supply := supply + 1;
      ghost var swept := SweepAll(rows, wanted, staleAfter, clock);
      SweepIsTwoStatements(rows, wanted, staleAfter, clock);
      rows := FailExhausted(rows, wanted, staleAfter, clock);
      rows := RequeueExpired(rows, wanted, staleAfter, clock);
      var id := 1;
      while id < nextId && !Waiting(rows, id, wanted)
        invariant FirstWaiting(rows, wanted, 1, nextId) == FirstWaiting(rows, wanted, id, nextId)
      {
        id := id + 1;
      }
      if id >= nextId {
        return NoJob;
      }
      rows := rows[id := rows[id].(status := Running, claimToken := Some(token), updatedAt := clock)];
      ghost var h := if id in past then past[id] else NEW_HISTORY;
      past := past[id := h.(claims := h.claims + 1, lastClaim := Some(token))];
      return Claimed(id, token);
    }

    method CompleteClaimedJob(id: int, token: Token, success: bool, result: Option<string>, error: Option<string>)
      returns (reply: Reply)
      modifies this
      ensures (Abs(), reply) == Apply(old(Abs()), Complete(id, token, success, result, error))
    {
      if id <= 0 {
        return InvalidArgument;
      }
      if id !in rows || rows[id].status != Running || rows[id].claimToken != Some(token) {
        return Accepted(false);
      }
      rows := rows[id := rows[id].(status := if success then Completed else Failed, result := result,
                                   lastError := error, claimToken := None, updatedAt := clock)];
      ghost var h := if id in past then past[id] else NEW_HISTORY;
      past := past[id := h.(completions := h.completions + 1)];
      return Accepted(true);
    }

    method CancelPendingJobByType(id: int, jobType: string, expected: Digest) returns (reply: Reply)
      modifies this
      ensures (Abs(), reply) == Apply(old(Abs()), Cancel(id, jobType, expected))
    {
      if id <= 0 || id > MAX_JOB_ID || Blank(jobType) {
        return InvalidArgument;
      }
      if id !in rows || rows[id].jobType != Strip(jobType) {
        return NotFound;
      }
      var job := rows[id];
      if Sha256(job.message) != expected {
        return MessageMismatch;
      }
      if job.status != Pending {
        return NotPending;
      }
      if job.claimToken.Some? {
        return NotCancellable;
      }
      rows := rows[id := job.(status := Failed, lastError := Some(OPERATOR_CANCEL), claimToken := None,
          updatedAt := clock)];
      ghost var h := if id in past then past[id] else NEW_HISTORY;
      past := past[id := h.(cancelled := true)];
      return Cancelled;
    }
  }
}
