/** The process-wide wake ownership of the MCP client (mcp_client.py): any number of threads
    call the server, and at most one of them runs the wake and retry loop of a hibernating
    service. */
module HibernateWake {
  import opened Text

  datatype Settings = Settings(maxWait: nat, interval: nat)

  /** What one HTTP request comes back with: the router's hibernation answer, a failure to
      connect, a broken exchange, or a response of the application. */
  datatype Reply = RateLimited | ConnectFails | Breaks | Response(status: nat)

  datatype Outcome =
    | CooldownActive | WakeInProgress | DeadlineExceeded | NotReady
    | ConnectFailed | Broken | GotResponse(status: nat)

  /** Where a call stands: each constructor names the operation it does next. Reading the
      clock for the claim and taking the lock are two operations. */
  datatype Pc =
    | Outside
    | Entered(deadline: int)
    | Posting(deadline: int, owns: bool)
    | ReadingClock(deadline: int)
    | Claiming(deadline: int, seen: int)
    | Checking(deadline: int)
    | Waking(deadline: int)
    | CheckingAgain(deadline: int)
    | Releasing(cooldown: nat, outcome: Outcome)
    | Ended(outcome: Outcome)

  datatype Event =
    | Enter(now: int) | CheckCooldown(active: bool) | Post(reply: Reply) | ReadClock(now: int)
    | Claim(granted: bool) | Check(now: int) | Wake(ready: bool) | CheckAgain(now: int) | Release(now: int)

  /** A response that is not the hibernation answer leaves the loop without a cooldown; an
      exception leaves it with the retry interval as cooldown. */
  function AfterPost(cfg: Settings, deadline: int, owns: bool, reply: Reply): Pc {
    match reply
    case RateLimited => if owns then Checking(deadline) else ReadingClock(deadline)
    case Response(status) => if owns then Releasing(0, GotResponse(status)) else Ended(GotResponse(status))
    case ConnectFails => if owns then Releasing(cfg.interval, ConnectFailed) else Ended(ConnectFailed)
    case Breaks => if owns then Releasing(cfg.interval, Broken) else Ended(Broken)
  }

  /** One step of a call; `None` when the event cannot happen there. */
  function Local(cfg: Settings, pc: Pc, e: Event): Option<Pc> {
    match (pc, e)
    case (Outside, Enter(now)) => Some(Entered(now + cfg.maxWait))
    case (Entered(d), CheckCooldown(active)) => Some(if active then Ended(CooldownActive) else Posting(d, false))
    case (Posting(d, owns), Post(reply)) => Some(AfterPost(cfg, d, owns, reply))
    case (ReadingClock(d), ReadClock(now)) => Some(Claiming(d, now))
    case (Claiming(d, _), Claim(granted)) => Some(if granted then Checking(d) else Ended(WakeInProgress))
    case (Checking(d), Check(now)) =>
      Some(if d - now <= 0 then Releasing(cfg.interval, DeadlineExceeded) else Waking(d))
    case (Waking(d), Wake(ready)) => Some(if ready then CheckingAgain(d) else Releasing(cfg.interval, NotReady))
    case (CheckingAgain(d), CheckAgain(now)) =>
      Some(if now >= d then Releasing(cfg.interval, DeadlineExceeded) else Posting(d, true))
    case (Releasing(_, outcome), Release(_)) => Some(Ended(outcome))
    case _ => None
  }

  // ----- the shared state -----

  /** The two module globals. */
  datatype Globals = Globals(owner: bool, cooldownUntil: int)

  predicate Busy(g: Globals, now: int) {
    now < g.cooldownUntil || g.owner
  }

  /** The effect of an event on the globals. */
  function Effect(pc: Pc, g: Globals, e: Event): Globals {
    match e
    case Claim(granted) => if granted then g.(owner := true) else g
    case Release(now) => if pc.Releasing? then Globals(false, now + pc.cooldown) else g
    case _ => g
  }

  /** A finished period of ownership; no claim may succeed before `freeAt`. */
  datatype Spell = Spell(thread: nat, claimedAt: int, releasedAt: int, freeAt: int)

  /** `claimedAt` and `spells` record the history; they have no influence on any step. */
  datatype State = State(g: Globals, clock: int, threads: map<nat, Pc>, claimedAt: int, spells: seq<Spell>) {
    function At(t: nat): Pc {
      if t in threads then threads[t] else Outside
    }
  }

  datatype Move = Tick(seconds: nat) | Act(thread: nat, event: Event)

  /** What a thread observes is what is there at that moment. */
  predicate Observes(s: State, pc: Pc, e: Event) {
    match e
    case CheckCooldown(active) => active == Busy(s.g, s.clock)
    case Claim(granted) => pc.Claiming? ==> granted == !Busy(s.g, pc.seen)
    case Enter(now) => now == s.clock
    case ReadClock(now) => now == s.clock
    case Check(now) => now == s.clock
    case CheckAgain(now) => now == s.clock
    case Release(now) => now == s.clock
    case _ => true
  }

  function Remember(s: State, t: nat, e: Event): State {
    var g := Effect(s.At(t), s.g, e);
    match e
    case Claim(granted) => s.(g := g, claimedAt := if granted then s.clock else s.claimedAt)
    case Release(now) => s.(g := g, spells := s.spells + [Spell(t, s.claimedAt, now, g.cooldownUntil)])
    case _ => s.(g := g)
  }

  function Next(cfg: Settings, s: State, m: Move): Option<State> {
    match m
    case Tick(seconds) => Some(s.(clock := s.clock + seconds))
    case Act(t, e) =>
      var pc := Local(cfg, s.At(t), e);
      if pc.Some? && Observes(s, s.At(t), e)
      then Some(Remember(s, t, e).(threads := s.threads[t := pc.value]))
      else None
  }

  function Start(clock: int): State {
    State(Globals(false, clock), clock, map[], clock, [])
  }

  function After(cfg: Settings, s: State, moves: seq<Move>): Option<State>
    decreases |moves|
  {
    if moves == [] then Some(s)
    else
      var next := Next(cfg, s, moves[0]);
      if next.Some? then After(cfg, next.value, moves[1..]) else None
  }

  // ----- ownership over every interleaving -----

  /** Between its claim and its release. */
  predicate Owns(pc: Pc) {
    || (pc.Posting? && pc.owns)
    || pc.Checking? || pc.Waking? || pc.CheckingAgain? || pc.Releasing?
  }

  ghost predicate Holder(s: State, t: nat) {
    Owns(s.At(t))
  }

  ghost predicate SoleHolder(s: State) {
    && (s.g.owner <==> exists t :: Holder(s, t))
    && forall t, u :: Holder(s, t) && Holder(s, u) ==> t == u
  }

  ghost predicate ReadPast(s: State, t: nat) {
    s.At(t).Claiming? ==> s.At(t).seen <= s.clock
  }

  ghost predicate ClocksRead(s: State) {
    forall t: nat :: ReadPast(s, t)
  }

  predicate SpellAt(spells: seq<Spell>, i: nat)
    requires i < |spells|
  {
    && spells[i].claimedAt <= spells[i].releasedAt <= spells[i].freeAt
    && (i > 0 ==> spells[i - 1].freeAt <= spells[i].claimedAt)
  }

  ghost predicate History(s: State) {
    && s.claimedAt <= s.clock
    && (forall i | 0 <= i < |s.spells| :: SpellAt(s.spells, i))
    && (s.spells != [] ==> s.spells[|s.spells| - 1].freeAt == s.g.cooldownUntil)
    && (s.g.owner ==> s.g.cooldownUntil <= s.claimedAt)
  }

  ghost predicate Inv(s: State) {
    SoleHolder(s) && ClocksRead(s) && History(s)
  }

  lemma ActKeepsHolder(cfg: Settings, s: State, t: nat, e: Event, s': State)
    requires SoleHolder(s) && Next(cfg, s, Act(t, e)) == Some(s')
    ensures SoleHolder(s')
  {
    forall u: nat | u != t ensures s'.At(u) == s.At(u) {}
    assert Holder(s, t) ==> s.g.owner;
    if s'.g.owner {
      if Holder(s', t) {
      } else {
        var u :| Holder(s, u);
        assert Holder(s', u);
      }
    }
    forall u, v | Holder(s', u) && Holder(s', v) ensures u == v && s'.g.owner {
      assert u != t ==> Holder(s, u);
      assert v != t ==> Holder(s, v);
    }
  }

  lemma ActKeepsHistory(cfg: Settings, s: State, t: nat, e: Event, s': State)
    requires Inv(s) && Next(cfg, s, Act(t, e)) == Some(s')
    ensures History(s')
  {
    assert ReadPast(s, t);
    assert Holder(s, t) ==> s.g.owner;
    forall i | 0 <= i < |s'.spells| ensures SpellAt(s'.spells, i) {
      if i < |s.spells| {
        assert SpellAt(s.spells, i);
      }
    }
  }

  lemma InvStep(cfg: Settings, s: State, m: Move, s': State)
    requires Inv(s) && Next(cfg, s, m) == Some(s')
    ensures Inv(s')
  {
    match m
    case Tick(seconds) =>
      forall t: nat ensures ReadPast(s', t) && (Holder(s', t) <==> Holder(s, t)) {
        assert ReadPast(s, t) && s'.At(t) == s.At(t);
      }
    case Act(t, e) =>
      ActKeepsHolder(cfg, s, t, e, s');
      ActKeepsHistory(cfg, s, t, e, s');
      forall u: nat ensures ReadPast(s', u) {
        assert ReadPast(s, u);
      }
  }

  lemma {:induction false} InvAfter(cfg: Settings, s: State, moves: seq<Move>, s': State)
    requires Inv(s) && After(cfg, s, moves) == Some(s')
    ensures Inv(s')
    decreases |moves|
  {
    if moves == [] {
    } else {
      var next := Next(cfg, s, moves[0]).value;
      InvStep(cfg, s, moves[0], next);
      InvAfter(cfg, next, moves[1..], s');
    }
  }

  ghost predicate Reachable(cfg: Settings, s: State) {
    exists clock, moves :: After(cfg, Start(clock), moves) == Some(s)
  }

  lemma ReachableInv(cfg: Settings, s: State)
    requires Reachable(cfg, s)
    ensures Inv(s)
  {
    var clock, moves :| After(cfg, Start(clock), moves) == Some(s);
    assert forall t: nat :: !Holder(Start(clock), t) && ReadPast(Start(clock), t);
    InvAfter(cfg, Start(clock), moves, s);
  }

  /** The flag is set exactly while one thread is between its claim and its release, and
      two wake loops never overlap. */
  lemma OneWakeAtATime(cfg: Settings, s: State)
    requires Reachable(cfg, s)
    ensures s.g.owner <==> exists t :: Holder(s, t)
    ensures forall t, u :: Holder(s, t) && Holder(s, u) ==> t == u
  {
    ReachableInv(cfg, s);
  }

  /** Only the thread that owns the wake clears the flag, and it ends its call by that step;
      only a granted claim sets it, at a moment when the flag is clear and no cooldown runs,
      although the claim looks at a clock value read before it took the lock. */
  lemma FlagChanges(cfg: Settings, s: State, m: Move, s': State)
    requires Reachable(cfg, s) && Next(cfg, s, m) == Some(s')
    ensures s.g.owner && !s'.g.owner ==>
              m.Act? && m.event.Release? && Holder(s, m.thread) && s'.At(m.thread).Ended?
    ensures !s.g.owner && s'.g.owner ==>
              m == Act(m.thread, Claim(true)) && Holder(s', m.thread) && s.g.cooldownUntil <= s.clock
    ensures m.Act? && m.event.Release? ==> s.g.owner && Holder(s, m.thread)
  {
    ReachableInv(cfg, s);
    if m.Act? {
      assert ReadPast(s, m.thread);
      assert Holder(s, m.thread) ==> s.g.owner;
    }
  }

  /** Ownership is freed on every exit path. */
  lemma FreedOnExit(cfg: Settings, s: State)
    requires Reachable(cfg, s)
    requires forall t: nat :: s.At(t).Outside? || s.At(t).Ended?
    ensures !s.g.owner
  {
    ReachableInv(cfg, s);
    forall t: nat ensures !Holder(s, t) {
      assert s.At(t).Outside? || s.At(t).Ended?;
    }
  }

  lemma {:induction false} SpellsOrdered(spells: seq<Spell>, i: nat, j: nat)
    requires forall k | 0 <= k < |spells| :: SpellAt(spells, k)
    requires i < j < |spells|
    ensures spells[i].claimedAt <= spells[i].releasedAt <= spells[i].freeAt <= spells[j].claimedAt
    decreases j - i
  {
    assert SpellAt(spells, i) && SpellAt(spells, j) && SpellAt(spells, i + 1);
    if i + 1 < j {
      SpellsOrdered(spells, i + 1, j);
    }
  }

  /** Over a whole run the periods of ownership follow one another, each one starting only
      after the cooldown that the previous one left behind. */
  lemma SpellsDisjoint(cfg: Settings, s: State, i: nat, j: nat)
    requires Reachable(cfg, s) && i < j < |s.spells|
    ensures s.spells[i].claimedAt <= s.spells[i].releasedAt <= s.spells[i].freeAt <= s.spells[j].claimedAt
  {
    ReachableInv(cfg, s);
    SpellsOrdered(s.spells, i, j);
  }

  // ----- one call on its own -----

  /** Where a call stands after `events`; `None` when they are not a run of one call. */
  function Trace(cfg: Settings, events: seq<Event>): Option<Pc>
    decreases |events|
  {
    if events == [] then Some(Outside)
    else
      var before := Trace(cfg, events[..|events| - 1]);
      if before.Some? then Local(cfg, before.value, events[|events| - 1]) else None
  }

  function Count(events: seq<Event>, p: Event -> bool): nat {
    if events == [] then 0
    else Count(events[..|events| - 1], p) + if p(events[|events| - 1]) then 1 else 0
  }

  /** The request may have reached the application. */
  predicate Reaches(e: Event) {
    e.Post? && (e.reply.Response? || e.reply.Breaks?)
  }

  predicate Granted(e: Event) {
    e == Claim(true)
  }

  predicate Frees(e: Event) {
    e.Release?
  }

  function OutcomeAt(pc: Pc): Option<Outcome> {
    if pc.Releasing? || pc.Ended? then Some(pc.outcome) else None
  }

  predicate Delivered(o: Option<Outcome>) {
    o.Some? && (o.value.GotResponse? || o.value.Broken?)
  }

  /** At most one request of a call may have reached the application, and the outcome tells
      whether one did. */
  lemma {:induction false} DeliveredAtMostOnce(cfg: Settings, events: seq<Event>)
    requires Trace(cfg, events).Some?
    ensures Count(events, Reaches) == if Delivered(OutcomeAt(Trace(cfg, events).value)) then 1 else 0
    decreases |events|
  {
    if events == [] {
    } else {
      DeliveredAtMostOnce(cfg, events[..|events| - 1]);
    }
  }

  /** A call claims at most once and, when it has ended, has released as often as claimed. */
  lemma {:induction false} ClaimsAreReleased(cfg: Settings, events: seq<Event>)
    requires Trace(cfg, events).Some?
    ensures Count(events, Granted) == Count(events, Frees) + if Owns(Trace(cfg, events).value) then 1 else 0
    ensures Count(events, Granted) <= 1
    ensures Trace(cfg, events).value.Ended? || Count(events, Frees) == 0
    decreases |events|
  {
    if events == [] {
    } else {
      ClaimsAreReleased(cfg, events[..|events| - 1]);
    }
  }

  // ----- the classification of failures -----

  datatype Delivery = NotDelivered | Rejected | Ambiguous

  datatype Failure = McpNotReady | Connect | Status(code: nat, hibernating: bool) | Other

  /** `classify_mcp_failure`. */
  function Classify(f: Failure): Delivery {
    match f
    case McpNotReady => NotDelivered
    case Connect => NotDelivered
    case Status(code, hibernating) =>
      if code == 429 && hibernating then NotDelivered
      else if 400 <= code < 500 then Rejected
      else Ambiguous
    case Other => Ambiguous
  }

  /** The exception that an outcome raises; none for a successful response. */
  function Raised(o: Outcome): Option<Failure> {
    match o
    case CooldownActive => Some(McpNotReady)
    case WakeInProgress => Some(McpNotReady)
    case DeadlineExceeded => Some(McpNotReady)
    case NotReady => Some(McpNotReady)
    case ConnectFailed => Some(Connect)
    case Broken => Some(Other)
    case GotResponse(status) => if 200 <= status < 300 then None else Some(Status(status, false))
  }

  /** "not delivered" is what a failure is called exactly when no request of the call may
      have reached the application; "rejected" means that the application refused. */
  lemma ClassificationSound(cfg: Settings, events: seq<Event>, o: Outcome)
    requires Trace(cfg, events) == Some(Ended(o)) && Raised(o).Some?
    ensures Classify(Raised(o).value) == NotDelivered <==> Count(events, Reaches) == 0
    ensures Classify(Raised(o).value) == Rejected <==> o.GotResponse? && 400 <= o.status < 500
  {
    DeliveredAtMostOnce(cfg, events);
  }

  // ----- the code -----

  /** The module globals and the three functions that touch them under the lock. */
  class WakeState {
    var owner: bool
    var cooldownUntil: int

    function Abs(): Globals
      reads this
    {
      Globals(owner, cooldownUntil)
    }

    method ClaimHibernateWake(now: int, deadline: int) returns (granted: bool)
      modifies this
      ensures granted == !Busy(old(Abs()), now)
      ensures Abs() == Effect(Claiming(deadline, now), old(Abs()), Claim(granted))
    {
      if now < cooldownUntil || owner {
        return false;
      }
      owner := true;
      return true;
    }

    method ReleaseHibernateWake(cooldown: int, now: int, outcome: Outcome)
      modifies this
      ensures cooldown >= 0 ==> Abs() == Effect(Releasing(cooldown, outcome), old(Abs()), Release(now))
      ensures Abs() == Globals(false, now + if cooldown > 0 then cooldown else 0)
    {
      owner := false;
      cooldownUntil := now + if cooldown > 0 then cooldown else 0;
    }

    method HibernateCooldownActive(now: int) returns (active: bool)
      ensures active == Busy(Abs(), now)
    {
      return now < cooldownUntil || owner;
    }
  }

  /** Everything that a call observes of the rest of the world, by the number of operations
      made before: clock readings, request results, and the globals as other threads leave
      them. */
  datatype World = World(clock: nat -> int, reply: nat -> Reply, ready: nat -> bool, globals: nat -> Globals) {
    /** The clock never goes back, and every instant is reached in the end; it may show the
        same value any number of times. */
    ghost predicate Monotonic() {
      && (forall n: nat, m: nat | n <= m :: clock(n) <= clock(m))
      && (forall instant: int :: Reached(instant))
    }

    ghost predicate Reached(instant: int) {
      exists n: nat :: clock(n) >= instant
    }
  }

  /** Operation `i`, made at `pc`, goes the way the world says. */
  predicate Meets(w: World, i: nat, pc: Pc, e: Event) {
    match e
    case Enter(now) => now == w.clock(i)
    case CheckCooldown(active) => active == Busy(w.globals(i), w.clock(i))
    case Post(reply) => reply == w.reply(i)
    case ReadClock(now) => now == w.clock(i)
    case Claim(granted) => pc.Claiming? && granted == !Busy(w.globals(i), pc.seen)
    case Check(now) => now == w.clock(i)
    case Wake(ready) => ready == w.ready(i)
    case CheckAgain(now) => now == w.clock(i)
    case Release(now) => now == w.clock(i)
  }

  ghost predicate Step(cfg: Settings, w: World, i: nat, before: Pc, e: Event, pc: Pc) {
    Meets(w, i, before, e) && Local(cfg, before, e) == Some(pc)
  }

  /** `events` led to `pc`, and every one of them went the way the world says. */
  ghost predicate Ran(cfg: Settings, w: World, events: seq<Event>, pc: Pc)
    decreases |events|
  {
    if events == [] then pc == Outside
    else
      var n := |events| - 1;
      exists before :: Step(cfg, w, n, before, events[n], pc) && Ran(cfg, w, events[..n], before)
  }

  /** A run in some world is a run of the protocol. */
  lemma {:induction false} RanIsTrace(cfg: Settings, w: World, events: seq<Event>, pc: Pc)
    requires Ran(cfg, w, events, pc)
    ensures Trace(cfg, events) == Some(pc)
    decreases |events|
  {
    if events == [] {
    } else {
      var n := |events| - 1;
      var before :| Step(cfg, w, n, before, events[n], pc) && Ran(cfg, w, events[..n], before);
      RanIsTrace(cfg, w, events[..n], before);
    }
  }

  method Record(cfg: Settings, w: World, events: seq<Event>, ghost pc: Pc, e: Event) returns (longer: seq<Event>)
    requires Ran(cfg, w, events, pc) && Local(cfg, pc, e).Some? && Meets(w, |events|, pc, e)
    ensures longer == events + [e] && Ran(cfg, w, longer, Local(cfg, pc, e).value)
  {
    longer := events + [e];
    assert longer[..|events|] == events;
    assert Step(cfg, w, |events|, pc, e, Local(cfg, pc, e).value);
  }

  /** Fix the deadline and look whether a cooldown or another wake is under way. */
  method Begin(cfg: Settings, w: World, state: WakeState) returns (active: bool, events: seq<Event>)
    modifies state
    ensures Ran(cfg, w, events, if active then Ended(CooldownActive) else Posting(w.clock(0) + cfg.maxWait, false))
    ensures Claim(true) !in events
  {
    events := Record(cfg, w, [], Outside, Enter(w.clock(0)));
    state.owner, state.cooldownUntil := w.globals(1).owner, w.globals(1).cooldownUntil;
    active := state.HibernateCooldownActive(w.clock(1));
    events := Record(cfg, w, events, Entered(w.clock(0) + cfg.maxWait), CheckCooldown(active));
  }

  /** Wait until the service is ready; the waiting counts against the same deadline. */
  method WaitForWake(cfg: Settings, w: World, deadline: int, before: seq<Event>)
    returns (pc: Pc, events: seq<Event>)
    requires Ran(cfg, w, before, Checking(deadline))
    ensures Ran(cfg, w, events, pc)
    ensures pc == Posting(deadline, true) || pc.Releasing?
    ensures pc.Posting? ==> |events| == |before| + 3 && w.clock(|before|) < deadline
  {
    var now := w.clock(|before|);
    events := Record(cfg, w, before, Checking(deadline), Check(now));
    if deadline - now <= 0 {
      return Releasing(cfg.interval, DeadlineExceeded), events;
    }
    var ready := w.ready(|events|);
    events := Record(cfg, w, events, Waking(deadline), Wake(ready));
    if !ready {
      return Releasing(cfg.interval, NotReady), events;
    }
    now := w.clock(|events|);
    events := Record(cfg, w, events, CheckingAgain(deadline), CheckAgain(now));
    pc := if now >= deadline then Releasing(cfg.interval, DeadlineExceeded) else Posting(deadline, true);
  }

  /** The retry loop of the thread that owns the wake. It ends because the clock reaches the
      deadline. */
  method RetryLoop(cfg: Settings, w: World, deadline: int, before: seq<Event>)
    returns (outcome: Outcome, cooldown: nat, events: seq<Event>)
    requires w.Monotonic() && Ran(cfg, w, before, Checking(deadline))
    ensures Ran(cfg, w, events, Releasing(cooldown, outcome))
  {
    events := before;
    assert w.Reached(deadline);
    ghost var limit: nat :| w.clock(limit) >= deadline;
    while true
      invariant Ran(cfg, w, events, Checking(deadline))
      decreases limit - |events|
    {
      var pc;
      pc, events := WaitForWake(cfg, w, deadline, events);
      if pc.Releasing? {
        return pc.outcome, pc.cooldown, events;
      }
      var reply := w.reply(|events|);
      events := Record(cfg, w, events, Posting(deadline, true), Post(reply));
      if !reply.RateLimited? {
        var stop := AfterPost(cfg, deadline, true, reply);
        return stop.outcome, stop.cooldown, events;
      }
    }
  }

  method Own(cfg: Settings, w: World, state: WakeState, deadline: int, before: seq<Event>)
    returns (outcome: Outcome, events: seq<Event>)
    requires state.owner && w.Monotonic() && Ran(cfg, w, before, Checking(deadline))
    modifies state
    ensures Ran(cfg, w, events, Ended(outcome)) && !state.owner
  {
    var cooldown;
    outcome, cooldown, events := RetryLoop(cfg, w, deadline, before);
    var now := w.clock(|events|);
    state.ReleaseHibernateWake(cooldown, now, outcome);
    events := Record(cfg, w, events, Releasing(cooldown, outcome), Release(now));
  }

  /** The first hibernation answer: claim the wake, or leave it to the thread that has it. */
  method Contend(cfg: Settings, w: World, state: WakeState, deadline: int, before: seq<Event>)
    returns (outcome: Outcome, events: seq<Event>)
    requires w.Monotonic() && Ran(cfg, w, before, ReadingClock(deadline)) && Claim(true) !in before
    modifies state
    ensures Ran(cfg, w, events, Ended(outcome))
    ensures Claim(true) in events ==> !state.owner
  {
    var now := w.clock(|before|);
    events := Record(cfg, w, before, ReadingClock(deadline), ReadClock(now));
    var found := w.globals(|events|);
    state.owner, state.cooldownUntil := found.owner, found.cooldownUntil;
    var granted := state.ClaimHibernateWake(now, deadline);
    events := Record(cfg, w, events, Claiming(deadline, now), Claim(granted));
    if !granted {
      return WakeInProgress, events;
    }
    outcome, events := Own(cfg, w, state, deadline, events);
  }

  method Request(cfg: Settings, w: World, state: WakeState, deadline: int, before: seq<Event>)
    returns (outcome: Outcome, events: seq<Event>)
    requires w.Monotonic() && Ran(cfg, w, before, Posting(deadline, false)) && Claim(true) !in before
    modifies state
    ensures Ran(cfg, w, events, Ended(outcome))
    ensures Claim(true) in events ==> !state.owner
  {
    var reply := w.reply(|before|);
    events := Record(cfg, w, before, Posting(deadline, false), Post(reply));
    if reply.RateLimited? {
      outcome, events := Contend(cfg, w, state, deadline, events);
    } else {
      outcome := AfterPost(cfg, deadline, false, reply).outcome;
    }
  }

  /** `_call_mcp_tool_once` up to the response. When it ends, the thread has left the wake
      free if it had claimed it. */
  method CallMcpToolOnce(cfg: Settings, w: World, state: WakeState) returns (outcome: Outcome, events: seq<Event>)
    requires w.Monotonic()
    modifies state
    ensures Ran(cfg, w, events, Ended(outcome))
    ensures Claim(true) in events ==> !state.owner
  {
    var active;
    active, events := Begin(cfg, w, state);
    if active {
      outcome := CooldownActive;
    } else {
      outcome, events := Request(cfg, w, state, w.clock(0) + cfg.maxWait, events);
    }
  }
}
