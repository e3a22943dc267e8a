/** The fail-closed note save (note_save_guard.py) as a protocol between any number of
    callers saving the same user and body, the claim row of that key, and a server that may
    store a note and lose the reply, refuse, never receive or answer ambiguously. */
module NoteSave {
  import opened Text

  datatype Status = Saved | AlreadyExists | FailedStatus | UnknownStatus

  /** The TTL of a claim and the number of attempts, as bounded by the environment reader. */
  datatype Config = Config(ttl: int, maxAttempts: nat) {
    predicate Valid() {
      ttl >= 1 && 1 <= maxAttempts <= 2
    }
  }

  // ----- the control flow of one call -----

  /** What a `save_note` request comes back with. */
  datatype Reply = SavedText | DuplicateText | ErrorText | OtherText | NotDelivered | Rejected | Ambiguous

  /** Where a call stands: each constructor names the operation it does next. */
  datatype Pc =
    | Claiming
    | BlockedWaiting | BlockedReading | BlockedReleasing
    | Waiting | AbortReleasing
    | Sending(attempt: nat) | AwaitingReply(attempt: nat)
    | MarkingThenReading | ReadingAfterMark
    | ReadingAfterSaved | ReadingAfterError | MarkingThenDone
    | SavedReleasing | DuplicateReleasing | FailedReleasing
    | Done(status: Status)

  datatype Event =
    | SessionFails | ClaimWon | ClaimBlocked | Ready(ok: bool) | WaitFails | Read(present: Option<bool>)
    | Send | Answer(reply: Reply) | Released | Marked | DbFails

  function AfterReply(cfg: Config, attempt: nat, reply: Reply): Pc {
    match reply
    case NotDelivered => if attempt + 1 < cfg.maxAttempts then Sending(attempt + 1) else FailedReleasing
    case Rejected => FailedReleasing
    case Ambiguous => MarkingThenReading
    case SavedText => ReadingAfterSaved
    case DuplicateText => DuplicateReleasing
    case ErrorText => ReadingAfterError
    case OtherText => MarkingThenReading
  }

  /** The operations on the claim table; an error there ends the call with FAILED. */
  predicate TouchesDb(pc: Pc) {
    || pc.Claiming? || pc.BlockedReleasing? || pc.AbortReleasing? || pc.MarkingThenReading?
    || pc.MarkingThenDone? || pc.SavedReleasing? || pc.DuplicateReleasing? || pc.FailedReleasing?
  }

  /** One step of the call; `None` when the event cannot happen there. */
  function Local(cfg: Config, pc: Pc, e: Event): Option<Pc> {
    match (pc, e)
    case (Claiming, SessionFails) => Some(Done(FailedStatus))
    case (Claiming, ClaimWon) => Some(Waiting)
    case (Claiming, ClaimBlocked) => Some(BlockedWaiting)
    case (BlockedWaiting, Ready(ok)) => Some(if ok then BlockedReading else Done(UnknownStatus))
    case (BlockedReading, Read(present)) =>
      Some(if present == Some(true) then BlockedReleasing else Done(UnknownStatus))
    case (BlockedReleasing, Released) => Some(Done(Saved))
    case (Waiting, Ready(ok)) => Some(if ok then Sending(0) else AbortReleasing)
    case (BlockedWaiting, WaitFails) => Some(Done(FailedStatus))
    case (Waiting, WaitFails) => Some(Done(FailedStatus))
    case (AbortReleasing, Released) => Some(Done(FailedStatus))
    case (Sending(k), Send) => Some(AwaitingReply(k))
    case (AwaitingReply(k), Answer(reply)) => Some(AfterReply(cfg, k, reply))
    case (MarkingThenReading, Marked) => Some(ReadingAfterMark)
    case (ReadingAfterMark, Read(present)) =>
      Some(if present == Some(true) then SavedReleasing else Done(UnknownStatus))
    case (ReadingAfterSaved, Read(present)) => Some(if present == Some(true) then SavedReleasing else MarkingThenDone)
    case (ReadingAfterError, Read(present)) =>
      Some(if present == Some(true) then SavedReleasing
           else if present == Some(false) then FailedReleasing
           else MarkingThenDone)
    case (MarkingThenDone, Marked) => Some(Done(UnknownStatus))
    case (SavedReleasing, Released) => Some(Done(Saved))
    case (DuplicateReleasing, Released) => Some(Done(AlreadyExists))
    case (FailedReleasing, Released) => Some(Done(FailedStatus))
    case (_, DbFails) => if TouchesDb(pc) then Some(Done(FailedStatus)) else None
    case _ => None
  }

  /** The database operations before which the call's own save may have been stored. */
  predicate MayHaveStored(pc: Pc) {
    pc.MarkingThenReading? || pc.MarkingThenDone? || pc.SavedReleasing?
  }

  // ----- the shared state -----

  datatype RowState = InFlight | UnknownOutcome

  datatype Row = Row(state: RowState, updatedAt: int)

  /** How the server dealt with the current request of a caller. */
  datatype Fate = Open | StoredIt | FoundDuplicate | Errored | NeverReceived

  /** `reached` counts the requests that the server received, `applied` those that stored
      the note, `hidden` records a failure of the local database at a place where the save
      may have been stored. */
  datatype Caller = Caller(pc: Pc, fate: Fate, reached: nat, applied: bool, hidden: bool)

  /** `live` holds the callers whose last request the server may still receive and apply,
      whether or not the caller waits for it. `overtaken` records that a stale claim was
      taken over while a caller that had claimed the key could still save. */
  datatype State = State(
    row: Option<Row>, stored: bool, live: set<nat>, callers: map<nat, Caller>, clock: int, overtaken: bool)

  datatype Move =
    | Enter(c: nat)
    | Do(c: nat, event: Event)
    | Serve(c: nat, store: bool)
    | Lose(c: nat)
    | Tick(seconds: nat)

  predicate Stale(cfg: Config, row: Row, now: int) {
    row.updatedAt < now - cfg.ttl
  }

  predicate Claimable(cfg: Config, row: Option<Row>, now: int) {
    row.None? || Stale(cfg, row.value, now)
  }

  /** What the world allows: the claim follows the row, a read-back is accurate, and the
      classification of failures is sound. A text answer means that the request is over. */
  predicate Allowed(cfg: Config, s: State, c: nat, e: Event)
    requires c in s.callers
  {
    var me := s.callers[c];
    match e
    case ClaimWon => Claimable(cfg, s.row, s.clock)
    case ClaimBlocked => !Claimable(cfg, s.row, s.clock)
    case Read(present) => present.Some? ==> present.value == s.stored
    case Answer(reply) =>
      (match reply
       case SavedText => me.fate == StoredIt
       case DuplicateText => me.fate == FoundDuplicate
       case ErrorText => me.fate in {StoredIt, FoundDuplicate, Errored}
       case OtherText => me.fate in {StoredIt, FoundDuplicate, Errored}
       case NotDelivered => me.fate == NeverReceived
       case Rejected => me.fate in {Errored, NeverReceived}
       case Ambiguous => true)
    case _ => true
  }

  /** The effect of a step on the claim row. */
  function RowAfter(row: Option<Row>, now: int, e: Event): Option<Row> {
    match e
    case ClaimWon => Some(Row(InFlight, now))
    case Released => None
    case Marked => if row.Some? then Some(Row(UnknownOutcome, now)) else None
    case _ => row
  }

  /** The call has claimed the key and may still send, or its row is not settled yet. */
  predicate Owning(pc: Pc) {
    || pc.Waiting? || pc.AbortReleasing? || pc.Sending? || pc.AwaitingReply?
    || pc.MarkingThenReading? || pc.ReadingAfterMark? || pc.ReadingAfterSaved? || pc.ReadingAfterError?
    || pc.MarkingThenDone? || pc.FailedReleasing? || pc.SavedReleasing? || pc.DuplicateReleasing?
  }

  predicate Holder(s: State, c: nat) {
    c in s.live || (c in s.callers && Owning(s.callers[c].pc))
  }

  function Next(cfg: Config, s: State, m: Move): Option<State> {
    match m
    case Tick(seconds) => Some(s.(clock := s.clock + seconds))
    case Enter(c) =>
      if c in s.callers then None
      else Some(s.(callers := s.callers[c := Caller(Claiming, Open, 0, false, false)]))
    case Do(c, e) =>
      if c !in s.callers || !Allowed(cfg, s, c, e) then None
      else
        var me := s.callers[c];
        var pc := Local(cfg, me.pc, e);
        if pc.None? then None
        else
          var me' := me.(pc := pc.value, hidden := me.hidden || (e == DbFails && MayHaveStored(me.pc)),
                         fate := if e == Send then Open else me.fate);
          Some(s.(row := RowAfter(s.row, s.clock, e),
                  live := if e == Send then s.live + {c} else s.live,
                  callers := s.callers[c := me'],
                  overtaken := s.overtaken ||
                               (e == ClaimWon && s.row.Some? && exists a | a in s.callers :: Holder(s, a))))
    case Serve(c, store) =>
      if c !in s.live || c !in s.callers then None
      else
        var me := s.callers[c];
        var fate := if !store then Errored else if s.stored then FoundDuplicate else StoredIt;
        Some(s.(live := s.live - {c}, stored := s.stored || store,
                callers := s.callers[c := me.(fate := fate, reached := me.reached + 1,
                    applied := me.applied || fate == StoredIt)]))
    case Lose(c) =>
      if c !in s.live || c !in s.callers then None
      else Some(s.(live := s.live - {c}, callers := s.callers[c := s.callers[c].(fate := NeverReceived)]))
  }

  function Start(clock: int): State {
    State(None, false, {}, map[], clock, false)
  }

  /** The state after a run, if every move was possible. */
  function After(cfg: Config, s: State, moves: seq<Move>): Option<State>
    decreases |moves|
  {
    if moves == [] then Some(s)
    else
      var s' := Next(cfg, s, moves[0]);
      if s'.None? then None else After(cfg, s'.value, moves[1..])
  }

  // ----- the invariant -----

  predicate NothingSent(pc: Pc) {
    || pc.Claiming? || pc.BlockedWaiting? || pc.BlockedReading? || pc.BlockedReleasing?
    || pc.Waiting? || pc.AbortReleasing? || pc.Sending?
  }

  ghost predicate CallerInv(s: State, c: nat) {
    c in s.callers &&
    var me := s.callers[c];
    var live := c in s.live;
    && (me.applied ==> s.stored && me.reached == 1)
    && me.reached + (if live then 1 else 0) <= 1
    && (NothingSent(me.pc) ==> !live && me.reached == 0 && !me.applied)
    && (me.pc.AwaitingReply? ==> (live <==> me.fate == Open))
    && (me.fate == StoredIt ==> s.stored)
    && (me.fate == FoundDuplicate ==> s.stored)
    && (me.fate in {Errored, NeverReceived, FoundDuplicate} ==> !live && !me.applied)
    && (me.fate == NeverReceived ==> me.reached == 0)
    && (me.fate == StoredIt ==> !live)
    && (me.pc.BlockedReleasing? || me.pc.SavedReleasing? || me.pc.DuplicateReleasing? ==> s.stored)
    && (me.pc == Done(Saved) || me.pc == Done(AlreadyExists) ==> s.stored)
    && (me.pc.ReadingAfterError? ==> !live)
    && (me.pc.FailedReleasing? ==> !live && !me.applied)
    && (me.pc.DuplicateReleasing? ==> !live && !me.applied)
    && (me.pc == Done(FailedStatus) ==> me.hidden || (!live && !me.applied))
  }

  ghost predicate SoleHolder(s: State) {
    && (forall a, b | Holder(s, a) && Holder(s, b) :: a == b)
    && (forall a | Holder(s, a) :: s.row.Some?)
  }

  ghost predicate Inv(s: State) {
    && (forall c | c in s.callers :: CallerInv(s, c))
    && s.live <= s.callers.Keys
    && (!s.stored && !s.overtaken ==> SoleHolder(s))
  }

  function Actor(m: Move): Option<nat> {
    match m
    case Tick(_) => None
    case Enter(c) => Some(c)
    case Do(c, _) => Some(c)
    case Serve(c, _) => Some(c)
    case Lose(c) => Some(c)
  }

  /** A caller that a move leaves alone keeps its invariant: notes are not deleted. */
  lemma CallerFrame(s: State, s': State, c: nat)
    requires CallerInv(s, c) && c in s'.callers && s'.callers[c] == s.callers[c]
    requires (c in s'.live <==> c in s.live) && (s.stored ==> s'.stored)
    ensures CallerInv(s', c)
  {
  }

  lemma AnswerKeepsCaller(cfg: Config, s: State, c: nat, reply: Reply, s': State)
    requires c in s.callers && CallerInv(s, c) && Next(cfg, s, Do(c, Answer(reply))) == Some(s')
    ensures CallerInv(s', c)
  {
    assert s.callers[c].pc.AwaitingReply?;
  }

  lemma DoKeepsCaller(cfg: Config, s: State, c: nat, e: Event, s': State)
    requires c in s.callers && CallerInv(s, c) && Next(cfg, s, Do(c, e)) == Some(s')
    ensures CallerInv(s', c)
  {
    if e.Answer? {
      AnswerKeepsCaller(cfg, s, c, e.reply, s');
    }
  }

  lemma MoveKeepsCaller(cfg: Config, s: State, m: Move, s': State, c: nat)
    requires c in s.callers ==> CallerInv(s, c)
    requires s.live <= s.callers.Keys
    requires Next(cfg, s, m) == Some(s') && c in s'.callers
    ensures CallerInv(s', c)
  {
    if Actor(m) == Some(c) {
      match m
      case Do(_, e) => DoKeepsCaller(cfg, s, c, e, s');
      case _ =>
    } else {
      CallerFrame(s, s', c);
    }
  }

  lemma MoveKeepsCallers(cfg: Config, s: State, m: Move, s': State)
    requires Inv(s) && Next(cfg, s, m) == Some(s')
    ensures forall c | c in s'.callers :: CallerInv(s', c)
    ensures s'.live <= s'.callers.Keys
  {
    forall c | c in s'.callers ensures CallerInv(s', c) {
      if c in s.callers { assert CallerInv(s, c); }
      MoveKeepsCaller(cfg, s, m, s', c);
    }
  }

  lemma FewerHolders(s: State, s': State)
    requires SoleHolder(s) && s'.row == s.row && s'.live <= s.live
    requires forall c | c in s'.callers && Owning(s'.callers[c].pc) :: c in s.callers && Owning(s.callers[c].pc)
    ensures SoleHolder(s')
  {
    forall c | Holder(s', c) ensures Holder(s, c) {
    }
  }

  lemma SameHolders(s: State, s': State)
    requires SoleHolder(s) && s'.row == s.row && s'.live == s.live
    requires forall c | c in s'.callers && Owning(s'.callers[c].pc) :: c in s.callers && Owning(s.callers[c].pc)
    ensures SoleHolder(s')
  {
    FewerHolders(s, s');
  }

  lemma DoKeepsSoleHolder(cfg: Config, s: State, c: nat, e: Event, s': State)
    requires SoleHolder(s) && c in s.callers && CallerInv(s, c) && s.live <= s.callers.Keys
    requires Next(cfg, s, Do(c, e)) == Some(s') && !s'.stored && !s'.overtaken
    ensures SoleHolder(s')
  {
    var pc := s.callers[c].pc;
    forall a | Holder(s', a) && a != c ensures Holder(s, a) {
    }
    if e == ClaimWon {
      assert forall a :: Holder(s, a) ==> a in s.callers;
      assert forall a :: !Holder(s, a);
    } else if e == Released {
      assert Holder(s, c);
      assert forall a | Holder(s, a) :: a == c;
    } else {
      assert Holder(s', c) ==> Holder(s, c);
      assert s.row.Some? ==> s'.row.Some?;
    }
  }

  /** As long as the note is not stored and no claim was taken over, at most one caller
      holds the key, and then its row is there. */
  lemma MoveKeepsSoleHolder(cfg: Config, s: State, m: Move, s': State)
    requires Inv(s) && Next(cfg, s, m) == Some(s') && !s'.stored && !s'.overtaken
    ensures SoleHolder(s')
  {
    assert SoleHolder(s);
    match m
    case Tick(_) => SameHolders(s, s');
    case Enter(c) => SameHolders(s, s');
    case Serve(c, _) => FewerHolders(s, s');
    case Lose(c) => FewerHolders(s, s');
    case Do(c, e) =>
      assert CallerInv(s, c);
      DoKeepsSoleHolder(cfg, s, c, e, s');
  }

  lemma InvStep(cfg: Config, s: State, m: Move, s': State)
    requires Inv(s) && Next(cfg, s, m) == Some(s')
    ensures Inv(s')
  {
    MoveKeepsCallers(cfg, s, m, s');
    if !s'.stored && !s'.overtaken {
      MoveKeepsSoleHolder(cfg, s, m, s');
    }
  }

  /** Claims are never older than the start of the run, so a takeover needs a whole TTL. */
  ghost predicate Timely(cfg: Config, start: int, s: State) {
    && start <= s.clock
    && (s.row.Some? ==> start <= s.row.value.updatedAt)
    && (s.overtaken ==> s.clock > start + cfg.ttl)
  }

  lemma TimelyStep(cfg: Config, start: int, s: State, m: Move, s': State)
    requires Timely(cfg, start, s) && Next(cfg, s, m) == Some(s')
    ensures Timely(cfg, start, s')
  {
  }

  lemma {:induction false} InvAfter(cfg: Config, start: int, s: State, moves: seq<Move>, s': State)
    requires Inv(s) && Timely(cfg, start, s) && After(cfg, s, moves) == Some(s')
    ensures Inv(s') && Timely(cfg, start, s')
    decreases |moves|
  {
    if moves == [] {
    } else {
      var t := Next(cfg, s, moves[0]).value;
      InvStep(cfg, s, moves[0], t);
      TimelyStep(cfg, start, s, moves[0], t);
      InvAfter(cfg, start, t, moves[1..], s');
    }
  }

  // ----- what holds over every run -----

  ghost predicate Reachable(cfg: Config, start: int, s: State) {
    exists moves :: After(cfg, Start(start), moves) == Some(s)
  }

  lemma ReachableInv(cfg: Config, start: int, s: State)
    requires Reachable(cfg, start, s)
    ensures Inv(s) && Timely(cfg, start, s)
  {
    var moves :| After(cfg, Start(start), moves) == Some(s);
    InvAfter(cfg, start, Start(start), moves, s);
  }

  ghost predicate TwoPending(cfg: Config, start: int, s: State) {
    Reachable(cfg, start, s) && exists a, b :: a in s.live && b in s.live && a != b
  }

  /** Over every interleaving and runs of any length: two saves can both still be applied
      only if the note is already stored, or a claim older than its TTL was taken over while
      its caller could still save. */
  lemma AtMostOnePendingSave(cfg: Config, start: int, s: State)
    requires TwoPending(cfg, start, s)
    ensures s.stored || s.overtaken
    ensures s.overtaken ==> s.clock > start + cfg.ttl
  {
    ReachableInv(cfg, start, s);
    var a, b :| a in s.live && b in s.live && a != b;
    assert Holder(s, a) && Holder(s, b);
  }

  /** Within one call at most one save reaches the server, even counting the one that may
      still arrive; SAVED and ALREADY_EXISTS mean that the note is there; FAILED means that
      this call stored nothing and never will, unless the local database failed at one of
      the three places where the save may have been stored. */
  lemma CallOutcome(cfg: Config, start: int, s: State, c: nat)
    requires Reachable(cfg, start, s) && c in s.callers
    ensures s.callers[c].reached + (if c in s.live then 1 else 0) <= 1
    ensures s.callers[c].pc == Done(Saved) || s.callers[c].pc == Done(AlreadyExists) ==> s.stored
    ensures s.callers[c].pc == Done(FailedStatus) && !s.callers[c].hidden ==> !s.callers[c].applied && c !in s.live
  {
    ReachableInv(cfg, start, s);
    assert CallerInv(s, c);
  }

  // ----- the conditions cannot be dropped -----

  lemma {:induction false} AfterSnoc(cfg: Config, s: State, moves: seq<Move>, t: State, m: Move, u: State)
    requires After(cfg, s, moves) == Some(t) && Next(cfg, t, m) == Some(u)
    ensures After(cfg, s, moves + [m]) == Some(u)
    decreases |moves|
  {
    var all := moves + [m];
    if moves == [] {
      assert all[1..] == [];
    } else {
      assert all[1..] == moves[1..] + [m];
      AfterSnoc(cfg, Next(cfg, s, moves[0]).value, moves[1..], t, m, u);
    }
  }

  lemma ReachNext(cfg: Config, start: int, s: State, m: Move) returns (t: State)
    requires Reachable(cfg, start, s) && Next(cfg, s, m).Some?
    ensures Next(cfg, s, m) == Some(t) && Reachable(cfg, start, t)
  {
    t := Next(cfg, s, m).value;
    var moves :| After(cfg, Start(start), moves) == Some(s);
    AfterSnoc(cfg, Start(start), moves, s, m, t);
  }

  lemma ReachStart(cfg: Config, start: int)
    ensures Reachable(cfg, start, Start(start))
  {
    assert After(cfg, Start(start), []) == Some(Start(start));
  }

  /** One step of one call, spelled out. */
  lemma DoNext(cfg: Config, start: int, s: State, c: nat, e: Event) returns (t: State)
    requires Reachable(cfg, start, s) && c in s.callers && Allowed(cfg, s, c, e) && e != Send && e != ClaimWon
    requires Local(cfg, s.callers[c].pc, e).Some?
    ensures Reachable(cfg, start, t)
    ensures t.row == RowAfter(s.row, s.clock, e) && t.live == s.live && t.stored == s.stored
    ensures t.clock == s.clock && t.overtaken == s.overtaken && t.callers.Keys == s.callers.Keys
    ensures var me := s.callers[c];
            t.callers[c] == me.(pc := Local(cfg, me.pc, e).value,
                hidden := me.hidden || (e == DbFails && MayHaveStored(me.pc)))
  {
    t := ReachNext(cfg, start, s, Do(c, e));
  }

  lemma ServeNext(cfg: Config, start: int, s: State, c: nat) returns (t: State)
    requires Reachable(cfg, start, s) && c in s.callers && c in s.live && !s.stored
    ensures Reachable(cfg, start, t)
    ensures t.row == s.row && t.live == s.live - {c} && t.stored
    ensures t.clock == s.clock && t.overtaken == s.overtaken && t.callers.Keys == s.callers.Keys
    ensures var me := s.callers[c];
            t.callers[c] == me.(fate := StoredIt, reached := me.reached + 1, applied := true)
  {
    t := ReachNext(cfg, start, s, Serve(c, true));
  }

  lemma EnterAndClaim(cfg: Config, start: int, s: State, c: nat) returns (t: State)
    requires Reachable(cfg, start, s) && c !in s.callers
    requires s.row.None? || Stale(cfg, s.row.value, s.clock)
    ensures Reachable(cfg, start, t)
    ensures t.live == s.live && t.stored == s.stored && t.clock == s.clock
    ensures t.row == Some(Row(InFlight, s.clock))
    ensures t.callers.Keys == s.callers.Keys + {c}
    ensures t.callers[c] == Caller(Waiting, Open, 0, false, false)
    ensures t.overtaken ==> s.overtaken || s.row.Some?
  {
    t := ReachNext(cfg, start, s, Enter(c));
    t := ReachNext(cfg, start, t, Do(c, ClaimWon));
  }

  /** A new caller that finds the key free, or its claim stale, sends a save. */
  lemma EnterAndSend(cfg: Config, start: int, s: State, c: nat) returns (t: State)
    requires Reachable(cfg, start, s) && c !in s.callers
    requires s.row.None? || Stale(cfg, s.row.value, s.clock)
    ensures Reachable(cfg, start, t)
    ensures t.live == s.live + {c} && t.stored == s.stored && t.clock == s.clock
    ensures t.row == Some(Row(InFlight, s.clock))
    ensures t.callers.Keys == s.callers.Keys + {c}
    ensures t.callers[c] == Caller(AwaitingReply(0), Open, 0, false, false)
    ensures t.overtaken ==> s.overtaken || s.row.Some?
  {
    t := EnterAndClaim(cfg, start, s, c);
    t := DoNext(cfg, start, t, c, Ready(true));
    t := ReachNext(cfg, start, t, Do(c, Send));
  }

  /** Past the TTL two saves can be pending while nothing is stored. */
  lemma TwoPendingAfterExpiry(cfg: Config, start: int) returns (s: State)
    requires cfg.Valid()
    ensures Reachable(cfg, start, s) && !s.stored && s.live == {0, 1} && s.clock == start + cfg.ttl + 1
  {
    ReachStart(cfg, start);
    s := EnterAndSend(cfg, start, Start(start), 0);
    s := ReachNext(cfg, start, s, Tick(cfg.ttl + 1));
    s := EnterAndSend(cfg, start, s, 1);
  }

  lemma BlockedReads(cfg: Config, start: int, s: State, c: nat) returns (t: State)
    requires Reachable(cfg, start, s) && c !in s.callers
    requires s.row.Some? && !Stale(cfg, s.row.value, s.clock)
    ensures Reachable(cfg, start, t)
    ensures t.live == s.live && t.stored == s.stored && t.clock == s.clock && t.overtaken == s.overtaken
    ensures t.callers.Keys == s.callers.Keys + {c} && t.callers[c].pc == BlockedReading
  {
    t := ReachNext(cfg, start, s, Enter(c));
    t := DoNext(cfg, start, t, c, ClaimBlocked);
    t := DoNext(cfg, start, t, c, Ready(true));
  }

  /** A blocked caller that reads the note back releases the row of the caller it waited for. */
  lemma BlockedReleases(cfg: Config, start: int, s: State, c: nat) returns (t: State)
    requires Reachable(cfg, start, s) && c !in s.callers && s.stored
    requires s.row.Some? && !Stale(cfg, s.row.value, s.clock)
    ensures Reachable(cfg, start, t)
    ensures t.live == s.live && t.stored && t.clock == s.clock && t.row.None? && t.overtaken == s.overtaken
    ensures t.callers.Keys == s.callers.Keys + {c}
  {
    t := BlockedReads(cfg, start, s, c);
    t := DoNext(cfg, start, t, c, Read(Some(true)));
    t := DoNext(cfg, start, t, c, Released);
  }

  lemma StoredThenPending(cfg: Config, start: int) returns (s: State)
    requires cfg.Valid()
    ensures Reachable(cfg, start, s) && s.stored && s.live == {2} && s.clock == start && !s.overtaken
    ensures s.callers.Keys == {0, 1, 2} && s.row == Some(Row(InFlight, start))
  {
    ReachStart(cfg, start);
    s := EnterAndSend(cfg, start, Start(start), 0);
    s := ServeNext(cfg, start, s, 0);
    s := BlockedReleases(cfg, start, s, 1);
    s := EnterAndSend(cfg, start, s, 2);
  }

  /** Two pending saves do occur within the TTL once the note is stored. */
  lemma TwoPendingOnceStored(cfg: Config, start: int) returns (s: State)
    requires cfg.Valid()
    ensures Reachable(cfg, start, s) && s.stored && s.live == {2, 4} && s.clock == start && !s.overtaken
  {
    s := StoredThenPending(cfg, start);
    s := BlockedReleases(cfg, start, s, 3);
    s := EnterAndSend(cfg, start, s, 4);
  }

  lemma Later(cfg: Config, start: int, s: State, seconds: nat) returns (t: State)
    requires Reachable(cfg, start, s)
    ensures Reachable(cfg, start, t) && t == s.(clock := s.clock + seconds)
  {
    t := ReachNext(cfg, start, s, Tick(seconds));
  }

  ghost predicate PendingPairAt(cfg: Config, start: int, s: State, elapsed: nat, stored: bool) {
    TwoPending(cfg, start, s) && s.clock == start + elapsed && s.stored == stored
  }

  lemma PendingPairOccurs(cfg: Config, start: int, elapsed: nat, stored: bool) returns (s: State)
    requires cfg.Valid() && (stored || elapsed > cfg.ttl)
    ensures PendingPairAt(cfg, start, s, elapsed, stored)
  {
    if stored {
      s := TwoPendingOnceStored(cfg, start);
      s := Later(cfg, start, s, elapsed);
      assert 2 in s.live && 4 in s.live;
    } else {
      s := TwoPendingAfterExpiry(cfg, start);
      s := Later(cfg, start, s, elapsed - cfg.ttl - 1);
      assert 0 in s.live && 1 in s.live;
    }
  }

  /** The window, exactly: some time after the first claim two saves can both be pending
      with nothing stored if and only if a whole TTL has passed; with the note stored they
      can be at any time. */
  lemma PendingPairExactly(cfg: Config, start: int, elapsed: nat, stored: bool)
    requires cfg.Valid()
    ensures (exists s :: PendingPairAt(cfg, start, s, elapsed, stored)) <==> stored || elapsed > cfg.ttl
  {
    if stored || elapsed > cfg.ttl {
      var s := PendingPairOccurs(cfg, start, elapsed, stored);
    } else {
      forall s ensures !PendingPairAt(cfg, start, s, elapsed, stored) {
        if TwoPending(cfg, start, s) {
          AtMostOnePendingSave(cfg, start, s);
        }
      }
    }
  }

  /** A call that waits for the answer to a save which the server has stored. */
  lemma StoredUnanswered(cfg: Config, start: int) returns (s: State)
    ensures Reachable(cfg, start, s) && 0 in s.callers && s.stored
    ensures s.callers[0] == Caller(AwaitingReply(0), StoredIt, 1, true, false)
  {
    ReachStart(cfg, start);
    s := EnterAndSend(cfg, start, Start(start), 0);
    s := ServeNext(cfg, start, s, 0);
  }

  ghost predicate StoredAt(cfg: Config, start: int, s: State, pc: Pc) {
    Reachable(cfg, start, s) && 0 in s.callers && s.callers[0].pc == pc && s.callers[0].applied && s.stored
  }

  lemma ReachesStored(cfg: Config, start: int, pc: Pc) returns (s: State)
    requires MayHaveStored(pc)
    ensures StoredAt(cfg, start, s, pc)
  {
    s := StoredUnanswered(cfg, start);
    if pc.MarkingThenReading? {
      s := DoNext(cfg, start, s, 0, Answer(Ambiguous));
    } else {
      s := DoNext(cfg, start, s, 0, Answer(SavedText));
      s := DoNext(cfg, start, s, 0, Read(if pc.SavedReleasing? then Some(true) else None));
    }
  }

  /** At each of these places a local database error answers FAILED although this call
      stored the note. */
  lemma FailedAlthoughStored(cfg: Config, start: int, pc: Pc) returns (s: State)
    requires MayHaveStored(pc)
    ensures StoredAt(cfg, start, s, Done(FailedStatus))
  {
    s := ReachesStored(cfg, start, pc);
    s := DoNext(cfg, start, s, 0, DbFails);
  }

  /** A call at `pc` whose save the server has applied or may still apply. */
  ghost predicate Untold(cfg: Config, start: int, s: State, c: nat, pc: Pc) {
    Reachable(cfg, start, s) && c in s.callers && s.callers[c].pc == pc && (s.callers[c].applied || c in s.live)
  }

  /** Among the operations on the claim table, exactly these three can turn a stored save
      into FAILED by failing. */
  lemma HidingPlaces(cfg: Config, start: int, pc: Pc)
    requires TouchesDb(pc)
    ensures (exists s, c :: Untold(cfg, start, s, c, pc)) <==> MayHaveStored(pc)
  {
    if MayHaveStored(pc) {
      var s := ReachesStored(cfg, start, pc);
      assert Untold(cfg, start, s, 0, pc);
    } else {
      forall s, c ensures !Untold(cfg, start, s, c, pc) {
        if Reachable(cfg, start, s) && c in s.callers {
          ReachableInv(cfg, start, s);
          assert CallerInv(s, c);
        }
      }
    }
  }

  // ----- the code of one call -----

  /** How the wait for the server ends: `WaitRaises` is any error but "not ready". */
  datatype Wait = IsReady | NotReady | WaitRaises

  /** The answers a call meets, by the number of operations made before. `found` is the claim
      row as the operation finds it, since other callers change it in between, and `clock`
      is the time that the operation reads. */
  datatype Answers = Answers(
    session: bool, clock: nat -> int, found: nat -> Option<Row>, dbFails: nat -> bool, ready: nat -> Wait,
    read: nat -> Option<bool>, reply: nat -> Reply)

  datatype Call = Call(cfg: Config, w: Answers)

  /** Where a call stands, and the claim row as the call last left it. */
  datatype Place = Place(pc: Pc, row: Option<Row>)

  /** The operations that read and change the claim row. */
  predicate OnRow(e: Event) {
    e.ClaimWon? || e.ClaimBlocked? || e.Released? || e.Marked?
  }

  function RowLeft(call: Call, i: nat, before: Option<Row>, e: Event): Option<Row> {
    if OnRow(e) then RowAfter(call.w.found(i), call.w.clock(i), e) else before
  }

  /** Operation `i` of the call goes the way its answers say. */
  predicate Meets(call: Call, i: nat, e: Event) {
    match e
    case SessionFails => !call.w.session
    case ClaimWon => call.w.session && !call.w.dbFails(i) && Claimable(call.cfg, call.w.found(i), call.w.clock(i))
    case ClaimBlocked =>
      call.w.session && !call.w.dbFails(i) && !Claimable(call.cfg, call.w.found(i), call.w.clock(i))
    case Ready(ok) => call.w.ready(i) == if ok then IsReady else NotReady
    case WaitFails => call.w.ready(i) == WaitRaises
    case Read(present) => present == call.w.read(i)
    case Answer(reply) => reply == call.w.reply(i)
    case DbFails => call.w.session && call.w.dbFails(i)
    case Released => !call.w.dbFails(i)
    case Marked => !call.w.dbFails(i)
    case Send => true
  }

  /** Where a call stands after `events`. */
  function Trace(call: Call, events: seq<Event>): Option<Place> {
    if events == [] then Some(Place(Claiming, call.w.found(0)))
    else
      var n := |events| - 1;
      var at := Trace(call, events[..n]);
      if at.Some? && Meets(call, n, events[n]) && Local(call.cfg, at.value.pc, events[n]).Some?
      then Some(Place(Local(call.cfg, at.value.pc, events[n]).value, RowLeft(call, n, at.value.row, events[n])))
      else None
  }

  lemma TracePrefix(call: Call, events: seq<Event>)
    requires Trace(call, events).Some? && events != []
    ensures Trace(call, events[..|events| - 1]).Some?
  {
  }

  lemma {:induction false} PrefixSome(call: Call, events: seq<Event>, n: nat)
    requires Trace(call, events).Some? && n <= |events|
    ensures Trace(call, events[..n]).Some?
    decreases |events|
  {
    if n == |events| {
      assert events[..n] == events;
    } else {
      TracePrefix(call, events);
      PrefixSome(call, events[..|events| - 1], n);
      assert events[..|events| - 1][..n] == events[..n];
    }
  }

  lemma OneWay(call: Call, i: nat, pc: Pc, d: Event, e: Event)
    requires Meets(call, i, d) && Local(call.cfg, pc, d).Some?
    requires Meets(call, i, e) && Local(call.cfg, pc, e).Some?
    ensures d == e
  {
  }

  lemma SameLast(call: Call, a: seq<Event>, b: seq<Event>)
    requires Trace(call, a).Some? && Trace(call, b).Some? && |a| == |b| > 0
    requires a[..|a| - 1] == b[..|b| - 1]
    ensures a == b
  {
    var n := |a| - 1;
    TracePrefix(call, a);
    TracePrefix(call, b);
    OneWay(call, n, Trace(call, a[..n]).value.pc, a[n], b[n]);
    assert a == a[..n] + [a[n]] && b == b[..n] + [b[n]];
  }

  lemma {:induction false} SameLength(call: Call, a: seq<Event>, b: seq<Event>)
    requires Trace(call, a).Some? && Trace(call, b).Some? && |a| == |b|
    ensures a == b
    decreases |a|
  {
    if a == [] {
      assert b == [];
    } else {
      PrefixSome(call, a, |a| - 1);
      PrefixSome(call, b, |b| - 1);
      SameLength(call, a[..|a| - 1], b[..|b| - 1]);
      SameLast(call, a, b);
    }
  }

  lemma NotShorter(call: Call, a: seq<Event>, b: seq<Event>)
    requires Trace(call, a).Some? && Trace(call, a).value.pc.Done? && Trace(call, b).Some?
    ensures |b| <= |a|
  {
    if |a| < |b| {
      assert b[..|a| + 1][..|a|] == b[..|a|];
      PrefixSome(call, b, |a|);
      SameLength(call, a, b[..|a|]);
      PrefixSome(call, b, |a| + 1);
    }
  }

  /** The answers determine the whole call: two finished traces are the same. */
  lemma CallDetermined(call: Call, a: seq<Event>, b: seq<Event>)
    requires Trace(call, a).Some? && Trace(call, a).value.pc.Done?
    requires Trace(call, b).Some? && Trace(call, b).value.pc.Done?
    ensures a == b
  {
    NotShorter(call, a, b);
    NotShorter(call, b, a);
    SameLength(call, a, b);
  }

  // ----- the code and the protocol are the same automaton -----

  /** A step of the code is a move of the protocol: in any state in which the caller stands
      where its trace does, and the operation finds the row and the time that it does, and an
      answer of the server is a sound one. */
  lemma StepIsMove(call: Call, events: seq<Event>, e: Event, s: State, c: nat)
    requires Trace(call, events).Some? && c in s.callers && s.callers[c].pc == Trace(call, events).value.pc
    requires Trace(call, events + [e]).Some?
    requires OnRow(e) ==> s.row == call.w.found(|events|) && s.clock == call.w.clock(|events|)
    requires e.Read? || e.Answer? ==> Allowed(call.cfg, s, c, e)
    ensures var t, at := Next(call.cfg, s, Do(c, e)), Trace(call, events + [e]).value;
            && t.Some? && c in t.value.callers && t.value.callers[c].pc == at.pc
            && (OnRow(e) ==> t.value.row == at.row)
  {
    assert (events + [e])[..|events|] == events;
  }

  /** The operations of caller `c` in a run. */
  function EventsOf(moves: seq<Move>, c: nat): seq<Event> {
    if moves == [] then []
    else
      var m := moves[|moves| - 1];
      EventsOf(moves[..|moves| - 1], c) + (if m.Do? && m.c == c then [m.event] else [])
  }

  /** The states in which they were made. */
  function StatesOf(cfg: Config, s: State, moves: seq<Move>, c: nat): (r: seq<State>)
    ensures |r| == |EventsOf(moves, c)|
  {
    if moves == [] then []
    else
      var m, before := moves[|moves| - 1], After(cfg, s, moves[..|moves| - 1]);
      StatesOf(cfg, s, moves[..|moves| - 1], c) +
      (if m.Do? && m.c == c then [if before.Some? then before.value else s] else [])
  }

  /** The answers that caller `c` meets in a run. */
  function CallOf(cfg: Config, s: State, moves: seq<Move>, c: nat): Call {
    var events, states := EventsOf(moves, c), StatesOf(cfg, s, moves, c);
    Call(cfg, Answers(
           events == [] || events[0] != SessionFails,
           (i: nat) => if i < |states| then states[i].clock else 0,
           (i: nat) => if i < |states| then states[i].row else None,
           (i: nat) => i < |events| && events[i] == DbFails,
           (i: nat) => if i < |events| && events[i].WaitFails? then WaitRaises
                       else if i < |events| && events[i] == Ready(true) then IsReady else NotReady,
           (i: nat) => if i < |events| && events[i].Read? then events[i].present else None,
           (i: nat) => if i < |events| && events[i].Answer? then events[i].reply else Ambiguous))
  }

  lemma {:induction false} AfterLast(cfg: Config, s: State, moves: seq<Move>)
    requires After(cfg, s, moves).Some? && moves != []
    ensures var before := After(cfg, s, moves[..|moves| - 1]);
            before.Some? && Next(cfg, before.value, moves[|moves| - 1]) == After(cfg, s, moves)
    decreases |moves|
  {
    var n := |moves| - 1;
    if n == 0 {
      assert moves[..0] == [] && moves[1..] == [];
    } else {
      AfterLast(cfg, Next(cfg, s, moves[0]).value, moves[1..]);
      assert moves[1..][..n - 1] == moves[..n][1..];
    }
  }

  /** A call that got no session makes no further operation. */
  lemma {:induction false} NoSession(call: Call, events: seq<Event>)
    requires Trace(call, events).Some? && events != []
    ensures Trace(call, events).value.pc != Claiming
    ensures !call.w.session ==> Trace(call, events).value.pc.Done?
    decreases |events|
  {
    if |events| > 1 {
      NoSession(call, events[..|events| - 1]);
    }
  }

  /** `events` and `states` begin as those of the whole run. */
  ghost predicate Begins(cfg: Config, s: State, moves: seq<Move>, c: nat, n: nat)
    requires n <= |moves|
  {
    && EventsOf(moves[..n], c) <= EventsOf(moves, c)
    && StatesOf(cfg, s, moves[..n], c) <= StatesOf(cfg, s, moves, c)
  }

  lemma {:induction false} PartBegins(cfg: Config, s: State, moves: seq<Move>, c: nat, n: nat)
    requires n <= |moves|
    ensures Begins(cfg, s, moves, c, n)
    decreases |moves|
  {
    if n == |moves| {
      assert moves[..n] == moves;
    } else {
      var front := moves[..|moves| - 1];
      PartBegins(cfg, s, front, c, n);
      assert front[..n] == moves[..n];
    }
  }

  /** A caller stands where the trace of its operations does. */
  ghost predicate StandsAt(call: Call, events: seq<Event>, s: State, c: nat) {
    && Trace(call, events).Some?
    && (if c in s.callers then Trace(call, events).value.pc == s.callers[c].pc else events == [])
  }

  /** The answers to operation `k` are those that `e` meets in `s`. */
  ghost predicate Observed(call: Call, k: nat, e: Event, s: State) {
    && call.w.found(k) == s.row && call.w.clock(k) == s.clock
    && (call.w.dbFails(k) <==> e == DbFails)
    && (e.Ready? ==> call.w.ready(k) == if e.ok then IsReady else NotReady)
    && (e.WaitFails? ==> call.w.ready(k) == WaitRaises)
    && (e.Read? ==> call.w.read(k) == e.present)
    && (e.Answer? ==> call.w.reply(k) == e.reply)
    && (k == 0 ==> call.w.session == (e != SessionFails))
  }

  lemma {:induction false} ObservedMeets(call: Call, events: seq<Event>, s: State, c: nat, e: Event)
    requires StandsAt(call, events, s, c) && c in s.callers && Allowed(call.cfg, s, c, e)
    requires Local(call.cfg, s.callers[c].pc, e).Some? && Observed(call, |events|, e, s)
    ensures Meets(call, |events|, e)
  {
    if events != [] {
      NoSession(call, events);
    }
  }

  lemma {:induction false} CallObserves(cfg: Config, s: State, moves: seq<Move>, c: nat, n: nat)
    requires n < |moves| && moves[n].Do? && moves[n].c == c && After(cfg, s, moves[..n]).Some?
    ensures EventsOf(moves[..n + 1], c) == EventsOf(moves[..n], c) + [moves[n].event]
    ensures Observed(CallOf(cfg, s, moves, c), |EventsOf(moves[..n], c)|, moves[n].event,
                     After(cfg, s, moves[..n]).value)
  {
    var k := |EventsOf(moves[..n], c)|;
    assert moves[..n + 1][..n] == moves[..n];
    PartBegins(cfg, s, moves, c, n + 1);
    assert EventsOf(moves, c)[k] == EventsOf(moves[..n + 1], c)[k];
    assert StatesOf(cfg, s, moves, c)[k] == StatesOf(cfg, s, moves[..n + 1], c)[k];
  }

  lemma {:induction false} AfterPart(cfg: Config, s: State, moves: seq<Move>, n: nat)
    requires n <= |moves| && After(cfg, s, moves).Some?
    ensures After(cfg, s, moves[..n]).Some?
    decreases |moves|
  {
    if n == |moves| {
      assert moves[..n] == moves;
    } else {
      AfterLast(cfg, s, moves);
      AfterPart(cfg, s, moves[..|moves| - 1], n);
      assert moves[..|moves| - 1][..n] == moves[..n];
    }
  }

  lemma {:induction false} OtherMove(call: Call, events: seq<Event>, s: State, m: Move, t: State, c: nat)
    requires StandsAt(call, events, s, c) && Next(call.cfg, s, m) == Some(t) && !(m.Do? && m.c == c)
    ensures StandsAt(call, events, t, c)
  {
  }

  lemma {:induction false} OwnMove(call: Call, events: seq<Event>, s: State, e: Event, t: State, c: nat)
    requires StandsAt(call, events, s, c) && Next(call.cfg, s, Do(c, e)) == Some(t) && Meets(call, |events|, e)
    ensures StandsAt(call, events + [e], t, c)
  {
    assert (events + [e])[..|events|] == events;
  }

  lemma {:induction false} PartIsTrace(cfg: Config, start: int, moves: seq<Move>, c: nat, n: nat)
    requires n <= |moves| && After(cfg, Start(start), moves).Some?
    ensures After(cfg, Start(start), moves[..n]).Some?
    ensures StandsAt(CallOf(cfg, Start(start), moves, c), EventsOf(moves[..n], c),
                     After(cfg, Start(start), moves[..n]).value, c)
    decreases n
  {
    AfterPart(cfg, Start(start), moves, n);
    if n == 0 {
      assert moves[..0] == [];
    } else {
      var call, ev, m := CallOf(cfg, Start(start), moves, c), EventsOf(moves[..n - 1], c), moves[n - 1];
      PartIsTrace(cfg, start, moves, c, n - 1);
      var s, t := After(cfg, Start(start), moves[..n - 1]).value, After(cfg, Start(start), moves[..n]).value;
      assert moves[..n][..n - 1] == moves[..n - 1];
      AfterLast(cfg, Start(start), moves[..n]);
      if m.Do? && m.c == c {
        CallObserves(cfg, Start(start), moves, c, n - 1);
        ObservedMeets(call, ev, s, c, m.event);
        OwnMove(call, ev, s, m.event, t, c);
      } else {
        OtherMove(call, ev, s, m, t, c);
        assert EventsOf(moves[..n], c) == ev;
      }
    }
  }

  /** What every caller does in any interleaving is a trace of the code, under the answers,
      claim rows and times that it meets there; so the theorems over the interleavings are
      about the code, and about all that its calls can do. */
  lemma RunIsTrace(cfg: Config, start: int, moves: seq<Move>, s: State, c: nat)
    requires After(cfg, Start(start), moves) == Some(s) && c in s.callers
    ensures var at := Trace(CallOf(cfg, Start(start), moves, c), EventsOf(moves, c));
            at.Some? && at.value.pc == s.callers[c].pc
  {
    PartIsTrace(cfg, start, moves, c, |moves|);
    assert moves[..|moves|] == moves;
  }

  /** The row of the key, in the table `note_save_attempts`. */
  class AttemptRow {
    var row: Option<Row>

    constructor ()
      ensures row.None?
    {
      row := None;
    }

    /** Insert, or take over a stale row; otherwise the caller is blocked. */
    method Claim(cfg: Config, now: int) returns (won: bool)
      modifies `row
      ensures won <==> Claimable(cfg, old(row), now)
      ensures row == RowAfter(old(row), now, if won then ClaimWon else ClaimBlocked)
    {
      if row.None? {
        row := Some(Row(InFlight, now));
        return true;
      }
      if row.value.updatedAt < now - cfg.ttl {
        row := Some(Row(InFlight, now));
        return true;
      }
      return false;
    }

    method SetUnknown(now: int)
      modifies `row
      ensures row == RowAfter(old(row), now, Marked)
    {
      if row.Some? {
        row := Some(Row(UnknownOutcome, now));
      }
    }

    method Release()
      modifies `row
      ensures row.None?
    {
      row := None;
    }
  }

  /** Note down an operation just made. */
  method Record(call: Call, events: seq<Event>, ghost at: Place, e: Event) returns (longer: seq<Event>)
    requires Trace(call, events) == Some(at)
    requires Meets(call, |events|, e) && Local(call.cfg, at.pc, e).Some?
    ensures |longer| == |events| + 1
    ensures Trace(call, longer) ==
            Some(Place(Local(call.cfg, at.pc, e).value, RowLeft(call, |events|, at.row, e)))
  {
    longer := events + [e];
    assert longer[..|events|] == events;
  }

  method SendOnce(call: Call, before: seq<Event>, ghost attempt: nat, ghost row: Option<Row>)
    returns (reply: Reply, events: seq<Event>)
    requires Trace(call, before) == Some(Place(Sending(attempt), row))
    ensures |events| > 0 && Trace(call, events) == Some(Place(AfterReply(call.cfg, attempt, reply), row))
  {
    events := Record(call, before, Place(Sending(attempt), row), Send);
    reply := call.w.reply(|events|);
    events := Record(call, events, Place(AwaitingReply(attempt), row), Answer(reply));
  }

  /** Release the row and answer `wanted`. */
  method Finish(call: Call, table: AttemptRow, before: seq<Event>, ghost pc: Pc, wanted: Status)
    returns (status: Status, events: seq<Event>)
    requires Trace(call, before) == Some(Place(pc, table.row))
    requires |before| > 0 && call.w.session
    requires TouchesDb(pc) && Local(call.cfg, pc, Released) == Some(Done(wanted))
    modifies table
    ensures Trace(call, events) == Some(Place(Done(status), table.row))
  {
    ghost var row := table.row;
    if call.w.dbFails(|before|) {
      events := Record(call, before, Place(pc, row), DbFails);
      status := FailedStatus;
    } else {
      table.row := call.w.found(|before|);
      table.Release();
      events := Record(call, before, Place(pc, row), Released);
      status := wanted;
    }
  }

  /** Mark the row as unknown; not `ok` when the database fails. */
  method Mark(call: Call, table: AttemptRow, before: seq<Event>, ghost pc: Pc) returns (ok: bool, events: seq<Event>)
    requires call.w.session && pc in {MarkingThenReading, MarkingThenDone}
    requires Trace(call, before) == Some(Place(pc, table.row))
    modifies table
    ensures ok ==> Trace(call, events) == Some(Place(Local(call.cfg, pc, Marked).value, table.row))
    ensures !ok ==> Trace(call, events) == Some(Place(Done(FailedStatus), table.row))
  {
    ghost var row := table.row;
    ok := !call.w.dbFails(|before|);
    if ok {
      table.row := call.w.found(|before|);
      table.SetUnknown(call.w.clock(|before|));
      events := Record(call, before, Place(pc, row), Marked);
    } else {
      events := Record(call, before, Place(pc, row), DbFails);
    }
  }

  method MarkAndStop(call: Call, table: AttemptRow, before: seq<Event>) returns (status: Status, events: seq<Event>)
    requires call.w.session
    requires Trace(call, before) == Some(Place(MarkingThenDone, table.row))
    modifies table
    ensures Trace(call, events) == Some(Place(Done(status), table.row))
  {
    var ok;
    ok, events := Mark(call, table, before, MarkingThenDone);
    status := if ok then UnknownStatus else FailedStatus;
  }

  /** The server says it saved: believe it only when the note reads back. */
  method Confirm(call: Call, table: AttemptRow, before: seq<Event>) returns (status: Status, events: seq<Event>)
    requires call.w.session
    requires Trace(call, before) == Some(Place(ReadingAfterSaved, table.row))
    modifies table
    ensures Trace(call, events) == Some(Place(Done(status), table.row))
  {
    var present := call.w.read(|before|);
    events := Record(call, before, Place(ReadingAfterSaved, table.row), Read(present));
    if present == Some(true) {
      status, events := Finish(call, table, events, SavedReleasing, Saved);
    } else {
      status, events := MarkAndStop(call, table, events);
    }
  }

  /** The server reports an error: FAILED only when the note certainly is not there. */
  method Refute(call: Call, table: AttemptRow, before: seq<Event>) returns (status: Status, events: seq<Event>)
    requires call.w.session
    requires Trace(call, before) == Some(Place(ReadingAfterError, table.row))
    modifies table
    ensures Trace(call, events) == Some(Place(Done(status), table.row))
  {
    var present := call.w.read(|before|);
    events := Record(call, before, Place(ReadingAfterError, table.row), Read(present));
    if present == Some(true) {
      status, events := Finish(call, table, events, SavedReleasing, Saved);
    } else if present == Some(false) {
      status, events := Finish(call, table, events, FailedReleasing, FailedStatus);
    } else {
      status, events := MarkAndStop(call, table, events);
    }
  }

  /** Read the note back: a positive answer releases the row, any other leaves the outcome open. */
  method ReadBack(call: Call, table: AttemptRow, before: seq<Event>, ghost reading: Pc, ghost releasing: Pc)
    returns (status: Status, events: seq<Event>)
    requires call.w.session
    requires Trace(call, before) == Some(Place(reading, table.row))
    requires (reading, releasing) in {(BlockedReading, BlockedReleasing), (ReadingAfterMark, SavedReleasing)}
    modifies table
    ensures Trace(call, events) == Some(Place(Done(status), table.row))
  {
    var present := call.w.read(|before|);
    events := Record(call, before, Place(reading, table.row), Read(present));
    if present == Some(true) {
      status, events := Finish(call, table, events, releasing, Saved);
    } else {
      status := UnknownStatus;
    }
  }

  method MarkAndRead(call: Call, table: AttemptRow, before: seq<Event>) returns (status: Status, events: seq<Event>)
    requires call.w.session
    requires Trace(call, before) == Some(Place(MarkingThenReading, table.row))
    modifies table
    ensures Trace(call, events) == Some(Place(Done(status), table.row))
  {
    var ok;
    ok, events := Mark(call, table, before, MarkingThenReading);
    if ok {
      status, events := ReadBack(call, table, events, ReadingAfterMark, SavedReleasing);
    } else {
      status := FailedStatus;
    }
  }

  /** The branches after a reply that is not retried. */
  method Settle(call: Call, table: AttemptRow, before: seq<Event>, ghost attempt: nat, reply: Reply)
    returns (status: Status, events: seq<Event>)
    requires call.w.session && |before| > 0
    requires reply == NotDelivered ==> attempt + 1 >= call.cfg.maxAttempts
    requires Trace(call, before) == Some(Place(AfterReply(call.cfg, attempt, reply), table.row))
    modifies table
    ensures Trace(call, events) == Some(Place(Done(status), table.row))
  {
    match reply {
      case NotDelivered => status, events := Finish(call, table, before, FailedReleasing, FailedStatus);
      case Rejected => status, events := Finish(call, table, before, FailedReleasing, FailedStatus);
      case DuplicateText => status, events := Finish(call, table, before, DuplicateReleasing, AlreadyExists);
      case Ambiguous => status, events := MarkAndRead(call, table, before);
      case OtherText => status, events := MarkAndRead(call, table, before);
      case SavedText => status, events := Confirm(call, table, before);
      case ErrorText => status, events := Refute(call, table, before);
    }
  }

  /** The bounded attempt loop: only a save that was certainly not delivered is repeated. */
  method Attempts(call: Call, table: AttemptRow, before: seq<Event>) returns (status: Status, events: seq<Event>)
    requires call.cfg.Valid() && call.w.session
    requires Trace(call, before) == Some(Place(Sending(0), table.row))
    modifies table
    ensures Trace(call, events) == Some(Place(Done(status), table.row))
  {
    events := before;
    var attempt := 0;
    while attempt < call.cfg.maxAttempts
      invariant attempt < call.cfg.maxAttempts
      invariant Trace(call, events) == Some(Place(Sending(attempt), table.row))
      decreases call.cfg.maxAttempts - attempt
    {
      var reply;
      reply, events := SendOnce(call, events, attempt, table.row);
      if reply != NotDelivered || attempt + 1 >= call.cfg.maxAttempts {
        status, events := Settle(call, table, events, attempt, reply);
        return;
      }
      attempt := attempt + 1;
    }
    assert false;
  }

  /** The holder of the claim waits for the server and saves. */
  method Claimed(call: Call, table: AttemptRow, before: seq<Event>) returns (status: Status, events: seq<Event>)
    requires call.cfg.Valid() && call.w.session && |before| == 1
    requires Trace(call, before) == Some(Place(Waiting, table.row))
    modifies table
    ensures Trace(call, events) == Some(Place(Done(status), table.row))
  {
    match call.w.ready(1) {
      case IsReady =>
        events := Record(call, before, Place(Waiting, table.row), Ready(true));
        status, events := Attempts(call, table, events);
      case NotReady =>
        events := Record(call, before, Place(Waiting, table.row), Ready(false));
        status, events := Finish(call, table, events, AbortReleasing, FailedStatus);
      case WaitRaises =>
        events := Record(call, before, Place(Waiting, table.row), WaitFails);
        status := FailedStatus;
    }
  }

  method Blocked(call: Call, table: AttemptRow, before: seq<Event>) returns (status: Status, events: seq<Event>)
    requires call.w.session && |before| == 1
    requires Trace(call, before) == Some(Place(BlockedWaiting, table.row))
    modifies table
    ensures Trace(call, events) == Some(Place(Done(status), table.row))
  {
    match call.w.ready(1) {
      case IsReady =>
        events := Record(call, before, Place(BlockedWaiting, table.row), Ready(true));
        status, events := ReadBack(call, table, events, BlockedReading, BlockedReleasing);
      case NotReady =>
        events := Record(call, before, Place(BlockedWaiting, table.row), Ready(false));
        status := UnknownStatus;
      case WaitRaises =>
        events := Record(call, before, Place(BlockedWaiting, table.row), WaitFails);
        status := FailedStatus;
    }
  }

  /** `save_note_safely`, with the trace of its operations. Each event leads from the place
      the code is at to the next one, so the call is one of those that the protocol lets
      interleave. */
  method SaveNoteSafely(call: Call, table: AttemptRow) returns (status: Status, events: seq<Event>)
    requires call.cfg.Valid() && table.row == call.w.found(0)
    modifies table
    ensures Trace(call, events) == Some(Place(Done(status), table.row))
  {
    if !call.w.session {
      events := Record(call, [], Place(Claiming, table.row), SessionFails);
      return FailedStatus, events;
    }
    if call.w.dbFails(0) {
      events := Record(call, [], Place(Claiming, table.row), DbFails);
      return FailedStatus, events;
    }
    ghost var row := table.row;
    var won := table.Claim(call.cfg, call.w.clock(0));
    events := Record(call, [], Place(Claiming, row), if won then ClaimWon else ClaimBlocked);
    if won {
      status, events := Claimed(call, table, events);
    } else {
      status, events := Blocked(call, table, events);
    }
  }
}
