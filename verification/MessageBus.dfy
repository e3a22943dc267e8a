/** The bounded message bus between agents (core/agent_communication.py): route matrix,
    identity-bound endpoints and bounded first-in first-out mailboxes. */
module MessageBus {
  import opened Text

  datatype Message = Message(
    id: string, sender: string, recipient: string, messageType: string, content: string,
    correlationId: string, replyTo: Option<string>, constraints: set<string>)

  const MANAGEMENT := "management"
  const RESULT_TYPE := "task_result"
  const RESULT_CONSTRAINTS := {"result-only", "no-permission-grant"}
  const SPECIALISTS := {"general", "voice", "english", "news", "stocks", "market", "jobs", "music", "video"}
  const MAX_PER_MAILBOX := 200

  /** `str.lower` as far as the known names can tell: besides the ASCII capitals only the
      Kelvin sign has an ASCII letter as its lower case. */
  function LowerChar(c: char): char {
    if 'A' <= c <= 'Z' then ((c as int) - ('A' as int) + ('a' as int)) as char
    else if c as int == 0x212A then 'k'
    else c
  }

  function Lower(s: string): (r: string)
    ensures |r| == |s|
    ensures forall i | 0 <= i < |s| :: r[i] == LowerChar(s[i])
  {
    seq(|s|, i requires 0 <= i < |s| => LowerChar(s[i]))
  }

  function RoleKey(name: string): string {
    Lower(Strip(name))
  }

  predicate Known(key: string) {
    key == MANAGEMENT || key in SPECIALISTS
  }

  function CanonicalAgent(name: string): Option<string> {
    if Known(RoleKey(name)) then Some(RoleKey(name)) else None
  }

  predicate Bounded(s: string, limit: nat) {
    !Blank(s) && |s| <= limit
  }

  /** `AgentMessage.validate` on the fields modelled here, as the absence of errors. */
  predicate ValidMessage(m: Message) {
    && Bounded(m.id, 200) && Bounded(m.sender, 100) && Bounded(m.recipient, 100) && Bounded(m.messageType, 100)
    && |m.correlationId| <= 200
    && Bounded(m.content, 4000)
    && (m.replyTo.Some? ==> |m.replyTo.value| <= 200)
    && 0 < |m.constraints| <= 8
    && forall c | c in m.constraints :: Bounded(c, 100)
  }

  datatype RouteError =
    | UnknownSender | UnknownRecipient | TypeRequired | SameAgent
    | NotAResult | WrongConstraints | ManagementMayNotSend | NotApproved

  /** `validate_route`: the list of errors, branch by branch as in the source. */
  function ValidateRoute(sender: string, recipient: string, messageType: string,
      constraints: set<string>): seq<RouteError> {
    var source, target := RoleKey(sender), RoleKey(recipient);
    var errors :=
      (if Known(source) then [] else [UnknownSender]) +
      (if Known(target) then [] else [UnknownRecipient]) +
      (if Blank(messageType) then [TypeRequired] else []) +
      (if source == target && Known(source) then [SameAgent] else []);
    var resultErrors :=
      (if messageType != RESULT_TYPE then [NotAResult] else []) +
      (if constraints != RESULT_CONSTRAINTS then [WrongConstraints] else []);
    if source in SPECIALISTS && target in SPECIALISTS && source != target then errors + resultErrors
    else if source in SPECIALISTS && target == MANAGEMENT then errors + resultErrors
    else if source == MANAGEMENT && target in SPECIALISTS then errors + [ManagementMayNotSend]
    else if errors == [] then [NotApproved]
    else errors
  }

  /** What a queued message is: a task result from a specialist to another agent, under
      exactly the result constraints. */
  ghost predicate ResultFor(m: Message, from: string, to: string) {
    && m.sender == from && from in SPECIALISTS
    && CanonicalAgent(m.recipient) == Some(to) && from != to
    && m.messageType == RESULT_TYPE && m.constraints == RESULT_CONSTRAINTS
  }

  lemma NamesAreCanonical(key: string)
    requires Known(key)
    ensures RoleKey(key) == key
  {
    assert |key| > 0 && !IsSpace(key[0]) && !IsSpace(key[|key| - 1]);
    assert StripLeft(key) == key && StripRight(key) == key;
    assert Lower(key) == key;
  }

  /** The route matrix, closed: a message of a canonical sender is let through exactly when
      it is such a result. */
  lemma RouteMatrix(m: Message)
    requires Known(m.sender)
    ensures ValidateRoute(m.sender, m.recipient, m.messageType, m.constraints) == [] <==>
              Known(RoleKey(m.recipient)) && ResultFor(m, m.sender, RoleKey(m.recipient))
  {
    NamesAreCanonical(m.sender);
    assert !Blank(RESULT_TYPE) by { assert RESULT_TYPE[0] == 't'; }
  }

  // ----- one mailbox -----

  /** Everything accepted for a recipient, in order, and the positions of what it received. */
  datatype Log = Log(sent: seq<Message>, taken: seq<nat>)

  const EMPTY_LOG := Log([], [])

  ghost predicate AllResults(to: string, sent: seq<Message>) {
    forall i | 0 <= i < |sent| :: ResultFor(sent[i], sent[i].sender, to)
  }

  /** The queue is the end of what was sent; what was received lies before it, in order. */
  ghost predicate MailboxInv(to: string, queue: seq<Message>, log: Log, cap: nat) {
    var start := |log.sent| - |queue|;
    && 0 <= start
    && queue == log.sent[start..]
    && |queue| <= cap
    && (forall i | 0 <= i < |log.taken| :: log.taken[i] < start)
    && (forall i, j | 0 <= i < j < |log.taken| :: log.taken[i] < log.taken[j])
    && AllResults(to, log.sent)
  }

  function Min(a: int, b: int): int {
    if a < b then a else b
  }

  /** Append, then drop from the front while the mailbox is over its capacity. */
  function Enqueue(queue: seq<Message>, m: Message, cap: nat): (r: seq<Message>)
    requires |queue| <= cap && cap >= 1
    ensures |r| == Min(|queue| + 1, cap)
    ensures r == (queue + [m])[|queue| + 1 - |r|..]
  {
    if |queue| + 1 > cap then (queue + [m])[1..] else queue + [m]
  }

  lemma SuffixGrows(queue: seq<Message>, sent: seq<Message>, m: Message, n: nat)
    requires |queue| <= |sent| && queue == sent[|sent| - |queue|..] && n <= |queue| + 1
    ensures (queue + [m])[|queue| + 1 - n..] == (sent + [m])[|sent| + 1 - n..]
  {
  }

  lemma ResultsGrow(to: string, sent: seq<Message>, m: Message)
    requires AllResults(to, sent) && ResultFor(m, m.sender, to)
    ensures AllResults(to, sent + [m])
  {
  }

  lemma EnqueueKeepsInv(to: string, queue: seq<Message>, log: Log, cap: nat, m: Message)
    requires MailboxInv(to, queue, log, cap) && cap >= 1 && ResultFor(m, m.sender, to)
    ensures MailboxInv(to, Enqueue(queue, m, cap), Log(log.sent + [m], log.taken), cap)
  {
    SuffixGrows(queue, log.sent, m, |Enqueue(queue, m, cap)|);
    ResultsGrow(to, log.sent, m);
  }

  function Positions(start: nat, n: nat): (r: seq<nat>)
    ensures |r| == n && forall i | 0 <= i < n :: r[i] == start + i
  {
    seq(n, i => start + i)
  }

  lemma TakeKeepsInv(to: string, queue: seq<Message>, log: Log, cap: nat, n: nat)
    requires MailboxInv(to, queue, log, cap) && n <= |queue|
    ensures MailboxInv(to, queue[n..], Log(log.sent, log.taken + Positions(|log.sent| - |queue|, n)), cap)
  {
  }

  /** The messages at the given positions. */
  function Pick(sent: seq<Message>, at: seq<nat>): (r: seq<Message>)
    requires forall i | 0 <= i < |at| :: at[i] < |sent|
    ensures |r| == |at| && forall i | 0 <= i < |at| :: r[i] == sent[at[i]]
  {
    seq(|at|, i requires 0 <= i < |at| => sent[at[i]])
  }

  lemma PickConcat(sent: seq<Message>, a: seq<nat>, b: seq<nat>)
    requires forall i | 0 <= i < |a + b| :: (a + b)[i] < |sent|
    requires forall i | 0 <= i < |a| :: a[i] < |sent|
    requires forall i | 0 <= i < |b| :: b[i] < |sent|
    ensures Pick(sent, a + b) == Pick(sent, a) + Pick(sent, b)
  {
  }

  lemma PickRange(sent: seq<Message>, start: nat)
    requires start <= |sent|
    ensures Pick(sent, Positions(start, |sent| - start)) == sent[start..]
  {
  }

  /** Received then queued is an in-order selection of what was sent: nothing is invented,
      duplicated or overtaken, and what is missing was dropped when the mailbox was full. */
  lemma InOrderSelection(to: string, queue: seq<Message>, log: Log, cap: nat) returns (at: seq<nat>)
    requires MailboxInv(to, queue, log, cap)
    ensures forall i, j | 0 <= i < j < |at| :: at[i] < at[j]
    ensures forall i | 0 <= i < |at| :: at[i] < |log.sent|
    ensures Pick(log.sent, log.taken) + queue == Pick(log.sent, at)
  {
    var start := |log.sent| - |queue|;
    at := log.taken + Positions(start, |queue|);
    PickConcat(log.sent, log.taken, Positions(start, |queue|));
    PickRange(log.sent, start);
  }

  method Append(queue: seq<Message>, m: Message, cap: nat) returns (r: seq<Message>)
    requires |queue| <= cap && cap >= 1
    ensures r == Enqueue(queue, m, cap)
  {
    r := queue + [m];
    ghost var all := r;
    while |r| > cap
      invariant Min(|all|, cap) <= |r| <= |all|
      invariant r == all[|all| - |r|..]
    {
      assert all[|all| - |r|..][1..] == all[|all| - |r| + 1..];
      r := r[1..];
    }
  }

  method TakeFront(queue: seq<Message>, n: nat) returns (messages: seq<Message>)
    requires n <= |queue|
    ensures messages == queue[..n]
  {
    messages := [];
    for i := 0 to n
      invariant messages == queue[..i]
    {
      messages := messages + [queue[i]];
    }
  }

  // ----- the bus -----

  /** Bound to one identity by the bus that issued it. */
  datatype Endpoint = Endpoint(identity: string)

  ghost predicate MailboxAt(queues: map<string, seq<Message>>, logs: map<string, Log>, cap: nat, to: string)
    requires to in queues && to in logs
  {
    Known(to) && MailboxInv(to, queues[to], logs[to], cap)
  }

  ghost predicate AllMailboxes(queues: map<string, seq<Message>>, logs: map<string, Log>, cap: nat) {
    && queues.Keys == logs.Keys
    && forall to | to in queues :: MailboxAt(queues, logs, cap, to)
  }

  lemma UpdateMailbox(
    queues: map<string, seq<Message>>, logs: map<string, Log>, cap: nat, to: string, queue: seq<Message>, log: Log)
    requires AllMailboxes(queues, logs, cap) && Known(to) && MailboxInv(to, queue, log, cap)
    ensures AllMailboxes(queues[to := queue], logs[to := log], cap)
  {
    var queues', logs' := queues[to := queue], logs[to := log];
    forall n | n in queues' ensures MailboxAt(queues', logs', cap, n) {
      if n != to { assert MailboxAt(queues, logs, cap, n); }
    }
  }

  function QueueIn(queues: map<string, seq<Message>>, to: string): seq<Message> {
    if to in queues then queues[to] else []
  }

  function LogIn(logs: map<string, Log>, to: string): Log {
    if to in logs then logs[to] else EMPTY_LOG
  }

  lemma MailboxIn(queues: map<string, seq<Message>>, logs: map<string, Log>, cap: nat, to: string)
    requires AllMailboxes(queues, logs, cap)
    ensures MailboxInv(to, QueueIn(queues, to), LogIn(logs, to), cap)
  {
    if to in queues { assert MailboxAt(queues, logs, cap, to); }
  }

  class AgentMessageBus {
    const maxMessages: nat
    var queues: map<string, seq<Message>>
    var endpoints: map<string, Endpoint>
    ghost var logs: map<string, Log>

    ghost predicate Valid()
      reads this
    {
      && 1 <= maxMessages <= MAX_PER_MAILBOX
      && AllMailboxes(queues, logs, maxMessages)
      && (forall name | name in endpoints :: Known(name) && endpoints[name].identity == name)
    }

    function QueueOf(to: string): seq<Message>
      reads this
    {
      QueueIn(queues, to)
    }

    ghost function LogOf(to: string): Log
      reads this
    {
      LogIn(logs, to)
    }

    constructor (limit: nat)
      requires limit >= 1
      ensures Valid() && queues == map[] && endpoints == map[] && logs == map[]
      ensures maxMessages == if limit < MAX_PER_MAILBOX then limit else MAX_PER_MAILBOX
    {
      maxMessages := if limit < MAX_PER_MAILBOX then limit else MAX_PER_MAILBOX;
      queues, endpoints, logs := map[], map[], map[];
    }

    /** One endpoint per canonical name, always the same; unknown names are refused. */
    method GetEndpoint(name: string) returns (r: Option<Endpoint>)
      requires Valid()
      modifies `endpoints
      ensures Valid()
      ensures r.Some? <==> CanonicalAgent(name).Some?
      ensures r.Some? ==> r.value.identity == RoleKey(name) && r.value in endpoints.Values
      ensures forall n | n in old(endpoints) :: n in endpoints && endpoints[n] == old(endpoints[n])
    {
      var canonical := CanonicalAgent(name);
      if canonical.None? {
        return None;
      }
      if canonical.value in endpoints {
        return Some(endpoints[canonical.value]);
      }
      endpoints := endpoints[canonical.value := Endpoint(canonical.value)];
      assert endpoints[canonical.value] in endpoints.Values;
      return Some(endpoints[canonical.value]);
    }

    method Approve(m: Message) returns (ok: bool)
      requires Known(m.sender)
      ensures ok <==> ValidMessage(m) && Known(RoleKey(m.recipient)) && ResultFor(m, m.sender, RoleKey(m.recipient))
    {
      RouteMatrix(m);
      ok := ValidMessage(m) && ValidateRoute(m.sender, m.recipient, m.messageType, m.constraints) == [];
    }

    /** Write one mailbox back. */
    method Store(to: string, queue: seq<Message>, ghost log: Log)
      requires Valid() && Known(to) && MailboxInv(to, queue, log, maxMessages)
      modifies `queues, `logs
      ensures Valid() && queues == old(queues)[to := queue] && logs == old(logs)[to := log]
    {
      UpdateMailbox(queues, logs, maxMessages, to, queue, log);
      queues := queues[to := queue];
      logs := logs[to := log];
    }

    method Deliver(to: string, m: Message)
      requires Valid() && Known(to) && ResultFor(m, m.sender, to)
      modifies `queues, `logs
      ensures Valid() && |old(QueueOf(to))| <= maxMessages
      ensures queues == old(queues)[to := Enqueue(old(QueueOf(to)), m, maxMessages)]
      ensures logs == old(logs)[to := Log(old(LogOf(to)).sent + [m], old(LogOf(to)).taken)]
    {
      MailboxIn(queues, logs, maxMessages, to);
      var queue := Append(QueueOf(to), m, maxMessages);
      EnqueueKeepsInv(to, QueueOf(to), LogOf(to), maxMessages, m);
      Store(to, queue, Log(LogOf(to).sent + [m], LogOf(to).taken));
    }

    /** Sending through an endpoint: the sender is the endpoint's identity, whatever the caller
        says. `None` stands for the `ValueError` of a refused message. */
    method Send(e: Endpoint, draft: Message) returns (r: Option<Message>)
      requires Valid() && e in endpoints.Values
      modifies `queues, `logs
      ensures Valid()
      ensures r.Some? <==> ValidMessage(draft.(sender := e.identity)) && Known(RoleKey(draft.recipient)) &&
                           ResultFor(draft.(sender := e.identity), e.identity, RoleKey(draft.recipient))
      ensures r.Some? ==> r.value == draft.(sender := e.identity)
      ensures r.None? ==> queues == old(queues) && logs == old(logs)
      ensures r.Some? ==>
                var to := RoleKey(draft.recipient);
                && |old(QueueOf(to))| <= maxMessages
                && queues == old(queues)[to := Enqueue(old(QueueOf(to)), r.value, maxMessages)]
                && logs == old(logs)[to := Log(old(LogOf(to)).sent + [r.value], old(LogOf(to)).taken)]
    {
      var m := draft.(sender := e.identity);
      var ok := Approve(m);
      if !ok {
        return None;
      }
      Deliver(RoleKey(m.recipient), m);
      return Some(m);
    }

    /** Remove the oldest `n` messages of a mailbox. */
    method PopFront(to: string, n: nat) returns (messages: seq<Message>)
      requires Valid() && to in queues && n <= |queues[to]|
      modifies `queues, `logs
      ensures Valid() && messages == old(queues[to])[..n]
      ensures queues == old(queues)[to := old(queues[to])[n..]]
      ensures to in old(logs)
      ensures logs == old(logs)[to :=
                Log(old(logs[to]).sent, old(logs[to]).taken + Positions(|old(logs[to]).sent| - |old(queues[to])|, n))]
    {
      var queue := queues[to];
      messages := TakeFront(queue, n);
      MailboxIn(queues, logs, maxMessages, to);
      ghost var log := Log(logs[to].sent, logs[to].taken + Positions(|logs[to].sent| - |queue|, n));
      TakeKeepsInv(to, queue, logs[to], maxMessages, n);
      assert MailboxAt(queues, logs, maxMessages, to);
      Store(to, queue[n..], log);
    }

    /** Take the oldest messages of one's own mailbox, at most `limit`. Other mailboxes keep
        theirs. */
    method Receive(e: Endpoint, limit: int) returns (r: Option<seq<Message>>)
      requires Valid() && e in endpoints.Values
      modifies `queues, `logs
      ensures Valid()
      ensures r.Some? <==> limit >= 1
      ensures r.Some? ==>
                |r.value| == Min(limit, |old(QueueOf(e.identity))|) && r.value == old(QueueOf(e.identity))[..|r.value|]
      ensures r.None? || r.value == [] ==> queues == old(queues) && logs == old(logs)
      ensures r.Some? && r.value != [] ==>
                var to := e.identity;
                && queues == old(queues)[to := old(QueueOf(to))[|r.value|..]]
                && logs == old(logs)[to := Log(old(LogOf(to)).sent, old(LogOf(to)).taken +
                     Positions(|old(LogOf(to)).sent| - |old(QueueOf(to))|, |r.value|))]
    {
      var to := e.identity;
      if limit < 1 {
        r := None;
      } else if to !in queues || queues[to] == [] {
        r := Some([]);
      } else {
        MailboxIn(queues, logs, maxMessages, to);
        var messages := PopFront(to, Min(limit, |queues[to]|));
        r := Some(messages);
      }
    }

    method Peek(e: Endpoint, limit: int) returns (r: Option<seq<Message>>)
      requires Valid() && e in endpoints.Values
      ensures r.Some? <==> limit >= 1
      ensures r.Some? ==>
                var queue := QueueOf(e.identity);
                |r.value| == Min(limit, |queue|) && r.value == queue[..|r.value|]
    {
      if limit < 1 {
        return None;
      }
      var queue := QueueOf(e.identity);
      return Some(if limit < |queue| then queue[..limit] else queue);
    }
  }
}
