/** Tasks of the development team and the batch planner (core/multi_agent.py). */
module MultiAgent {
  import opened Text

  datatype AgentRole =
    | Manager | Implementer | Tester | Debugger | Refactorer | Reviewer
    | Repairer | Integrator | General | Voice | English | News
    | Stocks | Market | Jobs | Music | Video | Idea

  /** The `value` of a role. */
  function RoleName(role: AgentRole): string {
    match role
    case Manager => "manager"
    case Implementer => "implementer"
    case Tester => "tester"
    case Debugger => "debugger"
    case Refactorer => "refactorer"
    case Reviewer => "reviewer"
    case Repairer => "repairer"
    case Integrator => "integrator"
    case General => "general"
    case Voice => "voice"
    case English => "english"
    case News => "news"
    case Stocks => "stocks"
    case Market => "market"
    case Jobs => "jobs"
    case Music => "music"
    case Video => "video"
    case Idea => "idea"
  }

  /** All roles by their value, in the order of the values. */
  const ROLES_BY_NAME := [
    Debugger, English, General, Idea, Implementer, Integrator, Jobs, Manager, Market,
    Music, News, Refactorer, Repairer, Reviewer, Stocks, Tester, Video, Voice]

  lemma EveryRoleListed(role: AgentRole)
    ensures role in ROLES_BY_NAME
  {
    match role
    case Manager => assert ROLES_BY_NAME[7] == role;
    case Implementer => assert ROLES_BY_NAME[4] == role;
    case Tester => assert ROLES_BY_NAME[15] == role;
    case Debugger => assert ROLES_BY_NAME[0] == role;
    case Refactorer => assert ROLES_BY_NAME[11] == role;
    case Reviewer => assert ROLES_BY_NAME[13] == role;
    case Repairer => assert ROLES_BY_NAME[12] == role;
    case Integrator => assert ROLES_BY_NAME[5] == role;
    case General => assert ROLES_BY_NAME[2] == role;
    case Voice => assert ROLES_BY_NAME[17] == role;
    case English => assert ROLES_BY_NAME[1] == role;
    case News => assert ROLES_BY_NAME[10] == role;
    case Stocks => assert ROLES_BY_NAME[14] == role;
    case Market => assert ROLES_BY_NAME[8] == role;
    case Jobs => assert ROLES_BY_NAME[6] == role;
    case Music => assert ROLES_BY_NAME[9] == role;
    case Video => assert ROLES_BY_NAME[16] == role;
    case Idea => assert ROLES_BY_NAME[3] == role;
  }

  lemma RoleNamesDiffer(r: AgentRole, s: AgentRole)
    requires RoleName(r) == RoleName(s)
    ensures r == s
  {
  }

  datatype AgentTask = AgentTask(
    id: string,
    role: AgentRole,
    instruction: string,
    resources: set<string>,
    dependsOn: seq<string>,
    priority: int)

  datatype AgentResult = AgentResult(
    taskId: string,
    success: bool,
    summary: string,
    changedResources: set<string>)

  const MAX_NAME := 200

  predicate ShortName(s: string) {
    !Blank(s) && |s| <= MAX_NAME
  }

  /** What the constructor of a task accepts; anything else raises `ValueError`. */
  predicate ValidTask(t: AgentTask) {
    && ShortName(t.id)
    && !Blank(t.instruction) && |t.instruction| <= 4000
    && |t.resources| <= 8
    && (forall r | r in t.resources :: ShortName(r))
    && |t.dependsOn| <= 8
    && (forall i | 0 <= i < |t.dependsOn| :: ShortName(t.dependsOn[i]))
    && t.id !in t.dependsOn
    && -10 <= t.priority <= 10
  }

  /** The constructor: `None` stands for the raised `ValueError`. */
  function NewTask(t: AgentTask): Option<AgentTask> {
    if ValidTask(t) then Some(t) else None
  }

  lemma NotBlankAt(s: string, i: nat)
    requires i < |s| && !IsSpace(s[i])
    ensures !Blank(s)
  {
  }

  lemma Constructed(id: string, role: AgentRole, text: string, resources: set<string>, deps: seq<string>)
    requires ShortName(id) && !Blank(text) && |text| <= 4000
    requires |resources| <= 8 && forall r | r in resources :: ShortName(r)
    requires |deps| <= 1 && forall i | 0 <= i < |deps| :: ShortName(deps[i]) && deps[i] != id
    ensures ValidTask(AgentTask(id, role, text, resources, deps, 0))
  {
  }

  predicate Conflict(a: AgentTask, b: AgentTask) {
    a.resources * b.resources != {}
  }

  /** The sort key `(-priority, task_id)`: `a` is scheduled ahead of `b`. */
  predicate Before(a: AgentTask, b: AgentTask) {
    a.priority > b.priority || (a.priority == b.priority && Less(a.id, b.id))
  }

  predicate Ready(t: AgentTask, completed: set<string>) {
    forall i | 0 <= i < |t.dependsOn| :: t.dependsOn[i] in completed
  }

  function Elems(s: seq<AgentTask>): set<AgentTask> {
    set i | 0 <= i < |s| :: s[i]
  }

  function IdsOf(s: seq<AgentTask>): set<string> {
    set i | 0 <= i < |s| :: s[i].id
  }

  function Ids(s: set<AgentTask>): set<string> {
    set t | t in s :: t.id
  }

  predicate DistinctIds(s: seq<AgentTask>) {
    forall i, j | 0 <= i < j < |s| :: s[i].id != s[j].id
  }

  predicate Identified(s: set<AgentTask>) {
    forall a, b | a in s && b in s && a.id == b.id :: a == b
  }

  predicate Closed(s: seq<AgentTask>) {
    forall i | 0 <= i < |s| :: Ready(s[i], IdsOf(s))
  }

  // ----- what a correct plan is, independently of how it is computed -----

  predicate Ordered(s: seq<AgentTask>) {
    forall i, j | 0 <= i < j < |s| :: Before(s[i], s[j])
  }

  ghost predicate LeftOut(pending: set<AgentTask>, completed: set<string>, batch: seq<AgentTask>, t: AgentTask) {
    t in pending && Ready(t, completed) && t !in batch
  }

  ghost predicate Displaced(batch: seq<AgentTask>, t: AgentTask) {
    exists i | 0 <= i < |batch| :: Before(batch[i], t) && Conflict(batch[i], t)
  }

  /** `batch` is the greedy choice among the ready tasks of `pending`: ordered by the
      sort key, free of resource conflicts, and maximal in the strong sense that every
      ready task left out conflicts with a selected task that precedes it. */
  ghost predicate Greedy(pending: set<AgentTask>, completed: set<string>, batch: seq<AgentTask>) {
    && Ordered(batch)
    && (forall i, j | 0 <= i < j < |batch| :: !Conflict(batch[i], batch[j]))
    && (forall i | 0 <= i < |batch| :: batch[i] in pending && Ready(batch[i], completed))
    && (forall t | LeftOut(pending, completed, batch, t) :: Displaced(batch, t))
  }

  /** `batches` schedules all of `pending`, given that `completed` has run. */
  ghost predicate Schedule(pending: set<AgentTask>, completed: set<string>, batches: seq<seq<AgentTask>>)
    decreases |batches|
  {
    if batches == [] then pending == {}
    else
      && batches[0] != []
      && Greedy(pending, completed, batches[0])
      && Schedule(pending - Elems(batches[0]), completed + IdsOf(batches[0]), batches[1..])
  }

  /** A walk along dependencies through tasks of `s`. */
  ghost predicate IsWalk(s: set<AgentTask>, path: seq<AgentTask>) {
    && (forall i | 0 <= i < |path| :: path[i] in s)
    && (forall i, j | 0 <= i && j == i + 1 < |path| :: path[j].id in path[i].dependsOn)
  }

  /** A closed walk along dependencies through tasks of `s`. */
  ghost predicate IsCycle(s: set<AgentTask>, path: seq<AgentTask>) {
    |path| >= 2 && path[0] == path[|path| - 1] && IsWalk(s, path)
  }

  ghost predicate Acyclic(s: set<AgentTask>) {
    !exists path :: IsCycle(s, path)
  }

  datatype PlanResult =
    | Planned(batches: seq<seq<AgentTask>>)
    | DuplicateId(id: string)
    | MissingDependency(id: string, dependency: string)
    | CyclicDependencies
    | NothingSelected

  /** The whole contract of the planner, errors included. */
  ghost predicate PlanSpec(tasks: seq<AgentTask>, r: PlanResult) {
    match r
    case DuplicateId(id) =>
      exists j | 0 <= j < |tasks| :: DistinctIds(tasks[..j]) && tasks[j].id == id && id in IdsOf(tasks[..j])
    case MissingDependency(id, dep) =>
      && DistinctIds(tasks)
      && exists j, k | 0 <= j < |tasks| && 0 <= k < |tasks[j].dependsOn| ::
           && tasks[j].id == id && tasks[j].dependsOn[k] == dep
           && dep !in IdsOf(tasks)
           && (forall i | 0 <= i < k :: tasks[j].dependsOn[i] in IdsOf(tasks))
           && (forall i | 0 <= i < j :: Ready(tasks[i], IdsOf(tasks)))
    case CyclicDependencies => DistinctIds(tasks) && Closed(tasks) && !Acyclic(Elems(tasks))
    case NothingSelected => false
    case Planned(batches) => DistinctIds(tasks) && Closed(tasks) && Schedule(Elems(tasks), {}, batches)
  }

  /** A task list the planner is meant to accept. */
  ghost predicate Schedulable(tasks: seq<AgentTask>) {
    DistinctIds(tasks) && Closed(tasks) && Acyclic(Elems(tasks))
  }

  // ----- the planner -----

  function InsertTask(t: AgentTask, s: seq<AgentTask>): seq<AgentTask> {
    if s == [] || Before(t, s[0]) then [t] + s else [s[0]] + InsertTask(t, s[1..])
  }

  function SortTasks(s: seq<AgentTask>): seq<AgentTask> {
    if s == [] then [] else InsertTask(s[0], SortTasks(s[1..]))
  }

  lemma BeforeTotal(a: AgentTask, b: AgentTask)
    ensures a.id != b.id ==> Before(a, b) || Before(b, a)
    ensures !(Before(a, b) && Before(b, a))
  {
    LessTotal(a.id, b.id);
  }

  lemma BeforeTransitive(a: AgentTask, b: AgentTask, c: AgentTask)
    requires Before(a, b) && Before(b, c)
    ensures Before(a, c)
  {
    if a.priority == b.priority == c.priority {
      LessTransitive(a.id, b.id, c.id);
    }
  }

  lemma ElemsConcat(a: seq<AgentTask>, b: seq<AgentTask>)
    ensures Elems(a + b) == Elems(a) + Elems(b)
    ensures IdsOf(a + b) == IdsOf(a) + IdsOf(b)
  {
    var ab := a + b;
    assert forall i | 0 <= i < |b| :: ab[|a| + i] == b[i];
    assert forall i | 0 <= i < |a| :: ab[i] == a[i];
    assert Elems(b) <= Elems(ab) && IdsOf(b) <= IdsOf(ab);
  }

  lemma IdsAgree(a: seq<AgentTask>)
    ensures IdsOf(a) == Ids(Elems(a))
  {
    forall x | x in IdsOf(a) ensures x in Ids(Elems(a)) {
      var i :| 0 <= i < |a| && a[i].id == x;
      assert a[i] in Elems(a);
    }
  }

  lemma {:induction false} InsertTaskCorrect(t: AgentTask, s: seq<AgentTask>)
    requires Ordered(s) && t.id !in IdsOf(s)
    ensures Ordered(InsertTask(t, s))
    ensures Elems(InsertTask(t, s)) == Elems(s) + {t}
  {
    assert Elems([t]) == {t} by { assert [t][0] == t; }
    if s == [] {
      assert [t] + s == [t];
    } else if Before(t, s[0]) {
      var r := [t] + s;
      forall i, j | 0 <= i < j < |r| ensures Before(r[i], r[j]) {
        if i == 0 && j > 1 {
          BeforeTransitive(t, s[0], s[j - 1]);
        }
      }
      ElemsConcat([t], s);
    } else {
      assert s[0].id in IdsOf(s);
      BeforeTotal(t, s[0]);
      assert forall x | x in IdsOf(s[1..]) :: x in IdsOf(s);
      InsertTaskCorrect(t, s[1..]);
      var u := InsertTask(t, s[1..]);
      var r := [s[0]] + u;
      forall i, j | 0 <= i < j < |r| ensures Before(r[i], r[j]) {
        if i == 0 {
          assert u[j - 1] in Elems(u);
        }
      }
      ElemsConcat([s[0]], u);
      ElemsConcat([s[0]], s[1..]);
      assert s == [s[0]] + s[1..];
    }
  }

  lemma {:induction false} SortTasksCorrect(s: seq<AgentTask>)
    requires DistinctIds(s)
    ensures Ordered(SortTasks(s))
    ensures Elems(SortTasks(s)) == Elems(s)
  {
    if s == [] {
    } else {
      var u := SortTasks(s[1..]);
      SortTasksCorrect(s[1..]);
      IdsAgree(u);
      IdsAgree(s[1..]);
      assert s[0].id !in IdsOf(s[1..]) by {
        assert forall i | 0 <= i < |s[1..]| :: s[1..][i] == s[i + 1];
      }
      InsertTaskCorrect(s[0], u);
      ElemsConcat([s[0]], s[1..]);
      assert s == [s[0]] + s[1..];
      assert Elems([s[0]]) == {s[0]} by { assert [s[0]][0] == s[0]; }
    }
  }

  ghost predicate Tracks(tasks: seq<AgentTask>, pending: map<string, AgentTask>) {
    forall id | id in pending :: pending[id].id == id && pending[id] in tasks
  }

  lemma IdentifiedElems(tasks: seq<AgentTask>)
    requires DistinctIds(tasks)
    ensures Identified(Elems(tasks))
  {
    forall a, b | a in Elems(tasks) && b in Elems(tasks) && a.id == b.id ensures a == b {
      var i :| 0 <= i < |tasks| && tasks[i] == a;
      var j :| 0 <= j < |tasks| && tasks[j] == b;
    }
  }

  /** The ready tasks of one round, in input order. */
  method CollectReady(tasks: seq<AgentTask>, pending: map<string, AgentTask>, completed: set<string>)
    returns (ready: seq<AgentTask>)
    requires DistinctIds(tasks) && Tracks(tasks, pending)
    ensures DistinctIds(ready)
    ensures forall t :: t in ready <==> t in pending.Values && Ready(t, completed)
  {
    ready := [];
    for i := 0 to |tasks|
      invariant DistinctIds(ready)
      invariant forall t :: t in ready <==>
                  t in tasks[..i] && t.id in pending && Ready(t, completed)
    {
      if tasks[i].id in pending && Ready(tasks[i], completed) {
        assert forall t | t in ready :: t in tasks[..i] && t.id != tasks[i].id;
        ready := ready + [tasks[i]];
      }
    }
    IdentifiedElems(tasks);
    forall t | t in tasks && t.id in pending ensures t in pending.Values {
      assert t in Elems(tasks) && pending[t.id] in Elems(tasks);
      assert t == pending[t.id];
    }
  }

  lemma StaysDisplaced(batch: seq<AgentTask>, t: AgentTask, next: AgentTask)
    requires Displaced(batch, t)
    ensures Displaced(batch + [next], t)
  {
    var k :| 0 <= k < |batch| && Before(batch[k], t) && Conflict(batch[k], t);
    assert (batch + [next])[k] == batch[k];
  }

  /** `batch` is what a pass over `seen` keeps: no two kept tasks conflict, and whatever was
      left out conflicts with a kept task that comes before it. */
  ghost predicate Kept(seen: seq<AgentTask>, batch: seq<AgentTask>) {
    && Ordered(batch)
    && (forall k | 0 <= k < |batch| :: batch[k] in seen)
    && (forall j, k | 0 <= j < k < |batch| :: !Conflict(batch[j], batch[k]))
    && (forall t | t in seen && t !in batch :: Displaced(batch, t))
    && (seen != [] ==> batch != [])
  }

  lemma KeptWith(seen: seq<AgentTask>, batch: seq<AgentTask>, next: AgentTask)
    requires Kept(seen, batch) && forall t | t in seen :: Before(t, next)
    requires forall k | 0 <= k < |batch| :: !Conflict(next, batch[k])
    ensures Kept(seen + [next], batch + [next])
  {
    var more := batch + [next];
    forall t | t in seen + [next] && t !in more ensures Displaced(more, t) {
      assert t in seen && t !in batch;
      StaysDisplaced(batch, t, next);
    }
    assert forall k | 0 <= k < |more| :: more[k] in seen + [next];
  }

  lemma KeptWithout(seen: seq<AgentTask>, batch: seq<AgentTask>, next: AgentTask, k: nat)
    requires Kept(seen, batch) && forall t | t in seen :: Before(t, next)
    requires k < |batch| && Conflict(next, batch[k])
    ensures Kept(seen + [next], batch)
  {
    assert batch[k] in seen;
    assert Displaced(batch, next);
  }

  /** One pass over the sorted ready tasks, keeping each one that conflicts with
      nothing kept so far. */
  method TakeGreedily(sorted: seq<AgentTask>) returns (batch: seq<AgentTask>)
    requires Ordered(sorted)
    ensures Kept(sorted, batch)
  {
    batch := [];
    for i := 0 to |sorted|
      invariant Kept(sorted[..i], batch)
    {
      assert sorted[..i + 1] == sorted[..i] + [sorted[i]];
      assert forall t | t in sorted[..i] :: Before(t, sorted[i]);
      if forall k | 0 <= k < |batch| :: !Conflict(sorted[i], batch[k]) {
        KeptWith(sorted[..i], batch, sorted[i]);
        batch := batch + [sorted[i]];
      } else {
        ghost var k: nat :| k < |batch| && Conflict(sorted[i], batch[k]);
        KeptWithout(sorted[..i], batch, sorted[i], k);
      }
    }
    assert sorted[..|sorted|] == sorted;
  }

  method SelectBatch(tasks: seq<AgentTask>, pending: map<string, AgentTask>, completed: set<string>)
    returns (batch: seq<AgentTask>)
    requires DistinctIds(tasks) && Tracks(tasks, pending)
    ensures Greedy(pending.Values, completed, batch)
    ensures batch == [] ==> forall t | t in pending.Values :: !Ready(t, completed)
  {
    var ready := CollectReady(tasks, pending, completed);
    var sorted := SortTasks(ready);
    SortTasksCorrect(ready);
    assert forall t :: t in sorted <==> t in Elems(sorted);
    assert forall t :: t in ready <==> t in Elems(ready);
    batch := TakeGreedily(sorted);
    assert forall t :: t in sorted <==> t in pending.Values && Ready(t, completed);
  }

  /** Whatever schedules the rest completes a schedule of `goal` that starts with `done`. */
  ghost predicate Completes(
    goal: set<AgentTask>, pending: set<AgentTask>, completed: set<string>, done: seq<seq<AgentTask>>)
  {
    forall rest :: Schedule(pending, completed, rest) ==> Schedule(goal, {}, done + rest)
  }

  lemma CompletesNothing(goal: set<AgentTask>)
    ensures Completes(goal, goal, {}, [])
  {
    assert forall rest: seq<seq<AgentTask>> :: [] + rest == rest;
  }

  lemma CompletesAll(goal: set<AgentTask>, completed: set<string>, done: seq<seq<AgentTask>>)
    requires Completes(goal, {}, completed, done)
    ensures Schedule(goal, {}, done)
  {
    assert Schedule({}, completed, []);
    assert done + [] == done;
  }

  lemma CompletesStep(
    goal: set<AgentTask>, pending: set<AgentTask>, completed: set<string>,
    done: seq<seq<AgentTask>>, batch: seq<AgentTask>)
    requires Completes(goal, pending, completed, done)
    requires batch != [] && Greedy(pending, completed, batch)
    ensures Completes(goal, pending - Elems(batch), completed + IdsOf(batch), done + [batch])
  {
    forall rest | Schedule(pending - Elems(batch), completed + IdsOf(batch), rest)
      ensures Schedule(goal, {}, (done + [batch]) + rest)
    {
      var longer := [batch] + rest;
      assert longer[0] == batch && longer[1..] == rest;
      assert Schedule(pending, completed, longer);
      assert (done + [batch]) + rest == done + longer;
    }
  }

  lemma TrackedValues(tasks: seq<AgentTask>, pending: map<string, AgentTask>)
    requires Tracks(tasks, pending)
    ensures forall t :: t in pending.Values <==> t.id in pending && pending[t.id] == t
  {
    forall t | t in pending.Values ensures t.id in pending && pending[t.id] == t {
      var id :| id in pending && pending[id] == t;
    }
  }

  lemma {:induction false} SubsetSize<T>(a: set<T>, b: set<T>)
    requires a <= b
    ensures |a| <= |b|
  {
    if a == {} {
    } else {
      var x :| x in a;
      SubsetSize(a - {x}, b - {x});
    }
  }

  lemma DeletedKeys(pending: map<string, AgentTask>, batch: seq<AgentTask>, rest: map<string, AgentTask>)
    requires forall id | id in pending :: pending[id].id == id
    requires forall i | 0 <= i < |batch| :: batch[i].id in pending && pending[batch[i].id] == batch[i]
    requires batch != []
    requires rest == map id | id in pending && pending[id] !in batch :: pending[id]
    ensures pending.Keys == IdsOf(batch) + rest.Keys
    ensures |rest| < |pending|
  {
    forall x | x in pending.Keys && x !in rest.Keys ensures x in IdsOf(batch) {
      var i :| 0 <= i < |batch| && batch[i] == pending[x];
    }
    var gone := batch[0].id;
    assert gone in pending.Keys && gone !in rest.Keys;
    SubsetSize(rest.Keys, pending.Keys - {gone});
  }

  /** Deleting a batch from the dictionary of pending tasks. */
  lemma DeleteBatch(tasks: seq<AgentTask>, pending: map<string, AgentTask>, batch: seq<AgentTask>,
                    rest: map<string, AgentTask>)
    requires Tracks(tasks, pending)
    requires batch != [] && forall i | 0 <= i < |batch| :: batch[i] in pending.Values
    requires rest == map id | id in pending && pending[id] !in batch :: pending[id]
    ensures Tracks(tasks, rest)
    ensures rest.Values == pending.Values - Elems(batch)
    ensures pending.Keys == IdsOf(batch) + rest.Keys
    ensures |rest| < |pending|
  {
    TrackedValues(tasks, pending);
    assert forall t :: t in batch <==> t in Elems(batch);
    forall t ensures t in rest.Values <==> t in pending.Values - Elems(batch) {
      if t in pending.Values && t !in batch {
        assert t.id in rest && rest[t.id] == t;
      }
    }
    DeletedKeys(pending, batch, rest);
  }

  /** The first dependency, in input order, that names no task. */
  method FindMissing(tasks: seq<AgentTask>, pending: map<string, AgentTask>) returns (r: Option<PlanResult>)
    requires DistinctIds(tasks) && pending.Keys == IdsOf(tasks)
    ensures r.None? <==> Closed(tasks)
    ensures r.Some? ==> r.value.MissingDependency? && PlanSpec(tasks, r.value)
  {
    for i := 0 to |tasks|
      invariant forall j | 0 <= j < i :: Ready(tasks[j], IdsOf(tasks))
    {
      for k := 0 to |tasks[i].dependsOn|
        invariant forall m | 0 <= m < k :: tasks[i].dependsOn[m] in IdsOf(tasks)
      {
        if tasks[i].dependsOn[k] !in pending {
          assert !Ready(tasks[i], IdsOf(tasks));
          return Some(MissingDependency(tasks[i].id, tasks[i].dependsOn[k]));
        }
      }
    }
    return None;
  }

  lemma MoveOver<T>(done: set<T>, pending: set<T>, moved: set<T>, rest: set<T>, all: set<T>)
    requires done + pending == all && pending == moved + rest
    ensures done + moved + rest == all
  {
  }

  lemma AllPending(tasks: seq<AgentTask>, pending: map<string, AgentTask>)
    requires pending.Keys == IdsOf(tasks)
    requires forall i | 0 <= i < |tasks| :: pending[tasks[i].id] == tasks[i]
    ensures Tracks(tasks, pending) && pending.Values == Elems(tasks)
  {
    forall id | id in pending ensures pending[id].id == id && pending[id] in tasks {
      var i :| 0 <= i < |tasks| && tasks[i].id == id;
    }
    TrackedValues(tasks, pending);
    assert forall t :: t in tasks <==> t in Elems(tasks);
  }

  /** One turn of the main loop: select a batch and delete it from the pending tasks. */
  method TakeBatch(tasks: seq<AgentTask>, pending: map<string, AgentTask>, completed: set<string>)
    returns (batch: seq<AgentTask>, rest: map<string, AgentTask>)
    requires DistinctIds(tasks) && Tracks(tasks, pending)
    ensures batch == [] ==> forall t | t in pending.Values :: !Ready(t, completed)
    ensures batch != [] ==>
              && Greedy(pending.Values, completed, batch)
              && Tracks(tasks, rest)
              && rest.Values == pending.Values - Elems(batch)
              && pending.Keys == IdsOf(batch) + rest.Keys
              && |rest| < |pending|
  {
    batch := SelectBatch(tasks, pending, completed);
    rest := map id | id in pending && pending[id] !in batch :: pending[id];
    if batch != [] {
      DeleteBatch(tasks, pending, batch, rest);
    }
  }

  ghost predicate Waits(s: set<AgentTask>, t: AgentTask) {
    exists u :: u in s && u.id in t.dependsOn
  }

  lemma StuckWaits(tasks: seq<AgentTask>, pending: map<string, AgentTask>, completed: set<string>, t: AgentTask)
    requires Closed(tasks) && Tracks(tasks, pending) && t in tasks
    requires completed + pending.Keys == IdsOf(tasks)
    requires !Ready(t, completed)
    ensures Waits(pending.Values, t)
  {
    var i :| 0 <= i < |t.dependsOn| && t.dependsOn[i] !in completed;
    assert Ready(t, IdsOf(tasks));
    var u := pending[t.dependsOn[i]];
    assert u in pending.Values && u.id in t.dependsOn;
  }

  ghost predicate HasSuccessors(s: set<AgentTask>) {
    forall t {:trigger Waits(s, t)} | t in s :: Waits(s, t)
  }

  /** Pigeonhole: a sequence longer than the set it draws from repeats an element. */
  lemma {:induction false} Pigeonhole<T>(s: seq<T>, pool: set<T>)
    requires forall i | 0 <= i < |s| :: s[i] in pool
    requires |s| > |pool|
    ensures exists i, j | 0 <= i < j < |s| :: s[i] == s[j]
    decreases |s|
  {
    var last := s[|s| - 1];
    if j :| 0 <= j < |s| - 1 && s[j] == last {
      assert s[j] == s[|s| - 1];
    } else {
      var front := s[..|s| - 1];
      Pigeonhole(front, pool - {last});
      var i, j :| 0 <= i < j < |front| && front[i] == front[j];
      assert s[i] == s[j];
    }
  }

  ghost function Walk(s: set<AgentTask>, t: AgentTask, n: nat): (path: seq<AgentTask>)
    requires HasSuccessors(s) && t in s
    ensures |path| == n + 1 && path[0] == t && IsWalk(s, path)
    decreases n
  {
    if n == 0 then [t]
    else
      assert Waits(s, t);
      var u :| u in s && u.id in t.dependsOn;
      [t] + Walk(s, u, n - 1)
  }

  lemma SliceCycle(s: set<AgentTask>, path: seq<AgentTask>, i: nat, j: nat) returns (cycle: seq<AgentTask>)
    requires IsWalk(s, path) && i < j < |path| && path[i] == path[j]
    ensures IsCycle(s, cycle)
  {
    cycle := path[i..j + 1];
    forall a, b | 0 <= a && b == a + 1 < |cycle| ensures cycle[b].id in cycle[a].dependsOn {
      assert path[i + b].id in path[i + a].dependsOn;
    }
  }

  /** A nonempty set in which every task waits for another of its tasks has a cycle. */
  lemma SuccessorsMakeCycle(s: set<AgentTask>) returns (cycle: seq<AgentTask>)
    requires s != {} && HasSuccessors(s)
    ensures IsCycle(s, cycle)
  {
    var t :| t in s;
    var path := Walk(s, t, |s|);
    Pigeonhole(path, s);
    var i, j :| 0 <= i < j < |path| && path[i] == path[j];
    cycle := SliceCycle(s, path, i, j);
  }

  lemma CycleWidens(s: set<AgentTask>, t: set<AgentTask>, cycle: seq<AgentTask>)
    requires IsCycle(s, cycle) && s <= t
    ensures !Acyclic(t)
  {
    assert IsCycle(t, cycle);
  }

  lemma SuccessorsReachCycle(s: set<AgentTask>, t: AgentTask, all: set<AgentTask>)
    requires t in s && HasSuccessors(s) && s <= all
    ensures !Acyclic(all)
  {
    var cycle := SuccessorsMakeCycle(s);
    CycleWidens(s, all, cycle);
  }

  lemma StuckHasCycle(tasks: seq<AgentTask>, pending: map<string, AgentTask>, completed: set<string>)
    requires Closed(tasks) && pending != map[] && Tracks(tasks, pending)
    requires completed + pending.Keys == IdsOf(tasks)
    requires forall t | t in pending.Values :: !Ready(t, completed)
    ensures !Acyclic(Elems(tasks))
  {
    var s := pending.Values;
    forall t | t in s ensures t in Elems(tasks) && Waits(s, t) {
      assert t in tasks;
      StuckWaits(tasks, pending, completed, t);
    }
    var k :| k in pending;
    SuccessorsReachCycle(s, pending[k], Elems(tasks));
  }

  /** The main loop: select a batch, record it, delete it from the pending tasks. */
  method DrainPending(tasks: seq<AgentTask>, allTasks: map<string, AgentTask>) returns (r: PlanResult)
    requires DistinctIds(tasks) && Closed(tasks)
    requires allTasks.Keys == IdsOf(tasks)
    requires forall i | 0 <= i < |tasks| :: allTasks[tasks[i].id] == tasks[i]
    ensures r.Planned? || r.CyclicDependencies?
    ensures r.Planned? ==> Schedule(Elems(tasks), {}, r.batches)
    ensures r.CyclicDependencies? ==> !Acyclic(Elems(tasks))
  {
    var pending := allTasks;
    var batches: seq<seq<AgentTask>> := [];
    var completed: set<string> := {};
    ghost var goal := Elems(tasks);
    ghost var pool := goal;
    AllPending(tasks, pending);
    CompletesNothing(goal);
    while pending != map[]
      invariant Tracks(tasks, pending)
      invariant completed + pending.Keys == IdsOf(tasks)
      invariant pool == pending.Values
      invariant Completes(goal, pool, completed, batches)
      decreases |pending|
    {
      var batch, rest := TakeBatch(tasks, pending, completed);
      if batch == [] {
        StuckHasCycle(tasks, pending, completed);
        return CyclicDependencies;
      }
      CompletesStep(goal, pool, completed, batches, batch);
      MoveOver(completed, pending.Keys, IdsOf(batch), rest.Keys, IdsOf(tasks));
      batches := batches + [batch];
      completed := completed + IdsOf(batch);
      pending := rest;
      pool := pool - Elems(batch);
    }
    CompletesAll(goal, completed, batches);
    return Planned(batches);
  }

  method PlanBatches(tasks: seq<AgentTask>) returns (r: PlanResult)
    ensures PlanSpec(tasks, r)
  {
    var pending: map<string, AgentTask> := map[];
    for i := 0 to |tasks|
      invariant DistinctIds(tasks[..i])
      invariant pending.Keys == IdsOf(tasks[..i])
      invariant forall j | 0 <= j < i :: pending[tasks[j].id] == tasks[j]
    {
      if tasks[i].id in pending {
        return DuplicateId(tasks[i].id);
      }
      pending := pending[tasks[i].id := tasks[i]];
    }
    assert tasks[..|tasks|] == tasks;
    assert forall j | 0 <= j < |tasks| :: tasks[j].id in pending;
    if pending == map[] {
      return Planned([]);
    }
    var missing := FindMissing(tasks, pending);
    if missing.Some? {
      return missing.value;
    }
    r := DrainPending(tasks, pending);
  }

  // ----- cycles -----

  /** No cycle survives a schedule: its tasks can never enter the first batch. */
  lemma {:induction false} ScheduleAcyclic(
    pending: set<AgentTask>, completed: set<string>, batches: seq<seq<AgentTask>>, path: seq<AgentTask>)
    requires Schedule(pending, completed, batches)
    requires Identified(pending) && completed !! Ids(pending)
    ensures !IsCycle(pending, path)
    decreases |batches|
  {
    if batches != [] && IsCycle(pending, path) {
      var b := batches[0];
      var rest := pending - Elems(b);
      assert forall t | t in Elems(b) :: Ready(t, completed);
      forall i | 0 <= i < |path| ensures path[i] in rest {
        var k := if i < |path| - 1 then i else 0;
        assert path[k] == path[i] && path[k + 1].id in path[k].dependsOn;
        assert path[k + 1].id in Ids(pending);
        assert !Ready(path[k], completed);
      }
      assert forall i | 0 <= i < |b| :: b[i] in pending && b[i] in Elems(b);
      assert completed + IdsOf(b) !! Ids(rest);
      ScheduleAcyclic(rest, completed + IdsOf(b), batches[1..], path);
    }
  }

  lemma StepsOn(s: set<AgentTask>, path: seq<AgentTask>, i: nat)
    requires IsWalk(s, path) && i + 1 < |path|
    ensures path[i].dependsOn != []
  {
    assert path[i + 1].id in path[i].dependsOn;
  }

  /** A chain of three tasks can be scheduled. */
  lemma ThreeInARow(a: AgentTask, b: AgentTask, c: AgentTask)
    requires a.id != b.id && b.id != c.id && a.id != c.id
    requires a.dependsOn == [] && b.dependsOn == [a.id] && c.dependsOn == [b.id]
    ensures Schedulable([a, b, c])
  {
    var tasks := [a, b, c];
    assert tasks[0] == a && tasks[1] == b && tasks[2] == c;
    assert Elems(tasks) == {a, b, c} && IdsOf(tasks) == {a.id, b.id, c.id};
    forall path: seq<AgentTask> ensures !IsCycle({a, b, c}, path) {
      var walk := IsWalk({a, b, c}, path);
      assert walk && |path| > 1 ==> path[1].id in path[0].dependsOn;
      assert walk && |path| > 1 ==> (path[0] == b && path[1] == a) || (path[0] == c && path[1] == b);
      assert walk && |path| > 2 ==> path[2].id in path[1].dependsOn;
      assert walk && |path| > 2 ==> path[0] == c && path[1] == b && path[2] == a;
      if walk && |path| > 3 {
        StepsOn({a, b, c}, path, 2);
      }
    }
  }

  lemma PlannedIsAcyclic(tasks: seq<AgentTask>, batches: seq<seq<AgentTask>>)
    requires PlanSpec(tasks, Planned(batches))
    ensures Acyclic(Elems(tasks))
  {
    IdentifiedElems(tasks);
    forall path ensures !IsCycle(Elems(tasks), path) {
      ScheduleAcyclic(Elems(tasks), {}, batches, path);
    }
  }

  lemma DuplicateFound(tasks: seq<AgentTask>, id: string)
    requires PlanSpec(tasks, DuplicateId(id))
    ensures !DistinctIds(tasks)
  {
    var j :| 0 <= j < |tasks| && tasks[j].id == id && id in IdsOf(tasks[..j]);
    var i :| 0 <= i < j && tasks[..j][i].id == id;
    assert tasks[i].id == tasks[j].id;
  }

  lemma DependencyMissing(tasks: seq<AgentTask>, id: string, dep: string)
    requires PlanSpec(tasks, MissingDependency(id, dep))
    ensures DistinctIds(tasks) && !Closed(tasks)
  {
    var j, k :| 0 <= j < |tasks| && 0 <= k < |tasks[j].dependsOn| &&
                tasks[j].dependsOn[k] == dep && dep !in IdsOf(tasks);
    assert !Ready(tasks[j], IdsOf(tasks));
  }

  /** The planner succeeds exactly on the schedulable lists, and reports a cycle
      exactly when that is all that is wrong. */
  lemma PlannedIffSchedulable(tasks: seq<AgentTask>, r: PlanResult)
    requires PlanSpec(tasks, r)
    ensures r.Planned? <==> Schedulable(tasks)
    ensures r.CyclicDependencies? <==> DistinctIds(tasks) && Closed(tasks) && !Acyclic(Elems(tasks))
    ensures r.DuplicateId? <==> !DistinctIds(tasks)
    ensures r.MissingDependency? <==> DistinctIds(tasks) && !Closed(tasks)
    ensures !r.NothingSelected?
  {
    match r
    case Planned(batches) => PlannedIsAcyclic(tasks, batches);
    case DuplicateId(id) => DuplicateFound(tasks, id);
    case MissingDependency(id, dep) => DependencyMissing(tasks, id, dep);
    case _ =>
  }

  // ----- determinism -----

  /** If two greedy choices agree before position `k`, the second does not pass over
      the first one's task at `k`. */
  lemma NotOverlooked(
    pending: set<AgentTask>, completed: set<string>, a: seq<AgentTask>, b: seq<AgentTask>, k: nat)
    requires Greedy(pending, completed, a) && Greedy(pending, completed, b)
    requires k < |a| && k <= |b| && forall i | 0 <= i < k :: a[i] == b[i]
    ensures k < |b| && (b[k] == a[k] || Before(b[k], a[k]))
  {
    var x := a[k];
    forall i | 0 <= i < k ensures b[i] != x && !Conflict(b[i], x) {
      assert Before(a[i], x);
      BeforeTotal(x, x);
    }
    if x in b {
      var m :| 0 <= m < |b| && b[m] == x;
      assert k <= m;
    } else {
      assert LeftOut(pending, completed, b, x);
      var m :| 0 <= m < |b| && Before(b[m], x) && Conflict(b[m], x);
      assert k <= m;
      if k < m { BeforeTransitive(b[k], b[m], x); }
    }
  }

  lemma NextAgrees(
    pending: set<AgentTask>, completed: set<string>, a: seq<AgentTask>, b: seq<AgentTask>, k: nat)
    requires Greedy(pending, completed, a) && Greedy(pending, completed, b)
    requires k < |a| && k <= |b| && forall i | 0 <= i < k :: a[i] == b[i]
    ensures k < |b| && a[k] == b[k]
  {
    NotOverlooked(pending, completed, a, b, k);
    NotOverlooked(pending, completed, b, a, k);
    var x, y := a[k], b[k];
    BeforeTotal(x, y);
  }

  /** Two greedy choices from the same tasks agree up to any length. */
  lemma {:induction false} GreedyPrefix(
    pending: set<AgentTask>, completed: set<string>, a: seq<AgentTask>, b: seq<AgentTask>, n: nat)
    requires Greedy(pending, completed, a) && Greedy(pending, completed, b)
    requires n <= |a|
    ensures n <= |b| && forall i | 0 <= i < n :: a[i] == b[i]
  {
    if n == 0 {
    } else {
      GreedyPrefix(pending, completed, a, b, n - 1);
      NextAgrees(pending, completed, a, b, n - 1);
    }
  }

  lemma GreedyUnique(pending: set<AgentTask>, completed: set<string>, a: seq<AgentTask>, b: seq<AgentTask>)
    requires Greedy(pending, completed, a) && Greedy(pending, completed, b)
    ensures a == b
  {
    GreedyPrefix(pending, completed, a, b, |a|);
    GreedyPrefix(pending, completed, b, a, |b|);
  }

  lemma EmptySchedule(pending: set<AgentTask>, completed: set<string>, a: seq<seq<AgentTask>>)
    requires Schedule(pending, completed, a)
    ensures a == [] <==> pending == {}
  {
    if a != [] {
      assert a[0][0] in pending;
    }
  }

  lemma {:induction false} ScheduleUnique(
    pending: set<AgentTask>, completed: set<string>, a: seq<seq<AgentTask>>, b: seq<seq<AgentTask>>)
    requires Schedule(pending, completed, a) && Schedule(pending, completed, b)
    ensures a == b
    decreases |a|
  {
    EmptySchedule(pending, completed, a);
    EmptySchedule(pending, completed, b);
    if a == [] {
    } else {
      GreedyUnique(pending, completed, a[0], b[0]);
      ScheduleUnique(pending - Elems(a[0]), completed + IdsOf(a[0]), a[1..], b[1..]);
      assert a == [a[0]] + a[1..] && b == [b[0]] + b[1..];
    }
  }

  lemma SameTasks(a: seq<AgentTask>, b: seq<AgentTask>)
    requires multiset(a) == multiset(b)
    ensures Elems(a) == Elems(b) && IdsOf(a) == IdsOf(b)
    ensures Closed(a) ==> Closed(b)
  {
    forall t ensures t in a <==> t in b {
      assert t in a <==> t in multiset(a);
      assert t in b <==> t in multiset(b);
    }
    assert forall t :: t in Elems(a) <==> t in a;
    assert forall t :: t in Elems(b) <==> t in b;
    assert IdsOf(a) == Ids(Elems(a)) && IdsOf(b) == Ids(Elems(b)) by {
      IdsAgree(a);
      IdsAgree(b);
    }
    if Closed(a) {
      forall i | 0 <= i < |b| ensures Ready(b[i], IdsOf(b)) {
        assert b[i] in a;
      }
    }
  }

  /** Ids are distinct exactly when there are as many of them as tasks. */
  lemma {:induction false} DistinctIdsByCount(s: seq<AgentTask>)
    ensures |IdsOf(s)| <= |s|
    ensures DistinctIds(s) <==> |IdsOf(s)| == |s|
  {
    if s == [] {
    } else {
      var front, last := s[..|s| - 1], s[|s| - 1];
      DistinctIdsByCount(front);
      assert s == front + [last];
      ElemsConcat(front, [last]);
      assert IdsOf([last]) == {last.id} by { assert [last][0] == last; }
      assert IdsOf(s) == IdsOf(front) + {last.id};
      if last.id in IdsOf(front) {
        assert IdsOf(s) == IdsOf(front);
        var i :| 0 <= i < |front| && front[i].id == last.id;
        assert s[i].id == s[|s| - 1].id;
      } else {
        assert forall i | 0 <= i < |front| :: front[i] == s[i] && front[i].id in IdsOf(front);
      }
    }
  }

  /** The plan does not depend on the order in which the tasks are given. */
  lemma PlanIgnoresOrder(a: seq<AgentTask>, b: seq<AgentTask>, ra: PlanResult, rb: PlanResult)
    requires multiset(a) == multiset(b)
    requires PlanSpec(a, ra) && PlanSpec(b, rb)
    ensures ra.Planned? <==> rb.Planned?
    ensures ra.Planned? ==> ra == rb
    ensures ra.CyclicDependencies? <==> rb.CyclicDependencies?
    ensures ra.DuplicateId? <==> rb.DuplicateId?
    ensures ra.MissingDependency? <==> rb.MissingDependency?
  {
    PlannedIffSchedulable(a, ra);
    PlannedIffSchedulable(b, rb);
    SameTasks(a, b);
    SameTasks(b, a);
    DistinctIdsByCount(a);
    DistinctIdsByCount(b);
    assert |a| == |multiset(a)| == |multiset(b)| == |b|;
    if ra.Planned? {
      ScheduleUnique(Elems(a), {}, ra.batches, rb.batches);
    }
  }

  // ----- what a schedule gives to the runtimes -----

  function Flatten(batches: seq<seq<AgentTask>>): seq<AgentTask> {
    if batches == [] then [] else batches[0] + Flatten(batches[1..])
  }

  lemma {:induction false} FlattenSnoc(batches: seq<seq<AgentTask>>, b: seq<AgentTask>)
    ensures Flatten(batches + [b]) == Flatten(batches) + b
  {
    if batches == [] {
      assert [b][1..] == [];
    } else {
      assert (batches + [b])[1..] == batches[1..] + [b];
      FlattenSnoc(batches[1..], b);
    }
  }

  lemma FlattenStep(batches: seq<seq<AgentTask>>, k: nat)
    requires k < |batches|
    ensures Flatten(batches[..k + 1]) == Flatten(batches[..k]) + batches[k]
  {
    assert batches[..k + 1] == batches[..k] + [batches[k]];
    FlattenSnoc(batches[..k], batches[k]);
  }

  lemma BatchDistinct(pending: set<AgentTask>, completed: set<string>, b: seq<AgentTask>)
    requires Identified(pending) && Greedy(pending, completed, b)
    ensures DistinctIds(b)
  {
    forall i, j | 0 <= i < j < |b| ensures b[i].id != b[j].id {
      assert Before(b[i], b[j]);
      BeforeTotal(b[i], b[i]);
    }
  }

  /** Flattening a schedule lists every task exactly once. */
  lemma {:induction false} ScheduleIsPermutation(
    pending: set<AgentTask>, completed: set<string>, batches: seq<seq<AgentTask>>)
    requires Identified(pending) && Schedule(pending, completed, batches)
    ensures Elems(Flatten(batches)) == pending
    ensures DistinctIds(Flatten(batches))
    decreases |batches|
  {
    if batches == [] {
    } else {
      var b, f := batches[0], Flatten(batches[1..]);
      ScheduleIsPermutation(pending - Elems(b), completed + IdsOf(b), batches[1..]);
      ElemsConcat(b, f);
      assert Elems(b) <= pending;
      BatchDistinct(pending, completed, b);
      forall i, j | 0 <= i < |b| && 0 <= j < |f| ensures b[i].id != f[j].id {
        assert f[j] in Elems(f) && b[i] in Elems(b);
      }
      assert Flatten(batches) == b + f;
    }
  }

  /** Batch `k` is the greedy choice once the earlier batches have run: its tasks find
      their dependencies there, and touch disjoint resources. */
  lemma {:induction false} BatchIsGreedy(
    pending: set<AgentTask>, completed: set<string>, batches: seq<seq<AgentTask>>, k: nat)
    requires Schedule(pending, completed, batches) && k < |batches|
    ensures batches[k] != []
    ensures Greedy(pending - Elems(Flatten(batches[..k])), completed + IdsOf(Flatten(batches[..k])), batches[k])
    decreases k
  {
    if k == 0 {
      assert batches[..0] == [];
      assert pending - Elems([]) == pending && completed + IdsOf([]) == completed;
    } else {
      var b := batches[0];
      BatchIsGreedy(pending - Elems(b), completed + IdsOf(b), batches[1..], k - 1);
      assert batches[..k] == [b] + batches[1..][..k - 1];
      var f := Flatten(batches[1..][..k - 1]);
      assert Flatten(batches[..k]) == b + f;
      ElemsConcat(b, f);
      assert pending - Elems(b) - Elems(f) == pending - Elems(b + f);
      assert completed + IdsOf(b) + IdsOf(f) == completed + IdsOf(b + f);
    }
  }

  ghost predicate DependenciesFirst(s: seq<AgentTask>) {
    forall i | 0 <= i < |s| :: Ready(s[i], IdsOf(s[..i]))
  }

  /** Appending tasks whose dependencies are all present keeps dependencies first. */
  lemma AppendReady(s: seq<AgentTask>, b: seq<AgentTask>)
    requires DependenciesFirst(s)
    requires forall i | 0 <= i < |b| :: Ready(b[i], IdsOf(s))
    ensures DependenciesFirst(s + b)
  {
    var r := s + b;
    forall i | 0 <= i < |r| ensures Ready(r[i], IdsOf(r[..i])) {
      if i < |s| {
        assert r[..i] == s[..i];
      } else {
        assert r[..i] == s + b[..i - |s|];
        ElemsConcat(s, b[..i - |s|]);
        assert Ready(b[i - |s|], IdsOf(s));
      }
    }
  }

  lemma {:induction false} PrefixDependenciesFirst(tasks: seq<AgentTask>, batches: seq<seq<AgentTask>>, k: nat)
    requires Schedule(Elems(tasks), {}, batches) && k <= |batches|
    ensures DependenciesFirst(Flatten(batches[..k]))
  {
    if k == 0 {
      assert batches[..0] == [];
    } else {
      PrefixDependenciesFirst(tasks, batches, k - 1);
      BatchIsGreedy(Elems(tasks), {}, batches, k - 1);
      FlattenStep(batches, k - 1);
      var s := Flatten(batches[..k - 1]);
      assert {} + IdsOf(s) == IdsOf(s);
      AppendReady(s, batches[k - 1]);
    }
  }

  /** A plan runs every task exactly once, dependencies first. */
  lemma PlanIsTopological(tasks: seq<AgentTask>, batches: seq<seq<AgentTask>>)
    requires PlanSpec(tasks, Planned(batches))
    ensures |Flatten(batches)| == |tasks|
    ensures Elems(Flatten(batches)) == Elems(tasks)
    ensures DistinctIds(Flatten(batches)) && DependenciesFirst(Flatten(batches))
  {
    var f := Flatten(batches);
    IdentifiedElems(tasks);
    ScheduleIsPermutation(Elems(tasks), {}, batches);
    PrefixDependenciesFirst(tasks, batches, |batches|);
    assert batches[..|batches|] == batches;
    IdsAgree(f);
    IdsAgree(tasks);
    DistinctIdsByCount(f);
    DistinctIdsByCount(tasks);
  }

  lemma {:induction false} FlattenPrefix(batches: seq<seq<AgentTask>>, k: nat)
    requires k <= |batches|
    ensures Flatten(batches[..k]) <= Flatten(batches)
    decreases |batches| - k
  {
    if k == |batches| {
      assert batches[..k] == batches;
    } else {
      FlattenStep(batches, k);
      FlattenPrefix(batches, k + 1);
    }
  }

  /** Where batch `k` sits in the flattened plan. */
  lemma BatchPosition(batches: seq<seq<AgentTask>>, k: nat)
    requires k < |batches|
    ensures |Flatten(batches[..k + 1])| == |Flatten(batches[..k])| + |batches[k]| <= |Flatten(batches)|
    ensures var start := |Flatten(batches[..k])|;
            Flatten(batches)[start..start + |batches[k]|] == batches[k]
  {
    FlattenStep(batches, k);
    FlattenPrefix(batches, k + 1);
  }
}
