/** The planner of the management bridge (core/management_bridge.py): it keeps a model's
    plan inside the roles detected from the request and binds data-source instructions. */
module ManagementBridge {
  import opened Text
  import opened MultiAgent

  datatype ManagementPlan = ManagementPlan(objective: string, tasks: seq<AgentTask>, parallelSafe: bool)

  /** What the constructor of a plan accepts (core/management_ai.py). */
  predicate ValidPlan(p: ManagementPlan) {
    !Blank(p.objective) && 1 <= |p.tasks| <= 6
  }

  // ----- filtering -----

  /** Ids of the tasks whose role is out of scope. */
  function UnexpectedIds(tasks: seq<AgentTask>, allowed: set<AgentRole>): set<string> {
    set i | 0 <= i < |tasks| && tasks[i].role !in allowed :: tasks[i].id
  }

  predicate Keeps(t: AgentTask, allowed: set<AgentRole>, unexpected: set<string>) {
    t.role in allowed && forall i | 0 <= i < |t.dependsOn| :: t.dependsOn[i] !in unexpected
  }

  function Filter(tasks: seq<AgentTask>, allowed: set<AgentRole>, unexpected: set<string>): (r: seq<AgentTask>)
    ensures |r| <= |tasks|
    ensures forall t :: t in r <==> t in tasks && Keeps(t, allowed, unexpected)
  {
    if tasks == [] then []
    else if Keeps(tasks[0], allowed, unexpected) then [tasks[0]] + Filter(tasks[1..], allowed, unexpected)
    else Filter(tasks[1..], allowed, unexpected)
  }

  function Kept(tasks: seq<AgentTask>, allowed: set<AgentRole>): seq<AgentTask> {
    Filter(tasks, allowed, UnexpectedIds(tasks, allowed))
  }

  lemma {:induction false} FilterDistinct(tasks: seq<AgentTask>, allowed: set<AgentRole>, unexpected: set<string>)
    requires DistinctIds(tasks)
    ensures DistinctIds(Filter(tasks, allowed, unexpected))
  {
    if tasks == [] {
    } else {
      FilterDistinct(tasks[1..], allowed, unexpected);
      assert forall t | t in tasks[1..] :: t.id != tasks[0].id;
    }
  }

  /** Filtering keeps the order of the plan. */
  lemma {:induction false} FilterInOrder(a: seq<AgentTask>, b: seq<AgentTask>, allowed: set<AgentRole>,
      unexpected: set<string>)
    ensures Filter(a + b, allowed, unexpected) == Filter(a, allowed, unexpected) + Filter(b, allowed, unexpected)
  {
    if a == [] {
      assert a + b == b;
    } else {
      var ab := a + b;
      assert ab[0] == a[0] && ab[1..] == a[1..] + b;
      FilterInOrder(a[1..], b, allowed, unexpected);
      var front, rest := Filter(a[1..], allowed, unexpected), Filter(b, allowed, unexpected);
      assert [a[0]] + (front + rest) == ([a[0]] + front) + rest;
    }
  }

  // ----- fallback tasks -----

  lemma FirstRolesSorted(i: nat)
    requires i < 6
    ensures Less(RoleName(ROLES_BY_NAME[i]), RoleName(ROLES_BY_NAME[i + 1]))
  {
  }

  lemma MiddleRolesSorted(i: nat)
    requires 6 <= i < 12
    ensures Less(RoleName(ROLES_BY_NAME[i]), RoleName(ROLES_BY_NAME[i + 1]))
  {
  }

  lemma LastRolesSorted(i: nat)
    requires 12 <= i < 17
    ensures Less(RoleName(ROLES_BY_NAME[i]), RoleName(ROLES_BY_NAME[i + 1]))
  {
  }

  lemma RolesAreSorted(i: nat)
    requires i < 17
    ensures Less(RoleName(ROLES_BY_NAME[i]), RoleName(ROLES_BY_NAME[i + 1]))
  {
    if i < 6 {
      FirstRolesSorted(i);
    } else if i < 12 {
      MiddleRolesSorted(i);
    } else {
      LastRolesSorted(i);
    }
  }

  function Candidate(base: string, suffix: nat): string {
    if suffix < 2 then base else base + "-" + Decimal(suffix)
  }

  lemma CandidatesDiffer(base: string, a: nat, b: nat)
    requires 1 <= a < b
    ensures Candidate(base, a) != Candidate(base, b)
  {
    assert Candidate(base, b)[|base| + 1..] == Decimal(b);
    if a >= 2 {
      assert Candidate(base, a)[|base| + 1..] == Decimal(a);
      assert Decimal(a) != Decimal(b);
    }
  }

  lemma CandidateLength(base: string, k: nat)
    ensures base <= Candidate(base, k) && (k < 100 ==> |Candidate(base, k)| <= |base| + 3)
  {
  }

  ghost function CandidatesUpTo(base: string, n: nat): set<string> {
    if n == 0 then {} else CandidatesUpTo(base, n - 1) + {Candidate(base, n)}
  }

  lemma {:induction false} CandidateUpTo(base: string, n: nat, k: nat)
    requires 1 <= k
    ensures Candidate(base, k) in CandidatesUpTo(base, n) <==> k <= n
  {
    if n == 0 {
      assert Candidate(base, k) !in CandidatesUpTo(base, 0);
    } else if k == n {
      assert Candidate(base, n) in CandidatesUpTo(base, n);
    } else {
      CandidateUpTo(base, n - 1, k);
      CandidatesDiffer(base, if k < n then k else n, if k < n then n else k);
    }
  }

  lemma {:induction false} CandidateCount(base: string, n: nat)
    ensures |CandidatesUpTo(base, n)| == n
  {
    if n == 0 {
      assert CandidatesUpTo(base, 0) == {};
    } else {
      CandidateCount(base, n - 1);
      CandidateUpTo(base, n - 1, n);
    }
  }

  ghost predicate FreeAt(base: string, used: set<string>, id: string, k: nat) {
    k >= 1 && id == Candidate(base, k) && forall j | 1 <= j < k :: Candidate(base, j) in used
  }

  /** `id` is the first of `base`, `base-2`, `base-3`, ... that is not in `used`. */
  ghost predicate FirstFree(base: string, used: set<string>, id: string) {
    id !in used && exists k :: FreeAt(base, used, id, k)
  }

  lemma TakenCandidates(base: string, used: set<string>, n: nat)
    requires CandidatesUpTo(base, n) <= used
    ensures n <= |used| && forall j | 1 <= j <= n :: Candidate(base, j) in used
  {
    CandidateCount(base, n);
    SubsetSize(CandidatesUpTo(base, n), used);
    forall j | 1 <= j <= n ensures Candidate(base, j) in used {
      CandidateUpTo(base, n, j);
    }
  }

  /** The search for a fresh id ends because the candidates tried so far are distinct
      members of the finite set `used`. */
  method FreshId(base: string, used: set<string>) returns (id: string)
    ensures FirstFree(base, used, id) && base <= id
    ensures |used| < 90 ==> |id| <= |base| + 3
  {
    id := base;
    var suffix := 2;
    while id in used
      invariant suffix >= 2 && id == Candidate(base, suffix - 1)
      invariant CandidatesUpTo(base, suffix - 2) <= used
      decreases |used| + 2 - suffix
    {
      TakenCandidates(base, used, suffix - 1);
      id := base + "-" + Decimal(suffix);
      suffix := suffix + 1;
    }
    TakenCandidates(base, used, suffix - 2);
    CandidateLength(base, suffix - 1);
    assert FreeAt(base, used, id, suffix - 1);
  }

  function BaseId(role: AgentRole): string {
    RoleName(role) + "-task"
  }

  /** No role name contains a hyphen, so the text before the first one tells the role. */
  lemma PlainRoleName(role: AgentRole)
    ensures 1 <= |RoleName(role)| <= 20
    ensures forall i | 0 <= i < |RoleName(role)| :: 'a' <= RoleName(role)[i] <= 'z'
  {
  }

  lemma HyphenSplits(a: string, u: string, b: string, v: string)
    requires a + "-" + u == b + "-" + v
    requires '-' !in a && '-' !in b
    ensures a == b
  {
    var x := a + "-" + u;
    assert x[|a|] == '-' && x[|b|] == '-';
    assert forall i | 0 <= i < |a| :: x[i] == a[i] && a[i] in a;
    assert forall i | 0 <= i < |b| :: x[i] == b[i] && b[i] in b;
    assert a == x[..|a|] && b == x[..|b|];
  }

  function Tail(k: nat): string {
    if k < 2 then "task" else "task-" + Decimal(k)
  }

  lemma CandidateShape(role: AgentRole, k: nat)
    ensures Candidate(BaseId(role), k) == RoleName(role) + "-" + Tail(k)
    ensures '-' !in RoleName(role)
  {
    PlainRoleName(role);
    var name := RoleName(role);
    assert name + "-task" == name + "-" + "task";
    assert name + "-task" + "-" + Decimal(k) == name + "-" + ("task-" + Decimal(k));
  }

  lemma CandidatesTellRoles(r: AgentRole, s: AgentRole, k: nat, m: nat)
    requires Candidate(BaseId(r), k) == Candidate(BaseId(s), m)
    ensures r == s
  {
    CandidateShape(r, k);
    CandidateShape(s, m);
    HyphenSplits(RoleName(r), Tail(k), RoleName(s), Tail(m));
    RoleNamesDiffer(r, s);
  }

  function FallbackTask(id: string, role: AgentRole): AgentTask {
    AgentTask(id, role, "Handle the user's request for the " + RoleName(role) + " specialist.", {RoleName(role)}, [], 1)
  }

  predicate IsFallback(t: AgentTask, role: AgentRole) {
    t == FallbackTask(t.id, role)
  }

  lemma FallbackValid(id: string, role: AgentRole)
    requires RoleName(role) <= id && |id| <= 50
    ensures ValidTask(FallbackTask(id, role))
  {
    var name := RoleName(role);
    assert 1 <= |name| <= 20 && !IsSpace(name[0]);
    NotBlankAt(name, 0);
    NotBlankAt(id, 0);
    var text := "Handle the user's request for the " + name + " specialist.";
    NotBlankAt(text, 0);
    assert |{name}| == 1;
    assert forall r | r in {name} :: ShortName(r);
  }

  function RolesOf(tasks: seq<AgentTask>): set<AgentRole> {
    set i | 0 <= i < |tasks| :: tasks[i].role
  }

  ghost predicate Fallback(kept: seq<AgentTask>, allowed: set<AgentRole>, all: seq<AgentTask>, i: nat)
    requires i < |all|
  {
    && IsFallback(all[i], all[i].role) && ValidTask(all[i])
    && all[i].role in allowed - RolesOf(kept)
    && FirstFree(BaseId(all[i].role), IdsOf(all[..i]), all[i].id)
  }

  /** Everything after `kept` is a fallback for a role that `kept` lacks, one for each
      role, under an id that is not used before. */
  ghost predicate Extended(kept: seq<AgentTask>, allowed: set<AgentRole>, all: seq<AgentTask>) {
    && kept <= all
    && (forall i | |kept| <= i < |all| :: Fallback(kept, allowed, all, i))
    && (forall i, j | |kept| <= i < j < |all| :: all[i].role != all[j].role)
  }

  ghost predicate Covered(kept: seq<AgentTask>, allowed: set<AgentRole>, all: seq<AgentTask>) {
    Extended(kept, allowed, all) && RolesOf(all) == RolesOf(kept) + allowed
  }

  lemma ExtendOne(kept: seq<AgentTask>, allowed: set<AgentRole>, all: seq<AgentTask>, t: AgentTask)
    requires Extended(kept, allowed, all)
    requires IsFallback(t, t.role) && ValidTask(t) && t.role in allowed - RolesOf(kept)
    requires FirstFree(BaseId(t.role), IdsOf(all), t.id)
    requires forall i | |kept| <= i < |all| :: all[i].role != t.role
    ensures Extended(kept, allowed, all + [t])
  {
    var more := all + [t];
    forall i | |kept| <= i < |more| ensures Fallback(kept, allowed, more, i) {
      if i < |all| {
        assert Fallback(kept, allowed, all, i);
        assert more[..i] == all[..i];
      } else {
        assert more[..i] == all;
      }
    }
  }

  /** Add a fallback task for `role`, which no task has yet. */
  method AddFallback(kept: seq<AgentTask>, allowed: set<AgentRole>, all: seq<AgentTask>, role: AgentRole)
    returns (task: AgentTask)
    requires Extended(kept, allowed, all) && |all| < 90
    requires role in allowed - RolesOf(kept) && forall i | |kept| <= i < |all| :: all[i].role != role
    ensures task.role == role && Extended(kept, allowed, all + [task])
  {
    DistinctIdsByCount(all);
    var id := FreshId(BaseId(role), IdsOf(all));
    FallbackValid(id, role);
    task := FallbackTask(id, role);
    ExtendOne(kept, allowed, all, task);
  }

  /** `tasks` has roles from `roles` only, in the order of `roles`. */
  ghost predicate InOrderOf(roles: seq<AgentRole>, tasks: seq<AgentTask>)
    decreases |roles|
  {
    if roles == [] then tasks == []
    else
      var front, last := roles[..|roles| - 1], roles[|roles| - 1];
      || InOrderOf(front, tasks)
      || (tasks != [] && tasks[|tasks| - 1].role == last && InOrderOf(front, tasks[..|tasks| - 1]))
  }

  lemma OrderGrows(roles: seq<AgentRole>, n: nat, tasks: seq<AgentTask>, t: AgentTask)
    requires n < |roles| && InOrderOf(roles[..n], tasks) && t.role == roles[n]
    ensures InOrderOf(roles[..n + 1], tasks + [t])
  {
    assert roles[..n + 1][..n] == roles[..n];
    assert (tasks + [t])[..|tasks|] == tasks;
  }

  lemma OrderSkips(roles: seq<AgentRole>, n: nat, tasks: seq<AgentTask>)
    requires n < |roles| && InOrderOf(roles[..n], tasks)
    ensures InOrderOf(roles[..n + 1], tasks)
  {
    assert roles[..n + 1][..n] == roles[..n];
  }

  function AllowedOf(roles: seq<AgentRole>, allowed: set<AgentRole>): set<AgentRole> {
    set role | role in roles && role in allowed
  }

  /** State of the pass over the roles once the roles `done` were looked at. */
  ghost predicate Filled(kept: seq<AgentTask>, allowed: set<AgentRole>, done: seq<AgentRole>, all: seq<AgentTask>) {
    && Extended(kept, allowed, all)
    && |all| <= |kept| + |done|
    && InOrderOf(done, all[|kept|..])
    && (forall i | |kept| <= i < |all| :: all[i].role in done)
    && RolesOf(all) == RolesOf(kept) + AllowedOf(done, allowed)
  }

  lemma AppendTask(all: seq<AgentTask>, t: AgentTask)
    ensures IdsOf(all + [t]) == IdsOf(all) + {t.id}
    ensures RolesOf(all + [t]) == RolesOf(all) + {t.role}
  {
    var more := all + [t];
    assert more[|all|] == t;
    assert forall i | 0 <= i < |all| :: more[i] == all[i];
  }

  method FillRole(
    kept: seq<AgentTask>, allowed: set<AgentRole>, ghost roles: seq<AgentRole>, ghost n: nat, role: AgentRole,
    all: seq<AgentTask>)
    returns (more: seq<AgentTask>)
    requires n < |roles| && roles[n] == role && role !in roles[..n]
    requires Filled(kept, allowed, roles[..n], all) && |all| < 90
    ensures Filled(kept, allowed, roles[..n + 1], more)
  {
    assert roles[..n + 1] == roles[..n] + [role];
    if role in allowed && role !in RolesOf(kept) {
      var task := AddFallback(kept, allowed, all, role);
      AppendTask(all, task);
      OrderGrows(roles, n, all[|kept|..], task);
      more := all + [task];
      assert more[|kept|..] == all[|kept|..] + [task];
    } else {
      OrderSkips(roles, n, all[|kept|..]);
      more := all;
    }
  }

  /** One pass over `roles`, adding a fallback for each allowed one that has no task. */
  method AddFallbacks(kept: seq<AgentTask>, allowed: set<AgentRole>, roles: seq<AgentRole>)
    returns (all: seq<AgentTask>)
    requires |kept| + |roles| < 90
    requires forall i, j | 0 <= i < j < |roles| :: roles[i] != roles[j]
    ensures Extended(kept, allowed, all) && InOrderOf(roles, all[|kept|..])
    ensures RolesOf(all) == RolesOf(kept) + AllowedOf(roles, allowed)
  {
    all := kept;
    for n := 0 to |roles|
      invariant Filled(kept, allowed, roles[..n], all)
    {
      all := FillRole(kept, allowed, roles, n, roles[n], all);
    }
    assert roles[..|roles|] == roles;
  }

  lemma AllRolesCovered(allowed: set<AgentRole>)
    ensures AllowedOf(ROLES_BY_NAME, allowed) == allowed
  {
    forall role | role in allowed ensures role in ROLES_BY_NAME {
      EveryRoleListed(role);
    }
  }

  lemma {:induction false} RolesSorted(i: nat, j: nat)
    requires i < j < |ROLES_BY_NAME|
    ensures Less(RoleName(ROLES_BY_NAME[i]), RoleName(ROLES_BY_NAME[j]))
    ensures ROLES_BY_NAME[i] != ROLES_BY_NAME[j]
    decreases j - i
  {
    LessTotal(RoleName(ROLES_BY_NAME[i]), RoleName(ROLES_BY_NAME[j]));
    RolesAreSorted(i);
    if i + 1 < j {
      RolesSorted(i + 1, j);
      LessTransitive(RoleName(ROLES_BY_NAME[i]), RoleName(ROLES_BY_NAME[i + 1]), RoleName(ROLES_BY_NAME[j]));
    }
  }

  // ----- binding instructions to the source -----

  /** `_source_bound_instruction`; `ticker` is what resolving the message gave. */
  function SourceBound(role: AgentRole, ticker: Option<string>): Option<string> {
    if role == News then Some("AI NEWS")
    else if role == Stocks && ticker.Some? then Some("ticker " + ticker.value)
    else None
  }

  /** Replacing an instruction constructs the task anew, so it is checked again. */
  function Bind(t: AgentTask, ticker: Option<string>): AgentTask {
    var bound := SourceBound(t.role, ticker);
    if bound.Some? then t.(instruction := bound.value) else t
  }

  function BindAll(tasks: seq<AgentTask>, ticker: Option<string>): (r: seq<AgentTask>)
    ensures |r| == |tasks| && forall i | 0 <= i < |r| :: r[i] == Bind(tasks[i], ticker)
  {
    seq(|tasks|, i requires 0 <= i < |tasks| => Bind(tasks[i], ticker))
  }

  // ----- the planner -----

  predicate BindingsValid(tasks: seq<AgentTask>, ticker: Option<string>) {
    forall i | 0 <= i < |tasks| :: SourceBound(tasks[i].role, ticker).Some? ==> NewTask(Bind(tasks[i], ticker)).Some?
  }

  lemma KeptRoles(tasks: seq<AgentTask>, allowed: set<AgentRole>)
    ensures RolesOf(Kept(tasks, allowed)) <= allowed
  {
    var kept := Kept(tasks, allowed);
    forall i | 0 <= i < |kept| ensures kept[i].role in allowed {
      assert kept[i] in kept;
    }
  }

  /** The restricted plan. `None` stands for the `ValueError` of a plan or task that its
      constructor refuses. */
  method RestrictPlan(plan: ManagementPlan, allowed: set<AgentRole>, ticker: Option<string>)
    returns (r: Option<ManagementPlan>, all: seq<AgentTask>)
    requires ValidPlan(plan)
    ensures Covered(Kept(plan.tasks, allowed), allowed, all) && RolesOf(all) == allowed
    ensures InOrderOf(ROLES_BY_NAME, all[|Kept(plan.tasks, allowed)|..])
    ensures r.Some? ==> ValidPlan(r.value) && r.value.objective == plan.objective
    ensures r.Some? ==> r.value.tasks == BindAll(all, ticker)
    ensures r.Some? && all != Kept(plan.tasks, allowed) ==> !r.value.parallelSafe
    ensures r.Some? && all == Kept(plan.tasks, allowed) ==> r.value.parallelSafe == plan.parallelSafe
    ensures r.Some? <==> 1 <= |all| <= 6 && BindingsValid(all, ticker)
  {
    var kept := Kept(plan.tasks, allowed);
    KeptRoles(plan.tasks, allowed);
    AllRolesCovered(allowed);
    forall i, j | 0 <= i < j < |ROLES_BY_NAME| ensures ROLES_BY_NAME[i] != ROLES_BY_NAME[j] {
      RolesSorted(i, j);
    }
    var tasks := AddFallbacks(kept, allowed, ROLES_BY_NAME);
    all := tasks;
    if tasks == [] || |tasks| > 6 || !BindingsValid(tasks, ticker) {
      return None, all;
    }
    var safe := plan.parallelSafe && tasks == kept;
    return Some(ManagementPlan(plan.objective, BindAll(tasks, ticker), safe)), all;
  }

  // ----- the rewritten plan stays schedulable -----

  lemma ExtendedDistinct(kept: seq<AgentTask>, allowed: set<AgentRole>, all: seq<AgentTask>)
    requires DistinctIds(kept) && Extended(kept, allowed, all)
    ensures DistinctIds(all)
  {
    forall i, j | 0 <= i < j < |all| ensures all[i].id != all[j].id {
      if j >= |kept| {
        assert Fallback(kept, allowed, all, j);
        assert all[..j][i] == all[i];
        assert all[i].id in IdsOf(all[..j]);
      }
    }
  }

  /** A task with dependencies is no fallback, so it comes from the model's plan. */
  lemma DependentIsOld(tasks: seq<AgentTask>, allowed: set<AgentRole>, all: seq<AgentTask>, t: AgentTask)
    requires Extended(Kept(tasks, allowed), allowed, all) && t in Elems(all) && t.dependsOn != []
    ensures t in Elems(tasks)
  {
    var kept := Kept(tasks, allowed);
    forall i | |kept| <= i < |all| ensures all[i].dependsOn == [] {
      assert Fallback(kept, allowed, all, i);
    }
    var i :| 0 <= i < |all| && all[i] == t;
    assert kept[i] in kept && t in tasks;
  }

  /** Dropping tasks and adding independent ones creates no cycle. */
  lemma NoNewCycle(tasks: seq<AgentTask>, allowed: set<AgentRole>, all: seq<AgentTask>, path: seq<AgentTask>)
    requires Extended(Kept(tasks, allowed), allowed, all) && Acyclic(Elems(tasks))
    ensures !IsCycle(Elems(all), path)
  {
    if IsCycle(Elems(all), path) {
      forall i | 0 <= i < |path| ensures path[i] in Elems(tasks) {
        var k := if i == |path| - 1 then 0 else i;
        var next := k + 1;
        assert path[next].id in path[k].dependsOn;
        DependentIsOld(tasks, allowed, all, path[k]);
      }
      assert IsCycle(Elems(tasks), path);
    }
  }

  /** Binding touches neither ids nor dependencies. */
  ghost predicate SameShape(a: seq<AgentTask>, b: seq<AgentTask>) {
    |a| == |b| && forall i | 0 <= i < |a| :: a[i].id == b[i].id && a[i].dependsOn == b[i].dependsOn
  }

  ghost function Twin(a: seq<AgentTask>, b: seq<AgentTask>, t: AgentTask): (r: AgentTask)
    requires SameShape(a, b) && t in Elems(b)
    ensures r in Elems(a) && r.id == t.id && r.dependsOn == t.dependsOn
  {
    var i :| 0 <= i < |b| && b[i] == t;
    a[i]
  }

  lemma SameShapeCycle(a: seq<AgentTask>, b: seq<AgentTask>, path: seq<AgentTask>) returns (twins: seq<AgentTask>)
    requires SameShape(a, b) && IsCycle(Elems(b), path)
    ensures IsCycle(Elems(a), twins)
  {
    twins := seq(|path|, k requires 0 <= k < |path| => Twin(a, b, path[k]));
    forall i, j | 0 <= i && j == i + 1 < |twins| ensures twins[j].id in twins[i].dependsOn {
      assert path[j].id in path[i].dependsOn;
    }
  }

  lemma SameShapeSchedulable(a: seq<AgentTask>, b: seq<AgentTask>)
    requires SameShape(a, b) && Schedulable(a)
    ensures Schedulable(b)
  {
    assert IdsOf(a) == IdsOf(b);
    forall i | 0 <= i < |b| ensures Ready(b[i], IdsOf(b)) {
      assert Ready(a[i], IdsOf(a));
    }
    forall path ensures !IsCycle(Elems(b), path) {
      if IsCycle(Elems(b), path) {
        var twins := SameShapeCycle(a, b, path);
      }
    }
  }

  /** The fallback ids of earlier roles do not get in the way of a later role. */
  lemma FallbackIdsIndependent(kept: seq<AgentTask>, allowed: set<AgentRole>, all: seq<AgentTask>, i: nat, k: nat)
    requires Extended(kept, allowed, all) && |kept| <= i < |all|
    ensures Candidate(BaseId(all[i].role), k) in IdsOf(all[..i]) <==> Candidate(BaseId(all[i].role), k) in IdsOf(kept)
  {
    var x, before := Candidate(BaseId(all[i].role), k), all[..i];
    if x in IdsOf(before) {
      var m :| 0 <= m < |before| && before[m].id == x;
      if m >= |kept| {
        assert Fallback(kept, allowed, all, m);
        var n :| FreeAt(BaseId(all[m].role), IdsOf(all[..m]), all[m].id, n);
        CandidatesTellRoles(all[i].role, all[m].role, k, n);
      }
      assert m < |kept| && kept[m].id == x;
    }
    if x in IdsOf(kept) {
      var m :| 0 <= m < |kept| && kept[m].id == x;
      assert before[m] == kept[m];
    }
  }

  /** Which id a fallback gets is decided by the kept tasks alone. */
  lemma FallbackId(kept: seq<AgentTask>, allowed: set<AgentRole>, all: seq<AgentTask>, i: nat)
    requires Extended(kept, allowed, all) && |kept| <= i < |all|
    ensures FirstFree(BaseId(all[i].role), IdsOf(kept), all[i].id)
  {
    assert Fallback(kept, allowed, all, i);
    var base, id := BaseId(all[i].role), all[i].id;
    var k :| FreeAt(base, IdsOf(all[..i]), id, k);
    forall j | 1 <= j <= k ensures Candidate(base, j) in IdsOf(all[..i]) <==> Candidate(base, j) in IdsOf(kept) {
      FallbackIdsIndependent(kept, allowed, all, i, j);
    }
    assert FreeAt(base, IdsOf(kept), id, k);
  }

  lemma FirstFreeUnique(base: string, used: set<string>, x: string, y: string)
    requires FirstFree(base, used, x) && FirstFree(base, used, y)
    ensures x == y
  {
    var k :| FreeAt(base, used, x, k);
    var m :| FreeAt(base, used, y, m);
    assert k == m by {
      assert k < m ==> Candidate(base, k) in used;
      assert m < k ==> Candidate(base, m) in used;
    }
  }

  ghost predicate FallbackOf(kept: seq<AgentTask>, allowed: set<AgentRole>, id: string, role: AgentRole) {
    role in allowed - RolesOf(kept) && FirstFree(BaseId(role), IdsOf(kept), id)
  }

  /** `id` is available after the rewriting: a kept task has it, or it is the id that the
      fallback of a missing role will get. */
  ghost predicate Available(kept: seq<AgentTask>, allowed: set<AgentRole>, id: string) {
    id in IdsOf(kept) || exists role :: FallbackOf(kept, allowed, id, role)
  }

  lemma AvailableIds(kept: seq<AgentTask>, allowed: set<AgentRole>, all: seq<AgentTask>, id: string)
    requires Covered(kept, allowed, all)
    ensures id in IdsOf(all) <==> Available(kept, allowed, id)
  {
    if id in IdsOf(all) {
      var i :| 0 <= i < |all| && all[i].id == id;
      if i < |kept| {
        assert kept[i].id == id;
      } else {
        FallbackId(kept, allowed, all, i);
        assert Fallback(kept, allowed, all, i);
        assert FallbackOf(kept, allowed, id, all[i].role);
      }
    }
    if id in IdsOf(kept) {
      var i :| 0 <= i < |kept| && kept[i].id == id;
      assert all[i] == kept[i];
    }
    if role :| FallbackOf(kept, allowed, id, role) {
      assert role in RolesOf(all);
      assert forall n | 0 <= n < |kept| :: all[n] == kept[n] && kept[n].role != role;
      var i :| 0 <= i < |all| && all[i].role == role;
      FallbackId(kept, allowed, all, i);
      FirstFreeUnique(BaseId(role), IdsOf(kept), id, all[i].id);
    }
  }

  /** No kept task waits for a task that the rewriting leaves out. */
  ghost predicate NothingStranded(tasks: seq<AgentTask>, allowed: set<AgentRole>) {
    forall t, id | t in Kept(tasks, allowed) && id in t.dependsOn :: Available(Kept(tasks, allowed), allowed, id)
  }

  lemma ClosedIffNothingStranded(tasks: seq<AgentTask>, allowed: set<AgentRole>, all: seq<AgentTask>)
    requires Covered(Kept(tasks, allowed), allowed, all)
    ensures Closed(all) <==> NothingStranded(tasks, allowed)
  {
    var kept := Kept(tasks, allowed);
    forall id ensures id in IdsOf(all) <==> Available(kept, allowed, id) {
      AvailableIds(kept, allowed, all, id);
    }
    if Closed(all) {
      forall t, id | t in kept && id in t.dependsOn ensures id in IdsOf(all) {
        var i :| 0 <= i < |kept| && kept[i] == t;
        assert Ready(all[i], IdsOf(all));
      }
    }
    if NothingStranded(tasks, allowed) {
      forall i | 0 <= i < |all| ensures Ready(all[i], IdsOf(all)) {
        if i < |kept| {
          assert all[i] in kept;
        } else {
          assert Fallback(kept, allowed, all, i);
        }
      }
    }
  }

  /** The rewritten plan can be scheduled exactly when nothing is stranded: a task dropped
      because it depended on an out-of-scope task may have been needed by a third one. */
  lemma StaysSchedulable(tasks: seq<AgentTask>, allowed: set<AgentRole>, all: seq<AgentTask>, ticker: Option<string>)
    requires Schedulable(tasks) && Covered(Kept(tasks, allowed), allowed, all)
    ensures Schedulable(BindAll(all, ticker)) <==> NothingStranded(tasks, allowed)
  {
    ClosedIffNothingStranded(tasks, allowed, all);
    FilterDistinct(tasks, allowed, UnexpectedIds(tasks, allowed));
    ExtendedDistinct(Kept(tasks, allowed), allowed, all);
    forall path ensures !IsCycle(Elems(all), path) {
      NoNewCycle(tasks, allowed, all, path);
    }
    var bound := BindAll(all, ticker);
    assert SameShape(all, bound) && SameShape(bound, all);
    if Schedulable(bound) {
      SameShapeSchedulable(bound, all);
    } else if Schedulable(all) {
      SameShapeSchedulable(all, bound);
    }
  }

  /** It is enough that no task in scope reaches an out-of-scope task through another one. */
  lemma DirectDependenciesSuffice(tasks: seq<AgentTask>, allowed: set<AgentRole>)
    requires Closed(tasks)
    requires forall t, d | t in Kept(tasks, allowed) && d in tasks && d.id in t.dependsOn :: d in Kept(tasks, allowed)
    ensures NothingStranded(tasks, allowed)
  {
    var kept := Kept(tasks, allowed);
    forall t, id | t in kept && id in t.dependsOn ensures id in IdsOf(kept) {
      var k :| 0 <= k < |tasks| && tasks[k] == t;
      assert Ready(tasks[k], IdsOf(tasks));
      var i :| 0 <= i < |tasks| && tasks[i].id == id;
      assert tasks[i] in tasks && tasks[i].id in t.dependsOn;
      var n :| 0 <= n < |kept| && kept[n] == tasks[i];
    }
  }

  function Sample(id: string, role: AgentRole, deps: seq<string>): AgentTask {
    AgentTask(id, role, "do it", {}, deps, 0)
  }

  lemma LongId(base: string, used: set<string>, id: string)
    requires |id| < |base|
    ensures !FirstFree(base, used, id)
  {
    assert forall k: nat :: |base| <= |Candidate(base, k)|;
  }

  lemma SampleStranded(a: AgentTask, b: AgentTask, c: AgentTask)
    requires a.id == "a" && b.id == "b" && c.id == "c"
    requires a.role == Idea && b.role == News && c.role == Stocks
    requires b.dependsOn == ["a"] && c.dependsOn == ["b"]
    ensures !NothingStranded([a, b, c], {News, Stocks})
  {
    var tasks, allowed := [a, b, c], {News, Stocks};
    var kept, gone := Kept(tasks, allowed), UnexpectedIds(tasks, allowed);
    assert tasks[0] == a && tasks[1] == b && tasks[2] == c;
    assert a.id in gone && !Keeps(b, allowed, gone) by { assert b.dependsOn[0] == "a"; }
    assert Keeps(c, allowed, gone);
    assert c in kept && "b" in c.dependsOn;
    assert forall t | t in tasks && Keeps(t, allowed, gone) :: t == c by {
      assert !Keeps(a, allowed, gone);
      assert forall t | t in tasks :: t == a || t == b || t == c;
    }
    forall i | 0 <= i < |kept| ensures kept[i] == c {
      assert kept[i] in kept;
    }
    forall role ensures !FallbackOf(kept, allowed, "b", role) {
      LongId(BaseId(role), IdsOf(kept), "b");
    }
    assert !Available(kept, allowed, "b");
  }

  /** A plan that schedules before the rewriting and not after it. */
  lemma StrandedDependency(all: seq<AgentTask>, ticker: Option<string>)
    ensures var tasks := [Sample("a", Idea, []), Sample("b", News, ["a"]), Sample("c", Stocks, ["b"])];
            && Schedulable(tasks)
            && (Covered(Kept(tasks, {News, Stocks}), {News, Stocks}, all) ==> !Schedulable(BindAll(all, ticker)))
  {
    var a, b, c := Sample("a", Idea, []), Sample("b", News, ["a"]), Sample("c", Stocks, ["b"]);
    var tasks := [a, b, c];
    ThreeInARow(a, b, c);
    SampleStranded(a, b, c);
    if Covered(Kept(tasks, {News, Stocks}), {News, Stocks}, all) {
      StaysSchedulable(tasks, {News, Stocks}, all, ticker);
    }
  }
}
