/** Handoffs of approved improvement tasks (core/self_improvement_handoff.py). */
module Handoff {
  import opened Text
  import opened MultiAgent
  import opened ControlTower

  datatype ApprovedImprovementHandoff =
    ApprovedImprovementHandoff(task: AgentTask, taskHash: string, allowedPaths: seq<string>)

  /** The path policy of core/self_improvement_policy.py for a single path: outside the
      protected files and directories, neither absolute nor escaping. */
  type PathPolicy = string -> bool

  /** The decision is AUTONOMOUS_REVIEW: some path is given and the policy admits them all. */
  predicate Autonomous(policy: PathPolicy, paths: seq<string>) {
    && (exists i | 0 <= i < |paths| :: !Blank(paths[i]))
    && (forall i | 0 <= i < |paths| :: Blank(paths[i]) || policy(paths[i]))
  }

  predicate Distinct(s: seq<string>) {
    forall i, j | 0 <= i < j < |s| :: s[i] != s[j]
  }

  /** Paths as a built handoff has them: stripped, not empty, sorted, each one once. */
  predicate NormalPaths(paths: seq<string>) {
    && paths != [] && Distinct(paths) && SortedStrings(paths)
    && forall i | 0 <= i < |paths| :: paths[i] != "" && Strip(paths[i]) == paths[i]
  }

  /** The checks of `_validate_handoff` in core/self_improvement_handoff_store.py. */
  predicate ValidHandoff(policy: PathPolicy, hash: Hash, h: ApprovedImprovementHandoff) {
    && h.task.role == Debugger
    && h.allowedPaths != [] && Distinct(h.allowedPaths)
    && Autonomous(policy, h.allowedPaths)
    && h.taskHash == hash(h.task)
  }

  /** `dict.fromkeys` over the stripped, nonempty paths: the first occurrence of each. */
  function Normalize(paths: seq<string>): (r: seq<string>)
    ensures Distinct(r)
    ensures forall p :: p in r <==> p != "" && exists i | 0 <= i < |paths| :: Strip(paths[i]) == p
  {
    if paths == [] then []
    else
      var front, last := Normalize(paths[..|paths| - 1]), Strip(paths[|paths| - 1]);
      assert forall i | 0 <= i < |paths| - 1 :: paths[..|paths| - 1][i] == paths[i];
      if last == "" || last in front then front else front + [last]
  }

  datatype Refusal = PathsRequired | PolicyRefused | NotApproved | TaskUnavailable | IdentityMismatch | NotADebugger

  /** `build_approved_improvement_handoff`. */
  function Build(policy: PathPolicy, hash: Hash, d: Decision, paths: seq<string>)
    : Result<ApprovedImprovementHandoff, Refusal>
  {
    var normalized := Normalize(paths);
    if normalized == [] then Err(PathsRequired)
    else if !Autonomous(policy, normalized) then Err(PolicyRefused)
    else if !d.ApprovedForPipeline() then Err(NotApproved)
    else if d.ApprovedTask(hash).None? then Err(TaskUnavailable)
    else if !d.ApprovedTaskMatches(hash, d.ApprovedTask(hash)) then Err(IdentityMismatch)
    else if d.ApprovedTask(hash).value.role != Debugger then Err(NotADebugger)
    else
      Ok(ApprovedImprovementHandoff(d.ApprovedTask(hash).value, d.approvedTaskHash.value, SortStrings(normalized)))
  }

  lemma {:induction false} OccursOnce(s: seq<string>, x: string)
    requires Distinct(s)
    ensures multiset(s)[x] <= 1
  {
    if s == [] {
    } else {
      OccursOnce(s[1..], x);
      assert s == [s[0]] + s[1..];
      assert forall i | 0 <= i < |s[1..]| :: s[1..][i] == s[i + 1] && s[i + 1] != s[0];
      assert x == s[0] ==> multiset(s[1..])[x] == 0;
    }
  }

  lemma DistinctByMultiset(s: seq<string>, t: seq<string>)
    requires Distinct(s) && multiset(s) == multiset(t)
    ensures Distinct(t)
  {
    forall i, j | 0 <= i < j < |t| ensures t[i] != t[j] {
      OccursOnce(s, t[i]);
      assert t == t[..i] + [t[i]] + t[i + 1..j] + [t[j]] + t[j + 1..];
      assert multiset(t) ==
             multiset(t[..i]) + multiset([t[i]]) + multiset(t[i + 1..j]) + multiset([t[j]]) + multiset(t[j + 1..]);
    }
  }

  lemma SortedKeeps(s: seq<string>)
    ensures |SortStrings(s)| == |s|
    ensures forall x :: x in SortStrings(s) <==> x in s
    ensures Distinct(s) ==> Distinct(SortStrings(s))
  {
    SortStringsCorrect(s);
    var t := SortStrings(s);
    assert |multiset(t)| == |multiset(s)|;
    forall x ensures x in t <==> x in s {
      assert x in t <==> x in multiset(t);
      assert x in s <==> x in multiset(s);
    }
    if Distinct(s) {
      DistinctByMultiset(s, t);
    }
  }

  lemma AutonomousByElements(policy: PathPolicy, a: seq<string>, b: seq<string>)
    requires forall x :: x in a <==> x in b
    requires Autonomous(policy, a)
    ensures Autonomous(policy, b)
  {
    var i :| 0 <= i < |a| && !Blank(a[i]);
    assert a[i] in b;
    forall j | 0 <= j < |b| ensures Blank(b[j]) || policy(b[j]) {
      assert b[j] in a;
    }
  }

  /** A built handoff is in normal form, passes the checks of the store, and carries the
      one task that the decision approved. */
  lemma BuiltIsNormal(policy: PathPolicy, hash: Hash, d: Decision, paths: seq<string>)
    requires Build(policy, hash, d, paths).Ok?
    ensures var h := Build(policy, hash, d, paths).value;
            && NormalPaths(h.allowedPaths)
            && ValidHandoff(policy, hash, h)
            && d.ApprovedForPipeline() && d.ApprovedTask(hash) == Some(h.task)
            && (forall p :: p in h.allowedPaths <==> p != "" && exists i | 0 <= i < |paths| :: Strip(paths[i]) == p)
  {
    var normalized := Normalize(paths);
    var sorted := SortStrings(normalized);
    SortStringsCorrect(normalized);
    SortedKeeps(normalized);
    AutonomousByElements(policy, normalized, sorted);
    forall i | 0 <= i < |sorted| ensures sorted[i] != "" && Strip(sorted[i]) == sorted[i] {
      assert sorted[i] in normalized;
      var k :| 0 <= k < |paths| && Strip(paths[k]) == sorted[i];
      StripStable(paths[k]);
    }
  }
}

/** The durable store of handoffs (core/self_improvement_handoff_store.py), on records that
    the JSON layer has already parsed. */
module HandoffStore {
  import opened Text
  import opened MultiAgent
  import opened Reports
  import opened CreatorCritic
  import opened ControlTower
  import opened Handoff

  datatype Json = Str(s: string) | Int(n: int) | Float(x: real) | Bool(b: bool) | List(items: seq<Json>) | Null | Object

  datatype Field =
    | SchemaVersion | TaskId | Role | Instruction | Resources | DependsOn | Priority | TaskHash | AllowedPaths
    | OtherField(name: string)

  type Record = map<Field, Json>

  function Strings(s: seq<string>): (r: seq<Json>)
    ensures |r| == |s| && forall i | 0 <= i < |r| :: r[i] == Str(s[i])
  {
    seq(|s|, i requires 0 <= i < |s| => Str(s[i]))
  }

  /** The strings of a JSON list, or nothing when it holds anything else. */
  function AsStrings(items: seq<Json>): (r: Option<seq<string>>)
    ensures r.Some? <==> forall i | 0 <= i < |items| :: items[i].Str?
    ensures r.Some? ==> |r.value| == |items| && forall i | 0 <= i < |items| :: r.value[i] == items[i].s
  {
    if forall i | 0 <= i < |items| :: items[i].Str?
    then Some(seq(|items|, i requires 0 <= i < |items| => items[i].s))
    else None
  }

  lemma StringsReadBack(s: seq<string>)
    ensures AsStrings(Strings(s)) == Some(s)
  {
    assert AsStrings(Strings(s)).value == s;
  }

  predicate IsLeast(least: string, s: set<string>) {
    least in s && forall x | x in s :: LessOrEqual(least, x)
  }

  /** The smallest element of a nonempty set of strings. */
  lemma {:induction false} LeastExists(s: set<string>) returns (least: string)
    requires s != {}
    ensures IsLeast(least, s)
  {
    var one :| one in s;
    least := one;
    var rest := s - {one};
    assert forall x | x in s :: x == one || x in rest;
    if rest == {} {
    } else {
      var other := LeastExists(rest);
      LessTotal(one, other);
      least := if Less(other, one) then other else one;
      forall x | x in s ensures LessOrEqual(least, x) {
        if x in rest && least == one && other != x && other != one {
          LessTransitive(one, other, x);
        }
      }
    }
  }

  lemma LeastUnique(s: set<string>, x: string, y: string)
    requires IsLeast(x, s) && IsLeast(y, s)
    ensures x == y
  {
    LessTotal(x, y);
  }

  function Elements(s: seq<string>): set<string> {
    set i | 0 <= i < |s| :: s[i]
  }

  lemma LeastBefore(x: string, s: seq<string>)
    requires SortedStrings(s) && forall i | 0 <= i < |s| :: LessOrEqual(x, s[i])
    ensures SortedStrings([x] + s) && Elements([x] + s) == {x} + Elements(s)
  {
    var r := [x] + s;
    assert r[0] == x && forall i | 0 <= i < |s| :: r[i + 1] == s[i];
    assert forall i | 1 <= i < |r| :: r[i] == s[i - 1];
  }

  /** `sorted` on a set: its elements in order. */
  function SortedSet(s: set<string>): (r: seq<string>)
    ensures Elements(r) == s && SortedStrings(r)
  {
    if s == {} then []
    else
      assert exists least :: IsLeast(least, s) by {
        var least := LeastExists(s);
      }
      assert forall x, y | IsLeast(x, s) && IsLeast(y, s) :: x == y by {
        forall x, y | IsLeast(x, s) && IsLeast(y, s) ensures x == y { LeastUnique(s, x, y); }
      }
      var least :| IsLeast(least, s);
      var rest := SortedSet(s - {least});
      assert forall i | 0 <= i < |rest| :: rest[i] in Elements(rest);
      assert ([least] + rest)[1..] == rest;
      LeastBefore(least, rest);
      [least] + rest
  }

  // ----- encoding and decoding -----

  function Encode(h: ApprovedImprovementHandoff): Record {
    map[
      SchemaVersion := Int(1),
      TaskId := Str(h.task.id),
      Role := Str(RoleName(h.task.role)),
      Instruction := Str(h.task.instruction),
      Resources := List(Strings(SortedSet(h.task.resources))),
      DependsOn := List(Strings(h.task.dependsOn)),
      Priority := Int(h.task.priority),
      TaskHash := Str(h.taskHash),
      AllowedPaths := List(Strings(h.allowedPaths))]
  }

  function FindRole(roles: seq<AgentRole>, name: string): (r: Option<AgentRole>)
    ensures r.Some? ==> RoleName(r.value) == name
    ensures r.None? ==> forall role | role in roles :: RoleName(role) != name
  {
    if roles == [] then None
    else if RoleName(roles[0]) == name then Some(roles[0])
    else FindRole(roles[1..], name)
  }

  /** The role with a given value, as the enumeration looks it up. */
  function RoleNamed(name: string): Option<AgentRole> {
    FindRole(ROLES_BY_NAME, name)
  }

  lemma RoleReadBack(role: AgentRole)
    ensures RoleNamed(RoleName(role)) == Some(role)
  {
    EveryRoleListed(role);
    assert RoleNamed(RoleName(role)).Some?;
    RoleNamesDiffer(RoleNamed(RoleName(role)).value, role);
  }

  /** In Python `1`, `1.0` and `True` are all equal to the schema version. */
  predicate IsVersionOne(j: Json) {
    j == Int(1) || j == Float(1.0) || j == Bool(true)
  }

  function Get(record: Record, field: Field, default: Json): Json {
    if field in record then record[field] else default
  }

  /** `_decode` up to the paths: the task, or nothing when an exception is raised. */
  function DecodeTask(record: Record): Option<AgentTask> {
    var resources, deps := Get(record, Resources, List([])), Get(record, DependsOn, List([]));
    var priority := Get(record, Priority, Int(0));
    if TaskId !in record || Role !in record || Instruction !in record then None
    else if !record[TaskId].Str? || !record[Role].Str? || !record[Instruction].Str? then None
    else if !resources.List? || !deps.List? || !priority.Int? then None
    else if AsStrings(resources.items).None? || AsStrings(deps.items).None? then None
    else if RoleNamed(record[Role].s).None? then None
    else
      NewTask(AgentTask(
                record[TaskId].s, RoleNamed(record[Role].s).value, record[Instruction].s,
                Elements(AsStrings(resources.items).value), AsStrings(deps.items).value, priority.n))
  }

  function StripAll(paths: seq<string>): (r: seq<string>)
    ensures |r| == |paths| && forall i | 0 <= i < |r| :: r[i] == Strip(paths[i])
  {
    seq(|paths|, i requires 0 <= i < |paths| => Strip(paths[i]))
  }

  /** The stripped and sorted paths of a record, or nothing when they are malformed. */
  function DecodePaths(record: Record): Option<seq<string>> {
    if AllowedPaths !in record || !record[AllowedPaths].List? || record[AllowedPaths].items == [] then None
    else if AsStrings(record[AllowedPaths].items).None? then None
    else
      var paths := StripAll(AsStrings(record[AllowedPaths].items).value);
      if "" in paths || !Distinct(paths) then None else Some(SortStrings(paths))
  }

  /** `_decode`; nothing stands for any of the exceptions that `load` absorbs. */
  function Decode(record: Record): Option<ApprovedImprovementHandoff> {
    if SchemaVersion !in record || !IsVersionOne(record[SchemaVersion]) then None
    else if TaskHash !in record || !record[TaskHash].Str? then None
    else
      var task, paths := DecodeTask(record), DecodePaths(record);
      if task.None? || paths.None? then None
      else Some(ApprovedImprovementHandoff(task.value, record[TaskHash].s, paths.value))
  }

  lemma TaskReadBack(h: ApprovedImprovementHandoff)
    requires ValidTask(h.task)
    ensures DecodeTask(Encode(h)) == Some(h.task)
  {
    RoleReadBack(h.task.role);
    StringsReadBack(SortedSet(h.task.resources));
    StringsReadBack(h.task.dependsOn);
  }

  lemma PathsReadBack(h: ApprovedImprovementHandoff)
    ensures DecodePaths(Encode(h)) == Some(h.allowedPaths) <==> NormalPaths(h.allowedPaths)
  {
    var paths := h.allowedPaths;
    var stripped := StripAll(paths);
    StringsReadBack(paths);
    if NormalPaths(paths) {
      assert stripped == paths;
      SortStringsStable(paths);
    } else if DecodePaths(Encode(h)) == Some(paths) {
      SortStringsCorrect(stripped);
      SortedKeeps(stripped);
      forall i | 0 <= i < |paths| ensures paths[i] != "" && Strip(paths[i]) == paths[i] {
        assert paths[i] in stripped;
        var k :| 0 <= k < |paths| && Strip(paths[k]) == paths[i];
        StripStable(paths[k]);
      }
    }
  }

  /** With the other fields in place, decoding stands and falls with the paths. */
  lemma DecodeByPaths(record: Record, task: AgentTask, taskHash: string)
    requires SchemaVersion in record && record[SchemaVersion] == Int(1)
    requires TaskHash in record && record[TaskHash] == Str(taskHash)
    requires DecodeTask(record) == Some(task)
    ensures forall paths :: Decode(record) == Some(ApprovedImprovementHandoff(task, taskHash, paths)) <==>
              DecodePaths(record) == Some(paths)
  {
  }

  /** Decoding what was encoded gives the handoff back exactly when its paths are in
      normal form. */
  lemma RoundTrip(h: ApprovedImprovementHandoff)
    requires ValidTask(h.task)
    ensures Decode(Encode(h)) == Some(h) <==> NormalPaths(h.allowedPaths)
  {
    TaskReadBack(h);
    DecodeByPaths(Encode(h), h.task, h.taskHash);
    PathsReadBack(h);
    assert h == ApprovedImprovementHandoff(h.task, h.taskHash, h.allowedPaths);
  }

  // ----- the file -----

  datatype Line = NotJson | NotAnObject | Entry(record: Record)

  function Last<T>(s: seq<T>, n: nat): (r: seq<T>)
    ensures |r| == if |s| <= n then |s| else n
  {
    if |s| <= n then s else s[|s| - n..]
  }

  /** Collecting what a function accepts, in order. */
  function Collect<A, B>(accept: A -> Option<B>, s: seq<A>): (r: seq<B>)
    ensures |r| <= |s|
  {
    if s == [] then []
    else
      var front, last := Collect(accept, s[..|s| - 1]), accept(s[|s| - 1]);
      if last.Some? then front + [last.value] else front
  }

  lemma CollectSnoc<A, B>(accept: A -> Option<B>, s: seq<A>, x: A)
    ensures Collect(accept, s + [x]) == Collect(accept, s) + if accept(x).Some? then [accept(x).value] else []
  {
    assert (s + [x])[..|s|] == s;
  }

  lemma CollectPrefix<A, B>(accept: A -> Option<B>, s: seq<A>, n: nat)
    requires n < |s|
    ensures Collect(accept, s[..n + 1]) ==
            Collect(accept, s[..n]) + if accept(s[n]).Some? then [accept(s[n]).value] else []
  {
    assert s[..n + 1] == s[..n] + [s[n]];
    CollectSnoc(accept, s[..n], s[n]);
  }

  /** The loop of `_read_records` over lines and of `load` over records. */
  method CollectAll<A, B>(accept: A -> Option<B>, s: seq<A>) returns (r: seq<B>)
    ensures r == Collect(accept, s)
  {
    r := [];
    for i := 0 to |s|
      invariant r == Collect(accept, s[..i])
    {
      CollectPrefix(accept, s, i);
      var x := accept(s[i]);
      if x.Some? {
        r := r + [x.value];
      }
    }
    assert s[..|s|] == s;
  }

  ghost predicate AcceptedAt<A, B>(accept: A -> Option<B>, s: seq<A>, x: B, i: int) {
    0 <= i < |s| && accept(s[i]) == Some(x)
  }

  lemma {:induction false} CollectExactly<A, B>(accept: A -> Option<B>, s: seq<A>, x: B)
    ensures x in Collect(accept, s) <==> exists i :: AcceptedAt(accept, s, x, i)
  {
    if s == [] {
    } else {
      var front := s[..|s| - 1];
      CollectExactly(accept, front, x);
      if i :| AcceptedAt(accept, front, x, i) {
        assert AcceptedAt(accept, s, x, i);
      }
      if i :| AcceptedAt(accept, s, x, i) {
        assert i < |front| ==> AcceptedAt(accept, front, x, i);
      }
      assert accept(s[|s| - 1]) == Some(x) ==> AcceptedAt(accept, s, x, |s| - 1);
    }
  }

  function RecordOf(line: Line): Option<Record> {
    if line.Entry? then Some(line.record) else None
  }

  /** The records of some lines, in order. */
  function Entries(lines: seq<Line>): (r: seq<Record>)
    ensures |r| <= |lines|
  {
    Collect(RecordOf, lines)
  }

  function Lines(records: seq<Record>): (r: seq<Line>)
    ensures |r| == |records| && forall i | 0 <= i < |r| :: r[i] == Entry(records[i])
  {
    seq(|records|, i requires 0 <= i < |records| => Entry(records[i]))
  }

  lemma {:induction false} EntriesOfLines(records: seq<Record>)
    ensures Entries(Lines(records)) == records
  {
    if records == [] {
    } else {
      var front := records[..|records| - 1];
      EntriesOfLines(front);
      assert Lines(records) == Lines(front) + [Entry(records[|records| - 1])];
      CollectSnoc(RecordOf, Lines(front), Entry(records[|records| - 1]));
    }
  }

  /** `_read_records`; no lines stands for a file that is missing or unreadable. */
  function ReadRecords(file: Option<seq<Line>>, max: nat): (r: seq<Record>)
    ensures |r| <= max
  {
    if file.None? then [] else Entries(Last(file.value, max))
  }

  /** The body of the loop of `load`: nothing stands for a record that is skipped. */
  function Accept(policy: PathPolicy, hash: Hash, record: Record): Option<ApprovedImprovementHandoff> {
    var h := Decode(record);
    if h.Some? && ValidHandoff(policy, hash, h.value) then h else None
  }

  function Acceptor(policy: PathPolicy, hash: Hash): Record -> Option<ApprovedImprovementHandoff> {
    record => Accept(policy, hash, record)
  }

  /** The handoffs of some records: those that decode and pass every check, in order. */
  function Handoffs(policy: PathPolicy, hash: Hash, records: seq<Record>): seq<ApprovedImprovementHandoff> {
    Collect(Acceptor(policy, hash), records)
  }

  /** What a reader of the file gets. */
  function Loaded(policy: PathPolicy, hash: Hash, file: Option<seq<Line>>, max: nat): seq<ApprovedImprovementHandoff> {
    Handoffs(policy, hash, ReadRecords(file, max))
  }

  /** A handoff that passes every check of the store, was built by the constructor of
      tasks, and has its paths in normal form. */
  ghost predicate Storable(policy: PathPolicy, hash: Hash, h: ApprovedImprovementHandoff) {
    ValidHandoff(policy, hash, h) && ValidTask(h.task) && NormalPaths(h.allowedPaths)
  }

  lemma SourceRecord(policy: PathPolicy, hash: Hash, records: seq<Record>, h: ApprovedImprovementHandoff)
    returns (record: Record)
    requires h in Handoffs(policy, hash, records)
    ensures record in records && Accept(policy, hash, record) == Some(h)
  {
    CollectExactly(Acceptor(policy, hash), records, h);
    var i :| AcceptedAt(Acceptor(policy, hash), records, h, i);
    record := records[i];
  }

  lemma DecodedPathsNormal(record: Record)
    requires DecodePaths(record).Some?
    ensures NormalPaths(DecodePaths(record).value)
  {
    var raw := AsStrings(record[AllowedPaths].items).value;
    var stripped := StripAll(raw);
    var sorted := SortStrings(stripped);
    SortStringsCorrect(stripped);
    SortedKeeps(stripped);
    forall i | 0 <= i < |sorted| ensures sorted[i] != "" && Strip(sorted[i]) == sorted[i] {
      assert sorted[i] in stripped;
      var k :| 0 <= k < |raw| && Strip(raw[k]) == sorted[i];
      StripStable(raw[k]);
    }
  }

  lemma AcceptedIsNormal(policy: PathPolicy, hash: Hash, record: Record, h: ApprovedImprovementHandoff)
    requires Accept(policy, hash, record) == Some(h)
    ensures Storable(policy, hash, h)
  {
    DecodedPathsNormal(record);
  }

  /** Whatever the file contains, loading returns at most `max` handoffs, and every one of
      them is a debugger task with its own hash and admitted paths. */
  lemma LoadIsSound(
    policy: PathPolicy, hash: Hash, file: Option<seq<Line>>, max: nat, h: ApprovedImprovementHandoff)
    requires h in Loaded(policy, hash, file, max)
    ensures |Loaded(policy, hash, file, max)| <= max
    ensures Storable(policy, hash, h)
  {
    var record := SourceRecord(policy, hash, ReadRecords(file, max), h);
    AcceptedIsNormal(policy, hash, record, h);
  }

  // ----- appending -----

  /** Some record already carries this hash. */
  predicate Carries(records: seq<Record>, taskHash: string) {
    exists i | 0 <= i < |records| :: Get(records[i], TaskHash, Null) == Str(taskHash)
  }

  /** The records after `append`. */
  function Appended(records: seq<Record>, h: ApprovedImprovementHandoff, max: nat): seq<Record> {
    Last(if Carries(records, h.taskHash) then records else records + [Encode(h)], max)
  }

  lemma LoadedAfterAppend(
    policy: PathPolicy, hash: Hash, file: Option<seq<Line>>, max: nat, h: ApprovedImprovementHandoff)
    requires max >= 1
    ensures var records := ReadRecords(file, max);
            Loaded(policy, hash, Some(Lines(Appended(records, h, max))), max) ==
            Handoffs(policy, hash, Appended(records, h, max))
  {
    var records := Appended(ReadRecords(file, max), h, max);
    assert Last(Lines(records), max) == Lines(records);
    EntriesOfLines(records);
  }

  lemma StorableReadsBack(policy: PathPolicy, hash: Hash, h: ApprovedImprovementHandoff)
    requires Storable(policy, hash, h)
    ensures Acceptor(policy, hash)(Encode(h)) == Some(h)
  {
    RoundTrip(h);
  }

  lemma CollectFresh<A, B>(accept: A -> Option<B>, records: seq<A>, x: A, max: nat, h: B)
    requires max >= 1 && |records| <= max && accept(x) == Some(h)
    ensures var kept := if |records| == max then records[1..] else records;
            Collect(accept, Last(records + [x], max)) == Collect(accept, kept) + [h]
  {
    var kept := if |records| == max then records[1..] else records;
    assert Last(records + [x], max) == kept + [x];
    CollectSnoc(accept, kept, x);
  }

  /** Appending displaces at most the oldest record: what could be loaded still can, in the
      same order, followed by the new handoff if no record carried its hash. */
  lemma AppendKeepsOthers(
    policy: PathPolicy, hash: Hash, file: Option<seq<Line>>, max: nat, h: ApprovedImprovementHandoff)
    requires max >= 1 && Storable(policy, hash, h)
    ensures var records := ReadRecords(file, max);
            var kept := if |records| == max && !Carries(records, h.taskHash) then records[1..] else records;
            Loaded(policy, hash, Some(Lines(Appended(records, h, max))), max) ==
            Handoffs(policy, hash, kept) + if Carries(records, h.taskHash) then [] else [h]
  {
    LoadedAfterAppend(policy, hash, file, max, h);
    StorableReadsBack(policy, hash, h);
    CollectFresh(Acceptor(policy, hash), ReadRecords(file, max), Encode(h), max, h);
  }

  /** A built handoff can be loaded after it was appended exactly when it could be loaded
      before or no record carried its hash. */
  lemma AppendedIsLoaded(
    policy: PathPolicy, hash: Hash, file: Option<seq<Line>>, max: nat, h: ApprovedImprovementHandoff)
    requires max >= 1 && Storable(policy, hash, h)
    ensures var records := ReadRecords(file, max);
            h in Loaded(policy, hash, Some(Lines(Appended(records, h, max))), max) <==>
            h in Loaded(policy, hash, file, max) || !Carries(records, h.taskHash)
  {
    AppendKeepsOthers(policy, hash, file, max, h);
  }

  /** Two handoffs of one task with different paths share a hash, so the second one is
      silently dropped. */
  lemma SecondPathsDropped(
    policy: PathPolicy, hash: Hash, max: nat, first: ApprovedImprovementHandoff, second: ApprovedImprovementHandoff)
    requires max >= 1 && Storable(policy, hash, first) && Storable(policy, hash, second)
    requires first.task == second.task && first.allowedPaths != second.allowedPaths
    ensures var once := Appended([], first, max);
            Handoffs(policy, hash, once) == [first] && Handoffs(policy, hash, Appended(once, second, max)) == [first]
  {
    StorableReadsBack(policy, hash, first);
    CollectFresh(Acceptor(policy, hash), [], Encode(first), max, first);
    var once := Appended([], first, max);
    assert once == [Encode(first)];
    assert Get(once[0], TaskHash, Null) == Str(second.taskHash);
  }

  /** From report to store: a handoff that could be built exists only because the report was
      ready, and it will read back as it is. */
  lemma BuiltIsStorable(
    policy: PathPolicy, hash: Hash, paths: seq<string>, d: Decision,
    reviewer: Option<Duel>, report: RuntimeReport, proposal: Option<Proposal>, objective: string, extra: Evidence)
    requires reviewer.Some? ==> reviewer.value.Valid()
    requires proposal.Some? && proposal.value.task.Some? ==> ValidTask(proposal.value.task.value)
    requires DecisionSpec(reviewer, report, proposal, objective, extra, hash, d)
    requires Build(policy, hash, d, paths).Ok?
    ensures Integrable(report)
    ensures proposal.value.task == Some(Build(policy, hash, d, paths).value.task)
    ensures Storable(policy, hash, Build(policy, hash, d, paths).value)
  {
    BuiltIsNormal(policy, hash, d, paths);
    ApprovedMeansReady(reviewer, report, proposal, objective, extra, hash, d);
  }

  class ApprovedImprovementHandoffStore {
    const maxRecords: nat
    var file: Option<seq<Line>>

    constructor (maxRecords: nat, file: Option<seq<Line>>)
      requires 1 <= maxRecords <= 200
      ensures this.maxRecords == maxRecords && this.file == file
    {
      this.maxRecords, this.file := maxRecords, file;
    }

    method Read() returns (records: seq<Record>)
      ensures records == ReadRecords(file, maxRecords)
    {
      records := [];
      if file.Some? {
        records := CollectAll(RecordOf, Last(file.value, maxRecords));
      }
    }

    method Load(policy: PathPolicy, hash: Hash) returns (result: seq<ApprovedImprovementHandoff>)
      ensures result == Loaded(policy, hash, file, maxRecords)
    {
      var records := Read();
      result := CollectAll(Acceptor(policy, hash), records);
      result := Last(result, maxRecords);
    }

    /** A refused handoff leaves the file alone. */
    method Append(policy: PathPolicy, hash: Hash, h: ApprovedImprovementHandoff) returns (ok: bool)
      requires maxRecords >= 1
      modifies this
      ensures ok == ValidHandoff(policy, hash, h)
      ensures !ok ==> file == old(file)
      ensures ok ==> file == Some(Lines(Appended(ReadRecords(old(file), maxRecords), h, maxRecords)))
      ensures ok ==> |file.value| <= maxRecords
    {
      if !ValidHandoff(policy, hash, h) {
        return false;
      }
      var records := Read();
      var encoded := Encode(h);
      if !Carries(records, h.taskHash) {
        records := records + [encoded];
      }
      file := Some(Lines(Last(records, maxRecords)));
      return true;
    }
  }
}
