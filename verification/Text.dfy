/** Text helpers shared by the models: Python's `strip`, decimal formatting and
    the code-point order that Python uses to compare strings. */
module Text {

  datatype Option<+T> = None | Some(value: T)

  datatype Result<+T, +E> = Ok(value: T) | Err(error: E)

  /** The characters that Python's `str.strip` removes. */
  predicate IsSpace(c: char) {
    var n := c as int;
    || 0x09 <= n <= 0x0D
    || 0x1C <= n <= 0x20
    || n in {0x85, 0xA0, 0x1680, 0x2028, 0x2029, 0x202F, 0x205F, 0x3000}
    || 0x2000 <= n <= 0x200A
  }

  /** True when `s.strip()` is empty. */
  predicate Blank(s: string) {
    forall i | 0 <= i < |s| :: IsSpace(s[i])
  }

  function StripLeft(s: string): (r: string)
    ensures |r| <= |s|
    ensures r != "" ==> !IsSpace(r[0])
  {
    if s != "" && IsSpace(s[0]) then StripLeft(s[1..]) else s
  }

  function StripRight(s: string): (r: string)
    ensures r <= s
    ensures r != "" ==> !IsSpace(r[|r| - 1])
  {
    if s != "" && IsSpace(s[|s| - 1]) then StripRight(s[..|s| - 1]) else s
  }

  function Strip(s: string): string {
    StripRight(StripLeft(s))
  }

  lemma {:induction false} StripStable(s: string)
    ensures Strip(Strip(s)) == Strip(s)
  {
    var l := StripLeft(s);
    var r := StripRight(l);
    if r == "" {
    } else {
      assert r[0] == l[0];
    }
  }

  lemma {:induction false} StripLeftKeepsText(s: string)
    requires !Blank(s)
    ensures StripLeft(s) != ""
  {
    if IsSpace(s[0]) {
      var i :| 0 <= i < |s| && !IsSpace(s[i]);
      assert s[1..][i - 1] == s[i];
      StripLeftKeepsText(s[1..]);
    }
  }

  lemma {:induction false} StripRightKeepsText(s: string)
    requires s != "" && !IsSpace(s[0])
    ensures StripRight(s) != ""
    decreases |s|
  {
    if IsSpace(s[|s| - 1]) {
      StripRightKeepsText(s[..|s| - 1]);
    }
  }

  lemma {:induction false} StripKeepsText(s: string)
    requires !Blank(s)
    ensures Strip(s) != "" && !IsSpace(Strip(s)[0])
  {
    StripLeftKeepsText(s);
    StripRightKeepsText(StripLeft(s));
  }

  /** Code-point order on strings, strict. */
  predicate Less(a: string, b: string) {
    if b == "" then false
    else if a == "" then true
    else a[0] < b[0] || (a[0] == b[0] && Less(a[1..], b[1..]))
  }

  lemma {:induction false} LessTotal(a: string, b: string)
    ensures Less(a, b) || a == b || Less(b, a)
    ensures !(Less(a, b) && Less(b, a))
    ensures a == b ==> !Less(a, b)
  {
    if a != "" && b != "" {
      LessTotal(a[1..], b[1..]);
      assert a == [a[0]] + a[1..] && b == [b[0]] + b[1..];
    }
  }

  lemma {:induction false} LessTransitive(a: string, b: string, c: string)
    requires Less(a, b) && Less(b, c)
    ensures Less(a, c)
  {
    if a != "" && a[0] == b[0] && b[0] == c[0] {
      LessTransitive(a[1..], b[1..], c[1..]);
    }
  }

  predicate LessOrEqual(a: string, b: string) {
    a == b || Less(a, b)
  }

  predicate SortedStrings(s: seq<string>) {
    forall i, j | 0 <= i < j < |s| :: LessOrEqual(s[i], s[j])
  }

  function InsertString(x: string, s: seq<string>): seq<string> {
    if s == [] || LessOrEqual(x, s[0]) then [x] + s else [s[0]] + InsertString(x, s[1..])
  }

  /** Python's `sorted` on strings. */
  function SortStrings(s: seq<string>): seq<string> {
    if s == [] then [] else InsertString(s[0], SortStrings(s[1..]))
  }

  lemma LeastFirst(x: string, s: seq<string>)
    requires SortedStrings(s)
    requires s != [] ==> LessOrEqual(x, s[0])
    ensures SortedStrings([x] + s)
  {
    forall j | 0 <= j < |s| ensures LessOrEqual(x, s[j]) {
      if j > 0 && x != s[0] && s[0] != s[j] {
        LessTransitive(x, s[0], s[j]);
      }
    }
  }

  lemma {:induction false} InsertStringCorrect(x: string, s: seq<string>)
    requires SortedStrings(s)
    ensures SortedStrings(InsertString(x, s))
    ensures multiset(InsertString(x, s)) == multiset(s) + multiset{x}
  {
    if s == [] || LessOrEqual(x, s[0]) {
      LeastFirst(x, s);
    } else {
      LessTotal(x, s[0]);
      InsertStringCorrect(x, s[1..]);
      var t := InsertString(x, s[1..]);
      assert s == [s[0]] + s[1..];
      assert t[0] in multiset(s[1..]) + multiset{x};
      LeastFirst(s[0], t);
    }
  }

  lemma {:induction false} SortStringsCorrect(s: seq<string>)
    ensures SortedStrings(SortStrings(s))
    ensures multiset(SortStrings(s)) == multiset(s)
  {
    if s == [] {
    } else {
      SortStringsCorrect(s[1..]);
      InsertStringCorrect(s[0], SortStrings(s[1..]));
      assert s == [s[0]] + s[1..];
    }
  }

  /** Sorting is determined by the elements: it leaves a sorted list alone. */
  lemma {:induction false} SortStringsStable(s: seq<string>)
    requires SortedStrings(s)
    ensures SortStrings(s) == s
  {
    if s == [] {
    } else {
      SortStringsStable(s[1..]);
      assert s == [s[0]] + s[1..];
      if |s| > 1 {
        assert LessOrEqual(s[0], s[1]);
      }
    }
  }

  /** Reading a decimal back; makes `Decimal` injective. */
  ghost function DecimalValue(s: string): int {
    if s == "" then 0
    else DecimalValue(s[..|s| - 1]) * 10 + (s[|s| - 1] as int - '0' as int)
  }

  /** Python's `str(n)` for a natural number. */
  function Decimal(n: nat): (r: string)
    ensures r != "" && DecimalValue(r) == n
    ensures |r| == 1 <==> n < 10
  {
    var digit := ['0' + (n % 10) as char];
    if n < 10 then digit
    else
      var r := Decimal(n / 10) + digit;
      assert r[..|r| - 1] == Decimal(n / 10);
      r
  }
}
