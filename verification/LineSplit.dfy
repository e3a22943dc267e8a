/** Splitting a LINE message (app.py) at UTF-16 code units, and the encoding that the
    units come from (section 2.1 of RFC 2781). */
module LineSplit {

  /** Encoding one character: one unit, or a surrogate pair above U+FFFF. */
  function EncodeChar(c: char): seq<nat> {
    var u := c as int;
    if u <= 0xFFFF then [u]
    else [0xD800 + (u - 0x1_0000) / 0x400, 0xDC00 + (u - 0x1_0000) % 0x400]
  }

  function Utf16(s: string): seq<nat> {
    if s == "" then [] else EncodeChar(s[0]) + Utf16(s[1..])
  }

  /** `_line_text_length`: half the bytes of the UTF-16 encoding. */
  function Units(s: string): nat {
    |Utf16(s)|
  }

  function CharWidth(c: char): nat {
    if c as int > 0xFFFF then 2 else 1
  }

  lemma {:induction false} UnitsConcat(a: string, b: string)
    ensures Units(a + b) == Units(a) + Units(b)
  {
    if a == "" {
      assert a + b == b;
    } else {
      assert (a + b)[1..] == a[1..] + b;
      UnitsConcat(a[1..], b);
    }
  }

  /** The width that the code counts is the length of the encoding. */
  lemma UnitsSnoc(a: string, c: char)
    ensures Units(a + [c]) == Units(a) + CharWidth(c)
  {
    UnitsConcat(a, [c]);
    assert [c][1..] == "";
    assert Utf16([c]) == EncodeChar(c) + Utf16("");
  }

  /** `taken` is the longest prefix of `value` that fits into `limit` units. */
  ghost predicate LongestFit(value: string, limit: int, taken: string) {
    && taken <= value
    && (taken == "" || Units(taken) <= limit)
    && (|taken| < |value| ==> Units(taken) + CharWidth(value[|taken|]) > limit)
  }

  /** `_take_line_text`. */
  method TakeLineText(value: string, limit: int) returns (taken: string, rest: string)
    ensures taken + rest == value
    ensures LongestFit(value, limit, taken)
  {
    var used := 0;
    for index := 0 to |value|
      invariant used == Units(value[..index])
      invariant index > 0 ==> used <= limit
    {
      var width := if value[index] as int > 0xFFFF then 2 else 1;
      if used + width > limit {
        return value[..index], value[index..];
      }
      assert value[..index + 1] == value[..index] + [value[index]];
      UnitsSnoc(value[..index], value[index]);
      used := used + width;
    }
    assert value[..|value|] == value;
    return value, "";
  }

  /** Only one prefix is the longest fit. */
  lemma {:induction false} UnitsMonotone(a: string, b: string)
    requires a <= b
    ensures Units(a) <= Units(b)
    ensures |a| < |b| ==> Units(a) + CharWidth(b[|a|]) <= Units(b)
  {
    assert b == a + b[|a|..];
    UnitsConcat(a, b[|a|..]);
    if |a| < |b| {
      assert b[|a|..] == [b[|a|]] + b[|a| + 1..];
      UnitsConcat([b[|a|]], b[|a| + 1..]);
      UnitsSnoc("", b[|a|]);
      assert "" + [b[|a|]] == [b[|a|]];
    }
  }

  lemma NotLonger(value: string, limit: int, a: string, b: string)
    requires LongestFit(value, limit, a) && LongestFit(value, limit, b)
    ensures |b| <= |a|
  {
    if |a| < |b| {
      UnitsMonotone(a, b);
    }
  }

  lemma LongestFitUnique(value: string, limit: int, a: string, b: string)
    requires LongestFit(value, limit, a) && LongestFit(value, limit, b)
    ensures a == b
  {
    NotLonger(value, limit, a, b);
    NotLonger(value, limit, b, a);
  }

  // ----- split_line_message -----

  const NOTICE := "\n\n(※文字数が多いため一部を省略しました)"

  /** `rfind("\n")`. */
  function LastNewline(s: string): (r: int)
    ensures -1 <= r < |s|
    ensures r >= 0 ==> s[r] == '\n'
    ensures forall j | r < j < |s| :: s[j] != '\n'
  {
    if s == "" then -1
    else if s[|s| - 1] == '\n' then |s| - 1
    else LastNewline(s[..|s| - 1])
  }

  ghost predicate CutBack(take: string, chunk: string, rest: string) {
    if take == chunk + rest then chunk == take
    else if LastNewline(take) > 0 then chunk == take[..LastNewline(take) + 1]
    else chunk == take
  }

  /** The chunk taken off the front of `chunk + rest`: everything when it fits; otherwise
      the longest fit, cut back to its last newline unless that is its first character. */
  ghost predicate IsChunk(maxLen: int, chunk: string, rest: string) {
    exists take :: LongestFit(chunk + rest, maxLen, take) && CutBack(take, chunk, rest)
  }

  function Concat(chunks: seq<string>): string {
    if chunks == [] then "" else chunks[0] + Concat(chunks[1..])
  }

  lemma {:induction false} ConcatSnoc(chunks: seq<string>, c: string)
    ensures Concat(chunks + [c]) == Concat(chunks) + c
  {
    if chunks == [] {
      assert [c][1..] == [];
    } else {
      assert (chunks + [c])[1..] == chunks[1..] + [c];
      ConcatSnoc(chunks[1..], c);
    }
  }

  lemma Associative(a: string, b: string, c: string)
    ensures (a + b) + c == a + (b + c)
  {
  }

  /** `chunks` were taken one after the other off `base`, leaving `left`. */
  ghost predicate Taken(base: string, maxLen: int, chunks: seq<string>, left: string)
    decreases |chunks|
  {
    if chunks == [] then left == base
    else
      var front, last := chunks[..|chunks| - 1], chunks[|chunks| - 1];
      last + left != "" && IsChunk(maxLen, last, left) && Taken(base, maxLen, front, last + left)
  }

  /** One split of a nonempty text: the arguments, the base after the total limit, what was
      cut off it (`body`), what remained (`left`), and the messages. */
  datatype Split = Split(
    text: string, maxLen: int, maxMessages: int, maxTotal: int, notice: string,
    base: string, body: seq<string>, left: string, truncated: bool, chunks: seq<string>)

  /** At least one message, if only an empty one. */
  function Whole(body: seq<string>): (r: seq<string>)
    ensures r != []
  {
    if body == [] then [""] else body
  }

  function Room(maxLen: int, notice: string): int {
    if maxLen - Units(notice) > 0 then maxLen - Units(notice) else 0
  }

  /** `chunks` is `whole` with the end of its last message replaced by the notice. */
  ghost predicate Noticed(whole: seq<string>, maxLen: int, notice: string, chunks: seq<string>)
    requires whole != []
  {
    exists last ::
      LongestFit(whole[|whole| - 1], Room(maxLen, notice), last) && chunks == whole[..|whole| - 1] + [last + notice]
  }

  ghost predicate SplitSpec(p: Split) {
    && (if Units(p.text) > p.maxTotal then LongestFit(p.text, p.maxTotal, p.base) else p.base == p.text)
    && Taken(p.base, p.maxLen, p.body, p.left)
    && (p.left == "" || |p.body| >= p.maxMessages)
    && (|p.body| <= p.maxMessages || p.body == [])
    && (p.truncated <==> Units(p.text) > p.maxTotal || p.left != "")
    && (if p.truncated then Noticed(Whole(p.body), p.maxLen, p.notice, p.chunks) else p.chunks == Whole(p.body))
  }

  method NextChunk(remaining: string, maxLen: int) returns (chunk: string, rest: string)
    ensures chunk + rest == remaining && IsChunk(maxLen, chunk, rest)
  {
    chunk, rest := TakeLineText(remaining, maxLen);
    ghost var take := chunk;
    if rest != "" {
      var splitAt := LastNewline(chunk);
      if splitAt > 0 {
        var line, after := chunk[..splitAt + 1], chunk[splitAt + 1..];
        assert chunk == line + after;
        Associative(line, after, rest);
        chunk, rest := line, after + rest;
      }
    }
    assert chunk + rest == remaining;
    assert LongestFit(chunk + rest, maxLen, take) && CutBack(take, chunk, rest);
  }

  method CutChunks(base: string, maxLen: int, maxMessages: int) returns (chunks: seq<string>, remaining: string)
    ensures Taken(base, maxLen, chunks, remaining)
    ensures remaining == "" || |chunks| >= maxMessages
    ensures |chunks| <= maxMessages || chunks == []
  {
    chunks, remaining := [], base;
    while remaining != "" && |chunks| < maxMessages
      invariant Taken(base, maxLen, chunks, remaining)
      invariant |chunks| <= maxMessages || chunks == []
      decreases maxMessages - |chunks|
    {
      var chunk, rest := NextChunk(remaining, maxLen);
      assert (chunks + [chunk])[..|chunks|] == chunks;
      chunks := chunks + [chunk];
      remaining := rest;
    }
  }

  method AddNotice(whole: seq<string>, maxLen: int, notice: string) returns (chunks: seq<string>)
    requires whole != []
    ensures Noticed(whole, maxLen, notice, chunks)
  {
    var last, dropped := TakeLineText(whole[|whole| - 1], Room(maxLen, notice));
    chunks := whole[..|whole| - 1] + [last + notice];
  }

  method SplitLineMessage(text: string, maxLen: int, maxMessages: int, maxTotal: int, notice: string := NOTICE)
    returns (chunks: seq<string>, ghost p: Split)
    ensures text == "" ==> chunks == [""]
    ensures p.text == text && p.maxLen == maxLen && p.maxMessages == maxMessages && p.maxTotal == maxTotal
    ensures p.notice == notice && p.chunks == chunks
    ensures text != "" ==> SplitSpec(p)
  {
    if text == "" {
      return [""], Split(text, maxLen, maxMessages, maxTotal, notice, text, [], "", false, [""]);
    }
    var truncated := false;
    var base, dropped := text, "";
    if Units(text) > maxTotal {
      base, dropped := TakeLineText(text, maxTotal);
      truncated := true;
    }
    var body, remaining := CutChunks(base, maxLen, maxMessages);
    if remaining != "" {
      truncated := true;
    }
    chunks := Whole(body);
    if truncated {
      chunks := AddNotice(chunks, maxLen, notice);
    }
    p := Split(text, maxLen, maxMessages, maxTotal, notice, base, body, remaining, truncated, chunks);
  }

  // ----- what a caller may rely on -----

  predicate EndsLine(s: string) {
    s != "" && s[|s| - 1] == '\n'
  }

  lemma ChunkFits(maxLen: int, chunk: string, rest: string)
    requires IsChunk(maxLen, chunk, rest)
    ensures chunk == "" || Units(chunk) <= maxLen
    ensures rest != "" ==> EndsLine(chunk) || Units(chunk) + CharWidth(rest[0]) > maxLen
    ensures Units(chunk + rest) <= maxLen ==> rest == ""
  {
    var take :| LongestFit(chunk + rest, maxLen, take) && CutBack(take, chunk, rest);
    UnitsMonotone(chunk, take);
    UnitsMonotone(take, chunk + rest);
  }

  /** Every chunk cut off fits. */
  lemma {:induction false} TakenFits(base: string, maxLen: int, chunks: seq<string>, left: string, i: nat)
    requires Taken(base, maxLen, chunks, left) && i < |chunks|
    ensures chunks[i] == "" || Units(chunks[i]) <= maxLen
    decreases |chunks|
  {
    var n, chunk := |chunks| - 1, chunks[i];
    if i == n {
      ChunkFits(maxLen, chunk, left);
    } else {
      assert chunks[..n][i] == chunk;
      TakenFits(base, maxLen, chunks[..n], chunks[n] + left, i);
    }
  }

  lemma ConcatLast(chunks: seq<string>)
    requires chunks != []
    ensures Concat(chunks) == Concat(chunks[..|chunks| - 1]) + chunks[|chunks| - 1]
  {
    var n := |chunks| - 1;
    assert chunks == chunks[..n] + [chunks[n]];
    ConcatSnoc(chunks[..n], chunks[n]);
  }

  /** Nothing is lost or reordered. */
  lemma {:induction false} TakenConcat(base: string, maxLen: int, chunks: seq<string>, left: string)
    requires Taken(base, maxLen, chunks, left)
    ensures Concat(chunks) + left == base
    decreases |chunks|
  {
    if chunks == [] {
    } else {
      var n := |chunks| - 1;
      var front, last := chunks[..n], chunks[n];
      TakenConcat(base, maxLen, front, last + left);
      ConcatLast(chunks);
      Associative(Concat(front), last, left);
    }
  }

  /** Chunk `i` is followed by nothing, or ends in a newline, or has no room for the next character. */
  ghost predicate Full(base: string, maxLen: int, chunks: seq<string>, i: nat)
    requires i < |chunks|
  {
    var at := |Concat(chunks[..i + 1])|;
    at < |base| ==> EndsLine(chunks[i]) || Units(chunks[i]) + CharWidth(base[at]) > maxLen
  }

  lemma LastFull(base: string, maxLen: int, chunks: seq<string>, left: string)
    requires Taken(base, maxLen, chunks, left) && chunks != []
    ensures Full(base, maxLen, chunks, |chunks| - 1)
  {
    TakenConcat(base, maxLen, chunks, left);
    ChunkFits(maxLen, chunks[|chunks| - 1], left);
    assert chunks[..|chunks|] == chunks;
    assert base[|Concat(chunks)|..] == left;
  }

  lemma FullOfPrefix(base: string, maxLen: int, chunks: seq<string>, n: nat, i: nat)
    requires i < n <= |chunks| && Full(base, maxLen, chunks[..n], i)
    ensures Full(base, maxLen, chunks, i)
  {
    assert chunks[..n][..i + 1] == chunks[..i + 1];
  }

  /** What precedes more text ends in a newline or could not take the next character. */
  lemma {:induction false} TakenFull(base: string, maxLen: int, chunks: seq<string>, left: string, i: nat)
    requires Taken(base, maxLen, chunks, left) && i < |chunks|
    ensures Full(base, maxLen, chunks, i)
    decreases |chunks|
  {
    var n := |chunks| - 1;
    if i == n {
      LastFull(base, maxLen, chunks, left);
    } else {
      TakenFull(base, maxLen, chunks[..n], chunks[n] + left, i);
      FullOfPrefix(base, maxLen, chunks, n, i);
    }
  }

  lemma TakenFacts(base: string, maxLen: int, chunks: seq<string>, left: string)
    requires Taken(base, maxLen, chunks, left)
    ensures Concat(chunks) + left == base
    ensures forall i | 0 <= i < |chunks| :: chunks[i] == "" || Units(chunks[i]) <= maxLen
    ensures forall i | 0 <= i < |chunks| :: Full(base, maxLen, chunks, i)
  {
    TakenConcat(base, maxLen, chunks, left);
    forall i | 0 <= i < |chunks|
      ensures chunks[i] == "" || Units(chunks[i]) <= maxLen
      ensures Full(base, maxLen, chunks, i)
    {
      TakenFits(base, maxLen, chunks, left, i);
      TakenFull(base, maxLen, chunks, left, i);
    }
  }

  lemma SplitCount(p: Split)
    requires SplitSpec(p)
    ensures 1 <= |p.chunks| && (|p.chunks| <= p.maxMessages || |p.chunks| == 1)
  {
  }

  lemma NoticedFits(whole: seq<string>, maxLen: int, notice: string, chunks: seq<string>)
    requires whole != [] && Noticed(whole, maxLen, notice, chunks) && maxLen >= 0
    requires forall i | 0 <= i < |whole| :: Units(whole[i]) <= maxLen
    ensures (forall i | 0 <= i < |chunks| :: Units(chunks[i]) <= maxLen) <==> Units(notice) <= maxLen
  {
    var n := |whole| - 1;
    var last :| LongestFit(whole[n], Room(maxLen, notice), last) && chunks == whole[..n] + [last + notice];
    UnitsConcat(last, notice);
    assert chunks[n] == last + notice;
    assert forall i | 0 <= i < n :: chunks[i] == whole[i];
  }

  /** Every message fits exactly when nothing was cut or the notice itself fits. */
  lemma SplitFits(p: Split)
    requires SplitSpec(p) && p.maxLen >= 0
    ensures (forall i | 0 <= i < |p.chunks| :: Units(p.chunks[i]) <= p.maxLen) <==>
              !p.truncated || Units(p.notice) <= p.maxLen
  {
    TakenFacts(p.base, p.maxLen, p.body, p.left);
    if p.truncated {
      NoticedFits(Whole(p.body), p.maxLen, p.notice, p.chunks);
    }
  }

  lemma NoticedConcat(whole: seq<string>, maxLen: int, notice: string, chunks: seq<string>) returns (kept: string)
    requires whole != [] && Noticed(whole, maxLen, notice, chunks)
    ensures kept <= Concat(whole) && Concat(chunks) == kept + notice
  {
    var n := |whole| - 1;
    var front := whole[..n];
    var last :| LongestFit(whole[n], Room(maxLen, notice), last) && chunks == front + [last + notice];
    assert whole == front + [whole[n]];
    ConcatSnoc(front, whole[n]);
    ConcatSnoc(front, last + notice);
    kept := Concat(front) + last;
    Associative(Concat(front), last, notice);
    Associative(Concat(front), last, whole[n][|last|..]);
    assert whole[n] == last + whole[n][|last|..];
  }

  lemma WholeConcat(body: seq<string>)
    ensures Concat(Whole(body)) == Concat(body)
  {
    assert [""][1..] == [];
  }

  lemma PrefixTransitive(a: string, b: string, c: string)
    requires a <= b && b <= c
    ensures a <= c
  {
  }

  /** The messages say the text, or a prefix of it followed by the notice when something was cut. */
  lemma SplitKeepsText(p: Split)
    requires SplitSpec(p)
    ensures !p.truncated ==> Concat(p.chunks) == p.text
    ensures p.truncated ==> exists kept :: kept <= p.text && Concat(p.chunks) == kept + p.notice
  {
    TakenFacts(p.base, p.maxLen, p.body, p.left);
    WholeConcat(p.body);
    if p.truncated {
      var kept := NoticedConcat(Whole(p.body), p.maxLen, p.notice, p.chunks);
      PrefixTransitive(kept, Concat(p.body), p.text);
    }
  }

  lemma BeforeLast(base: string, maxLen: int, chunks: seq<string>, left: string)
    requires Taken(base, maxLen, chunks, left) && chunks != []
    ensures Concat(chunks[..|chunks| - 1]) < base
  {
    var n := |chunks| - 1;
    TakenFacts(base, maxLen, chunks[..n], chunks[n] + left);
  }

  /** Before the last chunk there is text left. */
  lemma {:induction false} TakenGoesOn(base: string, maxLen: int, chunks: seq<string>, left: string, i: nat)
    requires Taken(base, maxLen, chunks, left) && i < |chunks| - 1
    ensures Concat(chunks[..i + 1]) < base
    decreases |chunks|
  {
    var n := |chunks| - 1;
    if i < n - 1 {
      TakenGoesOn(base, maxLen, chunks[..n], chunks[n] + left, i);
      assert chunks[..n][..i + 1] == chunks[..i + 1];
    } else {
      BeforeLast(base, maxLen, chunks, left);
      assert chunks[..i + 1] == chunks[..n];
    }
  }

  /** Every message but the last ends in a newline or cannot take the next character of the text. */
  lemma SplitIsTight(p: Split, i: nat)
    requires SplitSpec(p) && i < |p.chunks| - 1
    ensures Concat(p.chunks[..i + 1]) < p.text
    ensures EndsLine(p.chunks[i]) ||
            Units(p.chunks[i]) + CharWidth(p.text[|Concat(p.chunks[..i + 1])|]) > p.maxLen
  {
    TakenFacts(p.base, p.maxLen, p.body, p.left);
    TakenGoesOn(p.base, p.maxLen, p.body, p.left, i);
    assert p.chunks[..i + 1] == p.body[..i + 1];
    assert p.chunks[i] == p.chunks[..i + 1][i] == p.body[i];
    assert Full(p.base, p.maxLen, p.body, i);
    assert p.base <= p.text;
  }

  lemma {:induction false} FirstChunkTakesAll(base: string, maxLen: int, chunks: seq<string>, left: string)
    requires Taken(base, maxLen, chunks, left) && Units(base) <= maxLen && base != ""
    ensures chunks == [] || (chunks == [base] && left == "")
    decreases |chunks|
  {
    if chunks == [] {
    } else {
      var n := |chunks| - 1;
      FirstChunkTakesAll(base, maxLen, chunks[..n], chunks[n] + left);
      ChunkFits(maxLen, chunks[n], left);
    }
  }

  /** A text that fits into one message comes back unchanged. */
  lemma ShortTextUnchanged(p: Split)
    requires SplitSpec(p)
    requires p.text != "" && Units(p.text) <= p.maxLen && Units(p.text) <= p.maxTotal && p.maxMessages >= 1
    ensures p.chunks == [p.text] && !p.truncated
  {
    FirstChunkTakesAll(p.base, p.maxLen, p.body, p.left);
  }

  lemma {:induction false} UnitsAtMostTwice(s: string)
    ensures Units(s) <= 2 * |s|
  {
    if s == "" {
    } else {
      UnitsAtMostTwice(s[1..]);
    }
  }

  const LINE_MAX_MESSAGE_LENGTH := 5000

  /** With the program's own limit and notice, no message exceeds what LINE accepts. */
  lemma DefaultMessagesFit(p: Split)
    requires SplitSpec(p) && p.maxLen == LINE_MAX_MESSAGE_LENGTH && p.notice == NOTICE
    ensures forall i | 0 <= i < |p.chunks| :: Units(p.chunks[i]) <= LINE_MAX_MESSAGE_LENGTH
  {
    UnitsAtMostTwice(NOTICE);
    SplitFits(p);
  }
}
