/** The filter over a serialised roaming configuration: it drops the `cloudenabled` lines from
the blocks of apps whose cloud state was written here, and the blocks that held nothing else. */
module VdfFilter {
  import opened Wrappers

  type Bytes = string

  // ----- Lines -----------------------------------------------------------------------------

  /** The length of the first line, with its line feed if it has one. */
  function FirstLength(s: Bytes): (n: nat)
    requires s != []
    ensures 0 < n <= |s|
    ensures forall k | 0 <= k < n - 1 :: s[k] != '\n'
    ensures n < |s| ==> s[n - 1] == '\n'
  {
    if s[0] == '\n' || |s| == 1 then 1 else 1 + FirstLength(s[1..])
  }

  function Lines(s: Bytes): (lines: seq<Bytes>)
    ensures Concat(lines) == s && NoneEmpty(lines)
  {
    if s == [] then []
    else
      var n := FirstLength(s);
      assert s == s[..n] + s[n..];
      [s[..n]] + Lines(s[n..])
  }

  function Concat(lines: seq<Bytes>): Bytes {
    if lines == [] then [] else lines[0] + Concat(lines[1..])
  }

  lemma {:induction false} ConcatAppend(a: seq<Bytes>, b: seq<Bytes>)
    ensures Concat(a + b) == Concat(a) + Concat(b)
  {
    if a == [] {
      assert a + b == b;
    } else {
      ConcatAppend(a[1..], b);
      assert (a + b)[1..] == a[1..] + b && (a + b)[0] == a[0];
      assert Concat(a + b) == a[0] + (Concat(a[1..]) + Concat(b));
    }
  }

  /** A line without its line feed. */
  function Content(l: Bytes): Bytes {
    if l != [] && l[|l| - 1] == '\n' then l[..|l| - 1] else l
  }

  // ----- Kinds of lines ------------------------------------------------------------------------

  predicate Blank(c: char) { c == '\t' || c == ' ' }

  predicate Trailing(c: char) { Blank(c) || c == '\r' }

  function SkipBlanks(s: Bytes): Bytes {
    if s != [] && Blank(s[0]) then SkipBlanks(s[1..]) else s
  }

  predicate AllTrailing(s: Bytes) {
    forall c | c in s :: Trailing(c)
  }

  predicate BraceText(s: Bytes, brace: char) {
    var t := SkipBlanks(s);
    t != [] && t[0] == brace && AllTrailing(t[1..])
  }

  const CLOUD_KEY: Bytes := "cloudenabled"

  function Quoted(key: Bytes): Bytes { ['"'] + key + ['"'] }

  predicate CloudText(s: Bytes) {
    Quoted(CLOUD_KEY) <= SkipBlanks(s)
  }

  predicate Digit(c: char) { '0' <= c <= '9' }

  /** The leading digits. */
  function DigitCount(s: Bytes): (n: nat)
    ensures n <= |s|
  {
    if s != [] && Digit(s[0]) then 1 + DigitCount(s[1..]) else 0
  }

  function Number(digits: Bytes): nat {
    if digits == [] then 0
    else 10 * Number(digits[..|digits| - 1])
         + if Digit(digits[|digits| - 1]) then (digits[|digits| - 1] - '0') as nat else 0
  }

  const U32_LIMIT := 0x1_0000_0000

  /** A line that is only a quoted number names an app. */
  function AppOfText(s: Bytes): Option<nat> {
    var t := SkipBlanks(s);
    if t == [] || t[0] != '"' then None
    else
      var n := DigitCount(t[1..]);
      if n == 0 || 1 + n >= |t| || t[1 + n] != '"' || !AllTrailing(t[n + 2..]) then None
      else
        var id := Number(t[1..n + 1]);
        if id < U32_LIMIT then Some(id) else None
  }

  predicate Opens(l: Bytes) { BraceText(Content(l), '{') }
  predicate Closes(l: Bytes) { BraceText(Content(l), '}') }
  predicate IsCloud(l: Bytes) { CloudText(Content(l)) }
  predicate CloudLine(l: Bytes) { !Opens(l) && !Closes(l) && IsCloud(l) }
  predicate IsOther(l: Bytes) { !Opens(l) && !Closes(l) && !IsCloud(l) }

  function Weight(l: Bytes): (w: int)
    ensures -1 <= w <= 1
  {
    if Opens(l) then 1 else if Closes(l) then -1 else 0
  }

  predicate NamesWritten(l: Bytes, wrote: set<nat>) {
    AppOfText(Content(l)).Some? && AppOfText(Content(l)).value in wrote
  }

  // ----- Blocks ----------------------------------------------------------------------------------

  /** How many lines there are up to the brace that closes `depth` open blocks. */
  function BlockEnd(lines: seq<Bytes>, depth: nat): (r: Option<nat>)
    requires depth > 0
    ensures r.Some? ==> 0 < r.value <= |lines|
  {
    if lines == [] then None
    else
      var left := depth + Weight(lines[0]);
      if left == 0 then Some(1)
      else
        var rest := BlockEnd(lines[1..], left);
        if rest.None? then None else Some(rest.value + 1)
  }

  predicate HasCloud(lines: seq<Bytes>) { exists l | l in lines :: CloudLine(l) }
  predicate HasOther(lines: seq<Bytes>) { exists l | l in lines :: IsOther(l) }

  function WithoutCloud(lines: seq<Bytes>): seq<Bytes> {
    if lines == [] then []
    else (if CloudLine(lines[0]) then [] else [lines[0]])
         + WithoutCloud(lines[1..])
  }

  /** The length of the block whose name is the first line: the name, the opening brace and the
  body up to the matching brace. */
  function NamedBlock(lines: seq<Bytes>): (r: Option<nat>)
    ensures r.Some? ==> 2 < r.value <= |lines|
  {
    if |lines| < 2 || !Opens(lines[1]) then None
    else
      var end := BlockEnd(lines[2..], 1);
      if end.None? then None else Some(end.value + 2)
  }

  /** The length of the written app's block that starts here. */
  function WrittenBlock(lines: seq<Bytes>, wrote: set<nat>): (r: Option<nat>)
    ensures r.Some? ==> 2 < r.value <= |lines|
  {
    if lines == [] || !NamesWritten(lines[0], wrote) then None else NamedBlock(lines)
  }

  /** What stays of a block. */
  function KeptOf(lines: seq<Bytes>, n: nat): seq<Bytes>
    requires 2 < n <= |lines|
  {
    if HasOther(lines[2..n]) then lines[..2] + WithoutCloud(lines[2..n]) else []
  }

  /** A block to change: it has a `cloudenabled` line, or nothing else. */
  predicate Affected(body: seq<Bytes>) { HasCloud(body) || !HasOther(body) }

  /** What the filter is for: affected blocks lose their `cloudenabled` lines, or go when they
  hold nothing else; every other line stays.  Also whether anything was affected. */
  function Strip(lines: seq<Bytes>, wrote: set<nat>): (seq<Bytes>, bool) {
    if lines == [] then ([], false)
    else
      var block := WrittenBlock(lines, wrote);
      if block.Some? && Affected(lines[2..block.value]) then
        (KeptOf(lines, block.value) + Strip(lines[block.value..], wrote).0, true)
      else
        var (rest, changed) := Strip(lines[1..], wrote);
        ([lines[0]] + rest, changed)
  }

  /** What the code does: it leaves an unaffected block in the output and then emits it again. */
  function Emitted(lines: seq<Bytes>, wrote: set<nat>): (seq<Bytes>, bool) {
    if lines == [] then ([], false)
    else
      var block := WrittenBlock(lines, wrote);
      if block.Some? && Affected(lines[2..block.value]) then
        (KeptOf(lines, block.value) + Emitted(lines[block.value..], wrote).0, true)
      else
        var (rest, changed) := Emitted(lines[1..], wrote);
        var twice := if block.Some? then lines[..block.value] else [];
        (twice + [lines[0]] + rest, changed)
  }

  /** The scan meets a written app's block that is not affected. */
  predicate MeetsPlain(lines: seq<Bytes>, wrote: set<nat>) {
    lines != []
    && var block := WrittenBlock(lines, wrote);
    if block.None? then MeetsPlain(lines[1..], wrote)
    else if Affected(lines[2..block.value]) then MeetsPlain(lines[block.value..], wrote)
    else true
  }

  // ----- The code meets its purpose exactly when -------------------------------------------------

  lemma {:induction false} SameFlag(lines: seq<Bytes>, wrote: set<nat>)
    ensures Emitted(lines, wrote).1 == Strip(lines, wrote).1
    decreases |lines|
  {
    if lines != [] {
      var block := WrittenBlock(lines, wrote);
      if block.None? || !Affected(lines[2..block.value]) { SameFlag(lines[1..], wrote); }
    }
  }

  predicate NoneEmpty(lines: seq<Bytes>) { forall i | 0 <= i < |lines| :: lines[i] != [] }

  /** Repeated lines only ever add. */
  lemma {:induction false} NeverShorter(lines: seq<Bytes>, wrote: set<nat>)
    requires NoneEmpty(lines)
    ensures var emitted, meant := |Concat(Emitted(lines, wrote).0)|, |Concat(Strip(lines, wrote).0)|;
            if MeetsPlain(lines, wrote) then emitted > meant else emitted >= meant
    ensures !MeetsPlain(lines, wrote) ==> Emitted(lines, wrote).0 == Strip(lines, wrote).0
    decreases |lines|
  {
    if lines != [] {
      var block := WrittenBlock(lines, wrote);
      hide WrittenBlock, HasOther, HasCloud, Concat;
      if block.Some? && Affected(lines[2..block.value]) {
        var kept, rest := KeptOf(lines, block.value), lines[block.value..];
        NeverShorter(rest, wrote);
        ConcatAppend(kept, Emitted(rest, wrote).0);
        ConcatAppend(kept, Strip(rest, wrote).0);
      } else {
        NeverShorter(lines[1..], wrote);
        var twice := if block.Some? then lines[..block.value] else [];
        if block.Some? { FirstAdds(twice); }
        ConcatAppend(twice + [lines[0]], Emitted(lines[1..], wrote).0);
        ConcatAppend(twice, [lines[0]]);
        ConcatAppend([lines[0]], Strip(lines[1..], wrote).0);
        assert block.None? ==> twice + [lines[0]] == [lines[0]];
      }
    }
  }

  lemma FirstAdds(lines: seq<Bytes>)
    requires lines != [] && lines[0] != []
    ensures |Concat(lines)| > 0
  {
  }

  function ResultOf(p: (seq<Bytes>, bool)): Option<Bytes> {
    if p.1 then Some(Concat(p.0)) else None
  }

  // ----- The purpose, position by position ---------------------------------------------------------

  datatype Span = Span(start: nat, end: nat)

  /** A written app's block that is affected, by its position. */
  predicate AffectedAt(lines: seq<Bytes>, wrote: set<nat>, s: Span) {
    && s.start + 2 < s.end <= |lines|
    && WrittenBlock(lines[s.start..], wrote) == Some(s.end - s.start)
    && Affected(lines[s.start + 2..s.end])
  }

  /** Blocks that are all affected, in order and apart. */
  ghost predicate EachAffected(lines: seq<Bytes>, wrote: set<nat>, blocks: seq<Span>, from: nat) {
    && (forall i | 0 <= i < |blocks| ::
          from <= blocks[i].start && AffectedAt(lines, wrote, blocks[i]))
    && (forall i, j | 0 <= i < j < |blocks| :: blocks[i].end <= blocks[j].start)
  }

  /** Every affected block starts inside one of the given. */
  ghost predicate CoversAffected(lines: seq<Bytes>, wrote: set<nat>, blocks: seq<Span>, from: nat) {
    forall s: Span | from <= s.start && AffectedAt(lines, wrote, s) :: Inside(blocks, s.start)
  }

  ghost predicate Inside(blocks: seq<Span>, j: nat) {
    exists i | 0 <= i < |blocks| :: blocks[i].start <= j < blocks[i].end
  }

  /** A line of a block goes when it is a `cloudenabled` line or the block holds nothing else. */
  predicate GoesIn(lines: seq<Bytes>, s: Span, j: nat)
    requires j < |lines|
  {
    && s.start <= j < s.end && s.start + 2 < s.end <= |lines|
    && (CloudLine(lines[j]) || !HasOther(lines[s.start + 2..s.end]))
  }

  predicate Goes(lines: seq<Bytes>, blocks: seq<Span>, j: nat)
    requires j < |lines|
  {
    exists i | 0 <= i < |blocks| :: GoesIn(lines, blocks[i], j)
  }

  /** The lines between two positions that do not go. */
  function Remaining(lines: seq<Bytes>, blocks: seq<Span>, from: nat, to: nat): seq<Bytes>
    requires from <= to <= |lines|
    decreases |lines| - from
  {
    if from == to then []
    else (if Goes(lines, blocks, from) then [] else [lines[from]])
         + Remaining(lines, blocks, from + 1, to)
  }

  lemma {:induction false} RemainingJoins(
    lines: seq<Bytes>, blocks: seq<Span>, a: nat, b: nat, c: nat)
    requires a <= b <= c <= |lines|
    ensures Remaining(lines, blocks, a, c)
            == Remaining(lines, blocks, a, b) + Remaining(lines, blocks, b, c)
    decreases |lines| - a
  {
    hide Goes;
    if a < b { RemainingJoins(lines, blocks, a + 1, b, c); }
  }

  /** Where the same lines go, the same lines remain. */
  lemma {:induction false} RemainingSame(
    lines: seq<Bytes>, p: seq<Span>, q: seq<Span>, a: nat, b: nat)
    requires a <= b <= |lines|
    requires forall j | a <= j < b :: Goes(lines, p, j) == Goes(lines, q, j)
    ensures Remaining(lines, p, a, b) == Remaining(lines, q, a, b)
    decreases |lines| - a
  {
    hide Goes;
    if a < b { RemainingSame(lines, p, q, a + 1, b); }
  }

  lemma {:induction false} RemainingOfBody(lines: seq<Bytes>, blocks: seq<Span>, a: nat, b: nat)
    requires a <= b <= |lines|
    requires forall j | a <= j < b :: Goes(lines, blocks, j) == CloudLine(lines[j])
    ensures Remaining(lines, blocks, a, b) == WithoutCloud(lines[a..b])
    decreases |lines| - a
  {
    if a < b {
      RemainingOfBody(lines, blocks, a + 1, b);
      assert lines[a..b][0] == lines[a] && lines[a..b][1..] == lines[a + 1..b];
    }
  }

  lemma {:induction false} NothingRemains(lines: seq<Bytes>, blocks: seq<Span>, a: nat, b: nat)
    requires a <= b <= |lines| && forall j | a <= j < b :: Goes(lines, blocks, j)
    ensures Remaining(lines, blocks, a, b) == []
    decreases |lines| - a
  {
    hide Goes;
    if a < b { NothingRemains(lines, blocks, a + 1, b); }
  }

  /** Names and braces are not `cloudenabled` lines. */
  lemma HeaderStays(lines: seq<Bytes>, wrote: set<nat>)
    requires WrittenBlock(lines, wrote).Some?
    ensures !CloudLine(lines[0]) && !CloudLine(lines[1])
  {
  }

  /** Whether a line goes depends on the first block inside it, and on the others after it. */
  lemma GoesSplits(lines: seq<Bytes>, first: Span, rest: seq<Span>, j: nat)
    requires j < |lines|
    requires forall i | 0 <= i < |rest| :: first.end <= rest[i].start
    ensures j < first.end ==> (Goes(lines, [first] + rest, j) <==> GoesIn(lines, first, j))
    ensures first.end <= j ==> (Goes(lines, [first] + rest, j) <==> Goes(lines, rest, j))
  {
    hide CloudLine, HasOther;
    var blocks := [first] + rest;
    assert blocks[0] == first && forall i | 0 <= i < |rest| :: blocks[i + 1] == rest[i];
    if Goes(lines, rest, j) {
      var i :| 0 <= i < |rest| && GoesIn(lines, rest[i], j);
      assert GoesIn(lines, blocks[i + 1], j);
    }
    if Goes(lines, blocks, j) && first.end <= j {
      var i :| 0 <= i < |blocks| && GoesIn(lines, blocks[i], j);
      assert GoesIn(lines, rest[i - 1], j);
    }
  }

  /** What remains of one affected block. */
  lemma BlockRemains(lines: seq<Bytes>, wrote: set<nat>, s: Span, rest: seq<Span>)
    requires AffectedAt(lines, wrote, s)
    requires forall i | 0 <= i < |rest| :: s.end <= rest[i].start
    ensures Remaining(lines, [s] + rest, s.start, s.end)
            == if HasOther(lines[s.start + 2..s.end])
               then lines[s.start..s.start + 2] + WithoutCloud(lines[s.start + 2..s.end]) else []
  {
    hide CloudLine, HasOther, WithoutCloud, WrittenBlock, Affected, Remaining;
    var a, b, blocks := s.start, s.end, [s] + rest;
    HeaderStays(lines[a..], wrote);
    assert lines[a..][0] == lines[a] && lines[a..][1] == lines[a + 1];
    hide AffectedAt;
    forall j | a <= j < b
      ensures Goes(lines, blocks, j) <==> CloudLine(lines[j]) || !HasOther(lines[a + 2..b])
    {
      GoesSplits(lines, s, rest, j);
    }
    hide Goes;
    if HasOther(lines[a + 2..b]) {
      RemainingJoins(lines, blocks, a, a + 2, b);
      RemainingOfBody(lines, blocks, a + 2, b);
      TwoRemain(lines, blocks, a);
    } else {
      NothingRemains(lines, blocks, a, b);
    }
  }

  lemma TwoRemain(lines: seq<Bytes>, blocks: seq<Span>, a: nat)
    requires a + 2 <= |lines| && !Goes(lines, blocks, a) && !Goes(lines, blocks, a + 1)
    ensures Remaining(lines, blocks, a, a + 2) == lines[a..a + 2]
  {
    hide Goes;
    assert Remaining(lines, blocks, a + 1, a + 2) == [lines[a + 1]] + Remaining(lines, blocks, a + 2, a + 2);
  }

  lemma AfterBlockRemains(lines: seq<Bytes>, s: Span, rest: seq<Span>)
    requires s.end <= |lines|
    requires forall i | 0 <= i < |rest| :: s.end <= rest[i].start
    ensures Remaining(lines, [s] + rest, s.end, |lines|) == Remaining(lines, rest, s.end, |lines|)
  {
    forall j | s.end <= j < |lines|
      ensures Goes(lines, [s] + rest, j) == Goes(lines, rest, j)
    {
      GoesSplits(lines, s, rest, j);
    }
    hide Goes;
    RemainingSame(lines, [s] + rest, rest, s.end, |lines|);
  }

  /** The affected blocks from a position on, in order. */
  function Scan(lines: seq<Bytes>, wrote: set<nat>, from: nat): seq<Span>
    requires from <= |lines|
    decreases |lines| - from
  {
    if from == |lines| then []
    else
      var block := WrittenBlock(lines[from..], wrote);
      if block.Some? && AffectedAt(lines, wrote, Span(from, from + block.value))
      then [Span(from, from + block.value)] + Scan(lines, wrote, from + block.value)
      else Scan(lines, wrote, from + 1)
  }

  lemma {:induction false} ScanIsAffected(lines: seq<Bytes>, wrote: set<nat>, from: nat)
    requires from <= |lines|
    ensures EachAffected(lines, wrote, Scan(lines, wrote, from), from)
    decreases |lines| - from
  {
    hide WrittenBlock, AffectedAt;
    if from < |lines| {
      var block := WrittenBlock(lines[from..], wrote);
      if block.Some? && AffectedAt(lines, wrote, Span(from, from + block.value)) {
        ScanIsAffected(lines, wrote, from + block.value);
      } else {
        ScanIsAffected(lines, wrote, from + 1);
      }
    }
  }

  lemma {:induction false} ScanCovers(lines: seq<Bytes>, wrote: set<nat>, from: nat)
    requires from <= |lines|
    ensures CoversAffected(lines, wrote, Scan(lines, wrote, from), from)
    decreases |lines| - from
  {
    hide WrittenBlock, AffectedAt, CoversAffected;
    if from == |lines| {
      NoneLeft(lines, wrote);
    } else {
      var block := WrittenBlock(lines[from..], wrote);
      if block.Some? && AffectedAt(lines, wrote, Span(from, from + block.value)) {
        var s := Span(from, from + block.value);
        ScanCovers(lines, wrote, s.end);
        CoverSplits(lines, wrote, s, Scan(lines, wrote, s.end), from);
      } else {
        ScanCovers(lines, wrote, from + 1);
        CoverWidens(lines, wrote, Scan(lines, wrote, from + 1), from);
      }
    }
  }

  lemma NoneLeft(lines: seq<Bytes>, wrote: set<nat>)
    ensures CoversAffected(lines, wrote, [], |lines|)
  {
    hide WrittenBlock, Affected;
  }

  lemma CoverWidens(lines: seq<Bytes>, wrote: set<nat>, blocks: seq<Span>, from: nat)
    requires from < |lines| && CoversAffected(lines, wrote, blocks, from + 1)
    requires var block := WrittenBlock(lines[from..], wrote);
             block.None? || !AffectedAt(lines, wrote, Span(from, from + block.value))
    ensures CoversAffected(lines, wrote, blocks, from)
  {
    hide WrittenBlock, AffectedAt, Inside;
    forall t: Span | from <= t.start && AffectedAt(lines, wrote, t) ensures Inside(blocks, t.start) {
      if t.start == from { OneAt(lines, wrote, from, t); }
    }
  }

  lemma OneAt(lines: seq<Bytes>, wrote: set<nat>, from: nat, t: Span)
    requires from < |lines| && t.start == from && AffectedAt(lines, wrote, t)
    ensures WrittenBlock(lines[from..], wrote).Some?
    ensures t == Span(from, from + WrittenBlock(lines[from..], wrote).value)
  {
    hide WrittenBlock, Affected;
  }

  lemma CoverSplits(lines: seq<Bytes>, wrote: set<nat>, s: Span, rest: seq<Span>, from: nat)
    requires CoversAffected(lines, wrote, rest, s.end) && s.start == from
    ensures CoversAffected(lines, wrote, [s] + rest, from)
  {
    hide AffectedAt;
    var blocks := [s] + rest;
    forall t: Span | from <= t.start && AffectedAt(lines, wrote, t) ensures Inside(blocks, t.start) {
      if t.start < s.end {
        assert blocks[0].start <= t.start < blocks[0].end;
      } else {
        var i :| 0 <= i < |rest| && rest[i].start <= t.start < rest[i].end;
        assert blocks[i + 1] == rest[i];
      }
    }
  }

  /** One line at the front that starts no affected block. */
  lemma StripPasses(lines: seq<Bytes>, wrote: set<nat>)
    requires lines != []
    requires var block := WrittenBlock(lines, wrote);
             block.None? || !Affected(lines[2..block.value])
    ensures Strip(lines, wrote)
            == ([lines[0]] + Strip(lines[1..], wrote).0, Strip(lines[1..], wrote).1)
  {
    hide WrittenBlock, Affected, WithoutCloud, HasOther;
  }

  lemma ScanPasses(lines: seq<Bytes>, wrote: set<nat>, from: nat)
    requires from < |lines|
    requires var block := WrittenBlock(lines[from..], wrote);
             block.None? || !Affected(lines[from + 2..from + block.value])
    ensures Scan(lines, wrote, from) == Scan(lines, wrote, from + 1)
  {
    hide WrittenBlock, Affected;
  }

  /** An affected block at the front. */
  lemma StripDrops(lines: seq<Bytes>, wrote: set<nat>, s: Span)
    requires AffectedAt(lines, wrote, s)
    ensures Strip(lines[s.start..], wrote)
            == ((if HasOther(lines[s.start + 2..s.end])
                 then lines[s.start..s.start + 2] + WithoutCloud(lines[s.start + 2..s.end]) else [])
                + Strip(lines[s.end..], wrote).0, true)
    ensures Scan(lines, wrote, s.start) == [s] + Scan(lines, wrote, s.end)
  {
    hide WrittenBlock, Affected, HasOther, WithoutCloud;
    var tail := lines[s.start..];
    var n := s.end - s.start;
    assert WrittenBlock(tail, wrote) == Some(n) && Affected(lines[s.start + 2..s.end]);
    assert tail[2..n] == lines[s.start + 2..s.end] && tail[n..] == lines[s.end..];
    assert tail[..2] == lines[s.start..s.start + 2];
  }

  /** The filter's purpose, position by position: exactly the lines that go are missing. */
  lemma {:induction false} StripRemoves(lines: seq<Bytes>, wrote: set<nat>, from: nat)
    requires from <= |lines|
    ensures Strip(lines[from..], wrote).0
            == Remaining(lines, Scan(lines, wrote, from), from, |lines|)
    ensures Strip(lines[from..], wrote).1 == (Scan(lines, wrote, from) != [])
    decreases |lines| - from
  {
    hide WrittenBlock, Affected, HasOther, Goes, WithoutCloud;
    if from < |lines| {
      var block := WrittenBlock(lines[from..], wrote);
      if block.Some? && Affected(lines[from + 2..from + block.value]) {
        var s := Span(from, from + block.value);
        hide Scan, Strip, AffectedAt;
        StripDrops(lines, wrote, s);
        StripRemoves(lines, wrote, s.end);
        ScanIsAffected(lines, wrote, s.end);
        BlockRemains(lines, wrote, s, Scan(lines, wrote, s.end));
        AfterBlockRemains(lines, s, Scan(lines, wrote, s.end));
        RemainingJoins(lines, Scan(lines, wrote, from), from, s.end, |lines|);
      } else {
        hide Scan, Strip, AffectedAt;
        var tail := lines[from..];
        assert tail[1..] == lines[from + 1..];
        if block.Some? { assert tail[2..block.value] == lines[from + 2..from + block.value]; }
        StripPasses(tail, wrote);
        ScanPasses(lines, wrote, from);
        StripRemoves(lines, wrote, from + 1);
        ScanIsAffected(lines, wrote, from + 1);
        BeforeBlocks(lines, Scan(lines, wrote, from + 1), from);
      }
    }
  }

  lemma BeforeBlocks(lines: seq<Bytes>, blocks: seq<Span>, j: nat)
    requires j < |lines| && forall i | 0 <= i < |blocks| :: j < blocks[i].start
    ensures !Goes(lines, blocks, j)
  {
  }

  /** The blocks are determined by what they are. */
  lemma {:induction false} BlocksUnique(lines: seq<Bytes>, wrote: set<nat>, blocks: seq<Span>, from: nat)
    requires from <= |lines|
    requires EachAffected(lines, wrote, blocks, from) && CoversAffected(lines, wrote, blocks, from)
    ensures blocks == Scan(lines, wrote, from)
    decreases |lines| - from
  {
    hide WrittenBlock, EachAffected, CoversAffected, AffectedAt;
    if from == |lines| {
      NoneAtEnd(lines, wrote, blocks);
    } else {
      var block := WrittenBlock(lines[from..], wrote);
      if block.Some? && AffectedAt(lines, wrote, Span(from, from + block.value)) {
        var s := Span(from, from + block.value);
        FirstIs(lines, wrote, blocks, s);
        RestCovers(lines, wrote, blocks, s);
        BlocksUnique(lines, wrote, blocks[1..], s.end);
      } else {
        NoneAt(lines, wrote, blocks, from);
        BlocksUnique(lines, wrote, blocks, from + 1);
      }
    }
  }

  lemma NoneAtEnd(lines: seq<Bytes>, wrote: set<nat>, blocks: seq<Span>)
    requires EachAffected(lines, wrote, blocks, |lines|)
    ensures blocks == []
  {
    hide WrittenBlock, Affected;
    var first := if blocks == [] then Span(0, 0) else blocks[0];
    assert blocks != [] ==> AffectedAt(lines, wrote, first);
  }

  lemma NoneAt(lines: seq<Bytes>, wrote: set<nat>, blocks: seq<Span>, from: nat)
    requires from < |lines| && EachAffected(lines, wrote, blocks, from)
    requires var block := WrittenBlock(lines[from..], wrote);
             block.None? || !AffectedAt(lines, wrote, Span(from, from + block.value))
    requires CoversAffected(lines, wrote, blocks, from)
    ensures EachAffected(lines, wrote, blocks, from + 1)
    ensures CoversAffected(lines, wrote, blocks, from + 1)
  {
    hide WrittenBlock, AffectedAt, Inside;
    forall i | 0 <= i < |blocks| ensures blocks[i].start != from {
      if blocks[i].start == from { OneAt(lines, wrote, from, blocks[i]); }
    }
  }

  lemma FirstIs(lines: seq<Bytes>, wrote: set<nat>, blocks: seq<Span>, s: Span)
    requires EachAffected(lines, wrote, blocks, s.start)
    requires CoversAffected(lines, wrote, blocks, s.start) && AffectedAt(lines, wrote, s)
    ensures blocks != [] && blocks[0] == s
  {
    hide AffectedAt, Inside, WrittenBlock;
    assert Inside(blocks, s.start);
    forall i | 0 <= i < |blocks| ensures blocks[i].start < blocks[i].end <= |lines| {
      SpanFits(lines, wrote, blocks[i]);
    }
    FirstStarts(blocks, s.start);
    SpanFits(lines, wrote, s);
    OneAt(lines, wrote, s.start, s);
    OneAt(lines, wrote, s.start, blocks[0]);
  }

  lemma SpanFits(lines: seq<Bytes>, wrote: set<nat>, s: Span)
    requires AffectedAt(lines, wrote, s)
    ensures s.start < s.end <= |lines|
  {
    hide WrittenBlock, Affected;
  }

  lemma FirstStarts(blocks: seq<Span>, from: nat)
    requires Inside(blocks, from)
    requires forall i | 0 <= i < |blocks| :: from <= blocks[i].start < blocks[i].end
    requires forall i, j | 0 <= i < j < |blocks| :: blocks[i].end <= blocks[j].start
    ensures blocks != [] && blocks[0].start == from
  {
    var i :| 0 <= i < |blocks| && blocks[i].start <= from < blocks[i].end;
  }

  lemma RestCovers(lines: seq<Bytes>, wrote: set<nat>, blocks: seq<Span>, s: Span)
    requires blocks != [] && blocks[0] == s && s.end <= |lines|
    requires EachAffected(lines, wrote, blocks, s.start)
    requires CoversAffected(lines, wrote, blocks, s.start) && AffectedAt(lines, wrote, s)
    ensures EachAffected(lines, wrote, blocks[1..], s.end)
    ensures CoversAffected(lines, wrote, blocks[1..], s.end)
  {
    hide AffectedAt, Inside;
    SpanFits(lines, wrote, s);
    var rest := blocks[1..];
    forall t: Span | s.end <= t.start && AffectedAt(lines, wrote, t) ensures Inside(rest, t.start) {
      InsideRest(blocks, t.start);
    }
    assert forall i | 0 <= i < |rest| :: rest[i] == blocks[i + 1];
  }

  lemma InsideRest(blocks: seq<Span>, j: nat)
    requires blocks != [] && blocks[0].end <= j && Inside(blocks, j)
    ensures Inside(blocks[1..], j)
  {
    var i :| 0 <= i < |blocks| && blocks[i].start <= j < blocks[i].end;
    assert blocks[1..][i - 1] == blocks[i];
  }

  /** The filter removes exactly the `cloudenabled` lines of written apps' blocks, and the blocks
  that hold nothing else; all other lines stay in order.  The blocks are those that are affected,
  in order and apart, with every other affected one inside; there is one such list. */
  lemma RemovesExactly(lines: seq<Bytes>, wrote: set<nat>) returns (blocks: seq<Span>)
    ensures EachAffected(lines, wrote, blocks, 0) && CoversAffected(lines, wrote, blocks, 0)
    ensures forall other | EachAffected(lines, wrote, other, 0) && CoversAffected(lines, wrote, other, 0) ::
              other == blocks
    ensures Strip(lines, wrote) == (Remaining(lines, blocks, 0, |lines|), blocks != [])
  {
    blocks := Scan(lines, wrote, 0);
    ScanIsAffected(lines, wrote, 0);
    ScanCovers(lines, wrote, 0);
    StripRemoves(lines, wrote, 0);
    assert lines[0..] == lines;
    hide EachAffected, CoversAffected, Scan, Strip, Remaining;
    forall other | EachAffected(lines, wrote, other, 0) && CoversAffected(lines, wrote, other, 0)
      ensures other == blocks
    {
      BlocksUnique(lines, wrote, other, 0);
    }
  }

  // ----- When the code meets the purpose -------------------------------------------------------------

  ghost predicate HasAffected(lines: seq<Bytes>, wrote: set<nat>) {
    exists s: Span :: AffectedAt(lines, wrote, s)
  }

  /** A written app's block that has another key and no `cloudenabled` line. */
  predicate PlainAt(lines: seq<Bytes>, wrote: set<nat>, s: Span) {
    && s.start + 2 < s.end <= |lines|
    && WrittenBlock(lines[s.start..], wrote) == Some(s.end - s.start)
    && !Affected(lines[s.start + 2..s.end])
  }

  /** Such a block lies outside every affected one. */
  ghost predicate HasPlain(lines: seq<Bytes>, wrote: set<nat>, from: nat)
    requires from <= |lines|
  {
    exists s: Span ::
      from <= s.start && PlainAt(lines, wrote, s) && !Inside(Scan(lines, wrote, from), s.start)
  }

  lemma AffectedIff(lines: seq<Bytes>, wrote: set<nat>)
    ensures Strip(lines, wrote).1 <==> HasAffected(lines, wrote)
  {
    var blocks := Scan(lines, wrote, 0);
    ScanIsAffected(lines, wrote, 0);
    ScanCovers(lines, wrote, 0);
    StripRemoves(lines, wrote, 0);
    assert lines[0..] == lines;
    hide Scan, Strip, AffectedAt;
    if HasAffected(lines, wrote) {
      var s: Span :| AffectedAt(lines, wrote, s);
      assert Inside(blocks, s.start);
    }
    if blocks != [] { assert AffectedAt(lines, wrote, blocks[0]); }
  }

  lemma PlainShift(lines: seq<Bytes>, wrote: set<nat>, from: nat)
    requires from < |lines| && WrittenBlock(lines[from..], wrote).None?
    ensures HasPlain(lines, wrote, from) <==> HasPlain(lines, wrote, from + 1)
  {
    ScanPasses(lines, wrote, from);
    hide WrittenBlock, Scan, Inside;
    if HasPlain(lines, wrote, from) {
      var s: Span :| from <= s.start && PlainAt(lines, wrote, s)
                     && !Inside(Scan(lines, wrote, from), s.start);
      assert s.start != from;
    }
    if HasPlain(lines, wrote, from + 1) {
      var s: Span :| from + 1 <= s.start && PlainAt(lines, wrote, s)
                     && !Inside(Scan(lines, wrote, from + 1), s.start);
      assert from <= s.start;
    }
  }

  lemma PlainSkip(lines: seq<Bytes>, wrote: set<nat>, s: Span)
    requires AffectedAt(lines, wrote, s)
    ensures HasPlain(lines, wrote, s.start) <==> HasPlain(lines, wrote, s.end)
  {
    StripDrops(lines, wrote, s);
    SpanFits(lines, wrote, s);
    var rest := Scan(lines, wrote, s.end);
    hide AffectedAt, Scan, Strip, PlainAt;
    if HasPlain(lines, wrote, s.start) {
      var t: Span :| s.start <= t.start && PlainAt(lines, wrote, t)
                     && !Inside([s] + rest, t.start);
      assert ([s] + rest)[0] == s;
      assert s.end <= t.start;
      InsideMore(s, rest, t.start);
    }
    if HasPlain(lines, wrote, s.end) {
      var t: Span :| s.end <= t.start && PlainAt(lines, wrote, t) && !Inside(rest, t.start);
      InsideMore(s, rest, t.start);
      assert s.start <= t.start;
    }
  }

  lemma InsideMore(s: Span, rest: seq<Span>, j: nat)
    requires s.end <= j
    ensures Inside([s] + rest, j) <==> Inside(rest, j)
  {
    var blocks := [s] + rest;
    assert blocks[1..] == rest;
    if Inside(blocks, j) { InsideRest(blocks, j); }
    if Inside(rest, j) {
      var i :| 0 <= i < |rest| && rest[i].start <= j < rest[i].end;
      assert blocks[i + 1] == rest[i];
    }
  }

  lemma PlainHere(lines: seq<Bytes>, wrote: set<nat>, s: Span)
    requires PlainAt(lines, wrote, s)
    ensures HasPlain(lines, wrote, s.start)
  {
    ScanPasses(lines, wrote, s.start);
    ScanIsAffected(lines, wrote, s.start + 1);
    hide WrittenBlock, Affected, Scan, AffectedAt;
    assert !Inside(Scan(lines, wrote, s.start), s.start);
  }

  lemma MeetsStep(lines: seq<Bytes>, wrote: set<nat>, from: nat)
    requires from < |lines|
    ensures var block := WrittenBlock(lines[from..], wrote);
            MeetsPlain(lines[from..], wrote)
            == if block.None? then MeetsPlain(lines[from + 1..], wrote)
               else if Affected(lines[from + 2..from + block.value])
                 then MeetsPlain(lines[from + block.value..], wrote)
               else true
  {
    hide WrittenBlock, Affected;
    var tail := lines[from..];
    var block := WrittenBlock(tail, wrote);
    assert tail[1..] == lines[from + 1..];
    if block.Some? {
      assert tail[2..block.value] == lines[from + 2..from + block.value];
      assert tail[block.value..] == lines[from + block.value..];
    }
  }

  /** The scan meets such a block exactly when there is one. */
  lemma {:induction false} MeetsPlainIff(lines: seq<Bytes>, wrote: set<nat>, from: nat)
    requires from <= |lines|
    ensures MeetsPlain(lines[from..], wrote) <==> HasPlain(lines, wrote, from)
    decreases |lines| - from
  {
    hide WrittenBlock, Affected, Scan;
    if from < |lines| {
      hide MeetsPlain, HasPlain;
      MeetsStep(lines, wrote, from);
      var block := WrittenBlock(lines[from..], wrote);
      if block.None? {
        MeetsPlainIff(lines, wrote, from + 1);
        PlainShift(lines, wrote, from);
      } else {
        var s := Span(from, from + block.value);
        if Affected(lines[from + 2..s.end]) {
          MeetsPlainIff(lines, wrote, s.end);
          PlainSkip(lines, wrote, s);
        } else {
          PlainHere(lines, wrote, s);
        }
      }
    }
  }

  /** The code gives the intended result exactly when no written app's block is affected, or every
  one outside the affected ones has a `cloudenabled` line or no other key. */
  lemma CorrectIff(buf: Bytes, wrote: set<nat>)
    ensures ResultOf(Emitted(Lines(buf), wrote)) == ResultOf(Strip(Lines(buf), wrote)) <==>
              !HasAffected(Lines(buf), wrote) || !HasPlain(Lines(buf), wrote, 0)
  {
    hide Lines, Emitted, Strip, MeetsPlain, HasPlain, HasAffected;
    var lines := Lines(buf);
    LinesNonempty(buf);
    SameFlag(lines, wrote);
    NeverShorter(lines, wrote);
    AffectedIff(lines, wrote);
    MeetsPlainIff(lines, wrote, 0);
    assert lines[0..] == lines;
  }

  lemma LinesNonempty(buf: Bytes)
    ensures NoneEmpty(Lines(buf))
  {
  }

  /** Then the code removes exactly those lines, byte for byte. */
  lemma CodeRemovesExactly(buf: Bytes, wrote: set<nat>) returns (blocks: seq<Span>)
    requires !HasPlain(Lines(buf), wrote, 0)
    ensures EachAffected(Lines(buf), wrote, blocks, 0) && CoversAffected(Lines(buf), wrote, blocks, 0)
    ensures ResultOf(Emitted(Lines(buf), wrote))
            == if blocks == [] then None
               else Some(Concat(Remaining(Lines(buf), blocks, 0, |Lines(buf)|)))
  {
    hide Lines, Emitted, Strip, EachAffected, CoversAffected, Remaining, HasPlain, HasAffected;
    CorrectIff(buf, wrote);
    blocks := RemovesExactly(Lines(buf), wrote);
  }

  // ----- Braces --------------------------------------------------------------------------------------

  /** From `depth` open blocks the lines never close too many and close them all. */
  predicate Balanced(lines: seq<Bytes>, depth: nat) {
    if lines == [] then depth == 0
    else depth + Weight(lines[0]) >= 0 && Balanced(lines[1..], depth + Weight(lines[0]))
  }

  lemma BalancedCons(l: Bytes, tail: seq<Bytes>, depth: nat)
    ensures Balanced([l] + tail, depth) <==>
              depth + Weight(l) >= 0 && Balanced(tail, depth + Weight(l))
  {
    assert ([l] + tail)[1..] == tail;
  }

  /** A block of balanced lines closes what it opened. */
  lemma {:induction false} BlockBalanced(lines: seq<Bytes>, inner: nat, outer: nat)
    requires inner > 0 && BlockEnd(lines, inner).Some? && Balanced(lines, outer + inner)
    ensures Balanced(lines[BlockEnd(lines, inner).value..], outer)
    decreases |lines|
  {
    hide Weight;
    var left := inner + Weight(lines[0]);
    if left > 0 {
      BlockBalanced(lines[1..], left, outer);
      var n := BlockEnd(lines, inner).value;
      assert lines[1..][n - 1..] == lines[n..];
    }
  }

  lemma WithoutCloudCons(l: Bytes, body: seq<Bytes>)
    ensures WithoutCloud([l] + body)
            == if CloudLine(l) then WithoutCloud(body) else [l] + WithoutCloud(body)
  {
    hide Opens, Closes, IsCloud;
    assert ([l] + body)[1..] == body;
  }

  lemma BlockEndStep(lines: seq<Bytes>, depth: nat)
    requires depth > 0 && BlockEnd(lines, depth).Some?
    ensures var n, left := BlockEnd(lines, depth).value, depth + Weight(lines[0]);
            if left == 0 then n == 1
            else BlockEnd(lines[1..], left) == Some(n - 1)
  {
    hide Weight;
  }

  /** So it does without its `cloudenabled` lines. */
  lemma {:induction false} KeptBalanced(lines: seq<Bytes>, inner: nat, outer: nat, rest: seq<Bytes>)
    requires inner > 0 && BlockEnd(lines, inner).Some? && Balanced(rest, outer)
    ensures Balanced(WithoutCloud(lines[..BlockEnd(lines, inner).value]) + rest, outer + inner)
    decreases |lines|
  {
    hide WithoutCloud, Weight, CloudLine, Balanced, BlockEnd;
    var n, l := BlockEnd(lines, inner).value, lines[0];
    var left, body := inner + Weight(l), lines[1..n];
    BlockEndStep(lines, inner);
    if left == 0 {
      NoLines(body, rest);
    } else {
      KeptBalanced(lines[1..], left, outer, rest);
      assert lines[1..][..n - 1] == body;
    }
    assert lines[..n] == [l] + body;
    OneMoreKept(l, body, rest, outer + inner);
  }

  lemma CloudWeighsNothing(l: Bytes)
    ensures CloudLine(l) ==> Weight(l) == 0
  {
    hide Opens, Closes, IsCloud;
  }

  lemma OneMoreKept(l: Bytes, body: seq<Bytes>, rest: seq<Bytes>, depth: nat)
    requires depth + Weight(l) >= 0 && Balanced(WithoutCloud(body) + rest, depth + Weight(l))
    ensures Balanced(WithoutCloud([l] + body) + rest, depth)
  {
    hide WithoutCloud, Weight, CloudLine, Balanced;
    CloudWeighsNothing(l);
    WithoutCloudCons(l, body);
    BalancedCons(l, WithoutCloud(body) + rest, depth);
    assert [l] + WithoutCloud(body) + rest == [l] + (WithoutCloud(body) + rest);
  }

  lemma NoLines(body: seq<Bytes>, rest: seq<Bytes>)
    requires body == []
    ensures WithoutCloud(body) + rest == rest
  {
  }

  /** The filter keeps braces balanced. */
  lemma {:induction false} StripKeepsBalance(lines: seq<Bytes>, wrote: set<nat>, depth: nat)
    requires Balanced(lines, depth)
    ensures Balanced(Strip(lines, wrote).0, depth)
    decreases |lines|
  {
    hide WrittenBlock, Affected, HasOther, WithoutCloud, Weight;
    if lines != [] {
      var block := WrittenBlock(lines, wrote);
      if block.Some? && Affected(lines[2..block.value]) {
        var after := Strip(lines[block.value..], wrote).0;
        BlockCloses(lines, wrote, depth, after);
        StripKeepsBalance(lines[block.value..], wrote, depth);
        hide Balanced;
        assert lines[..2] + WithoutCloud(lines[2..block.value]) + after
               == lines[..2] + (WithoutCloud(lines[2..block.value]) + after);
        assert [] + after == after;
      } else {
        StripKeepsBalance(lines[1..], wrote, depth + Weight(lines[0]));
        assert ([lines[0]] + Strip(lines[1..], wrote).0)[1..] == Strip(lines[1..], wrote).0;
      }
    }
  }

  lemma BlockCloses(lines: seq<Bytes>, wrote: set<nat>, depth: nat, after: seq<Bytes>)
    requires WrittenBlock(lines, wrote).Some? && Balanced(lines, depth)
    ensures var n := WrittenBlock(lines, wrote).value;
            && Balanced(lines[n..], depth)
            && (Balanced(after, depth) ==>
                  Balanced(lines[..2] + (WithoutCloud(lines[2..n]) + after), depth))
  {
    hide Opens, NamesWritten, Weight, WithoutCloud, Balanced, BlockEnd;
    var n := WrittenBlock(lines, wrote).value;
    HeaderOpens(lines, wrote, depth);
    assert lines[2..][n - 2..] == lines[n..] && lines[2..][..n - 2] == lines[2..n];
    BlockBalanced(lines[2..], 1, depth);
    if Balanced(after, depth) {
      KeptBalanced(lines[2..], 1, depth, after);
      TwoInFront(lines, WithoutCloud(lines[2..n]) + after, depth);
    }
  }

  /** An app's name is no brace, so its block's header opens one level. */
  lemma HeaderOpens(lines: seq<Bytes>, wrote: set<nat>, depth: nat)
    requires WrittenBlock(lines, wrote).Some?
    ensures Weight(lines[0]) == 0 && Weight(lines[1]) == 1
    ensures Balanced(lines, depth) ==> Balanced(lines[2..], depth + 1)
  {
    assert Weight(lines[0]) == 0 && Weight(lines[1]) == 1;
    hide WrittenBlock, Weight;
    assert lines[1..][1..] == lines[2..] && lines[1..][0] == lines[1];
    if Balanced(lines, depth) { assert Balanced(lines[1..], depth); }
  }

  lemma TwoInFront(lines: seq<Bytes>, body: seq<Bytes>, depth: nat)
    requires |lines| >= 2 && Weight(lines[0]) == 0 && Weight(lines[1]) == 1
    requires Balanced(body, depth + 1)
    ensures Balanced(lines[..2] + body, depth)
  {
    var all := lines[..2] + body;
    assert all[0] == lines[0] && all[1..][0] == lines[1] && all[1..][1..] == body;
  }

  // ----- The lines of what is returned ----------------------------------------------------------------

  predicate Unbroken(l: Bytes) { l != [] && forall k | 0 <= k < |l| - 1 :: l[k] != '\n' }

  predicate Fed(l: Bytes) { Unbroken(l) && l[|l| - 1] == '\n' }

  predicate AllFed(lines: seq<Bytes>) { forall i | 0 <= i < |lines| :: Fed(lines[i]) }

  /** Lines that end in a line feed, except perhaps the last. */
  predicate Cut(lines: seq<Bytes>) {
    forall i | 0 <= i < |lines| :: Unbroken(lines[i]) && (i < |lines| - 1 ==> Fed(lines[i]))
  }

  lemma {:induction false} LinesAreCut(s: Bytes)
    ensures Cut(Lines(s))
  {
    if s != [] {
      var n := FirstLength(s);
      LinesAreCut(s[n..]);
      var first, rest := s[..n], Lines(s[n..]);
      assert Unbroken(first) && (n < |s| ==> Fed(first));
      if n == |s| {
        assert rest == [] && Lines(s) == [first];
      } else {
        hide Lines, FirstLength;
        CutCons(first, rest);
      }
    }
  }

  lemma CutCons(first: Bytes, rest: seq<Bytes>)
    requires Fed(first) && Cut(rest)
    ensures Cut([first] + rest)
  {
    hide Unbroken, Fed;
    CutAppend([first], rest);
  }

  lemma CutAppend(a: seq<Bytes>, b: seq<Bytes>)
    requires AllFed(a) && Cut(b)
    ensures Cut(a + b)
  {
    var all := a + b;
    forall i | 0 <= i < |all| ensures Unbroken(all[i]) && (i < |all| - 1 ==> Fed(all[i])) {
      if i < |a| { assert all[i] == a[i]; } else { assert all[i] == b[i - |a|]; }
    }
  }

  lemma LinesJoin(first: Bytes, tail: Bytes)
    requires Unbroken(first) && (tail != [] ==> Fed(first))
    ensures Lines(first + tail) == [first] + Lines(tail)
  {
    var s := first + tail;
    assert s[..|first|] == first && s[|first|..] == tail;
    FirstLengthIs(s, |first|);
    hide FirstLength;
  }

  /** Cutting a buffer joined from cut lines gives these lines. */
  lemma {:induction false} LinesOfCut(lines: seq<Bytes>)
    requires Cut(lines)
    ensures Lines(Concat(lines)) == lines
  {
    if lines == [] {
      NoBytes();
    } else {
      var first, rest := lines[0], lines[1..];
      assert Unbroken(first) && (rest != [] ==> Fed(first));
      CutSplits(lines, 1);
      hide Cut, Lines, Unbroken, Fed;
      LinesOfCut(rest);
      assert rest == [] ==> Concat(rest) == [];
      LinesJoin(first, Concat(rest));
      assert lines == [first] + rest;
    }
  }

  lemma CutSplits(lines: seq<Bytes>, n: nat)
    requires Cut(lines) && n <= |lines|
    ensures Cut(lines[n..]) && Cut(lines[..n]) && (n < |lines| ==> AllFed(lines[..n]))
  {
    assert forall i | 0 <= i < |lines[n..]| :: lines[n..][i] == lines[i + n];
  }

  lemma {:induction false} WithoutCloudCut(lines: seq<Bytes>)
    requires Cut(lines)
    ensures Cut(WithoutCloud(lines)) && (AllFed(lines) ==> AllFed(WithoutCloud(lines)))
  {
    if lines != [] {
      var first, rest := lines[0], lines[1..];
      assert lines == [first] + rest;
      CutSplits(lines, 1);
      assert lines[..1] == [first];
      assert Unbroken(first) && (AllFed(lines) ==> Fed(first) && AllFed(rest));
      WithoutCloudCut(rest);
      WithoutCloudCons(first, rest);
      if rest != [] { assert Fed(lines[..1][0]); CutCons(first, WithoutCloud(rest)); }
    }
  }

  lemma KeptCut(lines: seq<Bytes>, n: nat)
    requires Cut(lines) && 2 < n <= |lines|
    ensures Cut(KeptOf(lines, n)) && (n < |lines| ==> AllFed(KeptOf(lines, n)))
  {
    CutSplits(lines, n);
    var block := lines[..n];
    CutSplits(block, 2);
    assert block[2..] == lines[2..n] && block[..2] == lines[..2];
    WithoutCloudCut(lines[2..n]);
    hide HasOther, WithoutCloud, Unbroken;
    CutAppend(lines[..2], WithoutCloud(lines[2..n]));
    if n < |lines| {
      assert AllFed(lines[2..n]);
    }
  }

  /** The intended result is cut into lines as it should be. */
  lemma {:induction false} StripCut(lines: seq<Bytes>, wrote: set<nat>)
    requires Cut(lines)
    ensures Cut(Strip(lines, wrote).0)
    decreases |lines|
  {
    hide WrittenBlock, Affected, KeptOf, Unbroken, Fed;
    if lines != [] {
      var block := WrittenBlock(lines, wrote);
      if block.Some? && Affected(lines[2..block.value]) {
        var n := block.value;
        KeptCut(lines, n);
        CutSplits(lines, n);
        StripCut(lines[n..], wrote);
        if n == |lines| {
          assert lines[n..] == [] && Strip([], wrote).0 == [];
          assert KeptOf(lines, n) + [] == KeptOf(lines, n);
        } else {
          CutAppend(KeptOf(lines, n), Strip(lines[n..], wrote).0);
        }
      } else {
        CutSplits(lines, 1);
        StripCut(lines[1..], wrote);
        if |lines| == 1 {
          assert lines[1..] == [] && Strip([], wrote).0 == [];
          assert [lines[0]] + [] == lines;
        } else {
          assert lines[..1] == [lines[0]];
          CutAppend([lines[0]], Strip(lines[1..], wrote).0);
        }
      }
    }
  }

  /** Braces of what the code returns are balanced when those of its input are and it does what it
  is for. */
  lemma FilterKeepsBalance(buf: Bytes, wrote: set<nat>)
    requires Balanced(Lines(buf), 0) && !HasPlain(Lines(buf), wrote, 0)
    ensures var r := ResultOf(Emitted(Lines(buf), wrote));
            r.Some? ==> Balanced(Lines(r.value), 0)
  {
    hide Lines, Emitted, Strip, HasPlain, HasAffected, Balanced, Cut, Concat;
    CorrectIff(buf, wrote);
    StripKeepsBalance(Lines(buf), wrote, 0);
    LinesAreCut(buf);
    StripCut(Lines(buf), wrote);
    LinesOfCut(Strip(Lines(buf), wrote).0);
  }

  // ----- The guard and where the code fails -------------------------------------------------------------

  const MAX_ROAMING_CONFIG_BYTES: nat := 64 * 1024 * 1024
  const USER_ROAMING_KEY: Bytes := "UserRoamingConfigStore"

  predicate Contains(s: Bytes, needle: Bytes) {
    exists i | 0 <= i <= |s| :: needle <= s[i..]
  }

  /** The buffers that reach the filter. */
  predicate Admitted(buf: Bytes, wrote: set<nat>) {
    && |buf| <= MAX_ROAMING_CONFIG_BYTES && wrote != {}
    && Contains(buf, Quoted(USER_ROAMING_KEY)) && Contains(buf, Quoted(CLOUD_KEY))
  }

  /** What the program returns for a buffer, and what it is meant to return. */
  function Filtered(buf: Bytes, wrote: set<nat>): Option<Bytes> {
    if Admitted(buf, wrote) then ResultOf(Emitted(Lines(buf), wrote)) else None
  }

  function Intended(buf: Bytes, wrote: set<nat>): Option<Bytes> {
    if Admitted(buf, wrote) then ResultOf(Strip(Lines(buf), wrote)) else None
  }

  /** The exact condition for every buffer the program may be handed. */
  lemma FilterCorrectIff(buf: Bytes, wrote: set<nat>)
    ensures Filtered(buf, wrote) == Intended(buf, wrote) <==>
              || !Admitted(buf, wrote) || !HasAffected(Lines(buf), wrote)
              || !HasPlain(Lines(buf), wrote, 0)
  {
    hide Admitted, Lines, Emitted, Strip, HasAffected, HasPlain;
    CorrectIff(buf, wrote);
  }

  /** Two blocks in a store, whatever their lines say: the first has another key only, the second a
  `cloudenabled` line. */
  function Sample(store: Bytes, open: Bytes, close: Bytes, one: Bytes, other: Bytes, two: Bytes,
                  cloud: Bytes): seq<Bytes>
  {
    [store, open, one, open, other, close, two, open, cloud, close, close]
  }

  lemma SampleHasBoth(store: Bytes, open: Bytes, close: Bytes, one: Bytes, other: Bytes, two: Bytes,
                      cloud: Bytes, wrote: set<nat>)
    requires NamesWritten(one, wrote) && NamesWritten(two, wrote)
    requires !NamesWritten(store, wrote) && !NamesWritten(open, wrote)
    requires Opens(open) && Closes(close) && !Opens(close) && IsOther(other) && CloudLine(cloud)
    ensures var lines := Sample(store, open, close, one, other, two, cloud);
            HasAffected(lines, wrote) && HasPlain(lines, wrote, 0)
  {
    hide Opens, Closes, IsCloud, NamesWritten, IsOther, CloudLine, PlainAt, AffectedAt, HasPlain,
         WrittenBlock;
    var lines := Sample(store, open, close, one, other, two, cloud);
    PlainOfFour(lines, 2, wrote);
    AffectedOfFour(lines, 6, wrote);
    PlainHere(lines, wrote, Span(2, 6));
    NoBlockAt(lines, wrote, 0);
    NoBlockAt(lines, wrote, 1);
    PlainShift(lines, wrote, 1);
    PlainShift(lines, wrote, 0);
  }

  lemma PlainOfFour(lines: seq<Bytes>, i: nat, wrote: set<nat>)
    requires i + 4 <= |lines| && NamesWritten(lines[i], wrote) && Opens(lines[i + 1])
    requires IsOther(lines[i + 2]) && Closes(lines[i + 3]) && !Opens(lines[i + 3])
    ensures PlainAt(lines, wrote, Span(i, i + 4))
  {
    Slices(lines, i);
    BlockOfFour(lines[i], lines[i + 1], lines[i + 2], lines[i + 3], lines[i + 4..], wrote);
    var body := [lines[i + 2], lines[i + 3]];
    assert body[0] in body && HasOther(body) && !HasCloud(body);
    hide Opens, Closes, IsCloud, NamesWritten, WrittenBlock;
  }

  lemma AffectedOfFour(lines: seq<Bytes>, i: nat, wrote: set<nat>)
    requires i + 4 <= |lines| && NamesWritten(lines[i], wrote) && Opens(lines[i + 1])
    requires CloudLine(lines[i + 2]) && Closes(lines[i + 3]) && !Opens(lines[i + 3])
    ensures AffectedAt(lines, wrote, Span(i, i + 4))
  {
    Slices(lines, i);
    BlockOfFour(lines[i], lines[i + 1], lines[i + 2], lines[i + 3], lines[i + 4..], wrote);
    var body := [lines[i + 2], lines[i + 3]];
    assert body[0] in body && HasCloud(body);
    hide Opens, Closes, IsCloud, NamesWritten, WrittenBlock;
  }

  lemma Slices<T>(s: seq<T>, i: nat)
    requires i + 4 <= |s|
    ensures s[i..] == [s[i], s[i + 1], s[i + 2], s[i + 3]] + s[i + 4..]
    ensures s[i + 2..i + 4] == [s[i + 2], s[i + 3]]
  {
  }

  lemma NoBlockAt(lines: seq<Bytes>, wrote: set<nat>, i: nat)
    requires i < |lines| && !NamesWritten(lines[i], wrote)
    ensures WrittenBlock(lines[i..], wrote).None?
  {
    assert lines[i..][0] == lines[i];
  }

  lemma BlockOfFour(name: Bytes, open: Bytes, l: Bytes, close: Bytes, rest: seq<Bytes>,
                    wrote: set<nat>)
    requires NamesWritten(name, wrote) && Opens(open) && Closes(close) && !Opens(close)
    requires !Opens(l) && !Closes(l)
    ensures WrittenBlock([name, open, l, close] + rest, wrote) == Some(4)
  {
    hide Opens, Closes, NamesWritten;
    var lines := [name, open, l, close] + rest;
    var body := [l, close] + rest;
    assert lines[2..] == body && body[1..] == [close] + rest;
    BlockEndUnfolds([close] + rest, 1);
    BlockEndUnfolds(body, 1);
  }

  function Line(text: Bytes): Bytes { text + ['\n'] }

  lemma LineOf(text: Bytes)
    requires '\n' !in text
    ensures Content(Line(text)) == text && Fed(Line(text))
  {
  }

  lemma QuotedDigit(d: char)
    requires '1' <= d <= '9'
    ensures AppOfText(Quoted([d])) == Some((d - '0') as nat)
  {
    var t := Quoted([d]);
    var digits := t[1..];
    assert t == ['"', d, '"'] && digits == [d, '"'] && digits[1..] == ['"'];
    assert SkipBlanks(t) == t;
    assert DigitCount(['"']) == 0 && DigitCount(digits) == 1;
    assert t[1..2] == [d] && [d][..0] == [] && Number([]) == 0;
    assert Number([d]) == (d - '0') as nat;
    assert t[3..] == [] && t[2] == '"';
  }

  /** A quoted word is neither an app nor a brace. */
  lemma QuotedWord(word: Bytes, tail: Bytes)
    requires word != [] && !Digit(word[0])
    ensures var t := Quoted(word) + tail;
            && SkipBlanks(t) == t && AppOfText(t).None?
            && !BraceText(t, '{') && !BraceText(t, '}')
  {
    var t := Quoted(word) + tail;
    assert t[0] == '"' && t[1..][0] == word[0];
  }

  lemma BraceAlone(b: char)
    requires b == '{' || b == '}'
    ensures BraceText([b], b) && AppOfText([b]).None?
    ensures b == '}' ==> !BraceText([b], '{')
  {
  }

  lemma ContainsIn(lines: seq<Bytes>, i: nat, needle: Bytes)
    requires i < |lines| && needle <= lines[i]
    ensures Contains(Concat(lines), needle)
  {
    var before, after := lines[..i], lines[i + 1..];
    assert lines == before + ([lines[i]] + after);
    ConcatAppend(before, [lines[i]] + after);
    assert ([lines[i]] + after)[1..] == after;
    var s := Concat(lines);
    assert s == Concat(before) + (lines[i] + Concat(after));
    assert s[|Concat(before)|..] == lines[i] + Concat(after);
  }

  lemma {:induction false} ConcatBound(lines: seq<Bytes>, m: nat)
    requires forall i | 0 <= i < |lines| :: |lines[i]| <= m
    ensures |Concat(lines)| <= m * |lines|
  {
    if lines != [] { ConcatBound(lines[1..], m); }
  }

  const STORE_LINE: Bytes := Line(Quoted(USER_ROAMING_KEY))
  const CLOUD_LINE: Bytes := Line(Quoted(CLOUD_KEY) + " \"0\"")
  const OTHER_LINE: Bytes := Line(Quoted("k") + " \"v\"")
  const OPEN_LINE: Bytes := Line("{")
  const CLOSE_LINE: Bytes := Line("}")
  const APP_ONE: Bytes := Line(Quoted("1"))
  const APP_TWO: Bytes := Line(Quoted("2"))

  /** A store with the block of one app that holds `"k" "v"` and the block of another that holds
  `"cloudenabled" "0"`. */
  const SAMPLE: seq<Bytes> :=
    Sample(STORE_LINE, OPEN_LINE, CLOSE_LINE, APP_ONE, OTHER_LINE, APP_TWO, CLOUD_LINE)

  lemma SampleKinds()
    ensures NamesWritten(APP_ONE, {1, 2}) && NamesWritten(APP_TWO, {1, 2})
    ensures !NamesWritten(STORE_LINE, {1, 2}) && !NamesWritten(OPEN_LINE, {1, 2})
    ensures Opens(OPEN_LINE) && Closes(CLOSE_LINE) && !Opens(CLOSE_LINE)
    ensures IsOther(OTHER_LINE) && CloudLine(CLOUD_LINE)
  {
    hide AppOfText, BraceText, SkipBlanks, Line;
    LineOf(Quoted("1"));
    LineOf(Quoted("2"));
    LineOf("{");
    LineOf("}");
    QuotedDigit('1');
    QuotedDigit('2');
    BraceAlone('{');
    BraceAlone('}');
    StoreLine();
    OtherLine();
    CloudLineIs();
  }

  lemma StoreLine()
    ensures AppOfText(Content(STORE_LINE)).None? && Fed(STORE_LINE)
  {
    LineOf(Quoted(USER_ROAMING_KEY));
    QuotedWord(USER_ROAMING_KEY, []);
    assert Quoted(USER_ROAMING_KEY) + [] == Quoted(USER_ROAMING_KEY);
  }

  lemma OtherLine()
    ensures IsOther(OTHER_LINE) && Fed(OTHER_LINE)
  {
    var text := Quoted("k") + " \"v\"";
    LineOf(text);
    QuotedWord("k", " \"v\"");
    assert text[1] == 'k' && Quoted(CLOUD_KEY)[1] == 'c';
  }

  lemma CloudLineIs()
    ensures CloudLine(CLOUD_LINE) && Fed(CLOUD_LINE)
  {
    LineOf(Quoted(CLOUD_KEY) + " \"0\"");
    QuotedWord(CLOUD_KEY, " \"0\"");
  }

  lemma SampleIsCut()
    ensures Cut(SAMPLE) && forall i | 0 <= i < |SAMPLE| :: |SAMPLE[i]| <= 30
  {
    hide Line;
    LineOf(Quoted("1"));
    LineOf(Quoted("2"));
    LineOf("{");
    LineOf("}");
    StoreLine();
    OtherLine();
    CloudLineIs();
    LineLengths();
    hide Fed, Unbroken;
  }

  lemma LineLengths()
    ensures |STORE_LINE| <= 30 && |CLOUD_LINE| <= 30 && |OTHER_LINE| <= 30
    ensures |OPEN_LINE| <= 30 && |CLOSE_LINE| <= 30 && |APP_ONE| <= 30 && |APP_TWO| <= 30
  {
  }

  /** A buffer that the program is handed and returns wrong: the block of the first app needs no
  change and comes out twice because the block of the second one does. */
  lemma PlainBlockComesOutTwice()
    ensures var buf := Concat(SAMPLE);
            && Admitted(buf, {1, 2}) && Filtered(buf, {1, 2}) != Intended(buf, {1, 2})
            && Lines(buf) == SAMPLE
  {
    var buf := Concat(SAMPLE);
    assert Admitted(buf, {1, 2}) by { SampleIsAdmitted(); }
    assert Lines(buf) == SAMPLE by {
      SampleIsCut();
      LinesOfCut(SAMPLE);
    }
    assert HasAffected(SAMPLE, {1, 2}) && HasPlain(SAMPLE, {1, 2}, 0) by {
      SampleKinds();
      SampleHasBoth(STORE_LINE, OPEN_LINE, CLOSE_LINE, APP_ONE, OTHER_LINE, APP_TWO, CLOUD_LINE, {1, 2});
    }
    hide Admitted, HasAffected, HasPlain, Lines, Filtered, Intended, Concat;
    FilterCorrectIff(buf, {1, 2});
  }

  lemma SampleIsAdmitted()
    ensures Admitted(Concat(SAMPLE), {1, 2})
  {
    SampleIsCut();
    ConcatBound(SAMPLE, 30);
    assert SAMPLE[0] == STORE_LINE && SAMPLE[8] == CLOUD_LINE && |SAMPLE| == 11;
    assert Quoted(USER_ROAMING_KEY) <= STORE_LINE;
    assert Quoted(CLOUD_KEY) <= CLOUD_LINE;
    hide Contains, Concat, Cut, Line, Quoted;
    ContainsIn(SAMPLE, 0, Quoted(USER_ROAMING_KEY));
    ContainsIn(SAMPLE, 8, Quoted(CLOUD_KEY));
  }

  // ----- The code -------------------------------------------------------------------------------------

  method NextLine(buf: Bytes, start: nat) returns (end: nat, next: nat)
    requires start <= |buf|
    ensures start <= end <= next <= |buf|
    ensures start < |buf| ==> next == start + FirstLength(buf[start..])
    ensures buf[start..end] == Content(buf[start..next])
  {
    end := start;
    while end < |buf| && buf[end] != '\n'
      invariant start <= end <= |buf|
      invariant forall k | start <= k < end :: buf[k] != '\n'
    {
      end := end + 1;
    }
    next := if end < |buf| then end + 1 else |buf|;
    if start < |buf| { FirstLengthIs(buf[start..], next - start); }
    if end == next { assert next == start || buf[start..next][next - start - 1] == buf[next - 1]; }
    else { assert buf[start..next][..end - start] == buf[start..end]; }
  }

  /** The first line ends at the first line feed, or at the end. */
  lemma {:induction false} FirstLengthIs(s: Bytes, n: nat)
    requires 0 < n <= |s| && forall k | 0 <= k < n - 1 :: s[k] != '\n'
    requires s[n - 1] == '\n' || n == |s|
    ensures FirstLength(s) == n
  {
  }

  method SkipLeading(line: Bytes) returns (i: nat)
    ensures i <= |line| && line[i..] == SkipBlanks(line)
  {
    i := 0;
    while i < |line| && Blank(line[i])
      invariant i <= |line| && SkipBlanks(line[i..]) == SkipBlanks(line)
    {
      assert line[i..][1..] == line[i + 1..];
      i := i + 1;
    }
  }

  method IsBrace(line: Bytes, brace: char) returns (b: bool)
    ensures b == BraceText(line, brace)
  {
    var i := SkipLeading(line);
    ghost var t := line[i..];
    if i == |line| || line[i] != brace { return false; }
    assert t[1..] == line[i + 1..];
    for j := i + 1 to |line|
      invariant forall k | i + 1 <= k < j :: Trailing(line[k])
    {
      if !Trailing(line[j]) {
        assert t[1..][j - i - 1] == line[j];
        return false;
      }
    }
    b := true;
  }

  lemma QuotedPrefix(key: Bytes, t: Bytes)
    ensures Quoted(key) <= t <==>
              |t| >= |key| + 2 && t[0] == '"' && t[1..|key| + 1] == key && t[|key| + 1] == '"'
  {
    if |t| >= |key| + 2 {
      assert t[..|key| + 2] == [t[0]] + t[1..|key| + 1] + [t[|key| + 1]];
      if Quoted(key) <= t {
        assert t[..|key| + 2] == Quoted(key);
        assert Quoted(key)[1..|key| + 1] == key && Quoted(key)[|key| + 1] == '"';
      }
    }
  }

  method IsCloudKey(line: Bytes) returns (b: bool)
    ensures b == CloudText(line)
  {
    hide SkipBlanks, Quoted;
    var i := SkipLeading(line);
    var key := CLOUD_KEY;
    ghost var t := line[i..];
    QuotedPrefix(key, t);
    if i >= |line| || line[i] != '"' { return false; }
    if |line| - (i + 1) < |key| + 1 { return false; }
    b := line[i + 1..i + 1 + |key|] == key && line[i + 1 + |key|] == '"';
    SliceOfSuffix(line, i, 1, |key| + 1);
    assert t[|key| + 1] == line[i + 1 + |key|];
  }

  lemma SliceOfSuffix(s: Bytes, i: nat, a: nat, b: nat)
    requires i <= |s| && a <= b <= |s| - i
    ensures s[i..][a..b] == s[i + a..i + b]
  {
  }

  lemma DigitsStep(line: Bytes, start: nat, i: nat)
    requires start <= i < |line| && Digit(line[i])
    ensures DigitCount(line[i..]) == 1 + DigitCount(line[i + 1..])
    ensures Number(line[start..i + 1]) == 10 * Number(line[start..i]) + (line[i] - '0') as nat
  {
    assert line[i..][1..] == line[i + 1..];
    assert line[start..i + 1][..i - start] == line[start..i];
  }

  /** Read digits from a position on. */
  method ReadDigits(line: Bytes, start: nat) returns (i: nat, number: nat)
    requires start <= |line|
    ensures i == start + DigitCount(line[start..]) <= |line| && number == Number(line[start..i])
  {
    i, number := start, 0;
    assert line[start..i] == [];
    while i < |line| && Digit(line[i])
      invariant start <= i <= |line|
      invariant DigitCount(line[start..]) == i - start + DigitCount(line[i..])
      invariant number == Number(line[start..i])
    {
      hide DigitCount, Number;
      DigitsStep(line, start, i);
      number := 10 * number + (line[i] - '0') as nat;
      i := i + 1;
    }
  }

  method OnlyTrailing(line: Bytes, start: nat) returns (b: bool)
    requires start <= |line|
    ensures b == AllTrailing(line[start..])
  {
    for j := start to |line|
      invariant forall k | start <= k < j :: Trailing(line[k])
    {
      if !Trailing(line[j]) {
        assert line[start..][j - start] == line[j];
        return false;
      }
    }
    b := true;
  }

  method ParseAppId(line: Bytes) returns (r: Option<nat>)
    ensures r == AppOfText(line)
  {
    hide SkipBlanks, DigitCount, Number, AllTrailing;
    var first := SkipLeading(line);
    ghost var t := line[first..];
    if first >= |line| || line[first] != '"' { return None; }
    var start := first + 1;
    assert t[1..] == line[start..];
    var i, number := ReadDigits(line, start);
    ghost var n := i - start;
    assert t[1..n + 1] == line[start..i];
    if i == start || i >= |line| || line[i] != '"' { return None; }
    assert t[n + 1] == line[i] && t[n + 2..] == line[i + 1..];
    var trailing := OnlyTrailing(line, i + 1);
    if !trailing { return None; }
    r := if number < U32_LIMIT then Some(number) else None;
  }

  // ----- The loops over lines --------------------------------------------------------------------------

  lemma {:induction false} WithoutCloudSnoc(lines: seq<Bytes>, l: Bytes)
    ensures WithoutCloud(lines + [l])
            == WithoutCloud(lines) + if CloudLine(l) then [] else [l]
  {
    hide CloudLine;
    if lines == [] {
      assert lines + [l] == [l] && [l][1..] == [];
    } else {
      WithoutCloudSnoc(lines[1..], l);
      SnocTail(lines, l);
      var first := if CloudLine(lines[0]) then [] else [lines[0]];
      var last := if CloudLine(l) then [] else [l];
      assert WithoutCloud(lines + [l]) == first + (WithoutCloud(lines[1..]) + last);
      assert WithoutCloud(lines) == first + WithoutCloud(lines[1..]);
    }
  }

  lemma SnocTail<T>(s: seq<T>, x: T)
    requires s != []
    ensures s + [x] != [] && (s + [x])[1..] == s[1..] + [x] && (s + [x])[0] == s[0]
  {
  }

  lemma HasSnoc(lines: seq<Bytes>, l: Bytes)
    ensures HasOther(lines + [l]) <==> HasOther(lines) || IsOther(l)
    ensures HasCloud(lines + [l]) <==> HasCloud(lines) || CloudLine(l)
  {
    hide IsOther, CloudLine;
    var all := lines + [l];
    assert l in all && forall x | x in lines :: x in all;
  }

  /** Lines of a suffix at a line's end. */
  lemma LinesAfter(buf: Bytes, p: nat, next: nat)
    requires p < |buf| && next == p + FirstLength(buf[p..])
    ensures Lines(buf[p..]) == [buf[p..next]] + Lines(buf[next..])
  {
    assert buf[p..][..next - p] == buf[p..next] && buf[p..][next - p..] == buf[next..];
  }

  function Later(r: Option<nat>, k: nat): Option<nat> {
    if r.None? then None else Some(r.value + k)
  }

  lemma BlockEndUnfolds(lines: seq<Bytes>, depth: nat)
    requires depth > 0 && lines != []
    ensures BlockEnd(lines, depth)
            == if depth + Weight(lines[0]) == 0 then Some(1)
               else Later(BlockEnd(lines[1..], depth + Weight(lines[0])), 1)
  {
    hide Weight;
  }

  /** After some lines of the body, the block ends where the rest at this depth does. */
  ghost predicate EndsAlike(body: seq<Bytes>, k: nat, depth: nat) {
    k <= |body| && depth > 0 && BlockEnd(body, 1) == Later(BlockEnd(body[k..], depth), k)
  }

  lemma Suffix<T>(s: seq<T>, k: nat)
    requires k < |s|
    ensures s[k..] != [] && s[k..][0] == s[k] && s[k..][1..] == s[k + 1..]
  {
  }

  lemma EndsStep(body: seq<Bytes>, k: nat, depth: nat)
    requires EndsAlike(body, k, depth) && k < |body|
    ensures depth + Weight(body[k]) > 0 ==> EndsAlike(body, k + 1, depth + Weight(body[k]))
    ensures depth + Weight(body[k]) == 0 ==> BlockEnd(body, 1) == Some(k + 1)
  {
    hide Weight, BlockEnd;
    Suffix(body, k);
    var rest, next := body[k..], body[k + 1..];
    BlockEndUnfolds(rest, depth);
    assert rest[1..] == next && rest[0] == body[k];
  }

  lemma KindsStep(body: seq<Bytes>, k: nat)
    requires k < |body|
    ensures HasOther(body[..k + 1]) == (HasOther(body[..k]) || IsOther(body[k]))
    ensures HasCloud(body[..k + 1]) == (HasCloud(body[..k]) || CloudLine(body[k]))
    ensures WithoutCloud(body[..k + 1])
            == WithoutCloud(body[..k]) + if CloudLine(body[k]) then [] else [body[k]]
  {
    hide IsOther, CloudLine, HasOther, HasCloud, WithoutCloud;
    assert body[..k + 1] == body[..k] + [body[k]];
    HasSnoc(body[..k], body[k]);
    WithoutCloudSnoc(body[..k], body[k]);
  }

  /** What the code does with the block after a name line: where it ends, if it is consumed, and
  what is appended. */
  ghost function BlockResult(lines: seq<Bytes>): (Option<nat>, seq<Bytes>) {
    var block := NamedBlock(lines);
    if block.None? then (None, [])
    else if Affected(lines[2..block.value]) then (block, KeptOf(lines, block.value))
    else (None, lines[..block.value])
  }

  lemma ConcatSnoc(lines: seq<Bytes>, l: Bytes)
    ensures Concat(lines + [l]) == Concat(lines) + l
  {
    ConcatAppend(lines, [l]);
    assert Concat([l]) == l + Concat([]) by { assert [l][1..] == []; }
  }

  lemma NoCloudKeepsAll(lines: seq<Bytes>)
    requires !HasCloud(lines)
    ensures WithoutCloud(lines) == lines
  {
    hide CloudLine;
    if lines != [] {
      assert lines[0] in lines && !HasCloud(lines[1..]);
      NoCloudKeepsAll(lines[1..]);
    }
  }

  /** The three kinds of lines the loop tells apart. */
  lemma KindOf(l: Bytes)
    ensures Opens(l) ==> Weight(l) == 1 && !CloudLine(l) && !IsOther(l)
    ensures !Opens(l) && Closes(l) ==> Weight(l) == -1 && !CloudLine(l) && !IsOther(l)
    ensures !Opens(l) && !Closes(l) ==>
              Weight(l) == 0 && CloudLine(l) == IsCloud(l) && IsOther(l) == !IsCloud(l)
  {
    hide Opens, Closes, IsCloud;
  }

  /** The state of the loop over the lines of a block's body. */
  ghost predicate BodyRead(body: seq<Bytes>, k: nat, depth: nat, hasOther: bool, hadCloud: bool,
                           appended: Bytes) {
    && EndsAlike(body, k, depth)
    && hasOther == HasOther(body[..k]) && hadCloud == HasCloud(body[..k])
    && appended == Concat(WithoutCloud(body[..k]))
  }

  lemma BodyStarts(body: seq<Bytes>)
    ensures BodyRead(body, 0, 1, false, false, [])
  {
    hide BlockEnd;
    assert body[0..] == body && body[..0] == [];
  }

  /** One line read: what it appends and whether it closes the block. */
  lemma BodyStep(body: seq<Bytes>, k: nat, depth: nat, hasOther: bool, hadCloud: bool, appended: Bytes)
    requires BodyRead(body, k, depth, hasOther, hadCloud, appended) && k < |body|
    ensures var other, cloud := hasOther || IsOther(body[k]), hadCloud || CloudLine(body[k]);
            var more := appended + if CloudLine(body[k]) then [] else body[k];
            && (depth + Weight(body[k]) > 0 ==>
                  BodyRead(body, k + 1, depth + Weight(body[k]), other, cloud, more))
            && (depth + Weight(body[k]) == 0 ==>
                  && BlockEnd(body, 1) == Some(k + 1)
                  && other == HasOther(body[..k + 1]) && cloud == HasCloud(body[..k + 1])
                  && more == Concat(WithoutCloud(body[..k + 1])))
  {
    hide IsOther, CloudLine, HasOther, HasCloud, Weight, WithoutCloud, Concat, EndsAlike, BlockEnd;
    KindsStep(body, k);
    EndsStep(body, k, depth);
    if CloudLine(body[k]) {
      assert WithoutCloud(body[..k]) + [] == WithoutCloud(body[..k]);
    } else {
      ConcatSnoc(WithoutCloud(body[..k]), body[k]);
    }
  }

  /** Read a block's body from its first line to the brace that closes it, appending every line
  that is not a `cloudenabled` line. */
  method ReadBody(buf: Bytes, start: nat, before: Bytes)
    returns (closed: bool, p: nat, hasOther: bool, hadCloud: bool, out: Bytes)
    requires start <= |buf|
    ensures var body := Lines(buf[start..]);
            var end := BlockEnd(body, 1);
            && closed == end.Some?
            && (closed ==>
                  && start <= p <= |buf| && Lines(buf[p..]) == body[end.value..]
                  && hasOther == HasOther(body[..end.value])
                  && hadCloud == HasCloud(body[..end.value])
                  && out == before + Concat(WithoutCloud(body[..end.value])))
  {
    hide Lines, FirstLength, Opens, Closes, IsCloud, Concat, Weight, IsOther, CloudLine,
         HasOther, HasCloud, WithoutCloud, BlockEnd, BodyRead, BraceText, CloudText, Content;
    ghost var body, k, appended := Lines(buf[start..]), 0, [];
    var depth := 1;
    p, hasOther, hadCloud, out := start, false, false, before;
    BodyStarts(body);
    while p < |buf|
      invariant start <= p <= |buf| && k <= |body| && depth > 0 && Lines(buf[p..]) == body[k..]
      invariant BodyRead(body, k, depth, hasOther, hadCloud, appended)
      invariant out == before + appended
      decreases |buf| - p
    {
      var lineEnd, next := NextLine(buf, p);
      LinesAfter(buf, p, next);
      ghost var line := buf[p..next];
      assert body[k] == line && body[k + 1..] == Lines(buf[next..]);
      BodyStep(body, k, depth, hasOther, hadCloud, appended);
      KindOf(line);
      var opens := IsBrace(buf[p..lineEnd], '{');
      var closes := IsBrace(buf[p..lineEnd], '}');
      var cloud := IsCloudKey(buf[p..lineEnd]);
      KindsOfText(line);
      assert before + appended + line == before + (appended + line);
      if opens {
        depth := depth + 1;
        out := out + buf[p..next];
        appended := appended + line;
      } else if closes {
        out := out + buf[p..next];
        appended := appended + line;
        depth := depth - 1;
        if depth == 0 {
          return true, next, hasOther, hadCloud, out;
        }
      } else if cloud {
        hadCloud := true;
        assert appended + [] == appended;
      } else {
        hasOther := true;
        out := out + buf[p..next];
        appended := appended + line;
      }
      p, k := next, k + 1;
    }
    EndUnclosed(buf, p, body, k, depth, hasOther, hadCloud, appended);
    closed := false;
  }

  lemma KindsOfText(l: Bytes)
    ensures BraceText(Content(l), '{') == Opens(l) && BraceText(Content(l), '}') == Closes(l)
    ensures CloudText(Content(l)) == IsCloud(l)
  {
  }

  lemma EndUnclosed(buf: Bytes, p: nat, body: seq<Bytes>, k: nat, depth: nat, hasOther: bool,
                    hadCloud: bool, appended: Bytes)
    requires p == |buf| && k <= |body| && Lines(buf[p..]) == body[k..]
    requires BodyRead(body, k, depth, hasOther, hadCloud, appended)
    ensures BlockEnd(body, 1).None?
  {
    assert buf[p..] == [] && body[k..] == [];
  }

  lemma BlockOfBody(name: Bytes, open: Bytes, body: seq<Bytes>)
    ensures var lines := [name, open] + body;
            && NamedBlock(lines) == (if Opens(open) then Later(BlockEnd(body, 1), 2) else None)
            && forall e: nat | 0 < e <= |body| ::
                 && lines[2..e + 2] == body[..e] && lines[e + 2..] == body[e..]
                 && lines[..e + 2] == [name, open] + body[..e]
  {
    hide Opens, BlockEnd;
    var lines := [name, open] + body;
    assert lines[2..] == body && lines[1] == open;
  }

  lemma HeaderBytes(name: Bytes, open: Bytes, rest: seq<Bytes>)
    ensures Concat([name, open] + rest) == name + open + Concat(rest)
  {
    ConcatAppend([name, open], rest);
    ConcatSnoc([name], open);
    ConcatSnoc([], name);
    assert [name] + [open] == [name, open] && [] + [name] == [name] && Concat([]) == [];
  }

  /** What the block after a name line comes to, by its body. */
  lemma ResultOfBody(name: Bytes, open: Bytes, body: seq<Bytes>)
    ensures var lines := [name, open] + body;
            var end := BlockEnd(body, 1);
            if !Opens(open) || end.None? then BlockResult(lines) == (None, [])
            else
              var e := end.value;
              var kept := WithoutCloud(body[..e]);
              && BlockResult(lines).0 == (if HasCloud(body[..e]) || !HasOther(body[..e])
                                          then Some(e + 2) else None)
              && lines[e + 2..] == body[e..]
              && Concat(BlockResult(lines).1)
                 == if HasOther(body[..e]) then name + open + Concat(kept) else []
  {
    hide Opens, BlockEnd, HasCloud, HasOther, WithoutCloud, Concat;
    BlockOfBody(name, open, body);
    var end := BlockEnd(body, 1);
    if Opens(open) && end.Some? {
      var e, lines := end.value, [name, open] + body;
      assert lines[..2] == [name, open] && lines[2..e + 2] == body[..e];
      HeaderBytes(name, open, WithoutCloud(body[..e]));
      NoBytes();
      if !HasCloud(body[..e]) { NoCloudKeepsAll(body[..e]); }
    }
  }

  lemma NoBytes()
    ensures Concat([]) == []
  {
  }

  method TryStripBlock(buf: Bytes, idStart: nat, afterId: nat, before: Bytes)
    returns (end: Option<nat>, out: Bytes)
    requires idStart < |buf| && afterId == idStart + FirstLength(buf[idStart..])
    ensures var lines := Lines(buf[idStart..]);
            var (n, appended) := BlockResult(lines);
            && out == before + Concat(appended)
            && (end.Some? <==> n.Some?)
            && (n.Some? ==> idStart < end.value <= |buf| && n.value <= |lines|
                            && Lines(buf[end.value..]) == lines[n.value..])
  {
    hide Lines, FirstLength, Opens, Closes, IsCloud, Concat, Weight, IsOther, CloudLine,
         HasOther, HasCloud, WithoutCloud, BlockEnd, BlockResult, BraceText, CloudText, Content;
    ghost var name, lines := buf[idStart..afterId], Lines(buf[idStart..]);
    LinesAfter(buf, idStart, afterId);
    NoBytes();
    out := before;
    var braceEnd, bodyStart := NextLine(buf, afterId);
    var opens := IsBrace(buf[afterId..braceEnd], '{');
    ghost var open := buf[afterId..bodyStart];
    KindsOfText(open);
    if afterId == |buf| {
      NothingAfter(buf, afterId, lines);
      assert before + [] == before;
      return None, out;
    }
    LinesAfter(buf, afterId, bodyStart);
    ghost var body := Lines(buf[bodyStart..]);
    assert lines == [name, open] + body;
    ResultOfBody(name, open, body);
    if !opens {
      assert before + [] == before;
      return None, out;
    }
    var mark := |out|;
    out := out + buf[idStart..bodyStart];
    assert buf[idStart..bodyStart] == name + open;
    var closed, p, hasOther, hadCloud, read := ReadBody(buf, bodyStart, out);
    if !closed {
      Assembled(before, name + open, []);
      return None, out[..mark];
    }
    out := if hasOther then read else read[..mark];
    end := if hadCloud || !hasOther then Some(p) else None;
    Assembled(before, name + open, Concat(WithoutCloud(body[..BlockEnd(body, 1).value])));
  }

  lemma Assembled(before: Bytes, header: Bytes, kept: Bytes)
    ensures before + header + kept == before + (header + kept)
    ensures (before + header + kept)[..|before|] == before
    ensures before + [] == before && (before + header)[..|before|] == before
  {
  }

  lemma NothingAfter(buf: Bytes, afterId: nat, lines: seq<Bytes>)
    requires afterId == |buf| && |lines| > 0 && lines[1..] == Lines(buf[afterId..])
    ensures BlockResult(lines) == (None, [])
  {
    assert buf[afterId..] == [];
  }

  /** The state of the loop over the whole buffer. */
  ghost predicate FilterRead(buf: Bytes, wrote: set<nat>, i: nat, out: Bytes, changed: bool) {
    && i <= |buf|
    && out + Concat(Emitted(Lines(buf[i..]), wrote).0) == Concat(Emitted(Lines(buf), wrote).0)
    && Emitted(Lines(buf), wrote).1 == (changed || Emitted(Lines(buf[i..]), wrote).1)
  }

  /** What the first line or block emits, by the block's result. */
  lemma EmittedByResult(lines: seq<Bytes>, wrote: set<nat>)
    requires lines != []
    ensures var (n, appended) := BlockResult(lines);
            var written := NamesWritten(lines[0], wrote);
            if written && n.Some? then
              && n.value <= |lines|
              && Emitted(lines, wrote) == (appended + Emitted(lines[n.value..], wrote).0, true)
            else
              var rest := Emitted(lines[1..], wrote);
              Emitted(lines, wrote)
              == ((if written then appended else []) + [lines[0]] + rest.0, rest.1)
  {
    hide NamedBlock, Affected, KeptOf, NamesWritten;
  }

  lemma FilterStarts(buf: Bytes, wrote: set<nat>)
    ensures FilterRead(buf, wrote, 0, [], false)
  {
    hide Lines, Emitted, Concat;
    assert buf[0..] == buf;
    assert [] + Concat(Emitted(Lines(buf), wrote).0) == Concat(Emitted(Lines(buf), wrote).0);
  }

  lemma FilterEnds(buf: Bytes, wrote: set<nat>, out: Bytes, changed: bool)
    requires FilterRead(buf, wrote, |buf|, out, changed)
    ensures out == Concat(Emitted(Lines(buf), wrote).0) && changed == Emitted(Lines(buf), wrote).1
  {
    assert buf[|buf|..] == [] && Lines([]) == [] && Emitted([], wrote) == ([], false);
    hide Lines, Emitted;
    assert out + Concat([]) == out;
  }

  /** A block is consumed. */
  lemma FilterDrops(buf: Bytes, wrote: set<nat>, i: nat, out: Bytes, changed: bool, end: nat)
    requires FilterRead(buf, wrote, i, out, changed) && i < |buf| && end <= |buf|
    requires var lines := Lines(buf[i..]);
             && lines != [] && NamesWritten(lines[0], wrote)
             && BlockResult(lines).0.Some? && BlockResult(lines).0.value <= |lines|
             && Lines(buf[end..]) == lines[BlockResult(lines).0.value..]
    ensures FilterRead(buf, wrote, end, out + Concat(BlockResult(Lines(buf[i..])).1), true)
  {
    hide Lines, Emitted, Concat, BlockResult, NamesWritten;
    var lines := Lines(buf[i..]);
    var (n, appended) := BlockResult(lines);
    EmittedByResult(lines, wrote);
    var rest := Emitted(lines[n.value..], wrote).0;
    ConcatAppend(appended, rest);
    assert out + (Concat(appended) + Concat(rest)) == out + Concat(appended) + Concat(rest);
  }

  /** A line is passed, after whatever an unconsumed block left in the output. */
  lemma FilterPasses(buf: Bytes, wrote: set<nat>, i: nat, next: nat, out: Bytes, changed: bool)
    requires FilterRead(buf, wrote, i, out, changed) && i < |buf|
    requires next == i + FirstLength(buf[i..])
    requires !NamesWritten(buf[i..next], wrote) || BlockResult(Lines(buf[i..])).0.None?
    ensures var left := if NamesWritten(buf[i..next], wrote)
                        then Concat(BlockResult(Lines(buf[i..])).1) else [];
            FilterRead(buf, wrote, next, out + left + buf[i..next], changed)
  {
    hide Lines, Emitted, Concat, BlockResult, NamesWritten;
    LinesAfter(buf, i, next);
    NoBytes();
    var line, lines := buf[i..next], Lines(buf[i..]);
    assert lines[0] == line && lines[1..] == Lines(buf[next..]);
    EmittedByResult(lines, wrote);
    var twice := if NamesWritten(line, wrote) then BlockResult(lines).1 else [];
    var rest := Emitted(lines[1..], wrote).0;
    ConcatSnoc(twice, line);
    ConcatAppend(twice + [line], rest);
    assert out + (Concat(twice) + line + Concat(rest)) == out + Concat(twice) + line + Concat(rest);
  }

  lemma NamedBy(l: Bytes, wrote: set<nat>)
    ensures var app := AppOfText(Content(l));
            NamesWritten(l, wrote) == (app.Some? && app.value in wrote)
  {
  }

  /** The filter computes what `Emitted` says, or nothing when nothing changed. */
  method StripControlledCloud(buf: Bytes, wrote: set<nat>) returns (r: Option<Bytes>)
    ensures r == ResultOf(Emitted(Lines(buf), wrote))
  {
    hide Lines, FirstLength, Concat, Emitted, BlockResult, NamesWritten, FilterRead, AppOfText;
    var out: Bytes, changed, i := [], false, 0;
    FilterStarts(buf, wrote);
    while i < |buf|
      invariant i <= |buf| && FilterRead(buf, wrote, i, out, changed)
      decreases |buf| - i
    {
      var lineEnd, next := NextLine(buf, i);
      LinesAfter(buf, i, next);
      NamedBy(buf[i..next], wrote);
      var app := ParseAppId(buf[i..lineEnd]);
      if app.Some? && app.value in wrote {
        var end, appended := TryStripBlock(buf, i, next, out);
        if end.Some? {
          FilterDrops(buf, wrote, i, out, changed, end.value);
          out, changed, i := appended, true, end.value;
          continue;
        }
        FilterPasses(buf, wrote, i, next, out, changed);
        out := appended;
      } else {
        FilterPasses(buf, wrote, i, next, out, changed);
        assert out + [] == out;
      }
      out := out + buf[i..next];
      i := next;
    }
    FilterEnds(buf, wrote, out, changed);
    r := if changed then Some(out) else None;
  }

  /** Look for a word by comparing every window of its length. */
  method ContainsBytes(haystack: Bytes, needle: Bytes) returns (b: bool)
    ensures b == Contains(haystack, needle)
  {
    if |haystack| < |needle| { return false; }
    for i := 0 to |haystack| - |needle| + 1
      invariant forall k | 0 <= k < i :: !(needle <= haystack[k..])
    {
      if haystack[i..i + |needle|] == needle {
        assert haystack[i..][..|needle|] == needle;
        return true;
      }
      assert haystack[i..][..|needle|] == haystack[i..i + |needle|];
    }
    b := false;
  }

  /** The program's entry: only a roaming configuration with a `cloudenabled` key is filtered. */
  method StripCloudFromVdf(buf: Bytes, wrote: set<nat>) returns (r: Option<Bytes>)
    ensures r == Filtered(buf, wrote)
  {
    hide Contains, Lines, Emitted;
    if |buf| > MAX_ROAMING_CONFIG_BYTES { return None; }
    var roaming := ContainsBytes(buf, Quoted(USER_ROAMING_KEY));
    if !roaming { return None; }
    var cloud := ContainsBytes(buf, Quoted(CLOUD_KEY));
    if !cloud { return None; }
    if wrote == {} { return None; }
    r := StripControlledCloud(buf, wrote);
  }
}
