/** The CONTROLS region of a preset as text: finding it, reading registration heads out of it, and printing
    heads that are read back as themselves (norviq/api/baseline.py). */
module ControlText {
  import opened Outcomes
  import opened Strings
  import opened PyText
  import opened LineReader
  import opened RuleBody

  /** What the source raises. */
  datatype Error = ValueError | KeyError

  // ----- the region -----------------------------------------------------------------------------

  datatype Parts = Parts(before: string, region: string, after: string)

  /** The text before the first `begin`, between its line and the first `end`, and after that. */
  function SplitBetween(src: string, begin: string, end: string): Result<Parts, Error> {
    var b, e := Index(src, begin, 0), Index(src, end, 0);
    if b.None? || e.None? then Err(ValueError) else
      var newline := Index(src, "\n", b.value);
      if newline.None? then Err(ValueError) else
        var start := newline.value + 1;
        Ok(Parts(src[..b.value], if start <= e.value then src[start..e.value] else "", src[e.value + |end|..]))
  }

  predicate SplitsInto(src: string, begin: string, end: string, before: string, region: string, after: string) {
    var p := SplitBetween(src, begin, end);
    p.Ok? && p.value.before == before && p.value.region == region && p.value.after == after
  }

  const BEGIN := "# >>> CONTROLS-BEGIN"
  const END := "# >>> CONTROLS-END"

  function SplitRegion(src: string): Result<Parts, Error> { SplitBetween(src, BEGIN, END) }

  /** The first `end` does not come before the first `begin`. */
  predicate Ordered(src: string, begin: string, end: string) {
    var b, e := Index(src, begin, 0), Index(src, end, 0);
    b.Some? && e.Some? && b.value < e.value
  }

  predicate InOrder(src: string) { Ordered(src, BEGIN, END) }

  /** Two one-line markers that cannot overlap. */
  predicate Markers(begin: string, end: string) {
    && begin != "" && end != "" && '\n' !in begin && '\n' !in end
    && |end| <= |begin| && (exists k | 0 <= k < |end| :: end[k] != begin[k])
    && (forall k | 0 < k < |begin| :: begin[k] != end[0])
    && (forall k | 0 < k < |end| :: end[k] != begin[0])
  }

  lemma ControlMarkers()
    ensures Markers(BEGIN, END)
  {
    assert BEGIN[15] == 'B' && END[15] == 'E';
  }

  lemma RegionLacksEnd(src: string, begin: string, end: string)
    requires SplitBetween(src, begin, end).Ok? && end != ""
    ensures Lacks(SplitBetween(src, begin, end).value.region, end)
  {
    var region, e := SplitBetween(src, begin, end).value.region, Index(src, end, 0).value;
    var start := Index(src, "\n", Index(src, begin, 0).value).value + 1;
    IndexIs(src, end, 0, e);
    if start <= e {
      forall i: nat | i <= |region| ensures !Occurs(region, end, i) {
        OccursInSlice(src, start, e, end, i);
      }
    }
  }

  lemma OpeningLacksEnd(src: string, begin: string, end: string)
    requires Markers(begin, end) && Ordered(src, begin, end)
    ensures Lacks(src[..Index(src, begin, 0).value + |begin|], end)
  {
    var b, e := Index(src, begin, 0).value, Index(src, end, 0).value;
    var text := src[..b + |begin|];
    IndexIs(src, begin, 0, b);
    IndexIs(src, end, 0, e);
    assert text == src[0..b + |begin|];
    CharAt(src, end, e, 0);
    CharAt(src, begin, b, e - b);
    forall i: nat | i <= |text| ensures !Occurs(text, end, i) {
      OccursInSlice(src, 0, b + |begin|, end, i);
    }
  }

  /** A text put between the markers. */
  function Between(before: string, begin: string, text: string, end: string, after: string): string {
    before + begin + "\n" + (text + end + after)
  }

  lemma NewlineAfterBegin(before: string, begin: string, rest: string)
    requires '\n' !in begin
    ensures FoundAt(before + begin + "\n" + rest, "\n", |before|, |before| + |begin|)
  {
    var s, at := before + begin + "\n" + rest, |before| + |begin|;
    assert s[at] == '\n';
    forall i | |before| <= i < at ensures !Occurs(s, "\n", i) {
      assert s[i] == begin[i - |before|];
      CharAt(s, "\n", i, 0);
    }
    IndexIs(s, "\n", |before|, at);
  }

  lemma PiecesOf(a: string, b: string, c: string)
    ensures var s := a + b + c; s[..|a|] == a && s[|a|..|a| + |b|] == b && s[|a| + |b|..] == c
  {
  }

  lemma BetweenPieces(before: string, begin: string, text: string, end: string, after: string)
    ensures var s, n := Between(before, begin, text, end, after), |before| + |begin| + 1;
            && |s| == n + |text| + |end| + |after|
            && s[..|before|] == before && s[n..n + |text|] == text && s[n + |text| + |end|..] == after
  {
    var s, opening := Between(before, begin, text, end, after), before + begin + "\n";
    assert s == opening + text + (end + after);
    PiecesOf(opening, text, end + after);
    assert s == (opening + text) + end + after;
    PiecesOf(opening + text, end, after);
    assert s == before + begin + ("\n" + (text + end + after));
    PiecesOf(before, begin, "\n" + (text + end + after));
  }

  lemma SplitAt(s: string, begin: string, end: string, b: nat, n: nat, e: nat)
    requires FoundAt(s, begin, 0, b) && FoundAt(s, "\n", b, n) && FoundAt(s, end, 0, e) && n < e
    ensures SplitsInto(s, begin, end, s[..b], s[n + 1..e], s[e + |end|..])
  {
  }

  lemma SplitsBetween(before: string, begin: string, text: string, end: string, after: string)
    requires '\n' !in begin
    requires var s := Between(before, begin, text, end, after);
             FoundAt(s, begin, 0, |before|) && FoundAt(s, end, 0, |before| + |begin| + 1 + |text|)
    ensures SplitsInto(Between(before, begin, text, end, after), begin, end, before, text, after)
  {
    var s, n := Between(before, begin, text, end, after), |before| + |begin|;
    NewlineAfterBegin(before, begin, text + end + after);
    BetweenPieces(before, begin, text, end, after);
    SplitAt(s, begin, end, |before|, n, n + 1 + |text|);
  }

  lemma OccursIsSlice(s: string, t: string, i: nat)
    requires Occurs(s, t, i)
    ensures s[i..i + |t|] == t
  {
  }

  lemma BeginIsKept(src: string, begin: string, rest: string)
    requires Index(src, begin, 0).Some?
    ensures var b := Index(src, begin, 0).value; FoundAt(src[..b] + begin + rest, begin, 0, b)
  {
    var b := Index(src, begin, 0).value;
    IndexIs(src, begin, 0, b);
    OccursIsSlice(src, begin, b);
    assert src[..b] + begin == src[..b + |begin|];
    assert (src[..b + |begin|] + rest)[..b + |begin|] == src[..b + |begin|];
    IndexOfPrefix(src, src[..b] + begin + rest, begin, b);
  }

  /** Lines without the end marker, put between the markers, are the region of the new text; the text
      around it is the old text's. */
  lemma RegionIsReplaced(src: string, begin: string, end: string, lines: seq<string>)
    requires Markers(begin, end) && SplitBetween(src, begin, end).Ok? && Ordered(src, begin, end)
    requires lines != [] && forall i | 0 <= i < |lines| :: Lacks(lines[i], end)
    ensures var p, text := SplitBetween(src, begin, end).value, Join(lines, "\n") + "\n";
            SplitsInto(Between(p.before, begin, text, end, p.after), begin, end, p.before, text, p.after)
  {
    var p, text := SplitBetween(src, begin, end).value, Join(lines, "\n") + "\n";
    EndIsAfter(src, begin, end, lines, p.after);
    BeginStays(src, begin, text + end + p.after);
    SplitsBetween(p.before, begin, text, end, p.after);
  }

  lemma BeginStays(src: string, begin: string, rest: string)
    requires Index(src, begin, 0).Some?
    ensures var before := src[..Index(src, begin, 0).value]; FoundAt(before + begin + "\n" + rest, begin, 0, |before|)
  {
    var before := src[..Index(src, begin, 0).value];
    BeginIsKept(src, begin, "\n" + rest);
    assert before + begin + ("\n" + rest) == before + begin + "\n" + rest;
  }

  lemma EndIsAfter(src: string, begin: string, end: string, lines: seq<string>, after: string)
    requires Markers(begin, end) && Ordered(src, begin, end)
    requires lines != [] && forall i | 0 <= i < |lines| :: Lacks(lines[i], end)
    ensures var before, text := src[..Index(src, begin, 0).value], Join(lines, "\n") + "\n";
            FoundAt(before + begin + "\n" + (text + end + after), end, 0, |before| + |begin| + 1 + |text|)
  {
    var before, text := src[..Index(src, begin, 0).value], Join(lines, "\n") + "\n";
    OpeningLacksEnd(src, begin, end);
    IndexIs(src, begin, 0, |before|);
    OccursIsSlice(src, begin, |before|);
    assert before + begin == src[..|before| + |begin|];
    IndexAfterLines(lines, end, after);
    IndexAfterLine(before + begin, text + end + after, end, |text|);
  }

  lemma MarkersApart(src: string, begin: string, end: string)
    requires Markers(begin, end) && Index(src, begin, 0).Some? && Index(src, end, 0).Some? && !Ordered(src, begin, end)
    ensures Index(src, end, 0).value + |end| <= Index(src, begin, 0).value
  {
    var b, e := Index(src, begin, 0).value, Index(src, end, 0).value;
    var k :| 0 <= k < |end| && end[k] != begin[k];
    IndexIs(src, begin, 0, b);
    IndexIs(src, end, 0, e);
    CharAt(src, begin, b, k);
    CharAt(src, end, e, k);
    CharAt(src, begin, b, 0);
    CharAt(src, end, e, b - e);
  }

  /** With the markers the wrong way round the new text has an empty region. */
  lemma RegionIsLost(src: string, begin: string, end: string, text: string)
    requires Markers(begin, end) && SplitBetween(src, begin, end).Ok? && !Ordered(src, begin, end)
    ensures var p := SplitBetween(src, begin, end).value;
            var q := SplitBetween(Between(p.before, begin, text, end, p.after), begin, end);
            q.Ok? && q.value.region == ""
  {
    var p, e := SplitBetween(src, begin, end).value, Index(src, end, 0).value;
    var rest := text + end + p.after;
    var s := p.before + begin + "\n" + rest;
    assert p.before + begin + ("\n" + rest) == s;
    BeginIsKept(src, begin, "\n" + rest);
    MarkersApart(src, begin, end);
    assert s[..e + |end|] == p.before[..e + |end|];
    IndexOfPrefix(src, s, end, e);
    NewlineAfterBegin(p.before, begin, rest);
  }

  // ----- heads ----------------------------------------------------------------------------------

  datatype SetName = Blocks | Escalates | Audits

  function Name(group: SetName): string {
    match group case Blocks => "blocks" case Escalates => "escalates" case Audits => "audits"
  }

  datatype Head = Head(group: SetName, id: string, guard: string)

  predicate IsIdChar(c: char) {
    'A' <= c <= 'Z' || 'a' <= c <= 'z' || '0' <= c <= '9' || c == '_'
  }

  predicate IsId(s: string) { s != "" && forall i | 0 <= i < |s| :: IsIdChar(s[i]) }

  function IdLength(s: string): (n: nat)
    ensures n <= |s| && forall i | 0 <= i < n :: IsIdChar(s[i])
    ensures n < |s| ==> !IsIdChar(s[n])
  {
    if s == "" || !IsIdChar(s[0]) then 0 else 1 + IdLength(s[1..])
  }

  function Opening(group: SetName): string { Name(group) + "[" + "\"" }

  function OpeningSet(s: string): Option<SetName> {
    if StartsWith(s, Opening(Blocks)) then Some(Blocks)
    else if StartsWith(s, Opening(Escalates)) then Some(Escalates)
    else if StartsWith(s, Opening(Audits)) then Some(Audits)
    else None
  }

  /** The pattern after the id, on a stripped line: the guard runs from the first brace to the last. */
  function MatchGuard(s: string): Option<string> {
    if !StartsWith(s, "\"]") then None else
      var body := TrimLeft(Python, s[2..]);
      if |body| < 3 || body[0] != '{' || body[|body| - 1] != '}' || '\n' in body then None
      else Some(body[1..|body| - 1])
  }

  function MatchHead(s: string): Option<Head> {
    var group := OpeningSet(s);
    if group.None? then None else
      var rest := s[|Opening(group.value)|..];
      var n := IdLength(rest);
      var guard := MatchGuard(rest[n..]);
      if n == 0 || guard.None? then None else Some(Head(group.value, rest[..n], guard.value))
  }

  /** What stands for a set without heads. */
  function NeverFires(group: SetName): string { Name(group) + "[" + NEVER }

  const NEVER := "id] { false; id := \"__never__\" }"

  predicate IsPlaceholder(s: string) {
    s == NeverFires(Blocks) || s == NeverFires(Escalates) || s == NeverFires(Audits)
  }

  function ReadLine(line: string): Result<seq<Head>, Error> {
    var s := Trim(Python, line);
    if s == "" || s[0] == '#' || IsPlaceholder(s) then Ok([]) else
      var h := MatchHead(s);
      if h.None? || !OneBody(h.value.guard) then Err(ValueError)
      else Ok([h.value.(guard := Trim(Python, h.value.guard))])
  }

  function ParseHeads(region: string): Result<seq<Head>, Error> { ReadAll(ReadLine, SplitLines(region)) }

  method CollectHeads(region: string) returns (r: Result<seq<Head>, Error>)
    ensures r == ParseHeads(region)
  {
    var heads, lines := [], SplitLines(region);
    for i := 0 to |lines|
      invariant Gives(ReadAll(ReadLine, lines[..i]), heads)
    {
      ReadNext(ReadLine, lines, i, heads);
      var s := Trim(Python, lines[i]);
      if s == "" || s[0] == '#' {
        continue;
      }
      if IsPlaceholder(s) {
        continue;
      }
      var h := MatchHead(s);
      var one := false;
      if h.Some? {
        one := IsOneBody(h.value.guard);
      }
      if !one {
        return Err(ValueError);
      }
      heads := heads + [h.value.(guard := Trim(Python, h.value.guard))];
    }
    assert lines[..|lines|] == lines;
    r := Ok(heads);
  }

  // ----- heads that are read out ----------------------------------------------------------------

  /** What every head read out of a region is like, and all a printed head needs to be read back. */
  predicate WellFormed(h: Head) {
    && IsId(h.id)
    && Unbroken(h.guard)
    && Trim(Python, h.guard) == h.guard
    && OneBody(" " + h.guard + " ")
    && Lacks(h.guard, END)
  }

  lemma SliceUnbroken(x: string, s: string)
    requires IsSlice(x, s) && Unbroken(s)
    ensures Unbroken(x)
  {
  }

  lemma MatchedGuardIsSlice(s: string)
    requires MatchGuard(s).Some?
    ensures IsSlice(MatchGuard(s).value, s)
  {
    var body := TrimLeft(Python, s[2..]);
    FromIsSlice(s, 2);
    TrimLeftIsSlice(s[2..]);
    SliceTrans(body, s[2..], s);
    SliceTrans(body[1..|body| - 1], body, s);
  }

  /** The guard is a slice of the line it was read from. */
  lemma GuardIsSlice(s: string)
    requires MatchHead(s).Some?
    ensures IsSlice(MatchHead(s).value.guard, s) && IsId(MatchHead(s).value.id)
  {
    var rest := s[|Opening(OpeningSet(s).value)|..];
    var tail := rest[IdLength(rest)..];
    FromIsSlice(s, |Opening(OpeningSet(s).value)|);
    FromIsSlice(rest, IdLength(rest));
    MatchedGuardIsSlice(tail);
    SliceTrans(tail, rest, s);
    SliceTrans(MatchGuard(tail).value, tail, s);
  }

  lemma ReadIsWellFormed(line: string)
    requires Unbroken(line) && Lacks(line, END) && ReadLine(line).Ok? && ReadLine(line).value != []
    ensures WellFormed(ReadLine(line).value[0])
  {
    var s := Trim(Python, line);
    var guard := MatchHead(s).value.guard;
    var trimmed := Trim(Python, guard);
    TrimIsSlice(line);
    GuardIsSlice(s);
    TrimIsSlice(guard);
    SliceTrans(guard, s, line);
    SliceTrans(trimmed, guard, line);
    SliceLacks(trimmed, line, END);
    SliceUnbroken(trimmed, line);
    TrimmedIsOneBody(guard);
    TrimTwice(guard);
  }

  /** Every head of every chart can be printed again. */
  lemma HeadsAreWellFormed(src: string, k: nat)
    requires SplitRegion(src).Ok? && ParseHeads(SplitRegion(src).value.region).Ok?
    requires k < |ParseHeads(SplitRegion(src).value.region).value|
    ensures WellFormed(ParseHeads(SplitRegion(src).value.region).value[k])
  {
    var region := SplitRegion(src).value.region;
    var i, j := GivenBy(ReadLine, SplitLines(region), k);
    RegionLacksEnd(src, BEGIN, END);
    LinesLack(region, END);
    ReadIsWellFormed(SplitLines(region)[i]);
  }

  // ----- printed heads --------------------------------------------------------------------------

  function Enclosed(guard: string): string { "\"] { " + guard + " }" }

  function PrintHead(h: Head): string { Opening(h.group) + (h.id + Enclosed(h.guard)) }

  lemma IdLengthIs(id: string, rest: string)
    requires IsId(id) && rest != "" && !IsIdChar(rest[0])
    ensures IdLength(id + rest) == |id|
  {
    var s := id + rest;
    assert s[|id|] == rest[0];
    assert forall i | 0 <= i < |id| :: s[i] == id[i];
  }

  lemma OpeningIsRead(group: SetName, rest: string)
    ensures OpeningSet(Opening(group) + rest) == Some(group)
  {
    var s := Opening(group) + rest;
    assert s[..|Opening(group)|] == Opening(group);
    assert s[0] == Name(group)[0];
    forall other: SetName | StartsWith(s, Opening(other)) ensures other == group {
      assert s[..|Opening(other)|][0] == Name(other)[0];
    }
  }

  lemma GuardIsMatched(guard: string)
    requires '\n' !in guard
    ensures MatchGuard(Enclosed(guard)) == Some(" " + guard + " ")
  {
    var s, inner := Enclosed(guard), " " + guard + " ";
    var body := "{" + inner + "}";
    assert s == "\"]" + (" " + body);
    assert s[..2] == "\"]" && s[2..] == " " + body;
    assert (" " + body)[1..] == body && body[0] == '{';
    assert TrimLeft(Python, " " + body) == body;
    assert body[1..|body| - 1] == inner && '\n' !in body;
  }

  lemma PrintedIsMatched(h: Head)
    requires IsId(h.id) && '\n' !in h.guard
    ensures MatchHead(PrintHead(h)) == Some(h.(guard := " " + h.guard + " "))
  {
    var tail := Enclosed(h.guard);
    OpeningIsRead(h.group, h.id + tail);
    assert PrintHead(h)[|Opening(h.group)|..] == h.id + tail;
    assert tail[0] == '"';
    IdLengthIs(h.id, tail);
    assert (h.id + tail)[|h.id|..] == tail && (h.id + tail)[..|h.id|] == h.id;
    GuardIsMatched(h.guard);
  }

  lemma PrintedIsSolid(h: Head)
    ensures Trim(Python, PrintHead(h)) == PrintHead(h) && PrintHead(h)[0] in "bea" && !IsPlaceholder(PrintHead(h))
  {
    var s := PrintHead(h);
    assert s[0] == Name(h.group)[0] && s[|s| - 1] == '}';
    TrimOfSolid(s);
    forall group: SetName ensures s != NeverFires(group) {
      assert NeverFires(group)[0] == Name(group)[0];
      assert s[|Name(h.group)| + 1] == '"';
      assert NeverFires(group)[|Name(group)| + 1] == 'i';
    }
  }

  lemma SolidIsRead(s: string, h: Head)
    requires s != "" && s[0] != '#' && Trim(Python, s) == s && !IsPlaceholder(s)
    requires MatchHead(s).Some? && OneBody(MatchHead(s).value.guard)
    requires h == MatchHead(s).value.(guard := Trim(Python, MatchHead(s).value.guard))
    ensures Gives(ReadLine(s), [h])
  {
  }

  /** Printing and reading a head. */
  lemma PrintedIsRead(h: Head)
    requires WellFormed(h)
    ensures Gives(ReadLine(PrintHead(h)), [h])
  {
    PrintedIsSolid(h);
    PrintedIsMatched(h);
    TrimPadded(h.guard);
    SolidIsRead(PrintHead(h), h);
  }

  lemma TrimPadded(s: string)
    requires Trim(Python, s) == s
    ensures Trim(Python, " " + s + " ") == s
  {
    TrimIsSlice(s);
    var t := s + " ";
    assert " " + s + " " == " " + t && (" " + t)[1..] == t;
    assert TrimLeft(Python, " " + t) == TrimLeft(Python, t);
    assert t[..|t| - 1] == s;
    if s == "" {
      assert t == " " && t[1..] == "";
    } else {
      assert t[0] == s[0];
    }
  }

  lemma UnbrokenConcat(a: string, b: string)
    requires Unbroken(a) && Unbroken(b)
    ensures Unbroken(a + b)
  {
  }

  lemma PrintedIsUnbroken(h: Head)
    requires WellFormed(h)
    ensures Unbroken(PrintHead(h))
  {
    UnbrokenConcat("\"] { ", h.guard);
    UnbrokenConcat("\"] { " + h.guard, " }");
    UnbrokenConcat(h.id, Enclosed(h.guard));
    UnbrokenConcat(Opening(h.group), h.id + Enclosed(h.guard));
  }

  /** A marker whose first and last characters appear nowhere around a text without it. */
  lemma LacksAround(front: string, text: string, back: string, t: string)
    requires t != "" && t[0] !in front && t[0] !in back && t[|t| - 1] !in back && Lacks(text, t)
    ensures Lacks(front + text + back, t)
  {
    var s := front + text + back;
    assert s[|front|..|front| + |text|] == text;
    forall i: nat | i <= |s| ensures !Occurs(s, t, i) {
      CharAt(s, t, i, 0);
      CharAt(s, t, i, |t| - 1);
      if |front| <= i {
        OccursInSlice(s, |front|, |front| + |text|, t, i - |front|);
      }
    }
  }

  /** Nothing but the guard can hold a hash sign, and the guard does not hold the end marker. */
  lemma PrintedLacksEnd(h: Head)
    requires WellFormed(h)
    ensures Lacks(PrintHead(h), END)
  {
    var front := Opening(h.group) + (h.id + "\"] { ");
    assert '#' !in Opening(h.group) && '#' !in h.id && '#' !in "\"] { ";
    assert END[0] == '#' && END[|END| - 1] == 'D';
    LacksAround(front, h.guard, " }", END);
    assert PrintHead(h) == front + h.guard + " }";
  }

  lemma PlaceholderIsRead(group: SetName)
    ensures Gives(ReadLine(NeverFires(group)), [])
  {
    var s := NeverFires(group);
    assert s[0] == Name(group)[0] && s[|s| - 1] == '}';
    TrimOfSolid(s);
  }

  lemma NeverIsQuiet()
    ensures Unbroken(NEVER) && '#' !in NEVER
  {
  }

  lemma NameIsQuiet(group: SetName)
    ensures Unbroken(Name(group) + "[") && '#' !in Name(group) + "["
  {
  }

  lemma PlaceholderIsQuiet(group: SetName)
    ensures Unbroken(NeverFires(group)) && Lacks(NeverFires(group), END)
  {
    NeverIsQuiet();
    NameIsQuiet(group);
    UnbrokenConcat(Name(group) + "[", NEVER);
    HashlessLacksEnd(Name(group) + "[" + NEVER);
  }

  lemma HashlessLacksEnd(s: string)
    requires '#' !in s
    ensures Lacks(s, END)
  {
    forall i: nat | i <= |s| ensures !Occurs(s, END, i) {
      CharAt(s, END, i, 0);
    }
  }
}
