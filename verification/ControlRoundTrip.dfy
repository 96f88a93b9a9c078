/** A compiled module is read back as the effects it was compiled from, and nothing but compiled modules
    covers a chart. */
module ControlRoundTrip {
  import opened Outcomes
  import opened Strings
  import opened PyText
  import opened LineReader
  import opened IdOrder
  import opened ControlText
  import opened ControlCompiler

  // ----- the emitted heads ----------------------------------------------------------------------

  lemma {:induction false} EmittedHas(heads: seq<Head>, e: Effects, target: SetName, i: nat)
    requires i < |heads| && heads[i].id in e && Goes(e[heads[i].id], heads[i].group, target)
    ensures heads[i].(group := target) in Emitted(heads, e, target)
    decreases |heads|
  {
    if i < |heads| - 1 {
      EmittedHas(heads[..|heads| - 1], e, target, i);
    }
  }

  lemma {:induction false} EmittedFrom(heads: seq<Head>, e: Effects, target: SetName, k: nat) returns (i: nat)
    requires k < |Emitted(heads, e, target)|
    ensures i < |heads| && heads[i].id in e && Goes(e[heads[i].id], heads[i].group, target)
    ensures Emitted(heads, e, target)[k] == heads[i].(group := target)
    decreases |heads|
  {
    var init, last := heads[..|heads| - 1], heads[|heads| - 1];
    if k < |Emitted(init, e, target)| {
      i := EmittedFrom(init, e, target, k);
      assert heads[i] == init[i];
    } else {
      i := |heads| - 1;
      assert Emitted(heads, e, target)[k] == Moved(last, e, target)[k - |Emitted(init, e, target)|];
    }
  }

  predicate AllWellFormed(heads: seq<Head>) { forall i | 0 <= i < |heads| :: WellFormed(heads[i]) }

  lemma EmittedAreWellFormed(heads: seq<Head>, e: Effects, target: SetName)
    requires AllWellFormed(heads)
    ensures AllWellFormed(Emitted(heads, e, target))
  {
    forall k | 0 <= k < |Emitted(heads, e, target)| ensures WellFormed(Emitted(heads, e, target)[k]) {
      var i := EmittedFrom(heads, e, target, k);
      assert WellFormed(heads[i]);
    }
  }

  // ----- lines that are read as given heads -----------------------------------------------------

  /** Lines with no break and no end marker inside. */
  predicate Quiet(lines: seq<string>) {
    forall i | 0 <= i < |lines| :: Unbroken(lines[i]) && Lacks(lines[i], END)
  }

  lemma PrintedHeads(heads: seq<Head>)
    requires AllWellFormed(heads)
    ensures Gives(ReadAll(ReadLine, PrintHeads(heads)), heads) && Quiet(PrintHeads(heads))
  {
    var lines := PrintHeads(heads);
    forall i | 0 <= i < |lines|
      ensures Gives(ReadLine(lines[i]), [heads[i]]) && Unbroken(lines[i]) && Lacks(lines[i], END)
    {
      PrintedIsRead(heads[i]);
      PrintedIsUnbroken(heads[i]);
      PrintedLacksEnd(heads[i]);
    }
    GivesEach(ReadLine, lines, heads);
  }

  lemma BlankLine()
    ensures Gives(ReadLine(""), []) && Quiet([""])
  {
    HashlessLacksEnd("");
  }

  /** A quiet line that gives nothing, in front of quiet lines. */
  lemma QuietThen(line: string, lines: seq<string>, heads: seq<Head>)
    requires Gives(ReadLine(line), []) && Quiet([line]) && Gives(ReadAll(ReadLine, lines), heads) && Quiet(lines)
    ensures Gives(ReadAll(ReadLine, [line] + lines), heads) && Quiet([line] + lines)
  {
    NothingThen(ReadLine, line, lines, heads);
    assert Unbroken([line][0]) && Lacks([line][0], END);
  }

  lemma EmptySetLines(group: SetName)
    ensures var lines := SetLines([], group); Gives(ReadAll(ReadLine, lines), []) && Quiet(lines)
  {
    BlankLine();
    PlaceholderIsRead(group);
    PlaceholderIsQuiet(group);
    QuietThen(NeverFires(group), [], []);
    assert [NeverFires(group)] + [] == [NeverFires(group)];
    QuietThen("", [NeverFires(group)], []);
  }

  lemma SetLinesRead(heads: seq<Head>, group: SetName)
    requires AllWellFormed(heads)
    ensures var lines := SetLines(heads, group); Gives(ReadAll(ReadLine, lines), heads) && Quiet(lines)
  {
    if heads == [] {
      EmptySetLines(group);
    } else {
      BlankLine();
      PrintedHeads(heads);
      QuietThen("", PrintHeads(heads), heads);
    }
  }

  // ----- the two comment lines ------------------------------------------------------------------

  lemma CommentReads(line: string)
    requires line != "" && line[0] == '#' && !IsSpace(Python, line[|line| - 1])
    ensures Gives(ReadLine(line), []) && Trim(Python, line) == line
  {
    TrimOfSolid(line);
  }

  /** A comment holds the end marker only at its front if it holds one hash sign. */
  lemma CommentLacksEnd(line: string, k: nat)
    requires k < |END| && k < |line| && line[k] != END[k]
    requires forall i | 0 < i < |line| :: line[i] != '#'
    ensures Lacks(line, END)
  {
    forall i: nat | i <= |line| ensures !Occurs(line, END, i) {
      CharAt(line, END, i, 0);
      CharAt(line, END, i, k);
    }
  }

  predicate Tame(s: string) { forall i | 0 <= i < |s| :: s[i] != '#' && !IsBreak(s[i]) }

  lemma NoteIsTame()
    ensures Tame(NOTE)
  {
    var a, b, c := " GENERATED by norviq/api/", "baseline.py \U{2014} edit the ", "control effects, not this region.";
    assert Tame(a);
    assert Tame(b);
    assert Tame(c);
    TameConcat(a, b);
    TameConcat(a + b, c);
  }

  lemma TameConcat(a: string, b: string)
    requires Tame(a) && Tame(b)
    ensures Tame(a + b)
  {
  }

  lemma NoteEnds()
    ensures |NOTE| > 18 && NOTE[1] == 'G' && NOTE[|NOTE| - 1] == '.'
  {
  }

  lemma GeneratedLine()
    ensures Gives(ReadLine(GENERATED), []) && Quiet([GENERATED]) && !StartsWith(Trim(Python, GENERATED), OFF)
  {
    NoteIsTame();
    NoteEnds();
    CommentLine(NOTE);
  }

  lemma CommentLine(note: string)
    requires Tame(note) && |note| > 18 && note[1] == 'G' && note[|note| - 1] == '.'
    ensures var line := "#" + note;
            Gives(ReadLine(line), []) && Quiet([line]) && !StartsWith(Trim(Python, line), OFF)
  {
    var line := "#" + note;
    CommentReads(line);
    CommentLacksEnd(line, 2);
    StartsChar(line, OFF, 2);
  }

  predicate AllIds(ids: seq<string>) { forall i | 0 <= i < |ids| :: IsId(ids[i]) }

  predicate Bland(s: string) { forall i | 0 <= i < |s| :: IsIdChar(s[i]) || s[i] == ' ' }

  lemma {:induction false} JoinedIds(ids: seq<string>)
    requires AllIds(ids)
    ensures var s := Join(ids, " "); Bland(s) && (ids != [] ==> s != "" && IsIdChar(s[|s| - 1]))
    decreases |ids|
  {
    if |ids| > 1 {
      assert AllIds(ids[1..]);
      JoinedIds(ids[1..]);
    }
  }

  lemma IdsAreWords(ids: seq<string>)
    requires AllIds(ids)
    ensures Words(" " + Join(ids, " ")) == ids
  {
    WordsOfJoin(ids);
    assert (" " + Join(ids, " "))[1..] == Join(ids, " ");
  }

  /** The off record as written: nothing to trim unless there is nothing on it. */
  lemma OffLineIs(off: seq<string>)
    requires AllIds(off)
    ensures OffLine(off) == OFF + if off == [] then "" else " " + Join(off, " ")
  {
    JoinedIds(off);
    var s := OFF + (" " + Join(off, " "));
    if off == [] {
      assert s == OFF + " " && s[..|s| - 1] == OFF;
      assert TrimRight(Python, s) == TrimRight(Python, OFF) == OFF;
      assert OFF + "" == OFF;
    } else {
      assert s[|s| - 1] == Join(off, " ")[|Join(off, " ")| - 1];
    }
  }

  lemma OffLineIsComment(off: seq<string>, tail: string)
    requires Bland(tail) && (tail == "" || IsIdChar(tail[|tail| - 1]))
    ensures Gives(ReadLine(OFF + tail), []) && Trim(Python, OFF + tail) == OFF + tail && Quiet([OFF + tail])
  {
    var s := OFF + tail;
    assert s[0] == '#' && s[15] == 'O' && END[15] == 'E';
    assert s[|s| - 1] == if tail == "" then ':' else tail[|tail| - 1];
    CommentReads(s);
    assert Unbroken(OFF) && Unbroken(tail);
    UnbrokenConcat(OFF, tail);
    CommentLacksEnd(s, 15);
  }

  lemma OffLineReads(off: seq<string>)
    requires AllIds(off)
    ensures Gives(ReadLine(OffLine(off)), []) && Quiet([OffLine(off)])
    ensures var s := Trim(Python, OffLine(off)); StartsWith(s, OFF) && Words(s[|OFF|..]) == off
  {
    var tail := if off == [] then "" else " " + Join(off, " ");
    OffLineIs(off);
    JoinedIds(off);
    OffLineIsComment(off, tail);
    assert (OFF + tail)[..|OFF|] == OFF && (OFF + tail)[|OFF|..] == tail;
    if off != [] {
      IdsAreWords(off);
    }
  }

  // ----- the region as written ------------------------------------------------------------------

  lemma RegionReads(off: seq<string>, blocks: seq<Head>, escalates: seq<Head>, audits: seq<Head>)
    requires AllIds(off) && AllWellFormed(blocks) && AllWellFormed(escalates) && AllWellFormed(audits)
    ensures var lines := RegionLines(off, blocks, escalates, audits);
            Gives(ReadAll(ReadLine, lines), blocks + escalates + audits) && Quiet(lines)
  {
    GeneratedLine();
    OffLineReads(off);
    SetLinesRead(blocks, Blocks);
    SetLinesRead(escalates, Escalates);
    SetLinesRead(audits, Audits);
    var b, c, d := SetLines(blocks, Blocks), SetLines(escalates, Escalates), SetLines(audits, Audits);
    ThreeRead(b, blocks, c, escalates, d, audits);
    AllRead(GENERATED, OffLine(off), b + c + d, blocks + escalates + audits);
  }

  lemma QuietConcat(a: seq<string>, b: seq<string>)
    requires Quiet(a) && Quiet(b)
    ensures Quiet(a + b)
  {
  }

  lemma ThreeRead(b: seq<string>, x: seq<Head>, c: seq<string>, y: seq<Head>, d: seq<string>, z: seq<Head>)
    requires Gives(ReadAll(ReadLine, b), x) && Gives(ReadAll(ReadLine, c), y) && Gives(ReadAll(ReadLine, d), z)
    requires Quiet(b) && Quiet(c) && Quiet(d)
    ensures Gives(ReadAll(ReadLine, b + c + d), x + y + z) && Quiet(b + c + d)
  {
    GivesConcat(ReadLine, b, x, c, y);
    GivesConcat(ReadLine, b + c, x + y, d, z);
    QuietConcat(b, c);
    QuietConcat(b + c, d);
  }

  lemma AllRead(first: string, second: string, rest: seq<string>, heads: seq<Head>)
    requires Gives(ReadLine(first), []) && Quiet([first]) && Gives(ReadLine(second), []) && Quiet([second])
    requires Gives(ReadAll(ReadLine, rest), heads) && Quiet(rest)
    ensures Gives(ReadAll(ReadLine, [first, second] + rest), heads) && Quiet([first, second] + rest)
  {
    TwoNothings(ReadLine, first, second, rest, heads);
    assert [first] + [second] == [first, second];
    QuietConcat([first], [second]);
    QuietConcat([first, second], rest);
  }

  lemma RegionRecordsOff(off: seq<string>, rest: seq<string>)
    requires AllIds(off)
    ensures var found := OffIds([GENERATED, OffLine(off)] + rest);
            found.Some? && found.value == set id | id in off
  {
    GeneratedLine();
    OffLineReads(off);
    var lines := [GENERATED, OffLine(off)] + rest;
    assert lines[1..][0] == OffLine(off);
  }

  // ----- effects read back ----------------------------------------------------------------------

  /** An effect for every control of the chart and for nothing else. */
  predicate Total(e: Effects, heads: seq<Head>) { e.Keys == Ids(heads) }

  function AllEmitted(heads: seq<Head>, e: Effects): seq<Head> {
    Emitted(heads, e, Blocks) + Emitted(heads, e, Escalates) + Emitted(heads, e, Audits)
  }

  lemma OffAreIds(heads: seq<Head>, e: Effects)
    requires AllWellFormed(heads) && Total(e, heads)
    ensures AllIds(SortedIds(OffSet(e)))
  {
    var off := SortedIds(OffSet(e));
    forall i | 0 <= i < |off| ensures IsId(off[i]) {
      assert off[i] in OffSet(e) && off[i] in Ids(heads);
    }
  }

  lemma CompiledReads(heads: seq<Head>, e: Effects)
    requires AllWellFormed(heads) && Total(e, heads)
    ensures var lines := Compiled(heads, e); Gives(ReadAll(ReadLine, lines), AllEmitted(heads, e)) && Quiet(lines)
    ensures OffIds(Compiled(heads, e)).Some? && OffIds(Compiled(heads, e)).value == OffSet(e)
  {
    var off := SortedIds(OffSet(e));
    var b, c, d := Emitted(heads, e, Blocks), Emitted(heads, e, Escalates), Emitted(heads, e, Audits);
    OffAreIds(heads, e);
    EmittedAreWellFormed(heads, e, Blocks);
    EmittedAreWellFormed(heads, e, Escalates);
    EmittedAreWellFormed(heads, e, Audits);
    RegionReads(off, b, c, d);
    RegionRecordsOff(off, SetLines(b, Blocks) + SetLines(c, Escalates) + SetLines(d, Audits));
  }

  /** Where an emitted head comes from. */
  lemma AllEmittedFrom(heads: seq<Head>, e: Effects, k: nat) returns (i: nat)
    requires k < |AllEmitted(heads, e)|
    ensures var h := AllEmitted(heads, e)[k];
            i < |heads| && heads[i].id in e && Goes(e[heads[i].id], heads[i].group, h.group) && h == heads[i].(group := h.group)
  {
    var b, c := |Emitted(heads, e, Blocks)|, |Emitted(heads, e, Escalates)|;
    if k < b {
      i := EmittedFrom(heads, e, Blocks, k);
    } else if k < b + c {
      i := EmittedFrom(heads, e, Escalates, k - b);
    } else {
      i := EmittedFrom(heads, e, Audits, k - b - c);
    }
  }

  lemma AllEmittedHas(heads: seq<Head>, e: Effects, target: SetName, i: nat) returns (k: nat)
    requires i < |heads| && heads[i].id in e && Goes(e[heads[i].id], heads[i].group, target)
    ensures k < |AllEmitted(heads, e)| && AllEmitted(heads, e)[k] == heads[i].(group := target)
  {
    EmittedHas(heads, e, target, i);
    k :| 0 <= k < |Emitted(heads, e, target)| && Emitted(heads, e, target)[k] == heads[i].(group := target);
    match target
    case Blocks =>
    case Escalates => k := k + |Emitted(heads, e, Blocks)|;
    case Audits => k := k + |Emitted(heads, e, Blocks)| + |Emitted(heads, e, Escalates)|;
  }

  lemma EffectIsReadBack(heads: seq<Head>, e: Effects, i: nat)
    requires Total(e, heads) && i < |heads|
    ensures var id := heads[i].id; var read := EffectIn(OffSet(e), AllEmitted(heads, e), id);
            read.Some? && id in e && read.value == e[id]
  {
    var id, all := heads[i].id, AllEmitted(heads, e);
    assert heads[i] in heads && id in Ids(heads);
    if e[id] != Off {
      var target := if e[id] == Monitor then Audits else if heads[i].group == Audits then Blocks else heads[i].group;
      var k := AllEmittedHas(heads, e, target, i);
      assert all[k] in all && id in Ids(all);
      if Enforces(all, id) {
        var m :| 0 <= m < |all| && all[m].id == id && all[m].group != Audits;
        var j := AllEmittedFrom(heads, e, m);
      }
    }
  }

  lemma EffectsAreReadBack(heads: seq<Head>, e: Effects)
    requires Total(e, heads)
    ensures SaysAll(OffSet(e), AllEmitted(heads, e), heads)
    ensures EffectsIn(OffSet(e), AllEmitted(heads, e), heads) == e
  {
    var off, all := OffSet(e), AllEmitted(heads, e);
    forall h | h in heads
      ensures h.id in e && EffectIn(off, all, h.id).Some? && EffectIn(off, all, h.id).value == e[h.id]
    {
      var i :| 0 <= i < |heads| && heads[i] == h;
      EffectIsReadBack(heads, e, i);
    }
  }

  lemma ChartHeads(chart: string)
    requires HeadsOf(chart).Ok?
    ensures SplitRegion(chart).Ok? && AllWellFormed(HeadsOf(chart).value)
    ensures HeadsOf(chart).value != [] ==> InOrder(chart)
  {
    forall k | 0 <= k < |HeadsOf(chart).value| ensures WellFormed(HeadsOf(chart).value[k]) {
      HeadsAreWellFormed(chart, k);
    }
  }

  // ----- what a chart can register --------------------------------------------------------------

  lemma BeginLacksEnd()
    ensures Lacks(BEGIN, END)
  {
    forall i: nat | i <= |BEGIN| ensures !Occurs(BEGIN, END, i) {
      CharAt(BEGIN, END, i, 0);
      CharAt(BEGIN, END, i, 15);
    }
  }

  /** The smallest chart with a head: the markers and one line. */
  function OneHeadChart(h: Head): string { Between("", BEGIN, PrintHead(h) + "\n", END, "") }

  lemma OneHeadRegion(h: Head)
    requires WellFormed(h)
    ensures SplitsInto(OneHeadChart(h), BEGIN, END, "", PrintHead(h) + "\n", "")
  {
    var text := PrintHead(h) + "\n";
    var rest := text + END + "";
    assert "" + BEGIN == BEGIN && Join([PrintHead(h)], "\n") == PrintHead(h);
    BeginLacksEnd();
    PrintedLacksEnd(h);
    ControlMarkers();
    IndexAfterLines([PrintHead(h)], END, "");
    IndexAfterLine(BEGIN, rest, END, |text|);
    IndexIs(BEGIN + "\n" + rest, BEGIN, 0, 0);
    SplitsBetween("", BEGIN, text, END, "");
  }

  lemma OneHeadIsRead(h: Head)
    requires WellFormed(h)
    ensures HeadsOf(OneHeadChart(h)).Ok? && h in HeadsOf(OneHeadChart(h)).value
  {
    OneHeadRegion(h);
    PrintedIsUnbroken(h);
    PrintedIsRead(h);
    LinesOfJoin([PrintHead(h)]);
    GivesEach(ReadLine, [PrintHead(h)], [h]);
  }

  ghost predicate Readable(h: Head) { exists chart :: HeadsOf(chart).Ok? && h in HeadsOf(chart).value }

  /** The heads charts can register are exactly the well-formed ones. */
  lemma ReadableIffWellFormed(h: Head)
    ensures Readable(h) <==> WellFormed(h)
  {
    if chart :| HeadsOf(chart).Ok? && h in HeadsOf(chart).value {
      ChartHeads(chart);
      var k :| 0 <= k < |HeadsOf(chart).value| && HeadsOf(chart).value[k] == h;
    }
    if WellFormed(h) {
      OneHeadIsRead(h);
    }
  }

  // ----- compiling and reading back -------------------------------------------------------------

  /** The compiled module: the chart's text around the new region, and the heads and off record in it. */
  lemma RenderedRegion(chart: string, e: Effects)
    requires HeadsOf(chart).Ok? && Total(e, HeadsOf(chart).value) && InOrder(chart)
    ensures Render(chart, e).Ok? && SplitRegion(Render(chart, e).value).Ok?
    ensures var p, q := SplitRegion(chart).value, SplitRegion(Render(chart, e).value).value;
            && q.before == p.before && q.after == p.after
            && SplitLines(q.region) == Compiled(HeadsOf(chart).value, e)
  {
    var heads := HeadsOf(chart).value;
    ChartHeads(chart);
    CompiledReads(heads, e);
    ControlMarkers();
    RegionIsReplaced(chart, BEGIN, END, Compiled(heads, e));
    LinesOfJoin(Compiled(heads, e));
  }

  /** Compiling and reading back gives every effect as it was set, exactly when the chart's markers are in
      order; otherwise the module reads as one without a record. */
  lemma EffectsRoundTrip(chart: string, e: Effects)
    requires HeadsOf(chart).Ok? && Total(e, HeadsOf(chart).value)
    ensures Render(chart, e).Ok?
    ensures var read := EffectsOf(Render(chart, e).value, chart);
            && read.Ok?
            && (InOrder(chart) ==> read.value.Some? && read.value.value == e)
            && (!InOrder(chart) ==> read.value.None?)
  {
    var heads := HeadsOf(chart).value;
    ChartHeads(chart);
    if InOrder(chart) {
      RenderedRegion(chart, e);
      CompiledReads(heads, e);
      EffectsAreReadBack(heads, e);
    } else {
      ControlMarkers();
      RegionIsLost(chart, BEGIN, END, Join(Compiled(heads, e), "\n") + "\n");
    }
  }

  /** The two markers the wrong way round. */
  function ReversedChart(): string { END + (BEGIN + "\n") }

  lemma ReversedMarkers(begin: string, end: string)
    requires Markers(begin, end)
    ensures var chart := end + (begin + "\n"); FoundAt(chart, end, 0, 0) && FoundAt(chart, begin, 0, |end|)
    ensures FoundAt(end + (begin + "\n"), "\n", |end|, |end| + |begin|)
  {
    var chart := end + (begin + "\n");
    var m :| 0 <= m < |end| && end[m] != begin[m];
    IndexIs(chart, end, 0, 0);
    OccursShifted(end, begin + "\n", begin, 0);
    forall i | 0 <= i < |end| ensures !Occurs(chart, begin, i) {
      CharAt(chart, begin, i, 0);
      CharAt(chart, begin, i, m);
    }
    IndexIs(chart, begin, 0, |end|);
    NewlineAfterBegin(end, begin, "");
    assert end + begin + "\n" + "" == chart;
  }

  /** A chart that compiles, and whose compilation reads as one without a record. */
  lemma ReversedChartIsNotReadBack()
    ensures var chart := ReversedChart();
            && HeadsOf(chart).Ok? && HeadsOf(chart).value == [] && Render(chart, map[]).Ok?
            && EffectsOf(Render(chart, map[]).value, chart).Ok? && EffectsOf(Render(chart, map[]).value, chart).value.None?
  {
    ControlMarkers();
    ReversedMarkers(BEGIN, END);
    assert SplitRegion(ReversedChart()).Ok? && SplitRegion(ReversedChart()).value.region == "";
    assert Total(map[], []);
    EffectsRoundTrip(ReversedChart(), map[]);
  }

  /** `compiled` is what the compiler renders from `chart` for the total effects `e`. */
  ghost predicate IsCompilation(compiled: string, chart: string, e: Effects) {
    && HeadsOf(chart).Ok? && Total(e, HeadsOf(chart).value)
    && Render(chart, e).Ok? && Render(chart, e).value == compiled
  }

  lemma ReadIsTotal(compiled: string, chart: string)
    requires EffectsOf(compiled, chart).Ok? && EffectsOf(compiled, chart).value.Some?
    ensures HeadsOf(chart).Ok? && Total(EffectsOf(compiled, chart).value.value, HeadsOf(chart).value)
  {
  }

  lemma NonemptyHeads(e: Effects, heads: seq<Head>)
    requires Total(e, heads) && e != map[]
    ensures heads != []
  {
    var id :| id in e;
    var h :| h in heads && h.id == id;
  }

  lemma CoveredIsCompiled(compiled: string, chart: string)
    requires Covers(compiled, chart)
    ensures HeadsOf(chart).Ok? && HeadsOf(chart).value != []
    ensures IsCompilation(compiled, chart, EffectsOf(compiled, chart).value.value)
  {
    ReadIsTotal(compiled, chart);
    NonemptyHeads(EffectsOf(compiled, chart).value.value, HeadsOf(chart).value);
  }

  lemma CompiledIsCovered(compiled: string, chart: string, e: Effects)
    requires IsCompilation(compiled, chart, e) && HeadsOf(chart).value != []
    ensures Covers(compiled, chart)
  {
    ChartHeads(chart);
    EffectsRoundTrip(chart, e);
    assert HeadsOf(chart).value[0].id in Ids(HeadsOf(chart).value);
  }

  /** A module covers a chart with controls exactly when it is the chart's own compilation for some total
      effects; a chart that cannot be read or registers no control is covered by nothing. */
  lemma CoversIffCompiled(compiled: string, chart: string)
    ensures Covers(compiled, chart) <==>
            HeadsOf(chart).Ok? && HeadsOf(chart).value != [] && exists e :: IsCompilation(compiled, chart, e)
  {
    if Covers(compiled, chart) {
      CoveredIsCompiled(compiled, chart);
    }
    if HeadsOf(chart).Ok? && HeadsOf(chart).value != [] {
      if e :| IsCompilation(compiled, chart, e) {
        CompiledIsCovered(compiled, chart, e);
      }
    }
  }
}
