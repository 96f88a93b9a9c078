/** Compiling a preset under an effects map, reading the effects back, and deciding whether a module is
    some compilation of a chart (norviq/api/baseline.py). */
module ControlCompiler {
  import opened Outcomes
  import opened Strings
  import opened PyText
  import opened IdOrder
  import opened ControlText

  datatype Effect = Off | Monitor | Deny

  type Effects = map<string, Effect>

  const OFF := "# >>> CONTROLS-OFF:"
  const NOTE := " GENERATED by norviq/api/" + "baseline.py \U{2014} edit the " + "control effects, not this region."
  const GENERATED := "#" + NOTE

  function Ids(heads: seq<Head>): set<string> { set h | h in heads :: h.id }

  // ----- rendering ------------------------------------------------------------------------------

  /** Whether a head of set `group` is emitted into `target` when its control has `effect`. */
  predicate Goes(effect: Effect, group: SetName, target: SetName) {
    match effect
    case Off => false
    case Monitor => target == Audits
    case Deny => target == if group == Audits then Blocks else group
  }

  function Moved(h: Head, e: Effects, target: SetName): seq<Head> {
    if h.id in e && Goes(e[h.id], h.group, target) then [h.(group := target)] else []
  }

  function Emitted(heads: seq<Head>, e: Effects, target: SetName): seq<Head> {
    if heads == [] then []
    else Emitted(heads[..|heads| - 1], e, target) + Moved(heads[|heads| - 1], e, target)
  }

  function PrintHeads(heads: seq<Head>): seq<string> {
    seq(|heads|, i requires 0 <= i < |heads| => PrintHead(heads[i]))
  }

  function SetLines(heads: seq<Head>, group: SetName): seq<string> {
    [""] + if heads == [] then [NeverFires(group)] else PrintHeads(heads)
  }

  function OffLine(off: seq<string>): string { TrimRight(Python, OFF + (" " + Join(off, " "))) }

  function OffSet(e: Effects): set<string> { set id | id in e && e[id] == Off }

  function RegionLines(off: seq<string>, blocks: seq<Head>, escalates: seq<Head>, audits: seq<Head>): seq<string> {
    [GENERATED, OffLine(off)] + (SetLines(blocks, Blocks) + SetLines(escalates, Escalates) + SetLines(audits, Audits))
  }

  ghost function Compiled(heads: seq<Head>, e: Effects): seq<string> {
    RegionLines(SortedIds(OffSet(e)), Emitted(heads, e, Blocks), Emitted(heads, e, Escalates), Emitted(heads, e, Audits))
  }

  function HeadsOf(src: string): Result<seq<Head>, Error> {
    var p := SplitRegion(src);
    if p.Err? then Err(p.error) else ParseHeads(p.value.region)
  }

  ghost function Render(src: string, e: Effects): Result<string, Error> {
    var heads := HeadsOf(src);
    if heads.Err? then Err(heads.error)
    else if !(Ids(heads.value) <= e.Keys) then Err(KeyError)
    else
      var p := SplitRegion(src).value;
      Ok(Between(p.before, BEGIN, Join(Compiled(heads.value, e), "\n") + "\n", END, p.after))
  }

  lemma EmittedNext(heads: seq<Head>, i: nat, e: Effects, target: SetName)
    requires i < |heads|
    ensures Emitted(heads[..i + 1], e, target) == Emitted(heads[..i], e, target) + Moved(heads[i], e, target)
    ensures Moved(heads[i], e, target) == [] ==> Emitted(heads[..i + 1], e, target) == Emitted(heads[..i], e, target)
  {
    assert heads[..i + 1][..i] == heads[..i];
  }

  /** The loop over the heads: every head to its set, or the first control without an effect. */
  method Distribute(heads: seq<Head>, e: Effects)
    returns (known: bool, blocks: seq<Head>, escalates: seq<Head>, audits: seq<Head>)
    ensures known <==> Ids(heads) <= e.Keys
    ensures known ==> blocks == Emitted(heads, e, Blocks)
    ensures known ==> escalates == Emitted(heads, e, Escalates)
    ensures known ==> audits == Emitted(heads, e, Audits)
  {
    known, blocks, escalates, audits := true, [], [], [];
    for i := 0 to |heads|
      invariant forall j | 0 <= j < i :: heads[j].id in e
      invariant blocks == Emitted(heads[..i], e, Blocks)
      invariant escalates == Emitted(heads[..i], e, Escalates)
      invariant audits == Emitted(heads[..i], e, Audits)
    {
      var h := heads[i];
      if h.id !in e {
        assert h in heads && h.id in Ids(heads);
        return false, blocks, escalates, audits;
      }
      EmittedNext(heads, i, e, Blocks);
      EmittedNext(heads, i, e, Escalates);
      EmittedNext(heads, i, e, Audits);
      if e[h.id] == Monitor {
        audits := audits + [h.(group := Audits)];
      } else if e[h.id] == Deny && h.group == Escalates {
        escalates := escalates + [h];
      } else if e[h.id] == Deny {
        blocks := blocks + [h.(group := Blocks)];
      }
    }
    assert heads[..|heads|] == heads;
  }

  method RenderModule(src: string, resolved: Effects) returns (r: Result<string, Error>)
    ensures r == Render(src, resolved)
  {
    var p := SplitRegion(src);
    if p.Err? {
      return Err(p.error);
    }
    var heads := CollectHeads(p.value.region);
    if heads.Err? {
      return Err(heads.error);
    }
    var known, blocks, escalates, audits := Distribute(heads.value, resolved);
    if !known {
      return Err(KeyError);
    }
    var off := SortIds(OffSet(resolved));
    ListsUnique(off, SortedIds(OffSet(resolved)), OffSet(resolved));
    var text := Join(RegionLines(off, blocks, escalates, audits), "\n") + "\n";
    r := Ok(Between(p.value.before, BEGIN, text, END, p.value.after));
  }

  // ----- reading back ---------------------------------------------------------------------------

  /** The ids of the first off record. */
  function OffIds(lines: seq<string>): Option<set<string>> {
    if lines == [] then None else
      var s := Trim(Python, lines[0]);
      if StartsWith(s, OFF) then Some(set id | id in Words(s[|OFF|..])) else OffIds(lines[1..])
  }

  predicate Enforces(heads: seq<Head>, id: string) {
    exists i | 0 <= i < |heads| :: heads[i].id == id && heads[i].group != Audits
  }

  /** What a module says about a control, `None` when it says nothing. */
  function EffectIn(off: set<string>, heads: seq<Head>, id: string): Option<Effect> {
    if id in off then Some(Off)
    else if Enforces(heads, id) then Some(Deny)
    else if id in Ids(heads) then Some(Monitor)
    else None
  }

  predicate SaysAll(off: set<string>, heads: seq<Head>, chart: seq<Head>) {
    forall h | h in chart :: EffectIn(off, heads, h.id).Some?
  }

  function EffectsIn(off: set<string>, heads: seq<Head>, chart: seq<Head>): Effects
    requires SaysAll(off, heads, chart)
  {
    map id | id in Ids(chart) :: EffectIn(off, heads, id).value
  }

  function EffectsOf(compiled: string, chart: string): Result<Option<Effects>, Error> {
    var p := SplitRegion(compiled);
    if p.Err? then Err(p.error) else
      var off := OffIds(SplitLines(p.value.region));
      if off.None? then Ok(None) else
        var present, wanted := ParseHeads(p.value.region), HeadsOf(chart);
        if present.Err? then Err(present.error)
        else if wanted.Err? then Err(wanted.error)
        else if !SaysAll(off.value, present.value, wanted.value) then Ok(None)
        else Ok(Some(EffectsIn(off.value, present.value, wanted.value)))
  }

  /** Any error while reading or rendering reads as "does not cover". */
  ghost predicate Covers(compiled: string, chart: string) {
    var read := EffectsOf(compiled, chart);
    && read.Ok? && read.value.Some? && read.value.value != map[]
    && var again := Render(chart, read.value.value); again.Ok? && again.value == compiled
  }

  method FindOffIds(lines: seq<string>) returns (off: Option<set<string>>)
    ensures off == OffIds(lines)
  {
    for i := 0 to |lines|
      invariant OffIds(lines[i..]) == OffIds(lines)
    {
      assert lines[i..][0] == lines[i] && lines[i..][1..] == lines[i + 1..];
      var s := Trim(Python, lines[i]);
      if StartsWith(s, OFF) {
        return Some(set id | id in Words(s[|OFF|..]));
      }
    }
    off := None;
  }

  /** The loop over the chart's heads, with the sets each control is present in as two id sets. */
  method ReadEffects(off: set<string>, present: seq<Head>, chart: seq<Head>) returns (read: Option<Effects>)
    ensures read == if SaysAll(off, present, chart) then Some(EffectsIn(off, present, chart)) else None
  {
    var there, enforced := {}, {};
    for i := 0 to |present|
      invariant there == Ids(present[..i])
      invariant forall id :: id in enforced <==> Enforces(present[..i], id)
    {
      var h := present[i];
      assert present[..i + 1] == present[..i] + [h];
      there := there + {h.id};
      if h.group != Audits {
        enforced := enforced + {h.id};
      }
    }
    assert present[..|present|] == present;
    var effects: Effects := map[];
    for i := 0 to |chart|
      invariant SaysAll(off, present, chart[..i]) && effects == EffectsIn(off, present, chart[..i])
    {
      var id := chart[i].id;
      assert chart[..i + 1] == chart[..i] + [chart[i]];
      assert Ids(chart[..i + 1]) == Ids(chart[..i]) + {id};
      if id in off {
        effects := effects[id := Off];
      } else if id in enforced {
        effects := effects[id := Deny];
      } else if id in there {
        effects := effects[id := Monitor];
      } else {
        assert EffectIn(off, present, chart[i].id).None?;
        return None;
      }
    }
    assert chart[..|chart|] == chart;
    read := Some(effects);
  }

  method ReadModule(compiled: string, chart: string) returns (r: Result<Option<Effects>, Error>)
    ensures r == EffectsOf(compiled, chart)
  {
    var p := SplitRegion(compiled);
    if p.Err? {
      return Err(p.error);
    }
    var off := FindOffIds(SplitLines(p.value.region));
    if off.None? {
      return Ok(None);
    }
    var present := CollectHeads(p.value.region);
    if present.Err? {
      return Err(present.error);
    }
    var wanted := HeadsOf(chart);
    if wanted.Err? {
      return Err(wanted.error);
    }
    var read := ReadEffects(off.value, present.value, wanted.value);
    r := Ok(read);
  }

  method CheckCovers(compiled: string, chart: string) returns (covers: bool)
    ensures covers == Covers(compiled, chart)
  {
    var read := ReadModule(compiled, chart);
    if read.Err? || read.value.None? || read.value.value == map[] {
      return false;
    }
    var again := RenderModule(chart, read.value.value);
    covers := again.Ok? && again.value == compiled;
  }
}
