/** What compiled controls do: which controls fire, for every truth assignment to the guards. */
module ControlMeaning {
  import opened Outcomes
  import opened Strings
  import opened PyText
  import opened LineReader
  import opened IdOrder
  import opened ControlText
  import opened ControlCompiler
  import opened ControlRoundTrip

  /** The controls a set holds when exactly the guards in `truth` hold. */
  ghost function Fired(heads: seq<Head>, truth: iset<string>, group: SetName): set<string> {
    set h | h in heads && h.group == group && h.guard in truth :: h.id
  }

  // ----- meaning under an effects map -----------------------------------------------------------

  lemma CompiledHeads(chart: string, e: Effects)
    requires HeadsOf(chart).Ok? && Total(e, HeadsOf(chart).value) && InOrder(chart)
    ensures Render(chart, e).Ok? && Gives(HeadsOf(Render(chart, e).value), AllEmitted(HeadsOf(chart).value, e))
  {
    ChartHeads(chart);
    RenderedRegion(chart, e);
    CompiledReads(HeadsOf(chart).value, e);
  }

  lemma EmittedFires(heads: seq<Head>, e: Effects, truth: iset<string>, group: SetName, id: string)
    ensures id in Fired(AllEmitted(heads, e), truth, group) <==>
            exists h | h in heads :: h.id == id && h.guard in truth && id in e && Goes(e[id], h.group, group)
  {
    var all := AllEmitted(heads, e);
    if id in Fired(all, truth, group) {
      var h :| h in all && h.group == group && h.guard in truth && h.id == id;
      var k :| 0 <= k < |all| && all[k] == h;
      var i := AllEmittedFrom(heads, e, k);
      assert heads[i] in heads;
    }
    if h :| h in heads && h.id == id && h.guard in truth && id in e && Goes(e[id], h.group, group) {
      var i :| 0 <= i < |heads| && heads[i] == h;
      var k := AllEmittedHas(heads, e, group, i);
      assert all[k] in all;
    }
  }

  /** What a control does after compiling, in terms of what it does in the chart. */
  ghost predicate Follows(effect: Effect, id: string, was: seq<Head>, now: seq<Head>, truth: iset<string>) {
    var blocked, escalated, audited :=
      id in Fired(was, truth, Blocks), id in Fired(was, truth, Escalates), id in Fired(was, truth, Audits);
    match effect
    case Off =>
      id !in Fired(now, truth, Blocks) && id !in Fired(now, truth, Escalates) && id !in Fired(now, truth, Audits)
    case Monitor =>
      && id !in Fired(now, truth, Blocks) && id !in Fired(now, truth, Escalates)
      && (id in Fired(now, truth, Audits) <==> blocked || escalated || audited)
    case Deny =>
      && (id in Fired(now, truth, Blocks) <==> blocked || audited)
      && (id in Fired(now, truth, Escalates) <==> escalated)
      && id !in Fired(now, truth, Audits)
  }

  lemma EmittedFollows(heads: seq<Head>, e: Effects, truth: iset<string>, id: string)
    requires id in e
    ensures Follows(e[id], id, heads, AllEmitted(heads, e), truth)
  {
    EmittedFires(heads, e, truth, Blocks, id);
    EmittedFires(heads, e, truth, Escalates, id);
    EmittedFires(heads, e, truth, Audits, id);
  }

  /** Off fires nothing, monitor audits exactly when some head fires, deny keeps escalates and sends blocks
      and audits to blocks, for every truth assignment; and no control fires that has no effect. */
  lemma CompilingPreservesMeaning(chart: string, e: Effects, truth: iset<string>, id: string)
    requires HeadsOf(chart).Ok? && Total(e, HeadsOf(chart).value) && InOrder(chart)
    ensures Render(chart, e).Ok? && HeadsOf(Render(chart, e).value).Ok?
    ensures var was, now := HeadsOf(chart).value, HeadsOf(Render(chart, e).value).value;
            && (id in e ==> Follows(e[id], id, was, now, truth))
            && (id !in e ==> forall group :: id !in Fired(now, truth, group))
  {
    var heads := HeadsOf(chart).value;
    CompiledHeads(chart, e);
    if id in e {
      EmittedFollows(heads, e, truth, id);
    } else {
      forall group ensures id !in Fired(AllEmitted(heads, e), truth, group) {
        EmittedFires(heads, e, truth, group, id);
      }
    }
  }

  /** Compiling leaves the text outside the region alone. */
  lemma OutsideIsKept(chart: string, e: Effects)
    requires HeadsOf(chart).Ok? && Total(e, HeadsOf(chart).value) && InOrder(chart)
    ensures Render(chart, e).Ok? && SplitRegion(Render(chart, e).value).Ok?
    ensures var p, q := SplitRegion(chart).value, SplitRegion(Render(chart, e).value).value;
            q.before == p.before && q.after == p.after
  {
    RenderedRegion(chart, e);
  }

  /** A rule line of a set. */
  predicate Defines(line: string, group: SetName) { StartsWith(line, Name(group) + "[") }

  lemma PrefixStarts(a: string, b: string)
    ensures StartsWith(a + b, a)
  {
  }

  lemma SetLinesDefine(heads: seq<Head>, group: SetName)
    requires heads == [] || heads[0].group == group
    ensures |SetLines(heads, group)| > 1 && Defines(SetLines(heads, group)[1], group)
  {
    var name := Name(group) + "[";
    if heads == [] {
      PrefixStarts(name, NEVER);
    } else {
      var tail := heads[0].id + Enclosed(heads[0].guard);
      PrefixStarts(name, "\"" + tail);
      assert name + "\"" + tail == name + ("\"" + tail);
    }
  }

  lemma EmittedGroup(heads: seq<Head>, e: Effects, group: SetName)
    ensures Emitted(heads, e, group) == [] || Emitted(heads, e, group)[0].group == group
  {
    if Emitted(heads, e, group) != [] {
      var i := EmittedFrom(heads, e, group, 0);
    }
  }

  /** A line of a part is a line of the whole. */
  lemma LineIn(a: seq<string>, b: seq<string>, c: seq<string>, d: seq<string>, line: string)
    requires line in b || line in c || line in d
    ensures line in a + (b + c + d)
  {
  }

  lemma LinesDefine(heads: seq<Head>, e: Effects, group: SetName)
    ensures exists line | line in Compiled(heads, e) :: Defines(line, group)
  {
    var off, rules := SortedIds(OffSet(e)), Emitted(heads, e, group);
    EmittedGroup(heads, e, group);
    SetLinesDefine(rules, group);
    var line := SetLines(rules, group)[1];
    assert line in SetLines(rules, group);
    LineIn([GENERATED, OffLine(off)], SetLines(Emitted(heads, e, Blocks), Blocks),
           SetLines(Emitted(heads, e, Escalates), Escalates), SetLines(Emitted(heads, e, Audits), Audits), line);
  }

  /** No set is left undefined, whatever the effects. */
  lemma EverySetIsDefined(chart: string, e: Effects, group: SetName)
    requires HeadsOf(chart).Ok? && Total(e, HeadsOf(chart).value) && InOrder(chart)
    ensures Render(chart, e).Ok? && SplitRegion(Render(chart, e).value).Ok?
    ensures exists line | line in SplitLines(SplitRegion(Render(chart, e).value).value.region) :: Defines(line, group)
  {
    RenderedRegion(chart, e);
    LinesDefine(HeadsOf(chart).value, e, group);
  }

  // ----- shipped defaults -----------------------------------------------------------------------

  /** What a control does when nobody has set it; an unknown id is only watched. */
  function ShippedDefault(heads: seq<Head>, id: string): Effect {
    if Enforces(heads, id) then Deny else Monitor
  }

  function Defaults(heads: seq<Head>): Effects { map id | id in Ids(heads) :: ShippedDefault(heads, id) }

  /** Some control has an audit head beside an enforcing one. */
  predicate Mixes(heads: seq<Head>) {
    exists h | h in heads :: h.group == Audits && Enforces(heads, h.id)
  }

  lemma UnmixedFires(heads: seq<Head>, truth: iset<string>, group: SetName, id: string)
    requires !Mixes(heads)
    ensures id in Fired(AllEmitted(heads, Defaults(heads)), truth, group) <==> id in Fired(heads, truth, group)
  {
    var e := Defaults(heads);
    EmittedFires(heads, e, truth, group, id);
    forall h | h in heads && h.id == id ensures id in e && (Goes(e[id], h.group, group) <==> h.group == group) {
      assert id in Ids(heads);
      if h.group != Audits {
        var i :| 0 <= i < |heads| && heads[i] == h;
        assert Enforces(heads, id);
      }
    }
  }

  lemma MixedDiffers(heads: seq<Head>, h: Head)
    requires h in heads && h.group == Audits && Enforces(heads, h.id)
    ensures Fired(AllEmitted(heads, Defaults(heads)), iset{h.guard}, Audits) != Fired(heads, iset{h.guard}, Audits)
  {
    assert h.id in Ids(heads);
    assert h.id in Fired(heads, iset{h.guard}, Audits);
    EmittedFires(heads, Defaults(heads), iset{h.guard}, Audits, h.id);
  }

  ghost predicate SameMeaning(was: seq<Head>, now: seq<Head>) {
    forall truth, group :: Fired(now, truth, group) == Fired(was, truth, group)
  }

  lemma EmittedDefaults(heads: seq<Head>)
    ensures SameMeaning(heads, AllEmitted(heads, Defaults(heads))) <==> !Mixes(heads)
  {
    var now := AllEmitted(heads, Defaults(heads));
    if h :| h in heads && h.group == Audits && Enforces(heads, h.id) {
      MixedDiffers(heads, h);
    } else {
      forall truth, group ensures Fired(now, truth, group) == Fired(heads, truth, group) {
        forall id ensures id in Fired(now, truth, group) <==> id in Fired(heads, truth, group) {
          UnmixedFires(heads, truth, group, id);
        }
      }
    }
  }

  /** At the shipped defaults a chart means what it meant before, for every truth assignment, exactly when
      no control mixes audit and enforcing heads. */
  lemma DefaultsKeepMeaning(chart: string)
    requires HeadsOf(chart).Ok? && InOrder(chart)
    ensures var heads := HeadsOf(chart).value;
            var r := Render(chart, Defaults(heads));
            r.Ok? && HeadsOf(r.value).Ok? && (SameMeaning(heads, HeadsOf(r.value).value) <==> !Mixes(heads))
  {
    CompiledHeads(chart, Defaults(HeadsOf(chart).value));
    EmittedDefaults(HeadsOf(chart).value);
  }

  // ----- saved settings -------------------------------------------------------------------------

  function EffectNamed(s: string): Option<Effect> {
    if s == "off" then Some(Off) else if s == "monitor" then Some(Monitor) else if s == "deny" then Some(Deny) else None
  }

  /** Every setting names a control of the chart and one of the three effects. */
  predicate Sensible(heads: seq<Head>, given: map<string, string>) {
    forall id | id in given :: id in Ids(heads) && EffectNamed(given[id]).Some?
  }

  /** Defaults overridden by what was set; one bad setting refuses them all, whatever the order. */
  method NormalizeEffects(heads: seq<Head>, given: map<string, string>) returns (r: Result<Effects, Error>)
    ensures r.Ok? <==> Sensible(heads, given)
    ensures r.Ok? ==> Total(r.value, heads)
    ensures r.Ok? ==> forall id | id in Ids(heads) ::
              r.value[id] == if id in given then EffectNamed(given[id]).value else ShippedDefault(heads, id)
  {
    var resolved, rest := Defaults(heads), given.Keys;
    while rest != {}
      invariant rest <= given.Keys && Total(resolved, heads)
      invariant forall id | id in given.Keys - rest :: id in resolved && EffectNamed(given[id]).Some?
      invariant forall id | id in resolved ::
                  if id in given.Keys - rest then resolved[id] == EffectNamed(given[id]).value
                  else resolved[id] == ShippedDefault(heads, id)
    {
      var id :| id in rest;
      var effect := EffectNamed(given[id]);
      if id !in resolved || effect.None? {
        return Err(ValueError);
      }
      resolved, rest := resolved[id := effect.value], rest - {id};
    }
    r := Ok(resolved);
  }

  /** What is saved for a chart with controls covers that chart, whatever was set. */
  lemma SavedControlsCover(chart: string, e: Effects)
    requires HeadsOf(chart).Ok? && HeadsOf(chart).value != [] && Total(e, HeadsOf(chart).value)
    ensures Render(chart, e).Ok? && Covers(Render(chart, e).value, chart)
  {
    CompiledIsCovered(Render(chart, e).value, chart, e);
  }
}
