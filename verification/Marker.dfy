/** The environment-marker recogniser of scripts/check_fossa_requirements.py, proved against its grammar: the
    grammar section of PEP 508 as narrowed there. */
module Marker {
  import opened Outcomes

  // ----- character classes ----------------------------------------------------------------------

  datatype Class = Blank | Letter | Sign | Text

  predicate In(cl: Class, c: char) {
    match cl
    case Blank => c == ' ' || c == '\t'
    case Letter => 'a' <= c <= 'z' || c == '_'
    case Sign => c == '=' || c == '!' || c == '<' || c == '>' || c == '~'
    case Text => c == '\t' || (' ' <= c <= '~' && c != '\'' && c != '\\')
  }

  predicate All(cl: Class, s: string) { forall i | 0 <= i < |s| :: In(cl, s[i]) }

  function Run(cl: Class, s: string): (n: nat)
    ensures n <= |s| && All(cl, s[..n])
    ensures n < |s| ==> !In(cl, s[n])
    decreases |s|
  {
    if s == "" || !In(cl, s[0]) then 0 else
      var n := 1 + Run(cl, s[1..]);
      assert s[..n] == [s[0]] + s[1..][..n - 1];
      n
  }

  function Skip(cl: Class, s: string): (rest: string)
    ensures |rest| <= |s|
  {
    s[Run(cl, s)..]
  }

  /** A run ends where its class ends. */
  lemma RunIs(cl: Class, w: string, rest: string)
    requires All(cl, w) && (rest == "" || !In(cl, rest[0]))
    ensures Run(cl, w + rest) == |w| && (w + rest)[..|w|] == w && (w + rest)[|w|..] == rest
  {
    RunLength(cl, w, rest);
  }

  lemma {:induction false} RunLength(cl: Class, w: string, rest: string)
    requires All(cl, w) && (rest == "" || !In(cl, rest[0]))
    ensures Run(cl, w + rest) == |w|
    decreases |w|
  {
    if w == "" {
      assert w + rest == rest;
    } else {
      assert (w + rest)[1..] == w[1..] + rest;
      RunLength(cl, w[1..], rest);
    }
  }

  // ----- terms ----------------------------------------------------------------------------------

  /** The environment names and the operators a marker may use. */
  datatype Lexicon = Lexicon(envs: set<string>, ops: set<string>)

  /** What follows a quoted string. */
  function QuotedRest(s: string): Option<string> {
    if s == "" || s[0] != '\'' then None else
      var tail := Skip(Text, s[1..]);
      if tail == "" || tail[0] != '\'' then None else Some(tail[1..])
  }

  /** What follows `op 'string'`, blanks in front included. */
  function OpRest(lx: Lexicon, s: string): (rest: Option<string>)
    ensures rest.Some? ==> |rest.value| < |s|
  {
    var s1 := Skip(Blank, s);
    var b := Run(Sign, s1);
    if s1[..b] !in lx.ops then None else QuotedRest(Skip(Blank, s1[b..]))
  }

  /** What follows `env op 'string'`. The alternatives of the pattern are whole runs, because what may follow
      a name or an operator belongs to neither run. */
  function TermRest(lx: Lexicon, s: string): (rest: Option<string>)
    ensures rest.Some? ==> |rest.value| < |s|
  {
    var a := Run(Letter, s);
    if s[..a] !in lx.envs then None else OpRest(lx, s[a..])
  }

  /** What follows a word between blanks. */
  function JoinRest(s: string, word: string): (rest: Option<string>)
    ensures rest.Some? ==> |rest.value| < |s|
  {
    var a := Run(Blank, s);
    var s1 := s[a..];
    if a == 0 || !(|word| <= |s1| && s1[..|word|] == word) then None else
      var s2 := s1[|word|..];
      var b := Run(Blank, s2);
      if b == 0 then None else Some(s2[b..])
  }

  // ----- the recogniser, as functions of the text still to be read ------------------------------

  function AtomRest(lx: Lexicon, s: string): (rest: Option<string>)
    ensures rest.Some? ==> |rest.value| < |s|
    decreases |s|, 0
  {
    if s != "" && s[0] == '(' then
      var inner := DisjRest(lx, s[1..]);
      if inner.None? || inner.value == "" || inner.value[0] != ')' then None else Some(inner.value[1..])
    else TermRest(lx, s)
  }

  function ConjTail(lx: Lexicon, s: string): (rest: Option<string>)
    ensures rest.Some? ==> |rest.value| <= |s|
    decreases |s|, 1
  {
    var joined := JoinRest(s, "and");
    if joined.None? then Some(s) else
      var next := AtomRest(lx, joined.value);
      if next.None? then None else ConjTail(lx, next.value)
  }

  function ConjRest(lx: Lexicon, s: string): (rest: Option<string>)
    ensures rest.Some? ==> |rest.value| < |s|
    decreases |s|, 2
  {
    var first := AtomRest(lx, s);
    if first.None? then None else ConjTail(lx, first.value)
  }

  function DisjTail(lx: Lexicon, s: string): (rest: Option<string>)
    ensures rest.Some? ==> |rest.value| <= |s|
    decreases |s|, 3
  {
    var joined := JoinRest(s, "or");
    if joined.None? then Some(s) else
      var next := ConjRest(lx, joined.value);
      if next.None? then None else DisjTail(lx, next.value)
  }

  function DisjRest(lx: Lexicon, s: string): (rest: Option<string>)
    ensures rest.Some? ==> |rest.value| < |s|
    decreases |s|, 4
  {
    var first := ConjRest(lx, s);
    if first.None? then None else DisjTail(lx, first.value)
  }

  predicate MarkerOk(lx: Lexicon, s: string) { DisjRest(lx, s).Some? && DisjRest(lx, s).value == "" }

  // ----- the recogniser, as it runs: an index that only moves forward ---------------------------

  /** The index a step leaves, or no parse. */
  ghost predicate Leaves(s: string, rest: Option<string>, ok: bool, j: nat) {
    (ok <==> rest.Some?) && (ok ==> j <= |s| && s[j..] == rest.value)
  }

  ghost predicate Same(a: Option<string>, b: Option<string>) {
    (a.Some? <==> b.Some?) && (a.Some? ==> a.value == b.value)
  }

  /** The run of a class at `i` ends at `j`. */
  ghost predicate Runs(cl: Class, s: string, i: nat, j: nat) {
    && i <= j <= |s| && Run(cl, s[i..]) == j - i
    && s[i..][..j - i] == s[i..j] && s[i..][j - i..] == s[j..]
  }

  method ScanRun(cl: Class, s: string, i: nat) returns (j: nat)
    requires i <= |s|
    ensures Runs(cl, s, i, j)
  {
    j := i;
    while j < |s| && In(cl, s[j])
      invariant i <= j <= |s| && forall k | i <= k < j :: In(cl, s[k])
      decreases |s| - j
    {
      j := j + 1;
    }
    assert s[i..j] + s[j..] == s[i..];
    RunIs(cl, s[i..j], s[j..]);
  }

  lemma TailAt(s: string, i: nat)
    requires i < |s|
    ensures s[i..] != "" && s[i..][0] == s[i] && s[i..][1..] == s[i + 1..]
  {
  }

  lemma QuotedAt(s: string, i: nat, j: nat)
    requires i < |s| && s[i] == '\'' && Runs(Text, s, i + 1, j)
    ensures j < |s| && s[j] == '\'' ==> QuotedRest(s[i..]).Some? && QuotedRest(s[i..]).value == s[j + 1..]
    ensures j == |s| || s[j] != '\'' ==> QuotedRest(s[i..]).None?
  {
    TailAt(s, i);
    if j < |s| {
      TailAt(s, j);
    }
  }

  /** A quoted string at an index. */
  method MatchQuoted(s: string, i: nat) returns (ok: bool, j: nat)
    requires i <= |s|
    ensures Leaves(s, QuotedRest(s[i..]), ok, j) && (ok ==> i < j)
  {
    if i == |s| || s[i] != '\'' {
      return false, i;
    }
    j := ScanRun(Text, s, i + 1);
    QuotedAt(s, i, j);
    ok := j < |s| && s[j] == '\'';
    if ok {
      j := j + 1;
    }
  }

  lemma OpAt(lx: Lexicon, s: string, a: nat, b: nat, c: nat, d: nat)
    requires Runs(Blank, s, a, b) && Runs(Sign, s, b, c) && Runs(Blank, s, c, d)
    ensures s[b..c] !in lx.ops ==> OpRest(lx, s[a..]).None?
    ensures s[b..c] in lx.ops ==> OpRest(lx, s[a..]) == QuotedRest(s[d..])
  {
  }

  method MatchOp(lx: Lexicon, s: string, i: nat) returns (ok: bool, j: nat)
    requires i <= |s|
    ensures Leaves(s, OpRest(lx, s[i..]), ok, j) && (ok ==> i < j)
  {
    ok, j := false, i;
    var b := ScanRun(Blank, s, i);
    var c := ScanRun(Sign, s, b);
    var d := ScanRun(Blank, s, c);
    OpAt(lx, s, i, b, c, d);
    if s[b..c] in lx.ops {
      ok, j := MatchQuoted(s, d);
    }
  }

  lemma EnvAt(lx: Lexicon, s: string, i: nat, a: nat)
    requires Runs(Letter, s, i, a)
    ensures s[i..a] !in lx.envs ==> TermRest(lx, s[i..]).None?
    ensures s[i..a] in lx.envs ==> Same(TermRest(lx, s[i..]), OpRest(lx, s[a..]))
  {
  }

  /** The pattern `env op 'string'` at an index. */
  method MatchTerm(lx: Lexicon, s: string, i: nat) returns (ok: bool, j: nat)
    requires i <= |s|
    ensures Leaves(s, TermRest(lx, s[i..]), ok, j) && (ok ==> i < j)
  {
    ok, j := false, i;
    var a := ScanRun(Letter, s, i);
    EnvAt(lx, s, i, a);
    if s[i..a] in lx.envs {
      ok, j := MatchOp(lx, s, a);
    }
  }

  lemma WordAt(s: string, i: nat, a: nat, word: string)
    requires Runs(Blank, s, i, a)
    ensures a == i || a + |word| > |s| || s[a..a + |word|] != word ==> JoinRest(s[i..], word).None?
  {
    assert a + |word| <= |s| ==> s[a..][..|word|] == s[a..a + |word|];
  }

  lemma JoinAt(s: string, i: nat, a: nat, word: string, j: nat)
    requires Runs(Blank, s, i, a) && i < a && a + |word| <= |s| && s[a..a + |word|] == word
    requires Runs(Blank, s, a + |word|, j)
    ensures j == a + |word| ==> JoinRest(s[i..], word).None?
    ensures j > a + |word| ==> JoinRest(s[i..], word).Some? && JoinRest(s[i..], word).value == s[j..]
  {
    assert s[a..][..|word|] == word && s[a..][|word|..] == s[a + |word|..];
  }

  /** The patterns for ` and ` and ` or ` at an index. */
  method MatchJoin(s: string, i: nat, word: string) returns (ok: bool, j: nat)
    requires i <= |s|
    ensures Leaves(s, JoinRest(s[i..], word), ok, j) && (ok ==> i < j)
  {
    ok, j := false, i;
    var a := ScanRun(Blank, s, i);
    WordAt(s, i, a, word);
    if a > i && a + |word| <= |s| && s[a..a + |word|] == word {
      j := ScanRun(Blank, s, a + |word|);
      JoinAt(s, i, a, word, j);
      ok := j > a + |word|;
    }
  }

  method Atom(lx: Lexicon, s: string, i: nat) returns (ok: bool, j: nat)
    requires i <= |s|
    ensures Leaves(s, AtomRest(lx, s[i..]), ok, j) && (ok ==> i < j)
    decreases |s| - i, 0
  {
    if i < |s| && s[i] == '(' {
      assert s[i..][1..] == s[i + 1..];
      ok, j := Disjunction(lx, s, i + 1);
      ok := ok && j < |s| && s[j] == ')';
      if ok {
        assert s[j..][1..] == s[j + 1..];
        j := j + 1;
      }
    } else {
      ok, j := MatchTerm(lx, s, i);
    }
  }

  method Conjunction(lx: Lexicon, s: string, i: nat) returns (ok: bool, j: nat)
    requires i <= |s|
    ensures Leaves(s, ConjRest(lx, s[i..]), ok, j) && (ok ==> i < j)
    decreases |s| - i, 1
  {
    ok, j := Atom(lx, s, i);
    if !ok {
      return;
    }
    var more, next := MatchJoin(s, j, "and");
    while more
      invariant ok && i < j <= |s| && Same(ConjRest(lx, s[i..]), ConjTail(lx, s[j..]))
      invariant Leaves(s, JoinRest(s[j..], "and"), more, next) && (more ==> j < next)
      decreases |s| - j
    {
      ok, j := Atom(lx, s, next);
      if !ok {
        return;
      }
      more, next := MatchJoin(s, j, "and");
    }
  }

  method Disjunction(lx: Lexicon, s: string, i: nat) returns (ok: bool, j: nat)
    requires i <= |s|
    ensures Leaves(s, DisjRest(lx, s[i..]), ok, j) && (ok ==> i < j)
    decreases |s| - i, 2
  {
    ok, j := Conjunction(lx, s, i);
    if !ok {
      return;
    }
    var more, next := MatchJoin(s, j, "or");
    while more
      invariant ok && i < j <= |s| && Same(DisjRest(lx, s[i..]), DisjTail(lx, s[j..]))
      invariant Leaves(s, JoinRest(s[j..], "or"), more, next) && (more ==> j < next)
      decreases |s| - j
    {
      ok, j := Conjunction(lx, s, next);
      if !ok {
        return;
      }
      more, next := MatchJoin(s, j, "or");
    }
  }

  method CheckMarker(lx: Lexicon, marker: string) returns (ok: bool)
    ensures ok == MarkerOk(lx, marker)
  {
    var parsed, end := Disjunction(lx, marker, 0);
    assert marker[0..] == marker;
    ok := parsed && end == |marker|;
  }

  // ----- the grammar ----------------------------------------------------------------------------

  datatype Term = Term(env: string, gap: string, op: string, gap': string, text: string)

  /** The white space around a word that joins. */
  datatype Joint = Joint(before: string, after: string)

  datatype AtomTree = Leaf(term: Term) | Paren(inner: DisjTree)
  datatype ConjTree = Conj(first: AtomTree, more: Ands)
  datatype Ands = NoAnd | And(joint: Joint, atom: AtomTree, more: Ands)
  datatype DisjTree = Disj(first: ConjTree, more: Ors)
  datatype Ors = NoOr | Or(joint: Joint, conj: ConjTree, more: Ors)

  function PrintTerm(t: Term): string { t.env + (t.gap + (t.op + (t.gap' + ("'" + (t.text + "'"))))) }

  function PrintAtom(a: AtomTree): string {
    match a case Leaf(t) => PrintTerm(t) case Paren(d) => "(" + (PrintDisj(d) + ")")
  }

  function PrintJoint(j: Joint, word: string): string { j.before + (word + j.after) }

  function PrintConj(c: ConjTree): string { PrintAtom(c.first) + PrintAnds(c.more) }

  function PrintAnds(m: Ands): string {
    match m case NoAnd => "" case And(j, a, more) => PrintJoint(j, "and") + (PrintAtom(a) + PrintAnds(more))
  }

  function PrintDisj(d: DisjTree): string { PrintConj(d.first) + PrintOrs(d.more) }

  function PrintOrs(m: Ors): string {
    match m case NoOr => "" case Or(j, c, more) => PrintJoint(j, "or") + (PrintConj(c) + PrintOrs(more))
  }

  predicate ValidTerm(lx: Lexicon, t: Term) {
    t.env in lx.envs && All(Blank, t.gap) && t.op in lx.ops && All(Blank, t.gap') && All(Text, t.text)
  }

  predicate ValidJoint(j: Joint) { j.before != "" && All(Blank, j.before) && j.after != "" && All(Blank, j.after) }

  predicate ValidAtom(lx: Lexicon, a: AtomTree) {
    match a case Leaf(t) => ValidTerm(lx, t) case Paren(d) => ValidDisj(lx, d)
  }

  predicate ValidConj(lx: Lexicon, c: ConjTree) { ValidAtom(lx, c.first) && ValidAnds(lx, c.more) }

  predicate ValidAnds(lx: Lexicon, m: Ands) {
    match m case NoAnd => true case And(j, a, more) => ValidJoint(j) && ValidAtom(lx, a) && ValidAnds(lx, more)
  }

  predicate ValidDisj(lx: Lexicon, d: DisjTree) { ValidConj(lx, d.first) && ValidOrs(lx, d.more) }

  predicate ValidOrs(lx: Lexicon, m: Ors) {
    match m case NoOr => true case Or(j, c, more) => ValidJoint(j) && ValidConj(lx, c) && ValidOrs(lx, more)
  }

  ghost predicate IsMarker(lx: Lexicon, s: string) { exists d :: ValidDisj(lx, d) && PrintDisj(d) == s }

  /** Names are made of letters and underscores, operators of comparison signs. */
  predicate Proper(lx: Lexicon) {
    && (forall env | env in lx.envs :: env != "" && All(Letter, env))
    && (forall op | op in lx.ops :: op != "" && All(Sign, op))
  }

  // ----- acceptance gives a derivation ----------------------------------------------------------

  lemma TakeDrop(s: string, n: nat)
    requires n <= |s|
    ensures s == s[..n] + s[n..]
  {
  }

  lemma Reassociate(a: string, b: string, c: string)
    ensures a + (b + c) == (a + b) + c
  {
  }

  lemma QuotedText(s: string) returns (text: string)
    requires QuotedRest(s).Some?
    ensures All(Text, text) && s == "'" + (text + "'") + QuotedRest(s).value
  {
    var n, rest := Run(Text, s[1..]), QuotedRest(s).value;
    text := s[1..][..n];
    HeadAndTail(s, '\'');
    HeadAndTail(s[1..][n..], '\'');
    TakeDrop(s[1..], n);
    Reassociate(text, "'", rest);
    Reassociate("'", text + "'", rest);
  }

  lemma HeadAndTail(s: string, c: char)
    requires s != "" && s[0] == c
    ensures s == [c] + s[1..]
  {
  }

  lemma TermTree(lx: Lexicon, s: string) returns (t: Term)
    requires TermRest(lx, s).Some?
    ensures ValidTerm(lx, t) && s == PrintTerm(t) + TermRest(lx, s).value
  {
    var rest := TermRest(lx, s).value;
    var a := Run(Letter, s);
    var s0 := s[a..];
    var s1 := Skip(Blank, s0);
    var b := Run(Sign, s1);
    var s2 := s1[b..];
    var s3 := Skip(Blank, s2);
    var text := QuotedText(s3);
    t := Term(s[..a], s0[..Run(Blank, s0)], s1[..b], s2[..Run(Blank, s2)], text);
    TakeDrop(s, a);
    TakeDrop(s0, Run(Blank, s0));
    TakeDrop(s1, b);
    TakeDrop(s2, Run(Blank, s2));
    var quoted := "'" + (text + "'");
    assert s == t.env + (t.gap + (t.op + (t.gap' + (quoted + rest))));
    Reassociate(t.gap', quoted, rest);
    Reassociate(t.op, t.gap' + quoted, rest);
    Reassociate(t.gap, t.op + (t.gap' + quoted), rest);
    Reassociate(t.env, t.gap + (t.op + (t.gap' + quoted)), rest);
  }

  lemma JointOf(s: string, word: string) returns (j: Joint)
    requires JoinRest(s, word).Some?
    ensures ValidJoint(j) && s == PrintJoint(j, word) + JoinRest(s, word).value
  {
    var a := Run(Blank, s);
    var s1 := s[a..];
    var s2 := s1[|word|..];
    var b := Run(Blank, s2);
    j := Joint(s[..a], s2[..b]);
    TakeDrop(s, a);
    TakeDrop(s1, |word|);
    TakeDrop(s2, b);
    Reassociate(word, j.after, s2[b..]);
    Reassociate(j.before, word + j.after, s2[b..]);
  }

  lemma {:induction false} AtomOf(lx: Lexicon, s: string) returns (a: AtomTree)
    requires AtomRest(lx, s).Some?
    ensures ValidAtom(lx, a) && s == PrintAtom(a) + AtomRest(lx, s).value
    decreases |s|, 0
  {
    if s != "" && s[0] == '(' {
      var d := DisjOf(lx, s[1..]);
      var inner := DisjRest(lx, s[1..]).value;
      a := Paren(d);
      TakeDrop(s, 1);
      TakeDrop(inner, 1);
      assert s[..1] == "(" && inner[..1] == ")";
      Reassociate(PrintDisj(d), ")", inner[1..]);
      Reassociate("(", PrintDisj(d) + ")", inner[1..]);
    } else {
      var t := TermTree(lx, s);
      a := Leaf(t);
    }
  }

  lemma {:induction false} AndsOf(lx: Lexicon, s: string) returns (m: Ands)
    requires ConjTail(lx, s).Some?
    ensures ValidAnds(lx, m) && s == PrintAnds(m) + ConjTail(lx, s).value
    decreases |s|, 1
  {
    if JoinRest(s, "and").None? {
      m := NoAnd;
    } else {
      var joint := JointOf(s, "and");
      var s1 := JoinRest(s, "and").value;
      var a := AtomOf(lx, s1);
      var more := AndsOf(lx, AtomRest(lx, s1).value);
      m := And(joint, a, more);
      var rest := ConjTail(lx, s).value;
      Reassociate(PrintAtom(a), PrintAnds(more), rest);
      Reassociate(PrintJoint(joint, "and"), PrintAtom(a) + PrintAnds(more), rest);
    }
  }

  lemma {:induction false} ConjOf(lx: Lexicon, s: string) returns (c: ConjTree)
    requires ConjRest(lx, s).Some?
    ensures ValidConj(lx, c) && s == PrintConj(c) + ConjRest(lx, s).value
    decreases |s|, 2
  {
    var a := AtomOf(lx, s);
    var m := AndsOf(lx, AtomRest(lx, s).value);
    c := Conj(a, m);
    Reassociate(PrintAtom(a), PrintAnds(m), ConjRest(lx, s).value);
  }

  lemma {:induction false} OrsOf(lx: Lexicon, s: string) returns (m: Ors)
    requires DisjTail(lx, s).Some?
    ensures ValidOrs(lx, m) && s == PrintOrs(m) + DisjTail(lx, s).value
    decreases |s|, 3
  {
    if JoinRest(s, "or").None? {
      m := NoOr;
    } else {
      var joint := JointOf(s, "or");
      var s1 := JoinRest(s, "or").value;
      var c := ConjOf(lx, s1);
      var more := OrsOf(lx, ConjRest(lx, s1).value);
      m := Or(joint, c, more);
      var rest := DisjTail(lx, s).value;
      Reassociate(PrintConj(c), PrintOrs(more), rest);
      Reassociate(PrintJoint(joint, "or"), PrintConj(c) + PrintOrs(more), rest);
    }
  }

  lemma {:induction false} DisjOf(lx: Lexicon, s: string) returns (d: DisjTree)
    requires DisjRest(lx, s).Some?
    ensures ValidDisj(lx, d) && s == PrintDisj(d) + DisjRest(lx, s).value
    decreases |s|, 4
  {
    var c := ConjOf(lx, s);
    var m := OrsOf(lx, ConjRest(lx, s).value);
    d := Disj(c, m);
    Reassociate(PrintConj(c), PrintOrs(m), DisjRest(lx, s).value);
  }

  // ----- every printed tree is accepted ---------------------------------------------------------

  ghost predicate Yields(r: Option<string>, rest: string) { r.Some? && r.value == rest }

  lemma QuotedReads(text: string, rest: string)
    requires All(Text, text)
    ensures Yields(QuotedRest("'" + (text + "'") + rest), rest)
  {
    var s := "'" + (text + "'") + rest;
    assert s[1..] == text + ("'" + rest);
    RunIs(Text, text, "'" + rest);
    assert ("'" + rest)[1..] == rest;
  }

  lemma TermReads(lx: Lexicon, t: Term, rest: string)
    requires Proper(lx) && ValidTerm(lx, t)
    ensures Yields(TermRest(lx, PrintTerm(t) + rest), rest) && PrintTerm(t) != "" && In(Letter, PrintTerm(t)[0])
  {
    var quoted := "'" + (t.text + "'") + rest;
    var s2 := t.gap' + quoted;
    var s1 := t.op + s2;
    var s0 := t.gap + s1;
    var s := t.env + s0;
    assert All(Letter, t.env) && t.env != "" && All(Sign, t.op) && t.op != "";
    assert s == PrintTerm(t) + rest by {
      Reassociate(t.gap', "'" + (t.text + "'"), rest);
      Reassociate(t.op, t.gap' + ("'" + (t.text + "'")), rest);
      Reassociate(t.gap, t.op + (t.gap' + ("'" + (t.text + "'"))), rest);
      Reassociate(t.env, t.gap + (t.op + (t.gap' + ("'" + (t.text + "'")))), rest);
    }
    assert PrintTerm(t)[0] == t.env[0];
    StartsWithout(Blank, Sign, t.gap', quoted);
    StartsWithout(Sign, Letter, t.op, s2);
    StartsWithout(Blank, Letter, t.gap, s1);
    assert s1[0] == t.op[0] && In(Sign, s1[0]);
    RunIs(Letter, t.env, s0);
    RunIs(Blank, t.gap, s1);
    RunIs(Sign, t.op, s2);
    RunIs(Blank, t.gap', quoted);
    QuotedReads(t.text, rest);
  }

  /** Text of one class, then text that is not of another, does not start with that other class. */
  lemma StartsWithout(cl: Class, other: Class, w: string, rest: string)
    requires All(cl, w) && rest != "" && !In(other, rest[0])
    requires forall c | In(cl, c) :: !In(other, c)
    ensures w + rest != "" && !In(other, (w + rest)[0])
  {
    if w != "" {
      assert (w + rest)[0] == w[0];
    }
  }

  lemma JoinReads(j: Joint, word: string, rest: string)
    requires ValidJoint(j) && word != "" && !In(Blank, word[0]) && rest != "" && !In(Blank, rest[0])
    ensures Yields(JoinRest(PrintJoint(j, word) + rest, word), rest)
  {
    var s2 := j.after + rest;
    var s1 := word + s2;
    Reassociate(word, j.after, rest);
    Reassociate(j.before, word + j.after, rest);
    assert s1[0] == word[0];
    RunIs(Blank, j.before, s1);
    assert s1[..|word|] == word && s1[|word|..] == s2;
    RunIs(Blank, j.after, rest);
  }

  /** What is joined by one word is not joined by another. */
  lemma JoinDiffers(j: Joint, word: string, other: string, rest: string)
    requires ValidJoint(j) && word != "" && other != "" && word[0] != other[0] && !In(Blank, word[0])
    ensures JoinRest(PrintJoint(j, word) + rest, other).None?
  {
    var s1 := word + (j.after + rest);
    Reassociate(word, j.after, rest);
    Reassociate(j.before, word + j.after, rest);
    assert s1[0] == word[0];
    RunIs(Blank, j.before, s1);
    if |other| <= |s1| {
      assert s1[..|other|][0] == word[0];
    }
  }

  /** Nothing that is not white space starts a join. */
  lemma NoJoin(s: string, word: string)
    requires s == "" || !In(Blank, s[0])
    ensures JoinRest(s, word).None?
  {
  }

  lemma {:induction false} AtomStarts(lx: Lexicon, a: AtomTree)
    requires Proper(lx) && ValidAtom(lx, a)
    ensures PrintAtom(a) != "" && !In(Blank, PrintAtom(a)[0])
  {
    if a.Leaf? {
      TermReads(lx, a.term, "");
    }
  }

  lemma StartsLike(a: string, b: string)
    requires a != "" && !In(Blank, a[0])
    ensures a + b != "" && !In(Blank, (a + b)[0])
  {
    assert (a + b)[0] == a[0];
  }

  lemma {:induction false} AtomReads(lx: Lexicon, a: AtomTree, rest: string)
    requires Proper(lx) && ValidAtom(lx, a)
    ensures Yields(AtomRest(lx, PrintAtom(a) + rest), rest)
    decreases a
  {
    match a
    case Leaf(t) =>
      TermReads(lx, t, rest);
      assert (PrintTerm(t) + rest)[0] == PrintTerm(t)[0];
    case Paren(d) =>
      var tail := ")" + rest;
      NoJoin(tail, "and");
      NoJoin(tail, "or");
      DisjReads(lx, d, tail);
      Reassociate(PrintDisj(d), ")", rest);
      Reassociate("(", PrintDisj(d) + ")", rest);
      assert ("(" + (PrintDisj(d) + tail))[1..] == PrintDisj(d) + tail && tail[1..] == rest;
  }

  lemma {:induction false} AndsRead(lx: Lexicon, m: Ands, rest: string)
    requires Proper(lx) && ValidAnds(lx, m) && JoinRest(rest, "and").None?
    ensures Yields(ConjTail(lx, PrintAnds(m) + rest), rest)
    decreases m
  {
    match m
    case NoAnd =>
      assert "" + rest == rest;
    case And(j, a, more) =>
      var tail := PrintAnds(more) + rest;
      AtomStarts(lx, a);
      StartsLike(PrintAtom(a), tail);
      JoinReads(j, "and", PrintAtom(a) + tail);
      AtomReads(lx, a, tail);
      AndsRead(lx, more, rest);
      Reassociate(PrintAtom(a), PrintAnds(more), rest);
      Reassociate(PrintJoint(j, "and"), PrintAtom(a) + PrintAnds(more), rest);
  }

  lemma {:induction false} ConjReads(lx: Lexicon, c: ConjTree, rest: string)
    requires Proper(lx) && ValidConj(lx, c) && JoinRest(rest, "and").None?
    ensures Yields(ConjRest(lx, PrintConj(c) + rest), rest)
    decreases c
  {
    AtomReads(lx, c.first, PrintAnds(c.more) + rest);
    AndsRead(lx, c.more, rest);
    Reassociate(PrintAtom(c.first), PrintAnds(c.more), rest);
  }

  /** What follows a conjunction inside a disjunction does not go on with ` and `. */
  lemma OrsStopAnds(lx: Lexicon, m: Ors, rest: string)
    requires ValidOrs(lx, m) && JoinRest(rest, "and").None?
    ensures JoinRest(PrintOrs(m) + rest, "and").None?
  {
    match m
    case NoOr =>
      assert "" + rest == rest;
    case Or(j, c, more) =>
      JoinDiffers(j, "or", "and", PrintConj(c) + PrintOrs(more) + rest);
      Reassociate(PrintJoint(j, "or"), PrintConj(c) + PrintOrs(more), rest);
  }

  lemma {:induction false} OrsRead(lx: Lexicon, m: Ors, rest: string)
    requires Proper(lx) && ValidOrs(lx, m) && JoinRest(rest, "and").None? && JoinRest(rest, "or").None?
    ensures Yields(DisjTail(lx, PrintOrs(m) + rest), rest)
    decreases m
  {
    match m
    case NoOr =>
      assert "" + rest == rest;
    case Or(j, c, more) =>
      var tail := PrintOrs(more) + rest;
      AtomStarts(lx, c.first);
      StartsLike(PrintAtom(c.first), PrintAnds(c.more));
      StartsLike(PrintConj(c), tail);
      JoinReads(j, "or", PrintConj(c) + tail);
      OrsStopAnds(lx, more, rest);
      ConjReads(lx, c, tail);
      OrsRead(lx, more, rest);
      Reassociate(PrintConj(c), PrintOrs(more), rest);
      Reassociate(PrintJoint(j, "or"), PrintConj(c) + PrintOrs(more), rest);
  }

  lemma {:induction false} DisjReads(lx: Lexicon, d: DisjTree, rest: string)
    requires Proper(lx) && ValidDisj(lx, d) && JoinRest(rest, "and").None? && JoinRest(rest, "or").None?
    ensures Yields(DisjRest(lx, PrintDisj(d) + rest), rest)
    decreases d
  {
    OrsStopAnds(lx, d.more, rest);
    ConjReads(lx, d.first, PrintOrs(d.more) + rest);
    OrsRead(lx, d.more, rest);
    Reassociate(PrintConj(d.first), PrintOrs(d.more), rest);
  }

  /** The recogniser accepts exactly the markers of the grammar, although it never goes back. */
  lemma AcceptsExactlyMarkers(lx: Lexicon, s: string)
    requires Proper(lx)
    ensures MarkerOk(lx, s) <==> IsMarker(lx, s)
  {
    if MarkerOk(lx, s) {
      var d := DisjOf(lx, s);
      assert PrintDisj(d) + "" == PrintDisj(d);
    }
    if d :| ValidDisj(lx, d) && PrintDisj(d) == s {
      NoJoin("", "and");
      NoJoin("", "or");
      DisjReads(lx, d, "");
      assert s + "" == s;
    }
  }

  // ----- the names and operators of the check ---------------------------------------------------

  const PYTHON: set<string> := {"python_version", "python_full_version", "os_name", "sys_platform"}
  const PLATFORM: set<string> := {"platform_release", "platform_system", "platform_version", "platform_machine"}
  const IMPLEMENTATION: set<string> :=
    {"platform_python_implementation", "implementation_name", "implementation_version", "extra"}
  const OPS: set<string> := {"===", "==", "!=", "<=", ">=", "~=", "<", ">"}

  const LEXICON := Lexicon(PYTHON + PLATFORM + IMPLEMENTATION, OPS)

  lemma NamesAreProper()
    ensures forall env | env in PYTHON :: env != "" && All(Letter, env)
  {
  }

  lemma MoreNamesAreProper()
    ensures forall env | env in PLATFORM :: env != "" && All(Letter, env)
  {
  }

  lemma LastNamesAreProper()
    ensures forall env | env in IMPLEMENTATION :: env != "" && All(Letter, env)
  {
  }

  lemma OperatorsAreProper()
    ensures forall op | op in OPS :: op != "" && All(Sign, op)
  {
  }

  lemma LexiconIsProper()
    ensures Proper(LEXICON)
  {
    NamesAreProper();
    MoreNamesAreProper();
    LastNamesAreProper();
    OperatorsAreProper();
  }

  /** The check's own markers. */
  lemma CheckAcceptsExactlyMarkers(s: string)
    ensures MarkerOk(LEXICON, s) <==> IsMarker(LEXICON, s)
  {
    LexiconIsProper();
    AcceptsExactlyMarkers(LEXICON, s);
  }
}
