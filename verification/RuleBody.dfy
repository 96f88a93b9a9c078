/** The scanner that decides whether the text between a head's first and last brace is one rule body
    (`_one_body` in norviq/api/baseline.py), proved against a grammar. */
module RuleBody {
  import opened Outcomes
  import opened Strings

  // ----- the scanner ----------------------------------------------------------------------------

  datatype Quote = Code | InString(escaped: bool) | InRaw

  datatype Scanner = Dead | At(depth: nat, quote: Quote)

  function Step(st: Scanner, c: char): Scanner {
    match st
    case Dead => Dead
    case At(d, InString(true)) => At(d, InString(false))
    case At(d, InString(false)) => At(d, if c == '\\' then InString(true) else if c == '"' then Code else InString(false))
    case At(d, InRaw) => At(d, if c == '`' then Code else InRaw)
    case At(d, Code) =>
      if c == '"' then At(d, InString(false))
      else if c == '`' then At(d, InRaw)
      else if c == '#' then Dead
      else if c == '{' then At(d + 1, Code)
      else if c == '}' then (if d == 0 then Dead else At(d - 1, Code))
      else st
  }

  function Scan(s: string, st: Scanner): Scanner {
    if s == "" then st else Scan(s[1..], Step(st, s[0]))
  }

  predicate OneBody(s: string) { Scan(s, At(0, Code)) == At(0, Code) }

  /** The loop's three variables as one scanner state. */
  ghost function StateOf(depth: nat, quote: Option<char>, escaped: bool): Scanner {
    At(depth, if quote == None then Code else if quote == Some('"') then InString(escaped) else InRaw)
  }

  lemma {:induction false} DeadStays(s: string)
    ensures Scan(s, Dead) == Dead
    decreases |s|
  {
    if s != "" {
      DeadStays(s[1..]);
    }
  }

  method IsOneBody(guard: string) returns (ok: bool)
    ensures ok == OneBody(guard)
  {
    var depth: nat, quote: Option<char>, escaped := 0, None, false;
    for i := 0 to |guard|
      invariant quote in {None, Some('"'), Some('`')}
      invariant escaped ==> quote == Some('"')
      invariant Scan(guard[i..], StateOf(depth, quote, escaped)) == Scan(guard, At(0, Code))
    {
      var c := guard[i];
      assert guard[i..][1..] == guard[i + 1..] && guard[i..][0] == c;
      if quote.Some? {
        if escaped {
          escaped := false;
        } else if c == '\\' && quote == Some('"') {
          escaped := true;
        } else if quote == Some(c) {
          quote := None;
        }
      } else if c == '"' || c == '`' {
        quote := Some(c);
      } else if c == '#' {
        DeadStays(guard[i + 1..]);
        return false;
      } else if c == '{' {
        depth := depth + 1;
      } else if c == '}' {
        if depth == 0 {
          DeadStays(guard[i + 1..]);
          return false;
        }
        depth := depth - 1;
      }
    }
    ok := depth == 0 && quote == None;
  }

  // ----- the grammar ----------------------------------------------------------------------------

  /** One element of a quoted string: a character, or a backslash and the character it escapes. */
  datatype Part = Char(c: char) | Escape(c: char)

  datatype Body =
    | End
    | Plain(c: char, rest: Body)
    | Quoted(parts: seq<Part>, rest: Body)
    | Raw(text: string, rest: Body)
    | Braces(inner: Body, rest: Body)

  function PrintPart(p: Part): string { if p.Char? then [p.c] else "\\" + [p.c] }

  function PrintParts(parts: seq<Part>): string {
    if parts == [] then "" else PrintPart(parts[0]) + PrintParts(parts[1..])
  }

  function Print(b: Body): string {
    match b
    case End => ""
    case Plain(c, rest) => [c] + Print(rest)
    case Quoted(parts, rest) => "\"" + PrintParts(parts) + "\"" + Print(rest)
    case Raw(text, rest) => "`" + text + "`" + Print(rest)
    case Braces(inner, rest) => "{" + Print(inner) + "}" + Print(rest)
  }

  predicate ValidPart(p: Part) { p.Char? ==> p.c != '"' && p.c != '\\' }

  /** Braces close, strings close, and no comment starts outside a string. */
  predicate Valid(b: Body) {
    match b
    case End => true
    case Plain(c, rest) => c !in "\"`#{}" && Valid(rest)
    case Quoted(parts, rest) => (forall i | 0 <= i < |parts| :: ValidPart(parts[i])) && Valid(rest)
    case Raw(text, rest) => '`' !in text && Valid(rest)
    case Braces(inner, rest) => Valid(inner) && Valid(rest)
  }

  ghost predicate IsBody(s: string) { exists b :: Valid(b) && Print(b) == s }

  // ----- every printed body is accepted ---------------------------------------------------------

  lemma {:induction false} ScanConcat(a: string, b: string, st: Scanner)
    ensures Scan(a + b, st) == Scan(b, Scan(a, st))
    decreases |a|
  {
    if a == "" {
      assert a + b == b;
    } else {
      assert (a + b)[1..] == a[1..] + b;
      ScanConcat(a[1..], b, Step(st, a[0]));
    }
  }

  lemma {:induction false} ScanParts(parts: seq<Part>, d: nat)
    requires forall i | 0 <= i < |parts| :: ValidPart(parts[i])
    ensures Scan(PrintParts(parts), At(d, InString(false))) == At(d, InString(false))
    decreases |parts|
  {
    if parts != [] {
      var head := PrintPart(parts[0]);
      assert ValidPart(parts[0]);
      if parts[0].Escape? {
        ScanConcat("\\", [parts[0].c], At(d, InString(false)));
      }
      ScanConcat(head, PrintParts(parts[1..]), At(d, InString(false)));
      ScanParts(parts[1..], d);
    }
  }

  lemma {:induction false} ScanRaw(text: string, d: nat)
    requires '`' !in text
    ensures Scan(text, At(d, InRaw)) == At(d, InRaw)
    decreases |text|
  {
    if text != "" {
      ScanRaw(text[1..], d);
    }
  }

  /** An opening character, a middle that comes back to `mid`, a closing character, and the rest. */
  lemma ScanEnclosed(first: char, middle: string, last: char, rest: string, st: Scanner, mid: Scanner)
    requires Step(st, first) == mid && Scan(middle, mid) == mid && Step(mid, last) == st
    ensures Scan([first] + middle + [last] + rest, st) == Scan(rest, st)
  {
    var s := [first] + middle + [last] + rest;
    assert s[0] == first && s[1..] == middle + ([last] + rest);
    ScanConcat(middle, [last] + rest, mid);
    assert ([last] + rest)[1..] == rest;
  }

  lemma {:induction false} ScanBody(b: Body, d: nat)
    requires Valid(b)
    ensures Scan(Print(b), At(d, Code)) == At(d, Code)
    decreases b
  {
    match b
    case End =>
    case Plain(c, rest) =>
      assert Print(b)[1..] == Print(rest);
      ScanBody(rest, d);
    case Quoted(parts, rest) =>
      ScanParts(parts, d);
      ScanEnclosed('"', PrintParts(parts), '"', Print(rest), At(d, Code), At(d, InString(false)));
      ScanBody(rest, d);
    case Raw(text, rest) =>
      ScanRaw(text, d);
      ScanEnclosed('`', text, '`', Print(rest), At(d, Code), At(d, InRaw));
      ScanBody(rest, d);
    case Braces(inner, rest) =>
      ScanBody(inner, d + 1);
      ScanEnclosed('{', Print(inner), '}', Print(rest), At(d, Code), At(d + 1, Code));
      ScanBody(rest, d);
  }

  // ----- everything accepted is a printed body --------------------------------------------------

  /** `bodies` separated by the closing braces of `|bodies| - 1` blocks left open. */
  function PrintAll(bodies: seq<Body>): string
    requires bodies != []
  {
    if |bodies| == 1 then Print(bodies[0]) else Print(bodies[0]) + "}" + PrintAll(bodies[1..])
  }

  predicate AllValid(bodies: seq<Body>) { forall i | 0 <= i < |bodies| :: Valid(bodies[i]) }

  lemma PrependPart(p: Part, parts: seq<Part>)
    ensures PrintParts([p] + parts) == PrintPart(p) + PrintParts(parts)
  {
    assert ([p] + parts)[1..] == parts;
  }

  /** A string in progress that is closed later: its remaining parts, and what follows the quote. */
  lemma {:induction false} FindParts(s: string, d: nat) returns (parts: seq<Part>, rest: string)
    requires Scan(s, At(d, InString(false))) == At(0, Code)
    ensures |rest| < |s| && Scan(rest, At(d, Code)) == At(0, Code)
    ensures forall i | 0 <= i < |parts| :: ValidPart(parts[i])
    ensures s == PrintParts(parts) + "\"" + rest
    decreases |s|
  {
    if s[0] == '"' {
      parts, rest := [], s[1..];
    } else {
      var part := if s[0] == '\\' then Escape(s[1]) else Char(s[0]);
      var n := |PrintPart(part)|;
      assert s[1..][1..] == s[2..];
      var later;
      later, rest := FindParts(s[n..], d);
      parts := [part] + later;
      PrependPart(part, later);
      Prefixed(PrintPart(part), PrintParts(later), rest);
      assert s == PrintPart(part) + s[n..];
    }
  }

  lemma Prefixed(a: string, b: string, rest: string)
    ensures a + (b + "\"" + rest) == (a + b) + "\"" + rest
  {
  }

  lemma {:induction false} FindRaw(s: string, d: nat) returns (text: string, rest: string)
    requires Scan(s, At(d, InRaw)) == At(0, Code)
    ensures |rest| < |s| && Scan(rest, At(d, Code)) == At(0, Code)
    ensures '`' !in text && s == text + "`" + rest
    decreases |s|
  {
    if s[0] == '`' {
      text, rest := "", s[1..];
    } else {
      text, rest := FindRaw(s[1..], d);
      text := [s[0]] + text;
    }
  }

  /** Put something in front of the first body. */
  lemma PrependFirst(later: seq<Body>, first: Body, text: string) returns (bodies: seq<Body>)
    requires later != [] && AllValid(later) && Valid(first) && Print(first) == text + Print(later[0])
    ensures |bodies| == |later| && AllValid(bodies) && PrintAll(bodies) == text + PrintAll(later)
  {
    bodies := [first] + later[1..];
    assert bodies[1..] == later[1..];
    if |later| > 1 {
      assert Print(first) + "}" + PrintAll(later[1..]) == text + (Print(later[0]) + "}" + PrintAll(later[1..]));
    }
  }

  lemma CloseBrace(later: seq<Body>) returns (bodies: seq<Body>)
    requires |later| >= 2 && AllValid(later)
    ensures |bodies| == |later| - 1 && AllValid(bodies) && PrintAll(bodies) == "{" + PrintAll(later)
  {
    var rest := later[1..];
    bodies := PrependFirst(rest, Braces(later[0], rest[0]), "{" + Print(later[0]) + "}");
    assert "{" + Print(later[0]) + "}" + PrintAll(rest) == "{" + (Print(later[0]) + "}" + PrintAll(rest));
  }

  lemma {:induction false} FindBodies(s: string, d: nat) returns (bodies: seq<Body>)
    requires Scan(s, At(d, Code)) == At(0, Code)
    ensures |bodies| == d + 1 && AllValid(bodies) && PrintAll(bodies) == s
    decreases |s|, 0
  {
    if s == "" {
      bodies := [End];
    } else {
      var c, tail := s[0], s[1..];
      if c == '"' {
        bodies := FindQuotedBodies(tail, d);
      } else if c == '`' {
        bodies := FindRawBodies(tail, d);
      } else {
        bodies := FindSmallBodies(c, tail, d);
      }
      assert s == [c] + tail;
    }
  }

  lemma {:induction false} FindQuotedBodies(tail: string, d: nat) returns (bodies: seq<Body>)
    requires Scan(tail, At(d, InString(false))) == At(0, Code)
    ensures |bodies| == d + 1 && AllValid(bodies) && PrintAll(bodies) == "\"" + tail
    decreases |tail|, 1
  {
    var parts, rest := FindParts(tail, d);
    var later := FindBodies(rest, d);
    bodies := PrependFirst(later, Quoted(parts, later[0]), "\"" + PrintParts(parts) + "\"");
    Regroup("\"", PrintParts(parts), "\"", rest);
  }

  lemma {:induction false} FindRawBodies(tail: string, d: nat) returns (bodies: seq<Body>)
    requires Scan(tail, At(d, InRaw)) == At(0, Code)
    ensures |bodies| == d + 1 && AllValid(bodies) && PrintAll(bodies) == "`" + tail
    decreases |tail|, 1
  {
    var text, rest := FindRaw(tail, d);
    var later := FindBodies(rest, d);
    bodies := PrependFirst(later, Raw(text, later[0]), "`" + text + "`");
    Regroup("`", text, "`", rest);
  }

  lemma Regroup(a: string, b: string, c: string, d: string)
    ensures a + b + c + d == a + (b + c + d)
  {
  }

  lemma {:induction false} FindSmallBodies(c: char, tail: string, d: nat) returns (bodies: seq<Body>)
    requires c !in "\"`" && Scan(tail, Step(At(d, Code), c)) == At(0, Code)
    ensures |bodies| == d + 1 && AllValid(bodies) && PrintAll(bodies) == [c] + tail
    decreases |tail|, 1
  {
    DeadStays(tail);
    if c == '{' {
      var later := FindBodies(tail, d + 1);
      bodies := CloseBrace(later);
    } else if c == '}' {
      var later := FindBodies(tail, d - 1);
      bodies := [End] + later;
      assert bodies[1..] == later;
    } else {
      var later := FindBodies(tail, d);
      bodies := PrependFirst(later, Plain(c, later[0]), [c]);
    }
  }

  /** The scanner accepts exactly the bodies of the grammar. */
  lemma OneBodyIffBody(s: string)
    ensures OneBody(s) <==> IsBody(s)
  {
    if OneBody(s) {
      var bodies := FindBodies(s, 0);
      assert Valid(bodies[0]) && Print(bodies[0]) == s;
    }
    if b :| Valid(b) && Print(b) == s {
      ScanBody(b, 0);
    }
  }

  // ----- white space around a body --------------------------------------------------------------

  lemma {:induction false} ScanTrimLeft(s: string, d: nat)
    ensures Scan(TrimLeft(Python, s), At(d, Code)) == Scan(s, At(d, Code))
    decreases |s|
  {
    if s != "" && IsSpace(Python, s[0]) {
      ScanTrimLeft(s[1..], d);
    }
  }

  lemma {:induction false} ScanTrimRight(s: string)
    requires OneBody(s)
    ensures OneBody(TrimRight(Python, s))
    decreases |s|
  {
    if s != "" && IsSpace(Python, s[|s| - 1]) {
      var init := s[..|s| - 1];
      ScanConcat(init, [s[|s| - 1]], At(0, Code));
      assert init + [s[|s| - 1]] == s;
      assert Scan([s[|s| - 1]], Scan(init, At(0, Code))) == Step(Scan(init, At(0, Code)), s[|s| - 1]);
      ScanTrimRight(init);
    }
  }

  /** Trimming a body and printing it between two spaces leaves it one body. */
  lemma TrimmedIsOneBody(s: string)
    requires OneBody(s)
    ensures OneBody(" " + Trim(Python, s) + " ")
  {
    var t := Trim(Python, s);
    ScanTrimLeft(s, 0);
    ScanTrimRight(TrimLeft(Python, s));
    ScanConcat(" " + t, " ", At(0, Code));
    ScanConcat(" ", t, At(0, Code));
  }
}
