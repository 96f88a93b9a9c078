/** Python's text operations as the control compiler uses them: `index`, `splitlines`, `join` and `split`. */
module PyText {
  import opened Outcomes
  import opened Strings

  // ----- index ----------------------------------------------------------------------------------

  predicate Occurs(s: string, t: string, i: nat) {
    i + |t| <= |s| && forall k | 0 <= k < |t| :: s[i + k] == t[k]
  }

  /** The characters of an occurrence. */
  lemma CharAt(s: string, t: string, i: nat, k: nat)
    ensures Occurs(s, t, i) && k < |t| ==> s[i + k] == t[k]
  {
  }

  predicate Lacks(s: string, t: string) {
    forall i: nat {:trigger Occurs(s, t, i)} | i <= |s| :: !Occurs(s, t, i)
  }

  function Index(s: string, t: string, from: nat): (at: Option<nat>)
    ensures at.Some? ==> from <= at.value && at.value + |t| <= |s|
    decreases |s| - from
  {
    if from + |t| > |s| then None else if Occurs(s, t, from) then Some(from) else Index(s, t, from + 1)
  }

  predicate FoundAt(s: string, t: string, from: nat, at: nat) {
    var found := Index(s, t, from); found.Some? && found.value == at
  }

  /** `Index` finds the first occurrence. */
  lemma {:induction false} IndexIs(s: string, t: string, from: nat, at: nat)
    ensures FoundAt(s, t, from, at) <==>
            from <= at && Occurs(s, t, at) && forall i | from <= i < at :: !Occurs(s, t, i)
    decreases |s| - from
  {
    if from + |t| <= |s| && !Occurs(s, t, from) {
      IndexIs(s, t, from + 1, at);
    }
  }

  lemma SliceOfSlice(s: string, a: nat, b: nat, i: nat, j: nat)
    requires a <= b <= |s| && i <= j <= b - a
    ensures s[a..b][i..j] == s[a + i..a + j]
  {
    var left, right := s[a..b][i..j], s[a + i..a + j];
    assert |left| == |right|;
    assert forall k | 0 <= k < |left| :: left[k] == right[k];
  }

  predicate IsSlice(x: string, s: string) { exists a, b | 0 <= a <= b <= |s| :: x == s[a..b] }

  lemma SliceTrans(x: string, y: string, s: string)
    requires IsSlice(x, y) && IsSlice(y, s)
    ensures IsSlice(x, s)
  {
    var a, b :| 0 <= a <= b <= |s| && y == s[a..b];
    var i, j :| 0 <= i <= j <= |y| && x == y[i..j];
    SliceOfSlice(s, a, b, i, j);
  }

  lemma FromIsSlice(s: string, a: nat)
    requires a <= |s|
    ensures IsSlice(s[a..], s)
  {
    assert s[a..] == s[a..|s|];
  }

  lemma UpToIsSlice(s: string, b: nat)
    requires b <= |s|
    ensures IsSlice(s[..b], s)
  {
    assert s[..b] == s[0..b];
  }

  /** A slice of a text without `t` is without `t`. */
  lemma SliceLacks(x: string, s: string, t: string)
    requires IsSlice(x, s) && Lacks(s, t)
    ensures Lacks(x, t)
  {
    var a, b :| 0 <= a <= b <= |s| && x == s[a..b];
    forall i: nat | i <= |x| ensures !Occurs(x, t, i) {
      OccursInSlice(s, a, b, t, i);
    }
  }

  lemma OccursInSlice(s: string, a: nat, b: nat, t: string, i: nat)
    requires a <= b <= |s|
    ensures Occurs(s[a..b], t, i) ==> Occurs(s, t, a + i)
    ensures Occurs(s, t, a + i) && a + i + |t| <= b ==> Occurs(s[a..b], t, i)
  {
    var x := s[a..b];
    assert forall k | 0 <= k < |x| :: x[k] == s[a + k];
    if Occurs(x, t, i) {
      forall k | 0 <= k < |t| ensures s[a + i + k] == t[k] {
        assert x[i + k] == t[k];
      }
    }
    if Occurs(s, t, a + i) && a + i + |t| <= b {
      forall k | 0 <= k < |t| ensures x[i + k] == t[k] {
        assert s[a + i + k] == t[k];
      }
    }
  }

  lemma OccursShifted(front: string, rest: string, t: string, i: nat)
    ensures Occurs(front + rest, t, |front| + i) <==> Occurs(rest, t, i)
  {
    var s := front + rest;
    OccursInSlice(s, |front|, |s|, t, i);
    assert s[|front|..|s|] == rest;
  }

  /** Where `t` first occurs depends only on the text up to its end. */
  lemma IndexOfPrefix(s: string, s': string, t: string, at: nat)
    requires FoundAt(s, t, 0, at) && StartsWith(s', s[..at + |t|])
    ensures FoundAt(s', t, 0, at)
  {
    var n := at + |t|;
    IndexIs(s, t, 0, at);
    forall i: nat | i <= at ensures Occurs(s', t, i) <==> Occurs(s, t, i) {
      OccursInSlice(s, 0, n, t, i);
      OccursInSlice(s', 0, n, t, i);
      assert s'[0..n] == s'[..n] == s[..n] == s[0..n];
    }
    IndexIs(s', t, 0, at);
  }

  /** A line without `t` in front moves the first occurrence of `t` by its length. */
  lemma IndexAfterLine(line: string, rest: string, t: string, at: nat)
    requires Lacks(line, t) && '\n' !in t && t != "" && FoundAt(rest, t, 0, at)
    ensures FoundAt(line + "\n" + rest, t, 0, |line| + 1 + at)
  {
    var s, n := line + "\n" + rest, |line| + 1;
    IndexIs(rest, t, 0, at);
    OccursShifted(line + "\n", rest, t, at);
    forall i: nat | i < n + at ensures !Occurs(s, t, i) {
      NotBefore(line, rest, t, at, i);
    }
    IndexIs(s, t, 0, n + at);
  }

  lemma NotBefore(line: string, rest: string, t: string, at: nat, i: nat)
    requires Lacks(line, t) && '\n' !in t && t != "" && FoundAt(rest, t, 0, at) && i < |line| + 1 + at
    ensures !Occurs(line + "\n" + rest, t, i)
  {
    var s := line + "\n" + rest;
    if i > |line| {
      IndexIs(rest, t, 0, at);
      OccursShifted(line + "\n", rest, t, i - |line| - 1);
    } else if i + |t| <= |line| {
      OccursInSlice(s, 0, |line|, t, i);
      assert s[0..|line|] == line;
    } else {
      assert s[|line|] == '\n';
      CharAt(s, t, i, |line| - i);
    }
  }

  // ----- lines ----------------------------------------------------------------------------------

  predicate IsBreak(c: char) {
    || '\n' <= c <= '\r' || '\U{1C}' <= c <= '\U{1E}' || c == '\U{85}' || '\U{2028}' <= c <= '\U{2029}'
  }

  predicate Unbroken(s: string) { forall i | 0 <= i < |s| :: !IsBreak(s[i]) }

  function LineLength(s: string): (n: nat)
    ensures n <= |s| && Unbroken(s[..n])
    ensures n < |s| ==> IsBreak(s[n])
  {
    if s == "" || IsBreak(s[0]) then 0 else
      var n := 1 + LineLength(s[1..]);
      assert s[..n] == [s[0]] + s[1..][..n - 1];
      n
  }

  function SplitLines(s: string): (lines: seq<string>)
    ensures forall i | 0 <= i < |lines| :: Unbroken(lines[i])
    decreases |s|
  {
    if s == "" then [] else
      var n := LineLength(s);
      if n == |s| then assert s[..n] == s; [s]
      else [s[..n]] + SplitLines(s[n + (if StartsWith(s[n..], "\r\n") then 2 else 1)..])
  }

  function Join(parts: seq<string>, sep: string): string {
    if parts == [] then "" else if |parts| == 1 then parts[0] else parts[0] + sep + Join(parts[1..], sep)
  }

  lemma {:induction false} LineLengthIs(line: string, rest: string)
    requires Unbroken(line)
    ensures LineLength(line + "\n" + rest) == |line|
    decreases |line|
  {
    if line == "" {
      assert (line + "\n" + rest)[0] == '\n';
    } else {
      assert (line + "\n" + rest)[1..] == line[1..] + "\n" + rest;
      LineLengthIs(line[1..], rest);
    }
  }

  lemma FirstLine(line: string, rest: string)
    requires Unbroken(line)
    ensures SplitLines(line + "\n" + rest) == [line] + SplitLines(rest)
  {
    var s := line + "\n" + rest;
    LineLengthIs(line, rest);
    assert s[|line|..] == "\n" + rest && s[..|line|] == line && s[|line| + 1..] == rest;
    StartsChar("\n" + rest, "\r\n", 0);
  }

  lemma JoinTail(parts: seq<string>, sep: string)
    requires |parts| > 1
    ensures Join(parts, sep) + sep == parts[0] + sep + (Join(parts[1..], sep) + sep)
  {
  }

  /** Lines joined and terminated by newlines are the lines that are read back. */
  lemma {:induction false} LinesOfJoin(lines: seq<string>)
    requires lines != [] && forall i | 0 <= i < |lines| :: Unbroken(lines[i])
    ensures SplitLines(Join(lines, "\n") + "\n") == lines
    decreases |lines|
  {
    if |lines| == 1 {
      FirstLine(lines[0], "");
      assert lines[0] + "\n" + "" == lines[0] + "\n";
    } else {
      var rest := Join(lines[1..], "\n") + "\n";
      JoinTail(lines, "\n");
      FirstLine(lines[0], rest);
      LinesOfJoin(lines[1..]);
      assert [lines[0]] + lines[1..] == lines;
    }
  }

  lemma {:induction false} LinesLack(s: string, t: string)
    requires Lacks(s, t)
    ensures forall i | 0 <= i < |SplitLines(s)| :: Lacks(SplitLines(s)[i], t)
    decreases |s|
  {
    if s != "" {
      var n := LineLength(s);
      UpToIsSlice(s, n);
      SliceLacks(s[..n], s, t);
      if n < |s| {
        var next := n + if StartsWith(s[n..], "\r\n") then 2 else 1;
        FromIsSlice(s, next);
        SliceLacks(s[next..], s, t);
        LinesLack(s[next..], t);
      }
    }
  }

  /** A marker that ends joined lines without it is found behind them. */
  lemma {:induction false} IndexAfterLines(lines: seq<string>, t: string, after: string)
    requires lines != [] && '\n' !in t && t != ""
    requires forall i | 0 <= i < |lines| :: Lacks(lines[i], t)
    ensures var text := Join(lines, "\n") + "\n"; FoundAt(text + t + after, t, 0, |text|)
    decreases |lines|
  {
    var text := Join(lines, "\n") + "\n";
    if |lines| == 1 {
      IndexIs(t + after, t, 0, 0);
      IndexAfterLine(lines[0], t + after, t, 0);
      assert text + t + after == lines[0] + "\n" + (t + after);
    } else {
      var rest := Join(lines[1..], "\n") + "\n";
      IndexAfterLines(lines[1..], t, after);
      IndexAfterLine(lines[0], rest + t + after, t, |rest|);
      JoinTail(lines, "\n");
      assert text + t + after == lines[0] + "\n" + (rest + t + after);
    }
  }

  // ----- trimming -------------------------------------------------------------------------------

  lemma {:induction false} TrimLeftIsSlice(s: string)
    ensures var t := TrimLeft(Python, s); IsSlice(t, s) && (t != "" ==> !IsSpace(Python, t[0]))
    decreases |s|
  {
    if s != "" && IsSpace(Python, s[0]) {
      TrimLeftIsSlice(s[1..]);
      FromIsSlice(s, 1);
      SliceTrans(TrimLeft(Python, s), s[1..], s);
    } else {
      FromIsSlice(s, 0);
      assert s[0..] == s;
    }
  }

  lemma {:induction false} TrimRightIsSlice(s: string)
    ensures var t := TrimRight(Python, s);
            IsSlice(t, s) && (t != "" ==> t[0] == s[0] && !IsSpace(Python, t[|t| - 1]))
    decreases |s|
  {
    if s != "" && IsSpace(Python, s[|s| - 1]) {
      TrimRightIsSlice(s[..|s| - 1]);
      UpToIsSlice(s, |s| - 1);
      SliceTrans(TrimRight(Python, s), s[..|s| - 1], s);
    } else {
      FromIsSlice(s, 0);
      assert s[0..] == s;
    }
  }

  lemma TrimIsSlice(s: string)
    ensures var t := Trim(Python, s);
            IsSlice(t, s) && (t != "" ==> !IsSpace(Python, t[0]) && !IsSpace(Python, t[|t| - 1]))
  {
    TrimLeftIsSlice(s);
    TrimRightIsSlice(TrimLeft(Python, s));
    SliceTrans(Trim(Python, s), TrimLeft(Python, s), s);
  }

  /** Trimming leaves a text alone that starts and ends with something else than white space. */
  lemma TrimOfSolid(s: string)
    requires s != "" ==> !IsSpace(Python, s[0]) && !IsSpace(Python, s[|s| - 1])
    ensures Trim(Python, s) == s
  {
  }

  lemma TrimTwice(s: string)
    ensures Trim(Python, Trim(Python, s)) == Trim(Python, s)
  {
    TrimIsSlice(s);
    TrimOfSolid(Trim(Python, s));
  }

  // ----- words ----------------------------------------------------------------------------------

  function WordLength(s: string): (n: nat)
    ensures n <= |s|
    ensures forall i | 0 <= i < n :: !IsSpace(Python, s[i])
    ensures n < |s| ==> IsSpace(Python, s[n])
  {
    if s == "" || IsSpace(Python, s[0]) then 0 else 1 + WordLength(s[1..])
  }

  function Words(s: string): seq<string>
    decreases |s|
  {
    if s == "" then []
    else if IsSpace(Python, s[0]) then Words(s[1..])
    else var n := WordLength(s); [s[..n]] + Words(s[n..])
  }

  predicate IsWord(s: string) { s != "" && forall i | 0 <= i < |s| :: !IsSpace(Python, s[i]) }

  lemma FirstWord(word: string, rest: string)
    requires IsWord(word) && (rest == "" || rest[0] == ' ')
    ensures Words(word + rest) == [word] + Words(rest)
  {
    var s := word + rest;
    assert s[0] == word[0];
    var n := WordLength(s);
    assert forall i | 0 <= i < |word| :: s[i] == word[i];
    if rest != "" {
      assert s[|word|] == ' ';
    }
    assert n == |word|;
    assert s[..n] == word && s[n..] == rest;
  }

  lemma {:induction false} WordsOfJoin(words: seq<string>)
    requires forall i | 0 <= i < |words| :: IsWord(words[i])
    ensures Words(Join(words, " ")) == words
    decreases |words|
  {
    if |words| == 1 {
      FirstWord(words[0], "");
      assert words[0] + "" == words[0];
    } else if |words| > 1 {
      var rest := Join(words[1..], " ");
      WordsOfJoin(words[1..]);
      FirstWord(words[0], " " + rest);
      assert words[0] + " " + rest == words[0] + (" " + rest);
      assert (" " + rest)[1..] == rest;
    }
  }
}
