/** Reading a text line by line, for any reader of one line: the loop that collects what the lines give and
    stops at the first error. */
module LineReader {
  import opened Outcomes

  function ReadAll<T, E>(read: string -> Result<seq<T>, E>, lines: seq<string>): Result<seq<T>, E> {
    if lines == [] then Ok([]) else
      var init, last := ReadAll(read, lines[..|lines| - 1]), read(lines[|lines| - 1]);
      if init.Err? then init else if last.Err? then last else Ok(init.value + last.value)
  }

  ghost predicate Gives<T, E>(r: Result<seq<T>, E>, items: seq<T>) { r.Ok? && r.value == items }

  lemma {:induction false} ErrorStays<T, E>(read: string -> Result<seq<T>, E>, lines: seq<string>, n: nat)
    requires n <= |lines| && ReadAll(read, lines[..n]).Err?
    ensures ReadAll(read, lines) == ReadAll(read, lines[..n])
    decreases |lines|
  {
    if n < |lines| {
      assert lines[..|lines| - 1][..n] == lines[..n];
      ErrorStays(read, lines[..|lines| - 1], n);
    } else {
      assert lines[..n] == lines;
    }
  }

  lemma ReadNext<T, E>(read: string -> Result<seq<T>, E>, lines: seq<string>, n: nat, items: seq<T>)
    requires n < |lines| && Gives(ReadAll(read, lines[..n]), items)
    ensures read(lines[n]).Ok? ==> Gives(ReadAll(read, lines[..n + 1]), items + read(lines[n]).value)
    ensures read(lines[n]).Err? ==> ReadAll(read, lines) == Err(read(lines[n]).error)
  {
    assert lines[..n + 1][..n] == lines[..n] && lines[..n + 1][n] == lines[n];
    if read(lines[n]).Err? {
      ErrorStays(read, lines, n + 1);
    }
  }

  lemma {:induction false} GivesConcat<T, E>(read: string -> Result<seq<T>, E>, a: seq<string>, x: seq<T>,
                                            b: seq<string>, y: seq<T>)
    requires Gives(ReadAll(read, a), x) && Gives(ReadAll(read, b), y)
    ensures Gives(ReadAll(read, a + b), x + y)
    decreases |b|
  {
    if b == [] {
      assert a + b == a && x + y == x;
    } else {
      var init, last := b[..|b| - 1], b[|b| - 1];
      var front, more := ReadAll(read, init).value, read(last).value;
      GivesConcat(read, a, x, init, front);
      assert (a + b)[..|a + b| - 1] == a + init;
      assert x + y == x + front + more;
    }
  }

  /** Lines that give one item each. */
  lemma {:induction false} GivesEach<T, E>(read: string -> Result<seq<T>, E>, lines: seq<string>, items: seq<T>)
    requires |lines| == |items| && forall i | 0 <= i < |lines| :: Gives(read(lines[i]), [items[i]])
    ensures Gives(ReadAll(read, lines), items)
    decreases |lines|
  {
    if lines != [] {
      var n := |lines| - 1;
      GivesEach(read, lines[..n], items[..n]);
      assert items == items[..n] + [items[n]];
    }
  }

  /** A line that gives nothing in front. */
  lemma NothingThen<T, E>(read: string -> Result<seq<T>, E>, line: string, lines: seq<string>, items: seq<T>)
    requires Gives(read(line), []) && Gives(ReadAll(read, lines), items)
    ensures Gives(ReadAll(read, [line] + lines), items)
  {
    assert Gives(ReadAll(read, [line]), []);
    GivesConcat(read, [line], [], lines, items);
    assert [] + items == items;
  }

  lemma TwoNothings<T, E>(read: string -> Result<seq<T>, E>, a: string, b: string, lines: seq<string>, items: seq<T>)
    requires Gives(read(a), []) && Gives(read(b), []) && Gives(ReadAll(read, lines), items)
    ensures Gives(ReadAll(read, [a, b] + lines), items)
  {
    NothingThen(read, b, lines, items);
    NothingThen(read, a, [b] + lines, items);
    assert [a] + ([b] + lines) == [a, b] + lines;
  }

  /** Where an item comes from. */
  lemma {:induction false} GivenBy<T, E>(read: string -> Result<seq<T>, E>, lines: seq<string>, k: nat) returns (i: nat, j: nat)
    requires ReadAll(read, lines).Ok? && k < |ReadAll(read, lines).value|
    ensures i < |lines| && read(lines[i]).Ok? && j < |read(lines[i]).value|
    ensures ReadAll(read, lines).value[k] == read(lines[i]).value[j]
    decreases |lines|
  {
    var n := |lines| - 1;
    var front := ReadAll(read, lines[..n]).value;
    if k < |front| {
      i, j := GivenBy(read, lines[..n], k);
    } else {
      i, j := n, k - |front|;
    }
  }
}
