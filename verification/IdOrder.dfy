/** `sorted` on control ids: Python's order on strings, and the one increasing list of a set's members. */
module IdOrder {
  /** Python's order on strings, strictly: code point by code point. */
  predicate Below(a: string, b: string) {
    if b == "" then false
    else if a == "" then true
    else a[0] < b[0] || (a[0] == b[0] && Below(a[1..], b[1..]))
  }

  lemma {:induction false} BelowTotal(a: string, b: string)
    ensures Below(a, b) || Below(b, a) || a == b
    ensures !(Below(a, b) && Below(b, a)) && (a == b ==> !Below(a, b))
    decreases |a|
  {
    if a != "" && b != "" && a[0] == b[0] {
      BelowTotal(a[1..], b[1..]);
      assert a == [a[0]] + a[1..] && b == [b[0]] + b[1..];
    }
  }

  lemma {:induction false} BelowTrans(a: string, b: string, c: string)
    requires Below(a, b) && Below(b, c)
    ensures Below(a, c)
    decreases |a|
  {
    if a != "" && a[0] == b[0] && b[0] == c[0] {
      BelowTrans(a[1..], b[1..], c[1..]);
    }
  }

  predicate Increasing(ids: seq<string>) { forall i, j | 0 <= i < j < |ids| :: Below(ids[i], ids[j]) }

  ghost predicate Lists(ids: seq<string>, members: set<string>) {
    Increasing(ids) && forall id :: id in ids <==> id in members
  }

  /** Put an id in its place, from the back as an insertion sort does. */
  method Insert(ids: seq<string>, id: string, ghost members: set<string>) returns (r: seq<string>)
    requires Lists(ids, members) && id !in members
    ensures Lists(r, members + {id})
  {
    var i := |ids|;
    while i > 0 && Below(id, ids[i - 1])
      invariant 0 <= i <= |ids|
      invariant forall j | i <= j < |ids| :: Below(id, ids[j])
    {
      i := i - 1;
    }
    forall j | 0 <= j < i ensures Below(ids[j], id) {
      BelowTotal(ids[i - 1], id);
      if j < i - 1 {
        BelowTrans(ids[j], ids[i - 1], id);
      }
    }
    r := ids[..i] + [id] + ids[i..];
    forall x ensures x in r <==> x in members + {id} {
      assert ids == ids[..i] + ids[i..];
      assert x in ids <==> x in ids[..i] || x in ids[i..];
    }
  }

  /** There is one increasing list of a set's members. */
  lemma {:induction false} ListsUnique(a: seq<string>, b: seq<string>, members: set<string>)
    requires Lists(a, members) && Lists(b, members)
    ensures a == b
    decreases |a|
  {
    assert b != [] ==> b[0] in b && b[0] in a;
    if a != [] {
      assert a[0] in a && a[0] in b;
      SameFirst(a, b, members);
      ListsRest(a, members);
      ListsRest(b, members);
      ListsUnique(a[1..], b[1..], members - {a[0]});
      assert a == [a[0]] + a[1..] && b == [b[0]] + b[1..];
    }
  }

  lemma SameFirst(a: seq<string>, b: seq<string>, members: set<string>)
    requires Lists(a, members) && Lists(b, members) && a != [] && b != []
    ensures a[0] == b[0]
  {
    assert a[0] in b && b[0] in a;
    BelowTotal(a[0], b[0]);
  }

  lemma ListsRest(a: seq<string>, members: set<string>)
    requires Lists(a, members) && a != []
    ensures Lists(a[1..], members - {a[0]})
  {
    forall id ensures id in a[1..] <==> id in members - {a[0]} {
      BelowTotal(a[0], a[0]);
      assert a == [a[0]] + a[1..];
    }
  }

  /** The sorted ids of a set. */
  method SortIds(ids: set<string>) returns (r: seq<string>)
    ensures Lists(r, ids)
  {
    r := [];
    var rest := ids;
    while rest != {}
      invariant rest <= ids && Lists(r, ids - rest)
    {
      var id :| id in rest;
      r := Insert(r, id, ids - rest);
      assert ids - rest + {id} == ids - (rest - {id});
      rest := rest - {id};
    }
    assert ids - rest == ids;
  }

  lemma {:induction false} SortedExists(ids: set<string>)
    ensures exists r :: Lists(r, ids)
    decreases |ids|
  {
    if ids == {} {
      assert Lists([], ids);
    } else {
      var top := Greatest(ids);
      SortedExists(ids - {top});
      var r :| Lists(r, ids - {top});
      assert forall id | id in r :: Below(id, top);
      assert Lists(r + [top], ids);
    }
  }

  lemma {:induction false} Greatest(ids: set<string>) returns (top: string)
    requires ids != {}
    ensures top in ids && forall id | id in ids && id != top :: Below(id, top)
    decreases |ids|
  {
    var x :| x in ids;
    if ids == {x} {
      top := x;
    } else {
      var y := Greatest(ids - {x});
      top := if Below(x, y) then y else x;
      BelowTotal(x, y);
      forall id | id in ids && id != top ensures Below(id, top) {
        if top == x && id != y {
          BelowTrans(id, y, x);
        }
      }
    }
  }

  ghost function SortedIds(ids: set<string>): (r: seq<string>)
    ensures Lists(r, ids)
  {
    SortedExists(ids);
    var r :| Lists(r, ids);
    r
  }
}
