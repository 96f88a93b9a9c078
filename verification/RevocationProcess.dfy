/**
  The state one API process keeps in module dictionaries (norviq/api/session_revocation.py), updated in
  place. Each method is one synchronous stretch of the source; its contract names the set operation the
  step system uses for the same stretch.
 */
module RevocationProcess {
  import opened Outcomes
  import opened Revocation

  /** A {digest: expiry} dictionary as the set of keys it holds. */
  ghost function KeysOf(store: map<string, int>): set<Key> {
    set d | d in store :: Key(d, store[d])
  }

  /** One digest is one token with one expiry. */
  ghost predicate OneExpiry(a: map<string, int>, b: map<string, int>) {
    forall d | d in a && d in b :: a[d] == b[d]
  }

  lemma KeysOfHas(store: map<string, int>, k: Key)
    ensures k in KeysOf(store) <==> k.digest in store && store[k.digest] == k.exp
  {
    if k.digest in store && store[k.digest] == k.exp {
      assert k == Key(k.digest, store[k.digest]);
    }
  }

  lemma KeysOfUpdate(a: map<string, int>, b: map<string, int>)
    requires OneExpiry(a, b)
    ensures KeysOf(a + b) == KeysOf(a) + KeysOf(b)
    ensures KeysOf(a - b.Keys) == KeysOf(a) - KeysOf(b)
  {
    forall k ensures k in KeysOf(a + b) <==> k in KeysOf(a) + KeysOf(b) {
      KeysOfHas(a, k);
      KeysOfHas(b, k);
      KeysOfHas(a + b, k);
    }
    forall k ensures k in KeysOf(a - b.Keys) <==> k in KeysOf(a) - KeysOf(b) {
      KeysOfHas(a, k);
      KeysOfHas(b, k);
      KeysOfHas(a - b.Keys, k);
    }
  }

  /** Pop `keys` one by one. */
  method PopAll(store: map<string, int>, keys: set<string>) returns (kept: map<string, int>)
    ensures kept == store - keys
  {
    kept := store;
    var todo := keys;
    while todo != {}
      invariant todo <= keys
      invariant kept.Keys == store.Keys - (keys - todo)
      invariant forall d | d in kept :: kept[d] == store[d]
      decreases |todo|
    {
      var d :| d in todo;
      kept := kept - {d};
      todo := todo - {d};
    }
  }

  /** `_prune`: drop the expired entries of one dictionary, and only those. */
  method PruneStore(store: map<string, int>, now: int) returns (kept: map<string, int>)
    ensures KeysOf(kept) == Prune(KeysOf(store), now)
    ensures forall d | d in kept :: d in store && kept[d] == store[d]
  {
    kept := PopAll(store, set d | d in store && store[d] <= now);
    forall k ensures k in KeysOf(kept) <==> k in Prune(KeysOf(store), now) {
      KeysOfHas(kept, k);
      KeysOfHas(store, k);
    }
  }

  ghost function RowKeys(rows: seq<(string, int)>): set<Key> {
    set r | r in rows :: Key(r.0, r.1)
  }

  ghost function Digests(rows: seq<(string, int)>): set<string> {
    set r | r in rows :: r.0
  }

  /** The query returned unexpired rows of `table`, whose primary key is the digest. */
  ghost predicate FromTable(rows: seq<(string, int)>, table: map<string, int>) {
    forall r | r in rows :: r.0 in table && table[r.0] == r.1 && r.1 > 0
  }

  lemma MergedKeys(store: map<string, int>, rows: seq<(string, int)>, table: map<string, int>, merged: map<string, int>)
    requires FromTable(rows, table) && OneExpiry(store, table) && OneExpiry(merged, store) && OneExpiry(merged, table)
    requires merged.Keys == store.Keys + Digests(rows)
    ensures KeysOf(merged) == KeysOf(store) + RowKeys(rows)
  {
    forall k ensures k in KeysOf(merged) <==> k in KeysOf(store) + RowKeys(rows) {
      KeysOfHas(merged, k);
      KeysOfHas(store, k);
      if k.digest in Digests(rows) {
        var r :| r in rows && r.0 == k.digest;
        assert merged[k.digest] == r.1 && Key(r.0, r.1) in RowKeys(rows);
      }
    }
  }

  /** The loop of `_pull`. */
  method MergeRows(store: map<string, int>, rows: seq<(string, int)>, ghost table: map<string, int>)
    returns (merged: map<string, int>, added: nat)
    requires FromTable(rows, table) && OneExpiry(store, table)
    ensures KeysOf(merged) == KeysOf(store) + RowKeys(rows)
    ensures OneExpiry(merged, store) && merged.Keys <= store.Keys + table.Keys && OneExpiry(merged, table)
    ensures added == 0 <==> merged == store
  {
    merged, added := store, 0;
    for i := 0 to |rows|
      invariant added == 0 <==> merged == store
      invariant merged.Keys == store.Keys + Digests(rows[..i]) && store.Keys <= merged.Keys
      invariant OneExpiry(merged, store) && OneExpiry(merged, table)
    {
      var (key, exp) := rows[i];
      assert rows[i] in rows && rows[..i + 1] == rows[..i] + [rows[i]];
      if exp > (if key in merged then merged[key] else 0) {
        merged := merged[key := exp];
        added := added + 1;
      }
    }
    assert rows[..|rows|] == rows;
    MergedKeys(store, rows, table, merged);
  }

  /** What Redis answered to one check; `Unasked` when there is no cache to ask. */
  datatype Answer = Unasked | Found(revoked: bool) | Failed

  const GRACE: real := 30.0

  /** One completed check: the time of a failure, whether the mirror decided it, and Redis's answer. */
  datatype Check = Check(at: real, mirrorHit: bool, answer: Answer)

  /** The outage clock after a check. */
  function ClockAfter(since: Option<real>, c: Check): Option<real> {
    if c.mirrorHit || c.answer.Unasked? then since
    else if c.answer.Found? then None
    else if since.None? then Some(c.at) else since
  }

  /** Whether the check refuses the token. */
  function Refused(since: Option<real>, c: Check): bool {
    if c.mirrorHit then true
    else match c.answer
         case Unasked => false
         case Found(revoked) => revoked
         case Failed => c.at - (if since.None? then c.at else since.value) > GRACE
  }

  /** The expiries a scan of Redis shows: each digest with the seconds it has left. */
  function Expiries(held: map<string, int>, now: int): map<string, int> {
    map d | d in held :: now + held[d]
  }

  class ApiProcess {
    var mirror: map<string, int>
    var unpersisted: map<string, int>
    var watermark: Option<int>
    var degradedSince: Option<real>

    ghost function Mirror(): set<Key> reads this { KeysOf(mirror) }

    ghost function Queue(): set<Key> reads this { KeysOf(unpersisted) }

    constructor ()
      ensures Mirror() == FreshProc().mirror && Queue() == FreshProc().queue
      ensures watermark == FreshProc().watermark && degradedSince == None
    {
      mirror, unpersisted, watermark, degradedSince := map[], map[], None, None;
    }

    /** The first line of a sync pass. */
    method PruneMirror(now: int)
      modifies this`mirror
      ensures Mirror() == Prune(old(Mirror()), now)
    {
      mirror := PruneStore(mirror, now);
    }

    method PruneQueue(now: int)
      modifies this`unpersisted
      ensures Queue() == Prune(old(Queue()), now)
    {
      unpersisted := PruneStore(unpersisted, now);
    }

    /** A logout's first write. */
    method MarkRevoked(entries: map<string, int>)
      requires OneExpiry(mirror, entries)
      modifies this`mirror
      ensures Mirror() == old(Mirror()) + KeysOf(entries)
    {
      KeysOfUpdate(mirror, entries);
      mirror := mirror + entries;
    }

    /** `_persist_or_queue` before its await. */
    method Enqueue(entries: map<string, int>)
      requires OneExpiry(unpersisted, entries)
      modifies this`unpersisted
      ensures Queue() == old(Queue()) + KeysOf(entries)
    {
      KeysOfUpdate(unpersisted, entries);
      unpersisted := unpersisted + entries;
    }

    /** `_persist_or_queue` and `_flush_unpersisted` after the write has landed. */
    method Dequeue(entries: map<string, int>)
      requires OneExpiry(unpersisted, entries)
      modifies this`unpersisted
      ensures Queue() == old(Queue()) - KeysOf(entries)
    {
      KeysOfUpdate(unpersisted, entries);
      unpersisted := PopAll(unpersisted, entries.Keys);
    }

    /** The rows of a pull merged into the mirror, and the new watermark. */
    method MergePull(rows: seq<(string, int)>, dbNow: int, ghost table: map<string, int>) returns (added: nat)
      requires FromTable(rows, table) && OneExpiry(mirror, table)
      modifies this`mirror, this`watermark
      ensures watermark == Some(dbNow - OVERLAP)
      ensures Mirror() == old(Mirror()) + RowKeys(rows)
      ensures added == 0 <==> mirror == old(mirror)
    {
      mirror, added := MergeRows(mirror, rows, table);
      watermark := Some(dbNow - OVERLAP);
    }

    /** What a scan of Redis adds: {digest: seconds left}, taken over into the mirror and the queue unless
        the mirror already holds the key live. */
    method ImportHeld(held: map<string, int>, now: nat) returns (imported: map<string, int>)
      requires forall d | d in held :: held[d] > 0
      requires OneExpiry(mirror, Expiries(held, now)) && OneExpiry(unpersisted, Expiries(held, now))
      modifies this`mirror, this`unpersisted
      ensures KeysOf(imported) == Importable(old(Mirror()), KeysOf(Expiries(held, now)))
      ensures Mirror() == old(Mirror()) + KeysOf(imported) && Queue() == old(Queue()) + KeysOf(imported)
    {
      imported := map d | d in held && IsDigest(d) && (if d in mirror then mirror[d] else 0) <= now :: now + held[d];
      forall k ensures k in KeysOf(imported) <==> k in Importable(Mirror(), KeysOf(Expiries(held, now))) {
        KeysOfHas(imported, k);
        KeysOfHas(Expiries(held, now), k);
        KeysOfHas(mirror, k);
      }
      KeysOfUpdate(mirror, imported);
      KeysOfUpdate(unpersisted, imported);
      mirror := mirror + imported;
      unpersisted := unpersisted + imported;
    }

    /** `is_revoked`: the mirror, then Redis, failing open only inside the grace period. */
    method IsRevoked(keys: seq<string>, now: int, answer: Answer, at: real) returns (revoked: bool)
      modifies this`degradedSince
      ensures var hit := exists d | d in keys :: d in mirror && mirror[d] > now;
              && revoked == Refused(old(degradedSince), Check(at, hit, answer))
              && degradedSince == ClockAfter(old(degradedSince), Check(at, hit, answer))
    {
      for i := 0 to |keys|
        invariant forall d | d in keys[..i] :: !(d in mirror && mirror[d] > now)
        invariant degradedSince == old(degradedSince)
      {
        assert keys[..i + 1] == keys[..i] + [keys[i]];
        if keys[i] in mirror && mirror[keys[i]] > now {
          return true;
        }
      }
      assert keys[..|keys|] == keys;
      match answer {
        case Unasked => return false;
        case Failed =>
          if degradedSince.None? {
            degradedSince := Some(at);
          }
          return at - degradedSince.value > GRACE;
        case Found(found) =>
          degradedSince := None;
          return found;
      }
    }
  }

  // ----- the grace period over a sequence of checks ----------------------------------------------

  /** The outage clock before check `n`. */
  function ClockBefore(checks: seq<Check>, n: nat): Option<real>
    requires n <= |checks|
  {
    if n == 0 then None else ClockAfter(ClockBefore(checks, n - 1), checks[n - 1])
  }

  predicate FailedRead(c: Check) { !c.mirrorHit && c.answer.Failed? }

  predicate GoodRead(c: Check) { !c.mirrorHit && c.answer.Found? }

  /** Read `g - 1` is the last successful one before check `n`, and nothing failed in between. */
  ghost predicate QuietSince(checks: seq<Check>, g: nat, n: nat)
    requires g <= n <= |checks|
  {
    (g == 0 || GoodRead(checks[g - 1])) && forall i | g <= i < n :: !FailedRead(checks[i])
  }

  /** Check `f` is the first failed read since the last successful one, seen from check `n`. */
  ghost predicate FirstFailureSince(checks: seq<Check>, f: nat, n: nat)
    requires f <= n < |checks|
  {
    && FailedRead(checks[f])
    && (forall i | f <= i <= n :: !GoodRead(checks[i]))
    && exists g | 0 <= g <= f :: QuietSince(checks, g, f)
  }

  lemma {:induction false} FindQuietStart(checks: seq<Check>, n: nat) returns (g: nat)
    requires n <= |checks| && ClockBefore(checks, n) == None
    ensures g <= n && QuietSince(checks, g, n)
  {
    if n == 0 || GoodRead(checks[n - 1]) {
      g := n;
    } else {
      g := FindQuietStart(checks, n - 1);
    }
  }

  lemma {:induction false} FindFirstFailure(checks: seq<Check>, n: nat) returns (f: nat)
    requires n < |checks| && (FailedRead(checks[n]) || (ClockBefore(checks, n).Some? && !GoodRead(checks[n])))
    ensures f <= n && FirstFailureSince(checks, f, n)
  {
    if ClockBefore(checks, n) == None {
      f := n;
      var g := FindQuietStart(checks, n);
    } else {
      f := FindFirstFailure(checks, n - 1);
    }
  }

  /** A token the mirror does not hold is accepted on a failed read exactly within the grace period of the
      first failure since the last successful read. */
  lemma AcceptedOnlyWithinGrace(checks: seq<Check>, n: nat) returns (f: nat)
    requires n < |checks| && FailedRead(checks[n])
    ensures f <= n && FirstFailureSince(checks, f, n)
    ensures Refused(ClockBefore(checks, n), checks[n]) <==> checks[n].at - checks[f].at > GRACE
  {
    f := FindFirstFailure(checks, n);
    ClockIsFirstFailure(checks, n, f);
  }

  lemma ClockIsFirstFailure(checks: seq<Check>, n: nat, f: nat)
    requires f <= n < |checks| && FirstFailureSince(checks, f, n)
    ensures f < n ==> ClockBefore(checks, n) == Some(checks[f].at)
    ensures f == n ==> ClockBefore(checks, n) == None
  {
    var g :| 0 <= g <= f && QuietSince(checks, g, f);
    ClockStaysClear(checks, g, f);
    if f < n {
      ClockStaysSet(checks, f, n);
    }
  }

  lemma {:induction false} ClockStaysClear(checks: seq<Check>, g: nat, n: nat)
    requires g <= n <= |checks| && QuietSince(checks, g, n)
    ensures ClockBefore(checks, n) == None
  {
    if g < n {
      ClockStaysClear(checks, g, n - 1);
    }
  }

  lemma {:induction false} ClockStaysSet(checks: seq<Check>, f: nat, n: nat)
    requires f < n <= |checks| && FailedRead(checks[f]) && ClockBefore(checks, f) == None
    requires forall i | f < i < n :: !GoodRead(checks[i])
    ensures ClockBefore(checks, n) == Some(checks[f].at)
  {
    if f + 1 < n {
      ClockStaysSet(checks, f, n - 1);
    }
  }

  function WithoutHits(checks: seq<Check>): seq<Check> {
    if checks == [] then []
    else if checks[|checks| - 1].mirrorHit then WithoutHits(checks[..|checks| - 1])
    else WithoutHits(checks[..|checks| - 1]) + [checks[|checks| - 1]]
  }

  function Clock(checks: seq<Check>): Option<real> { ClockBefore(checks, |checks|) }

  lemma {:induction false} ClockOfPrefix(a: seq<Check>, b: seq<Check>, n: nat)
    requires n <= |a| && n <= |b| && a[..n] == b[..n]
    ensures ClockBefore(a, n) == ClockBefore(b, n)
  {
    if n > 0 {
      assert a[..n - 1] == a[..n][..n - 1] == b[..n - 1];
      assert a[n - 1] == a[..n][n - 1] == b[n - 1];
      ClockOfPrefix(a, b, n - 1);
    }
  }

  /** Mirror hits never move the clock: leaving them out of a sequence changes no later answer. */
  lemma {:induction false} HitsNeverMoveTheClock(checks: seq<Check>)
    ensures Clock(WithoutHits(checks)) == Clock(checks)
  {
    if checks != [] {
      var front := checks[..|checks| - 1];
      HitsNeverMoveTheClock(front);
      ClockOfPrefix(front, checks, |front|);
      if !checks[|checks| - 1].mirrorHit {
        var kept := WithoutHits(front);
        assert (kept + [checks[|checks| - 1]])[..|kept|] == kept[..|kept|];
        ClockOfPrefix(kept, kept + [checks[|checks| - 1]], |kept|);
      }
    }
  }
}
