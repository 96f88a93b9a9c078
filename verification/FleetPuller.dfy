/** The spoke's bundle puller (norviq/fleet_puller.py): a versioned apply-and-reconcile machine that can fail
    between any two operations. */
module FleetPuller {
  import opened Outcomes
  import opened Strings

  // ----- keys and their text --------------------------------------------------------------------

  datatype Key = Key(ns: string, ac: string)

  /** The scopes a bundle may never carry. Everything below holds for any set of them. */
  type Scopes = set<string>

  const RESERVED: Scopes :=
    {"__baseline__", "__pack__", "__pack_override__", "__pack_weaken__", "__controls__", "__egress__", "__mcp__"}

  predicate Reserved(rs: Scopes, k: Key) { k.ac in rs }

  function Text(k: Key): string { k.ns + ":" + k.ac }

  /** Partition at the first colon. */
  function Parse(text: string): Key {
    var ns := Before(text, ':');
    Key(ns, if |ns| < |text| then text[|ns| + 1..] else "")
  }

  /** A key's text names the key back exactly when its namespace holds no colon. */
  lemma ParseIffNoColon(k: Key)
    ensures Parse(Text(k)) == k <==> ':' !in k.ns
  {
    if ':' !in k.ns {
      BeforeIs(k.ns, ':', k.ac);
      assert Text(k)[|k.ns| + 1..] == k.ac;
    }
  }

  /** A text with a colon is the text of the key it names. */
  lemma TextOfParse(text: string)
    requires ':' in text
    ensures Text(Parse(text)) == text
  {
    var ns := Before(text, ':');
    BeforeStops(text, ':');
    assert text == text[..|ns|] + [text[|ns|]] + text[|ns| + 1..];
  }

  // ----- one apply ------------------------------------------------------------------------------

  datatype Policy = Policy(key: Key, rego: string)

  datatype Bundle = Bundle(version: int, policies: seq<Policy>)

  datatype Op = Create(key: Key, rego: string) | Delete(key: Key)

  type Store = map<Key, string>

  function Creates(rs: Scopes, policies: seq<Policy>): seq<Op> {
    if policies == [] then [] else
      var p := policies[|policies| - 1];
      Creates(rs, policies[..|policies| - 1]) + if Reserved(rs, p.key) then [] else [Create(p.key, p.rego)]
  }

  function Manifest(rs: Scopes, policies: seq<Policy>): seq<string> {
    if policies == [] then [] else
      var p := policies[|policies| - 1];
      Manifest(rs, policies[..|policies| - 1]) + if Reserved(rs, p.key) then [] else [Text(p.key)]
  }

  function Deletes(rs: Scopes, prior: seq<string>, kept: seq<string>): seq<Op> {
    if prior == [] then [] else
      Deletes(rs, prior[..|prior| - 1], kept) + Retraction(rs, prior[|prior| - 1], kept)
  }

  function Retraction(rs: Scopes, text: string, kept: seq<string>): seq<Op> {
    if text in kept || Reserved(rs, Parse(text)) then [] else [Delete(Parse(text))]
  }

  function CreateOps(policies: seq<Policy>): seq<Op> {
    seq(|policies|, i requires 0 <= i < |policies| => Create(policies[i].key, policies[i].rego))
  }

  function DeleteOps(texts: seq<string>): seq<Op> {
    seq(|texts|, i requires 0 <= i < |texts| => Delete(Parse(texts[i])))
  }

  /** Everything a pull does to the policy store, in order. */
  function Ops(rs: Scopes, b: Bundle, prior: seq<string>): seq<Op> {
    Creates(rs, b.policies) + Deletes(rs, prior, Manifest(rs, b.policies))
  }

  function Effect(store: Store, op: Op): Store {
    match op case Create(k, rego) => store[k := rego] case Delete(k) => store - {k}
  }

  function After(store: Store, ops: seq<Op>): Store {
    if ops == [] then store else Effect(After(store, ops[..|ops| - 1]), ops[|ops| - 1])
  }

  /** The keys a bundle writes. */
  function Keys(rs: Scopes, b: Bundle): set<Key> { set p | p in b.policies && !Reserved(rs, p.key) :: p.key }

  /** The number of operations of a pull that take effect. */
  function Performed(limit: Option<nat>, ops: seq<Op>): nat {
    if limit.Some? && limit.value < |ops| then limit.value else |ops|
  }

  /** The store after the operations of a pull that take effect. */
  predicate Pulled(rs: Scopes, b: Bundle, prior: seq<string>, limit: Option<nat>, was: Store, now: Store) {
    var ops := Ops(rs, b, prior); now == After(was, ops[..Performed(limit, ops)])
  }

  predicate Whole(rs: Scopes, b: Bundle, prior: seq<string>, limit: Option<nat>) {
    var ops := Ops(rs, b, prior); Performed(limit, ops) == |ops|
  }

  // ----- the puller -----------------------------------------------------------------------------

  class Puller {
    var store: Store
    var version: int
    var manifest: seq<string>
    const rs: Scopes

    constructor (store: Store, rs: Scopes)
      ensures this.store == store && version == 0 && manifest == [] && this.rs == rs
    {
      this.store, version, manifest, this.rs := store, 0, [], rs;
    }

    /** `admissible` is the outcome of the signature, cluster and time checks; `limit` is the number of store
        operations that take effect before one raises; `persists` is whether the row can be written. */
    method PullOnce(b: Bundle, admissible: bool, limit: Option<nat>, persists: bool) returns (applied: bool)
      modifies this
      ensures !admissible || b.version <= old(version) ==> !applied && store == old(store)
      ensures admissible && b.version > old(version) ==>
                && Pulled(rs, b, old(manifest), limit, old(store), store)
                && applied == (Whole(rs, b, old(manifest), limit) && persists)
      ensures version == (if applied then b.version else old(version))
      ensures manifest == (if applied then Manifest(rs, b.policies) else old(manifest))
    {
      if !admissible || b.version <= version {
        return false;
      }
      var whole := Apply(b, limit);
      if !whole {
        return false;
      }
      if persists {
        version, manifest := b.version, Manifest(rs, b.policies);
      }
      applied := persists;
    }

    /** The store half: the writes, then the deletes. */
    method Apply(b: Bundle, limit: Option<nat>) returns (whole: bool)
      modifies this`store
      ensures Pulled(rs, b, manifest, limit, old(store), store)
      ensures whole == Whole(rs, b, manifest, limit)
    {
      var policies := Unreserved(rs, b.policies);
      var done := CreateAll(policies, limit);
      if done < |policies| {
        StoppedWriting(rs, b, manifest, limit, old(store), store, CreateOps(policies));
        return false;
      }
      ghost var written := store;
      var dropped := Dropped(rs, manifest, Manifest(rs, policies));
      var rest := if limit.Some? then Some(limit.value - done) else None;
      var gone := DeleteAll(dropped, rest);
      WroteAll(rs, b, manifest, limit, old(store), written, store, CreateOps(policies), DeleteOps(dropped), gone);
      whole := gone == |dropped|;
    }

    /** The writes, until one raises; the number that took effect. */
    method CreateAll(policies: seq<Policy>, limit: Option<nat>) returns (done: nat)
      modifies this`store
      ensures done == if limit.Some? && limit.value < |policies| then limit.value else |policies|
      ensures store == After(old(store), CreateOps(policies)[..done])
    {
      ghost var ops := CreateOps(policies);
      done := 0;
      for i := 0 to |policies|
        invariant done == i && (limit.Some? ==> done <= limit.value)
        invariant store == After(old(store), ops[..done])
      {
        if limit.Some? && done == limit.value {
          return;
        }
        AfterNext(old(store), ops, done);
        store := store[policies[i].key := policies[i].rego];
        done := done + 1;
      }
    }

    /** The deletes, until one raises; the number that took effect. */
    method DeleteAll(dropped: seq<string>, limit: Option<nat>) returns (done: nat)
      modifies this`store
      ensures done == if limit.Some? && limit.value < |dropped| then limit.value else |dropped|
      ensures store == After(old(store), DeleteOps(dropped)[..done])
    {
      ghost var ops := DeleteOps(dropped);
      done := 0;
      for i := 0 to |dropped|
        invariant done == i && (limit.Some? ==> done <= limit.value)
        invariant store == After(old(store), ops[..done])
      {
        if limit.Some? && done == limit.value {
          return;
        }
        AfterNext(old(store), ops, done);
        store := store - {Parse(dropped[i])};
        done := done + 1;
      }
    }
  }

  lemma {:induction false} AfterConcat(store: Store, a: seq<Op>, b: seq<Op>)
    ensures After(store, a + b) == After(After(store, a), b)
    decreases |b|
  {
    if b == [] {
      assert a + b == a;
    } else {
      assert (a + b)[..|a + b| - 1] == a + b[..|b| - 1];
      AfterConcat(store, a, b[..|b| - 1]);
    }
  }

  lemma FirstOps(a: seq<Op>, b: seq<Op>, n: nat)
    requires n <= |a|
    ensures (a + b)[..n] == a[..n]
  {
  }

  lemma TwoHalves(store: Store, a: seq<Op>, b: seq<Op>, n: nat)
    requires n <= |b|
    ensures After(store, (a + b)[..|a| + n]) == After(After(store, a), b[..n])
  {
    AfterConcat(store, a, b[..n]);
    assert (a + b)[..|a| + n] == a + b[..n];
  }

  lemma StoppedWriting(rs: Scopes, b: Bundle, prior: seq<string>, limit: Option<nat>, was: Store, now: Store, c: seq<Op>)
    requires c == Creates(rs, b.policies) && limit.Some? && limit.value < |c| && now == After(was, c[..limit.value])
    ensures Pulled(rs, b, prior, limit, was, now) && !Whole(rs, b, prior, limit)
  {
    FirstOps(c, Deletes(rs, prior, Manifest(rs, b.policies)), limit.value);
  }

  lemma WroteAll(rs: Scopes, b: Bundle, prior: seq<string>, limit: Option<nat>, was: Store, written: Store, now: Store,
                 c: seq<Op>, d: seq<Op>, gone: nat)
    requires c == Creates(rs, b.policies) && d == Deletes(rs, prior, Manifest(rs, b.policies))
    requires gone <= |d| && written == After(was, c[..|c|]) && now == After(written, d[..gone])
    requires Performed(limit, c + d) == |c| + gone
    ensures Pulled(rs, b, prior, limit, was, now) && (Whole(rs, b, prior, limit) <==> gone == |d|)
  {
    BothHalves(was, c, d, gone, written, now);
    assert Ops(rs, b, prior) == c + d;
  }

  lemma BothHalves(was: Store, c: seq<Op>, d: seq<Op>, n: nat, written: Store, now: Store)
    requires n <= |d| && written == After(was, c[..|c|]) && now == After(written, d[..n])
    ensures now == After(was, (c + d)[..|c| + n])
  {
    assert c[..|c|] == c;
    TwoHalves(was, c, d, n);
  }

  lemma AfterNext(store: Store, ops: seq<Op>, n: nat)
    requires n < |ops|
    ensures After(store, ops[..n + 1]) == Effect(After(store, ops[..n]), ops[n])
  {
    assert ops[..n + 1][..n] == ops[..n];
  }

  /** The loop that skips reserved scopes. */
  method Unreserved(rs: Scopes, policies: seq<Policy>) returns (r: seq<Policy>)
    ensures CreateOps(r) == Creates(rs, policies) && Manifest(rs, r) == Manifest(rs, policies)
  {
    r := [];
    for i := 0 to |policies|
      invariant CreateOps(r) == Creates(rs, policies[..i]) && Manifest(rs, r) == Manifest(rs, policies[..i])
    {
      assert policies[..i + 1][..i] == policies[..i];
      if !Reserved(rs, policies[i].key) {
        var next := r + [policies[i]];
        assert next[..|r|] == r;
        r := next;
      }
    }
    assert policies[..|policies|] == policies;
  }

  lemma DeletesNext(rs: Scopes, prior: seq<string>, kept: seq<string>, i: nat)
    requires i < |prior|
    ensures Deletes(rs, prior[..i + 1], kept) == Deletes(rs, prior[..i], kept) + Retraction(rs, prior[i], kept)
  {
    assert prior[..i + 1][..i] == prior[..i];
  }

  /** The keys to retract, as texts. */
  method Dropped(rs: Scopes, prior: seq<string>, kept: seq<string>) returns (r: seq<string>)
    ensures DeleteOps(r) == Deletes(rs, prior, kept)
  {
    r := [];
    for i := 0 to |prior|
      invariant DeleteOps(r) == Deletes(rs, prior[..i], kept)
    {
      DeletesNext(rs, prior, kept, i);
      if prior[i] !in kept && !Reserved(rs, Parse(prior[i])) {
        r := r + [prior[i]];
      }
    }
    assert prior[..|prior|] == prior;
  }
}
