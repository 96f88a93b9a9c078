/** What every pull keeps and what whole runs of the puller guarantee. */
module FleetRuns {
  import opened FleetPuller

  // ----- the operations of a pull ---------------------------------------------------------------

  predicate IsPolicyOf(rs: Scopes, b: Bundle, k: Key) { exists p | p in b.policies :: !Reserved(rs, p.key) && p.key == k }

  lemma KeysAre(rs: Scopes, b: Bundle, k: Key)
    ensures k in Keys(rs, b) <==> IsPolicyOf(rs, b, k)
  {
  }

  lemma {:induction false} CreatesAre(rs: Scopes, policies: seq<Policy>, i: nat)
    requires i < |Creates(rs, policies)|
    ensures var op := Creates(rs, policies)[i];
            op.Create? && !Reserved(rs, op.key) && exists p | p in policies :: p.key == op.key && p.rego == op.rego
    decreases |policies|
  {
    var init := policies[..|policies| - 1];
    if i < |Creates(rs, init)| {
      CreatesAre(rs, init, i);
    }
  }

  lemma {:induction false} CreatesHas(rs: Scopes, policies: seq<Policy>, p: Policy)
    requires p in policies && !Reserved(rs, p.key)
    ensures Create(p.key, p.rego) in Creates(rs, policies)
    decreases |policies|
  {
    var last := |policies| - 1;
    if policies[last] != p {
      CreatesHas(rs, policies[..last], p);
    }
  }

  lemma {:induction false} ManifestIs(rs: Scopes, policies: seq<Policy>, text: string)
    ensures text in Manifest(rs, policies) <==> exists p | p in policies :: !Reserved(rs, p.key) && Text(p.key) == text
    decreases |policies|
  {
    if policies != [] {
      var init, last := policies[..|policies| - 1], policies[|policies| - 1];
      ManifestIs(rs, init, text);
      assert policies == init + [last];
    }
  }

  lemma {:induction false} DeletesAre(rs: Scopes, prior: seq<string>, kept: seq<string>, i: nat)
    requires i < |Deletes(rs, prior, kept)|
    ensures var op := Deletes(rs, prior, kept)[i];
            op.Delete? && !Reserved(rs, op.key) && exists text | text in prior :: text !in kept && Parse(text) == op.key
    decreases |prior|
  {
    var init := prior[..|prior| - 1];
    if i < |Deletes(rs, init, kept)| {
      DeletesAre(rs, init, kept, i);
    }
  }

  lemma {:induction false} DeletesHas(rs: Scopes, prior: seq<string>, kept: seq<string>, text: string)
    requires text in prior && text !in kept && !Reserved(rs, Parse(text))
    ensures Delete(Parse(text)) in Deletes(rs, prior, kept)
    decreases |prior|
  {
    var last := |prior| - 1;
    if prior[last] != text {
      DeletesHas(rs, prior[..last], kept, text);
    }
  }

  /** Manifest entries are key texts, so they hold a colon. */
  predicate Colons(manifest: seq<string>) { forall text | text in manifest :: ':' in text }

  lemma ManifestHasColons(rs: Scopes, policies: seq<Policy>)
    ensures Colons(Manifest(rs, policies))
  {
    forall text | text in Manifest(rs, policies) ensures ':' in text {
      ManifestIs(rs, policies, text);
      var p :| p in policies && !Reserved(rs, p.key) && Text(p.key) == text;
      assert Text(p.key)[|p.key.ns|] == ':';
    }
  }

  /** A retracted key: in the last manifest, not in the new one, not reserved. */
  predicate Retracted(rs: Scopes, b: Bundle, prior: seq<string>, k: Key) {
    Text(k) in prior && Text(k) !in Manifest(rs, b.policies) && !Reserved(rs, k)
  }

  lemma OpIs(rs: Scopes, b: Bundle, prior: seq<string>, i: nat)
    requires Colons(prior) && i < |Ops(rs, b, prior)|
    ensures var op := Ops(rs, b, prior)[i];
            if op.Create? then op.key in Keys(rs, b) else Retracted(rs, b, prior, op.key)
  {
    var creates := Creates(rs, b.policies);
    if i < |creates| {
      CreatesAre(rs, b.policies, i);
      KeysAre(rs, b, creates[i].key);
    } else {
      DeletesAre(rs, prior, Manifest(rs, b.policies), i - |creates|);
      var text :| text in prior && text !in Manifest(rs, b.policies) && Parse(text) == Ops(rs, b, prior)[i].key;
      TextOfParse(text);
    }
  }

  lemma NotRetracted(rs: Scopes, b: Bundle, prior: seq<string>, k: Key)
    requires k in Keys(rs, b)
    ensures !Retracted(rs, b, prior, k)
  {
    KeysAre(rs, b, k);
    ManifestIs(rs, b.policies, Text(k));
  }

  // ----- every intermediate step of an apply ----------------------------------------------------

  lemma {:induction false} KeptUnlessDeleted(store: Store, ops: seq<Op>, k: Key)
    requires k in store && Delete(k) !in ops
    ensures k in After(store, ops)
    decreases |ops|
  {
    if ops != [] {
      KeptUnlessDeleted(store, ops[..|ops| - 1], k);
    }
  }

  lemma {:induction false} SameUnlessNamed(store: Store, ops: seq<Op>, k: Key)
    requires forall i | 0 <= i < |ops| :: ops[i].key != k
    ensures k in After(store, ops) <==> k in store
    ensures k in store ==> After(store, ops)[k] == store[k]
    decreases |ops|
  {
    if ops != [] {
      SameUnlessNamed(store, ops[..|ops| - 1], k);
    }
  }

  /** A policy of the new bundle that was there before is there at every step. */
  lemma NoGap(rs: Scopes, store: Store, b: Bundle, prior: seq<string>, n: nat, k: Key)
    requires Colons(prior) && n <= |Ops(rs, b, prior)| && k in store && k in Keys(rs, b)
    ensures k in After(store, Ops(rs, b, prior)[..n])
  {
    var ops := Ops(rs, b, prior);
    if i :| 0 <= i < n && ops[i] == Delete(k) {
      OpIs(rs, b, prior, i);
      NotRetracted(rs, b, prior, k);
    }
    KeptUnlessDeleted(store, ops[..n], k);
  }

  /** Only retracted keys are ever removed. */
  lemma OnlyRetractedAreRemoved(rs: Scopes, store: Store, b: Bundle, prior: seq<string>, n: nat, k: Key)
    requires Colons(prior) && n <= |Ops(rs, b, prior)| && k in store && k !in After(store, Ops(rs, b, prior)[..n])
    ensures Retracted(rs, b, prior, k)
  {
    var ops := Ops(rs, b, prior);
    if Delete(k) !in ops[..n] {
      KeptUnlessDeleted(store, ops[..n], k);
    }
    var i :| 0 <= i < n && ops[..n][i] == Delete(k);
    OpIs(rs, b, prior, i);
  }

  /** Reserved scopes are neither written nor deleted, however the apply ends. */
  lemma ReservedIsUntouched(rs: Scopes, store: Store, b: Bundle, prior: seq<string>, n: nat, k: Key)
    requires Colons(prior) && n <= |Ops(rs, b, prior)| && Reserved(rs, k)
    ensures var after := After(store, Ops(rs, b, prior)[..n]);
            (k in after <==> k in store) && (k in store ==> after[k] == store[k])
  {
    var ops := Ops(rs, b, prior)[..n];
    forall i | 0 <= i < |ops| ensures ops[i].key != k {
      OpIs(rs, b, prior, i);
      KeysAre(rs, b, ops[i].key);
    }
    SameUnlessNamed(store, ops, k);
  }

  /** The cluster's own scopes in particular. */
  lemma ClusterScopesAreUntouched(store: Store, b: Bundle, prior: seq<string>, n: nat, k: Key)
    requires Colons(prior) && n <= |Ops(RESERVED, b, prior)| && k.ac in RESERVED
    ensures var after := After(store, Ops(RESERVED, b, prior)[..n]);
            (k in after <==> k in store) && (k in store ==> after[k] == store[k])
  {
    ReservedIsUntouched(RESERVED, store, b, prior, n, k);
  }

  /** The rego a bundle gives a key: its last policy for it. */
  function RegoOf(policies: seq<Policy>, k: Key): string {
    if policies == [] then ""
    else if policies[|policies| - 1].key == k then policies[|policies| - 1].rego
    else RegoOf(policies[..|policies| - 1], k)
  }

  lemma {:induction false} CreatedRego(rs: Scopes, store: Store, policies: seq<Policy>, k: Key)
    requires !Reserved(rs, k) && exists p | p in policies :: p.key == k
    ensures k in After(store, Creates(rs, policies)) && After(store, Creates(rs, policies))[k] == RegoOf(policies, k)
    decreases |policies|
  {
    var init, last := policies[..|policies| - 1], policies[|policies| - 1];
    CreatesLast(rs, store, policies);
    if last.key != k {
      var p :| p in policies && p.key == k;
      assert p in init;
      CreatedRego(rs, store, init, k);
    }
  }

  lemma CreatesLast(rs: Scopes, store: Store, policies: seq<Policy>)
    requires policies != []
    ensures var init, last := policies[..|policies| - 1], policies[|policies| - 1];
            var before := After(store, Creates(rs, init));
            After(store, Creates(rs, policies)) == if Reserved(rs, last.key) then before else before[last.key := last.rego]
  {
    var init, last, ops := policies[..|policies| - 1], policies[|policies| - 1], Creates(rs, policies);
    if Reserved(rs, last.key) {
      assert ops == Creates(rs, init);
    } else {
      assert ops[..|ops| - 1] == Creates(rs, init);
    }
  }

  lemma DeletesSpare(rs: Scopes, b: Bundle, prior: seq<string>, k: Key, i: nat)
    requires Colons(prior) && k in Keys(rs, b) && i < |Deletes(rs, prior, Manifest(rs, b.policies))|
    ensures Deletes(rs, prior, Manifest(rs, b.policies))[i].key != k
  {
    var kept := Manifest(rs, b.policies);
    DeletesAre(rs, prior, kept, i);
    var text :| text in prior && text !in kept && Parse(text) == Deletes(rs, prior, kept)[i].key;
    TextOfParse(text);
    KeysAre(rs, b, k);
    ManifestIs(rs, b.policies, Text(k));
  }

  /** After a whole apply every policy of the bundle is in force with its own rego. */
  lemma WholeApplyInstalls(rs: Scopes, store: Store, b: Bundle, prior: seq<string>, k: Key)
    requires Colons(prior) && k in Keys(rs, b)
    ensures var after := After(store, Ops(rs, b, prior)); k in after && after[k] == RegoOf(b.policies, k)
  {
    var creates, deletes := Creates(rs, b.policies), Deletes(rs, prior, Manifest(rs, b.policies));
    KeysAre(rs, b, k);
    CreatedRego(rs, store, b.policies, k);
    forall i | 0 <= i < |deletes| ensures deletes[i].key != k {
      DeletesSpare(rs, b, prior, k, i);
    }
    AfterConcat(store, creates, deletes);
    SameUnlessNamed(After(store, creates), deletes, k);
  }

  // ----- ownership ------------------------------------------------------------------------------

  /** The keys written and not deleted since. */
  function Owned(owned: set<Key>, ops: seq<Op>): set<Key> {
    if ops == [] then owned else
      var before, op := Owned(owned, ops[..|ops| - 1]), ops[|ops| - 1];
      if op.Create? then before + {op.key} else before - {op.key}
  }

  lemma {:induction false} OwnedFrom(owned: set<Key>, ops: seq<Op>, k: Key)
    requires k in Owned(owned, ops) && k !in owned
    ensures exists i | 0 <= i < |ops| :: ops[i].Create? && ops[i].key == k
    decreases |ops|
  {
    if ops != [] && !(ops[|ops| - 1].Create? && ops[|ops| - 1].key == k) {
      OwnedFrom(owned, ops[..|ops| - 1], k);
    }
  }

  lemma {:induction false} OwnedStays(owned: set<Key>, ops: seq<Op>, k: Key)
    requires Delete(k) !in ops && (k in owned || exists i | 0 <= i < |ops| :: ops[i].Create? && ops[i].key == k)
    ensures k in Owned(owned, ops)
    decreases |ops|
  {
    if ops != [] && !(ops[|ops| - 1].Create? && ops[|ops| - 1].key == k) {
      OwnedStays(owned, ops[..|ops| - 1], k);
    }
  }

  lemma {:induction false} OwnedGoes(owned: set<Key>, ops: seq<Op>, k: Key)
    requires Delete(k) in ops && forall i | 0 <= i < |ops| :: ops[i].key == k ==> ops[i].Delete?
    ensures k !in Owned(owned, ops)
    decreases |ops|
  {
    if ops[|ops| - 1].key != k {
      OwnedGoes(owned, ops[..|ops| - 1], k);
    }
  }

  // ----- runs -----------------------------------------------------------------------------------

  /** The store, the persisted row, the keys owned, and the keys of the latest attempted bundle. */
  datatype Sys = Sys(store: Store, version: int, manifest: seq<string>, owned: set<Key>, attempted: set<Key>)

  /** A pull that applies `done` operations and may then persist; or anyone else's writes to the store. */
  datatype Step = Attempt(b: Bundle, done: nat, persists: bool) | Elsewhere(store: Store)

  predicate Enabled(rs: Scopes, s: Sys, step: Step) {
    step.Attempt? ==>
      && step.b.version > s.version
      && step.done <= |Ops(rs, step.b, s.manifest)|
      && (step.persists ==> step.done == |Ops(rs, step.b, s.manifest)|)
  }

  function Next(rs: Scopes, s: Sys, step: Step): Sys
    requires Enabled(rs, s, step)
  {
    match step
    case Elsewhere(store) => s.(store := store)
    case Attempt(b, done, persists) =>
      var ops := Ops(rs, b, s.manifest)[..done];
      Sys(After(s.store, ops), if persists then b.version else s.version,
          if persists then Manifest(rs, b.policies) else s.manifest, Owned(s.owned, ops), Keys(rs, b))
  }

  predicate Sound(rs: Scopes, s: Sys) { Colons(s.manifest) && forall k | k in s.owned :: !Reserved(rs, k) }

  /** Every key the puller owns is in the manifest or in the bundle it last attempted. */
  predicate Tracked(s: Sys) { forall k | k in s.owned :: Text(k) in s.manifest || k in s.attempted }

  /** The text of the key names the key back. */
  predicate Plain(k: Key) { ':' !in k.ns }

  /** A pull that persists takes the key away: it is listed, retracted, and the delete finds it by its text. */
  predicate Retractable(rs: Scopes, s: Sys, b: Bundle, k: Key) {
    Text(k) in s.manifest && Text(k) !in Manifest(rs, b.policies) && Plain(k)
  }

  /** What a bundle must do for the keys owned before the attempt: a success must list each of them or be able to
      take it away, a failure must hold each of them that no manifest lists. */
  predicate Carries(rs: Scopes, s: Sys, b: Bundle, persists: bool) {
    forall k | k in s.owned ::
      if persists then Text(k) in Manifest(rs, b.policies) || Retractable(rs, s, b, k)
      else Text(k) in s.manifest || k in Keys(rs, b)
  }

  lemma StepSound(rs: Scopes, s: Sys, step: Step)
    requires Sound(rs, s) && Enabled(rs, s, step)
    ensures Sound(rs, Next(rs, s, step))
  {
    if step.Attempt? {
      var ops := Ops(rs, step.b, s.manifest)[..step.done];
      ManifestHasColons(rs, step.b.policies);
      forall k | k in Owned(s.owned, ops) ensures !Reserved(rs, k) {
        if k !in s.owned {
          OwnedIsCreated(rs, s, step.b, step.done, k);
          KeysAre(rs, step.b, k);
        }
      }
    }
  }

  /** A newly owned key is the bundle's. */
  lemma OwnedIsCreated(rs: Scopes, s: Sys, b: Bundle, done: nat, k: Key)
    requires Colons(s.manifest) && done <= |Ops(rs, b, s.manifest)|
    requires k !in s.owned && k in Owned(s.owned, Ops(rs, b, s.manifest)[..done])
    ensures k in Keys(rs, b)
  {
    var ops := Ops(rs, b, s.manifest)[..done];
    OwnedFrom(s.owned, ops, k);
    var i :| 0 <= i < |ops| && ops[i].Create? && ops[i].key == k;
    OpIs(rs, b, s.manifest, i);
  }

  /** A listed key of a bundle is in its manifest. */
  lemma KeyIsListed(rs: Scopes, b: Bundle, k: Key)
    requires k in Keys(rs, b)
    ensures Text(k) in Manifest(rs, b.policies)
  {
    KeysAre(rs, b, k);
    ManifestIs(rs, b.policies, Text(k));
  }

  /** The key a text with a colon names has no colon in its namespace. */
  lemma ParsedIsPlain(text: string)
    requires ':' in text
    ensures Plain(Parse(text)) && Text(Parse(text)) == text
  {
    TextOfParse(text);
  }

  /** The manifest entry behind a delete. */
  lemma DeletedText(rs: Scopes, b: Bundle, prior: seq<string>, k: Key, i: nat) returns (text: string)
    requires i < |Ops(rs, b, prior)| && Ops(rs, b, prior)[i] == Delete(k)
    ensures text in prior && text !in Manifest(rs, b.policies) && Parse(text) == k
  {
    var kept, n := Manifest(rs, b.policies), |Creates(rs, b.policies)|;
    if i < n {
      CreatesAre(rs, b.policies, i);
      assert false;
    } else {
      DeletesAre(rs, prior, kept, i - n);
      text :| text in prior && text !in kept && Parse(text) == k;
    }
  }

  lemma DeletedIsRetractable(rs: Scopes, s: Sys, b: Bundle, k: Key)
    requires Colons(s.manifest) && Delete(k) in Ops(rs, b, s.manifest)
    ensures Retractable(rs, s, b, k)
  {
    var i :| 0 <= i < |Ops(rs, b, s.manifest)| && Ops(rs, b, s.manifest)[i] == Delete(k);
    var text := DeletedText(rs, b, s.manifest, k, i);
    ParsedIsPlain(text);
  }

  /** An owned key that cannot be retracted outlives the attempt. */
  lemma AbandonedStays(rs: Scopes, s: Sys, step: Step, k: Key)
    requires Sound(rs, s) && Enabled(rs, s, step) && step.Attempt?
    requires k in s.owned && !Retractable(rs, s, step.b, k)
    ensures k in Next(rs, s, step).owned
  {
    var all := Ops(rs, step.b, s.manifest);
    if Delete(k) in all[..step.done] {
      assert Delete(k) in all;
      DeletedIsRetractable(rs, s, step.b, k);
      assert false;
    }
    OwnedStays(s.owned, all[..step.done], k);
  }

  lemma RetractableGoes(rs: Scopes, s: Sys, b: Bundle, k: Key)
    requires Sound(rs, s) && k in s.owned && Retractable(rs, s, b, k)
    ensures k !in Owned(s.owned, Ops(rs, b, s.manifest))
  {
    var ops := Ops(rs, b, s.manifest);
    ParseIffNoColon(k);
    DeletesHas(rs, s.manifest, Manifest(rs, b.policies), Text(k));
    forall i | 0 <= i < |ops| && ops[i].key == k ensures ops[i].Delete? {
      OpIs(rs, b, s.manifest, i);
      if ops[i].Create? {
        KeyIsListed(rs, b, k);
        assert false;
      }
    }
    OwnedGoes(s.owned, ops, k);
  }

  /** What becomes of a key owned before a pull that persists. */
  lemma PersistedOwns(rs: Scopes, s: Sys, step: Step, k: Key)
    requires Sound(rs, s) && Enabled(rs, s, step) && step.Attempt? && step.persists
    ensures k in Next(rs, s, step).owned <==> k in Keys(rs, step.b) || (k in s.owned && !Retractable(rs, s, step.b, k))
  {
    var ops := Ops(rs, step.b, s.manifest);
    assert ops[..step.done] == ops;
    if k in Keys(rs, step.b) {
      BundleIsOwned(rs, s, step.b, k);
    } else if k !in s.owned {
      if k in Owned(s.owned, ops) {
        OwnedIsCreated(rs, s, step.b, step.done, k);
      }
    } else if Retractable(rs, s, step.b, k) {
      RetractableGoes(rs, s, step.b, k);
    } else {
      AbandonedStays(rs, s, step, k);
    }
  }

  lemma PersistedTrackedIff(rs: Scopes, s: Sys, step: Step)
    requires Sound(rs, s) && Enabled(rs, s, step) && step.Attempt? && step.persists
    ensures Tracked(Next(rs, s, step)) <==> Carries(rs, s, step.b, true)
  {
    var next := Next(rs, s, step);
    forall k ensures k in next.owned <==> k in Keys(rs, step.b) || (k in s.owned && !Retractable(rs, s, step.b, k)) {
      PersistedOwns(rs, s, step, k);
    }
    forall k | k in Keys(rs, step.b) ensures Text(k) in Manifest(rs, step.b.policies) {
      KeyIsListed(rs, step.b, k);
    }
  }

  lemma FailedTrackedIff(rs: Scopes, s: Sys, step: Step)
    requires Sound(rs, s) && Enabled(rs, s, step) && step.Attempt? && !step.persists
    ensures Tracked(Next(rs, s, step)) <==> Carries(rs, s, step.b, false)
  {
    var next := Next(rs, s, step);
    forall k | k in next.owned && k !in s.owned ensures k in Keys(rs, step.b) {
      OwnedIsCreated(rs, s, step.b, step.done, k);
    }
    forall k | k in s.owned && Text(k) !in s.manifest ensures k in next.owned {
      AbandonedStays(rs, s, step, k);
    }
  }

  /** For any bundle: after an attempt everything owned is tracked exactly when the bundle carried what was owned
      before it. */
  lemma TrackedIff(rs: Scopes, s: Sys, step: Step)
    requires Sound(rs, s) && Enabled(rs, s, step) && step.Attempt?
    ensures Tracked(Next(rs, s, step)) <==> Carries(rs, s, step.b, step.persists)
  {
    if step.persists {
      PersistedTrackedIff(rs, s, step);
    } else {
      FailedTrackedIff(rs, s, step);
    }
  }

  /** After a success the owned keys are the bundle's, exactly when every other key owned before could be taken
      away. */
  lemma SuccessOwnsExactlyIff(rs: Scopes, s: Sys, step: Step)
    requires Sound(rs, s) && Enabled(rs, s, step) && step.Attempt? && step.persists
    ensures Next(rs, s, step).owned == Keys(rs, step.b) <==>
            forall k | k in s.owned :: k in Keys(rs, step.b) || Retractable(rs, s, step.b, k)
  {
    var next := Next(rs, s, step);
    forall k ensures k in next.owned <==> k in Keys(rs, step.b) || (k in s.owned && !Retractable(rs, s, step.b, k)) {
      PersistedOwns(rs, s, step, k);
    }
  }

  // ----- namespaces without a colon -------------------------------------------------------------

  predicate PlainBundle(b: Bundle) { forall p | p in b.policies :: Plain(p.key) }

  lemma ListedIsKey(rs: Scopes, b: Bundle, k: Key)
    requires PlainBundle(b) && Plain(k)
    ensures Text(k) in Manifest(rs, b.policies) <==> k in Keys(rs, b)
  {
    ManifestIs(rs, b.policies, Text(k));
    KeysAre(rs, b, k);
    if p :| p in b.policies && !Reserved(rs, p.key) && Text(p.key) == Text(k) {
      ParseIffNoColon(p.key);
      ParseIffNoColon(k);
    }
  }

  /** With no colon in any namespace both conditions say one thing, whether the attempt succeeds or not: the bundle
      holds every owned key that no manifest lists, as an abandoned attempt leaves them. */
  lemma PlainCarries(rs: Scopes, s: Sys, b: Bundle, persists: bool)
    requires PlainBundle(b) && forall k | k in s.owned :: Plain(k)
    ensures Carries(rs, s, b, persists) <==> forall k | k in s.owned && Text(k) !in s.manifest :: k in Keys(rs, b)
    ensures (forall k | k in s.owned :: k in Keys(rs, b) || Retractable(rs, s, b, k)) <==> Carries(rs, s, b, true)
  {
    forall k | k in s.owned ensures Text(k) in Manifest(rs, b.policies) <==> k in Keys(rs, b) {
      ListedIsKey(rs, b, k);
    }
  }

  /** A namespace with a colon is enough to lose a key: once owned it outlives every bundle. */
  lemma ColonKeyStays(rs: Scopes, s: Sys, step: Step, k: Key)
    requires Sound(rs, s) && Enabled(rs, s, step) && step.Attempt? && k in s.owned && ':' in k.ns
    ensures k in Next(rs, s, step).owned
  {
    AbandonedStays(rs, s, step, k);
  }

  // ----- whole runs -----------------------------------------------------------------------------

  lemma BundleIsOwned(rs: Scopes, s: Sys, b: Bundle, k: Key)
    requires Colons(s.manifest) && k in Keys(rs, b)
    ensures k in Owned(s.owned, Ops(rs, b, s.manifest))
  {
    var ops := Ops(rs, b, s.manifest);
    KeysAre(rs, b, k);
    var p :| p in b.policies && !Reserved(rs, p.key) && p.key == k;
    CreatesHas(rs, b.policies, p);
    assert Create(p.key, p.rego) in ops;
    var i :| 0 <= i < |ops| && ops[i] == Create(p.key, p.rego);
    if Delete(k) in ops {
      var j :| 0 <= j < |ops| && ops[j] == Delete(k);
      OpIs(rs, b, s.manifest, j);
      NotRetracted(rs, b, s.manifest, k);
    }
    OwnedStays(s.owned, ops, k);
  }

  predicate IsRun(rs: Scopes, states: seq<Sys>, steps: seq<Step>) {
    && |states| == |steps| + 1
    && states[0].version == 0 && states[0].manifest == [] && states[0].owned == {}
    && forall i {:trigger steps[i]} | 0 <= i < |steps| ::
         Enabled(rs, states[i], steps[i]) && states[i + 1] == Next(rs, states[i], steps[i])
  }

  lemma {:induction false} RunSound(rs: Scopes, states: seq<Sys>, steps: seq<Step>, n: nat)
    requires IsRun(rs, states, steps) && n < |states|
    ensures Sound(rs, states[n])
    decreases n
  {
    if n > 0 {
      RunSound(rs, states, steps, n - 1);
      StepSound(rs, states[n - 1], steps[n - 1]);
    }
  }

  /** Every attempt carries what was owned before it. */
  predicate AlwaysCarries(rs: Scopes, states: seq<Sys>, steps: seq<Step>)
    requires |states| == |steps| + 1
  {
    forall i {:trigger steps[i]} | 0 <= i < |steps| && steps[i].Attempt? :: Carries(rs, states[i], steps[i].b, steps[i].persists)
  }

  /** Over every run with any bundles: everything owned is always tracked exactly when every attempt carries what
      earlier attempts left. */
  lemma RunTrackedIff(rs: Scopes, states: seq<Sys>, steps: seq<Step>)
    requires IsRun(rs, states, steps)
    ensures (forall n | 0 <= n < |states| :: Tracked(states[n])) <==> AlwaysCarries(rs, states, steps)
  {
    if forall n | 0 <= n < |states| :: Tracked(states[n]) {
      forall i | 0 <= i < |steps| && steps[i].Attempt? ensures Carries(rs, states[i], steps[i].b, steps[i].persists) {
        RunSound(rs, states, steps, i);
        TrackedIff(rs, states[i], steps[i]);
        assert Tracked(states[i + 1]);
      }
    }
    if AlwaysCarries(rs, states, steps) {
      forall n | 0 <= n < |states| ensures Tracked(states[n]) {
        CarryingRunTracked(rs, states, steps, n);
      }
    }
  }

  lemma {:induction false} CarryingRunTracked(rs: Scopes, states: seq<Sys>, steps: seq<Step>, n: nat)
    requires IsRun(rs, states, steps) && AlwaysCarries(rs, states, steps) && n < |states|
    ensures Tracked(states[n])
    decreases n
  {
    if n > 0 {
      CarryingRunTracked(rs, states, steps, n - 1);
      RunSound(rs, states, steps, n - 1);
      if steps[n - 1].Attempt? {
        TrackedIff(rs, states[n - 1], steps[n - 1]);
      }
    }
  }

  /** Persisted versions never fall, and every persisted pull raises them. */
  lemma {:induction false} VersionsRise(rs: Scopes, states: seq<Sys>, steps: seq<Step>, i: nat, j: nat)
    requires IsRun(rs, states, steps) && i < j < |states|
    ensures states[i].version <= states[j].version
    ensures (exists k | i <= k < j :: steps[k].Attempt? && steps[k].persists) ==> states[i].version < states[j].version
    decreases j - i
  {
    assert Enabled(rs, states[j - 1], steps[j - 1]) && states[j] == Next(rs, states[j - 1], steps[j - 1]);
    if i < j - 1 {
      VersionsRise(rs, states, steps, i, j - 1);
    }
  }

  /** It is not enough that the next bundle carries what the failed attempt wrote: an attempt that fails before
      its first write hides what the one before it left. */
  lemma OneBundleIsNotEnough(rs: Scopes, s: Sys, step: Step, step': Step, k: Key)
    requires Sound(rs, s) && step.Attempt? && Enabled(rs, s, step) && step.done == 0 && !step.persists
    requires k in s.owned && Text(k) !in s.manifest && k in Keys(rs, step.b)
    requires step'.Attempt? && Enabled(rs, Next(rs, s, step), step') && Text(k) !in Manifest(rs, step'.b.policies)
    ensures Next(rs, s, step).owned == s.owned && !Tracked(Next(rs, Next(rs, s, step), step'))
  {
    StepSound(rs, s, step);
    TrackedIff(rs, Next(rs, s, step), step');
    if k in Keys(rs, step'.b) {
      KeyIsListed(rs, step'.b, k);
      assert false;
    }
  }
}
