/**
  What every run of the revocation protocol keeps: no revocation a process holds is lost by the
  stores, an incremental pull loads what a full reload would, a held key is refused until it expires,
  and the queue comes back into Redis after a wipe.
 */
module RevocationSafety {
  import opened Outcomes
  import opened Revocation

  // ----- durability -----------------------------------------------------------------------------

  /** `k` belongs to a logout between its mirror write and its queue write. */
  predicate InFlight(pr: Proc, k: Key) {
    exists c | c in pr.calls :: pr.calls[c].ToRedis? && k in pr.calls[c].keys
  }

  /** Something will still put `k` into Postgres, or already has. */
  predicate Secured(rows: map<Key, int>, pr: Proc, k: Key) {
    k in rows || k in pr.queue || InFlight(pr, k)
  }

  /** Every unexpired key of the mirror is in Postgres, in the queue, or in flight. */
  predicate Durable(w: World, pr: Proc) {
    forall k | k in pr.mirror && Live(k, w.now) :: Secured(w.rows, pr, k)
  }

  predicate AllDurable(w: World) {
    forall p | p in w.procs :: Durable(w, w.procs[p])
  }

  /** The transaction a caller waits for is the one that inserts its keys. */
  predicate Awaits(txns: map<nat, Txn>, keys: set<Key>, t: nat) { t in txns && txns[t].keys == keys }

  predicate CallsLinked(txns: map<nat, Txn>, now: int, pr: Proc) {
    && (forall c | c in pr.calls && pr.calls[c].Writing? :: Awaits(txns, pr.calls[c].keys, pr.calls[c].txn))
    && (forall c | c in pr.calls && pr.calls[c].ToRedis? ::
          forall k | k in pr.calls[c].keys && Live(k, now) :: k in pr.mirror)
  }

  predicate PassLinked(txns: map<nat, Txn>, rows: map<Key, int>, now: int, pass: Pass) {
    && (pass.Flushing? ==> Awaits(txns, pass.pending, pass.txn))
    && (pass.Importing? ==> Awaits(txns, pass.imported, pass.txn))
    && (pass.Read? ==> forall k | k in pass.fetched && Live(k, now) :: k in rows)
  }

  predicate Linked(w: World, pr: Proc) {
    CallsLinked(w.txns, w.now, pr) && PassLinked(w.txns, w.rows, w.now, pr.pass)
  }

  /** A committed insert is there until its keys have expired. */
  predicate Settled(w: World) {
    forall t | t in w.txns && w.txns[t].state == Committed ::
      forall k | k in w.txns[t].keys && Live(k, w.now) :: k in w.rows
  }

  predicate Sound(w: World) {
    && Settled(w)
    && (forall p | p in w.procs :: Linked(w, w.procs[p]))
  }

  /** How the stores and the clock may move under a process that does nothing. */
  predicate Grows(w: World, w': World) {
    && w.now <= w'.now
    && (forall k | k in w.rows && Live(k, w'.now) :: k in w'.rows)
    && (forall t | t in w.txns :: t in w'.txns && w'.txns[t].keys == w.txns[t].keys)
  }

  lemma StepGrows(w: World, s: Step)
    requires Enabled(w, s)
    ensures Grows(w, Apply(w, s))
  {
  }

  lemma StepSettles(w: World, s: Step)
    requires Enabled(w, s) && Settled(w)
    ensures Settled(Apply(w, s))
  {
  }

  lemma LocalCallsLinked(w: World, pr: Proc, a: Act)
    requires EnabledIn(w, pr, a) && CallsLinked(w.txns, w.now, pr)
    ensures CallsLinked(TxnsAfter(w, pr, a), w.now, Local(w, pr, a))
  {
  }

  lemma LocalPassLinked(w: World, pr: Proc, a: Act)
    requires EnabledIn(w, pr, a) && PassLinked(w.txns, w.rows, w.now, pr.pass)
    ensures PassLinked(TxnsAfter(w, pr, a), w.rows, w.now, Local(w, pr, a).pass)
  {
  }

  lemma LocalLinked(w: World, p: Pid, a: Act)
    requires Enabled(w, By(p, a)) && Sound(w)
    ensures Linked(Apply(w, By(p, a)), Apply(w, By(p, a)).procs[p])
  {
    assert Linked(w, w.procs[p]);
    LocalCallsLinked(w, w.procs[p], a);
    LocalPassLinked(w, w.procs[p], a);
  }

  lemma StepSound(w: World, s: Step)
    requires Enabled(w, s) && Sound(w)
    ensures Sound(Apply(w, s))
  {
    var w' := Apply(w, s);
    StepGrows(w, s);
    StepSettles(w, s);
    forall q | q in w'.procs
      ensures Linked(w', w'.procs[q])
    {
      if s.By? && s.p == q {
        LocalLinked(w, q, s.act);
      } else if q in w.procs {
        assert w'.procs[q] == w.procs[q];
      }
    }
  }

  /** No act but a cancellation forgets an in-flight key without queueing it. */
  lemma StaysSecured(w: World, p: Pid, a: Act, k: Key)
    requires Enabled(w, By(p, a)) && Sound(w) && !a.CancelInRedis?
    requires Live(k, w.now) && Secured(w.rows, w.procs[p], k)
    ensures Secured(w.rows, Local(w, w.procs[p], a), k)
  {
    var pr, pr' := w.procs[p], Local(w, w.procs[p], a);
    if InFlight(pr, k) {
      var c :| c in pr.calls && pr.calls[c].ToRedis? && k in pr.calls[c].keys;
      assert k in pr'.queue || pr'.calls[c] == pr.calls[c];
    }
  }

  lemma LocalDurable(w: World, p: Pid, a: Act)
    requires Enabled(w, By(p, a)) && Sound(w) && Durable(w, w.procs[p]) && !a.CancelInRedis?
    ensures Durable(Apply(w, By(p, a)), Apply(w, By(p, a)).procs[p])
  {
    var pr, pr' := w.procs[p], Local(w, w.procs[p], a);
    forall k | k in pr'.mirror && Live(k, w.now)
      ensures Secured(w.rows, pr', k)
    {
      if k in pr.mirror {
        StaysSecured(w, p, a, k);
      } else if a.RevokeBegin? {
        assert pr'.calls[a.call] == ToRedis(a.keys);
      }
    }
  }

  lemma StepDurable(w: World, s: Step)
    requires Enabled(w, s) && Sound(w) && AllDurable(w)
    requires !(s.By? && s.act.CancelInRedis?)
    ensures AllDurable(Apply(w, s))
  {
    var w' := Apply(w, s);
    StepGrows(w, s);
    forall q | q in w'.procs
      ensures Durable(w', w'.procs[q])
    {
      if s.By? && s.p == q {
        LocalDurable(w, q, s.act);
      } else if q in w.procs {
        assert w'.procs[q] == w.procs[q];
      }
    }
  }

  lemma {:induction false} RunSound(states: seq<World>, steps: seq<Step>, i: nat)
    requires IsRun(states, steps) && i < |states|
    ensures Sound(states[i])
  {
    if i > 0 {
      RunSound(states, steps, i - 1);
      StepSound(states[i - 1], steps[i - 1]);
    }
  }

  predicate CancelsInRedis(s: Step) { s.By? && s.act.CancelInRedis? }

  /** Every unexpired key of logout `c` is secured by something other than that logout. */
  predicate SecuredElsewhere(w: World, pr: Proc, c: nat)
    requires c in pr.calls
  {
    forall k | k in pr.calls[c].keys && Live(k, w.now) ::
      || k in w.rows
      || k in pr.queue
      || exists d | d in pr.calls && d != c :: pr.calls[d].ToRedis? && k in pr.calls[d].keys
  }

  predicate CancelHarmless(w: World, s: Step)
    requires Enabled(w, s)
  {
    CancelsInRedis(s) ==> SecuredElsewhere(w, w.procs[s.p], s.act.call)
  }

  /** A request cancelled inside its Redis write loses nothing exactly when each of its keys is secured
      by something else. */
  lemma CancelExactly(w: World, p: Pid, c: nat)
    requires Enabled(w, By(p, CancelInRedis(c))) && Sound(w) && AllDurable(w)
    ensures AllDurable(Apply(w, By(p, CancelInRedis(c)))) <==> SecuredElsewhere(w, w.procs[p], c)
  {
    var w' := Apply(w, By(p, CancelInRedis(c)));
    var pr, pr' := w.procs[p], w'.procs[p];
    forall k
      ensures InFlight(pr', k) <==>
              exists d | d in pr.calls && d != c :: pr.calls[d].ToRedis? && k in pr.calls[d].keys
    {
      if InFlight(pr', k) {
        var d :| d in pr'.calls && pr'.calls[d].ToRedis? && k in pr'.calls[d].keys;
        assert d in pr.calls && d != c && pr.calls[d] == pr'.calls[d];
      }
      if d :| d in pr.calls && d != c && pr.calls[d].ToRedis? && k in pr.calls[d].keys {
        assert d in pr'.calls && pr'.calls[d] == pr.calls[d];
      }
    }
  }

  lemma {:induction false} DurableUpTo(states: seq<World>, steps: seq<Step>, i: nat)
    requires IsRun(states, steps) && i < |states|
    requires forall j | 0 <= j < i :: CancelHarmless(states[j], steps[j])
    ensures AllDurable(states[i])
  {
    if i > 0 {
      DurableUpTo(states, steps, i - 1);
      RunSound(states, steps, i - 1);
      if CancelsInRedis(steps[i - 1]) {
        CancelExactly(states[i - 1], steps[i - 1].p, steps[i - 1].act.call);
      } else {
        StepDurable(states[i - 1], steps[i - 1]);
      }
    }
  }

  /** In every state of a run each unexpired key of a running process's mirror is in Postgres, in its
      queue, or in flight - exactly when every request cancelled inside its Redis write had its keys
      secured elsewhere. Failed, timed-out and cancelled Postgres writes never matter. */
  lemma NoRevocationLost(states: seq<World>, steps: seq<Step>)
    requires IsRun(states, steps)
    ensures (forall i | 0 <= i < |states| :: AllDurable(states[i])) <==>
            (forall i | 0 <= i < |steps| :: CancelHarmless(states[i], steps[i]))
  {
    if forall i | 0 <= i < |steps| :: CancelHarmless(states[i], steps[i]) {
      forall i | 0 <= i < |states| ensures AllDurable(states[i]) {
        DurableUpTo(states, steps, i);
      }
    }
    if forall i | 0 <= i < |states| :: AllDurable(states[i]) {
      forall i | 0 <= i < |steps| ensures CancelHarmless(states[i], steps[i]) {
        if CancelsInRedis(steps[i]) {
          RunSound(states, steps, i);
          assert AllDurable(states[i + 1]);
          CancelExactly(states[i], steps[i].p, steps[i].act.call);
        }
      }
    }
  }

  /** Such a loss is always one logout away: whatever a serving process has done so far, a request that
      revokes a new key and is cancelled while it writes Redis leaves the key in the mirror with nothing
      left to put it into Postgres. */
  lemma CancelledLogoutIsLost(w: World, p: Pid, c: nat, k: Key)
    requires p in w.procs && w.procs[p].serving && c !in w.procs[p].calls
    requires Live(k, w.now) && !Secured(w.rows, w.procs[p], k)
    ensures Enabled(w, By(p, RevokeBegin(c, {k})))
    ensures var begun := Apply(w, By(p, RevokeBegin(c, {k})));
            Enabled(begun, By(p, CancelInRedis(c))) && !AllDurable(Apply(begun, By(p, CancelInRedis(c))))
  {
    var begun := Apply(w, By(p, RevokeBegin(c, {k})));
    var pr := begun.procs[p];
    var pr' := Local(begun, pr, CancelInRedis(c));
    assert pr'.calls == w.procs[p].calls;
    assert k in pr'.mirror && !Secured(w.rows, pr', k);
    var lost := Apply(begun, By(p, CancelInRedis(c)));
    assert p in lost.procs && lost.procs[p] == pr' && !Durable(lost, pr');
  }

  // ----- incremental pulling --------------------------------------------------------------------

  /** Every row that was committed early enough to be behind the watermark is in the mirror; rows read
      but not yet merged are accounted for. */
  predicate CaughtUp(w: World, pr: Proc) {
    && (pr.watermark.Some? ==>
          forall k | k in w.rows && Live(k, w.now) && w.rows[k] <= pr.watermark.value :: k in pr.mirror)
    && (pr.pass.Read? ==>
          forall k | k in w.rows && Live(k, w.now) && w.rows[k] <= pr.pass.readAt - OVERLAP ::
            k in pr.mirror + pr.pass.fetched)
  }

  predicate AllCaughtUp(w: World) {
    forall p | p in w.procs :: CaughtUp(w, w.procs[p])
  }

  lemma LocalCaughtUp(w: World, p: Pid, a: Act)
    requires Enabled(w, By(p, a)) && CaughtUp(w, w.procs[p])
    ensures CaughtUp(Apply(w, By(p, a)), Apply(w, By(p, a)).procs[p])
  {
  }

  /** Every step but a commit keeps every process caught up. */
  lemma StepCaughtUp(w: World, s: Step)
    requires Enabled(w, s) && !s.Commit? && AllCaughtUp(w)
    ensures AllCaughtUp(Apply(w, s))
  {
    var w' := Apply(w, s);
    forall q | q in w'.procs
      ensures CaughtUp(w', w'.procs[q])
    {
      if s.By? && s.p == q {
        LocalCaughtUp(w, q, s.act);
      } else if q in w.procs {
        assert w'.procs[q] == w.procs[q];
      }
    }
  }

  /** A key that gets its row at `at` is not behind the process: it is past what its pulls will skip, or held. */
  predicate InSight(pr: Proc, k: Key, at: int) {
    && (pr.watermark.Some? && at <= pr.watermark.value ==> k in pr.mirror)
    && (pr.pass.Read? && at <= pr.pass.readAt - OVERLAP ==> k in pr.mirror + pr.pass.fetched)
  }

  /** Every live key the commit gives a row is in sight of every process. */
  predicate CommitHarmless(w: World, s: Step)
    requires Enabled(w, s)
  {
    s.Commit? ==>
      forall k | k in w.txns[s.txn].keys && k !in w.rows && Live(k, w.now) ::
        forall p | p in w.procs :: InSight(w.procs[p], k, s.at)
  }

  /** A commit keeps every process caught up exactly when it is harmless. */
  lemma CommitExactly(w: World, t: nat, at: int)
    requires Enabled(w, Commit(t, at)) && AllCaughtUp(w)
    ensures AllCaughtUp(Apply(w, Commit(t, at))) <==> CommitHarmless(w, Commit(t, at))
  {
    var w' := Apply(w, Commit(t, at));
    assert w'.procs == w.procs && w'.now == w.now;
    if CommitHarmless(w, Commit(t, at)) {
      forall p | p in w'.procs ensures CaughtUp(w', w'.procs[p]) {
        assert CaughtUp(w, w.procs[p]);
      }
    }
    if AllCaughtUp(w') {
      forall k, p | k in w.txns[t].keys && k !in w.rows && Live(k, w.now) && p in w.procs
        ensures InSight(w.procs[p], k, at)
      {
        assert CaughtUp(w', w'.procs[p]) && k in w'.rows && w'.rows[k] == at;
      }
    }
  }

  predicate HarmlessRun(states: seq<World>, steps: seq<Step>)
    requires IsTrace(states, steps)
  {
    forall i {:trigger steps[i]} | 0 <= i < |steps| :: CommitHarmless(states[i], steps[i])
  }

  lemma {:induction false} RunCaughtUp(states: seq<World>, steps: seq<Step>, i: nat)
    requires IsRun(states, steps) && HarmlessRun(states, steps) && i < |states|
    ensures AllCaughtUp(states[i])
  {
    if i > 0 {
      RunCaughtUp(states, steps, i - 1);
      if steps[i - 1].Commit? {
        CommitExactly(states[i - 1], steps[i - 1].txn, steps[i - 1].at);
      } else {
        StepCaughtUp(states[i - 1], steps[i - 1]);
      }
    }
  }

  /** Over every run: no process ever misses a row, exactly when every commit is harmless. */
  lemma RunCaughtUpIff(states: seq<World>, steps: seq<Step>)
    requires IsRun(states, steps)
    ensures (forall i | 0 <= i < |states| :: AllCaughtUp(states[i])) <==> HarmlessRun(states, steps)
  {
    if HarmlessRun(states, steps) {
      forall i | 0 <= i < |states| ensures AllCaughtUp(states[i]) {
        RunCaughtUp(states, steps, i);
      }
    }
    if forall i | 0 <= i < |states| :: AllCaughtUp(states[i]) {
      forall i | 0 <= i < |steps| ensures CommitHarmless(states[i], steps[i]) {
        if steps[i].Commit? {
          assert AllCaughtUp(states[i]) && AllCaughtUp(states[i + 1]);
          CommitExactly(states[i], steps[i].txn, steps[i].at);
        }
      }
    }
  }

  /** What the watermark leaves out of a pull, the mirror already holds: merging the incremental rows
      gives the same live keys as merging the whole table. */
  lemma IncrementalEqualsFull(states: seq<World>, steps: seq<Step>, i: nat, p: Pid)
    requires IsRun(states, steps) && HarmlessRun(states, steps) && i < |states| && p in states[i].procs
    ensures var w := states[i]; var pr := w.procs[p];
            Prune(pr.mirror + Selected(w, pr.watermark), w.now) == Prune(pr.mirror + Selected(w, None), w.now)
  {
    RunCaughtUp(states, steps, i);
    assert CaughtUp(states[i], states[i].procs[p]);
  }

  // ----- inserts that commit inside the overlap window ------------------------------------------

  /** Watermarks and reads lie in the past. */
  predicate Clocked(w: World, pr: Proc) {
    && (pr.watermark.Some? ==> pr.watermark.value <= w.dbNow - OVERLAP)
    && (pr.pass.Read? ==> pr.pass.readAt <= w.dbNow)
  }

  predicate AllClocked(w: World) {
    forall p | p in w.procs :: Clocked(w, w.procs[p])
  }

  lemma LocalClocked(w: World, pr: Proc, a: Act)
    requires EnabledIn(w, pr, a) && Clocked(w, pr)
    ensures Clocked(w, Local(w, pr, a))
  {
  }

  lemma StepClocked(w: World, s: Step)
    requires Enabled(w, s) && AllClocked(w)
    ensures AllClocked(Apply(w, s))
  {
    var w' := Apply(w, s);
    forall q | q in w'.procs
      ensures Clocked(w', w'.procs[q])
    {
      if s.By? && s.p == q {
        LocalClocked(w, w.procs[q], s.act);
      } else if q in w.procs {
        assert w'.procs[q] == w.procs[q];
      }
    }
  }

  lemma {:induction false} RunClocked(states: seq<World>, steps: seq<Step>, i: nat)
    requires IsRun(states, steps) && i < |states|
    ensures AllClocked(states[i])
  {
    if i > 0 {
      RunClocked(states, steps, i - 1);
      StepClocked(states[i - 1], steps[i - 1]);
    }
  }

  /** The insert commits strictly inside the overlap window of its `revoked_at`. */
  predicate Timely(w: World, s: Step) { s.Commit? ==> s.at > w.dbNow - OVERLAP }

  predicate TimelyRun(states: seq<World>, steps: seq<Step>)
    requires IsTrace(states, steps)
  {
    forall i {:trigger steps[i]} | 0 <= i < |steps| :: Timely(states[i], steps[i])
  }

  /** Committing inside the window is enough: such an insert is harmless whatever the processes are doing. */
  lemma TimelyIsHarmless(states: seq<World>, steps: seq<Step>)
    requires IsRun(states, steps) && TimelyRun(states, steps)
    ensures HarmlessRun(states, steps)
  {
    forall i | 0 <= i < |steps| ensures CommitHarmless(states[i], steps[i]) {
      RunClocked(states, steps, i);
      assert Timely(states[i], steps[i]);
      forall p | p in states[i].procs ensures Clocked(states[i], states[i].procs[p]) {
      }
    }
  }

  /** Strictly inside matters: an insert that commits exactly one window after its `revoked_at`, in the
      instant a process has set its watermark, is never selected by that process again. */
  lemma CommitOnTheEdgeIsMissed(w: World, p: Pid, t: nat, k: Key)
    requires p in w.procs && w.procs[p].watermark == Some(w.dbNow - OVERLAP) && k !in w.procs[p].mirror
    requires Enabled(w, Commit(t, w.dbNow - OVERLAP)) && k in w.txns[t].keys && k !in w.rows && Live(k, w.now)
    ensures var w' := Apply(w, Commit(t, w.dbNow - OVERLAP));
            && k in w'.rows
            && !CaughtUp(w', w'.procs[p])
            && forall later: int :: later >= w.dbNow - OVERLAP ==> k !in Selected(w', Some(later))
  {
    var w' := Apply(w, Commit(t, w.dbNow - OVERLAP));
    assert w'.rows[k] == w.dbNow - OVERLAP;
  }

  // ----- a run that reaches such a commit -------------------------------------------------------

  lemma Joined(states: seq<World>, steps: seq<Step>, more: seq<World>, moreSteps: seq<Step>)
    requires IsTrace(states, steps) && IsTrace(more, moreSteps) && states[|steps|] == more[0]
    ensures IsTrace(states + more[1..], steps + moreSteps)
    ensures (states + more[1..])[|steps + moreSteps|] == more[|moreSteps|]
  {
    var all, allSteps := states + more[1..], steps + moreSteps;
    forall i | 0 <= i < |allSteps| ensures Enabled(all[i], allSteps[i]) && all[i + 1] == Apply(all[i], allSteps[i]) {
      if i < |steps| {
        assert Enabled(states[i], steps[i]) && states[i + 1] == Apply(states[i], steps[i]);
      } else {
        var j := i - |steps|;
        assert Enabled(more[j], moreSteps[j]) && more[j + 1] == Apply(more[j], moreSteps[j]);
        assert all[i] == more[j] && all[i + 1] == more[j + 1];
      }
    }
  }

  /** A process that has merged its first pull. */
  function Loaded(w: World): Proc {
    FreshProc().(mirror := Selected(w, None), watermark := Some(w.dbNow - OVERLAP), pass := Merged(true))
  }

  function At(w: World, p: Pid, pr: Proc): World { w.(procs := w.procs[p := pr]) }

  /** An act that writes nothing outside its process. */
  lemma Moves(w: World, p: Pid, pr: Proc, a: Act, pr': Proc)
    requires EnabledIn(At(w, p, pr), pr, a) && Local(At(w, p, pr), pr, a) == pr'
    requires ToCache(At(w, p, pr), pr, a) == {} && Opened(At(w, p, pr), pr, a).None? && !a.Reseed?
    ensures Enabled(At(w, p, pr), By(p, a)) && Apply(At(w, p, pr), By(p, a)) == At(w, p, pr')
  {
    assert w.procs[p := pr][p := pr'] == w.procs[p := pr'];
  }

  lemma Loads(w: World, p: Pid) returns (states: seq<World>, steps: seq<Step>)
    requires p !in w.procs
    ensures IsTrace(states, steps) && states[0] == w && states[|steps|] == At(w, p, Loaded(w))
  {
    var started := FreshProc();
    var pulling := started.(pass := Pulling(true));
    var read := started.(pass := Read(true, Selected(w, None), w.dbNow));
    assert Apply(w, Start(p)) == At(w, p, started);
    assert Prune({}, w.now) == {};
    Moves(w, p, started, PassBegin, pulling);
    assert Selected(At(w, p, pulling), None) == Selected(w, None);
    Moves(w, p, pulling, PullRead, read);
    assert {} + Selected(w, None) == Selected(w, None);
    Moves(w, p, read, PullMerge, Loaded(w));
    states := [w, At(w, p, started), At(w, p, pulling), At(w, p, read), At(w, p, Loaded(w))];
    steps := [Start(p), By(p, PassBegin), By(p, PullRead), By(p, PullMerge)];
  }

  /** The rest of a pass in which nothing is queued and Redis does not answer. */
  lemma Serves(w: World, p: Pid, pr: Proc, t: nat) returns (states: seq<World>, steps: seq<Step>)
    requires pr.pass == Merged(true) && pr.queue == {} && pr.watermark.Some? && t !in w.txns
    ensures IsTrace(states, steps) && states[0] == At(w, p, pr)
    ensures states[|steps|] == At(w, p, pr.(pass := Idle, serving := true))
  {
    var half, ending := pr.(pass := RedisHalf(true, true)), pr.(pass := Ending(true));
    var served := pr.(pass := Idle, serving := true);
    assert Prune({}, w.now) == {};
    Moves(w, p, pr, FlushBegin(t), half);
    Moves(w, p, half, RedisFail({}), ending);
    Moves(w, p, ending, PassEnd, served);
    states := [At(w, p, pr), At(w, p, half), At(w, p, ending), At(w, p, served)];
    steps := [By(p, FlushBegin(t)), By(p, RedisFail({})), By(p, PassEnd)];
  }

  lemma LogsOut(w: World, p: Pid, c: nat, t: nat, k: Key) returns (states: seq<World>, steps: seq<Step>)
    requires p in w.procs && w.procs[p].serving && c !in w.procs[p].calls && t !in w.txns && Live(k, w.now)
    ensures IsTrace(states, steps) && states[0] == w
    ensures var w' := states[|steps|];
            && w' == w.(procs := w'.procs, txns := w.txns[t := Txn({k}, Open)])
            && w'.procs.Keys == w.procs.Keys
  {
    var w1 := Apply(w, By(p, RevokeBegin(c, {k})));
    var w2 := Apply(w1, By(p, RevokeQueue(c, t)));
    states, steps := [w, w1, w2], [By(p, RevokeBegin(c, {k})), By(p, RevokeQueue(c, t))];
  }

  /** Time passes for one window while the insert is open, and another process loads. */
  lemma LoadsLate(w: World, p: Pid) returns (states: seq<World>, steps: seq<Step>)
    requires p !in w.procs
    ensures IsTrace(states, steps) && states[0] == w
    ensures var w' := w.(dbNow := w.dbNow + OVERLAP); states[|steps|] == At(w', p, Loaded(w'))
  {
    var w' := w.(dbNow := w.dbNow + OVERLAP);
    var more, moreSteps := Loads(w', p);
    assert IsTrace([w, w'], [Tick(0, OVERLAP)]);
    Joined([w, w'], [Tick(0, OVERLAP)], more, moreSteps);
    states, steps := [w, w'] + more[1..], [Tick(0, OVERLAP)] + moreSteps;
  }

  lemma OpensInsert(w: World, k: Key) returns (states: seq<World>, steps: seq<Step>)
    requires Initial(w) && Live(k, w.now)
    ensures IsTrace(states, steps) && states[0] == w
    ensures var w' := states[|steps|];
            w' == w.(procs := w'.procs, txns := map[0 := Txn({k}, Open)]) && 1 !in w'.procs
  {
    var a, aSteps := Loads(w, 0);
    var b, bSteps := Serves(w, 0, Loaded(w), 0);
    var c, cSteps := LogsOut(b[|bSteps|], 0, 0, 0, k);
    Joined(a, aSteps, b, bSteps);
    Joined(a + b[1..], aSteps + bSteps, c, cSteps);
    states, steps := a + b[1..] + c[1..], aSteps + bSteps + cSteps;
  }

  /** From every start of the system, for every unexpired key without a row, a run reaches a commit on the edge: process
      0 serves and logs the key out, its insert stays open for one window, process 1 loads, and then the insert commits.
      No later pull of process 1 selects the key, which it does not hold. */
  lemma EdgeIsReached(w: World, k: Key) returns (states: seq<World>, steps: seq<Step>)
    requires Initial(w) && Live(k, w.now) && k !in w.rows
    ensures IsRun(states, steps) && states[0] == w && |steps| > 0 && steps[|steps| - 1] == Commit(0, w.dbNow)
    ensures var w' := states[|steps|];
            && 1 in w'.procs && k in w'.rows && k !in w'.procs[1].mirror
            && (forall later: int :: later >= w.dbNow ==> k !in Selected(w', Some(later)))
            && w'.procs[1].watermark == Some(w.dbNow) && !CaughtUp(w', w'.procs[1])
  {
    var a, aSteps := OpensInsert(w, k);
    var b, bSteps := LoadsLate(a[|aSteps|], 1);
    Joined(a, aSteps, b, bSteps);
    var late := b[|bSteps|];
    CommitOnTheEdgeIsMissed(late, 1, 0, k);
    var last := Apply(late, Commit(0, w.dbNow));
    assert IsTrace([late, last], [Commit(0, w.dbNow)]);
    Joined(a + b[1..], aSteps + bSteps, [late, last], [Commit(0, w.dbNow)]);
    states, steps := a + b[1..] + [late, last][1..], aSteps + bSteps + [Commit(0, w.dbNow)];
  }

  predicate Crashes(s: Step, p: Pid) { s.Crash? && s.p == p }

  /** Process `p` stays up from state `i` to state `j`. */
  predicate StaysUp(steps: seq<Step>, p: Pid, i: nat, j: nat)
    requires i <= j <= |steps|
  {
    forall n | i <= n < j :: !Crashes(steps[n], p)
  }

  /** A key a process holds is refused there at every later time before it expires, whatever the other
      steps do. */
  lemma {:induction false} HeldUntilExpiry(states: seq<World>, steps: seq<Step>, i: nat, j: nat, p: Pid, k: Key)
    requires IsTrace(states, steps) && i <= j < |states|
    requires p in states[i].procs && k in states[i].procs[p].mirror && StaysUp(steps, p, i, j)
    requires Live(k, states[j].now)
    ensures Refuses(states[j], p, k)
  {
    if i < j {
      StepGrows(states[j - 1], steps[j - 1]);
      HeldUntilExpiry(states, steps, i, j - 1, p, k);
      assert !Crashes(steps[j - 1], p);
    }
  }

  /** While a pull's rows wait to be merged, the mirror and those rows together hold `k`. */
  predicate Covers(w: World, p: Pid, k: Key) {
    p in w.procs && (w.procs[p].pass.Read? ==> k in w.procs[p].mirror + w.procs[p].pass.fetched)
  }

  lemma ReadCoversNow(w: World, p: Pid, k: Key)
    requires Enabled(w, By(p, PullRead)) && CaughtUp(w, w.procs[p])
    requires k in w.rows && Live(k, w.now)
    ensures Covers(Apply(w, By(p, PullRead)), p, k)
  {
  }

  predicate Reads(s: Step, p: Pid) { s.By? && s.p == p && s.act.PullRead? }

  /** Process `p` neither reads the table nor goes down from state `i` to state `j`. */
  predicate KeepsRead(steps: seq<Step>, p: Pid, i: nat, j: nat)
    requires i <= j <= |steps|
  {
    forall n | i <= n < j :: !Crashes(steps[n], p) && !Reads(steps[n], p)
  }

  lemma StepCovers(w: World, s: Step, p: Pid, k: Key)
    requires Enabled(w, s) && !Crashes(s, p) && !Reads(s, p)
    requires Covers(w, p, k) && Live(k, w.now)
    ensures Covers(Apply(w, s), p, k)
  {
  }

  lemma {:induction false} StaysCovered(states: seq<World>, steps: seq<Step>, i: nat, j: nat, p: Pid, k: Key)
    requires IsTrace(states, steps) && i <= j < |states|
    requires KeepsRead(steps, p, i, j)
    requires Covers(states[i], p, k) && Live(k, states[j].now)
    ensures Covers(states[j], p, k)
  {
    if i < j {
      ClockForward(states, steps, j - 1, j);
      StaysCovered(states, steps, i, j - 1, p, k);
      StepCovers(states[j - 1], steps[j - 1], p, k);
    }
  }

  lemma MergeRefuses(w: World, p: Pid, k: Key)
    requires Enabled(w, By(p, PullMerge)) && Covers(w, p, k) && Live(k, w.now)
    ensures Refuses(Apply(w, By(p, PullMerge)), p, k)
  {
  }

  lemma PullLoadsRow(states: seq<World>, steps: seq<Step>, r: nat, m: nat, p: Pid, k: Key)
    requires IsRun(states, steps) && HarmlessRun(states, steps) && r < m < |steps|
    requires steps[r] == By(p, PullRead) && steps[m] == By(p, PullMerge) && KeepsRead(steps, p, r + 1, m)
    requires k in states[r].rows && Live(k, states[m].now)
    ensures Refuses(states[m + 1], p, k)
  {
    ClockForward(states, steps, r, m);
    RunCaughtUp(states, steps, r);
    ReadCoversNow(states[r], p, k);
    StaysCovered(states, steps, r + 1, m, p, k);
    MergeRefuses(states[m], p, k);
  }

  /** After a successful pull the mirror holds every unexpired row that was committed before the pull
      read the table, for any interleaving of commits and passes. */
  lemma PullLoadsEveryRow(states: seq<World>, steps: seq<Step>, r: nat, m: nat, p: Pid)
    requires IsRun(states, steps) && HarmlessRun(states, steps) && r < m < |steps|
    requires steps[r] == By(p, PullRead) && steps[m] == By(p, PullMerge) && KeepsRead(steps, p, r + 1, m)
    ensures forall k | k in states[r].rows && Live(k, states[m].now) :: Refuses(states[m + 1], p, k)
  {
    forall k | k in states[r].rows && Live(k, states[m].now) ensures Refuses(states[m + 1], p, k) {
      PullLoadsRow(states, steps, r, m, p, k);
    }
  }

  lemma StepToRead(w: World, s: Step, p: Pid)
    requires Enabled(w, s) && !Crashes(s, p) && !Reads(s, p)
    requires p in Apply(w, s).procs && Apply(w, s).procs[p].pass.Read?
    ensures p in w.procs && w.procs[p].pass.Read?
  {
  }

  lemma StepToWatermark(w: World, s: Step, p: Pid)
    requires Enabled(w, s) && !Crashes(s, p) && s != By(p, PullMerge)
    requires p in Apply(w, s).procs && Apply(w, s).procs[p].watermark.Some?
    ensures p in w.procs && w.procs[p].watermark.Some?
  {
  }

  /** The latest read behind a pass that holds unmerged rows. */
  lemma {:induction false} FindRead(states: seq<World>, steps: seq<Step>, i: nat, m: nat, p: Pid) returns (r: nat)
    requires IsTrace(states, steps) && i < m < |states|
    requires steps[i] == Start(p) && StaysUp(steps, p, i, m)
    requires p in states[m].procs && states[m].procs[p].pass.Read?
    ensures i < r < m && steps[r] == By(p, PullRead) && KeepsRead(steps, p, r + 1, m)
  {
    assert !Crashes(steps[m - 1], p);
    if steps[m - 1] == By(p, PullRead) {
      r := m - 1;
    } else {
      StepToRead(states[m - 1], steps[m - 1], p);
      r := FindRead(states, steps, i, m - 1, p);
    }
  }

  // ----- the first load ---------------------------------------------------------------------------

  /** A process serves only after a pass that pulled: until its first merge it can only pull, or fail. */
  predicate Booted(pr: Proc) {
    && (pr.serving ==> pr.watermark.Some?)
    && (pr.watermark.None? ==> (pr.pass.RedisHalf? ==> !pr.pass.ok) &&
                               (pr.pass.Idle? || pr.pass.Pulling? || pr.pass.Read? || pr.pass.RedisHalf?))
  }

  predicate AllBooted(w: World) {
    forall p | p in w.procs :: Booted(w.procs[p])
  }

  lemma LocalBooted(w: World, pr: Proc, a: Act)
    requires EnabledIn(w, pr, a) && Booted(pr)
    ensures Booted(Local(w, pr, a))
  {
  }

  lemma StepBooted(w: World, s: Step)
    requires Enabled(w, s) && AllBooted(w)
    ensures AllBooted(Apply(w, s))
  {
    var w' := Apply(w, s);
    forall q | q in w'.procs
      ensures Booted(w'.procs[q])
    {
      if s.By? && s.p == q {
        LocalBooted(w, w.procs[q], s.act);
      } else if q in w.procs {
        assert w'.procs[q] == w.procs[q];
      }
    }
  }

  lemma {:induction false} RunBooted(states: seq<World>, steps: seq<Step>, i: nat)
    requires IsRun(states, steps) && i < |states|
    ensures AllBooted(states[i])
  {
    if i > 0 {
      RunBooted(states, steps, i - 1);
      StepBooted(states[i - 1], steps[i - 1]);
    }
  }

  /** The first merge behind a watermark. */
  lemma {:induction false} FindFirstMerge(states: seq<World>, steps: seq<Step>, i: nat, j: nat, p: Pid) returns (m: nat)
    requires IsTrace(states, steps) && i < j < |states|
    requires steps[i] == Start(p) && StaysUp(steps, p, i, j)
    requires p in states[j].procs && states[j].procs[p].watermark.Some?
    ensures i < m < j && steps[m] == By(p, PullMerge) && states[m].procs[p].watermark.None?
  {
    var n := j - 1;
    assert !Crashes(steps[n], p);
    if steps[n] == By(p, PullMerge) && states[n].procs[p].watermark.None? {
      m := n;
    } else {
      if steps[n] != By(p, PullMerge) {
        StepToWatermark(states[n], steps[n], p);
      }
      m := FindFirstMerge(states, steps, i, n, p);
    }
  }

  lemma StepKeepsWatermark(w: World, s: Step, p: Pid)
    requires Enabled(w, s) && !Crashes(s, p) && p in w.procs && w.procs[p].watermark.Some?
    ensures p in Apply(w, s).procs && Apply(w, s).procs[p].watermark.Some?
  {
  }

  lemma {:induction false} WatermarkStays(states: seq<World>, steps: seq<Step>, r: nat, m: nat, p: Pid)
    requires IsTrace(states, steps) && r <= m < |states| && StaysUp(steps, p, r, m)
    requires p in states[r].procs && states[r].procs[p].watermark.Some?
    ensures p in states[m].procs && states[m].procs[p].watermark.Some?
  {
    if r < m {
      WatermarkStays(states, steps, r, m - 1, p);
      assert !Crashes(steps[m - 1], p);
      StepKeepsWatermark(states[m - 1], steps[m - 1], p);
    }
  }

  /** Without a watermark now there was none before. */
  lemma FirstReadHasNoWatermark(states: seq<World>, steps: seq<Step>, r: nat, m: nat, p: Pid)
    requires IsTrace(states, steps) && r < m < |states| && StaysUp(steps, p, r, m) && steps[r] == By(p, PullRead)
    requires p in states[m].procs && states[m].procs[p].watermark.None?
    ensures p in states[r].procs && states[r].procs[p].watermark.None?
  {
    assert Enabled(states[r], steps[r]);
    if states[r].procs[p].watermark.Some? {
      WatermarkStays(states, steps, r, m, p);
    }
  }

  /** A pull without a watermark reads every live row. */
  lemma FirstReadCovers(w: World, p: Pid, k: Key)
    requires Enabled(w, By(p, PullRead)) && w.procs[p].watermark.None? && k in w.rows && Live(k, w.now)
    ensures Covers(Apply(w, By(p, PullRead)), p, k)
  {
  }

  lemma FirstLoadStaysRefused(states: seq<World>, steps: seq<Step>, r: nat, m: nat, j: nat, p: Pid, k: Key)
    requires IsRun(states, steps) && r < m < j < |states|
    requires steps[r] == By(p, PullRead) && steps[m] == By(p, PullMerge) && KeepsRead(steps, p, r + 1, m)
    requires states[r].procs[p].watermark.None?
    requires StaysUp(steps, p, m + 1, j) && k in states[r].rows && Live(k, states[j].now)
    ensures Refuses(states[j], p, k)
  {
    ClockForward(states, steps, m, j);
    ClockForward(states, steps, r, m);
    FirstReadCovers(states[r], p, k);
    StaysCovered(states, steps, r + 1, m, p, k);
    MergeRefuses(states[m], p, k);
    HeldUntilExpiry(states, steps, m + 1, j, p, k);
  }

  lemma MergeHasRead(w: World, p: Pid)
    requires Enabled(w, By(p, PullMerge))
    ensures p in w.procs && w.procs[p].pass.Read?
  {
  }

  /** A restarted process that serves has loaded, however late inserts commit: there is a read of the table since
      its start, and it refuses every unexpired key that had a row at that read. */
  lemma ServingRefusesEveryLoadedRow(states: seq<World>, steps: seq<Step>, i: nat, j: nat, p: Pid)
    requires IsRun(states, steps) && i < j < |states|
    requires steps[i] == Start(p) && StaysUp(steps, p, i, j)
    requires p in states[j].procs && states[j].procs[p].serving
    ensures exists r | i < r < j ::
              && steps[r] == By(p, PullRead)
              && forall k | k in states[r].rows && Live(k, states[j].now) :: Refuses(states[j], p, k)
  {
    RunBooted(states, steps, j);
    assert Booted(states[j].procs[p]);
    var m := FindFirstMerge(states, steps, i, j, p);
    MergeHasRead(states[m], p);
    var r := FindRead(states, steps, i, m, p);
    FirstReadHasNoWatermark(states, steps, r, m, p);
    forall k | k in states[r].rows && Live(k, states[j].now)
      ensures Refuses(states[j], p, k)
    {
      FirstLoadStaysRefused(states, steps, r, m, j, p, k);
    }
  }

  lemma {:induction false} ClockForward(states: seq<World>, steps: seq<Step>, i: nat, j: nat)
    requires IsTrace(states, steps) && i <= j < |states|
    ensures states[i].now <= states[j].now
  {
    if i < j {
      ClockForward(states, steps, i, j - 1);
      StepGrows(states[j - 1], steps[j - 1]);
    }
  }

  lemma {:induction false} RowStays(states: seq<World>, steps: seq<Step>, i: nat, j: nat, k: Key)
    requires IsTrace(states, steps) && i <= j < |states| && k in states[i].rows && Live(k, states[j].now)
    ensures k in states[j].rows
  {
    if i < j {
      StepGrows(states[j - 1], steps[j - 1]);
      RowStays(states, steps, i, j - 1, k);
    }
  }

  /** The row of a committed insert is still there at every later time before its key expires: the
      pruner never reaches a live token. */
  lemma CommittedStays(states: seq<World>, steps: seq<Step>, c: nat, j: nat, k: Key)
    requires IsTrace(states, steps) && c < j < |states|
    requires steps[c].Commit? && k in states[c].txns[steps[c].txn].keys && Live(k, states[j].now)
    ensures k in states[j].rows
  {
    assert k in states[c + 1].rows;
    RowStays(states, steps, c + 1, j, k);
  }

  // ----- Redis comes back -----------------------------------------------------------------------

  /** What is in Redis stays there until the next wipe or its expiry. */
  lemma {:induction false} StaysInRedis(states: seq<World>, steps: seq<Step>, i: nat, j: nat, k: Key)
    requires IsTrace(states, steps) && i <= j < |states| && k in states[i].redis
    requires forall n | i <= n < j :: !steps[n].Wipe?
    ensures k in states[j].redis
  {
    if i < j {
      StaysInRedis(states, steps, i, j - 1, k);
      assert !steps[j - 1].Wipe?;
    }
  }

  predicate AfterRewrite(pass: Pass) {
    pass.Reconciling? || pass.Scanning? || pass.Reseeding? || pass.Imported? || pass.Importing? || pass.Ending?
  }

  predicate FailsInRedis(s: Step, p: Pid) { s.By? && s.p == p && s.act.RedisFail? }

  lemma LocalToAfterRewrite(w: World, pr: Proc, a: Act)
    requires EnabledIn(w, pr, a) && !a.RedisFail? && !a.Rewrite? && AfterRewrite(Local(w, pr, a).pass)
    ensures AfterRewrite(pr.pass)
  {
  }

  lemma StepToAfterRewrite(w: World, s: Step, p: Pid)
    requires Enabled(w, s) && !Crashes(s, p) && !FailsInRedis(s, p) && s != By(p, Rewrite)
    requires p in Apply(w, s).procs && AfterRewrite(Apply(w, s).procs[p].pass)
    ensures p in w.procs && AfterRewrite(w.procs[p].pass)
  {
    if s.By? && s.p == p {
      LocalToAfterRewrite(w, w.procs[p], s.act);
    }
  }

  /** A pass reaches its end only through the rewrite, unless Redis fails it. */
  lemma {:induction false} FindRewrite(states: seq<World>, steps: seq<Step>, a: nat, n: nat, p: Pid) returns (i: nat)
    requires IsTrace(states, steps) && a < n < |states|
    requires steps[a] == By(p, PassBegin) && StaysUp(steps, p, a, n)
    requires forall m | a <= m < n :: !FailsInRedis(steps[m], p)
    requires p in states[n].procs && AfterRewrite(states[n].procs[p].pass)
    ensures a < i < n && steps[i] == By(p, Rewrite)
  {
    assert !Crashes(steps[n - 1], p) && !FailsInRedis(steps[n - 1], p);
    if steps[n - 1] == By(p, Rewrite) {
      i := n - 1;
    } else {
      StepToAfterRewrite(states[n - 1], steps[n - 1], p);
      i := FindRewrite(states, steps, a, n - 1, p);
    }
  }

  lemma LocalKeepsQueued(w: World, p: Pid, a: Act, k: Key)
    requires Enabled(w, By(p, a)) && Sound(w)
    requires k in w.procs[p].queue && Live(k, w.now)
    ensures k in Local(w, w.procs[p], a).queue || k in w.rows
  {
    assert Linked(w, w.procs[p]);
  }

  /** A queued key leaves the queue only through a committed insert or its expiry. */
  lemma StepKeepsQueued(w: World, s: Step, p: Pid, k: Key)
    requires Enabled(w, s) && Sound(w) && !Crashes(s, p)
    requires p in w.procs && (k in w.procs[p].queue || k in w.rows) && Live(k, Apply(w, s).now)
    ensures var w' := Apply(w, s); p in w'.procs && (k in w'.procs[p].queue || k in w'.rows)
  {
    StepGrows(w, s);
    if s.By? && s.p == p && k in w.procs[p].queue {
      LocalKeepsQueued(w, p, s.act, k);
    }
  }

  lemma {:induction false} QueuedOrDurable(states: seq<World>, steps: seq<Step>, i: nat, j: nat, p: Pid, k: Key)
    requires IsRun(states, steps) && i <= j < |states| && StaysUp(steps, p, i, j)
    requires p in states[i].procs && k in states[i].procs[p].queue && Live(k, states[j].now)
    ensures p in states[j].procs && (k in states[j].procs[p].queue || k in states[j].rows)
  {
    if i < j {
      ClockForward(states, steps, j - 1, j);
      QueuedOrDurable(states, steps, i, j - 1, p, k);
      RunSound(states, steps, j - 1);
      assert !Crashes(steps[j - 1], p);
      StepKeepsQueued(states[j - 1], steps[j - 1], p, k);
    }
  }

  /** Postgres failing and Redis wiped: once a loaded process completes a pass in which Redis answered
      and was not wiped again after the rewrite, every unexpired key its queue held when the pass began is
      in Redis, unless Postgres has got it meanwhile - whatever other processes reseeded and whoever set the
      marker. */
  lemma PassPutsQueueBack(states: seq<World>, steps: seq<Step>, a: nat, b: nat, p: Pid, k: Key)
    requires IsRun(states, steps) && a < b < |steps|
    requires steps[a] == By(p, PassBegin) && steps[b] == By(p, PassEnd) && states[b].procs[p].watermark.Some?
    requires StaysUp(steps, p, a, b)
    requires forall n | a <= n < b :: !FailsInRedis(steps[n], p)
    requires forall i, n | a < i < n < b && steps[i] == By(p, Rewrite) :: !steps[n].Wipe?
    requires k in states[a].procs[p].queue && Live(k, states[b].now)
    ensures k in states[b].redis || k in states[b].rows
  {
    assert AfterRewrite(states[b].procs[p].pass);
    var i := FindRewrite(states, steps, a, b, p);
    ClockForward(states, steps, i, b);
    QueuedOrDurable(states, steps, a, i, p, k);
    if k in states[i].rows {
      RowStays(states, steps, i, b, k);
    } else {
      assert k in states[i + 1].redis;
      StaysInRedis(states, steps, i + 1, b, k);
    }
  }
}
