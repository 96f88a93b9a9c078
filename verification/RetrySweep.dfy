/** The controller's retry sweep (webhook/controller.go): which cached policy resources it drives again, and
    what its two in-process records of one resource remember over whole runs. */
module RetrySweep {
  import opened Outcomes

  // ----- one resource ---------------------------------------------------------------------------

  datatype Phase = Active | Pending | Error

  /** What a generation of the spec builds to: nothing, rego that fails a deterministic check, or rego to sync.
      Rego stands for its fingerprint; no rego is empty. */
  datatype Content = Unbuildable | Rejected(rego: string) | Sound(rego: string)

  /** The informer's copy: `uid` says which resource of the name it is, and nothing below looks at it; `latched` is the
      message left by the deletion of the resource's class, `note` the fingerprint annotation. */
  datatype Cached = Cached(uid: nat, gen: nat, phase: Phase, latched: bool, note: string, deleting: bool)

  /** The rego the controller would apply now differs from what is recorded as applied. */
  predicate Drifted(u: Cached, content: Content, applied: Option<string>) {
    && !content.Unbuildable? && content.rego != ""
    && u.note != content.rego && !(applied.Some? && applied.value == content.rego)
  }

  predicate KnownFailure(u: Cached, failed: Option<nat>) { failed.Some? && failed.value == u.gen }

  predicate Drives(u: Cached, content: Content, failed: Option<nat>, applied: Option<string>) {
    && !u.deleting
    && if u.phase == Active then Drifted(u, content, applied) else !u.latched && !KnownFailure(u, failed)
  }

  // ----- runs of one name -----------------------------------------------------------------------

  /** What each generation of each resource of the name builds to. */
  type Specs = seq<seq<Content>>

  predicate Known(specs: Specs, u: Cached) { u.uid < |specs| && u.gen < |specs[u.uid]| }

  function ContentOf(specs: Specs, u: Cached): Content
    requires Known(specs, u)
  {
    specs[u.uid][u.gen]
  }

  /** A sync in flight, for the content it was started with. */
  datatype Job = Job(rego: string, cleared: bool)

  /** A deterministic failure on record. The source keeps the generation only. */
  datatype Mark = Mark(uid: nat, gen: nat)

  /** `waiting` are the copies delivered to the handler and not yet handled, oldest first. */
  datatype World = World(
    cached: Cached, waiting: seq<Cached>, failed: Option<Mark>, applied: Option<string>, jobs: seq<Job>)

  /** One process lifetime: the informer takes a newer copy and delivers it to the handler where the source's filter lets
      it through; the handler runs on the oldest copy delivered; a sync fails, or clears the failure record and later
      stamps what it applied; the sweep passes. `added` is whether a resource created anew is announced as such. `starts`
      is whether the finalizer and the semaphore let a sync start. Status and annotation writes reach the process only
      as copies the informer delivers, so they may fail or come late. */
  datatype Step =
    | Informer(copy: Cached, added: bool)
    | Handle(starts: bool)
    | SyncFails(i: nat)
    | SyncClears(i: nat)
    | Stamp(i: nat)
    | Sweep(starts: bool)

  /** Within one resource generations do not fall and a deletion is not taken back. */
  predicate Follows(old': Cached, new': Cached) {
    || old'.uid < new'.uid
    || (old'.uid == new'.uid && old'.gen <= new'.gen && (old'.deleting ==> new'.deleting))
  }

  predicate Delivered(old': Cached, new': Cached, added: bool) {
    added || old'.deleting || new'.deleting || old'.gen != new'.gen
  }

  predicate Enabled(specs: Specs, w: World, step: Step) {
    && Known(specs, w.cached)
    && match step
       case Informer(copy, added) =>
         Known(specs, copy) && Follows(w.cached, copy) && (added ==> w.cached.uid < copy.uid)
       case Handle(_) => w.waiting != [] && Known(specs, w.waiting[0])
       case SyncFails(i) => i < |w.jobs| && !w.jobs[i].cleared
       case SyncClears(i) => i < |w.jobs| && !w.jobs[i].cleared
       case Stamp(i) => i < |w.jobs| && w.jobs[i].cleared
       case Sweep(_) => true
  }

  function Handled(w: World, u: Cached, content: Content, starts: bool): World {
    if u.deleting then w
    else if !content.Sound? then w.(failed := Some(Mark(u.uid, u.gen)))
    else if starts then w.(jobs := w.jobs + [Job(content.rego, false)])
    else w
  }

  function FailedGen(failed: Option<Mark>): Option<nat> { if failed.Some? then Some(failed.value.gen) else None }

  predicate SweepDrives(specs: Specs, w: World)
    requires Known(specs, w.cached)
  {
    Drives(w.cached, ContentOf(specs, w.cached), FailedGen(w.failed), w.applied)
  }

  function Next(specs: Specs, w: World, step: Step): World
    requires Enabled(specs, w, step)
  {
    match step
    case Informer(copy, added) =>
      w.(cached := copy, waiting := w.waiting + if Delivered(w.cached, copy, added) then [copy] else [])
    case Handle(starts) =>
      Handled(w.(waiting := w.waiting[1..]), w.waiting[0], ContentOf(specs, w.waiting[0]), starts)
    case SyncFails(i) => w.(jobs := w.jobs[..i] + w.jobs[i + 1..])
    case SyncClears(i) => w.(failed := None, jobs := w.jobs[i := w.jobs[i].(cleared := true)])
    case Stamp(i) =>
      w.(applied := if w.jobs[i].rego == "" then w.applied else Some(w.jobs[i].rego),
         jobs := w.jobs[..i] + w.jobs[i + 1..])
    case Sweep(starts) =>
      if SweepDrives(specs, w) then Handled(w, w.cached, ContentOf(specs, w.cached), starts) else w
  }

  predicate IsTrace(specs: Specs, states: seq<World>, steps: seq<Step>) {
    && |states| == |steps| + 1
    && forall i {:trigger steps[i]} | 0 <= i < |steps| ::
         Enabled(specs, states[i], steps[i]) && states[i + 1] == Next(specs, states[i], steps[i])
  }

  /** A process starts with nothing on record and nothing in flight, and is told of the resource it finds. */
  predicate IsRun(specs: Specs, states: seq<World>, steps: seq<Step>) {
    && IsTrace(specs, states, steps)
    && states[0].failed == None && states[0].applied == None && states[0].jobs == []
    && Known(specs, states[0].cached) && states[0].waiting == [states[0].cached]
  }

  predicate AllKnown(specs: Specs, w: World) {
    Known(specs, w.cached) && forall i | 0 <= i < |w.waiting| :: Known(specs, w.waiting[i])
  }

  lemma StepKnows(specs: Specs, w: World, step: Step)
    requires Enabled(specs, w, step) && AllKnown(specs, w)
    ensures AllKnown(specs, Next(specs, w, step))
  {
  }

  // ----- making traces longer -------------------------------------------------------------------

  lemma Extended(specs: Specs, states: seq<World>, steps: seq<Step>, step: Step) returns (w: World)
    requires IsTrace(specs, states, steps) && Enabled(specs, states[|steps|], step)
    ensures w == Next(specs, states[|steps|], step) && IsTrace(specs, states + [w], steps + [step])
  {
    w := Next(specs, states[|steps|], step);
    forall i | 0 <= i < |steps + [step]|
      ensures Enabled(specs, (states + [w])[i], (steps + [step])[i])
      ensures (states + [w])[i + 1] == Next(specs, (states + [w])[i], (steps + [step])[i])
    {
      assert i < |steps| ==> Enabled(specs, states[i], steps[i]) && states[i + 1] == Next(specs, states[i], steps[i]);
    }
  }

  /** All states but those of `before` have the copy `u`. */
  predicate Holding(u: Cached, states: seq<World>, before: nat) {
    forall n | before <= n < |states| :: states[n].cached == u
  }

  /** The handler works off the first `i` copies and no sync can start. */
  lemma {:induction false} Drained(specs: Specs, states: seq<World>, steps: seq<Step>, i: nat)
    returns (states': seq<World>, steps': seq<Step>)
    requires IsTrace(specs, states, steps) && AllKnown(specs, states[|steps|]) && i <= |states[|steps|].waiting|
    ensures IsTrace(specs, states', steps') && states <= states' && Holding(states[|steps|].cached, states', |steps|)
    ensures var w, w' := states[|steps|], states'[|steps'|];
            w'.waiting == w.waiting[i..] && w'.jobs == w.jobs && w'.applied == w.applied && AllKnown(specs, w')
    decreases i
  {
    if i == 0 {
      states', steps' := states, steps;
    } else {
      states', steps' := Drained(specs, states, steps, i - 1);
      var w' := states'[|steps'|];
      StepKnows(specs, w', Handle(false));
      var last := Extended(specs, states', steps', Handle(false));
      states', steps' := states' + [last], steps' + [Handle(false)];
    }
  }

  // ----- the failure record ---------------------------------------------------------------------

  predicate Same(u: Cached, v: Cached) { u.uid == v.uid && u.gen == v.gen }

  /** The step finds that the cached generation fails deterministically. */
  predicate Marks(specs: Specs, w: World, step: Step)
    requires Enabled(specs, w, step)
  {
    && !ContentOf(specs, w.cached).Sound?
    && ((step.Handle? && Same(w.waiting[0], w.cached) && !w.waiting[0].deleting) || (step.Sweep? && SweepDrives(specs, w)))
  }

  /** No sync is in flight that could still report a success. */
  predicate Settled(w: World) { forall i | 0 <= i < |w.jobs| :: w.jobs[i].cleared }

  /** Handling the copy neither records another generation nor starts a sync. */
  predicate Keeps(u: Cached, content: Content, gen: nat) { u.deleting || (u.gen == gen && !content.Sound?) }

  /** No older copy waits for the handler. */
  predicate NoneWaits(specs: Specs, w: World)
    requires AllKnown(specs, w)
  {
    forall i | 0 <= i < |w.waiting| :: Keeps(w.waiting[i], ContentOf(specs, w.waiting[i]), w.cached.gen)
  }

  /** Nothing under way can touch the failure record of the cached generation. */
  predicate Quiet(specs: Specs, w: World) { AllKnown(specs, w) && Settled(w) && NoneWaits(specs, w) }

  predicate OnFile(w: World) { w.failed.Some? && w.failed.value.gen == w.cached.gen }

  /** A sweep cannot start a sync of it: it builds to nothing that could be synced, or it is not Active. */
  predicate Waits(content: Content, u: Cached) { !content.Sound? || u.phase != Active }

  /** The resource and its generation stay from state `m` on; a sound one does not become Active. */
  predicate Stays(content: Content, u: Cached, states: seq<World>, m: nat) {
    forall n | m <= n < |states| :: Same(states[n].cached, u) && Waits(content, states[n].cached)
  }

  lemma StepKeepsFile(specs: Specs, w: World, step: Step)
    requires Enabled(specs, w, step) && Quiet(specs, w) && OnFile(w) && Waits(ContentOf(specs, w.cached), w.cached)
    requires Same(Next(specs, w, step).cached, w.cached)
    ensures OnFile(Next(specs, w, step)) && Quiet(specs, Next(specs, w, step))
  {
    StepKnows(specs, w, step);
  }

  lemma {:induction false} TraceKeepsFile(specs: Specs, states: seq<World>, steps: seq<Step>, m: nat, n: nat)
    requires IsTrace(specs, states, steps) && m <= n < |states| && Quiet(specs, states[m]) && OnFile(states[m])
    requires Stays(ContentOf(specs, states[m].cached), states[m].cached, states, m)
    ensures OnFile(states[n]) && Quiet(specs, states[n])
    decreases n
  {
    if m < n {
      TraceKeepsFile(specs, states, steps, m, n - 1);
      assert Enabled(specs, states[n - 1], steps[n - 1]) && states[n] == Next(specs, states[n - 1], steps[n - 1]);
      StepKeepsFile(specs, states[n - 1], steps[n - 1]);
    }
  }

  /** A generation that failed deterministically, with no sync in flight and no older copy waiting, is not driven again:
      whatever the informer, the handler and the sweeps do, no sweep drives the resource while it is not Active and its
      generation stays. */
  lemma FailureIsNotRetried(specs: Specs, states: seq<World>, steps: seq<Step>, m: nat, n: nat)
    requires IsTrace(specs, states, steps) && m < n < |states| && Marks(specs, states[m], steps[m])
    requires Quiet(specs, states[m + 1]) && Stays(ContentOf(specs, states[m].cached), states[m].cached, states, m + 1)
    requires states[n].cached.phase != Active
    ensures Known(specs, states[n].cached) && !SweepDrives(specs, states[n])
  {
    assert Enabled(specs, states[m], steps[m]) && states[m + 1] == Next(specs, states[m], steps[m]);
    TraceKeepsFile(specs, states, steps, m + 1, n);
  }

  predicate Rests(specs: Specs, w: World) {
    Known(specs, w.cached) && w.cached.phase != Active ==> !SweepDrives(specs, w)
  }

  /** From `w` on, no sweep drives the resource while it is not Active and its generation stays. */
  ghost predicate NeverRetried(specs: Specs, w: World)
    requires Known(specs, w.cached)
  {
    forall states, steps
      | IsTrace(specs, states, steps) && states[0] == w && Stays(ContentOf(specs, w.cached), w.cached, states, 0) ::
      Rests(specs, states[|steps|])
  }

  /** A sync still in flight that succeeds wipes the record, and the next sweep drives the failed generation. */
  lemma LateSyncReopens(specs: Specs, w: World, i: nat)
    requires Known(specs, w.cached) && OnFile(w) && i < |w.jobs| && !w.jobs[i].cleared
    requires w.cached.phase != Active && !w.cached.latched && !w.cached.deleting
    ensures Enabled(specs, w, SyncClears(i)) && !SweepDrives(specs, w) && SweepDrives(specs, Next(specs, w, SyncClears(i)))
  {
  }

  /** So does the handler when it comes to an older copy, at once or when the sync it starts succeeds. */
  lemma OlderHandlerReopens(specs: Specs, w: World)
    requires AllKnown(specs, w) && w.waiting != []
    requires !Keeps(w.waiting[0], ContentOf(specs, w.waiting[0]), w.cached.gen)
    requires w.cached.phase != Active && !w.cached.latched && !w.cached.deleting
    ensures Enabled(specs, w, Handle(true))
    ensures var w' := Next(specs, w, Handle(true));
            if ContentOf(specs, w.waiting[0]).Sound?
            then Enabled(specs, w', SyncClears(|w.jobs|)) && SweepDrives(specs, Next(specs, w', SyncClears(|w.jobs|)))
            else SweepDrives(specs, w')
  {
  }

  /** The copy a status write with an error leaves. */
  function Erred(u: Cached): Cached { u.(phase := Error, latched := false) }

  lemma Told(specs: Specs, w: World, u: Cached)
    requires Known(specs, w.cached) && Same(u, w.cached) && !u.deleting && !w.cached.deleting
    ensures Enabled(specs, w, Informer(u, false)) && Next(specs, w, Informer(u, false)) == w.(cached := u)
    ensures IsTrace(specs, [w, w.(cached := u)], [Informer(u, false)])
  {
    assert w.waiting + [] == w.waiting;
  }

  lemma JobReopens(specs: Specs, w: World, i: nat) returns (states: seq<World>, steps: seq<Step>)
    requires Known(specs, w.cached) && OnFile(w) && !w.cached.deleting && i < |w.jobs| && !w.jobs[i].cleared
    requires Waits(ContentOf(specs, w.cached), w.cached)
    ensures IsTrace(specs, states, steps) && states[0] == w && Stays(ContentOf(specs, w.cached), w.cached, states, 0)
    ensures !Rests(specs, states[|steps|])
  {
    var u := Erred(w.cached);
    Told(specs, w, u);
    LateSyncReopens(specs, w.(cached := u), i);
    var last := Extended(specs, [w, w.(cached := u)], [Informer(u, false)], SyncClears(i));
    states, steps := [w, w.(cached := u)] + [last], [Informer(u, false)] + [SyncClears(i)];
  }

  lemma CopyReopens(specs: Specs, w: World, i: nat) returns (states: seq<World>, steps: seq<Step>)
    requires AllKnown(specs, w) && !w.cached.deleting && i < |w.waiting|
    requires !Keeps(w.waiting[i], ContentOf(specs, w.waiting[i]), w.cached.gen)
    requires Waits(ContentOf(specs, w.cached), w.cached)
    ensures IsTrace(specs, states, steps) && states[0] == w && Stays(ContentOf(specs, w.cached), w.cached, states, 0)
    ensures !Rests(specs, states[|steps|])
  {
    var u := Erred(w.cached);
    Told(specs, w, u);
    states, steps := Drained(specs, [w, w.(cached := u)], [Informer(u, false)], i);
    assert states[0] == w;
    var w' := states[|steps|];
    OlderHandlerReopens(specs, w');
    var w1 := Extended(specs, states, steps, Handle(true));
    states, steps := states + [w1], steps + [Handle(true)];
    if ContentOf(specs, w.waiting[i]).Sound? {
      var w2 := Extended(specs, states, steps, SyncClears(|w'.jobs|));
      states, steps := states + [w2], steps + [SyncClears(|w'.jobs|)];
    }
  }

  lemma {:induction false} DeletingStays(specs: Specs, states: seq<World>, steps: seq<Step>, n: nat)
    requires IsTrace(specs, states, steps) && n < |states| && states[0].cached.deleting
    requires forall j | 0 <= j < |states| :: Same(states[j].cached, states[0].cached)
    ensures states[n].cached.deleting
    decreases n
  {
    if n > 0 {
      DeletingStays(specs, states, steps, n - 1);
      assert Enabled(specs, states[n - 1], steps[n - 1]) && states[n] == Next(specs, states[n - 1], steps[n - 1]);
    }
  }

  /** From any state with the cached generation on record as failed: it is never driven again while it stays, exactly
      when no sync is in flight and no older copy waits for the handler, or it is being deleted. */
  lemma NeverRetriedIff(specs: Specs, w: World)
    requires AllKnown(specs, w) && OnFile(w) && Waits(ContentOf(specs, w.cached), w.cached)
    ensures NeverRetried(specs, w) <==> w.cached.deleting || Quiet(specs, w)
  {
    if w.cached.deleting || Quiet(specs, w) {
      forall states, steps
        | IsTrace(specs, states, steps) && states[0] == w && Stays(ContentOf(specs, w.cached), w.cached, states, 0)
        ensures Rests(specs, states[|steps|])
      {
        if w.cached.deleting {
          DeletingStays(specs, states, steps, |steps|);
        } else {
          TraceKeepsFile(specs, states, steps, 0, |steps|);
        }
      }
    } else if !Settled(w) {
      var i :| 0 <= i < |w.jobs| && !w.jobs[i].cleared;
      var states, steps := JobReopens(specs, w, i);
    } else {
      var i :| 0 <= i < |w.waiting| && !Keeps(w.waiting[i], ContentOf(specs, w.waiting[i]), w.cached.gen);
      var states, steps := CopyReopens(specs, w, i);
    }
  }

  // ----- a resource created anew ----------------------------------------------------------------

  /** A failure on record belongs to a resource of the name that was there since `first`, and did fail. */
  predicate Sane(specs: Specs, w: World, first: nat) {
    && AllKnown(specs, w)
    && first <= w.cached.uid
    && (forall i | 0 <= i < |w.waiting| :: first <= w.waiting[i].uid <= w.cached.uid)
    && (w.failed.Some? ==> var f := w.failed.value;
          first <= f.uid <= w.cached.uid < |specs| && f.gen < |specs[f.uid]| && !specs[f.uid][f.gen].Sound?)
  }

  lemma StepSane(specs: Specs, w: World, step: Step, first: nat)
    requires Enabled(specs, w, step) && Sane(specs, w, first)
    ensures Sane(specs, Next(specs, w, step), first)
  {
    StepKnows(specs, w, step);
  }

  lemma {:induction false} RunSane(specs: Specs, states: seq<World>, steps: seq<Step>, n: nat)
    requires IsRun(specs, states, steps) && n < |states|
    ensures Sane(specs, states[n], states[0].cached.uid)
    decreases n
  {
    if n > 0 {
      RunSane(specs, states, steps, n - 1);
      assert Enabled(specs, states[n - 1], steps[n - 1]) && states[n] == Next(specs, states[n - 1], steps[n - 1]);
      StepSane(specs, states[n - 1], steps[n - 1], states[0].cached.uid);
    }
  }

  /** In every state of every run: a sound resource that is neither Active nor latched nor being deleted is driven by the
      next sweep, exactly when no earlier resource of its name has a failure of the same generation number on record. In
      particular it is driven if its name was never taken by another resource. */
  lemma SoundIsDrivenIff(specs: Specs, states: seq<World>, steps: seq<Step>, n: nat)
    requires IsRun(specs, states, steps) && n < |states|
    requires var u := states[n].cached; u.phase != Active && !u.latched && !u.deleting
    requires Known(specs, states[n].cached) && ContentOf(specs, states[n].cached).Sound?
    ensures var u, failed := states[n].cached, states[n].failed;
            SweepDrives(specs, states[n]) <==> !(failed.Some? && failed.value.gen == u.gen && failed.value.uid < u.uid)
    ensures states[n].cached.uid == states[0].cached.uid ==> SweepDrives(specs, states[n])
  {
    RunSane(specs, states, steps, n);
  }

  /** The other case is reached: the first resource of the name fails at a generation, it is created anew with content
      that builds, and its first sync fails. From then on no sweep drives it while it is not Active. */
  lemma RecreatedIsSkipped(rego: string, u: Cached, u': Cached) returns (states: seq<World>, steps: seq<Step>)
    requires u.uid == 0 && u.gen == 0 && !u.deleting
    requires u'.uid == 1 && u'.gen == 0 && u'.phase != Active && !u'.latched && !u'.deleting
    ensures var specs := [[Unbuildable], [Sound(rego)]];
            && IsRun(specs, states, steps) && |steps| == 4 && steps[3] == SyncFails(0)
            && states[4].cached == u' && !SweepDrives(specs, states[4]) && NeverRetried(specs, states[4])
  {
    var specs := [[Unbuildable], [Sound(rego)]];
    var w0 := World(u, [u], None, None, []);
    steps := [Handle(true), Informer(u', true), Handle(true), SyncFails(0)];
    var w1 := Next(specs, w0, steps[0]);
    var w2 := Next(specs, w1, steps[1]);
    var w3 := Next(specs, w2, steps[2]);
    var w4 := Next(specs, w3, steps[3]);
    states := [w0, w1, w2, w3, w4];
    NeverRetriedIff(specs, w4);
  }

  // ----- the applied record ---------------------------------------------------------------------

  /** The step records `rego` as applied. */
  predicate Stamps(w: World, step: Step, rego: string) {
    rego != "" && step.Stamp? && step.i < |w.jobs| && w.jobs[step.i].rego == rego
  }

  ghost predicate StampedAt(states: seq<World>, steps: seq<Step>, rego: string, k: nat, j: nat)
    requires |states| == |steps| + 1 && j < |states|
  {
    && k < j && Stamps(states[k], steps[k], rego)
    && forall m {:trigger steps[m]} | k < m < j :: !StampsOther(states[m], steps[m], rego)
  }

  ghost predicate Stamped(states: seq<World>, steps: seq<Step>, rego: string, j: nat)
    requires |states| == |steps| + 1 && j < |states|
  {
    exists k: nat :: StampedAt(states, steps, rego, k, j)
  }

  /** The applied record holds a fingerprint exactly when a sync stamped it and no other content has been stamped
      since, whatever happened to the annotation. */
  lemma {:induction false} AppliedRecordIff(specs: Specs, states: seq<World>, steps: seq<Step>, rego: string, j: nat)
    requires IsRun(specs, states, steps) && j < |states| && rego != ""
    ensures states[j].applied.Some? && states[j].applied.value == rego <==> Stamped(states, steps, rego, j)
    decreases j
  {
    if j > 0 {
      var n := j - 1;
      assert Enabled(specs, states[n], steps[n]) && states[n + 1] == Next(specs, states[n], steps[n]);
      AppliedRecordIff(specs, states, steps, rego, n);
      StampedNext(states, steps, rego, n);
    }
  }

  /** The step records something else than `rego`. */
  predicate StampsOther(w: World, step: Step, rego: string) {
    step.Stamp? && step.i < |w.jobs| && w.jobs[step.i].rego !in {"", rego}
  }

  lemma StampedNext(states: seq<World>, steps: seq<Step>, rego: string, n: nat)
    requires |states| == |steps| + 1 && n < |steps|
    ensures Stamped(states, steps, rego, n + 1) <==>
            Stamps(states[n], steps[n], rego) || (Stamped(states, steps, rego, n) && !StampsOther(states[n], steps[n], rego))
  {
    var j := n + 1;
    if k: nat :| StampedAt(states, steps, rego, k, j) {
      if k < n {
        assert !StampsOther(states[n], steps[n], rego);
        assert StampedAt(states, steps, rego, k, n);
      }
    }
    if k: nat :| StampedAt(states, steps, rego, k, n) {
      assert !StampsOther(states[n], steps[n], rego) ==> StampedAt(states, steps, rego, k, j);
    }
    assert Stamps(states[n], steps[n], rego) ==> StampedAt(states, steps, rego, n, j);
  }

  /** After a sync stamped what is desired, no sweep drives the resource as drift until other content is stamped
      or the desired content changes. */
  lemma SyncedIsNotDrift(specs: Specs, states: seq<World>, steps: seq<Step>, k: nat, j: nat)
    requires IsRun(specs, states, steps) && j < |states| && Known(specs, states[j].cached) && states[j].cached.phase == Active
    requires var content := ContentOf(specs, states[j].cached);
             !content.Unbuildable? && StampedAt(states, steps, content.rego, k, j)
    ensures !SweepDrives(specs, states[j])
  {
    var rego := ContentOf(specs, states[j].cached).rego;
    AppliedRecordIff(specs, states, steps, rego, j);
  }

  /** Handling the copy starts no sync of other content. */
  predicate KeepsRego(u: Cached, content: Content, rego: string) {
    u.deleting || !content.Sound? || content.rego in {"", rego}
  }

  /** No sync in flight and no copy waiting for the handler can stamp other content. */
  predicate Agrees(specs: Specs, w: World, rego: string) {
    && AllKnown(specs, w)
    && (forall i | 0 <= i < |w.jobs| :: w.jobs[i].rego in {"", rego})
    && (forall i | 0 <= i < |w.waiting| :: KeepsRego(w.waiting[i], ContentOf(specs, w.waiting[i]), rego))
  }

  predicate Applied(w: World, rego: string) { w.applied.Some? && w.applied.value == rego }

  /** The content of the cached copy is `rego`. */
  predicate Wants(specs: Specs, u: Cached, rego: string) {
    Known(specs, u) && !ContentOf(specs, u).Unbuildable? && ContentOf(specs, u).rego == rego
  }

  lemma StepKeepsApplied(specs: Specs, w: World, step: Step, rego: string)
    requires Enabled(specs, w, step) && Wants(specs, w.cached, rego) && Applied(w, rego) && Agrees(specs, w, rego)
    requires Same(Next(specs, w, step).cached, w.cached)
    ensures Applied(Next(specs, w, step), rego) && Agrees(specs, Next(specs, w, step), rego)
  {
    StepKnows(specs, w, step);
  }

  /** The resource and its generation stay. */
  predicate Remains(u: Cached, states: seq<World>) { forall n | 0 <= n < |states| :: Same(states[n].cached, u) }

  lemma {:induction false} TraceKeepsApplied(specs: Specs, states: seq<World>, steps: seq<Step>, rego: string, n: nat)
    requires IsTrace(specs, states, steps) && Remains(states[0].cached, states) && n < |states|
    requires Wants(specs, states[0].cached, rego) && Applied(states[0], rego) && Agrees(specs, states[0], rego)
    ensures Applied(states[n], rego) && Agrees(specs, states[n], rego)
    decreases n
  {
    if n > 0 {
      TraceKeepsApplied(specs, states, steps, rego, n - 1);
      assert Enabled(specs, states[n - 1], steps[n - 1]) && states[n] == Next(specs, states[n - 1], steps[n - 1]);
      StepKeepsApplied(specs, states[n - 1], steps[n - 1], rego);
    }
  }

  /** An Active resource is not driven. */
  predicate Converged(specs: Specs, w: World) {
    Known(specs, w.cached) && w.cached.phase == Active ==> !SweepDrives(specs, w)
  }

  /** From `w` on, no sweep drives the resource as drift while its generation stays. */
  ghost predicate NeverDrifts(specs: Specs, w: World) {
    forall states, steps | IsTrace(specs, states, steps) && states[0] == w && Remains(w.cached, states) ::
      Converged(specs, states[|steps|])
  }

  /** The copy of a resource whose annotation write failed. */
  function Unnoted(u: Cached): Cached { u.(phase := Active, note := "") }

  /** A sync with other content that finishes stamps it, and the next sweep sees drift. */
  lemma FinishDrifts(specs: Specs, states: seq<World>, steps: seq<Step>, u: Cached, rego: string, i: nat)
    returns (states': seq<World>, steps': seq<Step>)
    requires IsTrace(specs, states, steps) && Remains(u, states) && !u.deleting
    requires Wants(specs, u, rego) && rego != "" && states[|steps|].cached == Unnoted(u)
    requires i < |states[|steps|].jobs| && states[|steps|].jobs[i].rego !in {"", rego}
    ensures IsTrace(specs, states', steps') && states <= states' && Remains(u, states')
    ensures !Converged(specs, states'[|steps'|])
  {
    states', steps' := states, steps;
    if !states[|steps|].jobs[i].cleared {
      var w := Extended(specs, states', steps', SyncClears(i));
      states', steps' := states' + [w], steps' + [SyncClears(i)];
    }
    var w := Extended(specs, states', steps', Stamp(i));
    states', steps' := states' + [w], steps' + [Stamp(i)];
  }

  lemma OtherSyncDrifts(specs: Specs, w: World, rego: string, i: nat) returns (states: seq<World>, steps: seq<Step>)
    requires Wants(specs, w.cached, rego) && rego != "" && !w.cached.deleting
    requires i < |w.jobs| && w.jobs[i].rego !in {"", rego}
    ensures IsTrace(specs, states, steps) && states[0] == w && Remains(w.cached, states)
    ensures !Converged(specs, states[|steps|])
  {
    var u := Unnoted(w.cached);
    Told(specs, w, u);
    states, steps := FinishDrifts(specs, [w, w.(cached := u)], [Informer(u, false)], w.cached, rego, i);
    assert states[0] == [w, w.(cached := u)][0];
  }

  /** So does a copy with other content that the handler still has to come to. */
  lemma OtherCopyDrifts(specs: Specs, w: World, rego: string, i: nat) returns (states: seq<World>, steps: seq<Step>)
    requires AllKnown(specs, w) && Wants(specs, w.cached, rego) && rego != "" && !w.cached.deleting
    requires i < |w.waiting| && !KeepsRego(w.waiting[i], ContentOf(specs, w.waiting[i]), rego)
    ensures IsTrace(specs, states, steps) && states[0] == w && Remains(w.cached, states)
    ensures !Converged(specs, states[|steps|])
  {
    var u := Unnoted(w.cached);
    Told(specs, w, u);
    states, steps := Drained(specs, [w, w.(cached := u)], [Informer(u, false)], i);
    assert states[0] == w && states[1] == w.(cached := u);
    var w1 := Extended(specs, states, steps, Handle(true));
    states, steps := states + [w1], steps + [Handle(true)];
    states, steps := FinishDrifts(specs, states, steps, w.cached, rego, |w.jobs|);
  }

  /** From any state in which the desired content is on record as applied: the resource is never driven as drift while
      its generation stays, even if every annotation write fails, exactly when no sync of other content is in flight and
      no copy with other content waits for the handler, or it is being deleted. */
  lemma NeverDriftsIff(specs: Specs, w: World, rego: string)
    requires AllKnown(specs, w) && Wants(specs, w.cached, rego) && rego != "" && Applied(w, rego)
    ensures NeverDrifts(specs, w) <==> w.cached.deleting || Agrees(specs, w, rego)
  {
    if w.cached.deleting || Agrees(specs, w, rego) {
      forall states, steps | IsTrace(specs, states, steps) && states[0] == w && Remains(w.cached, states)
        ensures Converged(specs, states[|steps|])
      {
        if w.cached.deleting {
          DeletingStays(specs, states, steps, |steps|);
        } else {
          TraceKeepsApplied(specs, states, steps, rego, |steps|);
        }
      }
    } else if i :| 0 <= i < |w.jobs| && w.jobs[i].rego !in {"", rego} {
      var states, steps := OtherSyncDrifts(specs, w, rego, i);
    } else {
      var i :| 0 <= i < |w.waiting| && !KeepsRego(w.waiting[i], ContentOf(specs, w.waiting[i]), rego);
      var states, steps := OtherCopyDrifts(specs, w, rego, i);
    }
  }

  // ----- a run in which the failure record is lost ----------------------------------------------

  /** Such a state is reached from the start of a process: the sync of an older generation is still in flight when a
      newer one fails, and the sweep drives that one again although it has not changed. */
  lemma OlderSyncReopens(first: string, u: Cached, u': Cached) returns (states: seq<World>, steps: seq<Step>)
    requires u.uid == 0 && u.gen == 0 && !u.deleting
    requires u'.uid == 0 && u'.gen == 1 && u'.phase != Active && !u'.latched && !u'.deleting
    ensures var specs := [[Sound(first), Unbuildable]];
            && IsRun(specs, states, steps) && |states| == 5
            && Marks(specs, states[2], steps[2])
            && (forall n | 2 <= n < 5 :: states[n].cached == u')
            && !SweepDrives(specs, states[3]) && SweepDrives(specs, states[4])
  {
    var specs := [[Sound(first), Unbuildable]];
    var w0 := World(u, [u], None, None, []);
    steps := [Handle(true), Informer(u', false), Handle(true), SyncClears(0)];
    var w1 := Next(specs, w0, steps[0]);
    var w2 := Next(specs, w1, steps[1]);
    var w3 := Next(specs, w2, steps[2]);
    var w4 := Next(specs, w3, steps[3]);
    states := [w0, w1, w2, w3, w4];
  }

  // ----- the sweep over the store ---------------------------------------------------------------

  datatype Policy = Policy(key: string, cached: Cached, content: Content)

  function Lookup<T>(m: map<string, T>, key: string): Option<T> { if key in m then Some(m[key]) else None }

  predicate Driven(p: Policy, failed: map<string, nat>, applied: map<string, string>) {
    Drives(p.cached, p.content, Lookup(failed, p.key), Lookup(applied, p.key))
  }

  predicate Distinct(policies: seq<Policy>) {
    forall i, j | 0 <= i < j < |policies| :: policies[i].key != policies[j].key
  }

  class Controller {
    var failedGen: map<string, nat>
    var appliedRego: map<string, string>

    constructor ()
      ensures failedGen == map[] && appliedRego == map[]
    {
      failedGen, appliedRego := map[], map[];
    }

    /** The maps hold what the step system has on record for one resource. */
    ghost predicate Holds(key: string, w: World)
      reads this
    {
      Lookup(failedGen, key) == FailedGen(w.failed) && Lookup(appliedRego, key) == w.applied
    }

    /** Handling a copy is the step system's, for its own name and for no other; a copy that is being deleted is left to
        the finalizer. */
    method HandlePolicy(p: Policy, starts: bool, ghost w: World) returns (synced: bool)
      requires Holds(p.key, w)
      modifies this`failedGen
      ensures synced <==> !p.cached.deleting && p.content.Sound? && starts
      ensures Holds(p.key, Handled(w, p.cached, p.content, starts))
      ensures forall key | key != p.key :: Lookup(failedGen, key) == Lookup(old(failedGen), key)
    {
      if p.cached.deleting {
        return false;
      }
      if !p.content.Sound? {
        failedGen := failedGen[p.key := p.cached.gen];
        return false;
      }
      synced := starts;
    }

    /** A sync that succeeded takes the step system's two steps, for its own resource and for no other. */
    method SyncSucceeded(key: string, rego: string, ghost specs: Specs, ghost w: World, ghost i: nat)
      requires Holds(key, w) && Enabled(specs, w, SyncClears(i)) && w.jobs[i].rego == rego
      modifies this
      ensures var cleared := Next(specs, w, SyncClears(i));
              Enabled(specs, cleared, Stamp(i)) && Holds(key, Next(specs, cleared, Stamp(i)))
      ensures forall other | other != key ::
                Lookup(failedGen, other) == Lookup(old(failedGen), other) &&
                Lookup(appliedRego, other) == Lookup(old(appliedRego), other)
    {
      failedGen := failedGen - {key};
      if rego != "" {
        appliedRego := appliedRego[key := rego];
      }
    }

    /** One pass: exactly the resources that drive are handled, and a deterministic failure found on the way
        is recorded for its own resource only. */
    method Sweep(policies: seq<Policy>) returns (driven: set<string>)
      requires Distinct(policies)
      modifies this`failedGen
      ensures forall i | 0 <= i < |policies| ::
                policies[i].key in driven <==> Driven(policies[i], old(failedGen), appliedRego)
      ensures forall key | key in driven :: exists i | 0 <= i < |policies| :: policies[i].key == key
      ensures forall i | 0 <= i < |policies| && policies[i].key in driven && !policies[i].content.Sound? ::
                Lookup(failedGen, policies[i].key) == Some(policies[i].cached.gen)
      ensures forall key | key !in driven :: Lookup(failedGen, key) == Lookup(old(failedGen), key)
    {
      driven := {};
      for i := 0 to |policies|
        invariant forall j | 0 <= j < i :: policies[j].key in driven <==> Driven(policies[j], old(failedGen), appliedRego)
        invariant forall key | key in driven :: exists j | 0 <= j < i :: policies[j].key == key
        invariant forall j | 0 <= j < i && policies[j].key in driven && !policies[j].content.Sound? ::
                    Lookup(failedGen, policies[j].key) == Some(policies[j].cached.gen)
        invariant forall key | key !in driven :: Lookup(failedGen, key) == Lookup(old(failedGen), key)
      {
        var p := policies[i];
        assert p.key !in driven;
        if Driven(p, failedGen, appliedRego) {
          ghost var failed := if p.key in failedGen then Some(Mark(p.cached.uid, failedGen[p.key])) else None;
          ghost var w := World(p.cached, [], failed, Lookup(appliedRego, p.key), []);
          var synced := HandlePolicy(p, true, w);
          driven := driven + {p.key};
        }
      }
    }
  }
}
