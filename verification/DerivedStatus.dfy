/** The derived status of classes and configs (webhook/controller.go): a stale flag, a refresh that offers every
    cached object to a bounded queue, and one worker per queue that recounts from the policy cache. */
module DerivedStatus {
  const CAPACITY := 64

  datatype Kind = Class | Config

  datatype Obj = Obj(kind: Kind, name: string)

  // ----- the refresh, run alone -----------------------------------------------------------------

  class StatusQueues {
    var stale: bool
    var classes: seq<Obj>
    var configs: seq<Obj>

    constructor ()
      ensures !stale && classes == [] && configs == []
    {
      stale, classes, configs := false, [], [];
    }

    /** Nothing unless stale; else every object that fits is queued in order, and the flag is armed again exactly
        when one did not fit. */
    method RefreshIfStale(classList: seq<Obj>, configList: seq<Obj>)
      requires |classes| <= CAPACITY && |configs| <= CAPACITY
      modifies this
      ensures !old(stale) ==> !stale && classes == old(classes) && configs == old(configs)
      ensures old(stale) ==> classes == old(classes) + Fitting(classList, CAPACITY - |old(classes)|)
      ensures old(stale) ==> configs == old(configs) + Fitting(configList, CAPACITY - |old(configs)|)
      ensures old(stale) ==>
                (stale <==> |old(classes)| + |classList| > CAPACITY || |old(configs)| + |configList| > CAPACITY)
    {
      if !stale {
        return;
      }
      stale := false;
      var full := false;
      for i := 0 to |classList|
        invariant classes == old(classes) + Fitting(classList[..i], CAPACITY - |old(classes)|) && configs == old(configs)
        invariant full <==> |old(classes)| + i > CAPACITY
        invariant !stale
      {
        assert classList[..i + 1] == classList[..i] + [classList[i]];
        if |classes| < CAPACITY {
          classes := classes + [classList[i]];
        } else {
          full := true;
        }
      }
      assert classList[..|classList|] == classList;
      ghost var classesFull := full;
      for i := 0 to |configList|
        invariant configs == old(configs) + Fitting(configList[..i], CAPACITY - |old(configs)|)
        invariant full <==> classesFull || |old(configs)| + i > CAPACITY
        invariant !stale && classes == old(classes) + Fitting(classList, CAPACITY - |old(classes)|)
      {
        assert configList[..i + 1] == configList[..i] + [configList[i]];
        if |configs| < CAPACITY {
          configs := configs + [configList[i]];
        } else {
          full := true;
        }
      }
      assert configList[..|configList|] == configList;
      if full {
        stale := true;
      }
    }
  }

  function Fitting(list: seq<Obj>, room: nat): seq<Obj> { if |list| <= room then list else list[..room] }

  // ----- the flag and the refresh, interleaved --------------------------------------------------

  /** `base` is the number of changes handled when the flag was taken. */
  datatype Refresh = Resting | Begun(base: nat) | Offering(kind: Kind, base: nat, todo: set<Obj>, full: bool)

  /** `handled` numbers the policy-cache changes whose handler has run; `queued` holds, for an object that was queued
      since it appeared in the store, the number handled when it was last queued. */
  datatype Board = Board(handled: nat, stale: bool, store: set<Obj>, refresh: Refresh, queued: map<Obj, nat>)

  /** A policy handler; a policy handler without a change; an object appears, has its own event, or vanishes; a tick
      takes the flag; the refresh lists one store and then the other, offers an object, and ends. */
  datatype Act =
    | Handler
    | Mark
    | Appear(obj: Obj)
    | Event(obj: Obj)
    | Vanish(obj: Obj)
    | Tick
    | List
    | Offer(obj: Obj)
    | Finish

  predicate Allowed(b: Board, act: Act) {
    match act
    case Handler => true
    case Mark => true
    case Appear(obj) => obj !in b.store
    case Event(obj) => obj in b.store
    case Vanish(obj) => obj in b.store
    case Tick => b.refresh.Resting?
    case List => b.refresh.Begun? || (b.refresh.Offering? && b.refresh.kind == Class && b.refresh.todo == {})
    case Offer(obj) => b.refresh.Offering? && obj in b.refresh.todo
    case Finish => b.refresh.Offering? && b.refresh.kind == Config && b.refresh.todo == {}
  }

  function Listed(b: Board, kind: Kind): set<Obj> { set obj | obj in b.store && obj.kind == kind }

  function Noted(b: Board, obj: Obj): map<Obj, nat> { if obj in b.store then b.queued[obj := b.handled] else b.queued }

  /** `room` is whether the object's queue takes it. */
  function After(b: Board, act: Act, room: bool): Board
    requires Allowed(b, act)
  {
    match act
    case Handler => b.(handled := b.handled + 1, stale := true)
    case Mark => b.(stale := true)
    case Appear(obj) => b.(store := b.store + {obj}, queued := b.queued - {obj})
    case Event(obj) => if room then b.(queued := Noted(b, obj)) else b
    case Vanish(obj) => b.(store := b.store - {obj}, queued := b.queued - {obj})
    case Tick => if b.stale then b.(stale := false, refresh := Begun(b.handled)) else b
    case List =>
      if b.refresh.Begun? then b.(refresh := Offering(Class, b.refresh.base, Listed(b, Class), false))
      else b.(refresh := Offering(Config, b.refresh.base, Listed(b, Config), b.refresh.full))
    case Offer(obj) =>
      var r := b.refresh.(todo := b.refresh.todo - {obj});
      if room then b.(queued := Noted(b, obj), refresh := r) else b.(refresh := r.(full := true))
    case Finish => b.(stale := b.stale || b.refresh.full, refresh := Resting)
  }

  // ----- no change is lost ----------------------------------------------------------------------

  /** A refresh in progress that began after change `v` was handled and will still offer `obj`, or has failed to
      queue something and will arm the flag again. */
  predicate Underway(b: Board, obj: Obj, v: nat) {
    match b.refresh
    case Resting => false
    case Begun(base) => v <= base
    case Offering(kind, base, todo, full) =>
      v <= base && (full || obj in todo || (kind == Class && obj.kind == Config))
  }

  predicate QueuedSince(b: Board, obj: Obj, v: nat) { obj in b.queued && b.queued[obj] >= v }

  /** Change `v` will reach `obj`, or has been queued for it since. */
  predicate Reaches(b: Board, obj: Obj, v: nat) { b.stale || Underway(b, obj, v) || QueuedSince(b, obj, v) }

  predicate Based(b: Board) { !b.stale && !b.refresh.Resting? ==> b.refresh.base >= b.handled }

  predicate CoverInv(b: Board) {
    && Based(b)
    && (forall obj | obj in b.queued :: obj in b.store)
    && (forall obj | obj in b.queued :: Reaches(b, obj, b.handled))
  }

  lemma ActReaches(b: Board, act: Act, room: bool, obj: Obj)
    requires CoverInv(b) && Allowed(b, act) && obj in After(b, act, room).queued
    ensures Reaches(After(b, act, room), obj, After(b, act, room).handled)
  {
    if obj in b.queued {
      assert Reaches(b, obj, b.handled);
    }
  }

  lemma ActCovers(b: Board, act: Act, room: bool)
    requires CoverInv(b) && Allowed(b, act)
    ensures CoverInv(After(b, act, room))
  {
    forall obj | obj in After(b, act, room).queued ensures Reaches(After(b, act, room), obj, After(b, act, room).handled) {
      ActReaches(b, act, room, obj);
    }
  }

  /** An object that was in the store when change `v` was handled and has been there since. */
  predicate Carried(b: Board, obj: Obj, v: nat) { obj in b.store && v <= b.handled && Reaches(b, obj, v) }

  /** No act but the object's own disappearance takes a change away from it: a refresh offers every object of the
      store, also one that no event has ever queued. */
  lemma ActCarries(b: Board, act: Act, room: bool, obj: Obj, v: nat)
    requires Allowed(b, act) && Carried(b, obj, v) && act != Vanish(obj)
    ensures Carried(After(b, act, room), obj, v)
  {
  }

  // ----- one queue and its worker ---------------------------------------------------------------

  /** A queued object, with the number of changes handled when it was queued. */
  datatype Entry = Entry(obj: Obj, tag: nat)

  datatype Job = Free | Taken(entry: Entry) | Counted(entry: Entry, seen: nat)

  /** `done` is the highest tag worked off for an object, `written` the highest one whose status write succeeded,
      and `status` the number of the policy cache its status was counted from. */
  datatype Line = Line(queue: seq<Entry>, job: Job, done: map<Obj, nat>, written: map<Obj, nat>, status: map<Obj, nat>)

  datatype Move = Send(entry: Entry) | Take | Count(cache: nat) | Write(ok: bool)

  predicate Movable(l: Line, move: Move) {
    match move
    case Send(_) => |l.queue| < CAPACITY
    case Take => l.job.Free? && l.queue != []
    case Count(_) => l.job.Taken?
    case Write(_) => l.job.Counted?
  }

  function Raised(m: map<Obj, nat>, obj: Obj, tag: nat): map<Obj, nat> {
    m[obj := if obj in m && m[obj] > tag then m[obj] else tag]
  }

  function Moved(l: Line, move: Move): Line
    requires Movable(l, move)
  {
    match move
    case Send(entry) => l.(queue := l.queue + [entry])
    case Take => l.(job := Taken(l.queue[0]), queue := l.queue[1..])
    case Count(cache) => l.(job := Counted(l.job.entry, cache))
    case Write(ok) =>
      var e, l' := l.job.entry, l.(job := Free, done := Raised(l.done, l.job.entry.obj, l.job.entry.tag));
      if ok then l'.(written := Raised(l.written, e.obj, e.tag), status := l.status[e.obj := l.job.seen]) else l'
  }

  predicate Waiting(l: Line, obj: Obj, v: nat) {
    exists i | 0 <= i < |l.queue| :: l.queue[i].obj == obj && l.queue[i].tag >= v
  }

  /** An update queued after change `v` is waiting, being worked on, or has been worked off. */
  predicate Attended(l: Line, obj: Obj, v: nat) {
    || Waiting(l, obj, v)
    || (!l.job.Free? && l.job.entry.obj == obj && l.job.entry.tag >= v)
    || (obj in l.done && l.done[obj] >= v)
  }

  /** What is attended to stays attended to. */
  lemma StaysAttended(l: Line, move: Move, obj: Obj, v: nat)
    requires Movable(l, move) && Attended(l, obj, v)
    ensures Attended(Moved(l, move), obj, v)
  {
    if Waiting(l, obj, v) {
      var i :| 0 <= i < |l.queue| && l.queue[i].obj == obj && l.queue[i].tag >= v;
      if move.Take? {
        assert i > 0 ==> Moved(l, move).queue[i - 1] == l.queue[i];
      } else {
        assert Moved(l, move).queue[i] == l.queue[i];
      }
    }
  }

  /** Nothing is queued ahead of the cache, and an update in work has counted at least what it was queued for. */
  predicate LineInv(l: Line, cache: nat) {
    && (forall i | 0 <= i < |l.queue| :: l.queue[i].tag <= cache)
    && (l.job.Taken? ==> l.job.entry.tag <= cache)
    && (l.job.Counted? ==> l.job.entry.tag <= l.job.seen <= cache)
    && (l.job.Counted? && l.job.entry.obj in l.status ==> l.status[l.job.entry.obj] <= l.job.seen)
    && (forall obj | obj in l.written :: obj in l.status && l.written[obj] <= l.status[obj])
    && (forall obj | obj in l.status :: l.status[obj] <= cache)
  }

  predicate Timely(move: Move, cache: nat) {
    (move.Send? ==> move.entry.tag <= cache) && (move.Count? ==> move.cache == cache)
  }

  lemma MoveKeeps(l: Line, move: Move, cache: nat)
    requires LineInv(l, cache) && Movable(l, move) && Timely(move, cache)
    ensures LineInv(Moved(l, move), cache)
    ensures forall obj | obj in l.status :: obj in Moved(l, move).status && l.status[obj] <= Moved(l, move).status[obj]
  {
  }

  // ----- the whole controller -------------------------------------------------------------------

  datatype World = World(cache: nat, board: Board, classes: Line, configs: Line)

  datatype Step = Change | On(act: Act) | By(kind: Kind, move: Move)

  function LineOf(w: World, kind: Kind): Line { if kind == Class then w.classes else w.configs }

  function WithLine(w: World, kind: Kind, l: Line): World {
    if kind == Class then w.(classes := l) else w.(configs := l)
  }

  /** The act offers an object to its queue. */
  predicate Offers(act: Act) { act.Event? || act.Offer? }

  predicate Room(w: World, act: Act) { Offers(act) && |LineOf(w, act.obj.kind).queue| < CAPACITY }

  predicate Enabled(w: World, step: Step) {
    match step
    case Change => true
    case On(act) => Allowed(w.board, act) && (act.Handler? ==> w.board.handled < w.cache)
    case By(kind, move) => !move.Send? && Movable(LineOf(w, kind), move) && Timely(move, w.cache)
  }

  function Next(w: World, step: Step): World
    requires Enabled(w, step)
  {
    match step
    case Change => w.(cache := w.cache + 1)
    case On(act) =>
      var w' := w.(board := After(w.board, act, Room(w, act)));
      if Room(w, act)
      then WithLine(w', act.obj.kind, Moved(LineOf(w, act.obj.kind), Send(Entry(act.obj, w.board.handled))))
      else w'
    case By(kind, move) => WithLine(w, kind, Moved(LineOf(w, kind), move))
  }

  const EMPTY := Line([], Free, map[], map[], map[])

  predicate IsRun(states: seq<World>, steps: seq<Step>) {
    && |states| == |steps| + 1
    && states[0] == World(states[0].cache, Board(0, false, {}, Resting, map[]), EMPTY, EMPTY)
    && forall i {:trigger steps[i]} | 0 <= i < |steps| ::
         Enabled(states[i], steps[i]) && states[i + 1] == Next(states[i], steps[i])
  }

  /** Everything queued is attended to. */
  predicate AllAttended(w: World) {
    forall obj | obj in w.board.queued :: Attended(LineOf(w, obj.kind), obj, w.board.queued[obj])
  }

  predicate Inv(w: World) {
    && w.board.handled <= w.cache && CoverInv(w.board)
    && LineInv(w.classes, w.cache) && LineInv(w.configs, w.cache)
    && AllAttended(w)
  }

  lemma SentIsAttended(l: Line, entry: Entry)
    requires |l.queue| < CAPACITY
    ensures Attended(Moved(l, Send(entry)), entry.obj, entry.tag)
  {
    assert Moved(l, Send(entry)).queue[|l.queue|] == entry;
  }

  lemma StepAttends(w: World, step: Step, obj: Obj)
    requires Inv(w) && Enabled(w, step) && obj in Next(w, step).board.queued
    ensures Attended(LineOf(Next(w, step), obj.kind), obj, Next(w, step).board.queued[obj])
  {
    var l, l' := LineOf(w, obj.kind), LineOf(Next(w, step), obj.kind);
    if step.On? && Room(w, step.act) {
      var entry := Entry(step.act.obj, w.board.handled);
      SentIsAttended(LineOf(w, step.act.obj.kind), entry);
      if obj in w.board.queued && step.act.obj.kind == obj.kind {
        StaysAttended(l, Send(entry), obj, w.board.queued[obj]);
      }
    } else if step.By? && step.kind == obj.kind {
      StaysAttended(l, step.move, obj, w.board.queued[obj]);
    }
  }

  lemma StepLines(w: World, step: Step, kind: Kind)
    requires Inv(w) && Enabled(w, step)
    ensures LineInv(LineOf(Next(w, step), kind), Next(w, step).cache)
    ensures var l, l' := LineOf(w, kind), LineOf(Next(w, step), kind);
            forall obj | obj in l.status :: obj in l'.status && l.status[obj] <= l'.status[obj]
  {
    assert LineInv(LineOf(w, kind), w.cache);
    if step.On? && Room(w, step.act) {
      MoveKeeps(LineOf(w, step.act.obj.kind), Send(Entry(step.act.obj, w.board.handled)), w.cache);
    } else if step.By? {
      MoveKeeps(LineOf(w, step.kind), step.move, w.cache);
    }
  }

  lemma StepKeeps(w: World, step: Step)
    requires Inv(w) && Enabled(w, step)
    ensures Inv(Next(w, step))
  {
    StepLines(w, step, Class);
    StepLines(w, step, Config);
    if step.On? {
      ActCovers(w.board, step.act, Room(w, step.act));
    }
    forall obj | obj in Next(w, step).board.queued
      ensures Attended(LineOf(Next(w, step), obj.kind), obj, Next(w, step).board.queued[obj])
    {
      StepAttends(w, step, obj);
    }
  }

  lemma {:induction false} RunKeeps(states: seq<World>, steps: seq<Step>, n: nat)
    requires IsRun(states, steps) && n < |states|
    ensures Inv(states[n])
    decreases n
  {
    if n > 0 {
      RunKeeps(states, steps, n - 1);
      assert Enabled(states[n - 1], steps[n - 1]);
      StepKeeps(states[n - 1], steps[n - 1]);
    }
  }

  lemma ReachesEarlier(b: Board, obj: Obj, v: nat)
    requires Reaches(b, obj, b.handled) && v <= b.handled
    ensures Reaches(b, obj, v)
  {
  }

  /** `obj` is in the store at state `h` and does not vanish before state `n`. */
  predicate StoredThrough(states: seq<World>, steps: seq<Step>, h: nat, n: nat, obj: Obj)
    requires h <= n < |states| == |steps| + 1
  {
    obj in states[h].board.store && forall m {:trigger steps[m]} | h <= m < n :: steps[m] != On(Vanish(obj))
  }

  lemma {:induction false} RunCarries(states: seq<World>, steps: seq<Step>, h: nat, n: nat, obj: Obj)
    requires IsRun(states, steps) && h < n < |states| && steps[h] == On(Handler)
    requires StoredThrough(states, steps, h, n, obj)
    ensures Carried(states[n].board, obj, states[h + 1].board.handled)
    decreases n
  {
    var m := n - 1;
    assert Enabled(states[m], steps[m]) && states[m + 1] == Next(states[m], steps[m]) && steps[m] != On(Vanish(obj));
    if h < m {
      RunCarries(states, steps, h, m, obj);
      if steps[m].On? {
        ActCarries(states[m].board, steps[m].act, Room(states[m], steps[m].act), obj, states[h + 1].board.handled);
      }
    }
  }

  /** In every state of every run, for every handled change and every object that was in the store then and still
      is: the flag is set, or a refresh that covers the change is under way, or an update queued after the change is
      waiting, in work or worked off. The same holds of an object that came later and was queued since. A worked-off
      update whose write succeeded left a status that reflects the change or a later one. */
  lemma NoChangeLost(states: seq<World>, steps: seq<Step>, h: nat, n: nat, obj: Obj)
    requires IsRun(states, steps) && h < n < |states| && steps[h] == On(Handler)
    requires StoredThrough(states, steps, h, n, obj) || obj in states[n].board.queued
    ensures var w, l, v := states[n], LineOf(states[n], obj.kind), states[h + 1].board.handled;
            && (w.board.stale || Underway(w.board, obj, v) || Attended(l, obj, v))
            && (obj in l.written && l.written[obj] >= v ==> obj in l.status && l.status[obj] >= v)
  {
    RunKeeps(states, steps, n);
    assert LineInv(LineOf(states[n], obj.kind), states[n].cache);
    HandledRises(states, steps, h + 1, n);
    if obj in states[n].board.queued {
      ReachesEarlier(states[n].board, obj, states[h + 1].board.handled);
    } else {
      RunCarries(states, steps, h, n, obj);
    }
  }

  lemma {:induction false} HandledRises(states: seq<World>, steps: seq<Step>, i: nat, j: nat)
    requires IsRun(states, steps) && i <= j < |states|
    ensures states[i].board.handled <= states[j].board.handled
    ensures (forall m {:trigger steps[m]} | i <= m < j :: steps[m] != On(Handler)) ==>
              states[i].board.handled == states[j].board.handled
    decreases j
  {
    if i < j {
      HandledRises(states, steps, i, j - 1);
      assert Enabled(states[j - 1], steps[j - 1]) && states[j] == Next(states[j - 1], steps[j - 1]);
    }
  }

  // ----- which objects are queued ---------------------------------------------------------------

  /** Step `m` offered `obj` to its queue, which took it, and `obj` has not vanished since. */
  predicate TakenAt(states: seq<World>, steps: seq<Step>, m: nat, n: nat, obj: Obj)
    requires n < |states| == |steps| + 1
  {
    && m < n && steps[m].On? && Offers(steps[m].act) && steps[m].act.obj == obj && Room(states[m], steps[m].act)
    && StoredThrough(states, steps, m, n, obj)
  }

  ghost predicate WasTaken(states: seq<World>, steps: seq<Step>, n: nat, obj: Obj)
    requires n < |states| == |steps| + 1
  {
    exists m: nat :: TakenAt(states, steps, m, n, obj)
  }

  lemma StepQueues(w: World, step: Step, obj: Obj)
    requires Enabled(w, step) && CoverInv(w.board)
    ensures var took := step.On? && Offers(step.act) && step.act.obj == obj && Room(w, step.act) && obj in w.board.store;
            obj in Next(w, step).board.queued <==> took || (obj in w.board.queued && step != On(Vanish(obj)))
  {
  }

  /** An object counts as queued exactly when its queue took it, from its own event or from a refresh, at some time
      since it last appeared. */
  lemma {:induction false} QueuedIffTaken(states: seq<World>, steps: seq<Step>, n: nat, obj: Obj)
    requires IsRun(states, steps) && n < |states|
    ensures obj in states[n].board.queued <==> WasTaken(states, steps, n, obj)
    decreases n
  {
    if n > 0 {
      var j := n - 1;
      assert Enabled(states[j], steps[j]) && states[j + 1] == Next(states[j], steps[j]);
      RunKeeps(states, steps, j);
      StepQueues(states[j], steps[j], obj);
      QueuedIffTaken(states, steps, j, obj);
      TakenNext(states, steps, j, obj);
    }
  }

  lemma TakenNext(states: seq<World>, steps: seq<Step>, j: nat, obj: Obj)
    requires |states| == |steps| + 1 && j < |steps|
    ensures var took := steps[j].On? && Offers(steps[j].act) && steps[j].act.obj == obj && Room(states[j], steps[j].act)
                        && obj in states[j].board.store;
            WasTaken(states, steps, j + 1, obj) <==> took || (WasTaken(states, steps, j, obj) && steps[j] != On(Vanish(obj)))
  {
    var n := j + 1;
    if m: nat :| TakenAt(states, steps, m, n, obj) {
      assert steps[j] != On(Vanish(obj));
      if m < j {
        assert TakenAt(states, steps, m, j, obj);
      }
    }
    if m: nat :| TakenAt(states, steps, m, j, obj) {
      assert steps[j] != On(Vanish(obj)) ==> TakenAt(states, steps, m, n, obj);
    }
    if steps[j].On? && Offers(steps[j].act) && steps[j].act.obj == obj && Room(states[j], steps[j].act)
       && obj in states[j].board.store {
      assert TakenAt(states, steps, j, n, obj);
    }
  }

  /** Once the flag is off and no refresh is under way, an object has been queued since the latest change exactly
      when it was in the store at that change and has stayed, or some offer since it appeared found room. */
  lemma QuietIff(states: seq<World>, steps: seq<Step>, h: nat, n: nat, obj: Obj)
    requires IsRun(states, steps) && h < n < |states| && !states[n].board.stale && states[n].board.refresh.Resting?
    requires steps[h] == On(Handler) && forall m {:trigger steps[m]} | h < m < n :: steps[m] != On(Handler)
    ensures QueuedSince(states[n].board, obj, states[n].board.handled) <==>
            StoredThrough(states, steps, h, n, obj) || WasTaken(states, steps, n, obj)
  {
    RunKeeps(states, steps, n);
    HandledRises(states, steps, h + 1, n);
    QueuedIffTaken(states, steps, n, obj);
    if obj in states[n].board.queued {
      assert Reaches(states[n].board, obj, states[n].board.handled);
    }
    if StoredThrough(states, steps, h, n, obj) {
      RunCarries(states, steps, h, n, obj);
    }
  }

  /** A successful status write never takes a status back to an older count. */
  lemma {:induction false} StatusNeverGoesBack(states: seq<World>, steps: seq<Step>, i: nat, j: nat, obj: Obj)
    requires IsRun(states, steps) && i <= j < |states| && obj in LineOf(states[i], obj.kind).status
    ensures var l, l' := LineOf(states[i], obj.kind), LineOf(states[j], obj.kind);
            obj in l'.status && l.status[obj] <= l'.status[obj]
    decreases j - i
  {
    if i < j {
      StatusNeverGoesBack(states, steps, i, j - 1, obj);
      RunKeeps(states, steps, j - 1);
      assert Enabled(states[j - 1], steps[j - 1]);
      StepLines(states[j - 1], steps[j - 1], obj.kind);
    }
  }

  /** A new object whose own event finds its queue full is left out until the next policy change: nothing arms the
      flag for it, and a tick does nothing. */
  lemma DroppedEventIsNotRetried(w: World, obj: Obj)
    requires obj !in w.board.store && !w.board.stale && w.board.refresh.Resting?
    requires |LineOf(w, obj.kind).queue| == CAPACITY
    ensures var w' := Next(Next(w, On(Appear(obj))), On(Event(obj)));
            obj in w'.board.store && obj !in w'.board.queued && Next(w', On(Tick)) == w'
  {
  }
}
