/**
  Logout revocation across API processes (norviq/api/session_revocation.py) as a step system.

  Every process holds a mirror, a retry queue and a pull watermark; all of them share Redis and
  Postgres. One `Step` is one stretch of code between two awaits, or one event outside the processes
  (a commit, a Redis wipe, the pruner, a clock tick). `Apply` gives the state after it.
 */
module Revocation {
  import opened Outcomes

  /** A denylist key. The expiry belongs to the token, so the key carries it. */
  datatype Key = Key(digest: string, exp: int)

  type Pid = nat

  /** Seconds of history an incremental pull re-reads, and the pruner's margin past expiry. */
  const OVERLAP: int := 60
  const PRUNE_MARGIN: int := 60

  predicate Live(k: Key, now: int) { k.exp > now }

  /** What `_prune` keeps. */
  function Prune(keys: set<Key>, now: int): set<Key>
  {
    set k | k in keys && Live(k, now)
  }

  /** A key this module could have written: 64 lower-case hexadecimal digits. */
  predicate IsDigest(s: string) {
    |s| == 64 && forall c | c in s :: '0' <= c <= '9' || 'a' <= c <= 'f'
  }

  datatype TxnState = Open | Committed | Aborted

  /** One `_persist` transaction; it outlives the caller that stops waiting for it. */
  datatype Txn = Txn(keys: set<Key>, state: TxnState)

  /** One logout request: still writing Redis, or queued and waiting for Postgres. */
  datatype Call =
    | ToRedis(keys: set<Key>)
    | Writing(keys: set<Key>, txn: nat)

  /** Where a process is in its sync pass. `boot` is the flag read at the start of the pass, `ok` says
      that the Postgres half did not raise. */
  datatype Pass =
    | Idle
    | Pulling(boot: bool)
    | Read(boot: bool, fetched: set<Key>, readAt: int)
    | Merged(boot: bool)
    | Flushing(boot: bool, pending: set<Key>, txn: nat)
    | RedisHalf(boot: bool, ok: bool)
    | Reconciling(boot: bool, ok: bool)
    | Scanning(intact: bool, ok: bool)
    | Reseeding(imported: set<Key>, reseed: set<Key>, ok: bool)
    | Imported(imported: set<Key>, ok: bool)
    | Importing(imported: set<Key>, txn: nat, ok: bool)
    | Ending(ok: bool)

  /** `serving` says that one pass has returned without raising, so requests are let in. */
  datatype Proc = Proc(
    mirror: set<Key>,
    queue: set<Key>,
    watermark: Option<int>,
    calls: map<nat, Call>,
    pass: Pass,
    serving: bool)

  /** `rows` maps each durable key to its `revoked_at`, stamped by the database clock. */
  datatype World = World(
    now: int,
    dbNow: int,
    procs: map<Pid, Proc>,
    redis: set<Key>,
    marker: bool,
    rows: map<Key, int>,
    txns: map<nat, Txn>)

  /** What one process does between two awaits. */
  datatype Act =
    // a logout
    | RevokeBegin(call: nat, keys: set<Key>)
    | RedisWrite(call: nat, written: set<Key>)
    | RevokeQueue(call: nat, txn: nat)
    | RevokeAck(call: nat)
    | RevokeGiveUp(call: nat)
    | CancelInRedis(call: nat)
    // a sync pass
    | PassBegin
    | PullRead
    | PullMerge
    | FlushBegin(txn: nat)
    | FlushAck
    | StoreFail
    | Rewrite
    | RedisFail(written: set<Key>)
    | ReadMarker
    | Scan(held: set<Key>)
    | Reseed
    | ImportBegin(txn: nat)
    | ImportAck
    | ImportGiveUp
    | PassEnd

  datatype Step =
    | Tick(seconds: nat, dbSeconds: nat)
    | Start(p: Pid)
    | Crash(p: Pid)
    | By(p: Pid, act: Act)
    | Commit(txn: nat, at: int)
    | Abort(txn: nat)
    | Wipe
    | PruneRows(keys: set<Key>)

  // ----- what one process does to its own state -------------------------------------------------

  function FreshProc(): Proc { Proc({}, {}, None, map[], Idle, false) }

  predicate InRedisStage(pr: Proc, c: nat) { c in pr.calls && pr.calls[c].ToRedis? }

  predicate InWriteStage(pr: Proc, c: nat) { c in pr.calls && pr.calls[c].Writing? }

  predicate InStoreHalf(pass: Pass) {
    pass.Pulling? || pass.Read? || pass.Merged? || pass.Flushing?
  }

  /** The rows a pull selects: unexpired, and past the watermark once there is one. */
  function Selected(w: World, watermark: Option<int>): set<Key>
  {
    set k | k in w.rows && Live(k, w.now) && (watermark.None? || w.rows[k] > watermark.value)
  }

  /** The entries `_reconcile_cache` takes over from Redis. */
  function Importable(mirror: set<Key>, held: set<Key>): set<Key>
  {
    set k | k in held && IsDigest(k.digest) && k !in mirror
  }

  function BeginFlush(pr: Proc, now: int, txn: nat): Proc
    requires pr.pass.Merged?
  {
    var queue := Prune(pr.queue, now);
    pr.(queue := queue,
        pass := if queue == {} then RedisHalf(pr.pass.boot, true) else Flushing(pr.pass.boot, queue, txn))
  }

  function Merge(pr: Proc): Proc
    requires pr.pass.Read?
  {
    pr.(mirror := pr.mirror + pr.pass.fetched,
        watermark := Some(pr.pass.readAt - OVERLAP),
        pass := Merged(pr.pass.boot))
  }

  function Import(pr: Proc, held: set<Key>, now: int): Proc
    requires pr.pass.Scanning?
  {
    var imported := Importable(pr.mirror, held);
    var mirror := pr.mirror + imported;
    pr.(mirror := mirror,
        queue := pr.queue + imported,
        pass := if pr.pass.intact then Imported(imported, pr.pass.ok)
                else Reseeding(imported, Prune(mirror, now), pr.pass.ok))
  }

  // ----- the step relation ----------------------------------------------------------------------

  predicate Enabled(w: World, s: Step)
  {
    match s
    case Tick(_, _) => true
    case Start(p) => p !in w.procs
    case Commit(t, at) => t in w.txns && w.txns[t].state == Open && at <= w.dbNow
    case Abort(t) => t in w.txns && w.txns[t].state == Open
    case Wipe => true
    case PruneRows(ks) => forall k | k in ks :: k.exp < w.now - PRUNE_MARGIN
    case Crash(p) => p in w.procs
    case By(p, a) => p in w.procs && EnabledIn(w, w.procs[p], a)
  }

  predicate EnabledIn(w: World, pr: Proc, a: Act)
  {
    match a
    case RevokeBegin(c, ks) => pr.serving && c !in pr.calls && forall k | k in ks :: Live(k, w.now)
    case RedisWrite(c, ks) => InRedisStage(pr, c) && ks <= pr.calls[c].keys
    case RevokeQueue(c, t) => InRedisStage(pr, c) && t !in w.txns
    case RevokeAck(c) =>
      InWriteStage(pr, c) && pr.calls[c].txn in w.txns && w.txns[pr.calls[c].txn].state == Committed
    case RevokeGiveUp(c) => InWriteStage(pr, c)
    case CancelInRedis(c) => InRedisStage(pr, c)
    case PassBegin => pr.pass.Idle?
    case PullRead => pr.pass.Pulling?
    case PullMerge => pr.pass.Read?
    case FlushBegin(t) => pr.pass.Merged? && t !in w.txns
    case FlushAck =>
      pr.pass.Flushing? && pr.pass.txn in w.txns && w.txns[pr.pass.txn].state == Committed
    case StoreFail => InStoreHalf(pr.pass)
    case Rewrite => pr.pass.RedisHalf? && pr.watermark.Some?
    case RedisFail(ks) =>
      && (pr.pass.RedisHalf? || pr.pass.Reconciling? || pr.pass.Scanning? || pr.pass.Reseeding?)
      && pr.watermark.Some? && ks <= pr.mirror + pr.queue
    case ReadMarker => pr.pass.Reconciling?
    case Scan(held) => pr.pass.Scanning? && held <= Prune(w.redis, w.now)
    case Reseed => pr.pass.Reseeding?
    case ImportBegin(t) => pr.pass.Imported? && t !in w.txns
    case ImportAck =>
      pr.pass.Importing? && pr.pass.txn in w.txns && w.txns[pr.pass.txn].state == Committed
    case ImportGiveUp => pr.pass.Importing?
    case PassEnd => pr.pass.Ending? || (pr.pass.RedisHalf? && pr.watermark.None?)
  }

  /** The acting process after the step. */
  function Local(w: World, pr: Proc, a: Act): Proc
    requires EnabledIn(w, pr, a)
  {
    match a
    case RevokeBegin(c, ks) => pr.(mirror := pr.mirror + ks, calls := pr.calls[c := ToRedis(ks)])
    case RedisWrite(_, _) => pr
    case RevokeQueue(c, t) =>
      var ks := pr.calls[c].keys;
      pr.(queue := pr.queue + ks, calls := pr.calls[c := Writing(ks, t)])
    case RevokeAck(c) => pr.(queue := pr.queue - pr.calls[c].keys, calls := pr.calls - {c})
    case RevokeGiveUp(c) => pr.(calls := pr.calls - {c})
    case CancelInRedis(c) => pr.(calls := pr.calls - {c})
    case PassBegin => pr.(mirror := Prune(pr.mirror, w.now), pass := Pulling(pr.watermark.None?))
    case PullRead => pr.(pass := Read(pr.pass.boot, Selected(w, pr.watermark), w.dbNow))
    case PullMerge => Merge(pr)
    case FlushBegin(t) => BeginFlush(pr, w.now, t)
    case FlushAck => pr.(queue := pr.queue - pr.pass.pending, pass := RedisHalf(pr.pass.boot, true))
    case StoreFail => pr.(pass := RedisHalf(pr.pass.boot, false))
    case Rewrite => pr.(queue := Prune(pr.queue, w.now), pass := Reconciling(pr.pass.boot, pr.pass.ok))
    case RedisFail(_) =>
      pr.(queue := if pr.pass.RedisHalf? then Prune(pr.queue, w.now) else pr.queue, pass := Ending(pr.pass.ok))
    case ReadMarker =>
      pr.(pass := if w.marker && !pr.pass.boot then Ending(pr.pass.ok) else Scanning(w.marker, pr.pass.ok))
    case Scan(held) => Import(pr, held, w.now)
    case Reseed => pr.(pass := Imported(pr.pass.imported, pr.pass.ok))
    case ImportBegin(t) =>
      var ks := pr.pass.imported;
      pr.(queue := pr.queue + ks,
          pass := if ks == {} then Ending(pr.pass.ok) else Importing(ks, t, pr.pass.ok))
    case ImportAck => pr.(queue := pr.queue - pr.pass.imported, pass := Ending(pr.pass.ok))
    case ImportGiveUp => pr.(pass := Ending(pr.pass.ok))
    case PassEnd => pr.(pass := Idle, serving := pr.serving || pr.pass.ok)
  }

  /** What the step writes into Redis. */
  function ToCache(w: World, pr: Proc, a: Act): set<Key>
    requires EnabledIn(w, pr, a)
  {
    match a
    case RedisWrite(_, ks) => ks
    case Rewrite => Prune(pr.queue, w.now)
    case RedisFail(ks) => ks
    case Reseed => pr.pass.reseed
    case _ => {}
  }

  /** The insert the step hands to Postgres. */
  function Opened(w: World, pr: Proc, a: Act): Option<(nat, set<Key>)>
    requires EnabledIn(w, pr, a)
  {
    match a
    case RevokeQueue(c, t) => Some((t, pr.calls[c].keys))
    case FlushBegin(t) =>
      var pending := Prune(pr.queue, w.now);
      if pending == {} then None else Some((t, pending))
    case ImportBegin(t) => if pr.pass.imported == {} then None else Some((t, pr.pass.imported))
    case _ => None
  }

  function TxnsAfter(w: World, pr: Proc, a: Act): map<nat, Txn>
    requires EnabledIn(w, pr, a)
  {
    var insert := Opened(w, pr, a);
    if insert.Some? then w.txns[insert.value.0 := Txn(insert.value.1, Open)] else w.txns
  }

  function Apply(w: World, s: Step): World
    requires Enabled(w, s)
  {
    match s
    case Tick(dt, ddb) => w.(now := w.now + dt, dbNow := w.dbNow + ddb)
    case Start(p) => w.(procs := w.procs[p := FreshProc()])
    case Crash(p) => w.(procs := w.procs - {p})
    case Commit(t, at) =>
      // ON CONFLICT DO NOTHING: a key that already has a row keeps it
      w.(rows := (map k | k in w.txns[t].keys :: at) + w.rows,
         txns := w.txns[t := w.txns[t].(state := Committed)])
    case Abort(t) => w.(txns := w.txns[t := w.txns[t].(state := Aborted)])
    case Wipe => w.(redis := {}, marker := false)
    case PruneRows(ks) => w.(rows := w.rows - ks)
    case By(p, a) =>
      var pr := w.procs[p];
      w.(procs := w.procs[p := Local(w, pr, a)],
         redis := w.redis + ToCache(w, pr, a),
         marker := w.marker || a.Reseed?,
         txns := TxnsAfter(w, pr, a))
  }

  /** No process is up. What Redis and the table already hold is arbitrary. */
  predicate Initial(w: World) { w.procs == map[] && w.txns == map[] }

  /** `states` is the run that starts at `states[0]` and takes `steps` one by one. */
  predicate IsTrace(states: seq<World>, steps: seq<Step>)
  {
    && |states| == |steps| + 1
    && forall i {:trigger steps[i]} | 0 <= i < |steps| ::
         Enabled(states[i], steps[i]) && states[i + 1] == Apply(states[i], steps[i])
  }

  predicate IsRun(states: seq<World>, steps: seq<Step>)
  {
    IsTrace(states, steps) && Initial(states[0])
  }

  /** True if `k` is refused here: the mirror half of `is_revoked`. */
  predicate Refuses(w: World, p: Pid, k: Key)
  {
    p in w.procs && k in w.procs[p].mirror && Live(k, w.now)
  }
}
