/**
 The outbox table and the webhook workers as a transition system.

 Every SQL statement is one atomic step.  Any number of workers interleave at those
 steps and at their HTTP deliveries.  A statement may fail, and may also take effect
 although the worker sees an error.  A worker may die at any point.
 */
module OutboxModel {
  import opened Options
  import opened Text
  import Retry

  type Eid = nat
  type Wid = nat

  /******* Configuration *******/

  datatype Config = Config(
    pollInterval: int,
    batchSize: int,
    maxAttempts: int,
    workerPool: int,
    staleReclaimMul: int,
    baseDelay: int,
    maxBackoff: int,
    multiplier: real)

  const MILLISECOND := 1_000_000
  const SECOND := 1000 * MILLISECOND
  const MINUTE := 60 * SECOND

  function WithDefaults(c: Config): (d: Config)
    ensures d.pollInterval > 0 && d.batchSize > 0 && d.maxAttempts > 0 && d.workerPool > 0
    ensures d.staleReclaimMul > 0 && d.maxBackoff > 0 && d.baseDelay > 0 && d.multiplier > 0.0
  {
    Config(
      if c.pollInterval <= 0 then 5 * SECOND else c.pollInterval,
      if c.batchSize <= 0 then 20 else c.batchSize,
      if c.maxAttempts <= 0 then 10 else c.maxAttempts,
      if c.workerPool <= 0 then 8 else c.workerPool,
      if c.staleReclaimMul <= 0 then 2 else c.staleReclaimMul,
      if c.baseDelay <= 0 then 100 * MILLISECOND else c.baseDelay,
      if c.maxBackoff <= 0 then 10 * MINUTE else c.maxBackoff,
      if c.multiplier <= 0.0 then 2.0 else c.multiplier)
  }

  /** Positive settings are kept, the others have the documented defaults. */
  lemma DefaultsKeepSettings(c: Config)
    ensures var d := WithDefaults(c);
      && (c.pollInterval > 0 ==> d.pollInterval == c.pollInterval) && (c.batchSize > 0 ==> d.batchSize == c.batchSize)
      && (c.maxAttempts > 0 ==> d.maxAttempts == c.maxAttempts) && (c.workerPool > 0 ==> d.workerPool == c.workerPool)
      && (c.staleReclaimMul > 0 ==> d.staleReclaimMul == c.staleReclaimMul)
      && (c.baseDelay > 0 ==> d.baseDelay == c.baseDelay) && (c.maxBackoff > 0 ==> d.maxBackoff == c.maxBackoff)
      && (c.multiplier > 0.0 ==> d.multiplier == c.multiplier)
    ensures WithDefaults(Config(0, 0, 0, 0, 0, 0, 0, 0.0))
         == Config(5_000_000_000, 20, 10, 8, 2, 100_000_000, 600_000_000_000, 2.0)
  {
  }

  /** The configuration a worker runs with. */
  predicate Defaulted(c: Config) {
    && c.pollInterval > 0 && c.batchSize > 0 && c.maxAttempts > 0 && c.workerPool > 0
    && c.staleReclaimMul > 0 && c.maxBackoff > 0
  }

  function StaleAfter(c: Config): int {
    c.staleReclaimMul * c.pollInterval
  }

  /******* The table *******/

  datatype Status = Pending | Processing | Delivered | Dead

  datatype Row = Row(
    url: string,
    status: Status,
    attempts: nat,
    nextRetry: int,
    updated: int,
    deliveredAt: Option<int>,
    lastError: Option<string>)

  type Rows = map<Eid, Row>

  predicate Blank(url: string) {
    Trim(url) == ""
  }

  function NewRow(url: string, now: int): Row {
    Row(url, Pending, 0, now, now, None, None)
  }

  predicate Due(rows: Rows, e: Eid, now: int) {
    e in rows && rows[e].status == Pending && rows[e].nextRetry <= now
  }

  /**
   What a claim may return: at most `limit` distinct due rows, and no due row is left
   behind unless the limit is reached and nothing taken is due later.
   */
  ghost predicate ValidBatch(rows: Rows, now: int, limit: int, ids: seq<Eid>) {
    && |ids| <= limit
    && (forall i :: 0 <= i < |ids| ==> Due(rows, ids[i], now))
    && (forall i, j :: 0 <= i < j < |ids| ==> ids[i] != ids[j])
    && (forall e :: Due(rows, e, now) && e !in ids ==>
          |ids| == limit && forall i :: 0 <= i < |ids| ==> rows[ids[i]].nextRetry <= rows[e].nextRetry)
  }

  function ClaimRow(row: Row, now: int): Row {
    row.(status := Processing, updated := now)
  }

  function ClaimRows(rows: Rows, ids: seq<Eid>, now: int): Rows {
    map e | e in rows :: if e in ids then ClaimRow(rows[e], now) else rows[e]
  }

  predicate Stale(row: Row, now: int, staleAfter: int) {
    row.status == Processing && row.updated < now - staleAfter
  }

  function ReclaimRow(row: Row, now: int, staleAfter: int): Row {
    if Stale(row, now, staleAfter) then row.(status := Pending, nextRetry := now, updated := now) else row
  }

  function ReclaimRows(rows: Rows, now: int, staleAfter: int): Rows {
    map e | e in rows :: ReclaimRow(rows[e], now, staleAfter)
  }

  /** The three ways a delivery can end in the table. */
  datatype Mark = AsDelivered | AsRetry(nextAt: int, error: string) | AsDead(error: string)

  function MarkRow(row: Row, m: Mark, now: int): Row {
    if row.status != Processing then row
    else
      match m
      case AsDelivered => row.(status := Delivered, deliveredAt := Some(now), lastError := None, updated := now)
      case AsRetry(nextAt, error) =>
        row.(status := Pending, attempts := row.attempts + 1, nextRetry := nextAt,
             lastError := Some(error), updated := now)
      case AsDead(error) => row.(status := Dead, lastError := Some(error), updated := now)
  }

  function MarkRows(rows: Rows, e: Eid, m: Mark, now: int): Rows {
    if e in rows then rows[e := MarkRow(rows[e], m, now)] else rows
  }

  /** A draw for the jitter of a backoff. */
  type Draw = u: real | 0.0 <= u <= 1.0

  /******* Workers *******/

  /** A claimed event: its id and the snapshot of the row the claim returned. */
  datatype Claimed = Claimed(id: Eid, attempts: nat, url: string)

  datatype Task = Delivering | Marking(mark: Mark)

  /**
   One poll tick.  `batch` are the claimed events, the first `started` of them have been
   handed to a delivery, `active` are those not finished, `done` those finished, in order.
   */
  datatype Worker =
    | Idle
    | Polling
    | Working(batch: seq<Claimed>, started: nat, active: map<Eid, (Claimed, Task)>, done: seq<Eid>)

  /**
   `failures` counts the failed delivery attempts so far, `successes` the accepted ones; no
   step reads them.  A delivery that was cut off by cancellation is not a failed attempt.
   */
  datatype State = State(
    now: int,
    rows: Rows,
    workers: map<Wid, Worker>,
    failures: multiset<Eid>,
    successes: multiset<Eid>)

  const INIT := State(0, map[], map[], multiset{}, multiset{})

  function WorkerOf(s: State, w: Wid): Worker {
    if w in s.workers then s.workers[w] else Idle
  }

  datatype Reply = Ok | Failed | Unacked

  datatype Label =
    | Tick(d: nat)
    | Enqueue(id: Eid, url: string)
    | Reclaim(w: Wid, reply: Reply)
    | Claim(w: Wid, ids: seq<Eid>, reply: Reply)
    | Start(w: Wid)
    | Deliver(w: Wid, id: Eid, ok: bool, error: string, cancelled: bool, draw: real)
    | MarkStep(w: Wid, id: Eid, reply: Reply)
    | EndTick(w: Wid)
    | Die(w: Wid)

  predicate ByWorker(l: Label) {
    !l.Tick? && !l.Enqueue?
  }

  /** Whether a label can happen now. */
  ghost predicate Enabled(c: Config, s: State, l: Label) {
    match l
    case Tick(_) => true
    case Enqueue(id, _) => id !in s.rows
    case Reclaim(w, _) => WorkerOf(s, w).Idle?
    case Claim(w, ids, _) => WorkerOf(s, w).Polling? && ValidBatch(s.rows, s.now, c.batchSize, ids)
    case Start(w) =>
      var k := WorkerOf(s, w);
      k.Working? && k.started < |k.batch| && |k.active| < c.workerPool
    case Deliver(w, id, _, _, _, draw) =>
      var k := WorkerOf(s, w);
      k.Working? && id in k.active && k.active[id].1.Delivering? && 0.0 <= draw <= 1.0
    case MarkStep(w, id, _) =>
      var k := WorkerOf(s, w);
      k.Working? && id in k.active && k.active[id].1.Marking?
    case EndTick(w) =>
      var k := WorkerOf(s, w);
      k.Working? && k.started == |k.batch| && k.active == map[]
    case Die(_) => true
  }

  function Snapshot(rows: Rows, ids: seq<Eid>): seq<Claimed>
    requires forall i :: 0 <= i < |ids| ==> ids[i] in rows
  {
    seq(|ids|, i requires 0 <= i < |ids| => Claimed(ids[i], rows[ids[i]].attempts, rows[ids[i]].url))
  }

  /** An event without a webhook URL is buried at once; the others are delivered. */
  function FirstTask(k: Claimed): Task {
    if Blank(k.url) then Marking(AsDead("no_webhook_url_for_merchant")) else Delivering
  }

  /** What a delivery that was not cancelled leads to. */
  function AfterDelivery(c: Config, now: int, k: Claimed, ok: bool, error: string, draw: real): Mark {
    if ok then AsDelivered
    else if k.attempts + 1 >= c.maxAttempts then AsDead(error)
    else AsRetry(now + Retry.Backoff(c.baseDelay, c.multiplier, c.maxBackoff, k.attempts, draw), error)
  }

  function FinishTask(k: Worker, id: Eid): Worker
    requires k.Working?
  {
    k.(active := k.active - {id}, done := k.done + [id])
  }

  /** The worker after its own step. */
  ghost function WorkerAfter(c: Config, s: State, l: Label): Worker
    requires ByWorker(l) && Enabled(c, s, l)
  {
    var k := WorkerOf(s, l.w);
    match l
    case Reclaim(_, _) => Polling
    case Claim(_, ids, reply) =>
      if reply.Ok? && ids != [] then Working(Snapshot(s.rows, ids), 0, map[], []) else Idle
    case Start(_) =>
      var t := k.batch[k.started];
      k.(started := k.started + 1, active := k.active[t.id := (t, FirstTask(t))])
    case Deliver(_, id, ok, error, cancelled, draw) =>
      if cancelled then FinishTask(k, id)
      else
        var t := k.active[id].0;
        k.(active := k.active[id := (t, Marking(AfterDelivery(c, s.now, t, ok, error, draw)))])
    case MarkStep(_, id, _) => FinishTask(k, id)
    case _ => Idle
  }

  ghost function RowsAfter(c: Config, s: State, l: Label): Rows
    requires Enabled(c, s, l)
  {
    match l
    case Enqueue(id, url) => s.rows[id := NewRow(url, s.now)]
    case Reclaim(_, reply) => if reply.Failed? then s.rows else ReclaimRows(s.rows, s.now, StaleAfter(c))
    case Claim(_, ids, reply) => if reply.Failed? then s.rows else ClaimRows(s.rows, ids, s.now)
    case MarkStep(w, id, reply) =>
      if reply.Failed? then s.rows else MarkRows(s.rows, id, WorkerOf(s, w).active[id].1.mark, s.now)
    case _ => s.rows
  }

  ghost function Apply(c: Config, s: State, l: Label): State {
    if !Enabled(c, s, l) then s
    else State(
      if l.Tick? then s.now + l.d else s.now,
      RowsAfter(c, s, l),
      if ByWorker(l) then s.workers[l.w := WorkerAfter(c, s, l)] else s.workers,
      if l.Deliver? && !l.ok && !l.cancelled then s.failures + multiset{l.id} else s.failures,
      if l.Deliver? && l.ok then s.successes + multiset{l.id} else s.successes)
  }

  ghost function Run(c: Config, ls: seq<Label>): State {
    if ls == [] then INIT else Apply(c, Run(c, ls[..|ls| - 1]), ls[|ls| - 1])
  }

  /** A run extended by one label applies that label. */
  lemma RunExtend(c: Config, ls: seq<Label>, l: Label)
    ensures Run(c, ls + [l]) == Apply(c, Run(c, ls), l)
  {
    assert (ls + [l])[..|ls|] == ls;
  }

  /** The state that the labels of `ls` lead to from `s`. */
  ghost function RunFrom(c: Config, s: State, ls: seq<Label>): State
    decreases |ls|
  {
    if ls == [] then s else RunFrom(c, Apply(c, s, ls[0]), ls[1..])
  }
}
