/**
 What holds of the outbox when one worker drains it: exact ownership of in-flight rows,
 the attempt cap, and progress to delivered or dead.
 */
module OutboxSingle {
  import opened OutboxModel

  /** Only worker `w` acts. */
  predicate OnlyWorker(ls: seq<Label>, w: Wid) {
    forall i :: 0 <= i < |ls| ==> ByWorker(ls[i]) ==> ls[i].w == w
  }

  /******* Ownership *******/

  /** The row is claimed and its snapshot is exact. */
  predicate Held(rows: Rows, t: Claimed) {
    t.id in rows && rows[t.id].status == Processing && rows[t.id].attempts == t.attempts && rows[t.id].url == t.url
  }

  predicate MarkWithinCap(c: Config, t: Claimed, task: Task) {
    task.Marking? && task.mark.AsRetry? ==> t.attempts + 1 < c.maxAttempts
  }

  ghost predicate HoldsAll(c: Config, rows: Rows, k: Worker) {
    k.Working? ==>
      && k.started <= |k.batch|
      && (forall i :: k.started <= i < |k.batch| ==> Held(rows, k.batch[i]) && k.batch[i].id !in k.active)
      && (forall i, j :: k.started <= i < j < |k.batch| ==> k.batch[i].id != k.batch[j].id)
      && (forall id :: id in k.active ==>
            k.active[id].0.id == id && Held(rows, k.active[id].0) && MarkWithinCap(c, k.active[id].0, k.active[id].1))
  }

  predicate CapOk(c: Config, row: Row) {
    row.attempts <= c.maxAttempts - 1
  }

  ghost predicate SingleInv(c: Config, s: State, w: Wid) {
    && s.workers.Keys <= {w}
    && HoldsAll(c, s.rows, WorkerOf(s, w))
    && (forall e :: e in s.rows ==> CapOk(c, s.rows[e]))
  }

  lemma ClaimHolds(c: Config, s: State, ids: seq<Eid>)
    requires ValidBatch(s.rows, s.now, c.batchSize, ids)
    ensures HoldsAll(c, ClaimRows(s.rows, ids, s.now), Working(Snapshot(s.rows, ids), 0, map[], []))
  {
    forall i | 0 <= i < |ids| ensures Held(ClaimRows(s.rows, ids, s.now), Snapshot(s.rows, ids)[i]) {
      assert Due(s.rows, ids[i], s.now);
    }
  }

  lemma MarkHolds(c: Config, s: State, k: Worker, id: Eid, reply: Reply)
    requires k.Working? && HoldsAll(c, s.rows, k) && id in k.active && k.active[id].1.Marking?
    ensures var rows' := if reply.Failed? then s.rows else MarkRows(s.rows, id, k.active[id].1.mark, s.now);
      HoldsAll(c, rows', FinishTask(k, id))
  {
  }

  lemma StartHolds(c: Config, rows: Rows, k: Worker)
    requires k.Working? && HoldsAll(c, rows, k) && k.started < |k.batch|
    ensures var t := k.batch[k.started];
      HoldsAll(c, rows, k.(started := k.started + 1, active := k.active[t.id := (t, FirstTask(t))]))
  {
    assert Held(rows, k.batch[k.started]);
  }

  lemma DeliverHolds(c: Config, s: State, l: Label, k: Worker)
    requires l.Deliver? && k == WorkerOf(s, l.w) && Enabled(c, s, l) && HoldsAll(c, s.rows, k)
    ensures HoldsAll(c, s.rows, WorkerAfter(c, s, l))
  {
  }

  lemma OwnHolds(c: Config, s: State, l: Label, w: Wid)
    requires SingleInv(c, s, w) && Enabled(c, s, l) && ByWorker(l) && l.w == w
    ensures HoldsAll(c, RowsAfter(c, s, l), WorkerAfter(c, s, l))
  {
    var k := WorkerOf(s, w);
    match l
    case Claim(_, ids, reply) =>
      if reply.Ok? { ClaimHolds(c, s, ids); }
    case Start(_) => StartHolds(c, s.rows, k);
    case Deliver(_, _, _, _, _, _) => DeliverHolds(c, s, l, k);
    case MarkStep(_, id, reply) => MarkHolds(c, s, k, id, reply);
    case _ =>
  }

  lemma CapStays(c: Config, s: State, l: Label, w: Wid, e: Eid)
    requires Defaulted(c) && SingleInv(c, s, w) && Enabled(c, s, l) && (ByWorker(l) ==> l.w == w)
    requires e in Apply(c, s, l).rows
    ensures CapOk(c, Apply(c, s, l).rows[e])
  {
    if l.MarkStep? && e == l.id {
      assert Held(s.rows, WorkerOf(s, w).active[e].0);
    } else if e in s.rows {
      assert CapOk(c, s.rows[e]);
    }
  }

  lemma ApplyKeepsSingle(c: Config, s: State, l: Label, w: Wid)
    requires Defaulted(c) && SingleInv(c, s, w) && (ByWorker(l) ==> l.w == w)
    ensures SingleInv(c, Apply(c, s, l), w)
  {
    if Enabled(c, s, l) {
      var s' := Apply(c, s, l);
      forall e | e in s'.rows ensures CapOk(c, s'.rows[e]) { CapStays(c, s, l, w, e); }
      if ByWorker(l) { OwnHolds(c, s, l, w); }
    }
  }

  lemma {:induction false} SingleHolds(c: Config, ls: seq<Label>, w: Wid)
    requires Defaulted(c) && OnlyWorker(ls, w)
    ensures SingleInv(c, Run(c, ls), w)
  {
    if ls != [] {
      SingleHolds(c, ls[..|ls| - 1], w);
      ApplyKeepsSingle(c, Run(c, ls[..|ls| - 1]), ls[|ls| - 1], w);
    }
  }

  /** The worker has claimed `e` and not finished with it. */
  predicate InFlight(k: Worker, e: Eid) {
    k.Working? && (e in k.active || exists i :: k.started <= i < |k.batch| && k.batch[i].id == e)
  }

  /** The snapshot the worker works from. */
  ghost predicate SnapshotOf(k: Worker, e: Eid, t: Claimed) {
    && k.Working? && t.id == e
    && ((e in k.active && k.active[e].0 == t) || exists i :: k.started <= i < |k.batch| && k.batch[i] == t)
  }

  /**
   With one worker, over all runs: an in-flight event's row is processing, its snapshot
   equals the row's attempt count, no step but its own mark changes the row (so no
   reclaim resets it), and no attempt count ever exceeds MaxAttempts - 1.
   */
  lemma SingleWorkerOwnership(c: Config, ls: seq<Label>, w: Wid, e: Eid, t: Claimed, l: Label)
    requires Defaulted(c) && OnlyWorker(ls, w) && SnapshotOf(WorkerOf(Run(c, ls), w), e, t)
    requires ByWorker(l) ==> l.w == w
    ensures var s := Run(c, ls);
      && e in s.rows && s.rows[e].status == Processing && s.rows[e].attempts == t.attempts <= c.maxAttempts - 1
      && ((l.MarkStep? && l.id == e) || Apply(c, s, l).rows[e] == s.rows[e])
  {
    var s := Run(c, ls);
    SingleHolds(c, ls, w);
    assert Held(s.rows, t);
    assert CapOk(c, s.rows[e]);
    assert Enabled(c, s, l) ==> !l.Reclaim? && !l.Claim?;
  }

  lemma AttemptCap(c: Config, ls: seq<Label>, w: Wid, e: Eid)
    requires Defaulted(c) && OnlyWorker(ls, w) && e in Run(c, ls).rows
    ensures Run(c, ls).rows[e].attempts <= c.maxAttempts - 1
  {
    SingleHolds(c, ls, w);
    assert CapOk(c, Run(c, ls).rows[e]);
  }

  /******* The measure *******/

  function StatusRank(st: Status): nat {
    match st
    case Pending => 2
    case Processing => 1
    case Delivered => 0
    case Dead => 0
  }

  function Remaining(c: Config, row: Row): int {
    c.maxAttempts - row.attempts
  }

  /** Lexicographic order on (remaining attempts, status rank). */
  predicate Below(c: Config, row': Row, row: Row) {
    || Remaining(c, row') < Remaining(c, row)
    || (Remaining(c, row') == Remaining(c, row) && StatusRank(row'.status) < StatusRank(row.status))
  }

  /** Between reclaims every change of a row goes down, and the measure stays above zero. */
  lemma MeasureDecreases(c: Config, ls: seq<Label>, w: Wid, l: Label, e: Eid)
    requires Defaulted(c) && OnlyWorker(ls, w) && (ByWorker(l) ==> l.w == w)
    requires e in Run(c, ls).rows && !l.Reclaim?
    ensures var row, row' := Run(c, ls).rows[e], Apply(c, Run(c, ls), l).rows[e];
      (row' == row || Below(c, row', row)) && Remaining(c, row') >= 1
  {
    var s := Run(c, ls);
    SingleHolds(c, ls, w);
    ApplyKeepsSingle(c, s, l, w);
    assert CapOk(c, Apply(c, s, l).rows[e]);
    assert Enabled(c, s, l) && l.Claim? && e in l.ids ==> Due(s.rows, e, s.now);
  }
}
