/**
 How long an event waits: the wait after a failed attempt follows the backoff of that attempt.
 */
module OutboxBackoff {
  import opened Options
  import opened OutboxModel
  import opened OutboxSafety
  import Retry

  /** Delays that never shrink with the attempts. */
  predicate Growing(c: Config) {
    Defaulted(c) && c.baseDelay > 0 && c.multiplier >= 1.0
  }

  function Limit(c: Config, attempt: nat): real {
    Retry.DelayLimit(c.baseDelay, c.multiplier, c.maxBackoff, attempt)
  }

  /** How long an event may wait that has failed `attempts` times. */
  function LongestWait(c: Config, attempts: nat): real {
    if attempts == 0 then 0.0 else Limit(c, attempts - 1)
  }

  lemma {:induction false} LimitMonotone(c: Config, i: nat, j: nat)
    requires Growing(c) && i <= j
    ensures 0.0 <= Limit(c, i) <= Limit(c, j)
    decreases j - i
  {
    if i < j {
      LimitMonotone(c, i, j - 1);
      Retry.DelayLimitMonotone(c.baseDelay, c.multiplier, c.maxBackoff, j - 1);
    } else {
      assert Retry.Pow(c.multiplier, i) > 0.0;
      assert c.baseDelay as real * Retry.Pow(c.multiplier, i) > 0.0;
    }
  }

  predicate RowWaits(c: Config, row: Row) {
    row.status == Pending ==> row.nextRetry as real <= row.updated as real + LongestWait(c, row.attempts)
  }

  predicate TaskWaits(c: Config, now: int, t: Claimed, task: Task) {
    task.Marking? && task.mark.AsRetry? ==> task.mark.nextAt as real <= now as real + Limit(c, t.attempts)
  }

  ghost predicate WorkerWaits(c: Config, now: int, k: Worker) {
    k.Working? ==> forall id :: id in k.active ==> TaskWaits(c, now, k.active[id].0, k.active[id].1)
  }

  ghost predicate Waits(c: Config, s: State) {
    && (forall e :: e in s.rows ==> RowWaits(c, s.rows[e]))
    && (forall w :: w in s.workers ==> WorkerWaits(c, s.now, s.workers[w]))
  }

  lemma DeliveryWaits(c: Config, now: int, t: Claimed, l: Label)
    requires Growing(c) && l.Deliver? && 0.0 <= l.draw <= 1.0
    ensures TaskWaits(c, now, t, Marking(AfterDelivery(c, now, t, l.ok, l.error, l.draw)))
  {
    LimitMonotone(c, t.attempts, t.attempts);
    Retry.BackoffIsShare(c.baseDelay, c.multiplier, c.maxBackoff, t.attempts, l.draw, 1.0);
  }

  lemma OwnWaits(c: Config, s: State, l: Label)
    requires Growing(c) && Enabled(c, s, l) && ByWorker(l) && WorkerWaits(c, s.now, WorkerOf(s, l.w))
    ensures WorkerWaits(c, s.now, WorkerAfter(c, s, l))
  {
    if l.Deliver? {
      DeliveryWaits(c, s.now, WorkerOf(s, l.w).active[l.id].0, l);
    }
    hide Retry.Backoff, Limit, ValidBatch;
  }

  lemma MarkWaits(c: Config, row: Row, t: Claimed, m: Mark, now: int)
    requires Growing(c) && RowWaits(c, row) && t.attempts <= row.attempts && TaskWaits(c, now, t, Marking(m))
    ensures RowWaits(c, MarkRow(row, m, now))
  {
    LimitMonotone(c, t.attempts, row.attempts);
  }

  lemma OtherRowWaits(c: Config, s: State, l: Label, e: Eid)
    requires Growing(c) && Enabled(c, s, l) && e in RowsAfter(c, s, l) && !(l.MarkStep? && l.id == e)
    requires e in s.rows ==> RowWaits(c, s.rows[e]) && 0.0 <= LongestWait(c, s.rows[e].attempts)
    ensures RowWaits(c, RowsAfter(c, s, l)[e])
  {
    hide Limit, ValidBatch;
  }

  lemma MarkedRowWaits(c: Config, s: State, l: Label, t: Claimed, m: Mark)
    requires Growing(c) && Enabled(c, s, l) && l.MarkStep? && WorkerOf(s, l.w).active[l.id] == (t, Marking(m))
    requires l.id in s.rows && RowWaits(c, s.rows[l.id])
    requires t.attempts <= s.rows[l.id].attempts && TaskWaits(c, s.now, t, Marking(m))
    ensures l.id in RowsAfter(c, s, l) && RowWaits(c, RowsAfter(c, s, l)[l.id])
  {
    MarkWaits(c, s.rows[l.id], t, m, s.now);
    hide Limit, RowWaits, MarkRow;
  }

  /** The delivery behind a mark has a snapshot that is not ahead of its row. */
  lemma MarkedTask(c: Config, s: State, l: Label)
    requires Inv(c, s) && Waits(c, s) && Enabled(c, s, l) && l.MarkStep?
    ensures var x := WorkerOf(s, l.w).active[l.id];
      l.id in s.rows && x.0.attempts <= s.rows[l.id].attempts && TaskWaits(c, s.now, x.0, x.1)
  {
    hide Limit, RowWaits, FailuresCover, RowOk;
    var k := s.workers[l.w];
    assert WorkerOk(c, s, k) && WorkerWaits(c, s.now, k);
    assert TaskOk(c, s, l.id, k.active[l.id].0, k.active[l.id].1);
  }

  lemma RowStillWaits(c: Config, s: State, l: Label, e: Eid)
    requires Growing(c) && Inv(c, s) && Waits(c, s) && Enabled(c, s, l) && e in RowsAfter(c, s, l)
    ensures RowWaits(c, RowsAfter(c, s, l)[e])
  {
    hide Inv, RowsAfter, RowWaits, TaskWaits, WorkerWaits, Limit, ValidBatch;
    if l.MarkStep? && l.id == e {
      MarkedTask(c, s, l);
      var x := WorkerOf(s, l.w).active[l.id];
      MarkedRowWaits(c, s, l, x.0, x.1.mark);
    } else {
      if e in s.rows && s.rows[e].attempts > 0 {
        LimitMonotone(c, s.rows[e].attempts - 1, s.rows[e].attempts);
      }
      OtherRowWaits(c, s, l, e);
    }
  }

  lemma LaterWaits(c: Config, now: int, now': int, k: Worker)
    requires WorkerWaits(c, now, k) && now <= now'
    ensures WorkerWaits(c, now', k)
  {
    hide Limit;
    if k.Working? {
      forall id | id in k.active ensures TaskWaits(c, now', k.active[id].0, k.active[id].1) {
        assert TaskWaits(c, now, k.active[id].0, k.active[id].1);
      }
    }
  }

  lemma ApplyKeepsWaits(c: Config, s: State, l: Label)
    requires Growing(c) && Inv(c, s) && Waits(c, s)
    ensures Waits(c, Apply(c, s, l))
  {
    hide RowsAfter, WorkerAfter, Inv, RowWaits, WorkerWaits, ValidBatch;
    if Enabled(c, s, l) {
      var s' := Apply(c, s, l);
      forall e | e in s'.rows ensures RowWaits(c, s'.rows[e]) { RowStillWaits(c, s, l, e); }
      if ByWorker(l) {
        IdleWaits(c, s.now);
        OwnWaits(c, s, l);
      }
      forall w | w in s'.workers ensures WorkerWaits(c, s'.now, s'.workers[w]) {
        if !(ByWorker(l) && w == l.w) { LaterWaits(c, s.now, s'.now, s.workers[w]); }
      }
    }
  }

  lemma IdleWaits(c: Config, now: int)
    ensures WorkerWaits(c, now, Idle)
  {
  }

  lemma {:induction false} WaitsHold(c: Config, ls: seq<Label>)
    requires Growing(c)
    ensures Waits(c, Run(c, ls))
  {
    if ls != [] {
      WaitsHold(c, ls[..|ls| - 1]);
      InvHolds(c, ls[..|ls| - 1]);
      ApplyKeepsWaits(c, Run(c, ls[..|ls| - 1]), ls[|ls| - 1]);
    }
  }

  /**
   For any number of workers: a pending event that has failed n times is due no later than
   the delay limit of attempt n - 1 after it was last written, and at once if it never failed.
   */
  lemma WaitFollowsBackoff(c: Config, ls: seq<Label>, e: Eid)
    requires Defaulted(c) && c.baseDelay > 0 && c.multiplier >= 1.0
    requires e in Run(c, ls).rows && Run(c, ls).rows[e].status == Pending
    ensures var row := Run(c, ls).rows[e];
      if row.attempts == 0 then row.nextRetry <= row.updated
      else row.nextRetry as real
           <= row.updated as real + Retry.DelayLimit(c.baseDelay, c.multiplier, c.maxBackoff, row.attempts - 1)
  {
    WaitsHold(c, ls);
    assert RowWaits(c, Run(c, ls).rows[e]);
  }
}
