/**
 What holds of the outbox for any number of workers, with stale claims, reclaims, failed
 statements and dying workers.
 */
module OutboxSafety {
  import opened OutboxModel
  import Retry

  /******* The invariant *******/

  predicate RowOk(c: Config, s: State, e: Eid)
    requires e in s.rows
  {
    var row := s.rows[e];
    && row.updated <= s.now
    && (row.deliveredAt.Some? <==> row.status == Delivered)
    && (row.status == Delivered ==> s.successes[e] >= 1)
    && (row.status == Dead ==> Blank(row.url) || s.failures[e] >= c.maxAttempts)
    && (row.status == Pending ==> row.nextRetry <= row.updated + c.maxBackoff)
  }

  /** A snapshot is never ahead of its row. */
  predicate ClaimedOk(s: State, t: Claimed) {
    t.id in s.rows && t.attempts <= s.rows[t.id].attempts && t.url == s.rows[t.id].url
  }

  predicate MarkOk(c: Config, s: State, t: Claimed, m: Mark) {
    match m
    case AsDelivered => s.successes[t.id] >= 1
    case AsRetry(nextAt, _) => !Blank(t.url) && nextAt <= s.now + c.maxBackoff
    case AsDead(_) => Blank(t.url) || t.attempts + 1 >= c.maxAttempts
  }

  predicate TaskOk(c: Config, s: State, id: Eid, t: Claimed, task: Task) {
    && t.id == id && ClaimedOk(s, t)
    && match task
       case Delivering => !Blank(t.url)
       case Marking(m) => MarkOk(c, s, t, m)
  }

  ghost predicate WorkerOk(c: Config, s: State, k: Worker) {
    k.Working? ==>
      && (forall i :: 0 <= i < |k.batch| ==> ClaimedOk(s, k.batch[i]))
      && (forall id :: id in k.active ==> TaskOk(c, s, id, k.active[id].0, k.active[id].1))
  }

  /** No delivery is about to be scheduled for another try. */
  predicate NoRetryPending(k: Worker) {
    k.Working? ==> forall id :: id in k.active ==> !(k.active[id].1.Marking? && k.active[id].1.mark.AsRetry?)
  }

  /** The worker is about to record a failed delivery of `e`. */
  predicate MarksFailure(k: Worker, e: Eid) {
    && k.Working? && e in k.active && k.active[e].1.Marking?
    && var (t, Marking(m)) := k.active[e];
       m.AsRetry? || (m.AsDead? && !Blank(t.url))
  }

  function FailMarkers(s: State, e: Eid): set<Wid> {
    set w | w in s.workers && MarksFailure(s.workers[w], e)
  }

  /** Every retry recorded, and every failure about to be recorded, is a failed delivery that happened. */
  predicate FailuresCover(s: State, e: Eid) {
    e in s.rows ==> |FailMarkers(s, e)| + s.rows[e].attempts <= s.failures[e]
  }

  ghost predicate Inv(c: Config, s: State) {
    && (forall e :: e in s.rows ==> RowOk(c, s, e))
    && (forall e :: e in s.rows ==> FailuresCover(s, e))
    && (forall w :: w in s.workers ==> WorkerOk(c, s, s.workers[w]))
    && (forall e :: e in s.failures ==> e in s.rows)
  }

  /******* Frame *******/

  ghost predicate Grows(s: State, s': State) {
    && s.now <= s'.now
    && (forall e :: e in s.rows ==>
          e in s'.rows && s'.rows[e].url == s.rows[e].url && s.rows[e].attempts <= s'.rows[e].attempts)
    && (forall e :: s.successes[e] <= s'.successes[e] && s.failures[e] <= s'.failures[e])
  }

  lemma ApplyGrows(c: Config, s: State, l: Label)
    ensures Grows(s, Apply(c, s, l))
  {
  }

  lemma WorkerOkGrows(c: Config, s: State, s': State, k: Worker)
    requires Grows(s, s') && WorkerOk(c, s, k)
    ensures WorkerOk(c, s', k)
  {
    if k.Working? {
      forall id | id in k.active ensures TaskOk(c, s', id, k.active[id].0, k.active[id].1) {
        assert TaskOk(c, s, id, k.active[id].0, k.active[id].1);
      }
    }
  }

  /******* Workers *******/

  lemma DeliveryMarkOk(c: Config, s: State, s': State, l: Label, t: Claimed)
    requires Defaulted(c) && l.Deliver? && t.id == l.id && !Blank(t.url) && 0.0 <= l.draw <= 1.0
    requires s'.now == s.now && (l.ok ==> s'.successes[t.id] >= 1)
    ensures MarkOk(c, s', t, AfterDelivery(c, s.now, t, l.ok, l.error, l.draw))
  {
    Retry.BackoffBounds(c.baseDelay, c.multiplier, c.maxBackoff, t.attempts, l.draw);
  }

  lemma ClaimWorkerOk(c: Config, s: State, s': State, ids: seq<Eid>)
    requires Grows(s, s') && (forall i :: 0 <= i < |ids| ==> Due(s.rows, ids[i], s.now))
    requires forall i :: 0 <= i < |ids| ==> ids[i] in s.rows
    ensures WorkerOk(c, s', Working(Snapshot(s.rows, ids), 0, map[], []))
  {
    forall i | 0 <= i < |ids| ensures ClaimedOk(s', Snapshot(s.rows, ids)[i]) { assert Due(s.rows, ids[i], s.now); }
  }

  lemma TaskSet(c: Config, s: State, k: Worker, k': Worker, id: Eid)
    requires k.Working? && k'.Working? && WorkerOk(c, s, k) && k'.batch == k.batch
    requires k'.active == k.active - {id} || (id in k'.active && k'.active == k.active[id := k'.active[id]])
    requires id in k'.active ==> TaskOk(c, s, id, k'.active[id].0, k'.active[id].1)
    ensures WorkerOk(c, s, k')
  {
  }

  lemma OwnWorkerOk(c: Config, s: State, l: Label)
    requires Defaulted(c) && Inv(c, s) && Enabled(c, s, l) && ByWorker(l)
    ensures WorkerOk(c, Apply(c, s, l), WorkerAfter(c, s, l))
  {
    var s' := Apply(c, s, l);
    ApplyGrows(c, s, l);
    var k, k' := WorkerOf(s, l.w), WorkerAfter(c, s, l);
    assert WorkerOk(c, s, k);
    WorkerOkGrows(c, s, s', k);
    match l
    case Claim(_, ids, _) => ClaimWorkerOk(c, s, s', ids);
    case Start(_) => TaskSet(c, s', k, k', k.batch[k.started].id);
    case Deliver(_, id, _, _, _, _) =>
      assert TaskOk(c, s', id, k.active[id].0, k.active[id].1);
      DeliveryMarkOk(c, s, s', l, k.active[id].0);
      TaskSet(c, s', k, k', id);
    case MarkStep(_, id, _) => TaskSet(c, s', k, k', id);
    case _ =>
  }

  /******* Rows *******/

  /** The mark a step writes is one its worker is entitled to. */
  lemma MarkKeepsRow(c: Config, s: State, s': State, e: Eid, t: Claimed, m: Mark)
    requires e in s.rows && RowOk(c, s, e) && t.id == e && ClaimedOk(s, t) && MarkOk(c, s, t, m)
    requires m.AsDead? && !Blank(t.url) ==> s.failures[e] >= s.rows[e].attempts + 1
    requires s'.now == s.now && s'.failures == s.failures && s'.successes == s.successes
    requires e in s'.rows && s'.rows[e] == MarkRow(s.rows[e], m, s.now)
    ensures RowOk(c, s', e)
  {
  }

  lemma OtherRowOk(c: Config, s: State, l: Label, e: Eid)
    requires Defaulted(c) && e in s.rows && RowOk(c, s, e) && Enabled(c, s, l) && !l.MarkStep?
    ensures RowOk(c, Apply(c, s, l), e)
  {
    var s' := Apply(c, s, l);
    assert s'.rows[e] == s.rows[e] || s'.rows[e] == ClaimRow(s.rows[e], s.now)
      || s'.rows[e] == ReclaimRow(s.rows[e], s.now, StaleAfter(c));
  }

  lemma MarkerCounts(s: State, w: Wid, e: Eid)
    requires w in s.workers && MarksFailure(s.workers[w], e) && FailuresCover(s, e) && e in s.rows
    ensures s.failures[e] >= s.rows[e].attempts + 1
  {
    assert w in FailMarkers(s, e);
    assert FailMarkers(s, e) != {};
  }

  lemma RowsStayOk(c: Config, s: State, l: Label, e: Eid)
    requires Defaulted(c) && Inv(c, s) && Enabled(c, s, l) && e in Apply(c, s, l).rows
    ensures RowOk(c, Apply(c, s, l), e)
  {
    var s' := Apply(c, s, l);
    if e !in s.rows {
      assert l.Enqueue? && e == l.id;
    } else if l.MarkStep? && e == l.id {
      var k := s.workers[l.w];
      assert WorkerOk(c, s, k);
      var (t, task) := k.active[e];
      assert TaskOk(c, s, e, t, task);
      if task.mark.AsDead? && !Blank(t.url) { MarkerCounts(s, l.w, e); }
      if !l.reply.Failed? { MarkKeepsRow(c, s, s', e, t, task.mark); }
    } else if l.MarkStep? {
      assert s'.rows[e] == s.rows[e];
    } else {
      OtherRowOk(c, s, l, e);
    }
  }

  /******* Counting failed deliveries *******/

  lemma MarkersAfter(c: Config, s: State, l: Label, e: Eid)
    requires Enabled(c, s, l)
    ensures var s' := Apply(c, s, l);
      ByWorker(l) && !MarksFailure(WorkerAfter(c, s, l), e) ==> FailMarkers(s', e) == FailMarkers(s, e) - {l.w}
    ensures var s' := Apply(c, s, l);
      ByWorker(l) && MarksFailure(WorkerAfter(c, s, l), e) ==> FailMarkers(s', e) == FailMarkers(s, e) + {l.w}
    ensures !ByWorker(l) ==> FailMarkers(Apply(c, s, l), e) == FailMarkers(s, e)
  {
  }

  /** Only a failed delivery turns a worker into one that records a failure. */
  lemma NewMarker(c: Config, s: State, l: Label, e: Eid)
    requires Inv(c, s) && Enabled(c, s, l) && ByWorker(l)
    requires MarksFailure(WorkerAfter(c, s, l), e) && l.w !in FailMarkers(s, e)
    ensures l.Deliver? && l.id == e && !l.ok
  {
  }

  /** A recorded retry uses up its worker's failure. */
  lemma RetryUsesMarker(c: Config, s: State, l: Label, e: Eid)
    requires Inv(c, s) && Enabled(c, s, l) && e in s.rows && Apply(c, s, l).rows[e].attempts != s.rows[e].attempts
    ensures l.MarkStep? && l.w in FailMarkers(s, e) && !MarksFailure(WorkerAfter(c, s, l), e)
    ensures Apply(c, s, l).rows[e].attempts == s.rows[e].attempts + 1
  {
  }

  lemma NoMarkersYet(c: Config, s: State, e: Eid)
    requires Inv(c, s) && e !in s.rows
    ensures FailMarkers(s, e) == {}
  {
    forall w | w in s.workers ensures !MarksFailure(s.workers[w], e) { assert WorkerOk(c, s, s.workers[w]); }
  }

  lemma CoverStays(c: Config, s: State, l: Label, e: Eid)
    requires Inv(c, s) && Enabled(c, s, l) && e in Apply(c, s, l).rows
    ensures FailuresCover(Apply(c, s, l), e)
  {
    hide FailMarkers;
    var s' := Apply(c, s, l);
    MarkersAfter(c, s, l, e);
    if e !in s.rows {
      NoMarkersYet(c, s, e);
    } else {
      assert FailuresCover(s, e);
      if s'.rows[e].attempts != s.rows[e].attempts {
        RetryUsesMarker(c, s, l, e);
      } else if ByWorker(l) && MarksFailure(WorkerAfter(c, s, l), e) && l.w !in FailMarkers(s, e) {
        NewMarker(c, s, l, e);
      }
    }
  }

  lemma ApplyKeepsInv(c: Config, s: State, l: Label)
    requires Defaulted(c) && Inv(c, s)
    ensures Inv(c, Apply(c, s, l))
  {
    if Enabled(c, s, l) {
      var s' := Apply(c, s, l);
      ApplyGrows(c, s, l);
      forall e | e in s'.rows ensures RowOk(c, s', e) && FailuresCover(s', e) {
        RowsStayOk(c, s, l, e);
        CoverStays(c, s, l, e);
      }
      forall w | w in s'.workers ensures WorkerOk(c, s', s'.workers[w]) {
        if ByWorker(l) && w == l.w { OwnWorkerOk(c, s, l); } else { WorkerOkGrows(c, s, s', s.workers[w]); }
      }
      if l.Deliver? { assert WorkerOk(c, s, s.workers[l.w]); }
    }
  }

  lemma {:induction false} InvHolds(c: Config, ls: seq<Label>)
    requires Defaulted(c)
    ensures Inv(c, Run(c, ls))
  {
    if ls != [] {
      InvHolds(c, ls[..|ls| - 1]);
      ApplyKeepsInv(c, Run(c, ls[..|ls| - 1]), ls[|ls| - 1]);
    }
  }

  /******* Theorems over every run *******/

  predicate Terminal(row: Row) {
    row.status == Delivered || row.status == Dead
  }

  lemma TerminalStep(c: Config, s: State, l: Label, e: Eid)
    requires e in s.rows && Terminal(s.rows[e])
    ensures e in Apply(c, s, l).rows && Apply(c, s, l).rows[e] == s.rows[e]
  {
    assert Enabled(c, s, l) && l.Claim? && e in l.ids ==> Due(s.rows, e, s.now);
  }

  /** A delivered or dead event is final: no later step changes any column of its row. */
  lemma {:induction false} TerminalIsFinal(c: Config, ls: seq<Label>, more: seq<Label>, e: Eid)
    requires e in Run(c, ls).rows && Terminal(Run(c, ls).rows[e])
    ensures e in Run(c, ls + more).rows && Run(c, ls + more).rows[e] == Run(c, ls).rows[e]
  {
    if more == [] {
      assert ls + more == ls;
    } else {
      TerminalIsFinal(c, ls, more[..|more| - 1], e);
      assert (ls + more)[..|ls + more| - 1] == ls + more[..|more| - 1];
      TerminalStep(c, Run(c, ls + more[..|more| - 1]), more[|more| - 1], e);
    }
  }

  /** No event is ever removed, and no attempt count ever goes down. */
  lemma {:induction false} EventsStay(c: Config, ls: seq<Label>, more: seq<Label>, e: Eid)
    requires e in Run(c, ls).rows
    ensures e in Run(c, ls + more).rows && Run(c, ls).rows[e].attempts <= Run(c, ls + more).rows[e].attempts
  {
    if more == [] {
      assert ls + more == ls;
    } else {
      EventsStay(c, ls, more[..|more| - 1], e);
      assert (ls + more)[..|ls + more| - 1] == ls + more[..|more| - 1];
      ApplyGrows(c, Run(c, ls + more[..|more| - 1]), more[|more| - 1]);
    }
  }

  /** A delivered event was answered 2xx at least once; delivered_at is set exactly then. */
  lemma DeliveredMeansAccepted(c: Config, ls: seq<Label>, e: Eid)
    requires Defaulted(c) && e in Run(c, ls).rows
    ensures var s := Run(c, ls);
      && (s.rows[e].status == Delivered ==> s.successes[e] >= 1)
      && (s.rows[e].deliveredAt.Some? <==> s.rows[e].status == Delivered)
  {
    InvHolds(c, ls);
    assert RowOk(c, Run(c, ls), e);
  }

  /** A dead event has no webhook URL or at least MaxAttempts failed deliveries behind it. */
  lemma NoEarlyDeath(c: Config, ls: seq<Label>, e: Eid)
    requires Defaulted(c) && e in Run(c, ls).rows && Run(c, ls).rows[e].status == Dead
    ensures Blank(Run(c, ls).rows[e].url) || Run(c, ls).failures[e] >= c.maxAttempts
  {
    InvHolds(c, ls);
    assert RowOk(c, Run(c, ls), e);
  }

  /** A pending event is due no later than MaxBackoff after it was last written. */
  lemma BoundedWait(c: Config, ls: seq<Label>, e: Eid)
    requires Defaulted(c) && e in Run(c, ls).rows && Run(c, ls).rows[e].status == Pending
    ensures Run(c, ls).rows[e].nextRetry <= Run(c, ls).rows[e].updated + c.maxBackoff
    ensures Run(c, ls).rows[e].updated <= Run(c, ls).now
  {
    InvHolds(c, ls);
    assert RowOk(c, Run(c, ls), e);
  }

  /******* Claims *******/

  /** The claim takes effect and `e` is among what it takes. */
  ghost predicate Claims(c: Config, s: State, l: Label, e: Eid) {
    Enabled(c, s, l) && l.Claim? && !l.reply.Failed? && e in l.ids
  }

  /** The step puts `e` back for another claim: a recorded retry, or a stale reclaim. */
  ghost predicate Releases(c: Config, s: State, l: Label, e: Eid) {
    && Enabled(c, s, l) && e in s.rows && s.rows[e].status == Processing
    && ((l.Reclaim? && !l.reply.Failed? && Stale(s.rows[e], s.now, StaleAfter(c)))
        || (l.MarkStep? && !l.reply.Failed? && l.id == e && WorkerOf(s, l.w).active[e].1.mark.AsRetry?))
  }

  /** A claim moves exactly its batch to processing and changes nothing else. */
  lemma ClaimEffect(c: Config, s: State, l: Label, e: Eid)
    requires Enabled(c, s, l) && l.Claim? && !l.reply.Failed? && e in s.rows
    ensures var row' := Apply(c, s, l).rows[e];
      if e in l.ids then Due(s.rows, e, s.now) && row' == s.rows[e].(status := Processing, updated := s.now)
      else row' == s.rows[e]
  {
    if e in l.ids {
      var i :| 0 <= i < |l.ids| && l.ids[i] == e;
    }
  }

  function DueSet(rows: Rows, now: int): set<Eid> {
    set e | e in rows && Due(rows, e, now)
  }

  function IdSet(ids: seq<Eid>): set<Eid> {
    set e | e in ids
  }

  lemma {:induction false} DistinctSize(ids: seq<Eid>)
    requires forall i, j :: 0 <= i < j < |ids| ==> ids[i] != ids[j]
    ensures |IdSet(ids)| == |ids|
  {
    if ids != [] {
      var rest, last := ids[..|ids| - 1], ids[|ids| - 1];
      DistinctSize(rest);
      assert ids == rest + [last];
      assert IdSet(ids) == IdSet(rest) + {last};
    }
  }

  lemma ClaimedAreDue(rows: Rows, now: int, limit: int, ids: seq<Eid>)
    requires ValidBatch(rows, now, limit, ids)
    ensures IdSet(ids) <= DueSet(rows, now)
    ensures DueSet(ClaimRows(rows, ids, now), now) == DueSet(rows, now) - IdSet(ids)
  {
    forall e | e in ids ensures e in DueSet(rows, now) {
      var i :| 0 <= i < |ids| && ids[i] == e;
      assert Due(rows, ids[i], now);
    }
  }

  lemma BatchSize(rows: Rows, now: int, limit: int, ids: seq<Eid>)
    requires ValidBatch(rows, now, limit, ids)
    ensures var due := DueSet(rows, now);
      && |ids| == (if |due| <= limit then |due| else limit)
      && |due - IdSet(ids)| == |due| - |ids|
  {
    var due, taken := DueSet(rows, now), IdSet(ids);
    ClaimedAreDue(rows, now, limit, ids);
    DistinctSize(ids);
    assert |due - taken| == |due| - |taken|;
    if e :| e in due - taken {
      assert Due(rows, e, now) && e !in ids;
    }
  }

  /**
   A claim takes as many due rows as the batch allows and no others, the earliest first:
   what is due afterwards is what was due before without the batch, nothing if it all fits.
   */
  lemma ClaimDrainsDue(c: Config, s: State, l: Label)
    requires Enabled(c, s, l) && l.Claim? && !l.reply.Failed?
    ensures var due, due' := DueSet(s.rows, s.now), DueSet(Apply(c, s, l).rows, s.now);
      && due' == due - IdSet(l.ids)
      && |l.ids| == (if |due| <= c.batchSize then |due| else c.batchSize)
      && |due'| == |due| - |l.ids|
    ensures forall e, i :: e in DueSet(Apply(c, s, l).rows, s.now) && 0 <= i < |l.ids| ==>
      s.rows[l.ids[i]].nextRetry <= s.rows[e].nextRetry
  {
    ClaimedAreDue(s.rows, s.now, c.batchSize, l.ids);
    BatchSize(s.rows, s.now, c.batchSize, l.ids);
    forall e | e in DueSet(s.rows, s.now) && e !in l.ids ensures Due(s.rows, e, s.now) {}
    assert Apply(c, s, l).rows == ClaimRows(s.rows, l.ids, s.now);
  }

  lemma OnlyReleasesRelease(c: Config, s: State, l: Label, e: Eid)
    requires e in s.rows && s.rows[e].status != Pending && Apply(c, s, l).rows[e].status == Pending
    ensures Releases(c, s, l, e)
  {
  }

  lemma {:induction false} ReleasedBetween(c: Config, ls: seq<Label>, a: nat, b: nat, e: Eid)
    requires a <= b <= |ls| && e in Run(c, ls[..a]).rows && Run(c, ls[..a]).rows[e].status != Pending
    requires e in Run(c, ls[..b]).rows && Run(c, ls[..b]).rows[e].status == Pending
    ensures exists k :: a <= k < b && Releases(c, Run(c, ls[..k]), ls[k], e)
    decreases b
  {
    assert a < b;
    var s := Run(c, ls[..b - 1]);
    assert ls[..b][..b - 1] == ls[..b - 1];
    assert ls[..b - 1] == ls[..a] + ls[a..b - 1];
    EventsStay(c, ls[..a], ls[a..b - 1], e);
    if s.rows[e].status == Pending {
      ReleasedBetween(c, ls, a, b - 1, e);
    } else {
      OnlyReleasesRelease(c, s, ls[b - 1], e);
    }
  }

  /** No event is claimed twice without a retry or a reclaim of it in between. */
  lemma NoDoubleClaim(c: Config, ls: seq<Label>, i: nat, j: nat, e: Eid)
    requires i < j < |ls|
    requires Claims(c, Run(c, ls[..i]), ls[i], e) && Claims(c, Run(c, ls[..j]), ls[j], e)
    ensures exists k :: i < k < j && Releases(c, Run(c, ls[..k]), ls[k], e)
  {
    assert ls[..i + 1][..i] == ls[..i];
    assert Due(Run(c, ls[..i]).rows, e, Run(c, ls[..i]).now);
    ClaimEffect(c, Run(c, ls[..i]), ls[i], e);
    assert Due(Run(c, ls[..j]).rows, e, Run(c, ls[..j]).now);
    ReleasedBetween(c, ls, i + 1, j, e);
  }

  /**
   A reclaim goes by age alone: a row that has been in processing for more than the configured
   number of poll intervals is due at once with its attempts kept, every other row stays.
   */
  lemma ReclaimByAge(c: Config, s: State, l: Label, e: Eid)
    requires Enabled(c, s, l) && l.Reclaim? && !l.reply.Failed? && e in s.rows
    ensures var row, row' := s.rows[e], Apply(c, s, l).rows[e];
      if row.status == Processing && s.now - row.updated > c.staleReclaimMul * c.pollInterval then
        row' == row.(status := Pending, nextRetry := s.now, updated := s.now)
      else
        row' == row
  {
  }

  /******* One tick *******/

  function Ids(batch: seq<Claimed>): (ids: seq<Eid>)
    ensures |ids| == |batch| && forall i :: 0 <= i < |batch| ==> ids[i] == batch[i].id
  {
    seq(|batch|, i requires 0 <= i < |batch| => batch[i].id)
  }

  /** The pool bound holds, and every event handed out so far is in flight or finished, once. */
  ghost predicate TickOk(c: Config, k: Worker) {
    k.Working? ==>
      && k.started <= |k.batch|
      && |k.active| <= c.workerPool
      && (forall i, j :: 0 <= i < j < |k.batch| ==> k.batch[i].id != k.batch[j].id)
      && multiset(k.done) + multiset(k.active.Keys) == multiset(Ids(k.batch)[..k.started])
  }

  lemma SetGrows(es: set<Eid>, e: Eid)
    requires e !in es
    ensures multiset(es + {e}) == multiset(es) + multiset{e} && |es + {e}| == |es| + 1
  {
  }

  lemma NotStartedTwice(c: Config, k: Worker)
    requires k.Working? && TickOk(c, k) && k.started < |k.batch|
    ensures k.batch[k.started].id !in k.active
  {
    var ids, n := Ids(k.batch), k.started;
    assert ids[n] !in ids[..n];
    assert ids[n] !in multiset(ids[..n]);
    assert multiset(k.active.Keys)[ids[n]] == 0;
  }

  lemma StartTickOk(c: Config, k: Worker, x: (Claimed, Task))
    requires k.Working? && TickOk(c, k) && k.started < |k.batch| && |k.active| < c.workerPool
    ensures TickOk(c, k.(started := k.started + 1, active := k.active[k.batch[k.started].id := x]))
  {
    NotStartedTwice(c, k);
    var ids, n := Ids(k.batch), k.started;
    SetGrows(k.active.Keys, ids[n]);
    assert ids[..n + 1] == ids[..n] + [ids[n]];
    assert k.active[ids[n] := x].Keys == k.active.Keys + {ids[n]};
  }

  lemma FinishTickOk(c: Config, k: Worker, id: Eid)
    requires k.Working? && TickOk(c, k) && id in k.active
    ensures TickOk(c, FinishTask(k, id))
  {
    assert (k.active - {id}).Keys == k.active.Keys - {id};
    assert multiset(k.active.Keys) == multiset(k.active.Keys - {id}) + multiset{id};
    assert multiset(k.done + [id]) == multiset(k.done) + multiset{id};
  }

  lemma ClaimTickOk(c: Config, s: State, ids: seq<Eid>)
    requires Defaulted(c) && ValidBatch(s.rows, s.now, c.batchSize, ids)
    ensures TickOk(c, Working(Snapshot(s.rows, ids), 0, map[], []))
  {
  }

  lemma DeliveredTickOk(c: Config, k: Worker, id: Eid, x: (Claimed, Task))
    requires k.Working? && TickOk(c, k) && id in k.active
    ensures TickOk(c, k.(active := k.active[id := x]))
  {
    assert k.active[id := x].Keys == k.active.Keys;
  }

  lemma OwnTickOk(c: Config, s: State, l: Label)
    requires Defaulted(c) && Enabled(c, s, l) && ByWorker(l) && TickOk(c, WorkerOf(s, l.w))
    ensures TickOk(c, WorkerAfter(c, s, l))
  {
    hide TickOk, ValidBatch, Snapshot, FinishTask;
    var k := WorkerOf(s, l.w);
    IdleTickOk(c);
    match l
    case Claim(_, ids, _) => ClaimTickOk(c, s, ids);
    case Start(_) => StartTickOk(c, k, (k.batch[k.started], FirstTask(k.batch[k.started])));
    case Deliver(_, id, ok, error, cancelled, draw) =>
      if cancelled { FinishTickOk(c, k, id); }
      else { DeliveredTickOk(c, k, id, WorkerAfter(c, s, l).active[id]); }
    case MarkStep(_, id, _) => FinishTickOk(c, k, id);
    case _ =>
  }

  lemma IdleTickOk(c: Config)
    ensures TickOk(c, Idle) && TickOk(c, Polling)
  {
  }

  lemma ApplyKeepsTicks(c: Config, s: State, l: Label)
    requires Defaulted(c) && forall w :: w in s.workers ==> TickOk(c, s.workers[w])
    ensures forall w :: w in Apply(c, s, l).workers ==> TickOk(c, Apply(c, s, l).workers[w])
  {
    if Enabled(c, s, l) && ByWorker(l) {
      assert TickOk(c, WorkerOf(s, l.w));
      OwnTickOk(c, s, l);
    }
  }

  lemma {:induction false} TicksHold(c: Config, ls: seq<Label>)
    requires Defaulted(c)
    ensures forall w :: w in Run(c, ls).workers ==> TickOk(c, Run(c, ls).workers[w])
  {
    if ls != [] {
      TicksHold(c, ls[..|ls| - 1]);
      ApplyKeepsTicks(c, Run(c, ls[..|ls| - 1]), ls[|ls| - 1]);
    }
  }

  /** A worker never has more than WorkerPool deliveries in flight. */
  lemma BoundedPool(c: Config, ls: seq<Label>, w: Wid)
    requires Defaulted(c) && w in Run(c, ls).workers && Run(c, ls).workers[w].Working?
    ensures |Run(c, ls).workers[w].active| <= c.workerPool
  {
    TicksHold(c, ls);
  }

  /** A tick ends only after each claimed event has been handled exactly once. */
  lemma TickHandlesEachOnce(c: Config, ls: seq<Label>, w: Wid)
    requires Defaulted(c) && Enabled(c, Run(c, ls), EndTick(w))
    ensures var k := Run(c, ls).workers[w];
      && multiset(k.done) == multiset(Ids(k.batch))
      && forall i :: 0 <= i < |k.batch| ==> multiset(k.done)[k.batch[i].id] == 1
  {
    TicksHold(c, ls);
    var k := Run(c, ls).workers[w];
    var ids := Ids(k.batch);
    assert TickOk(c, k);
    assert ids[..|k.batch|] == ids;
    forall i | 0 <= i < |ids| ensures multiset(ids)[ids[i]] == 1 { DistinctCount(ids, i); }
  }

  lemma {:induction false} DistinctCount(ids: seq<Eid>, i: nat)
    requires i < |ids| && forall a, b :: 0 <= a < b < |ids| ==> ids[a] != ids[b]
    ensures multiset(ids)[ids[i]] == 1
  {
    assert ids == ids[..i] + [ids[i]] + ids[i + 1..];
    assert ids[i] !in ids[..i] && ids[i] !in ids[i + 1..];
  }
}
