/**
 The attempt cap with any number of workers.  A claim carries no owner, so a worker that
 stalled past the stale limit can still mark a row that has been claimed again.  The exact
 bound is one more attempt for each further worker.
 */
module OutboxLimits {
  import opened Options
  import opened OutboxModel
  import opened OutboxSafety
  import OutboxSingle
  import Retry
  import Text

  const E: Eid := 1

  /** The one event of the run: its row, and what a claim of it returns. */
  predicate OneRow(s: State, row: Row) {
    s.rows == map[E := row] && !Blank(row.url)
  }

  function Snap(row: Row): Claimed {
    Claimed(E, row.attempts, row.url)
  }

  /** `row'` is `row`, claimed at time `now`. */
  predicate ClaimOf(row: Row, row': Row, now: int) {
    row'.status == Processing && row'.attempts == row.attempts && row'.updated == now && row'.url == row.url
  }

  /** The next tick will claim the event: it is due, or its claim is stale. */
  predicate Claimable(c: Config, s: State, row: Row) {
    Due(s.rows, E, s.now) || Stale(row, s.now, StaleAfter(c))
  }

  /** A tick that finds the event due or stale claims it. */
  lemma ClaimIt(c: Config, ls: seq<Label>, w: Wid, row: Row) returns (ls': seq<Label>)
    requires Defaulted(c) && OneRow(Run(c, ls), row) && WorkerOf(Run(c, ls), w).Idle?
    requires Claimable(c, Run(c, ls), row)
    ensures var s, s' := Run(c, ls), Run(c, ls');
      && s'.now == s.now && s'.workers == s.workers[w := Working([Snap(row)], 0, map[], [])]
      && exists row' :: OneRow(s', row') && ClaimOf(row, row', s.now)
  {
    hide Run;
    var s := Run(c, ls);
    RunExtend(c, ls, Reclaim(w, Ok));
    ls' := ls + [Reclaim(w, Ok)];
    var mid := ReclaimRow(row, s.now, StaleAfter(c));
    assert Run(c, ls').rows == map[E := mid] && Due(map[E := mid], E, s.now);
    assert ValidBatch(map[E := mid], s.now, c.batchSize, [E]);
    RunExtend(c, ls', Claim(w, [E], Ok));
    ls' := ls' + [Claim(w, [E], Ok)];
    assert Snapshot(map[E := mid], [E]) == [Snap(row)];
    assert OneRow(Run(c, ls'), ClaimRow(mid, s.now));
    assert Run(c, ls').workers == s.workers[w := Working([Snap(row)], 0, map[], [])];
  }

  function AboutToRetry(t: Claimed, nextAt: int): Worker {
    Working([t], 1, map[E := (t, Marking(AsRetry(nextAt, "")))], [])
  }

  lemma StartIt(c: Config, ls: seq<Label>, w: Wid, t: Claimed) returns (ls': seq<Label>)
    requires Defaulted(c) && w in Run(c, ls).workers && Run(c, ls).workers[w] == Working([t], 0, map[], [])
    requires t.id == E && !Blank(t.url)
    ensures var s := Run(c, ls);
      Run(c, ls') == s.(workers := s.workers[w := Working([t], 1, map[E := (t, Delivering)], [])])
  {
    hide Run;
    RunExtend(c, ls, Start(w));
    ls' := ls + [Start(w)];
    assert FirstTask(t) == Delivering;
  }

  lemma NoDelay(base: int, multiplier: real, cap: int, attempt: nat)
    ensures Retry.Backoff(base, multiplier, cap, attempt, 0.0) == 0
  {
  }

  /** The delivery fails and the worker is about to record a retry that is due at once. */
  lemma FailIt(c: Config, ls: seq<Label>, w: Wid, t: Claimed) returns (ls': seq<Label>)
    requires Defaulted(c) && w in Run(c, ls).workers && Run(c, ls).workers[w] == Working([t], 0, map[], [])
    requires t.id == E && !Blank(t.url) && t.attempts + 1 < c.maxAttempts
    ensures var s, s' := Run(c, ls), Run(c, ls');
      s'.now == s.now && s'.rows == s.rows && s'.workers == s.workers[w := AboutToRetry(t, s.now)]
  {
    hide Run, Retry.Backoff;
    var s := Run(c, ls);
    ls' := StartIt(c, ls, w, t);
    NoDelay(c.baseDelay, c.multiplier, c.maxBackoff, t.attempts);
    RunExtend(c, ls', Deliver(w, E, false, "", false, 0.0));
    ls' := ls' + [Deliver(w, E, false, "", false, 0.0)];
    var marking, posting := (t, Marking(AsRetry(s.now, ""))), Working([t], 1, map[E := (t, Delivering)], []);
    assert map[E := (t, Delivering)][E := marking] == map[E := marking];
    assert s.workers[w := posting][w := AboutToRetry(t, s.now)] == s.workers[w := AboutToRetry(t, s.now)];
  }

  /** The retry is recorded on whatever claim the row is under. */
  lemma MarkIt(c: Config, ls: seq<Label>, w: Wid, row: Row, t: Claimed, nextAt: int) returns (ls': seq<Label>)
    requires Defaulted(c) && OneRow(Run(c, ls), row) && row.status == Processing
    requires w in Run(c, ls).workers && Run(c, ls).workers[w] == AboutToRetry(t, nextAt)
    ensures var s, s' := Run(c, ls), Run(c, ls');
      && s'.now == s.now && s'.workers == s.workers[w := Working([t], 1, map[], [E])]
      && OneRow(s', Row(row.url, Pending, row.attempts + 1, nextAt, s.now, row.deliveredAt, Some("")))
  {
    hide Run;
    RunExtend(c, ls, MarkStep(w, E, Ok));
    ls' := ls + [MarkStep(w, E, Ok)];
    var row' := Row(row.url, Pending, row.attempts + 1, nextAt, Run(c, ls).now, row.deliveredAt, Some(""));
    assert map[E := (t, Marking(AsRetry(nextAt, "")))] - {E} == map[];
    assert map[E := row][E := row'] == map[E := row'];
    assert FinishTask(AboutToRetry(t, nextAt), E) == Working([t], 1, map[], [E]);
  }

  /** A whole tick that fails to deliver: one more attempt, due again at once. */
  lemma FailingTick(c: Config, ls: seq<Label>, w: Wid, row: Row) returns (ls': seq<Label>, row': Row)
    requires Defaulted(c) && OneRow(Run(c, ls), row) && row.attempts + 1 < c.maxAttempts
    requires WorkerOf(Run(c, ls), w).Idle? && Claimable(c, Run(c, ls), row)
    ensures var s, s' := Run(c, ls), Run(c, ls');
      && OneRow(s', row') && row'.attempts == row.attempts + 1 && Claimable(c, s', row')
      && s'.now == s.now && s'.workers == s.workers[w := Idle]
  {
    hide Run, Apply, Blank;
    var s := Run(c, ls);
    ls' := ClaimIt(c, ls, w, row);
    var claimed :| OneRow(Run(c, ls'), claimed) && ClaimOf(row, claimed, s.now);
    ls' := FailIt(c, ls', w, Snap(row));
    ls' := MarkIt(c, ls', w, claimed, Snap(row), s.now);
    ls' := EndIt(c, ls', w, Snap(row));
    row' := Run(c, ls').rows[E];
    assert Run(c, ls').workers == s.workers[w := Idle];
  }

  lemma EndIt(c: Config, ls: seq<Label>, w: Wid, t: Claimed) returns (ls': seq<Label>)
    requires w in Run(c, ls).workers && Run(c, ls).workers[w] == Working([t], 1, map[], [E])
    ensures Run(c, ls') == Run(c, ls).(workers := Run(c, ls).workers[w := Idle])
  {
    RunExtend(c, ls, EndTick(w));
    ls' := ls + [EndTick(w)];
  }

  /** Worker `d` fails ticks until the row is one attempt short of the cap. */
  lemma {:induction false} FailUpTo(c: Config, ls: seq<Label>, d: Wid, row: Row) returns (ls': seq<Label>, row': Row)
    requires Defaulted(c) && OneRow(Run(c, ls), row) && row.attempts < c.maxAttempts
    requires Claimable(c, Run(c, ls), row) && WorkerOf(Run(c, ls), d).Idle?
    ensures var s, s' := Run(c, ls), Run(c, ls');
      && OneRow(s', row') && row'.attempts == c.maxAttempts - 1 && Claimable(c, s', row')
      && (s'.workers == s.workers[d := Idle] || (s'.workers == s.workers && row.attempts + 1 == c.maxAttempts))
      && s.now <= s'.now
    decreases c.maxAttempts - row.attempts
  {
    hide Run, Apply;
    if row.attempts + 1 < c.maxAttempts {
      ls', row' := FailingTick(c, ls, d, row);
      ls', row' := FailUpTo(c, ls', d, row');
    } else {
      ls', row' := ls, row;
    }
  }

  /** Worker `w` has stalled between a failed first delivery and its retry mark. */
  ghost predicate Stalled(s: State, w: Wid) {
    w in s.workers && exists t, nextAt :: nextAt <= s.now && s.workers[w] == AboutToRetry(t, nextAt)
  }

  /** Workers 1 to `m`, and nobody else, have claimed the event, failed to deliver it, and stalled. */
  ghost predicate AllStalled(s: State, m: nat) {
    forall w :: 1 <= w <= m ==> Stalled(s, w)
  }

  /** Workers 1 to `m`. */
  function UpTo(m: nat): (ws: set<Wid>)
    ensures |ws| == m && forall w :: w in ws <==> 1 <= w <= m
  {
    if m == 0 then {} else UpTo(m - 1) + {m}
  }

  lemma {:induction false} StallAll(c: Config, m: nat) returns (ls: seq<Label>, row: Row)
    requires Defaulted(c) && c.maxAttempts >= 2
    ensures var s := Run(c, ls);
      && OneRow(s, row) && row.attempts == 0 && Claimable(c, s, row)
      && s.workers.Keys == UpTo(m) && AllStalled(s, m)
  {
    if m == 0 {
      ls := Begin(c);
      row := NewRow("u", 0);
    } else {
      hide Run, Apply;
      ls, row := StallAll(c, m - 1);
      var s := Run(c, ls);
      ls, row := StallNext(c, ls, m, row);
      forall w | 1 <= w <= m ensures Stalled(Run(c, ls), w) {
        if w < m { assert Stalled(s, w); }
      }
    }
  }

  lemma Begin(c: Config) returns (ls: seq<Label>)
    ensures var s := Run(c, ls); OneRow(s, NewRow("u", 0)) && s.now == 0 && s.workers == map[]
  {
    NotBlank();
    RunExtend(c, [], Enqueue(E, "u"));
    ls := [] + [Enqueue(E, "u")];
  }

  lemma NotBlank()
    ensures !Blank("u")
  {
    assert "u"[0] == 'u' && !Text.IsSpace('u');
    assert Text.TrimLeft("u") == "u" && Text.TrimRight("u") == "u";
  }

  lemma WaitIt(c: Config, ls: seq<Label>, d: nat) returns (ls': seq<Label>)
    ensures Run(c, ls') == Run(c, ls).(now := Run(c, ls).now + d)
  {
    RunExtend(c, ls, Tick(d));
    ls' := ls + [Tick(d)];
  }

  lemma StallNext(c: Config, ls: seq<Label>, m: Wid, row: Row) returns (ls': seq<Label>, row': Row)
    requires Defaulted(c) && c.maxAttempts >= 2 && WorkerOf(Run(c, ls), m).Idle?
    requires OneRow(Run(c, ls), row) && row.attempts == 0 && Claimable(c, Run(c, ls), row)
    ensures var s, s' := Run(c, ls), Run(c, ls');
      && OneRow(s', row') && row'.attempts == 0 && Claimable(c, s', row')
      && s.now <= s'.now && s'.workers == s.workers[m := AboutToRetry(Snap(row), s.now)]
  {
    StalePositive(c);
    hide Run, Apply, Blank, StaleAfter;
    var s := Run(c, ls);
    ls' := ClaimIt(c, ls, m, row);
    row' :| OneRow(Run(c, ls'), row') && ClaimOf(row, row', s.now);
    ls' := FailIt(c, ls', m, Snap(row));
    ls' := WaitIt(c, ls', StaleAfter(c) + 1);
  }

  lemma StalePositive(c: Config)
    requires Defaulted(c)
    ensures StaleAfter(c) > 0
  {
    assert c.staleReclaimMul * c.pollInterval > 0;
  }

  /**
   Each stalled worker adds an attempt: the driver claims the event, the stalled worker's
   mark puts it back, and that worker drives next.
   */
  lemma {:induction false} MarksAddUp(c: Config, ls: seq<Label>, m: nat, d: Wid, row: Row) returns (ls': seq<Label>)
    requires Defaulted(c) && OneRow(Run(c, ls), row) && Claimable(c, Run(c, ls), row)
    requires AllStalled(Run(c, ls), m) && d in Run(c, ls).workers && Run(c, ls).workers[d].Idle?
    ensures var s, s' := Run(c, ls), Run(c, ls');
      s'.workers.Keys == s.workers.Keys && E in s'.rows && s'.rows[E].attempts == row.attempts + m
    decreases m
  {
    hide Run, Apply;
    if m == 0 {
      ls' := ls;
    } else {
      var row1;
      ls', row1 := MarkOne(c, ls, m, d, row);
      ls' := MarksAddUp(c, ls', m - 1, m, row1);
    }
  }

  lemma MarkOne(c: Config, ls: seq<Label>, m: Wid, d: Wid, row: Row) returns (ls': seq<Label>, row': Row)
    requires Defaulted(c) && m >= 1 && OneRow(Run(c, ls), row) && Claimable(c, Run(c, ls), row)
    requires AllStalled(Run(c, ls), m) && d in Run(c, ls).workers && Run(c, ls).workers[d].Idle?
    ensures var s, s' := Run(c, ls), Run(c, ls');
      && s'.workers.Keys == s.workers.Keys && m in s'.workers && s'.workers[m].Idle? && AllStalled(s', m - 1)
      && OneRow(s', row') && row'.attempts == row.attempts + 1 && Claimable(c, s', row')
  {
    hide Run, Apply, Blank;
    var s := Run(c, ls);
    assert Stalled(s, m);
    var t, nextAt :| nextAt <= s.now && s.workers[m] == AboutToRetry(t, nextAt);
    assert !Stalled(s, d);
    ls' := ClaimIt(c, ls, d, row);
    var claimed :| OneRow(Run(c, ls'), claimed) && ClaimOf(row, claimed, s.now);
    ls' := MarkIt(c, ls', m, claimed, t, nextAt);
    row' := Run(c, ls').rows[E];
    ls' := EndIt(c, ls', m, t);
    forall w | 1 <= w <= m - 1 ensures Stalled(Run(c, ls'), w) { assert Stalled(s, w); }
  }

  /**
   The bound on the attempt count is reached: for every configuration that retries at all
   and every number of workers, some run of that many workers takes an event to
   MaxAttempts - 2 + n attempts.
   */
  lemma CapIsReached(c: Config, n: nat) returns (ls: seq<Label>)
    requires Defaulted(c) && c.maxAttempts >= 2 && n >= 1
    ensures var s := Run(c, ls);
      |s.workers.Keys| == n && E in s.rows && s.rows[E].attempts == c.maxAttempts - 2 + n
  {
    hide Run, Apply;
    var row;
    ls, row := StallAll(c, n - 1);
    var s := Run(c, ls);
    ls, row := FailUpTo(c, ls, n, row);
    forall w | 1 <= w <= n - 1 ensures Stalled(Run(c, ls), w) { assert Stalled(s, w); }
    ls := MarksAddUp(c, ls, n - 1, n, row);
    assert Run(c, ls).workers.Keys == UpTo(n);
  }

  /******* The bound *******/

  /** The worker has the event in flight from a claim that still allows a retry. */
  predicate MayRetry(c: Config, k: Worker, e: Eid) {
    k.Working? &&
      (|| (e in k.active && k.active[e].0.attempts + 1 < c.maxAttempts)
       || exists i :: k.started <= i < |k.batch| && k.batch[i].id == e && k.batch[i].attempts + 1 < c.maxAttempts)
  }

  function Retriers(c: Config, s: State, e: Eid): set<Wid> {
    set w | w in s.workers && MayRetry(c, s.workers[w], e)
  }

  /** A retry is only recorded from such a claim. */
  predicate RetriesAllowed(c: Config, k: Worker) {
    k.Working? ==> forall id :: id in k.active ==> OutboxSingle.MarkWithinCap(c, k.active[id].0, k.active[id].1)
  }

  /** What has been retried too often is paid for by workers that can no longer retry it. */
  predicate CapPaid(c: Config, s: State, e: Eid) {
    e in s.rows && s.rows[e].attempts >= c.maxAttempts - 1 ==>
      s.rows[e].attempts + |Retriers(c, s, e)| <= c.maxAttempts - 2 + |s.workers.Keys|
  }

  ghost predicate CapInv(c: Config, s: State) {
    && (forall w :: w in s.workers ==> RetriesAllowed(c, s.workers[w]) && TickOk(c, s.workers[w]))
    && (forall e :: e in s.rows ==> CapPaid(c, s, e))
  }

  lemma StepKeepsAllowed(c: Config, s: State, l: Label)
    requires Enabled(c, s, l) && ByWorker(l) && RetriesAllowed(c, WorkerOf(s, l.w))
    ensures RetriesAllowed(c, WorkerAfter(c, s, l))
  {
  }

  /** Only a claim below the cap makes a worker one that may retry. */
  lemma NewRetrier(c: Config, s: State, l: Label, e: Eid)
    requires Enabled(c, s, l) && ByWorker(l)
    requires MayRetry(c, WorkerAfter(c, s, l), e) && !MayRetry(c, WorkerOf(s, l.w), e)
    ensures e in s.rows && s.rows[e].attempts + 1 < c.maxAttempts
  {
  }

  /** A finished event is not in the rest of the batch. */
  lemma FinishedIsGone(c: Config, k: Worker, e: Eid)
    requires k.Working? && TickOk(c, k) && e in k.active
    ensures !MayRetry(c, FinishTask(k, e), e)
  {
    var ids := Ids(k.batch);
    assert e in multiset(k.active.Keys);
    assert e in multiset(ids[..k.started]);
    var j :| 0 <= j < k.started && ids[..k.started][j] == e;
    assert k.batch[j].id == e;
  }

  lemma RetriersAfter(c: Config, s: State, l: Label, e: Eid)
    requires Enabled(c, s, l) && ByWorker(l)
    ensures Retriers(c, Apply(c, s, l), e) ==
      if MayRetry(c, WorkerAfter(c, s, l), e) then Retriers(c, s, e) + {l.w} else Retriers(c, s, e) - {l.w}
  {
    hide MayRetry, WorkerAfter;
  }

  lemma NoStepStaysPaid(c: Config, s: State, l: Label, e: Eid)
    requires c.maxAttempts >= 2 && Enabled(c, s, l) && !ByWorker(l) && e in Apply(c, s, l).rows
    requires e in s.rows ==> CapPaid(c, s, e)
    ensures CapPaid(c, Apply(c, s, l), e)
  {
    assert Retriers(c, Apply(c, s, l), e) == Retriers(c, s, e);
  }

  lemma UntriedStaysPaid(c: Config, s: State, l: Label, e: Eid)
    requires Enabled(c, s, l) && ByWorker(l) && e in s.rows && CapPaid(c, s, e)
    requires e in Apply(c, s, l).rows && Apply(c, s, l).rows[e].attempts == s.rows[e].attempts
    ensures CapPaid(c, Apply(c, s, l), e)
  {
    hide MayRetry, WorkerAfter, RowsAfter, Retriers, ValidBatch;
    RetriersAfter(c, s, l, e);
    if MayRetry(c, WorkerAfter(c, s, l), e) {
      if MayRetry(c, WorkerOf(s, l.w), e) {
        RetrierListed(c, s, l.w, e);
        assert Retriers(c, s, e) + {l.w} == Retriers(c, s, e);
      } else {
        NewRetrier(c, s, l, e);
      }
    }
    SubsetSize(s.workers.Keys, Apply(c, s, l).workers.Keys);
  }

  lemma RetrierListed(c: Config, s: State, w: Wid, e: Eid)
    requires MayRetry(c, WorkerOf(s, w), e)
    ensures w in Retriers(c, s, e)
  {
  }

  lemma CapStaysPaid(c: Config, s: State, l: Label, e: Eid)
    requires Defaulted(c) && c.maxAttempts >= 2 && CapInv(c, s) && Enabled(c, s, l) && e in Apply(c, s, l).rows
    ensures CapPaid(c, Apply(c, s, l), e)
  {
    hide CapPaid, WorkerAfter, ValidBatch;
    if !ByWorker(l) {
      NoStepStaysPaid(c, s, l, e);
    } else if Apply(c, s, l).rows[e].attempts != s.rows[e].attempts {
      RetryIsPaid(c, s, l, e);
    } else {
      UntriedStaysPaid(c, s, l, e);
    }
  }

  lemma RetryIsPaid(c: Config, s: State, l: Label, e: Eid)
    requires Defaulted(c) && CapInv(c, s) && Enabled(c, s, l) && e in s.rows
    requires Apply(c, s, l).rows[e].attempts != s.rows[e].attempts
    ensures CapPaid(c, Apply(c, s, l), e)
  {
    assert l.MarkStep? && l.id == e;
    var k := s.workers[l.w];
    assert RetriesAllowed(c, k) && TickOk(c, k);
    FinishedIsGone(c, k, e);
    RetriersAfter(c, s, l, e);
    assert l.w in Retriers(c, s, e) && Retriers(c, s, e) <= s.workers.Keys;
    assert |Retriers(c, s, e) - {l.w}| == |Retriers(c, s, e)| - 1;
    SubsetSize(Retriers(c, s, e), s.workers.Keys);
    assert Apply(c, s, l).workers.Keys == s.workers.Keys;
  }

  lemma SubsetSize(a: set<Wid>, b: set<Wid>)
    requires a <= b
    ensures |a| <= |b|
  {
    assert |b - a| == |b| - |a|;
  }

  lemma {:induction false} CapHolds(c: Config, ls: seq<Label>)
    requires Defaulted(c) && c.maxAttempts >= 2
    ensures CapInv(c, Run(c, ls))
  {
    TicksHold(c, ls);
    if ls != [] {
      var s, l := Run(c, ls[..|ls| - 1]), ls[|ls| - 1];
      CapHolds(c, ls[..|ls| - 1]);
      if Enabled(c, s, l) {
        if ByWorker(l) { StepKeepsAllowed(c, s, l); }
        forall e | e in Apply(c, s, l).rows ensures CapPaid(c, Apply(c, s, l), e) { CapStaysPaid(c, s, l, e); }
      }
    }
  }

  /**
   For any number of workers: an event's attempt count is at most MaxAttempts - 2 plus the
   number of workers that have acted.  With one worker this is the cap of MaxAttempts - 1.
   */
  lemma CapForWorkers(c: Config, ls: seq<Label>, e: Eid)
    requires Defaulted(c) && c.maxAttempts >= 2 && e in Run(c, ls).rows
    ensures Run(c, ls).rows[e].attempts <= c.maxAttempts - 2 + |Run(c, ls).workers.Keys|
  {
    CapHolds(c, ls);
    assert CapPaid(c, Run(c, ls), e);
  }

  /******* One attempt *******/

  /** Nothing has been retried or is about to be. */
  ghost predicate NoRetries(s: State) {
    && (forall e :: e in s.rows ==> s.rows[e].attempts == 0)
    && (forall w :: w in s.workers ==> NoRetryPending(s.workers[w]))
  }

  lemma StepKeepsNoRetry(c: Config, s: State, l: Label)
    requires c.maxAttempts == 1 && Enabled(c, s, l) && ByWorker(l) && NoRetryPending(WorkerOf(s, l.w))
    ensures NoRetryPending(WorkerAfter(c, s, l))
  {
  }

  lemma RowsKeepNoRetry(c: Config, s: State, l: Label, e: Eid)
    requires NoRetries(s) && Enabled(c, s, l) && e in RowsAfter(c, s, l)
    ensures RowsAfter(c, s, l)[e].attempts == 0
  {
    if l.MarkStep? {
      assert NoRetryPending(s.workers[l.w]);
    }
  }

  lemma {:induction false} OneAttemptNeverRetries(c: Config, ls: seq<Label>)
    requires c.maxAttempts == 1
    ensures NoRetries(Run(c, ls))
  {
    if ls != [] {
      var s, l := Run(c, ls[..|ls| - 1]), ls[|ls| - 1];
      OneAttemptNeverRetries(c, ls[..|ls| - 1]);
      if Enabled(c, s, l) {
        if ByWorker(l) { StepKeepsNoRetry(c, s, l); }
        forall e | e in RowsAfter(c, s, l) ensures RowsAfter(c, s, l)[e].attempts == 0 { RowsKeepNoRetry(c, s, l, e); }
      }
    }
  }

  /** With any number of workers, the cap holds in all runs exactly when there are no retries at all. */
  lemma CapForAnyWorkersIff(c: Config)
    requires Defaulted(c)
    ensures (forall ls, e :: e in Run(c, ls).rows ==> Run(c, ls).rows[e].attempts <= c.maxAttempts - 1)
       <==> c.maxAttempts == 1
  {
    if c.maxAttempts == 1 {
      forall ls, e | e in Run(c, ls).rows ensures Run(c, ls).rows[e].attempts <= c.maxAttempts - 1 {
        OneAttemptNeverRetries(c, ls);
      }
    } else {
      var ls := CapIsReached(c, 2);
      assert E in Run(c, ls).rows;
    }
  }
}
