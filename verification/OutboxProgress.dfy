/**
 With one worker, every event can still reach delivered or dead, from every reachable state.
 */
module OutboxProgress {
  import opened OutboxModel
  import opened OutboxSafety
  import opened OutboxSingle

  lemma {:induction false} RunSplits(c: Config, ls: seq<Label>, more: seq<Label>)
    ensures Run(c, ls + more) == RunFrom(c, Run(c, ls), more)
    decreases |more|
  {
    if more == [] {
      assert ls + more == ls;
    } else {
      assert ls + more == (ls + [more[0]]) + more[1..];
      RunExtend(c, ls, more[0]);
      RunSplits(c, ls + [more[0]], more[1..]);
    }
  }

  lemma {:induction false} RunFromConcat(c: Config, s: State, a: seq<Label>, b: seq<Label>)
    ensures RunFrom(c, s, a + b) == RunFrom(c, RunFrom(c, s, a), b)
    decreases |a|
  {
    if a == [] {
      assert a + b == b;
    } else {
      assert (a + b)[1..] == a[1..] + b;
      RunFromConcat(c, Apply(c, s, a[0]), a[1..], b);
    }
  }

  /** Both invariants, for the single worker `w`. */
  ghost predicate Good(c: Config, s: State, w: Wid) {
    Defaulted(c) && Inv(c, s) && SingleInv(c, s, w)
  }

  lemma GoodStep(c: Config, s: State, l: Label, w: Wid)
    requires Good(c, s, w) && (ByWorker(l) ==> l.w == w)
    ensures Good(c, Apply(c, s, l), w)
  {
    ApplyKeepsInv(c, s, l);
    ApplyKeepsSingle(c, s, l, w);
  }

  /** How far an event is from its end: the attempts it has left, none once it has ended. */
  function Weight(c: Config, row: Row): int {
    if Terminal(row) then 0 else Remaining(c, row)
  }

  /** The events are the same, and none has moved away from its end. */
  ghost predicate Advances(c: Config, s: State, s': State) {
    && s'.rows.Keys == s.rows.Keys
    && forall e :: e in s.rows ==> Weight(c, s'.rows[e]) <= Weight(c, s.rows[e])
  }

  lemma KeysStay(c: Config, s: State, l: Label)
    requires !l.Enqueue?
    ensures Apply(c, s, l).rows.Keys == s.rows.Keys
  {
  }

  lemma StepAdvances(c: Config, s: State, l: Label, w: Wid)
    requires Good(c, s, w) && !l.Enqueue?
    ensures Advances(c, s, Apply(c, s, l))
  {
    hide Good, Apply;
    KeysStay(c, s, l);
    forall e | e in s.rows ensures Weight(c, Apply(c, s, l).rows[e]) <= Weight(c, s.rows[e]) {
      StepLightens(c, s, l, w, e);
    }
  }

  lemma StepLightens(c: Config, s: State, l: Label, w: Wid, e: Eid)
    requires Good(c, s, w) && e in s.rows && e in Apply(c, s, l).rows
    ensures Weight(c, Apply(c, s, l).rows[e]) <= Weight(c, s.rows[e])
  {
    assert CapOk(c, s.rows[e]);
    if Terminal(s.rows[e]) {
      TerminalStep(c, s, l, e);
    } else {
      ApplyGrows(c, s, l);
    }
  }

  /******* Any answers of the merchants *******/

  /** How a merchant answers a delivery, and the draw for the backoff if it refuses. */
  datatype Reaction = Reaction(ok: bool, error: string, draw: Draw)

  /** The merchants may answer as they like, depending on everything that has happened. */
  type Strategy = (State, Eid) -> Reaction

  /** Statements work, nothing is cancelled, nobody dies, and deliveries end as the strategy says. */
  predicate Obeys(s: State, l: Label, f: Strategy) {
    match l
    case Tick(_) => true
    case Enqueue(_, _) => false
    case Reclaim(_, reply) => reply == Ok
    case Claim(_, _, reply) => reply == Ok
    case Start(_) => true
    case Deliver(_, id, ok, error, cancelled, draw) =>
      !cancelled && f(s, id).ok == ok && f(s, id).error == error && f(s, id).draw == draw
    case MarkStep(_, _, reply) => reply == Ok
    case EndTick(_) => true
    case Die(_) => false
  }

  /** From `s` on, every step of `ls` obeys the strategy. */
  ghost predicate Plays(c: Config, s: State, ls: seq<Label>, f: Strategy)
    decreases |ls|
  {
    ls != [] ==> Obeys(s, ls[0], f) && Plays(c, Apply(c, s, ls[0]), ls[1..], f)
  }

  lemma {:induction false} PlaysConcat(c: Config, s: State, a: seq<Label>, b: seq<Label>, f: Strategy)
    requires Plays(c, s, a, f) && Plays(c, RunFrom(c, s, a), b, f)
    ensures Plays(c, s, a + b, f)
    decreases |a|
  {
    if a == [] {
      assert a + b == b;
    } else {
      assert (a + b)[1..] == a[1..] + b;
      PlaysConcat(c, Apply(c, s, a[0]), a[1..], b, f);
    }
  }

  predicate NoneEnqueued(ls: seq<Label>) {
    forall i :: 0 <= i < |ls| ==> !ls[i].Enqueue?
  }

  /** Worker `w` alone, without new events and with the merchants' strategy, gets from `s` to `s'` by `more`. */
  ghost predicate Path(c: Config, s: State, more: seq<Label>, s': State, w: Wid, f: Strategy) {
    && OnlyWorker(more, w) && NoneEnqueued(more) && Plays(c, s, more, f)
    && s' == RunFrom(c, s, more) && Good(c, s', w) && Advances(c, s, s')
  }

  lemma PathStep(c: Config, s: State, l: Label, w: Wid, f: Strategy)
    requires Good(c, s, w) && (ByWorker(l) ==> l.w == w) && Obeys(s, l, f)
    ensures Path(c, s, [l], Apply(c, s, l), w, f)
  {
    hide Good, Apply, Advances;
    assert [l][1..] == [] && Plays(c, Apply(c, s, l), [], f) && RunFrom(c, Apply(c, s, l), []) == Apply(c, s, l);
    GoodStep(c, s, l, w);
    StepAdvances(c, s, l, w);
  }

  lemma PathJoin(c: Config, s: State, a: seq<Label>, s1: State, b: seq<Label>, s2: State, w: Wid, f: Strategy)
    requires Path(c, s, a, s1, w, f) && Path(c, s1, b, s2, w, f)
    ensures Path(c, s, a + b, s2, w, f)
  {
    hide Good, Apply;
    RunFromConcat(c, s, a, b);
    PlaysConcat(c, s, a, b, f);
  }

  /******* Finishing a tick *******/

  function BeingDelivered(k: Worker): set<Eid>
    requires k.Working?
  {
    set id | id in k.active && k.active[id].1.Delivering?
  }

  /** How much of the tick is left. */
  function WorkLeft(k: Worker): int {
    if k.Working? then 3 * (|k.batch| - k.started) + |k.active.Keys| + |BeingDelivered(k)| + 1 else 0
  }

  /** The tick has moved forward, and only `marked` has left it. */
  ghost predicate Forward(k: Worker, k': Worker, marked: set<Eid>) {
    && WorkLeft(k') < WorkLeft(k)
    && (forall e :: InFlight(k, e) && e !in marked ==> InFlight(k', e))
  }

  lemma DeliverForward(k: Worker, id: Eid, m: Mark)
    requires k.Working? && id in k.active && k.active[id].1.Delivering?
    ensures Forward(k, k.(active := k.active[id := (k.active[id].0, Marking(m))]), {})
  {
    var k' := k.(active := k.active[id := (k.active[id].0, Marking(m))]);
    assert BeingDelivered(k') == BeingDelivered(k) - {id};
    assert k'.active.Keys == k.active.Keys;
  }

  lemma MarkForward(k: Worker, id: Eid)
    requires k.Working? && id in k.active && k.active[id].1.Marking?
    ensures Forward(k, FinishTask(k, id), {id})
  {
    var k' := FinishTask(k, id);
    assert BeingDelivered(k') == BeingDelivered(k);
    assert k'.active.Keys == k.active.Keys - {id};
  }

  lemma StartForward(k: Worker)
    requires k.Working? && k.active == map[] && k.started < |k.batch|
    ensures var t := k.batch[k.started];
      Forward(k, k.(started := k.started + 1, active := k.active[t.id := (t, FirstTask(t))]), {})
  {
    var t := k.batch[k.started];
    var k' := k.(started := k.started + 1, active := k.active[t.id := (t, FirstTask(t))]);
    assert BeingDelivered(k) == {} && BeingDelivered(k') <= {t.id};
    assert |BeingDelivered(k')| <= 1 by { if BeingDelivered(k') != {} { assert BeingDelivered(k') == {t.id}; } }
    assert k'.active.Keys == {t.id};
    forall e | InFlight(k, e) ensures InFlight(k', e) {
      var i :| k.started <= i < |k.batch| && k.batch[i].id == e;
      if i > k.started { assert k'.batch[i].id == e; }
    }
  }

  lemma EndForward(k: Worker)
    requires k.Working? && k.active == map[] && k.started == |k.batch|
    ensures Forward(k, Idle, {})
  {
  }

  function MarkedBy(l: Label): set<Eid> {
    if l.MarkStep? then {l.id} else {}
  }

  /** A step that moves the tick forward: have a delivery answered, record it, start the next, or end. */
  lemma NextLabel(c: Config, s: State, w: Wid, f: Strategy) returns (l: Label)
    requires Good(c, s, w) && WorkerOf(s, w).Working?
    ensures Enabled(c, s, l) && ByWorker(l) && l.w == w && Obeys(s, l, f)
    ensures Forward(WorkerOf(s, w), WorkerAfter(c, s, l), MarkedBy(l))
    ensures !WorkerAfter(c, s, l).Polling?
  {
    var k := WorkerOf(s, w);
    if k.active != map[] {
      var id :| id in k.active;
      if k.active[id].1.Delivering? {
        var x := f(s, id);
        l := Deliver(w, id, x.ok, x.error, false, x.draw);
        DeliverForward(k, id, AfterDelivery(c, s.now, k.active[id].0, x.ok, x.error, x.draw));
      } else {
        l := MarkStep(w, id, Ok);
        MarkForward(k, id);
      }
    } else if k.started < |k.batch| {
      l := Start(w);
      StartForward(k);
    } else {
      l := EndTick(w);
      EndForward(k);
    }
  }

  /** A recorded delivery brings its event nearer to its end: delivered, dead, or one attempt fewer. */
  lemma MarkLightens(c: Config, s: State, w: Wid, l: Label)
    requires SingleInv(c, s, w) && l.MarkStep? && l.w == w && l.reply == Ok && Enabled(c, s, l)
    ensures l.id in s.rows && l.id in Apply(c, s, l).rows
    ensures Weight(c, Apply(c, s, l).rows[l.id]) < Weight(c, s.rows[l.id])
  {
    assert Held(s.rows, WorkerOf(s, w).active[l.id].0);
    assert CapOk(c, s.rows[l.id]);
  }

  /** Every event in flight in `s` is nearer to its end in `s'`. */
  ghost predicate AllLighter(c: Config, s: State, s': State, k: Worker) {
    forall e :: InFlight(k, e) ==> e in s.rows && e in s'.rows && Weight(c, s'.rows[e]) < Weight(c, s.rows[e])
  }

  lemma HeldInFlight(c: Config, s: State, w: Wid, e: Eid)
    requires SingleInv(c, s, w) && InFlight(WorkerOf(s, w), e)
    ensures e in s.rows
  {
    var k := WorkerOf(s, w);
    if e in k.active {
      assert Held(s.rows, k.active[e].0);
    } else {
      var i :| k.started <= i < |k.batch| && k.batch[i].id == e;
      assert Held(s.rows, k.batch[i]);
    }
  }

  /** What one step towards the end of the tick does. */
  ghost predicate Nearer(c: Config, s: State, s': State, w: Wid) {
    && !WorkerOf(s', w).Polling?
    && 0 <= WorkLeft(WorkerOf(s', w)) < WorkLeft(WorkerOf(s, w))
    && forall e :: InFlight(WorkerOf(s, w), e) ==>
         e in s.rows && (InFlight(WorkerOf(s', w), e) || (e in s'.rows && Weight(c, s'.rows[e]) < Weight(c, s.rows[e])))
  }

  lemma WorkLeftBounded(c: Config, s: State, w: Wid)
    requires Good(c, s, w)
    ensures 0 <= WorkLeft(WorkerOf(s, w))
  {
  }

  lemma StepNearer(c: Config, s: State, w: Wid, l: Label)
    requires SingleInv(c, s, w) && WorkerOf(s, w).Working?
    requires Enabled(c, s, l) && ByWorker(l) && l.w == w && (l.MarkStep? ==> l.reply == Ok)
    requires Forward(WorkerOf(s, w), WorkerAfter(c, s, l), MarkedBy(l)) && !WorkerAfter(c, s, l).Polling?
    requires 0 <= WorkLeft(WorkerAfter(c, s, l))
    ensures Nearer(c, s, Apply(c, s, l), w)
  {
    var s' := Apply(c, s, l);
    assert WorkerOf(s', w) == WorkerAfter(c, s, l);
    if l.MarkStep? { MarkLightens(c, s, w, l); }
    hide WorkerAfter, SingleInv, InFlight, WorkLeft, Weight;
    forall e | InFlight(WorkerOf(s, w), e) ensures e in s.rows { HeldInFlight(c, s, w, e); }
  }

  lemma DrainStep(c: Config, s: State, w: Wid, f: Strategy) returns (l: Label)
    requires Good(c, s, w) && WorkerOf(s, w).Working?
    ensures Path(c, s, [l], Apply(c, s, l), w, f) && Nearer(c, s, Apply(c, s, l), w)
  {
    l := NextLabel(c, s, w, f);
    PathStep(c, s, l, w, f);
    WorkLeftBounded(c, Apply(c, s, l), w);
    hide Forward, WorkerAfter, Plays, Advances, InFlight;
    StepNearer(c, s, w, l);
  }

  /** Whatever the merchants answer, the worker finishes its tick, and all its events are nearer to their end. */
  lemma {:induction false} Drain(c: Config, s: State, w: Wid, f: Strategy) returns (more: seq<Label>, s': State)
    requires Good(c, s, w) && WorkerOf(s, w).Working?
    ensures Path(c, s, more, s', w, f) && WorkerOf(s', w).Idle? && AllLighter(c, s, s', WorkerOf(s, w))
    decreases WorkLeft(WorkerOf(s, w))
  {
    hide Good, Apply, InFlight, Plays, OnlyWorker, NoneEnqueued, RunFrom;
    var l := DrainStep(c, s, w, f);
    var s1 := Apply(c, s, l);
    more, s' := [l], s1;
    if WorkerOf(s1, w).Working? {
      var rest;
      rest, s' := Drain(c, s1, w, f);
      PathJoin(c, s, [l], s1, rest, s', w, f);
      more := [l] + rest;
    } else {
      NotInFlight(WorkerOf(s1, w));
    }
  }

  lemma NotInFlight(k: Worker)
    requires !k.Working?
    ensures forall e :: !InFlight(k, e)
  {
  }

  /******* A claim is always possible *******/

  lemma {:induction false} Earliest(rows: Rows, due: set<Eid>) returns (m: Eid)
    requires due != {} && forall e :: e in due ==> e in rows
    ensures m in due && forall e :: e in due ==> rows[m].nextRetry <= rows[e].nextRetry
    decreases |due|
  {
    var x :| x in due;
    if due == {x} {
      m := x;
    } else {
      var y := Earliest(rows, due - {x});
      m := if rows[x].nextRetry <= rows[y].nextRetry then x else y;
      forall e | e in due ensures rows[m].nextRetry <= rows[e].nextRetry {
        if e != x { assert e in due - {x}; }
      }
    }
  }

  /** The earliest `limit` of `due`, in order. */
  lemma {:induction false} PickEarliest(rows: Rows, due: set<Eid>, limit: nat) returns (ids: seq<Eid>)
    requires forall e :: e in due ==> e in rows
    ensures |ids| <= limit && (forall i :: 0 <= i < |ids| ==> ids[i] in due)
    ensures forall i, j :: 0 <= i < j < |ids| ==> ids[i] != ids[j]
    ensures forall e :: e in due && e !in ids ==>
      |ids| == limit && forall i :: 0 <= i < |ids| ==> rows[ids[i]].nextRetry <= rows[e].nextRetry
    decreases limit
  {
    if limit == 0 || due == {} {
      ids := [];
    } else {
      var m := Earliest(rows, due);
      var rest := PickEarliest(rows, due - {m}, limit - 1);
      ids := [m] + rest;
      forall e | e in due && e !in ids
        ensures |ids| == limit && forall i :: 0 <= i < |ids| ==> rows[ids[i]].nextRetry <= rows[e].nextRetry
      {
        assert e in due - {m} && e !in rest;
      }
    }
  }

  lemma BatchExists(rows: Rows, now: int, limit: nat) returns (ids: seq<Eid>)
    ensures ValidBatch(rows, now, limit, ids)
  {
    ids := PickEarliest(rows, (set e | e in rows && Due(rows, e, now)), limit);
  }

  /******* One full tick *******/

  function Open(s: State): set<Eid> {
    set e | e in s.rows && !Terminal(s.rows[e])
  }

  /** The attempts that all the events of `es` have left together. */
  ghost function Total(c: Config, rows: Rows, es: set<Eid>): int
    requires es <= rows.Keys
  {
    if es == {} then 0
    else
      var e :| e in es;
      Weight(c, rows[e]) + Total(c, rows, es - {e})
  }

  /** The total does not depend on the order of counting. */
  lemma {:induction false} TotalAt(c: Config, rows: Rows, es: set<Eid>, e: Eid)
    requires es <= rows.Keys && e in es
    ensures Total(c, rows, es) == Weight(c, rows[e]) + Total(c, rows, es - {e})
  {
    var x :| x in es && Total(c, rows, es) == Weight(c, rows[x]) + Total(c, rows, es - {x});
    if x != e {
      TotalAt(c, rows, es - {x}, e);
      TotalAt(c, rows, es - {e}, x);
      assert es - {x} - {e} == es - {e} - {x};
    }
  }

  lemma {:induction false} TotalMonotone(c: Config, rows: Rows, rows': Rows, es: set<Eid>)
    requires es <= rows.Keys && es <= rows'.Keys
    requires forall e :: e in es ==> 0 <= Weight(c, rows'[e]) <= Weight(c, rows[e])
    ensures 0 <= Total(c, rows', es) <= Total(c, rows, es)
  {
    if es != {} {
      var e :| e in es;
      TotalAt(c, rows, es, e);
      TotalAt(c, rows', es, e);
      TotalMonotone(c, rows, rows', es - {e});
    }
  }

  lemma TotalDrops(c: Config, s: State, s': State, e: Eid)
    requires Advances(c, s, s') && e in s.rows && Weight(c, s'.rows[e]) < Weight(c, s.rows[e])
    requires forall x :: x in s'.rows ==> 0 <= Weight(c, s'.rows[x])
    ensures 0 <= Total(c, s'.rows, s'.rows.Keys) < Total(c, s.rows, s.rows.Keys)
  {
    var es := s.rows.Keys;
    TotalAt(c, s.rows, es, e);
    TotalAt(c, s'.rows, es, e);
    TotalMonotone(c, s.rows, s'.rows, es - {e});
  }

  /** An event has ended exactly when nothing is left of it. */
  predicate WeighedRight(c: Config, row: Row) {
    0 <= Weight(c, row) && (Terminal(row) <==> Weight(c, row) == 0)
  }

  lemma WeightsPositive(c: Config, s: State, w: Wid)
    requires Good(c, s, w)
    ensures forall e :: e in s.rows ==> WeighedRight(c, s.rows[e])
  {
    forall e | e in s.rows ensures WeighedRight(c, s.rows[e]) {
      assert CapOk(c, s.rows[e]);
    }
  }

  function Wait(c: Config): (d: nat)
    requires Defaulted(c)
    ensures d > StaleAfter(c)
  {
    assert StaleAfter(c) >= 0 by { assert c.staleReclaimMul * c.pollInterval >= 0; }
    StaleAfter(c) + 1
  }

  lemma RowAfterWait(c: Config, s: State, e: Eid, now: int)
    requires Defaulted(c) && e in s.rows && RowOk(c, s, e) && now >= s.now + c.maxBackoff + Wait(c)
    ensures var row := ReclaimRow(s.rows[e], now, StaleAfter(c));
      && (Terminal(row) <==> Terminal(s.rows[e]))
      && (!Terminal(row) ==> row.status == Pending && row.nextRetry <= now)
  {
  }

  /** What the wait and the reclaim do to the table. */
  lemma AllDue(c: Config, s: State, w: Wid)
    requires Good(c, s, w) && WorkerOf(s, w).Idle?
    ensures var s1 := Apply(c, s, Tick(c.maxBackoff + Wait(c)));
      var s' := Apply(c, s1, Reclaim(w, Ok));
      && WorkerOf(s', w).Polling? && Open(s') == Open(s)
      && forall e :: e in Open(s') ==> Due(s'.rows, e, s'.now)
  {
    var s1 := Apply(c, s, Tick(c.maxBackoff + Wait(c)));
    var s' := Apply(c, s1, Reclaim(w, Ok));
    assert s'.rows == ReclaimRows(s.rows, s1.now, StaleAfter(c));
    forall e | e in s.rows
      ensures Terminal(s'.rows[e]) <==> Terminal(s.rows[e])
      ensures !Terminal(s'.rows[e]) ==> Due(s'.rows, e, s'.now)
    {
      RowAfterWait(c, s, e, s1.now);
    }
  }

  /** Waiting makes every pending event due and every claimed one stale; a reclaim makes all due. */
  lemma WaitAndReclaim(c: Config, s: State, w: Wid, f: Strategy) returns (more: seq<Label>, s': State)
    requires Good(c, s, w) && WorkerOf(s, w).Idle?
    ensures Path(c, s, more, s', w, f) && WorkerOf(s', w).Polling? && Open(s') == Open(s)
    ensures forall e :: e in Open(s') ==> Due(s'.rows, e, s'.now)
  {
    AllDue(c, s, w);
    var l1, l2 := Tick(c.maxBackoff + Wait(c)), Reclaim(w, Ok);
    hide Apply, Wait;
    var s1 := Apply(c, s, l1);
    s' := Apply(c, s1, l2);
    PathStep(c, s, l1, w, f);
    PathStep(c, s1, l2, w, f);
    more := [l1] + [l2];
    PathJoin(c, s, [l1], s1, [l2], s', w, f);
  }

  /** With every open event due, a claim takes a non-empty batch. */
  lemma TakeBatch(c: Config, s: State, w: Wid) returns (l: Label)
    requires Good(c, s, w) && WorkerOf(s, w).Polling? && Open(s) != {}
    requires forall e :: e in Open(s) ==> Due(s.rows, e, s.now)
    ensures l.Claim? && l.w == w && l.reply == Ok && l.ids != [] && ValidBatch(s.rows, s.now, c.batchSize, l.ids)
  {
    var ids := BatchExists(s.rows, s.now, c.batchSize);
    l := Claim(w, ids, Ok);
    var e :| e in Open(s);
    assert Due(s.rows, e, s.now);
  }

  lemma BatchInFlight(c: Config, s: State, w: Wid, l: Label)
    requires l.Claim? && l.w == w && l.reply == Ok && l.ids != [] && Enabled(c, s, l)
    ensures var s' := Apply(c, s, l);
      && WorkerOf(s', w).Working? && InFlight(WorkerOf(s', w), l.ids[0])
      && l.ids[0] in s.rows && l.ids[0] in s'.rows && Weight(c, s'.rows[l.ids[0]]) == Weight(c, s.rows[l.ids[0]])
  {
    assert Due(s.rows, l.ids[0], s.now);
    assert WorkerOf(Apply(c, s, l), w).batch[0].id == l.ids[0];
  }

  /** A claim, whatever the merchants answer, brings at least one event nearer to its end. */
  lemma ClaimAndDrain(c: Config, s: State, w: Wid, f: Strategy) returns (more: seq<Label>, s': State, e: Eid)
    requires Good(c, s, w) && WorkerOf(s, w).Polling? && Open(s) != {}
    requires forall e :: e in Open(s) ==> Due(s.rows, e, s.now)
    ensures Path(c, s, more, s', w, f) && WorkerOf(s', w).Idle?
    ensures e in s.rows && e in s'.rows && Weight(c, s'.rows[e]) < Weight(c, s.rows[e])
  {
    var l := TakeBatch(c, s, w);
    var s1 := Apply(c, s, l);
    BatchInFlight(c, s, w, l);
    PathStep(c, s, l, w, f);
    hide Good, Apply, InFlight, Plays, RunFrom, ValidBatch;
    var rest;
    rest, s' := Drain(c, s1, w, f);
    more := [l] + rest;
    PathJoin(c, s, [l], s1, rest, s', w, f);
    e := l.ids[0];
  }

  /** From an idle worker, one tick lowers the attempts that are left. */
  lemma FullTick(c: Config, s: State, w: Wid, f: Strategy) returns (more: seq<Label>, s': State)
    requires Good(c, s, w) && WorkerOf(s, w).Idle? && Open(s) != {}
    ensures Path(c, s, more, s', w, f) && WorkerOf(s', w).Idle?
    ensures 0 <= Total(c, s'.rows, s'.rows.Keys) < Total(c, s.rows, s.rows.Keys)
  {
    var first, s1 := WaitAndReclaim(c, s, w, f);
    var rest, e;
    rest, s', e := ClaimAndDrain(c, s1, w, f);
    more := first + rest;
    PathJoin(c, s, first, s1, rest, s', w, f);
    WeightsPositive(c, s', w);
    hide Good, Apply, Plays, RunFrom;
    TotalDrops(c, s, s', e);
  }

  /** From an idle worker every event ends, whatever the merchants answer. */
  lemma {:induction false} EndAll(c: Config, s: State, w: Wid, f: Strategy) returns (more: seq<Label>, s': State)
    requires Good(c, s, w) && WorkerOf(s, w).Idle?
    ensures Path(c, s, more, s', w, f) && Open(s') == {}
    decreases Total(c, s.rows, s.rows.Keys)
  {
    more, s' := [], s;
    if Open(s) != {} {
      hide Good, Apply;
      var tick, s1 := FullTick(c, s, w, f);
      assert Good(c, s1, w);
      var rest;
      rest, s' := EndAll(c, s1, w, f);
      more := tick + rest;
      PathJoin(c, s, tick, s1, rest, s', w, f);
    }
  }

  /** Whatever the worker is doing, it gets back to idle. */
  lemma ReachIdle(c: Config, s: State, w: Wid, f: Strategy) returns (more: seq<Label>, s': State)
    requires Good(c, s, w)
    ensures Path(c, s, more, s', w, f) && WorkerOf(s', w).Idle?
  {
    more, s' := [], s;
    if WorkerOf(s, w).Polling? {
      var ids := BatchExists(s.rows, s.now, c.batchSize);
      more, s' := [Claim(w, ids, Ok)], Apply(c, s, Claim(w, ids, Ok));
      PathStep(c, s, Claim(w, ids, Ok), w, f);
    }
    if WorkerOf(s', w).Working? {
      var s1 := s';
      var rest;
      rest, s' := Drain(c, s1, w, f);
      PathJoin(c, s, more, s1, rest, s', w, f);
      more := more + rest;
    }
  }

  /**
   With one worker, from every reachable state and for every strategy of the merchants:
   a finite continuation by that worker, in which every delivery is answered as the strategy
   says and nothing else goes wrong, ends all events.  Refusals cannot keep one open for
   ever, because of the attempt cap.
   */
  lemma EventsFinish(c: Config, ls: seq<Label>, w: Wid, f: Strategy) returns (more: seq<Label>)
    requires Defaulted(c) && OnlyWorker(ls, w)
    ensures OnlyWorker(more, w) && NoneEnqueued(more) && Plays(c, Run(c, ls), more, f)
    ensures Run(c, ls + more).rows.Keys == Run(c, ls).rows.Keys
    ensures forall e :: e in Run(c, ls + more).rows ==> Terminal(Run(c, ls + more).rows[e])
  {
    var s := Run(c, ls);
    InvHolds(c, ls);
    SingleHolds(c, ls, w);
    var first, s1 := ReachIdle(c, s, w, f);
    var rest, s2 := EndAll(c, s1, w, f);
    PathJoin(c, s, first, s1, rest, s2, w, f);
    more := first + rest;
    RunSplits(c, ls, more);
    forall e | e in s2.rows ensures Terminal(s2.rows[e]) { assert e !in Open(s2); }
  }
}
