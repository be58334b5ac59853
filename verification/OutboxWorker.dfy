/**
 The outbox repository and the webhook worker as they run: statements on the table, and
 the code of one poll tick between which other workers may do anything.
 */
module OutboxWorker {
  import opened Options
  import opened OutboxModel
  import opened OutboxSafety
  import Retry
  import opened Text

  /******* The repository *******/

  class OutboxRepo {
    var rows: Rows

    constructor ()
      ensures rows == map[]
    {
      rows := map[];
    }

    /** A new event is due from now on, with no attempt behind it; all other events stay as they are. */
    method Enqueue(id: Eid, url: string, now: int) returns (ok: bool)
      modifies this
      ensures ok == (id !in old(rows))
      ensures rows == if ok then old(rows)[id := NewRow(url, now)] else old(rows)
      ensures ok ==> rows[id].attempts == 0 && forall t :: Due(rows, id, t) <==> now <= t
      ensures forall e :: e in old(rows) ==> e in rows && rows[e] == old(rows)[e]
    {
      ok := id !in rows;
      if ok {
        rows := rows[id := Row(url, Pending, 0, now, now, None, None)];
      }
    }

    /** The earliest of the rows in `due`. */
    method FindEarliest(due: set<Eid>) returns (m: Eid)
      requires due != {} && due <= rows.Keys
      ensures m in due && forall e :: e in due ==> rows[m].nextRetry <= rows[e].nextRetry
    {
      m :| m in due;
      var left := due - {m};
      while left != {}
        invariant m in due && left <= due
        invariant forall e :: e in due && e !in left ==> rows[m].nextRetry <= rows[e].nextRetry
        decreases |left|
      {
        var x :| x in left;
        if rows[x].nextRetry < rows[m].nextRetry {
          m := x;
        }
        left := left - {x};
      }
    }

    /** The due rows that a claim takes: earliest first, up to the limit. */
    method PickDue(lim: nat, now: int) returns (out: seq<Claimed>)
      ensures ValidBatch(rows, now, lim, Ids(out))
      ensures out == Snapshot(rows, Ids(out))
    {
      var due := set e | e in rows && Due(rows, e, now);
      ghost var all := due;
      out := [];
      while |out| < lim && due != {}
        invariant |out| <= lim && due <= all
        invariant forall e :: e in all ==> (e in due <==> e !in Ids(out))
        invariant forall i :: 0 <= i < |out| ==> out[i].id in all
        invariant forall i :: 0 <= i < |out| ==>
          out[i] == Claimed(out[i].id, rows[out[i].id].attempts, rows[out[i].id].url)
        invariant forall i, j :: 0 <= i < j < |out| ==> Ids(out)[i] != Ids(out)[j]
        invariant forall i, e :: 0 <= i < |out| && e in due ==> rows[out[i].id].nextRetry <= rows[e].nextRetry
        decreases |due|
      {
        var m := FindEarliest(due);
        assert Ids(out + [Claimed(m, rows[m].attempts, rows[m].url)]) == Ids(out) + [m];
        out := out + [Claimed(m, rows[m].attempts, rows[m].url)];
        due := due - {m};
      }
      forall e | Due(rows, e, now) && e !in Ids(out)
        ensures |Ids(out)| == lim
        ensures forall i :: 0 <= i < |Ids(out)| ==> rows[Ids(out)[i]].nextRetry <= rows[e].nextRetry
      {
        assert e in due;
      }
    }

    /** Picks due rows and marks exactly those as processing. */
    method ClaimBatch(limit: int, now: int) returns (out: seq<Claimed>)
      modifies this
      ensures ValidBatch(old(rows), now, if limit <= 0 then 1 else limit, Ids(out))
      ensures rows == ClaimRows(old(rows), Ids(out), now)
      ensures out == Snapshot(old(rows), Ids(out))
    {
      out := PickDue(if limit <= 0 then 1 else limit, now);
      var ids := Ids(out);
      rows := map e | e in rows :: if e in ids then ClaimRow(rows[e], now) else rows[e];
    }

    /** Fails on a non-positive age; otherwise resets every stale row and counts them. */
    method ReclaimStaleProcessing(staleAfter: int, now: int) returns (count: Option<nat>)
      modifies this
      ensures count.None? <==> staleAfter <= 0
      ensures rows == if staleAfter <= 0 then old(rows) else ReclaimRows(old(rows), now, staleAfter)
      ensures count.Some? ==> count.value == |set e | e in old(rows) && Stale(old(rows)[e], now, staleAfter)|
      ensures count.Some? ==> forall e :: e in rows ==> !Stale(rows[e], now, staleAfter)
      ensures forall e :: e in old(rows) && Stale(old(rows)[e], now, staleAfter) && count.Some? ==>
        Due(rows, e, now) && rows[e].attempts == old(rows)[e].attempts
      ensures forall e :: e in old(rows) && !Stale(old(rows)[e], now, staleAfter) ==>
        e in rows && rows[e] == old(rows)[e]
    {
      if staleAfter <= 0 {
        return None;
      }
      var stale := set e | e in rows && Stale(rows[e], now, staleAfter);
      rows := map e | e in rows :: ReclaimRow(rows[e], now, staleAfter);
      return Some(|stale|);
    }

    /** One of the three marking statements; reports whether a processing row was there. */
    method Record(id: Eid, m: Mark, now: int) returns (found: bool)
      modifies this
      ensures found == (id in old(rows) && old(rows)[id].status == Processing)
      ensures rows == MarkRows(old(rows), id, m, now)
      ensures forall e :: e in old(rows) && (e != id || !found) ==> e in rows && rows[e] == old(rows)[e]
      ensures found ==> id in rows && rows[id].url == old(rows)[id].url && rows[id].updated == now
      ensures found ==> rows[id].status == if m.AsDelivered? then Delivered else if m.AsDead? then Dead else Pending
      ensures found ==> rows[id].nextRetry == if m.AsRetry? then m.nextAt else old(rows)[id].nextRetry
      ensures found ==> rows[id].lastError == if m.AsDelivered? then None else Some(m.error)
      ensures found ==> rows[id].attempts == old(rows)[id].attempts + if m.AsRetry? then 1 else 0
      ensures found ==> rows[id].deliveredAt == if m.AsDelivered? then Some(now) else old(rows)[id].deliveredAt
    {
      found := id in rows && rows[id].status == Processing;
      if found {
        var row := rows[id];
        match m {
          case AsDelivered =>
            row := row.(status := Delivered, deliveredAt := Some(now), lastError := None);
          case AsRetry(nextAt, error) =>
            row := row.(status := Pending, attempts := row.attempts + 1, nextRetry := nextAt, lastError := Some(error));
          case AsDead(error) =>
            row := row.(status := Dead, lastError := Some(error));
        }
        rows := rows[id := row.(updated := now)];
      }
    }
  }

  /******* The worker *******/

  /** A label that is a step of worker `w`. */
  predicate IsOwn(l: Label, w: Wid) {
    ByWorker(l) && l.w == w
  }

  /** The steps of worker `w` in a run. */
  function Own(ls: seq<Label>, w: Wid): seq<Label> {
    if ls == [] then []
    else
      var rest := Own(ls[..|ls| - 1], w);
      if IsOwn(ls[|ls| - 1], w) then rest + [ls[|ls| - 1]] else rest
  }

  lemma OwnExtend(c: Config, ls: seq<Label>, l: Label, w: Wid)
    ensures Run(c, ls + [l]) == Apply(c, Run(c, ls), l)
    ensures Own(ls + [l], w) == if IsOwn(l, w) then Own(ls, w) + [l] else Own(ls, w)
  {
    RunExtend(c, ls, l);
    assert (ls + [l])[..|ls|] == ls;
  }

  lemma {:induction false} OthersKeep(c: Config, ls: seq<Label>, more: seq<Label>, w: Wid)
    requires Own(more, w) == []
    ensures WorkerOf(Run(c, ls + more), w) == WorkerOf(Run(c, ls), w)
    ensures Own(ls + more, w) == Own(ls, w)
    ensures Run(c, ls).now <= Run(c, ls + more).now
  {
    if more == [] {
      assert ls + more == ls;
    } else {
      var rest, l := more[..|more| - 1], more[|more| - 1];
      OthersKeep(c, ls, rest, w);
      assert ls + more == ls + rest + [l];
      OwnExtend(c, ls + rest, l, w);
    }
  }

  /** How one HTTP delivery turns out, and the draw for its backoff. */
  datatype Delivery = Delivery(ok: bool, error: string, cancelled: bool, draw: Draw)

  /** What the store and the merchants answer during one tick. */
  datatype Env = Env(reclaim: Reply, claim: Reply, deliver: Eid -> Delivery, mark: Eid -> Reply)

  /** What a delivery does next: nothing once it is recorded or cancelled, otherwise record its outcome. */
  function NextTask(c: Config, now: int, evt: Claimed, task: Task, d: Delivery): Option<Task> {
    if task.Marking? || d.cancelled then None
    else Some(Marking(AfterDelivery(c, now, evt, d.ok, d.error, d.draw)))
  }

  /** The worker after one of its deliveries has taken a step. */
  function AfterResume(k: Worker, evt: Claimed, next: Option<Task>): Worker
    requires k.Working?
  {
    match next
    case None => FinishTask(k, evt.id)
    case Some(task) => k.(active := k.active[evt.id := (evt, task)])
  }

  /**
   How a delivery is to be recorded: delivered on a 2xx, buried at the attempt cap, otherwise
   retried after at most the delay limit of its attempt, which the full draw attains.
   */
  ghost predicate Recorded(c: Config, now: int, evt: Claimed, d: Delivery, task: Task) {
    && task.Marking?
    && if d.ok then task.mark == AsDelivered
       else if evt.attempts + 1 >= c.maxAttempts then task.mark == AsDead(d.error)
       else
         var limit := Retry.DelayLimit(c.baseDelay, c.multiplier, c.maxBackoff, evt.attempts);
         && task.mark.AsRetry? && task.mark.error == d.error
         && now <= task.mark.nextAt && task.mark.nextAt as real <= now as real + limit
         && (d.draw == 1.0 ==> task.mark.nextAt as real > now as real + limit - 1.0)
  }

  lemma RecordedAsDue(c: Config, now: int, evt: Claimed, d: Delivery)
    requires Defaulted(c) && c.baseDelay > 0 && c.multiplier > 0.0
    ensures Recorded(c, now, evt, d, Marking(AfterDelivery(c, now, evt, d.ok, d.error, d.draw)))
  {
    var limit := Retry.DelayLimit(c.baseDelay, c.multiplier, c.maxBackoff, evt.attempts);
    assert Retry.Pow(c.multiplier, evt.attempts) > 0.0;
    assert c.baseDelay as real * Retry.Pow(c.multiplier, evt.attempts) > 0.0;
    assert limit >= 0.0;
    Retry.BackoffIsShare(c.baseDelay, c.multiplier, c.maxBackoff, evt.attempts, d.draw, 1.0);
    Retry.BackoffBounds(c.baseDelay, c.multiplier, c.maxBackoff, evt.attempts, d.draw);
  }

  /** The label of one step of a delivery. */
  function ResumeLabel(w: Wid, evt: Claimed, task: Task, d: Delivery, reply: Reply): Label {
    match task
    case Delivering => Deliver(w, evt.id, d.ok, d.error, d.cancelled, d.draw)
    case Marking(_) => MarkStep(w, evt.id, reply)
  }

  /** The steps between a claim and the end of the tick: starts, deliveries and marks, in any order. */
  predicate Deliveries(ls: seq<Label>) {
    forall i :: 0 <= i < |ls| ==> ls[i].Start? || ls[i].Deliver? || ls[i].MarkStep?
  }

  /** The deliveries under way, by event. */
  type Running = map<Eid, (Claimed, Task)>

  function BeingPosted(running: Running): set<Eid> {
    set id | id in running && running[id].1.Delivering?
  }

  predicate Keyed(running: Running) {
    forall id :: id in running ==> running[id].0.id == id
  }

  /** The deliveries that are left once one of them has taken a step. */
  function StillRunning(running: Running, evt: Claimed, next: Option<Task>): Running {
    match next
    case None => running - {evt.id}
    case Some(task) => running[evt.id := (evt, task)]
  }

  lemma RunningShrinks(running: Running, evt: Claimed, next: Option<Task>)
    requires Keyed(running) && evt.id in running
    requires next.Some? ==> next.value.Marking? && running[evt.id].1.Delivering?
    ensures var running' := StillRunning(running, evt, next);
      && Keyed(running')
      && (|| |BeingPosted(running')| < |BeingPosted(running)|
          || (|BeingPosted(running')| == |BeingPosted(running)| && |running'| < |running|))
  {
    var running' := StillRunning(running, evt, next);
    assert BeingPosted(running') == BeingPosted(running) - {evt.id};
    if next.None? {
      assert running'.Keys == running.Keys - {evt.id};
    }
  }

  /**
   Worker `w` on a table it shares with any number of other workers.  `trace` is the run
   of the whole system so far, so every theorem about runs applies to the table here.
   */
  class WebhookWorker {
    const c: Config
    const w: Wid
    const repo: OutboxRepo
    var now: int
    ghost var workers: map<Wid, Worker>
    ghost var failures: multiset<Eid>
    ghost var successes: multiset<Eid>
    ghost var trace: seq<Label>

    ghost function View(): State
      reads this, repo
    {
      State(now, repo.rows, workers, failures, successes)
    }

    /** The tables, the clock and all workers are where the run leads. */
    ghost predicate Valid()
      reads this, repo
    {
      Defaulted(c) && c.baseDelay > 0 && c.multiplier > 0.0 && View() == Run(c, trace)
    }

    ghost function Me(): Worker
      reads this, repo
    {
      WorkerOf(View(), w)
    }

    ghost function Mine(): seq<Label>
      reads this
    {
      Own(trace, w)
    }

    constructor (cfg: Config, w: Wid, repo: OutboxRepo)
      requires repo.rows == map[]
      ensures Valid() && this.repo == repo && this.w == w && c == WithDefaults(cfg) && trace == []
    {
      c, this.w, this.repo := WithDefaults(cfg), w, repo;
      now, workers, failures, successes, trace := 0, map[], multiset{}, multiset{}, [];
    }

    /**
     Time passes and other workers and payments act.  Callers rely only on the contract,
     which allows every sequence of steps that are not this worker's.
     */
    method Interfere()
      requires Valid()
      modifies this`now, this`workers, this`failures, this`successes, this`trace, repo
      ensures Valid()
      ensures exists ls :: Own(ls, w) == [] && trace == old(trace) + ls
    {
      assert Own([], w) == [] && trace == old(trace) + [];
    }

    /** Interference leaves this worker where it is. */
    method Yield()
      requires Valid()
      modifies this`now, this`workers, this`failures, this`successes, this`trace, repo
      ensures Valid() && Me() == old(Me()) && Mine() == old(Mine()) && old(now) <= now
    {
      ghost var before := trace;
      Interfere();
      ghost var ls :| Own(ls, w) == [] && trace == before + ls;
      OthersKeep(c, before, ls, w);
    }

    method ReclaimStale(reply: Reply)
      requires Valid() && Me().Idle?
      modifies this`workers, this`trace, repo
      ensures Valid() && trace == old(trace) + [Reclaim(w, reply)] && Mine() == old(Mine()) + [Reclaim(w, reply)]
      ensures Me().Polling?
      ensures !reply.Failed? ==> forall e :: e in old(repo.rows) ==>
        && e in repo.rows
        && var row := old(repo.rows)[e];
           repo.rows[e] ==
             if row.status == Processing && now - row.updated > c.staleReclaimMul * c.pollInterval
             then row.(status := Pending, nextRetry := now, updated := now) else row
    {
      OwnExtend(c, trace, Reclaim(w, reply), w);
      if !reply.Failed? {
        assert StaleAfter(c) > 0 by { assert c.staleReclaimMul * c.pollInterval > 0; }
        var _ := repo.ReclaimStaleProcessing(StaleAfter(c), now);
      }
      workers := workers[w := Polling];
      trace := trace + [Reclaim(w, reply)];
    }

    /** Claims a batch; an error reply hides a batch that may have been claimed all the same. */
    method ClaimDue(reply: Reply) returns (events: seq<Claimed>, ghost ids: seq<Eid>)
      requires Valid() && Me().Polling?
      modifies this`workers, this`trace, repo
      ensures Valid() && trace == old(trace) + [Claim(w, ids, reply)] && Mine() == old(Mine()) + [Claim(w, ids, reply)]
      ensures ValidBatch(old(repo.rows), now, c.batchSize, ids)
      ensures events == if reply.Ok? then Snapshot(old(repo.rows), ids) else []
      ensures Me() == if events == [] then Idle else Working(events, 0, map[], [])
    {
      hide Run, Own;
      var claimed;
      if reply.Failed? {
        claimed := repo.PickDue(c.batchSize, now);
      } else {
        claimed := repo.ClaimBatch(c.batchSize, now);
      }
      ids := Ids(claimed);
      events := if reply.Ok? then claimed else [];
      OwnExtend(c, trace, Claim(w, ids, reply), w);
      workers := workers[w := if events == [] then Idle else Working(events, 0, map[], [])];
      trace := trace + [Claim(w, ids, reply)];
    }

    method StartNext()
      requires Valid() && Me().Working? && Me().started < |Me().batch| && |Me().active| < c.workerPool
      modifies this`workers, this`trace
      ensures Valid() && trace == old(trace) + [Start(w)] && Mine() == old(Mine()) + [Start(w)]
      ensures var k, t := old(Me()), old(Me()).batch[old(Me()).started];
        Me() == Working(k.batch, k.started + 1, k.active[t.id := (t, FirstTask(t))], k.done)
    {
      OwnExtend(c, trace, Start(w), w);
      workers := workers[w := WorkerAfter(c, View(), Start(w))];
      trace := trace + [Start(w)];
    }

    /** The HTTP request; its outcome is the merchant's. */
    method Post(evt: Claimed, d: Delivery)
      requires Valid() && Me().Working? && evt.id in Me().active && Me().active[evt.id] == (evt, Delivering)
      modifies this`workers, this`failures, this`successes, this`trace
      ensures var l := Deliver(w, evt.id, d.ok, d.error, d.cancelled, d.draw);
        Valid() && trace == old(trace) + [l] && Mine() == old(Mine()) + [l]
      ensures Me() == AfterResume(old(Me()), evt, NextTask(c, now, evt, Delivering, d))
    {
      ghost var l := Deliver(w, evt.id, d.ok, d.error, d.cancelled, d.draw);
      OwnExtend(c, trace, l, w);
      workers := workers[w := WorkerAfter(c, View(), l)];
      if d.ok {
        successes := successes + multiset{evt.id};
      } else if !d.cancelled {
        failures := failures + multiset{evt.id};
      }
      trace := trace + [l];
    }

    method Record(evt: Claimed, m: Mark, reply: Reply)
      requires Valid() && Me().Working? && evt.id in Me().active && Me().active[evt.id] == (evt, Marking(m))
      modifies this`workers, this`trace, repo
      ensures var l := MarkStep(w, evt.id, reply);
        Valid() && trace == old(trace) + [l] && Mine() == old(Mine()) + [l]
      ensures Me() == FinishTask(old(Me()), evt.id)
    {
      ghost var l := MarkStep(w, evt.id, reply);
      ghost var before := View();
      OwnExtend(c, trace, l, w);
      if !reply.Failed? {
        var _ := repo.Record(evt.id, m, now);
      }
      workers := workers[w := WorkerAfter(c, before, l)];
      trace := trace + [l];
    }

    /**
     The next statement of one delivery: post the event, or record how that went.  A failed
     delivery is retried later or, at the attempt cap, buried; a cancelled one is dropped.
     */
    method Resume(evt: Claimed, task: Task, d: Delivery, reply: Reply) returns (next: Option<Task>)
      requires Valid() && Me().Working? && evt.id in Me().active && Me().active[evt.id] == (evt, task)
      modifies this`workers, this`failures, this`successes, this`trace, repo
      ensures Valid() && next == NextTask(c, now, evt, task, d) && Me() == AfterResume(old(Me()), evt, next)
      ensures next.Some? <==> task.Delivering? && !d.cancelled
      ensures next.Some? ==> Recorded(c, now, evt, d, next.value)
      ensures Mine() == old(Mine()) + [ResumeLabel(w, evt, task, d, reply)]
    {
      hide Run, Own, Apply, Recorded;
      match task {
        case Marking(m) =>
          Record(evt, m, reply);
          return None;
        case Delivering =>
          RecordedAsDue(c, now, evt, d);
          Post(evt, d);
          if d.cancelled {
            return None;
          }
          if d.ok {
            return Some(Marking(AsDelivered));
          }
          if evt.attempts + 1 >= c.maxAttempts {
            return Some(Marking(AsDead(d.error)));
          }
          var delay := Retry.Backoff(c.baseDelay, c.multiplier, c.maxBackoff, evt.attempts, d.draw);
          return Some(Marking(AsRetry(now + delay, d.error)));
      }
    }

    /** Lets one of the running deliveries take its next step. */
    method StepOne(running: Running, id: Eid, env: Env, ghost k: Worker)
      returns (running': Running, ghost done: seq<Eid>, ghost l: Label)
      requires Valid() && k.Working? && Me() == k && k.active == running && id in running && Keyed(running)
      modifies this`workers, this`failures, this`successes, this`trace, repo
      ensures Valid() && Me() == Working(k.batch, k.started, running', done) && Keyed(running')
      ensures Deliveries([l]) && Mine() == old(Mine()) + [l]
      ensures || |BeingPosted(running')| < |BeingPosted(running)|
              || (|BeingPosted(running')| == |BeingPosted(running)| && |running'| < |running|)
    {
      hide Run, Own, Apply;
      var evt, task := running[id].0, running[id].1;
      var next := Resume(evt, task, env.deliver(id), env.mark(id));
      RunningShrinks(running, evt, next);
      running' := StillRunning(running, evt, next);
      done := if next.None? then k.done + [id] else k.done;
      l := ResumeLabel(w, evt, task, env.deliver(id), env.mark(id));
    }

    /** Hands the next event to a delivery of its own. */
    method StartOne(events: seq<Claimed>, next: nat, running: Running, ghost done: seq<Eid>)
      returns (running': Running)
      requires Valid() && Me() == Working(events, next, running, done) && next < |events| && |running| < c.workerPool
      requires Keyed(running)
      modifies this`workers, this`trace
      ensures Valid() && Me() == Working(events, next + 1, running', done) && Keyed(running')
      ensures Mine() == old(Mine()) + [Start(w)]
      ensures var evt := events[next];
        evt.id in running' && running'[evt.id] ==
          (evt, if Trim(evt.url) == "" then Marking(AsDead("no_webhook_url_for_merchant")) else Delivering)
    {
      hide Run, Own, Apply;
      StartNext();
      running' := running[events[next].id := (events[next], FirstTask(events[next]))];
    }

    /** One decision of the scheduler: start the next event if the pool allows, or let a delivery go on. */
    method TakeTurn(events: seq<Claimed>, next: nat, running: Running, env: Env, ghost done: seq<Eid>)
      returns (next': nat, running': Running, ghost done': seq<Eid>, ghost l: Label)
      requires Valid() && next <= |events| && Me() == Working(events, next, running, done) && Keyed(running)
      requires next < |events| || running != map[]
      modifies this`workers, this`failures, this`successes, this`trace, repo
      ensures Valid() && next <= next' <= |events| && Me() == Working(events, next', running', done') && Keyed(running')
      ensures Deliveries([l]) && Mine() == old(Mine()) + [l]
      ensures next' == next ==>
        || |BeingPosted(running')| < |BeingPosted(running)|
        || (|BeingPosted(running')| == |BeingPosted(running)| && |running'| < |running|)
    {
      hide Run, Own, Apply, Keyed, BeingPosted;
      var startNow: bool := *;
      if next < |events| && |running| < c.workerPool && (startNow || running == map[]) {
        running' := StartOne(events, next, running, done);
        next', done', l := next + 1, done, Start(w);
      } else {
        var id :| id in running;
        next' := next;
        running', done', l := StepOne(running, id, env, Me());
      }
    }

    /**
     The claimed events, each in its own delivery, at most `workerPool` of them at a time and
     scheduled in any order; returns when all are done.
     */
    method HandleAll(events: seq<Claimed>, env: Env) returns (ghost done: seq<Eid>, ghost steps: seq<Label>)
      requires Valid() && Me() == Working(events, 0, map[], [])
      modifies this`now, this`workers, this`failures, this`successes, this`trace, repo
      ensures Valid() && Me() == Working(events, |events|, map[], done)
      ensures Deliveries(steps) && Mine() == old(Mine()) + steps
    {
      var next: nat, running: Running := 0, map[];
      assert Keyed(running);
      hide Run, Own, Apply, Keyed, BeingPosted;
      done, steps := [], [];
      while next < |events| || running != map[]
        invariant Valid() && next <= |events| && Me() == Working(events, next, running, done)
        invariant Keyed(running) && Deliveries(steps) && Mine() == old(Mine()) + steps
        decreases |events| - next, |BeingPosted(running)|, |running|
      {
        Yield();
        ghost var l;
        next, running, done, l := TakeTurn(events, next, running, env, done);
        steps := steps + [l];
      }
    }

    method Finish()
      requires Valid() && Me().Working? && Me().started == |Me().batch| && Me().active == map[]
      modifies this`workers, this`trace
      ensures Valid() && Me().Idle? && trace == old(trace) + [EndTick(w)] && Mine() == old(Mine()) + [EndTick(w)]
    {
      OwnExtend(c, trace, EndTick(w), w);
      workers := workers[w := Idle];
      trace := trace + [EndTick(w)];
    }

    /** The two statements at the start of a tick. */
    method Poll(env: Env) returns (events: seq<Claimed>, ghost ids: seq<Eid>)
      requires Valid() && Me().Idle?
      modifies this`now, this`workers, this`failures, this`successes, this`trace, repo
      ensures Valid() && Me() == if events == [] then Idle else Working(events, 0, map[], [])
      ensures env.claim.Ok? ==> Ids(events) == ids
      ensures Mine() == old(Mine()) + [Reclaim(w, env.reclaim), Claim(w, ids, env.claim)]
    {
      hide Run, Own, ValidBatch;
      Yield();
      ReclaimStale(env.reclaim);
      Yield();
      events, ids := ClaimDue(env.claim);
    }

    /**
     One poll tick, under arbitrary interference: reclaim, claim, deliver the claimed events
     with up to `workerPool` deliveries overlapping in any order, and end only when each of
     them has been handled exactly once.
     */
    method RunOnce(env: Env)
      returns (events: seq<Claimed>, ghost ids: seq<Eid>, ghost done: seq<Eid>, ghost steps: seq<Label>)
      requires Valid() && Me().Idle?
      modifies this`now, this`workers, this`failures, this`successes, this`trace, repo
      ensures Valid() && Me().Idle?
      ensures env.claim.Ok? ==> Ids(events) == ids
      ensures multiset(done) == multiset(Ids(events)) && Deliveries(steps)
      ensures Mine() == old(Mine()) + [Reclaim(w, env.reclaim), Claim(w, ids, env.claim)]
                        + (if events == [] then [] else steps + [EndTick(w)])
    {
      hide Run, Own, Apply;
      events, ids := Poll(env);
      done, steps := [], [];
      if |events| == 0 {
        return;
      }
      done, steps := HandleAll(events, env);
      HandledOnce(c, trace, w, events, done);
      Finish();
    }
  }

  /** A worker that has started its whole batch and has nothing in flight has finished each event once. */
  lemma HandledOnce(c: Config, ls: seq<Label>, w: Wid, events: seq<Claimed>, done: seq<Eid>)
    requires Defaulted(c) && WorkerOf(Run(c, ls), w) == Working(events, |events|, map[], done)
    ensures multiset(done) == multiset(Ids(events))
  {
    TicksHold(c, ls);
    assert TickOk(c, WorkerOf(Run(c, ls), w));
    assert Ids(events)[..|events|] == Ids(events);
  }
}
