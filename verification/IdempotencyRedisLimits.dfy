/**
 What the Redis lock does not promise, exactly: when the handler can still be called for a
 target, and runs in which a lapsed lock, a lost store or an expired response lets it run
 twice.
 */
module IdempotencyRedisLimits {
  import opened Options
  import opened IdempotencyModel
  import opened IdempotencyBinding
  import opened IdempotencyLease
  import opened IdempotencyRedisOnce
  import opened IdempotencyLimits

  predicate WithRedis(c: Config) {
    ValidConfig(c) && c.redis
  }

  /******* Into the handler under the Redis lock *******/

  /** The state in which `r` runs the handler under a Redis lock it took in `s`. */
  function InHandlerByLock(c: Config, s: State, r: Rid, q: Request): State {
    s.(locks := s.locks[Scope(q) := Lock(q.hash, LockUntil(c, s.now))],
       procs := s.procs[r := Process(q, Handling, RedisLock(Scope(q), q.hash, LockUntil(c, s.now)))],
       calls := s.calls + [r])
  }

  /** Neither store answers a lookup of `key`, given how Postgres replies. */
  predicate Misses(c: Config, s: State, key: string, pgReply: Reply) {
    && GetResponse(s.responses, key, s.now).None?
    && (c.pg && pgReply.Ok? ==> SelectCompleted(s.rows, key, s.now).None?)
  }

  /** A new request reaches the lock. */
  lemma ReachLock(c: Config, ls: seq<Label>, r: Rid, q: Request, pgReply: Reply) returns (ls': seq<Label>)
    requires WithRedis(c) && r !in Run(c, ls).procs && Misses(c, Run(c, ls), q.key, pgReply)
    ensures ls' == ls + [Arrive(r, q), Step(r, Ok, ""), Step(r, pgReply, "")]
    ensures Run(c, ls') == Run(c, ls).(procs := Run(c, ls).procs[r := Process(q, LockRedis, NoHandle)])
  {
    hide Run;
    var s := Run(c, ls);
    RunExtend(c, ls, Arrive(r, q));
    ls' := ls + [Arrive(r, q)];
    ls' := Move(c, ls', r, q, GetRedis(First), NoHandle, Ok, GetPg(First));
    ls' := Move(c, ls', r, q, GetPg(First), NoHandle, pgReply, LockRedis);
    assert Run(c, ls').procs == s.procs[r := Process(q, LockRedis, NoHandle)];
  }

  /** With the lock free, it takes the lock, re-checks, and calls the handler. */
  lemma LockAndCall(c: Config, ls: seq<Label>, r: Rid, q: Request, pgReply: Reply) returns (ls': seq<Label>)
    requires WithRedis(c) && r in Run(c, ls).procs && Run(c, ls).procs[r] == Process(q, LockRedis, NoHandle)
    requires Misses(c, Run(c, ls), q.key, pgReply) && !LockHeld(Run(c, ls).locks, Scope(q), Run(c, ls).now)
    ensures ls' == ls + [Step(r, Ok, ""), Step(r, Ok, ""), Step(r, pgReply, ""), Step(r, Ok, "")]
    ensures Run(c, ls') == InHandlerByLock(c, Run(c, ls), r, q)
  {
    hide Run;
    var s, h := Run(c, ls), RedisLock(Scope(q), q.hash, LockUntil(c, Run(c, ls).now));
    RunExtend(c, ls, Step(r, Ok, ""));
    ls' := ls + [Step(r, Ok, "")];
    ls' := Move(c, ls', r, q, GetRedis(Recheck), h, Ok, GetPg(Recheck));
    ls' := Move(c, ls', r, q, GetPg(Recheck), h, pgReply, CallHandler);
    RunExtend(c, ls', Step(r, Ok, ""));
    ls' := ls' + [Step(r, Ok, "")];
    assert Run(c, ls').procs == s.procs[r := Process(q, Handling, h)];
  }

  function EnterLabels(r: Rid, q: Request, pgReply: Reply): seq<Label> {
    [Arrive(r, q), Step(r, Ok, ""), Step(r, pgReply, "")]
    + [Step(r, Ok, ""), Step(r, Ok, ""), Step(r, pgReply, ""), Step(r, Ok, "")]
  }

  /** A new request that misses and finds the lock free runs the handler. */
  lemma EnterByLock(c: Config, ls: seq<Label>, r: Rid, q: Request, pgReply: Reply)
    requires WithRedis(c) && r !in Run(c, ls).procs && Misses(c, Run(c, ls), q.key, pgReply)
    requires !LockHeld(Run(c, ls).locks, Scope(q), Run(c, ls).now)
    ensures Run(c, ls + EnterLabels(r, q, pgReply)) == InHandlerByLock(c, Run(c, ls), r, q)
  {
    hide Run;
    var s := Run(c, ls);
    var ls1 := ReachLock(c, ls, r, q, pgReply);
    var ls2 := LockAndCall(c, ls1, r, q, pgReply);
    assert ls2 == ls + EnterLabels(r, q, pgReply);
    var p := Run(c, ls2).procs[r];
    assert s.procs[r := Process(q, LockRedis, NoHandle)][r := p] == s.procs[r := p];
  }

  /******* Three ways to a second call *******/

  /** The handler answers and the response is stored in Redis, with the given reply. */
  lemma AnswerAndStore(c: Config, ls: seq<Label>, r: Rid, q: Request, h: Handle, reply: Reply) returns (ls': seq<Label>)
    requires WithRedis(c) && r in Run(c, ls).procs && Run(c, ls).procs[r] == Process(q, Handling, h)
    ensures ls' == ls + [Step(r, Ok, ""), Step(r, reply, "")]
    ensures var s, resp := Run(c, ls), Produce(c, Run(c, ls), r, q, "");
      Run(c, ls') == s.(
        made := s.made[r := resp],
        responses := if reply.Failed? then s.responses else SetResponse(s.responses, q.key, resp, CacheUntil(c, s.now)),
        procs := s.procs[r := Process(q, PutPg(resp), h)])
  {
    hide Run;
    var s := Run(c, ls);
    RunExtend(c, ls, Step(r, Ok, ""));
    ls' := ls + [Step(r, Ok, "")];
    RunExtend(c, ls', Step(r, reply, ""));
    ls' := ls' + [Step(r, reply, "")];
    assert Run(c, ls').procs == s.procs[r := Process(q, PutPg(Produce(c, s, r, q, "")), h)];
  }

  /** Then the row is written, if there is a table, and the lock is given back. */
  lemma WriteAndRelease(c: Config, ls: seq<Label>, r: Rid, q: Request, resp: Response, until: int)
    returns (ls': seq<Label>)
    requires WithRedis(c) && r in Run(c, ls).procs
    requires Run(c, ls).procs[r] == Process(q, PutPg(resp), RedisLock(Scope(q), q.hash, until))
    requires Scope(q) in Run(c, ls).locks && Run(c, ls).locks[Scope(q)] == Lock(q.hash, until)
    ensures ls' == ls + [Step(r, Ok, ""), Step(r, Ok, "")]
    ensures var s, s' := Run(c, ls), Run(c, ls');
      && s'.now == s.now && s'.calls == s.calls && s'.responses == s.responses && s'.made == s.made
      && s'.rows == (if c.pg then UpsertCompleted(s.rows, q.key, resp) else s.rows)
      && r in s'.procs && s'.procs == s.procs[r := s'.procs[r]] && s'.procs[r].req == q
      && !LockHeld(s'.locks, Scope(q), s'.now)
  {
    hide Run;
    RunExtend(c, ls, Step(r, Ok, ""));
    ls' := ls + [Step(r, Ok, "")];
    RunExtend(c, ls', Step(r, Ok, ""));
    ls' := ls' + [Step(r, Ok, "")];
  }

  /** All labels are undisturbed. */
  predicate AllCalm(ls: seq<Label>) {
    forall i :: 0 <= i < |ls| ==> Calm(ls[i])
  }

  /** The first request of a run is in the handler. */
  lemma FirstEnters(c: Config, q: Request) returns (ls: seq<Label>)
    requires WithRedis(c)
    ensures AllCalm(ls) && Run(c, ls) == InHandlerByLock(c, INIT, 1, q)
  {
    Initially(c);
    EnterByLock(c, [], 1, q, Ok);
    ls := [] + EnterLabels(1, q, Ok);
  }

  /** Both requests ask for `q` and have called the handler. */
  predicate CalledTwice(s: State, q: Request) {
    s.calls == [1, 2] && 1 in s.procs && s.procs[1].req == q && 2 in s.procs && s.procs[2].req == q
  }

  /** Nothing goes wrong but that a handler run outlives its lock: the handler runs twice. */
  lemma OutlivedLock(c: Config, q: Request) returns (ls: seq<Label>)
    requires WithRedis(c)
    ensures AllCalm(ls) && CalledTwice(Run(c, ls), q) && Run(c, ls).made == map[]
    ensures HoldsLock(Run(c, ls), 1, Scope(q)) && Run(c, ls).procs[1].handle.until <= Run(c, ls).now
  {
    hide Run;
    ls := FirstEnters(c, q);
    RunExtend(c, ls, Tick(LockUntil(c, 0)));
    ls := ls + [Tick(LockUntil(c, 0))];
    EnterByLock(c, ls, 2, q, Ok);
    ls := ls + EnterLabels(2, q, Ok);
  }

  /** Nothing goes wrong but that the store in Redis, the only one, is lost: the handler runs twice. */
  lemma LostStore(c: Config, q: Request) returns (ls: seq<Label>, k: nat)
    requires WithRedis(c) && !c.pg
    ensures CalledTwice(Run(c, ls), q) && Run(c, ls).now == 0
    ensures k < |ls| && ls[k] == Step(1, Failed, "") && AllCalm(ls[..k]) && AllCalm(ls[k + 1..])
    ensures 1 in Run(c, ls[..k]).procs && Run(c, ls[..k]).procs[1].pc.PutRedis?
  {
    hide Run;
    ls := FirstEnters(c, q);
    var h := Run(c, ls).procs[1].handle;
    RunExtend(c, ls, Step(1, Ok, ""));
    var before := ls + [Step(1, Ok, "")];
    k := |before|;
    ls := AnswerAndStore(c, ls, 1, q, h, Failed);
    ls := WriteAndRelease(c, ls, 1, q, Produce(c, InHandlerByLock(c, INIT, 1, q), 1, q, ""), LockUntil(c, 0));
    EnterByLock(c, ls, 2, q, Ok);
    ls := ls + EnterLabels(2, q, Ok);
    assert ls[..k] == before;
  }

  /** Nothing goes wrong but that time passes: once the response has expired, the handler runs again. */
  lemma ExpiredResponse(c: Config, q: Request) returns (ls: seq<Label>)
    requires WithRedis(c)
    ensures AllCalm(ls) && CalledTwice(Run(c, ls), q)
    ensures 1 in Run(c, ls).made && Run(c, ls).made[1].expires <= Run(c, ls).now
  {
    hide Run;
    ls := FirstEnters(c, q);
    var h := Run(c, ls).procs[1].handle;
    var resp := Produce(c, Run(c, ls), 1, q, "");
    ls := AnswerAndStore(c, ls, 1, q, h, Ok);
    ls := WriteAndRelease(c, ls, 1, q, resp, LockUntil(c, 0));
    RunExtend(c, ls, Tick(c.responseTTL));
    ls := ls + [Tick(c.responseTTL)];
    EnterByLock(c, ls, 2, q, Ok);
    ls := ls + EnterLabels(2, q, Ok);
  }

  /******* When the handler can still be called for a target *******/

  /** A request for the target has passed its re-check and not yet called the handler. */
  ghost predicate PastRecheck(s: State, t: Request) {
    exists r :: Calls(s, r, t) && Rechecked(s.procs[r].pc)
  }

  ghost predicate NobodyHolds(s: State, scope: string) {
    forall r :: !HoldsLock(s, r, scope)
  }

  /** A lock that nobody is left to give back lapses before a response for the key expires. */
  ghost predicate LockFreeInTime(s: State, t: Request) {
    NobodyHolds(s, Scope(t)) && LockHeld(s.locks, Scope(t), s.now) ==>
      forall p :: p in s.made && p in s.procs && s.procs[p].req.key == t.key ==>
        s.locks[Scope(t)].until < s.made[p].expires
  }

  /**
   The handler has not been called for the target, and either a request is about to call it,
   or no response for the key is in Redis and the lock becomes free in time.
   */
  ghost predicate Callable(s: State, t: Request) {
    NotCalled(s, t) && (PastRecheck(s, t) || (t.key !in s.responses && LockFreeInTime(s, t)))
  }

  /** The continuation `more` of `ls` calls the handler for the target. */
  ghost predicate CallsTarget(c: Config, ls: seq<Label>, more: seq<Label>, t: Request) {
    var s, s' := Run(c, ls), Run(c, ls + more);
    exists i :: |s.calls| <= i < |s'.calls| && Calls(s', s'.calls[i], t)
  }

  /******* Only then *******/

  /** No request gets past its re-check while a response for the key is in Redis or the lock is taken. */
  lemma NoNewPastRecheck(c: Config, s: State, l: Label, t: Request, p: Rid)
    requires LockBase(c, s, t) && RedisSafe(s, l, t) && (forall r :: Calls(s, r, t) ==> !Rechecked(s.procs[r].pc))
    requires t.key in s.responses || NobodyHolds(s, Scope(t))
    ensures var s' := Apply(c, s, l); !(Calls(s', p, t) && Rechecked(s'.procs[p].pc))
  {
    var s' := Apply(c, s, l);
    if Calls(s', p, t) && Rechecked(s'.procs[p].pc) {
      if l.Step? && l.rid == p && p in s.procs {
        assert RedisOnly(s.procs[p], t);
        RecheckedBefore(c, s, p, l.reply, l.body, t);
        if t.key in s.responses { EntryIsFound(c, s, t); }
      } else {
        OthersUnmoved(c, s, l, p);
      }
      assert false;
    }
  }

  /** A label that is not a step of `p` leaves it behind its re-check or not, as it was. */
  lemma OthersUnmoved(c: Config, s: State, l: Label, p: Rid)
    requires p in Apply(c, s, l).procs && Rechecked(Apply(c, s, l).procs[p].pc) && !(l.Step? && l.rid == p)
    ensures p in s.procs && s.procs[p] == Apply(c, s, l).procs[p]
  {
  }

  /** A lock without a holder stays as it is until it lapses. */
  lemma OrphanStays(c: Config, s: State, l: Label, t: Request)
    requires LockBase(c, s, t) && Unlocked(s) && NobodyHolds(s, Scope(t)) && LockHeld(s.locks, Scope(t), s.now)
    ensures var s' := Apply(c, s, l);
      NobodyHolds(s', Scope(t)) && Scope(t) in s'.locks && s'.locks[Scope(t)] == s.locks[Scope(t)]
  {
    var s' := Apply(c, s, l);
    if l.Step? && l.rid in s.procs {
      assert ProcOk(s, l.rid, None) && !HoldsLock(s, l.rid, Scope(t)) && NotYetLocked(s.procs[l.rid]);
      LockNotGranted(c, s, l.rid, l.reply, l.body, Scope(t));
      LocksTouched(c, s, s.procs[l.rid], l.reply, Scope(t));
      assert forall r :: r != l.rid ==> HoldsLock(s', r, Scope(t)) == HoldsLock(s, r, Scope(t));
    } else {
      forall r ensures !HoldsLock(s', r, Scope(t)) {
        if HoldsLock(s', r, Scope(t)) && !l.Step? { NoNewLock(c, s, l, r, Scope(t)); }
      }
    }
  }

  lemma MadeStays(c: Config, s: State, r: Rid, reply: Reply, body: string, p: Rid)
    requires r in s.procs && p in s.made && (s.procs[r].pc.Handling? ==> r !in s.made)
    ensures var s' := Advance(c, s, r, reply, body);
      p in s'.made && s'.made[p] == s.made[p] && (p in s.procs ==> p in s'.procs && s'.procs[p].req == s.procs[p].req)
  {
    hide PcAfter, HandleAfter, ResponsesAfter, LocksAfter, RowsAfter, Produce;
  }

  lemma HistoryStays(c: Config, s: State, l: Label, p: Rid)
    requires BindInv(c, s, None) && p in s.made && p in s.procs
    ensures var s' := Apply(c, s, l);
      p in s'.made && s'.made[p] == s.made[p] && p in s'.procs && s'.procs[p].req == s.procs[p].req
  {
    if l.Step? && l.rid in s.procs {
      assert ProcOk(s, l.rid, None);
      MadeStays(c, s, l.rid, l.reply, l.body, p);
    }
    hide BindInv, Advance, AbortedPc;
  }

  lemma EntriesStay(c: Config, s: State, l: Label, key: string)
    requires key in s.responses
    ensures key in Apply(c, s, l).responses
  {
    hide PcAfter, HandleAfter, LocksAfter, RowsAfter;
  }

  lemma CalledStays(c: Config, s: State, l: Label, t: Request)
    requires !NotCalled(s, t)
    ensures !NotCalled(Apply(c, s, l), t)
  {
    CallsGrow(c, s, l);
    var s' := Apply(c, s, l);
    var i :| 0 <= i < |s.calls| && Calls(s, s.calls[i], t);
    assert s'.calls[i] == s.calls[i] && Calls(s', s'.calls[i], t);
  }

  /** What is not callable stays so, as long as the target is treated safely. */
  lemma StaysUncallable(c: Config, s: State, l: Label, t: Request)
    requires LockBase(c, s, t) && RecheckInv(s, t) && Unlocked(s) && !Callable(s, t)
    requires RedisSafe(s, l, t) && Timely(Apply(c, s, l), t)
    ensures !Callable(Apply(c, s, l), t)
  {
    hide Apply, BindInv;
    var s' := Apply(c, s, l);
    if !NotCalled(s, t) {
      CalledStays(c, s, l, t);
    } else {
      assert forall r :: Calls(s, r, t) ==> !Rechecked(s.procs[r].pc);
      forall p ensures !(Calls(s', p, t) && Rechecked(s'.procs[p].pc)) { NoNewPastRecheck(c, s, l, t, p); }
      if t.key in s.responses {
        EntriesStay(c, s, l, t.key);
      } else {
        var p :|
          && p in s.made && p in s.procs && s.procs[p].req.key == t.key
          && s.locks[Scope(t)].until >= s.made[p].expires;
        OrphanStays(c, s, l, t);
        HistoryStays(c, s, l, p);
        assert s'.now < s'.made[p].expires;
      }
    }
  }

  /** A step that calls the handler for the target does so where it is callable. */
  lemma CallMeansCallable(c: Config, s: State, l: Label, t: Request)
    requires RecheckInv(s, t) && l.Step? && Calls(s, l.rid, t) && s.procs[l.rid].pc.CallHandler?
    ensures Callable(s, t)
  {
    assert Rechecked(s.procs[l.rid].pc);
  }

  lemma SafeBefore(c: Config, ls: seq<Label>, l: Label, t: Request)
    requires RedisSafeAlong(c, ls + [l], t)
    ensures RedisSafeAlong(c, ls, t) && RedisSafe(Run(c, ls), l, t) && Timely(Apply(c, Run(c, ls), l), t)
  {
    assert (ls + [l])[..|ls|] == ls;
    RunExtend(c, ls, l);
  }

  lemma {:induction false} UncallableForever(c: Config, ls: seq<Label>, more: seq<Label>, t: Request)
    requires WithRedis(c) && RedisSafeAlong(c, ls + more, t) && !Callable(Run(c, ls), t)
    ensures !Callable(Run(c, ls + more), t) && !CallsTarget(c, ls, more, t)
    ensures |Run(c, ls).calls| <= |Run(c, ls + more).calls|
  {
    hide Run, Apply, Callable, RedisSafeAlong, LockBase, Calls;
    assert more == [] ==> ls + more == ls;
    if more != [] {
      var rest, l := more[..|more| - 1], more[|more| - 1];
      assert ls + more == ls + rest + [l];
      SafeBefore(c, ls + rest, l, t);
      UncallableForever(c, ls, rest, t);
      RedisOnceHolds(c, ls + rest, t);
      UnlockedHolds(c, ls + rest);
      RunExtend(c, ls + rest, l);
      StaysUncallable(c, Run(c, ls + rest), l, t);
      NoNewCall(c, Run(c, ls + rest), l, t);
    }
  }

  /** A step from an uncallable state adds no call for the target. */
  lemma NoNewCall(c: Config, s: State, l: Label, t: Request)
    requires RecheckInv(s, t) && !Callable(s, t)
    ensures var s' := Apply(c, s, l);
      && |s.calls| <= |s'.calls|
      && (forall i :: 0 <= i < |s.calls| ==> Calls(s', s'.calls[i], t) == Calls(s, s.calls[i], t))
      && (forall i :: |s.calls| <= i < |s'.calls| ==> !Calls(s', s'.calls[i], t))
  {
    hide Apply, Callable;
    CallsGrow(c, s, l);
    var s' := Apply(c, s, l);
    forall i | 0 <= i < |s.calls| ensures Calls(s', s'.calls[i], t) == Calls(s, s.calls[i], t) {
      assert CallStored(s, s.calls[i], t);
    }
    if |s.calls| < |s'.calls| && Calls(s, l.rid, t) {
      CallMeansCallable(c, s, l, t);
    }
  }

  /******* And always then *******/

  /** `ls'` continues `ls` safely for the target, and at the same instant unless it says otherwise. */
  ghost predicate SafelyOn(c: Config, ls: seq<Label>, ls': seq<Label>, t: Request) {
    ls <= ls' && RedisSafeAlong(c, ls', t)
  }

  lemma SafeNext(c: Config, ls: seq<Label>, l: Label, t: Request)
    requires RedisSafeAlong(c, ls, t) && RedisSafe(Run(c, ls), l, t) && Timely(Apply(c, Run(c, ls), l), t)
    ensures SafelyOn(c, ls, ls + [l], t) && Run(c, ls + [l]) == Apply(c, Run(c, ls), l)
  {
    assert (ls + [l])[..|ls|] == ls;
    RunExtend(c, ls, l);
  }

  lemma OtherHolds(c: Config, s: State, l: Label, r: Rid, scope: string)
    requires (l.Step? && r != l.rid) || l.Arrive?
    ensures var s' := Apply(c, s, l);
      s'.now == s.now && (HoldsLock(s', r, scope) ==> HoldsLock(s, r, scope) && s'.procs[r].handle == s.procs[r].handle)
  {
    hide PcAfter, HandleAfter, ResponsesAfter, LocksAfter, RowsAfter;
  }

  lemma ArrivalMakesNothing(c: Config, s: State, l: Label)
    requires l.Arrive?
    ensures var s' := Apply(c, s, l);
      s'.now == s.now && s'.made == s.made && forall p :: p in s.procs ==> p in s'.procs && s'.procs[p] == s.procs[p]
  {
  }

  /** A step or an arrival takes no time, and what it takes or makes lies ahead. */
  lemma StepTimely(c: Config, s: State, l: Label, t: Request)
    requires WithRedis(c) && BindInv(c, s, None) && Timely(s, t) && Unlocked(s) && (l.Step? || l.Arrive?)
    requires l.Step? ==> l.rid in s.procs
    ensures Timely(Apply(c, s, l), t)
  {
    assert forall p :: p in s.made ==> MadeBy(c, s, p);
    hide Apply, BindInv, HoldsLock;
    var s' := Apply(c, s, l);
    forall r | HoldsLock(s', r, Scope(t)) ensures r in s'.procs && s'.procs[r].handle.RedisLock? {
      HolderHolds(s', r, Scope(t));
    }
    forall r | HoldsLock(s', r, Scope(t)) ensures s'.now < s'.procs[r].handle.until {
      if l.Step? && r == l.rid { LockLiesAhead(c, s, l, t); } else { OtherHolds(c, s, l, r, Scope(t)); }
    }
    if l.Step? { ResponseLiesAhead(c, s, l, t); } else { ArrivalMakesNothing(c, s, l); }
  }

  lemma HolderHolds(s: State, r: Rid, scope: string)
    requires HoldsLock(s, r, scope)
    ensures r in s.procs && s.procs[r].handle.RedisLock?
  {
  }

  lemma LockLiesAhead(c: Config, s: State, l: Label, t: Request)
    requires WithRedis(c) && Timely(s, t) && l.Step? && l.rid in s.procs && NotYetLocked(s.procs[l.rid])
    ensures var s' := Apply(c, s, l);
      HoldsLock(s', l.rid, Scope(t)) ==> s'.now < s'.procs[l.rid].handle.until
  {
  }

  lemma ResponseLiesAhead(c: Config, s: State, l: Label, t: Request)
    requires WithRedis(c) && Timely(s, t) && l.Step? && l.rid in s.procs && (forall p :: p in s.made ==> p in s.procs)
    ensures var s' := Apply(c, s, l);
      forall p :: p in s'.made && p in s'.procs && s'.procs[p].req.key == t.key ==> s'.now < s'.made[p].expires
  {
    hide PcAfter, HandleAfter, ResponsesAfter, LocksAfter, RowsAfter;
  }

  /** A safe step of any request; what holds in every safe state is at hand afterwards. */
  lemma SafeStep(c: Config, ls: seq<Label>, l: Label, t: Request)
    requires WithRedis(c) && RedisSafeAlong(c, ls, t) && RedisSafe(Run(c, ls), l, t) && (l.Step? || l.Arrive?)
    requires l.Step? ==> l.rid in Run(c, ls).procs
    ensures SafelyOn(c, ls, ls + [l], t) && Run(c, ls + [l]) == Apply(c, Run(c, ls), l)
  {
    RedisOnceHolds(c, ls, t);
    UnlockedHolds(c, ls);
    hide Run, Apply, RedisSafe;
    StepTimely(c, Run(c, ls), l, t);
    SafeNext(c, ls, l, t);
  }

  /** Who is past the re-check can call the handler, even if Postgres does not answer. */
  lemma CallNow(c: Config, ls: seq<Label>, t: Request) returns (ls': seq<Label>)
    requires WithRedis(c) && RedisSafeAlong(c, ls, t) && PastRecheck(Run(c, ls), t)
    ensures SafelyOn(c, ls, ls', t) && |Run(c, ls).calls| < |Run(c, ls').calls|
    ensures Calls(Run(c, ls'), Run(c, ls').calls[|Run(c, ls).calls|], t)
  {
    hide Run, RedisSafeAlong, RedisSafe, Timely;
    var r :| Calls(Run(c, ls), r, t) && Rechecked(Run(c, ls).procs[r].pc);
    ls' := ls;
    if Run(c, ls).procs[r].pc.GetPg? {
      NeedsNoReply(Run(c, ls), r, Failed, t);
      SafeStep(c, ls, Step(r, Failed, ""), t);
      ls' := ls + [Step(r, Failed, "")];
    }
    NeedsNoReply(Run(c, ls'), r, Ok, t);
    SafeStep(c, ls', Step(r, Ok, ""), t);
    ls' := ls' + [Step(r, Ok, "")];
  }

  /** Steps that the hypotheses say nothing about. */
  lemma NeedsNoReply(s: State, r: Rid, reply: Reply, t: Request)
    requires r in s.procs && (reply.Ok? || !Calls(s, r, t) || !Guarded(s.procs[r].pc))
    ensures RedisSafe(s, Step(r, reply, ""), t)
  {
  }

  predicate Guarded(pc: PC) {
    pc.LockRedis? || (pc.GetRedis? && pc.phase.Recheck?) || pc.PutRedis?
  }

  /** How many steps a holder is from giving back its lock without storing anything. */
  function ToRelease(pc: PC): nat {
    match pc
    case GetRedis(_) => 7
    case GetPg(_) => 6
    case CallHandler => 5
    case Handling => 4
    case PutRedis(_) => 3
    case PutPg(_) => 2
    case Warm(_, _, _) => 2
    case Unlock(_) => 1
    case _ => 0
  }

  /** The holder `h` can be made to give the lock back without a call for the target or a response for its key. */
  ghost predicate CanLeave(s: State, h: Rid, t: Request) {
    && HoldsLock(s, h, Scope(t)) && t.key !in s.responses && NotCalled(s, t)
    && (Calls(s, h, t) ==> s.procs[h].pc.Warm? || s.procs[h].pc.Unlock?)
  }

  /** A step that Redis and Postgres do not answer changes only the request. */
  lemma FailedStep(c: Config, s: State, h: Rid)
    requires h in s.procs
    ensures var s', p := Apply(c, s, Step(h, Failed, "")), s.procs[h];
      && s'.responses == s.responses
      && s'.procs == s.procs[h := Process(p.req, PcAfter(c, s, p, Failed, Produce(c, s, h, p.req, "")), p.handle)]
  {
    hide PcAfter, Produce;
  }

  lemma NearerRelease(c: Config, s: State, p: Process, made: Response)
    requires Holding(p.pc) && !p.pc.Unlock?
    ensures var pc' := PcAfter(c, s, p, Failed, made);
      && Holding(pc') && ToRelease(pc') < ToRelease(p.pc)
      && (p.pc.Warm? ==> pc'.Unlock?)
  {
  }

  lemma LeaveStep(c: Config, s: State, h: Rid, t: Request)
    requires CanLeave(s, h, t) && !s.procs[h].pc.Unlock?
    ensures var s' := Apply(c, s, Step(h, Failed, ""));
      CanLeave(s', h, t) && ToRelease(s'.procs[h].pc) < ToRelease(s.procs[h].pc)
  {
    var p := s.procs[h];
    FailedStep(c, s, h);
    NearerRelease(c, s, p, Produce(c, s, h, p.req, ""));
    CallsGrow(c, s, Step(h, Failed, ""));
    hide Apply, PcAfter, Produce, ToRelease;
    var s' := Apply(c, s, Step(h, Failed, ""));
    assert forall x :: Calls(s', x, t) == Calls(s, x, t);
  }

  lemma LastStep(c: Config, s: State, h: Rid, t: Request)
    requires WithRedis(c) && LockBase(c, s, t) && CanLeave(s, h, t) && s.procs[h].pc.Unlock?
    ensures var s' := Apply(c, s, Step(h, Ok, ""));
      && NobodyHolds(s', Scope(t)) && !LockHeld(s'.locks, Scope(t), s'.now)
      && t.key !in s'.responses && NotCalled(s', t)
  {
    var s' := Apply(c, s, Step(h, Ok, ""));
    assert LockIsOwn(s, h, Scope(t)) && ProcOk(s, h, None);
    assert forall r :: r != h ==> HoldsLock(s', r, Scope(t)) == HoldsLock(s, r, Scope(t));
    assert forall p :: Calls(s', p, t) == Calls(s, p, t);
  }

  /** The lock is free, nobody has called for the target, and Redis has no response for its key. */
  ghost predicate Clear(s: State, t: Request) {
    && NobodyHolds(s, Scope(t)) && !LockHeld(s.locks, Scope(t), s.now)
    && t.key !in s.responses && NotCalled(s, t)
  }

  lemma {:induction false} Leave(c: Config, ls: seq<Label>, h: Rid, t: Request) returns (ls': seq<Label>)
    requires WithRedis(c) && RedisSafeAlong(c, ls, t) && CanLeave(Run(c, ls), h, t)
    ensures SafelyOn(c, ls, ls', t) && Clear(Run(c, ls'), t) && |Run(c, ls).calls| <= |Run(c, ls').calls|
    decreases ToRelease(Run(c, ls).procs[h].pc)
  {
    hide Run, Apply, RedisSafeAlong, RedisSafe, LockBase, NotCalled, LockHeld;
    var s := Run(c, ls);
    RedisOnceHolds(c, ls, t);
    var reply := if s.procs[h].pc.Unlock? then Ok else Failed;
    NeedsNoReply(s, h, reply, t);
    SafeStep(c, ls, Step(h, reply, ""), t);
    CallsGrow(c, s, Step(h, reply, ""));
    ls' := ls + [Step(h, reply, "")];
    if reply == Ok {
      LastStep(c, s, h, t);
    } else {
      LeaveStep(c, s, h, t);
      ls' := Leave(c, ls', h, t);
    }
  }

  /** A request that still holds the lock after calling the handler has called it. */
  lemma HolderCalled(c: Config, s: State, h: Rid, t: Request)
    requires BindInv(c, s, None) && Calls(s, h, t)
    requires s.procs[h].pc.Handling? || s.procs[h].pc.PutRedis? || s.procs[h].pc.PutPg?
    ensures !NotCalled(s, t)
  {
    assert ProcOk(s, h, None) && (h in s.made ==> MadeBy(c, s, h));
    var i :| 0 <= i < |s.calls| && s.calls[i] == h;
  }

  /** A holder for the target that has not re-checked yet finds nothing. */
  lemma RecheckNow(c: Config, ls: seq<Label>, h: Rid, t: Request)
    requires WithRedis(c) && RedisSafeAlong(c, ls, t) && Calls(Run(c, ls), h, t) && t.key !in Run(c, ls).responses
    requires Run(c, ls).procs[h].pc == GetRedis(Recheck)
    ensures var ls' := ls + [Step(h, Ok, "")];
      SafelyOn(c, ls, ls', t) && PastRecheck(Run(c, ls'), t) && Run(c, ls').calls == Run(c, ls).calls
  {
    hide Run, RedisSafeAlong, Timely;
    SafeStep(c, ls, Step(h, Ok, ""), t);
    var s' := Run(c, ls + [Step(h, Ok, "")]);
    assert Calls(s', h, t) && Rechecked(s'.procs[h].pc);
  }

  /** A lock without a holder lapses. */
  lemma Outwait(c: Config, ls: seq<Label>, t: Request) returns (ls': seq<Label>)
    requires WithRedis(c) && RedisSafeAlong(c, ls, t) && NobodyHolds(Run(c, ls), Scope(t))
    requires LockHeld(Run(c, ls).locks, Scope(t), Run(c, ls).now) && LockFreeInTime(Run(c, ls), t)
    requires t.key !in Run(c, ls).responses && NotCalled(Run(c, ls), t)
    ensures SafelyOn(c, ls, ls', t) && Clear(Run(c, ls'), t) && Run(c, ls').calls == Run(c, ls).calls
  {
    hide Run, RedisSafeAlong;
    var s := Run(c, ls);
    var l := Tick(s.locks[Scope(t)].until - s.now);
    var s' := Apply(c, s, l);
    assert s'.procs == s.procs && s'.made == s.made;
    assert forall r :: HoldsLock(s', r, Scope(t)) == HoldsLock(s, r, Scope(t));
    assert forall p :: Calls(s', p, t) == Calls(s, p, t);
    SafeNext(c, ls, l, t);
    ls' := ls + [l];
  }

  lemma FreeLock(c: Config, ls: seq<Label>, t: Request) returns (ls': seq<Label>)
    requires WithRedis(c) && RedisSafeAlong(c, ls, t) && !PastRecheck(Run(c, ls), t)
    requires t.key !in Run(c, ls).responses && NotCalled(Run(c, ls), t) && LockFreeInTime(Run(c, ls), t)
    ensures SafelyOn(c, ls, ls', t) && |Run(c, ls).calls| <= |Run(c, ls').calls|
    ensures PastRecheck(Run(c, ls'), t) || Clear(Run(c, ls'), t)
  {
    RedisOnceHolds(c, ls, t);
    hide Run, RedisSafeAlong, BindInv, NotCalled, LockHeld;
    var s := Run(c, ls);
    ls' := ls;
    if h :| HoldsLock(s, h, Scope(t)) {
      var pc := s.procs[h].pc;
      if !Calls(s, h, t) || pc.Warm? || pc.Unlock? {
        ls' := Leave(c, ls, h, t);
      } else if pc.GetRedis? {
        RecheckNow(c, ls, h, t);
        ls' := ls + [Step(h, Ok, "")];
      } else {
        assert !Rechecked(pc);
        HolderCalled(c, s, h, t);
      }
    } else if LockHeld(s.locks, Scope(t), s.now) {
      ls' := Outwait(c, ls, t);
    }
  }

  /** With the lock free, a new request for the target gets past its re-check, even if Postgres does not answer. */
  lemma GetPast(c: Config, ls: seq<Label>, t: Request) returns (ls': seq<Label>)
    requires WithRedis(c) && RedisSafeAlong(c, ls, t) && Clear(Run(c, ls), t)
    ensures SafelyOn(c, ls, ls', t) && Run(c, ls').calls == Run(c, ls).calls && PastRecheck(Run(c, ls'), t)
  {
    hide Run, RedisSafeAlong, Timely;
    var r := IdempotencyLimits.Fresh(Run(c, ls).procs.Keys);
    assert r !in Run(c, ls).procs.Keys;
    SafeStep(c, ls, Arrive(r, t), t);
    ls' := ls + [Arrive(r, t)];
    SafeStep(c, ls', Step(r, Ok, ""), t);
    ls' := ls' + [Step(r, Ok, "")];
    assert Run(c, ls').procs[r] == Process(t, GetPg(First), NoHandle);
    SafeStep(c, ls', Step(r, Failed, ""), t);
    ls' := ls' + [Step(r, Failed, "")];
    assert Run(c, ls').procs[r] == Process(t, LockRedis, NoHandle);
    SafeStep(c, ls', Step(r, Ok, ""), t);
    ls' := ls' + [Step(r, Ok, "")];
    assert Run(c, ls').procs[r].pc == GetRedis(Recheck);
    RecheckNow(c, ls', r, t);
    ls' := ls' + [Step(r, Ok, "")];
  }

  lemma CallOnceMoreFor(c: Config, ls: seq<Label>, t: Request) returns (more: seq<Label>)
    requires WithRedis(c) && RedisSafeAlong(c, ls, t) && Callable(Run(c, ls), t)
    ensures RedisSafeAlong(c, ls + more, t) && CallsTarget(c, ls, more, t)
  {
    hide Run, RedisSafeAlong, NotCalled, LockFreeInTime, Calls, Rechecked;
    var ls' := ls;
    if !PastRecheck(Run(c, ls), t) {
      ls' := FreeLock(c, ls, t);
      if !PastRecheck(Run(c, ls'), t) {
        ls' := GetPast(c, ls', t);
      }
    }
    var end := CallNow(c, ls', t);
    more := end[|ls|..];
    assert ls + more == end;
  }

  /**
   Exactly when the handler can still be called for a verb, path and key while they are
   treated safely: it has not been called, and a request is past its re-check, or Redis has
   no response for the key and the lock becomes free in time.
   */
  lemma TargetCallableIff(c: Config, ls: seq<Label>, t: Request)
    requires WithRedis(c) && RedisSafeAlong(c, ls, t)
    ensures (exists more :: RedisSafeAlong(c, ls + more, t) && CallsTarget(c, ls, more, t))
       <==> Callable(Run(c, ls), t)
  {
    hide Callable, CallsTarget;
    if Callable(Run(c, ls), t) {
      var more := CallOnceMoreFor(c, ls, t);
    } else {
      forall more | RedisSafeAlong(c, ls + more, t) ensures !CallsTarget(c, ls, more, t) {
        UncallableForever(c, ls, more, t);
      }
    }
  }
}
