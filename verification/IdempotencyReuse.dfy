/**
 What a second request with the same key gets, and when a key can be used again.
 */
module IdempotencyReuse {
  import opened Options
  import opened IdempotencyModel
  import opened IdempotencyBinding
  import opened IdempotencyLease
  import opened IdempotencyLimits
  import opened IdempotencyRedisLimits

  /** Request `r` has run the handler or was answered from a store. */
  ghost predicate Served(s: State, r: Rid) {
    r in s.calls || exists resp, at :: WasReplayed(s, r, resp, at)
  }

  /** In the continuation `more` of `ls`, the new request `r` uses `key`. */
  ghost predicate UsedBy(c: Config, ls: seq<Label>, more: seq<Label>, r: Rid, key: string) {
    var s, s' := Run(c, ls), Run(c, ls + more);
    r !in s.procs && r in s'.procs && s'.procs[r].req.key == key && Served(s', r)
  }

  /** A run without Redis in which nothing goes wrong and a key is spent. */
  lemma SpentIsReached(c: Config, q: Request) returns (ls: seq<Label>)
    requires PgOnly(c) && q.hash != ""
    ensures AllCalm(ls) && Spent(Run(c, ls), q.key)
  {
    hide Run;
    Initially(c);
    ls := Enter(c, [], 1, q);
    var resp, h := Produce(c, Run(c, ls), 1, q, ""), Run(c, ls).procs[1].handle;
    ls := ReachWrite(c, ls, 1, q, h);
    ls := Complete(c, ls, 1, q, resp, h, Ok);
    RunExtend(c, ls, Tick(c.responseTTL));
    ls := ls + [Tick(c.responseTTL)];
  }

  /******* Not usable *******/

  lemma TurnedAwayIsNotServed(s: State, r: Rid)
    requires r in s.procs && TurnedAway(s.procs[r]) && r !in s.calls
    ensures !Served(s, r)
  {
  }

  /** Without any store every request is turned away. */
  lemma {:induction false} NoStoreServesNobody(c: Config, ls: seq<Label>)
    requires !c.redis && !c.pg
    ensures Run(c, ls).calls == [] && forall r :: r in Run(c, ls).procs ==> TurnedAway(Run(c, ls).procs[r])
  {
    if ls != [] {
      NoStoreServesNobody(c, ls[..|ls| - 1]);
      NoStoreStep(c, Run(c, ls[..|ls| - 1]), ls[|ls| - 1]);
    }
  }

  lemma NoStoreStep(c: Config, s: State, l: Label)
    requires !c.redis && !c.pg && s.calls == [] && forall r :: r in s.procs ==> TurnedAway(s.procs[r])
    ensures Apply(c, s, l).calls == [] && forall r :: r in Apply(c, s, l).procs ==> TurnedAway(Apply(c, s, l).procs[r])
  {
  }

  lemma UnusableKey(c: Config, ls: seq<Label>, more: seq<Label>, r: Rid, key: string)
    requires !c.redis && (!c.pg || Spent(Run(c, ls), key))
    ensures !UsedBy(c, ls, more, r, key)
  {
    hide Run;
    var s' := Run(c, ls + more);
    if r !in Run(c, ls).procs && r in s'.procs && s'.procs[r].req.key == key {
      if c.pg {
        ExpiredKeyIsRefused(c, ls, more, r);
      } else {
        NoStoreServesNobody(c, ls + more);
      }
      TurnedAwayIsNotServed(s', r);
    }
  }

  /******* Usable *******/

  /** With Redis: once the entry, the row and the lock have lapsed, a new request runs the handler. */
  lemma UseByLock(c: Config, ls: seq<Label>, key: string) returns (more: seq<Label>, r: Rid)
    requires WithRedis(c)
    ensures UsedBy(c, ls, more, r, key)
  {
    hide Run;
    var s := Run(c, ls);
    var q := Request("POST", "/", key, "hash");
    var d := Lapse(s, q);
    RunExtend(c, ls, Tick(d));
    var ls1 := ls + [Tick(d)];
    r := IdempotencyLimits.Fresh(s.procs.Keys);
    assert r !in s.procs.Keys;
    EnterByLock(c, ls1, r, q, Ok);
    more := [Tick(d)] + EnterLabels(r, q, Ok);
    assert ls + more == ls1 + EnterLabels(r, q, Ok);
  }

  /** How long it takes until no entry, no row and no lock stands in the way of `q`. */
  function Lapse(s: State, q: Request): (d: nat)
    ensures GetResponse(s.responses, q.key, s.now + d).None? && SelectCompleted(s.rows, q.key, s.now + d).None?
    ensures !LockHeld(s.locks, Scope(q), s.now + d)
  {
    var entry := if q.key in s.responses then s.responses[q.key].until - s.now else 0;
    var row := if q.key in s.rows then s.rows[q.key].expires - s.now else 0;
    var lock := if Scope(q) in s.locks then s.locks[Scope(q)].until - s.now else 0;
    Max(Max(entry, row), Max(lock, 0))
  }

  function Max(a: int, b: int): int {
    if a < b then b else a
  }

  /** Without Redis: a live response is replayed, otherwise the lease is outwaited and taken. */
  lemma UseByLease(c: Config, ls: seq<Label>, key: string) returns (more: seq<Label>, r: Rid)
    requires PgOnly(c) && !Spent(Run(c, ls), key)
    ensures UsedBy(c, ls, more, r, key)
  {
    hide Run;
    var s := Run(c, ls);
    r := IdempotencyLimits.Fresh(s.procs.Keys);
    assert r !in s.procs.Keys;
    var end;
    if key in s.rows && s.rows[key].Completed? {
      var row := s.rows[key];
      var q := Request(row.verb, row.path, key, row.hash);
      end := Replay(c, ls, r, q, Response(row.verb, row.path, row.hash, row.payload, row.expires));
    } else {
      var d: nat := if key in s.rows then Max(0, s.rows[key].until - s.now + 1) else 0;
      RunExtend(c, ls, Tick(d));
      end := Enter(c, ls + [Tick(d)], r, Request("POST", "/", key, "hash"));
    }
    more := end[|ls|..];
    assert ls + more == end;
  }

  /**
   A key can be used from here on exactly when Redis is there, or Postgres is and the key is
   not spent: without Redis an expired key is lost for ever, with Redis it never is.
   */
  lemma ReusableIff(c: Config, ls: seq<Label>, key: string)
    requires ValidConfig(c)
    ensures (exists more, r :: UsedBy(c, ls, more, r, key)) <==> c.redis || (c.pg && !Spent(Run(c, ls), key))
  {
    if c.redis {
      var more, r := UseByLock(c, ls, key);
    } else if c.pg && !Spent(Run(c, ls), key) {
      var more, r := UseByLease(c, ls, key);
    } else {
      forall more, r ensures !UsedBy(c, ls, more, r, key) {
        UnusableKey(c, ls, more, r, key);
      }
    }
  }

  /******* The same key again *******/

  /** The answer a second request with the key gets: the first response for the same request, else a refusal. */
  function SecondAnswer(q1: Request, q2: Request, resp: Response, at: int): Outcome {
    if q2.verb == q1.verb && q2.path == q1.path && q2.hash == q1.hash then Replayed(resp, at) else Mismatch
  }

  /** With Redis, a lookup by a new request finds the cached response. */
  lemma FindInRedis(c: Config, ls: seq<Label>, r: Rid, q: Request, resp: Response, phase: Phase)
    returns (ls': seq<Label>)
    requires WithRedis(c) && r in Run(c, ls).procs && Run(c, ls).procs[r] == Process(q, GetRedis(phase), NoHandle)
    requires !phase.Recheck? && GetResponse(Run(c, ls).responses, q.key, Run(c, ls).now) == Some(resp)
    ensures ls' == ls + [Step(r, Ok, "")]
    ensures var s := Run(c, ls);
      var outcome := if Matches(q, resp) then Replayed(resp, s.now) else Mismatch;
      Run(c, ls') == s.(procs := s.procs[r := Process(q, Done(outcome), NoHandle)])
  {
    hide Run;
    var outcome := if Matches(q, resp) then Replayed(resp, Run(c, ls).now) else Mismatch;
    ls' := Move(c, ls, r, q, GetRedis(phase), NoHandle, Ok, Done(outcome));
  }

  /** Without Redis, it finds the completed row. */
  lemma FindInPg(c: Config, ls: seq<Label>, r: Rid, q: Request, resp: Response, phase: Phase)
    returns (ls': seq<Label>)
    requires PgOnly(c) && r in Run(c, ls).procs && Run(c, ls).procs[r] == Process(q, GetRedis(phase), NoHandle)
    requires !phase.Recheck? && SelectCompleted(Run(c, ls).rows, q.key, Run(c, ls).now) == Some(resp)
    ensures ls' == ls + [Step(r, Ok, ""), Step(r, Ok, "")]
    ensures var s := Run(c, ls);
      var outcome := if Matches(q, resp) then Replayed(resp, s.now) else Mismatch;
      Run(c, ls') == s.(procs := s.procs[r := Process(q, Done(outcome), NoHandle)])
  {
    hide Run;
    var s := Run(c, ls);
    var outcome := if Matches(q, resp) then Replayed(resp, s.now) else Mismatch;
    ls' := Move(c, ls, r, q, GetRedis(phase), NoHandle, Ok, GetPg(phase));
    ls' := Move(c, ls', r, q, GetPg(phase), NoHandle, Ok, Done(outcome));
    assert Run(c, ls').procs == s.procs[r := Process(q, Done(outcome), NoHandle)];
  }

  /**
   What idempotency is for: with any store, a second request with the key, sent at any time
   before the response expires, gets the first response if it is the same request and is
   refused if it is not, and the handler has run once.
   */
  lemma SecondRequest(c: Config, q1: Request, q2: Request, d: nat) returns (ls: seq<Label>, at: int)
    requires ValidConfig(c) && (c.redis || c.pg) && q1.hash != "" && q2.key == q1.key && d < c.responseTTL
    ensures AllCalm(ls) && Run(c, ls).calls == [1] && at >= d
    ensures 1 in Run(c, ls).made && Answer(Run(c, ls), 2) == Some(SecondAnswer(q1, q2, Run(c, ls).made[1], at))
  {
    if c.redis {
      ls, at := SecondByLock(c, q1, q2, d);
    } else {
      ls, at := SecondByLease(c, q1, q2, d);
    }
  }

  lemma SecondByLock(c: Config, q1: Request, q2: Request, d: nat) returns (ls: seq<Label>, at: int)
    requires WithRedis(c) && q2.key == q1.key && d < c.responseTTL
    ensures AllCalm(ls) && Run(c, ls).calls == [1] && at >= d
    ensures 1 in Run(c, ls).made && Answer(Run(c, ls), 2) == Some(SecondAnswer(q1, q2, Run(c, ls).made[1], at))
  {
    hide Run;
    ls := FirstEnters(c, q1);
    var h := Run(c, ls).procs[1].handle;
    var resp := Produce(c, Run(c, ls), 1, q1, "");
    ls := AnswerAndStore(c, ls, 1, q1, h, Ok);
    ls := WriteAndRelease(c, ls, 1, q1, resp, LockUntil(c, 0));
    RunExtend(c, ls, Tick(d));
    ls := ls + [Tick(d)];
    at := Run(c, ls).now;
    RunExtend(c, ls, Arrive(2, q2));
    ls := ls + [Arrive(2, q2)];
    ls := FindInRedis(c, ls, 2, q2, resp, First);
  }

  lemma SecondByLease(c: Config, q1: Request, q2: Request, d: nat) returns (ls: seq<Label>, at: int)
    requires PgOnly(c) && q1.hash != "" && q2.key == q1.key && d < c.responseTTL
    ensures AllCalm(ls) && Run(c, ls).calls == [1] && at >= d
    ensures 1 in Run(c, ls).made && Answer(Run(c, ls), 2) == Some(SecondAnswer(q1, q2, Run(c, ls).made[1], at))
  {
    hide Run;
    Initially(c);
    ls := Enter(c, [], 1, q1);
    var resp, h := Produce(c, Run(c, ls), 1, q1, ""), Run(c, ls).procs[1].handle;
    ls := ReachWrite(c, ls, 1, q1, h);
    ls := Complete(c, ls, 1, q1, resp, h, Ok);
    RunExtend(c, ls, Tick(d));
    ls := ls + [Tick(d)];
    at := Run(c, ls).now;
    RunExtend(c, ls, Arrive(2, q2));
    ls := ls + [Arrive(2, q2)];
    ls := FindInPg(c, ls, 2, q2, resp, First);
  }

  /** A request that finds the lock or the lease taken waits, and looks again after that. */
  lemma Waiting(c: Config, ls: seq<Label>, r: Rid, q: Request) returns (ls': seq<Label>, deadline: int)
    requires ValidConfig(c) && (c.redis || c.pg) && r !in Run(c, ls).procs && Misses(c, Run(c, ls), q.key, Ok)
    requires if c.redis then LockHeld(Run(c, ls).locks, Scope(q), Run(c, ls).now)
             else !LeaseFree(Run(c, ls).rows, q.key, Run(c, ls).now)
    ensures Continues(ls, ls', r) && deadline > Run(c, ls).now
    ensures var s := Run(c, ls); Run(c, ls') == s.(procs := s.procs[r := Process(q, Poll(deadline, s.now), NoHandle)])
  {
    hide Run;
    var s := Run(c, ls);
    RunExtend(c, ls, Arrive(r, q));
    ls' := ls + [Arrive(r, q)];
    ls' := Move(c, ls', r, q, GetRedis(First), NoHandle, Ok, GetPg(First));
    ls' := Move(c, ls', r, q, GetPg(First), NoHandle, Ok, LockRedis);
    RunExtend(c, ls', Step(r, Ok, ""));
    ls' := ls' + [Step(r, Ok, "")];
    deadline := s.now + OrDefault(c.waitTimeout, DEFAULT_WAIT_TIMEOUT);
    if !c.redis {
      assert Run(c, ls').procs[r] == Process(q, LockPg, NoHandle);
      RunExtend(c, ls', Step(r, Ok, ""));
      ls' := ls' + [Step(r, Ok, "")];
    }
    assert Run(c, ls').procs == s.procs[r := Process(q, Poll(deadline, s.now), NoHandle)];
  }

  lemma LooksNow(c: Config, ls: seq<Label>, r: Rid, q: Request, deadline: int, wake: int)
    requires r in Run(c, ls).procs && Run(c, ls).procs[r] == Process(q, Poll(deadline, wake), NoHandle)
    requires wake <= Run(c, ls).now < deadline
    ensures var s := Run(c, ls);
      Run(c, ls + [Step(r, Ok, "")]) == s.(procs := s.procs[r := Process(q, GetRedis(Wait(deadline)), NoHandle)])
  {
    hide Run;
    RunExtend(c, ls, Step(r, Ok, ""));
  }

  /**
   With any store, a request that is sent while the same request is still being handled waits
   and is answered with the response of the first, and the handler has run once.
   */
  lemma WaiterIsAnswered(c: Config, q: Request) returns (ls: seq<Label>, at: int)
    requires ValidConfig(c) && (c.redis || c.pg) && q.hash != ""
    ensures AllCalm(ls) && Run(c, ls).calls == [1]
    ensures 1 in Run(c, ls).made && WasReplayed(Run(c, ls), 2, Run(c, ls).made[1], at)
  {
    if c.redis {
      ls, at := WaiterByLock(c, q);
    } else {
      ls, at := WaiterByLease(c, q);
    }
  }

  lemma WaiterByLock(c: Config, q: Request) returns (ls: seq<Label>, at: int)
    requires WithRedis(c)
    ensures AllCalm(ls) && Run(c, ls).calls == [1]
    ensures 1 in Run(c, ls).made && WasReplayed(Run(c, ls), 2, Run(c, ls).made[1], at)
  {
    hide Run;
    ls := FirstEnters(c, q);
    var h := Run(c, ls).procs[1].handle;
    var resp := Produce(c, Run(c, ls), 1, q, "");
    var deadline;
    ls, deadline := Waiting(c, ls, 2, q);
    ls := AnswerAndStore(c, ls, 1, q, h, Ok);
    ls := WriteAndRelease(c, ls, 1, q, resp, LockUntil(c, 0));
    at := Run(c, ls).now;
    LooksNow(c, ls, 2, q, deadline, 0);
    ls := ls + [Step(2, Ok, "")];
    ls := FindInRedis(c, ls, 2, q, resp, Wait(deadline));
  }

  lemma WaiterByLease(c: Config, q: Request) returns (ls: seq<Label>, at: int)
    requires PgOnly(c) && q.hash != ""
    ensures AllCalm(ls) && Run(c, ls).calls == [1]
    ensures 1 in Run(c, ls).made && WasReplayed(Run(c, ls), 2, Run(c, ls).made[1], at)
  {
    hide Run;
    Initially(c);
    ls := Enter(c, [], 1, q);
    var resp, h := Produce(c, Run(c, ls), 1, q, ""), Run(c, ls).procs[1].handle;
    var deadline;
    ls, deadline := Waiting(c, ls, 2, q);
    ls := ReachWrite(c, ls, 1, q, h);
    ls := Complete(c, ls, 1, q, resp, h, Ok);
    at := Run(c, ls).now;
    LooksNow(c, ls, 2, q, deadline, 0);
    ls := ls + [Step(2, Ok, "")];
    ls := FindInPg(c, ls, 2, q, resp, Wait(deadline));
  }
}
