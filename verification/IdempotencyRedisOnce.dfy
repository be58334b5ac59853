/**
 At most one handler run per (verb, path, key) under the Redis lock: the re-check after
 taking the lock and the store before giving it back close every window.  The hypotheses
 are about one target; requests for other targets may fail in any way.
 */
module IdempotencyRedisOnce {
  import opened Options
  import opened IdempotencyModel
  import opened IdempotencyBinding
  import opened IdempotencyLease

  /** The target of a request is its verb, path and key; the hash does not count. */
  predicate SameTarget(q: Request, t: Request) {
    q.verb == t.verb && q.path == t.path && q.key == t.key
  }

  /** Request `r` holds the Redis lock of `scope`. */
  predicate HoldsLock(s: State, r: Rid, scope: string) {
    r in s.procs && Scope(s.procs[r].req) == scope && Holding(s.procs[r].pc) && s.procs[r].handle.RedisLock?
  }

  /** The request has called the handler and not yet stored the response in Redis. */
  predicate Unstored(pc: PC) {
    pc.Handling? || pc.PutRedis?
  }

  /** The request holds the lock and its re-check of Redis found nothing. */
  predicate Rechecked(pc: PC) {
    (pc.GetPg? && pc.phase.Recheck?) || pc.CallHandler?
  }

  /******* Hypotheses about one target *******/

  /**
   For requests with target `t`: taking the lock, re-checking and storing reach Redis, and
   no process dies between handler and store.  Every other step may fail, and Postgres may
   be absent.
   */
  predicate RedisSafe(s: State, l: Label, t: Request) {
    !l.Tick? && l.rid in s.procs && SameTarget(s.procs[l.rid].req, t) ==>
      var pc := s.procs[l.rid].pc;
      && (l.Step? && (pc.LockRedis? || (pc.GetRedis? && pc.phase.Recheck?)) ==> l.reply.Ok?)
      && (l.Step? && pc.PutRedis? ==> !l.reply.Failed?)
      && (l.Crash? || l.Panic? ==> !Unstored(pc))
  }

  /** No holder of the target's lock has outlived it, and no response for the target's key has expired. */
  ghost predicate Timely(s: State, t: Request) {
    && (forall r :: HoldsLock(s, r, Scope(t)) ==> s.now < s.procs[r].handle.until)
    && (forall p :: p in s.made && p in s.procs && s.procs[p].req.key == t.key ==> s.now < s.made[p].expires)
  }

  ghost predicate RedisSafeAlong(c: Config, ls: seq<Label>, t: Request) {
    && Timely(Run(c, ls), t)
    && (ls != [] ==>
         && RedisSafe(Run(c, ls[..|ls| - 1]), ls[|ls| - 1], t)
         && RedisSafeAlong(c, ls[..|ls| - 1], t))
  }

  /******* The invariant *******/

  /** A request for the target uses the Redis lock only. */
  predicate RedisOnly(p: Process, t: Request) {
    SameTarget(p.req, t) ==>
      && !p.handle.PgLease? && !p.pc.LockPg?
      && (Holding(p.pc) ==> p.handle.RedisLock?)
  }

  predicate LockIsOwn(s: State, r: Rid, scope: string)
    requires HoldsLock(s, r, scope)
  {
    var h := s.procs[r].handle;
    scope in s.locks && s.locks[scope] == Lock(h.token, h.until)
  }

  ghost predicate LockInv(s: State, t: Request) {
    && (forall r :: r in s.procs ==> RedisOnly(s.procs[r], t))
    && (forall r :: HoldsLock(s, r, Scope(t)) ==> LockIsOwn(s, r, Scope(t)))
    && (forall r1, r2 :: HoldsLock(s, r1, Scope(t)) && HoldsLock(s, r2, Scope(t)) ==> r1 == r2)
  }

  predicate Calls(s: State, p: Rid, t: Request) {
    p in s.procs && SameTarget(s.procs[p].req, t)
  }

  /** Call `p` still holds the lock, or a response for its key is in Redis. */
  predicate CallStored(s: State, p: Rid, t: Request) {
    p in s.procs && (Calls(s, p, t) ==> Unstored(s.procs[p].pc) || t.key in s.responses)
  }

  ghost predicate NotCalled(s: State, t: Request) {
    forall i :: 0 <= i < |s.calls| ==> !Calls(s, s.calls[i], t)
  }

  ghost predicate RecheckInv(s: State, t: Request) {
    && (forall i :: 0 <= i < |s.calls| ==> CallStored(s, s.calls[i], t))
    && (forall r :: Calls(s, r, t) && Rechecked(s.procs[r].pc) ==> NotCalled(s, t))
  }

  ghost predicate OneTargetCall(s: State, t: Request) {
    forall i, j :: 0 <= i < j < |s.calls| ==> !(Calls(s, s.calls[i], t) && Calls(s, s.calls[j], t))
  }

  ghost predicate LockBase(c: Config, s: State, t: Request) {
    BindInv(c, s, None) && Timely(s, t) && LockInv(s, t) && c.redis
  }

  /******* Mutual exclusion *******/

  lemma StepKeepsRedisOnly(c: Config, s: State, p: Process, reply: Reply, made: Response, t: Request)
    requires c.redis && RedisOnly(p, t) && (SameTarget(p.req, t) && p.pc.LockRedis? ==> reply.Ok?)
    ensures RedisOnly(Process(p.req, PcAfter(c, s, p, reply, made), HandleAfter(c, s, p, reply)), t)
  {
  }

  /** A step touches the lock of its own scope only, and not while someone else holds it. */
  lemma LocksTouched(c: Config, s: State, p: Process, reply: Reply, scope: string)
    requires HandleOk(p.req, p.handle)
    requires scope != Scope(p.req) || (LockHeld(s.locks, scope, s.now) && !(p.pc.Unlock? && p.handle.RedisLock?))
    ensures scope in s.locks ==>
      scope in LocksAfter(c, s, p, reply) && LocksAfter(c, s, p, reply)[scope] == s.locks[scope]
  {
  }

  lemma LockNotGranted(c: Config, s: State, r: Rid, reply: Reply, body: string, scope: string)
    requires r in s.procs && !HoldsLock(s, r, scope) && LockHeld(s.locks, scope, s.now)
    requires s.procs[r].pc.LockRedis? || s.procs[r].pc.LockPg? ==> s.procs[r].handle.NoHandle?
    ensures !HoldsLock(Advance(c, s, r, reply, body), r, scope)
  {
  }

  /** A step of `r` leaves the lock of another holder alone, and `r` cannot get the same one. */
  lemma OtherLockKept(c: Config, s: State, r: Rid, reply: Reply, body: string, other: Rid, t: Request)
    requires LockBase(c, s, t) && Unlocked(s) && r in s.procs && other != r && HoldsLock(s, other, Scope(t))
    ensures var s' := Advance(c, s, r, reply, body);
      HoldsLock(s', other, Scope(t)) && LockIsOwn(s', other, Scope(t)) && !HoldsLock(s', r, Scope(t))
  {
    assert LockIsOwn(s, other, Scope(t)) && ProcOk(s, other, None) && ProcOk(s, r, None);
    assert !HoldsLock(s, r, Scope(t)) && LockHeld(s.locks, Scope(t), s.now);
    LockNotGranted(c, s, r, reply, body, Scope(t));
    LocksTouched(c, s, s.procs[r], reply, Scope(t));
  }

  lemma OwnLockKept(c: Config, s: State, r: Rid, reply: Reply, body: string, scope: string)
    requires r in s.procs && c.redis && NotYetLocked(s.procs[r])
    requires HoldsLock(s, r, scope) ==> LockIsOwn(s, r, scope)
    ensures var s' := Advance(c, s, r, reply, body); HoldsLock(s', r, scope) ==> LockIsOwn(s', r, scope)
  {
  }

  /** Before and while it asks for a lock, a request has none. */
  predicate NotYetLocked(p: Process) {
    !Holding(p.pc) && !p.pc.Done? ==> p.handle.NoHandle?
  }

  ghost predicate Unlocked(s: State) {
    forall r :: r in s.procs ==> NotYetLocked(s.procs[r])
  }

  lemma StepKeepsUnlocked(c: Config, s: State, p: Process, reply: Reply, made: Response)
    requires NotYetLocked(p)
    ensures NotYetLocked(Process(p.req, PcAfter(c, s, p, reply, made), HandleAfter(c, s, p, reply)))
  {
  }

  lemma {:induction false} UnlockedHolds(c: Config, ls: seq<Label>)
    ensures Unlocked(Run(c, ls))
  {
    if ls != [] {
      var s, l := Run(c, ls[..|ls| - 1]), ls[|ls| - 1];
      UnlockedHolds(c, ls[..|ls| - 1]);
      if l.Step? && l.rid in s.procs {
        StepKeepsUnlocked(c, s, s.procs[l.rid], l.reply, Produce(c, s, l.rid, s.procs[l.rid].req, l.body));
      }
    }
  }

  lemma AdvanceKeepsLock(c: Config, s: State, r: Rid, reply: Reply, body: string, t: Request)
    requires LockBase(c, s, t) && Unlocked(s) && r in s.procs && RedisSafe(s, Step(r, reply, body), t)
    ensures LockInv(Advance(c, s, r, reply, body), t)
  {
    var s' := Advance(c, s, r, reply, body);
    StepKeepsRedisOnly(c, s, s.procs[r], reply, Produce(c, s, r, s.procs[r].req, body), t);
    OwnLockKept(c, s, r, reply, body, Scope(t));
    forall p | HoldsLock(s', p, Scope(t)) && p != r
      ensures HoldsLock(s, p, Scope(t)) && LockIsOwn(s', p, Scope(t)) && !HoldsLock(s', r, Scope(t))
    {
      OtherLockKept(c, s, r, reply, body, p, t);
    }
  }

  /** A label other than a step hands out no lock. */
  lemma NoNewLock(c: Config, s: State, l: Label, p: Rid, scope: string)
    requires !l.Step? && HoldsLock(Apply(c, s, l), p, scope)
    ensures var s' := Apply(c, s, l);
      HoldsLock(s, p, scope) && s'.procs[p].handle == s.procs[p].handle && s'.locks == s.locks
  {
  }

  lemma OtherLabelRedisOnly(c: Config, s: State, l: Label, p: Rid, t: Request)
    requires !l.Step? && p in Apply(c, s, l).procs && (p in s.procs ==> RedisOnly(s.procs[p], t))
    ensures RedisOnly(Apply(c, s, l).procs[p], t)
  {
  }

  lemma OtherLabelKeepsLock(c: Config, s: State, l: Label, t: Request)
    requires LockInv(s, t) && !l.Step?
    ensures LockInv(Apply(c, s, l), t)
  {
    hide Apply;
    var s' := Apply(c, s, l);
    forall p | HoldsLock(s', p, Scope(t))
      ensures HoldsLock(s, p, Scope(t)) && LockIsOwn(s', p, Scope(t))
    {
      NoNewLock(c, s, l, p, Scope(t));
      assert LockIsOwn(s, p, Scope(t));
    }
    forall p | p in s'.procs ensures RedisOnly(s'.procs[p], t) {
      OtherLabelRedisOnly(c, s, l, p, t);
    }
  }

  /******* The re-check *******/

  /** While no response for the key has expired, an entry for it makes the re-check succeed. */
  lemma EntryIsFound(c: Config, s: State, t: Request)
    requires BindInv(c, s, None) && Timely(s, t) && t.key in s.responses
    ensures GetResponse(s.responses, t.key, s.now).Some?
  {
    assert EntryBacked(s, t.key, s.responses[t.key], None);
  }

  /** A request whose re-check finds nothing is the first caller for its target. */
  lemma RecheckFindsCall(c: Config, s: State, r: Rid, p: Rid, t: Request)
    requires LockBase(c, s, t) && Calls(s, r, t) && HoldsLock(s, r, Scope(t)) && s.procs[r].pc.GetRedis?
    requires CallStored(s, p, t) && GetResponse(s.responses, t.key, s.now).None?
    ensures !Calls(s, p, t)
  {
    if Calls(s, p, t) {
      if Unstored(s.procs[p].pc) {
        assert RedisOnly(s.procs[p], t) && HoldsLock(s, p, Scope(t));
      } else {
        EntryIsFound(c, s, t);
      }
    }
  }

  lemma CallsStayStored(c: Config, s: State, r: Rid, reply: Reply, body: string, p: Rid, t: Request)
    requires c.redis && r in s.procs && CallStored(s, p, t) && RedisSafe(s, Step(r, reply, body), t)
    ensures CallStored(Advance(c, s, r, reply, body), p, t)
  {
  }

  /** After its step, a request past its re-check was there before or has just re-checked. */
  lemma RecheckedBefore(c: Config, s: State, r: Rid, reply: Reply, body: string, t: Request)
    requires Calls(s, r, t) && c.redis && RedisOnly(s.procs[r], t) && RedisSafe(s, Step(r, reply, body), t)
    requires Rechecked(Advance(c, s, r, reply, body).procs[r].pc)
    ensures !s.procs[r].pc.CallHandler?
    ensures Rechecked(s.procs[r].pc) ||
      (s.procs[r].pc.GetRedis? && HoldsLock(s, r, Scope(t)) && GetResponse(s.responses, t.key, s.now).None?)
  {
  }

  lemma NotCalledAfter(c: Config, s: State, r: Rid, reply: Reply, body: string, p: Rid, t: Request)
    requires LockBase(c, s, t) && RecheckInv(s, t) && r in s.procs && RedisSafe(s, Step(r, reply, body), t)
    requires Calls(s, p, t) && Rechecked(Advance(c, s, r, reply, body).procs[p].pc)
    ensures NotCalled(s, t)
    ensures s.procs[r].pc.CallHandler? ==> !Calls(s, r, t)
  {
    assert RedisOnly(s.procs[r], t) && RedisOnly(s.procs[p], t);
    if p == r {
      RecheckedBefore(c, s, r, reply, body, t);
      if !Rechecked(s.procs[r].pc) {
        forall i | 0 <= i < |s.calls| ensures !Calls(s, s.calls[i], t) {
          RecheckFindsCall(c, s, r, s.calls[i], t);
        }
      }
    } else {
      assert s.procs[r].pc.CallHandler? && Calls(s, r, t) ==> HoldsLock(s, r, Scope(t)) && HoldsLock(s, p, Scope(t));
    }
  }

  lemma AdvanceKeepsRecheck(c: Config, s: State, r: Rid, reply: Reply, body: string, t: Request)
    requires LockBase(c, s, t) && RecheckInv(s, t) && r in s.procs && RedisSafe(s, Step(r, reply, body), t)
    ensures RecheckInv(Advance(c, s, r, reply, body), t)
  {
    var s' := Advance(c, s, r, reply, body);
    forall i | 0 <= i < |s.calls| ensures CallStored(s', s.calls[i], t) {
      CallsStayStored(c, s, r, reply, body, s.calls[i], t);
    }
    forall p | Calls(s', p, t) && Rechecked(s'.procs[p].pc) ensures NotCalled(s', t) {
      NotCalledAfter(c, s, r, reply, body, p, t);
    }
  }

  lemma AdvanceKeepsOneTargetCall(c: Config, s: State, r: Rid, reply: Reply, body: string, t: Request)
    requires RecheckInv(s, t) && OneTargetCall(s, t) && r in s.procs
    ensures OneTargetCall(Advance(c, s, r, reply, body), t)
  {
    if s.procs[r].pc.CallHandler? && Calls(s, r, t) {
      assert NotCalled(s, t);
    }
  }

  lemma OtherLabelStored(c: Config, s: State, l: Label, p: Rid, t: Request)
    requires !l.Step? && RedisSafe(s, l, t) && CallStored(s, p, t)
    ensures CallStored(Apply(c, s, l), p, t) && Calls(Apply(c, s, l), p, t) == Calls(s, p, t)
  {
  }

  lemma NoNewRecheck(c: Config, s: State, l: Label, p: Rid)
    requires !l.Step? && p in Apply(c, s, l).procs && Rechecked(Apply(c, s, l).procs[p].pc)
    ensures p in s.procs && s.procs[p] == Apply(c, s, l).procs[p]
  {
  }

  lemma OtherLabelKeepsRecheck(c: Config, s: State, l: Label, t: Request)
    requires RecheckInv(s, t) && OneTargetCall(s, t) && !l.Step? && RedisSafe(s, l, t)
    ensures RecheckInv(Apply(c, s, l), t) && OneTargetCall(Apply(c, s, l), t)
  {
    var s' := Apply(c, s, l);
    assert s'.calls == s.calls;
    forall i | 0 <= i < |s.calls|
      ensures CallStored(s', s.calls[i], t) && Calls(s', s.calls[i], t) == Calls(s, s.calls[i], t)
    {
      OtherLabelStored(c, s, l, s.calls[i], t);
    }
    forall p | Calls(s', p, t) && Rechecked(s'.procs[p].pc) ensures NotCalled(s', t) {
      NoNewRecheck(c, s, l, p);
      assert NotCalled(s, t);
    }
  }

  /******* Theorems *******/

  lemma {:induction false} RedisOnceHolds(c: Config, ls: seq<Label>, t: Request)
    requires ValidConfig(c) && c.redis && RedisSafeAlong(c, ls, t)
    ensures LockBase(c, Run(c, ls), t) && RecheckInv(Run(c, ls), t) && OneTargetCall(Run(c, ls), t)
  {
    BindingHolds(c, ls);
    if ls != [] {
      var s, l := Run(c, ls[..|ls| - 1]), ls[|ls| - 1];
      RedisOnceHolds(c, ls[..|ls| - 1], t);
      UnlockedHolds(c, ls[..|ls| - 1]);
      if !l.Step? {
        OtherLabelKeepsLock(c, s, l, t);
        OtherLabelKeepsRecheck(c, s, l, t);
      } else if l.rid in s.procs {
        AdvanceKeepsLock(c, s, l.rid, l.reply, l.body, t);
        AdvanceKeepsRecheck(c, s, l.rid, l.reply, l.body, t);
        AdvanceKeepsOneTargetCall(c, s, l.rid, l.reply, l.body, t);
      }
    }
  }

  /**
   When the requests for one verb, path and key get their answer from the Redis lock and
   their re-checks and stores reach Redis, no holder of their lock outlives it and no
   response for their key has expired, the handler runs at most once for them, whatever
   happens to all other requests.
   */
  lemma RunsOncePerTarget(c: Config, ls: seq<Label>, t: Request, i: nat, j: nat)
    requires ValidConfig(c) && c.redis && RedisSafeAlong(c, ls, t)
    requires i < j < |Run(c, ls).calls|
    ensures var s := Run(c, ls); !(Calls(s, s.calls[i], t) && Calls(s, s.calls[j], t))
  {
    RedisOnceHolds(c, ls, t);
  }

  /**
   If no run for the key outlives a Postgres lease either, every replay is the response of
   the only call for its verb, path and key.
   */
  lemma ReplaysEqualOnlyResponse(c: Config, ls: seq<Label>, r: Rid, resp: Response, at: int, i: nat)
    requires ValidConfig(c) && c.redis && WasReplayed(Run(c, ls), r, resp, at)
    requires var s := Run(c, ls);
      var t := s.procs[r].req;
      && RedisSafeAlong(c, ls, t) && LeasesKeptAlong(c, ls, t.key)
      && i < |s.calls| && Calls(s, s.calls[i], t)
    ensures var s := Run(c, ls); s.calls[i] in s.made && s.made[s.calls[i]].payload == resp.payload
  {
    hide Run, RedisSafeAlong, LeasesKeptAlong, BindInv;
    var s := Run(c, ls);
    var t := s.procs[r].req;
    ReplaySameRequest(c, ls, r, resp, at);
    var k :| 0 <= k < |s.calls| && s.calls[k] == resp.payload.producer;
    RedisOnceHolds(c, ls, t);
    assert Calls(s, s.calls[k], t);
  }

  /** When all requests for a key only use the Redis lock, there is no lease of it to outlive. */
  lemma {:induction false} NoLeaseToOutlive(c: Config, ls: seq<Label>, key: string)
    requires ValidConfig(c) && c.redis && forall t: Request :: t.key == key ==> RedisSafeAlong(c, ls, t)
    ensures LeasesKeptAlong(c, ls, key)
  {
    forall r | r in Run(c, ls).procs && Run(c, ls).procs[r].req.key == key ensures !HoldsLease(Run(c, ls), r, key) {
      RedisOnceHolds(c, ls, Run(c, ls).procs[r].req);
      assert RedisOnly(Run(c, ls).procs[r], Run(c, ls).procs[r].req);
    }
    if ls != [] {
      forall t: Request | t.key == key ensures RedisSafeAlong(c, ls[..|ls| - 1], t) {
        assert RedisSafeAlong(c, ls, t);
      }
      NoLeaseToOutlive(c, ls[..|ls| - 1], key);
    }
  }
}
