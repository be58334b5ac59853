/**
 The Postgres row lease, key by key.

 As long as no run for a key outlives its lease, the key has at most one live lease
 holder, and a response replayed for it was also produced by the same verb and path.
 What happens to other keys does not matter.
 */
module IdempotencyLease {
  import opened Options
  import opened IdempotencyModel
  import opened IdempotencyBinding

  /** The request is between taking its lock or lease and giving it back. */
  predicate Holding(pc: PC) {
    match pc
    case GetRedis(phase) => phase.Recheck?
    case GetPg(phase) => phase.Recheck?
    case Warm(phase, _, _) => phase.Recheck?
    case CallHandler => true
    case Handling => true
    case PutRedis(_) => true
    case PutPg(_) => true
    case Unlock(_) => true
    case _ => false
  }

  /** Request `r` holds a Postgres lease on `key`. */
  predicate HoldsLease(s: State, r: Rid, key: string) {
    r in s.procs && s.procs[r].req.key == key && Holding(s.procs[r].pc) && s.procs[r].handle.PgLease?
  }

  /**
   No run for `key` is still at work after its lease lapsed.  A run that has completed its
   row may take any time to answer its client and release.
   */
  ghost predicate LeasesKept(s: State, key: string) {
    forall r :: HoldsLease(s, r, key) && !s.procs[r].handle.completed ==> s.now <= s.procs[r].handle.until
  }

  /** The row of a holder is its own lease, or has been completed. */
  predicate OwnsRow(s: State, r: Rid, key: string)
    requires HoldsLease(s, r, key)
  {
    var p := s.procs[r];
    && key in s.rows
    && var row := s.rows[key];
       || row.Completed?
       || (!p.handle.completed
           && row == Leased(p.req.verb, p.req.path, p.req.hash, p.req.hash, p.handle.until, row.expires))
  }

  ghost predicate LeaseInv(s: State, key: string) {
    && (forall r :: HoldsLease(s, r, key) ==> OwnsRow(s, r, key))
    && (forall r1, r2 :: HoldsLease(s, r1, key) && HoldsLease(s, r2, key) ==> r1 == r2)
  }

  predicate TouchesRows(pc: PC) {
    pc.LockPg? || pc.PutPg? || pc.Unlock?
  }

  /** All other steps leave the rows alone and hand out no lease. */
  lemma QuietStep(c: Config, s: State, r: Rid, reply: Reply, body: string, key: string)
    requires r in s.procs && !TouchesRows(s.procs[r].pc)
    ensures var s' := Advance(c, s, r, reply, body);
      && s'.rows == s.rows
      && (HoldsLease(s', r, key) ==> HoldsLease(s, r, key) && s'.procs[r].handle == s.procs[r].handle)
  {
  }

  /** Another holder's row survives any step of `r`. */
  lemma OtherRowKept(c: Config, s: State, r: Rid, reply: Reply, body: string, other: Rid, key: string)
    requires LeaseInv(s, key) && LeasesKept(s, key) && r in s.procs && HandleOk(s.procs[r].req, s.procs[r].handle)
    requires other != r && HoldsLease(s, other, key) && s.procs[r].req.key == key
    ensures var s' := Advance(c, s, r, reply, body);
      s'.rows == s.rows || (key in s'.rows && s'.rows[key].Completed?)
    ensures !HoldsLease(Advance(c, s, r, reply, body), r, key)
  {
    assert !HoldsLease(s, r, key);
    assert OwnsRow(s, other, key);
    if TouchesRows(s.procs[r].pc) {
      assert !LeaseFree(s.rows, key, s.now);
    } else {
      QuietStep(c, s, r, reply, body, key);
    }
  }

  lemma OwnRowKept(c: Config, s: State, r: Rid, reply: Reply, body: string, key: string)
    requires r in s.procs && HandleOk(s.procs[r].req, s.procs[r].handle)
    requires s.procs[r].pc.Done? || OnlyBy(s, Advance(c, s, r, reply, body), r)
    requires HoldsLease(s, r, key) ==> OwnsRow(s, r, key)
    ensures var s' := Advance(c, s, r, reply, body); HoldsLease(s', r, key) ==> OwnsRow(s', r, key)
  {
    if !TouchesRows(s.procs[r].pc) {
      QuietStep(c, s, r, reply, body, key);
    }
  }

  lemma AdvanceKeepsLease(c: Config, s: State, r: Rid, reply: Reply, body: string, key: string)
    requires LeaseInv(s, key) && LeasesKept(s, key) && r in s.procs
    requires HandleOk(s.procs[r].req, s.procs[r].handle) && OnlyBy(s, Advance(c, s, r, reply, body), r)
    ensures LeaseInv(Advance(c, s, r, reply, body), key)
  {
    var s' := Advance(c, s, r, reply, body);
    OwnRowKept(c, s, r, reply, body, key);
    forall p | HoldsLease(s', p, key) && p != r
      ensures HoldsLease(s, p, key) && OwnsRow(s', p, key) && !HoldsLease(s', r, key)
    {
      assert HoldsLease(s, p, key) && OwnsRow(s, p, key);
      if s.procs[r].req.key == key {
        OtherRowKept(c, s, r, reply, body, p, key);
      }
    }
  }

  lemma ApplyKeepsLease(c: Config, s: State, l: Label, key: string)
    requires ValidConfig(c) && BindInv(c, s, None) && LeaseInv(s, key) && LeasesKept(s, key)
    ensures LeaseInv(Apply(c, s, l), key)
  {
    match l
    case Step(r, reply, body) =>
      if r in s.procs {
        assert ProcOk(s, r, None);
        AdvanceOnlyBy(c, s, r, reply, body);
        AdvanceKeepsLease(c, s, r, reply, body, key);
      }
    case _ => OtherLabelKeepsLease(c, s, l, key);
  }

  lemma OtherLabelKeepsLease(c: Config, s: State, l: Label, key: string)
    requires LeaseInv(s, key) && !l.Step?
    ensures LeaseInv(Apply(c, s, l), key)
  {
    var s' := Apply(c, s, l);
    forall p | HoldsLease(s', p, key)
      ensures HoldsLease(s, p, key) && OwnsRow(s', p, key)
    {
      NoNewLease(c, s, l, p, key);
      assert OwnsRow(s, p, key);
    }
  }

  lemma NoNewLease(c: Config, s: State, l: Label, p: Rid, key: string)
    requires !l.Step? && HoldsLease(Apply(c, s, l), p, key)
    ensures var s' := Apply(c, s, l);
      && HoldsLease(s, p, key) && s'.rows == s.rows
      && s'.procs[p].req == s.procs[p].req && s'.procs[p].handle == s.procs[p].handle
  {
  }

  /******* Same verb and path, when leases are kept *******/

  /** No state on the way has a run for `key` past its lease. */
  ghost predicate LeasesKeptAlong(c: Config, ls: seq<Label>, key: string) {
    LeasesKept(Run(c, ls), key) && (ls != [] ==> LeasesKeptAlong(c, ls[..|ls| - 1], key))
  }

  /** With leases of `key` kept, its live holder owns its row and its responses carry their verb and path. */
  lemma {:induction false} LeaseHolds(c: Config, ls: seq<Label>, key: string)
    requires ValidConfig(c) && LeasesKeptAlong(c, ls, key)
    ensures LeaseInv(Run(c, ls), key) && BindInv(c, Run(c, ls), Some(key))
  {
    if ls != [] {
      var s, l := Run(c, ls[..|ls| - 1]), ls[|ls| - 1];
      LeaseHolds(c, ls[..|ls| - 1], key);
      BindingHolds(c, ls[..|ls| - 1]);
      ApplyKeepsLease(c, s, l, key);
      if l.Step? && HoldsLease(s, l.rid, key) { assert OwnsRow(s, l.rid, key); }
      ApplyKeepsBinding(c, s, l, Some(key));
    }
  }

  /**
   If no run for a key outlives its Postgres lease, the key has at most one live lease
   holder in every state, with or without Redis and whatever fails.
   */
  lemma OneLeaseHolder(c: Config, ls: seq<Label>, key: string, r1: Rid, r2: Rid)
    requires ValidConfig(c) && LeasesKeptAlong(c, ls, key)
    requires HoldsLease(Run(c, ls), r1, key) && HoldsLease(Run(c, ls), r2, key)
    ensures r1 == r2
  {
    LeaseHolds(c, ls, key);
  }

  /** If no run for its key outlives its Postgres lease, a replay also comes from the same verb and path. */
  lemma ReplaySameRequest(c: Config, ls: seq<Label>, r: Rid, resp: Response, at: int)
    requires ValidConfig(c) && WasReplayed(Run(c, ls), r, resp, at)
    requires LeasesKeptAlong(c, ls, Run(c, ls).procs[r].req.key)
    ensures var s := Run(c, ls);
      var p := resp.payload.producer;
      && p in s.calls && p in s.made && p in s.procs
      && s.made[p].payload == resp.payload
      && s.procs[p].req == s.procs[r].req
  {
    var s := Run(c, ls);
    var key := s.procs[r].req.key;
    LeaseHolds(c, ls, key);
    assert ProcOk(s, r, Some(key));
    assert MadeBy(c, s, resp.payload.producer);
  }

  /******* Without Redis *******/

  /** Without Redis no request ever holds a Redis lock. */
  ghost predicate NoRedisLocks(s: State) {
    forall r :: r in s.procs ==> NoRedisLock(s.procs[r])
  }

  predicate NoRedisLock(p: Process) {
    !p.handle.RedisLock? && (Holding(p.pc) ==> p.handle.PgLease?)
  }

  lemma StepKeepsNoRedisLock(c: Config, s: State, p: Process, reply: Reply, made: Response)
    requires !c.redis && NoRedisLock(p)
    ensures NoRedisLock(Process(p.req, PcAfter(c, s, p, reply, made), HandleAfter(c, s, p, reply)))
  {
  }

  lemma ApplyKeepsNoRedisLocks(c: Config, s: State, l: Label)
    requires !c.redis && NoRedisLocks(s)
    ensures NoRedisLocks(Apply(c, s, l))
  {
    if l.Step? && l.rid in s.procs {
      StepKeepsNoRedisLock(c, s, s.procs[l.rid], l.reply, Produce(c, s, l.rid, s.procs[l.rid].req, l.body));
    }
  }

  lemma {:induction false} NoRedisLocksHolds(c: Config, ls: seq<Label>)
    requires !c.redis
    ensures NoRedisLocks(Run(c, ls))
  {
    if ls != [] {
      NoRedisLocksHolds(c, ls[..|ls| - 1]);
      ApplyKeepsNoRedisLocks(c, Run(c, ls[..|ls| - 1]), ls[|ls| - 1]);
    }
  }

  lemma CompletedStepStable(c: Config, s: State, l: Label, key: string)
    requires NoRedisLocks(s) && key in s.rows && s.rows[key].Completed?
    ensures key in Apply(c, s, l).rows && Apply(c, s, l).rows[key] == s.rows[key]
  {
    if l.Step? && l.rid in s.procs {
      var p := s.procs[l.rid];
      assert p.pc.PutPg? ==> p.handle.PgLease?;
      assert RowsAfter(c, s, p, l.reply).Keys >= {key};
    }
  }

  /**
   Without Redis, a completed row is final: from any point of any run on, every later
   state has the same row, response included.
   */
  lemma {:induction false} CompletedIsFinal(c: Config, ls: seq<Label>, more: seq<Label>, key: string)
    requires !c.redis && key in Run(c, ls).rows && Run(c, ls).rows[key].Completed?
    ensures key in Run(c, ls + more).rows && Run(c, ls + more).rows[key] == Run(c, ls).rows[key]
  {
    if more == [] {
      assert ls + more == ls;
    } else {
      var init := more[..|more| - 1];
      CompletedIsFinal(c, ls, init, key);
      assert (ls + more)[..|ls + more| - 1] == ls + init;
      NoRedisLocksHolds(c, ls + init);
      CompletedStepStable(c, Run(c, ls + init), more[|more| - 1], key);
    }
  }

  /******* Expired keys *******/

  lemma CallersStep(c: Config, s: State, l: Label)
    requires forall p :: p in s.calls ==> p in s.procs
    ensures forall p :: p in Apply(c, s, l).calls ==> p in Apply(c, s, l).procs
  {
    hide PcAfter, HandleAfter, ResponsesAfter, LocksAfter, RowsAfter;
  }

  lemma {:induction false} CallersKnown(c: Config, ls: seq<Label>)
    ensures forall p :: p in Run(c, ls).calls ==> p in Run(c, ls).procs
  {
    if ls != [] {
      CallersKnown(c, ls[..|ls| - 1]);
      CallersStep(c, Run(c, ls[..|ls| - 1]), ls[|ls| - 1]);
    }
  }

  /** The row of `key` is completed, and its response has expired. */
  predicate Spent(s: State, key: string) {
    key in s.rows && s.rows[key].Completed? && s.rows[key].expires <= s.now
  }

  /** A request that has neither a lock nor a response, and can only be turned away. */
  predicate TurnedAway(p: Process) {
    && p.handle == NoHandle && !Holding(p.pc) && !p.pc.Warm?
    && (p.pc.Done? ==> p.pc.outcome.Busy? || p.pc.outcome.Unavailable? || p.pc.outcome.Crashed?)
  }

  lemma TurnedAwayStep(c: Config, s: State, p: Process, reply: Reply, made: Response)
    requires !c.redis && Spent(s, p.req.key) && TurnedAway(p)
    ensures TurnedAway(Process(p.req, PcAfter(c, s, p, reply, made), HandleAfter(c, s, p, reply)))
  {
  }

  lemma StaysTurnedAway(c: Config, s: State, l: Label, r: Rid)
    requires !c.redis && r in s.procs && Spent(s, s.procs[r].req.key) && TurnedAway(s.procs[r])
    ensures var s' := Apply(c, s, l); r in s'.procs && TurnedAway(s'.procs[r]) && s'.procs[r].req == s.procs[r].req
    ensures r !in s.calls ==> r !in Apply(c, s, l).calls
  {
    if l.Step? && l.rid == r {
      TurnedAwayStep(c, s, s.procs[r], l.reply, Produce(c, s, r, s.procs[r].req, l.body));
    }
    hide PcAfter, HandleAfter, ResponsesAfter, LocksAfter, RowsAfter, Produce;
  }

  lemma StaysSpent(c: Config, ls: seq<Label>, more: seq<Label>, key: string)
    requires !c.redis && Spent(Run(c, ls), key)
    ensures Spent(Run(c, ls + more), key)
  {
    CompletedIsFinal(c, ls, more, key);
    TimePasses(c, ls, more);
  }

  lemma TimeStep(c: Config, s: State, l: Label)
    ensures s.now <= Apply(c, s, l).now
  {
  }

  lemma {:induction false} TimePasses(c: Config, ls: seq<Label>, more: seq<Label>)
    ensures Run(c, ls).now <= Run(c, ls + more).now
  {
    hide Run, Apply;
    if more == [] {
      assert ls + more == ls;
    } else {
      var rest, l := more[..|more| - 1], more[|more| - 1];
      TimePasses(c, ls, rest);
      assert ls + more == ls + rest + [l];
      RunExtend(c, ls + rest, l);
      TimeStep(c, Run(c, ls + rest), l);
    }
  }

  /**
   Without Redis a key does not become usable again when its response expires: a request
   that arrives later is never served, neither by the handler nor by a replay, because the
   lookup skips the expired row and the lease cannot take over a completed one.
   */
  lemma {:induction false} ExpiredKeyIsRefused(c: Config, ls: seq<Label>, more: seq<Label>, r: Rid)
    requires !c.redis && r !in Run(c, ls).procs
    requires r in Run(c, ls + more).procs && Spent(Run(c, ls), Run(c, ls + more).procs[r].req.key)
    ensures TurnedAway(Run(c, ls + more).procs[r]) && r !in Run(c, ls + more).calls
  {
    hide Run, Apply, TurnedAway, Spent;
    assert more == [] ==> ls + more == ls;
    if more != [] {
      var rest, l := more[..|more| - 1], more[|more| - 1];
      assert ls + more == ls + rest + [l];
      RunExtend(c, ls + rest, l);
      var s := Run(c, ls + rest);
      NewOrSame(c, s, l, r);
      CallersKnown(c, ls + rest);
      if r in s.procs {
        ExpiredKeyIsRefused(c, ls, rest, r);
        StaysSpent(c, ls, rest, s.procs[r].req.key);
        StaysTurnedAway(c, s, l, r);
      }
    }
  }

  lemma NewOrSame(c: Config, s: State, l: Label, r: Rid)
    requires r in Apply(c, s, l).procs
    ensures r in s.procs ==> Apply(c, s, l).procs[r].req == s.procs[r].req
    ensures r !in s.procs ==> TurnedAway(Apply(c, s, l).procs[r]) && Apply(c, s, l).calls == s.calls
  {
  }
}
