/**
 At most one handler run per key, forever, under the Postgres lease alone.  The hypotheses
 are about the runs for that key; what happens to other keys does not matter.
 */
module IdempotencyPgOnce {
  import opened Options
  import opened IdempotencyModel
  import opened IdempotencyBinding
  import opened IdempotencyLease

  /** Call number `i` was made by a request for `key`. */
  predicate CalledFor(s: State, i: nat, key: string)
    requires i < |s.calls|
  {
    s.calls[i] in s.procs && s.procs[s.calls[i]].req.key == key
  }

  /******* While leases are kept, a holder that has not written still has its lease *******/

  predicate RowStillLeased(s: State, r: Rid, key: string) {
    HoldsLease(s, r, key) && !s.procs[r].pc.Unlock? ==> key in s.rows && s.rows[key].Leased?
  }

  ghost predicate LeaseBase(c: Config, s: State, key: string) {
    BindInv(c, s, None) && LeaseInv(s, key) && LeasesKept(s, key) && NoRedisLocks(s)
  }

  /** A step of `r` leaves the row of another holder exactly as it is. */
  lemma OtherLeaseSame(c: Config, s: State, r: Rid, reply: Reply, body: string, other: Rid, key: string)
    requires LeaseBase(c, s, key) && r in s.procs && other != r && HoldsLease(s, other, key)
    ensures var s' := Advance(c, s, r, reply, body); key in s.rows && key in s'.rows && s'.rows[key] == s.rows[key]
  {
    assert OwnsRow(s, other, key) && ProcOk(s, r, None) && NoRedisLock(s.procs[r]);
    AdvanceOnlyBy(c, s, r, reply, body);
    if s.procs[r].req.key == key {
      assert !HoldsLease(s, r, key);
      assert !LeaseFree(s.rows, key, s.now);
    }
  }

  lemma OwnLeaseStill(c: Config, s: State, r: Rid, reply: Reply, body: string, key: string)
    requires r in s.procs && NoRedisLock(s.procs[r]) && RowStillLeased(s, r, key)
    ensures RowStillLeased(Advance(c, s, r, reply, body), r, key)
  {
    if !TouchesRows(s.procs[r].pc) { QuietStep(c, s, r, reply, body, key); }
  }

  lemma AbortLeavesUnlock(c: Config, s: State, l: Label, p: Rid, key: string)
    requires !l.Step? && p in s.procs && s.procs[p].pc.Unlock?
    ensures !HoldsLease(Apply(c, s, l), p, key) || Apply(c, s, l).procs[p].pc.Unlock?
  {
  }

  lemma ApplyKeepsLeased(c: Config, s: State, l: Label, key: string, p: Rid)
    requires LeaseBase(c, s, key) && (p in s.procs ==> RowStillLeased(s, p, key))
    ensures RowStillLeased(Apply(c, s, l), p, key)
  {
    hide BindInv, LeaseInv, LeasesKept;
    var s' := Apply(c, s, l);
    if HoldsLease(s', p, key) {
      if !l.Step? {
        NoNewLease(c, s, l, p, key);
        if s.procs[p].pc.Unlock? { AbortLeavesUnlock(c, s, l, p, key); }
      } else if p == l.rid {
        assert NoRedisLock(s.procs[p]);
        OwnLeaseStill(c, s, p, l.reply, l.body, key);
      } else if l.rid in s.procs {
        OtherLeaseSame(c, s, l.rid, l.reply, l.body, p, key);
      }
    }
  }

  lemma LeaseBaseHolds(c: Config, ls: seq<Label>, key: string)
    requires ValidConfig(c) && !c.redis && LeasesKeptAlong(c, ls, key)
    ensures LeaseBase(c, Run(c, ls), key)
  {
    BindingHolds(c, ls);
    LeaseHolds(c, ls, key);
    NoRedisLocksHolds(c, ls);
  }

  lemma {:induction false} StillLeasedHolds(c: Config, ls: seq<Label>, key: string, p: Rid)
    requires ValidConfig(c) && !c.redis && LeasesKeptAlong(c, ls, key)
    ensures RowStillLeased(Run(c, ls), p, key)
  {
    if ls != [] {
      StillLeasedHolds(c, ls[..|ls| - 1], key, p);
      LeaseBaseHolds(c, ls[..|ls| - 1], key);
      ApplyKeepsLeased(c, Run(c, ls[..|ls| - 1]), ls[|ls| - 1], key, p);
    }
  }

  /******* When completions also succeed, every call is settled *******/

  /** The request has called the handler and not yet tried to complete its row. */
  predicate Unsaved(pc: PC) {
    pc.Handling? || pc.PutRedis? || pc.PutPg?
  }

  /** A completion write for `key` reaches Postgres, and no process for it dies between handler and write. */
  predicate CompletionSafe(s: State, l: Label, key: string) {
    !l.Tick? && l.rid in s.procs && s.procs[l.rid].req.key == key ==>
      && (l.Step? && s.procs[l.rid].pc.PutPg? ==> !l.reply.Failed?)
      && (l.Crash? || l.Panic? ==> !Unsaved(s.procs[l.rid].pc))
  }

  ghost predicate CompletionSafeAlong(c: Config, ls: seq<Label>, key: string) {
    ls != [] ==>
      && CompletionSafe(Run(c, ls[..|ls| - 1]), ls[|ls| - 1], key)
      && CompletionSafeAlong(c, ls[..|ls| - 1], key)
  }

  /** Call `p` still holds its lease, or its response is in the row. */
  predicate CallSettled(s: State, p: Rid, key: string) {
    && p in s.procs
    && (s.procs[p].req.key == key ==>
          || Unsaved(s.procs[p].pc)
          || (key in s.rows && s.rows[key].Completed? && s.rows[key].payload.producer == p))
  }

  ghost predicate OnceInv(s: State, key: string) {
    && (forall r :: r in s.procs ==> RowStillLeased(s, r, key))
    && (forall i :: 0 <= i < |s.calls| ==> CallSettled(s, s.calls[i], key))
  }

  ghost predicate OneKeyCall(s: State, key: string) {
    forall i: nat, j: nat :: i < j < |s.calls| ==> !(CalledFor(s, i, key) && CalledFor(s, j, key))
  }

  /** A step settles or keeps every call made so far. */
  lemma CallsStaySettled(c: Config, s: State, r: Rid, reply: Reply, body: string, p: Rid, key: string)
    requires LeaseBase(c, s, key) && OnceInv(s, key) && c.pg && r in s.procs
    requires CompletionSafe(s, Step(r, reply, body), key)
    requires CallSettled(s, p, key)
    ensures CallSettled(Advance(c, s, r, reply, body), p, key)
  {
    if s.procs[p].req.key == key {
      if key in s.rows && s.rows[key].Completed? && s.rows[key].payload.producer == p {
        CompletedStepStable(c, s, Step(r, reply, body), key);
      } else if p == r && s.procs[r].pc.PutPg? {
        assert NoRedisLock(s.procs[r]) && HoldsLease(s, r, key) && OwnsRow(s, r, key) && RowStillLeased(s, r, key);
        assert ProcOk(s, r, None) && MadeBy(c, s, r);
      }
    }
  }

  /** A call about to start is the first for its key. */
  lemma FirstForKey(c: Config, s: State, r: Rid, p: Rid, key: string)
    requires LeaseBase(c, s, key) && OnceInv(s, key) && CallSettled(s, p, key)
    requires r in s.procs && s.procs[r].pc.CallHandler? && s.procs[r].req.key == key
    ensures s.procs[p].req.key != key
  {
    assert NoRedisLock(s.procs[r]) && NoRedisLock(s.procs[p]);
    assert HoldsLease(s, r, key) && RowStillLeased(s, r, key);
    assert s.procs[p].req.key == key && Unsaved(s.procs[p].pc) ==> HoldsLease(s, p, key);
  }

  lemma AdvanceKeepsOnce(c: Config, s: State, r: Rid, reply: Reply, body: string, key: string)
    requires LeaseBase(c, s, key) && OnceInv(s, key) && OneKeyCall(s, key) && c.pg && r in s.procs
    requires CompletionSafe(s, Step(r, reply, body), key)
    ensures OnceInv(Advance(c, s, r, reply, body), key) && OneKeyCall(Advance(c, s, r, reply, body), key)
  {
    hide BindInv, LeaseInv, LeasesKept;
    var s' := Advance(c, s, r, reply, body);
    forall p | p in s'.procs ensures RowStillLeased(s', p, key) {
      ApplyKeepsLeased(c, s, Step(r, reply, body), key, p);
    }
    forall i | 0 <= i < |s.calls|
      ensures CallSettled(s', s.calls[i], key) && CalledFor(s', i, key) == CalledFor(s, i, key)
      ensures s.procs[r].pc.CallHandler? && s.procs[r].req.key == key ==> !CalledFor(s, i, key)
    {
      CallsStaySettled(c, s, r, reply, body, s.calls[i], key);
      if s.procs[r].pc.CallHandler? && s.procs[r].req.key == key { FirstForKey(c, s, r, s.calls[i], key); }
    }
    assert s'.calls == s.calls || s'.calls == s.calls + [r];
  }

  /** A label other than a step changes no row and leaves unsaved calls unsaved. */
  lemma OtherLabelSettled(c: Config, s: State, l: Label, p: Rid, key: string)
    requires !l.Step? && CompletionSafe(s, l, key) && CallSettled(s, p, key)
    ensures CallSettled(Apply(c, s, l), p, key) && Apply(c, s, l).procs[p].req == s.procs[p].req
  {
  }

  lemma OtherLabelKeepsOnce(c: Config, s: State, l: Label, key: string)
    requires LeaseBase(c, s, key) && OnceInv(s, key) && OneKeyCall(s, key) && CompletionSafe(s, l, key) && !l.Step?
    ensures OnceInv(Apply(c, s, l), key) && OneKeyCall(Apply(c, s, l), key)
  {
    hide BindInv, LeaseInv, LeasesKept;
    var s' := Apply(c, s, l);
    forall p | p in s'.procs ensures RowStillLeased(s', p, key) {
      ApplyKeepsLeased(c, s, l, key, p);
    }
    assert s'.calls == s.calls;
    forall i | 0 <= i < |s.calls|
      ensures CallSettled(s', s.calls[i], key) && CalledFor(s', i, key) == CalledFor(s, i, key)
    {
      OtherLabelSettled(c, s, l, s.calls[i], key);
    }
  }

  lemma {:induction false} OnceHolds(c: Config, ls: seq<Label>, key: string)
    requires ValidConfig(c) && !c.redis && c.pg && LeasesKeptAlong(c, ls, key) && CompletionSafeAlong(c, ls, key)
    ensures OnceInv(Run(c, ls), key) && OneKeyCall(Run(c, ls), key)
  {
    if ls != [] {
      var s, l := Run(c, ls[..|ls| - 1]), ls[|ls| - 1];
      OnceHolds(c, ls[..|ls| - 1], key);
      LeaseBaseHolds(c, ls[..|ls| - 1], key);
      if !l.Step? {
        OtherLabelKeepsOnce(c, s, l, key);
      } else if l.rid in s.procs {
        AdvanceKeepsOnce(c, s, l.rid, l.reply, l.body, key);
      }
    }
  }

  /**
   Without Redis, if no run for a key outlives its lease and completion writes for it reach
   Postgres, the handler runs at most once for the key, forever: two entries of the call
   history are never both for it, whatever happens to other keys.
   */
  lemma RunsOncePerKey(c: Config, ls: seq<Label>, key: string, i: nat, j: nat)
    requires ValidConfig(c) && !c.redis && c.pg && LeasesKeptAlong(c, ls, key) && CompletionSafeAlong(c, ls, key)
    requires i < j < |Run(c, ls).calls|
    ensures !(CalledFor(Run(c, ls), i, key) && CalledFor(Run(c, ls), j, key))
  {
    OnceHolds(c, ls, key);
  }

  /** Under the same hypotheses every replay for the key is the response of its only call. */
  lemma ReplaysEqualFirstResponse(c: Config, ls: seq<Label>, r: Rid, resp: Response, at: int, i: nat)
    requires ValidConfig(c) && !c.redis && c.pg && WasReplayed(Run(c, ls), r, resp, at)
    requires var key := Run(c, ls).procs[r].req.key;
      && LeasesKeptAlong(c, ls, key) && CompletionSafeAlong(c, ls, key)
      && i < |Run(c, ls).calls| && CalledFor(Run(c, ls), i, key)
    ensures var s := Run(c, ls); s.calls[i] in s.made && s.made[s.calls[i]].payload == resp.payload
  {
    var s := Run(c, ls);
    var key := s.procs[r].req.key;
    ReplayBinding(c, ls, r, resp, at);
    var k :| 0 <= k < |s.calls| && s.calls[k] == resp.payload.producer;
    assert CalledFor(s, k, key);
    OnceHolds(c, ls, key);
  }
}
