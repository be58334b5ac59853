/**
 What the idempotency protocol does not promise without Redis, exactly.  The runs below
 exist for every configuration and every request, so no choice of timeouts avoids them.
 */
module IdempotencyLimits {
  import opened Options
  import opened IdempotencyModel
  import opened IdempotencyBinding
  import opened IdempotencyLease
  import opened IdempotencyPgOnce

  predicate PgOnly(c: Config) {
    ValidConfig(c) && !c.redis && c.pg
  }

  /******* Undisturbed steps *******/

  /** Nothing goes wrong in this label. */
  predicate Calm(l: Label) {
    l.Tick? || l.Arrive? || (l.Step? && l.reply.Ok?)
  }

  /** `ls'` continues `ls` with undisturbed steps of request `r` alone. */
  ghost predicate Continues(ls: seq<Label>, ls': seq<Label>, r: Rid) {
    ls <= ls' && forall i :: |ls| <= i < |ls'| ==> Calm(ls'[i]) && !ls'[i].Tick? && ls'[i].rid == r
  }

  /** One step of a request that changes no store. */
  lemma Move(c: Config, ls: seq<Label>, r: Rid, q: Request, pc: PC, h: Handle, reply: Reply, pc': PC)
    returns (ls': seq<Label>)
    requires r in Run(c, ls).procs && Run(c, ls).procs[r] == Process(q, pc, h)
    requires pc.GetRedis? || pc.GetPg? || (pc.LockRedis? && !c.redis)
    requires pc' == PcAfter(c, Run(c, ls), Process(q, pc, h), reply, Produce(c, Run(c, ls), r, q, ""))
    ensures ls' == ls + [Step(r, reply, "")] && (reply.Ok? ==> Continues(ls, ls', r))
    ensures Run(c, ls') == Run(c, ls).(procs := Run(c, ls).procs[r := Process(q, pc', h)])
  {
    RunExtend(c, ls, Step(r, reply, ""));
    ls' := ls + [Step(r, reply, "")];
  }

  /** A new request whose key is free reaches the lease statement. */
  lemma ReachLease(c: Config, ls: seq<Label>, r: Rid, q: Request) returns (ls': seq<Label>)
    requires PgOnly(c) && r !in Run(c, ls).procs && LeaseFree(Run(c, ls).rows, q.key, Run(c, ls).now)
    ensures Continues(ls, ls', r)
    ensures Run(c, ls') == Run(c, ls).(procs := Run(c, ls).procs[r := Process(q, LockPg, NoHandle)])
  {
    hide Run;
    var s := Run(c, ls);
    RunExtend(c, ls, Arrive(r, q));
    ls' := ls + [Arrive(r, q)];
    ls' := Move(c, ls', r, q, GetRedis(First), NoHandle, Ok, GetPg(First));
    ls' := Move(c, ls', r, q, GetPg(First), NoHandle, Ok, LockRedis);
    ls' := Move(c, ls', r, q, LockRedis, NoHandle, Ok, LockPg);
    assert Run(c, ls').procs == s.procs[r := Process(q, LockPg, NoHandle)];
  }

  /** The state in which `r` runs the handler under a lease it took in `s`. */
  function InHandler(c: Config, s: State, r: Rid, q: Request): State {
    s.(rows := AcquireLease(s.rows, q, s.now, LeaseUntil(c, s.now), CacheUntil(c, s.now)),
       procs := s.procs[r := Process(q, Handling, PgLease(q.key, q.hash, LeaseUntil(c, s.now), false))],
       calls := s.calls + [r])
  }

  /** From the granted lease, through the re-check, into the handler. */
  lemma ReachHandler(c: Config, ls: seq<Label>, r: Rid, q: Request) returns (ls': seq<Label>)
    requires PgOnly(c) && q.hash != "" && LeaseFree(Run(c, ls).rows, q.key, Run(c, ls).now)
    requires r in Run(c, ls).procs && Run(c, ls).procs[r] == Process(q, LockPg, NoHandle)
    ensures Continues(ls, ls', r) && Run(c, ls') == InHandler(c, Run(c, ls), r, q)
  {
    hide Run;
    var s, h := Run(c, ls), PgLease(q.key, q.hash, LeaseUntil(c, Run(c, ls).now), false);
    RunExtend(c, ls, Step(r, Ok, ""));
    ls' := ls + [Step(r, Ok, "")];
    ls' := Move(c, ls', r, q, GetRedis(Recheck), h, Ok, GetPg(Recheck));
    ls' := Move(c, ls', r, q, GetPg(Recheck), h, Ok, CallHandler);
    RunExtend(c, ls', Step(r, Ok, ""));
    ls' := ls' + [Step(r, Ok, "")];
    assert Run(c, ls').procs == s.procs[r := Process(q, Handling, h)];
  }

  /** A new request whose key is free runs the handler under a lease. */
  lemma Enter(c: Config, ls: seq<Label>, r: Rid, q: Request) returns (ls': seq<Label>)
    requires PgOnly(c) && q.hash != "" && r !in Run(c, ls).procs && LeaseFree(Run(c, ls).rows, q.key, Run(c, ls).now)
    ensures Continues(ls, ls', r) && Run(c, ls') == InHandler(c, Run(c, ls), r, q)
  {
    hide Run;
    var s := Run(c, ls);
    ls' := ReachLease(c, ls, r, q);
    ls' := ReachHandler(c, ls', r, q);
    assert s.procs[r := Process(q, LockPg, NoHandle)][r := Run(c, ls').procs[r]] == s.procs[r := Run(c, ls').procs[r]];
  }

  /** The handler answers and the request reaches its completion write. */
  lemma ReachWrite(c: Config, ls: seq<Label>, r: Rid, q: Request, h: Handle) returns (ls': seq<Label>)
    requires PgOnly(c) && r in Run(c, ls).procs && Run(c, ls).procs[r] == Process(q, Handling, h)
    ensures Continues(ls, ls', r)
    ensures var s, resp := Run(c, ls), Produce(c, Run(c, ls), r, q, "");
      Run(c, ls') == s.(made := s.made[r := resp], procs := s.procs[r := Process(q, PutPg(resp), h)])
  {
    hide Run;
    RunExtend(c, ls, Step(r, Ok, ""));
    ls' := ls + [Step(r, Ok, "")];
    RunExtend(c, ls', Step(r, Ok, ""));
    ls' := ls' + [Step(r, Ok, "")];
  }

  /** The completion write, with the given reply. */
  lemma Complete(c: Config, ls: seq<Label>, r: Rid, q: Request, resp: Response, h: Handle, reply: Reply)
    returns (ls': seq<Label>)
    requires PgOnly(c) && h.PgLease? && r in Run(c, ls).procs && Run(c, ls).procs[r] == Process(q, PutPg(resp), h)
    ensures ls' == ls + [Step(r, reply, "")]
    ensures var s, s' := Run(c, ls), Run(c, ls');
      && s'.rows == (if reply.Failed? then s.rows else CompleteLease(s.rows, q.key, h.token, resp))
      && s' == s.(rows := s'.rows, procs := s'.procs)
      && r in s'.procs && s'.procs == s.procs[r := s'.procs[r]] && s'.procs[r].req == q
      && s'.procs[r].pc == Unlock(Ran(resp)) && (reply.Failed? ==> s'.procs[r].handle == h)
  {
    hide Run;
    RunExtend(c, ls, Step(r, reply, ""));
    ls' := ls + [Step(r, reply, "")];
  }

  /** A new request whose key has a live response replays it. */
  lemma Replay(c: Config, ls: seq<Label>, r: Rid, q: Request, resp: Response) returns (ls': seq<Label>)
    requires PgOnly(c) && r !in Run(c, ls).procs && Matches(q, resp)
    requires SelectCompleted(Run(c, ls).rows, q.key, Run(c, ls).now) == Some(resp)
    ensures Continues(ls, ls', r) && WasReplayed(Run(c, ls'), r, resp, Run(c, ls).now)
    ensures Run(c, ls') == Run(c, ls).(procs := Run(c, ls').procs)
    ensures var procs, procs' := Run(c, ls).procs, Run(c, ls').procs;
      procs' == procs[r := procs'[r]] && procs'[r].req == q
  {
    hide Run;
    RunExtend(c, ls, Arrive(r, q));
    ls' := ls + [Arrive(r, q)];
    ls' := Move(c, ls', r, q, GetRedis(First), NoHandle, Ok, GetPg(First));
    ls' := Move(c, ls', r, q, GetPg(First), NoHandle, Ok, Done(Replayed(resp, Run(c, ls).now)));
  }

  lemma Initially(c: Config)
    ensures Run(c, []) == INIT
  {
  }

  /******* An outlived lease *******/

  lemma {:induction false} KeptBefore(c: Config, ls: seq<Label>, ls': seq<Label>, key: string)
    requires ls <= ls' && LeasesKeptAlong(c, ls', key)
    ensures LeasesKeptAlong(c, ls, key)
    decreases |ls'|
  {
    if |ls| == |ls'| {
      assert ls == ls';
    } else {
      KeptBefore(c, ls, ls'[..|ls'| - 1], key);
    }
  }

  /** After the first lease has lapsed, a second request is let into the handler beside the first. */
  lemma BothInHandler(c: Config, q1: Request, q2: Request) returns (ls: seq<Label>)
    requires PgOnly(c) && q1.key == q2.key && q1.hash == q2.hash && q1.hash != ""
    ensures !LeasesKeptAlong(c, ls, q1.key)
    ensures var s := Run(c, ls);
      && s.now >= 0 && s.calls == [1, 2] && s.procs.Keys == {1, 2}
      && s.procs[1].req == q1 && s.procs[1].pc == Handling
      && s.procs[1].handle.PgLease? && s.procs[1].handle.token == q1.hash
      && s.procs[2].req == q2
      && q2.key in s.rows && s.rows[q2.key].Leased?
      && s.rows[q2.key].(until := 0, expires := 0) == Leased(q2.verb, q2.path, q2.hash, q2.hash, 0, 0)
  {
    hide Run;
    Initially(c);
    ls := Enter(c, [], 1, q1);
    var until := LeaseUntil(c, 0);
    assert Run(c, ls).rows == map[q1.key := Leased(q1.verb, q1.path, q1.hash, q1.hash, until, CacheUntil(c, 0))];
    RunExtend(c, ls, Tick(until + 1));
    ls := ls + [Tick(until + 1)];
    assert HoldsLease(Run(c, ls), 1, q1.key);
    ls := Enter(c, ls, 2, q2);
    assert HoldsLease(Run(c, ls), 1, q1.key) && !LeasesKept(Run(c, ls), q1.key);
  }

  /**
   A run that outlives its lease breaks both guarantees: for any two requests with the same
   key and body, whatever their paths, there is a run in which a lease is outlived, the
   handler runs for both, and the second path is answered with what the handler made for
   the first.
   */
  lemma OutlivedLease(c: Config, q1: Request, q2: Request) returns (ls: seq<Label>)
    requires PgOnly(c) && q1.key == q2.key && q1.hash == q2.hash && q1.hash != ""
    ensures !LeasesKeptAlong(c, ls, q1.key)
    ensures var s := Run(c, ls); s.calls == [1, 2] && 2 in s.procs && s.procs[2].req == q2
    ensures exists resp, at :: CrossReplay(c, ls, q1, q2, 3, resp, at) && resp.payload.producer == 1
  {
    hide Run, Apply;
    ls := BothInHandler(c, q1, q2);
    var before := ls;
    var resp, h := Produce(c, Run(c, ls), 1, q1, ""), Run(c, ls).procs[1].handle;
    ls := ReachWrite(c, ls, 1, q1, h);
    ls := Complete(c, ls, 1, q1, resp, h, Ok);
    var stored := Response(q2.verb, q2.path, q2.hash, resp.payload, resp.expires);
    assert SelectCompleted(Run(c, ls).rows, q2.key, Run(c, ls).now) == Some(stored);
    var now := Run(c, ls).now;
    ls := Replay(c, ls, 3, q2, stored);
    assert CrossReplay(c, ls, q1, q2, 3, stored, now);
    if LeasesKeptAlong(c, ls, q1.key) {
      KeptBefore(c, before, ls, q1.key);
    }
  }

  /** Request `r`, which asks for `q2`, is answered with a response the handler made for `q1`. */
  ghost predicate CrossReplay(c: Config, ls: seq<Label>, q1: Request, q2: Request, r: Rid, resp: Response, at: int) {
    var s := Run(c, ls);
    && WasReplayed(s, r, resp, at) && s.procs[r].req == q2
    && resp.payload.producer in s.procs && s.procs[resp.payload.producer].req == q1
  }

  /**
   Exactly which requests can be answered with each other's responses: those that share the
   key and the body hash.  The verb and the path do not protect them.
   */
  lemma CrossReplayIff(c: Config, q1: Request, q2: Request)
    requires PgOnly(c) && q1.hash != ""
    ensures (exists ls, r, resp, at :: CrossReplay(c, ls, q1, q2, r, resp, at))
       <==> q1.key == q2.key && q1.hash == q2.hash
  {
    if q1.key == q2.key && q1.hash == q2.hash {
      var ls := OutlivedLease(c, q1, q2);
    }
    forall ls, r, resp, at | CrossReplay(c, ls, q1, q2, r, resp, at) ensures q1.key == q2.key && q1.hash == q2.hash {
      ReplayBinding(c, ls, r, resp, at);
    }
  }

  /******* A lost completion *******/

  predicate EndsAhead(p: Process) {
    p.handle.PgLease? ==> p.handle.until >= 0
  }

  lemma StepEndsAhead(c: Config, s: State, p: Process, reply: Reply)
    requires s.now >= 0 && EndsAhead(p)
    ensures EndsAhead(Process(p.req, p.pc, HandleAfter(c, s, p, reply)))
  {
  }

  lemma ApplyEndsAhead(c: Config, s: State, l: Label)
    requires s.now >= 0 && forall r :: r in s.procs ==> EndsAhead(s.procs[r])
    ensures forall r :: r in Apply(c, s, l).procs ==> EndsAhead(Apply(c, s, l).procs[r])
    ensures s.now <= Apply(c, s, l).now
  {
    if l.Step? && l.rid in s.procs {
      StepEndsAhead(c, s, s.procs[l.rid], l.reply);
    }
  }

  lemma {:induction false} AheadAlways(c: Config, ls: seq<Label>)
    requires ValidConfig(c)
    ensures forall r :: r in Run(c, ls).procs ==> EndsAhead(Run(c, ls).procs[r])
  {
    if ls != [] {
      BindingHolds(c, ls[..|ls| - 1]);
      AheadAlways(c, ls[..|ls| - 1]);
      ApplyEndsAhead(c, Run(c, ls[..|ls| - 1]), ls[|ls| - 1]);
    }
  }

  /** While the clock has not moved, every lease that was handed out is still running. */
  lemma {:induction false} LeasesKeptAtStart(c: Config, ls: seq<Label>, key: string)
    requires ValidConfig(c) && Run(c, ls).now == 0
    ensures LeasesKeptAlong(c, ls, key)
  {
    AheadAlways(c, ls);
    if ls != [] {
      var rest, l := ls[..|ls| - 1], ls[|ls| - 1];
      BindingHolds(c, rest);
      AheadAlways(c, rest);
      ApplyEndsAhead(c, Run(c, rest), l);
      LeasesKeptAtStart(c, rest, key);
    }
  }

  /** The only disturbance in `ls` is the lost completion write at position `k`. */
  ghost predicate OnlyLostWrite(c: Config, ls: seq<Label>, k: nat, r: Rid) {
    && k < |ls| && ls[k] == Step(r, Failed, "")
    && r in Run(c, ls[..k]).procs && Run(c, ls[..k]).procs[r].pc.PutPg?
    && forall i :: 0 <= i < |ls| && i != k ==> Calm(ls[i])
  }

  /**
   A completion write that is lost breaks at-most-once even when no lease is outlived: the
   release deletes the row, and the same request sent again runs the handler again.
   Nothing else goes wrong in this run.
   */
  lemma LostCompletion(c: Config, q: Request) returns (ls: seq<Label>, k: nat)
    requires PgOnly(c) && q.hash != ""
    ensures LeasesKeptAlong(c, ls, q.key) && OnlyLostWrite(c, ls, k, 1)
    ensures var s := Run(c, ls);
      s.calls == [1, 2] && 1 in s.procs && s.procs[1].req == q && 2 in s.procs && s.procs[2].req == q
  {
    hide Run;
    Initially(c);
    ls := Enter(c, [], 1, q);
    var resp, h := Produce(c, Run(c, ls), 1, q, ""), Run(c, ls).procs[1].handle;
    var lost := ReachWrite(c, ls, 1, q, h);
    k := |lost|;
    var after := Complete(c, lost, 1, q, resp, h, Failed);
    RunExtend(c, after, Step(1, Ok, ""));
    var freed := after + [Step(1, Ok, "")];
    assert q.key !in Run(c, freed).rows;
    ls := Enter(c, freed, 2, q);
    assert ls[..k] == lost;
    LeasesKeptAtStart(c, ls, q.key);
  }

  /******* When the handler can still run *******/

  predicate IsCompleted(s: State, key: string) {
    key in s.rows && s.rows[key].Completed?
  }

  /** The continuation `more` of `ls` calls the handler for `key`. */
  ghost predicate CallsAgain(c: Config, ls: seq<Label>, more: seq<Label>, key: string) {
    exists i: nat :: |Run(c, ls).calls| <= i < |Run(c, ls + more).calls| && CalledFor(Run(c, ls + more), i, key)
  }

  /** A step that calls the handler for `key` finds the caller's lease in the row. */
  lemma CallNeedsLease(c: Config, ls: seq<Label>, l: Label, key: string)
    requires PgOnly(c) && LeasesKeptAlong(c, ls, key) && l.Step? && l.rid in Run(c, ls).procs
    requires Run(c, ls).procs[l.rid].pc.CallHandler? && Run(c, ls).procs[l.rid].req.key == key
    ensures !IsCompleted(Run(c, ls), key)
  {
    NoRedisLocksHolds(c, ls);
    assert NoRedisLock(Run(c, ls).procs[l.rid]);
    StillLeasedHolds(c, ls, key, l.rid);
  }

  lemma CallsGrow(c: Config, s: State, l: Label)
    ensures var s' := Apply(c, s, l);
      s'.calls == s.calls ||
      (l.Step? && l.rid in s.procs && s.procs[l.rid].pc.CallHandler? && s'.calls == s.calls + [l.rid])
    ensures forall r :: r in s.procs ==> r in Apply(c, s, l).procs && Apply(c, s, l).procs[r].req == s.procs[r].req
  {
    hide PcAfter, HandleAfter, ResponsesAfter, LocksAfter, RowsAfter, Produce;
  }

  /** One more step after the row is completed makes no call for `key`. */
  lemma CompletedStep(c: Config, ls: seq<Label>, l: Label, key: string, i: nat)
    requires PgOnly(c) && IsCompleted(Run(c, ls), key) && LeasesKeptAlong(c, ls, key) && i < |Run(c, ls + [l]).calls|
    requires forall p :: p in Run(c, ls).calls ==> p in Run(c, ls).procs
    ensures CalledFor(Run(c, ls + [l]), i, key) ==> i < |Run(c, ls).calls| && CalledFor(Run(c, ls), i, key)
    ensures |Run(c, ls).calls| <= |Run(c, ls + [l]).calls|
  {
    hide Run, Apply, IsCompleted;
    RunExtend(c, ls, l);
    var s := Run(c, ls);
    CallsGrow(c, s, l);
    if i >= |s.calls| && s.procs[l.rid].req.key == key {
      CallNeedsLease(c, ls, l, key);
    } else if i < |s.calls| {
      assert s.calls[i] in s.calls;
    }
  }

  lemma NoCallsLost(c: Config, ls: seq<Label>, l: Label)
    ensures |Run(c, ls).calls| <= |Run(c, ls + [l]).calls|
  {
    RunExtend(c, ls, l);
    CallsGrow(c, Run(c, ls), l);
  }

  lemma {:induction false} CompletedStops(c: Config, ls: seq<Label>, more: seq<Label>, key: string)
    requires PgOnly(c) && IsCompleted(Run(c, ls), key) && LeasesKeptAlong(c, ls + more, key)
    ensures !CallsAgain(c, ls, more, key) && |Run(c, ls).calls| <= |Run(c, ls + more).calls|
  {
    hide Run, Apply, IsCompleted, CalledFor, LeasesKeptAlong;
    assert more == [] ==> ls + more == ls;
    if more != [] {
      var rest, l := more[..|more| - 1], more[|more| - 1];
      assert ls + more == ls + rest + [l];
      KeptBefore(c, ls + rest, ls + more, key);
      CompletedStops(c, ls, rest, key);
      NoCallsLost(c, ls + rest, l);
      CallersKnown(c, ls + rest);
      StaysCompleted(c, ls, rest, key);
      forall i: nat | |Run(c, ls).calls| <= i < |Run(c, ls + more).calls|
        ensures !CalledFor(Run(c, ls + more), i, key)
      {
        CompletedStep(c, ls + rest, l, key, i);
      }
    }
  }

  lemma StaysCompleted(c: Config, ls: seq<Label>, more: seq<Label>, key: string)
    requires PgOnly(c) && IsCompleted(Run(c, ls), key)
    ensures IsCompleted(Run(c, ls + more), key)
  {
    CompletedIsFinal(c, ls, more, key);
  }

  lemma Fresh(used: set<Rid>) returns (r: Rid)
    ensures forall x :: x in used ==> x < r
  {
    if used == {} {
      r := 0;
    } else {
      var x :| x in used;
      var bound := Fresh(used - {x});
      r := if x < bound then bound else x + 1;
      assert forall y :: y in used ==> y == x || y in used - {x};
    }
  }

  /** Nobody but `r` holds a lease of `key`, and `r`'s own has not lapsed. */
  ghost predicate OnlyHolder(s: State, r: Rid, key: string) {
    && (forall x :: HoldsLease(s, x, key) ==> x == r)
    && (r in s.procs && s.procs[r].handle.PgLease? ==> s.now <= s.procs[r].handle.until)
  }

  lemma StepKeepsOnlyHolder(c: Config, s: State, l: Label, r: Rid, key: string)
    requires OnlyHolder(s, r, key) && Calm(l) && !l.Tick? && l.rid == r
    ensures OnlyHolder(Apply(c, s, l), r, key)
  {
    var s' := Apply(c, s, l);
    assert forall x :: x != r ==> HoldsLease(s', x, key) == HoldsLease(s, x, key);
    if l.Step? && r in s.procs {
      AheadStep(c, s, s.procs[r], l.reply);
    }
  }

  lemma AheadStep(c: Config, s: State, p: Process, reply: Reply)
    requires p.handle.PgLease? ==> s.now <= p.handle.until
    ensures HandleAfter(c, s, p, reply).PgLease? ==> s.now <= HandleAfter(c, s, p, reply).until
  {
  }

  lemma {:induction false} SoloKeepsLeases(c: Config, ls: seq<Label>, ls': seq<Label>, r: Rid, key: string)
    requires Continues(ls, ls', r) && LeasesKeptAlong(c, ls, key) && OnlyHolder(Run(c, ls), r, key)
    ensures LeasesKeptAlong(c, ls', key) && OnlyHolder(Run(c, ls'), r, key)
    decreases |ls'|
  {
    hide Apply;
    if |ls| == |ls'| {
      assert ls == ls';
    } else {
      SoloKeepsLeases(c, ls, ls'[..|ls'| - 1], r, key);
      StepKeepsOnlyHolder(c, Run(c, ls'[..|ls'| - 1]), ls'[|ls'| - 1], r, key);
    }
  }

  /** Whoever holds the lease dies, and the lease lapses. */
  lemma FreeKey(c: Config, ls: seq<Label>, key: string) returns (ls': seq<Label>)
    requires PgOnly(c) && LeasesKeptAlong(c, ls, key) && !IsCompleted(Run(c, ls), key)
    ensures ls <= ls' && LeasesKeptAlong(c, ls', key) && LeaseFree(Run(c, ls').rows, key, Run(c, ls').now)
    ensures Run(c, ls').calls == Run(c, ls).calls && forall x :: !HoldsLease(Run(c, ls'), x, key)
  {
    ls' := ls;
    if h :| HoldsLease(Run(c, ls), h, key) {
      ls' := DropHolder(c, ls, h, key);
    }
    if key in Run(c, ls').rows {
      var now, until := Run(c, ls').now, Run(c, ls').rows[key].until;
      var d: nat := if now <= until then until - now + 1 else 0;
      var before := ls';
      RunExtend(c, before, Tick(d));
      ls' := before + [Tick(d)];
      assert ls'[..|ls'| - 1] == before;
      assert forall x :: HoldsLease(Run(c, ls'), x, key) ==> HoldsLease(Run(c, before), x, key);
    }
  }

  lemma DropHolder(c: Config, ls: seq<Label>, h: Rid, key: string) returns (ls': seq<Label>)
    requires PgOnly(c) && LeasesKeptAlong(c, ls, key) && HoldsLease(Run(c, ls), h, key)
    ensures ls <= ls' && LeasesKeptAlong(c, ls', key) && Run(c, ls').rows == Run(c, ls).rows
    ensures Run(c, ls').calls == Run(c, ls).calls && forall x :: !HoldsLease(Run(c, ls'), x, key)
  {
    hide Run;
    LeaseHolds(c, ls, key);
    RunExtend(c, ls, Crash(h));
    ls' := ls + [Crash(h)];
    assert forall x :: HoldsLease(Run(c, ls'), x, key) ==> x != h && HoldsLease(Run(c, ls), x, key);
    KeptNext(c, ls, Crash(h), key);
  }

  lemma KeptNext(c: Config, ls: seq<Label>, l: Label, key: string)
    requires LeasesKeptAlong(c, ls, key) && LeasesKept(Run(c, ls + [l]), key)
    ensures LeasesKeptAlong(c, ls + [l], key)
  {
    assert (ls + [l])[..|ls|] == ls;
  }

  /**
   At-most-once hinges on the row alone: while no lease is outlived, the handler can be
   called for a key from here on exactly when the key's row is not completed.
   */
  lemma CallableIff(c: Config, ls: seq<Label>, key: string)
    requires PgOnly(c) && LeasesKeptAlong(c, ls, key)
    ensures (exists more :: LeasesKeptAlong(c, ls + more, key) && CallsAgain(c, ls, more, key))
       <==> !IsCompleted(Run(c, ls), key)
  {
    if IsCompleted(Run(c, ls), key) {
      forall more | LeasesKeptAlong(c, ls + more, key) ensures !CallsAgain(c, ls, more, key) {
        CompletedStops(c, ls, more, key);
      }
    } else {
      var more := CallOnceMore(c, ls, key);
    }
  }

  lemma CallOnceMore(c: Config, ls: seq<Label>, key: string) returns (more: seq<Label>)
    requires PgOnly(c) && LeasesKeptAlong(c, ls, key) && !IsCompleted(Run(c, ls), key)
    ensures LeasesKeptAlong(c, ls + more, key) && CallsAgain(c, ls, more, key)
  {
    hide Run, Apply;
    var ls' := FreeKey(c, ls, key);
    var r := Fresh(Run(c, ls').procs.Keys);
    assert r !in Run(c, ls').procs.Keys;
    var end := Enter(c, ls', r, Request("POST", "/", key, "hash"));
    SoloKeepsLeases(c, ls', end, r, key);
    more := end[|ls|..];
    assert ls + more == end;
    assert CalledFor(Run(c, end), |Run(c, ls).calls|, key);
  }
}
