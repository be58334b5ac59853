/**
 What every stored or replayed response is bound to, in every interleaving.

 `BindInv(c, s, None)` holds in every reachable state, whatever fails and however late a
 run is.  `BindInv(c, s, Some(key))` adds the verb and the path for `key`, and holds as
 long as no run for that key outlives its Postgres lease.
 */
module IdempotencyBinding {
  import opened Options
  import opened IdempotencyModel

  /******* The invariant *******/

  /** `r`, filed under `key`, is what the handler run named in it produced for that key. */
  predicate Backed(s: State, key: string, r: Response, strict: Option<string>) {
    var p := r.payload.producer;
    && p in s.made && p in s.procs
    && s.procs[p].req.key == key
    && s.made[p].payload == r.payload
    && s.made[p].expires == r.expires
    && s.made[p].hash == r.hash
    && (strict == Some(key) ==> s.made[p].verb == r.verb && s.made[p].path == r.path)
  }

  /** The response of run `p` carries that run's own request and expiry. */
  predicate MadeBy(c: Config, s: State, p: Rid)
    requires p in s.made
  {
    var m := s.made[p];
    && p in s.procs && p in s.calls
    && Matches(s.procs[p].req, m)
    && m.payload.producer == p
    && 0 < m.expires <= s.now + c.responseTTL
  }

  predicate RowBacked(s: State, key: string, row: Row, strict: Option<string>) {
    match row
    case Leased(_, _, hash, token, _, _) => token == hash
    case Completed(verb, path, hash, payload, expires) =>
      Backed(s, key, Response(verb, path, hash, payload, expires), strict)
  }

  predicate OutcomeBacked(s: State, r: Rid, o: Outcome, strict: Option<string>)
    requires r in s.procs
  {
    match o
    case Ran(resp) => r in s.made && resp == s.made[r]
    case Replayed(resp, at) =>
      && Backed(s, s.procs[r].req.key, resp, strict)
      && Matches(s.procs[r].req, resp)
      && at < resp.expires
    case _ => true
  }

  predicate HandleOk(q: Request, h: Handle) {
    match h
    case NoHandle => true
    case RedisLock(scope, token, _) => scope == Scope(q) && token == q.hash
    case PgLease(key, token, _, _) => key == q.key && token == q.hash
  }

  predicate AfterCall(pc: PC) {
    pc.Handling? || pc.PutRedis? || pc.PutPg? || pc.Unlock? || pc.Done?
  }

  predicate ProcOk(s: State, r: Rid, strict: Option<string>)
    requires r in s.procs
  {
    var p := s.procs[r];
    && HandleOk(p.req, p.handle)
    && (r in s.made ==> AfterCall(p.pc) && !p.pc.Handling?)
    && (r in s.calls ==> AfterCall(p.pc))
    && match p.pc
       case Warm(_, found, at) => Backed(s, p.req.key, found, strict) && at < found.expires
       case Handling => r in s.calls
       case PutRedis(resp) => r in s.made && resp == s.made[r]
       case PutPg(resp) => r in s.made && resp == s.made[r]
       case Unlock(o) => OutcomeBacked(s, r, o, strict)
       case Done(o) => OutcomeBacked(s, r, o, strict)
       case _ => true
  }

  predicate EntryBacked(s: State, key: string, e: Entry, strict: Option<string>) {
    Backed(s, key, e.resp, strict) && e.resp.expires <= e.until && e.resp.expires > 0
  }

  ghost predicate BindInv(c: Config, s: State, strict: Option<string>) {
    && s.now >= 0
    && (forall p :: p in s.calls ==> p in s.procs)
    && (forall p :: p in s.made ==> MadeBy(c, s, p))
    && (forall k :: k in s.responses ==> EntryBacked(s, k, s.responses[k], strict))
    && (forall k :: k in s.rows ==> RowBacked(s, k, s.rows[k], strict))
    && (forall r :: r in s.procs ==> ProcOk(s, r, strict))
  }

  /******* Steps only add to the history *******/

  ghost predicate Grows(s: State, s': State) {
    && s.now <= s'.now
    && (forall p :: p in s.procs ==> p in s'.procs && s'.procs[p].req == s.procs[p].req)
    && (forall p :: p in s.made ==> p in s'.made && s'.made[p] == s.made[p])
    && (forall p :: p in s.calls ==> p in s'.calls)
  }

  lemma BackedGrows(s: State, s': State, key: string, resp: Response, strict: Option<string>)
    requires Backed(s, key, resp, strict) && Grows(s, s')
    ensures Backed(s', key, resp, strict)
  {
  }

  lemma ProcOkGrows(s: State, s': State, p: Rid, strict: Option<string>)
    requires Grows(s, s') && p in s.procs && ProcOk(s, p, strict)
    requires s'.procs[p] == s.procs[p]
    requires p in s'.made ==> p in s.made
    requires p in s'.calls ==> p in s.calls
    ensures ProcOk(s', p, strict)
  {
    match s.procs[p].pc
    case Warm(_, found, _) => BackedGrows(s, s', s.procs[p].req.key, found, strict);
    case Unlock(o) =>
      if o.Replayed? { BackedGrows(s, s', s.procs[p].req.key, o.resp, strict); }
    case Done(o) =>
      if o.Replayed? { BackedGrows(s, s', s.procs[p].req.key, o.resp, strict); }
    case _ =>
  }

  lemma RowBackedGrows(s: State, s': State, k: string, row: Row, strict: Option<string>)
    requires Grows(s, s') && RowBacked(s, k, row, strict)
    ensures RowBacked(s', k, row, strict)
  {
    if row.Completed? {
      BackedGrows(s, s', k, Response(row.verb, row.path, row.hash, row.payload, row.expires), strict);
    }
  }

  /**
   What a step by `r` changes: its own process, the entry and the row of its key, and
   its own place in the history.
   */
  predicate OnlyBy(s: State, s': State, r: Rid)
    requires r in s.procs
  {
    var key := s.procs[r].req.key;
    && s'.now == s.now
    && r in s'.procs && s'.procs == s.procs[r := s'.procs[r]]
    && s'.procs[r].req == s.procs[r].req
    && (s'.made == s.made || (r in s'.made && r !in s.made && s'.made == s.made[r := s'.made[r]]))
    && (s'.calls == s.calls || s'.calls == s.calls + [r])
    && (s'.responses == s.responses || (key in s'.responses && s'.responses == s.responses[key := s'.responses[key]]))
    && (s'.rows == s.rows || s'.rows == s.rows - {key} || (key in s'.rows && s'.rows == s.rows[key := s'.rows[key]]))
  }

  lemma OnlyByGrows(s: State, s': State, r: Rid)
    requires r in s.procs && OnlyBy(s, s', r)
    ensures Grows(s, s')
  {
  }

  /** What the step wrote is backed. */
  predicate WritesBacked(c: Config, s: State, s': State, r: Rid, strict: Option<string>)
    requires r in s.procs
  {
    var key := s.procs[r].req.key;
    && (key in s'.responses && !(key in s.responses && s.responses[key] == s'.responses[key]) ==>
          EntryBacked(s', key, s'.responses[key], strict))
    && (key in s'.rows && !(key in s.rows && s.rows[key] == s'.rows[key]) ==>
          RowBacked(s', key, s'.rows[key], strict))
    && r in s'.procs && ProcOk(s', r, strict)
    && (r in s'.made && r !in s.made ==> MadeBy(c, s', r))
  }

  lemma EntriesKept(c: Config, s: State, s': State, r: Rid, strict: Option<string>)
    requires forall k :: k in s.responses ==> EntryBacked(s, k, s.responses[k], strict)
    requires r in s.procs && OnlyBy(s, s', r) && Grows(s, s') && WritesBacked(c, s, s', r, strict)
    ensures forall k :: k in s'.responses ==> EntryBacked(s', k, s'.responses[k], strict)
  {
    forall k | k in s'.responses ensures EntryBacked(s', k, s'.responses[k], strict) {
      if k in s.responses && s'.responses[k] == s.responses[k] {
        BackedGrows(s, s', k, s.responses[k].resp, strict);
      }
    }
  }

  lemma RowsKept(c: Config, s: State, s': State, r: Rid, strict: Option<string>)
    requires forall k :: k in s.rows ==> RowBacked(s, k, s.rows[k], strict)
    requires r in s.procs && OnlyBy(s, s', r) && Grows(s, s') && WritesBacked(c, s, s', r, strict)
    ensures forall k :: k in s'.rows ==> RowBacked(s', k, s'.rows[k], strict)
  {
    forall k | k in s'.rows ensures RowBacked(s', k, s'.rows[k], strict) {
      if k in s.rows && s'.rows[k] == s.rows[k] {
        RowBackedGrows(s, s', k, s.rows[k], strict);
      }
    }
  }

  /**
   A step by `r` keeps the invariant when what it wrote is backed: every other request,
   row and entry is untouched, and what backs them is still there.
   */
  lemma KeepsBinding(c: Config, s: State, s': State, r: Rid, strict: Option<string>)
    requires BindInv(c, s, strict) && r in s.procs && OnlyBy(s, s', r)
    requires WritesBacked(c, s, s', r, strict)
    ensures BindInv(c, s', strict)
  {
    OnlyByGrows(s, s', r);
    EntriesKept(c, s, s', r, strict);
    RowsKept(c, s, s', r, strict);
    forall p | p in s'.procs ensures ProcOk(s', p, strict) {
      if p != r { ProcOkGrows(s, s', p, strict); }
    }
    forall p | p in s'.made ensures MadeBy(c, s', p) {
      if p in s.made { assert MadeBy(c, s, p); }
    }
  }

  /** A lease can only be completed by a run that asked for the same thing, if leases are kept. */
  predicate LeaseOwn(s: State, r: Rid)
    requires r in s.procs
  {
    var p := s.procs[r];
    p.pc.PutPg? && p.handle.PgLease? && LeaseMatches(s.rows, p.req.key, p.handle.token) ==>
      s.rows[p.req.key].verb == p.req.verb && s.rows[p.req.key].path == p.req.path
  }

  /** The part of the invariant that one step of `r` can touch. */
  predicate Local(c: Config, s: State, r: Rid, strict: Option<string>)
    requires r in s.procs
  {
    var p := s.procs[r];
    && s.now >= 0
    && ProcOk(s, r, strict)
    && (r in s.made ==> MadeBy(c, s, r))
    && (p.req.key in s.responses ==> EntryBacked(s, p.req.key, s.responses[p.req.key], strict))
    && (p.req.key in s.rows ==> RowBacked(s, p.req.key, s.rows[p.req.key], strict))
    && (p.pc.Warm? ==> p.pc.found.payload.producer in s.made && MadeBy(c, s, p.pc.found.payload.producer))
    && (strict == Some(p.req.key) ==> LeaseOwn(s, r))
  }

  lemma AdvanceOnlyBy(c: Config, s: State, r: Rid, reply: Reply, body: string)
    requires r in s.procs && HandleOk(s.procs[r].req, s.procs[r].handle)
    requires s.procs[r].pc.Handling? ==> r !in s.made
    ensures OnlyBy(s, Advance(c, s, r, reply, body), r)
  {
  }

  /** The entry that a step writes is backed. */
  lemma EntryWritten(c: Config, s: State, r: Rid, reply: Reply, body: string, strict: Option<string>)
    requires ValidConfig(c) && r in s.procs && Local(c, s, r, strict)
    ensures var s' := Advance(c, s, r, reply, body);
      s.procs[r].pc.Warm? || s.procs[r].pc.PutRedis? ==>
        s'.responses == s.responses || EntryBacked(s', s.procs[r].req.key, s'.responses[s.procs[r].req.key], strict)
  {
  }

  /** The row that a step writes is backed. */
  lemma RowWritten(c: Config, s: State, r: Rid, reply: Reply, body: string, strict: Option<string>)
    requires r in s.procs && Local(c, s, r, strict)
    ensures var s' := Advance(c, s, r, reply, body);
      var key := s.procs[r].req.key;
      key in s'.rows ==> (key in s.rows && s'.rows[key] == s.rows[key]) || RowBacked(s', key, s'.rows[key], strict)
  {
  }

  lemma LookupWritten(c: Config, s: State, r: Rid, reply: Reply, body: string, strict: Option<string>)
    requires r in s.procs && Local(c, s, r, strict)
    requires s.procs[r].pc.GetRedis? || s.procs[r].pc.GetPg? || s.procs[r].pc.Warm?
    ensures ProcOk(Advance(c, s, r, reply, body), r, strict)
  {
  }

  lemma ProcWritten(c: Config, s: State, r: Rid, reply: Reply, body: string, strict: Option<string>)
    requires r in s.procs && Local(c, s, r, strict)
    requires Grows(s, Advance(c, s, r, reply, body))
    ensures ProcOk(Advance(c, s, r, reply, body), r, strict)
  {
    hide LockHeld, LeaseFree, GetResponse, SelectCompleted;
    var s' := Advance(c, s, r, reply, body);
    match s.procs[r].pc
    case GetRedis(_) => LookupWritten(c, s, r, reply, body, strict);
    case GetPg(_) => LookupWritten(c, s, r, reply, body, strict);
    case Warm(_, _, _) => LookupWritten(c, s, r, reply, body, strict);
    case Unlock(o) =>
      if o.Replayed? { BackedGrows(s, s', s.procs[r].req.key, o.resp, strict); }
    case Done(o) =>
      if o.Replayed? { BackedGrows(s, s', s.procs[r].req.key, o.resp, strict); }
    case _ =>
  }

  lemma AdvanceWritesBacked(c: Config, s: State, r: Rid, reply: Reply, body: string, strict: Option<string>)
    requires ValidConfig(c) && r in s.procs && Local(c, s, r, strict)
    requires Grows(s, Advance(c, s, r, reply, body))
    ensures WritesBacked(c, s, Advance(c, s, r, reply, body), r, strict)
  {
    EntryWritten(c, s, r, reply, body, strict);
    RowWritten(c, s, r, reply, body, strict);
    ProcWritten(c, s, r, reply, body, strict);
  }

  lemma AdvanceKeepsBinding(c: Config, s: State, r: Rid, reply: Reply, body: string, strict: Option<string>)
    requires ValidConfig(c) && BindInv(c, s, strict) && r in s.procs
    requires strict == Some(s.procs[r].req.key) ==> LeaseOwn(s, r)
    ensures BindInv(c, Advance(c, s, r, reply, body), strict)
  {
    assert Local(c, s, r, strict) by {
      assert ProcOk(s, r, strict);
    }
    AdvanceOnlyBy(c, s, r, reply, body);
    OnlyByGrows(s, Advance(c, s, r, reply, body), r);
    AdvanceWritesBacked(c, s, r, reply, body, strict);
    KeepsBinding(c, s, Advance(c, s, r, reply, body), r, strict);
  }

  lemma ApplyKeepsBinding(c: Config, s: State, l: Label, strict: Option<string>)
    requires ValidConfig(c) && BindInv(c, s, strict)
    requires l.Step? && l.rid in s.procs && strict == Some(s.procs[l.rid].req.key) ==> LeaseOwn(s, l.rid)
    ensures BindInv(c, Apply(c, s, l), strict)
  {
    match l
    case Tick(d) => TickKeepsBinding(c, s, d, strict);
    case Step(r, reply, body) =>
      if r in s.procs { AdvanceKeepsBinding(c, s, r, reply, body, strict); }
    case Arrive(r, q) => ArriveKeepsBinding(c, s, r, q, strict);
    case _ => AbortKeepsBinding(c, s, l, strict);
  }

  lemma TickKeepsBinding(c: Config, s: State, d: nat, strict: Option<string>)
    requires BindInv(c, s, strict)
    ensures BindInv(c, s.(now := s.now + d), strict)
  {
    var s' := s.(now := s.now + d);
    forall p | p in s.procs ensures ProcOk(s', p, strict) { ProcOkGrows(s, s', p, strict); }
    forall k | k in s.rows ensures RowBacked(s', k, s.rows[k], strict) { RowBackedGrows(s, s', k, s.rows[k], strict); }
    forall p | p in s.made ensures MadeBy(c, s', p) { assert MadeBy(c, s, p); }
  }

  lemma ArriveKeepsBinding(c: Config, s: State, r: Rid, q: Request, strict: Option<string>)
    requires BindInv(c, s, strict)
    ensures BindInv(c, Apply(c, s, Arrive(r, q)), strict)
  {
    if r !in s.procs {
      var s' := Apply(c, s, Arrive(r, q));
      forall p | p in s.procs ensures ProcOk(s', p, strict) { ProcOkGrows(s, s', p, strict); }
      forall k | k in s.rows ensures RowBacked(s', k, s.rows[k], strict) {
        RowBackedGrows(s, s', k, s.rows[k], strict);
      }
    }
  }

  lemma AbortKeepsBinding(c: Config, s: State, l: Label, strict: Option<string>)
    requires BindInv(c, s, strict)
    requires l.Cancel? || l.Panic? || l.Crash?
    ensures BindInv(c, Apply(c, s, l), strict)
  {
    if l.rid in s.procs {
      var s' := Abort(s, l.rid, l);
      assert ProcOk(s, l.rid, strict);
      OnlyByGrows(s, s', l.rid);
      AbortedOk(s, l, strict);
      KeepsBinding(c, s, s', l.rid, strict);
    }
  }

  lemma AbortedOk(s: State, l: Label, strict: Option<string>)
    requires l.Cancel? || l.Panic? || l.Crash?
    requires l.rid in s.procs && ProcOk(s, l.rid, strict) && Grows(s, Abort(s, l.rid, l))
    ensures ProcOk(Abort(s, l.rid, l), l.rid, strict)
  {
    var s' := Abort(s, l.rid, l);
    if s'.procs[l.rid].pc == s.procs[l.rid].pc {
      ProcOkGrows(s, s', l.rid, strict);
    }
  }

  /******* Theorems over every run *******/

  lemma {:induction false} BindingHolds(c: Config, ls: seq<Label>)
    requires ValidConfig(c)
    ensures BindInv(c, Run(c, ls), None)
  {
    if ls != [] {
      BindingHolds(c, ls[..|ls| - 1]);
      ApplyKeepsBinding(c, Run(c, ls[..|ls| - 1]), ls[|ls| - 1], None);
    }
  }

  /** What request `r` has been answered, if anything. */
  function Answer(s: State, r: Rid): Option<Outcome> {
    if r in s.procs && (s.procs[r].pc.Unlock? || s.procs[r].pc.Done?) then Some(s.procs[r].pc.outcome) else None
  }

  /** Request `r` was answered from a store, with `resp`, read at time `at`. */
  predicate WasReplayed(s: State, r: Rid, resp: Response, at: int) {
    Answer(s, r) == Some(Replayed(resp, at))
  }

  /**
   In every interleaving, with any failures and any expired locks and leases, a replayed
   response is the one some handler run made for the same key and the same body hash.
   */
  lemma ReplayBinding(c: Config, ls: seq<Label>, r: Rid, resp: Response, at: int)
    requires ValidConfig(c) && WasReplayed(Run(c, ls), r, resp, at)
    ensures var s := Run(c, ls);
      var p := resp.payload.producer;
      && p in s.calls && p in s.made && p in s.procs
      && s.made[p].payload == resp.payload
      && s.procs[p].req.key == s.procs[r].req.key
      && s.procs[p].req.hash == s.procs[r].req.hash
  {
    var s := Run(c, ls);
    BindingHolds(c, ls);
    assert ProcOk(s, r, None);
    assert MadeBy(c, s, resp.payload.producer);
  }

  /**
   No response is read for a replay at or after the expiry its handler run gave it, even
   though warming Redis from Postgres starts a fresh Redis TTL.
   */
  lemma NoStaleReplay(c: Config, ls: seq<Label>, r: Rid, resp: Response, at: int)
    requires ValidConfig(c) && WasReplayed(Run(c, ls), r, resp, at)
    ensures var s := Run(c, ls);
      resp.payload.producer in s.made && at < s.made[resp.payload.producer].expires
  {
    BindingHolds(c, ls);
    assert ProcOk(Run(c, ls), r, None);
  }

  /** In every reachable state, what either store would return for a key is not past its original expiry. */
  lemma LookupsAreFresh(c: Config, ls: seq<Label>, key: string, resp: Response)
    requires ValidConfig(c)
    requires var s := Run(c, ls);
      GetResponse(s.responses, key, s.now) == Some(resp) || SelectCompleted(s.rows, key, s.now) == Some(resp)
    ensures var s := Run(c, ls);
      resp.payload.producer in s.made && s.now < s.made[resp.payload.producer].expires
  {
    var s := Run(c, ls);
    BindingHolds(c, ls);
    assert key in s.responses ==> EntryBacked(s, key, s.responses[key], None);
    assert key in s.rows ==> RowBacked(s, key, s.rows[key], None);
  }
}
