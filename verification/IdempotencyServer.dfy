/**
 The idempotency middleware as it runs: the two stores, updated by their commands, and the
 code that serves one request, between whose store commands any other request may act.
 */
module IdempotencyServer {
  import opened Options
  import opened IdempotencyModel
  import IdempotencyBinding
  import opened IdempotencyTimes

  /******* The stores *******/

  /** The token under which a lock is held at time `at`, if it is. */
  function Holder(locks: Locks, scope: string, at: int): Option<string> {
    if LockHeld(locks, scope, at) then Some(locks[scope].token) else None
  }

  /** Two tables agree on every key but `key`. */
  ghost predicate SameElsewhere<T>(m: map<string, T>, m': map<string, T>, key: string) {
    forall k :: k != key ==> (k in m <==> k in m') && (k in m ==> m'[k] == m[k])
  }

  /** Redis: cached responses and locks, each with the instant at which it lapses. */
  class Redis {
    var responses: Responses
    var locks: Locks

    constructor ()
      ensures responses == map[] && locks == map[]
    {
      responses, locks := map[], map[];
    }

    /** GET; an entry that has lapsed, or that is past the expiry it carries, is not returned. */
    method Get(key: string, now: int) returns (found: Option<Response>)
      ensures found == GetResponse(responses, key, now)
    {
      if key !in responses || now >= responses[key].until {
        return None;
      }
      var resp := responses[key].resp;
      if resp.expires == 0 || now < resp.expires {
        return Some(resp);
      }
      return None;
    }

    /** From now on a lookup of the key returns the response, until the TTL or the expiry has passed. */
    method Set(key: string, resp: Response, until: int)
      modifies this`responses
      ensures responses == SetResponse(old(responses), key, resp, until)
      ensures forall t ::
        GetResponse(responses, key, t) ==
          if t < until && (resp.expires == 0 || t < resp.expires) then Some(resp) else None
      ensures SameElsewhere(old(responses), responses, key)
    {
      responses := responses[key := Entry(resp, until)];
    }

    /**
     SET NX: succeeds exactly when nobody holds the lock.  A lock that was taken is held
     under the token until it lapses; otherwise its holder keeps it.
     */
    method TakeLock(scope: string, token: string, now: int, until: int) returns (taken: bool)
      modifies this`locks
      ensures taken <==> Holder(old(locks), scope, now).None?
      ensures locks == SetNX(old(locks), scope, token, now, until)
      ensures if taken
        then forall t :: Holder(locks, scope, t) == if t < until then Some(token) else None
        else locks == old(locks)
      ensures SameElsewhere(old(locks), locks, scope)
    {
      taken := scope !in locks || now >= locks[scope].until;
      if taken {
        locks := locks[scope := Lock(token, until)];
      }
    }

    /** The release script: frees the lock if it is still held under the token, and nobody else's. */
    method DropLock(scope: string, token: string, now: int)
      modifies this`locks
      ensures locks == CompareAndDelete(old(locks), scope, token, now)
      ensures Holder(locks, scope, now) != Some(token)
      ensures if Holder(old(locks), scope, now) == Some(token)
        then forall t :: Holder(locks, scope, t) == None
        else locks == old(locks)
      ensures SameElsewhere(old(locks), locks, scope)
    {
      if scope in locks && now < locks[scope].until && locks[scope].token == token {
        locks := locks - {scope};
      }
    }
  }

  /** Postgres: the table of idempotency keys. */
  class KeyTable {
    var rows: Rows

    constructor ()
      ensures rows == map[]
    {
      rows := map[];
    }

    method FindCompleted(key: string, now: int) returns (found: Option<Response>)
      ensures found == SelectCompleted(rows, key, now)
    {
      if key !in rows {
        return None;
      }
      match rows[key] {
        case Completed(verb, path, hash, payload, expires) =>
          return if expires > now then Some(Response(verb, path, hash, payload, expires)) else None;
        case Leased(_, _, _, _, _, _) =>
          return None;
      }
    }

    /**
     The lease insert with takeover; returns the token the statement returned, if any.  A
     granted lease shuts everybody else out up to and including the instant it ends, and a
     lease that is not granted changes nothing.
     */
    method Lease(q: Request, now: int, until: int, expires: int) returns (token: Option<string>)
      modifies this
      ensures token == if LeaseFree(old(rows), q.key, now) then Some(q.hash) else None
      ensures rows == AcquireLease(old(rows), q, now, until, expires)
      ensures token.Some? ==> LeaseMatches(rows, q.key, q.hash) && forall t :: LeaseFree(rows, q.key, t) <==> until < t
      ensures token.None? ==> rows == old(rows)
      ensures token.Some? ==> forall t :: SelectCompleted(rows, q.key, t) == None
      ensures SameElsewhere(old(rows), rows, q.key)
    {
      if q.key in rows && !(rows[q.key].Leased? && rows[q.key].until < now) {
        return None;
      }
      rows := rows[q.key := Leased(q.verb, q.path, q.hash, q.hash, until, expires)];
      return Some(q.hash);
    }

    /**
     The completing update; tells whether it changed a row.  The stored response carries the
     path, method and hash the lease wrote, not the completer's, and the key can never be
     leased again.
     */
    method Complete(key: string, token: string, resp: Response) returns (changed: bool)
      modifies this
      ensures changed == LeaseMatches(old(rows), key, token)
      ensures rows == CompleteLease(old(rows), key, token, resp)
      ensures changed ==> (forall t :: !LeaseFree(rows, key, t)) && forall t :: t < resp.expires ==>
        && SelectCompleted(rows, key, t).Some?
        && var stored, row := SelectCompleted(rows, key, t).value, old(rows)[key];
           stored == Response(row.verb, row.path, row.hash, resp.payload, resp.expires)
      ensures !changed ==> rows == old(rows)
      ensures SameElsewhere(old(rows), rows, key)
    {
      changed := key in rows && rows[key].Leased? && rows[key].token == token;
      if changed {
        var row := rows[key];
        rows := rows[key := Completed(row.verb, row.path, row.hash, resp.payload, resp.expires)];
      }
    }

    /** From now on a lookup of the key returns the response until it expires, and no lease has the key. */
    method Upsert(key: string, resp: Response)
      modifies this
      ensures rows == UpsertCompleted(old(rows), key, resp)
      ensures forall t :: SelectCompleted(rows, key, t) == if resp.expires > t then Some(resp) else None
      ensures forall t :: !LeaseFree(rows, key, t)
      ensures SameElsewhere(old(rows), rows, key)
    {
      rows := rows[key := Completed(resp.verb, resp.path, resp.hash, resp.payload, resp.expires)];
    }

    /** Afterwards no lease under the token is left; a completed row and other leases stay. */
    method Drop(key: string, token: string)
      modifies this
      ensures rows == DeleteLease(old(rows), key, token)
      ensures !LeaseMatches(rows, key, token)
      ensures if LeaseMatches(old(rows), key, token) then forall t :: LeaseFree(rows, key, t) else rows == old(rows)
      ensures SameElsewhere(old(rows), rows, key)
    {
      if key in rows && rows[key].Leased? && rows[key].token == token {
        rows := rows - {key};
      }
    }
  }

  /******* Runs seen from one request *******/

  function ProcOf(s: State, r: Rid): Option<Process> {
    if r in s.procs then Some(s.procs[r]) else None
  }

  /** None of the labels is a step of request `r`. */
  predicate Others(ls: seq<Label>, r: Rid) {
    forall i :: 0 <= i < |ls| ==> ls[i].Tick? || ls[i].rid != r
  }

  lemma OtherKeeps(c: Config, s: State, l: Label, r: Rid)
    requires l.Tick? || l.rid != r
    ensures ProcOf(Apply(c, s, l), r) == ProcOf(s, r) && s.now <= Apply(c, s, l).now
  {
  }

  /** Other requests cannot touch this request's progress. */
  lemma {:induction false} OthersKeep(c: Config, ls: seq<Label>, more: seq<Label>, r: Rid)
    requires Others(more, r)
    ensures ProcOf(Run(c, ls + more), r) == ProcOf(Run(c, ls), r)
    ensures Run(c, ls).now <= Run(c, ls + more).now
  {
    if more == [] {
      assert ls + more == ls;
    } else {
      var rest, l := more[..|more| - 1], more[|more| - 1];
      OthersKeep(c, ls, rest, r);
      assert ls + more == ls + rest + [l];
      RunExtend(c, ls + rest, l);
      OtherKeeps(c, Run(c, ls + rest), l, r);
    }
  }

  /** What the completing write does to the stores and to the request. */
  lemma CompletingStep(c: Config, s: State, r: Rid, q: Request, resp: Response, h: Handle, reply: Reply)
    requires r in s.procs && s.procs[r] == Process(q, PutPg(resp), h)
    ensures var s' := Apply(c, s, Step(r, reply, ""));
      && s'.now == s.now && s'.responses == s.responses && s'.locks == s.locks
      && s'.rows == (if !c.pg || reply.Failed? then s.rows
                     else if h.PgLease? then CompleteLease(s.rows, q.key, h.token, resp)
                     else UpsertCompleted(s.rows, q.key, resp))
      && r in s'.procs && s'.procs[r].req == q && s'.procs[r].pc == Unlock(Ran(resp))
      && s'.procs[r].handle == if h.PgLease? && c.pg && reply.Ok? && LeaseMatches(s.rows, q.key, h.token)
                               then h.(completed := true) else h
  {
  }

  /** How an attempt to lock ended. */
  datatype Acquired = Got(handle: Handle) | InUse | NoBackend

  /** A handle granted to `q` at time `now`: for its own target or key, and for the configured time. */
  predicate GrantedTo(c: Config, q: Request, h: Handle, now: int) {
    match h
    case RedisLock(scope, token, until) =>
      && scope == ScopeOf(q) && token == q.hash
      && until == now + Duration(c.lockTTL, 15_000_000_000)
    case PgLease(key, token, until, completed) =>
      && key == q.key && token == q.hash && !completed
      && until == now + Duration(c.requestTimeout, 60_000_000_000)
    case NoHandle => false
  }

  /** Nobody else can lock while the handle lasts. */
  ghost predicate ShutsOut(h: Handle, locks: Locks, rows: Rows) {
    match h
    case RedisLock(scope, token, until) =>
      forall t :: Holder(locks, scope, t) == if t < until then Some(token) else None
    case PgLease(key, _, until, _) => forall t :: LeaseFree(rows, key, t) <==> until < t
    case NoHandle => false
  }

  /** The handler's own answer is what its client gets; a panic ends the request. */
  predicate AnswersWith(outcome: Outcome, answer: Option<string>) {
    && (outcome.Ran? ==> answer.Some? && outcome.resp.payload.body == answer.value)
    && (outcome.Crashed? ==> answer.None?)
  }

  /******* The middleware *******/

  /**
   Replies, cancellations, panics and response bodies are chosen arbitrarily.  `trace` is
   the run of the whole system so far: every theorem about runs applies here.
   */
  class Middleware {
    const c: Config
    const redis: Redis
    const pg: KeyTable
    var now: int
    ghost var procs: map<Rid, Process>
    ghost var calls: seq<Rid>
    ghost var made: map<Rid, Response>
    ghost var trace: seq<Label>

    ghost function View(): State
      reads this, redis, pg
    {
      State(now, redis.responses, redis.locks, pg.rows, procs, calls, made)
    }

    /** The stores, the clock and all requests are where the run leads. */
    ghost predicate Valid()
      reads this, redis, pg
    {
      ValidConfig(c) && View() == Run(c, trace)
    }

    ghost predicate IsAt(r: Rid, q: Request, pc: PC, h: Handle)
      reads this
    {
      r in procs && procs[r] == Process(q, pc, h)
    }

    constructor (c: Config, redis: Redis, pg: KeyTable)
      requires ValidConfig(c) && redis.responses == map[] && redis.locks == map[] && pg.rows == map[]
      ensures Valid() && this.c == c && this.redis == redis && this.pg == pg && trace == []
    {
      this.c, this.redis, this.pg, now := c, redis, pg, 0;
      procs, calls, made, trace := map[], [], map[], [];
    }

    /**
     Time passes, at least until `wake`, and other requests act.  Callers rely only on the
     contract, which allows every sequence of such steps.
     */
    method Interfere(r: Rid, wake: int)
      requires Valid()
      modifies this, redis, pg
      ensures Valid() && wake <= now
      ensures exists ls :: Others(ls, r) && trace == old(trace) + ls
    {
      ghost var d := if now < wake then wake - now else 0;
      RunExtend(c, trace, Tick(d));
      assert Others([Tick(d)], r);
      now := if now < wake then wake else now;
      trace := trace + [Tick(d)];
    }

    method Yield(r: Rid, wake: int, ghost q: Request, ghost pc: PC, ghost h: Handle)
      requires Valid() && IsAt(r, q, pc, h)
      modifies this, redis, pg
      ensures Valid() && old(trace) <= trace && IsAt(r, q, pc, h) && old(now) <= now && wake <= now
    {
      ghost var before := trace;
      assert ProcOf(Run(c, before), r) == Some(Process(q, pc, h));
      Interfere(r, wake);
      ghost var ls :| Others(ls, r) && trace == before + ls;
      OthersKeep(c, before, ls, r);
      assert ProcOf(View(), r) == Some(Process(q, pc, h));
    }

    /** Records a step that did to the stores what the label says. */
    ghost method Log(before: State, l: Label)
      requires ValidConfig(c) && !l.Tick? && before == Run(c, trace)
      requires var s := Apply(c, before, l);
        now == s.now && redis.responses == s.responses && redis.locks == s.locks && pg.rows == s.rows
      modifies this`procs, this`calls, this`made, this`trace
      ensures Valid() && trace == old(trace) + [l] && View() == Apply(c, before, l)
    {
      RunExtend(c, trace, l);
      var s := Apply(c, before, l);
      procs, calls, made, trace := s.procs, s.calls, s.made, trace + [l];
    }

    /******* Lookup *******/

    method FetchRedis(r: Rid, q: Request, phase: Phase, ghost h: Handle) returns (found: Option<Response>)
      requires Valid() && IsAt(r, q, GetRedis(phase), h)
      modifies this`procs, this`calls, this`made, this`trace
      ensures Valid() && old(trace) <= trace
      ensures IsAt(r, q, if found.Some? then AfterHit(q, phase, found.value, now) else GetPg(phase), h)
    {
      hide Run;
      var reply: Reply := *;
      found := None;
      if c.redis && reply.Ok? {
        found := redis.Get(q.key, now);
      }
      Log(View(), Step(r, reply, ""));
    }

    method FetchPg(r: Rid, q: Request, phase: Phase, ghost h: Handle) returns (found: Option<Response>)
      requires Valid() && IsAt(r, q, GetPg(phase), h)
      modifies this`procs, this`calls, this`made, this`trace
      ensures Valid() && old(trace) <= trace
      ensures IsAt(r, q,
          if found.None? then AfterMiss(c, now, phase)
          else if c.redis then Warm(phase, found.value, now)
          else AfterHit(q, phase, found.value, now), h)
    {
      hide Run;
      var reply: Reply := *;
      found := None;
      if c.pg && reply.Ok? {
        found := pg.FindCompleted(q.key, now);
      }
      Log(View(), Step(r, reply, ""));
    }

    /** Copies a response from Postgres to Redis, under a fresh TTL. */
    method WarmRedis(r: Rid, q: Request, phase: Phase, found: Response, ghost at: int, ghost h: Handle)
      returns (reply: Reply)
      requires Valid() && c.redis && IsAt(r, q, Warm(phase, found, at), h)
      modifies this`procs, this`calls, this`made, this`trace, redis
      ensures Valid() && old(trace) <= trace && IsAt(r, q, AfterHit(q, phase, found, at), h)
      ensures !reply.Failed? ==> forall t :: t < now + c.responseTTL && t < found.expires ==>
        GetResponse(redis.responses, q.key, t) == Some(found)
    {
      hide SameElsewhere, Holder, Run;
      reply := *;
      ghost var before := View();
      if !reply.Failed? {
        redis.Set(q.key, found, CacheUntil(c, now));
      }
      Log(before, Step(r, reply, ""));
    }

    /** Redis first, then Postgres, warming Redis from what Postgres had. */
    method Lookup(r: Rid, q: Request, phase: Phase, ghost h: Handle) returns (found: Option<Response>, at: int)
      requires Valid() && IsAt(r, q, GetRedis(phase), h)
      modifies this, redis, pg
      ensures Valid() && old(trace) <= trace && old(now) <= now
      ensures IsAt(r, q, if found.Some? then AfterHit(q, phase, found.value, at) else AfterMiss(c, now, phase), h)
    {
      hide Run, Apply;
      Yield(r, now, q, GetRedis(phase), h);
      found := FetchRedis(r, q, phase, h);
      at := now;
      if found.Some? {
        return;
      }
      Yield(r, now, q, GetPg(phase), h);
      found := FetchPg(r, q, phase, h);
      at := now;
      if found.Some? && c.redis {
        Yield(r, now, q, Warm(phase, found.value, at), h);
        var _ := WarmRedis(r, q, phase, found.value, at, h);
      }
    }

    /******* Locking *******/

    method LockInRedis(r: Rid, q: Request) returns (got: Acquired)
      requires Valid() && IsAt(r, q, LockRedis, NoHandle)
      modifies this`procs, this`calls, this`made, this`trace, redis
      ensures Valid() && old(trace) <= trace
      ensures match got
        case Got(h) => IsAt(r, q, GetRedis(Recheck), h) && GrantedTo(c, q, h, now) && ShutsOut(h, redis.locks, pg.rows)
        case InUse => IsAt(r, q, StartWaiting(c, now), NoHandle)
        case NoBackend => IsAt(r, q, LockPg, NoHandle)
    {
      hide SameElsewhere, Run;
      var reply: Reply := *;
      ghost var before := View();
      got := NoBackend;
      if c.redis && !reply.Failed? {
        var taken := redis.TakeLock(Scope(q), q.hash, now, LockUntil(c, now));
        if reply.Ok? {
          got := if taken then Got(RedisLock(Scope(q), q.hash, LockUntil(c, now))) else InUse;
        }
      }
      Log(before, Step(r, reply, ""));
    }

    method LockInPg(r: Rid, q: Request) returns (got: Acquired)
      requires Valid() && IsAt(r, q, LockPg, NoHandle)
      modifies this`procs, this`calls, this`made, this`trace, pg
      ensures Valid() && old(trace) <= trace
      ensures match got
        case Got(h) => IsAt(r, q, GetRedis(Recheck), h) && GrantedTo(c, q, h, now) && ShutsOut(h, redis.locks, pg.rows)
        case InUse => IsAt(r, q, StartWaiting(c, now), NoHandle)
        case NoBackend => IsAt(r, q, Done(Unavailable), NoHandle)
    {
      hide SameElsewhere, Run;
      var reply: Reply := *;
      ghost var before := View();
      got := NoBackend;
      if c.pg && !reply.Failed? {
        var token := pg.Lease(q, now, LeaseUntil(c, now), CacheUntil(c, now));
        if reply.Ok? {
          got := if token.Some? && token.value != ""
                 then Got(PgLease(q.key, token.value, LeaseUntil(c, now), false))
                 else InUse;
        }
      }
      Log(before, Step(r, reply, ""));
    }

    /** Redis unless it cannot answer, then Postgres. */
    method TryAcquire(r: Rid, q: Request) returns (got: Acquired)
      requires Valid() && IsAt(r, q, LockRedis, NoHandle)
      modifies this, redis, pg
      ensures Valid() && old(trace) <= trace
      ensures match got
        case Got(h) => IsAt(r, q, GetRedis(Recheck), h) && GrantedTo(c, q, h, now) && ShutsOut(h, redis.locks, pg.rows)
        case InUse => IsAt(r, q, StartWaiting(c, now), NoHandle)
        case NoBackend => IsAt(r, q, Done(Unavailable), NoHandle)
    {
      hide Run, Apply;
      Yield(r, now, q, LockRedis, NoHandle);
      got := LockInRedis(r, q);
      if got.NoBackend? {
        Yield(r, now, q, LockPg, NoHandle);
        got := LockInPg(r, q);
      }
    }

    /** Gives up the lock, if it is still this request's; a completed lease is left alone. */
    method Release(r: Rid, q: Request, h: Handle, outcome: Outcome) returns (reply: Reply)
      requires Valid() && IsAt(r, q, Unlock(outcome), h)
      modifies this`procs, this`calls, this`made, this`trace, redis, pg
      ensures Valid() && old(trace) <= trace && IsAt(r, q, Done(outcome), h)
      ensures !reply.Failed? && c.redis && h.RedisLock? ==> Holder(redis.locks, h.scope, now) != Some(h.token)
      ensures !reply.Failed? && c.pg && h.PgLease? && !h.completed ==> !LeaseMatches(pg.rows, h.key, h.token)
    {
      hide SameElsewhere, Run;
      reply := *;
      ghost var before := View();
      if !reply.Failed? {
        match h {
          case RedisLock(scope, token, _) =>
            if c.redis {
              redis.DropLock(scope, token, now);
            }
          case PgLease(key, token, _, completed) =>
            if c.pg && !completed {
              pg.Drop(key, token);
            }
          case NoHandle =>
        }
      }
      Log(before, Step(r, reply, ""));
    }

    /******* Waiting *******/

    /** One look at the clock: time for another lookup, or time to give up. */
    ghost method Wake(r: Rid, q: Request, deadline: int, wake: int)
      requires Valid() && IsAt(r, q, Poll(deadline, wake), NoHandle) && wake <= now
      modifies this`procs, this`calls, this`made, this`trace
      ensures Valid() && old(trace) <= trace
      ensures IsAt(r, q, if now < deadline then GetRedis(Wait(deadline)) else Done(Busy), NoHandle)
    {
      hide Run;
      Log(View(), Step(r, Ok, ""));
    }

    ghost method GiveUp(r: Rid, q: Request, deadline: int, wake: int)
      requires Valid() && IsAt(r, q, Poll(deadline, wake), NoHandle)
      modifies this`procs, this`calls, this`made, this`trace
      ensures Valid() && old(trace) <= trace && IsAt(r, q, Done(Busy), NoHandle)
    {
      hide Run;
      Log(View(), Cancel(r));
    }

    /**
     Polls for a response until one appears, the wait timeout has passed or the request is
     cancelled; between two of its `rounds` lookups it rests for the poll interval.
     */
    method WaitForResponse(r: Rid, q: Request)
      returns (found: Option<Response>, at: int, cancelled: bool, ghost rounds: nat)
      requires Valid() && IsAt(r, q, StartWaiting(c, now), NoHandle)
      modifies this, redis, pg
      ensures Valid() && old(trace) <= trace
      ensures IsAt(r, q, Done(if found.Some? then Verdict(q, found.value, at) else Busy), NoHandle)
      ensures found.None? && !cancelled ==> now >= old(now) + Duration(c.waitTimeout, 8_000_000_000)
      ensures rounds > 0 ==> now >= old(now) + (rounds - 1) * Duration(c.pollEvery, 150_000_000)
    {
      hide Run, Apply;
      var deadline := now + OrDefault(c.waitTimeout, DEFAULT_WAIT_TIMEOUT);
      var wake := now;
      ghost var gap := Duration(c.pollEvery, 150_000_000);
      found, at, cancelled, rounds := None, now, false, 0;
      while now < deadline
        invariant Valid() && old(trace) <= trace && wake <= now && found.None? && !cancelled
        invariant IsAt(r, q, Poll(deadline, wake), NoHandle)
        invariant now >= old(now) + rounds * gap
        decreases deadline - now
      {
        cancelled := *;
        if cancelled {
          GiveUp(r, q, deadline, wake);
          return;
        }
        Wake(r, q, deadline, wake);
        rounds := rounds + 1;
        found, at := Lookup(r, q, Wait(deadline), NoHandle);
        if found.Some? {
          return;
        }
        wake := now + OrDefault(c.pollEvery, DEFAULT_POLL_EVERY);
        assert rounds * gap == (rounds - 1) * gap + gap;
        cancelled := *;
        if cancelled {
          GiveUp(r, q, deadline, wake);
          return;
        }
        Yield(r, wake, q, Poll(deadline, wake), NoHandle);
      }
      Wake(r, q, deadline, wake);
    }

    /******* Running the handler *******/

    /** Calls the handler, which answers with `answer`; None is a panic. */
    method CallNext(r: Rid, q: Request, answer: Option<string>, ghost h: Handle) returns (resp: Option<Response>)
      requires Valid() && IsAt(r, q, CallHandler, h)
      modifies this, redis, pg
      ensures Valid() && old(trace) <= trace
      ensures IsAt(r, q, if resp.Some? then PutRedis(resp.value) else Unlock(Crashed), h)
      ensures resp.Some? <==> answer.Some?
      ensures resp.Some? ==>
        && resp.value.verb == q.verb && resp.value.path == q.path && resp.value.hash == q.hash
        && resp.value.payload.body == answer.value && resp.value.expires == now + c.responseTTL
    {
      hide Run, ResponsesAfter, LocksAfter, RowsAfter;
      Begin(r, q, h);
      Yield(r, now, q, Handling, h);
      Return(r, q, h, answer);
      resp := None;
      if answer.Some? {
        resp := Some(Response(q.verb, q.path, q.hash, Payload(answer.value, r), now + c.responseTTL));
      }
    }

    ghost method Begin(r: Rid, q: Request, h: Handle)
      requires Valid() && IsAt(r, q, CallHandler, h)
      modifies this`procs, this`calls, this`made, this`trace
      ensures Valid() && trace == old(trace) + [Step(r, Ok, "")] && calls == old(calls) + [r] && IsAt(r, q, Handling, h)
    {
      hide Run;
      Log(View(), Step(r, Ok, ""));
    }

    ghost method Return(r: Rid, q: Request, h: Handle, body: Option<string>)
      requires Valid() && IsAt(r, q, Handling, h)
      modifies this`procs, this`calls, this`made, this`trace
      ensures Valid() && old(trace) <= trace && calls == old(calls)
      ensures IsAt(r, q,
          if body.Some?
          then PutRedis(Response(q.verb, q.path, q.hash, Payload(body.value, r), now + c.responseTTL))
          else Unlock(Crashed), h)
    {
      hide Run;
      if body.Some? {
        Log(View(), Step(r, Ok, body.value));
      } else {
        Log(View(), Panic(r));
      }
    }

    method StoreInRedis(r: Rid, q: Request, resp: Response, ghost h: Handle) returns (reply: Reply)
      requires Valid() && IsAt(r, q, PutRedis(resp), h)
      modifies this`procs, this`calls, this`made, this`trace, redis
      ensures Valid() && old(trace) <= trace && IsAt(r, q, PutPg(resp), h)
      ensures c.redis && !reply.Failed? ==> forall t :: t < now + c.responseTTL && t < resp.expires ==>
        GetResponse(redis.responses, q.key, t) == Some(resp)
    {
      hide SameElsewhere, Holder, Run, SetNX, CompareAndDelete;
      reply := *;
      ghost var before := View();
      if c.redis && !reply.Failed? {
        redis.Set(q.key, resp, CacheUntil(c, now));
      }
      Log(before, Step(r, reply, ""));
    }

    /** Completes the lease when the lock is one, otherwise writes the row outright. */
    method StoreInPg(r: Rid, q: Request, resp: Response, h: Handle) returns (h': Handle, reply: Reply)
      requires Valid() && IsAt(r, q, PutPg(resp), h)
      modifies this`procs, this`calls, this`made, this`trace, pg
      ensures Valid() && old(trace) <= trace && IsAt(r, q, Unlock(Ran(resp)), h')
      ensures c.pg && !reply.Failed? && (h.PgLease? ==> LeaseMatches(old(pg.rows), q.key, h.token)) ==>
        forall t :: t < resp.expires ==>
          && SelectCompleted(pg.rows, q.key, t).Some?
          && SelectCompleted(pg.rows, q.key, t).value.payload == resp.payload
      ensures h' == if h.PgLease? && c.pg && reply.Ok? && LeaseMatches(old(pg.rows), q.key, h.token)
                    then h.(completed := true) else h
    {
      hide Run, Apply, CompleteLease, UpsertCompleted, LeaseMatches;
      reply := *;
      ghost var before := View();
      CompletingStep(c, before, r, q, resp, h, reply);
      h' := h;
      if c.pg && !reply.Failed? {
        if h.PgLease? {
          var changed := pg.Complete(q.key, h.token, resp);
          if changed && reply.Ok? {
            h' := h.(completed := true);
          }
        } else {
          pg.Upsert(q.key, resp);
        }
      }
      Log(before, Step(r, reply, ""));
    }

    /** The handler under the lock, then both stores; every path ends before the release. */
    method RunHandler(r: Rid, q: Request, h: Handle, answer: Option<string>) returns (outcome: Outcome, h': Handle)
      requires Valid() && IsAt(r, q, CallHandler, h)
      modifies this, redis, pg
      ensures Valid() && old(trace) <= trace && IsAt(r, q, Unlock(outcome), h')
      ensures AnswersWith(outcome, answer) && (outcome.Ran? <==> answer.Some?)
    {
      hide Run, Apply;
      var resp := CallNext(r, q, answer, h);
      if resp.None? {
        return Crashed, h;
      }
      Yield(r, now, q, PutRedis(resp.value), h);
      var _ := StoreInRedis(r, q, resp.value, h);
      Yield(r, now, q, PutPg(resp.value), h);
      var stored;
      h', stored := StoreInPg(r, q, resp.value, h);
      outcome := Ran(resp.value);
    }

    /** Re-checks under the lock, runs the handler only on a miss, and always releases. */
    method ServeLocked(r: Rid, q: Request, h: Handle, answer: Option<string>)
      returns (outcome: Outcome, ghost h': Handle)
      requires Valid() && IsAt(r, q, GetRedis(Recheck), h)
      modifies this, redis, pg
      ensures Valid() && old(trace) <= trace && IsAt(r, q, Done(outcome), h') && AnswersWith(outcome, answer)
    {
      hide Run, Apply;
      var found: Option<Response>, handle := None, h;
      var at;
      found, at := Lookup(r, q, Recheck, h);
      if found.Some? {
        outcome := Verdict(q, found.value, at);
      } else {
        outcome, handle := RunHandler(r, q, h, answer);
      }
      h' := handle;
      Yield(r, now, q, Unlock(outcome), h');
      var _ := Release(r, q, handle, outcome);
    }

    ghost method Admit(r: Rid, q: Request)
      requires Valid() && r !in procs
      modifies this`procs, this`calls, this`made, this`trace
      ensures Valid() && trace == old(trace) + [Arrive(r, q)] && IsAt(r, q, GetRedis(First), NoHandle)
    {
      hide Run;
      Log(View(), Arrive(r, q));
    }

    /** A request that found no response: lock and serve, or wait for whoever holds the lock. */
    method ServeMissed(r: Rid, q: Request, answer: Option<string>) returns (outcome: Outcome, ghost h: Handle)
      requires Valid() && IsAt(r, q, LockRedis, NoHandle)
      modifies this, redis, pg
      ensures Valid() && old(trace) <= trace && IsAt(r, q, Done(outcome), h) && AnswersWith(outcome, answer)
    {
      hide Run, Apply;
      h := NoHandle;
      var got := TryAcquire(r, q);
      match got {
        case NoBackend =>
          outcome := Unavailable;
        case InUse =>
          var found, at, _, _ := WaitForResponse(r, q);
          outcome := if found.Some? then Verdict(q, found.value, at) else Busy;
        case Got(handle) =>
          outcome, h := ServeLocked(r, q, handle, answer);
      }
    }

    method Handle(r: Rid, q: Request, answer: Option<string>)
      returns (outcome: Outcome, ghost h: IdempotencyModel.Handle)
      requires Valid() && r !in procs
      modifies this, redis, pg
      ensures Valid() && old(trace) <= trace && IsAt(r, q, Done(outcome), h) && AnswersWith(outcome, answer)
    {
      hide Run, Apply;
      h := NoHandle;
      Admit(r, q);
      var found, at := Lookup(r, q, First, NoHandle);
      if found.Some? {
        return Verdict(q, found.value, at), NoHandle;
      }
      outcome, h := ServeMissed(r, q, answer);
    }

    /**
     What a client can rely on, whatever else runs and whatever fails: what its own handler
     answers (`answer`, None for a panic), or a response that a handler run made for the same
     key and body and that had not expired when it was read.
     */
    method Serve(r: Rid, q: Request, answer: Option<string>) returns (outcome: Outcome)
      requires Valid() && r !in procs
      modifies this, redis, pg
      ensures Valid() && old(trace) <= trace && r in procs && procs[r].req == q && procs[r].pc == Done(outcome)
      ensures AnswersWith(outcome, answer)
      ensures outcome.Ran? ==> r in made && outcome.resp == made[r] && Matches(q, outcome.resp)
      ensures outcome.Replayed? ==>
        var p := outcome.resp.payload.producer;
        && p in calls && p in made && made[p].payload == outcome.resp.payload
        && p in procs && procs[p].req.key == q.key && procs[p].req.hash == q.hash
        && outcome.at < made[p].expires
    {
      hide Run, Apply;
      ghost var h;
      outcome, h := Handle(r, q, answer);
      ServedSafely(c, trace, r, q, h, outcome);
    }
  }

  /** The theorems about responses, read at the end of a request. */
  lemma ServedSafely(c: Config, ls: seq<Label>, r: Rid, q: Request, h: Handle, outcome: Outcome)
    requires ValidConfig(c) && r in Run(c, ls).procs && Run(c, ls).procs[r] == Process(q, Done(outcome), h)
    ensures var s := Run(c, ls); outcome.Ran? ==> r in s.made && outcome.resp == s.made[r] && Matches(q, outcome.resp)
    ensures var s := Run(c, ls); outcome.Replayed? ==>
      var p := outcome.resp.payload.producer;
      && p in s.calls && p in s.made && s.made[p].payload == outcome.resp.payload
      && p in s.procs && s.procs[p].req.key == q.key && s.procs[p].req.hash == q.hash
      && outcome.at < s.made[p].expires
  {
    var s := Run(c, ls);
    IdempotencyBinding.BindingHolds(c, ls);
    assert IdempotencyBinding.ProcOk(s, r, None);
    if outcome.Ran? {
      assert IdempotencyBinding.MadeBy(c, s, r);
    } else if outcome.Replayed? {
      IdempotencyBinding.ReplayBinding(c, ls, r, outcome.resp, outcome.at);
      IdempotencyBinding.NoStaleReplay(c, ls, r, outcome.resp, outcome.at);
    }
  }
}
