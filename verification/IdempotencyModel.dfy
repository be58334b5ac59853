/**
 The idempotency middleware as a transition system.

 Every Redis command and every SQL statement is one atomic step.  Any number of
 requests interleave at those steps, a step may fail, and a step may also take
 effect although its reply is lost.  A run of the system is a sequence of labels,
 so a statement about all label sequences is a statement about all interleavings.
 */
module IdempotencyModel {

  import opened Options

  /** Identifies one HTTP request. */
  type Rid = nat

  /******* Configuration *******/

  /** `redis` and `pg` say whether a client is configured; durations are in clock ticks. */
  datatype Config = Config(
    redis: bool,
    pg: bool,
    responseTTL: int,
    lockTTL: int,
    requestTimeout: int,
    waitTimeout: int,
    pollEvery: int)

  const MILLISECOND := 1_000_000
  const SECOND := 1000 * MILLISECOND
  const DEFAULT_RESPONSE_TTL := 24 * 3600 * SECOND
  const DEFAULT_LOCK_TTL := 15 * SECOND
  const DEFAULT_REQUEST_TIMEOUT := 60 * SECOND
  const DEFAULT_WAIT_TIMEOUT := 8 * SECOND
  const DEFAULT_POLL_EVERY := 150 * MILLISECOND

  function OrDefault(d: int, default: int): int {
    if d <= 0 then default else d
  }

  /** The constructor installs a positive response TTL and nothing changes it later. */
  predicate ValidConfig(c: Config) {
    c.responseTTL > 0
  }

  /******* Stored data *******/

  datatype Request = Request(verb: string, path: string, key: string, hash: string)

  /**
   A response body.  `producer` names the request whose handler run produced it.  No step
   reads `producer`; it is there so that provenance can be stated.
   */
  datatype Payload = Payload(body: string, producer: Rid)

  datatype Response = Response(verb: string, path: string, hash: string, payload: Payload, expires: int)

  /** A Redis value together with the instant at which Redis drops it. */
  datatype Entry = Entry(resp: Response, until: int)
  datatype Lock = Lock(token: string, until: int)

  /** A row of the idempotency table, in one of its two statuses. */
  datatype Row =
    | Leased(verb: string, path: string, hash: string, token: string, until: int, expires: int)
    | Completed(verb: string, path: string, hash: string, payload: Payload, expires: int)

  type Responses = map<string, Entry>
  type Locks = map<string, Lock>
  type Rows = map<string, Row>

  function Scope(q: Request): string {
    q.verb + ":" + q.path + ":" + q.key
  }

  /******* Store statements *******/

  /** GET of a cached response, with the middleware's own expiry test. */
  function GetResponse(responses: Responses, key: string, now: int): Option<Response> {
    if key in responses && now < responses[key].until
       && (responses[key].resp.expires == 0 || now < responses[key].resp.expires)
    then Some(responses[key].resp)
    else None
  }

  function SetResponse(responses: Responses, key: string, resp: Response, until: int): Responses {
    responses[key := Entry(resp, until)]
  }

  predicate LockHeld(locks: Locks, scope: string, now: int) {
    scope in locks && now < locks[scope].until
  }

  /** SET NX with a TTL. */
  function SetNX(locks: Locks, scope: string, token: string, now: int, until: int): Locks {
    if LockHeld(locks, scope, now) then locks else locks[scope := Lock(token, until)]
  }

  /** Deletes the lock when its value is still `token`. */
  function CompareAndDelete(locks: Locks, scope: string, token: string, now: int): Locks {
    if LockHeld(locks, scope, now) && locks[scope].token == token then locks - {scope} else locks
  }

  /** SELECT of a completed row that has not expired. */
  function SelectCompleted(rows: Rows, key: string, now: int): Option<Response> {
    if key in rows && rows[key].Completed? && rows[key].expires > now then
      var row := rows[key];
      Some(Response(row.verb, row.path, row.hash, row.payload, row.expires))
    else
      None
  }

  /** The lease insert applies to a free key or takes over an expired lease. */
  predicate LeaseFree(rows: Rows, key: string, now: int) {
    key in rows ==> rows[key].Leased? && rows[key].until < now
  }

  function AcquireLease(rows: Rows, q: Request, now: int, until: int, expires: int): Rows {
    if LeaseFree(rows, q.key, now)
    then rows[q.key := Leased(q.verb, q.path, q.hash, q.hash, until, expires)]
    else rows
  }

  predicate LeaseMatches(rows: Rows, key: string, token: string) {
    key in rows && rows[key].Leased? && rows[key].token == token
  }

  /** Completes the lease; path, method and hash stay what the lease wrote. */
  function CompleteLease(rows: Rows, key: string, token: string, resp: Response): Rows {
    if LeaseMatches(rows, key, token) then
      var row := rows[key];
      rows[key := Completed(row.verb, row.path, row.hash, resp.payload, resp.expires)]
    else
      rows
  }

  function UpsertCompleted(rows: Rows, key: string, resp: Response): Rows {
    rows[key := Completed(resp.verb, resp.path, resp.hash, resp.payload, resp.expires)]
  }

  function DeleteLease(rows: Rows, key: string, token: string): Rows {
    if LeaseMatches(rows, key, token) then rows - {key} else rows
  }

  /******* Requests in progress *******/

  /** Which of the three lookups of the middleware is under way. */
  datatype Phase = First | Recheck | Wait(deadline: int)

  datatype Outcome =
    | Ran(resp: Response)                  // the handler's own response
    | Replayed(resp: Response, at: int)    // a stored response, read from a store at time `at`
    | Mismatch                             // key reused with a different request
    | Busy                                 // same key already in progress
    | Unavailable                          // no lock backend answered
    | Crashed                              // the process died; nothing was sent

  datatype PC =
    | GetRedis(phase: Phase)
    | GetPg(phase: Phase)
    | Warm(phase: Phase, found: Response, at: int)
    | LockRedis
    | LockPg
    | Poll(deadline: int, wake: int)
    | CallHandler
    | Handling
    | PutRedis(made: Response)
    | PutPg(made: Response)
    | Unlock(outcome: Outcome)
    | Done(outcome: Outcome)

  /** `until` is when the lock or lease lapses; the middleware itself does not keep it. */
  datatype Handle =
    | NoHandle
    | RedisLock(scope: string, token: string, until: int)
    | PgLease(key: string, token: string, until: int, completed: bool)

  datatype Process = Process(req: Request, pc: PC, handle: Handle)

  /** `calls` lists the handler invocations in order; `made` the responses they produced. */
  datatype State = State(
    now: int,
    responses: Responses,
    locks: Locks,
    rows: Rows,
    procs: map<Rid, Process>,
    calls: seq<Rid>,
    made: map<Rid, Response>)

  const INIT := State(0, map[], map[], map[], map[], [], map[])

  /******* Steps *******/

  /** Failed: not applied.  Unacked: applied, but the caller sees an error. */
  datatype Reply = Ok | Failed | Unacked

  datatype Label =
    | Tick(d: nat)
    | Arrive(rid: Rid, req: Request)
    | Step(rid: Rid, reply: Reply, body: string)
    | Cancel(rid: Rid)
    | Panic(rid: Rid)
    | Crash(rid: Rid)

  predicate Matches(q: Request, r: Response) {
    r.verb == q.verb && r.path == q.path && r.hash == q.hash
  }

  function Verdict(q: Request, r: Response, at: int): Outcome {
    if Matches(q, r) then Replayed(r, at) else Mismatch
  }

  /** Where a lookup that found `r` leads. */
  function AfterHit(q: Request, phase: Phase, r: Response, at: int): PC {
    if phase.Recheck? then Unlock(Verdict(q, r, at)) else Done(Verdict(q, r, at))
  }

  /** Where a lookup that found nothing leads. */
  function AfterMiss(c: Config, now: int, phase: Phase): PC {
    match phase
    case First => LockRedis
    case Recheck => CallHandler
    case Wait(deadline) => Poll(deadline, now + OrDefault(c.pollEvery, DEFAULT_POLL_EVERY))
  }

  function StartWaiting(c: Config, now: int): PC {
    Poll(now + OrDefault(c.waitTimeout, DEFAULT_WAIT_TIMEOUT), now)
  }

  function CacheUntil(c: Config, now: int): int {
    now + OrDefault(c.responseTTL, DEFAULT_RESPONSE_TTL)
  }

  function LockUntil(c: Config, now: int): int {
    now + OrDefault(c.lockTTL, DEFAULT_LOCK_TTL)
  }

  function LeaseUntil(c: Config, now: int): int {
    now + OrDefault(c.requestTimeout, DEFAULT_REQUEST_TIMEOUT)
  }

  /** The request took the Redis lock and saw that it did. */
  predicate LockGranted(c: Config, s: State, q: Request, reply: Reply) {
    c.redis && reply.Ok? && !LockHeld(s.locks, Scope(q), s.now)
  }

  /** The request took the Postgres lease and saw its token come back. */
  predicate LeaseGranted(c: Config, s: State, q: Request, reply: Reply) {
    c.pg && reply.Ok? && LeaseFree(s.rows, q.key, s.now) && q.hash != ""
  }

  /** Which line of the middleware the request is at after its next step. */
  function PcAfter(c: Config, s: State, p: Process, reply: Reply, made: Response): PC {
    match p.pc
    case GetRedis(phase) =>
      var found := GetResponse(s.responses, p.req.key, s.now);
      if c.redis && reply.Ok? && found.Some? then AfterHit(p.req, phase, found.value, s.now) else GetPg(phase)
    case GetPg(phase) =>
      var found := SelectCompleted(s.rows, p.req.key, s.now);
      if !(c.pg && reply.Ok? && found.Some?) then AfterMiss(c, s.now, phase)
      else if c.redis then Warm(phase, found.value, s.now)
      else AfterHit(p.req, phase, found.value, s.now)
    case Warm(phase, found, at) => AfterHit(p.req, phase, found, at)
    case LockRedis =>
      if LockGranted(c, s, p.req, reply) then GetRedis(Recheck)
      else if c.redis && reply.Ok? then StartWaiting(c, s.now)
      else LockPg
    case LockPg =>
      if LeaseGranted(c, s, p.req, reply) then GetRedis(Recheck)
      else if c.pg && reply.Ok? then StartWaiting(c, s.now)
      else Done(Unavailable)
    case Poll(deadline, wake) =>
      if s.now < wake then p.pc
      else if s.now < deadline then GetRedis(Wait(deadline))
      else Done(Busy)
    case CallHandler => Handling
    case Handling => PutRedis(made)
    case PutRedis(resp) => PutPg(resp)
    case PutPg(resp) => Unlock(Ran(resp))
    case Unlock(outcome) => Done(outcome)
    case Done(_) => p.pc
  }

  function HandleAfter(c: Config, s: State, p: Process, reply: Reply): Handle {
    match p.pc
    case LockRedis =>
      if LockGranted(c, s, p.req, reply) then RedisLock(Scope(p.req), p.req.hash, LockUntil(c, s.now)) else p.handle
    case LockPg =>
      if LeaseGranted(c, s, p.req, reply) then PgLease(p.req.key, p.req.hash, LeaseUntil(c, s.now), false) else p.handle
    case PutPg(_) =>
      if p.handle.PgLease? && c.pg && reply.Ok? && LeaseMatches(s.rows, p.req.key, p.handle.token)
      then p.handle.(completed := true)
      else p.handle
    case _ => p.handle
  }

  /** The Redis responses after the step's command, if it reaches Redis. */
  function ResponsesAfter(c: Config, s: State, p: Process, reply: Reply): Responses {
    if !c.redis || reply.Failed? then s.responses
    else
      match p.pc
      case Warm(_, found, _) => SetResponse(s.responses, p.req.key, found, CacheUntil(c, s.now))
      case PutRedis(resp) => SetResponse(s.responses, p.req.key, resp, CacheUntil(c, s.now))
      case _ => s.responses
  }

  /** The Redis locks after the step's command, if it reaches Redis. */
  function LocksAfter(c: Config, s: State, p: Process, reply: Reply): Locks {
    if !c.redis || reply.Failed? then s.locks
    else
      match p.pc
      case LockRedis => SetNX(s.locks, Scope(p.req), p.req.hash, s.now, LockUntil(c, s.now))
      case Unlock(_) =>
        if p.handle.RedisLock? then CompareAndDelete(s.locks, p.handle.scope, p.handle.token, s.now) else s.locks
      case _ => s.locks
  }

  /** The Postgres rows after the step's statement, if it reaches Postgres. */
  function RowsAfter(c: Config, s: State, p: Process, reply: Reply): Rows {
    if !c.pg || reply.Failed? then s.rows
    else
      match p.pc
      case LockPg => AcquireLease(s.rows, p.req, s.now, LeaseUntil(c, s.now), CacheUntil(c, s.now))
      case PutPg(resp) =>
        if p.handle.PgLease? then CompleteLease(s.rows, p.req.key, p.handle.token, resp)
        else UpsertCompleted(s.rows, p.req.key, resp)
      case Unlock(_) =>
        if p.handle.PgLease? && !p.handle.completed then DeleteLease(s.rows, p.handle.key, p.handle.token) else s.rows
      case _ => s.rows
  }

  /** What the handler of request `r` answers, if it finishes now. */
  function Produce(c: Config, s: State, r: Rid, q: Request, body: string): Response {
    Response(q.verb, q.path, q.hash, Payload(body, r), s.now + c.responseTTL)
  }

  /** The next step of request `r`. */
  function Advance(c: Config, s: State, r: Rid, reply: Reply, body: string): State
    requires r in s.procs
  {
    var p := s.procs[r];
    var made := Produce(c, s, r, p.req, body);
    State(
      s.now,
      ResponsesAfter(c, s, p, reply),
      LocksAfter(c, s, p, reply),
      RowsAfter(c, s, p, reply),
      s.procs[r := Process(p.req, PcAfter(c, s, p, reply, made), HandleAfter(c, s, p, reply))],
      if p.pc.CallHandler? then s.calls + [r] else s.calls,
      if p.pc.Handling? then s.made[r := made] else s.made)
  }

  /** Where a request that is not served to its end stands afterwards. */
  function AbortedPc(pc: PC, l: Label): PC {
    if l.Cancel? && pc.Poll? then Done(Busy)
    else if l.Panic? && pc.Handling? then Unlock(Crashed)
    else if l.Crash? && !pc.Done? then Done(Crashed)
    else pc
  }

  function Abort(s: State, r: Rid, l: Label): State
    requires r in s.procs
  {
    s.(procs := s.procs[r := s.procs[r].(pc := AbortedPc(s.procs[r].pc, l))])
  }

  /** A label that is not enabled leaves the state as it is. */
  function Apply(c: Config, s: State, l: Label): State {
    match l
    case Tick(d) => s.(now := s.now + d)
    case Arrive(r, q) =>
      if r in s.procs then s else s.(procs := s.procs[r := Process(q, GetRedis(First), NoHandle)])
    case Step(r, reply, body) =>
      if r in s.procs then Advance(c, s, r, reply, body) else s
    case _ =>
      if l.rid in s.procs then Abort(s, l.rid, l) else s
  }

  /** The state after the labels of `ls`, in order. */
  function Run(c: Config, ls: seq<Label>): State {
    if ls == [] then INIT else Apply(c, Run(c, ls[..|ls| - 1]), ls[|ls| - 1])
  }

  /** A run extended by one label applies that label. */
  lemma RunExtend(c: Config, ls: seq<Label>, l: Label)
    ensures Run(c, ls + [l]) == Apply(c, Run(c, ls), l)
  {
    assert (ls + [l])[..|ls|] == ls;
  }
}
