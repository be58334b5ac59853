/**
 How long locks, leases, waits and responses last, over whole runs and in terms of the
 configured durations.
 */
module IdempotencyTimes {
  import opened Options
  import opened IdempotencyModel
  import opened IdempotencyBinding

  /** A configured duration, or the documented one where none is configured. */
  function Duration(configured: int, documented: int): int {
    if configured > 0 then configured else documented
  }

  lemma {:induction false} TimeGoesOn(c: Config, ls: seq<Label>, i: nat, j: nat)
    requires i <= j <= |ls|
    ensures Run(c, ls[..i]).now <= Run(c, ls[..j]).now
    decreases j
  {
    if i < j {
      TimeGoesOn(c, ls, i, j - 1);
      assert ls[..j][..j - 1] == ls[..j - 1];
    }
  }

  lemma Next(c: Config, ls: seq<Label>, k: nat)
    requires k < |ls|
    ensures Run(c, ls[..k + 1]) == Apply(c, Run(c, ls[..k]), ls[k])
  {
    assert ls[..k + 1] == ls[..k] + [ls[k]];
    RunExtend(c, ls[..k], ls[k]);
  }

  /******* The Postgres lease *******/

  /** The label hands its request a lease of `key`. */
  predicate GrantsLease(c: Config, s: State, l: Label, key: string) {
    && l.Step? && l.rid in s.procs && s.procs[l.rid].req.key == key
    && !s.procs[l.rid].handle.PgLease? && Apply(c, s, l).procs[l.rid].handle.PgLease?
  }

  /** The label deletes the row of `key`. */
  predicate FreesRow(c: Config, s: State, l: Label, key: string) {
    key in s.rows && key !in Apply(c, s, l).rows
  }

  /** Until after `end` nobody can lease `key`. */
  predicate ShutUntil(s: State, key: string, end: int) {
    s.now <= end ==> key in s.rows && (s.rows[key].Leased? ==> end <= s.rows[key].until)
  }

  lemma LeaseShuts(c: Config, s: State, l: Label, key: string)
    requires GrantsLease(c, s, l, key)
    ensures (key in s.rows ==> s.rows[key].Leased? && s.rows[key].until < s.now)
    ensures ShutUntil(Apply(c, s, l), key, s.now + Duration(c.requestTimeout, 60_000_000_000))
  {
  }

  lemma RowStaysShut(c: Config, s: State, l: Label, key: string, end: int)
    requires ShutUntil(s, key, end) && !FreesRow(c, s, l, key)
    ensures ShutUntil(Apply(c, s, l), key, end)
  {
  }

  /**
   Once a request has been granted the lease of a key, nobody is granted one for the key until
   the request timeout has passed, unless the row was deleted in between.
   */
  lemma LeaseLasts(c: Config, ls: seq<Label>, i: nat, j: nat, key: string)
    requires i < j < |ls| && GrantsLease(c, Run(c, ls[..i]), ls[i], key) && GrantsLease(c, Run(c, ls[..j]), ls[j], key)
    requires forall k :: i < k < j ==> !FreesRow(c, Run(c, ls[..k]), ls[k], key)
    ensures Run(c, ls[..j]).now > Run(c, ls[..i]).now + Duration(c.requestTimeout, 60_000_000_000)
  {
    hide Apply, GrantsLease, FreesRow;
    var end := Run(c, ls[..i]).now + Duration(c.requestTimeout, 60_000_000_000);
    LeaseShuts(c, Run(c, ls[..i]), ls[i], key);
    Next(c, ls, i);
    StaysShut(c, ls, i + 1, j, key, end);
    LeaseShuts(c, Run(c, ls[..j]), ls[j], key);
  }

  lemma {:induction false} StaysShut(c: Config, ls: seq<Label>, a: nat, b: nat, key: string, end: int)
    requires a <= b < |ls| && ShutUntil(Run(c, ls[..a]), key, end)
    requires forall k :: a <= k < b ==> !FreesRow(c, Run(c, ls[..k]), ls[k], key)
    ensures ShutUntil(Run(c, ls[..b]), key, end)
    decreases b
  {
    hide Apply, FreesRow, ShutUntil;
    if a < b {
      StaysShut(c, ls, a, b - 1, key, end);
      RowStaysShut(c, Run(c, ls[..b - 1]), ls[b - 1], key, end);
      Next(c, ls, b - 1);
    }
  }

  /******* The Redis lock *******/

  /** The lock of a request is for its verb, path and key together. */
  function ScopeOf(q: Request): string {
    q.verb + ":" + q.path + ":" + q.key
  }

  /** The label hands its request the lock of `scope`. */
  predicate GrantsLock(c: Config, s: State, l: Label, scope: string) {
    && l.Step? && l.rid in s.procs
    && ScopeOf(s.procs[l.rid].req) == scope
    && !s.procs[l.rid].handle.RedisLock? && Apply(c, s, l).procs[l.rid].handle.RedisLock?
  }

  /** The label deletes the lock of `scope`. */
  predicate FreesLock(c: Config, s: State, l: Label, scope: string) {
    scope in s.locks && scope !in Apply(c, s, l).locks
  }

  /** Before `end` nobody can take the lock of `scope`. */
  predicate LockedUntil(s: State, scope: string, end: int) {
    s.now < end ==> scope in s.locks && end <= s.locks[scope].until
  }

  lemma LockShuts(c: Config, s: State, l: Label, scope: string)
    requires GrantsLock(c, s, l, scope)
    ensures scope in s.locks ==> s.locks[scope].until <= s.now
    ensures LockedUntil(Apply(c, s, l), scope, s.now + Duration(c.lockTTL, 15_000_000_000))
  {
  }

  lemma LockStaysShut(c: Config, s: State, l: Label, scope: string, end: int)
    requires LockedUntil(s, scope, end) && !FreesLock(c, s, l, scope)
    ensures LockedUntil(Apply(c, s, l), scope, end)
  {
  }

  /**
   Once a request has been granted a Redis lock, nobody is granted it before the lock TTL has
   passed, unless it was deleted in between.
   */
  lemma LockLasts(c: Config, ls: seq<Label>, i: nat, j: nat, scope: string)
    requires i < j < |ls|
    requires GrantsLock(c, Run(c, ls[..i]), ls[i], scope) && GrantsLock(c, Run(c, ls[..j]), ls[j], scope)
    requires forall k :: i < k < j ==> !FreesLock(c, Run(c, ls[..k]), ls[k], scope)
    ensures Run(c, ls[..j]).now >= Run(c, ls[..i]).now + Duration(c.lockTTL, 15_000_000_000)
  {
    hide Apply, GrantsLock, FreesLock;
    var end := Run(c, ls[..i]).now + Duration(c.lockTTL, 15_000_000_000);
    LockShuts(c, Run(c, ls[..i]), ls[i], scope);
    Next(c, ls, i);
    StaysLocked(c, ls, i + 1, j, scope, end);
    LockShuts(c, Run(c, ls[..j]), ls[j], scope);
  }

  lemma {:induction false} StaysLocked(c: Config, ls: seq<Label>, a: nat, b: nat, scope: string, end: int)
    requires a <= b < |ls| && LockedUntil(Run(c, ls[..a]), scope, end)
    requires forall k :: a <= k < b ==> !FreesLock(c, Run(c, ls[..k]), ls[k], scope)
    ensures LockedUntil(Run(c, ls[..b]), scope, end)
    decreases b
  {
    hide Apply, FreesLock, LockedUntil;
    if a < b {
      StaysLocked(c, ls, a, b - 1, scope, end);
      LockStaysShut(c, Run(c, ls[..b - 1]), ls[b - 1], scope, end);
      Next(c, ls, b - 1);
    }
  }

  /******* Waiting *******/

  function PcOf(s: State, r: Rid): Option<PC> {
    if r in s.procs then Some(s.procs[r].pc) else None
  }

  /** The label makes request `r` wait for somebody else's response. */
  predicate StartsWaiting(c: Config, s: State, l: Label, r: Rid) {
    && PcOf(s, r).Some? && (PcOf(s, r).value.LockRedis? || PcOf(s, r).value.LockPg?)
    && PcOf(Apply(c, s, l), r).Some? && PcOf(Apply(c, s, l), r).value.Poll?
  }

  /** The label tells request `r` that its key is still in progress. */
  predicate GivesUp(c: Config, s: State, l: Label, r: Rid) {
    && PcOf(s, r).Some? && PcOf(Apply(c, s, l), r) == Some(Done(Busy)) && PcOf(s, r) != Some(Done(Busy))
    && !l.Cancel?
  }

  /** The label makes the waiting request `r` look again. */
  predicate LooksAgain(c: Config, s: State, l: Label, r: Rid) {
    && PcOf(s, r).Some? && PcOf(s, r).value.Poll?
    && PcOf(Apply(c, s, l), r).Some? && PcOf(Apply(c, s, l), r).value.GetRedis?
  }

  /** The request waits, and does not give up before `end`. */
  predicate WaitsUntil(pc: PC, end: int) {
    match pc
    case Poll(deadline, _) => deadline == end
    case GetRedis(Wait(deadline)) => deadline == end
    case GetPg(Wait(deadline)) => deadline == end
    case Warm(Wait(deadline), _, _) => deadline == end
    case Done(_) => true
    case _ => false
  }

  lemma WaitStarts(c: Config, s: State, l: Label, r: Rid)
    requires StartsWaiting(c, s, l, r)
    ensures WaitsUntil(PcOf(Apply(c, s, l), r).value, s.now + Duration(c.waitTimeout, 8_000_000_000))
  {
  }

  lemma WaitGoesOn(c: Config, s: State, l: Label, r: Rid, end: int)
    requires PcOf(s, r).Some? && WaitsUntil(PcOf(s, r).value, end)
    ensures PcOf(Apply(c, s, l), r).Some? && WaitsUntil(PcOf(Apply(c, s, l), r).value, end)
    ensures GivesUp(c, s, l, r) ==> s.now >= end
  {
  }

  /** A request that waits gives up, unless it is cancelled, only after the wait timeout. */
  lemma WaitLasts(c: Config, ls: seq<Label>, i: nat, j: nat, r: Rid)
    requires i < j < |ls| && StartsWaiting(c, Run(c, ls[..i]), ls[i], r) && GivesUp(c, Run(c, ls[..j]), ls[j], r)
    ensures Run(c, ls[..j]).now >= Run(c, ls[..i]).now + Duration(c.waitTimeout, 8_000_000_000)
  {
    hide Apply, StartsWaiting, GivesUp;
    var end := Run(c, ls[..i]).now + Duration(c.waitTimeout, 8_000_000_000);
    WaitStarts(c, Run(c, ls[..i]), ls[i], r);
    Started(c, Run(c, ls[..i]), ls[i], r);
    Next(c, ls, i);
    StillWaits(c, ls, i + 1, j, r, end);
    WaitGoesOn(c, Run(c, ls[..j]), ls[j], r, end);
  }

  lemma Started(c: Config, s: State, l: Label, r: Rid)
    requires StartsWaiting(c, s, l, r)
    ensures PcOf(Apply(c, s, l), r).Some?
  {
  }

  lemma {:induction false} StillWaits(c: Config, ls: seq<Label>, a: nat, b: nat, r: Rid, end: int)
    requires a <= b < |ls| && PcOf(Run(c, ls[..a]), r).Some? && WaitsUntil(PcOf(Run(c, ls[..a]), r).value, end)
    ensures PcOf(Run(c, ls[..b]), r).Some? && WaitsUntil(PcOf(Run(c, ls[..b]), r).value, end)
    decreases b
  {
    hide Apply, WaitsUntil, PcOf;
    if a < b {
      StillWaits(c, ls, a, b - 1, r, end);
      WaitGoesOn(c, Run(c, ls[..b - 1]), ls[b - 1], r, end);
      Next(c, ls, b - 1);
    }
  }

  /** The request is looking, and will not look again before `end`. */
  predicate RestsUntil(s: State, pc: PC, end: int, gap: int) {
    match pc
    case Poll(_, wake) => wake >= end
    case GetRedis(Wait(_)) => s.now + gap >= end
    case GetPg(Wait(_)) => s.now + gap >= end
    case Warm(Wait(_), _, _) => true
    case Done(_) => true
    case _ => false
  }

  lemma RestGoesOn(c: Config, s: State, l: Label, r: Rid, end: int)
    requires PcOf(s, r).Some? && RestsUntil(s, PcOf(s, r).value, end, Duration(c.pollEvery, 150_000_000))
    requires LooksAgain(c, s, l, r) ==> s.now < end
    ensures PcOf(Apply(c, s, l), r).Some?
    ensures RestsUntil(Apply(c, s, l), PcOf(Apply(c, s, l), r).value, end, Duration(c.pollEvery, 150_000_000))
    ensures !LooksAgain(c, s, l, r)
  {
  }

  lemma LookStarts(c: Config, s: State, l: Label, r: Rid)
    requires LooksAgain(c, s, l, r)
    ensures PcOf(Apply(c, s, l), r).Some?
    ensures var gap := Duration(c.pollEvery, 150_000_000);
      RestsUntil(Apply(c, s, l), PcOf(Apply(c, s, l), r).value, s.now + gap, gap)
  {
  }

  /** Between two lookups of a waiting request at least the poll interval passes. */
  lemma PollsAreSpaced(c: Config, ls: seq<Label>, i: nat, j: nat, r: Rid)
    requires i < j < |ls| && LooksAgain(c, Run(c, ls[..i]), ls[i], r) && LooksAgain(c, Run(c, ls[..j]), ls[j], r)
    ensures Run(c, ls[..j]).now >= Run(c, ls[..i]).now + Duration(c.pollEvery, 150_000_000)
  {
    hide Apply, LooksAgain;
    var gap := Duration(c.pollEvery, 150_000_000);
    var end := Run(c, ls[..i]).now + gap;
    LookStarts(c, Run(c, ls[..i]), ls[i], r);
    Next(c, ls, i);
    if Run(c, ls[..j]).now < end {
      StillRests(c, ls, i + 1, j, r, end);
      RestGoesOn(c, Run(c, ls[..j]), ls[j], r, end);
    }
  }

  lemma {:induction false} StillRests(c: Config, ls: seq<Label>, a: nat, b: nat, r: Rid, end: int)
    requires a <= b < |ls| && PcOf(Run(c, ls[..a]), r).Some? && Run(c, ls[..b]).now < end
    requires RestsUntil(Run(c, ls[..a]), PcOf(Run(c, ls[..a]), r).value, end, Duration(c.pollEvery, 150_000_000))
    ensures PcOf(Run(c, ls[..b]), r).Some?
    ensures RestsUntil(Run(c, ls[..b]), PcOf(Run(c, ls[..b]), r).value, end, Duration(c.pollEvery, 150_000_000))
    decreases b
  {
    hide Apply, RestsUntil, PcOf;
    if a < b {
      TimeGoesOn(c, ls, b - 1, b);
      StillRests(c, ls, a, b - 1, r, end);
      RestGoesOn(c, Run(c, ls[..b - 1]), ls[b - 1], r, end);
      Next(c, ls, b - 1);
    }
  }

  /******* Responses *******/

  /** The label makes the handler of `r` answer with `body`. */
  predicate Answers(s: State, l: Label, r: Rid, body: string) {
    l.Step? && l.rid == r && l.body == body && PcOf(s, r) == Some(Handling)
  }

  lemma AnswerIsKept(c: Config, s: State, l: Label, r: Rid)
    requires BindInv(c, s, None)
    ensures var s' := Apply(c, s, l);
      r in s'.made ==>
        || (r in s.made && s'.made[r] == s.made[r])
        || (r in s.procs && Answers(s, l, r, s'.made[r].payload.body)
            && var q, body := s.procs[r].req, s'.made[r].payload.body;
               s'.made[r] == Response(q.verb, q.path, q.hash, Payload(body, r), s.now + c.responseTTL))
  {
    if r in s.procs { assert ProcOk(s, r, None); }
    hide BindInv, PcAfter, HandleAfter, ResponsesAfter, LocksAfter, RowsAfter;
  }

  /**
   A response is what its handler run answered, for the request it was called with, and it
   expires one response TTL after that.
   */
  lemma {:induction false} ResponsesAreAnswers(c: Config, ls: seq<Label>, r: Rid) returns (k: nat)
    requires ValidConfig(c) && r in Run(c, ls).made
    ensures k < |ls| && r in Run(c, ls[..k]).procs
    ensures var s, m := Run(c, ls[..k]), Run(c, ls).made[r];
      && Answers(s, ls[k], r, m.payload.body) && m.expires == s.now + c.responseTTL
      && m.verb == s.procs[r].req.verb && m.path == s.procs[r].req.path && m.hash == s.procs[r].req.hash
  {
    var rest := ls[..|ls| - 1];
    BindingHolds(c, rest);
    AnswerIsKept(c, Run(c, rest), ls[|ls| - 1], r);
    if r in Run(c, rest).made && Run(c, ls).made[r] == Run(c, rest).made[r] {
      k := ResponsesAreAnswers(c, rest, r);
      assert rest[..k] == ls[..k];
    } else {
      k := |ls| - 1;
    }
  }
}
