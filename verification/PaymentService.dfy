/**
 The payment service as it runs: the code of one create or refund call, statement by
 statement, between which any other calls may do anything.
 */
module PaymentService {
  import opened Options
  import opened Text
  import opened Domain
  import opened PaymentStore
  import opened PaymentModel
  import PaymentProofs
  import PaymentFacts
  import Routing
  import Retry

  /******* Runs seen from one call *******/

  function ProcOf(s: State, r: Rid): Option<Proc> {
    if r in s.procs then Some(s.procs[r]) else None
  }

  /** None of the labels is a step of call `r`. */
  predicate Others(ls: seq<Label>, r: Rid) {
    forall i :: 0 <= i < |ls| ==> ls[i].rid != r
  }

  /** Other calls cannot touch this call's progress. */
  lemma {:induction false} OthersKeep(c: Config, ls: seq<Label>, more: seq<Label>, r: Rid)
    requires Others(more, r)
    ensures ProcOf(Run(c, ls + more), r) == ProcOf(Run(c, ls), r)
  {
    if more == [] {
      assert ls + more == ls;
    } else {
      var rest, l := more[..|more| - 1], more[|more| - 1];
      OthersKeep(c, ls, rest, r);
      assert ls + more == ls + rest + [l];
      RunExtend(c, ls + rest, l);
    }
  }

  /******* What the environment answers *******/

  /** The replies of the three repository calls and the behaviour of the PSP and the context. */
  datatype CreateEnv = CreateEnv(insert: Reply, start: Reply, settle: Reply, script: Retry.Script<Charge>)

  predicate AllOk(env: CreateEnv) {
    env.insert.Ok? && env.start.Ok? && env.settle.Ok?
  }

  /** The first `n` charge outcomes. */
  function Outcomes(s: Retry.Script<Charge>, n: nat): seq<ChargeOutcome> {
    seq(n, (i: nat) => s.op(i))
  }

  /** What a call has recorded when the loop is about to make turn `attempt`. */
  function LogBefore(s: Retry.Script<Charge>, attempt: nat): ChargeLog {
    ChargeLog(Outcomes(s, attempt), NotHalted)
  }

  /** What a call has recorded once the loop has made turn `attempt`. */
  function LogAfter(cap: nat, s: Retry.Script<Charge>, attempt: nat): ChargeLog {
    ChargeLog(Outcomes(s, Called(s, attempt)), HaltAfter(cap, attempt, ChargeLabel(0, s, attempt)))
  }

  /** How many charges were made when the loop stops at turn `attempt`. */
  function Called(s: Retry.Script<Charge>, attempt: nat): nat {
    if s.before(attempt) then attempt else attempt + 1
  }

  function ChargeLabel(r: Rid, s: Retry.Script<Charge>, attempt: nat): Label {
    CallPsp(r, s.before(attempt), s.op(attempt), s.waiting(attempt), s.ctxErr)
  }

  /** How the result of the retry loop is recorded. */
  function Settle(psp: string, result: Retry.Result<Charge>): Settlement {
    match result
    case Ok(charge) => SettleCharge(psp, charge)
    case Err(e) => AsFailure(psp, "", FailureReason(e))
  }

  /** The payment is routed, and the retry loop on this behaviour of the PSP ends in an approved charge. */
  ghost predicate Charged(c: Config, row: Payment, s: Retry.Script<Charge>) {
    && PaymentProofs.Routed(c, row)
    && exists k, calls, charge ::
         Retry.StopsWith(s, Retry.Cap(c.retry), k, calls, Retry.Ok(charge)) && Approved(Retry.Value(charge))
  }

  /** The columns of the row are those of the settlement. */
  predicate StoredAs(p: Payment, how: Settlement) {
    p.psp == how.psp && p.reference == how.reference && (how.AsFailure? ==> p.reason == how.reason)
  }

  /** The reference and reason that the result of the retry loop gives. */
  predicate EndsAs(result: Retry.Result<Charge>, how: Settlement) {
    match result
    case Ok(charge) =>
      && how.reference == charge.reference && (how.AsSuccess? <==> Approved(Retry.Value(charge)))
      && (how.AsFailure? ==> PaymentFacts.ReasonFor(charge.status, how.reason))
    case Err(e) => how.AsFailure? && how.reference == "" && how.reason == FailureReason(e)
  }

  /** How a payment is settled when the PSP and the context behave as the script says. */
  ghost predicate SettledAs(c: Config, row: Payment, s: Retry.Script<Charge>, how: Settlement) {
    match Routing.Route(c.router, row.currency, row.amount)
    case Adapter(name) =>
      && how.psp == name
      && exists k, calls, result ::
           Retry.StopsWith(s, Retry.Cap(c.retry), k, calls, result) && EndsAs(result, how)
    case UnknownAdapter(name) => how == AsFailure("", "", "psp: unknown adapter \"" + name + "\"")
    case NoRoute => how == AsFailure("", "", "psp: no routing rule matched currency and amount")
  }

  lemma SettledAsScript(
      c: Config, row: Payment, s: Retry.Script<Charge>, psp: string, k: nat, calls: nat, result: Retry.Result<Charge>)
    requires Routing.Route(c.router, row.currency, row.amount) == Routing.Adapter(psp)
    requires Retry.StopsWith(s, Retry.Cap(c.retry), k, calls, result)
    ensures SettledAs(c, row, s, Settle(psp, result))
  {
    hide Retry.StopsWith, FailureReason;
    assert EndsAs(result, Settle(psp, result));
  }

  lemma SettledUnrouted(c: Config, row: Payment, s: Retry.Script<Charge>, how: Settlement)
    requires match Routing.Route(c.router, row.currency, row.amount)
      case Adapter(_) => false
      case UnknownAdapter(name) => how == AsFailure("", "", "psp: unknown adapter \"" + name + "\"")
      case NoRoute => how == AsFailure("", "", "psp: no routing rule matched currency and amount")
    ensures SettledAs(c, row, s, how)
  {
  }

  lemma ChargedIff(
      c: Config, row: Payment, s: Retry.Script<Charge>, psp: string,
      k: nat, calls: nat, result: Retry.Result<Charge>)
    requires PaymentProofs.Routed(c, row) && Retry.StopsWith(s, Retry.Cap(c.retry), k, calls, result)
    ensures Charged(c, row, s) <==> Settle(psp, result).AsSuccess?
  {
    if Charged(c, row, s) {
      var k', calls', charge :|
        Retry.StopsWith(s, Retry.Cap(c.retry), k', calls', Retry.Ok(charge)) && Approved(Retry.Value(charge));
      Retry.StopsOnce(s, Retry.Cap(c.retry), k, calls, result, k', calls', Retry.Ok(charge));
    } else if result.Ok? {
      assert !Approved(Retry.Value(result.value));
    }
  }

  lemma NotRouted(c: Config, row: Payment, s: Retry.Script<Charge>)
    requires !Routing.Route(c.router, row.currency, row.amount).Adapter?
    ensures !Charged(c, row, s)
  {
  }

  /** A call finds its own payment where it left it. */
  lemma OwnRowInPlace(c: Config, ls: seq<Label>, r: Rid, row: Payment, pc: CreatePc, log: ChargeLog)
    requires ProcOf(Run(c, ls), r) == Some(Creating(row, pc, log))
    ensures r != 0
    ensures pc.Start? ==> At(Run(c, ls).db, r, Initiated)
    ensures pc.Settling? ==> At(Run(c, ls).db, r, Processing)
  {
    PaymentProofs.InvHolds(c, ls);
    assert PaymentProofs.ProcOk(c, Run(c, ls), r);
  }

  lemma ValidRowIsAccepted(r: Rid, req: CreateRequest)
    requires r != 0 && ValidCreate(req)
    ensures Validate(r, NewRow(req)).1.None?
  {
    PaymentProofs.NewRowNormalised(req);
    TrimUpperCommute(req.currency);
    TrimTwice(req.key);
  }

  /******* The service *******/

  /** `trace` is the run of the whole system so far: every theorem about runs applies here. */
  class PaymentService {
    const c: Config
    const repo: PaymentRepo
    ghost var procs: map<Rid, Proc>
    ghost var charges: seq<Rid>
    ghost var trace: seq<Label>

    ghost function View(): State
      reads this, repo
    {
      State(repo.View(), procs, charges)
    }

    /** The tables and all calls are where the run leads. */
    ghost predicate Valid()
      reads this, repo
    {
      View() == Run(c, trace)
    }

    ghost function Me(r: Rid): Option<Proc>
      reads this, repo
    {
      ProcOf(View(), r)
    }

    constructor (c: Config, repo: PaymentRepo)
      requires repo.View() == Db(map[], [], [])
      ensures Valid() && this.c == c && this.repo == repo && trace == []
    {
      this.c, this.repo, procs, charges, trace := c, repo, map[], [], [];
    }

    /** Other calls act.  Callers rely only on the contract, which allows every sequence of their steps. */
    method Interfere(r: Rid)
      requires Valid()
      modifies this, repo
      ensures Valid()
      ensures exists ls :: Others(ls, r) && trace == old(trace) + ls
    {
      assert Others([], r) && trace == old(trace) + [];
    }

    method Yield(r: Rid)
      requires Valid()
      modifies this, repo
      ensures Valid() && old(trace) <= trace && Me(r) == old(Me(r))
    {
      ghost var before := trace;
      Interfere(r);
      ghost var ls :| Others(ls, r) && trace == before + ls;
      OthersKeep(c, before, ls, r);
    }

    /** Records a step that did to the tables what the label says. */
    ghost method Log(before: State, l: Label)
      requires before == Run(c, trace) && repo.View() == Apply(c, before, l).db
      modifies this
      ensures Valid() && trace == old(trace) + [l] && View() == Apply(c, before, l)
    {
      RunExtend(c, trace, l);
      procs, charges, trace := Apply(c, before, l).procs, Apply(c, before, l).charges, trace + [l];
    }

    /******* Repository calls *******/

    method InsertPayment(r: Rid, row: Payment, reply: Reply) returns (error: Option<Error>)
      requires Valid() && Me(r) == Some(Creating(row, CreatePc.Insert, NO_CHARGES))
      modifies this, repo
      ensures Valid() && trace == old(trace) + [Query(r, reply, 0)]
      ensures Me(r) == Some(Creating(row, if error.Some? then Finished(Errored(error.value)) else Start, NO_CHARGES))
      ensures reply.Ok? && Validate(r, row).1.None? ==> error.None? || error.value == Conflict
    {
      hide Run;
      ghost var before := View();
      error := Some(StoreError);
      if !reply.Failed? {
        var result := repo.Insert(r, row);
        error := if reply.Ok? then result else error;
      }
      Log(before, Query(r, reply, 0));
    }

    method StartProcessing(r: Rid, row: Payment, reply: Reply) returns (error: Option<Error>)
      requires Valid() && Me(r) == Some(Creating(row, Start, NO_CHARGES))
      modifies this, repo
      ensures Valid() && trace == old(trace) + [Query(r, reply, 0)]
      ensures var pc := if error.Some? then Finished(Errored(error.value)) else CreateNext(c, row, Start);
        Me(r) == Some(Creating(row, pc, NO_CHARGES))
      ensures reply.Ok? ==> error.None?
    {
      hide Run;
      ghost var before := View();
      OwnRowInPlace(c, trace, r, row, Start, NO_CHARGES);
      error := Some(StoreError);
      if !reply.Failed? {
        var result := repo.UpdateStatus(r, Initiated, Processing);
        error := if reply.Ok? then result else error;
      }
      Log(before, Query(r, reply, 0));
    }

    /** Records the end of charging, with its event, and says what the call returns. */
    method Conclude(r: Rid, row: Payment, how: Settlement, ghost log: ChargeLog, reply: Reply)
      returns (result: CreateResult)
      requires Valid() && Me(r) == Some(Creating(row, Settling(how), log))
      modifies this, repo
      ensures Valid() && trace == old(trace) + [Query(r, reply, 0)]
      ensures Me(r) == Some(Creating(row, Finished(result), log))
      ensures reply.Ok? ==> result.Returned?
      ensures result.Returned? ==> result.status == if how.AsSuccess? then Success else Status.Failed
      ensures result.Returned? ==> r in repo.payments && StoredAs(repo.payments[r], how)
    {
      hide Run;
      ghost var before := View();
      OwnRowInPlace(c, trace, r, row, Settling(how), log);
      var error := Some(StoreError);
      if !reply.Failed? {
        var answer;
        match how {
          case AsSuccess(psp, reference) =>
            answer := repo.UpdateStatusWithPSP(r, Processing, Success, psp, reference);
          case AsFailure(psp, reference, reason) =>
            answer := repo.UpdateFailed(r, Processing, psp, reference, reason);
        }
        error := if reply.Ok? then answer else error;
      }
      Log(before, Query(r, reply, 0));
      result := if error.Some? then Errored(error.value)
                else Returned(if how.AsSuccess? then Success else Status.Failed);
    }

    /******* Charging *******/

    /** One turn of the retry loop, as the run records it. */
    ghost method Charge(r: Rid, row: Payment, psp: string, attempt: nat, s: Retry.Script<Charge>)
      requires Valid() && Me(r) == Some(Creating(row, Charging(psp, attempt), LogBefore(s, attempt)))
      modifies this
      ensures Valid() && trace == old(trace) + [ChargeLabel(r, s, attempt)]
      ensures Me(r) == Some(Creating(
          row,
          AfterCharge(Retry.Cap(c.retry), psp, attempt, ChargeLabel(r, s, attempt)),
          LogAfter(Retry.Cap(c.retry), s, attempt)))
    {
      hide Run;
      assert Outcomes(s, attempt) + [s.op(attempt)] == Outcomes(s, attempt + 1);
      Log(View(), ChargeLabel(r, s, attempt));
    }

    /** One turn of the retry loop: the result of the loop, or None to go round again. */
    method ChargeOnce(r: Rid, row: Payment, psp: string, attempt: nat, s: Retry.Script<Charge>)
      returns (result: Option<Retry.Result<Charge>>)
      requires attempt < Retry.Cap(c.retry) && Retry.StillRetrying(s, attempt)
      requires Valid() && Me(r) == Some(Creating(row, Charging(psp, attempt), LogBefore(s, attempt)))
      modifies this
      ensures Valid() && trace == old(trace) + [ChargeLabel(r, s, attempt)]
      ensures result.None? ==>
        && attempt + 1 < Retry.Cap(c.retry) && Retry.StillRetrying(s, attempt + 1)
        && Me(r) == Some(Creating(row, Charging(psp, attempt + 1), LogBefore(s, attempt + 1)))
      ensures result.Some? ==>
        && Retry.StopsWith(s, Retry.Cap(c.retry), attempt, Called(s, attempt), result.value)
        && Me(r) == Some(Creating(row, Settling(Settle(psp, result.value)), LogAfter(Retry.Cap(c.retry), s, attempt)))
    {
      hide Run, Apply, SettleCharge, FailureReason, Outcomes, Retry.IsRetryable;
      Charge(r, row, psp, attempt, s);
      if s.before(attempt) {
        return Some(Retry.Err(s.ctxErr));
      }
      match s.op(attempt) {
        case Value(charge) =>
          return Some(Retry.Ok(charge));
        case Fail(e) =>
          var verdict := Retry.Decide(Retry.Cap(c.retry), attempt, e);
          if verdict.Stop? {
            return Some(Retry.Err(verdict.error));
          }
          return if s.waiting(attempt) then Some(Retry.Err(s.ctxErr)) else None;
      }
    }

    /**
     The retry loop around the PSP, with other calls running between the charges: it meets
     the same reference definition as the loop on its own.
     */
    method ChargeWithRetry(r: Rid, row: Payment, psp: string, s: Retry.Script<Charge>)
      returns (result: Retry.Result<Charge>, ghost k: nat)
      requires Valid() && Me(r) == Some(Creating(row, Charging(psp, 0), NO_CHARGES))
      modifies this, repo
      ensures Valid() && old(trace) <= trace
      ensures Me(r) == Some(Creating(row, Settling(Settle(psp, result)), LogAfter(Retry.Cap(c.retry), s, k)))
      ensures Retry.StopsWith(s, Retry.Cap(c.retry), k, Called(s, k), result)
      ensures Called(s, k) <= if c.retry.maxAttempts > 0 then c.retry.maxAttempts else 3
      ensures Retry.AlwaysRetryable(s) ==> Called(s, k) == if c.retry.maxAttempts > 0 then c.retry.maxAttempts else 3
    {
      assert Outcomes(s, 0) == [];
      hide Run, Apply, Settle, Outcomes, Retry.StopsWith;
      var attempt := 0;
      while true
        invariant 0 <= attempt < Retry.Cap(c.retry) && Retry.StillRetrying(s, attempt)
        invariant Valid() && old(trace) <= trace
        invariant Me(r) == Some(Creating(row, Charging(psp, attempt), LogBefore(s, attempt)))
        decreases Retry.Cap(c.retry) - attempt
      {
        Yield(r);
        var turn := ChargeOnce(r, row, psp, attempt, s);
        if turn.Some? {
          Retry.CallsAsConfigured(c.retry, s, attempt, Called(s, attempt), turn.value);
          return turn.value, attempt;
        }
        attempt := attempt + 1;
      }
    }

    /******* Calls *******/

    /** Routes and charges a payment that is processing. */
    method RouteAndCharge(r: Rid, row: Payment, env: CreateEnv)
      returns (result: CreateResult, ghost settled: Settlement)
      requires Valid() && Me(r) == Some(Creating(row, CreateNext(c, row, Start), NO_CHARGES))
      modifies this, repo
      ensures Valid() && old(trace) <= trace
      ensures exists log :: Me(r) == Some(Creating(row, Finished(result), log))
      ensures env.settle.Ok? ==> result.Returned?
      ensures result.Returned? ==> result.status == if Charged(c, row, env.script) then Success else Status.Failed
      ensures SettledAs(c, row, env.script, settled)
      ensures result.Returned? ==> r in repo.payments && StoredAs(repo.payments[r], settled)
    {
      hide Run, Apply, Charged, SettledAs, Settle;
      var sel := Routing.Select(c.router, row.currency, row.amount);
      var how;
      ghost var log := NO_CHARGES;
      match sel {
        case Adapter(name) =>
          var answer;
          ghost var k;
          answer, k := ChargeWithRetry(r, row, name, env.script);
          how, log := Settle(name, answer), LogAfter(Retry.Cap(c.retry), env.script, k);
          ChargedIff(c, row, env.script, name, k, Called(env.script, k), answer);
          SettledAsScript(c, row, env.script, name, k, Called(env.script, k), answer);
        case UnknownAdapter(name) =>
          how := AsFailure("", "", "psp: unknown adapter \"" + name + "\"");
          NotRouted(c, row, env.script);
          SettledUnrouted(c, row, env.script, how);
        case NoRoute =>
          how := AsFailure("", "", "psp: no routing rule matched currency and amount");
          NotRouted(c, row, env.script);
          SettledUnrouted(c, row, env.script, how);
      }
      settled := how;
      Yield(r);
      result := Conclude(r, row, how, log, env.settle);
    }

    ghost method Arrive(l: Label)
      requires Valid() && l.rid !in procs && (l.ArriveRefund? || (l.ArriveCreate? && l.rid != 0))
      modifies this
      ensures Valid() && trace == old(trace) + [l]
      ensures Me(l.rid) == Some(if l.ArriveCreate? then StartCreate(l.req) else StartRefund(l.payment, l.refund))
    {
      hide Run;
      Log(View(), l);
    }

    /** Inserts the payment and moves it to processing. */
    method Open(r: Rid, row: Payment, env: CreateEnv) returns (error: Option<Error>)
      requires Valid() && Me(r) == Some(Creating(row, CreatePc.Insert, NO_CHARGES))
      modifies this, repo
      ensures Valid() && old(trace) <= trace
      ensures var pc := if error.Some? then Finished(Errored(error.value)) else CreateNext(c, row, Start);
        Me(r) == Some(Creating(row, pc, NO_CHARGES))
      ensures env.insert.Ok? && env.start.Ok? && Validate(r, row).1.None? ==> error.None? || error.value == Conflict
    {
      hide Run, Apply, CreateNext, Validate;
      Yield(r);
      error := InsertPayment(r, row, env.insert);
      if error.Some? {
        return;
      }
      Yield(r);
      error := StartProcessing(r, row, env.start);
    }

    /** A call whose request passed validation. */
    method Process(r: Rid, row: Payment, env: CreateEnv) returns (result: CreateResult, ghost settled: Settlement)
      requires Valid() && Me(r) == Some(Creating(row, CreatePc.Insert, NO_CHARGES))
      modifies this, repo
      ensures Valid() && old(trace) <= trace
      ensures exists log :: Me(r) == Some(Creating(row, Finished(result), log))
      ensures AllOk(env) && Validate(r, row).1.None? ==> result.Returned? || result.error == Conflict
      ensures result.Returned? ==> result.status == if Charged(c, row, env.script) then Success else Status.Failed
      ensures result.Returned? ==>
        r in repo.payments && StoredAs(repo.payments[r], settled) && SettledAs(c, row, env.script, settled)
    {
      hide Run, Apply, CreateNext, Validate, Charged, SettledAs, StoredAs;
      var error := Open(r, row, env);
      if error.Some? {
        return Errored(error.value), AsSuccess("", "");
      }
      result, settled := RouteAndCharge(r, row, env);
    }

    /**
     What a caller of CreatePayment can rely on, whatever else runs.  With a working store
     an accepted request conflicts on its key or returns: success exactly when the retried
     charge was approved, otherwise failed.  A returned status is the stored one, or
     success that has since been refunded, and the row holds the request's facts, the selected
     PSP, and the reference and reason that the charge gave.
     */
    method CreatePayment(r: Rid, req: CreateRequest, env: CreateEnv) returns (result: CreateResult)
      requires Valid() && r !in procs && r != 0
      modifies this, repo
      ensures Valid() && old(trace) <= trace
      ensures !ValidCreate(req) ==> result == Errored(ValidationError) && repo.View() == old(repo.View())
      ensures r in procs && procs[r].Creating? && procs[r].row == NewRow(req) && procs[r].pc == Finished(result)
      ensures AllOk(env) && ValidCreate(req) ==> result.Returned? || result.error == Conflict
      ensures result.Errored? ==> PaymentProofs.Explained(result.error)
      ensures result.Returned? ==>
        result.status == if Charged(c, NewRow(req), env.script) then Success else Status.Failed
      ensures result.Returned? ==>
        && r in repo.payments && repo.payments[r].merchant == req.merchant && repo.payments[r].amount == req.amount
        && repo.payments[r].currency == ToUpper(Trim(req.currency)) && repo.payments[r].key == Trim(req.key)
      ensures result.Returned? ==>
        exists how :: SettledAs(c, NewRow(req), env.script, how) && StoredAs(repo.payments[r], how)
      ensures result.Returned? ==>
        || result.status == repo.payments[r].status == Status.Failed
        || (result.status == Success && repo.payments[r].status in {Success, Refunded})
    {
      hide Run, Apply, ValidCreate, Validate, Charged, SettledAs, StoredAs;
      Arrive(ArriveCreate(r, req));
      if !ValidCreate(req) {
        return Errored(ValidationError);
      }
      ValidRowIsAccepted(r, req);
      ghost var how;
      result, how := Process(r, NewRow(req), env);
      CreatedAsReturned(c, trace, r, NewRow(req), result);
    }

    /******* Refunds *******/

    /** Reads the payment and makes every check of the service on that snapshot. */
    method CheckPayment(r: Rid, id: Pid, req: RefundRequest, reply: Reply) returns (error: Option<Error>)
      requires Valid() && Me(r) == Some(RefundCall(id, req, Reading))
      modifies this, repo
      ensures Valid() && trace == old(trace) + [Query(r, reply, 0)] && repo.View() == old(repo.View())
      ensures Me(r) == Some(RefundCall(id, req, if error.Some? then RefundFinished(error) else Committing))
      ensures !reply.Ok? ==> error == Some(StoreError)
      ensures reply.Ok? ==> (error == Some(NotFound) <==> id !in repo.payments)
      ensures reply.Ok? && id in repo.payments ==>
        var p := repo.payments[id];
        && (error.None? || error == Some(ValidationError))
        && (error.None? <==>
              && p.status == Success && p.currency == ToUpper(Trim(req.currency))
              && req.amount <= p.amount && req.amount <= 9_223_372_036_854_775_807)
    {
      hide Run;
      ghost var before := View();
      error := None;
      if !reply.Ok? {
        error := Some(StoreError);
      } else if id !in repo.payments {
        error := Some(NotFound);
      } else {
        var p := repo.payments[id];
        if p.status != Success {
          error := Some(ValidationError);
        } else if p.currency != ToUpper(Trim(req.currency)) {
          error := Some(ValidationError);
        } else if req.amount > p.amount {
          error := Some(ValidationError);
        } else if req.amount > MAX_INT64 {
          error := Some(ValidationError);
        }
      }
      Log(before, Query(r, reply, 0));
    }

    method CommitRefund(r: Rid, id: Pid, req: RefundRequest, refundId: nat, reply: Reply) returns (error: Option<Error>)
      requires Valid() && Me(r) == Some(RefundCall(id, req, Committing))
      modifies this, repo
      ensures Valid() && trace == old(trace) + [Query(r, reply, refundId)]
      ensures Me(r) == Some(RefundCall(id, req, RefundFinished(error)))
      ensures error.None? ==> Refund(refundId, id, req.amount, Trim(req.key)) in repo.refunds
      ensures error.Some? && !reply.Unacked? ==> repo.View() == old(repo.View())
    {
      hide Run;
      ghost var before := View();
      error := Some(StoreError);
      if !reply.Failed? {
        var answer := repo.RefundAtomic(id, req.amount, Trim(req.key), refundId);
        error := if reply.Ok? then answer else error;
      }
      TrimTwice(req.key);
      Log(before, Query(r, reply, refundId));
    }

    method CheckAndCommit(r: Rid, id: Pid, req: RefundRequest, read: Reply, commit: Reply, refundId: nat)
      returns (error: Option<Error>)
      requires Valid() && Me(r) == Some(RefundCall(id, req, Reading))
      modifies this, repo
      ensures Valid() && old(trace) <= trace
      ensures error.None? ==> Refund(refundId, id, req.amount, Trim(req.key)) in repo.refunds
      ensures Me(r) == Some(RefundCall(id, req, RefundFinished(error)))
    {
      hide Run, Apply;
      Yield(r);
      error := CheckPayment(r, id, req, read);
      if error.Some? {
        return;
      }
      Yield(r);
      error := CommitRefund(r, id, req, refundId, commit);
    }

    /**
     What a caller of RefundPayment can rely on: without an error its refund is committed,
     the payment is refunded and the amount is within what was paid.
     */
    method RefundPayment(r: Rid, id: Pid, req: RefundRequest, read: Reply, commit: Reply, refundId: nat)
      returns (error: Option<Error>)
      requires Valid() && r !in procs
      modifies this, repo
      ensures Valid() && old(trace) <= trace
      ensures Me(r) == Some(RefundCall(id, req, RefundFinished(error)))
      ensures id == 0 || (req.payment != 0 && req.payment != id) || !ValidRefund(req) ==>
        error == Some(ValidationError) && repo.View() == old(repo.View())
      ensures error.None? ==>
        && Refund(refundId, id, req.amount, Trim(req.key)) in repo.refunds
        && id in repo.payments && repo.payments[id].status == Refunded
        && 1 <= req.amount <= repo.payments[id].amount
        && repo.payments[id].currency == ToUpper(Trim(req.currency))
    {
      hide Run, Apply, ValidRefund;
      Arrive(ArriveRefund(r, id, req));
      if id == 0 || (req.payment != 0 && req.payment != id) {
        return Some(ValidationError);
      }
      if !ValidRefund(req) {
        return Some(ValidationError);
      }
      error := CheckAndCommit(r, id, req, read, commit, refundId);
      if error.None? {
        CommittedRefund(c, trace, Refund(refundId, id, req.amount, Trim(req.key)));
        PaymentFacts.RefundNamesCurrency(c, trace, r);
      }
    }
  }

  /** The theorems about create calls, read at the end of one. */
  lemma CreatedAsReturned(c: Config, ls: seq<Label>, r: Rid, row: Payment, result: CreateResult)
    requires exists log :: ProcOf(Run(c, ls), r) == Some(Creating(row, Finished(result), log))
    ensures result.Errored? ==> PaymentProofs.Explained(result.error)
    ensures var payments := Run(c, ls).db.payments;
      result.Returned? ==>
        && r in payments && PaymentProofs.SameFacts(payments[r], row)
        && (result.status == payments[r].status == Status.Failed
            || (result.status == Success && payments[r].status in {Success, Refunded}))
  {
    if result.Errored? {
      PaymentProofs.NoCreateMismatch(c, ls, r, result.error);
    } else {
      PaymentProofs.CreateOutcome(c, ls, r, result.status);
      PaymentProofs.InvHolds(c, ls);
      assert PaymentProofs.Owned(Run(c, ls), r);
    }
  }

  /** The theorem about refunds, read where one is in the table. */
  lemma CommittedRefund(c: Config, ls: seq<Label>, refund: Refund)
    requires refund in Run(c, ls).db.refunds
    ensures var payments := Run(c, ls).db.payments;
      && refund.payment in payments && payments[refund.payment].status == Refunded
      && 1 <= refund.amount <= payments[refund.payment].amount
  {
    var i :| 0 <= i < |Run(c, ls).db.refunds| && Run(c, ls).db.refunds[i] == refund;
    PaymentProofs.RefundSafety(c, ls, i, i);
  }
}
