/**
 What holds in every reachable state of interleaved create and refund calls.
 */
module PaymentProofs {
  import opened Options
  import opened Text
  import opened Domain
  import opened PaymentStore
  import opened PaymentLedger
  import opened PaymentModel
  import Retry
  import Routing

  /******* The invariant *******/

  predicate SameFacts(p: Payment, q: Payment) {
    p.merchant == q.merchant && p.amount == q.amount && p.currency == q.currency && p.key == q.key
  }

  predicate Normalised(row: Payment) {
    && Trim(row.key) == row.key && Trim(ToUpper(row.currency)) == row.currency
    && row.reason == "" && row.status == Initiated
  }

  /** The store's own refusals a create call can meet; a lost compare-and-set is not one. */
  predicate Explained(e: Error) {
    e != StatusMismatch && e != NotFound && e != InvalidTransition
  }

  /** Where a create call stands fixes the status of its payment. */
  predicate CreateAt(db: Db, r: Rid, pc: CreatePc) {
    match pc
    case Insert => r !in db.payments
    case Start => At(db, r, Initiated)
    case Charging(_, _) => At(db, r, Processing)
    case Settling(_) => At(db, r, Processing)
    case Finished(Returned(status)) =>
      || (status == Success && (At(db, r, Success) || At(db, r, Refunded)))
      || (status == Status.Failed && At(db, r, Status.Failed))
    case Finished(Errored(e)) => Explained(e)
  }

  predicate RetryingOuts(outs: seq<ChargeOutcome>) {
    forall i :: 0 <= i < |outs| ==> outs[i].Fail? && Retry.IsRetryable(outs[i].error)
  }

  predicate LastApproved(outs: seq<ChargeOutcome>) {
    outs != [] && Approved(outs[|outs| - 1])
  }

  /** The call is routed to a PSP that is configured. */
  ghost predicate Routed(c: Config, row: Payment) {
    Routing.Route(c.router, row.currency, row.amount).Adapter?
  }

  /** The charging has come to its end: cancelled, or with an outcome that is not retried. */
  predicate Ended(cap: nat, log: ChargeLog) {
    match log.halt
    case HaltedBefore(_) => |log.outs| < cap && RetryingOuts(log.outs)
    case HaltedWaiting(_) => 0 < |log.outs| < cap && RetryingOuts(log.outs)
    case NotHalted =>
      var n := |log.outs|;
      && 0 < n <= cap && RetryingOuts(log.outs[..n - 1])
      && (log.outs[n - 1].Fail? && Retry.IsRetryable(log.outs[n - 1].error) ==> n == cap)
  }

  /** The charges a call has made explain where it stands. */
  predicate OutsAt(cap: nat, pc: CreatePc, log: ChargeLog, routed: bool) {
    && |log.outs| <= cap
    && match pc
       case Insert => log == NO_CHARGES
       case Start => log == NO_CHARGES
       case Charging(_, attempt) =>
         routed && |log.outs| == attempt < cap && RetryingOuts(log.outs) && log.halt.NotHalted?
       case Settling(how) =>
         (how.AsSuccess? <==> LastApproved(log.outs)) && if routed then Ended(cap, log) else log == NO_CHARGES
       case Finished(Returned(status)) =>
         (status == Success <==> LastApproved(log.outs)) && if routed then Ended(cap, log) else log == NO_CHARGES
       case Finished(Errored(_)) => true
  }

  ghost predicate ProcOk(c: Config, s: State, r: Rid)
    requires r in s.procs
  {
    match s.procs[r]
    case Creating(row, pc, log) =>
      && r != 0
      && CreateAt(s.db, r, pc)
      && OutsAt(Retry.Cap(c.retry), pc, log, Routed(c, row))
      && multiset(s.charges)[r] == |log.outs|
      && (log.outs != [] ==> r in s.db.payments)
      && Normalised(row)
      && (pc.Insert? ==> 1 <= row.amount <= MAX_INT64)
    case Refunding(id, amount, _, _, rpc) =>
      && multiset(s.charges)[r] == 0
      && (rpc.Committing? ==> id in s.db.payments && 1 <= amount <= s.db.payments[id].amount)
      && (rpc.Reading? ==> 1 <= amount)
  }

  /** Every payment belongs to the create call that inserted it. */
  predicate Owned(s: State, id: Pid)
    requires id in s.db.payments
  {
    && id in s.procs && s.procs[id].Creating?
    && SameFacts(s.db.payments[id], s.procs[id].row)
    && 1 <= s.db.payments[id].amount <= MAX_INT64
  }

  ghost predicate UniqueKeys(db: Db) {
    forall p, q :: p in db.payments && q in db.payments && db.payments[p].key == db.payments[q].key ==> p == q
  }

  ghost predicate Inv(c: Config, s: State) {
    && Ledger(s.db)
    && UniqueKeys(s.db)
    && (forall id :: id in s.db.payments ==> Owned(s, id))
    && (forall r :: r in s.procs ==> ProcOk(c, s, r))
    && (forall r :: r in multiset(s.charges) ==> r in s.procs)
  }

  /******* One repository call *******/

  /** What any repository call may do to the tables: touch one payment, along a valid transition. */
  predicate Moves(db: Db, db': Db, id: Pid) {
    || db' == db
    || (&& id in db'.payments && db'.payments == db.payments[id := db'.payments[id]]
        && (id !in db.payments ==> db'.payments[id].status == Initiated)
        && (id in db.payments ==>
             && SameFacts(db.payments[id], db'.payments[id])
             && ValidTransition(db.payments[id].status, db'.payments[id].status)))
  }

  function Target(r: Rid, p: Proc): Pid {
    if p.Creating? then r else p.payment
  }

  lemma OperationMoves(db: Db, r: Rid, p: Proc, refundId: nat)
    requires AtStore(p)
    ensures Moves(db, Operation(db, r, p, refundId).db, Target(r, p))
  {
  }

  lemma OperationKeepsLedger(c: Config, s: State, r: Rid, refundId: nat)
    requires Ledger(s.db) && r in s.procs && ProcOk(c, s, r) && AtStore(s.procs[r])
    ensures Ledger(Operation(s.db, r, s.procs[r], refundId).db)
  {
    match s.procs[r]
    case Creating(row, Insert, _) => InsertKeepsLedger(s.db, r, row);
    case Creating(_, Start, _) => StartKeepsLedger(s.db, r);
    case Creating(_, Settling(AsSuccess(psp, reference)), _) => SuccessKeepsLedger(s.db, r, psp, reference);
    case Creating(_, Settling(AsFailure(psp, reference, reason)), _) =>
      FailureKeepsLedger(s.db, r, psp, reference, reason);
    case Refunding(id, amount, _, key, Committing) => RefundKeepsLedger(s.db, id, amount, Trim(key), refundId);
    case Refunding(_, _, _, _, Reading) =>
  }

  /** A refund only moves a successful payment to refunded. */
  lemma RefundMoves(db: Db, r: Rid, p: Proc, refundId: nat)
    requires AtStore(p) && p.Refunding?
    ensures var db' := Operation(db, r, p, refundId).db;
      db' == db || (At(db, p.payment, Success) && At(db', p.payment, Refunded))
  {
  }

  /** An insert leaves keys unique, and the new row says what the call asked for. */
  lemma InsertOwned(db: Db, r: Rid, row: Payment)
    requires UniqueKeys(db) && Normalised(row) && 1 <= row.amount <= MAX_INT64
    ensures var o := CreatePayment(db, r, row);
      && UniqueKeys(o.db)
      && (o.db == db || (r !in db.payments && o.db.payments == db.payments[r := row]))
      && (o.error.None? ==> At(o.db, r, Initiated))
      && (o.error.Some? ==> o.db == db && Explained(o.error.value))
  {
    var o := CreatePayment(db, r, row);
    if o.error.None? {
      assert o.db.payments[r] == row;
      forall p, q | p in o.db.payments && q in o.db.payments && o.db.payments[p].key == o.db.payments[q].key
        ensures p == q
      {
        assert !KeyTaken(db.payments, row.key);
      }
    }
  }

  lemma MovesKeepsKeys(db: Db, db': Db, id: Pid)
    requires UniqueKeys(db) && Moves(db, db', id) && id in db.payments
    ensures UniqueKeys(db')
  {
  }

  /** A create call's compare-and-set never loses. */
  lemma OwnCreateAt(c: Config, db: Db, r: Rid, p: Proc, reply: Reply)
    requires p.Creating? && AtStore(p) && r != 0 && CreateAt(db, r, p.pc) && Normalised(p.row) && UniqueKeys(db)
    requires p.pc.Insert? ==> 1 <= p.row.amount <= MAX_INT64
    ensures var o := Operation(db, r, p, 0);
      var db' := if reply.Failed? then db else o.db;
      && CreateAt(db', r, AfterQuery(c, db, r, p, reply, 0).pc)
      && (r in db.payments ==> r in db'.payments)
  {
    hide Routing.Route, UniqueKeys, CreatePayment, Normalised;
    if p.pc.Insert? {
      InsertOwned(db, r, p.row);
    }
  }

  lemma OwnOutsAt(c: Config, p: Proc, error: Option<Error>)
    requires p.Creating? && AtStore(p) && OutsAt(Retry.Cap(c.retry), p.pc, p.log, Routed(c, p.row))
    ensures var pc' := if error.Some? then Finished(Errored(error.value)) else CreateNext(c, p.row, p.pc);
      OutsAt(Retry.Cap(c.retry), pc', p.log, Routed(c, p.row)) && !pc'.Insert?
  {
    hide Ended;
  }

  lemma OwnRefundOk(c: Config, s: State, r: Rid, reply: Reply, refundId: nat)
    requires r in s.procs && ProcOk(c, s, r) && AtStore(s.procs[r]) && s.procs[r].Refunding?
    ensures var p' := AfterQuery(c, s.db, r, s.procs[r], reply, refundId);
      var db' := if reply.Failed? then s.db else Operation(s.db, r, s.procs[r], refundId).db;
      ProcOk(c, State(db', s.procs[r := p'], s.charges), r)
  {
  }

  /** The call itself keeps its part of the invariant. */
  lemma OwnAfterQuery(c: Config, s: State, r: Rid, reply: Reply, refundId: nat)
    requires r in s.procs && ProcOk(c, s, r) && AtStore(s.procs[r]) && UniqueKeys(s.db)
    ensures var p' := AfterQuery(c, s.db, r, s.procs[r], reply, refundId);
      var db' := if reply.Failed? then s.db else Operation(s.db, r, s.procs[r], refundId).db;
      ProcOk(c, State(db', s.procs[r := p'], s.charges), r)
  {
    var p := s.procs[r];
    if p.Refunding? {
      OwnRefundOk(c, s, r, reply, refundId);
    } else {
      OwnCreateAt(c, s.db, r, p, reply);
      OwnOutsAt(c, p, Seen(reply, Operation(s.db, r, p, 0)));
      assert Operation(s.db, r, p, refundId) == Operation(s.db, r, p, 0);
      hide CreateAt, OutsAt, Operation, CreateNext, UniqueKeys;
    }
  }

  /** Any other call: the step of `r` can only refund its payment. */
  lemma OtherAfterQuery(c: Config, s: State, s': State, r: Rid, refundId: nat, q: Rid)
    requires r in s.procs && AtStore(s.procs[r]) && q in s.procs && q != r && ProcOk(c, s, q)
    requires s'.db == s.db || s'.db == Operation(s.db, r, s.procs[r], refundId).db
    requires q in s'.procs && s'.procs[q] == s.procs[q] && s'.charges == s.charges
    ensures ProcOk(c, s', q)
  {
    hide OutsAt, Normalised, Operation;
    OperationMoves(s.db, r, s.procs[r], refundId);
    if s.procs[r].Refunding? {
      RefundMoves(s.db, r, s.procs[r], refundId);
    }
  }

  lemma OwnedAfterQuery(c: Config, s: State, s': State, r: Rid, refundId: nat, id: Pid)
    requires r in s.procs && AtStore(s.procs[r]) && ProcOk(c, s, r) && UniqueKeys(s.db)
    requires s'.db == s.db || s'.db == Operation(s.db, r, s.procs[r], refundId).db
    requires r in s'.procs && s'.procs == s.procs[r := s'.procs[r]]
    requires s.procs[r].Creating? ==> s'.procs[r].Creating? && s'.procs[r].row == s.procs[r].row
    requires s.procs[r].Refunding? ==> s'.procs[r].Refunding?
    requires id in s'.db.payments && (id in s.db.payments ==> Owned(s, id))
    ensures Owned(s', id)
  {
    OperationMoves(s.db, r, s.procs[r], refundId);
    if id !in s.db.payments {
      InsertOwned(s.db, r, s.procs[r].row);
    }
  }

  lemma QueryKeepsKeys(c: Config, s: State, r: Rid, refundId: nat)
    requires r in s.procs && AtStore(s.procs[r]) && ProcOk(c, s, r) && UniqueKeys(s.db)
    ensures UniqueKeys(Operation(s.db, r, s.procs[r], refundId).db)
  {
    var p := s.procs[r];
    OperationMoves(s.db, r, p, refundId);
    if p.Creating? && p.pc.Insert? {
      InsertOwned(s.db, r, p.row);
    } else if Target(r, p) in s.db.payments {
      MovesKeepsKeys(s.db, Operation(s.db, r, p, refundId).db, Target(r, p));
    } else {
      assert Operation(s.db, r, p, refundId).db == s.db;
    }
  }

  lemma QueryKeepsInv(c: Config, s: State, l: Label)
    requires Inv(c, s) && l.Query?
    ensures Inv(c, Apply(c, s, l))
  {
    hide Operation, ProcOk, Owned, Ledger, UniqueKeys;
    var r := l.rid;
    if r in s.procs && AtStore(s.procs[r]) {
      var s' := Apply(c, s, l);
      assert ProcOk(c, s, r);
      OperationKeepsLedger(c, s, r, l.refundId);
      QueryKeepsKeys(c, s, r, l.refundId);
      OwnAfterQuery(c, s, r, l.reply, l.refundId);
      forall id | id in s'.db.payments ensures Owned(s', id) { OwnedAfterQuery(c, s, s', r, l.refundId, id); }
      forall q | q in s'.procs && q != r ensures ProcOk(c, s', q) { OtherAfterQuery(c, s, s', r, l.refundId, q); }
    }
  }

  /******* Charging, arrivals and abandoned calls *******/

  lemma ChargeOutsAt(cap: nat, psp: string, attempt: nat, l: Label, log: ChargeLog)
    requires l.CallPsp? && OutsAt(cap, Charging(psp, attempt), log, true)
    ensures OutsAt(
        cap,
        AfterCharge(cap, psp, attempt, l),
        ChargeLog(if l.cancelled then log.outs else log.outs + [l.outcome], HaltAfter(cap, attempt, l)),
        true)
  {
    hide FailureReason, SettleCharge, Retry.IsRetryable;
    var outs' := log.outs + [l.outcome];
    assert outs'[..|log.outs|] == log.outs && outs'[|log.outs|] == l.outcome;
    assert LastApproved(outs') <==> Approved(l.outcome);
    if l.outcome.Value? {
      SettledAsApproved(psp, l.outcome.value);
    } else {
      assert Retry.IsRetryable(l.outcome.error) ==> RetryingOuts(outs');
    }
  }

  lemma SettledAsApproved(psp: string, charge: Charge)
    ensures SettleCharge(psp, charge).AsSuccess? <==> Approved(Retry.Value(charge))
  {
  }

  /** A step of `r` that leaves the tables alone. */
  predicate LocalStep(s: State, s': State, r: Rid) {
    && s'.db == s.db
    && r in s'.procs && s'.procs == s.procs[r := s'.procs[r]]
    && (r in s.procs && s.procs[r].Creating? ==> s'.procs[r].Creating? && s'.procs[r].row == s.procs[r].row)
    && (s'.charges == s.charges || s'.charges == s.charges + [r])
  }

  lemma OtherProcKept(c: Config, s: State, s': State, r: Rid, q: Rid)
    requires LocalStep(s, s', r) && q in s.procs && q != r && ProcOk(c, s, q)
    ensures ProcOk(c, s', q)
  {
    assert multiset(s.charges + [r]) == multiset(s.charges) + multiset{r};
  }

  lemma LocalStepKeepsInv(c: Config, s: State, s': State, r: Rid)
    requires Inv(c, s) && LocalStep(s, s', r) && ProcOk(c, s', r)
    ensures Inv(c, s')
  {
    assert multiset(s.charges + [r]) == multiset(s.charges) + multiset{r};
    forall q | q in s'.procs ensures ProcOk(c, s', q) {
      if q != r { OtherProcKept(c, s, s', r, q); }
    }
    forall id | id in s'.db.payments ensures Owned(s', id) { assert Owned(s, id); }
  }

  lemma ChargeProcOk(c: Config, s: State, l: Label)
    requires l.CallPsp? && l.rid in s.procs && s.procs[l.rid].Creating? && s.procs[l.rid].pc.Charging?
    requires ProcOk(c, s, l.rid)
    ensures ProcOk(c, Apply(c, s, l), l.rid)
  {
    var p := s.procs[l.rid];
    ChargeOutsAt(Retry.Cap(c.retry), p.pc.psp, p.pc.attempt, l, p.log);
    assert multiset(s.charges + [l.rid]) == multiset(s.charges) + multiset{l.rid};
  }

  lemma ChargeKeepsInv(c: Config, s: State, l: Label)
    requires Inv(c, s) && l.CallPsp?
    ensures Inv(c, Apply(c, s, l))
  {
    if l.rid in s.procs && s.procs[l.rid].Creating? && s.procs[l.rid].pc.Charging? {
      ChargeProcOk(c, s, l);
      LocalStepKeepsInv(c, s, Apply(c, s, l), l.rid);
    }
  }

  lemma NewRowNormalised(req: CreateRequest)
    ensures Normalised(NewRow(req))
  {
    TrimTwice(req.key);
    UpperTwice(Trim(req.currency));
    TrimUpperCommute(Trim(req.currency));
    TrimTwice(req.currency);
  }

  lemma ArriveKeepsInv(c: Config, s: State, l: Label)
    requires Inv(c, s) && (l.ArriveCreate? || l.ArriveRefund?)
    ensures Inv(c, Apply(c, s, l))
  {
    var s' := Apply(c, s, l);
    if l.rid !in s.procs && l.rid in s'.procs {
      assert l.rid !in s.db.payments;
      if l.ArriveCreate? { NewRowNormalised(l.req); }
      LocalStepKeepsInv(c, s, s', l.rid);
    }
  }

  lemma AbandonProcOk(c: Config, s: State, l: Label)
    requires l.Abandon? && l.rid in s.procs && ProcOk(c, s, l.rid)
    ensures ProcOk(c, Apply(c, s, l), l.rid)
  {
  }

  lemma AbandonKeepsInv(c: Config, s: State, l: Label)
    requires Inv(c, s) && l.Abandon?
    ensures Inv(c, Apply(c, s, l))
  {
    if l.rid in s.procs {
      AbandonProcOk(c, s, l);
      LocalStepKeepsInv(c, s, Apply(c, s, l), l.rid);
    }
  }

  lemma ApplyKeepsInv(c: Config, s: State, l: Label)
    requires Inv(c, s)
    ensures Inv(c, Apply(c, s, l))
  {
    match l
    case Query(_, _, _) => QueryKeepsInv(c, s, l);
    case CallPsp(_, _, _, _, _) => ChargeKeepsInv(c, s, l);
    case Abandon(_) => AbandonKeepsInv(c, s, l);
    case _ => ArriveKeepsInv(c, s, l);
  }

  lemma {:induction false} InvHolds(c: Config, ls: seq<Label>)
    ensures Inv(c, Run(c, ls))
  {
    if ls == [] {
      forall id: Pid ensures LedgerAt(INIT.db, id) {}
    } else {
      InvHolds(c, ls[..|ls| - 1]);
      ApplyKeepsInv(c, Run(c, ls[..|ls| - 1]), ls[|ls| - 1]);
    }
  }

  /******* Theorems over every run *******/

  /**
   In every reachable state, failed and half-acknowledged transactions included, each
   payment has exactly the events and refunds of its status, with its own data in them.
   */
  lemma StatusEventRefundCorrespondence(c: Config, ls: seq<Label>, id: Pid)
    ensures var db := Run(c, ls).db; LedgerOf(db, id, EventsOf(db.events, id), RefundsOf(db.refunds, id))
  {
    InvHolds(c, ls);
    assert LedgerAt(Run(c, ls).db, id);
  }

  /**
   However many refunds race, with whatever keys, at most one is in the table per payment,
   its amount is between 1 and the payment's amount, and the payment is refunded.
   */
  lemma RefundSafety(c: Config, ls: seq<Label>, i: nat, j: nat)
    requires i <= j < |Run(c, ls).db.refunds|
    requires Run(c, ls).db.refunds[i].payment == Run(c, ls).db.refunds[j].payment
    ensures i == j
    ensures var db := Run(c, ls).db;
      var id := db.refunds[i].payment;
      At(db, id, Refunded) && 1 <= db.refunds[i].amount <= db.payments[id].amount
  {
    InvHolds(c, ls);
    assert LedgerAt(Run(c, ls).db, Run(c, ls).db.refunds[i].payment);
    OneRefund(Run(c, ls).db, i, j);
  }

  lemma OneRefund(db: Db, i: nat, j: nat)
    requires i <= j < |db.refunds| && db.refunds[i].payment == db.refunds[j].payment
    requires LedgerAt(db, db.refunds[i].payment)
    ensures i == j
    ensures var id := db.refunds[i].payment;
      At(db, id, Refunded) && 1 <= db.refunds[i].amount <= db.payments[id].amount
  {
    var id := db.refunds[i].payment;
    RefundIsListed(db.refunds, i, id);
    if i < j { TwoRefundsListed(db.refunds, i, j, id); }
  }

  lemma {:induction false} RefundIsListed(rs: seq<Refund>, i: nat, id: Pid)
    requires i < |rs| && rs[i].payment == id
    ensures rs[i] in RefundsOf(rs, id)
  {
    if i < |rs| - 1 {
      RefundIsListed(rs[..|rs| - 1], i, id);
    }
  }

  lemma {:induction false} TwoRefundsListed(rs: seq<Refund>, i: nat, j: nat, id: Pid)
    requires i < j < |rs| && rs[i].payment == rs[j].payment == id
    ensures |RefundsOf(rs, id)| >= 2
  {
    if j < |rs| - 1 {
      TwoRefundsListed(rs[..|rs| - 1], i, j, id);
    } else {
      RefundIsListed(rs[..|rs| - 1], i, id);
    }
  }

  /** For each idempotency key at most one create call ever charges, and within the retry cap. */
  lemma ChargeBound(c: Config, ls: seq<Label>, r1: Rid, r2: Rid)
    requires r1 in multiset(Run(c, ls).charges) && r2 in multiset(Run(c, ls).charges)
    ensures var s := Run(c, ls);
      && r1 in s.procs && s.procs[r1].Creating? && r2 in s.procs && s.procs[r2].Creating?
      && multiset(s.charges)[r1] <= (if c.retry.maxAttempts > 0 then c.retry.maxAttempts else 3)
      && (s.procs[r1].row.key == s.procs[r2].row.key ==> r1 == r2)
  {
    var s := Run(c, ls);
    InvHolds(c, ls);
    assert ProcOk(c, s, r1) && ProcOk(c, s, r2);
    assert Owned(s, r1) && Owned(s, r2);
  }

  /**
   A create call that returns: success exactly when its last charge was captured or
   authorised, otherwise failed; the stored status is the returned one or, for success
   only, refunded.
   */
  lemma CreateOutcome(c: Config, ls: seq<Label>, r: Rid, status: Status)
    requires var s := Run(c, ls); r in s.procs && s.procs[r].Creating? && s.procs[r].pc == Finished(Returned(status))
    ensures var s := Run(c, ls);
      && (status == Success || status == Status.Failed)
      && (status == Success <==> LastApproved(s.procs[r].log.outs))
      && r in s.db.payments
      && (s.db.payments[r].status == status || (status == Success && s.db.payments[r].status == Refunded))
  {
    hide Run, Ledger, UniqueKeys;
    InvHolds(c, ls);
    assert ProcOk(c, Run(c, ls), r);
  }

  /** No create call ever loses a compare-and-set, finds its row missing or tries a bad transition. */
  lemma NoCreateMismatch(c: Config, ls: seq<Label>, r: Rid, e: Error)
    requires var s := Run(c, ls); r in s.procs && s.procs[r].Creating? && s.procs[r].pc == Finished(Errored(e))
    ensures e != StatusMismatch && e != NotFound && e != InvalidTransition
  {
    InvHolds(c, ls);
    assert ProcOk(c, Run(c, ls), r);
  }

  /**
   A payment that is initiated or processing belongs to the create call that inserted it,
   which has not returned, and no other payment has its key.
   */
  lemma PendingPaymentIsOwned(c: Config, ls: seq<Label>, id: Pid, other: Pid)
    requires At(Run(c, ls).db, id, Initiated) || At(Run(c, ls).db, id, Processing)
    requires other in Run(c, ls).db.payments && Run(c, ls).db.payments[other].key == Run(c, ls).db.payments[id].key
    ensures other == id
    ensures var s := Run(c, ls);
      && id in s.procs && s.procs[id].Creating? && SameFacts(s.db.payments[id], s.procs[id].row)
      && !(s.procs[id].pc.Finished? && s.procs[id].pc.result.Returned?)
  {
    InvHolds(c, ls);
    assert Owned(Run(c, ls), id) && ProcOk(c, Run(c, ls), id);
    PendingNotReturned(c, Run(c, ls), id);
  }

  lemma PendingNotReturned(c: Config, s: State, r: Rid)
    requires r in s.procs && ProcOk(c, s, r) && s.procs[r].Creating?
    requires At(s.db, r, Initiated) || At(s.db, r, Processing)
    ensures !(s.procs[r].pc.Finished? && s.procs[r].pc.result.Returned?)
  {
  }

  /** Payments are never removed, keep their facts, and change status only along valid transitions. */
  lemma StepsFollowTransitions(c: Config, ls: seq<Label>, l: Label, id: Pid)
    requires id in Run(c, ls).db.payments
    ensures var p, db' := Run(c, ls).db.payments[id], Run(c, ls + [l]).db;
      && id in db'.payments && SameFacts(p, db'.payments[id])
      && (db'.payments[id].status == p.status || ValidTransition(p.status, db'.payments[id].status))
  {
    var s := Run(c, ls);
    assert (ls + [l])[..|ls|] == ls;
    if l.Query? && l.rid in s.procs && AtStore(s.procs[l.rid]) {
      OperationMoves(s.db, l.rid, s.procs[l.rid], l.refundId);
    }
  }

  /******* The charges of a call are one execution of the retry loop *******/

  /** The behaviour of the PSP and of the context that a call has recorded. */
  function Recorded(log: ChargeLog): Retry.Script<Charge> {
    var ctxErr := if log.halt.NotHalted? then Retry.DeadlineExceeded else log.halt.ctxErr;
    Retry.Script(
      (i: nat) => if i < |log.outs| then log.outs[i] else Retry.Fail(ctxErr),
      (i: nat) => log.halt.HaltedBefore? && i == |log.outs|,
      (i: nat) => log.halt.HaltedWaiting? && i + 1 == |log.outs|,
      ctxErr)
  }

  /**
   What a returned call has recorded, cancellations included, is exactly one execution of
   the retry loop, and the call succeeds exactly when that loop returns an approved charge.
   A call that was not routed made no charge and failed.
   */
  lemma ChargesAreOneRetryLoop(c: Config, ls: seq<Label>, r: Rid, status: Status)
    requires var s := Run(c, ls); r in s.procs && s.procs[r].Creating? && s.procs[r].pc == Finished(Returned(status))
    ensures var p := Run(c, ls).procs[r];
      if Routed(c, p.row) then
        exists k: nat, result ::
          && Retry.StopsWith(Recorded(p.log), Retry.Cap(c.retry), k, |p.log.outs|, result)
          && (status == Success <==> result.Ok? && Approved(Retry.Value(result.value)))
      else
        p.log == NO_CHARGES && status == Status.Failed
  {
    hide Run, Ledger, UniqueKeys;
    InvHolds(c, ls);
    var p := Run(c, ls).procs[r];
    assert ProcOk(c, Run(c, ls), r);
    if Routed(c, p.row) {
      RecordedStops(Retry.Cap(c.retry), p.log);
    }
  }

  lemma RecordedStops(cap: nat, log: ChargeLog)
    requires Ended(cap, log)
    ensures exists k: nat, result ::
      && Retry.StopsWith(Recorded(log), cap, k, |log.outs|, result)
      && (LastApproved(log.outs) <==> result.Ok? && Approved(Retry.Value(result.value)))
  {
    var n, outs, script := |log.outs|, log.outs, Recorded(log);
    match log.halt
    case HaltedBefore(e) =>
      assert Retry.StopsWith(script, cap, n, n, Retry.Err(e));
    case HaltedWaiting(e) =>
      assert Retry.StopsWith(script, cap, n - 1, n, Retry.Err(e));
    case NotHalted =>
      assert forall i :: 0 <= i < n - 1 ==> outs[i] == outs[..n - 1][i];
      var last := outs[n - 1];
      var result :=
        if last.Value? then Retry.Ok(last.value)
        else if !Retry.IsRetryable(last.error) then Retry.Err(last.error)
        else Retry.Err(Retry.Wrapped("max retries exceeded", last.error));
      assert Retry.StopsWith(script, cap, n - 1, n, result);
  }
}
