/**
 How far the repository alone protects the ledger.  It is more permissive than the service
 that calls it: these lemmas say exactly which committed calls keep the ledger, and that
 the others can be made in states the service reaches.
 */
module PaymentLimits {
  import opened Options
  import opened Domain
  import opened PaymentStore
  import opened PaymentLedger
  import opened PaymentModel
  import opened PaymentProofs
  import Retry
  import Text

  /** The plain status update writes no event: it is safe exactly when it moves to processing. */
  lemma PlainUpdateKeepsLedgerIff(db: Db, id: Pid, from: Status, to: Status)
    requires Ledger(db) && from != to && UpdatePaymentStatus(db, id, from, to).error.None?
    ensures Ledger(UpdatePaymentStatus(db, id, from, to).db) <==> to == Processing
  {
    var db' := UpdatePaymentStatus(db, id, from, to).db;
    assert LedgerAt(db, id);
    if to == Processing {
      forall x: Pid ensures LedgerAt(db', x) { assert LedgerAt(db, x); }
    } else {
      assert !LedgerAt(db', id);
    }
  }

  /** The update with a PSP always writes a success event: it is safe exactly when it moves to success. */
  lemma PspUpdateKeepsLedgerIff(db: Db, id: Pid, from: Status, to: Status, psp: string, reference: string)
    requires Ledger(db) && from != to && UpdatePaymentStatusWithPSP(db, id, from, to, psp, reference).error.None?
    ensures Ledger(UpdatePaymentStatusWithPSP(db, id, from, to, psp, reference).db) <==> to == Success
  {
    var db' := UpdatePaymentStatusWithPSP(db, id, from, to, psp, reference).db;
    assert LedgerAt(db, id);
    EventsAppend(db.events, db'.events[|db.events|], id);
    if to == Success {
      SuccessKeepsLedger(db, id, psp, reference);
    } else {
      var es := EventsOf(db'.events, id);
      assert es[|es| - 1].kind == PaymentSuccess;
      assert MakeEvent(id, PaymentFailed, db'.payments[id], None).kind == PaymentFailed;
      assert !LedgerAt(db', id);
    }
  }

  /** The failing update is safe from every status it accepts. */
  lemma FailedUpdateKeepsLedger(db: Db, id: Pid, from: Status, psp: string, reference: string, reason: string)
    requires Ledger(db)
    ensures Ledger(UpdatePaymentFailed(db, id, from, psp, reference, reason).db)
  {
    hide Ledger;
    if from == Processing {
      FailureKeepsLedger(db, id, psp, reference, reason);
    }
  }

  /** The refund transaction does not bound the amount: it is safe exactly when the amount is within the payment's. */
  lemma RefundKeepsLedgerIff(db: Db, id: Pid, amount: int, key: string, refundId: nat)
    requires Ledger(db) && RefundPaymentAtomic(db, id, amount, key, refundId).error.None?
    ensures Ledger(RefundPaymentAtomic(db, id, amount, key, refundId).db) <==> amount <= db.payments[id].amount
  {
    var db' := RefundPaymentAtomic(db, id, amount, key, refundId).db;
    if amount <= db.payments[id].amount {
      RefundKeepsLedger(db, id, amount, key, refundId);
    } else {
      assert LedgerAt(db, id);
      RefundsAppend(db.refunds, db'.refunds[|db.refunds|], id);
      assert !LedgerAt(db', id);
    }
  }

  /******* The failing calls can be made in reachable states *******/

  /** The call for payment 1 stands at `pc`, and nothing but that payment is in the tables. */
  predicate Alone(s: State, req: CreateRequest, pc: CreatePc, log: ChargeLog) {
    && 1 in s.procs && s.procs[1] == Creating(NewRow(req), pc, log) && s.db.refunds == []
    && if pc.Insert? then s.db.payments == map[] else s.db.payments.Keys == {1} && s.db.payments[1].amount == req.amount
  }

  lemma Arrived(c: Config, req: CreateRequest) returns (ls: seq<Label>)
    requires ValidCreate(req)
    ensures Alone(Run(c, ls), req, CreatePc.Insert, NO_CHARGES)
  {
    RunExtend(c, [], ArriveCreate(1, req));
    ls := [] + [ArriveCreate(1, req)];
  }

  lemma Inserted(c: Config, s: State, req: CreateRequest)
    requires ValidCreate(req) && Alone(s, req, CreatePc.Insert, NO_CHARGES)
    ensures var s' := Apply(c, s, Query(1, Reply.Ok, 0)); Alone(s', req, Start, NO_CHARGES) && At(s'.db, 1, Initiated)
  {
    NewRowNormalised(req);
    Text.TrimUpperCommute(req.currency);
    Text.TrimTwice(req.key);
    assert Validate(1, NewRow(req)) == (NewRow(req), None);
    assert CreatePayment(s.db, 1, NewRow(req)).db.payments == map[1 := NewRow(req)];
  }

  lemma Started(c: Config, s: State, req: CreateRequest)
    requires Alone(s, req, Start, NO_CHARGES) && At(s.db, 1, Initiated)
    ensures var s' := Apply(c, s, Query(1, Reply.Ok, 0));
      Alone(s', req, CreateNext(c, NewRow(req), Start), NO_CHARGES) && At(s'.db, 1, Processing)
  {
    hide NewRow;
  }

  /** A call of its own brings payment 1 to processing. */
  lemma ReachProcessing(c: Config, req: CreateRequest) returns (ls: seq<Label>)
    requires ValidCreate(req)
    ensures Alone(Run(c, ls), req, CreateNext(c, NewRow(req), Start), NO_CHARGES) && At(Run(c, ls).db, 1, Processing)
  {
    hide Run, Apply, Alone, At;
    ls := Arrived(c, req);
    Inserted(c, Run(c, ls), req);
    RunExtend(c, ls, Query(1, Reply.Ok, 0));
    ls := ls + [Query(1, Reply.Ok, 0)];
    Started(c, Run(c, ls), req);
    RunExtend(c, ls, Query(1, Reply.Ok, 0));
    ls := ls + [Query(1, Reply.Ok, 0)];
  }

  lemma Approve(c: Config, ls: seq<Label>, req: CreateRequest) returns (ls': seq<Label>)
    requires Routed(c, NewRow(req)) && At(Run(c, ls).db, 1, Processing)
    requires Alone(Run(c, ls), req, CreateNext(c, NewRow(req), Start), NO_CHARGES)
    ensures Run(c, ls').db == Run(c, ls).db && 1 in Run(c, ls').procs
    ensures var p := Run(c, ls').procs[1]; p.Creating? && p.pc.Settling? && p.pc.how.AsSuccess?
  {
    hide Run, NewRow;
    RunExtend(c, ls, CallPsp(1, false, Retry.Value(Charge(Captured, "ref")), false, Retry.DeadlineExceeded));
    ls' := ls + [CallPsp(1, false, Retry.Value(Charge(Captured, "ref")), false, Retry.DeadlineExceeded)];
  }

  /** With a route, an approved charge brings it to success. */
  lemma ReachSuccess(c: Config, req: CreateRequest) returns (ls: seq<Label>)
    requires ValidCreate(req) && Routed(c, NewRow(req))
    ensures var db := Run(c, ls).db; At(db, 1, Success) && db.payments[1].amount == req.amount && db.refunds == []
  {
    hide Run, Apply, NewRow;
    ls := ReachProcessing(c, req);
    ls := Approve(c, ls, req);
    Concluded(c, Run(c, ls));
    RunExtend(c, ls, Query(1, Reply.Ok, 0));
    ls := ls + [Query(1, Reply.Ok, 0)];
  }

  lemma Concluded(c: Config, s: State)
    requires 1 in s.procs && At(s.db, 1, Processing)
    requires s.procs[1].Creating? && s.procs[1].pc.Settling? && s.procs[1].pc.how.AsSuccess?
    ensures var db, db' := s.db, Apply(c, s, Query(1, Reply.Ok, 0)).db;
      At(db', 1, Success) && db'.payments[1].amount == db.payments[1].amount && db'.refunds == db.refunds
  {
  }

  lemma ReachableLedger(c: Config, ls: seq<Label>)
    ensures Ledger(Run(c, ls).db)
  {
    InvHolds(c, ls);
  }

  /** For every accepted request: the plain update to success commits, and the event is missing. */
  lemma PlainUpdateCanBreak(c: Config, req: CreateRequest) returns (ls: seq<Label>)
    requires ValidCreate(req)
    ensures var o := UpdatePaymentStatus(Run(c, ls).db, 1, Processing, Success); o.error.None? && !Ledger(o.db)
  {
    hide Run, Ledger;
    ls := ReachProcessing(c, req);
    ReachableLedger(c, ls);
    PlainUpdateKeepsLedgerIff(Run(c, ls).db, 1, Processing, Success);
  }

  /** For every accepted request: the update with a PSP to failed commits, with a success event. */
  lemma PspUpdateCanBreak(c: Config, req: CreateRequest, psp: string, reference: string) returns (ls: seq<Label>)
    requires ValidCreate(req)
    ensures var o := UpdatePaymentStatusWithPSP(Run(c, ls).db, 1, Processing, Status.Failed, psp, reference);
      o.error.None? && !Ledger(o.db)
  {
    hide Run, Ledger;
    ls := ReachProcessing(c, req);
    ReachableLedger(c, ls);
    PspUpdateKeepsLedgerIff(Run(c, ls).db, 1, Processing, Status.Failed, psp, reference);
  }

  /** For every accepted request that is routed: a refund of any larger amount commits. */
  lemma RefundCanBreak(c: Config, req: CreateRequest, amount: int, refundId: nat) returns (ls: seq<Label>)
    requires ValidCreate(req) && Routed(c, NewRow(req)) && amount > req.amount
    ensures var o := RefundPaymentAtomic(Run(c, ls).db, 1, amount, req.key, refundId); o.error.None? && !Ledger(o.db)
  {
    hide Run, Ledger;
    ls := ReachSuccess(c, req);
    ReachableLedger(c, ls);
    RefundKeepsLedgerIff(Run(c, ls).db, 1, amount, req.key, refundId);
  }
}
