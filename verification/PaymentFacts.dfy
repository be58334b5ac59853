/**
 What a finished call has left in the tables: the PSP, reference and reason of a payment, and
 the currency of a refund.
 */
module PaymentFacts {
  import opened Options
  import opened Text
  import opened Domain
  import opened PaymentStore
  import opened PaymentModel
  import opened PaymentProofs
  import PaymentLedger
  import Routing
  import Retry

  /******* What is recorded *******/

  /** The failure reason that goes with the status of a charge. */
  predicate ReasonFor(status: ChargeStatus, reason: string) {
    match status
    case Captured => reason == ""
    case Authorized => reason == ""
    case Declined => reason == "declined"
    case ChargeError => reason == "charge_error"
    case OtherStatus(text) => reason == "unexpected_psp_status:" + text
  }

  /** The columns that the end of a charge gives: its reference and reason, or why there was none. */
  predicate RecordsEnd(log: ChargeLog, reference: string, reason: string) {
    match log.halt
    case HaltedBefore(e) => reference == "" && reason == FailureReason(e)
    case HaltedWaiting(e) => reference == "" && reason == FailureReason(e)
    case NotHalted =>
      && log.outs != []
      && match log.outs[|log.outs| - 1]
         case Value(charge) => reference == charge.reference && ReasonFor(charge.status, reason)
         case Fail(e) =>
           && reference == ""
           && reason == FailureReason(if Retry.IsRetryable(e) then Retry.Wrapped("max retries exceeded", e) else e)
  }

  /** The columns of a payment as its route and its charges explain them. */
  ghost predicate Explains(c: Config, row: Payment, log: ChargeLog, psp: string, reference: string, reason: string) {
    match Routing.Route(c.router, row.currency, row.amount)
    case Adapter(name) => psp == name && RecordsEnd(log, reference, reason)
    case UnknownAdapter(name) => psp == "" && reference == "" && reason == "psp: unknown adapter \"" + name + "\""
    case NoRoute =>
      psp == "" && reference == "" && reason == "psp: no routing rule matched currency and amount"
  }

  function ReasonOf(how: Settlement): string {
    if how.AsSuccess? then "" else how.reason
  }

  /** A PSP error is read through any wrapping: its code, and its message if it has one. */
  lemma {:induction false} ReasonIsPspError(e: Retry.Error)
    ensures Retry.Root(e).PspError? ==>
      var pe := Retry.Root(e); FailureReason(e) == if pe.message == "" then pe.code else pe.code + ": " + pe.message
    ensures !Retry.Root(e).PspError? && !e.Wrapped? ==>
      FailureReason(e) == match e
                          case DeadlineExceeded => "context deadline exceeded"
                          case NetworkError(text) => text
                          case OtherError(text) => text
                          case _ => ""
    ensures !Retry.Root(e).PspError? && e.Wrapped? ==> FailureReason(e) == e.prefix + ": " + FailureReason(e.inner)
  {
    if e.Wrapped? {
      ReasonIsPspError(e.inner);
      FoundAtRoot(e);
      FoundAtRoot(e.inner);
    }
  }

  lemma {:induction false} FoundAtRoot(e: Retry.Error)
    ensures FindPspError(e) == if Retry.Root(e).PspError? then Some(Retry.Root(e)) else None
  {
    if e.Wrapped? {
      FoundAtRoot(e.inner);
    }
  }

  /******* The invariant *******/

  ghost predicate FactOf(c: Config, db: Db, r: Rid, p: Proc) {
    match p
    case Creating(row, Charging(psp, _), _) => Routing.Route(c.router, row.currency, row.amount) == Routing.Adapter(psp)
    case Creating(row, Settling(how), log) => Explains(c, row, log, how.psp, how.reference, ReasonOf(how))
    case Creating(row, Finished(Returned(_)), log) =>
      r in db.payments && Explains(c, row, log, db.payments[r].psp, db.payments[r].reference, db.payments[r].reason)
    case Refunding(id, _, currency, _, rpc) =>
      rpc == Committing || rpc == RefundFinished(None) ==>
        id in db.payments && db.payments[id].currency == ToUpper(Trim(currency))
    case _ => true
  }

  ghost predicate Facts(c: Config, s: State) {
    forall r :: r in s.procs ==> FactOf(c, s.db, r, s.procs[r])
  }

  /** What an operation does to the columns of a payment that has been settled. */
  predicate ColumnsKept(db: Db, db': Db, id: Pid) {
    id in db.payments ==>
      && id in db'.payments && db'.payments[id].currency == db.payments[id].currency
      && (db.payments[id].status in {Success, Status.Failed, Refunded} ==>
            && db'.payments[id].psp == db.payments[id].psp
            && db'.payments[id].reference == db.payments[id].reference
            && db'.payments[id].reason == db.payments[id].reason)
  }

  lemma OperationKeepsColumns(db: Db, r: Rid, p: Proc, refundId: nat, id: Pid)
    requires AtStore(p)
    ensures ColumnsKept(db, Operation(db, r, p, refundId).db, id)
  {
  }

  /** Charging ends as its own outcome says. */
  lemma ChargeExplains(c: Config, row: Payment, psp: string, attempt: nat, l: Label, log: ChargeLog)
    requires l.CallPsp? && Routing.Route(c.router, row.currency, row.amount) == Routing.Adapter(psp)
    ensures var pc' := AfterCharge(Retry.Cap(c.retry), psp, attempt, l);
      var outs' := if l.cancelled then log.outs else log.outs + [l.outcome];
      var log' := ChargeLog(outs', HaltAfter(Retry.Cap(c.retry), attempt, l));
      && (pc'.Charging? ==> pc'.psp == psp)
      && (pc'.Settling? ==> Explains(c, row, log', pc'.how.psp, pc'.how.reference, ReasonOf(pc'.how)))
  {
    hide FailureReason, Retry.IsRetryable, Routing.Route;
  }

  /** A settled payment has the columns it was settled with. */
  lemma SettledColumns(c: Config, db: Db, r: Rid, p: Proc, reply: Reply)
    requires p.Creating? && p.pc.Settling? && reply.Ok?
    requires r != 0 && At(db, r, Processing) && db.payments[r].reason == ""
    ensures var o := Operation(db, r, p, 0);
      && o.error.None? && r in o.db.payments
      && var row := o.db.payments[r];
         row.psp == p.pc.how.psp && row.reference == p.pc.how.reference && row.reason == ReasonOf(p.pc.how)
  {
  }

  predicate IsReturned(p: Proc) {
    p.Creating? && p.pc.Finished? && p.pc.result.Returned?
  }

  /** Whoever else acts, what a call has recorded stays. */
  lemma FactKept(c: Config, db: Db, db': Db, r: Rid, p: Proc)
    requires FactOf(c, db, r, p) && ColumnsKept(db, db', r) && (p.Refunding? ==> ColumnsKept(db, db', p.payment))
    requires IsReturned(p) && r in db.payments ==> db.payments[r].status in {Success, Status.Failed, Refunded}
    ensures FactOf(c, db', r, p)
  {
    hide Explains;
  }

  lemma ChargeFact(c: Config, db: Db, r: Rid, p: Proc, l: Label)
    requires l.CallPsp? && p.Creating? && p.pc.Charging? && FactOf(c, db, r, p)
    ensures FactOf(c, db, r, ChargeProc(c, p, l))
  {
    ChargeExplains(c, p.row, p.pc.psp, p.pc.attempt, l, p.log);
    hide Explains, AfterCharge, HaltAfter;
  }

  lemma RefundFact(c: Config, db: Db, r: Rid, p: Proc, reply: Reply, refundId: nat)
    requires p.Refunding? && AtStore(p) && FactOf(c, db, r, p)
    ensures var db' := if reply.Failed? then db else Operation(db, r, p, refundId).db;
      FactOf(c, db', r, AfterQuery(c, db, r, p, reply, refundId))
  {
    OperationKeepsColumns(db, r, p, refundId, p.payment);
  }

  lemma StartFact(c: Config, db: Db, r: Rid, p: Proc)
    requires p.Creating? && p.pc.Start?
    ensures FactOf(c, db, r, p.(pc := CreateNext(c, p.row, p.pc)))
  {
  }

  lemma CreateFact(c: Config, db: Db, r: Rid, p: Proc, reply: Reply, refundId: nat)
    requires p.Creating? && AtStore(p) && FactOf(c, db, r, p)
    requires p.pc.Settling? ==> At(db, r, Processing) && r != 0 && db.payments[r].reason == ""
    ensures var db' := if reply.Failed? then db else Operation(db, r, p, refundId).db;
      FactOf(c, db', r, AfterQuery(c, db, r, p, reply, refundId))
  {
    if p.pc.Settling? && reply.Ok? {
      SettledColumns(c, db, r, p, reply);
    } else if p.pc.Start? {
      StartFact(c, Operation(db, r, p, refundId).db, r, p);
      hide CreateNext;
    }
    hide Explains, Operation;
  }

  lemma OwnFact(c: Config, s: State, l: Label)
    requires l.rid in s.procs && ProcOk(c, s, l.rid) && FactOf(c, s.db, l.rid, s.procs[l.rid])
    requires PaymentLedger.LedgerAt(s.db, l.rid)
    ensures var s' := Apply(c, s, l); l.rid in s'.procs && FactOf(c, s'.db, l.rid, s'.procs[l.rid])
  {
    var p := s.procs[l.rid];
    if l.Query? && AtStore(p) {
      if p.Refunding? {
        RefundFact(c, s.db, l.rid, p, l.reply, l.refundId);
      } else {
        CreateFact(c, s.db, l.rid, p, l.reply, l.refundId);
      }
    } else if l.CallPsp? && p.Creating? && p.pc.Charging? {
      ChargeFact(c, s.db, l.rid, p, l);
    }
    hide Explains, OutsAt, Operation, AfterQuery, ChargeProc;
  }

  lemma StepKeepsColumns(c: Config, s: State, l: Label, id: Pid)
    ensures ColumnsKept(s.db, Apply(c, s, l).db, id)
  {
    if l.Query? && l.rid in s.procs && AtStore(s.procs[l.rid]) {
      OperationKeepsColumns(s.db, l.rid, s.procs[l.rid], l.refundId, id);
    }
    hide Operation, AfterQuery, ChargeProc;
  }

  lemma OtherSame(c: Config, s: State, l: Label, q: Rid)
    requires q in s.procs && q != l.rid
    ensures var s' := Apply(c, s, l); q in s'.procs && s'.procs[q] == s.procs[q]
  {
    hide Operation, AfterQuery, ChargeProc;
  }

  lemma ReturnedIsSettled(c: Config, s: State, q: Rid)
    requires q in s.procs && ProcOk(c, s, q)
    ensures IsReturned(s.procs[q]) && q in s.db.payments ==>
      s.db.payments[q].status in {Success, Status.Failed, Refunded}
  {
    hide OutsAt;
  }

  lemma OtherFact(c: Config, s: State, l: Label, q: Rid)
    requires q in s.procs && q != l.rid && ProcOk(c, s, q) && FactOf(c, s.db, q, s.procs[q])
    ensures var s' := Apply(c, s, l); q in s'.procs && FactOf(c, s'.db, q, s'.procs[q])
  {
    hide Apply, FactOf, ProcOk, ColumnsKept;
    var p := s.procs[q];
    OtherSame(c, s, l, q);
    ReturnedIsSettled(c, s, q);
    StepKeepsColumns(c, s, l, q);
    if p.Refunding? { StepKeepsColumns(c, s, l, p.payment); }
    FactKept(c, s.db, Apply(c, s, l).db, q, p);
  }

  lemma {:induction false} FactsHold(c: Config, ls: seq<Label>)
    ensures Facts(c, Run(c, ls))
  {
    if ls != [] {
      var s, l := Run(c, ls[..|ls| - 1]), ls[|ls| - 1];
      FactsHold(c, ls[..|ls| - 1]);
      InvHolds(c, ls[..|ls| - 1]);
      assert PaymentLedger.LedgerAt(s.db, l.rid);
      hide Apply, FactOf, ProcOk, UniqueKeys, PaymentLedger.LedgerAt;
      forall r | r in Apply(c, s, l).procs ensures FactOf(c, Apply(c, s, l).db, r, Apply(c, s, l).procs[r]) {
        if r !in s.procs { NewFact(c, s, l, r); }
        else if r == l.rid { OwnFact(c, s, l); }
        else { OtherFact(c, s, l, r); }
      }
    }
  }

  lemma NewFact(c: Config, s: State, l: Label, r: Rid)
    requires r in Apply(c, s, l).procs && r !in s.procs
    ensures FactOf(c, Apply(c, s, l).db, r, Apply(c, s, l).procs[r])
  {
  }

  /******* Theorems *******/

  /**
   A payment whose create call has returned names the adapter that routing selects, and has
   the reference and the reason that its last charge, or the lack of one, gives.
   */
  lemma SettledAsCharged(c: Config, ls: seq<Label>, r: Rid, status: Status)
    requires var s := Run(c, ls); r in s.procs && s.procs[r].Creating? && s.procs[r].pc == Finished(Returned(status))
    ensures var s := Run(c, ls);
      && r in s.db.payments
      && var p := s.db.payments[r]; Explains(c, s.procs[r].row, s.procs[r].log, p.psp, p.reference, p.reason)
  {
    FactsHold(c, ls);
    assert FactOf(c, Run(c, ls).db, r, Run(c, ls).procs[r]);
  }

  /** A refund that is about to commit or has been committed names the currency of its payment. */
  lemma RefundNamesCurrency(c: Config, ls: seq<Label>, r: Rid)
    requires var s := Run(c, ls);
      r in s.procs && s.procs[r].Refunding? && (s.procs[r].rpc == Committing || s.procs[r].rpc == RefundFinished(None))
    ensures var s := Run(c, ls);
      && s.procs[r].payment in s.db.payments
      && s.db.payments[s.procs[r].payment].currency == ToUpper(Trim(s.procs[r].currency))
  {
    FactsHold(c, ls);
    assert FactOf(c, Run(c, ls).db, r, Run(c, ls).procs[r]);
  }
}
