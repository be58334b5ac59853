/**
 What the tables say about one payment: its status, its events and its refunds.
 */
module PaymentLedger {
  import opened Options
  import opened Text
  import opened Domain
  import opened PaymentStore

  function EventsOf(es: seq<Event>, id: Pid): seq<Event> {
    if es == [] then []
    else
      var last := es[|es| - 1];
      EventsOf(es[..|es| - 1], id) + if last.payment == id then [last] else []
  }

  function RefundsOf(rs: seq<Refund>, id: Pid): seq<Refund> {
    if rs == [] then []
    else
      var last := rs[|rs| - 1];
      RefundsOf(rs[..|rs| - 1], id) + if last.payment == id then [last] else []
  }

  lemma EventsAppend(es: seq<Event>, e: Event, id: Pid)
    ensures EventsOf(es + [e], id) == EventsOf(es, id) + if e.payment == id then [e] else []
  {
    assert (es + [e])[..|es|] == es;
  }

  lemma RefundsAppend(rs: seq<Refund>, r: Refund, id: Pid)
    ensures RefundsOf(rs + [r], id) == RefundsOf(rs, id) + if r.payment == id then [r] else []
  {
    assert (rs + [r])[..|rs|] == rs;
  }

  /**
   Exactly the events and refunds that belong to the payment's status, in commit order,
   each carrying the row's own merchant, amount and currency.
   */
  predicate LedgerOf(db: Db, id: Pid, es: seq<Event>, rs: seq<Refund>) {
    if id !in db.payments then es == [] && rs == []
    else
      var p := db.payments[id];
      match p.status
      case Initiated => es == [] && rs == [] && p.reason == ""
      case Processing => es == [] && rs == [] && p.reason == ""
      case Success => rs == [] && p.reason == "" && es == [MakeEvent(id, PaymentSuccess, p, None)]
      case Failed => rs == [] && es == [MakeEvent(id, PaymentFailed, p, None)]
      case Refunded =>
        && |rs| == 1 && rs[0].payment == id && 1 <= rs[0].amount <= p.amount && p.reason == ""
        && es == [MakeEvent(id, PaymentSuccess, p.(status := Success), None),
                  MakeEvent(id, PaymentRefunded, p, Some((rs[0].id, rs[0].amount)))]
      case Other(_) => false
  }

  predicate LedgerAt(db: Db, id: Pid) {
    LedgerOf(db, id, EventsOf(db.events, id), RefundsOf(db.refunds, id))
  }

  ghost predicate Ledger(db: Db) {
    forall id: Pid :: LedgerAt(db, id)
  }

  /******* What each operation of the service does to it *******/

  lemma InsertKeepsLedger(db: Db, id: Pid, p: Payment)
    requires Ledger(db) && p.reason == ""
    ensures Ledger(CreatePayment(db, id, p).db)
  {
    var db' := CreatePayment(db, id, p).db;
    forall x: Pid ensures LedgerAt(db', x) { assert LedgerAt(db, x); }
  }

  lemma StartKeepsLedger(db: Db, id: Pid)
    requires Ledger(db)
    ensures Ledger(UpdatePaymentStatus(db, id, Initiated, Processing).db)
  {
    var db' := UpdatePaymentStatus(db, id, Initiated, Processing).db;
    forall x: Pid ensures LedgerAt(db', x) { assert LedgerAt(db, x); }
  }

  lemma SuccessKeepsLedger(db: Db, id: Pid, psp: string, reference: string)
    requires Ledger(db)
    ensures Ledger(UpdatePaymentStatusWithPSP(db, id, Processing, Success, psp, reference).db)
  {
    var db' := UpdatePaymentStatusWithPSP(db, id, Processing, Success, psp, reference).db;
    if db' != db {
      forall x: Pid ensures LedgerAt(db', x) {
        assert LedgerAt(db, x);
        EventsAppend(db.events, db'.events[|db.events|], x);
      }
    }
  }

  lemma FailureKeepsLedger(db: Db, id: Pid, psp: string, reference: string, reason: string)
    requires Ledger(db)
    ensures Ledger(UpdatePaymentFailed(db, id, Processing, psp, reference, reason).db)
  {
    var db' := UpdatePaymentFailed(db, id, Processing, psp, reference, reason).db;
    if db' != db {
      forall x: Pid ensures LedgerAt(db', x) {
        assert LedgerAt(db, x);
        EventsAppend(db.events, db'.events[|db.events|], x);
      }
    }
  }

  /** The refunded payment's ledger gains the refund and the refunded event. */
  lemma RefundLedgerAt(db: Db, db': Db, id: Pid, row: Payment, refund: Refund)
    requires LedgerAt(db, id) && At(db, id, Success)
    requires row == db.payments[id].(status := Refunded)
    requires refund.payment == id && 1 <= refund.amount <= row.amount
    requires db'.payments == db.payments[id := row] && db'.refunds == db.refunds + [refund]
    requires db'.events == db.events + [MakeEvent(id, PaymentRefunded, row, Some((refund.id, refund.amount)))]
    ensures LedgerAt(db', id)
  {
    EventsAppend(db.events, MakeEvent(id, PaymentRefunded, row, Some((refund.id, refund.amount))), id);
    RefundsAppend(db.refunds, refund, id);
  }

  lemma OtherLedgerAt(db: Db, db': Db, id: Pid, row: Payment, refund: Refund, e: Event, x: Pid)
    requires LedgerAt(db, x) && x != id && refund.payment == id && e.payment == id
    requires db' == Db(db.payments[id := row], db.refunds + [refund], db.events + [e])
    ensures LedgerAt(db', x)
  {
    EventsAppend(db.events, e, x);
    RefundsAppend(db.refunds, refund, x);
  }

  /** A refund keeps the ledger if its amount is within the payment's. */
  lemma RefundKeepsLedger(db: Db, id: Pid, amount: int, key: string, refundId: nat)
    requires Ledger(db) && (id in db.payments ==> amount <= db.payments[id].amount)
    ensures Ledger(RefundPaymentAtomic(db, id, amount, key, refundId).db)
  {
    var o := RefundPaymentAtomic(db, id, amount, key, refundId);
    if o.error.None? {
      assert LedgerAt(db, id);
      var row := db.payments[id].(status := Refunded);
      var refund := Refund(refundId, id, amount, Trim(key));
      var e := MakeEvent(id, PaymentRefunded, row, Some((refundId, amount)));
      assert o.db == Db(db.payments[id := row], db.refunds + [refund], db.events + [e]);
      RefundAppliedKeepsLedger(db, o.db, id, row, refund, e);
    }
  }

  lemma RefundAppliedKeepsLedger(db: Db, db': Db, id: Pid, row: Payment, refund: Refund, e: Event)
    requires Ledger(db) && At(db, id, Success) && row == db.payments[id].(status := Refunded)
    requires refund.payment == id && 1 <= refund.amount <= row.amount
    requires e == MakeEvent(id, PaymentRefunded, row, Some((refund.id, refund.amount)))
    requires db' == Db(db.payments[id := row], db.refunds + [refund], db.events + [e])
    ensures Ledger(db')
  {
    forall x: Pid ensures LedgerAt(db', x) {
      assert LedgerAt(db, x);
      if x == id {
        RefundLedgerAt(db, db', id, row, refund);
      } else {
        OtherLedgerAt(db, db', id, row, refund, e, x);
      }
    }
  }
}
