/**
 The payment tables and the repository operations on them.

 Each operation is one statement or one transaction.  The functions say what it does to
 the tables; the class runs the statements in order, with rollback, and meets them.
 */
module PaymentStore {
  import opened Options
  import opened Text
  import opened Domain

  /** Payment ids are fresh UUIDs; 0 is the nil UUID. */
  type Pid = nat

  datatype Payment = Payment(
    merchant: nat,
    amount: int,
    currency: string,
    status: Status,
    key: string,
    psp: string,
    reference: string,
    reason: string)

  datatype Refund = Refund(id: nat, payment: Pid, amount: int, key: string)

  datatype Kind = PaymentSuccess | PaymentFailed | PaymentRefunded

  /** An outbox row as it is enqueued, with the payload it carries. */
  datatype Event = Event(
    payment: Pid,
    kind: Kind,
    merchant: nat,
    amount: int,
    currency: string,
    status: Status,
    psp: string,
    reference: string,
    reason: string,
    refund: Option<(nat, int)>)

  /** Refunds and events are in the order in which their transactions committed. */
  datatype Db = Db(payments: map<Pid, Payment>, refunds: seq<Refund>, events: seq<Event>)

  /** `ValidationError` is the service's own refusal, the others come from the repository. */
  datatype Error =
    | ValidationError
    | InvalidPayment
    | InvalidAmount
    | InvalidKey
    | NotFound
    | Conflict
    | StatusMismatch
    | InvalidTransition
    | StoreError

  /** What an operation returns, and the tables it leaves. */
  datatype Outcome = Outcome(db: Db, error: Option<Error>)

  /******* Insert *******/

  predicate KeyTaken(payments: map<Pid, Payment>, key: string) {
    exists p :: p in payments && payments[p].key == key
  }

  /** The checks of an insert, in order; on success the payment is normalised. */
  function Validate(id: Pid, p: Payment): (r: (Payment, Option<Error>)) {
    var key := Trim(p.key);
    var curr := Trim(ToUpper(p.currency));
    if id == 0 || p.merchant == 0 then (p, Some(InvalidPayment))
    else if key == "" || ByteLen(key) > MAX_KEY_BYTES then (p, Some(InvalidKey))
    else if p.amount <= 0 || p.amount > MAX_INT64 then (p, Some(InvalidAmount))
    else if ByteLen(curr) != 3 || !ValidCurrency(curr) then (p, Some(InvalidPayment))
    else if p.status != Initiated && p.status != Other("") then (p, Some(InvalidPayment))
    else (p.(key := key, currency := curr, status := Initiated), None)
  }

  function CreatePayment(db: Db, id: Pid, p: Payment): Outcome {
    var (row, err) := Validate(id, p);
    if err.Some? then Outcome(db, err)
    else if id in db.payments || KeyTaken(db.payments, row.key) then Outcome(db, Some(Conflict))
    else Outcome(db.(payments := db.payments[id := row]), None)
  }

  /******* Compare-and-set *******/

  predicate At(db: Db, id: Pid, status: Status) {
    id in db.payments && db.payments[id].status == status
  }

  /** Why a compare-and-set matched no row. */
  function Missed(db: Db, id: Pid): Error {
    if id in db.payments then StatusMismatch else NotFound
  }

  function UpdatePaymentStatus(db: Db, id: Pid, from: Status, to: Status): Outcome {
    if id == 0 then Outcome(db, Some(InvalidPayment))
    else if !IsKnownStatus(from) || !IsKnownStatus(to) then Outcome(db, Some(InvalidTransition))
    else if from == to then Outcome(db, None)
    else if !ValidTransition(from, to) then
      Outcome(db, Some(if At(db, id, from) then InvalidTransition else Missed(db, id)))
    else if !At(db, id, from) then Outcome(db, Some(Missed(db, id)))
    else Outcome(db.(payments := db.payments[id := db.payments[id].(status := to)]), None)
  }

  function MakeEvent(id: Pid, kind: Kind, p: Payment, refund: Option<(nat, int)>): Event {
    Event(id, kind, p.merchant, p.amount, p.currency, p.status, p.psp, p.reference, p.reason, refund)
  }

  /** Success always emits a success event, whatever the target status is. */
  function UpdatePaymentStatusWithPSP(
      db: Db, id: Pid, from: Status, to: Status, psp: string, reference: string): Outcome
  {
    if id == 0 then Outcome(db, Some(InvalidPayment))
    else if !IsKnownStatus(from) || !IsKnownStatus(to) then Outcome(db, Some(InvalidTransition))
    else if from == to then Outcome(db, None)
    else if !ValidTransition(from, to) then Outcome(db, Some(InvalidTransition))
    else if !At(db, id, from) then Outcome(db, Some(Missed(db, id)))
    else
      var row := db.payments[id].(status := to, psp := psp, reference := reference);
      var event := MakeEvent(id, PaymentSuccess, row.(reason := ""), None);
      Outcome(db.(payments := db.payments[id := row], events := db.events + [event]), None)
  }

  function UpdatePaymentFailed(db: Db, id: Pid, from: Status, psp: string, reference: string, reason: string): Outcome {
    if id == 0 then Outcome(db, Some(InvalidPayment))
    else if !IsKnownStatus(from) then Outcome(db, Some(InvalidTransition))
    else if from == Failed then Outcome(db, None)
    else if !ValidTransition(from, Failed) then Outcome(db, Some(InvalidTransition))
    else if !At(db, id, from) then Outcome(db, Some(Missed(db, id)))
    else
      var row := db.payments[id].(status := Failed, psp := psp, reference := reference, reason := reason);
      var event := MakeEvent(id, PaymentFailed, row, None);
      Outcome(db.(payments := db.payments[id := row], events := db.events + [event]), None)
  }

  /******* Refund *******/

  predicate RefundKeyTaken(refunds: seq<Refund>, key: string) {
    exists i :: 0 <= i < |refunds| && refunds[i].key == key
  }

  /** The amount is only checked to be positive here; its upper bound is the service's. */
  function RefundPaymentAtomic(db: Db, id: Pid, amount: int, rawKey: string, refundId: nat): Outcome {
    var key := Trim(rawKey);
    if id == 0 then Outcome(db, Some(InvalidPayment))
    else if key == "" || ByteLen(key) > MAX_KEY_BYTES then Outcome(db, Some(InvalidKey))
    else if amount <= 0 then Outcome(db, Some(InvalidAmount))
    else if RefundKeyTaken(db.refunds, key) then Outcome(db, Some(Conflict))
    else if id !in db.payments then Outcome(db, Some(StoreError))
    else if !At(db, id, Success) then Outcome(db, Some(StatusMismatch))
    else
      var row := db.payments[id].(status := Refunded);
      var event := MakeEvent(id, PaymentRefunded, row.(reason := ""), Some((refundId, amount)));
      Outcome(Db(db.payments[id := row], db.refunds + [Refund(refundId, id, amount, key)], db.events + [event]), None)
  }

  /******* The repository *******/

  /** Two versions of the payments differ at `id` only. */
  ghost predicate SameElsewhere(payments: map<Pid, Payment>, payments': map<Pid, Payment>, id: Pid) {
    forall q :: q != id ==>
      (q in payments <==> q in payments') && (q in payments ==> payments'[q] == payments[q])
  }

  /** Payment `id` went from one status to another along a valid transition and kept its facts. */
  ghost predicate Moved(db: Db, db': Db, id: Pid, from: Status, to: Status) {
    && ValidTransition(from, to) && At(db, id, from) && At(db', id, to) && SameElsewhere(db.payments, db'.payments, id)
    && var p, p' := db.payments[id], db'.payments[id];
       p'.merchant == p.merchant && p'.amount == p.amount && p'.currency == p.currency && p'.key == p.key
  }

  /** Exactly one event was added: of that kind, for payment `id`, with the facts of its row. */
  ghost predicate Announced(
      db: Db, db': Db, id: Pid, kind: Kind, reason: string, refund: Option<(nat, int)>)
  {
    && id in db'.payments && |db'.events| == |db.events| + 1 && db'.events[..|db.events|] == db.events
    && var e, p := db'.events[|db.events|], db'.payments[id];
       && e.payment == id && e.kind == kind && e.status == p.status && e.psp == p.psp && e.reference == p.reference
       && e.merchant == p.merchant && e.amount == p.amount && e.currency == p.currency
       && e.reason == reason && e.refund == refund
  }

  /** The tables, updated statement by statement, with rollback on error. */
  class PaymentRepo {
    var payments: map<Pid, Payment>
    var refunds: seq<Refund>
    var events: seq<Event>

    function View(): Db
      reads this
    {
      Db(payments, refunds, events)
    }

    constructor ()
      ensures View() == Db(map[], [], [])
    {
      payments, refunds, events := map[], [], [];
    }

    /** UPDATE ... SET status WHERE id AND status: tells how many rows it changed. */
    method CompareAndSet(id: Pid, from: Status, row: Payment) returns (matched: bool)
      modifies this`payments
      ensures matched == At(old(View()), id, from)
      ensures payments == if matched then old(payments)[id := row] else old(payments)
    {
      matched := id in payments && payments[id].status == from;
      if matched {
        payments := payments[id := row];
      }
    }

    method Insert(id: Pid, p: Payment) returns (error: Option<Error>)
      modifies this
      ensures CreatePayment(old(View()), id, p) == Outcome(View(), error)
      ensures error.Some? ==> View() == old(View())
      ensures refunds == old(refunds) && events == old(events) && SameElsewhere(old(payments), payments, id)
      ensures error.None? ==> id !in old(payments) && !KeyTaken(old(payments), Trim(p.key)) && At(View(), id, Initiated)
      ensures error.None? ==>
        && payments[id].merchant == p.merchant && payments[id].amount == p.amount
        && payments[id].currency == ToUpper(Trim(p.currency)) && payments[id].key == Trim(p.key)
      ensures error.None? || error.value == Conflict <==>
        && id != 0 && p.merchant != 0 && Trim(p.key) != "" && ByteLen(Trim(p.key)) <= 255
        && 1 <= p.amount <= 9_223_372_036_854_775_807 && ToUpper(Trim(p.currency)) in {"USD", "EUR", "GBP", "INR"}
        && p.status in {Initiated, Other("")}
      ensures error == Some(Conflict) ==> id in old(payments) || KeyTaken(old(payments), Trim(p.key))
    {
      TrimUpperCommute(p.currency);
      if ValidCurrency(ToUpper(Trim(p.currency))) { CodeLength(ToUpper(Trim(p.currency))); }
      var (row, err) := Validate(id, p);
      if err.Some? {
        return err;
      }
      if id in payments || exists q :: q in payments && payments[q].key == row.key {
        return Some(Conflict);
      }
      payments := payments[id := row];
      return None;
    }

    method UpdateStatus(id: Pid, from: Status, to: Status) returns (error: Option<Error>)
      modifies this
      ensures UpdatePaymentStatus(old(View()), id, from, to) == Outcome(View(), error)
      ensures error.Some? || from == to ==> View() == old(View())
      ensures error.None? && from != to ==> Moved(old(View()), View(), id, from, to)
      ensures error.None? && from != to ==> payments[id] == old(payments)[id].(status := to)
      ensures refunds == old(refunds) && events == old(events)
      ensures from != to ==> (error.None? <==> id != 0 && ValidTransition(from, to) && At(old(View()), id, from))
      ensures error == Some(NotFound) ==> id !in old(payments)
      ensures error == Some(StatusMismatch) ==> id in old(payments) && old(payments)[id].status != from
    {
      if id == 0 { return Some(InvalidPayment); }
      if !IsKnownStatus(from) || !IsKnownStatus(to) { return Some(InvalidTransition); }
      if from == to { return None; }
      if !ValidTransition(from, to) {
        if id !in payments { return Some(NotFound); }
        if payments[id].status != from { return Some(StatusMismatch); }
        return Some(InvalidTransition);
      }
      var row := if id in payments then payments[id].(status := to) else Payment(0, 0, "", to, "", "", "", "");
      var matched := CompareAndSet(id, from, row);
      if !matched {
        return Some(if id in payments then StatusMismatch else NotFound);
      }
      return None;
    }

    method UpdateStatusWithPSP(id: Pid, from: Status, to: Status, psp: string, reference: string)
      returns (error: Option<Error>)
      modifies this
      ensures UpdatePaymentStatusWithPSP(old(View()), id, from, to, psp, reference) == Outcome(View(), error)
      ensures error.Some? || from == to ==> View() == old(View())
      ensures error.None? && from != to ==>
        && Moved(old(View()), View(), id, from, to) && Announced(old(View()), View(), id, PaymentSuccess, "", None)
        && payments[id].psp == psp && payments[id].reference == reference
        && payments[id].reason == old(payments)[id].reason
      ensures refunds == old(refunds)
      ensures from != to ==> (error.None? <==> id != 0 && ValidTransition(from, to) && At(old(View()), id, from))
      ensures error == Some(NotFound) ==> id !in old(payments)
      ensures error == Some(StatusMismatch) ==> id in old(payments) && old(payments)[id].status != from
    {
      if id == 0 { return Some(InvalidPayment); }
      if !IsKnownStatus(from) || !IsKnownStatus(to) { return Some(InvalidTransition); }
      if from == to { return None; }
      if !ValidTransition(from, to) { return Some(InvalidTransition); }
      if id !in payments { return Some(NotFound); }
      var row := payments[id].(status := to, psp := psp, reference := reference);
      var matched := CompareAndSet(id, from, row);
      if !matched { return Some(StatusMismatch); }
      events := events + [MakeEvent(id, PaymentSuccess, row.(reason := ""), None)];
      return None;
    }

    method UpdateFailed(id: Pid, from: Status, psp: string, reference: string, reason: string)
      returns (error: Option<Error>)
      modifies this
      ensures UpdatePaymentFailed(old(View()), id, from, psp, reference, reason) == Outcome(View(), error)
      ensures error.Some? || from == Failed ==> View() == old(View())
      ensures error.None? && from != Failed ==>
        && Moved(old(View()), View(), id, from, Failed)
        && Announced(old(View()), View(), id, PaymentFailed, reason, None)
        && payments[id].psp == psp && payments[id].reference == reference && payments[id].reason == reason
      ensures refunds == old(refunds)
      ensures from != Failed ==> (error.None? <==> id != 0 && from == Processing && At(old(View()), id, from))
      ensures error == Some(NotFound) ==> id !in old(payments)
      ensures error == Some(StatusMismatch) ==> id in old(payments) && old(payments)[id].status != from
    {
      if id == 0 { return Some(InvalidPayment); }
      if !IsKnownStatus(from) { return Some(InvalidTransition); }
      if from == Failed { return None; }
      if !ValidTransition(from, Failed) { return Some(InvalidTransition); }
      if id !in payments { return Some(NotFound); }
      var row := payments[id].(status := Failed, psp := psp, reference := reference, reason := reason);
      var matched := CompareAndSet(id, from, row);
      if !matched { return Some(StatusMismatch); }
      events := events + [MakeEvent(id, PaymentFailed, row, None)];
      return None;
    }

    /** The refund row is inserted first; when the compare-and-set loses, it is rolled back. */
    method RefundAtomic(id: Pid, amount: int, rawKey: string, refundId: nat) returns (error: Option<Error>)
      modifies this
      ensures RefundPaymentAtomic(old(View()), id, amount, rawKey, refundId) == Outcome(View(), error)
      ensures error.Some? ==> View() == old(View())
      ensures error.None? ==>
        && Moved(old(View()), View(), id, Success, Refunded)
        && Announced(old(View()), View(), id, PaymentRefunded, "", Some((refundId, amount)))
        && payments[id] == old(payments)[id].(status := Refunded)
        && amount > 0 && !RefundKeyTaken(old(refunds), Trim(rawKey))
        && refunds == old(refunds) + [Refund(refundId, id, amount, Trim(rawKey))]
      ensures error.None? <==>
        && id != 0 && Trim(rawKey) != "" && ByteLen(Trim(rawKey)) <= 255 && amount > 0
        && !RefundKeyTaken(old(refunds), Trim(rawKey)) && At(old(View()), id, Success)
      ensures error == Some(Conflict) ==> RefundKeyTaken(old(refunds), Trim(rawKey))
      ensures error == Some(StatusMismatch) ==> id in old(payments) && old(payments)[id].status != Success
    {
      var key := Trim(rawKey);
      if id == 0 { return Some(InvalidPayment); }
      if key == "" || ByteLen(key) > MAX_KEY_BYTES { return Some(InvalidKey); }
      if amount <= 0 { return Some(InvalidAmount); }
      var saved := refunds;
      if exists i :: 0 <= i < |refunds| && refunds[i].key == key { return Some(Conflict); }
      if id !in payments { return Some(StoreError); }
      refunds := refunds + [Refund(refundId, id, amount, key)];
      var row := payments[id].(status := Refunded);
      var matched := CompareAndSet(id, Success, row);
      if !matched {
        refunds := saved;
        return Some(StatusMismatch);
      }
      events := events + [MakeEvent(id, PaymentRefunded, row.(reason := ""), Some((refundId, amount)))];
      return None;
    }
  }
}
