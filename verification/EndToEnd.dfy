/**
 Payments and their webhooks together: the product of the payment service and the outbox
 workers, joined by the transaction that commits an event and its outbox row at once.
 */
module EndToEnd {
  import opened Options
  import opened Domain
  import opened PaymentStore
  import opened PaymentLedger
  import P = PaymentModel
  import PaymentProofs
  import O = OutboxModel
  import OutboxSafety
  import OutboxSingle
  import OutboxProgress

  /** `url` is the merchant registry: where a merchant wants its webhooks. */
  datatype Config = Config(pay: P.Config, out: O.Config, url: nat -> string)

  datatype State = State(pay: P.State, out: O.State)

  const INIT := State(P.INIT, O.INIT)

  /** A step of the payment service, or one of the workers and the clock. */
  datatype Label = Pay(pay: P.Label) | Out(out: O.Label)

  /** The row that is inserted with the event at position `k`. */
  function RowFor(c: Config, events: seq<Event>, k: nat): O.Label
    requires k < |events|
  {
    O.Enqueue(k, c.url(events[k].merchant))
  }

  /**
   The outbox part of a label.  A committed event enqueues its row in the same transaction,
   and nothing else enqueues.
   */
  ghost function OutStep(c: Config, s: State, l: Label): Option<O.Label> {
    match l
    case Pay(pl) =>
      var events' := P.Apply(c.pay, s.pay, pl).db.events;
      if |s.pay.db.events| < |events'| then Some(RowFor(c, events', |s.pay.db.events|)) else None
    case Out(ol) => if ol.Enqueue? then None else Some(ol)
  }

  ghost function Apply(c: Config, s: State, l: Label): State {
    var step := OutStep(c, s, l);
    State(
      if l.Pay? then P.Apply(c.pay, s.pay, l.pay) else s.pay,
      if step.Some? then O.Apply(c.out, s.out, step.value) else s.out)
  }

  ghost function Run(c: Config, ls: seq<Label>): State {
    if ls == [] then INIT else Apply(c, Run(c, ls[..|ls| - 1]), ls[|ls| - 1])
  }

  lemma RunExtend(c: Config, ls: seq<Label>, l: Label)
    ensures Run(c, ls + [l]) == Apply(c, Run(c, ls), l)
  {
    assert (ls + [l])[..|ls|] == ls;
  }

  /******* Each part runs as it does alone *******/

  function PayLabels(ls: seq<Label>): seq<P.Label> {
    if ls == [] then []
    else PayLabels(ls[..|ls| - 1]) + if ls[|ls| - 1].Pay? then [ls[|ls| - 1].pay] else []
  }

  ghost function OutLabels(c: Config, ls: seq<Label>): seq<O.Label> {
    if ls == [] then []
    else
      var step := OutStep(c, Run(c, ls[..|ls| - 1]), ls[|ls| - 1]);
      OutLabels(c, ls[..|ls| - 1]) + if step.Some? then [step.value] else []
  }

  /** So every theorem about payments and every theorem about the outbox holds of the product. */
  lemma {:induction false} Projects(c: Config, ls: seq<Label>)
    ensures Run(c, ls).pay == P.Run(c.pay, PayLabels(ls))
    ensures Run(c, ls).out == O.Run(c.out, OutLabels(c, ls))
  {
    if ls != [] {
      var rest, l := ls[..|ls| - 1], ls[|ls| - 1];
      Projects(c, rest);
      if l.Pay? { P.RunExtend(c.pay, PayLabels(rest), l.pay); }
      var step := OutStep(c, Run(c, rest), l);
      if step.Some? { O.RunExtend(c.out, OutLabels(c, rest), step.value); }
      assert PayLabels(rest) + [] == PayLabels(rest) && OutLabels(c, rest) + [] == OutLabels(c, rest);
    }
  }

  /******* Events and rows correspond *******/

  /** There is a row for each event and no other, and it goes to the event's merchant. */
  ghost predicate Linked(c: Config, s: State) {
    && (forall k: nat :: k in s.out.rows <==> k < |s.pay.db.events|)
    && (forall k :: k in s.out.rows ==> s.out.rows[k].url == c.url(s.pay.db.events[k].merchant))
  }

  /** A step of the service commits at most one event. */
  lemma EventsGrow(c: P.Config, s: P.State, l: P.Label)
    ensures var es, es' := s.db.events, P.Apply(c, s, l).db.events;
      es' == es || (|es'| == |es| + 1 && es'[..|es|] == es)
  {
  }

  lemma PayKeepsLinked(c: Config, s: State, l: P.Label)
    requires Linked(c, s)
    ensures Linked(c, Apply(c, s, Pay(l)))
  {
    hide P.Apply;
    EventsGrow(c.pay, s.pay, l);
    var n, events' := |s.pay.db.events|, P.Apply(c.pay, s.pay, l).db.events;
    assert forall k :: 0 <= k < n && n < |events'| ==> events'[k] == events'[..n][k];
    if n < |events'| {
      EnqueueAddsRow(c.out, s.out, n, c.url(events'[n].merchant));
    }
  }

  lemma EnqueueAddsRow(c: O.Config, s: O.State, k: O.Eid, url: string)
    requires k !in s.rows
    ensures O.Apply(c, s, O.Enqueue(k, url)).rows == s.rows[k := O.NewRow(url, s.now)]
  {
  }

  lemma OutKeepsLinked(c: Config, s: State, l: O.Label)
    requires Linked(c, s)
    ensures Linked(c, Apply(c, s, Out(l)))
  {
    hide O.Apply;
    if !l.Enqueue? {
      OutboxProgress.KeysStay(c.out, s.out, l);
      OutboxSafety.ApplyGrows(c.out, s.out, l);
    }
  }

  lemma {:induction false} LinkedHolds(c: Config, ls: seq<Label>)
    ensures Linked(c, Run(c, ls))
  {
    if ls != [] {
      LinkedHolds(c, ls[..|ls| - 1]);
      match ls[|ls| - 1]
      case Pay(l) => PayKeepsLinked(c, Run(c, ls[..|ls| - 1]), l);
      case Out(l) => OutKeepsLinked(c, Run(c, ls[..|ls| - 1]), l);
    }
  }

  /** In every reachable state outbox rows and committed events correspond one to one. */
  lemma RowPerEvent(c: Config, ls: seq<Label>, k: nat)
    ensures var s := Run(c, ls);
      && (k in s.out.rows <==> k < |s.pay.db.events|)
      && (k in s.out.rows ==> s.out.rows[k].url == c.url(s.pay.db.events[k].merchant))
  {
    LinkedHolds(c, ls);
  }

  /******* What a webhook says is so *******/

  lemma {:induction false} EventIsListed(es: seq<Event>, k: nat)
    requires k < |es|
    ensures es[k] in EventsOf(es, es[k].payment)
  {
    if k < |es| - 1 {
      EventIsListed(es[..|es| - 1], k);
    }
  }

  lemma {:induction false} ListedIsEvent(es: seq<Event>, id: Pid, e: Event) returns (k: nat)
    requires e in EventsOf(es, id)
    ensures k < |es| && es[k] == e && e.payment == id
  {
    var last := |es| - 1;
    if es[last].payment == id && es[last] == e {
      k := last;
    } else {
      k := ListedIsEvent(es[..last], id, e);
    }
  }

  lemma {:induction false} ListedIsRefund(rs: seq<Refund>, id: Pid, refund: Refund) returns (i: nat)
    requires refund in RefundsOf(rs, id)
    ensures i < |rs| && rs[i] == refund && refund.payment == id
  {
    var last := |rs| - 1;
    if rs[last].payment == id && rs[last] == refund {
      i := last;
    } else {
      i := ListedIsRefund(rs[..last], id, refund);
    }
  }

  /** The statuses a payment can have once an event of a kind was committed for it. */
  predicate Reached(kind: Kind, status: Status) {
    match kind
    case PaymentSuccess => status == Success || status == Refunded
    case PaymentFailed => status == Status.Failed
    case PaymentRefunded => status == Refunded
  }

  /** The event carries the id and amount of a refund of its payment. */
  predicate CarriesRefund(refunds: seq<Refund>, e: Event) {
    exists i :: 0 <= i < |refunds| &&
                refunds[i].payment == e.payment && e.refund == Some((refunds[i].id, refunds[i].amount))
  }

  /**
   Whatever the workers do, a webhook only says what is so: the payment of any row in the
   outbox exists, has reached the status the row announces, and has the merchant, amount and
   currency the row carries.  A delivered row was accepted by the merchant's endpoint.
   */
  lemma WebhooksAreTrue(c: Config, ls: seq<Label>, k: nat)
    requires O.Defaulted(c.out) && k in Run(c, ls).out.rows
    ensures var s := Run(c, ls);
      && k < |s.pay.db.events|
      && var e := s.pay.db.events[k];
         && e.payment in s.pay.db.payments
         && var p := s.pay.db.payments[e.payment];
            && Reached(e.kind, p.status)
            && e.merchant == p.merchant && e.amount == p.amount && e.currency == p.currency
            && e.psp == p.psp && e.reference == p.reference && (e.kind == PaymentFailed ==> e.reason == p.reason)
            && (e.kind == PaymentRefunded ==> CarriesRefund(s.pay.db.refunds, e))
            && (s.out.rows[k].status == O.Delivered ==> s.out.successes[k] >= 1)
  {
    hide Run, P.Run, O.Run;
    Projects(c, ls);
    LinkedHolds(c, ls);
    var s := Run(c, ls);
    var e := s.pay.db.events[k];
    PaymentProofs.StatusEventRefundCorrespondence(c.pay, PayLabels(ls), e.payment);
    EventIsListed(s.pay.db.events, k);
    if e.kind == PaymentRefunded {
      var i := ListedIsRefund(s.pay.db.refunds, e.payment, RefundsOf(s.pay.db.refunds, e.payment)[0]);
    }
    OutboxSafety.DeliveredMeansAccepted(c.out, OutLabels(c, ls), k);
  }

  /** The kind of event that announces a status. */
  function Announcement(status: Status): Option<Kind> {
    match status
    case Success => Some(PaymentSuccess)
    case Failed => Some(PaymentFailed)
    case Refunded => Some(PaymentRefunded)
    case _ => None
  }

  /** And nothing is kept back: a payment that has an outcome has a row that announces it. */
  lemma OutcomesAreAnnounced(c: Config, ls: seq<Label>, id: Pid) returns (k: nat)
    requires id in Run(c, ls).pay.db.payments && Announcement(Run(c, ls).pay.db.payments[id].status).Some?
    ensures var s := Run(c, ls);
      && k in s.out.rows && k < |s.pay.db.events|
      && s.pay.db.events[k].payment == id
      && Some(s.pay.db.events[k].kind) == Announcement(s.pay.db.payments[id].status)
  {
    hide Run, P.Run, O.Run;
    Projects(c, ls);
    LinkedHolds(c, ls);
    var db := Run(c, ls).pay.db;
    PaymentProofs.StatusEventRefundCorrespondence(c.pay, PayLabels(ls), id);
    var es := EventsOf(db.events, id);
    k := ListedIsEvent(db.events, id, es[|es| - 1]);
  }

  /******* And it can be delivered *******/

  predicate OnlyWorker(ls: seq<Label>, w: O.Wid) {
    forall i :: 0 <= i < |ls| ==> ls[i].Out? && O.ByWorker(ls[i].out) ==> ls[i].out.w == w
  }

  lemma {:induction false} OutLabelsOfWorker(c: Config, ls: seq<Label>, w: O.Wid)
    requires OnlyWorker(ls, w)
    ensures OutboxSingle.OnlyWorker(OutLabels(c, ls), w)
  {
    if ls != [] {
      OutLabelsOfWorker(c, ls[..|ls| - 1], w);
    }
  }

  /** Worker steps as steps of the product. */
  function Lift(ls: seq<O.Label>): seq<Label> {
    seq(|ls|, i requires 0 <= i < |ls| => Out(ls[i]))
  }

  lemma {:induction false} LiftRuns(c: Config, ls: seq<Label>, more: seq<O.Label>)
    requires OutboxProgress.NoneEnqueued(more)
    ensures Run(c, ls + Lift(more)).pay == Run(c, ls).pay
    ensures Run(c, ls + Lift(more)).out == O.Run(c.out, OutLabels(c, ls) + more)
  {
    hide Run, O.Run, O.Apply;
    if more == [] {
      Projects(c, ls);
      assert ls + Lift(more) == ls && OutLabels(c, ls) + more == OutLabels(c, ls);
    } else {
      var rest, l := more[..|more| - 1], more[|more| - 1];
      LiftRuns(c, ls, rest);
      assert ls + Lift(more) == ls + Lift(rest) + [Out(l)];
      RunExtend(c, ls + Lift(rest), Out(l));
      assert OutLabels(c, ls) + more == OutLabels(c, ls) + rest + [l];
      O.RunExtend(c.out, OutLabels(c, ls) + rest, l);
    }
  }

  /**
   With one worker: from every reachable state and for every strategy of the merchants, worker
   steps alone, without touching any payment, bring the outcome of every payment that has one
   to its merchant or give it up at the attempt cap.
   */
  lemma OutcomeIsDelivered(c: Config, ls: seq<Label>, w: O.Wid, id: Pid, f: OutboxProgress.Strategy)
    returns (more: seq<O.Label>, k: nat)
    requires O.Defaulted(c.out) && OnlyWorker(ls, w)
    requires id in Run(c, ls).pay.db.payments && Announcement(Run(c, ls).pay.db.payments[id].status).Some?
    ensures OutboxSingle.OnlyWorker(more, w) && OutboxProgress.Plays(c.out, Run(c, ls).out, more, f)
    ensures var s, s' := Run(c, ls), Run(c, ls + Lift(more));
      && s'.pay == s.pay
      && k < |s.pay.db.events| && s.pay.db.events[k].payment == id
      && Some(s.pay.db.events[k].kind) == Announcement(s.pay.db.payments[id].status)
      && k in s'.out.rows && OutboxSafety.Terminal(s'.out.rows[k])
  {
    hide Run, O.Run, P.Run, OutboxProgress.Plays;
    k := OutcomesAreAnnounced(c, ls, id);
    Projects(c, ls);
    OutLabelsOfWorker(c, ls, w);
    more := OutboxProgress.EventsFinish(c.out, OutLabels(c, ls), w, f);
    LiftRuns(c, ls, more);
  }
}
