/**
 The payment service as a transition system.

 Any number of CreatePayment and RefundPayment calls interleave at their repository calls
 and at their PSP charges.  A repository call may fail without effect, and may also
 commit although the caller sees an error.  A call may be abandoned at any point.
 */
module PaymentModel {
  import opened Options
  import opened Text
  import opened Domain
  import opened PaymentStore
  import Routing
  import Retry

  /** Identifies one service call.  A create call uses it as its fresh payment id. */
  type Rid = nat

  datatype Config = Config(router: Routing.Router, retry: Retry.Config)

  /******* Charges *******/

  datatype ChargeStatus = Captured | Authorized | Declined | ChargeError | OtherStatus(text: string)
  datatype Charge = Charge(status: ChargeStatus, reference: string)

  type ChargeOutcome = Retry.Attempt<Charge>

  predicate Approved(o: ChargeOutcome) {
    o.Value? && (o.value.status.Captured? || o.value.status.Authorized?)
  }

  /** How a create call records the end of its charging. */
  datatype Settlement =
    | AsSuccess(psp: string, reference: string)
    | AsFailure(psp: string, reference: string, reason: string)

  function ErrorText(e: Retry.Error): string {
    match e
    case PspError(code, message, _) => if message != "" then "psp: " + code + ": " + message else "psp: " + code
    case DeadlineExceeded => "context deadline exceeded"
    case NetworkError(text) => text
    case OtherError(text) => text
    case Wrapped(prefix, inner) => prefix + ": " + ErrorText(inner)
  }

  /** The PSP error inside an error, if there is one. */
  function FindPspError(e: Retry.Error): Option<Retry.Error> {
    match e
    case PspError(_, _, _) => Some(e)
    case Wrapped(_, inner) => FindPspError(inner)
    case _ => None
  }

  function FailureReason(e: Retry.Error): string {
    match FindPspError(e)
    case Some(PspError(code, message, _)) => if message != "" then code + ": " + message else code
    case _ => ErrorText(e)
  }

  function SettleCharge(psp: string, c: Charge): Settlement {
    match c.status
    case Captured => AsSuccess(psp, c.reference)
    case Authorized => AsSuccess(psp, c.reference)
    case Declined => AsFailure(psp, c.reference, "declined")
    case ChargeError => AsFailure(psp, c.reference, "charge_error")
    case OtherStatus(text) => AsFailure(psp, c.reference, "unexpected_psp_status:" + text)
  }

  /******* Calls in progress *******/

  datatype CreateResult = Returned(status: Status) | Errored(error: Error)

  datatype CreatePc =
    | Insert
    | Start
    | Charging(psp: string, attempt: nat)
    | Settling(how: Settlement)
    | Finished(result: CreateResult)

  datatype RefundPc = Reading | Committing | RefundFinished(error: Option<Error>)

  /** Whether cancellation ended the charging: before the next charge, or while waiting for it. */
  datatype Halt = NotHalted | HaltedBefore(ctxErr: Retry.Error) | HaltedWaiting(ctxErr: Retry.Error)

  /** The outcomes of the charges a call has made, in order, and how cancellation ended them. */
  datatype ChargeLog = ChargeLog(outs: seq<ChargeOutcome>, halt: Halt)

  const NO_CHARGES := ChargeLog([], NotHalted)

  datatype Proc =
    | Creating(row: Payment, pc: CreatePc, log: ChargeLog)
    | Refunding(payment: Pid, amount: int, currency: string, key: string, rpc: RefundPc)

  datatype State = State(db: Db, procs: map<Rid, Proc>, charges: seq<Rid>)

  const INIT := State(Db(map[], [], []), map[], [])

  datatype Reply = Ok | Failed | Unacked

  datatype Label =
    | ArriveCreate(rid: Rid, req: CreateRequest)
    | ArriveRefund(rid: Rid, payment: Pid, refund: RefundRequest)
    | Query(rid: Rid, reply: Reply, refundId: nat)
    | CallPsp(rid: Rid, cancelled: bool, outcome: ChargeOutcome, cancelledWaiting: bool, ctxErr: Retry.Error)
    | Abandon(rid: Rid)

  function NewRow(req: CreateRequest): Payment {
    Payment(req.merchant, req.amount, ToUpper(Trim(req.currency)), Initiated, Trim(req.key), "", "", "")
  }

  /******* Repository calls *******/

  predicate AtStore(p: Proc) {
    match p
    case Creating(_, pc, _) => pc.Insert? || pc.Start? || pc.Settling?
    case Refunding(_, _, _, _, rpc) => !rpc.RefundFinished?
  }

  /** The reading half of a refund: every check the service makes on its snapshot. */
  function CheckRefund(db: Db, id: Pid, amount: int, currency: string): Option<Error> {
    if id !in db.payments then Some(NotFound)
    else if db.payments[id].status != Success then Some(ValidationError)
    else if db.payments[id].currency != ToUpper(Trim(currency)) then Some(ValidationError)
    else if amount > db.payments[id].amount || amount > MAX_INT64 then Some(ValidationError)
    else None
  }

  /** The repository call that `r` makes next, and its outcome on the present tables. */
  function Operation(db: Db, r: Rid, p: Proc, refundId: nat): Outcome
    requires AtStore(p)
  {
    match p
    case Creating(row, pc, _) =>
      (match pc
       case Insert => CreatePayment(db, r, row)
       case Start => UpdatePaymentStatus(db, r, Initiated, Processing)
       case Settling(AsSuccess(psp, reference)) =>
         UpdatePaymentStatusWithPSP(db, r, Processing, Success, psp, reference)
       case Settling(AsFailure(psp, reference, reason)) =>
         UpdatePaymentFailed(db, r, Processing, psp, reference, reason))
    case Refunding(id, amount, currency, key, rpc) =>
      if rpc.Reading? then Outcome(db, CheckRefund(db, id, amount, currency))
      else RefundPaymentAtomic(db, id, amount, Trim(key), refundId)
  }

  /** Where a create call goes when its repository call succeeded. */
  ghost function CreateNext(c: Config, row: Payment, pc: CreatePc): CreatePc {
    match pc
    case Insert => Start
    case Start =>
      (match Routing.Route(c.router, row.currency, row.amount)
       case Adapter(name) => Charging(name, 0)
       case UnknownAdapter(name) => Settling(AsFailure("", "", "psp: unknown adapter \"" + name + "\""))
       case NoRoute => Settling(AsFailure("", "", "psp: no routing rule matched currency and amount")))
    case Settling(how) => Finished(Returned(if how.AsSuccess? then Success else Status.Failed))
    case _ => pc
  }

  /** The error a caller sees: its own, or the store's. */
  function Seen(reply: Reply, o: Outcome): Option<Error> {
    if reply.Ok? then o.error else Some(StoreError)
  }

  ghost function AfterQuery(c: Config, db: Db, r: Rid, p: Proc, reply: Reply, refundId: nat): Proc
    requires AtStore(p)
  {
    var error := Seen(reply, Operation(db, r, p, refundId));
    match p
    case Creating(row, pc, _) =>
      p.(pc := if error.Some? then Finished(Errored(error.value)) else CreateNext(c, row, pc))
    case Refunding(_, _, _, _, rpc) =>
      p.(rpc := if error.None? && rpc.Reading? then Committing else RefundFinished(error))
  }

  /******* Charging *******/

  /** One turn of the retry loop. */
  function AfterCharge(cap: nat, psp: string, attempt: nat, l: Label): CreatePc
    requires l.CallPsp?
  {
    if l.cancelled then Settling(AsFailure(psp, "", FailureReason(l.ctxErr)))
    else
      match l.outcome
      case Value(charge) => Settling(SettleCharge(psp, charge))
      case Fail(e) =>
        match Retry.Decide(cap, attempt, e)
        case Again =>
          if l.cancelledWaiting then Settling(AsFailure(psp, "", FailureReason(l.ctxErr)))
          else Charging(psp, attempt + 1)
        case Stop(e') => Settling(AsFailure(psp, "", FailureReason(e')))
  }

  function HaltAfter(cap: nat, attempt: nat, l: Label): Halt
    requires l.CallPsp?
  {
    if l.cancelled then HaltedBefore(l.ctxErr)
    else if l.outcome.Fail? && Retry.Decide(cap, attempt, l.outcome.error).Again? && l.cancelledWaiting
    then HaltedWaiting(l.ctxErr)
    else NotHalted
  }

  function ChargeProc(c: Config, p: Proc, l: Label): Proc
    requires p.Creating? && p.pc.Charging? && l.CallPsp?
  {
    Creating(
      p.row,
      AfterCharge(Retry.Cap(c.retry), p.pc.psp, p.pc.attempt, l),
      ChargeLog(
        if l.cancelled then p.log.outs else p.log.outs + [l.outcome],
        HaltAfter(Retry.Cap(c.retry), p.pc.attempt, l)))
  }

  function AbandonProc(p: Proc): Proc {
    match p
    case Creating(row, pc, log) => if pc.Finished? then p else Creating(row, Finished(Errored(StoreError)), log)
    case Refunding(_, _, _, _, rpc) => if rpc.RefundFinished? then p else p.(rpc := RefundFinished(Some(StoreError)))
  }

  /** A refund of payment `id` at a given point of its call. */
  function RefundCall(id: Pid, req: RefundRequest, rpc: RefundPc): Proc {
    Refunding(id, req.amount, req.currency, req.key, rpc)
  }

  function StartRefund(id: Pid, req: RefundRequest): Proc {
    var ok := id != 0 && (req.payment == 0 || req.payment == id) && ValidRefund(req);
    RefundCall(id, req, if ok then Reading else RefundFinished(Some(ValidationError)))
  }

  function StartCreate(req: CreateRequest): Proc {
    Creating(NewRow(req), if ValidCreate(req) then Insert else Finished(Errored(ValidationError)), NO_CHARGES)
  }

  /******* Runs *******/

  /** The process a label leaves behind, when it is enabled. */
  ghost function ProcAfter(c: Config, s: State, l: Label): Option<Proc> {
    if l.ArriveCreate? then
      if l.rid in s.procs || l.rid == 0 then None else Some(StartCreate(l.req))
    else if l.ArriveRefund? then
      if l.rid in s.procs then None else Some(StartRefund(l.payment, l.refund))
    else if l.rid !in s.procs then None
    else if l.Query? then
      if AtStore(s.procs[l.rid]) then Some(AfterQuery(c, s.db, l.rid, s.procs[l.rid], l.reply, l.refundId)) else None
    else if l.CallPsp? then
      if s.procs[l.rid].Creating? && s.procs[l.rid].pc.Charging? then Some(ChargeProc(c, s.procs[l.rid], l)) else None
    else Some(AbandonProc(s.procs[l.rid]))
  }

  function DbAfter(s: State, l: Label): Db {
    if l.Query? && !l.reply.Failed? && l.rid in s.procs && AtStore(s.procs[l.rid])
    then Operation(s.db, l.rid, s.procs[l.rid], l.refundId).db
    else s.db
  }

  ghost function Apply(c: Config, s: State, l: Label): State {
    var p := ProcAfter(c, s, l);
    if p.None? then s
    else State(
      DbAfter(s, l),
      s.procs[l.rid := p.value],
      if l.CallPsp? && !l.cancelled then s.charges + [l.rid] else s.charges)
  }

  ghost function Run(c: Config, ls: seq<Label>): State {
    if ls == [] then INIT else Apply(c, Run(c, ls[..|ls| - 1]), ls[|ls| - 1])
  }

  /** A run extended by one label applies that label. */
  lemma RunExtend(c: Config, ls: seq<Label>, l: Label)
    ensures Run(c, ls + [l]) == Apply(c, Run(c, ls), l)
  {
    assert (ls + [l])[..|ls|] == ls;
  }
}
