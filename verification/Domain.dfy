/**
 Payment statuses, currencies and the validation of requests.
 */
module Domain {

  import opened Text

  /******* Statuses *******/

  /** `Other` stands for every status text that is not one of the five known ones. */
  datatype Status = Initiated | Processing | Success | Failed | Refunded | Other(text: string)

  predicate IsKnownStatus(s: Status) {
    !s.Other?
  }

  predicate ValidTransition(from: Status, to: Status) {
    match from
    case Initiated => to == Processing
    case Processing => to == Success || to == Failed
    case Success => to == Refunded
    case _ => false
  }

  /** How far along a payment is. */
  function Rank(s: Status): nat {
    match s
    case Initiated => 0
    case Processing => 1
    case Success => 2
    case Failed => 3
    case Refunded => 3
    case Other(_) => 3
  }

  /** Each status follows from the one before it. */
  predicate IsPath(path: seq<Status>) {
    |path| >= 2 ==> ValidTransition(path[0], path[1]) && IsPath(path[1..])
  }

  lemma {:induction false} RanksGrow(path: seq<Status>, j: nat)
    requires IsPath(path) && 0 < j < |path|
    ensures Rank(path[0]) < Rank(path[j])
  {
    if j > 1 {
      RanksGrow(path[1..], j - 1);
    }
  }

  /** A path goes on from its second status. */
  lemma {:induction false} PathStep(path: seq<Status>, tail: seq<Status>)
    requires |path| >= 2 && tail != []
    ensures path <= [path[0]] + tail <==> path[1..] <= tail
    ensures IsPath(path) <==> ValidTransition(path[0], path[1]) && IsPath(path[1..])
  {
    var whole := [path[0]] + tail;
    if path <= whole {
      assert path[1..] == whole[1..|path|] == tail[..|path| - 1];
    }
    if path[1..] <= tail {
      assert path == [path[0]] + path[1..] == [path[0]] + tail[..|path| - 1] == whole[..|path|];
    }
  }

  lemma {:induction false} PathsFromSuccess(path: seq<Status>)
    requires path != [] && path[0] == Success
    ensures IsPath(path) <==> path <= [Success, Refunded]
  {
    if |path| >= 2 {
      PathStep(path, [Refunded]);
      assert [Success] + [Refunded] == [Success, Refunded];
    }
  }

  lemma {:induction false} PathsFromProcessing(path: seq<Status>)
    requires path != [] && path[0] == Processing
    ensures IsPath(path) <==> path <= [Processing, Success, Refunded] || path <= [Processing, Failed]
  {
    if |path| >= 2 {
      PathStep(path, [Success, Refunded]);
      PathStep(path, [Failed]);
      assert [Processing] + [Success, Refunded] == [Processing, Success, Refunded];
      assert [Processing] + [Failed] == [Processing, Failed];
      if path[1] == Success { PathsFromSuccess(path[1..]); }
    }
  }

  /** The statuses of a payment over time: to failed, or through success to refunded, and nothing else. */
  lemma {:induction false} PathsFromInitiated(path: seq<Status>)
    requires path != [] && path[0] == Initiated
    ensures IsPath(path) <==>
      path <= [Initiated, Processing, Success, Refunded] || path <= [Initiated, Processing, Failed]
  {
    if |path| >= 2 {
      PathStep(path, [Processing, Success, Refunded]);
      PathStep(path, [Processing, Failed]);
      assert [Initiated] + [Processing, Success, Refunded] == [Initiated, Processing, Success, Refunded];
      assert [Initiated] + [Processing, Failed] == [Initiated, Processing, Failed];
      if path[1] == Processing { PathsFromProcessing(path[1..]); }
    }
  }

  /** Every chain of transitions has at most four statuses and repeats none. */
  lemma {:induction false} PathsAreShort(path: seq<Status>)
    requires IsPath(path) && path != []
    ensures |path| <= 4 - Rank(path[0])
    ensures forall i, j :: 0 <= i < j < |path| ==> path[i] != path[j]
  {
    if |path| > 1 {
      PathsAreShort(path[1..]);
      forall i, j | 0 <= i < j < |path| ensures path[i] != path[j] {
        if i == 0 { RanksGrow(path, j); } else { assert path[1..][i - 1] != path[1..][j - 1]; }
      }
    }
  }

  /******* Currencies and requests *******/

  predicate ValidCurrency(c: string) {
    c == "USD" || c == "EUR" || c == "GBP" || c == "INR"
  }

  const MAX_INT64 := 0x7FFF_FFFF_FFFF_FFFF
  const MAX_KEY_BYTES := 255

  datatype CreateRequest = CreateRequest(merchant: nat, amount: int, currency: string, key: string)

  /** Merchant 0 is the nil UUID. */
  predicate ValidCreate(req: CreateRequest) {
    var curr := Trim(ToUpper(req.currency));
    var key := Trim(req.key);
    && req.merchant != 0
    && 0 < req.amount <= MAX_INT64
    && ByteLen(curr) == 3 && ValidCurrency(curr)
    && key != "" && ByteLen(key) <= MAX_KEY_BYTES
  }

  /** A currency code is three bytes long, so the length test never refuses a supported one. */
  lemma CodeLength(code: string)
    requires ValidCurrency(code)
    ensures ByteLen(code) == 3
  {
    assert |code| == 3 && code[0] <= 'Z' && code[1] <= 'Z' && code[2] <= 'Z';
    assert ByteLen(code[1..][1..][1..]) == 0;
    assert ByteLen(code[1..][1..]) == 1;
    assert ByteLen(code[1..]) == 2;
  }

  /** What an accepted create request is, whatever its letter case and padding. */
  lemma ValidCreateIff(req: CreateRequest)
    ensures ValidCreate(req) <==>
      && req.merchant != 0 && 1 <= req.amount <= 9_223_372_036_854_775_807
      && ToUpper(Trim(req.currency)) in {"USD", "EUR", "GBP", "INR"}
      && Trim(req.key) != "" && ByteLen(Trim(req.key)) <= 255
  {
    TrimUpperCommute(req.currency);
    if ValidCurrency(ToUpper(Trim(req.currency))) { CodeLength(ToUpper(Trim(req.currency))); }
  }

  /** What an accepted refund request is. */
  lemma ValidRefundIff(req: RefundRequest)
    ensures ValidRefund(req) <==>
      && 1 <= req.amount
      && ToUpper(Trim(req.currency)) in {"USD", "EUR", "GBP", "INR"}
      && Trim(req.key) != "" && ByteLen(Trim(req.key)) <= 255
  {
    TrimUpperCommute(req.currency);
    if ValidCurrency(ToUpper(Trim(req.currency))) { CodeLength(ToUpper(Trim(req.currency))); }
  }

  /** `payment` is the optional payment id in the body; 0 when it is absent. */
  datatype RefundRequest = RefundRequest(payment: nat, amount: int, currency: string, key: string)

  predicate ValidRefund(req: RefundRequest) {
    var curr := Trim(ToUpper(req.currency));
    && 0 < req.amount
    && ByteLen(curr) == 3 && ValidCurrency(curr)
    && Trim(req.key) != "" && ByteLen(Trim(req.key)) <= MAX_KEY_BYTES
  }
}
