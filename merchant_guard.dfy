/**
 * The decision chain of the capture, refund and void handlers
 * (pkg/api/apimerchant/handlers.go) over the record GetAuthorisationDetails
 * returns, and the effect an accepted operation has on that record.
 */
module MerchantGuard {

  import opened Wrappers
  import opened Entities
  import opened Ledger
  import opened Repository

  /** Reject with an HTTP status and message, or go on to the payment processor. */
  datatype Verdict = Reject(status: int, message: string) | Proceed

  const InternalError: string := "Internal error"
  const ForbiddenMessage: string := "forbidden"
  const CaptureTooLarge: string := "cannot request more money than what was authorised"
  const RefundTooLarge: string := "cannot refund more money than what was captured"

  /** The response to a failed lookup: 404 when the record is missing, 500 otherwise. */
  function LookupFailure(e: DBServiceError): (v: Verdict)
    ensures v.Reject? && (v.status == 404 <==> e.notFound) && (v.status != 404 ==> v.status == 500)
    ensures v.message == if e.notFound then e.Error() else InternalError
  {
    if e.notFound then Reject(404, e.Error()) else Reject(500, InternalError)
  }

  /** The 400 message for a payment whose state does not allow `action`. */
  function WrongState(action: string, s: State): string
  {
    "cannot " + action + " payment - payment has been '" + StateName(s) + "'"
  }

  function CaptureCheck(lookup: Result<Authorisation, DBServiceError>, merchant: string, amount: int): (v: Verdict)
    ensures v.Proceed? <==>
      && lookup.Success? && lookup.value.merchantName == merchant
      && (lookup.value.state == Authorised || lookup.value.state == Captured)
      && amount + CapturedSum(lookup.value.transactions) <= lookup.value.amount
    ensures lookup.Failure? ==> v == LookupFailure(lookup.error)
    ensures lookup.Success? && lookup.value.merchantName != merchant ==> v == Reject(403, ForbiddenMessage)
    ensures lookup.Success? && lookup.value.merchantName == merchant
            && lookup.value.state != Authorised && lookup.value.state != Captured
            ==> v == Reject(400, WrongState("capture", lookup.value.state))
    ensures lookup.Success? && lookup.value.merchantName == merchant
            && (lookup.value.state == Authorised || lookup.value.state == Captured)
            && amount + CapturedSum(lookup.value.transactions) > lookup.value.amount
            ==> v == Reject(400, CaptureTooLarge)
  {
    match lookup
    case Failure(e) => LookupFailure(e)
    case Success(a) =>
      if a.merchantName != merchant then Reject(403, ForbiddenMessage)
      else if a.state != Authorised && a.state != Captured then
        Reject(400, WrongState("capture", a.state))
      else if amount > a.amount - CapturedSum(a.transactions) then Reject(400, CaptureTooLarge)
      else Proceed
  }

  function RefundCheck(lookup: Result<Authorisation, DBServiceError>, merchant: string, amount: int): (v: Verdict)
    ensures v.Proceed? <==>
      && lookup.Success? && lookup.value.merchantName == merchant
      && (lookup.value.state == Captured || lookup.value.state == Refunded)
      && amount <= CapturedSum(lookup.value.transactions) - RefundedSum(lookup.value.transactions)
    ensures lookup.Failure? ==> v == LookupFailure(lookup.error)
    ensures lookup.Success? && lookup.value.merchantName != merchant ==> v == Reject(403, ForbiddenMessage)
    ensures lookup.Success? && lookup.value.merchantName == merchant
            && lookup.value.state != Captured && lookup.value.state != Refunded
            ==> v == Reject(400, WrongState("refund", lookup.value.state))
    ensures lookup.Success? && lookup.value.merchantName == merchant
            && (lookup.value.state == Captured || lookup.value.state == Refunded)
            && amount > CapturedSum(lookup.value.transactions) - RefundedSum(lookup.value.transactions)
            ==> v == Reject(400, RefundTooLarge)
  {
    match lookup
    case Failure(e) => LookupFailure(e)
    case Success(a) =>
      if a.merchantName != merchant then Reject(403, ForbiddenMessage)
      else if a.state != Refunded && a.state != Captured then
        Reject(400, WrongState("refund", a.state))
      else if amount > (NetIsCapturedMinusRefunded(a.transactions); NetCaptured(a.transactions)) then Reject(400, RefundTooLarge)
      else Proceed
  }

  function VoidCheck(lookup: Result<Authorisation, DBServiceError>, merchant: string): (v: Verdict)
    ensures v.Proceed? <==> lookup.Success? && lookup.value.merchantName == merchant && lookup.value.state == Authorised
    ensures lookup.Failure? ==> v == LookupFailure(lookup.error)
    ensures lookup.Success? && lookup.value.merchantName != merchant ==> v == Reject(403, ForbiddenMessage)
    ensures lookup.Success? && lookup.value.merchantName == merchant && lookup.value.state != Authorised
            ==> v == Reject(400, WrongState("void", lookup.value.state))
  {
    match lookup
    case Failure(e) => LookupFailure(e)
    case Success(a) =>
      if a.merchantName != merchant then Reject(403, ForbiddenMessage)
      else if a.state != Authorised then
        Reject(400, WrongState("void", a.state))
      else Proceed
  }

  // ---------------------------------------------------------------------------
  // The three operations, their checks and their effects on the record.

  datatype Operation = Capture(amount: int) | Refund(amount: int) | Void

  function Check(lookup: Result<Authorisation, DBServiceError>, merchant: string, op: Operation): Verdict
  {
    match op
    case Capture(x) => CaptureCheck(lookup, merchant, x)
    case Refund(x) => RefundCheck(lookup, merchant, x)
    case Void => VoidCheck(lookup, merchant)
  }

  /** The record after the repository write of an accepted operation. */
  function Effect(a: Authorisation, op: Operation): Authorisation
  {
    match op
    case Capture(x) => a.(state := Captured, transactions := a.transactions + [Transaction(a.id, CaptureType, x)])
    case Refund(x) => a.(state := Refunded, transactions := a.transactions + [Transaction(a.id, RefundType, x)])
    case Void => a.(state := Voided)
  }

  /** One request by `merchant`, with the payment processor's answer to it. */
  datatype Attempt = Attempt(merchant: string, op: Operation, processorOk: bool)

  /** A request changes the record only when the checks pass and the processor confirms. */
  function Step(a: Authorisation, t: Attempt): Authorisation
  {
    if Check(Success(a), t.merchant, t.op).Proceed? && t.processorOk then Effect(a, t.op) else a
  }

  function Replay(a: Authorisation, attempts: seq<Attempt>): Authorisation
    decreases |attempts|
  {
    if attempts == [] then a else Replay(Step(a, attempts[0]), attempts[1..])
  }

  predicate NonNegativeAmounts(attempts: seq<Attempt>)
  {
    forall k :: 0 <= k < |attempts| ==> (attempts[k].op.Capture? || attempts[k].op.Refund?) ==> attempts[k].op.amount >= 0
  }

  predicate SoundRecord(a: Authorisation)
  {
    Sound(a.amount, a.transactions)
  }

  // ---------------------------------------------------------------------------
  // What the checks guarantee.

  /** An accepted request with a non-negative amount keeps the money invariant. */
  lemma StepKeepsSound(a: Authorisation, t: Attempt)
    requires SoundRecord(a)
    requires (t.op.Capture? || t.op.Refund?) ==> t.op.amount >= 0
    ensures SoundRecord(Step(a, t))
  {
    if Check(Success(a), t.merchant, t.op).Proceed? && t.processorOk {
      match t.op
      case Capture(x) => TotalsOfAppend(a.transactions, Transaction(a.id, CaptureType, x));
      case Refund(x) => TotalsOfAppend(a.transactions, Transaction(a.id, RefundType, x));
      case Void =>
    }
  }

  /**
   * After any sequence of requests with non-negative amounts, captures stay
   * within the authorised amount and refunds within the captures.
   */
  lemma {:induction false} ReplayKeepsSound(a: Authorisation, attempts: seq<Attempt>)
    requires SoundRecord(a)
    requires NonNegativeAmounts(attempts)
    ensures SoundRecord(Replay(a, attempts))
    ensures 0 <= NetCaptured(Replay(a, attempts).transactions) <= CapturedSum(Replay(a, attempts).transactions) <= a.amount
    decreases |attempts|
  {
    if attempts != [] {
      StepKeepsSound(a, attempts[0]);
      assert NonNegativeAmounts(attempts[1..]) by {
        forall k | 0 <= k < |attempts[1..]| ensures attempts[1..][k] == attempts[k + 1] { }
      }
      ReplayKeepsSound(Step(a, attempts[0]), attempts[1..]);
    } else {
      SoundBounds(a.amount, a.transactions);
    }
  }

  /** The capture headroom check alone bounds the captured total, whatever the signs of the amounts. */
  lemma {:induction false} ReplayCapturesWithinAuthorised(a: Authorisation, attempts: seq<Attempt>)
    requires CapturedSum(a.transactions) <= a.amount
    ensures CapturedSum(Replay(a, attempts).transactions) <= a.amount
    decreases |attempts|
  {
    if attempts != [] {
      var t := attempts[0];
      var b := Step(a, t);
      if Check(Success(a), t.merchant, t.op).Proceed? && t.processorOk {
        match t.op
        case Capture(x) => TotalsOfAppend(a.transactions, Transaction(a.id, CaptureType, x));
        case Refund(x) => TotalsOfAppend(a.transactions, Transaction(a.id, RefundType, x));
        case Void =>
      }
      ReplayCapturesWithinAuthorised(b, attempts[1..]);
    }
  }

  /**
   * Requests only relabel the record and append transactions of their own
   * authorisation: the ID, currency, amount, owner and card never change.
   */
  lemma {:induction false} ReplayKeepsTerms(a: Authorisation, attempts: seq<Attempt>)
    ensures var b := Replay(a, attempts);
      && b.id == a.id && b.currency == a.currency && b.amount == a.amount
      && b.merchantName == a.merchantName && b.creditCard == a.creditCard
      && |a.transactions| <= |b.transactions| && b.transactions[..|a.transactions|] == a.transactions
      && forall k :: |a.transactions| <= k < |b.transactions| ==>
           b.transactions[k].id == a.id && (b.transactions[k].kind == CaptureType || b.transactions[k].kind == RefundType)
    decreases |attempts|
  {
    if attempts != [] {
      var b := Step(a, attempts[0]);
      ReplayKeepsTerms(b, attempts[1..]);
      var c := Replay(b, attempts[1..]);
      assert c.transactions[..|b.transactions|] == b.transactions;
      assert b.transactions[..|a.transactions|] == a.transactions;
      assert c.transactions[..|a.transactions|] == c.transactions[..|b.transactions|][..|a.transactions|];
    }
  }

  /** Requests by other merchants change nothing, whatever their amounts and the record's state. */
  lemma {:induction false} ForeignRequestsChangeNothing(a: Authorisation, attempts: seq<Attempt>)
    requires forall k :: 0 <= k < |attempts| ==> attempts[k].merchant != a.merchantName
    ensures Replay(a, attempts) == a
    decreases |attempts|
  {
    if attempts != [] {
      assert Step(a, attempts[0]) == a;
      ForeignRequestsChangeNothing(a, attempts[1..]);
    }
  }

  /** A voided authorisation accepts nothing further. */
  lemma {:induction false} VoidedIsFinal(a: Authorisation, attempts: seq<Attempt>)
    requires a.state == Voided
    ensures Replay(a, attempts) == a
    decreases |attempts|
  {
    if attempts != [] {
      assert Step(a, attempts[0]) == a;
      VoidedIsFinal(a, attempts[1..]);
    }
  }

  /** Declined requests change nothing. */
  lemma {:induction false} DeclinedRequestsChangeNothing(a: Authorisation, attempts: seq<Attempt>)
    requires forall k :: 0 <= k < |attempts| ==> !attempts[k].processorOk
    ensures Replay(a, attempts) == a
    decreases |attempts|
  {
    if attempts != [] {
      assert Step(a, attempts[0]) == a;
      DeclinedRequestsChangeNothing(a, attempts[1..]);
    }
  }

  /** A refund leaves the capture headroom where it was. */
  lemma RefundKeepsCaptureHeadroom(a: Authorisation, x: int)
    ensures CapturedSum(Effect(a, Refund(x)).transactions) == CapturedSum(a.transactions)
    ensures NetCaptured(Effect(a, Refund(x)).transactions) == NetCaptured(a.transactions) - x
  {
    TotalsOfAppend(a.transactions, Transaction(a.id, RefundType, x));
  }

  /** Without the non-negative hypothesis the invariant fails: a negative capture is accepted. */
  lemma NegativeCaptureAccepted(a: Authorisation)
    requires a.state == Authorised && a.amount == 100 && a.transactions == []
    ensures var b := Step(a, Attempt(a.merchantName, Capture(-50), true));
      b.state == Captured && NetCaptured(b.transactions) == -50
  {
    var t := Transaction(a.id, CaptureType, -50);
    assert [] + [t] == [t];
    assert NetCaptured([t]) == -50 by {
      assert [t][..0] == [];
    }
  }
}
