/**
 * The merchant API handlers of pkg/api/apimerchant/handlers.go, from a bound
 * request to the response, over an AuthorisationStore. The authenticated
 * merchant name, the card-expiry verdict and the payment processor's answers
 * are inputs; each repository call takes its own DbFault.
 */
module MerchantApi {

  import opened Wrappers
  import opened Entities
  import opened Ledger
  import opened Luhn
  import opened Repository
  import opened MerchantGuard

  /** What a handler answers: an error body, a processor decline, or a success body (all three 200). */
  datatype Response =
    | ErrorResponse(status: int, message: string)
    | Declined
    | AuthorisationApproved(authorisationId: string, amount: int, currency: string)
    | MoneyMoved(amount: int, currency: string)
    | PaymentVoided

  const LuhnFailure: string := "credit card number provided does not pass Luhn check"
  const CardExpired: string := "credit card provided has expired"

  // ---------------------------------------------------------------------------
  // The money invariant over the stored tables.

  /** Every stored authorisation's transactions keep the money invariant. */
  ghost predicate LedgerSoundOf(auths: map<string, AuthRecord>, txs: map<string, seq<TxRecord>>)
  {
    forall id :: id in auths ==> Sound(auths[id].amount, TransactionsOf(id, RowsOf(txs, id)))
  }

  ghost predicate LedgerSound(repo: AuthorisationStore)
    reads repo
  {
    LedgerSoundOf(repo.auths, repo.txs)
  }

  /** A newly stored authorisation with no transactions and a non-negative amount keeps the invariant. */
  lemma InsertKeepsLedger(auths: map<string, AuthRecord>, txs: map<string, seq<TxRecord>>, id: string, r: AuthRecord)
    requires LedgerSoundOf(auths, txs)
    requires id !in txs && r.amount >= 0
    ensures LedgerSoundOf(auths[id := r], txs)
  {
    EmptySound(r.amount);
    assert TransactionsOf(id, RowsOf(txs, id)) == [];
  }

  /** Relabelling an authorisation keeps the invariant: it does not look at labels. */
  lemma RelabelKeepsLedger(auths: map<string, AuthRecord>, txs: map<string, seq<TxRecord>>, id: string, s: State)
    requires LedgerSoundOf(auths, txs) && id in auths
    ensures LedgerSoundOf(auths[id := auths[id].(state := s)], txs)
  {
    var after := auths[id := auths[id].(state := s)];
    forall j | j in after
      ensures Sound(after[j].amount, TransactionsOf(j, RowsOf(txs, j)))
    {
      assert after[j].amount == auths[j].amount;
    }
  }

  /**
   * Appending a capture within the headroom, or a refund within the net
   * captured amount, keeps the invariant when the amount is not negative.
   */
  lemma AppendKeepsLedger(auths: map<string, AuthRecord>, txs: map<string, seq<TxRecord>>, id: string, r: TxRecord)
    requires LedgerSoundOf(auths, txs) && id in auths && r.amount >= 0
    requires var ts := TransactionsOf(id, RowsOf(txs, id));
      || (r.kind == CaptureType && r.amount + CapturedSum(ts) <= auths[id].amount)
      || (r.kind == RefundType && r.amount <= NetCaptured(ts))
    ensures LedgerSoundOf(auths, txs[id := RowsOf(txs, id) + [r]])
  {
    var after := txs[id := RowsOf(txs, id) + [r]];
    assert RowsOf(after, id) == RowsOf(txs, id) + [r];
    AppendKeepsSound(auths[id].amount, id, RowsOf(txs, id), r);
    forall j | j in auths
      ensures Sound(auths[j].amount, TransactionsOf(j, RowsOf(after, j)))
    {
      if j != id {
        assert RowsOf(after, j) == RowsOf(txs, j);
      }
    }
  }

  /** The one authorisation AppendKeepsLedger changes stays sound. */
  lemma AppendKeepsSound(amount: int, id: string, rs: seq<TxRecord>, r: TxRecord)
    requires Sound(amount, TransactionsOf(id, rs)) && r.amount >= 0
    requires var ts := TransactionsOf(id, rs);
      || (r.kind == CaptureType && r.amount + CapturedSum(ts) <= amount)
      || (r.kind == RefundType && r.amount <= NetCaptured(ts))
    ensures Sound(amount, TransactionsOf(id, rs + [r]))
  {
    var ts := TransactionsOf(id, rs);
    TransactionsOfAppend(id, rs, r);
    TotalsOfAppend(ts, Transaction(id, r.kind, r.amount));
    NetIsCapturedMinusRefunded(ts);
  }

  /**
   * What AddTransaction leaves behind, the label changed and the row
   * appended or either step cut short by a database error, keeps the
   * invariant when the row is within its bound.
   */
  lemma RecordKeepsLedger(auths: map<string, AuthRecord>, txs: map<string, seq<TxRecord>>, id: string, r: TxRecord,
                          labelled: bool, appended: bool)
    requires LedgerSoundOf(auths, txs) && r.amount >= 0
    requires labelled ==> id in auths
    requires appended ==> labelled
    requires appended ==> var ts := TransactionsOf(id, RowsOf(txs, id));
      || (r.kind == CaptureType && r.amount + CapturedSum(ts) <= auths[id].amount)
      || (r.kind == RefundType && r.amount <= NetCaptured(ts))
    ensures LedgerSoundOf(if labelled then auths[id := auths[id].(state := StateAfter(r.kind))] else auths,
                          if appended then txs[id := RowsOf(txs, id) + [r]] else txs)
  {
    if labelled {
      RelabelKeepsLedger(auths, txs, id, StateAfter(r.kind));
      if appended {
        AppendKeepsLedger(auths[id := auths[id].(state := StateAfter(r.kind))], txs, id, r);
      }
    }
  }

  // ---------------------------------------------------------------------------
  // The handlers' complete writes as the record operations of MerchantGuard.

  /** A complete AddTransaction write changes the looked-up record as Effect says. */
  lemma WriteIsEffect(auths: map<string, AuthRecord>, cards: map<nat, CreditCard>, txs: map<string, seq<TxRecord>>,
                      id: string, lookupFault: DbFault, op: Operation)
    requires op.Capture? || op.Refund?
    requires DetailsOf(auths, cards, txs, id, lookupFault).Success?
    ensures var kind := if op.Capture? then CaptureType else RefundType;
      DetailsOf(auths[id := auths[id].(state := StateAfter(kind))], cards,
                txs[id := RowsOf(txs, id) + [TxRecord(kind, op.amount)]], id, NoFault)
      == Success(Effect(DetailsOf(auths, cards, txs, id, lookupFault).value, op))
  {
    var kind := if op.Capture? then CaptureType else RefundType;
    TransactionsOfAppend(id, RowsOf(txs, id), TxRecord(kind, op.amount));
  }

  /** A complete Voided relabelling changes the looked-up record as Effect says. */
  lemma VoidIsEffect(auths: map<string, AuthRecord>, cards: map<nat, CreditCard>, txs: map<string, seq<TxRecord>>,
                     id: string, lookupFault: DbFault)
    requires DetailsOf(auths, cards, txs, id, lookupFault).Success?
    ensures DetailsOf(auths[id := auths[id].(state := Voided)], cards, txs, id, NoFault)
      == Success(Effect(DetailsOf(auths, cards, txs, id, lookupFault).value, Void))
  {
  }

  // ---------------------------------------------------------------------------
  // The handlers.

  /**
   * AuthoriseTransaction: the Luhn check, the expiry check, the processor,
   * then AddAuthorisation with the processor's authorisation ID.
   * `processorReply` is that ID, or None when the processor declines.
   */
  method AuthoriseTransaction(repo: AuthorisationStore, merchant: string, card: CreditCard, currency: string,
                              amount: int, expiryValid: bool, processorReply: Option<string>, writeFault: DbFault)
    returns (resp: Response, processorCalled: bool)
    requires repo.Valid()
    modifies repo
    ensures repo.Valid()
    ensures processorCalled <==> IsLuhnValid(card.number) && expiryValid
    ensures !IsLuhnValid(card.number) ==> resp == ErrorResponse(400, LuhnFailure)
    ensures IsLuhnValid(card.number) && !expiryValid ==> resp == ErrorResponse(400, CardExpired)
    ensures processorCalled && processorReply.None? ==> resp == Declined
    ensures !(processorCalled && processorReply.Some?) ==> unchanged(repo)
    ensures repo.currencies == old(repo.currencies) && repo.txs == old(repo.txs)
    ensures resp.AuthorisationApproved? ==>
      && processorCalled && processorReply.Some?
      && resp == AuthorisationApproved(processorReply.value, amount, currency)
      && processorReply.value !in old(repo.auths) && currency in old(repo.currencies)
      && repo.auths == old(repo.auths)[processorReply.value := AuthRecord(Authorised, currency, amount, merchant, card.number)]
      && repo.order == old(repo.order) + [processorReply.value]
    ensures !resp.AuthorisationApproved? ==> repo.auths == old(repo.auths) && repo.order == old(repo.order)
    ensures processorCalled && processorReply.Some? && writeFault == NoFault ==>
      (resp.AuthorisationApproved? <==> processorReply.value !in old(repo.auths) && currency in old(repo.currencies))
    ensures processorCalled && processorReply.Some? && !Fails(writeFault, 0) && currency !in old(repo.currencies) ==>
      resp == ErrorResponse(400, CurrencyNotSupported.Error())
    ensures resp.ErrorResponse? && resp.status != 400 ==> resp == ErrorResponse(500, InternalError)
    ensures processorCalled && processorReply.Some? ==>
      (resp.AuthorisationApproved? <==>
        && !Fails(writeFault, 0) && currency in old(repo.currencies) && !Fails(writeFault, 1) && !Fails(writeFault, 2)
        && !(card.number !in old(repo.cards) && Fails(writeFault, 3)) && !Fails(writeFault, 4)
        && processorReply.value !in old(repo.auths) && !Fails(writeFault, 5))
    ensures processorCalled && processorReply.Some? && !resp.AuthorisationApproved? ==>
      resp == if !Fails(writeFault, 0) && currency !in old(repo.currencies)
              then ErrorResponse(400, CurrencyNotSupported.Error()) else ErrorResponse(500, InternalError)
    ensures processorCalled && processorReply.Some? && writeFault == NoFault
            && currency in old(repo.currencies) && processorReply.value in old(repo.auths)
            ==> resp == ErrorResponse(500, InternalError)
    ensures repo.cards ==
      if && processorCalled && processorReply.Some? && !Fails(writeFault, 0) && currency in old(repo.currencies)
         && !Fails(writeFault, 1) && !Fails(writeFault, 2) && card.number !in old(repo.cards) && !Fails(writeFault, 3)
      then old(repo.cards)[card.number := card] else old(repo.cards)
    ensures amount >= 0 && old(LedgerSound(repo)) ==> LedgerSound(repo)
  {
    var luhnOk, _ := LuhnValid(card.number);
    if !luhnOk {
      return ErrorResponse(400, LuhnFailure), false;
    }
    if !expiryValid {
      return ErrorResponse(400, CardExpired), false;
    }
    processorCalled := true;
    if processorReply.None? {
      return Declined, true;
    }
    var authId := processorReply.value;
    var authRecord := Authorisation(authId, Authorised, currency, amount, merchant, Some(card), []);
    ghost var auths0, txs0 := repo.auths, repo.txs;
    var err := repo.AddAuthorisation(authRecord, writeFault);
    if err.Some? {
      if err.value.validationFail {
        resp := ErrorResponse(400, err.value.Error());
      } else {
        resp := ErrorResponse(500, InternalError);
      }
      return;
    }
    if amount >= 0 && LedgerSoundOf(auths0, txs0) {
      InsertKeepsLedger(auths0, txs0, authId, AuthRecord(Authorised, currency, amount, merchant, card.number));
    }
    resp := AuthorisationApproved(authId, amount, currency);
  }

  /** Whether all three database calls of AddTransaction succeed. */
  predicate TransactionWriteOk(f: DbFault)
  {
    !Fails(f, 0) && !Fails(f, 1) && !Fails(f, 2)
  }

  /** CaptureTransaction: the lookup, the owner, state and headroom checks, the processor, then AddTransaction. */
  method CaptureTransaction(repo: AuthorisationStore, merchant: string, authId: string, amount: int,
                            processorOk: bool, lookupFault: DbFault, writeFault: DbFault)
    returns (resp: Response, processorCalled: bool)
    requires repo.Valid()
    modifies repo
    ensures repo.Valid()
    ensures var v := CaptureCheck(old(repo.Details(authId, lookupFault)), merchant, amount);
      && (processorCalled <==> v.Proceed?)
      && (v.Reject? ==> resp == ErrorResponse(v.status, v.message))
    ensures !processorCalled || !processorOk ==> unchanged(repo)
    ensures processorCalled && !processorOk ==> resp == Declined
    ensures processorCalled && processorOk ==> repo.TransactionAdded(authId, CaptureType, amount, writeFault)
    ensures processorCalled && processorOk ==>
      resp == if TransactionWriteOk(writeFault) then MoneyMoved(amount, old(repo.auths[authId].currency))
              else ErrorResponse(500, InternalError)
    ensures resp.MoneyMoved? ==>
      && old(repo.Details(authId, lookupFault)).Success?
      && repo.Details(authId, NoFault) == Success(Effect(old(repo.Details(authId, lookupFault)).value, Capture(amount)))
    ensures amount >= 0 && old(LedgerSound(repo)) ==> LedgerSound(repo)
  {
    var details := repo.GetAuthorisationDetails(authId, lookupFault);
    if details.Failure? {
      if details.error.notFound {
        resp := ErrorResponse(404, details.error.Error());
      } else {
        resp := ErrorResponse(500, InternalError);
      }
      return resp, false;
    }
    var authDetails := details.value;
    if authDetails.merchantName != merchant {
      return ErrorResponse(403, ForbiddenMessage), false;
    }
    if authDetails.state != Authorised && authDetails.state != Captured {
      return ErrorResponse(400, WrongState("capture", authDetails.state)), false;
    }
    var capturedSum := SumCaptures(authDetails.transactions);
    if amount > authDetails.amount - capturedSum {
      return ErrorResponse(400, CaptureTooLarge), false;
    }
    assert CaptureCheck(details, merchant, amount) == Proceed;
    processorCalled := true;
    if !processorOk {
      return Declined, true;
    }
    ghost var auths0, cards0, txs0 := repo.auths, repo.cards, repo.txs;
    assert authId in auths0;
    var err := repo.AddTransaction(authId, Transaction("", CaptureType, amount), writeFault);
    assert err.None? <==> TransactionWriteOk(writeFault);
    if amount >= 0 && LedgerSoundOf(auths0, txs0) {
      ghost var labelled := !Fails(writeFault, 0) && !Fails(writeFault, 1) && authId in auths0;
      RecordKeepsLedger(auths0, txs0, authId, TxRecord(CaptureType, amount), labelled, labelled && !Fails(writeFault, 2));
    }
    if err.Some? {
      return ErrorResponse(500, InternalError), true;
    }
    WriteIsEffect(auths0, cards0, txs0, authId, lookupFault, Capture(amount));
    resp := MoneyMoved(amount, authDetails.currency);
  }

  /** RefundTransaction: as CaptureTransaction, with the refund state check and the net captured amount. */
  method RefundTransaction(repo: AuthorisationStore, merchant: string, authId: string, amount: int,
                           processorOk: bool, lookupFault: DbFault, writeFault: DbFault)
    returns (resp: Response, processorCalled: bool)
    requires repo.Valid()
    modifies repo
    ensures repo.Valid()
    ensures var v := RefundCheck(old(repo.Details(authId, lookupFault)), merchant, amount);
      && (processorCalled <==> v.Proceed?)
      && (v.Reject? ==> resp == ErrorResponse(v.status, v.message))
    ensures !processorCalled || !processorOk ==> unchanged(repo)
    ensures processorCalled && !processorOk ==> resp == Declined
    ensures processorCalled && processorOk ==> repo.TransactionAdded(authId, RefundType, amount, writeFault)
    ensures processorCalled && processorOk ==>
      resp == if TransactionWriteOk(writeFault) then MoneyMoved(amount, old(repo.auths[authId].currency))
              else ErrorResponse(500, InternalError)
    ensures resp.MoneyMoved? ==>
      && old(repo.Details(authId, lookupFault)).Success?
      && repo.Details(authId, NoFault) == Success(Effect(old(repo.Details(authId, lookupFault)).value, Refund(amount)))
    ensures amount >= 0 && old(LedgerSound(repo)) ==> LedgerSound(repo)
  {
    var details := repo.GetAuthorisationDetails(authId, lookupFault);
    if details.Failure? {
      if details.error.notFound {
        resp := ErrorResponse(404, details.error.Error());
      } else {
        resp := ErrorResponse(500, InternalError);
      }
      return resp, false;
    }
    var authDetails := details.value;
    if authDetails.merchantName != merchant {
      return ErrorResponse(403, ForbiddenMessage), false;
    }
    if authDetails.state != Refunded && authDetails.state != Captured {
      return ErrorResponse(400, WrongState("refund", authDetails.state)), false;
    }
    var capturedSum := SumNetCaptured(authDetails.transactions);
    if amount > capturedSum {
      return ErrorResponse(400, RefundTooLarge), false;
    }
    assert RefundCheck(details, merchant, amount) == Proceed;
    processorCalled := true;
    if !processorOk {
      return Declined, true;
    }
    ghost var auths0, cards0, txs0 := repo.auths, repo.cards, repo.txs;
    assert authId in auths0;
    var err := repo.AddTransaction(authId, Transaction("", RefundType, amount), writeFault);
    assert err.None? <==> TransactionWriteOk(writeFault);
    if amount >= 0 && LedgerSoundOf(auths0, txs0) {
      ghost var labelled := !Fails(writeFault, 0) && !Fails(writeFault, 1) && authId in auths0;
      RecordKeepsLedger(auths0, txs0, authId, TxRecord(RefundType, amount), labelled, labelled && !Fails(writeFault, 2));
    }
    if err.Some? {
      return ErrorResponse(500, InternalError), true;
    }
    WriteIsEffect(auths0, cards0, txs0, authId, lookupFault, Refund(amount));
    resp := MoneyMoved(amount, authDetails.currency);
  }

  /** VoidTransaction: the lookup, the owner and state checks, the processor, then the Voided label. */
  method VoidTransaction(repo: AuthorisationStore, merchant: string, authId: string,
                         processorOk: bool, lookupFault: DbFault, writeFault: DbFault)
    returns (resp: Response, processorCalled: bool)
    requires repo.Valid()
    modifies repo
    ensures repo.Valid()
    ensures var v := VoidCheck(old(repo.Details(authId, lookupFault)), merchant);
      && (processorCalled <==> v.Proceed?)
      && (v.Reject? ==> resp == ErrorResponse(v.status, v.message))
    ensures !processorCalled || !processorOk ==> unchanged(repo)
    ensures processorCalled && !processorOk ==> resp == Declined
    ensures processorCalled && processorOk ==> repo.StateUpdated(authId, Voided, writeFault)
    ensures processorCalled && processorOk ==>
      resp == if !Fails(writeFault, 0) && !Fails(writeFault, 1) then PaymentVoided else ErrorResponse(500, InternalError)
    ensures resp == PaymentVoided ==>
      && old(repo.Details(authId, lookupFault)).Success?
      && repo.Details(authId, NoFault) == Success(Effect(old(repo.Details(authId, lookupFault)).value, Void))
    ensures old(LedgerSound(repo)) ==> LedgerSound(repo)
  {
    var details := repo.GetAuthorisationDetails(authId, lookupFault);
    if details.Failure? {
      if details.error.notFound {
        resp := ErrorResponse(404, details.error.Error());
      } else {
        resp := ErrorResponse(500, InternalError);
      }
      return resp, false;
    }
    var authDetails := details.value;
    if authDetails.merchantName != merchant {
      return ErrorResponse(403, ForbiddenMessage), false;
    }
    if authDetails.state != Authorised {
      return ErrorResponse(400, WrongState("void", authDetails.state)), false;
    }
    processorCalled := true;
    if !processorOk {
      return Declined, true;
    }
    ghost var auths0, cards0, txs0 := repo.auths, repo.cards, repo.txs;
    var err := repo.UpdateAuthorisationState(authId, Voided, writeFault);
    if LedgerSoundOf(auths0, txs0) && err.None? {
      RelabelKeepsLedger(auths0, txs0, authId, Voided);
    }
    if err.Some? {
      return ErrorResponse(500, InternalError), true;
    }
    VoidIsEffect(auths0, cards0, txs0, authId, lookupFault);
    resp := PaymentVoided;
  }
}
