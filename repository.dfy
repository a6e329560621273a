/**
 * The authorisation store behind pkg/core/repository/service.go, with the
 * database tables (currencies, credit cards, authorisations, transactions)
 * held as maps. A `DbFault` names the database call inside an operation that
 * fails, if any, and the driver's error text.
 */
module Repository {

  import opened Wrappers
  import opened Entities
  import opened Text

  /** The error every DatabaseService method returns. */
  datatype DBServiceError = DBServiceError(msg: string, validationFail: bool, notFound: bool, err: Option<string>)
  {
    /** The message, followed by the wrapped error's text when there is one. */
    function Error(): (r: string)
      ensures HasPrefix(r, msg)
      ensures |r| == |msg| <==> err.None?
      ensures err.Some? ==> r[|msg|..] == ": " + err.value
    {
      if err.Some? then msg + ": " + err.value else msg
    }
  }

  /** The text of gorm's ErrRecordNotFound. */
  const RecordNotFound: string := "record not found"

  /** The driver's complaint about a transaction whose authorisation does not exist. */
  const ForeignKeyViolation: string := "foreign key constraint fails"

  function DatabaseError(cause: string): DBServiceError
  {
    DBServiceError("database error", false, false, Some(cause))
  }

  const CurrencyNotSupported: DBServiceError :=
    DBServiceError("currency provided not supported", true, false, Some(RecordNotFound))
  const DuplicateAuthorisation: DBServiceError :=
    DBServiceError("authorisation ID already exists in the database", false, false, None)
  const AuthorisationNotFound: DBServiceError :=
    DBServiceError("authorisation record not found", false, true, None)
  const CardNotFound: DBServiceError :=
    DBServiceError("credit card record not found", false, true, None)

  /** Which database call of an operation fails (counted from 0), with the driver's error text. */
  datatype DbFault = NoFault | FailAt(call: nat, cause: string)

  predicate Fails(f: DbFault, call: nat)
  {
    f.FailAt? && f.call == call
  }

  /** A row of the authorisations table. */
  datatype AuthRecord = AuthRecord(state: State, currency: string, amount: int, merchantName: string, cardNumber: nat)

  /** A row of the transactions table, without its key and foreign key. */
  datatype TxRecord = TxRecord(kind: string, amount: int)

  /** The transactions of authorisation `id` as GetAuthorisationDetails reports them. */
  function TransactionsOf(id: string, rs: seq<TxRecord>): seq<Transaction>
  {
    seq(|rs|, k requires 0 <= k < |rs| => Transaction(id, rs[k].kind, rs[k].amount))
  }

  lemma TransactionsOfAppend(id: string, rs: seq<TxRecord>, r: TxRecord)
    ensures TransactionsOf(id, rs + [r]) == TransactionsOf(id, rs) + [Transaction(id, r.kind, r.amount)]
  {
  }

  /** The transaction rows stored for `id`, oldest first. */
  function RowsOf(txs: map<string, seq<TxRecord>>, id: string): seq<TxRecord>
  {
    if id in txs then txs[id] else []
  }

  /** The summary GetAllAuthorisations lists: no card, no transactions. */
  function Summary(id: string, r: AuthRecord): Authorisation
  {
    Authorisation(id, r.state, r.currency, r.amount, r.merchantName, None, [])
  }

  /** The label AddTransaction gives an authorisation for a transaction of type `kind`. */
  function StateAfter(kind: string): State
  {
    if kind == RefundType then Refunded else Captured
  }

  /** GetAuthorisationDetails over the given tables. */
  function DetailsOf(auths: map<string, AuthRecord>, cards: map<nat, CreditCard>, txs: map<string, seq<TxRecord>>,
                     id: string, fault: DbFault): Result<Authorisation, DBServiceError>
  {
    if Fails(fault, 0) then Failure(DatabaseError(fault.cause))
    else if id !in auths then Failure(AuthorisationNotFound)
    else if Fails(fault, 1) then Failure(DatabaseError(fault.cause))
    else if auths[id].cardNumber !in cards then Failure(CardNotFound)
    else if Fails(fault, 2) then Failure(DatabaseError(fault.cause))
    else
      var r := auths[id];
      Success(Authorisation(id, r.state, r.currency, r.amount, r.merchantName,
                            Some(cards[r.cardNumber]), TransactionsOf(id, RowsOf(txs, id))))
  }

  class AuthorisationStore {
    var currencies: set<string>
    var cards: map<nat, CreditCard>
    var auths: map<string, AuthRecord>
    /** The authorisation IDs in the order their rows were inserted. */
    var order: seq<string>
    var txs: map<string, seq<TxRecord>>

    ghost predicate Valid()
      reads this
    {
      && (forall k :: 0 <= k < |order| ==> order[k] in auths)
      && (forall id :: id in auths ==> id in order)
      && (forall j, k :: 0 <= j < k < |order| ==> order[j] != order[k])
      && (forall id :: id in auths ==> auths[id].cardNumber in cards)
      && (forall n :: n in cards ==> cards[n].number == n)
      && (forall id :: id in txs ==> id in auths)
    }

    constructor (supported: set<string>)
      ensures Valid()
      ensures currencies == supported && cards == map[] && auths == map[] && order == [] && txs == map[]
    {
      currencies := supported;
      cards := map[];
      auths := map[];
      order := [];
      txs := map[];
    }

    /** What GetAuthorisationDetails reports for `id`. */
    function Details(id: string, fault: DbFault): Result<Authorisation, DBServiceError>
      reads this
    {
      DetailsOf(auths, cards, txs, id, fault)
    }

    /** CurrencyExists: a missing currency is `false` without an error. */
    method CurrencyExists(currency: string, fault: DbFault) returns (found: bool, err: Option<string>)
      ensures err == if Fails(fault, 0) then Some(fault.cause) else None
      ensures found <==> !Fails(fault, 0) && currency in currencies
    {
      if Fails(fault, 0) {
        return false, Some(fault.cause);
      }
      found := currency in currencies;
      err := None;
    }

    /**
     * AddAuthorisation. Its database calls: 0 currency lookup, 1 state lookup,
     * 2 card lookup, 3 card insert, 4 authorisation lookup, 5 authorisation insert.
     */
    method AddAuthorisation(auth: Authorisation, fault: DbFault) returns (err: Option<DBServiceError>)
      requires Valid()
      requires auth.creditCard.Some?
      modifies this
      ensures Valid()
      ensures currencies == old(currencies) && txs == old(txs)
      ensures var card := auth.creditCard.value;
        var cardStep := !Fails(fault, 0) && auth.currency in old(currencies) && !Fails(fault, 1) && !Fails(fault, 2);
        cards == if cardStep && card.number !in old(cards) && !Fails(fault, 3)
                 then old(cards)[card.number := card] else old(cards)
      ensures err == Some(CurrencyNotSupported) <==> !Fails(fault, 0) && auth.currency !in old(currencies)
      ensures err == Some(DuplicateAuthorisation) <==>
        !Fails(fault, 0) && auth.currency in old(currencies) && !Fails(fault, 1) && !Fails(fault, 2)
        && !(auth.creditCard.value.number !in old(cards) && Fails(fault, 3)) && !Fails(fault, 4)
        && auth.id in old(auths)
      ensures err.Some? && err.value.validationFail ==> err == Some(CurrencyNotSupported)
      ensures err.Some? && err != Some(CurrencyNotSupported) && err != Some(DuplicateAuthorisation) ==>
        fault.FailAt? && err == Some(DatabaseError(fault.cause))
      ensures var stored := err.None?;
        stored <==>
          !Fails(fault, 0) && auth.currency in old(currencies) && !Fails(fault, 1) && !Fails(fault, 2)
          && !(auth.creditCard.value.number !in old(cards) && Fails(fault, 3)) && !Fails(fault, 4)
          && auth.id !in old(auths) && !Fails(fault, 5)
      ensures auths == if err.None?
        then old(auths)[auth.id := AuthRecord(auth.state, auth.currency, auth.amount, auth.merchantName, auth.creditCard.value.number)]
        else old(auths)
      ensures order == if err.None? then old(order) + [auth.id] else old(order)
    {
      if Fails(fault, 0) {
        return Some(DatabaseError(fault.cause));
      }
      if auth.currency !in currencies {
        return Some(CurrencyNotSupported);
      }
      if Fails(fault, 1) {
        return Some(DatabaseError(fault.cause));
      }
      if Fails(fault, 2) {
        return Some(DatabaseError(fault.cause));
      }
      var card := auth.creditCard.value;
      if card.number !in cards {
        if Fails(fault, 3) {
          return Some(DatabaseError(fault.cause));
        }
        cards := cards[card.number := card];
      }
      if Fails(fault, 4) {
        return Some(DatabaseError(fault.cause));
      }
      if auth.id in auths {
        return Some(DuplicateAuthorisation);
      }
      if Fails(fault, 5) {
        return Some(DatabaseError(fault.cause));
      }
      auths := auths[auth.id := AuthRecord(auth.state, auth.currency, auth.amount, auth.merchantName, card.number)];
      order := order + [auth.id];
      err := None;
    }

    /** GetAllAuthorisations: one summary per stored authorisation, in insertion order. */
    method GetAllAuthorisations(fault: DbFault) returns (r: Result<seq<Authorisation>, DBServiceError>)
      requires Valid()
      ensures Fails(fault, 0) <==> r.Failure?
      ensures r.Failure? ==> r.error == DatabaseError(fault.cause)
      ensures r.Success? ==> |r.value| == |order| == |auths|
      ensures r.Success? ==> forall k :: 0 <= k < |r.value| ==> order[k] in auths && r.value[k] == Summary(order[k], auths[order[k]])
      ensures r.Success? ==> forall id :: id in auths <==> exists k :: 0 <= k < |r.value| && r.value[k].id == id
    {
      if Fails(fault, 0) {
        return Failure(DatabaseError(fault.cause));
      }
      OrderCoversStore();
      var authList: seq<Authorisation> := [];
      for k := 0 to |order|
        invariant |authList| == k
        invariant forall j :: 0 <= j < k ==> authList[j] == Summary(order[j], auths[order[j]])
      {
        var id := order[k];
        authList := authList + [Summary(id, auths[id])];
      }
      forall id | id in auths
        ensures exists k :: 0 <= k < |authList| && authList[k].id == id
      {
        var k :| 0 <= k < |order| && order[k] == id;
        assert authList[k].id == id;
      }
      r := Success(authList);
    }

    /** In a valid store the insertion order lists every authorisation exactly once. */
    lemma OrderCoversStore()
      requires Valid()
      ensures |order| == |auths|
    {
      var ids := set k | 0 <= k < |order| :: order[k];
      assert ids == auths.Keys;
      DistinctCardinality(order);
    }

    /** GetAuthorisationDetails: calls 0 authorisation lookup, 1 card lookup, 2 transactions lookup. */
    method GetAuthorisationDetails(authId: string, fault: DbFault) returns (r: Result<Authorisation, DBServiceError>)
      ensures r == Details(authId, fault)
    {
      if Fails(fault, 0) {
        return Failure(DatabaseError(fault.cause));
      }
      if authId !in auths {
        return Failure(AuthorisationNotFound);
      }
      var record := auths[authId];
      if Fails(fault, 1) {
        return Failure(DatabaseError(fault.cause));
      }
      if record.cardNumber !in cards {
        return Failure(CardNotFound);
      }
      var card := cards[record.cardNumber];
      if Fails(fault, 2) {
        return Failure(DatabaseError(fault.cause));
      }
      var transactionRecords := RowsOf(txs, authId);
      var transactionsList: seq<Transaction> := [];
      for k := 0 to |transactionRecords|
        invariant transactionsList == TransactionsOf(authId, transactionRecords[..k])
      {
        var t := transactionRecords[k];
        assert transactionRecords[..k + 1] == transactionRecords[..k] + [t];
        TransactionsOfAppend(authId, transactionRecords[..k], t);
        transactionsList := transactionsList + [Transaction(authId, t.kind, t.amount)];
      }
      assert transactionRecords[..|transactionRecords|] == transactionRecords;
      r := Success(Authorisation(authId, record.state, record.currency, record.amount, record.merchantName,
                                 Some(card), transactionsList));
    }

    /**
     * AddTransaction: calls 0 state lookup, 1 state update, 2 transaction insert.
     * The update lands before the insert, so a failing insert leaves the new label behind.
     */
    method AddTransaction(authId: string, transaction: Transaction, fault: DbFault) returns (err: Option<DBServiceError>)
      requires Valid()
      modifies this
      ensures Valid()
      ensures TransactionAdded(authId, transaction.kind, transaction.amount, fault)
      ensures err.None? <==> !Fails(fault, 0) && !Fails(fault, 1) && !Fails(fault, 2) && authId in old(auths)
      ensures err.Some? ==> err == Some(DatabaseError(if Fails(fault, 0) || Fails(fault, 1) || Fails(fault, 2) then fault.cause else ForeignKeyViolation))
    {
      var state := Captured;
      if transaction.kind == RefundType {
        state := Refunded;
      }
      if Fails(fault, 0) {
        return Some(DatabaseError(fault.cause));
      }
      if Fails(fault, 1) {
        return Some(DatabaseError(fault.cause));
      }
      if authId in auths {
        auths := auths[authId := auths[authId].(state := state)];
      }
      if Fails(fault, 2) {
        return Some(DatabaseError(fault.cause));
      }
      if authId !in auths {
        return Some(DatabaseError(ForeignKeyViolation));
      }
      txs := txs[authId := RowsOf(txs, authId) + [TxRecord(transaction.kind, transaction.amount)]];
      err := None;
    }

    /** The new state after AddTransaction(authId, Transaction(_, kind, amount), fault). */
    twostate predicate TransactionAdded(authId: string, kind: string, amount: int, fault: DbFault)
      reads this
    {
      var labelled := !Fails(fault, 0) && !Fails(fault, 1) && authId in old(auths);
      var appended := labelled && !Fails(fault, 2);
      && currencies == old(currencies) && cards == old(cards) && order == old(order)
      && auths == (if labelled then old(auths)[authId := old(auths)[authId].(state := StateAfter(kind))] else old(auths))
      && txs == (if appended then old(txs)[authId := RowsOf(old(txs), authId) + [TxRecord(kind, amount)]] else old(txs))
    }

    /** UpdateAuthorisationState: calls 0 state lookup, 1 update; an unknown ID updates no row. */
    method UpdateAuthorisationState(authId: string, state: State, fault: DbFault) returns (err: Option<DBServiceError>)
      requires Valid()
      modifies this
      ensures Valid()
      ensures StateUpdated(authId, state, fault)
      ensures err == if Fails(fault, 0) || Fails(fault, 1) then Some(DatabaseError(fault.cause)) else None
    {
      if Fails(fault, 0) || Fails(fault, 1) {
        return Some(DatabaseError(fault.cause));
      }
      if authId in auths {
        auths := auths[authId := auths[authId].(state := state)];
      }
      err := None;
    }

    /** The new state after UpdateAuthorisationState(authId, state, fault): only that one label changes. */
    twostate predicate StateUpdated(authId: string, state: State, fault: DbFault)
      reads this
    {
      var updated := !Fails(fault, 0) && !Fails(fault, 1) && authId in old(auths);
      && currencies == old(currencies) && cards == old(cards) && order == old(order) && txs == old(txs)
      && auths == (if updated then old(auths)[authId := old(auths)[authId].(state := state)] else old(auths))
    }
  }

  lemma {:induction false} DistinctCardinality(s: seq<string>)
    requires forall j, k :: 0 <= j < k < |s| ==> s[j] != s[k]
    ensures |set k | 0 <= k < |s| :: s[k]| == |s|
  {
    if s != [] {
      var init := s[..|s| - 1];
      DistinctCardinality(init);
      var a := set k | 0 <= k < |init| :: init[k];
      var b := set k | 0 <= k < |s| :: s[k];
      assert b == a + {s[|s| - 1]};
      assert s[|s| - 1] !in a;
    }
  }
}
