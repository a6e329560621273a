# pgw-payment-gateway: a verified model of the payment gateway core

This project is a Dafny model of the core of a small payment gateway written in Go. A merchant,
authenticated by HTTP Basic auth, can do four things:

- **authorise** a card payment;
- **capture** money against an authorisation;
- **refund** captured money;
- **void** an authorisation that has not been captured yet.

Each request is checked locally, forwarded to an external payment processor and then recorded in a
MySQL database. The model covers these parts:

- `luhn.dfy`: the Luhn check on card numbers (`pkg/core/core.go`). It is the Go loop with its
  invariants, proved equal to a recursive specification and to the digit-string formulation of
  ISO/IEC 7812-1, Annex B.
- `entities.dfy`, `ledger.dfy`: the records the handlers exchange (`pkg/core/entities`), and the
  capture/refund totals that the handlers accumulate in loops.
- `repository.dfy`: the `DatabaseService` of `pkg/core/repository/service.go` as a class over
  maps: currencies, cards, authorisations with their insertion order, and transactions. Every database
  call an operation makes can fail, as chosen by a `DbFault` argument.
- `merchant_guard.dfy`: the decision chains of the capture, refund and void handlers as pure
  functions. Lemmas over any sequence of requests state what the chains guarantee about the
  money.
- `merchant_handlers.dfy`: the four handlers of `pkg/api/apimerchant/handlers.go` as methods on
  the store. Each has the response it gives, the writes it makes and the money invariant it
  keeps.
- `config.dfy`, `text.dfy`: `NewConfig`, `setDefaults`, `LoadConfig` and `ParseLogLevel` of
  `pkg/core/config.go`, over an environment given as a map. `text.dfy` holds the parts of Go's
  `strings` and `strconv` that the configuration and the middleware use.
- `basicauth.dfy`: the `GinBasicAuth` middleware and `CheckCredentials`
  (`pkg/api/middleware/basicauth.go`).

Conventions:

- Amounts are integers in minor units.
- The payment processor's answers, the card-expiry verdict, base64 decoding and the
  authentication service's reply are inputs.
- The authenticated merchant name that the handlers receive is the `user` of an `Accept`
  outcome of `BasicAuth.GinBasicAuth`.

Where the code and its documentation disagree, the model follows the code:

- `AuthoriseTransaction` calls the processor before it checks that the currency is supported. So
  an unsupported currency is only reported (400) after the processor has authorised the payment.
- An authorisation ID that the processor returns twice gets the repository's "already exists"
  error. That error is not a validation failure, so the handler answers 500 with "Internal error".
- `AddAuthorisation` inserts a new card before it checks for a duplicate authorisation ID. A
  duplicate request can therefore still add the card.
- `AddTransaction` updates the state before it inserts the transaction. A failing insert leaves
  the label changed but no new transaction.

## Model

| member | source | states |
|---|---|---|
| Luhn.LuhnValid | pkg/core/core.go:4-27 | the loop returns exactly the recursive predicate IsLuhnValid, and runs once per digit to the left of the check digit |
| Luhn.Contribution | pkg/core/core.go:11-18 | a digit at an even loop position is doubled, and a doubled value above 9 loses 9; digits at odd positions count as they are; nothing adds more than 9 |
| Luhn.LuhnMatchesIso | pkg/core/core.go:4-27 | the loop's check agrees with the standard's formulation: every second digit from the right, starting left of the check digit, doubled |
| Luhn.WeightedSumIsIsoSum | pkg/core/core.go:10-22 | the loop's weighted sum equals the standard's sum over the digit string |
| Luhn.SingleDigit | pkg/core/core.go:5-6 | a one-digit number passes exactly when it is 0 |
| Luhn.CheckDigitUnique | pkg/core/core.go:23-26 | for any digits, exactly one last digit makes the number pass: a wrong check digit is always rejected |
| Luhn.ValidCard1 | pkg/core/core_test.go:15 | 4000000000000119 passes |
| Luhn.ValidCard2 | pkg/core/core_test.go:16 | 4000000000000259 passes |
| Luhn.ValidCard3 | pkg/core/core_test.go:17 | 4000000000003238 passes |
| Luhn.InvalidCard1 | pkg/core/core_test.go:18 | 4000000000000009 fails |
| Ledger.SumCaptures | pkg/api/apimerchant/handlers.go:174-180 | the loop's total is the sum of the Capture amounts |
| Ledger.SumNetCaptured | pkg/api/apimerchant/handlers.go:269-277 | the loop's total is captures minus refunds |
| Ledger.NetIsCapturedMinusRefunded | pkg/api/apimerchant/handlers.go:269-277 | the net amount equals the capture total minus the refund total |
| Ledger.TotalsOfAppend | pkg/core/repository/service.go:224-233 | appending one transaction changes only the total of its own type, by its amount |
| Ledger.SoundBounds | pkg/api/apimerchant/handlers.go:173-185 | under the money invariant, 0 <= net captured <= captured <= authorised |
| Ledger.EmptySound | pkg/api/apimerchant/handlers.go:80-97 | a new authorisation with a non-negative amount and no transactions keeps the money invariant |
| Repository.DBServiceError.Error | pkg/core/repository/service.go:18-23 | the message, followed by ": " and the wrapped error exactly when there is one |
| Repository.AuthorisationStore.CurrencyExists | pkg/core/repository/service.go:50-59 | a missing currency is false without an error; a database error gives false and that error |
| Repository.AuthorisationStore.AddAuthorisation | pkg/core/repository/service.go:61-122 | the currency error comes exactly when the currency lookup succeeds and finds nothing, and it is the only validation error; an existing ID gives the non-validation "already exists" error and leaves the authorisations alone; a card is inserted only when its number is new, and is never overwritten; on success exactly one record is added, at the end of the order; every database failure gives "database error" |
| Repository.AuthorisationStore.GetAllAuthorisations | pkg/core/repository/service.go:124-147 | one summary per stored authorisation, without card or transactions, in insertion order (an empty store gives an empty list); a database failure gives "database error" |
| Repository.AuthorisationStore.OrderCoversStore | pkg/core/repository/service.go:124-147 | in a valid store the insertion order lists every authorisation exactly once |
| Repository.AuthorisationStore.GetAuthorisationDetails | pkg/core/repository/service.go:149-206 | an unknown ID gives the not-found error; otherwise the record's fields, its card and its transactions in the order the transaction table returns them, possibly none |
| Repository.AuthorisationStore.AddTransaction | pkg/core/repository/service.go:208-236 | the label becomes StateAfter(type) and exactly one row with that type and amount is appended, nothing else changes; a failing call stops at that step |
| Repository.AuthorisationStore.UpdateAuthorisationState | pkg/core/repository/service.go:238-250 | only the state field of that one authorisation changes |
| MerchantGuard.LookupFailure | pkg/api/apimerchant/handlers.go:146-159 | a not-found lookup error gives 404 carrying the error's own text; any other gives 500 with "Internal error" |
| MerchantGuard.CaptureCheck | pkg/api/apimerchant/handlers.go:146-185 | a capture proceeds exactly when the lookup succeeds, the merchant owns the payment, the state is Authorised or Captured, and the amount fits the authorised amount minus earlier captures; a failed lookup gives its lookup response; a foreign merchant gets 403 "forbidden" whatever the state and amount; the owner gets 400 "cannot capture payment - payment has been '<state>'" in any other state, then 400 "cannot request more money than what was authorised" over the limit |
| MerchantGuard.RefundCheck | pkg/api/apimerchant/handlers.go:241-282 | a refund proceeds exactly when the lookup succeeds, the merchant owns the payment, the state is Captured or Refunded, and the amount is at most captures minus refunds; a failed lookup gives its lookup response; a foreign merchant gets 403 "forbidden" whatever the state and amount; the owner gets 400 "cannot refund payment - payment has been '<state>'" in any other state, then 400 "cannot refund more money than what was captured" over the limit |
| MerchantGuard.VoidCheck | pkg/api/apimerchant/handlers.go:335-360 | a void proceeds exactly when the lookup succeeds, the merchant owns the payment and the state is Authorised; a failed lookup gives its lookup response; a foreign merchant gets 403 "forbidden" whatever the state; the owner gets 400 "cannot void payment - payment has been '<state>'" in any other state |
| MerchantGuard.StepKeepsSound | pkg/api/apimerchant/handlers.go:122-385 | one accepted capture, refund or void with a non-negative amount keeps 0 <= refunds <= captures <= authorised (writes taken as complete, see MerchantApi.WriteIsEffect) |
| MerchantGuard.ReplayKeepsSound | pkg/api/apimerchant/handlers.go:122-385 | after any sequence of requests with non-negative amounts, 0 <= net captured <= captured <= authorised (writes taken as complete, see MerchantApi.WriteIsEffect) |
| MerchantGuard.ReplayCapturesWithinAuthorised | pkg/api/apimerchant/handlers.go:173-185 | whatever the amounts' signs, the capture total never exceeds the authorised amount (writes taken as complete, see MerchantApi.WriteIsEffect) |
| MerchantGuard.ReplayKeepsTerms | pkg/api/apimerchant/handlers.go:122-385 | no request changes the ID, currency, amount, owner or card; transactions are only appended, each a Capture or Refund carrying the payment's ID (writes taken as complete, see MerchantApi.WriteIsEffect) |
| MerchantGuard.ForeignRequestsChangeNothing | pkg/api/apimerchant/handlers.go:161-165 | requests from other merchants leave the payment as it was (writes taken as complete, see MerchantApi.WriteIsEffect) |
| MerchantGuard.VoidedIsFinal | pkg/api/apimerchant/handlers.go:167-171 | once Voided, no request changes the payment (writes taken as complete, see MerchantApi.WriteIsEffect) |
| MerchantGuard.DeclinedRequestsChangeNothing | pkg/api/apimerchant/handlers.go:193-198 | requests the processor declines change nothing (writes taken as complete, see MerchantApi.WriteIsEffect) |
| MerchantGuard.RefundKeepsCaptureHeadroom | pkg/api/apimerchant/handlers.go:174-180 | a refund leaves the capture total as it was: refunds do not restore capture headroom (writes taken as complete, see MerchantApi.WriteIsEffect) |
| MerchantGuard.NegativeCaptureAccepted | pkg/api/apimerchant/handlers.go:173-185 | a capture of -50 on a fresh authorisation passes every check and leaves the net captured amount at -50 |
| MerchantApi.InsertKeepsLedger | pkg/api/apimerchant/handlers.go:80-97 | storing a new authorisation with no transactions and a non-negative amount keeps the money invariant of the whole store |
| MerchantApi.RelabelKeepsLedger | pkg/api/apimerchant/handlers.go:375 | changing a label keeps the money invariant |
| MerchantApi.AppendKeepsLedger | pkg/api/apimerchant/handlers.go:199-202 | appending a capture within the headroom or a refund within the net amount keeps the money invariant |
| MerchantApi.RecordKeepsLedger | pkg/core/repository/service.go:208-236 | whatever part of AddTransaction happens before a failure, the money invariant holds |
| MerchantApi.WriteIsEffect | pkg/core/repository/service.go:208-236 | a complete AddTransaction write of a capture or refund turns the looked-up record into exactly MerchantGuard.Effect of it |
| MerchantApi.VoidIsEffect | pkg/core/repository/service.go:238-250 | a complete Voided relabelling turns the looked-up record into exactly MerchantGuard.Effect of a void |
| MerchantApi.AuthoriseTransaction | pkg/api/apimerchant/handlers.go:16-119 | a Luhn-invalid card gives 400, and so does an expired one, both before the processor is called; a decline writes nothing; approval is answered exactly when every write succeeds, and stores an Authorised record with the requested amount, currency and authenticated merchant at the end of the order; an unsupported currency gives 400 with the repository's message; every other failure, a duplicate ID included, gives 500 "Internal error"; the card is added only when its number is new and the writes reach the card insert, and is never overwritten |
| MerchantApi.CaptureTransaction | pkg/api/apimerchant/handlers.go:122-214 | the processor is called exactly when CaptureCheck passes, and a rejection is the check's status and message; nothing is written unless the processor accepts; then AddTransaction records the capture; on a success response the stored record is MerchantGuard.Effect of the looked-up one; the money invariant is kept |
| MerchantApi.RefundTransaction | pkg/api/apimerchant/handlers.go:217-311 | the same, with RefundCheck and a Refund row, and on success the stored record is Effect of a refund |
| MerchantApi.VoidTransaction | pkg/api/apimerchant/handlers.go:314-385 | the same, with VoidCheck; on acceptance the label becomes Voided and no transaction is written; on a success response the stored record is Effect of a void |
| Config.ParseLogLevel | pkg/core/config.go:201-218 | each of debug, info, warning and error, in any letter case, gives its own level (so "warning" is Warn) and nothing else gives a level |
| Config.ParseLogLevelIgnoresCase | pkg/core/config.go:202 | letter case does not change the result |
| Config.ParseLogLevelAcceptsUpperCase | pkg/core/config.go:202-210 | "WARNING" is Warn |
| Config.ParseLogLevelAcceptsCapitalised | pkg/core/config.go:202-206 | "Debug" is Debug |
| Config.ParseLogLevelRejectsWarn | pkg/core/config.go:213-214 | "warn" and the empty text are errors |
| Config.Configuration.constructor | pkg/core/config.go:64-67 | NewConfig gives 127.0.0.1:8080 and 127.0.0.1:8081, dev mode off, level Info, timeout 5, database port 3306, auth and processor ports 8080 |
| Config.Configuration.SetDefaults | pkg/core/config.go:176-198 | the listed fields take their defaults and the other fields stay |
| Config.DefaultsInRange | pkg/core/config.go:176-198 | the defaults are valid ports and a positive timeout |
| Config.Configuration.LoadConfig | pkg/core/config.go:70-173 | the new configuration and error are those of the sixteen blocks in order, stopping at the first error |
| Config.Configuration.LoadWebservers | pkg/core/config.go:72-92 | the four web-server blocks in order, stopping at the first error |
| Config.Configuration.LoadOptions | pkg/core/config.go:94-113 | the three option blocks in order, stopping at the first error |
| Config.Configuration.LoadDatabase | pkg/core/config.go:115-144 | the five database blocks in order, stopping at the first error |
| Config.Configuration.LoadServices | pkg/core/config.go:146-170 | the four service blocks in order, stopping at the first error |
| Config.Configuration.LoadWebserverMerchantHost | pkg/core/config.go:72-74 | a present variable sets the host; no error |
| Config.Configuration.LoadWebserverMerchantPort | pkg/core/config.go:76-81 | the parsed value is assigned, then rejected unless it parsed and lies in 1..65535 |
| Config.Configuration.LoadWebserverMgmtHost | pkg/core/config.go:83-85 | a present variable sets the host; no error |
| Config.Configuration.LoadWebserverMgmtPort | pkg/core/config.go:87-92 | as for the merchant port |
| Config.Configuration.LoadOptionsDevMode | pkg/core/config.go:94-99 | ParseBool's value is assigned; an unrecognised spelling is an error |
| Config.Configuration.LoadOptionsLogLevel | pkg/core/config.go:101-106 | a recognised level is assigned; any other text is an error |
| Config.Configuration.LoadOptionsHttpClientTimeout | pkg/core/config.go:108-113 | the parsed value is assigned, then rejected unless it parsed and is positive |
| Config.Configuration.LoadDatabaseHost | pkg/core/config.go:115-119 | sets the host, or fails when the variable is missing |
| Config.Configuration.LoadDatabasePort | pkg/core/config.go:121-126 | as for the merchant port |
| Config.Configuration.LoadDatabaseUsername | pkg/core/config.go:128-132 | sets the user name, or fails when missing |
| Config.Configuration.LoadDatabasePassword | pkg/core/config.go:134-138 | sets the password, or fails when missing |
| Config.Configuration.LoadDatabaseDbName | pkg/core/config.go:140-144 | sets the database name, or fails when missing |
| Config.Configuration.LoadAuthServiceHost | pkg/core/config.go:146-150 | sets the host, or fails when missing |
| Config.Configuration.LoadAuthServicePort | pkg/core/config.go:152-157 | as for the merchant port |
| Config.Configuration.LoadPProcessorHost | pkg/core/config.go:159-163 | sets the host, or fails when missing |
| Config.Configuration.LoadPProcessorPort | pkg/core/config.go:165-170 | as for the merchant port |
| Config.Assigned | pkg/core/config.go:72-170 | what a present variable assigns fits its field; only a level that does not parse assigns nothing |
| Config.ErrorAtIff | pkg/core/config.go:72-170 | a variable fails exactly when it is mandatory and missing, or present and rejected by its check |
| Config.UpdateFrame | pkg/core/config.go:72-170 | the block for a variable changes no other field |
| Config.LoadSucceedsIff | pkg/core/config.go:70-173 | loading succeeds exactly when no variable in the order has an error |
| Config.MandatoryMissingFails | pkg/core/config.go:115-163 | a missing DATABASE_HOST, USERNAME, PASSWORD, DBNAME, AUTHSERVICE_HOST or PPROCESSORSERVICE_HOST makes the load fail |
| Config.AbsentKeepsField | pkg/core/config.go:72-170 | a variable absent from the environment leaves its field as it was, whether the load succeeds or not |
| Config.PresentIsAssigned | pkg/core/config.go:72-170 | after a successful load every present variable's field holds its parsed value |
| Config.LoadKeepsRange | pkg/core/config.go:76-170 | a successful load from valid settings keeps every port in 1..65535 and the timeout positive |
| Config.LoadedConfigInRange | pkg/core/config.go:64-173 | when no variable is in error, NewConfig followed by LoadConfig succeeds and gives valid ports and a positive timeout |
| Config.LoadFromConcat | pkg/core/config.go:70-173 | the first failing block stops the load, and fields assigned before it stay assigned |
| Config.LoadBySections | pkg/core/config.go:70-173 | loading the whole order is loading its four groups one after another |
| Config.LoadOrderComplete | pkg/core/config.go:72-170 | every variable is read |
| Config.GetSet | pkg/core/config.go:17-61 | a field that is set reads back, and the other fields stay |
| Text.TrimPrefix | pkg/api/middleware/basicauth.go:29 | the text without the prefix when it starts with it, else the text unchanged |
| Text.TrimPrefixUnchanged | pkg/api/middleware/basicauth.go:29-30 | with a non-empty prefix, the text is unchanged exactly when the prefix is absent |
| Text.Split | pkg/api/middleware/basicauth.go:44 | one part more than there are separators, no part holds a separator, and the parts join back to the text |
| Text.SplitInTwo | pkg/api/middleware/basicauth.go:44-45 | two parts are the text before and after its only separator |
| Text.ToLower | pkg/core/config.go:202 | the same length, each letter A-Z lowered and every other character kept |
| Text.ToLowerIdempotent | pkg/core/config.go:202 | lowering twice is lowering once |
| Text.Atoi | pkg/core/config.go:77 | a success lies in the 64-bit range and has an optional sign and digits; digit strings in range give their value; a syntax error gives 0; a digit string past MaxInt64 gives MaxInt64 with an error; a digit run past 2^64 - 1 gives the signed 64-bit bound with an error, whatever follows it |
| Text.AtoiOfDecimal | pkg/core/config.go:77 | Atoi reads back the decimal notation of every number up to the 64-bit bound |
| Text.AtoiOfNegative | pkg/core/config.go:77 | a leading minus negates the value |
| Text.AtoiOfPositive | pkg/core/config.go:77 | a leading plus sign is accepted and keeps the value |
| Text.AtoiOverflowBeforeText | pkg/core/config.go:77 | digits worth more than 2^64 - 1 followed by a non-digit give MaxInt64, or MinInt64 after a minus, with an error |
| Text.ParseBool | pkg/core/config.go:95 | exactly the twelve spellings Go accepts parse, and only the six true spellings give true |
| BasicAuth.CheckCredentials | pkg/api/middleware/basicauth.go:71-119 | true only for a 200 reply with a valid body; any other status is false without an error; a failed request or an unreadable or malformed body is an error |
| BasicAuth.ParseHeader | pkg/api/middleware/basicauth.go:22-49 | an empty header, a header without the case-sensitive "Basic " scheme, an undecodable token, or decoded text without exactly one ':' stops the request, each case told apart; otherwise the decoded text is the user name, ':' and the password |
| BasicAuth.GinBasicAuth | pkg/api/middleware/basicauth.go:19-69 | an empty header gives 401 with the realm challenge; no "Basic " scheme gives 403 "could not find"; a token that does not decode, or does not split into two parts, gives 403 "could not decode"; credentials the service rejects give 403 "provided credentials are not valid"; a service error gives 500; the request goes on exactly when the service confirms the credentials, as the user before the colon |
| BasicAuth.ServiceAskedOnlyWithCredentials | pkg/api/middleware/basicauth.go:52 | the service's answers matter only once the header has yielded credentials, and without them the request is stopped |
| BasicAuth.CredentialsRoundTrip | pkg/api/middleware/basicauth.go:29-49 | "Basic " followed by a token that decodes to user:password, neither containing ':', gives back that user and password; "user:" is accepted with an empty password |
| BasicAuth.ColonInPasswordRefused | pkg/api/middleware/basicauth.go:44-49 | a password containing ':' gives 403 "could not decode" |
| BasicAuth.LowercaseSchemeRefused | pkg/api/middleware/basicauth.go:29-34 | "basic " is not "Basic ": 403 "could not find" |
| BasicAuth.AcceptedUserIsHeaderUser | pkg/api/middleware/basicauth.go:52-67 | confirmed credentials let the request through as the header's user |

## Left out

- The payment processor client (`pkg/core/pprocessor`) is network I/O. Each processor call is an
  input: an optional authorisation ID for `AuthoriseTransaction` and a success flag for the
  other three handlers.
- The gorm/MySQL layer (`pkg/core/repository/repository.go`) is replaced by maps. What each of its
  calls can do is reduced to success, or failure with a driver message, chosen by `DbFault`.
  `AddTransaction` on an unknown ID is taken to fail with a foreign-key error after its state
  update found no row. A record that is not found is an ID or card number absent from its map. A
  `DbFault` stands for any other driver error. So a transactions lookup that finds nothing gives an
  empty list, as the code's not-found branch does. The database functions themselves are not part of this model.
- `CardExpiryValid` is not part of this model; its verdict is an input.
- gin's request binding, JSON rendering and logging are left out. The handlers start from a bound
  request. Binding's rejection of a zero amount and of missing fields is not modelled.
- Amounts are `float64` in the code. Here they are integers in minor units, so float rounding in
  the sums is not modelled.
- MerchantApi.AuthoriseTransaction, MerchantApi.CaptureTransaction,
  MerchantApi.RefundTransaction: the money invariant is proved only for non-negative amounts. The
  handlers do not reject negative amounts; MerchantGuard.NegativeCaptureAccepted shows one going
  through.
- MerchantGuard.Replay and the lemmas about it assume that every database write of an accepted
  request completes. A partial AddTransaction, with the label changed but no transaction row, is
  not a step of Replay; MerchantApi.RecordKeepsLedger covers the money invariant in that case.
- Two captures that read the same totals and then both write are a race between concurrent
  requests. The model is sequential.
- Repository.AuthorisationStore.GetAuthorisationDetails: with the card-not-found error the code
  also returns the partly filled record. The model returns only the error, and the handlers
  ignore the record in that case. The transactions are listed in the order they were stored:
  the transaction query is not part of this model, so this order is an assumption.
- Config.Configuration.LoadOptionsLogLevel: on an unrecognised level the code assigns the log
  package's zero level before it returns the error. The log package is not part of this model, so
  the model leaves the level unchanged.
- Config.Configuration.LoadConfig is written as four group methods of one method per Go block.
  The order and the early returns are those of the code.
- Text.ToLower handles ASCII only; `strings.ToLower` also lowers other Unicode letters.
- Text.Atoi: Go tells a syntax error from a range error; the model has one error flag. The value
  returned with the error is Go's: 0 for a syntax error, the nearest 64-bit bound for a range
  error, including a digit run past 2^64 - 1 that is followed by other text.
- Base64 decoding is a parameter of BasicAuth.ParseHeader and BasicAuth.GinBasicAuth. The model
  treats the decoded bytes as text.
- The card number is a `nat`. The `int64` of `LuhnValid` and the type that the handler passes
  are not modelled.
- Repository.AuthorisationStore.GetAllAuthorisations: the order of the list is taken to be
  insertion order. The code's query has no ORDER BY, and the function that runs it is not part of
  this model, so a database may return another order.
- Process lifecycle, the HTTP servers, the management API and the health check are outside the
  core.
