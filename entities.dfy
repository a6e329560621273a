/**
 * The record shapes shared by the repository and the handlers
 * (pkg/core/entities/entities.go). Amounts are integers in minor units.
 */
module Entities {

  import opened Wrappers

  /** The lifecycle labels an authorisation can carry. */
  datatype State = Authorised | Captured | Refunded | Voided

  /** The label stored in the states table and shown in error messages. */
  function StateName(s: State): string
  {
    match s
    case Authorised => "Authorised"
    case Captured => "Captured"
    case Refunded => "Refunded"
    case Voided => "Voided"
  }

  /** The transaction types the handlers record. */
  const CaptureType: string := "Capture"
  const RefundType: string := "Refund"

  datatype CreditCard = CreditCard(number: nat, name: string, expiryMonth: nat, expiryYear: nat, cvv: nat)

  /** `id` holds the owning authorisation's ID, as the repository fills it in. */
  datatype Transaction = Transaction(id: string, kind: string, amount: int)

  datatype Authorisation = Authorisation(
    id: string,
    state: State,
    currency: string,
    amount: int,
    merchantName: string,
    creditCard: Option<CreditCard>,
    transactions: seq<Transaction>)
}
