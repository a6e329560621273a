/**
 * The totals the capture and refund handlers derive from an authorisation's
 * transactions (pkg/api/apimerchant/handlers.go), and the money invariant
 * they are meant to keep.
 */
module Ledger {

  import opened Entities

  /** The sum of the amounts of the "Capture" transactions. */
  function CapturedSum(ts: seq<Transaction>): int
  {
    if ts == [] then 0
    else CapturedSum(ts[..|ts| - 1]) + (if ts[|ts| - 1].kind == CaptureType then ts[|ts| - 1].amount else 0)
  }

  /** The sum of the amounts of the "Refund" transactions. */
  function RefundedSum(ts: seq<Transaction>): int
  {
    if ts == [] then 0
    else RefundedSum(ts[..|ts| - 1]) + (if ts[|ts| - 1].kind == RefundType then ts[|ts| - 1].amount else 0)
  }

  /** What is still captured: captures count up, refunds down, other types not at all. */
  function NetCaptured(ts: seq<Transaction>): int
  {
    if ts == [] then 0
    else
      var t := ts[|ts| - 1];
      NetCaptured(ts[..|ts| - 1]) + (if t.kind == CaptureType then t.amount else if t.kind == RefundType then -t.amount else 0)
  }

  lemma {:induction false} NetIsCapturedMinusRefunded(ts: seq<Transaction>)
    ensures NetCaptured(ts) == CapturedSum(ts) - RefundedSum(ts)
  {
    if ts != [] {
      NetIsCapturedMinusRefunded(ts[..|ts| - 1]);
    }
  }

  /** The capture handler's loop. */
  method SumCaptures(ts: seq<Transaction>) returns (capturedSum: int)
    ensures capturedSum == CapturedSum(ts)
  {
    capturedSum := 0;
    for k := 0 to |ts|
      invariant capturedSum == CapturedSum(ts[..k])
    {
      assert ts[..k + 1][..k] == ts[..k];
      if ts[k].kind == CaptureType {
        capturedSum := capturedSum + ts[k].amount;
      }
    }
    assert ts[..|ts|] == ts;
  }

  /** The refund handler's loop. */
  method SumNetCaptured(ts: seq<Transaction>) returns (capturedSum: int)
    ensures capturedSum == NetCaptured(ts)
  {
    capturedSum := 0;
    for k := 0 to |ts|
      invariant capturedSum == NetCaptured(ts[..k])
    {
      assert ts[..k + 1][..k] == ts[..k];
      if ts[k].kind == CaptureType {
        capturedSum := capturedSum + ts[k].amount;
      } else if ts[k].kind == RefundType {
        capturedSum := capturedSum - ts[k].amount;
      }
    }
    assert ts[..|ts|] == ts;
  }

  /** Every transaction amount is non-negative. */
  predicate NonNegative(ts: seq<Transaction>)
  {
    forall k :: 0 <= k < |ts| ==> ts[k].amount >= 0
  }

  /**
   * The money invariant of an authorisation of `authorised`: nothing is captured
   * beyond it, and refunds never exceed what was captured.
   */
  predicate Sound(authorised: int, ts: seq<Transaction>)
  {
    0 <= RefundedSum(ts) && RefundedSum(ts) <= CapturedSum(ts) && CapturedSum(ts) <= authorised
  }

  /** In a sound ledger the net captured amount lies between 0 and the captured total. */
  lemma SoundBounds(authorised: int, ts: seq<Transaction>)
    requires Sound(authorised, ts)
    ensures 0 <= NetCaptured(ts) <= CapturedSum(ts) <= authorised
  {
    NetIsCapturedMinusRefunded(ts);
  }

  /** Appending one transaction moves exactly one of the totals, by its amount. */
  lemma TotalsOfAppend(ts: seq<Transaction>, t: Transaction)
    ensures CapturedSum(ts + [t]) == CapturedSum(ts) + (if t.kind == CaptureType then t.amount else 0)
    ensures RefundedSum(ts + [t]) == RefundedSum(ts) + (if t.kind == RefundType then t.amount else 0)
    ensures NetCaptured(ts + [t]) == NetCaptured(ts) + (if t.kind == CaptureType then t.amount else if t.kind == RefundType then -t.amount else 0)
  {
    assert (ts + [t])[..|ts|] == ts;
  }

  /** The ledger of an authorisation that has no transactions yet (zero headroom used). */
  lemma EmptySound(authorised: int)
    requires authorised >= 0
    ensures Sound(authorised, [])
  {
  }
}
