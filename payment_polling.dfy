/**
 * The decision rules of the payment queries (services/paymentService.ts): when the
 * invoice, transaction and transaction-status queries run, and when the status query
 * stops polling.
 */
module PaymentPolling {
  import opened Wrappers

  const PollIntervalMs: nat := 2000

  /** What `refetchInterval` returns: `false`, or a polling period in milliseconds. */
  datatype Interval = StopPolling | PollEvery(ms: nat)

  /** The statuses at which `refetchInterval` stops polling. */
  const StopStatuses: set<string> := {"SUCCESS", "FAILED", "CANCELLED"}

  /** `refetchInterval` of the transaction-status query, as written; `status` is the last status fetched, if any. */
  function RefetchInterval(status: Option<string>): Interval {
    if status == Some("SUCCESS") || status == Some("FAILED") || status == Some("CANCELLED") then StopPolling
    else PollEvery(PollIntervalMs)
  }

  /** Polling stops exactly at SUCCESS, FAILED and CANCELLED; before any data and at every other status it polls every 2000 ms. */
  lemma RefetchIntervalStopsAtStopStatuses(status: Option<string>)
    ensures RefetchInterval(status) == StopPolling <==> status.Some? && status.value in StopStatuses
    ensures RefetchInterval(status) != StopPolling ==> RefetchInterval(status) == PollEvery(2000)
    ensures RefetchInterval(None) == PollEvery(2000) && RefetchInterval(Some("PENDING")) == PollEvery(2000)
  {
  }

  /** "SUCCEEDED", the status the billing overlay shows as a success, does not stop polling. */
  lemma SucceededKeepsPolling()
    ensures RefetchInterval(Some("SUCCEEDED")) == PollEvery(PollIntervalMs)
  {
  }

  /** The statuses after which a transaction can no longer change, as either page names them. */
  const FinalStatuses: set<string> := {"SUCCESS", "SUCCEEDED", "FAILED", "CANCELLED"}

  /** The polling rule with "SUCCEEDED" counted as final too. */
  function SettledRefetchInterval(status: Option<string>): (r: Interval)
    ensures r == StopPolling <==> status.Some? && status.value in FinalStatuses
  {
    if status.Some? && status.value in FinalStatuses then StopPolling else PollEvery(PollIntervalMs)
  }

  /** The corrected rule differs from the written one only at "SUCCEEDED". */
  lemma SettledRefetchIntervalDiffersOnlyAtSucceeded(status: Option<string>)
    ensures SettledRefetchInterval(status) != RefetchInterval(status) <==> status == Some("SUCCEEDED")
  {
  }

  /** `enabled: !!id` of the invoice, transaction and transaction-status queries. */
  function QueryEnabled(id: Option<string>): (r: bool)
    ensures r ==> id.Some? && |id.value| > 0
    ensures id.Some? && |id.value| > 0 ==> r
  {
    Truthy(id)
  }
}
