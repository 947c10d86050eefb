/** Payment statuses (payment/types.go): a closed, case-sensitive registry. */
module Payment {
  import opened Wrappers
  import opened Errs

  /** A payment status; `NoStatus` is the empty string Go returns on failure. */
  datatype PaymentStatus = Pending | Success | Failed | Canceled | Refunded | NoStatus

  function StatusText(s: PaymentStatus): string {
    match s
    case Pending => "pending"
    case Success => "success"
    case Failed => "failed"
    case Canceled => "canceled"
    case Refunded => "refunded"
    case NoStatus => ""
  }

  const StatusNames: set<string> := {"pending", "success", "failed", "canceled", "refunded"}

  /** ParsePaymentStatus: exact lookup; unknown input gives "" and an error. */
  function ParsePaymentStatus(v: string): (r: (PaymentStatus, Option<Error>))
    ensures r.1.None? <==> v in StatusNames
    ensures r.1.None? ==> StatusText(r.0) == v && r.0 != NoStatus
    ensures r.1.Some? ==> r.0 == NoStatus && Message(r.1.value) == "invalid payment status: " + v
  {
    if v == "pending" then (Pending, None)
    else if v == "success" then (Success, None)
    else if v == "failed" then (Failed, None)
    else if v == "canceled" then (PaymentStatus.Canceled, None)
    else if v == "refunded" then (Refunded, None)
    else (NoStatus, Some(Plain("invalid payment status: " + v)))
  }

  /** Every registered status parses back from its text; the lookup is
      case-sensitive. */
  lemma ParseStatusText(s: PaymentStatus)
    requires s != NoStatus
    ensures ParsePaymentStatus(StatusText(s)) == (s, None)
    ensures ParsePaymentStatus("Pending").1.Some? && ParsePaymentStatus("SUCCESS").1.Some?
  {
  }

  /** Exactly five statuses are registered. */
  lemma FiveStatuses()
    ensures |StatusNames| == 5
    ensures forall s: PaymentStatus :: s != NoStatus <==> StatusText(s) in StatusNames
  {
  }
}
