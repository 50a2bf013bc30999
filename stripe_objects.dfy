/**
 * The payment provider's objects, reduced to the fields the write paths read.
 */
module StripeObjects {
  import opened Wrappers
  import opened Subscription
  import opened Profiles

  /** A subscription's current billing period, in epoch seconds. */
  datatype Period = Period(start: int, end: int)

  /** A subscription: its id, status, `metadata.userId` and current period. */
  datatype StripeSubscription = StripeSubscription(id: string, status: string, userId: Option<string>, period: Period)

  /** A checkout session: `payment_status`, `client_reference_id`, `subscription`, `customer_email`. */
  datatype CheckoutSession = CheckoutSession(
    id: string,
    paymentStatus: string,
    clientReferenceId: Option<string>,
    subscription: Option<string>,
    customerEmail: Option<string>)

  /** The entitlement every premium write stores: premium over the subscription's current period. */
  function PremiumFor(p: Period): (e: Entitlement)
    ensures e.status == "premium" && e.start == Some(p.start) && e.end == Some(p.end)
  {
    Entitlement(PREMIUM, Some(p.start), Some(p.end))
  }

  /** The entitlement a lapsed subscription stores: free with no period. */
  const FREE_RESET := Entitlement(FREE, None, None)
}
