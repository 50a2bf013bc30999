/**
 * Entitlement constants and the premium-access predicate (src/lib/subscription.ts).
 */
module Subscription {
  import opened Wrappers

  const FREE := "free"
  const PREMIUM := "premium"
  const ADMIN_ROLE := "admin"
  const USER_ROLE := "user"

  /** Every value a stored subscription status may take. */
  const SUBSCRIPTION_STATUSES: seq<string> := [FREE, PREMIUM]

  /** The display label of each status. */
  const SUBSCRIPTION_LABELS: map<string, string> := map[FREE := "Бесплатная", PREMIUM := "Премиум"]

  /**
   * The three shapes `isPremium` accepts: a bare status string, an object with
   * optional `role` and `subscription_status`, or nothing at all (`null`/`undefined`).
   */
  datatype PremiumQuery =
    | BareStatus(status: string)
    | ProfileLike(role: Option<string>, subscriptionStatus: Option<string>)
    | Absent

  /** `isPremium`: admins always, otherwise exactly the premium status. */
  predicate IsPremium(q: PremiumQuery)
  {
    match q
    case BareStatus(s) => s == PREMIUM
    case ProfileLike(role, status) => role == Some(ADMIN_ROLE) || status == Some(PREMIUM)
    case Absent => false
  }

  /** The three documented cases of `isPremium`, each in both directions. */
  lemma IsPremiumCases(q: PremiumQuery)
    ensures q.BareStatus? ==> (IsPremium(q) <==> q.status == "premium")
    ensures q.ProfileLike? && q.role == Some("admin") ==> IsPremium(q)
    ensures q.ProfileLike? && q.role != Some("admin") ==>
              (IsPremium(q) <==> q.subscriptionStatus == Some("premium"))
    ensures q.Absent? ==> !IsPremium(q)
  {
  }

  /** The status list is exactly free then premium, and every status has a label. */
  lemma StatusesLabelled()
    ensures SUBSCRIPTION_STATUSES == ["free", "premium"]
    ensures forall s :: s in SUBSCRIPTION_STATUSES <==> s in SUBSCRIPTION_LABELS
  {
  }
}
