/**
 * The payment provider's webhook receiver (src/app/api/stripe/webhook/route.ts):
 * a signed event either is rejected with nothing written, or overwrites at most
 * one profile row with values fixed by the event.
 */
module StripeWebhook {
  import opened Wrappers
  import opened Strings
  import opened Subscription
  import opened Profiles
  import opened StripeObjects

  /**
   * The events the handler tells apart; every other event type is `OtherEvent`, which
   * stands only for the types the handler does not name (see `WellFormed`).
   */
  datatype Event =
    | CheckoutSessionCompleted(session: CheckoutSession)
    | SubscriptionUpdated(subscription: StripeSubscription)
    | SubscriptionDeleted(subscription: StripeSubscription)
    | OtherEvent(kind: string)

  /** The three `event.type` values the handler has a branch for. */
  predicate HandledType(kind: string) {
    kind == "checkout.session.completed" || kind == "customer.subscription.updated" || kind == "customer.subscription.deleted"
  }

  /** An event as the provider delivers it: `OtherEvent` never carries a handled type. */
  predicate WellFormed(e: Event) {
    e.OtherEvent? ==> !HandledType(e.kind)
  }

  /** The provider's `event.type` string of each event. */
  function EventType(e: Event): string {
    match e
    case CheckoutSessionCompleted(_) => "checkout.session.completed"
    case SubscriptionUpdated(_) => "customer.subscription.updated"
    case SubscriptionDeleted(_) => "customer.subscription.deleted"
    case OtherEvent(kind) => kind
  }

  /** On well-formed events the type string picks the handler's branch, and the branch is exactly the event's kind. */
  lemma EventTypeSelectsBranch(e: Event)
    requires WellFormed(e)
    ensures EventType(e) == "checkout.session.completed" <==> e.CheckoutSessionCompleted?
    ensures EventType(e) == "customer.subscription.updated" <==> e.SubscriptionUpdated?
    ensures EventType(e) == "customer.subscription.deleted" <==> e.SubscriptionDeleted?
    ensures HandledType(EventType(e)) <==> !e.OtherEvent?
  {
  }

  datatype WebhookReply =
    | NotConfigured400        // no signature header, or no webhook secret
    | BadSignature400         // the signature check threw
    | Received                // `{ received: true }`
    | RetrieveFailed500       // retrieving the subscription threw (unhandled)
    | StripeUnavailable500    // `getStripe()` threw: no `STRIPE_SECRET_KEY` (unhandled)

  datatype Decision = Decision(reply: WebhookReply, write: Write)

  /** The row a completed checkout credits: `client_reference_id || subscription`. */
  function CheckoutTarget(s: CheckoutSession): Option<string> {
    if Truthy(s.clientReferenceId) then s.clientReferenceId else s.subscription
  }

  /**
   * What `POST` answers and writes for one delivery. `stripeKey` says whether
   * `STRIPE_SECRET_KEY` is set, so that `getStripe()` does not throw; `signatureValid`
   * stands for `constructEvent` not throwing; `subs` is the provider's subscription store.
   */
  function Decide(sig: Option<string>, secret: Option<string>, stripeKey: bool, signatureValid: bool,
                  event: Event, subs: map<string, StripeSubscription>): (d: Decision)
    ensures !Truthy(sig) || !Truthy(secret) ==> d == Decision(NotConfigured400, NoWrite)
    ensures Truthy(sig) && Truthy(secret) && !stripeKey ==> d == Decision(StripeUnavailable500, NoWrite)
    ensures Truthy(sig) && Truthy(secret) && stripeKey && !signatureValid ==> d == Decision(BadSignature400, NoWrite)
    ensures d.write != NoWrite ==> d.reply == Received && d.write.UpdateById?
    ensures event.OtherEvent? ==> d.write == NoWrite
  {
    if !Truthy(sig) || !Truthy(secret) then Decision(NotConfigured400, NoWrite)
    else if !stripeKey then Decision(StripeUnavailable500, NoWrite)
    else if !signatureValid then Decision(BadSignature400, NoWrite)
    else match event
      case CheckoutSessionCompleted(session) =>
        var userId := CheckoutTarget(session);
        if !Truthy(userId) then Decision(Received, NoWrite)
        else if !Truthy(session.subscription) then Decision(Received, NoWrite)
        else if session.subscription.value !in subs then Decision(RetrieveFailed500, NoWrite)
        else
          var sub := subs[session.subscription.value];
          Decision(Received, UpdateById(userId.value, PremiumFor(sub.period)))
      case SubscriptionUpdated(sub) => SubscriptionChange(sub)
      case SubscriptionDeleted(sub) => SubscriptionChange(sub)
      case OtherEvent(_) => Decision(Received, NoWrite)
  }

  /** The shared branch for `customer.subscription.updated` and `.deleted`. */
  function SubscriptionChange(sub: StripeSubscription): (d: Decision)
    ensures d.reply == Received
  {
    if !Truthy(sub.userId) then Decision(Received, NoWrite)
    else if sub.status == "active" then Decision(Received, UpdateById(sub.userId.value, PremiumFor(sub.period)))
    else Decision(Received, UpdateById(sub.userId.value, FREE_RESET))
  }

  /** The table after one delivery. */
  function WebhookEffect(rows: map<string, Profile>, sig: Option<string>, secret: Option<string>,
                         stripeKey: bool, signatureValid: bool, event: Event, subs: map<string, StripeSubscription>): map<string, Profile>
  {
    Apply(rows, Decide(sig, secret, stripeKey, signatureValid, event, subs).write)
  }

  /** A completed checkout credits `client_reference_id`, else the subscription id, with premium over the subscription's period; without either id nothing is written. */
  lemma CheckoutCompletedWrite(sig: Option<string>, secret: Option<string>, session: CheckoutSession,
                               subs: map<string, StripeSubscription>)
    requires Truthy(sig) && Truthy(secret)
    ensures var d := Decide(sig, secret, true, true, CheckoutSessionCompleted(session), subs);
            && (!Truthy(CheckoutTarget(session)) || !Truthy(session.subscription) ==> d == Decision(Received, NoWrite))
            && (Truthy(CheckoutTarget(session)) && Truthy(session.subscription) && session.subscription.value in subs ==>
                  d == Decision(Received, UpdateById(if Truthy(session.clientReferenceId) then session.clientReferenceId.value
                                                     else session.subscription.value,
                                                     PremiumFor(subs[session.subscription.value].period))))
  {
  }

  /** A subscription change for a tagged user stores premium with the period iff the status is `active`; any other status (`trialing` too) stores free with no period; an untagged one writes nothing. */
  lemma SubscriptionChangeWrite(sig: Option<string>, secret: Option<string>, sub: StripeSubscription,
                                subs: map<string, StripeSubscription>, deleted: bool)
    requires Truthy(sig) && Truthy(secret)
    ensures var e := if deleted then SubscriptionDeleted(sub) else SubscriptionUpdated(sub);
            var d := Decide(sig, secret, true, true, e, subs);
            && d.reply == Received
            && (!Truthy(sub.userId) <==> d.write == NoWrite)
            && (Truthy(sub.userId) && sub.status == "active" ==> d.write == UpdateById(sub.userId.value, PremiumFor(sub.period)))
            && (Truthy(sub.userId) && sub.status != "active" ==>
                  d.write == UpdateById(sub.userId.value, Entitlement("free", None, None)))
  {
  }

  /** Only the row whose id the event names can change; every other row and the set of rows stay as they were. */
  lemma {:induction false} WebhookTouchesOneRow(rows: map<string, Profile>, sig: Option<string>, secret: Option<string>,
                                                stripeKey: bool, signatureValid: bool, event: Event, subs: map<string, StripeSubscription>)
    ensures var r := WebhookEffect(rows, sig, secret, stripeKey, signatureValid, event, subs);
            var w := Decide(sig, secret, stripeKey, signatureValid, event, subs).write;
            && r.Keys == rows.Keys
            && (w == NoWrite ==> r == rows)
            && (w != NoWrite ==> forall k :: k in rows && k != w.id ==> r[k] == rows[k])
  {
    var w := Decide(sig, secret, stripeKey, signatureValid, event, subs).write;
    ApplyKeepsIdentity(rows, w);
  }

  /** Redelivery: handling the same event twice leaves the table as handling it once, with the same reply. */
  lemma {:induction false} WebhookIdempotent(rows: map<string, Profile>, sig: Option<string>, secret: Option<string>,
                                             stripeKey: bool, signatureValid: bool, event: Event, subs: map<string, StripeSubscription>)
    ensures var once := WebhookEffect(rows, sig, secret, stripeKey, signatureValid, event, subs);
            WebhookEffect(once, sig, secret, stripeKey, signatureValid, event, subs) == once
  {
    ApplyIdempotent(rows, Decide(sig, secret, stripeKey, signatureValid, event, subs).write);
  }

  /** `POST`: the guard chain, then at most one `update(...).eq("id", userId)`. */
  method HandleWebhook(table: ProfileTable, sig: Option<string>, secret: Option<string>, stripeKey: bool, signatureValid: bool,
                       event: Event, subs: map<string, StripeSubscription>) returns (reply: WebhookReply)
    modifies table
    ensures reply == Decide(sig, secret, stripeKey, signatureValid, event, subs).reply
    ensures table.rows == WebhookEffect(old(table.rows), sig, secret, stripeKey, signatureValid, event, subs)
    ensures old(table.Valid()) ==> table.Valid()
  {
    if !Truthy(sig) || !Truthy(secret) {
      return NotConfigured400;
    }
    if !stripeKey {
      return StripeUnavailable500;
    }
    if !signatureValid {
      return BadSignature400;
    }
    match event {
      case CheckoutSessionCompleted(session) =>
        var userId := if Truthy(session.clientReferenceId) then session.clientReferenceId else session.subscription;
        if !Truthy(userId) {
          return Received;
        }
        var subId := session.subscription;
        if !Truthy(subId) {
          return Received;
        }
        if subId.value !in subs {
          return RetrieveFailed500;
        }
        var subscription := subs[subId.value];
        table.UpdateEntitlementById(userId.value, PremiumFor(subscription.period));
        return Received;
      case SubscriptionUpdated(subscription) =>
        reply := HandleSubscriptionChange(table, subscription);
      case SubscriptionDeleted(subscription) =>
        reply := HandleSubscriptionChange(table, subscription);
      case OtherEvent(_) =>
        return Received;
    }
  }

  method HandleSubscriptionChange(table: ProfileTable, subscription: StripeSubscription) returns (reply: WebhookReply)
    modifies table
    ensures reply == SubscriptionChange(subscription).reply
    ensures table.rows == Apply(old(table.rows), SubscriptionChange(subscription).write)
    ensures old(table.Valid()) ==> table.Valid()
  {
    var userId := subscription.userId;
    if !Truthy(userId) {
      return Received;
    }
    if subscription.status == "active" {
      table.UpdateEntitlementById(userId.value, PremiumFor(subscription.period));
    } else {
      table.UpdateEntitlementById(userId.value, FREE_RESET);
    }
    return Received;
  }
}
