/**
 * Client-triggered checkout verification (src/app/api/stripe/verify/route.ts):
 * a guard chain with early returns, then the caller's own row becomes premium.
 */
module StripeVerify {
  import opened Wrappers
  import opened Strings
  import opened Subscription
  import opened Profiles
  import opened StripeObjects
  import StripeWebhook

  /** The signed-in user, whose `id` may be missing from the session. */
  datatype Caller = Caller(id: Option<string>)

  /** A JSON body field: absent (or an unreadable body), a string, or some other JSON value. */
  datatype JsonField = Missing | Str(s: string) | NonString

  datatype VerifyReply =
    | Unauthorized401
    | MissingSessionId400
    | PaymentNotCompleted400
    | SessionMismatch403
    | NoSubscription400
    | Verified(start: int, end: int)   // `{ status: "premium", subscription_start, subscription_end }`
    | VerificationFailed500            // a retrieval threw

  datatype Decision = Decision(reply: VerifyReply, write: Write)

  /** The session's `client_reference_id` names the caller. */
  predicate OwnedBy(s: CheckoutSession, c: Caller) {
    Truthy(s.clientReferenceId) && c.id == s.clientReferenceId
  }

  /**
   * What `POST` answers and writes. `stripeKey` says whether `STRIPE_SECRET_KEY` is set,
   * so that `getStripe()` does not throw; `sessions` and `subs` are the provider's stores:
   * an id missing from them is a retrieval that throws.
   */
  function Decide(caller: Option<Caller>, sessionId: JsonField, stripeKey: bool,
                  sessions: map<string, CheckoutSession>, subs: map<string, StripeSubscription>): (d: Decision)
    ensures caller.None? ==> d.reply == Unauthorized401
    ensures caller.Some? && !(sessionId.Str? && sessionId.s != "") ==> d.reply == MissingSessionId400
    ensures caller.Some? && sessionId.Str? && sessionId.s != "" && (!stripeKey || sessionId.s !in sessions) ==>
              d == Decision(VerificationFailed500, NoWrite)
    ensures caller.Some? && sessionId.Str? && sessionId.s != "" && stripeKey && sessionId.s in sessions
            && sessions[sessionId.s].paymentStatus == "paid" && OwnedBy(sessions[sessionId.s], caller.value)
            && Truthy(sessions[sessionId.s].subscription) && sessions[sessionId.s].subscription.value !in subs ==>
              d == Decision(VerificationFailed500, NoWrite)
    ensures d.reply.Verified? <==> d.write != NoWrite
    ensures d.write != NoWrite ==>
              caller.Some? && sessionId.Str? && sessionId.s in sessions
              && OwnedBy(sessions[sessionId.s], caller.value)
              && d.write == UpdateById(caller.value.id.value, Entitlement("premium", Some(d.reply.start), Some(d.reply.end)))
  {
    if caller.None? then Decision(Unauthorized401, NoWrite)
    else if !(sessionId.Str? && sessionId.s != "") then Decision(MissingSessionId400, NoWrite)
    else if !stripeKey || sessionId.s !in sessions then Decision(VerificationFailed500, NoWrite)
    else
      var checkout := sessions[sessionId.s];
      if checkout.paymentStatus != "paid" then Decision(PaymentNotCompleted400, NoWrite)
      else if !OwnedBy(checkout, caller.value) then Decision(SessionMismatch403, NoWrite)
      else if !Truthy(checkout.subscription) then Decision(NoSubscription400, NoWrite)
      else if checkout.subscription.value !in subs then Decision(VerificationFailed500, NoWrite)
      else
        var p := subs[checkout.subscription.value].period;
        Decision(Verified(p.start, p.end), UpdateById(checkout.clientReferenceId.value, PremiumFor(p)))
  }

  /** The guards on a retrieved session run in order: payment status, then ownership, then the subscription id. */
  lemma GuardOrder(caller: Caller, id: string, sessions: map<string, CheckoutSession>,
                   subs: map<string, StripeSubscription>)
    requires id != "" && id in sessions
    ensures var s := sessions[id];
            var r := Decide(Some(caller), Str(id), true, sessions, subs).reply;
            && (s.paymentStatus != "paid" ==> r == PaymentNotCompleted400)
            && (s.paymentStatus == "paid" && !OwnedBy(s, caller) ==> r == SessionMismatch403)
            && (s.paymentStatus == "paid" && OwnedBy(s, caller) && !Truthy(s.subscription) ==> r == NoSubscription400)
            && (s.paymentStatus == "paid" && OwnedBy(s, caller) && Truthy(s.subscription) && s.subscription.value in subs ==>
                  r == Verified(subs[s.subscription.value].period.start, subs[s.subscription.value].period.end))
  {
  }

  /** A paid session that names another account (or none) is refused with 403 and credits nobody. */
  lemma {:induction false} CrossAccountRefused(caller: Caller, id: string, sessions: map<string, CheckoutSession>,
                                               subs: map<string, StripeSubscription>)
    requires id != "" && id in sessions && sessions[id].paymentStatus == "paid"
    requires sessions[id].clientReferenceId != caller.id || !Truthy(sessions[id].clientReferenceId)
    ensures Decide(Some(caller), Str(id), true, sessions, subs) == Decision(SessionMismatch403, NoWrite)
  {
    assert !OwnedBy(sessions[id], caller);
  }

  /** The table after one request. */
  function VerifyEffect(rows: map<string, Profile>, caller: Option<Caller>, sessionId: JsonField, stripeKey: bool,
                        sessions: map<string, CheckoutSession>, subs: map<string, StripeSubscription>): map<string, Profile>
  {
    Apply(rows, Decide(caller, sessionId, stripeKey, sessions, subs).write)
  }

  /** Only the caller's row can change, and when it does it holds exactly the period the reply echoes. */
  lemma {:induction false} VerifyTouchesOnlyCaller(rows: map<string, Profile>, caller: Option<Caller>, sessionId: JsonField,
                                                   stripeKey: bool,
                                                   sessions: map<string, CheckoutSession>, subs: map<string, StripeSubscription>)
    ensures var d := Decide(caller, sessionId, stripeKey, sessions, subs);
            var r := VerifyEffect(rows, caller, sessionId, stripeKey, sessions, subs);
            && r.Keys == rows.Keys
            && (!d.reply.Verified? ==> r == rows)
            && (d.reply.Verified? ==>
                  && (forall k :: k in rows && Some(k) != caller.value.id ==> r[k] == rows[k])
                  && (caller.value.id.value in rows ==>
                        EntitlementOf(r[caller.value.id.value]) == Entitlement("premium", Some(d.reply.start), Some(d.reply.end))))
  {
    var d := Decide(caller, sessionId, stripeKey, sessions, subs);
    ApplyKeepsIdentity(rows, d.write);
  }

  /**
   * Verification and the webhook's `checkout.session.completed` for the same owned session
   * make the same write, so whichever runs first, and however often, the row ends the same.
   */
  lemma {:induction false} VerifyAndWebhookConverge(rows: map<string, Profile>, caller: Caller, id: string,
                                                    sessions: map<string, CheckoutSession>,
                                                    subs: map<string, StripeSubscription>,
                                                    sig: Option<string>, secret: Option<string>)
    requires Truthy(sig) && Truthy(secret)
    requires Decide(Some(caller), Str(id), true, sessions, subs).reply.Verified?
    ensures var v := Decide(Some(caller), Str(id), true, sessions, subs).write;
            var w := StripeWebhook.Decide(sig, secret, true, true, StripeWebhook.CheckoutSessionCompleted(sessions[id]), subs).write;
            && v == w
            && Apply(Apply(rows, v), w) == Apply(rows, v)
            && Apply(Apply(rows, w), v) == Apply(rows, v)
  {
    var v := Decide(Some(caller), Str(id), true, sessions, subs).write;
    ApplyIdempotent(rows, v);
  }

  /** `POST`: the guards with early returns, then `update(...).eq("id", userId)`. */
  method HandleVerify(table: ProfileTable, caller: Option<Caller>, sessionId: JsonField, stripeKey: bool,
                      sessions: map<string, CheckoutSession>, subs: map<string, StripeSubscription>)
    returns (reply: VerifyReply)
    modifies table
    ensures reply == Decide(caller, sessionId, stripeKey, sessions, subs).reply
    ensures table.rows == VerifyEffect(old(table.rows), caller, sessionId, stripeKey, sessions, subs)
    ensures old(table.Valid()) ==> table.Valid()
  {
    if caller.None? {
      return Unauthorized401;
    }
    if !(sessionId.Str? && sessionId.s != "") {
      return MissingSessionId400;
    }
    if !stripeKey || sessionId.s !in sessions {
      return VerificationFailed500;
    }
    var checkout := sessions[sessionId.s];
    if checkout.paymentStatus != "paid" {
      return PaymentNotCompleted400;
    }
    var userId := checkout.clientReferenceId;
    if !Truthy(userId) || userId != caller.value.id {
      return SessionMismatch403;
    }
    var subId := checkout.subscription;
    if !Truthy(subId) {
      return NoSubscription400;
    }
    if subId.value !in subs {
      return VerificationFailed500;
    }
    var subscription := subs[subId.value];
    table.UpdateEntitlementById(userId.value, PremiumFor(subscription.period));
    return Verified(subscription.period.start, subscription.period.end);
  }
}
