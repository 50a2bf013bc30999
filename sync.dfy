/**
 * scripts/sync-stripe-subscription.js: for one email, every live subscription the
 * provider knows of is copied into the profile table as premium. The provider's
 * answers are inputs; a failing table update is named by the position of its attempt.
 */
module SyncSubscription {
  import opened Wrappers
  import opened Strings
  import opened Subscription
  import opened Profiles
  import opened StripeObjects
  import opened EnvFile

  /** The loader's loop: each matching line of `.env.local` overwrites `process.env[key]`, an empty value too. */
  function LoadLines(env: map<string, string>, lines: seq<string>): map<string, string> {
    if lines == [] then env
    else
      LoadLine(LoadLines(env, lines[..|lines| - 1]), lines[|lines| - 1])
  }

  /** `if (m) process.env[m[1]] = value` for one line. */
  function LoadLine(env: map<string, string>, line: string): map<string, string> {
    var m := ParseEnvLine(line);
    if m.Some? then env[m.value.0 := m.value.1] else env
  }

  /** The environment after loading: the file's last line for a key wins over the process's value. */
  lemma {:induction false} LoadedValue(env: map<string, string>, lines: seq<string>, k: string)
    ensures LastEntry(lines, k).Some? ==> k in LoadLines(env, lines) && LoadLines(env, lines)[k] == LastEntry(lines, k).value
    ensures LastEntry(lines, k).None? ==>
              (k in LoadLines(env, lines) <==> k in env) && (k in env ==> LoadLines(env, lines)[k] == env[k])
  {
    if lines != [] {
      var n := |lines| - 1;
      LoadedValue(env, lines[..n], k);
      LoadLineValue(LoadLines(env, lines[..n]), lines[n], k);
    }
  }

  /** One loaded line sets its own key and leaves every other key alone. */
  lemma LoadLineValue(env: map<string, string>, line: string, k: string)
    ensures var m := ParseEnvLine(line);
            m.Some? && m.value.0 == k ==> k in LoadLine(env, line) && LoadLine(env, line)[k] == m.value.1
    ensures var m := ParseEnvLine(line);
            !(m.Some? && m.value.0 == k) ==> (k in LoadLine(env, line) <==> k in env) && (k in env ==> LoadLine(env, line)[k] == env[k])
  {
  }

  /** The environment the script runs with: `.env.local`, if present, loaded over the process's. */
  function Loaded(processEnv: map<string, string>, file: Option<string>): map<string, string> {
    if file.None? then processEnv else LoadLines(processEnv, Split(file.value, '\n'))
  }

  /** The top of the script: `.env.local`, if present, loaded into the process environment. */
  method LoadEnv(processEnv: map<string, string>, file: Option<string>) returns (env: map<string, string>)
    ensures env == Loaded(processEnv, file)
  {
    env := processEnv;
    if file.Some? {
      env := LoadEnvLines(env, Split(file.value, '\n'));
    }
  }

  /** The loader's `for` loop over the file's lines. */
  method LoadEnvLines(processEnv: map<string, string>, lines: seq<string>) returns (env: map<string, string>)
    ensures env == LoadLines(processEnv, lines)
  {
    env := processEnv;
    var i := 0;
    while i < |lines|
      invariant 0 <= i <= |lines|
      invariant env == LoadLines(processEnv, lines[..i])
    {
      LoadStep(processEnv, lines, i);
      env := LoadLine(env, lines[i]);
      i := i + 1;
    }
    assert lines[..|lines|] == lines;
  }

  lemma LoadStep(env: map<string, string>, lines: seq<string>, i: nat)
    requires i < |lines|
    ensures LoadLines(env, lines[..i + 1]) == LoadLine(LoadLines(env, lines[..i]), lines[i])
  {
    assert lines[..i + 1][..i] == lines[..i];
  }

  function EnvValue(env: map<string, string>, k: string): Option<string> {
    if k in env then Some(env[k]) else None
  }

  /** `(process.argv[2] || "").trim().toLowerCase()`. */
  function NormalizeArg(arg: Option<string>): string {
    ToLower(Trim(arg.GetOr("")))
  }

  /** The statuses that grant premium here: `active` and `trialing`. */
  predicate IsLive(status: string) {
    status == "active" || status == "trialing"
  }

  /** The update one subscription causes: premium over its period, by `userId` if present, else by email; none unless live. */
  function LiveWrite(sub: StripeSubscription, userId: Option<string>, email: string): (w: Write)
    ensures w != NoWrite <==> IsLive(sub.status)
    ensures w != NoWrite ==> w.e == PremiumFor(sub.period)
    ensures w.UpdateById? <==> IsLive(sub.status) && Truthy(userId)
    ensures w.UpdateById? ==> w.id == userId.value
    ensures w.UpdateByEmail? ==> w.email == email
  {
    if !IsLive(sub.status) then NoWrite
    else if Truthy(userId) then UpdateById(userId.value, PremiumFor(sub.period))
    else UpdateByEmail(email, PremiumFor(sub.period))
  }

  /** `s.customer_email?.toLowerCase() === email && s.payment_status === "paid"`. */
  predicate PaidMatch(s: CheckoutSession, email: string) {
    s.customerEmail.Some? && ToLower(s.customerEmail.value) == email && s.paymentStatus == "paid"
  }

  /** `sessions.find(...)`: the index of the first paid session for the email. */
  function FindPaid(sessions: seq<CheckoutSession>, email: string): (r: Option<nat>)
    ensures r.Some? ==> r.value < |sessions| && PaidMatch(sessions[r.value], email)
    ensures r.Some? ==> forall j :: 0 <= j < r.value ==> !PaidMatch(sessions[j], email)
    ensures r.None? <==> forall j :: 0 <= j < |sessions| ==> !PaidMatch(sessions[j], email)
  {
    if sessions == [] then None
    else if PaidMatch(sessions[0], email) then Some(0)
    else match FindPaid(sessions[1..], email)
      case None => None
      case Some(i) => Some(i + 1)
  }

  /** A customer with the answer of `subscriptions.list` for it; `None` when that call throws. */
  datatype Customer = Customer(id: string, subscriptions: Option<seq<StripeSubscription>>)

  /**
   * What the provider answers: the customers for the email (`None`: `customers.list` throws),
   * the recent checkout sessions (`None`: `checkout.sessions.list` throws), subscriptions by id.
   */
  datatype Provider = Provider(
    customers: Option<seq<Customer>>,
    sessions: Option<seq<CheckoutSession>>,
    subs: map<string, StripeSubscription>)

  /** Which table updates fail: the fallback's, and the loop's by (customer, subscription) position. */
  datatype DbFaults = DbFaults(fallback: bool, loop: set<(nat, nat)>)

  /** The inner loop over one customer's subscriptions (customer index `c`). */
  function SubsEffect(rows: map<string, Profile>, subs: seq<StripeSubscription>, c: nat, email: string,
                      failing: set<(nat, nat)>): map<string, Profile>
  {
    if subs == [] then rows
    else
      var n := |subs| - 1;
      var before := SubsEffect(rows, subs[..n], c, email, failing);
      if (c, n) in failing then before else Apply(before, LiveWrite(subs[n], subs[n].userId, email))
  }

  /** The outcome: exit code and table. */
  datatype SyncResult = SyncResult(code: int, rows: map<string, Profile>)

  /**
   * The outer loop over the customers. A `subscriptions.list` that throws ends the script
   * with exit code 1 through the final `catch`; the updates made for earlier customers stay.
   */
  function CustomersRun(rows: map<string, Profile>, customers: seq<Customer>, email: string,
                        failing: set<(nat, nat)>): SyncResult
  {
    if customers == [] then SyncResult(0, rows)
    else
      var n := |customers| - 1;
      var before := CustomersRun(rows, customers[..n], email, failing);
      if before.code != 0 then before
      else if customers[n].subscriptions.None? then SyncResult(1, before.rows)
      else SyncResult(0, SubsEffect(before.rows, customers[n].subscriptions.value, n, email, failing))
  }

  /** The fallback when no customer has the email: the first paid session's subscription, if live. */
  function Fallback(rows: map<string, Profile>, email: string, sessions: Option<seq<CheckoutSession>>,
                    subs: map<string, StripeSubscription>, dbFails: bool): SyncResult
  {
    if sessions.None? then SyncResult(1, rows)
    else
      match FindPaid(sessions.value, email)
      case None => SyncResult(0, rows)
      case Some(i) =>
        var s := sessions.value[i];
        if !Truthy(s.subscription) then SyncResult(0, rows)
        else if s.subscription.value !in subs then SyncResult(1, rows)
        else
          var w := LiveWrite(subs[s.subscription.value], s.clientReferenceId, email);
          if w == NoWrite then SyncResult(0, rows)
          else if dbFails then SyncResult(1, rows)
          else SyncResult(0, Apply(rows, w))
  }

  /** The whole script on a table, an argument, an environment and the provider's answers. */
  function SyncRun(rows: map<string, Profile>, arg: Option<string>, env: map<string, string>,
                   p: Provider, faults: DbFaults): SyncResult
  {
    var email := NormalizeArg(arg);
    if email == "" then SyncResult(1, rows)
    else if !Truthy(EnvValue(env, "STRIPE_SECRET_KEY")) then SyncResult(1, rows)
    else if !Truthy(EnvValue(env, "NEXT_PUBLIC_SUPABASE_URL"))
         || (!Truthy(EnvValue(env, "SUPABASE_SERVICE_ROLE_KEY")) && !Truthy(EnvValue(env, "NEXT_PUBLIC_SUPABASE_ANON_KEY")))
    then SyncResult(1, rows)
    else if p.customers.None? then SyncResult(1, rows)
    else if p.customers.value == [] then Fallback(rows, email, p.sessions, p.subs, faults.fallback)
    else CustomersRun(rows, p.customers.value, email, faults.loop)
  }

  /** The table only ever gains premium: rows, emails and roles stay, and a status changes only to premium. */
  ghost predicate UpgradeOnly(before: map<string, Profile>, after: map<string, Profile>) {
    && after.Keys == before.Keys
    && EmailsUnique(before) == EmailsUnique(after)
    && forall k :: k in before ==>
         && after[k].email == before[k].email
         && after[k].role == before[k].role
         && (after[k].subscriptionStatus == before[k].subscriptionStatus || after[k].subscriptionStatus == PREMIUM)
  }

  lemma PremiumWriteUpgrades(rows: map<string, Profile>, w: Write)
    requires w == NoWrite || w.e.status == PREMIUM
    ensures UpgradeOnly(rows, Apply(rows, w))
  {
    ApplyKeepsIdentity(rows, w);
    var r := Apply(rows, w);
    assert EmailsUnique(r) ==> EmailsUnique(rows) by {
      if EmailsUnique(r) {
        forall j, k | j in rows && k in rows && rows[j].email == rows[k].email
          ensures j == k
        {
          assert r[j].email == r[k].email;
        }
      }
    }
  }

  lemma UpgradeOnlyTrans(a: map<string, Profile>, b: map<string, Profile>, c: map<string, Profile>)
    requires UpgradeOnly(a, b) && UpgradeOnly(b, c)
    ensures UpgradeOnly(a, c)
  {
  }

  lemma {:induction false} SubsEffectUpgrades(rows: map<string, Profile>, subs: seq<StripeSubscription>, c: nat,
                                              email: string, failing: set<(nat, nat)>)
    ensures UpgradeOnly(rows, SubsEffect(rows, subs, c, email, failing))
  {
    if subs == [] {
      UpgradeOnlySame(rows);
    } else {
      var n := |subs| - 1;
      SubsEffectUpgrades(rows, subs[..n], c, email, failing);
      var before := SubsEffect(rows, subs[..n], c, email, failing);
      PremiumWriteUpgrades(before, LiveWrite(subs[n], subs[n].userId, email));
      UpgradeOnlySame(before);
      UpgradeOnlyTrans(rows, before, SubsEffect(rows, subs, c, email, failing));
    }
  }

  lemma {:induction false} CustomersRunUpgrades(rows: map<string, Profile>, customers: seq<Customer>, email: string,
                                                failing: set<(nat, nat)>)
    ensures UpgradeOnly(rows, CustomersRun(rows, customers, email, failing).rows)
  {
    if customers == [] {
      UpgradeOnlySame(rows);
    } else {
      var n := |customers| - 1;
      CustomersRunUpgrades(rows, customers[..n], email, failing);
      var before := CustomersRun(rows, customers[..n], email, failing);
      if before.code == 0 && customers[n].subscriptions.Some? {
        SubsEffectUpgrades(before.rows, customers[n].subscriptions.value, n, email, failing);
        UpgradeOnlyTrans(rows, before.rows, SubsEffect(before.rows, customers[n].subscriptions.value, n, email, failing));
      }
    }
  }

  /** The script never writes free and never removes premium: every status it changes becomes premium. */
  lemma SyncNeverDowngrades(rows: map<string, Profile>, arg: Option<string>, env: map<string, string>,
                            p: Provider, faults: DbFaults)
    ensures UpgradeOnly(rows, SyncRun(rows, arg, env, p, faults).rows)
  {
    var email := NormalizeArg(arg);
    UpgradeOnlySame(rows);
    if p.customers.Some? {
      if p.customers.value == [] {
        FallbackUpgrades(rows, email, p.sessions, p.subs, faults.fallback);
      } else {
        CustomersRunUpgrades(rows, p.customers.value, email, faults.loop);
      }
    }
  }

  lemma UpgradeOnlySame(rows: map<string, Profile>)
    ensures UpgradeOnly(rows, rows)
  {
  }

  /** The fallback only upgrades. */
  lemma FallbackUpgrades(rows: map<string, Profile>, email: string, sessions: Option<seq<CheckoutSession>>,
                         subs: map<string, StripeSubscription>, dbFails: bool)
    ensures UpgradeOnly(rows, Fallback(rows, email, sessions, subs, dbFails).rows)
  {
    UpgradeOnlySame(rows);
    if sessions.Some? {
      match FindPaid(sessions.value, email)
      case None =>
      case Some(i) =>
        var s := sessions.value[i];
        if Truthy(s.subscription) && s.subscription.value in subs {
          PremiumWriteUpgrades(rows, LiveWrite(subs[s.subscription.value], s.clientReferenceId, email));
        }
    }
  }

  /**
   * A blank argument exits 1 with nothing written; so does a missing key, and so does a
   * `customers.list` that throws.
   */
  lemma SyncGuards(rows: map<string, Profile>, arg: Option<string>, env: map<string, string>, p: Provider, faults: DbFaults)
    ensures NormalizeArg(arg) == "" ==> SyncRun(rows, arg, env, p, faults) == SyncResult(1, rows)
    ensures !Truthy(EnvValue(env, "STRIPE_SECRET_KEY")) ==> SyncRun(rows, arg, env, p, faults) == SyncResult(1, rows)
    ensures p.customers.None? ==> SyncRun(rows, arg, env, p, faults) == SyncResult(1, rows)
  {
  }

  /**
   * The fallback uses the FIRST paid session for the email: with none it exits 0 without a write;
   * otherwise a live subscription is written to `client_reference_id`'s row, or to the email's rows
   * without one, and a failing update exits 1 with nothing written. A `checkout.sessions.list`
   * that throws exits 1 with nothing written.
   */
  lemma FallbackChoice(rows: map<string, Profile>, email: string, sessions: seq<CheckoutSession>,
                       subs: map<string, StripeSubscription>, dbFails: bool)
    ensures Fallback(rows, email, None, subs, dbFails) == SyncResult(1, rows)
    ensures FindPaid(sessions, email).None? ==> Fallback(rows, email, Some(sessions), subs, dbFails) == SyncResult(0, rows)
    ensures forall i :: 0 <= i < |sessions| && PaidMatch(sessions[i], email)
                        && (forall j :: 0 <= j < i ==> !PaidMatch(sessions[j], email))
                        && Truthy(sessions[i].subscription) && sessions[i].subscription.value in subs
                        && IsLive(subs[sessions[i].subscription.value].status) ==>
              Fallback(rows, email, Some(sessions), subs, dbFails) ==
              if dbFails then SyncResult(1, rows)
              else SyncResult(0, Apply(rows, LiveWrite(subs[sessions[i].subscription.value], sessions[i].clientReferenceId, email)))
  {
    var r := FindPaid(sessions, email);
    forall i | 0 <= i < |sessions| && PaidMatch(sessions[i], email)
               && (forall j :: 0 <= j < i ==> !PaidMatch(sessions[j], email))
      ensures r == Some(i)
    {
    }
  }

  /** In the customer loop a failing update is only logged: the script still exits 0, and the other updates still apply. */
  lemma {:induction false} LoopFailureContinues(rows: map<string, Profile>, subs: seq<StripeSubscription>, c: nat,
                                                email: string, failing: set<(nat, nat)>)
    requires subs != [] && (c, |subs| - 1) in failing
    ensures SubsEffect(rows, subs, c, email, failing) == SubsEffect(rows, subs[..|subs| - 1], c, email, failing)
  {
  }

  /** The customer loop exits 0 exactly when every `subscriptions.list` answers, and 1 otherwise. */
  lemma {:induction false} CustomersRunCode(rows: map<string, Profile>, customers: seq<Customer>, email: string,
                                            failing: set<(nat, nat)>)
    ensures CustomersRun(rows, customers, email, failing).code == 0 || CustomersRun(rows, customers, email, failing).code == 1
    ensures CustomersRun(rows, customers, email, failing).code == 0 <==>
              forall j :: 0 <= j < |customers| ==> customers[j].subscriptions.Some?
  {
    if customers != [] {
      var n := |customers| - 1;
      CustomersRunCode(rows, customers[..n], email, failing);
      assert forall j :: 0 <= j < n ==> customers[..n][j] == customers[j];
    }
  }

  /** Once the loop has failed, the customers after it change nothing. */
  lemma {:induction false} FailureSticks(rows: map<string, Profile>, customers: seq<Customer>, k: nat, email: string,
                                         failing: set<(nat, nat)>)
    requires k <= |customers| && CustomersRun(rows, customers[..k], email, failing).code != 0
    ensures CustomersRun(rows, customers, email, failing) == CustomersRun(rows, customers[..k], email, failing)
  {
    if k == |customers| {
      assert customers[..k] == customers;
    } else {
      var n := |customers| - 1;
      assert customers[..n][..k] == customers[..k];
      FailureSticks(rows, customers[..n], k, email, failing);
    }
  }

  /**
   * When the `subscriptions.list` of customer `k` is the first to throw, the script exits 1
   * and the table keeps exactly the updates made for customers `0 .. k - 1`.
   */
  lemma ListFailureKeepsEarlierWrites(rows: map<string, Profile>, customers: seq<Customer>, k: nat, email: string,
                                      failing: set<(nat, nat)>)
    requires k < |customers| && customers[k].subscriptions.None?
    requires forall j :: 0 <= j < k ==> customers[j].subscriptions.Some?
    ensures CustomersRun(rows, customers, email, failing) == SyncResult(1, CustomersRun(rows, customers[..k], email, failing).rows)
  {
    CustomersStep(rows, customers, k, email, failing);
    assert forall j :: 0 <= j < k ==> customers[..k][j] == customers[j];
    CustomersRunCode(rows, customers[..k], email, failing);
    FailureSticks(rows, customers, k + 1, email, failing);
  }

  /** One more customer of the outer loop. */
  lemma CustomersStep(rows: map<string, Profile>, customers: seq<Customer>, i: nat, email: string,
                      failing: set<(nat, nat)>)
    requires i < |customers|
    ensures var before := CustomersRun(rows, customers[..i], email, failing);
            CustomersRun(rows, customers[..i + 1], email, failing) ==
              if before.code != 0 then before
              else if customers[i].subscriptions.None? then SyncResult(1, before.rows)
              else SyncResult(0, SubsEffect(before.rows, customers[i].subscriptions.value, i, email, failing))
  {
    assert customers[..i + 1][..i] == customers[..i];
  }

  /** The script from its first line: the loader, then `Sync` on the environment it leaves. */
  method Script(table: ProfileTable, arg: Option<string>, processEnv: map<string, string>, file: Option<string>,
                p: Provider, faults: DbFaults)
    returns (code: int)
    modifies table
    ensures code == SyncRun(old(table.rows), arg, Loaded(processEnv, file), p, faults).code
    ensures table.rows == SyncRun(old(table.rows), arg, Loaded(processEnv, file), p, faults).rows
    ensures UpgradeOnly(old(table.rows), table.rows)
    ensures old(table.Valid()) ==> table.Valid()
  {
    SyncNeverDowngrades(table.rows, arg, Loaded(processEnv, file), p, faults);
    var env := LoadEnv(processEnv, file);
    code := Sync(table, arg, env, p, faults);
  }

  /**
   * `main()` and its `catch`: a throwing `customers.list`, `checkout.sessions.list`,
   * `subscriptions.list` or `subscriptions.retrieve` ends the script with exit code 1.
   */
  method Sync(table: ProfileTable, arg: Option<string>, env: map<string, string>, p: Provider, faults: DbFaults)
    returns (code: int)
    modifies table
    ensures code == SyncRun(old(table.rows), arg, env, p, faults).code
    ensures table.rows == SyncRun(old(table.rows), arg, env, p, faults).rows
    ensures old(table.Valid()) ==> table.Valid()
  {
    SyncNeverDowngrades(table.rows, arg, env, p, faults);
    var email := NormalizeArg(arg);
    if email == "" {
      return 1;
    }
    if !Truthy(EnvValue(env, "STRIPE_SECRET_KEY")) {
      return 1;
    }
    var supabaseUrl := EnvValue(env, "NEXT_PUBLIC_SUPABASE_URL");
    var supabaseKey := if Truthy(EnvValue(env, "SUPABASE_SERVICE_ROLE_KEY")) then EnvValue(env, "SUPABASE_SERVICE_ROLE_KEY")
                       else EnvValue(env, "NEXT_PUBLIC_SUPABASE_ANON_KEY");
    if !Truthy(supabaseUrl) || !Truthy(supabaseKey) {
      return 1;
    }
    if p.customers.None? {
      return 1;
    }
    if p.customers.value == [] {
      code := SyncFallback(table, email, p.sessions, p.subs, faults.fallback);
      return;
    }
    code := SyncCustomers(table, p.customers.value, email, faults.loop);
  }

  method SyncFallback(table: ProfileTable, email: string, sessions: Option<seq<CheckoutSession>>,
                      subs: map<string, StripeSubscription>, dbFails: bool) returns (code: int)
    modifies table
    ensures code == Fallback(old(table.rows), email, sessions, subs, dbFails).code
    ensures table.rows == Fallback(old(table.rows), email, sessions, subs, dbFails).rows
  {
    if sessions.None? {
      return 1;
    }
    var found := FindPaid(sessions.value, email);
    if found.None? {
      return 0;
    }
    var session := sessions.value[found.value];
    var userId := session.clientReferenceId;
    var subId := session.subscription;
    if !Truthy(subId) {
      return 0;
    }
    if subId.value !in subs {
      return 1;
    }
    var sub := subs[subId.value];
    if sub.status == "active" || sub.status == "trialing" {
      if dbFails {
        return 1;
      }
      if Truthy(userId) {
        table.UpdateEntitlementById(userId.value, PremiumFor(sub.period));
      } else {
        table.UpdateEntitlementByEmail(email, PremiumFor(sub.period));
      }
    }
    return 0;
  }

  /** The `for (const customer of customers.data)` loop. */
  method SyncCustomers(table: ProfileTable, customers: seq<Customer>, email: string, failing: set<(nat, nat)>)
    returns (code: int)
    modifies table
    ensures code == CustomersRun(old(table.rows), customers, email, failing).code
    ensures table.rows == CustomersRun(old(table.rows), customers, email, failing).rows
  {
    var i := 0;
    while i < |customers|
      invariant 0 <= i <= |customers|
      invariant CustomersRun(old(table.rows), customers[..i], email, failing) == SyncResult(0, table.rows)
    {
      CustomersStep(old(table.rows), customers, i, email, failing);
      var subs := customers[i].subscriptions;
      if subs.None? {
        FailureSticks(old(table.rows), customers, i + 1, email, failing);
        return 1;
      }
      if subs.value != [] {
        SyncSubs(table, subs.value, i, email, failing);
      }
      i := i + 1;
    }
    assert customers[..|customers|] == customers;
    return 0;
  }

  /** The `for (const sub of subs.data)` loop of customer `c`: a failing update is logged and skipped. */
  method SyncSubs(table: ProfileTable, subs: seq<StripeSubscription>, c: nat, email: string, failing: set<(nat, nat)>)
    modifies table
    ensures table.rows == SubsEffect(old(table.rows), subs, c, email, failing)
  {
    var j := 0;
    while j < |subs|
      invariant 0 <= j <= |subs|
      invariant table.rows == SubsEffect(old(table.rows), subs[..j], c, email, failing)
    {
      assert subs[..j + 1][..j] == subs[..j];
      var sub := subs[j];
      if sub.status == "active" || sub.status == "trialing" {
        var userId := sub.userId;
        if (c, j) in failing {
          // the update's error is logged and the loop goes on
        } else if Truthy(userId) {
          table.UpdateEntitlementById(userId.value, PremiumFor(sub.period));
        } else {
          table.UpdateEntitlementByEmail(email, PremiumFor(sub.period));
        }
      }
      j := j + 1;
    }
    assert subs[..|subs|] == subs;
  }
}
