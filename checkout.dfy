/**
 * Checkout initiation (src/app/api/stripe/checkout/route.ts): reading price ids from
 * `.env.local`, normalising the requested plan, resolving its price with the precedence
 * environment, then file, then built-in default, and the request made to the provider.
 */
module Checkout {
  import opened Wrappers
  import opened Strings

  const DEFAULT_STRIPE_MONTHLY_PRICE_ID := "price_1T2DgMRzy0O9kRFUAFVeV2WY"
  const DEFAULT_STRIPE_ANNUAL_PRICE_ID := "price_1T2DgNRzy0O9kRFUPGUpBchN"

  const MONTHLY_KEY := "STRIPE_MONTHLY_PRICE_ID"
  const ANNUAL_KEY := "STRIPE_ANNUAL_PRICE_ID"
  const FAMILY_KEY := "STRIPE_ADDON_FAMILY_PRICE_ID"
  const API_KEY := "STRIPE_ADDON_API_PRICE_ID"
  const CITIES_KEY := "STRIPE_ADDON_CITIES_PRICE_ID"

  /** The price ids found in the file; a field is set only by a line with a non-empty value. */
  datatype PriceIds = PriceIds(
    monthly: Option<string>,
    annual: Option<string>,
    addonFamily: Option<string>,
    addonApi: Option<string>,
    addonCities: Option<string>)

  const NO_PRICE_IDS := PriceIds(None, None, None, None, None)

  /** `content.replace(/^﻿/, "")`. */
  function StripBom(s: string): string {
    if s != [] && s[0] == '\U{FEFF}' then s[1..] else s
  }

  /** `content.split(/\r?\n/)`: split on line feeds, each separator taking one carriage return before it. */
  function SplitCrLf(content: string): (lines: seq<string>)
    ensures |lines| == |Split(content, '\n')|
  {
    var parts := Split(content, '\n');
    seq(|parts|, i requires 0 <= i < |parts| =>
      if i < |parts| - 1 && parts[i] != [] && parts[i][|parts[i]| - 1] == '\r' then parts[i][..|parts[i]| - 1] else parts[i])
  }

  /** One line of the file: its key and value, or `None` for a blank line, a `#` comment, or no `=` after the first character. */
  function ParsePriceLine(raw: string): (r: Option<(string, string)>)
    ensures Trim(raw) == [] || StartsWith(Trim(raw), "#") ==> r.None?
    ensures IndexOf(Trim(raw), '=') == None || IndexOf(Trim(raw), '=') == Some(0) ==> r.None?
    ensures r.Some? ==> NoSpaceAtEnds(r.value.0)
  {
    var line := Trim(raw);
    if line == [] || StartsWith(line, "#") then None
    else match IndexOf(line, '=')
      case None => None
      case Some(eq) =>
        if eq == 0 then None
        else Some((Trim(line[..eq]), StripQuotes(Trim(line[eq + 1..]))))
  }

  /** The five `if (key === ... && value) out.x = value` statements. */
  function Record(out: PriceIds, key: string, value: string): PriceIds {
    if value == "" then out
    else if key == MONTHLY_KEY then out.(monthly := Some(value))
    else if key == ANNUAL_KEY then out.(annual := Some(value))
    else if key == FAMILY_KEY then out.(addonFamily := Some(value))
    else if key == API_KEY then out.(addonApi := Some(value))
    else if key == CITIES_KEY then out.(addonCities := Some(value))
    else out
  }

  function Step(out: PriceIds, raw: string): PriceIds {
    match ParsePriceLine(raw)
    case None => out
    case Some((key, value)) => Record(out, key, value)
  }

  /** The loop over the lines, as a left fold. */
  function ScanPriceLines(out: PriceIds, lines: seq<string>): PriceIds {
    if lines == [] then out else Step(ScanPriceLines(out, lines[..|lines| - 1]), lines[|lines| - 1])
  }

  /** What `getStripePriceIds` returns for the file's content (`None`: no file, or reading threw). */
  function PriceIdsOf(file: Option<string>): PriceIds {
    if file.None? then NO_PRICE_IDS else ScanPriceLines(NO_PRICE_IDS, SplitCrLf(StripBom(file.value)))
  }

  /** Reference definition: the value of the LAST line that gives `key` a non-empty value. */
  function LastValue(lines: seq<string>, key: string): (r: Option<string>)
    ensures r.Some? ==> r.value != ""
  {
    if lines == [] then None
    else
      var p := ParsePriceLine(lines[|lines| - 1]);
      if p.Some? && p.value.0 == key && p.value.1 != "" then Some(p.value.1)
      else LastValue(lines[..|lines| - 1], key)
  }

  function LastValues(lines: seq<string>): PriceIds {
    PriceIds(LastValue(lines, MONTHLY_KEY), LastValue(lines, ANNUAL_KEY), LastValue(lines, FAMILY_KEY),
             LastValue(lines, API_KEY), LastValue(lines, CITIES_KEY))
  }

  /** Each price id read from the file is the value of the last line for its key with a non-empty value: later lines override earlier ones and empty values are ignored. */
  lemma {:induction false} ScanIsLastWins(lines: seq<string>)
    ensures ScanPriceLines(NO_PRICE_IDS, lines) == LastValues(lines)
  {
    if lines != [] {
      ScanIsLastWins(lines[..|lines| - 1]);
    }
  }

  /** A missing file gives `{}`; every id read from a file is non-empty. */
  lemma PriceIdsShape(file: Option<string>)
    ensures file.None? ==> PriceIdsOf(file) == NO_PRICE_IDS
    ensures var ids := PriceIdsOf(file);
            && (ids.monthly.Some? ==> ids.monthly.value != "")
            && (ids.annual.Some? ==> ids.annual.value != "")
            && (ids.addonFamily.Some? ==> ids.addonFamily.value != "")
            && (ids.addonApi.Some? ==> ids.addonApi.value != "")
            && (ids.addonCities.Some? ==> ids.addonCities.value != "")
  {
    if file.Some? {
      ScanIsLastWins(SplitCrLf(StripBom(file.value)));
    }
  }

  /** The body of `getStripePriceIds`'s loop: one line read into `out`. */
  method ReadPriceLine(out: PriceIds, raw: string) returns (next: PriceIds)
    ensures next == Step(out, raw)
  {
    next := out;
    var line := Trim(raw);
    if line == [] || StartsWith(line, "#") {
      return;
    }
    var eq := IndexOf(line, '=');
    if eq.None? || eq.value == 0 {
      return;
    }
    var key := Trim(line[..eq.value]);
    var value := StripQuotes(Trim(line[eq.value + 1..]));
    assert ParsePriceLine(raw) == Some((key, value));
    if key == MONTHLY_KEY && value != "" { next := next.(monthly := Some(value)); }
    if key == ANNUAL_KEY && value != "" { next := next.(annual := Some(value)); }
    if key == FAMILY_KEY && value != "" { next := next.(addonFamily := Some(value)); }
    if key == API_KEY && value != "" { next := next.(addonApi := Some(value)); }
    if key == CITIES_KEY && value != "" { next := next.(addonCities := Some(value)); }
  }

  lemma ScanStep(lines: seq<string>, i: nat)
    requires i < |lines|
    ensures ScanPriceLines(NO_PRICE_IDS, lines[..i + 1]) == Step(ScanPriceLines(NO_PRICE_IDS, lines[..i]), lines[i])
  {
    assert lines[..i + 1][..i] == lines[..i];
  }

  /** The loop of `getStripePriceIds` over the file's lines, filling `out`. */
  method ReadPriceLines(lines: seq<string>) returns (out: PriceIds)
    ensures out == ScanPriceLines(NO_PRICE_IDS, lines)
  {
    out := NO_PRICE_IDS;
    var i := 0;
    while i < |lines|
      invariant 0 <= i <= |lines|
      invariant out == ScanPriceLines(NO_PRICE_IDS, lines[..i])
    {
      ScanStep(lines, i);
      out := ReadPriceLine(out, lines[i]);
      i := i + 1;
    }
    assert lines[..|lines|] == lines;
  }

  /** `getStripePriceIds`: `{}` without a file, else its BOM dropped, split into lines and scanned. */
  method GetStripePriceIds(file: Option<string>) returns (out: PriceIds)
    ensures out == PriceIdsOf(file)
  {
    if file.None? {
      return NO_PRICE_IDS;
    }
    var lines := SplitCrLf(StripBom(file.value));
    out := ReadPriceLines(lines);
  }

  /** The plans the pricing page offers. */
  datatype Plan = Monthly | Annual | Family | Api | Cities {
    predicate IsAddon() { this == Family || this == Api || this == Cities }

    /** `planType`, as recorded in the subscription's metadata. */
    function Name(): string {
      match this
      case Monthly => "monthly"
      case Annual => "annual"
      case Family => "family"
      case Api => "api"
      case Cities => "cities"
    }
  }

  /** `planType`: `annual`, `monthly` and the add-ons map to themselves; anything else, a missing plan included, to monthly. */
  function NormalizePlan(plan: Option<string>): (p: Plan)
    ensures p.IsAddon() || p == Annual ==> plan == Some(p.Name())
    ensures plan.Some? && plan.value in {"annual", "family", "api", "cities"} ==> p.Name() == plan.value
    ensures plan.None? || plan.value !in {"annual", "family", "api", "cities"} ==> p == Monthly
  {
    if plan == Some("annual") then Annual
    else if plan == Some("monthly") then Monthly
    else if plan == Some("family") then Family
    else if plan == Some("api") then Api
    else if plan == Some("cities") then Cities
    else Monthly
  }

  /** The environment variable that overrides an add-on's price. */
  function AddonEnvKey(p: Plan): string
    requires p.IsAddon()
  {
    if p == Family then FAMILY_KEY else if p == Api then API_KEY else CITIES_KEY
  }

  function AddonFromFile(p: Plan, ids: PriceIds): Option<string>
    requires p.IsAddon()
  {
    if p == Family then ids.addonFamily else if p == Api then ids.addonApi else ids.addonCities
  }

  /** `(process.env[key] ?? "").trim()`. */
  function EnvTrimmed(env: map<string, string>, key: string): string {
    Trim(if key in env then env[key] else "")
  }

  datatype PriceResolution = Price(id: string) | AddonNotConfigured(envKey: string)

  /** An add-on's price: the trimmed environment value if non-empty, else the file's, else not configured. */
  function ResolveAddon(p: Plan, env: map<string, string>, ids: PriceIds): (r: PriceResolution)
    requires p.IsAddon()
    ensures r.Price? ==> r.id != ""
    ensures EnvTrimmed(env, AddonEnvKey(p)) != "" ==> r == Price(EnvTrimmed(env, AddonEnvKey(p)))
    ensures EnvTrimmed(env, AddonEnvKey(p)) == "" ==>
              r == if Truthy(AddonFromFile(p, ids)) then Price(AddonFromFile(p, ids).value) else AddonNotConfigured(AddonEnvKey(p))
  {
    var key := AddonEnvKey(p);
    var fromEnv := EnvTrimmed(env, key);
    if fromEnv != "" then Price(fromEnv)
    else if Truthy(AddonFromFile(p, ids)) then Price(AddonFromFile(p, ids).value)
    else AddonNotConfigured(key)
  }

  /** A base plan's price: the trimmed environment value if non-empty, else the file's, else the built-in default. */
  function ResolveBase(envKey: string, fromFile: Option<string>, fallback: string, env: map<string, string>): (id: string)
    requires fallback != ""
    ensures id != ""
    ensures id == if EnvTrimmed(env, envKey) != "" then EnvTrimmed(env, envKey)
                  else if Truthy(fromFile) then fromFile.value else fallback
  {
    var fromEnv := EnvTrimmed(env, envKey);
    if fromEnv != "" then fromEnv else if Truthy(fromFile) then fromFile.value else fallback
  }

  /** The price id for a plan: the trimmed environment value if non-empty, else the file's, else (base plans only) the built-in default. */
  function ResolvePrice(p: Plan, env: map<string, string>, ids: PriceIds): (r: PriceResolution)
    ensures r.Price? ==> r.id != ""
    ensures p.IsAddon() ==> r == ResolveAddon(p, env, ids)
    ensures p == Annual ==> r == Price(ResolveBase(ANNUAL_KEY, ids.annual, DEFAULT_STRIPE_ANNUAL_PRICE_ID, env))
    ensures p == Monthly ==> r == Price(ResolveBase(MONTHLY_KEY, ids.monthly, DEFAULT_STRIPE_MONTHLY_PRICE_ID, env))
  {
    if p.IsAddon() then ResolveAddon(p, env, ids)
    else if p == Annual then Price(ResolveBase(ANNUAL_KEY, ids.annual, DEFAULT_STRIPE_ANNUAL_PRICE_ID, env))
    else Price(ResolveBase(MONTHLY_KEY, ids.monthly, DEFAULT_STRIPE_MONTHLY_PRICE_ID, env))
  }

  /** The signed-in user: possibly missing email and id. */
  datatype CheckoutCaller = CheckoutCaller(email: Option<string>, id: Option<string>)

  /** The checkout session `POST` asks the provider to create. */
  datatype SessionRequest = SessionRequest(
    price: string,
    customerEmail: string,
    clientReferenceId: Option<string>,
    metadataUserId: Option<string>,
    planType: string,
    successUrl: string,
    cancelUrl: string)

  datatype CheckoutReply =
    | Unauthorized401
    | StripeNotConfigured503
    | AddonNotConfigured503(envKey: string)
    | SessionCreated(request: SessionRequest)   // `{ url }` of the created session
    | CreationFailed500

  /** `${process.env.X}` in a template: the text `undefined` when unset. */
  function EnvText(env: map<string, string>, key: string): string {
    if key in env then env[key] else "undefined"
  }

  /**
   * `POST`: the request that would be made, and its reply. `file` is `.env.local`'s
   * content (`None` when missing or unreadable); `createSucceeds` is whether the
   * provider's create call returns rather than throws.
   */
  function CheckoutPost(caller: Option<CheckoutCaller>, env: map<string, string>, plan: Option<string>,
                        file: Option<string>, createSucceeds: bool): (r: CheckoutReply)
    ensures caller.None? || !Truthy(caller.value.email) ==> r == Unauthorized401
    ensures caller.Some? && Truthy(caller.value.email) && !Truthy(if "STRIPE_SECRET_KEY" in env then Some(env["STRIPE_SECRET_KEY"]) else None)
            ==> r == StripeNotConfigured503
    ensures r.SessionCreated? ==>
              && r.request.clientReferenceId == caller.value.id
              && r.request.metadataUserId == caller.value.id
              && r.request.planType == NormalizePlan(plan).Name()
              && r.request.customerEmail == caller.value.email.value
              && ResolvePrice(NormalizePlan(plan), env, PriceIdsOf(file)) == Price(r.request.price)
    ensures r.AddonNotConfigured503? ==> NormalizePlan(plan).IsAddon() && r.envKey == AddonEnvKey(NormalizePlan(plan))
    ensures caller.Some? && Truthy(caller.value.email) && "STRIPE_SECRET_KEY" in env && env["STRIPE_SECRET_KEY"] != "" ==>
              var res := ResolvePrice(NormalizePlan(plan), env, PriceIdsOf(file));
              && (res.AddonNotConfigured? ==> r == AddonNotConfigured503(res.envKey))
              && (res.Price? ==> (r.SessionCreated? <==> createSucceeds) && (!createSucceeds ==> r == CreationFailed500))
  {
    if caller.None? || !Truthy(caller.value.email) then Unauthorized401
    else if !Truthy(if "STRIPE_SECRET_KEY" in env then Some(env["STRIPE_SECRET_KEY"]) else None) then StripeNotConfigured503
    else
      var p := NormalizePlan(plan);
      match ResolvePrice(p, env, PriceIdsOf(file))
      case AddonNotConfigured(key) => AddonNotConfigured503(key)
      case Price(id) =>
        if !createSucceeds then CreationFailed500
        else
          var base := EnvText(env, "NEXTAUTH_URL");
          SessionCreated(SessionRequest(id, caller.value.email.value, caller.value.id, caller.value.id, p.Name(),
                                        base + "/dashboard?success=true&session_id={CHECKOUT_SESSION_ID}",
                                        base + "/pricing"))
  }

  /** A base plan always gets a price, so with a caller and a secret key it never answers 503. */
  lemma BasePlanNeverUnconfigured(caller: CheckoutCaller, env: map<string, string>, plan: Option<string>,
                                  file: Option<string>)
    requires Truthy(caller.email) && "STRIPE_SECRET_KEY" in env && env["STRIPE_SECRET_KEY"] != ""
    requires !NormalizePlan(plan).IsAddon()
    ensures CheckoutPost(Some(caller), env, plan, file, true).SessionCreated?
  {
  }
}
