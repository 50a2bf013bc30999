# Weather dashboard core, modelled in Dafny

The repository is a Next.js web application: a weather and currency dashboard with
free and premium tiers. Sign-in goes through NextAuth, user profiles live in a Supabase
table `user_profiles`, and premium is sold through Stripe. Node scripts maintain the
`.env.local` file and repair entitlements.

This project models the parts of that application that decide things:

- **Entitlement.** Who is premium (`isPremium`). How each write path changes a profile's
  `subscription_status`, `subscription_start` and `subscription_end`:
  - the Stripe webhook;
  - the post-checkout verify route;
  - the `sync-stripe-subscription` repair script.
- **Accounts.**
  - The NextAuth callbacks: credential check, provisioning and promotion of admins on
    sign-in, enrichment of the session from the profile row, the JWT.
  - Registration, by the API route and by the server action.
  - The admin's paginated user list.
- **Checkout.** Plan normalisation and price-id resolution (environment, then
  `.env.local`, then built-in default), and the session the route asks Stripe to create.
- **Configuration.**
  - The `.env` parser shared by the scripts, and the `ensure-env` merge and rewrite.
  - The `setup-stripe` rewrite of the price-id lines.
  - The OAuth callback URL.
- **Weather and currency.**
  - The weather route: WeatherAPI JSON reshaped into OpenWeather-style records; the
    hourly window of at most 24 upcoming hours; alerts with their fallbacks.
  - The weather card: icon URLs, the one-item-per-day forecast with its 5/7-day cap,
    the blank-city guard.
  - The currency converter, which goes through BYN.

One Dafny module models one source file. Shared modules:

- `Wrappers`: `Option`.
- `Strings`: the JavaScript string operations the code uses.
- `Profiles`: the profile table. `ProfileTable` is a class whose `rows` map the
  database methods update in place.
- `StripeObjects`: the Stripe objects.
- `EnvFile`: the `.env` parser.
- `WeatherTypes`: the OpenWeather-shaped records.

Handlers that change the table are methods with `modifies`. Each is proved equal to a
pure function of the old table, and lemmas about those functions state what the source
promises: idempotence, which rows can change, never downgrading. Loops are methods with
invariants, proved equal to a fold. The external world is passed in as values:

- the Stripe answers;
- the result of `signUp`;
- the HTTP answer of WeatherAPI;
- the clock (`nowEpoch`);
- the process environment;
- the files' contents.

## Model

| member | source | states |
|---|---|---|
| Subscription.IsPremiumCases | src/lib/subscription.ts:27-39 | A bare status is premium iff it is `"premium"`; an admin profile is always premium; any other profile is premium iff its status is `"premium"`; a missing argument is not premium |
| Subscription.StatusesLabelled | src/lib/subscription.ts:42-45 | The status list is exactly `free`, `premium`, and every status has a display label (lines 9-12) |
| Profiles.ProfilePremiumIff | src/lib/subscription.ts:36-38 | A stored profile is premium iff it is an admin or its status is premium; the end date and the block flag play no part |
| Profiles.WithEntitlement | src/app/api/stripe/webhook/route.ts:35-42 | An entitlement update sets the three subscription columns and leaves email, role and block flag alone |
| Profiles.SetEntitlement | src/app/api/stripe/webhook/route.ts:35-42 | `.update(...).eq("id", id)` changes only the row with that id, and no row when there is none; the set of rows is unchanged |
| Profiles.SetEntitlementByEmail | scripts/sync-stripe-subscription.js:112 | `.update(...).eq("email", email)` changes exactly the rows holding that email |
| Profiles.ApplyIdempotent | src/app/api/stripe/webhook/route.ts:35-42 | Every entitlement write overwrites with fixed values, so applying it twice equals applying it once |
| Profiles.ApplyKeepsIdentity | src/app/api/stripe/webhook/route.ts:35-42 | An entitlement write keeps every row, email and role, and so keeps the unique email constraint |
| Profiles.ProfileTable.SelectById | src/lib/auth.ts:62-66 | `.eq("id", id).single()` finds the row iff the id is present and returns it |
| Profiles.ProfileTable.SelectSingleByEmail | src/lib/auth.ts:40-44 | `.eq("email", e).single()` yields an id iff exactly one row holds the email, and that row holds it |
| Profiles.ProfileTable.Insert | src/lib/auth.ts:46-50 | Insert fails with `23505` and changes nothing iff the id or the email is taken; otherwise it adds one row with the column defaults; it keeps the unique constraint |
| Profiles.ProfileTable.UpdateRoleById | src/lib/auth.ts:52-55 | Sets the role of the row with that id, if any, and nothing else; it keeps the unique constraint |
| Profiles.ProfileTable.UpdateEntitlementById | src/app/api/stripe/webhook/route.ts:35-42 | The table afterwards is `Apply` of an id-keyed write; the unique constraint is kept |
| Profiles.ProfileTable.UpdateEntitlementByEmail | scripts/sync-stripe-subscription.js:110-112 | The table afterwards is `Apply` of an email-keyed write; the unique constraint is kept |
| Profiles.UniqueEmailAtMostOne | src/lib/auth.ts:40-44 | Under the unique constraint at most one row holds an email, so `.single()` finds it whenever it exists |
| StripeObjects.PremiumFor | src/app/api/stripe/webhook/route.ts:32-41 | A premium write stores status `premium` with the subscription's current period as start and end |
| Auth.NormalizeParts | src/lib/auth.ts:7-9 | The admin list has no empty entry and no more entries than comma-separated parts |
| Auth.NormalizePartsMembership | src/lib/auth.ts:7-9 | An address is in the normalised list iff it is non-empty and the trimmed, lower-cased form of some part |
| Auth.AdminEmailsMembership | src/lib/auth.ts:6-9 | An address is an admin address iff it is the normalised form of a non-blank comma-separated part of `ADMIN_EMAIL`, or of the default when the variable is unset or empty |
| Auth.DefaultAdminList | src/lib/auth.ts:6 | With `ADMIN_EMAIL` unset or empty, the admin list is exactly `["admin@example.com"]` |
| Auth.Authorize | src/lib/auth.ts:24-33 | A missing or empty email or password gives no user; otherwise the user is the provider's id with the provider's email or else the normalised one, and a user is returned iff the provider accepts the normalised email |
| Auth.ProvisionedRole | src/lib/auth.ts:39 | The role is `admin` iff the lower-cased email is on the list, else `user` |
| Auth.FirstSignInInsertsOne | src/lib/auth.ts:45-50 | A first sign-in adds exactly one row, keyed by the user id, with the provisioned role and the free default entitlement, and leaves the other rows alone |
| Auth.SignInNeverDemotes | src/lib/auth.ts:37-58 | Sign-in never removes a row, and changes an existing row only by promoting it to admin, which needs a listed email equal to the row's |
| Auth.ListedUserPromoted | src/lib/auth.ts:51-56 | A listed user's single existing row becomes admin and keeps everything else |
| Auth.NoSingleRowEffect | src/lib/auth.ts:45-50 | Without exactly one row for the email, sign-in inserts a row unless the id is missing or the id or email is already taken |
| Auth.ExistingRowEffect | src/lib/auth.ts:51-56 | With a single existing row, sign-in promotes it iff the email is listed and the row is not yet admin, and otherwise changes nothing |
| Auth.SignIn | src/lib/auth.ts:37-58 | The callback returns true iff the user has an email, and leaves the table as `SignInEffect` of the old table, keeping the unique constraint |
| Auth.Jwt | src/lib/auth.ts:74-77 | On sign-in `token.sub` becomes the user's id; without a user the token is unchanged |
| Auth.EnrichSession | src/lib/auth.ts:59-73 | A session without a user is returned unchanged. Otherwise `user.id` becomes `token.sub`. A blocked profile gives the session with error `Blocked` and other fields untouched. Else status, end and role come from the row, with defaults `free`, `null` and `user` |
| StripeWebhook.EventTypeSelectsBranch | src/app/api/stripe/webhook/route.ts:23-47 | For a well-formed event the type string picks the branch: each handled name belongs to exactly its constructor, and `OtherEvent` carries none of them |
| StripeWebhook.Decide | src/app/api/stripe/webhook/route.ts:8-77 | A missing signature or secret gives 400 with no write. Otherwise a missing `STRIPE_SECRET_KEY` makes `getStripe()` throw, giving 500 with no write. A bad signature gives 400 with no write; any write is an id-keyed update with reply `received`; other event types write nothing |
| StripeWebhook.SubscriptionChange | src/app/api/stripe/webhook/route.ts:47-74 | The shared updated/deleted branch always replies `received` |
| StripeWebhook.CheckoutCompletedWrite | src/app/api/stripe/webhook/route.ts:23-45 | A completed checkout credits `client_reference_id`, else the subscription id, with premium over the subscription's period; without a target or a subscription nothing is written |
| StripeWebhook.SubscriptionChangeWrite | src/app/api/stripe/webhook/route.ts:47-74 | An untagged subscription writes nothing. A tagged one writes premium with the period iff its status is `active`. Any other status, `trialing` included, writes free with no dates |
| StripeWebhook.WebhookTouchesOneRow | src/app/api/stripe/webhook/route.ts:8-77 | One delivery keeps the set of rows, and changes at most the row the event names |
| StripeWebhook.WebhookIdempotent | src/app/api/stripe/webhook/route.ts:8-77 | Handling the same event twice gives the same reply and the same table as handling it once |
| StripeWebhook.HandleWebhook | src/app/api/stripe/webhook/route.ts:8-77 | The handler's reply and new table are those of `Decide`/`WebhookEffect`; the unique constraint is kept |
| StripeWebhook.HandleSubscriptionChange | src/app/api/stripe/webhook/route.ts:47-74 | The branch's reply and new table are those of `SubscriptionChange` |
| StripeVerify.Decide | src/app/api/stripe/verify/route.ts:6-53 | No session user gives 401, and a missing or non-string `session_id` gives 400. With an id, a missing `STRIPE_SECRET_KEY` or an unknown session gives 500 with no write, and so does an unknown subscription on an owned, paid session. A write happens iff the reply is success. The write is premium for the caller's own id, with the period the reply echoes, and only for a session the caller owns |
| StripeVerify.GuardOrder | src/app/api/stripe/verify/route.ts:21-37 | Unpaid gives 400; paid but another account's gives 403; owned without a subscription gives 400; otherwise the subscription's period is returned |
| StripeVerify.CrossAccountRefused | src/app/api/stripe/verify/route.ts:25-28 | A paid session naming another account, or none, gives 403 and credits nobody |
| StripeVerify.VerifyTouchesOnlyCaller | src/app/api/stripe/verify/route.ts:39-46 | Only the caller's row can change. It changes only on success, to exactly the period the reply reports |
| StripeVerify.VerifyAndWebhookConverge | src/app/api/stripe/verify/route.ts:35-46 | A successful verify and the webhook for the same checkout make the same write, so either order of the two leaves the same table |
| StripeVerify.HandleVerify | src/app/api/stripe/verify/route.ts:6-53 | The handler's reply and new table are those of `Decide`/`VerifyEffect`; the unique constraint is kept |
| Checkout.SplitCrLf | src/app/api/stripe/checkout/route.ts:26 | Splitting on `\r?\n` gives as many lines as splitting on `\n` |
| Checkout.ParsePriceLine | src/app/api/stripe/checkout/route.ts:27-32 | Blank lines, `#` comments and lines with no `=` after the first character are skipped; a parsed key has no surrounding white space |
| Checkout.LastValue | src/app/api/stripe/checkout/route.ts:33-37 | The reference value for a key is never empty |
| Checkout.ScanIsLastWins | src/app/api/stripe/checkout/route.ts:26-38 | Each price id read is the value of the last line for its key with a non-empty value |
| Checkout.PriceIdsShape | src/app/api/stripe/checkout/route.ts:19-43 | A missing file gives `{}`; every id read from a file is non-empty |
| Checkout.ReadPriceLine | src/app/api/stripe/checkout/route.ts:27-37 | One iteration of the loop is one `Step` of the fold |
| Checkout.ReadPriceLines | src/app/api/stripe/checkout/route.ts:26-38 | The loop computes the left fold over the lines |
| Checkout.GetStripePriceIds | src/app/api/stripe/checkout/route.ts:19-43 | The function returns `PriceIdsOf(file)`: `{}` without a file, else the fold over the BOM-stripped lines |
| Checkout.NormalizePlan | src/app/api/stripe/checkout/route.ts:67-69 | `annual` and the three add-ons map to themselves; anything else, a missing plan included, maps to monthly |
| Checkout.ResolveAddon | src/app/api/stripe/checkout/route.ts:73-91 | An add-on takes the trimmed environment value if non-empty, else the file's id if non-empty, else it is not configured under its variable's name; a price found is never empty |
| Checkout.ResolveBase | src/app/api/stripe/checkout/route.ts:92-103 | A base plan takes the trimmed environment value if non-empty, else the file's id if non-empty, else the built-in default, so the id is never empty |
| Checkout.ResolvePrice | src/app/api/stripe/checkout/route.ts:71-103 | Add-ons resolve as `ResolveAddon`, and annual and monthly as `ResolveBase` with their own variable, file entry and default; any price is non-empty and a base plan always has one |
| Checkout.CheckoutPost | src/app/api/stripe/checkout/route.ts:51-135 | No email gives 401, and no secret key gives 503. For an authorised request with a key, an unconfigured add-on gives 503 naming its variable. Otherwise a session is created iff the provider's create call succeeds, and a failed create gives 500. A created session carries the resolved price, the caller's email and id, and the plan name |
| Checkout.BasePlanNeverUnconfigured | src/app/api/stripe/checkout/route.ts:92-110 | With a caller and a secret key, a base plan always creates a session |
| CallbackUrl.WithCallbackPath | src/app/api/auth/callback-url/route.ts:9 | The URL ends with the callback path and its stem is the base with one trailing slash removed, if there was one |
| CallbackUrl.OneSlashRemoved | src/app/api/auth/callback-url/route.ts:9 | Only one trailing slash goes: a base ending in `//` keeps one |
| CallbackUrl.Base | src/app/api/auth/callback-url/route.ts:4-8 | A non-empty `NEXTAUTH_URL` is the base; otherwise the base is rebuilt from `x-forwarded-proto` (default `http`) and `x-forwarded-host`, else `host`, else `localhost:3000` |
| CallbackUrl.CallbackUrlGet | src/app/api/auth/callback-url/route.ts:3-11 | The answer always ends with the callback path |
| CallbackUrl.LocalDefault | src/app/api/auth/callback-url/route.ts:4-9 | With no configuration and no headers the callback is `http://localhost:3000/api/auth/callback/google` |
| EnvFile.ParseEnvLine | scripts/ensure-env.js:14-15 | A parsed key is an identifier |
| EnvFile.ParseEnvLineShape | scripts/ensure-env.js:14-15 | An entry comes from a line `key=rest` with no line terminator in `rest`, and its value is `rest` with quotes stripped, then trimmed |
| EnvFile.ParseEnvLineOf | scripts/ensure-env.js:14-15 | Every `key=value` line with an identifier key and no line terminator is an entry |
| EnvFile.CrLineIgnored | scripts/ensure-env.js:13-15 | A line that ends in a carriage return (from a CRLF file) is not an entry, because `.` never matches `\r` |
| EnvFile.Keys | scripts/ensure-env.js:21 | An object has one key per entry |
| EnvFile.Lookup | scripts/ensure-env.js:15 | A key is absent iff it is not among the keys |
| EnvFile.PutAppends | scripts/ensure-env.js:15 | Assigning a new key appends it at the end of the insertion order |
| EnvFile.PutKeepsDistinct | scripts/ensure-env.js:15 | Assignment keeps the keys distinct |
| EnvFile.ParseLinesLastWins | scripts/ensure-env.js:11-18 | The parsed object has one entry per key, holding the value of that key's last matching line |
| EnvFile.ParseEnvFile | scripts/ensure-env.js:11-18 | The `parseEnv` loop computes the fold `ParseEnv` |
| EnvFile.EntryLineRead | scripts/ensure-env.js:22 | A clean entry's `k=v` line parses back to the entry |
| EnvFile.ParseLinesOfEntries | scripts/ensure-env.js:11-18 | Lines that parse one by one to the entries of an object with distinct keys parse to that object |
| EnvFile.ParseSerialize | scripts/ensure-env.js:20-24 | Parsing a serialised object with clean entries gives the object back |
| EnvFile.SplitWrittenFile | scripts/ensure-env.js:42-43 | The written file `content + "\n"` parses like `content` |
| EnsureEnv.Merge | scripts/ensure-env.js:32-36 | The merge loop computes `MergeEntries` |
| EnsureEnv.MergeLookup | scripts/ensure-env.js:32-36 | After the merge a key holds the existing non-empty value if there is one, else the example's |
| EnsureEnv.MergeKeepsExampleOrder | scripts/ensure-env.js:32-36 | The example's keys come first, in the example's order |
| EnsureEnv.LookupLast | scripts/ensure-env.js:15 | In an object with distinct keys the last entry's key maps to its value, and the others as in the rest |
| EnsureEnv.WithNextAuthDefault | scripts/ensure-env.js:38-40 | `NEXTAUTH_URL` becomes the default when missing or empty, and nothing else changes; a non-default value leaves the object as it was |
| EnsureEnv.EnsureEnv | scripts/ensure-env.js:26-45 | A missing `.env.example` makes the read throw, so nothing is written or printed. Otherwise the script writes the serialised rebuilt object plus a newline, whose `NEXTAUTH_URL` is non-empty, and prints the callback URL derived from it |
| EnsureEnv.RebuiltContents | scripts/ensure-env.js:26-43 | Each key of the written object holds the merged value, and `NEXTAUTH_URL` is always set. When the result is serialisable, reading the written file back gives the object |
| SetupStripe.SecretKey | scripts/setup-stripe.js:27-28 | The file's non-empty key wins over the process's |
| SetupStripe.RewriteLines | scripts/setup-stripe.js:66-84 | The loop with its two flags and the appends computes the reference rewrite `Rewritten` |
| SetupStripe.RewriteStep | scripts/setup-stripe.js:70-81 | One more line extends the rewritten prefix by that line's rewrite, and a key counts as seen once a line of it has been read |
| SetupStripe.KeyLinesDiffer | scripts/setup-stripe.js:71-79 | No line starts with both key prefixes |
| SetupStripe.RewrittenKeys | scripts/setup-stripe.js:70-84 | Afterwards every price line holds the new id, a price line for each key exists, and every other line is kept in order |
| SetupStripe.WrittenContent | scripts/setup-stripe.js:85 | The written content ends in exactly one newline with no white space before it |
| SetupStripe.SetupStripe | scripts/setup-stripe.js:22-85 | No file, or no usable `sk_` key, exits with no write and no request to the provider. Past those exits the script asks for exactly two prices: 499 USD cents a month, then 4900 a year. The file is rewritten iff they were created, and then with `WrittenContent(Rewritten(...))` |
| SyncSubscription.LoadedValue | scripts/sync-stripe-subscription.js:13-19 | After loading, a key's value is its last line's value in the file (an empty value too), else the process's |
| SyncSubscription.LoadEnv | scripts/sync-stripe-subscription.js:13-19 | Without a file the environment is unchanged; otherwise it is the fold over the file's lines (`Loaded`) |
| SyncSubscription.LoadEnvLines | scripts/sync-stripe-subscription.js:15-18 | The loader loop computes the fold `LoadLines` |
| SyncSubscription.LiveWrite | scripts/sync-stripe-subscription.js:108-112 | A write happens iff the status is `active` or `trialing`. It stores premium over the period, keyed by `userId` if present, else by the email |
| SyncSubscription.FindPaid | scripts/sync-stripe-subscription.js:55-57 | `find` returns the first paid session for the email, or none iff there is none |
| SyncSubscription.PremiumWriteUpgrades | scripts/sync-stripe-subscription.js:110-112 | A premium write only upgrades: rows, emails and roles stay and only statuses become premium |
| SyncSubscription.FallbackUpgrades | scripts/sync-stripe-subscription.js:50-92 | The fallback only upgrades |
| SyncSubscription.SubsEffectUpgrades | scripts/sync-stripe-subscription.js:103-121 | The inner loop only upgrades |
| SyncSubscription.CustomersRunUpgrades | scripts/sync-stripe-subscription.js:94-122 | The outer loop only upgrades, also when it stops on a failed list |
| SyncSubscription.SyncNeverDowngrades | scripts/sync-stripe-subscription.js:13-123 | The script never writes free and never removes a row: every status it changes becomes premium |
| SyncSubscription.SyncGuards | scripts/sync-stripe-subscription.js:21-48 | A blank argument, a missing key or a throwing `customers.list` exits 1 with the table untouched |
| SyncSubscription.FallbackChoice | scripts/sync-stripe-subscription.js:50-92 | A throwing `checkout.sessions.list` exits 1 with no write. With no paid session for the email the fallback exits 0 and writes nothing. Otherwise it acts on the first paid session |
| SyncSubscription.LoopFailureContinues | scripts/sync-stripe-subscription.js:114-119 | A failing update in the loop is skipped, and the other updates still apply |
| SyncSubscription.CustomersRunCode | scripts/sync-stripe-subscription.js:94-128 | The customer loop exits 0 iff every `subscriptions.list` answers, and 1 otherwise |
| SyncSubscription.FailureSticks | scripts/sync-stripe-subscription.js:94-128 | Once a list has thrown, the later customers change nothing |
| SyncSubscription.ListFailureKeepsEarlierWrites | scripts/sync-stripe-subscription.js:94-128 | When customer `k`'s list is the first to throw, the script exits 1 and the table keeps exactly the updates for customers before `k` |
| SyncSubscription.CustomersStep | scripts/sync-stripe-subscription.js:94-101 | One more customer: a failed run stays failed, a throwing list fails it, and otherwise that customer's subscriptions are applied |
| SyncSubscription.Sync | scripts/sync-stripe-subscription.js:21-128 | The exit code and table are those of `SyncRun`, including exit 1 from `main().catch` when a list or retrieve call throws, and the unique constraint is kept |
| SyncSubscription.Script | scripts/sync-stripe-subscription.js:13-128 | From the first line: the exit code and table are those of `SyncRun` on the loaded environment, the table only gains premium, and the unique constraint is kept |
| SyncSubscription.SyncFallback | scripts/sync-stripe-subscription.js:50-92 | The fallback's exit code and table are those of `Fallback` |
| SyncSubscription.SyncCustomers | scripts/sync-stripe-subscription.js:94-122 | The outer loop's exit code and table are those of `CustomersRun` |
| SyncSubscription.SyncSubs | scripts/sync-stripe-subscription.js:103-121 | The inner loop leaves the table as `SubsEffect` |
| RegisterRoute.ValidEmailMatches | src/app/api/register/route.ts:6 | Every address the computed check accepts matches the regular expression |
| RegisterRoute.MatchIsValidEmail | src/app/api/register/route.ts:6 | Every address the regular expression matches passes the computed check |
| RegisterRoute.EmailRegexIff | src/app/api/register/route.ts:6 | The computed check and the regular expression agree on every string |
| RegisterRoute.Utf16Length | src/app/api/register/route.ts:28 | A string's UTF-16 length is at least its number of code points |
| RegisterRoute.Validate | src/app/api/register/route.ts:21-33 | A bad email is reported whatever the password, and a short or non-string password only after a good email. A valid result carries the normalised non-empty email and the password |
| RegisterRoute.RegisterRole | src/app/api/register/route.ts:61 | The role is admin iff the email equals the whole lower-cased `ADMIN_EMAIL` (default `admin@example.com`) |
| RegisterRoute.RegisterGet | src/app/api/register/route.ts:9-14 | GET is always 405 |
| RegisterRoute.PostStep | src/app/api/register/route.ts:16-69 | Validation replies 400 in order. Sign-up errors become 409 for duplicates and 500 otherwise, and a sign-up without a user id gives 500. A sign-up with an id always leads to an insert, and the row to insert has the normalised email and the role from `RegisterRole` |
| RegisterRoute.InsertProfile | src/app/api/register/route.ts:63-72 | An insert whose id or email already exists (`23505`) leaves the table unchanged; otherwise it adds the new row; the unique constraint is kept |
| RegisterRoute.RegisterPost | src/app/api/register/route.ts:16-84 | An unreadable body gives 500 with no sign-up. Sign-up is called iff validation passes. The reply and new table follow `PostStep`, and a duplicate-key insert still answers ok |
| RegisterAction.RegisterUser | src/app/register/actions.ts:11-56 | Validation failures return errors without a sign-up. Success requires a created user, and then the table holds the inserted row or already had the id or email. On failure the table is unchanged |
| RegisterAction.ActionAgreesWithRoute | src/app/register/actions.ts:11-56 | The action succeeds exactly when the route answers `{ ok: true }` for the same input and sign-up outcome |
| AdminUsers.Page | src/app/api/admin/users/route.ts:12 | The page is at least 1: a missing one is 1, and one of at least 1 is kept |
| AdminUsers.Limit | src/app/api/admin/users/route.ts:13 | The limit is clamped to 10..50, and a missing one is 10 |
| AdminUsers.Search | src/app/api/admin/users/route.ts:14 | The search term is empty or has no white space at either end |
| AdminUsers.TotalPages | src/app/api/admin/users/route.ts:34 | The page count is `ceil(total / limit)`: zero for no rows, else the least count whose pages cover the total |
| AdminUsers.RequestedRange | src/app/api/admin/users/route.ts:15 | The range starts at `(page-1)*limit`, which is not negative, and spans exactly `limit` rows |
| AdminUsers.Filtered | src/app/api/admin/users/route.ts:19-21 | A row is kept iff its email contains the search case-insensitively, or the search is empty |
| AdminUsers.RangeOf | src/app/api/admin/users/route.ts:23 | `.range(from, to)` returns at most `to-from+1` rows, the rows from `from` on, in order |
| AdminUsers.ListUsers | src/app/api/admin/users/route.ts:5-36 | A non-admin gets 403. An admin gets a 500 with the message when the query fails, and a listing otherwise. A listing holds exactly `min(limit, max(0, total - (page - 1) * limit))` rows, which are the matching rows of the requested page in order, together with the total, the page, the limit and `ceil(total/limit)` |
| AdminUsers.PagesCoverMatches | src/app/api/admin/users/route.ts:15-34 | Every matching row appears on exactly the page `i/limit + 1`, and that page is within `1..totalPages` |
| WeatherCard.IconSrc | src/components/weather-card.tsx:15-21 | A missing or empty icon gives `""`. `//` URLs get `https:`, `http` URLs are kept, and codes become OpenWeather image URLs, with `@2x` when asked |
| WeatherCard.IconSrcAbsolute | src/components/weather-card.tsx:15-21 | The card shows nothing or an absolute `http` URL |
| WeatherCard.IconSrcIdempotent | src/components/weather-card.tsx:15-21 | A resolved icon resolves to itself |
| WeatherCard.FirstOfDayIffNew | src/components/weather-card.tsx:49-51 | An item is stored iff its day is not among the days seen before it |
| WeatherCard.FirstIndices | src/components/weather-card.tsx:49-51 | The positions of stored items are positions of the list |
| WeatherCard.FirstIndicesFacts | src/components/weather-card.tsx:48-53 | The stored positions are ascending, each is the first of its day, none is missed, and there is one per day |
| WeatherCard.FirstIndicesAreFirsts | src/components/weather-card.tsx:49-51 | Each stored item is the first of its day |
| WeatherCard.FirstIndicesAscending | src/components/weather-card.tsx:48-53 | Stored items keep the list's order |
| WeatherCard.FirstIndicesComplete | src/components/weather-card.tsx:49-51 | Every first-of-its-day item is stored |
| WeatherCard.FirstIndicesCount | src/components/weather-card.tsx:48-53 | There is one stored item per distinct day |
| WeatherCard.Daily | src/components/weather-card.tsx:48-53 | The map's values number exactly the distinct days |
| WeatherCard.DailyOnePerDay | src/components/weather-card.tsx:48-53 | No two daily items fall on the same day |
| WeatherCard.DailyKeepsFirsts | src/components/weather-card.tsx:49-52 | The first item of every day is in the daily list, and every item's day has a first item |
| WeatherCard.DailyForecast | src/components/weather-card.tsx:53-56 | The stored forecast is `null` iff there are no days, else it holds `min(days, 7 or 5)` items |
| WeatherCard.DailyForecastIsPrefix | src/components/weather-card.tsx:53 | The shown days are the leading part of the daily list |
| WeatherCard.DailyStep | src/components/weather-card.tsx:49-51 | One more item adds its day to the days seen, and its position to the stored ones exactly when the day is new |
| WeatherCard.FillDailyMap | src/components/weather-card.tsx:47-52 | The loop's map has exactly the list's days as keys, and each key in insertion order maps to its day's first item |
| WeatherCard.BuildDailyForecast | src/components/weather-card.tsx:47-57 | The stored forecast is `DailyForecast` of the route's list |
| WeatherCard.SearchQuery | src/components/weather-card.tsx:69-74 | A blank city sends nothing; otherwise the query is `city=` plus the trimmed city |
| WeatherRoute.ToOWIcon | src/app/api/weather/route.ts:7-11 | An empty icon becomes `01d`, a `//` URL gets `https:`, and anything else is kept |
| WeatherRoute.CardShowsRouteIcon | src/app/api/weather/route.ts:7-11 | Whatever icon the route sends, the card shows an absolute `http` URL |
| WeatherRoute.FirstWord | src/app/api/weather/route.ts:16 | The first word is a prefix of the text with no separator in it, and ends at the text's end or at a separator |
| WeatherRoute.FirstWordOfWord | src/app/api/weather/route.ts:16 | A text with no separator is its own first word |
| WeatherRoute.ToOWCondition | src/app/api/weather/route.ts:13-20 | The condition keeps the code and the text, and its icon is `toOWIcon` of the icon. Its `main` is the first word, or `Unknown` when that is empty |
| WeatherRoute.ConditionMainWord | src/app/api/weather/route.ts:16 | `main` is never empty, and is a prefix of the text when the text starts with a word |
| WeatherRoute.ConditionOf | src/app/api/weather/route.ts:75-77 | A missing condition becomes code 1000, text `Unknown` and icon `01d` |
| WeatherRoute.RoundTenth | src/app/api/weather/route.ts:115 | `Math.round(x * 10) / 10` lies within half a tenth of `x` |
| WeatherRoute.CurrentOf | src/app/api/weather/route.ts:61-80 | Current weather takes each field or its default: the temperature, humidity and pressure default to 0, and the single condition is `ConditionOf` the block's condition. `feels_like` falls back to the temperature, and the wind is km/h over 3.6. Without a `current` block every number is 0 and the condition is the default one |
| WeatherRoute.ForecastItemOf | src/app/api/weather/route.ts:83-96 | A day is stamped at noon of its date, with `date_epoch` else the parsed date as `dt` |
| WeatherRoute.ForecastList | src/app/api/weather/route.ts:82-96 | One item per day, in the same order |
| WeatherRoute.CardDayOfForecastItem | src/app/api/weather/route.ts:95 | For a 10-character date, the card's day of an item is its date |
| WeatherRoute.CardKeepsEveryForecastDay | src/app/api/weather/route.ts:82-96 | With distinct 10-character dates, the card keeps every day the route sends, in order |
| WeatherRoute.Window | src/app/api/weather/route.ts:103-123 | The hourly list never exceeds 24 items |
| WeatherRoute.UpcomingHours | src/app/api/weather/route.ts:105-107 | Every upcoming hour is at or after now |
| WeatherRoute.WindowIsFirstUpcoming | src/app/api/weather/route.ts:103-123 | The hourly list is the first 24 upcoming hours in day-then-hour order |
| WeatherRoute.WindowUpcoming | src/app/api/weather/route.ts:103-107 | No listed hour is in the past, and there are at most 24 |
| WeatherRoute.WindowStep | src/app/api/weather/route.ts:106-107 | One more hour joins the list exactly when it is upcoming and there is room |
| WeatherRoute.PushDayHours | src/app/api/weather/route.ts:106-121 | The inner loop extends the window by one day's hours |
| WeatherRoute.CollectHours | src/app/api/weather/route.ts:103-123 | The nested loops compute `Window` of all hours |
| WeatherRoute.AlertOf | src/app/api/weather/route.ts:126-133 | An alert takes each field or its fallback: headline, then event, then the Russian word for warning; severity `Unknown`; the rest `""` |
| WeatherRoute.Alerts | src/app/api/weather/route.ts:125-133 | One alert per raw alert, in order |
| WeatherRoute.AlertHeadlineFallback | src/app/api/weather/route.ts:127 | Only a missing headline is replaced; an empty one is kept |
| WeatherRoute.Query | src/app/api/weather/route.ts:35-45 | A non-blank city wins and is trimmed; otherwise lat and lon both present give `lat,lon`; otherwise there is no query |
| WeatherRoute.Get | src/app/api/weather/route.ts:22-143 | No key gives 500 and no location gives 400, both without a fetch. An upstream error passes its status on with its message or `Weather fetch failed`, a network failure gives 500, and a body gives the reshaped answer |
| Currency.ByCode | src/components/currency-section.tsx:49-51 | The table's codes are exactly the rates' abbreviations |
| Currency.ByCodeLastWins | src/components/currency-section.tsx:49-51 | For a repeated code the last row wins |
| Currency.DisplayRates | src/components/currency-section.tsx:52 | A rate is shown iff it is one of the nine major currencies |
| Currency.DisplayRatesKeepOrder | src/components/currency-section.tsx:52 | The shown rates keep their order |
| Currency.Convert | src/components/currency-section.tsx:54-61 | Equal codes return the amount, and an unknown code gives 0 |
| Currency.ConvertWithByn | src/components/currency-section.tsx:56-60 | To BYN is `val * rate / scale`; from BYN is `val * scale / rate` |
| Currency.ConvertThroughByn | src/components/currency-section.tsx:59-60 | Between two known currencies the conversion goes through BYN |
| Currency.ConvertRoundTrip | src/components/currency-section.tsx:54-61 | With non-zero rates and scales, converting there and back returns the amount |
| Currency.RoundTripViaByn | src/components/currency-section.tsx:59-60 | A currency to BYN and back, and BYN to it and back, return the amount |
| Currency.RoundTripBetween | src/components/currency-section.tsx:59-60 | Two non-BYN currencies there and back return the amount |
| Currency.ConvertNonFinite | src/components/currency-section.tsx:54-61 | The result is non-finite exactly when it divides by a zero scale or rate |

## Left out

- JavaScript numbers are exact reals and integers here. Floating-point rounding of
  `/ 3.6`, of the currency arithmetic and of `Math.round` is not modelled. A division by
  zero in the converter is the value `NonFinite`.
- Dates are epoch seconds. `toISOString` is the identity on them. The route's
  `new Date(fd.date).getTime() / 1000` is an input field (`parsedDate`).
- Strings are sequences of code points. `toLowerCase` is ASCII-only, `\s` is the
  ECMAScript white-space set, and `password.length` counts UTF-16 units via
  `Utf16Length`.
- `encodeURIComponent` in the weather query and in the card's search is not modelled. The
  query holds the trimmed city as is.
- `parseInt` returning `NaN` in the admin list, for a non-numeric `page` or `limit`, is
  not modelled. The request's page and limit are given as numbers, or as missing.
- `ilike` wildcards: `%` and `_` typed in the admin search are taken literally. The order
  `created_at desc` is the order of the given rows.
- Database errors are not modelled where the source ignores them: the webhook, verify
  and sign-in writes. In the register paths and the sync script they are inputs.
- Concurrency between requests is not modelled. Each handler runs on its own.
- Object keys named `__proto__` or other prototype properties are treated as ordinary
  keys, in `byCode` and `parseEnv`.
- Network calls are inputs rather than being performed:
  - Stripe (`constructEvent`'s signature check, `retrieve`, `list`, `create`);
  - Supabase `signUp` and `signInWithPassword`;
  - the WeatherAPI fetch.
  Stripe's list limits (5 customers, 100 sessions, 10 subscriptions) are the lengths of
  the given lists.
- Request and response bodies are not modelled: JSON parsing is a field that is absent,
  a string or another value. Response headers and `console` output are left out.
- A body that is the JSON literal `null` is not modelled in checkout and verify. There,
  `body.plan` and the destructuring of `session_id` throw a `TypeError`, an unhandled
  500. The models take the body as its fields, a missing field standing for an
  unparsable body. Registration does model it (`RequestBody.Unreadable`).
- The weather card's fetch error state and toasts (`setError`, the network-error message,
  geolocation) are left out. The card is modelled from the parsed answer on.
- An hour whose `time_epoch` is missing is not upcoming, as `undefined >= n` is false.
- The WeatherAPI answer is flattened: `day.condition` and `day.avgtemp_c` are fields of
  `UpDay`.
- SetupStripe.SetupStripe: `requests` lists both prices whenever the two exits are passed.
  A create call that throws part-way (the `Premium` product or the monthly price) stops
  the later calls, and the model does not tell those cases apart; the product request
  is not part of `requests`.
- Files outside the modelled handlers and scripts are not part of this model: the pages,
  the currency API route, `src/lib/stripe.ts`, `set-admin-by-email.js`, the admin detail
  route and the user route.
