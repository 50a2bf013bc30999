/**
 * scripts/setup-stripe.js: with a usable secret key, creates the Premium product's two
 * prices and rewrites `.env.local` so that both price-id keys carry the new ids.
 */
module SetupStripe {
  import opened Wrappers
  import opened Strings
  import opened EnvFile

  const MONTHLY_KEY := "STRIPE_MONTHLY_PRICE_ID"
  const ANNUAL_KEY := "STRIPE_ANNUAL_PRICE_ID"
  const SECRET_KEY := "STRIPE_SECRET_KEY"

  /** A recurring price the script creates. */
  datatype PriceSpec = PriceSpec(unitAmount: nat, currency: string, interval: string)

  const MONTHLY_PRICE := PriceSpec(499, "usd", "month")
  const ANNUAL_PRICE := PriceSpec(4900, "usd", "year")

  /** `env.STRIPE_SECRET_KEY || process.env.STRIPE_SECRET_KEY`. */
  function SecretKey(fileEnv: Env, processSecret: Option<string>): (key: Option<string>)
    ensures Truthy(Lookup(fileEnv, SECRET_KEY)) ==> key == Lookup(fileEnv, SECRET_KEY)
    ensures !Truthy(Lookup(fileEnv, SECRET_KEY)) ==> key == processSecret
  {
    if Truthy(Lookup(fileEnv, SECRET_KEY)) then Lookup(fileEnv, SECRET_KEY) else processSecret
  }

  /** A key the script accepts: non-empty and starting with `sk_`. */
  predicate UsableKey(key: Option<string>) {
    Truthy(key) && StartsWith(key.value, "sk_")
  }

  function KeyLine(key: string, id: string): string {
    key + "=" + id
  }

  predicate IsKeyLine(line: string, key: string) {
    StartsWith(line, key + "=")
  }

  predicate HasKeyLine(lines: seq<string>, key: string) {
    exists j :: 0 <= j < |lines| && IsKeyLine(lines[j], key)
  }

  /** One line of the rewrite: either key's line is replaced, anything else is kept. */
  function RewriteLine(line: string, monthlyId: string, annualId: string): string {
    if IsKeyLine(line, MONTHLY_KEY) then KeyLine(MONTHLY_KEY, monthlyId)
    else if IsKeyLine(line, ANNUAL_KEY) then KeyLine(ANNUAL_KEY, annualId)
    else line
  }

  /** The first `n` lines, each rewritten in place. */
  function RewrittenPrefix(lines: seq<string>, n: nat, monthlyId: string, annualId: string): (out: seq<string>)
    requires n <= |lines|
  {
    seq(n, i requires 0 <= i < n => RewriteLine(lines[i], monthlyId, annualId))
  }

  /** One more line of the loop: the rewritten prefix grows by that line, and a key is seen once its line is. */
  lemma RewriteStep(lines: seq<string>, i: nat, monthlyId: string, annualId: string, key: string)
    requires i < |lines|
    ensures RewrittenPrefix(lines, i + 1, monthlyId, annualId)
            == RewrittenPrefix(lines, i, monthlyId, annualId) + [RewriteLine(lines[i], monthlyId, annualId)]
    ensures HasKeyLine(lines[..i + 1], key) <==> HasKeyLine(lines[..i], key) || IsKeyLine(lines[i], key)
  {
    assert lines[..i + 1] == lines[..i] + [lines[i]];
    if HasKeyLine(lines[..i + 1], key) && !IsKeyLine(lines[i], key) {
      var j :| 0 <= j < i + 1 && IsKeyLine(lines[..i + 1][j], key);
      assert lines[..i][j] == lines[..i + 1][j];
    }
    if HasKeyLine(lines[..i], key) {
      var j :| 0 <= j < i && IsKeyLine(lines[..i][j], key);
      assert lines[..i + 1][j] == lines[..i][j];
    }
    if IsKeyLine(lines[i], key) {
      assert lines[..i + 1][i] == lines[i];
    }
  }

  /** Reference definition of the rewrite: each line rewritten in place, then any missing key appended, monthly first. */
  function Rewritten(lines: seq<string>, monthlyId: string, annualId: string): (out: seq<string>) {
    RewrittenPrefix(lines, |lines|, monthlyId, annualId)
    + (if HasKeyLine(lines, MONTHLY_KEY) then [] else [KeyLine(MONTHLY_KEY, monthlyId)])
    + (if HasKeyLine(lines, ANNUAL_KEY) then [] else [KeyLine(ANNUAL_KEY, annualId)])
  }

  /** The loop with its `monthlyDone`/`annualDone` flags and the two appends after it. */
  method RewriteLines(lines: seq<string>, monthlyId: string, annualId: string) returns (out: seq<string>)
    ensures out == Rewritten(lines, monthlyId, annualId)
  {
    out := [];
    var monthlyDone := false;
    var annualDone := false;
    var i := 0;
    while i < |lines|
      invariant 0 <= i <= |lines|
      invariant out == RewrittenPrefix(lines, i, monthlyId, annualId)
      invariant monthlyDone <==> HasKeyLine(lines[..i], MONTHLY_KEY)
      invariant annualDone <==> HasKeyLine(lines[..i], ANNUAL_KEY)
    {
      var line := lines[i];
      RewriteStep(lines, i, monthlyId, annualId, MONTHLY_KEY);
      RewriteStep(lines, i, monthlyId, annualId, ANNUAL_KEY);
      KeyLinesDiffer(line);
      if StartsWith(line, MONTHLY_KEY + "=") {
        out := out + [KeyLine(MONTHLY_KEY, monthlyId)];
        monthlyDone := true;
        i := i + 1;
        continue;
      }
      if StartsWith(line, ANNUAL_KEY + "=") {
        out := out + [KeyLine(ANNUAL_KEY, annualId)];
        annualDone := true;
        i := i + 1;
        continue;
      }
      out := out + [line];
      i := i + 1;
    }
    assert lines[..|lines|] == lines;
    if !monthlyDone {
      out := out + [KeyLine(MONTHLY_KEY, monthlyId)];
    }
    if !annualDone {
      out := out + [KeyLine(ANNUAL_KEY, annualId)];
    }
  }

  /** No line starts with both keys: they differ at their eighth character. */
  lemma KeyLinesDiffer(line: string)
    ensures !(IsKeyLine(line, MONTHLY_KEY) && IsKeyLine(line, ANNUAL_KEY))
  {
    if IsKeyLine(line, MONTHLY_KEY) {
      assert line[7] == 'M';
    }
  }

  lemma AnnualLineIsNotMonthly(annualId: string)
    ensures !IsKeyLine(KeyLine(ANNUAL_KEY, annualId), MONTHLY_KEY)
  {
    assert KeyLine(ANNUAL_KEY, annualId)[7] == 'A';
  }

  lemma MonthlyLineIsNotAnnual(monthlyId: string)
    ensures !IsKeyLine(KeyLine(MONTHLY_KEY, monthlyId), ANNUAL_KEY)
  {
    assert KeyLine(MONTHLY_KEY, monthlyId)[7] == 'M';
  }

  lemma KeyLineIsKeyLine(key: string, id: string)
    ensures IsKeyLine(KeyLine(key, id), key)
  {
    assert KeyLine(key, id)[..|key + "="|] == key + "=";
  }

  /**
   * After the rewrite each key has a line, every line of either key carries the new id,
   * every other line is kept in its place, and at most the two missing keys are added.
   */
  lemma RewrittenKeys(lines: seq<string>, monthlyId: string, annualId: string)
    ensures var out := Rewritten(lines, monthlyId, annualId);
            && HasKeyLine(out, MONTHLY_KEY) && HasKeyLine(out, ANNUAL_KEY)
            && (forall j :: 0 <= j < |out| && IsKeyLine(out[j], MONTHLY_KEY) ==> out[j] == KeyLine(MONTHLY_KEY, monthlyId))
            && (forall j :: 0 <= j < |out| && IsKeyLine(out[j], ANNUAL_KEY) ==> out[j] == KeyLine(ANNUAL_KEY, annualId))
            && (forall j :: 0 <= j < |lines| && !IsKeyLine(lines[j], MONTHLY_KEY) && !IsKeyLine(lines[j], ANNUAL_KEY)
                  ==> out[j] == lines[j])
            && |lines| <= |out| <= |lines| + 2
  {
    var out := Rewritten(lines, monthlyId, annualId);
    AnnualLineIsNotMonthly(annualId);
    MonthlyLineIsNotAnnual(monthlyId);
    KeyLineIsKeyLine(MONTHLY_KEY, monthlyId);
    KeyLineIsKeyLine(ANNUAL_KEY, annualId);
    if HasKeyLine(lines, MONTHLY_KEY) {
      var j :| 0 <= j < |lines| && IsKeyLine(lines[j], MONTHLY_KEY);
      assert out[j] == KeyLine(MONTHLY_KEY, monthlyId);
    } else {
      assert out[|lines|] == KeyLine(MONTHLY_KEY, monthlyId);
    }
    if HasKeyLine(lines, ANNUAL_KEY) {
      var j :| 0 <= j < |lines| && IsKeyLine(lines[j], ANNUAL_KEY);
      assert out[j] == RewriteLine(lines[j], monthlyId, annualId);
    } else {
      assert out[|out| - 1] == KeyLine(ANNUAL_KEY, annualId);
    }
  }

  /** `out.join("\n").trimEnd() + "\n"`. */
  function WrittenContent(out: seq<string>): (content: string)
    ensures content != [] && content[|content| - 1] == '\n'
    ensures |content| == 1 || !IsSpace(content[|content| - 2])
  {
    TrimEnd(Join(out, '\n')) + "\n"
  }

  /** The script gets past both of its exits: the file exists and holds (or the process has) an `sk_` key. */
  predicate PassesGuards(file: Option<string>, processSecret: Option<string>) {
    file.Some? && UsableKey(SecretKey(ParseEnv(file.value), processSecret))
  }

  datatype SetupOutcome =
    | NoEnvFile            // exit 1: `.env.local` missing
    | BadSecretKey         // exit 1: no key, or one not starting with `sk_`
    | StripeFailed         // exit 1: a create call threw; the file is not written
    | Updated(content: string)

  /**
   * The script. `file` is `.env.local`'s content if it exists, `processSecret` the
   * process's own `STRIPE_SECRET_KEY`, `created` the two new price ids (`None` when
   * the provider refused). `requests` are the prices asked of the provider, in order.
   */
  method SetupStripe(file: Option<string>, processSecret: Option<string>, created: Option<(string, string)>)
    returns (outcome: SetupOutcome, requests: seq<PriceSpec>)
    ensures file.None? ==> outcome == NoEnvFile
    ensures file.Some? && !PassesGuards(file, processSecret) ==> outcome == BadSecretKey
    ensures requests == if PassesGuards(file, processSecret) then [MONTHLY_PRICE, ANNUAL_PRICE] else []
    ensures outcome.Updated? <==> PassesGuards(file, processSecret) && created.Some?
    ensures outcome.Updated? ==>
              outcome.content == WrittenContent(Rewritten(Split(file.value, '\n'), created.value.0, created.value.1))
  {
    requests := [];
    if file.None? {
      return NoEnvFile, requests;
    }
    var env := ParseEnvFile(file.value);
    var secretKey := SecretKey(env, processSecret);
    if !UsableKey(secretKey) {
      return BadSecretKey, requests;
    }
    // the `Premium` product, then 4.99 USD a month and 49.00 USD a year
    requests := [MONTHLY_PRICE, ANNUAL_PRICE];
    if created.None? {
      return StripeFailed, requests;
    }
    var (monthlyId, annualId) := created.value;
    var out := RewriteLines(Split(file.value, '\n'), monthlyId, annualId);
    outcome := Updated(WrittenContent(out));
  }
}
