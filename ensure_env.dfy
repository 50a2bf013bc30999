/**
 * scripts/ensure-env.js: `.env.local` is rebuilt from `.env.example`, keeping every
 * non-empty value already set locally, with `NEXTAUTH_URL` defaulted, and the OAuth
 * callback URL is derived from the result.
 */
module EnsureEnv {
  import opened Wrappers
  import opened Strings
  import opened EnvFile
  import opened CallbackUrl

  const NEXTAUTH_URL := "NEXTAUTH_URL"
  const DEFAULT_NEXTAUTH_URL := "http://localhost:3000"

  /** The merge loop over the existing entries read so far, starting from a copy of the example. */
  function MergeEntries(example: Env, existing: Env): Env {
    if existing == [] then example
    else
      var merged := MergeEntries(example, existing[..|existing| - 1]);
      var (k, v) := existing[|existing| - 1];
      if v != "" then Put(merged, k, v) else merged
  }

  /** `const merged = { ...example }; for (const [k, v] of Object.entries(existing)) ...`. */
  method Merge(example: Env, existing: Env) returns (merged: Env)
    ensures merged == MergeEntries(example, existing)
  {
    merged := example;
    var i := 0;
    while i < |existing|
      invariant 0 <= i <= |existing|
      invariant merged == MergeEntries(example, existing[..i])
    {
      assert existing[..i + 1][..i] == existing[..i];
      var (k, v) := existing[i];
      if v != "" {
        merged := Put(merged, k, v);
      }
      i := i + 1;
    }
    assert existing[..|existing|] == existing;
  }

  /**
   * Every key keeps the local value when that is non-empty and the example's otherwise,
   * so no key other than those two sources' appears.
   */
  lemma {:induction false} MergeLookup(example: Env, existing: Env)
    requires DistinctKeys(existing)
    ensures forall k :: Lookup(MergeEntries(example, existing), k) ==
                        if Truthy(Lookup(existing, k)) then Lookup(existing, k) else Lookup(example, k)
  {
    if existing != [] {
      var n := |existing| - 1;
      var prefix := existing[..n];
      assert DistinctKeys(prefix);
      MergeLookup(example, prefix);
      var (kn, v) := existing[n];
      LookupLast(existing);
      NewLastKey(existing);
      forall k
        ensures Lookup(MergeEntries(example, existing), k) ==
                if Truthy(Lookup(existing, k)) then Lookup(existing, k) else Lookup(example, k)
      {
        if k == kn && v == "" {
          assert Lookup(prefix, k) == None;
        }
      }
    }
  }

  /** The example's keys come first, in the example's order. */
  lemma {:induction false} MergeKeepsExampleOrder(example: Env, existing: Env)
    ensures Keys(example) <= Keys(MergeEntries(example, existing))
  {
    if existing != [] {
      MergeKeepsExampleOrder(example, existing[..|existing| - 1]);
    }
  }

  /** In an object with distinct keys, the last entry's key maps to its value and the other keys to what the rest gives. */
  lemma {:induction false} LookupLast(env: Env)
    requires env != [] && DistinctKeys(env)
    ensures Lookup(env, env[|env| - 1].0) == Some(env[|env| - 1].1)
    ensures forall j :: j != env[|env| - 1].0 ==> Lookup(env, j) == Lookup(env[..|env| - 1], j)
  {
    var n := |env| - 1;
    if n > 0 {
      assert env[1..][..n - 1] == env[..n][1..];
      assert DistinctKeys(env[1..]);
      LookupLast(env[1..]);
    }
  }

  /** `NEXTAUTH_URL` is set to the default when missing, empty or already the default. */
  function WithNextAuthDefault(env: Env): (r: Env)
    ensures Lookup(r, NEXTAUTH_URL) == if Truthy(Lookup(env, NEXTAUTH_URL)) then Lookup(env, NEXTAUTH_URL) else Some(DEFAULT_NEXTAUTH_URL)
    ensures forall j :: j != NEXTAUTH_URL ==> Lookup(r, j) == Lookup(env, j)
    ensures Truthy(Lookup(env, NEXTAUTH_URL)) && Lookup(env, NEXTAUTH_URL) != Some(DEFAULT_NEXTAUTH_URL) ==> r == env
  {
    var url := Lookup(env, NEXTAUTH_URL);
    if !Truthy(url) || url.value == DEFAULT_NEXTAUTH_URL then Put(env, NEXTAUTH_URL, DEFAULT_NEXTAUTH_URL) else env
  }

  /** The object written back: `local` is `.env.local`'s content if the file exists. */
  function Rebuilt(local: Option<string>, example: string): Env {
    var existing := if local.Some? then ParseEnv(local.value) else [];
    WithNextAuthDefault(MergeEntries(ParseEnv(example), existing))
  }

  /**
   * The script: the file content written and the callback URL it prints. `example` is
   * `.env.example`'s content, `None` when the file is missing: reading it throws, so
   * nothing is written and nothing printed.
   */
  method EnsureEnv(local: Option<string>, example: Option<string>) returns (written: Option<string>, callbackUrl: Option<string>)
    ensures example.None? ==> written.None? && callbackUrl.None?
    ensures example.Some? ==> written == Some(Serialize(Rebuilt(local, example.value)) + "\n")
    ensures example.Some? ==> Truthy(Lookup(Rebuilt(local, example.value), NEXTAUTH_URL))
    ensures example.Some? ==> callbackUrl == Some(WithCallbackPath(Lookup(Rebuilt(local, example.value), NEXTAUTH_URL).value))
  {
    var existing: Env := [];
    if local.Some? {
      existing := ParseEnvFile(local.value);
    }
    if example.None? {
      return None, None;
    }
    var exampleEnv := ParseEnvFile(example.value);
    var merged := Merge(exampleEnv, existing);
    merged := WithNextAuthDefault(merged);
    written := Some(Serialize(merged) + "\n");
    callbackUrl := Some(WithCallbackPath(Lookup(merged, NEXTAUTH_URL).value));
  }

  /**
   * In the rebuilt object each key holds its non-empty local value, else the example's;
   * `NEXTAUTH_URL` is never empty; and when every entry can be written, reading the
   * written file gives that object back.
   */
  lemma RebuiltContents(local: Option<string>, example: string, k: string)
    ensures var existing := if local.Some? then ParseEnv(local.value) else [];
            k != NEXTAUTH_URL ==>
              Lookup(Rebuilt(local, example), k) ==
              if Truthy(Lookup(existing, k)) then Lookup(existing, k) else Lookup(ParseEnv(example), k)
    ensures Truthy(Lookup(Rebuilt(local, example), NEXTAUTH_URL))
    ensures Serializable(Rebuilt(local, example)) ==>
              ParseEnv(Serialize(Rebuilt(local, example)) + "\n") == Rebuilt(local, example)
  {
    if local.Some? {
      ParseLinesLastWins(Split(local.value, '\n'));
    }
    MergeLookup(ParseEnv(example), if local.Some? then ParseEnv(local.value) else []);
    if Serializable(Rebuilt(local, example)) {
      ParseSerialize(Rebuilt(local, example));
    }
  }
}
