/**
 * The `.env` parser the setup scripts share (`parseEnv` in scripts/ensure-env.js and
 * scripts/setup-stripe.js, the loader at the top of scripts/sync-stripe-subscription.js)
 * and the insertion-ordered object it fills.
 */
module EnvFile {
  import opened Wrappers
  import opened Strings

  /**
   * A plain JavaScript object with string values, as its entries in insertion order.
   * Identifier keys are never array indices, so insertion order is the object's key order.
   */
  type Env = seq<(string, string)>

  predicate IsIdentStart(c: char) {
    ('A' <= c <= 'Z') || ('a' <= c <= 'z') || c == '_'
  }

  predicate IsIdentChar(c: char) {
    IsIdentStart(c) || ('0' <= c <= '9')
  }

  /** `[A-Za-z_][A-Za-z0-9_]*`. */
  predicate IsIdentifier(k: string) {
    k != [] && IsIdentStart(k[0]) && forall i :: 1 <= i < |k| ==> IsIdentChar(k[i])
  }

  predicate NoLineTerminator(s: string) {
    forall i :: 0 <= i < |s| ==> !IsLineTerminator(s[i])
  }

  /**
   * `line.match(/^([A-Za-z_][A-Za-z0-9_]*)=(.*)$/)` and the value kept for it:
   * quotes stripped, then trimmed. `.` matches no line terminator and `$` is the end of the line.
   */
  function ParseEnvLine(line: string): (r: Option<(string, string)>)
    ensures r.Some? ==> IsIdentifier(r.value.0)
  {
    match IndexOf(line, '=')
    case None => None
    case Some(eq) =>
      var key := line[..eq];
      var rest := line[eq + 1..];
      if IsIdentifier(key) && NoLineTerminator(rest) then Some((key, Trim(StripQuotes(rest)))) else None
  }

  lemma IdentifierHasNoEquals(k: string)
    requires IsIdentifier(k)
    ensures '=' !in k && '\n' !in k
  {
    forall i | 0 <= i < |k|
      ensures k[i] != '=' && k[i] != '\n'
    {
      if i > 0 { assert IsIdentChar(k[i]); }
    }
  }

  /** An entry comes from a line `key=rest` with an identifier key and no line terminator in `rest`. */
  lemma ParseEnvLineShape(line: string)
    requires ParseEnvLine(line).Some?
    ensures var (k, v) := ParseEnvLine(line).value;
            && |k| < |line| && line == k + "=" + line[|k| + 1..]
            && NoLineTerminator(line[|k| + 1..])
            && v == Trim(StripQuotes(line[|k| + 1..]))
  {
    var eq := IndexOf(line, '=').value;
    CutAt(line, eq);
  }

  /** Every `key=value` line with an identifier key and no line terminator is an entry. */
  lemma ParseEnvLineOf(k: string, v: string)
    requires IsIdentifier(k) && NoLineTerminator(v)
    ensures ParseEnvLine(k + "=" + v) == Some((k, Trim(StripQuotes(v))))
  {
    var line := k + "=" + v;
    IdentifierHasNoEquals(k);
    IndexOfPast(k, "=" + v, '=');
    assert line == k + ("=" + v);
    assert line[..|k|] == k;
    assert line[|k| + 1..] == v;
  }

  /** A line ending in a carriage return (a CRLF file split on `\n`) is no entry. */
  lemma CrLineIgnored(line: string)
    requires line != [] && line[|line| - 1] == '\r'
    ensures ParseEnvLine(line) == None
  {
    match IndexOf(line, '=')
    case None =>
    case Some(eq) =>
      if eq + 1 < |line| {
        var rest := line[eq + 1..];
        assert rest[|rest| - 1] == '\r';
        assert !NoLineTerminator(rest);
      }
  }

  /** `Object.keys(obj)`. */
  function Keys(env: Env): (ks: seq<string>)
    ensures |ks| == |env|
  {
    if env == [] then [] else [env[0].0] + Keys(env[1..])
  }

  predicate DistinctKeys(env: Env) {
    forall i, j :: 0 <= i < j < |env| ==> env[i].0 != env[j].0
  }

  /** `obj[k]`. */
  function Lookup(env: Env, k: string): (r: Option<string>)
    ensures r.None? <==> k !in Keys(env)
  {
    if env == [] then None
    else if env[0].0 == k then Some(env[0].1)
    else Lookup(env[1..], k)
  }

  /** `obj[k] = v`: an existing key keeps its position, a new one goes last. */
  function Put(env: Env, k: string, v: string): (r: Env)
    ensures Lookup(r, k) == Some(v)
    ensures forall j :: j != k ==> Lookup(r, j) == Lookup(env, j)
    ensures Keys(r) == if k in Keys(env) then Keys(env) else Keys(env) + [k]
  {
    if env == [] then [(k, v)]
    else if env[0].0 == k then [(k, v)] + env[1..]
    else
      var rest := Put(env[1..], k, v);
      assert ([env[0]] + rest)[1..] == rest;
      [env[0]] + rest
  }

  lemma {:induction false} KeysIndex(env: Env)
    ensures forall i :: 0 <= i < |env| ==> Keys(env)[i] == env[i].0
  {
    if env != [] {
      KeysIndex(env[1..]);
    }
  }

  /** Assigning a new key appends it. */
  lemma {:induction false} PutAppends(env: Env, k: string, v: string)
    requires k !in Keys(env)
    ensures Put(env, k, v) == env + [(k, v)]
  {
    if env != [] {
      PutAppends(env[1..], k, v);
    }
  }

  /** Assignment keeps the keys distinct. */
  lemma {:induction false} PutKeepsDistinct(env: Env, k: string, v: string)
    requires DistinctKeys(env)
    ensures DistinctKeys(Put(env, k, v))
  {
    var r := Put(env, k, v);
    KeysIndex(env);
    KeysIndex(r);
    forall i, j | 0 <= i < j < |r|
      ensures r[i].0 != r[j].0
    {
      assert r[i].0 == Keys(r)[i] && r[j].0 == Keys(r)[j];
      if j < |env| {
        assert Keys(r)[i] == env[i].0 && Keys(r)[j] == env[j].0;
      } else {
        assert Keys(r)[j] == k && Keys(r)[i] == Keys(env)[i];
      }
    }
  }

  /** The loop of `parseEnv` over the lines read so far. */
  function ParseLines(lines: seq<string>): Env {
    if lines == [] then []
    else
      var out := ParseLines(lines[..|lines| - 1]);
      match ParseEnvLine(lines[|lines| - 1])
      case None => out
      case Some((k, v)) => Put(out, k, v)
  }

  /** `parseEnv(content)`. */
  function ParseEnv(content: string): Env {
    ParseLines(Split(content, '\n'))
  }

  /** Reference definition: the value of the last line for `k`. */
  function LastEntry(lines: seq<string>, k: string): Option<string> {
    if lines == [] then None
    else
      var p := ParseEnvLine(lines[|lines| - 1]);
      if p.Some? && p.value.0 == k then Some(p.value.1) else LastEntry(lines[..|lines| - 1], k)
  }

  /** The parsed object has one entry per key, holding the value of the key's last line. */
  lemma {:induction false} ParseLinesLastWins(lines: seq<string>)
    ensures DistinctKeys(ParseLines(lines))
    ensures forall k :: Lookup(ParseLines(lines), k) == LastEntry(lines, k)
  {
    if lines != [] {
      ParseLinesLastWins(lines[..|lines| - 1]);
      var m := ParseEnvLine(lines[|lines| - 1]);
      if m.Some? {
        PutKeepsDistinct(ParseLines(lines[..|lines| - 1]), m.value.0, m.value.1);
      }
    }
  }

  /** `parseEnv`: the loop filling `out` one matching line at a time. */
  method ParseEnvFile(content: string) returns (out: Env)
    ensures out == ParseEnv(content)
  {
    var lines := Split(content, '\n');
    out := [];
    var i := 0;
    while i < |lines|
      invariant 0 <= i <= |lines|
      invariant out == ParseLines(lines[..i])
    {
      assert lines[..i + 1][..i] == lines[..i];
      var m := ParseEnvLine(lines[i]);
      if m.Some? {
        out := Put(out, m.value.0, m.value.1);
      }
      i := i + 1;
    }
    assert lines[..|lines|] == lines;
  }

  /** The `key=value` line `serializeEnv` writes for one entry. */
  function EntryLine(e: (string, string)): string {
    e.0 + "=" + e.1
  }

  /** `serializeEnv(obj)`: the entries' lines in insertion order, joined by `\n`. */
  function Serialize(env: Env): string {
    Join(EntryLines(env), '\n')
  }

  /** A value `parseEnv` reads back unchanged: no line terminator, no surrounding quote or whitespace. */
  predicate CleanValue(v: string) {
    NoLineTerminator(v) && NoSpaceAtEnds(v) && (v == [] || (!IsQuote(v[0]) && !IsQuote(v[|v| - 1])))
  }

  /** An entry `parseEnv` reads back from its own line. */
  predicate CleanEntry(e: (string, string)) {
    IsIdentifier(e.0) && CleanValue(e.1)
  }

  predicate Serializable(env: Env) {
    DistinctKeys(env) && forall i :: 0 <= i < |env| ==> CleanEntry(env[i])
  }

  lemma {:induction false} JoinSnoc(parts: seq<string>, p: string, sep: char)
    requires |parts| >= 1
    ensures Join(parts + [p], sep) == Join(parts, sep) + [sep] + p
  {
    if |parts| > 1 {
      assert (parts + [p])[1..] == parts[1..] + [p];
      JoinSnoc(parts[1..], p, sep);
    }
  }

  lemma EntryLineRead(e: (string, string))
    requires CleanEntry(e)
    ensures ParseEnvLine(EntryLine(e)) == Some(e)
  {
    ParseEnvLineOf(e.0, e.1);
    CleanValueRead(e.1);
  }

  lemma CleanValueRead(v: string)
    requires CleanValue(v)
    ensures Trim(StripQuotes(v)) == v
  {
    assert StripQuotes(v) == v;
  }

  lemma EntryLineHasNoNewline(e: (string, string))
    requires CleanEntry(e)
    ensures '\n' !in EntryLine(e)
  {
    IdentifierHasNoEquals(e.0);
    assert IsLineTerminator('\n');
    assert '\n' !in e.1;
  }

  function EntryLines(env: Env): (lines: seq<string>)
    ensures |lines| == |env|
  {
    seq(|env|, i requires 0 <= i < |env| => EntryLine(env[i]))
  }

  /** Lines that each parse to the next entry of an object with distinct keys parse to that object. */
  lemma {:induction false} ParseLinesOfEntries(env: Env, lines: seq<string>)
    requires |lines| == |env| && DistinctKeys(env)
    requires forall i :: 0 <= i < |lines| ==> ParseEnvLine(lines[i]) == Some(env[i])
    ensures ParseLines(lines) == env
  {
    if env != [] {
      var n := |env| - 1;
      EntriesPrefix(env, lines, env[..n], lines[..n]);
      ParseLinesOfEntries(env[..n], lines[..n]);
      ParseLinesLast(lines, env[n].0, env[n].1);
      NewLastKey(env);
      PutAppends(env[..n], env[n].0, env[n].1);
      SnocLast(env);
    }
  }

  lemma EntriesPrefix(env: Env, lines: seq<string>, init: Env, initLines: seq<string>)
    requires |lines| == |env| && env != [] && DistinctKeys(env)
    requires forall i :: 0 <= i < |lines| ==> ParseEnvLine(lines[i]) == Some(env[i])
    requires init == env[..|env| - 1] && initLines == lines[..|env| - 1]
    ensures |initLines| == |init| && DistinctKeys(init)
    ensures forall i :: 0 <= i < |initLines| ==> ParseEnvLine(initLines[i]) == Some(init[i])
    ensures ParseEnvLine(lines[|env| - 1]) == Some(env[|env| - 1])
  {
  }

  lemma ParseLinesLast(lines: seq<string>, k: string, v: string)
    requires lines != [] && ParseEnvLine(lines[|lines| - 1]) == Some((k, v))
    ensures ParseLines(lines) == Put(ParseLines(lines[..|lines| - 1]), k, v)
  {
  }

  lemma SnocLast(env: Env)
    requires env != []
    ensures env[..|env| - 1] + [env[|env| - 1]] == env
  {
  }

  lemma SerializablePrefix(env: Env)
    requires env != [] && Serializable(env)
    ensures Serializable(env[..|env| - 1])
  {
  }

  lemma NewLastKey(env: Env)
    requires env != [] && DistinctKeys(env)
    ensures env[|env| - 1].0 !in Keys(env[..|env| - 1])
  {
    var n := |env| - 1;
    KeysIndex(env[..n]);
  }

  lemma ParseEnvOfNewline()
    ensures ParseEnv("\n") == []
  {
    assert IndexOf("\n", '\n') == Some(0);
    assert Split("\n", '\n') == ["", ""];
    assert ParseEnvLine("") == None;
    assert ["", ""][..1] == [""];
    assert [""][..0] == [];
    assert ParseLines([""]) == [];
  }

  /** The final newline of a written file adds an empty last line, which is no entry. */
  lemma SplitWrittenFile(env: Env)
    requires Serializable(env) && env != []
    ensures Split(Serialize(env) + "\n", '\n') == EntryLines(env) + [""]
  {
    var lines := EntryLines(env);
    var parts := lines + [""];
    JoinSnoc(lines, "", '\n');
    assert Join(parts, '\n') == Serialize(env) + "\n";
    forall i | 0 <= i < |parts|
      ensures '\n' !in parts[i]
    {
      if i < |lines| {
        assert parts[i] == EntryLine(env[i]);
        EntryLineHasNoNewline(env[i]);
      }
    }
    SplitJoin(parts, '\n');
  }

  /** Writing an object and parsing the file back gives the same object, key order included. */
  lemma {:induction false} ParseSerialize(env: Env)
    requires Serializable(env)
    ensures ParseEnv(Serialize(env) + "\n") == env
  {
    if env == [] {
      assert Serialize(env) + "\n" == "\n";
      ParseEnvOfNewline();
    } else {
      var lines := EntryLines(env);
      SplitWrittenFile(env);
      assert (lines + [""])[..|lines|] == lines;
      assert ParseEnvLine("") == None;
      forall i | 0 <= i < |lines|
        ensures ParseEnvLine(lines[i]) == Some(env[i])
      {
        EntryLineRead(env[i]);
      }
      ParseLinesOfEntries(env, lines);
    }
  }
}
