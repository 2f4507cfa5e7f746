/**
 * The `.env` file format of src/inkycal/provisioning.py: `_load_env` reads
 * `KEY=value` lines, `_update_env` writes `KEY="value"` lines in key order.
 * This module holds the line parser, the writer and their round trip; the
 * file itself belongs to `Provisioning.ProvisioningService`.
 */
module EnvFile {
  import opened Wrappers
  import opened Text

  // ---------------------------------------------------------------- reading

  function TrimLeftQuotes(s: string): (r: string)
    ensures |r| <= |s|
    ensures r == [] || r[0] != '"'
  {
    if s != [] && s[0] == '"' then TrimLeftQuotes(s[1..]) else s
  }

  function TrimRightQuotes(s: string): (r: string)
    ensures |r| <= |s| && r == s[..|r|]
    ensures r == [] || r[|r| - 1] != '"'
  {
    if s != [] && s[|s| - 1] == '"' then TrimRightQuotes(s[..|s| - 1]) else s
  }

  /** `s.strip('"')`: every leading and trailing double quote goes. */
  function StripQuotes(s: string): (r: string)
    ensures r == [] || (r[0] != '"' && r[|r| - 1] != '"')
  {
    var t := TrimLeftQuotes(s);
    var r := TrimRightQuotes(t);
    assert r != [] ==> r[0] == t[0];
    r
  }

  lemma {:induction false} StripQuotesChars(s: string)
    ensures forall c :: c in StripQuotes(s) ==> c in s
  {
    TrimLeftQuotesChars(s);
  }

  lemma {:induction false} TrimLeftQuotesChars(s: string)
    ensures forall c :: c in TrimLeftQuotes(s) ==> c in s
  {
    if s != [] && s[0] == '"' {
      TrimLeftQuotesChars(s[1..]);
    }
  }

  /** One line of the file: `None` for a blank line, a `#` comment or a line without `=`. */
  function ParseEnvLine(raw: string): Option<(string, string)> {
    var line := Strip(raw);
    if line == "" || StartsWith(line, "#") || '=' !in line then None
    else
      var i := FindChar(line, '=');
      Some((Strip(line[..i]), StripQuotes(Strip(line[i + 1..]))))
  }

  /** Every line parsed on its own. */
  function ParseLines(lines: seq<string>): (entries: seq<Option<(string, string)>>)
    ensures |entries| == |lines|
    ensures forall i :: 0 <= i < |lines| ==> entries[i] == ParseEnvLine(lines[i])
  {
    seq(|lines|, i requires 0 <= i < |lines| => ParseEnvLine(lines[i]))
  }

  /** The map built entry by entry; a later entry for a key replaces an earlier one. */
  function Collect(entries: seq<Option<(string, string)>>): map<string, string>
    decreases |entries|
  {
    if entries == [] then map[]
    else
      var m := Collect(entries[..|entries| - 1]);
      match entries[|entries| - 1]
      case None => m
      case Some(kv) => m[kv.0 := kv.1]
  }

  /** Reading one more line updates the map with that line's entry, if it has one. */
  lemma CollectParseStep(lines: seq<string>, i: nat)
    requires i < |lines|
    ensures ParseEnvLine(lines[i]).None? ==> Collect(ParseLines(lines[..i + 1])) == Collect(ParseLines(lines[..i]))
    ensures ParseEnvLine(lines[i]).Some? ==>
      var kv := ParseEnvLine(lines[i]).value;
      Collect(ParseLines(lines[..i + 1])) == Collect(ParseLines(lines[..i]))[kv.0 := kv.1]
  {
    var entries := ParseLines(lines[..i + 1]);
    assert entries[..i] == ParseLines(lines[..i]);
    assert entries[i] == ParseEnvLine(lines[i]);
  }

  /** `_load_env` on the file contents; `None` is a file that does not exist. */
  function LoadEnvText(content: Option<string>): map<string, string> {
    match content
    case None => map[]
    case Some(text) => Collect(ParseLines(SplitLines(text)))
  }

  /**
   * A key is present exactly when some line defines it, and its value comes
   * from the last line that defines it.
   */
  lemma {:induction false} CollectLookup(entries: seq<Option<(string, string)>>, k: string)
    ensures k in Collect(entries) <==> exists i :: 0 <= i < |entries| && Defines(entries[i], k)
    ensures k in Collect(entries) ==>
      exists i :: 0 <= i < |entries| && entries[i] == Some((k, Collect(entries)[k]))
        && forall j :: i < j < |entries| ==> !Defines(entries[j], k)
    decreases |entries|
  {
    if entries != [] {
      var n := |entries| - 1;
      var init := entries[..n];
      CollectLookup(init, k);
      assert forall j :: 0 <= j < n ==> entries[j] == init[j];
      if Defines(entries[n], k) {
        assert Collect(entries) == Collect(init)[k := entries[n].value.1];
        assert entries[n] == Some((k, Collect(entries)[k]));
      } else {
        CollectOther(entries, k);
        if k in Collect(entries) {
          var i :| 0 <= i < n && init[i] == Some((k, Collect(init)[k]))
                   && forall j :: i < j < n ==> !Defines(init[j], k);
          assert entries[i] == Some((k, Collect(entries)[k]));
        }
      }
    }
  }

  /** The entry defines key `k`. */
  predicate Defines(entry: Option<(string, string)>, k: string) {
    entry.Some? && entry.value.0 == k
  }

  /** A last entry that does not define `k` leaves `k` as the earlier entries had it. */
  lemma CollectOther(entries: seq<Option<(string, string)>>, k: string)
    requires entries != [] && !Defines(entries[|entries| - 1], k)
    ensures var init := Collect(entries[..|entries| - 1]);
      && (k in Collect(entries) <==> k in init)
      && (k in init ==> Collect(entries)[k] == init[k])
  {
  }

  // ---------------------------------------------------------------- writing

  /** `f'{key}="{value}"'`. */
  function EnvLine(k: string, v: string): string {
    k + "=\"" + v + "\""
  }

  predicate IsLeastKey(k: string, keys: set<string>) {
    k in keys && forall j :: j in keys ==> StrLe(k, j)
  }

  lemma {:induction false} LeastKeyExists(keys: set<string>)
    requires keys != {}
    ensures exists k :: IsLeastKey(k, keys)
    decreases keys
  {
    var x :| x in keys;
    var rest := keys - {x};
    if rest == {} {
      assert keys == {x};
      assert IsLeastKey(x, keys) by { StrLeTotal(x, x); }
    } else {
      LeastKeyExists(rest);
      var m :| IsLeastKey(m, rest);
      StrLeTotal(x, m);
      if StrLe(x, m) {
        forall j | j in keys ensures StrLe(x, j) {
          if j == x {
            StrLeTotal(x, x);
          } else {
            StrLeTransitive(x, m, j);
          }
        }
        assert IsLeastKey(x, keys);
      } else {
        assert IsLeastKey(m, keys);
      }
    }
  }

  lemma LeastKeyUnique(keys: set<string>)
    ensures forall a, b :: IsLeastKey(a, keys) && IsLeastKey(b, keys) ==> a == b
  {
    forall a, b | IsLeastKey(a, keys) && IsLeastKey(b, keys) ensures a == b {
      StrLeAntisymmetric(a, b);
    }
  }

  /** The keys in Python's string order, each once. */
  function SortedKeys(keys: set<string>): (r: seq<string>)
    ensures forall k :: k in r <==> k in keys
    ensures |r| == |keys|
    ensures forall i, j :: 0 <= i < j < |r| ==> StrLe(r[i], r[j]) && r[i] != r[j]
    decreases keys
  {
    if keys == {} then []
    else
      LeastKeyExists(keys);
      LeastKeyUnique(keys);
      var k :| IsLeastKey(k, keys);
      var rest := SortedKeys(keys - {k});
      assert forall j :: 0 < j < |[k] + rest| ==> ([k] + rest)[j] == rest[j - 1] && rest[j - 1] in keys;
      [k] + rest
  }

  /** The `key="value"` lines for the keys `ks`, in that order. */
  function RenderLines(ks: seq<string>, env: map<string, string>): (lines: seq<string>)
    requires forall k :: k in ks ==> k in env
    ensures |lines| == |ks|
    ensures forall i :: 0 <= i < |ks| ==> lines[i] == EnvLine(ks[i], env[ks[i]])
  {
    seq(|ks|, i requires 0 <= i < |ks| => EnvLine(ks[i], env[ks[i]]))
  }

  /** What `_update_env` writes for the merged map: one line per key in key order, newline-terminated. */
  function RenderEnv(env: map<string, string>): string {
    var ks := SortedKeys(env.Keys);
    JoinOn(RenderLines(ks, env), '\n') + "\n"
  }

  // ---------------------------------------------------------------- round trip

  /** Keys that survive a write and a read: one line, no `=`, no edge whitespace, no leading `#`. */
  predicate SafeKey(k: string) {
    && HasNoLineBreak(k)
    && '=' !in k
    && (k == [] || (!IsSpace(k[0]) && !IsSpace(k[|k| - 1]) && k[0] != '#'))
  }

  /** Values that survive a write and a read: one line, no double quote at either end. */
  predicate SafeValue(v: string) {
    HasNoLineBreak(v) && (v == [] || (v[0] != '"' && v[|v| - 1] != '"'))
  }

  predicate SafeEnv(env: map<string, string>) {
    forall k :: k in env ==> SafeKey(k) && SafeValue(env[k])
  }

  lemma StripQuotesOfQuoted(v: string)
    requires v == [] || (v[0] != '"' && v[|v| - 1] != '"')
    ensures StripQuotes("\"" + v + "\"") == v
  {
    var q := "\"" + v + "\"";
    assert q[1..] == v + "\"";
    if v == [] {
      assert TrimLeftQuotes(q) == TrimLeftQuotes("\"") == TrimLeftQuotes("") == "";
    } else {
      assert TrimLeftQuotes(q) == v + "\"";
      assert (v + "\"")[..|v|] == v;
      assert TrimRightQuotes(v + "\"") == TrimRightQuotes(v) == v;
    }
  }

  /** A written line is already stripped, is no comment, and holds `=` first right after the key. */
  lemma EnvLineShape(k: string, v: string)
    requires SafeKey(k) && SafeValue(v)
    ensures var line := EnvLine(k, v);
      && Strip(line) == line && line != "" && !StartsWith(line, "#") && '=' in line
      && FindChar(line, '=') == |k|
      && line[..|k|] == k && line[|k| + 1..] == "\"" + v + "\""
  {
    var rest := "\"" + v + "\"";
    var line := EnvLine(k, v);
    assert line == k + ['='] + rest;
    assert line[0] == (if k == [] then '=' else k[0]);
    StripOfTrimmed(line);
    FindCharAfter(k, '=', rest);
    assert line[|k|] == '=';
    assert line[..|k|] == k;
    assert line[|k| + 1..] == rest;
    assert line[..1] != "#";
  }

  /** A written line reads back as the entry it was written from. */
  lemma ParseEnvLineOfEnvLine(k: string, v: string)
    requires SafeKey(k) && SafeValue(v)
    ensures ParseEnvLine(EnvLine(k, v)) == Some((k, v))
  {
    EnvLineShape(k, v);
    StripOfTrimmed(k);
    StripOfTrimmed("\"" + v + "\"");
    StripQuotesOfQuoted(v);
  }

  lemma EnvLineHasNoLineBreak(k: string, v: string)
    requires SafeKey(k) && SafeValue(v)
    ensures HasNoLineBreak(EnvLine(k, v))
  {
    var line := EnvLine(k, v);
    forall i | 0 <= i < |line| ensures !IsLineBreak(line[i]) {
      if i < |k| {
        assert line[i] == k[i];
      } else if |k| + 2 <= i < |k| + 2 + |v| {
        assert line[i] == v[i - |k| - 2];
      }
    }
  }

  /** The entries the lines for keys `ks` stand for. */
  function Entries(ks: seq<string>, env: map<string, string>): (entries: seq<Option<(string, string)>>)
    requires forall k :: k in ks ==> k in env
    ensures |entries| == |ks|
    ensures forall i :: 0 <= i < |ks| ==> entries[i] == Some((ks[i], env[ks[i]]))
  {
    seq(|ks|, i requires 0 <= i < |ks| => Some((ks[i], env[ks[i]])))
  }

  lemma ParseRenderedLines(ks: seq<string>, env: map<string, string>)
    requires forall k :: k in ks ==> k in env
    requires SafeEnv(env)
    ensures ParseLines(RenderLines(ks, env)) == Entries(ks, env)
  {
    forall i | 0 <= i < |ks| ensures ParseEnvLine(RenderLines(ks, env)[i]) == Some((ks[i], env[ks[i]])) {
      ParseEnvLineOfEnvLine(ks[i], env[ks[i]]);
    }
  }

  lemma {:induction false} CollectEntries(ks: seq<string>, env: map<string, string>)
    requires forall k :: k in ks ==> k in env
    ensures Collect(Entries(ks, env)) == map k | k in ks :: env[k]
    decreases |ks|
  {
    if ks != [] {
      var n := |ks| - 1;
      assert Entries(ks, env)[..n] == Entries(ks[..n], env);
      CollectEntries(ks[..n], env);
      assert forall k :: k in ks <==> k in ks[..n] || k == ks[n];
    }
  }

  /** The empty map is written as a single newline, which reads back as nothing. */
  lemma LoadRenderEmpty()
    ensures LoadEnvText(Some(RenderEnv(map[]))) == map[]
  {
    assert SortedKeys({}) == [];
    assert RenderEnv(map[]) == "\n";
    assert SplitLines("\n") == [""] + SplitLines("");
  }

  /** A safe map survives `RenderEnv` followed by a read. */
  lemma LoadRenderEnv(env: map<string, string>)
    requires SafeEnv(env)
    ensures LoadEnvText(Some(RenderEnv(env))) == env
  {
    var ks := SortedKeys(env.Keys);
    if ks == [] {
      assert env == map[];
      LoadRenderEmpty();
    } else {
      LoadRenderNonEmpty(env, ks);
    }
  }

  lemma LoadRenderNonEmpty(env: map<string, string>, ks: seq<string>)
    requires SafeEnv(env)
    requires ks == SortedKeys(env.Keys) && ks != []
    ensures LoadEnvText(Some(RenderEnv(env))) == env
  {
    var lines := RenderLines(ks, env);
    forall i | 0 <= i < |lines| ensures HasNoLineBreak(lines[i]) {
      EnvLineHasNoLineBreak(ks[i], env[ks[i]]);
    }
    SplitLinesOfJoined(lines);
    ParseRenderedLines(ks, env);
    CollectEntries(ks, env);
  }

  /** Whatever a file holds, every entry read from one of its lines is safe. */
  lemma ParseEnvLineSafe(raw: string)
    requires HasNoLineBreak(raw)
    ensures ParseEnvLine(raw).Some? ==> SafeKey(ParseEnvLine(raw).value.0) && SafeValue(ParseEnvLine(raw).value.1)
  {
    var line := Strip(raw);
    if line != "" && !StartsWith(line, "#") && '=' in line {
      var i := FindChar(line, '=');
      StripChars(raw);
      assert forall c :: c in raw ==> !IsLineBreak(c);
      KeyIsSafe(line, i);
      StripChars(line[i + 1..]);
      StripQuotesChars(Strip(line[i + 1..]));
      assert forall c :: c in raw ==> !IsLineBreak(c);
      assert forall c :: c in line[i + 1..] ==> c in line;
    }
  }

  lemma KeyIsSafe(line: string, i: nat)
    requires line != [] && !IsSpace(line[0]) && !StartsWith(line, "#")
    requires i <= |line| && forall j :: 0 <= j < i ==> line[j] != '='
    requires HasNoLineBreak(line)
    ensures SafeKey(Strip(line[..i]))
  {
    var k := Strip(line[..i]);
    StripChars(line[..i]);
    assert forall c :: c in line[..i] ==> !IsLineBreak(c) && c != '=';
    if k != [] {
      assert line[..i][0] == line[0];
      TrimRightKeepsFirst(line[..i]);
      assert line[..1] != "#";
    }
  }

  lemma {:induction false} CollectSafe(entries: seq<Option<(string, string)>>)
    requires forall i :: 0 <= i < |entries| && entries[i].Some? ==>
      SafeKey(entries[i].value.0) && SafeValue(entries[i].value.1)
    ensures SafeEnv(Collect(entries))
    decreases |entries|
  {
    if entries != [] {
      CollectSafe(entries[..|entries| - 1]);
    }
  }

  /**
   * The round trip of `_update_env`: reading the file it writes gives the old
   * map updated with `updates`, whenever the updates are safe (what was read
   * before always is).
   */
  lemma UpdateEnvRoundTrip(content: Option<string>, updates: map<string, string>)
    requires SafeEnv(updates)
    ensures LoadEnvText(Some(RenderEnv(LoadEnvText(content) + updates))) == LoadEnvText(content) + updates
  {
    if content.Some? {
      var lines := SplitLines(content.value);
      forall i | 0 <= i < |lines| ensures ParseEnvLine(lines[i]).Some? ==>
        SafeKey(ParseEnvLine(lines[i]).value.0) && SafeValue(ParseEnvLine(lines[i]).value.1) {
        ParseEnvLineSafe(lines[i]);
      }
      CollectSafe(ParseLines(lines));
    }
    LoadRenderEnv(LoadEnvText(content) + updates);
  }
}
