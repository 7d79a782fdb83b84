/** The configuration tree's dotted-path lookup and the check that every
    required key is present.  The tree is the parsed YAML document, a nested
    `Value`; reading and parsing the file is outside the model. */
module ConfigLoader {
  import opened PyValues

  /** `s.split(sep)`: the pieces between separators, empty ones included. */
  function Split(s: string, sep: char): (r: seq<string>)
    ensures |r| >= 1
    ensures forall i :: 0 <= i < |r| ==> sep !in r[i]
  {
    if s == [] then [""]
    else if s[0] == sep then [""] + Split(s[1..], sep)
    else
      var rest := Split(s[1..], sep);
      [[s[0]] + rest[0]] + rest[1..]
  }

  /** `sep.join(parts)`. */
  function Join(parts: seq<string>, sep: char): string
  {
    if parts == [] then ""
    else if |parts| == 1 then parts[0]
    else parts[0] + [sep] + Join(parts[1..], sep)
  }

  /** Splitting loses nothing: joining the pieces again gives the text back. */
  lemma {:induction false} JoinSplit(s: string, sep: char)
    ensures Join(Split(s, sep), sep) == s
  {
    if s != [] {
      JoinSplit(s[1..], sep);
      var rest := Split(s[1..], sep);
      if s[0] == sep {
        assert Split(s, sep)[1..] == rest;
      } else {
        var r := Split(s, sep);
        assert r[1..] == rest[1..];
        if |rest| == 1 {
          assert Join(r, sep) == [s[0]] + rest[0];
        } else {
          assert Join(rest, sep) == rest[0] + [sep] + Join(rest[1..], sep);
          assert Join(r, sep) == [s[0]] + rest[0] + [sep] + Join(rest[1..], sep);
        }
        assert [s[0]] + s[1..] == s;
      }
    }
  }

  /** A first segment without a separator splits off on its own. */
  lemma {:induction false} SplitFirst(head: string, rest: string, sep: char)
    requires sep !in head
    ensures Split(head + [sep] + rest, sep) == [head] + Split(rest, sep)
  {
    if head == [] {
      assert head + [sep] + rest == [sep] + rest;
      assert ([sep] + rest)[1..] == rest;
    } else {
      assert (head + [sep] + rest)[1..] == head[1..] + [sep] + rest;
      assert head[0] != sep;
      SplitFirst(head[1..], rest, sep);
      assert [head[0]] + head[1..] == head;
    }
  }

  /** The value at the end of `path`, if every segment's parent is a dict that
      holds the segment. */
  function Lookup(current: Value, path: seq<string>): Option<Value>
  {
    if path == [] then Some(current)
    else if !current.Dict? || path[0] !in current.fields then None
    else Lookup(current.fields[path[0]], path[1..])
  }

  /** A path resolves in two steps: its first part, then the rest from
      there. */
  lemma {:induction false} LookupAppend(current: Value, p: seq<string>, q: seq<string>)
    ensures Lookup(current, p + q) ==
      if Lookup(current, p).Some? then Lookup(Lookup(current, p).value, q) else None
  {
    if p == [] {
      assert p + q == q;
    } else {
      assert p + q != [];
      assert (p + q)[0] == p[0];
      assert (p + q)[1..] == p[1..] + q;
      if current.Dict? && p[0] in current.fields {
        LookupAppend(current.fields[p[0]], p[1..], q);
      }
    }
  }

  /** A lookup stops at the first parent that is not a dict or lacks the
      segment, whatever follows. */
  lemma LookupStops(cfg: Value, p: seq<string>, k: string, q: seq<string>)
    requires Lookup(cfg, p).Some?
    requires !Lookup(cfg, p).value.Dict? || k !in Lookup(cfg, p).value.fields
    ensures Lookup(cfg, p + [k] + q) == None
  {
    LookupAppend(cfg, p, [k] + q);
    assert p + [k] + q == p + ([k] + q);
  }

  /** `cfg_get`'s answer: the nested value, or the default. */
  function Resolve(cfg: Value, dottedKey: string, default: Value): Value
  {
    var found := Lookup(cfg, Split(dottedKey, '.'));
    if found.Some? then found.value else default
  }

  /** `cfg_get`: walks the dotted path one segment at a time. */
  method CfgGet(cfg: Value, dottedKey: string, default: Value) returns (r: Value)
    ensures r == Resolve(cfg, dottedKey, default)
  {
    var parts := Split(dottedKey, '.');
    var current := cfg;
    var i := 0;
    while i < |parts|
      invariant 0 <= i <= |parts|
      invariant Lookup(cfg, parts) == Lookup(current, parts[i..])
    {
      var p := parts[i];
      if !current.Dict? || p !in current.fields {
        return default;
      }
      assert parts[i..][1..] == parts[i + 1..];
      current := current.fields[p];
      i := i + 1;
    }
    return current;
  }

  /** "a.rest" resolves as "rest" inside the value stored under "a". */
  lemma CfgGetNested(cfg: Value, a: string, rest: string, default: Value)
    requires '.' !in a
    ensures Resolve(cfg, a + "." + rest, default) ==
      if cfg.Dict? && a in cfg.fields then Resolve(cfg.fields[a], rest, default) else default
  {
    SplitFirst(a, rest, '.');
  }

  const REQUIRED_KEYS: seq<string> := [
    "project.name",
    "project.version",
    "weex.base_url",
    "weex.symbol",
    "weex.leverage",
    "bot.loop_seconds",
    "risk_engine.limits.max_risk_per_trade",
    "risk_engine.limits.max_position_size",
    "risk_engine.limits.max_daily_drawdown",
    "ai_log.enabled",
    "backup.enabled",
    "backup.folder"]

  /** A required key counts as missing when it resolves to None, whether it is
      absent or present with a null value. */
  predicate IsMissing(cfg: Value, key: string)
  {
    Resolve(cfg, key, Null) == Null
  }

  /** The missing keys among `keys`, in their order. */
  function MissingKeys(cfg: Value, keys: seq<string>): seq<string>
  {
    if keys == [] then []
    else MissingKeys(cfg, keys[..|keys| - 1]) + (if IsMissing(cfg, keys[|keys| - 1]) then [keys[|keys| - 1]] else [])
  }

  /** A key is reported exactly when it is required and missing. */
  lemma {:induction false} MissingKeysMembers(cfg: Value, keys: seq<string>, k: string)
    ensures k in MissingKeys(cfg, keys) <==> k in keys && IsMissing(cfg, k)
  {
    if keys != [] {
      var init := keys[..|keys| - 1];
      MissingKeysMembers(cfg, init, k);
      assert keys == init + [keys[|keys| - 1]];
    }
  }

  /** Reporting keeps the order of the required keys: the report for a list
      is the report for its first part followed by the report for the rest. */
  lemma {:induction false} MissingKeysAppend(cfg: Value, a: seq<string>, b: seq<string>)
    ensures MissingKeys(cfg, a + b) == MissingKeys(cfg, a) + MissingKeys(cfg, b)
  {
    if b == [] {
      assert a + b == a;
    } else {
      var init := b[..|b| - 1];
      assert a + b != [];
      assert (a + b)[..|a + b| - 1] == a + init;
      assert (a + b)[|a + b| - 1] == b[|b| - 1];
      MissingKeysAppend(cfg, a, init);
    }
  }

  /** "\n".join(f" - {m}" for m in missing). */
  function Bullets(missing: seq<string>): string
  {
    if missing == [] then ""
    else if |missing| == 1 then " - " + missing[0]
    else " - " + missing[0] + "\n" + Bullets(missing[1..])
  }

  function MissingMessage(missing: seq<string>): string
  {
    "Missing required config keys:\n" + Bullets(missing)
  }

  /** The loop of `validate_config`: collects the missing keys among
      `requiredKeys`, in order, and raises a ConfigError naming them when
      there is any. */
  method CheckRequired(cfg: Value, requiredKeys: seq<string>) returns (r: Result<()>)
    ensures r.Raise? <==> exists k :: k in requiredKeys && IsMissing(cfg, k)
    ensures r.Raise? ==> r.error == MissingMessage(MissingKeys(cfg, requiredKeys))
  {
    var missing: seq<string> := [];
    var i := 0;
    while i < |requiredKeys|
      invariant 0 <= i <= |requiredKeys|
      invariant missing == MissingKeys(cfg, requiredKeys[..i])
    {
      var k := requiredKeys[i];
      var v := CfgGet(cfg, k, Null);
      assert requiredKeys[..i + 1][..i] == requiredKeys[..i];
      if v == Null {
        missing := missing + [k];
      }
      i := i + 1;
    }
    assert requiredKeys[..i] == requiredKeys;
    if missing != [] {
      assert missing[0] in MissingKeys(cfg, requiredKeys);
      MissingKeysMembers(cfg, requiredKeys, missing[0]);
      return Raise(MissingMessage(missing));
    }
    forall k | k in requiredKeys
      ensures !IsMissing(cfg, k)
    {
      MissingKeysMembers(cfg, requiredKeys, k);
    }
    return Ok(());
  }

  /** `validate_config`: checks the twelve required keys. */
  method ValidateConfig(cfg: Value) returns (r: Result<()>)
    ensures r.Raise? <==> exists k :: k in REQUIRED_KEYS && IsMissing(cfg, k)
    ensures r.Raise? ==> r.error == MissingMessage(MissingKeys(cfg, REQUIRED_KEYS))
  {
    r := CheckRequired(cfg, REQUIRED_KEYS);
  }
}
