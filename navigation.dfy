/**
 * `safe_get(data, *keys, default=None)`: follow a path of keys through nested
 * dicts, giving `default` as soon as the current value is not a dict.
 */
module Navigation {
  import opened Wrappers
  import opened JsonValues

  /**
   * What `safe_get` gives. A missing key does not stop the walk: the walk goes
   * on from `default`, so a dict `default` is itself navigated further.
   */
  function SafeGetOf(data: Json, keys: seq<string>, default: Json): Json
    decreases |keys|
  {
    if keys == [] then data
    else if data.JObj? then SafeGetOf(Get(data.fields, keys[0], default), keys[1..], default)
    else default
  }

  /** The loop of the source: one key at a time, leaving early at a non-dict. */
  method SafeGet(data: Json, keys: seq<string>, default: Json) returns (r: Json)
    ensures r == SafeGetOf(data, keys, default)
  {
    r := data;
    var i := 0;
    while i < |keys|
      invariant 0 <= i <= |keys|
      invariant SafeGetOf(data, keys, default) == SafeGetOf(r, keys[i..], default)
    {
      assert keys[i..][1..] == keys[i + 1..];
      if r.JObj? {
        r := Get(r.fields, keys[i], default);
      } else {
        return default;
      }
      i := i + 1;
    }
    assert keys[i..] == [];
  }

  /** The value at the end of a path whose every key is present, or None. */
  function Nested(data: Json, keys: seq<string>): Option<Json>
    decreases |keys|
  {
    if keys == [] then Some(data)
    else if data.JObj? && Has(data.fields, keys[0]) then
      Nested(Lookup(data.fields, keys[0]).value, keys[1..])
    else None
  }

  /** A non-dict with keys still to follow gives `default`, whatever the keys. */
  lemma SafeGetNotDict(data: Json, keys: seq<string>, default: Json)
    requires keys != [] && !data.JObj?
    ensures SafeGetOf(data, keys, default) == default
  {
  }

  /** A path that exists leads to its value, whatever `default` is. */
  lemma {:induction false} SafeGetFollowsPath(data: Json, keys: seq<string>, default: Json)
    requires Nested(data, keys).Some?
    ensures SafeGetOf(data, keys, default) == Nested(data, keys).value
    decreases |keys|
  {
    if keys != [] {
      SafeGetFollowsPath(Lookup(data.fields, keys[0]).value, keys[1..], default);
    }
  }

  /** A missing key hands the rest of the path to `default`. */
  lemma SafeGetMissingKey(data: Json, keys: seq<string>, default: Json)
    requires keys != [] && data.JObj? && !Has(data.fields, keys[0])
    ensures SafeGetOf(data, keys, default) == SafeGetOf(default, keys[1..], default)
  {
  }

  /** Following `a` then `b` is following `a + b`, as long as `a` ends on a dict or `b` is empty. */
  lemma {:induction false} SafeGetAppend(data: Json, a: seq<string>, b: seq<string>, default: Json)
    requires Nested(data, a).Some?
    ensures SafeGetOf(data, a + b, default) == SafeGetOf(Nested(data, a).value, b, default)
    decreases |a|
  {
    if a != [] {
      assert (a + b)[0] == a[0] && (a + b)[1..] == a[1..] + b;
      SafeGetAppend(Lookup(data.fields, a[0]).value, a[1..], b, default);
    } else {
      assert a + b == b;
    }
  }
}
