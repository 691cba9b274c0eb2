/** The public-key cache (`getPublicKey`): one `{brand_id, public_key}` record in
    the option store, served while its brand matches and refetched from the
    API otherwise. */
module PublicKeys {
  import opened PhpValues
  import opened Platform
  import opened Config
  import ChipApi

  /** The outcome of one lookup: the key (`None` for null), the option store
      afterwards and whether the API was called. */
  datatype KeyLookup = KeyLookup(key: Option<Value>, options: Options, fetched: bool)

  /** `$stored[name]` as read by the cache check: null when absent. */
  function StoredField(stored: Value, name: string): Value {
    var e := Get(stored, StrKey(name));
    if e.Some? then e.value else Null
  }

  /** The cache-hit condition: a non-empty stored brand equal to the requested
      one, and a non-empty stored key. */
  predicate CacheHit(stored: Value, brandId: string) {
    && !Empty(StoredField(stored, "brand_id"))
    && StoredField(stored, "brand_id") == Str(brandId)
    && !Empty(StoredField(stored, "public_key"))
  }

  /** `str_replace('\n', "\n", $s)`: every backslash-n pair becomes a newline,
      scanning left to right. */
  function ReplaceEscapedNewlines(s: string): (r: string)
    ensures |r| <= |s|
    ensures |s| > 0 ==> |r| > 0 && (r[0] == s[0] || r[0] == '\n')
    decreases |s|
  {
    if |s| < 2 then s
    else if s[0] == '\\' && s[1] == 'n' then "\n" + ReplaceEscapedNewlines(s[2..])
    else [s[0]] + ReplaceEscapedNewlines(s[1..])
  }

  /** The inverse direction: every newline written back as a backslash-n pair. */
  function EscapeNewlines(s: string): (r: string)
    ensures '\n' !in s ==> r == s
    decreases |s|
  {
    if |s| == 0 then ""
    else (if s[0] == '\n' then "\\n" else [s[0]]) + EscapeNewlines(s[1..])
  }

  /** On text without real newlines, unescaping is undone by escaping: each
      backslash-n pair, and nothing else, became a newline. */
  lemma {:induction false} EscapeUndoesReplace(s: string)
    requires '\n' !in s
    ensures EscapeNewlines(ReplaceEscapedNewlines(s)) == s
    decreases |s|
  {
    if |s| >= 2 {
      if s[0] == '\\' && s[1] == 'n' {
        var t := ReplaceEscapedNewlines(s[2..]);
        EscapeUndoesReplace(s[2..]);
        assert ("\n" + t)[0] == '\n' && ("\n" + t)[1..] == t;
        assert s == "\\n" + s[2..];
      } else {
        var t := ReplaceEscapedNewlines(s[1..]);
        EscapeUndoesReplace(s[1..]);
        assert ([s[0]] + t)[0] == s[0] && ([s[0]] + t)[1..] == t;
        assert s == [s[0]] + s[1..];
      }
    }
  }

  predicate HasEscapedNewline(s: string) {
    exists j :: 0 <= j < |s| - 1 && s[j] == '\\' && s[j + 1] == 'n'
  }

  lemma {:induction false} ReplaceLeavesNoEscapes(s: string)
    ensures !HasEscapedNewline(ReplaceEscapedNewlines(s))
    decreases |s|
  {
    var r := ReplaceEscapedNewlines(s);
    if |s| < 2 {
    } else if s[0] == '\\' && s[1] == 'n' {
      var t := ReplaceEscapedNewlines(s[2..]);
      ReplaceLeavesNoEscapes(s[2..]);
      forall j | 0 <= j < |r| - 1
        ensures !(r[j] == '\\' && r[j + 1] == 'n')
      {
        if j > 0 {
          assert r[j] == t[j - 1] && r[j + 1] == t[j];
        }
      }
    } else {
      var t := ReplaceEscapedNewlines(s[1..]);
      ReplaceLeavesNoEscapes(s[1..]);
      forall j | 0 <= j < |r| - 1
        ensures !(r[j] == '\\' && r[j + 1] == 'n')
      {
        if j > 0 {
          assert r[j] == t[j - 1] && r[j + 1] == t[j];
        } else {
          assert r[1] == t[0];
        }
      }
    }
  }

  lemma {:induction false} ReplaceKeepsEscapeFreeText(s: string)
    requires !HasEscapedNewline(s)
    ensures ReplaceEscapedNewlines(s) == s
    decreases |s|
  {
    if |s| >= 2 {
      assert !(s[0] == '\\' && s[1] == 'n');
      assert !HasEscapedNewline(s[1..]) by {
        forall j | 0 <= j < |s[1..]| - 1
          ensures !(s[1..][j] == '\\' && s[1..][j + 1] == 'n')
        {
          assert s[1..][j] == s[j + 1] && s[1..][j + 1] == s[j + 2];
        }
      }
      ReplaceKeepsEscapeFreeText(s[1..]);
      assert s == [s[0]] + s[1..];
    }
  }

  /** Unescaping a stored key again changes nothing. */
  lemma ReplaceIsIdempotent(s: string)
    ensures ReplaceEscapedNewlines(ReplaceEscapedNewlines(s)) == ReplaceEscapedNewlines(s)
  {
    ReplaceLeavesNoEscapes(s);
    ReplaceKeepsEscapeFreeText(ReplaceEscapedNewlines(s));
  }

  /** Unescaping never turns a non-empty string into an empty one. */
  lemma {:induction false} ReplaceKeepsTruthiness(s: string)
    requires !EmptyString(s)
    ensures !EmptyString(ReplaceEscapedNewlines(s))
  {
  }

  /** `str_replace` applied to the decoded API response: scalars are turned
      into strings and unescaped; an array has each scalar element unescaped
      and its nested arrays kept as they are. */
  function ReplaceInScalar(v: Value): (r: string)
    requires !v.Arr?
  {
    match v
    case Null => ""
    case Bool(b) => if b then "1" else ""
    case Int(i) => ReplaceEscapedNewlines(IntToString(i))
    case Str(s) => ReplaceEscapedNewlines(s)
  }

  function ReplaceInValue(v: Value): (r: Value)
    ensures v.Arr? ==> r.Arr? && |r.entries| == |v.entries|
    ensures !v.Arr? ==> r.Str?
  {
    match v
    case Arr(es) =>
      Arr(seq(|es|, j requires 0 <= j < |es| =>
        if es[j].1.Arr? then es[j] else (es[j].0, Str(ReplaceInScalar(es[j].1)))))
    case _ => Str(ReplaceInScalar(v))
  }

  lemma NonZeroIntText(i: int)
    requires i != 0
    ensures !EmptyString(IntToString(i))
  {
    if i > 0 {
      NatToStringRoundTrip(i);
      assert DigitsValue("0") == 0;
    }
  }

  /** A truthy response stays truthy once unescaped. */
  lemma ReplaceInValueKeepsTruthiness(v: Value)
    requires !Empty(v)
    ensures !Empty(ReplaceInValue(v))
  {
    match v
    case Str(s) => ReplaceKeepsTruthiness(s);
    case Int(i) => NonZeroIntText(i); ReplaceKeepsTruthiness(IntToString(i));
    case _ =>
  }

  /** The record `getPublicKey` stores. */
  function CacheRecord(brandId: string, key: Value): Value {
    Assoc([("brand_id", Str(brandId)), ("public_key", key)])
  }

  /** `getPublicKey($brand_id)`. */
  function GetPublicKey(options: Options, settings: Settings, brandId: string, env: Env): (r: KeyLookup)
    // A hit returns the stored key and touches nothing.
    ensures CacheHit(GetOption(options, PublicKeyOption, Arr([])), brandId) ==>
              r.key == Some(StoredField(GetOption(options, PublicKeyOption, Arr([])), "public_key"))
              && r.options == options && !r.fetched
    // Without a secret key nothing is fetched and null is returned.
    ensures !CacheHit(GetOption(options, PublicKeyOption, Arr([])), brandId) && EmptyString(settings.secretKey) ==>
              r == KeyLookup(None, options, false)
    // A miss with a secret key fetches: an empty answer gives null, any other
    // is returned unescaped.
    ensures !CacheHit(GetOption(options, PublicKeyOption, Arr([])), brandId) && !EmptyString(settings.secretKey) ==>
              && r.fetched
              && var answer := ChipApi.PublicKey(ApiClient(settings, brandId), env).result;
                 r.key == (if answer.None? || Empty(answer.value) then None else Some(ReplaceInValue(answer.value)))
    // A fetched, non-empty key is unescaped and recorded for this brand.
    ensures r.fetched && r.key.Some? ==>
              !Empty(r.key.value) && r.options == options[PublicKeyOption := CacheRecord(brandId, r.key.value)]
    // Otherwise the store is left alone.
    ensures !(r.fetched && r.key.Some?) ==> r.options == options
  {
    var stored := GetOption(options, PublicKeyOption, Arr([]));
    if CacheHit(stored, brandId) then KeyLookup(Some(StoredField(stored, "public_key")), options, false)
    else if EmptyString(settings.secretKey) then KeyLookup(None, options, false)
    else
      var reply := ChipApi.PublicKey(ApiClient(settings, brandId), env);
      if reply.result.None? || Empty(reply.result.value) then KeyLookup(None, options, true)
      else
        var key := ReplaceInValue(reply.result.value);
        ReplaceInValueKeepsTruthiness(reply.result.value);
        var record := CacheRecord(brandId, key);
        KeyLookup(Some(key), options[PublicKeyOption := record], true)
  }

  /** After a successful fetch for a non-empty brand, the next lookup for the
      same brand is a hit that returns the same key without calling the API,
      whatever the settings and the network do then. */
  lemma FetchedKeyIsServedFromCache(options: Options, settings: Settings, brandId: string, env: Env,
                                    settings': Settings, env': Env)
    requires !EmptyString(brandId)
    requires GetPublicKey(options, settings, brandId, env).fetched
    requires GetPublicKey(options, settings, brandId, env).key.Some?
    ensures var first := GetPublicKey(options, settings, brandId, env);
            GetPublicKey(first.options, settings', brandId, env') == KeyLookup(first.key, first.options, false)
  {
    var first := GetPublicKey(options, settings, brandId, env);
    var record := CacheRecord(brandId, first.key.value);
    assert first.options == options[PublicKeyOption := record];
    assert StoredField(record, "brand_id") == Str(brandId);
    assert record.entries[0].0 != StrKey("public_key");
    assert KeyIndex(record.entries, StrKey("public_key")) == Some(1);
    assert StoredField(record, "public_key") == first.key.value;
    assert GetOption(first.options, PublicKeyOption, Arr([])) == record;
  }
}
