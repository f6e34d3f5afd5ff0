/** The JavaScript twin of the secrets wrapper (scripts/aws-secrets-manager.js). It keeps
    the same cache shape and the same mapping table as the Python wrapper, but follows
    JavaScript's rules: truthiness instead of key presence, `typeof null === 'object'`,
    `undefined` for a missing field, and a clock in milliseconds. */
module JsSecrets {
  import opened Wrappers
  import opened Text
  import opened Json
  import Assoc
  import PySecrets

  /** A JavaScript result: `undefined`, or a parsed JSON value. */
  datatype JsValue = Undefined | Defined(json: Json)

  /** `this.cacheTTL`: one hour in milliseconds. */
  const CacheTtlMs: int := 3600000

  datatype CacheEntry = CacheEntry(value: JsValue, expiry: int)

  /** What one remote fetch yields. An empty or absent `SecretString` is refused as a
      binary secret; text that is not JSON is kept raw; with a non-empty key, any value of
      `typeof 'object'` is indexed by it, and indexing `null` throws. */
  function Fetch(store: PySecrets.Store, parse: Parser, name: string, key: Option<string>)
    : Result<JsValue>
  {
    match store(name)
    case Raised(message) => Failure(message)
    case Response(None) => Failure("Binary secrets not supported")
    case Response(Some(text)) =>
      if text == "" then Failure("Binary secrets not supported")
      else
        var secret := parse(text).GetOr(JStr(text));
        if key.Some? && key.value != "" && JsTypeofObject(secret) then
          match JsGet(secret, key.value)
          case Failure(e) => Failure(e)
          case Success(None) => Success(Undefined)
          case Success(Some(v)) => Success(Defined(v))
        else
          Success(Defined(secret))
  }

  /** `SecureSecretsManager` (JavaScript). */
  class SecretsManager {
    var cache: map<string, CacheEntry>
    /** SecretIds sent to the remote store, oldest first. */
    var requests: seq<string>

    constructor ()
      ensures cache == map[] && requests == []
    {
      cache := map[];
      requests := [];
    }

    /** `getSecret`: a live entry answers without contacting the store; otherwise one
        request is sent, a success is cached until `now + cacheTTL`, and a failure is
        rethrown with the table unchanged. */
    method GetSecret(store: PySecrets.Store, parse: Parser, now: int, name: string,
                     key: Option<string>)
      returns (r: Result<JsValue>)
      modifies this
      ensures var k := PySecrets.CacheKey(name, key);
        if k in old(cache) && old(cache)[k].expiry > now then
          && r == Success(old(cache)[k].value)
          && cache == old(cache)
          && requests == old(requests)
        else
          && requests == old(requests) + [name]
          && r == Fetch(store, parse, name, key)
          && cache == (if r.Success? then old(cache)[k := CacheEntry(r.value, now + CacheTtlMs)]
                       else old(cache))
    {
      var k := PySecrets.CacheKey(name, key);
      if k in cache && cache[k].expiry > now {
        return Success(cache[k].value);
      }
      requests := requests + [name];
      r := Fetch(store, parse, name, key);
      if r.Success? {
        cache := cache[k := CacheEntry(r.value, now + CacheTtlMs)];
      }
    }

    /** `clearCache`. */
    method ClearCache()
      modifies this
      ensures cache == map[] && requests == old(requests)
    {
      cache := map[];
    }
  }

  /** A second lookup within the hour answers from the table without a request. */
  method LookupTwiceWithinTtl(store: PySecrets.Store, parse: Parser, t0: int, t1: int,
                              name: string, key: Option<string>)
    returns (first: Result<JsValue>, second: Result<JsValue>, sent: nat)
    requires t0 <= t1 < t0 + CacheTtlMs
    ensures first == Fetch(store, parse, name, key)
    ensures first.Success? ==> second == first && sent == 1
    ensures first.Failure? ==> second == first && sent == 2
  {
    var m := new SecretsManager();
    first := m.GetSecret(store, parse, t0, name, key);
    second := m.GetSecret(store, parse, t1, name, key);
    sent := |m.requests|;
  }

  /** The mapping key `getMCPSecret` reads: the `_BEEPMEDIA` variant when asked for and
      its path is truthy (a non-empty string), otherwise the name itself. */
  function SecretKey(mappings: map<string, string>, name: string, useBeepmedia: bool): string
  {
    var variant := name + "_BEEPMEDIA";
    if useBeepmedia && variant in mappings && mappings[variant] != "" then variant else name
  }

  /** What `getMCPSecret` resolves to: a falsy path throws; on a "credentials" path a value
      of `typeof 'object'` whose `password` is truthy yields the password (a `null` value
      throws on the property read); anything else yields the whole secret. */
  function McpSecret(mappings: map<string, string>, store: PySecrets.Store, parse: Parser,
                     name: string, useBeepmedia: bool): Result<JsValue>
  {
    var k := SecretKey(mappings, name, useBeepmedia);
    if k !in mappings || mappings[k] == "" then Failure("Unknown MCP secret: " + name)
    else
      var path := mappings[k];
      var creds := Fetch(store, parse, path, None);
      if Contains(path, "credentials") && creds.Success? && creds.value.Defined?
         && JsTypeofObject(creds.value.json)
      then
        match JsGet(creds.value.json, "password")
        case Failure(e) => Failure(e)
        case Success(Some(p)) => if JsTruthy(p) then Success(Defined(p)) else creds
        case Success(None) => creds
      else creds
  }

  /** `getMCPSecret`: a fresh manager per call, so the lookup always reaches the store. */
  method GetMcpSecret(mappings: map<string, string>, store: PySecrets.Store, parse: Parser,
                      now: int, name: string, useBeepmedia: bool)
    returns (r: Result<JsValue>)
    ensures r == McpSecret(mappings, store, parse, name, useBeepmedia)
  {
    var manager := new SecretsManager();
    var secretKey := SecretKey(mappings, name, useBeepmedia);
    if secretKey !in mappings || mappings[secretKey] == "" {
      return Failure("Unknown MCP secret: " + name);
    }
    var path := mappings[secretKey];
    if Contains(path, "credentials") {
      var creds := manager.GetSecret(store, parse, now, path, None);
      if creds.Success? && creds.value.Defined? && JsTypeofObject(creds.value.json) {
        var password := JsGet(creds.value.json, "password");
        if password.Failure? {
          return Failure(password.error);
        }
        if password.value.Some? && JsTruthy(password.value.value) {
          return Success(Defined(password.value.value));
        }
      }
      return creds;
    }
    r := manager.GetSecret(store, parse, now, path, None);
  }

  /** A truthy `_BEEPMEDIA` variant, when asked for, answers exactly as a lookup of the
      variant's own name on the personal account would. */
  lemma {:induction false} BeepmediaVariantPreferred(mappings: map<string, string>, store: PySecrets.Store,
                                                     parse: Parser, name: string)
    requires name + "_BEEPMEDIA" in mappings && mappings[name + "_BEEPMEDIA"] != ""
    ensures McpSecret(mappings, store, parse, name, true)
         == McpSecret(mappings, store, parse, name + "_BEEPMEDIA", false)
  {
  }

  /** Without the account flag, or without a truthy variant, only the name itself counts: a
      falsy or missing path throws "Unknown MCP secret", and a path that is not a
      credentials path yields whatever the store holds. */
  lemma {:induction false} PlainNameOtherwise(mappings: map<string, string>, store: PySecrets.Store,
                                              parse: Parser, name: string, useBeepmedia: bool)
    requires !useBeepmedia || name + "_BEEPMEDIA" !in mappings || mappings[name + "_BEEPMEDIA"] == ""
    ensures name !in mappings || mappings[name] == "" ==>
              McpSecret(mappings, store, parse, name, useBeepmedia)
                == Failure("Unknown MCP secret: " + name)
    ensures name in mappings && mappings[name] != "" && !Contains(mappings[name], "credentials") ==>
              McpSecret(mappings, store, parse, name, useBeepmedia)
                == Fetch(store, parse, mappings[name], None)
  {
  }

  /** On a "credentials" path an object whose `password` is truthy yields only the
      password. */
  lemma {:induction false} CredentialsYieldPassword(mappings: map<string, string>, store: PySecrets.Store,
                                                    parse: Parser, name: string, text: string,
                                                    fields: seq<(string, Json)>, password: Json)
    requires name in mappings && name + "_BEEPMEDIA" !in mappings
    requires Contains(mappings[name], "credentials")
    requires store(mappings[name]) == PySecrets.Response(Some(text)) && text != ""
    requires parse(text) == Some(JObj(fields)) && Assoc.Get(fields, "password") == Some(password)
    requires JsTruthy(password)
    ensures McpSecret(mappings, store, parse, name, true) == Success(Defined(password))
  {
  }

  /** An array secret read with a key behaves as a JavaScript array: a canonical index
      below the length yields that element and "length" yields the length. */
  lemma {:induction false} ArraySecretIndexed(store: PySecrets.Store, parse: Parser, name: string,
                                              text: string, items: seq<Json>, i: nat)
    requires store(name) == PySecrets.Response(Some(text)) && text != ""
    requires parse(text) == Some(JArr(items)) && i < |items|
    ensures Fetch(store, parse, name, Some(NatToString(i))) == Success(Defined(items[i]))
    ensures Fetch(store, parse, name, Some("length")) == Success(Defined(JNum(|items|)))
  {
    ArrayIndexOfNat(i);
    assert NatToString(i) != "" by { NatToStringCanonical(i); }
  }

  /** The Python reading of a JavaScript result: `undefined` becomes `None`. */
  function AsPython(r: Result<JsValue>): Result<Json>
  {
    match r
    case Success(Undefined) => Success(JNull)
    case Success(Defined(j)) => Success(j)
    case Failure(e) => Failure(e)
  }

  /** On a non-empty `SecretString` whose value is neither `null` nor an array, the two
      wrappers fetch the same thing (a missing field reads `None` in one, `undefined` in
      the other). */
  lemma {:induction false} FetchAgreesOnObjectsAndScalars(store: PySecrets.Store, parse: Parser, name: string,
                                       key: Option<string>, text: string)
    requires store(name) == PySecrets.Response(Some(text)) && text != ""
    requires parse(text).None? || !(parse(text).value.JNull? || parse(text).value.JArr?)
    ensures AsPython(Fetch(store, parse, name, key)) == PySecrets.Fetch(store, parse, name, key)
  {
  }

  /** Where they part: an empty `SecretString` is a binary secret here and an empty raw
      string in Python; a `null` secret read with a key throws here and yields `None` in
      Python. */
  lemma {:induction false} FetchDiffers(store: PySecrets.Store, parse: Parser, name: string, key: string)
    requires key != ""
    ensures store(name) == PySecrets.Response(Some("")) && parse("").None? ==>
              Fetch(store, parse, name, Some(key)).Failure?
              && PySecrets.Fetch(store, parse, name, Some(key)) == Success(JStr(""))
    ensures forall text ::
              (store(name) == PySecrets.Response(Some(text)) && text != ""
               && parse(text) == Some(JNull)) ==>
              Fetch(store, parse, name, Some(key)).Failure?
              && PySecrets.Fetch(store, parse, name, Some(key)) == Success(JNull)
  {
  }

  /** A falsy password (an empty string, 0, false, null) is returned by the Python wrapper
      but passed over here in favour of the whole credentials object. */
  lemma {:induction false} FalsyPasswordDiffers(mappings: map<string, string>, store: PySecrets.Store,
                             parse: Parser, name: string, text: string,
                             fields: seq<(string, Json)>, password: Json)
    requires name in mappings && name + "_BEEPMEDIA" !in mappings
    requires Contains(mappings[name], "credentials")
    requires store(mappings[name]) == PySecrets.Response(Some(text)) && text != ""
    requires parse(text) == Some(JObj(fields)) && Assoc.Get(fields, "password") == Some(password)
    requires !JsTruthy(password)
    ensures McpSecret(mappings, store, parse, name, true) == Success(Defined(JObj(fields)))
    ensures PySecrets.McpSecret(mappings, store, parse, name, true) == Success(password)
  {
  }

  /** A variant mapped to an empty path falls back to the plain name here, while the
      Python wrapper raises "Unknown MCP secret". */
  lemma {:induction false} EmptyVariantFallsBack(mappings: map<string, string>, store: PySecrets.Store,
                              parse: Parser, name: string)
    requires name + "_BEEPMEDIA" in mappings && mappings[name + "_BEEPMEDIA"] == ""
    ensures McpSecret(mappings, store, parse, name, true)
         == McpSecret(mappings, store, parse, name, false)
    ensures PySecrets.McpSecret(mappings, store, parse, name, true)
         == Failure("Unknown MCP secret: " + name)
  {
  }
}
