/** The Python secrets wrapper (scripts/aws-secrets-manager.py): a per-process table of
    fetched secrets that expire after one hour, the lookup of a logical secret name in the
    static mapping table, and the injection of resolved secrets into the environment.
    The remote store is a parameter (`Store`), the clock an integer `now` in seconds, the
    environment a map from variable name to value. */
module PySecrets {
  import opened Wrappers
  import opened Text
  import opened Json
  import Assoc

  /** The store's answer to `get_secret_value(SecretId=name)`: a response, which may lack
      `SecretString` (a binary secret), or an exception. */
  datatype StoreAnswer = Response(secretString: Option<string>) | Raised(message: string)

  type Store = string -> StoreAnswer

  /** `timedelta(hours=1)`, in seconds. */
  const CacheTtl: int := 3600

  datatype CacheEntry = CacheEntry(value: Json, expiry: int)

  /** `f"{secret_name}:{key or 'full'}"`: an absent and an empty key both read "full". */
  function CacheKey(name: string, key: Option<string>): string
  {
    name + ":" + (if key.Some? && key.value != "" then key.value else "full")
  }

  /** The entry under `k` exists and expires strictly after `now`. */
  predicate Live(cache: map<string, CacheEntry>, k: string, now: int)
  {
    k in cache && cache[k].expiry > now
  }

  /** What one remote fetch yields: the secret parsed as JSON, or its raw text when it is
      not JSON; narrowed to `secret.get(key)` (None when absent) when a non-empty key is
      given and the secret is a dict. A response without `SecretString` and an exception
      of the store are failures. */
  function Fetch(store: Store, parse: Parser, name: string, key: Option<string>): Result<Json>
  {
    match store(name)
    case Raised(message) => Failure(message)
    case Response(None) => Failure("Binary secrets not supported")
    case Response(Some(text)) =>
      var secret := parse(text).GetOr(JStr(text));
      if key.Some? && key.value != "" && secret.JObj? then
        Success(Assoc.Get(secret.fields, key.value).GetOr(JNull))
      else
        Success(secret)
  }

  /** `SecureSecretsManager`: the cache table and the log of the requests it sent. */
  class SecretsManager {
    var cache: map<string, CacheEntry>
    /** SecretIds sent to the remote store, oldest first. */
    var requests: seq<string>

    constructor ()
      ensures cache == map[] && requests == []
    {
      cache := map[];
      requests := [];
    }

    /** `get_secret`: a live entry answers without contacting the store; otherwise the
        store is asked exactly once, a success is cached for one hour from `now`, and a
        failure is re-raised with the table left as it was. */
    method GetSecret(store: Store, parse: Parser, now: int, name: string, key: Option<string>)
      returns (r: Result<Json>)
      modifies this
      ensures var k := CacheKey(name, key);
        if Live(old(cache), k, now) then
          && r == Success(old(cache)[k].value)
          && cache == old(cache)
          && requests == old(requests)
        else
          && requests == old(requests) + [name]
          && r == Fetch(store, parse, name, key)
          && cache == (if r.Success? then old(cache)[k := CacheEntry(r.value, now + CacheTtl)]
                       else old(cache))
    {
      var k := CacheKey(name, key);
      if k in cache && cache[k].expiry > now {
        return Success(cache[k].value);
      }
      requests := requests + [name];
      r := Fetch(store, parse, name, key);
      if r.Success? {
        cache := cache[k := CacheEntry(r.value, now + CacheTtl)];
      }
    }

    /** `clear_cache`. */
    method ClearCache()
      modifies this
      ensures cache == map[] && requests == old(requests)
    {
      cache := map[];
    }
  }

  /** A second lookup of the same key before the hour is up returns what the first one
      fetched and sends nothing to the store. */
  method LookupTwiceWithinTtl(store: Store, parse: Parser, t0: int, t1: int,
                              name: string, key: Option<string>)
    returns (first: Result<Json>, second: Result<Json>, sent: nat)
    requires t0 <= t1 < t0 + CacheTtl
    ensures first == Fetch(store, parse, name, key)
    ensures first.Success? ==> second == first && sent == 1
    ensures first.Failure? ==> second == first && sent == 2
  {
    var m := new SecretsManager();
    first := m.GetSecret(store, parse, t0, name, key);
    second := m.GetSecret(store, parse, t1, name, key);
    sent := |m.requests|;
  }

  /** Once the hour is up (expiry <= now) the entry is fetched again. */
  method LookupAfterExpiry(store: Store, parse: Parser, t0: int, t1: int,
                           name: string, key: Option<string>)
    returns (second: Result<Json>, sent: nat)
    requires t1 >= t0 + CacheTtl
    ensures second == Fetch(store, parse, name, key)
    ensures sent == 2
  {
    var m := new SecretsManager();
    var first := m.GetSecret(store, parse, t0, name, key);
    second := m.GetSecret(store, parse, t1, name, key);
    sent := |m.requests|;
  }

  /** After `clear_cache` the next lookup fetches, however recent the cached entry. */
  method LookupAfterClear(store: Store, parse: Parser, now: int, name: string, key: Option<string>)
    returns (sent: nat)
    ensures sent == 2
  {
    var m := new SecretsManager();
    var first := m.GetSecret(store, parse, now, name, key);
    m.ClearCache();
    var second := m.GetSecret(store, parse, now, name, key);
    sent := |m.requests|;
  }

  /** `key=None`, `key=""` and `key="full"` share one entry: once the whole secret is cached,
      asking for the field "full" within the hour returns the whole secret, not that field. */
  method FullKeyAliasesWholeSecret(store: Store, parse: Parser, now: int, name: string)
    returns (whole: Result<Json>, field: Result<Json>)
    ensures whole == Fetch(store, parse, name, None)
    ensures whole.Success? ==> field == whole
  {
    var m := new SecretsManager();
    whole := m.GetSecret(store, parse, now, name, None);
    field := m.GetSecret(store, parse, now, name, Some("full"));
  }

  lemma {:induction false} CacheKeyAliases(name: string)
    ensures CacheKey(name, None) == CacheKey(name, Some("")) == CacheKey(name, Some("full"))
  {
  }

  /** A string secret is returned whole whatever key is asked for; a dict secret yields
      the field, or None when the field is missing. */
  lemma {:induction false} FetchKeySelection(store: Store, parse: Parser, name: string, key: string, text: string)
    requires store(name) == Response(Some(text))
    ensures parse(text).None? ==> Fetch(store, parse, name, Some(key)) == Success(JStr(text))
    ensures parse(text).Some? && parse(text).value.JStr? ==>
              Fetch(store, parse, name, Some(key)) == Success(parse(text).value)
    ensures parse(text).Some? && parse(text).value.JObj? && key != "" ==>
              Fetch(store, parse, name, Some(key))
                == Success(Assoc.Get(parse(text).value.fields, key).GetOr(JNull))
  {
  }

  /** `MCP_SECRET_MAPPINGS`. */
  const McpSecretMappings: map<string, string> := map[
    "NOTION_API_KEY" := "hasna/tool/notion/hasna/api",
    "STRIPE_API_KEY" := "hasna/tool/stripe/credentials",
    "OPENAI_API_KEY" := "hasna/tool/openai/api",
    "SLACK_TOKEN" := "hasna/tool/slack/credentials",
    "GITHUB_TOKEN" := "hasna/tool/github/credentials",
    "NOTION_API_KEY_BEEPMEDIA" := "beepmedia/tool/notion/general/api",
    "STRIPE_API_KEY_BEEPMEDIA" := "beepmedia/tool/stripe/credentials",
    "OPENAI_API_KEY_BEEPMEDIA" := "beepmedia/tool/openai/api",
    "SLACK_TOKEN_BEEPMEDIA" := "beepmedia/tool/slack/production/bot",
    "GITHUB_TOKEN_BEEPMEDIA" := "beepmedia/tool/github/credentials",
    "PERPLEXITY_API_KEY" := "beepmedia/tool/mcp/perplexity/credentials",
    "TWILIO_CREDENTIALS" := "beepmedia/tool/twilio/credentials",
    "SENDGRID_API_KEY" := "beepmedia/tool/sendgrid/credentials",
    "MAILGUN_CREDENTIALS" := "beepmedia/tool/mailgun/credentials",
    "DISCORD_CREDENTIALS" := "beepmedia/tool/discord/credentials"
  ]

  /** The mapping key `get_mcp_secret` reads: the `_BEEPMEDIA` variant when that account is
      asked for and the variant is mapped, otherwise the name itself. */
  function SecretKey(mappings: map<string, string>, name: string, useBeepmedia: bool): string
  {
    if useBeepmedia && name + "_BEEPMEDIA" in mappings then name + "_BEEPMEDIA" else name
  }

  /** What `get_mcp_secret` returns: an unmapped (or empty) path raises ValueError; a path
      containing "credentials" whose secret is a dict with a "password" key yields that
      password; anything else yields the whole secret. */
  function McpSecret(mappings: map<string, string>, store: Store, parse: Parser,
                     name: string, useBeepmedia: bool): Result<Json>
  {
    var k := SecretKey(mappings, name, useBeepmedia);
    if k !in mappings || mappings[k] == "" then Failure("Unknown MCP secret: " + name)
    else
      var path := mappings[k];
      var creds := Fetch(store, parse, path, None);
      if Contains(path, "credentials") && creds.Success? && creds.value.JObj?
         && "password" in Assoc.Keys(creds.value.fields)
      then Success(Assoc.Get(creds.value.fields, "password").value)
      else creds
  }

  /** `get_mcp_secret`: every call builds a fresh manager, so its lookup always reaches
      the store. */
  method GetMcpSecret(mappings: map<string, string>, store: Store, parse: Parser, now: int,
                      name: string, useBeepmedia: bool)
    returns (r: Result<Json>)
    ensures r == McpSecret(mappings, store, parse, name, useBeepmedia)
  {
    var manager := new SecretsManager();
    var secretKey := SecretKey(mappings, name, useBeepmedia);
    if secretKey !in mappings || mappings[secretKey] == "" {
      return Failure("Unknown MCP secret: " + name);
    }
    var path := mappings[secretKey];
    if Contains(path, "credentials") {
      var creds := manager.GetSecret(store, parse, now, path, None);
      if creds.Success? && creds.value.JObj? && "password" in Assoc.Keys(creds.value.fields) {
        return Success(Assoc.Get(creds.value.fields, "password").value);
      }
      return creds;
    }
    r := manager.GetSecret(store, parse, now, path, None);
  }

  /** The `_BEEPMEDIA` variant, when asked for and mapped, answers exactly as a lookup of
      the variant's own name on the personal account would. */
  lemma {:induction false} BeepmediaVariantPreferred(mappings: map<string, string>, store: Store, parse: Parser,
                                  name: string)
    requires name + "_BEEPMEDIA" in mappings
    ensures McpSecret(mappings, store, parse, name, true)
         == if mappings[name + "_BEEPMEDIA"] == "" then Failure("Unknown MCP secret: " + name)
            else McpSecret(mappings, store, parse, name + "_BEEPMEDIA", false)
  {
  }

  /** Without the account flag, or without a mapped variant, only the name itself counts;
      a name mapped nowhere raises whatever the store holds. */
  lemma {:induction false} PlainNameOtherwise(mappings: map<string, string>, store: Store, parse: Parser,
                           name: string, useBeepmedia: bool)
    requires !useBeepmedia || name + "_BEEPMEDIA" !in mappings
    ensures name !in mappings ==>
              McpSecret(mappings, store, parse, name, useBeepmedia)
                == Failure("Unknown MCP secret: " + name)
    ensures name in mappings && mappings[name] != "" && !Contains(mappings[name], "credentials") ==>
              McpSecret(mappings, store, parse, name, useBeepmedia)
                == Fetch(store, parse, mappings[name], None)
  {
  }

  /** On a "credentials" path a dict holding "password" yields only the password. */
  lemma {:induction false} CredentialsYieldPassword(mappings: map<string, string>, store: Store, parse: Parser,
                                 name: string, text: string, fields: seq<(string, Json)>,
                                 password: Json)
    requires name in mappings && name + "_BEEPMEDIA" !in mappings
    requires Contains(mappings[name], "credentials")
    requires store(mappings[name]) == Response(Some(text))
    requires parse(text) == Some(JObj(fields)) && Assoc.Get(fields, "password") == Some(password)
    ensures McpSecret(mappings, store, parse, name, true) == Success(password)
  {
  }

  /** The variables one resolved secret sets: `<name>_<KEY>` = `str(v)` for each field of a
      dict, in field order, and `<name>` = `str(value)` for anything else. */
  function EnvAssignments(name: string, value: Json): seq<(string, string)>
  {
    if value.JObj? then
      seq(|value.fields|, i requires 0 <= i < |value.fields| =>
            (name + "_" + Upper(value.fields[i].0), PyStr(value.fields[i].1)))
    else [(name, PyStr(value))]
  }

  /** The assignments one name contributes: none when its lookup fails. */
  function Contribution(mappings: map<string, string>, store: Store, parse: Parser,
                        name: string, useBeepmedia: bool): seq<(string, string)>
  {
    match McpSecret(mappings, store, parse, name, useBeepmedia)
    case Success(v) => EnvAssignments(name, v)
    case Failure(_) => []
  }

  /** The assignments made for a list of names, in list order. */
  function Injections(mappings: map<string, string>, store: Store, parse: Parser,
                      names: seq<string>, useBeepmedia: bool): seq<(string, string)>
    decreases |names|
  {
    if names == [] then []
    else
      Injections(mappings, store, parse, names[..|names| - 1], useBeepmedia)
        + Contribution(mappings, store, parse, names[|names| - 1], useBeepmedia)
  }

  /** The environment after the assignments, performed in order. */
  function Assign(env: map<string, string>, pairs: seq<(string, string)>): map<string, string>
    decreases |pairs|
  {
    if pairs == [] then env else Assign(env[pairs[0].0 := pairs[0].1], pairs[1..])
  }

  lemma {:induction false} AssignAppend(env: map<string, string>, a: seq<(string, string)>,
                                        b: seq<(string, string)>)
    ensures Assign(env, a + b) == Assign(Assign(env, a), b)
    decreases |a|
  {
    if a != [] {
      assert (a + b)[1..] == a[1..] + b;
      AssignAppend(env[a[0].0 := a[0].1], a[1..], b);
    } else {
      assert a + b == b;
    }
  }

  /** Assignments only add variables, and a variable ends up with the value of the last
      assignment to it; variables nobody assigns keep their value. */
  lemma {:induction false} AssignEffect(env: map<string, string>, pairs: seq<(string, string)>,
                                        v: string)
    ensures v in Assign(env, pairs) <==> v in env || exists i :: 0 <= i < |pairs| && pairs[i].0 == v
    ensures (forall i :: 0 <= i < |pairs| ==> pairs[i].0 != v) && v in env ==>
              Assign(env, pairs)[v] == env[v]
    ensures |pairs| > 0 && pairs[|pairs| - 1].0 == v ==>
              Assign(env, pairs)[v] == pairs[|pairs| - 1].1
    decreases |pairs|
  {
    if pairs != [] {
      var last := pairs[|pairs| - 1];
      var init := pairs[..|pairs| - 1];
      assert pairs == init + [last];
      AssignAppend(env, init, [last]);
      AssignEffect(env, init, v);
      assert Assign(Assign(env, init), [last]) == Assign(env, init)[last.0 := last.1];
      if v in Assign(env, pairs) && v !in env && last.0 != v {
        var i :| 0 <= i < |init| && init[i].0 == v;
        assert pairs[i].0 == v;
      }
      if exists i :: 0 <= i < |pairs| && pairs[i].0 == v {
        var i :| 0 <= i < |pairs| && pairs[i].0 == v;
        if i < |init| { assert init[i].0 == v; }
      }
    }
  }

  /** The `for k, v in value.items()` loop: one variable per field, in field order. */
  method SetFieldVariables(env: map<string, string>, name: string, fields: seq<(string, Json)>)
    returns (env': map<string, string>)
    ensures env' == Assign(env, EnvAssignments(name, JObj(fields)))
  {
    ghost var all := EnvAssignments(name, JObj(fields));
    env' := env;
    var j := 0;
    while j < |fields|
      invariant 0 <= j <= |fields|
      invariant env' == Assign(env, all[..j])
    {
      var (k, x) := fields[j];
      AssignAppend(env, all[..j], [all[j]]);
      assert all[..j + 1] == all[..j] + [all[j]];
      env' := env'[name + "_" + Upper(k) := PyStr(x)];
      j := j + 1;
    }
    assert all[..j] == all;
  }

  /** One pass of the `inject_secrets_to_env` loop body. */
  method InjectOne(env: map<string, string>, mappings: map<string, string>,
                   store: Store, parse: Parser, now: int, name: string, useBeepmedia: bool)
    returns (env': map<string, string>, ok: bool)
    ensures env' == Assign(env, Contribution(mappings, store, parse, name, useBeepmedia))
    ensures ok <==> McpSecret(mappings, store, parse, name, useBeepmedia).Success?
  {
    var value := GetMcpSecret(mappings, store, parse, now, name, useBeepmedia);
    ok := value.Success?;
    if !ok {
      return env, false;
    }
    if value.value.JObj? {
      env' := SetFieldVariables(env, name, value.value.fields);
    } else {
      env' := env[name := PyStr(value.value)];
    }
  }

  lemma {:induction false} InjectionsStep(mappings: map<string, string>, store: Store, parse: Parser,
                       names: seq<string>, i: nat, useBeepmedia: bool)
    requires i < |names|
    ensures Injections(mappings, store, parse, names[..i + 1], useBeepmedia)
         == Injections(mappings, store, parse, names[..i], useBeepmedia)
              + Contribution(mappings, store, parse, names[i], useBeepmedia)
  {
    assert names[..i + 1][..i] == names[..i];
  }

  /** The names whose lookup fails, in list order. */
  function FailedNames(mappings: map<string, string>, store: Store, parse: Parser,
                       names: seq<string>, useBeepmedia: bool): (r: seq<string>)
    ensures |r| <= |names|
    decreases |names|
  {
    if names == [] then []
    else
      var last := names[|names| - 1];
      FailedNames(mappings, store, parse, names[..|names| - 1], useBeepmedia)
        + (if McpSecret(mappings, store, parse, last, useBeepmedia).Failure? then [last] else [])
  }

  /** A name is reported as failed iff it is listed and its lookup fails. */
  lemma {:induction false} FailedNamesIff(mappings: map<string, string>, store: Store, parse: Parser,
                                          names: seq<string>, useBeepmedia: bool, n: string)
    ensures n in FailedNames(mappings, store, parse, names, useBeepmedia) <==>
              n in names && McpSecret(mappings, store, parse, n, useBeepmedia).Failure?
    decreases |names|
  {
    if names != [] {
      var init := names[..|names| - 1];
      FailedNamesIff(mappings, store, parse, init, useBeepmedia, n);
      assert names == init + [names[|names| - 1]];
    }
  }

  lemma {:induction false} FailedNamesStep(mappings: map<string, string>, store: Store, parse: Parser,
                                           names: seq<string>, i: nat, useBeepmedia: bool)
    requires i < |names|
    ensures FailedNames(mappings, store, parse, names[..i + 1], useBeepmedia)
         == FailedNames(mappings, store, parse, names[..i], useBeepmedia)
              + (if McpSecret(mappings, store, parse, names[i], useBeepmedia).Failure? then [names[i]] else [])
  {
    assert names[..i + 1][..i] == names[..i];
  }

  /** `inject_secrets_to_env`: each name is resolved in list order; a failure is logged
      (returned in `failed`) and the loop goes on with the next name. */
  method InjectSecretsToEnv(env: map<string, string>, mappings: map<string, string>,
                            store: Store, parse: Parser, now: int,
                            names: seq<string>, useBeepmedia: bool)
    returns (env': map<string, string>, failed: seq<string>)
    ensures env' == Assign(env, Injections(mappings, store, parse, names, useBeepmedia))
    ensures failed == FailedNames(mappings, store, parse, names, useBeepmedia)
  {
    env' := env;
    failed := [];
    var i := 0;
    while i < |names|
      invariant 0 <= i <= |names|
      invariant env' == Assign(env, Injections(mappings, store, parse, names[..i], useBeepmedia))
      invariant failed == FailedNames(mappings, store, parse, names[..i], useBeepmedia)
    {
      var name := names[i];
      InjectionsStep(mappings, store, parse, names, i, useBeepmedia);
      FailedNamesStep(mappings, store, parse, names, i, useBeepmedia);
      AssignAppend(env, Injections(mappings, store, parse, names[..i], useBeepmedia),
                   Contribution(mappings, store, parse, name, useBeepmedia));
      var ok;
      env', ok := InjectOne(env', mappings, store, parse, now, name, useBeepmedia);
      if !ok {
        failed := failed + [name];
      }
      i := i + 1;
    }
    assert names[..i] == names;
  }
}
