/** The Cloudflare DNS updater (repos/update_cloudflare_dns.py). It finds Cloudflare
    credentials in AWS Secrets Manager (known names first, then a search over every listed
    secret), picks the token and e-mail fields, builds the request headers, looks up the
    zone of the base domain, and rewrites the `mcp.beepmedia.com` A record only when the
    record already exists. Secrets Manager, the Cloudflare API and JSON parsing are oracles;
    the printed lines are left out. */
module CloudflareDns {
  import opened Wrappers
  import opened Text
  import opened Json
  import Assoc
  import PySecrets

  const BaseUrl := "https://api.cloudflare.com/client/v4"

  /** The request headers of `CloudflareManager.__init__`: the API key and e-mail pair when
      an e-mail is given, else a bearer token; JSON content either way. */
  function Headers(apiToken: string, apiEmail: Json): (r: seq<(string, string)>)
    ensures Assoc.Get(r, "Content-Type") == Some("application/json")
    ensures PyTruthy(apiEmail) ==>
              Assoc.Get(r, "X-Auth-Key") == Some(apiToken)
              && Assoc.Get(r, "X-Auth-Email") == Some(PyStr(apiEmail))
              && Assoc.Get(r, "Authorization").None?
    ensures !PyTruthy(apiEmail) ==>
              Assoc.Get(r, "Authorization") == Some("Bearer " + apiToken)
              && Assoc.Get(r, "X-Auth-Key").None? && Assoc.Get(r, "X-Auth-Email").None?
  {
    if PyTruthy(apiEmail) then
      [("X-Auth-Key", apiToken), ("X-Auth-Email", PyStr(apiEmail)), ("Content-Type", "application/json")]
    else
      [("Authorization", "Bearer " + apiToken), ("Content-Type", "application/json")]
  }

  /** The last (at most) two `.`-labels of a domain, rejoined by `.`. */
  function BaseDomain(domain: string): string
  {
    var parts := Split(domain, '.');
    Join(if |parts| >= 2 then parts[|parts| - 2..] else parts, ".")
  }

  /** A name without a dot is its own base domain; a name with at least one dot keeps
      exactly its last two labels, so taking the base domain twice changes nothing. */
  lemma {:induction false} BaseDomainLabels(domain: string)
    ensures '.' !in domain ==> BaseDomain(domain) == domain
    ensures Split(BaseDomain(domain), '.') == (var parts := Split(domain, '.');
                                               if |parts| >= 2 then parts[|parts| - 2..] else parts)
    ensures BaseDomain(BaseDomain(domain)) == BaseDomain(domain)
  {
    var parts := Split(domain, '.');
    var kept := if |parts| >= 2 then parts[|parts| - 2..] else parts;
    assert forall i :: 0 <= i < |kept| ==> '.' !in kept[i];
    SplitJoin(kept, '.');
    assert Join(kept, ".") == Join(kept, ['.']);
    if '.' !in domain {
      SplitNoSeparator(domain, '.');
    }
    assert |kept| >= 2 ==> kept[|kept| - 2..] == kept;
  }

  lemma {:induction false} SplitThree(a: string, b: string, c: string)
    requires '.' !in a && '.' !in b && '.' !in c
    ensures Split(a + ['.'] + (b + ['.'] + c), '.') == [a, b, c]
  {
    var tail := b + ['.'] + c;
    assert Split(tail, '.') == [b, c] by {
      SplitNoSeparator(c, '.');
      SplitPrefix(b, c, '.');
    }
    SplitPrefix(a, tail, '.');
  }

  /** A three-label name loses its first label. */
  lemma {:induction false} ThreeLabels(a: string, b: string, c: string)
    requires '.' !in a && '.' !in b && '.' !in c
    ensures BaseDomain(a + "." + b + "." + c) == b + "." + c
  {
    var d := a + "." + b + "." + c;
    assert d == a + ['.'] + (b + ['.'] + c);
    SplitThree(a, b, c);
    assert [a, b, c][1..] == [b, c];
    assert Join([b, c], ".") == b + "." + Join([c], ".");
  }

  lemma SubdomainBase()
    ensures BaseDomain("mcp.beepmedia.com") == "beepmedia.com"
  {
    assert "mcp.beepmedia.com" == "mcp" + "." + "beepmedia" + "." + "com";
    assert "beepmedia.com" == "beepmedia" + "." + "com";
    ThreeLabels("mcp", "beepmedia", "com");
  }

  /** What a Cloudflare call answers: its status and its body, `None` when the body is not
      JSON (`response.json()` raises). */
  datatype HttpAnswer = HttpAnswer(status: int, body: Option<Json>)

  /** One Cloudflare call: the HTTP verb, the URL with its query, the headers and the JSON
      body (`None` for a GET). */
  datatype Request = Request(verb: string, url: string, headers: seq<(string, string)>, body: Option<Json>)

  /** The Cloudflare API, by request. */
  type Http = Request -> HttpAnswer

  const RecordName := "mcp.beepmedia.com"

  /** `DNS_RECORD`, the body of the PUT: an unproxied A record for `mcp.beepmedia.com`
      pointing at the production Elastic IP. */
  const DnsRecord: Json :=
    JObj([("name", JStr(RecordName)), ("type", JStr("A")), ("content", JStr("44.206.106.173")),
          ("proxied", JBool(false))])

  /** `data['result'][0]` of a 200 answer whose `data['success'] and data['result']` holds,
      `None` otherwise; a missing key or malformed body raises. */
  function FirstResult(answer: HttpAnswer): (r: Result<Option<Json>>)
    ensures answer.status != 200 ==> r == Success(None)
    ensures r.Success? && r.value.Some? ==>
              answer.status == 200 && answer.body.Some?
              && PyGetItem(answer.body.value, "success").Success?
              && PyTruthy(PyGetItem(answer.body.value, "success").value)
  {
    if answer.status != 200 then Success(None)
    else if answer.body.None? then Failure("JSONDecodeError")
    else
      var data := answer.body.value;
      var success :- PyGetItem(data, "success");
      if !PyTruthy(success) then Success(None)
      else
        var result :- PyGetItem(data, "result");
        if !PyTruthy(result) then Success(None)
        else
          var first :- PyFirstItem(result);
          Success(Some(first))
  }

  function ZoneRequest(headers: seq<(string, string)>, domain: string): Request
  {
    Request("GET", BaseUrl + "/zones?name=" + BaseDomain(domain), headers, None)
  }

  function RecordRequest(headers: seq<(string, string)>, zoneId: string, name: string): Request
  {
    Request("GET", BaseUrl + "/zones/" + zoneId + "/dns_records?name=" + name, headers, None)
  }

  function PutRequest(headers: seq<(string, string)>, zoneId: string, recordId: string): Request
  {
    Request("PUT", BaseUrl + "/zones/" + zoneId + "/dns_records/" + recordId, headers, Some(DnsRecord))
  }

  /** `get_zone_id`: the `id` of the first zone named by the base domain. */
  function ZoneId(http: Http, headers: seq<(string, string)>, domain: string): Result<Option<Json>>
  {
    var first :- FirstResult(http(ZoneRequest(headers, domain)));
    if first.None? then Success(None)
    else
      var id :- PyGetItem(first.value, "id");
      Success(Some(id))
  }

  /** The outcome of `update_record`: the PUT requests made and the returned flag. */
  datatype Update = Update(puts: seq<Request>, updated: bool)

  /** `update_record`: the record is rewritten only when one already exists, with the
      manager's headers and `DNS_RECORD` as the body, and the result is true only for a 200
      answer whose `success` is truthy. */
  function UpdateRecord(http: Http, headers: seq<(string, string)>, zoneId: string, name: string): (r: Result<Update>)
    ensures r.Success? ==> |r.value.puts| <= 1
    ensures r.Success? && r.value.puts != [] ==>
              var existing := FirstResult(http(RecordRequest(headers, zoneId, name)));
              existing.Success? && existing.value.Some? && PyTruthy(existing.value.value)
    ensures r.Success? && r.value.updated ==>
              && |r.value.puts| == 1
              && http(r.value.puts[0]).status == 200
              && http(r.value.puts[0]).body.Some?
              && PyGetItem(http(r.value.puts[0]).body.value, "success").Success?
              && PyTruthy(PyGetItem(http(r.value.puts[0]).body.value, "success").value)
    ensures r.Success? && r.value.puts != [] ==>
              && r.value.puts[0].verb == "PUT"
              && r.value.puts[0].headers == headers
              && r.value.puts[0].body == Some(DnsRecord)
  {
    var existing :- FirstResult(http(RecordRequest(headers, zoneId, name)));
    if existing.None? || !PyTruthy(existing.value) then Success(Update([], false))
    else
      var _ :- PyGetItem(existing.value, "content");
      var id :- PyGetItem(existing.value, "id");
      var put := PutRequest(headers, zoneId, PyStr(id));
      var answer := http(put);
      if answer.status != 200 then Success(Update([put], false))
      else if answer.body.None? then Failure("JSONDecodeError")
      else
        var success :- PyGetItem(answer.body.value, "success");
        Success(Update([put], PyTruthy(success)))
  }

  /** No existing record, no PUT and no update. */
  lemma {:induction false} MissingRecordNotCreated(http: Http, headers: seq<(string, string)>, zoneId: string, name: string)
    requires FirstResult(http(RecordRequest(headers, zoneId, name))) == Success(None)
    ensures UpdateRecord(http, headers, zoneId, name) == Success(Update([], false))
  {
  }

  /** The secret names tried first, in order. */
  const PossibleNames: seq<string> := [
    "beepmedia/tool/cloudflare/api", "beepmedia/tool/cloudflare/credentials",
    "cloudflare-api-token", "cloudflare-api-key", "cloudflare/api-token", "cloudflare/api-key",
    "beepmedia/cloudflare", "beepmedia/cloudflare/api", "beepmedia/prod/cloudflare",
    "beepmedia/api/cloudflare", "prod/cloudflare", "cf-api-token", "cf-api-key", "beepmedia/cf"
  ]

  /** `{'api_token': s}`. */
  function TokenOnly(s: string): Json
  {
    JObj([("api_token", JStr(s))])
  }

  /** A known name: its JSON value as parsed, or the text wrapped as a token; a name that
      is missing, raises or has no secret string moves on. */
  function CandidateValue(answer: PySecrets.StoreAnswer, parse: Parser): (r: Option<Json>)
    ensures r.Some? <==> answer.Response? && answer.secretString.Some?
  {
    match answer
    case Raised(_) => None
    case Response(text) =>
      if text.None? then None
      else Some(if parse(text.value).Some? then parse(text.value).value else TokenOnly(text.value))
  }

  /** The first value present, front to back. */
  function FirstSome(xs: seq<Option<Json>>): (r: Option<Json>)
    ensures r.None? <==> forall i :: 0 <= i < |xs| ==> xs[i].None?
    ensures r.Some? ==> r in xs
    decreases |xs|
  {
    if xs == [] then None
    else if xs[0].Some? then xs[0]
    else
      var rest := FirstSome(xs[1..]);
      assert forall i :: 0 < i < |xs| ==> xs[i] == xs[1..][i - 1];
      rest
  }

  /** `FirstSome` is the earliest present value. */
  lemma {:induction false} FirstSomeIsEarliest(xs: seq<Option<Json>>, k: nat)
    requires k < |xs| && xs[k].Some? && forall j :: 0 <= j < k ==> xs[j].None?
    ensures FirstSome(xs) == xs[k]
    decreases k
  {
    if k > 0 {
      FirstSomeIsEarliest(xs[1..], k - 1);
    }
  }

  function Candidates(store: PySecrets.Store, parse: Parser, names: seq<string>): (r: seq<Option<Json>>)
    ensures |r| == |names|
  {
    seq(|names|, i requires 0 <= i < |names| => CandidateValue(store(names[i]), parse))
  }

  /** The known-name loop with its early return, proved against `FirstSome`. */
  method TryKnownNames(store: PySecrets.Store, parse: Parser, names: seq<string>) returns (r: Option<Json>)
    ensures r == FirstSome(Candidates(store, parse, names))
  {
    var i := 0;
    while i < |names|
      invariant 0 <= i <= |names|
      invariant forall j :: 0 <= j < i ==> Candidates(store, parse, names)[j].None?
    {
      var answer := store(names[i]);
      if answer.Response? && answer.secretString.Some? {
        var text := answer.secretString.value;
        var parsed := parse(text);
        r := if parsed.Some? then Some(parsed.value) else Some(TokenOnly(text));
        FirstSomeIsEarliest(Candidates(store, parse, names), i);
        return;
      }
      i := i + 1;
    }
    r := None;
  }

  /** `any(key in creds for key in ['api_token', 'api_key', 'token'])`, which raises on a
      value that does not support `in`. */
  function HasCredentialKey(creds: Json): Result<bool>
  {
    var a :- PyIn("api_token", creds);
    if a then Success(true)
    else
      var b :- PyIn("api_key", creds);
      if b then Success(true) else PyIn("token", creds)
  }

  /** The name filter of the search. */
  predicate MentionsCloudflare(name: string)
  {
    Contains(Lower(name), "cloudflare") || Contains(Lower(name), "cf")
  }

  /** A listed secret: accepted when its name mentions Cloudflare and its value is JSON with
      a credential key, or text that is not PEM. */
  function ListedValue(name: string, answer: PySecrets.StoreAnswer, parse: Parser): (r: Option<Json>)
    ensures r.Some? ==> MentionsCloudflare(name) && answer.Response? && answer.secretString.Some?
    ensures r.Some? && parse(answer.secretString.value).None? ==>
              !StartsWith(answer.secretString.value, "-----") && r.value == TokenOnly(answer.secretString.value)
    ensures r.Some? && parse(answer.secretString.value).Some? ==>
              r.value == parse(answer.secretString.value).value
              && HasCredentialKey(r.value) == Success(true)
  {
    if !MentionsCloudflare(name) || !answer.Response? || answer.secretString.None? then None
    else
      var text := answer.secretString.value;
      match parse(text)
      case Some(creds) => if HasCredentialKey(creds) == Success(true) then Some(creds) else None
      case None => if StartsWith(text, "-----") then None else Some(TokenOnly(text))
  }

  /** A PEM text is never taken for a token. */
  lemma {:induction false} PemRejected(name: string, text: string, parse: Parser)
    requires parse(text).None? && StartsWith(text, "-----")
    ensures ListedValue(name, PySecrets.Response(Some(text)), parse).None?
  {
  }

  /** The answer to one `list_secrets` call: a page of names with an optional
      continuation token, or an exception. */
  datatype ListAnswer = Page(names: seq<string>, nextToken: Option<string>) | ListFailed

  /** The successive answers stop paging: some answer raises or has no token. */
  predicate ListingEnds(pages: seq<ListAnswer>)
    decreases |pages|
  {
    |pages| > 0 && (pages[0].ListFailed? || pages[0].nextToken.None? || ListingEnds(pages[1..]))
  }

  /** Every page up to the first without a token, concatenated in order; `None` when a call
      raises. */
  function Listing(pages: seq<ListAnswer>): (r: Option<seq<string>>)
    requires ListingEnds(pages)
    ensures r.Some? ==> pages[0].Page? && |pages[0].names| <= |r.value|
                        && r.value[..|pages[0].names|] == pages[0].names
    decreases |pages|
  {
    match pages[0]
    case ListFailed => None
    case Page(names, token) =>
      if token.None? then Some(names)
      else
        var rest := Listing(pages[1..]);
        if rest.None? then None else Some(names + rest.value)
  }

  /** Prefix a listing with the names gathered so far. */
  function Prepend(acc: seq<string>, o: Option<seq<string>>): Option<seq<string>>
  {
    if o.Some? then Some(acc + o.value) else None
  }

  /** One page with a continuation token, then the rest of the listing. */
  lemma {:induction false} ListingStep(pages: seq<ListAnswer>, k: nat)
    requires k < |pages| && ListingEnds(pages[k..]) && pages[k].Page? && pages[k].nextToken.Some?
    ensures k + 1 < |pages| && ListingEnds(pages[k + 1..])
    ensures Listing(pages[k..]) == Prepend(pages[k].names, Listing(pages[k + 1..]))
  {
    assert pages[k..][1..] == pages[k + 1..];
  }

  lemma {:induction false} PrependTwice(a: seq<string>, b: seq<string>, o: Option<seq<string>>)
    ensures Prepend(a, Prepend(b, o)) == Prepend(a + b, o)
  {
    if o.Some? {
      assert a + (b + o.value) == (a + b) + o.value;
    }
  }

  /** The pagination loop, proved against `Listing`. */
  method ListSecrets(pages: seq<ListAnswer>) returns (all: Option<seq<string>>)
    requires ListingEnds(pages)
    ensures all == Listing(pages)
  {
    var acc: seq<string> := [];
    var k := 0;
    assert pages[k..] == pages;
    PrependTwice([], [], Listing(pages));
    assert Prepend([], Listing(pages)) == Listing(pages) by {
      if Listing(pages).Some? {
        assert [] + Listing(pages).value == Listing(pages).value;
      }
    }
    while true
      invariant 0 <= k < |pages| && ListingEnds(pages[k..])
      invariant Listing(pages) == Prepend(acc, Listing(pages[k..]))
      decreases |pages| - k
    {
      match pages[k]
      case ListFailed =>
        assert Listing(pages[k..]) == None;
        return None;
      case Page(names, token) =>
        if token.None? {
          assert Listing(pages[k..]) == Some(names);
          return Some(acc + names);
        }
        ListingStep(pages, k);
        PrependTwice(acc, names, Listing(pages[k + 1..]));
        acc := acc + names;
        k := k + 1;
    }
  }

  function Listed(store: PySecrets.Store, parse: Parser, names: seq<string>): (r: seq<Option<Json>>)
    ensures |r| == |names|
  {
    seq(|names|, i requires 0 <= i < |names| => ListedValue(names[i], store(names[i]), parse))
  }

  /** `get_cloudflare_credentials`: the first known name that yields a value, else the first
      acceptable listed secret, else `None` (also when listing raises). */
  function CredentialsOf(store: PySecrets.Store, parse: Parser, pages: seq<ListAnswer>): (r: Option<Json>)
    requires ListingEnds(pages)
  {
    var known := FirstSome(Candidates(store, parse, PossibleNames));
    if known.Some? then known
    else
      var all := Listing(pages);
      if all.None? then None else FirstSome(Listed(store, parse, all.value))
  }

  /** A known name that yields a value wins over every listed secret. */
  lemma {:induction false} KnownNameFirst(store: PySecrets.Store, parse: Parser, pages: seq<ListAnswer>, k: nat)
    requires ListingEnds(pages)
    requires k < |PossibleNames| && CandidateValue(store(PossibleNames[k]), parse).Some?
    requires forall j :: 0 <= j < k ==> CandidateValue(store(PossibleNames[j]), parse).None?
    ensures CredentialsOf(store, parse, pages) == CandidateValue(store(PossibleNames[k]), parse)
  {
    FirstSomeIsEarliest(Candidates(store, parse, PossibleNames), k);
  }

  /** The search, proved against `CredentialsOf`. */
  method GetCloudflareCredentials(store: PySecrets.Store, parse: Parser, pages: seq<ListAnswer>)
    returns (r: Option<Json>)
    requires ListingEnds(pages)
    ensures r == CredentialsOf(store, parse, pages)
  {
    r := TryKnownNames(store, parse, PossibleNames);
    if r.Some? {
      return;
    }
    var all := ListSecrets(pages);
    if all.None? {
      return None;
    }
    var names := all.value;
    var i := 0;
    while i < |names|
      invariant 0 <= i <= |names|
      invariant forall j :: 0 <= j < i ==> Listed(store, parse, names)[j].None?
    {
      var v := ListedValue(names[i], store(names[i]), parse);
      if v.Some? {
        FirstSomeIsEarliest(Listed(store, parse, names), i);
        return v;
      }
      i := i + 1;
    }
    r := None;
  }

  /** How `main` ends. */
  datatype Outcome =
    | MissingAwsCredentials
    | NoCredentials
    | NoToken
    | Crashed(message: string)
    | NoZone
    | Finished(updated: bool)

  /** The credential fields `main` reads: the first truthy of `api_token`, `api_key` and
      `token`, and `email or api_email`. */
  datatype Selection = Unusable(outcome: Outcome) | Selected(token: Json, email: Json)

  function SelectCredentials(creds: Option<Json>): (r: Selection)
    ensures creds.None? || !PyTruthy(creds.value) ==> r == Unusable(NoCredentials)
    ensures r.Selected? ==> creds.Some? && creds.value.JObj? && PyTruthy(r.token)
    ensures r.Selected? ==>
              var f := creds.value.fields;
              && (PyTruthy(PyDictGet(f, "api_token")) ==> r.token == PyDictGet(f, "api_token"))
              && (!PyTruthy(PyDictGet(f, "api_token")) && PyTruthy(PyDictGet(f, "api_key")) ==>
                    r.token == PyDictGet(f, "api_key"))
              && (!PyTruthy(PyDictGet(f, "api_token")) && !PyTruthy(PyDictGet(f, "api_key")) ==>
                    r.token == PyDictGet(f, "token"))
              && r.email == PyOr(PyDictGet(f, "email"), PyDictGet(f, "api_email"))
    ensures r == Unusable(NoToken) <==>
              creds.Some? && PyTruthy(creds.value) && creds.value.JObj?
              && !PyTruthy(PyDictGet(creds.value.fields, "api_token"))
              && !PyTruthy(PyDictGet(creds.value.fields, "api_key"))
              && !PyTruthy(PyDictGet(creds.value.fields, "token"))
  {
    if creds.None? || !PyTruthy(creds.value) then Unusable(NoCredentials)
    else if !creds.value.JObj? then Unusable(Crashed("AttributeError: object has no attribute 'get'"))
    else
      var f := creds.value.fields;
      var token := PyOr(PyOr(PyDictGet(f, "api_token"), PyDictGet(f, "api_key")), PyDictGet(f, "token"));
      var email := PyOr(PyDictGet(f, "email"), PyDictGet(f, "api_email"));
      if !PyTruthy(token) then Unusable(NoToken) else Selected(token, email)
  }

  /** Every request carries `headers`, and only a PUT has a body, which is `DNS_RECORD`. */
  predicate Authenticated(requests: seq<Request>, headers: seq<(string, string)>)
  {
    forall i :: 0 <= i < |requests| ==>
      && requests[i].headers == headers
      && (requests[i].verb == "PUT" <==> requests[i].body.Some?)
      && (requests[i].body.Some? ==> requests[i].body == Some(DnsRecord))
  }

  /** `main`: how it ends and the Cloudflare requests it makes, in order. */
  function Main(awsKeyId: Option<string>, awsSecret: Option<string>, store: PySecrets.Store,
                parse: Parser, pages: seq<ListAnswer>, http: Http): (r: (Outcome, seq<Request>))
    requires ListingEnds(pages)
  {
    if awsKeyId.None? || awsKeyId.value == "" || awsSecret.None? || awsSecret.value == "" then
      (MissingAwsCredentials, [])
    else
      match SelectCredentials(CredentialsOf(store, parse, pages))
      case Unusable(outcome) => (outcome, [])
      case Selected(token, email) => UpdateDns(http, Headers(PyStr(token), email), "beepmedia.com")
  }

  /** The Cloudflare part of `main`: the zone lookup for `domain` (`main` passes
      `beepmedia.com`), then the record update. It makes at least one request, and a
      successful update is the third, a PUT of `DNS_RECORD`. */
  function UpdateDns(http: Http, headers: seq<(string, string)>, domain: string): (r: (Outcome, seq<Request>))
    ensures r.0.Crashed? || r.0.NoZone? || r.0.Finished?
    ensures 1 <= |r.1| <= 3 && r.1[0] == ZoneRequest(headers, domain)
    ensures r.0 == Finished(true) ==> |r.1| == 3 && r.1[2].verb == "PUT" && r.1[2].body == Some(DnsRecord)
  {
    var zone := ZoneId(http, headers, domain);
    var zoneCall := [ZoneRequest(headers, domain)];
    if zone.Failure? then (Crashed(zone.error), zoneCall)
    else if zone.value.None? || !PyTruthy(zone.value.value) then (NoZone, zoneCall)
    else
      var rest := RecordPhase(http, headers, PyStr(zone.value.value));
      (rest.0, zoneCall + rest.1)
  }

  /** `update_record` as `main` calls it: the record lookup, then the PUT if any. */
  function RecordPhase(http: Http, headers: seq<(string, string)>, zoneId: string): (r: (Outcome, seq<Request>))
    ensures r.0.Crashed? || r.0.Finished?
    ensures 1 <= |r.1| <= 2 && r.1[0] == RecordRequest(headers, zoneId, RecordName)
    ensures r.0 == Finished(true) ==> |r.1| == 2 && r.1[1].verb == "PUT" && r.1[1].body == Some(DnsRecord)
  {
    var recordCall := [RecordRequest(headers, zoneId, RecordName)];
    match UpdateRecord(http, headers, zoneId, RecordName)
    case Failure(e) => (Crashed(e), recordCall)
    case Success(u) => (Finished(u.updated), recordCall + u.puts)
  }

  /** One request carrying `headers`, followed by requests that all do, still all do. */
  lemma {:induction false} AuthenticatedCons(first: Request, rest: seq<Request>, headers: seq<(string, string)>)
    requires first.headers == headers && first.verb != "PUT" && first.body.None?
    requires Authenticated(rest, headers)
    ensures Authenticated([first] + rest, headers)
  {
    assert forall i :: 0 < i < |[first] + rest| ==> ([first] + rest)[i] == rest[i - 1];
  }

  /** The record phase sends the given headers on both of its requests. */
  lemma {:induction false} RecordPhaseAuthenticated(http: Http, headers: seq<(string, string)>, zoneId: string)
    ensures Authenticated(RecordPhase(http, headers, zoneId).1, headers)
  {
    var u := UpdateRecord(http, headers, zoneId, RecordName);
    if u.Success? {
      AuthenticatedCons(RecordRequest(headers, zoneId, RecordName), u.value.puts, headers);
    }
  }

  /** The zone lookup and the record phase all send the given headers. */
  lemma {:induction false} UpdateDnsAuthenticated(http: Http, headers: seq<(string, string)>, domain: string)
    ensures Authenticated(UpdateDns(http, headers, domain).1, headers)
  {
    var zone := ZoneId(http, headers, domain);
    if zone.Success? && zone.value.Some? && PyTruthy(zone.value.value) {
      var zoneId := PyStr(zone.value.value);
      RecordPhaseAuthenticated(http, headers, zoneId);
      AuthenticatedCons(ZoneRequest(headers, domain), RecordPhase(http, headers, zoneId).1, headers);
    }
  }

  /** Every Cloudflare request `main` makes carries the headers built from the selected
      token and e-mail; only a PUT has a body, and that body is `DNS_RECORD`. */
  lemma {:induction false} RequestsAuthenticated(awsKeyId: Option<string>, awsSecret: Option<string>,
                                                 store: PySecrets.Store, parse: Parser,
                                                 pages: seq<ListAnswer>, http: Http)
    requires ListingEnds(pages)
    ensures var r := Main(awsKeyId, awsSecret, store, parse, pages, http);
            var sel := SelectCredentials(CredentialsOf(store, parse, pages));
            && (r.1 != [] ==> sel.Selected?)
            && (sel.Selected? ==> Authenticated(r.1, Headers(PyStr(sel.token), sel.email)))
  {
    var sel := SelectCredentials(CredentialsOf(store, parse, pages));
    if sel.Selected? {
      UpdateDnsAuthenticated(http, Headers(PyStr(sel.token), sel.email), "beepmedia.com");
    }
  }

  /** Without AWS credentials, usable Cloudflare credentials or a token, `main` makes no
      Cloudflare request. */
  lemma {:induction false} NoTokenNoRequest(awsKeyId: Option<string>, awsSecret: Option<string>, store: PySecrets.Store,
                         parse: Parser, pages: seq<ListAnswer>, http: Http)
    requires ListingEnds(pages)
    ensures var r := Main(awsKeyId, awsSecret, store, parse, pages, http);
            r.0 == NoToken || r.0 == NoCredentials || r.0 == MissingAwsCredentials ==> r.1 == []
  {
  }
}
