/** The init-container script scripts/inject-secrets.py: it resolves every secret any MCP
    server needs, then writes one JSON file per server holding that server's secrets and
    one combined file, all readable by the owner only. The file system is a map from path
    to file; secret resolution is the Python wrapper's `McpSecret` over its parameters. */
module InjectSecrets {
  import opened Wrappers
  import opened Text
  import opened Json
  import Assoc
  import PySecrets

  /** `MCP_SERVER_SECRETS`: server name and the secret names it needs, in table order. */
  const McpServerSecrets: seq<(string, seq<string>)> := [
    ("notion", ["NOTION_API_KEY"]),
    ("slack", ["SLACK_TOKEN"]),
    ("stripe", ["STRIPE_API_KEY"]),
    ("openai", ["OPENAI_API_KEY"]),
    ("gdrive", ["GOOGLE_SERVICE_ACCOUNT"]),
    ("cloudflare", ["CLOUDFLARE_API_TOKEN"]),
    ("paypal", ["PAYPAL_ACCESS_TOKEN"]),
    ("shopify", ["SHOPIFY_API_KEY"]),
    ("firecrawl", ["FIRECRAWL_API_KEY"]),
    ("elevenlabs", ["ELEVENLABS_API_KEY"]),
    ("alchemy", ["ALCHEMY_API_KEY"]),
    ("sendgrid", ["SENDGRID_API_KEY"]),
    ("twilio", ["TWILIO_CREDENTIALS"]),
    ("perplexity", ["PERPLEXITY_API_KEY"])
  ]

  const SecretsDir: string := "/secrets"

  /** `0o600`. */
  const OwnerReadWrite: int := 384

  /** A file as `json.dump` and `os.chmod` leave it. */
  datatype File = File(content: Json, mode: int)

  /** `os.getenv('USE_BEEPMEDIA_ACCOUNT', 'true').lower() == 'true'`. */
  function UseBeepmedia(env: map<string, string>): (r: bool)
    ensures "USE_BEEPMEDIA_ACCOUNT" !in env ==> r
    ensures "USE_BEEPMEDIA_ACCOUNT" in env && |env["USE_BEEPMEDIA_ACCOUNT"]| != 4 ==> !r
  {
    Lower(if "USE_BEEPMEDIA_ACCOUNT" in env then env["USE_BEEPMEDIA_ACCOUNT"] else "true")
      == "true"
  }

  /** The flag ignores ASCII case; any other spelling, "1" and "yes" included, selects the
      personal account. */
  lemma {:induction false} UseBeepmediaSpellings(env: map<string, string>)
    ensures UseBeepmedia(env["USE_BEEPMEDIA_ACCOUNT" := "TRUE"])
    ensures UseBeepmedia(env["USE_BEEPMEDIA_ACCOUNT" := "True"])
    ensures !UseBeepmedia(env["USE_BEEPMEDIA_ACCOUNT" := "1"])
    ensures !UseBeepmedia(env["USE_BEEPMEDIA_ACCOUNT" := "yes"])
    ensures !UseBeepmedia(env["USE_BEEPMEDIA_ACCOUNT" := "false"])
  {
    assert Lower("TRUE") == "true";
    assert Lower("True") == "true";
  }

  /** The union loop: every secret name some server needs. */
  method CollectSecretNames(servers: seq<(string, seq<string>)>) returns (all: set<string>)
    ensures forall n :: n in all <==> exists i :: 0 <= i < |servers| && n in servers[i].1
  {
    all := {};
    var i := 0;
    while i < |servers|
      invariant 0 <= i <= |servers|
      invariant forall n :: n in all <==> exists j :: 0 <= j < i && n in servers[j].1
    {
      all := all + set n | n in servers[i].1;
      i := i + 1;
    }
  }

  /** How a resolved secret is stored: a dict as it is, anything else as `str(value)`. */
  function Stored(value: Json): (r: Json)
    ensures r.JObj? || r.JStr?
    ensures value.JObj? || value.JStr? ==> r == value
  {
    if value.JObj? then value else JStr(PyStr(value))
  }

  /** `name` resolves, and `v` is how its value is stored. */
  ghost predicate StoredAs(mappings: map<string, string>, store: PySecrets.Store, parse: Parser,
                           useBeepmedia: bool, name: string, v: Json)
  {
    var r := PySecrets.McpSecret(mappings, store, parse, name, useBeepmedia);
    r.Success? && v == Stored(r.value)
  }

  /** The fetch loop over the set of names (in the set's iteration order, which Python
      leaves unspecified): each name that resolves is stored once, each that fails is
      reported and skipped. */
  method FetchSecrets(names: set<string>, mappings: map<string, string>,
                      store: PySecrets.Store, parse: Parser, now: int, useBeepmedia: bool)
    returns (data: seq<(string, Json)>, failed: set<string>)
    ensures Assoc.DistinctKeys(data)
    ensures forall n :: n in Assoc.Keys(data) <==>
              n in names && PySecrets.McpSecret(mappings, store, parse, n, useBeepmedia).Success?
    ensures forall i :: 0 <= i < |data| ==>
              StoredAs(mappings, store, parse, useBeepmedia, data[i].0, data[i].1)
    ensures failed == names - Assoc.Keys(data)
  {
    data := [];
    failed := {};
    var remaining := names;
    while remaining != {}
      invariant remaining <= names
      invariant Assoc.DistinctKeys(data)
      invariant forall n :: n in Assoc.Keys(data) <==>
                  (n in names - remaining
                   && PySecrets.McpSecret(mappings, store, parse, n, useBeepmedia).Success?)
      invariant forall i :: 0 <= i < |data| ==>
                  StoredAs(mappings, store, parse, useBeepmedia, data[i].0, data[i].1)
      invariant failed == (names - remaining) - Assoc.Keys(data)
      decreases remaining
    {
      var name :| name in remaining;
      var value := PySecrets.GetMcpSecret(mappings, store, parse, now, name, useBeepmedia);
      if value.Success? {
        Assoc.PutKeepsKeysDistinct(data, name, Stored(value.value));
        data := Assoc.Put(data, name, Stored(value.value));
      } else {
        failed := failed + {name};
      }
      remaining := remaining - {name};
    }
  }

  /** One server's dict: the secrets it needs that were fetched, in the order it lists
      them. */
  function ServerSecrets(required: seq<string>, data: seq<(string, Json)>)
    : (r: seq<(string, Json)>)
    ensures Assoc.Keys(r) == (set s | s in required) * Assoc.Keys(data)
    ensures forall s :: s in Assoc.Keys(r) ==> Assoc.Get(r, s) == Assoc.Get(data, s)
    decreases |required|
  {
    if required == [] then []
    else
      var last := required[|required| - 1];
      var init := required[..|required| - 1];
      assert required == init + [last];
      var r0 := ServerSecrets(init, data);
      if last in Assoc.Keys(data) then Assoc.Put(r0, last, Assoc.Get(data, last).value) else r0
  }

  /** The inner loop of the file-writing pass. */
  method ServerSecretsOf(required: seq<string>, data: seq<(string, Json)>)
    returns (r: seq<(string, Json)>)
    ensures r == ServerSecrets(required, data)
  {
    r := [];
    var i := 0;
    while i < |required|
      invariant 0 <= i <= |required|
      invariant r == ServerSecrets(required[..i], data)
    {
      var secret := required[i];
      assert required[..i + 1][..i] == required[..i];
      if secret in Assoc.Keys(data) {
        r := Assoc.Put(r, secret, Assoc.Get(data, secret).value);
      }
      i := i + 1;
    }
    assert required[..i] == required;
  }

  /** `os.path.join('/secrets', f'{server}.json')`. */
  function ServerPath(server: string): string
  {
    PathJoin(SecretsDir, server + ".json")
  }

  /** The path the `k`-th server's file is written to. */
  function PathOf(servers: seq<(string, seq<string>)>, k: int): string
    requires 0 <= k < |servers|
  {
    ServerPath(servers[k].0)
  }

  /** The file the `k`-th server's pass writes. */
  function FileOf(servers: seq<(string, seq<string>)>, k: int, data: seq<(string, Json)>): File
    requires 0 <= k < |servers|
  {
    File(JObj(ServerSecrets(servers[k].1, data)), OwnerReadWrite)
  }

  /** The paths the first `n` servers write. */
  function Paths(servers: seq<(string, seq<string>)>, n: int): set<string>
    requires 0 <= n <= |servers|
  {
    set k | 0 <= k < n :: PathOf(servers, k)
  }

  /** No server after the `k`-th, among the first `n`, writes the same path. */
  predicate LastWriter(servers: seq<(string, seq<string>)>, k: int, n: int)
    requires 0 <= k < n <= |servers|
  {
    forall j :: k < j < n ==> PathOf(servers, j) != PathOf(servers, k)
  }

  /** The files after the first `n` servers' writes, each replacing what its path held. */
  function Written(files: map<string, File>, servers: seq<(string, seq<string>)>, n: int,
                   data: seq<(string, Json)>): map<string, File>
    requires 0 <= n <= |servers|
    decreases n
  {
    if n == 0 then files
    else Written(files, servers, n - 1, data)[PathOf(servers, n - 1) := FileOf(servers, n - 1, data)]
  }

  lemma {:induction false} PathsStep(servers: seq<(string, seq<string>)>, n: int)
    requires 0 < n <= |servers|
    ensures Paths(servers, n) == Paths(servers, n - 1) + {PathOf(servers, n - 1)}
  {
  }

  /** The writes add exactly the servers' paths. */
  lemma {:induction false} WrittenKeys(files: map<string, File>, servers: seq<(string, seq<string>)>,
                                       n: int, data: seq<(string, Json)>)
    requires 0 <= n <= |servers|
    ensures Written(files, servers, n, data).Keys == files.Keys + Paths(servers, n)
    decreases n
  {
    if n > 0 {
      WrittenKeys(files, servers, n - 1, data);
      PathsStep(servers, n);
    }
  }

  /** A path no server writes keeps its old file. */
  lemma {:induction false} WrittenKeeps(files: map<string, File>, servers: seq<(string, seq<string>)>,
                                        n: int, data: seq<(string, Json)>, p: string)
    requires 0 <= n <= |servers|
    requires p in files && p !in Paths(servers, n)
    ensures p in Written(files, servers, n, data)
    ensures Written(files, servers, n, data)[p] == files[p]
    decreases n
  {
    if n > 0 {
      PathsStep(servers, n);
      WrittenKeeps(files, servers, n - 1, data, p);
    }
  }

  /** The last server to write a path decides its content. */
  lemma {:induction false} WrittenLast(files: map<string, File>, servers: seq<(string, seq<string>)>,
                                       n: int, data: seq<(string, Json)>, k: int)
    requires 0 <= k < n <= |servers|
    requires LastWriter(servers, k, n)
    ensures PathOf(servers, k) in Written(files, servers, n, data)
    ensures Written(files, servers, n, data)[PathOf(servers, k)] == FileOf(servers, k, data)
    decreases n
  {
    if k < n - 1 {
      assert PathOf(servers, n - 1) != PathOf(servers, k);
      assert LastWriter(servers, k, n - 1);
      WrittenLast(files, servers, n - 1, data, k);
    }
  }

  /** After all the writes: the servers' paths are added, every other path keeps its
      file, and each path holds what its last writer wrote. */
  lemma {:induction false} WrittenAll(files: map<string, File>, servers: seq<(string, seq<string>)>,
                                      data: seq<(string, Json)>)
    ensures Written(files, servers, |servers|, data).Keys == files.Keys + Paths(servers, |servers|)
    ensures forall p :: p in files && p !in Paths(servers, |servers|) ==>
              Written(files, servers, |servers|, data)[p] == files[p]
    ensures forall k :: 0 <= k < |servers| && LastWriter(servers, k, |servers|) ==>
              Written(files, servers, |servers|, data)[PathOf(servers, k)] == FileOf(servers, k, data)
  {
    var written := Written(files, servers, |servers|, data);
    WrittenKeys(files, servers, |servers|, data);
    forall p | p in files && p !in Paths(servers, |servers|)
      ensures written[p] == files[p]
    {
      WrittenKeeps(files, servers, |servers|, data, p);
    }
    forall k | 0 <= k < |servers| && LastWriter(servers, k, |servers|)
      ensures written[PathOf(servers, k)] == FileOf(servers, k, data)
    {
      WrittenLast(files, servers, |servers|, data, k);
    }
  }

  /** `os.path.join('/secrets', 'all-secrets.json')`. */
  const CombinedPath: string := PathJoin(SecretsDir, "all-secrets.json")

  /** A server name that does not start with `/` lands directly under `/secrets`. */
  lemma {:induction false} ServerPathShape(server: string)
    requires server != "" && server[0] != '/'
    ensures ServerPath(server) == "/secrets/" + server + ".json"
  {
    assert (server + ".json")[0] == server[0];
    assert !StartsWith(server + ".json", "/");
  }

  /** Two such names share a path only when they are the same name. */
  lemma {:induction false} ServerPathInjective(a: string, b: string)
    requires a != "" && a[0] != '/' && b != "" && b[0] != '/'
    requires ServerPath(a) == ServerPath(b)
    ensures a == b
  {
    ServerPathShape(a);
    ServerPathShape(b);
    var pa := ServerPath(a);
    assert a == pa[9..|pa| - 5];
    assert b == pa[9..|pa| - 5];
  }

  /** Every server of the table writes its own file, and none of them is the combined
      file: each path has exactly one writer. */
  lemma TablePathsDistinct()
    ensures forall j, k :: 0 <= j < k < |McpServerSecrets| ==>
              PathOf(McpServerSecrets, j) != PathOf(McpServerSecrets, k)
    ensures forall k :: 0 <= k < |McpServerSecrets| ==> PathOf(McpServerSecrets, k) != CombinedPath
  {
    var names := seq(|McpServerSecrets|, i requires 0 <= i < |McpServerSecrets| => McpServerSecrets[i].0);
    assert names == ["notion", "slack", "stripe", "openai", "gdrive", "cloudflare", "paypal",
                     "shopify", "firecrawl", "elevenlabs", "alchemy", "sendgrid", "twilio", "perplexity"];
    forall j, k | 0 <= j < k < |McpServerSecrets|
      ensures PathOf(McpServerSecrets, j) != PathOf(McpServerSecrets, k)
    {
      if PathOf(McpServerSecrets, j) == PathOf(McpServerSecrets, k) {
        ServerPathInjective(names[j], names[k]);
        assert false;
      }
    }
    assert "all-secrets"[0] == 'a' && "all-secrets"[1] == 'l';
    forall k | 0 <= k < |McpServerSecrets|
      ensures PathOf(McpServerSecrets, k) != CombinedPath
    {
      assert CombinedPath == ServerPath("all-secrets");
    }
  }

  /** The per-server pass: each server's file is written in turn, with mode 0o600. */
  method WriteServerFiles(files: map<string, File>, servers: seq<(string, seq<string>)>,
                          data: seq<(string, Json)>)
    returns (files': map<string, File>)
    ensures files' == Written(files, servers, |servers|, data)
  {
    files' := files;
    var i := 0;
    while i < |servers|
      invariant 0 <= i <= |servers|
      invariant files' == Written(files, servers, i, data)
    {
      var (server, required) := servers[i];
      var serverSecrets := ServerSecretsOf(required, data);
      assert ServerPath(server) == PathOf(servers, i);
      assert File(JObj(serverSecrets), OwnerReadWrite) == FileOf(servers, i, data);
      files' := files'[ServerPath(server) := File(JObj(serverSecrets), OwnerReadWrite)];
      i := i + 1;
    }
  }

  /** `inject_secrets`: fetch everything, write the per-server files, then the combined
      file `all-secrets.json`, which holds every fetched secret. Each path of the table has
      one writer, so every server's file holds exactly its own fetched secrets; `failed`
      names exactly the needed secrets whose lookup fails. */
  method InjectAll(env: map<string, string>, files: map<string, File>,
                   mappings: map<string, string>, store: PySecrets.Store, parse: Parser,
                   now: int)
    returns (files': map<string, File>, data: seq<(string, Json)>, failed: set<string>)
    ensures forall n :: n in Assoc.Keys(data) <==>
              (exists i :: 0 <= i < |McpServerSecrets| && n in McpServerSecrets[i].1)
              && PySecrets.McpSecret(mappings, store, parse, n, UseBeepmedia(env)).Success?
    ensures forall i :: 0 <= i < |data| ==>
              StoredAs(mappings, store, parse, UseBeepmedia(env), data[i].0, data[i].1)
    ensures forall n :: n in failed <==>
              (exists i :: 0 <= i < |McpServerSecrets| && n in McpServerSecrets[i].1)
              && PySecrets.McpSecret(mappings, store, parse, n, UseBeepmedia(env)).Failure?
    ensures files' == Written(files, McpServerSecrets, |McpServerSecrets|, data)
                        [CombinedPath := File(JObj(data), OwnerReadWrite)]
    ensures files'.Keys == files.Keys + Paths(McpServerSecrets, |McpServerSecrets|) + {CombinedPath}
    ensures forall i :: 0 <= i < |McpServerSecrets| ==>
              PathOf(McpServerSecrets, i) in files'
              && files'[PathOf(McpServerSecrets, i)]
                 == File(JObj(ServerSecrets(McpServerSecrets[i].1, data)), OwnerReadWrite)
    ensures files'[CombinedPath] == File(JObj(data), OwnerReadWrite)
    ensures forall p :: p in files && p != CombinedPath && p !in Paths(McpServerSecrets, |McpServerSecrets|) ==>
              files'[p] == files[p]
  {
    var useBeepmedia := UseBeepmedia(env);
    var all := CollectSecretNames(McpServerSecrets);
    data, failed := FetchSecrets(all, mappings, store, parse, now, useBeepmedia);
    files' := WriteServerFiles(files, McpServerSecrets, data);
    TablePathsDistinct();
    OneWriterEach(files, McpServerSecrets, data);
    files' := files'[CombinedPath := File(JObj(data), OwnerReadWrite)];
  }

  /** With one writer per path, none of them the combined file, each server's path holds
      its own file once the combined file is written too. */
  lemma {:induction false} OneWriterEach(files: map<string, File>, servers: seq<(string, seq<string>)>,
                                         data: seq<(string, Json)>)
    requires forall j, k :: 0 <= j < k < |servers| ==> PathOf(servers, j) != PathOf(servers, k)
    requires forall k :: 0 <= k < |servers| ==> PathOf(servers, k) != CombinedPath
    ensures var after := Written(files, servers, |servers|, data)[CombinedPath := File(JObj(data), OwnerReadWrite)];
            && after.Keys == files.Keys + Paths(servers, |servers|) + {CombinedPath}
            && (forall i :: 0 <= i < |servers| ==>
                  PathOf(servers, i) in after && after[PathOf(servers, i)] == FileOf(servers, i, data))
            && (forall p :: p in files && p != CombinedPath && p !in Paths(servers, |servers|) ==>
                  after[p] == files[p])
  {
    WrittenAll(files, servers, data);
    assert forall k :: 0 <= k < |servers| ==> LastWriter(servers, k, |servers|);
    assert forall i :: 0 <= i < |servers| ==> PathOf(servers, i) in Paths(servers, |servers|);
  }

  /** A server none of whose secrets was fetched still gets a file: an empty object. */
  lemma {:induction false} NothingFetchedEmptyFile(required: seq<string>, data: seq<(string, Json)>)
    requires forall s :: s in required ==> s !in Assoc.Keys(data)
    ensures ServerSecrets(required, data) == []
    decreases |required|
  {
    if required != [] {
      var init := required[..|required| - 1];
      NothingFetchedEmptyFile(init, data);
    }
  }

  /** A name mapped nowhere, under either account, never resolves. */
  lemma {:induction false} UnmappedFails(mappings: map<string, string>, store: PySecrets.Store, parse: Parser,
                      name: string, useBeepmedia: bool)
    requires name !in mappings && name + "_BEEPMEDIA" !in mappings
    ensures PySecrets.McpSecret(mappings, store, parse, name, useBeepmedia)
         == Failure("Unknown MCP secret: " + name)
  {
  }

  /** The gdrive server needs GOOGLE_SERVICE_ACCOUNT, which the mapping table lacks, so
      its file is always the empty object, whatever the store holds. */
  lemma {:induction false} GdriveAlwaysEmpty(store: PySecrets.Store, parse: Parser, env: map<string, string>,
                          files: map<string, File>, data: seq<(string, Json)>)
    requires forall n :: n in Assoc.Keys(data) ==>
               PySecrets.McpSecret(PySecrets.McpSecretMappings, store, parse, n, UseBeepmedia(env)).Success?
    ensures McpServerSecrets[4] == ("gdrive", ["GOOGLE_SERVICE_ACCOUNT"])
    ensures ServerSecrets(McpServerSecrets[4].1, data) == []
  {
    var s := "GOOGLE_SERVICE_ACCOUNT";
    assert s !in PySecrets.McpSecretMappings;
    assert s + "_BEEPMEDIA" !in PySecrets.McpSecretMappings;
    UnmappedFails(PySecrets.McpSecretMappings, store, parse, s, UseBeepmedia(env));
    NothingFetchedEmptyFile(McpServerSecrets[4].1, data);
  }
}
