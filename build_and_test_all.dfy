/** The build-and-test suite (scripts/build-and-test-all.py). For every configured MCP
    server it makes sure a Dockerfile exists (writing a template for the server's type when
    it is missing), builds the image, and only after a successful build runs the container
    on an `initialize` request and probes its output. Results are recorded per server, a
    server whose run raises is recorded as an error, and the report tallies the passes.
    Shell commands and the disk are oracles; the clock and the printed text are left out. */
module BuildAndTestAll {
  import opened Wrappers
  import opened Text
  import opened Json
  import Assoc
  import opened ResponseProbe

  const ReposPath := PathJoin(BasePath, "repos")
  const DockerfilesPath := PathJoin(BasePath, "dockerfiles")

  /** One entry of `MCP_SERVERS`; `location` is the optional `dockerfile_location`. */
  datatype ServerEntry = ServerEntry(path: string, dockerfile: string, location: Option<string>,
                                     serverType: string, env: seq<(string, string)>)

  const McpServers: seq<(string, ServerEntry)> := [
    ("mcp-aws", ServerEntry("mcp-aws/src/core-mcp-server", "Dockerfile", None, "python",
       [("AWS_ACCESS_KEY_ID", "test"), ("AWS_SECRET_ACCESS_KEY", "test"), ("AWS_REGION", "us-east-1")])),
    ("mcp-google-workspace", ServerEntry("mcp-google-workspace", "Dockerfile", None, "python",
       [("GOOGLE_APPLICATION_CREDENTIALS", "/tmp/test.json")])),
    ("mcp-google-sheets", ServerEntry("mcp-google-sheets", "Dockerfile.mcp-google-sheets",
       Some("dockerfiles"), "python", [("GOOGLE_SERVICE_ACCOUNT_JSON", "{}")])),
    ("mcp-pdf-reader", ServerEntry("mcp-pdf-reader", "Dockerfile", None, "python", [])),
    ("mcp-openai", ServerEntry("mcp-openai", "Dockerfile", None, "python",
       [("OPENAI_API_KEY", "sk-test-123")])),
    ("mcp-notion", ServerEntry("mcp-notion", "Dockerfile", None, "node",
       [("NOTION_API_KEY", "secret_test_123")])),
    ("mcp-gdrive", ServerEntry("mcp-gdrive", "Dockerfile.mcp-gdrive", Some("dockerfiles"), "node",
       [("GOOGLE_APPLICATION_CREDENTIALS", "/tmp/test.json")])),
    ("mcp-cloudflare", ServerEntry("mcp-cloudflare", "Dockerfile", None, "node",
       [("CLOUDFLARE_API_TOKEN", "test_token")])),
    ("mcp-stripe", ServerEntry("mcp-stripe", "Dockerfile", None, "node",
       [("STRIPE_API_KEY", "sk_test_123")])),
    ("mcp-paypal", ServerEntry("mcp-paypal", "Dockerfile", None, "node",
       [("PAYPAL_ACCESS_TOKEN", "test_token")])),
    ("mcp-shopify", ServerEntry("mcp-shopify", "Dockerfile", None, "node",
       [("SHOPIFY_API_KEY", "test_key")])),
    ("mcp-firecrawl", ServerEntry("mcp-firecrawl", "Dockerfile", None, "node",
       [("FIRECRAWL_API_KEY", "test_key")])),
    ("mcp-elevenlabs", ServerEntry("mcp-elevenlabs", "Dockerfile", None, "node",
       [("ELEVENLABS_API_KEY", "test_key")])),
    ("mcp-docker", ServerEntry("mcp-docker", "Dockerfile", None, "node", [])),
    ("mcp-redis", ServerEntry("mcp-redis", "Dockerfile", None, "node",
       [("REDIS_URL", "redis://localhost:6379")])),
    ("mcp-alchemy", ServerEntry("mcp-alchemy", "Dockerfile", None, "node",
       [("ALCHEMY_API_KEY", "test_key")])),
    ("mcp-slack", ServerEntry("mcp-slack", "Dockerfile", None, "go",
       [("SLACK_BOT_TOKEN", "xoxb-test"), ("SLACK_APP_TOKEN", "xapp-test")])),
    ("mcp-filesystem", ServerEntry("mcp-servers-official/src/filesystem", "Dockerfile", None, "node", [])),
    ("mcp-screenshot", ServerEntry("mcp-servers-official/src/screenshot", "Dockerfile", None, "node", []))
  ]

  /** The table names every server once, so each one's row is its own. */
  lemma ServerNamesDistinct()
    ensures forall i, j :: 0 <= i < j < |McpServers| ==> McpServers[i].0 != McpServers[j].0
  {
    var names := seq(|McpServers|, i requires 0 <= i < |McpServers| => McpServers[i].0);
    assert names == ["mcp-aws", "mcp-google-workspace", "mcp-google-sheets", "mcp-pdf-reader",
                     "mcp-openai", "mcp-notion", "mcp-gdrive", "mcp-cloudflare", "mcp-stripe",
                     "mcp-paypal", "mcp-shopify", "mcp-firecrawl", "mcp-elevenlabs", "mcp-docker",
                     "mcp-redis", "mcp-alchemy", "mcp-slack", "mcp-filesystem", "mcp-screenshot"];
  }

  /** The Dockerfile a server is built from: under the shared `dockerfiles` directory when
      its location says so, else inside its repository. */
  function DockerfilePath(config: ServerEntry): (r: string)
    ensures config.location == Some("dockerfiles") ==> r == PathJoin(DockerfilesPath, config.dockerfile)
    ensures config.location != Some("dockerfiles") ==>
              r == PathJoin(PathJoin(ReposPath, config.path), config.dockerfile)
  {
    if config.location == Some("dockerfiles") then PathJoin(DockerfilesPath, config.dockerfile)
    else PathJoin(PathJoin(ReposPath, config.path), config.dockerfile)
  }

  const PythonTemplate := "FROM python:3.11-slim\n" + "WORKDIR /app\n"
    + "COPY requirements.txt* pyproject.toml* ./\n"
    + "RUN pip install --no-cache-dir -r requirements.txt || pip install --no-cache-dir .\n"
    + "COPY . .\n" + "CMD [\"python\", \"-m\", \"mcp_server\"]\n"
  const NodeTemplate := "FROM node:20-slim\n" + "WORKDIR /app\n" + "COPY package*.json ./\n"
    + "RUN npm ci --only=production\n" + "COPY . .\n" + "CMD [\"node\", \"index.js\"]\n"
  const GoTemplate := "FROM golang:1.21-alpine AS builder\n" + "WORKDIR /app\n" + "COPY go.* ./\n"
    + "RUN go mod download\n" + "COPY . .\n" + "RUN go build -o mcp-server .\n" + "\n"
    + "FROM alpine:latest\n" + "RUN apk --no-cache add ca-certificates\n" + "WORKDIR /root/\n"
    + "COPY --from=builder /app/mcp-server .\n" + "CMD [\"./mcp-server\"]\n"
  const UbuntuTemplate := "FROM ubuntu:22.04\n" + "WORKDIR /app\n" + "COPY . .\n" + "CMD [\"/bin/bash\"]\n"

  /** The generated Dockerfile for a server type; any type but the three known ones gets
      the generic Ubuntu image. */
  function Template(serverType: string): (r: string)
    ensures serverType == "python" <==> r == PythonTemplate
    ensures serverType == "node" <==> r == NodeTemplate
    ensures serverType == "go" <==> r == GoTemplate
    ensures r == UbuntuTemplate <==> serverType != "python" && serverType != "node" && serverType != "go"
  {
    assert PythonTemplate[5] == 'p' && NodeTemplate[5] == 'n' && GoTemplate[5] == 'g' && UbuntuTemplate[5] == 'u';
    if serverType == "python" then PythonTemplate
    else if serverType == "node" then NodeTemplate
    else if serverType == "go" then GoTemplate
    else UbuntuTemplate
  }

  /** `json.dumps` of the `initialize` request the suite sends. */
  const InitRequest := "{\"jsonrpc\": \"2.0\", \"method\": \"initialize\", \"params\": {\"protocolVersion\": \"1.0.0\", \"capabilities\": {}, \"clientInfo\": {\"name\": \"test-client\", \"version\": \"1.0.0\"}}, \"id\": 1}"

  function BuildCommand(name: string, config: ServerEntry): string
  {
    "docker build -t " + name + ":test -f " + DockerfilePath(config) + " " + PathJoin(ReposPath, config.path)
  }

  function SizeCommand(name: string): string
  {
    "docker images " + name + ":test --format '{{.Size}}'"
  }

  function RunCommand(name: string, config: ServerEntry): string
  {
    "echo '" + InitRequest + "' | docker run -i --rm " + EnvVars(config.env) + " " + name + ":test"
  }

  /** The protocol check on the container's output: a response line in non-empty stdout,
      or else stderr that mentions "error" in any case. */
  predicate ProtocolPasses(out: CommandResult, parse: Parser)
  {
    (out.stdout != "" && Scan(parse, StdoutLines(out.stdout)) == Found)
    || (out.stderr != "" && Contains(Lower(out.stderr), "error"))
  }

  /** Any stderr that mentions an error passes the check, whatever stdout holds. */
  lemma {:induction false} StderrFallback(out: CommandResult, parse: Parser)
    requires Contains(Lower(out.stderr), "error")
    ensures ProtocolPasses(out, parse)
  {
  }

  /** The check on one command result, proved against `ProtocolPasses`. */
  method CheckProtocol(out: CommandResult, parse: Parser) returns (passed: bool)
    ensures passed == ProtocolPasses(out, parse)
  {
    if out.stdout != "" {
      var found := ScanLines(parse, StdoutLines(out.stdout));
      if found {
        return true;
      }
    }
    passed := out.stderr != "" && Contains(Lower(out.stderr), "error");
  }

  /** One row of `self.results`. */
  datatype TestResult = TestResult(serverType: string, build: bool, protocol: bool,
                                   status: string, error: Option<string>)

  /** The protocol step ran only after a build, the status is "Passed" exactly when both
      succeeded, and an error row records neither. */
  predicate Consistent(r: TestResult)
  {
    && (r.protocol ==> r.build)
    && (r.status == "Passed" <==> r.build && r.protocol)
    && (r.status == "Passed" || r.status == "Failed" || r.status == "Error")
    && (r.status == "Error" <==> r.error.Some?)
    && (r.status == "Error" ==> !r.build && !r.protocol)
  }

  predicate AllConsistent(rows: seq<(string, TestResult)>)
  {
    forall i :: 0 <= i < |rows| ==> Consistent(rows[i].1)
  }

  lemma {:induction false} PutKeepsConsistent(rows: seq<(string, TestResult)>, k: string, v: TestResult)
    requires AllConsistent(rows) && Consistent(v)
    ensures AllConsistent(Assoc.Put(rows, k, v))
    decreases |rows|
  {
    if rows != [] && rows[0].0 != k {
      PutKeepsConsistent(rows[1..], k, v);
      assert Assoc.Put(rows, k, v) == [rows[0]] + Assoc.Put(rows[1..], k, v);
    }
  }

  /** What `test_server` records for a server once its Dockerfile is in place. */
  function Outcome(shell: Shell, parse: Parser, name: string, config: ServerEntry): (r: TestResult)
    ensures Consistent(r) && r.error.None? && r.serverType == config.serverType
    ensures r.build == shell(BuildCommand(name, config)).ok
    ensures r.status == "Passed" <==>
              shell(BuildCommand(name, config)).ok && ProtocolPasses(shell(RunCommand(name, config)), parse)
  {
    var built := shell(BuildCommand(name, config)).ok;
    var protocol := built && ProtocolPasses(shell(RunCommand(name, config)), parse);
    TestResult(config.serverType, built, protocol, if built && protocol then "Passed" else "Failed", None)
  }

  /** The row an exception leaves. */
  function ErrorRow(config: ServerEntry, message: string): (r: TestResult)
    ensures Consistent(r) && r.status == "Error" && r.error == Some(message)
  {
    TestResult(config.serverType, false, false, "Error", Some(message))
  }

  /** A passed row whose type has no counter: `by_type[server_type] += 1` raises. */
  predicate UnknownPassed(r: TestResult)
  {
    r.status == "Passed" && r.serverType != "python" && r.serverType != "node" && r.serverType != "go"
  }

  /** The type of the first passed row without a counter, if any. */
  function FirstUnknown(rows: seq<(string, TestResult)>): (r: Option<string>)
    ensures r.None? <==> forall i :: 0 <= i < |rows| ==> !UnknownPassed(rows[i].1)
    decreases |rows|
  {
    if rows == [] then None
    else
      var init := rows[..|rows| - 1];
      var first := FirstUnknown(init);
      assert forall i :: 0 <= i < |init| ==> init[i] == rows[i];
      if first.Some? then first
      else if UnknownPassed(rows[|rows| - 1].1) then Some(rows[|rows| - 1].1.serverType)
      else None
  }

  /** Once a prefix has an unknown passed type, the whole sequence reports that one. */
  lemma {:induction false} FirstUnknownPrefix(rows: seq<(string, TestResult)>, n: nat)
    requires n <= |rows| && FirstUnknown(rows[..n]).Some?
    ensures FirstUnknown(rows) == FirstUnknown(rows[..n])
    decreases |rows| - n
  {
    if n < |rows| {
      assert rows[..|rows| - 1][..n] == rows[..n];
      FirstUnknownPrefix(rows[..|rows| - 1], n);
    } else {
      assert rows[..n] == rows;
    }
  }

  /** A row's status. */
  function StatusOf(r: TestResult): string
  {
    r.status
  }

  /** The number of passed rows of one type. */
  function PassedOfType(rows: seq<(string, TestResult)>, t: string): nat
    decreases |rows|
  {
    if rows == [] then 0
    else
      var last := rows[|rows| - 1].1;
      PassedOfType(rows[..|rows| - 1], t) + (if last.status == "Passed" && last.serverType == t then 1 else 0)
  }

  /** Without an unknown passed type, the passes are exactly those counted by type. */
  lemma {:induction false} PassedByType(rows: seq<(string, TestResult)>)
    requires FirstUnknown(rows).None?
    ensures CountPassed(rows, StatusOf)
            == PassedOfType(rows, "python") + PassedOfType(rows, "node") + PassedOfType(rows, "go")
    decreases |rows|
  {
    if rows != [] {
      var init := rows[..|rows| - 1];
      assert forall i :: 0 <= i < |init| ==> init[i] == rows[i];
      PassedByType(init);
      assert !UnknownPassed(rows[|rows| - 1].1);
    }
  }

  /** The saved report: the totals and the rows. */
  datatype Report = Report(totalServers: nat, passed: nat, byType: seq<(string, nat)>,
                           results: seq<(string, TestResult)>)

  /** What `generate_report` produces for the rows, or the `KeyError` it raises. */
  function ReportOf(rows: seq<(string, TestResult)>): (r: Result<Report>)
    ensures r.Success? <==> forall i :: 0 <= i < |rows| ==> !UnknownPassed(rows[i].1)
    ensures r.Success? ==> r.value.totalServers == |rows| && r.value.passed == CountPassed(rows, StatusOf)
  {
    match FirstUnknown(rows)
    case Some(t) => Failure("KeyError: '" + t + "'")
    case None =>
      Success(Report(|rows|, CountPassed(rows, StatusOf),
                     [("python", PassedOfType(rows, "python")), ("node", PassedOfType(rows, "node")),
                      ("go", PassedOfType(rows, "go"))], rows))
  }

  /** Whether a path can be written: `None`, or the message of the exception writing it raises. */
  type Disk = string -> Option<string>

  /** The exception the Dockerfile check raises for a server, given the files at that
      moment: only a missing file whose template cannot be written raises. */
  function RunError(disk: Disk, files: map<string, string>, config: ServerEntry): Option<string>
  {
    var path := DockerfilePath(config);
    if path in files then None else disk(path)
  }

  /** The commands `test_server` runs once the Dockerfile is in place: the build, and
      after a successful build the size query and the protocol run. */
  function CommandsOf(shell: Shell, name: string, config: ServerEntry): seq<string>
  {
    [BuildCommand(name, config)]
      + (if shell(BuildCommand(name, config)).ok then [SizeCommand(name), RunCommand(name, config)] else [])
  }

  /** The suite's state between servers: the rows, the files on disk and the commands run. */
  datatype Progress = Progress(rows: seq<(string, TestResult)>, files: map<string, string>,
                               commands: seq<string>)

  /** One iteration of `run_all_tests` on the state: a server whose Dockerfile check raises
      gets an error row and changes nothing else; otherwise its template is written if
      missing, its commands run and its outcome recorded. */
  function RunStep(shell: Shell, parse: Parser, disk: Disk, p: Progress, name: string,
                   config: ServerEntry): Progress
  {
    var err := RunError(disk, p.files, config);
    if err.Some? then Progress(Assoc.Put(p.rows, name, ErrorRow(config, err.value)), p.files, p.commands)
    else
      var path := DockerfilePath(config);
      Progress(Assoc.Put(p.rows, name, Outcome(shell, parse, name, config)),
               if path in p.files then p.files else p.files[path := Template(config.serverType)],
               p.commands + CommandsOf(shell, name, config))
  }

  /** `run_all_tests`' loop: the servers run in table order. */
  function RunFold(shell: Shell, parse: Parser, disk: Disk, start: Progress,
                   servers: seq<(string, ServerEntry)>): Progress
    decreases |servers|
  {
    if servers == [] then start
    else
      var last := servers[|servers| - 1];
      RunStep(shell, parse, disk, RunFold(shell, parse, disk, start, servers[..|servers| - 1]), last.0, last.1)
  }

  /** The row a server ends up with, told from the files before the run: an error row
      exactly when its Dockerfile was missing and the template could not be written,
      otherwise its outcome. */
  function ExpectedRow(shell: Shell, parse: Parser, disk: Disk, files: map<string, string>,
                       name: string, config: ServerEntry): TestResult
  {
    var path := DockerfilePath(config);
    if path !in files && disk(path).Some? then ErrorRow(config, disk(path).value)
    else Outcome(shell, parse, name, config)
  }

  /** Files are only ever added, and a path the disk refuses is never added. */
  lemma {:induction false} RunFoldFiles(shell: Shell, parse: Parser, disk: Disk, start: Progress,
                                        servers: seq<(string, ServerEntry)>)
    ensures forall p :: p in start.files ==> p in RunFold(shell, parse, disk, start, servers).files
    ensures forall p :: p !in start.files && disk(p).Some? ==>
              p !in RunFold(shell, parse, disk, start, servers).files
    decreases |servers|
  {
    if servers != [] {
      RunFoldFiles(shell, parse, disk, start, servers[..|servers| - 1]);
    }
  }

  /** One step records the server's row and leaves every other row alone. */
  lemma {:induction false} RunStepRows(shell: Shell, parse: Parser, disk: Disk, p: Progress,
                                       name: string, config: ServerEntry)
    ensures var err := RunError(disk, p.files, config);
            Assoc.Get(RunStep(shell, parse, disk, p, name, config).rows, name)
              == Some(if err.Some? then ErrorRow(config, err.value) else Outcome(shell, parse, name, config))
    ensures forall k :: k != name ==>
              Assoc.Get(RunStep(shell, parse, disk, p, name, config).rows, k) == Assoc.Get(p.rows, k)
  {
  }

  /** With distinct server names, each server's row after the run is its expected row. */
  lemma {:induction false} RunFoldRows(shell: Shell, parse: Parser, disk: Disk, start: Progress,
                                       servers: seq<(string, ServerEntry)>)
    requires forall i, j :: 0 <= i < j < |servers| ==> servers[i].0 != servers[j].0
    ensures forall i :: 0 <= i < |servers| ==>
              Assoc.Get(RunFold(shell, parse, disk, start, servers).rows, servers[i].0)
                == Some(ExpectedRow(shell, parse, disk, start.files, servers[i].0, servers[i].1))
    decreases |servers|
  {
    if servers != [] {
      var n := |servers|;
      var init := servers[..n - 1];
      var name := servers[n - 1].0;
      var config := servers[n - 1].1;
      var q := RunFold(shell, parse, disk, start, init);
      var after := RunFold(shell, parse, disk, start, servers);
      assert after == RunStep(shell, parse, disk, q, name, config);
      RunStepRows(shell, parse, disk, q, name, config);
      RunFoldRows(shell, parse, disk, start, init);
      RunFoldFiles(shell, parse, disk, start, init);
      var path := DockerfilePath(config);
      assert path !in start.files && disk(path).Some? ==> path !in q.files;
      assert path in start.files ==> path in q.files;
      assert Assoc.Get(after.rows, name) == Some(ExpectedRow(shell, parse, disk, start.files, name, config));
      forall i | 0 <= i < n - 1
        ensures Assoc.Get(after.rows, servers[i].0)
                == Some(ExpectedRow(shell, parse, disk, start.files, servers[i].0, servers[i].1))
      {
        assert init[i] == servers[i];
        assert servers[i].0 != name;
      }
    }
  }

  /** `RunFoldRows` for any table, as an implication. */
  lemma {:induction false} RowsOfDistinct(shell: Shell, parse: Parser, disk: Disk, start: Progress,
                                          servers: seq<(string, ServerEntry)>)
    ensures (forall i, j :: 0 <= i < j < |servers| ==> servers[i].0 != servers[j].0) ==>
              forall i :: 0 <= i < |servers| ==>
                Assoc.Get(RunFold(shell, parse, disk, start, servers).rows, servers[i].0)
                  == Some(ExpectedRow(shell, parse, disk, start.files, servers[i].0, servers[i].1))
  {
    if forall i, j :: 0 <= i < j < |servers| ==> servers[i].0 != servers[j].0 {
      RunFoldRows(shell, parse, disk, start, servers);
    }
  }

  class Tester {
    /** `self.results`, in insertion order. */
    var results: seq<(string, TestResult)>
    /** The files on disk the suite reads and writes, by path. */
    var files: map<string, string>
    /** The shell commands run so far, in order. */
    var commands: seq<string>
    const shell: Shell
    const parse: Parser
    const disk: Disk

    constructor (files: map<string, string>, shell: Shell, parse: Parser, disk: Disk)
      ensures results == [] && this.files == files && commands == []
      ensures this.shell == shell && this.parse == parse && this.disk == disk
    {
      results := [];
      this.files := files;
      commands := [];
      this.shell := shell;
      this.parse := parse;
      this.disk := disk;
    }

    /** `check_dockerfile_exists`: a template is written only when the file is missing; a
        failed write raises. */
    method EnsureDockerfile(config: ServerEntry) returns (path: string, err: Option<string>)
      modifies this`files
      ensures path == DockerfilePath(config)
      ensures path in old(files) ==> err.None? && files == old(files)
      ensures path !in old(files) ==> err == disk(path)
      ensures path !in old(files) && err.None? ==> files == old(files)[path := Template(config.serverType)]
      ensures err.Some? ==> files == old(files)
      ensures results == old(results) && commands == old(commands)
    {
      path := DockerfilePath(config);
      err := None;
      if path !in files {
        err := disk(path);
        if err.None? {
          files := files[path := Template(config.serverType)];
        }
      }
    }

    /** `test_server`: build, and only after a successful build (and the image-size query)
        the protocol run; the row is recorded. An exception leaves results as they were. */
    method TestServer(name: string, config: ServerEntry) returns (err: Option<string>)
      modifies this`files, this`commands, this`results
      ensures var path := DockerfilePath(config);
              err == (if path in old(files) then None else disk(path))
      ensures err.Some? ==> files == old(files) && commands == old(commands) && results == old(results)
      ensures err.None? ==>
                var built := shell(BuildCommand(name, config)).ok;
                && files == (if DockerfilePath(config) in old(files) then old(files)
                             else old(files)[DockerfilePath(config) := Template(config.serverType)])
                && commands == old(commands) + [BuildCommand(name, config)]
                               + (if built then [SizeCommand(name), RunCommand(name, config)] else [])
                && results == Assoc.Put(old(results), name, Outcome(shell, parse, name, config))
    {
      var path;
      path, err := EnsureDockerfile(config);
      if err.Some? {
        return;
      }
      var buildCmd := BuildCommand(name, config);
      var built := shell(buildCmd).ok;
      var protocol := false;
      if built {
        var runCmd := RunCommand(name, config);
        commands := commands + [buildCmd, SizeCommand(name), runCmd];
        protocol := CheckProtocol(shell(runCmd), parse);
      } else {
        commands := commands + [buildCmd];
      }
      var row := TestResult(config.serverType, built, protocol,
                            if built && protocol then "Passed" else "Failed", None);
      assert row == Outcome(shell, parse, name, config);
      results := Assoc.Put(results, name, row);
    }

    /** One iteration of `run_all_tests`: the server's row, or an error row when its run
        raises. */
    method RunOne(name: string, config: ServerEntry)
      requires AllConsistent(results)
      modifies this`files, this`commands, this`results
      ensures AllConsistent(results)
      ensures Progress(results, files, commands)
              == RunStep(shell, parse, disk, Progress(old(results), old(files), old(commands)), name, config)
    {
      ghost var before := results;
      var err := TestServer(name, config);
      if err.Some? {
        PutKeepsConsistent(results, name, ErrorRow(config, err.value));
        results := Assoc.Put(results, name, ErrorRow(config, err.value));
      } else {
        PutKeepsConsistent(before, name, Outcome(shell, parse, name, config));
      }
    }

    /** `run_all_tests`: every server gets a row, an exception turning into an error row,
        and the report is generated from them. */
    method RunAllTests(servers: seq<(string, ServerEntry)>) returns (report: Result<Report>)
      requires AllConsistent(results)
      modifies this`files, this`commands, this`results
      ensures Progress(results, files, commands)
              == RunFold(shell, parse, disk, Progress(old(results), old(files), old(commands)), servers)
      ensures AllConsistent(results)
      ensures Assoc.Keys(results) == Assoc.Keys(old(results)) + Assoc.Keys(servers)
      ensures (forall i, j :: 0 <= i < j < |servers| ==> servers[i].0 != servers[j].0) ==>
                forall i :: 0 <= i < |servers| ==>
                  Assoc.Get(results, servers[i].0)
                    == Some(ExpectedRow(shell, parse, disk, old(files), servers[i].0, servers[i].1))
      ensures report == ReportOf(results)
    {
      ghost var start := Progress(results, files, commands);
      var i := 0;
      while i < |servers|
        invariant 0 <= i <= |servers|
        invariant AllConsistent(results)
        invariant Progress(results, files, commands) == RunFold(shell, parse, disk, start, servers[..i])
        invariant Assoc.Keys(results) == Assoc.Keys(old(results)) + Assoc.Keys(servers[..i])
      {
        Assoc.KeysAppend(servers[..i], [servers[i]]);
        assert servers[..i + 1] == servers[..i] + [servers[i]];
        assert servers[..i + 1][..i] == servers[..i];
        var (name, config) := servers[i];
        RunOne(name, config);
        i := i + 1;
      }
      assert servers[..i] == servers;
      RowsOfDistinct(shell, parse, disk, start, servers);
      report := GenerateReport();
    }

    /** `generate_report`: the tallies over the recorded rows. */
    method GenerateReport() returns (r: Result<Report>)
      ensures r == ReportOf(results)
    {
      var passed := 0;
      var python, node, go := 0, 0, 0;
      var i := 0;
      while i < |results|
        invariant 0 <= i <= |results|
        invariant FirstUnknown(results[..i]).None?
        invariant passed == CountPassed(results[..i], StatusOf)
        invariant python == PassedOfType(results[..i], "python")
        invariant node == PassedOfType(results[..i], "node")
        invariant go == PassedOfType(results[..i], "go")
      {
        assert results[..i + 1][..i] == results[..i];
        var row := results[i].1;
        if row.status == "Passed" {
          passed := passed + 1;
          if row.serverType == "python" {
            python := python + 1;
          } else if row.serverType == "node" {
            node := node + 1;
          } else if row.serverType == "go" {
            go := go + 1;
          } else {
            FirstUnknownPrefix(results, i + 1);
            return Failure("KeyError: '" + row.serverType + "'");
          }
        }
        i := i + 1;
      }
      assert results[..i] == results;
      r := Success(Report(|results|, passed, [("python", python), ("node", node), ("go", go)], results));
    }
  }
}
