/** The older test suite (scripts/test-all-mcp-servers.py). For every configured server it
    resolves the Dockerfile, fails the build without calling docker when that file is
    missing, builds the image, and only after a successful build runs the container on the
    server's test request; the stdout scan has no stderr fallback. The summary counts the
    passes in insertion order. Shell commands and the disk are oracles. */
module TestAllServers {
  import opened Wrappers
  import opened Text
  import opened Json
  import Assoc
  import opened ResponseProbe


  /** The request every entry sends: a `tools/list` call. */
  const ToolsList := "{\"jsonrpc\":\"2.0\",\"method\":\"tools/list\",\"id\":1}"

  /** One entry of `MCP_SERVERS`. */
  datatype ServerEntry = ServerEntry(serverType: string, dockerfile: string, testCmd: string,
                                     env: seq<(string, string)>)

  const McpServers: seq<(string, ServerEntry)> := [
    ("mcp-aws", ServerEntry("python", "Dockerfile", ToolsList,
       [("AWS_ACCESS_KEY_ID", "test"), ("AWS_SECRET_ACCESS_KEY", "test")])),
    ("mcp-notion", ServerEntry("node", "Dockerfile", ToolsList, [("NOTION_API_KEY", "secret_test_123")])),
    ("mcp-google-workspace", ServerEntry("python", "Dockerfile", ToolsList,
       [("GOOGLE_APPLICATION_CREDENTIALS", "/tmp/test-creds.json")])),
    ("mcp-google-sheets", ServerEntry("python", "../dockerfiles/Dockerfile.mcp-google-sheets", ToolsList,
       [("GOOGLE_SERVICE_ACCOUNT_JSON", "{}")])),
    ("mcp-gdrive", ServerEntry("node", "../dockerfiles/Dockerfile.mcp-gdrive", ToolsList,
       [("GOOGLE_APPLICATION_CREDENTIALS", "/tmp/test-creds.json")])),
    ("mcp-slack", ServerEntry("go", "Dockerfile", ToolsList,
       [("SLACK_BOT_TOKEN", "xoxb-test"), ("SLACK_APP_TOKEN", "xapp-test")])),
    ("mcp-pdf-reader", ServerEntry("python", "Dockerfile", ToolsList, [])),
    ("mcp-cloudflare", ServerEntry("node", "Dockerfile", ToolsList, [("CLOUDFLARE_API_TOKEN", "test_token")])),
    ("mcp-stripe", ServerEntry("node", "Dockerfile", ToolsList, [("STRIPE_API_KEY", "sk_test_123")])),
    ("mcp-shopify", ServerEntry("node", "Dockerfile", ToolsList, []))
  ]

  function RepoPath(name: string): string
  {
    PathJoin(PathJoin(BasePath, "repos"), name)
  }

  /** A Dockerfile name starting with `../` is taken from the base path with every `../`
      removed; any other name is inside the server's repository. */
  function DockerfilePath(name: string, dockerfile: string): (r: string)
    ensures StartsWith(dockerfile, "../") ==> r == PathJoin(BasePath, ReplaceAll(dockerfile, "../", ""))
    ensures !StartsWith(dockerfile, "../") ==> r == PathJoin(RepoPath(name), dockerfile)
  {
    if StartsWith(dockerfile, "../") then PathJoin(BasePath, ReplaceAll(dockerfile, "../", ""))
    else PathJoin(RepoPath(name), dockerfile)
  }

  /** Removing `../` is a single pass: what is left can itself start with `../`, so the
      resolved path can climb out of the base path. */
  lemma RemovalNotIdempotent()
    ensures ReplaceAll("....//", "../", "") == "../"
  {
    var s := "....//";
    var pat := "../";
    assert s[0] == '.' && s[1] == '.' && s[2] == '.' && s[3] == '.' && s[4] == '/' && s[5] == '/';
    assert !StartsWith("/", pat);
    assert ReplaceAll("/", pat, "") == "/" by {
      assert ReplaceAll("/"[1..], pat, "") == "";
    }
    assert s[2..][3..] == "/";
    assert StartsWith(s[2..], pat);
    assert ReplaceAll(s[2..], pat, "") == "/";
    assert s[1..][1..] == s[2..];
    assert s[1..][0] == '.' && s[1..][1] == '.' && s[1..][2] == '.';
    assert !StartsWith(s[1..], pat);
    assert ReplaceAll(s[1..], pat, "") == "./";
    assert !StartsWith(s, pat);
    assert ReplaceAll(s, pat, "") == "." + "./";
  }

  function BuildCommand(name: string, config: ServerEntry): string
  {
    "docker build -t " + name + ":test -f " + DockerfilePath(name, config.dockerfile) + " " + RepoPath(name)
  }

  function RunCommand(name: string, config: ServerEntry): string
  {
    "echo '" + config.testCmd + "' | docker run -i --rm " + EnvVars(config.env) + " " + name + ":test"
  }

  /** The stdio check: a zero exit, non-empty stdout, and a response line in it. */
  predicate StdioPasses(out: CommandResult, parse: Parser)
  {
    out.ok && out.stdout != "" && Scan(parse, StdoutLines(out.stdout)) == Found
  }

  /** Unlike the newer suite, an error on stderr never passes the check on its own. */
  lemma {:induction false} NoStderrFallback(parse: Parser, stderr: string)
    ensures !StdioPasses(CommandResult(true, "", stderr), parse)
    ensures !StdioPasses(CommandResult(false, "{\"result\": 1}", stderr), parse)
  {
  }

  /** The check on one command result, proved against `StdioPasses`. */
  method CheckStdio(out: CommandResult, parse: Parser) returns (passed: bool)
    ensures passed == StdioPasses(out, parse)
  {
    passed := false;
    if out.ok && out.stdout != "" {
      passed := ScanLines(parse, StdoutLines(out.stdout));
    }
  }

  /** One row of `self.results`. */
  datatype TestResult = TestResult(build: bool, stdioTest: bool, status: string)

  /** What `test_server` records for a server. */
  function Outcome(shell: Shell, parse: Parser, present: set<string>, name: string,
                   config: ServerEntry): (r: TestResult)
    ensures r.status == "Passed" <==> r.build && r.stdioTest
    ensures !r.build <==> r.status == "Build Failed"
    ensures r.stdioTest ==> r.build
    ensures r.build <==> DockerfilePath(name, config.dockerfile) in present
                         && shell(BuildCommand(name, config)).ok
  {
    var built := DockerfilePath(name, config.dockerfile) in present && shell(BuildCommand(name, config)).ok;
    if !built then TestResult(false, false, "Build Failed")
    else
      var stdio := StdioPasses(shell(RunCommand(name, config)), parse);
      TestResult(true, stdio, if stdio then "Passed" else "Failed")
  }

  /** A row's status. */
  function StatusOf(r: TestResult): string
  {
    r.status
  }

  /** Every row passes exactly when the count reaches the number of rows. */
  lemma {:induction false} AllPassedIff(rows: seq<(string, TestResult)>)
    ensures CountPassed(rows, StatusOf) == |rows| <==> forall i :: 0 <= i < |rows| ==> rows[i].1.status == "Passed"
    decreases |rows|
  {
    if rows != [] {
      var init := rows[..|rows| - 1];
      AllPassedIff(init);
      assert forall i :: 0 <= i < |init| ==> init[i] == rows[i];
    }
  }

  /** The commands `test_server` runs: the build when the Dockerfile exists, and the stdio
      run after a successful build. */
  function CommandsOf(shell: Shell, parse: Parser, present: set<string>, name: string,
                      config: ServerEntry): seq<string>
  {
    (if DockerfilePath(name, config.dockerfile) in present then [BuildCommand(name, config)] else [])
      + (if Outcome(shell, parse, present, name, config).build then [RunCommand(name, config)] else [])
  }

  /** The row `test_server` records for each server. */
  function RowOf(shell: Shell, parse: Parser, present: set<string>): (string, ServerEntry) -> TestResult
  {
    (name: string, config: ServerEntry) => Outcome(shell, parse, present, name, config)
  }

  /** The command log after `run_all_tests`' loop, server after server. */
  function CommandsFold(shell: Shell, parse: Parser, present: set<string>, commands: seq<string>,
                        servers: seq<(string, ServerEntry)>): seq<string>
    decreases |servers|
  {
    if servers == [] then commands
    else
      var last := servers[|servers| - 1];
      CommandsFold(shell, parse, present, commands, servers[..|servers| - 1])
        + CommandsOf(shell, parse, present, last.0, last.1)
  }

  lemma {:induction false} CommandsFoldStep(shell: Shell, parse: Parser, present: set<string>,
                                            commands: seq<string>, servers: seq<(string, ServerEntry)>, i: int)
    requires 0 <= i < |servers|
    ensures CommandsFold(shell, parse, present, commands, servers[..i + 1])
            == CommandsFold(shell, parse, present, commands, servers[..i])
               + CommandsOf(shell, parse, present, servers[i].0, servers[i].1)
  {
    assert servers[..i + 1][..i] == servers[..i];
  }

  /** The run adds exactly the servers' names, and with distinct names each server's row
      is its outcome. */
  lemma {:induction false} RowsAfterRun(shell: Shell, parse: Parser, present: set<string>,
                                        rows: seq<(string, TestResult)>, servers: seq<(string, ServerEntry)>)
    ensures var after := Assoc.PutEach(rows, servers, RowOf(shell, parse, present));
            && Assoc.Keys(after) == Assoc.Keys(rows) + Assoc.Keys(servers)
            && ((forall i, j :: 0 <= i < j < |servers| ==> servers[i].0 != servers[j].0) ==>
                  forall i :: 0 <= i < |servers| ==>
                    Assoc.Get(after, servers[i].0) == Some(Outcome(shell, parse, present, servers[i].0, servers[i].1)))
  {
    Assoc.PutEachKeys(rows, servers, RowOf(shell, parse, present));
    if forall i, j :: 0 <= i < j < |servers| ==> servers[i].0 != servers[j].0 {
      Assoc.PutEachGet(rows, servers, RowOf(shell, parse, present));
    }
  }

  /** The table names every server once. */
  lemma ServerNamesDistinct()
    ensures forall i, j :: 0 <= i < j < |McpServers| ==> McpServers[i].0 != McpServers[j].0
  {
    var names := seq(|McpServers|, i requires 0 <= i < |McpServers| => McpServers[i].0);
    assert names == ["mcp-aws", "mcp-notion", "mcp-google-workspace", "mcp-google-sheets",
                     "mcp-gdrive", "mcp-slack", "mcp-pdf-reader", "mcp-cloudflare", "mcp-stripe",
                     "mcp-shopify"];
  }

  class Tester {
    /** `self.results`, in insertion order. */
    var results: seq<(string, TestResult)>
    /** The shell commands run so far, in order. */
    var commands: seq<string>
    /** The paths that exist on disk. */
    const present: set<string>
    const shell: Shell
    const parse: Parser

    constructor (present: set<string>, shell: Shell, parse: Parser)
      ensures results == [] && commands == []
      ensures this.present == present && this.shell == shell && this.parse == parse
    {
      results := [];
      commands := [];
      this.present := present;
      this.shell := shell;
      this.parse := parse;
    }

    /** `build_docker_image`: a missing Dockerfile fails without running docker. */
    method BuildImage(name: string, config: ServerEntry) returns (built: bool)
      modifies this`commands
      ensures built <==> DockerfilePath(name, config.dockerfile) in present
                         && shell(BuildCommand(name, config)).ok
      ensures commands == old(commands)
                          + (if DockerfilePath(name, config.dockerfile) in present
                             then [BuildCommand(name, config)] else [])
      ensures results == old(results)
    {
      if DockerfilePath(name, config.dockerfile) !in present {
        return false;
      }
      var cmd := BuildCommand(name, config);
      commands := commands + [cmd];
      built := shell(cmd).ok;
    }

    /** `test_server`: the stdio test runs only after a successful build. */
    method TestServer(name: string, config: ServerEntry)
      modifies this`results, this`commands
      ensures results == Assoc.Put(old(results), name, Outcome(shell, parse, present, name, config))
      ensures commands == old(commands) + CommandsOf(shell, parse, present, name, config)
    {
      var built := BuildImage(name, config);
      if !built {
        results := Assoc.Put(results, name, TestResult(false, false, "Build Failed"));
        return;
      }
      var cmd := RunCommand(name, config);
      commands := commands + [cmd];
      var stdio := CheckStdio(shell(cmd), parse);
      results := Assoc.Put(results, name, TestResult(true, stdio, if stdio then "Passed" else "Failed"));
    }

    /** `run_all_tests`: every server gets a row; then the summary count. */
    method RunAllTests(servers: seq<(string, ServerEntry)>) returns (passed: nat, total: nat)
      modifies this`results, this`commands
      ensures results == Assoc.PutEach(old(results), servers, RowOf(shell, parse, present))
      ensures commands == CommandsFold(shell, parse, present, old(commands), servers)
      ensures Assoc.Keys(results) == Assoc.Keys(old(results)) + Assoc.Keys(servers)
      ensures (forall i, j :: 0 <= i < j < |servers| ==> servers[i].0 != servers[j].0) ==>
                forall i :: 0 <= i < |servers| ==>
                  Assoc.Get(results, servers[i].0) == Some(Outcome(shell, parse, present, servers[i].0, servers[i].1))
      ensures passed == CountPassed(results, StatusOf) && total == |results|
    {
      var i := 0;
      while i < |servers|
        invariant 0 <= i <= |servers|
        invariant results == Assoc.PutEach(old(results), servers[..i], RowOf(shell, parse, present))
        invariant commands == CommandsFold(shell, parse, present, old(commands), servers[..i])
      {
        Assoc.PutEachStep(old(results), servers, RowOf(shell, parse, present), i);
        CommandsFoldStep(shell, parse, present, old(commands), servers, i);
        var (name, config) := servers[i];
        assert RowOf(shell, parse, present)(name, config) == Outcome(shell, parse, present, name, config);
        TestServer(name, config);
        i := i + 1;
      }
      assert servers[..i] == servers;
      RowsAfterRun(shell, parse, present, old(results), servers);
      passed, total := PrintSummary();
    }

    /** `print_summary`: the passes counted over the rows in insertion order. */
    method PrintSummary() returns (passed: nat, total: nat)
      ensures passed == CountPassed(results, StatusOf) && total == |results|
    {
      passed := 0;
      var i := 0;
      while i < |results|
        invariant 0 <= i <= |results|
        invariant passed == CountPassed(results[..i], StatusOf)
      {
        assert results[..i + 1][..i] == results[..i];
        if results[i].1.status == "Passed" {
          passed := passed + 1;
        }
        i := i + 1;
      }
      assert results[..i] == results;
      total := |results|;
    }
  }
}
