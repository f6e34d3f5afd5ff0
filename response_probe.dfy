/** The stdout scan both build-and-test harnesses (scripts/build-and-test-all.py and
    scripts/test-all-mcp-servers.py) use to decide whether a container answered an MCP
    request: a line that, once stripped, starts with `{` is parsed, and the scan succeeds
    on the first response object carrying `result` or `error` (the two members a response
    object of section 5 of the JSON-RPC 2.0 specification may carry). The `try` wraps the
    whole loop, so the first line that fails to parse, or whose value does not support
    `in`, ends the scan unsuccessfully. Shell commands are an oracle. */
module ResponseProbe {
  import opened Wrappers
  import opened Text
  import opened Json

  /** The directory both suites work under. */
  const BasePath := "/Users/andreihasna/Missions/beepmedia/mission-mcps"

  /** `' '.join(f'-e {k}={v}' for k, v in env.items())`: the container's environment flags. */
  function EnvVars(env: seq<(string, string)>): string
  {
    Join(seq(|env|, i requires 0 <= i < |env| => "-e " + env[i].0 + "=" + env[i].1), " ")
  }

  /** The number of rows whose status is "Passed", as both suites' summaries count them. */
  function CountPassed<T>(rows: seq<(string, T)>, status: T -> string): (r: nat)
    ensures r <= |rows|
    decreases |rows|
  {
    if rows == [] then 0
    else CountPassed(rows[..|rows| - 1], status) + (if status(rows[|rows| - 1].1) == "Passed" then 1 else 0)
  }

  /** What `subprocess.run` reports: exit status zero, captured stdout and stderr. */
  datatype CommandResult = CommandResult(ok: bool, stdout: string, stderr: string)

  /** Running a shell command line. */
  type Shell = string -> CommandResult

  /** What one line does to the scan. */
  datatype LineStep = Skip | Hit | Raise

  /** One line: not starting with `{` is skipped; otherwise it is parsed and tested with
      `'result' in response or 'error' in response` (short-circuit). */
  function StepOf(parse: Parser, line: string): (r: LineStep)
    ensures !StartsWith(PyStrip(line), "{") ==> r == Skip
    ensures StartsWith(PyStrip(line), "{") && parse(line).None? ==> r == Raise
    ensures r == Hit ==> StartsWith(PyStrip(line), "{") && parse(line).Some?
  {
    if !StartsWith(PyStrip(line), "{") then Skip
    else
      match parse(line)
      case None => Raise
      case Some(response) =>
        match PyIn("result", response)
        case Failure(_) => Raise
        case Success(true) => Hit
        case Success(false) =>
          match PyIn("error", response)
          case Failure(_) => Raise
          case Success(found) => if found then Hit else Skip
  }

  /** A parsed object with a `result` or an `error` member is a hit. */
  lemma {:induction false} ResponseObjectHits(parse: Parser, line: string)
    requires StartsWith(PyStrip(line), "{") && parse(line).Some? && parse(line).value.JObj?
    ensures StepOf(parse, line) == Hit <==>
              ("result" in Assoc.Keys(parse(line).value.fields)
               || "error" in Assoc.Keys(parse(line).value.fields))
  {
  }

  /** How a scan ends. */
  datatype ScanOutcome = Found | Stopped | Exhausted

  /** The scan over the lines, front to back. */
  function Scan(parse: Parser, lines: seq<string>): ScanOutcome
    decreases |lines|
  {
    if lines == [] then Exhausted
    else
      match StepOf(parse, lines[0])
      case Hit => Found
      case Raise => Stopped
      case Skip => Scan(parse, lines[1..])
  }

  /** A hit whose every earlier line is skipped ends the scan with `Found`. */
  lemma {:induction false} ScanFoundAt(parse: Parser, lines: seq<string>, i: int)
    requires 0 <= i < |lines| && StepOf(parse, lines[i]) == Hit
    requires forall j :: 0 <= j < i ==> StepOf(parse, lines[j]) == Skip
    ensures Scan(parse, lines) == Found
    decreases i
  {
    if i > 0 {
      assert StepOf(parse, lines[0]) == Skip;
      var rest := lines[1..];
      assert rest[i - 1] == lines[i];
      assert forall j :: 0 <= j < i - 1 ==> rest[j] == lines[j + 1];
      ScanFoundAt(parse, rest, i - 1);
    }
  }

  /** A `Found` scan has such a hit. */
  lemma {:induction false} ScanFoundWitness(parse: Parser, lines: seq<string>) returns (i: int)
    requires Scan(parse, lines) == Found
    ensures 0 <= i < |lines| && StepOf(parse, lines[i]) == Hit
    ensures forall j :: 0 <= j < i ==> StepOf(parse, lines[j]) == Skip
    decreases |lines|
  {
    if StepOf(parse, lines[0]) == Hit {
      i := 0;
    } else {
      var rest := lines[1..];
      var k := ScanFoundWitness(parse, rest);
      i := k + 1;
      assert lines[i] == rest[k];
      forall j | 0 <= j < i
        ensures StepOf(parse, lines[j]) == Skip
      {
        if j > 0 {
          assert lines[j] == rest[j - 1];
        }
      }
    }
  }

  /** The scan succeeds exactly when some line hits and every line before it is skipped. */
  lemma {:induction false} ScanFoundIff(parse: Parser, lines: seq<string>)
    ensures Scan(parse, lines) == Found <==>
              exists i :: 0 <= i < |lines| && StepOf(parse, lines[i]) == Hit
                          && forall j :: 0 <= j < i ==> StepOf(parse, lines[j]) == Skip
  {
    if Scan(parse, lines) == Found {
      var i := ScanFoundWitness(parse, lines);
    }
    if exists i :: 0 <= i < |lines| && StepOf(parse, lines[i]) == Hit
                   && forall j :: 0 <= j < i ==> StepOf(parse, lines[j]) == Skip {
      var i :| 0 <= i < |lines| && StepOf(parse, lines[i]) == Hit
               && forall j :: 0 <= j < i ==> StepOf(parse, lines[j]) == Skip;
      ScanFoundAt(parse, lines, i);
    }
  }

  /** A stopped scan hides any later hit: a parse failure before the response line makes
      the probe miss it. */
  lemma {:induction false} RaiseHidesLaterHit(parse: Parser, bad: string, good: string)
    requires StepOf(parse, bad) == Raise && StepOf(parse, good) == Hit
    ensures Scan(parse, [bad, good]) == Stopped
  {
  }

  /** The lines the harnesses scan: stdout stripped, then split on line feeds. */
  function StdoutLines(stdout: string): (r: seq<string>)
    ensures |r| >= 1
  {
    Split(PyStrip(stdout), '\n')
  }

  /** The loop with its early return, proved against `Scan`. */
  method ScanLines(parse: Parser, lines: seq<string>) returns (found: bool)
    ensures found <==> Scan(parse, lines) == Found
  {
    var i := 0;
    while i < |lines|
      invariant 0 <= i <= |lines|
      invariant Scan(parse, lines) == Scan(parse, lines[i..])
    {
      assert lines[i..][1..] == lines[i + 1..];
      var step := StepOf(parse, lines[i]);
      if step == Hit {
        return true;
      } else if step == Raise {
        return false;
      }
      i := i + 1;
    }
    return false;
  }
}
