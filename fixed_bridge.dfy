/** The newer MCP HTTP bridge (mcp-bridge-fixed/server-v2.js). Each session owns a child
    process: its stdout is cut into lines through a carry-over buffer, each line that
    parses as JSON is queued, and queued responses leave either one at a time (plain
    POST), all at once (poll), or as server-sent events (a POST that accepts an event
    stream). The Express handlers are sequential methods of `Bridge`; the child's stdout
    and exit, and the client's disconnect, are further methods the event loop would call. */
module FixedBridge {
  import opened Wrappers
  import opened Text
  import opened Json
  import Assoc
  import opened BridgeCommon

  /** One entry of `MCP_SERVERS`: how to spawn the child, and the variables added to its
      environment (None for `undefined`). */
  datatype ServerConfig = ServerConfig(command: string, args: seq<string>,
                                       env: seq<(string, Option<string>)>)

  function EnvVar(processEnv: map<string, string>, name: string): Option<string>
  {
    if name in processEnv then Some(processEnv[name]) else None
  }

  /** `MCP_SERVERS[serverType]` (the table reads the bridge's own environment when the
      module loads): exactly the three names configure a server. */
  function ConfigOf(serverType: string, processEnv: map<string, string>): (r: Option<ServerConfig>)
    ensures r.Some? <==> serverType == "pdf-reader" || serverType == "notion" || serverType == "aws"
  {
    if serverType == "pdf-reader" then
      Some(ServerConfig("python", ["/app/mcp-servers/pdf-reader/mcp_pdf_reader.py"], []))
    else if serverType == "notion" then
      Some(ServerConfig("node", ["/app/mcp-servers/notion/dist/index.js"],
                        [("NOTION_API_KEY", EnvVar(processEnv, "NOTION_API_KEY"))]))
    else if serverType == "aws" then
      var region := EnvVar(processEnv, "AWS_REGION");
      Some(ServerConfig("python", ["-m", "awslabs.core-mcp-server.server"],
                        [("AWS_REGION", Some(if region.Some? && region.value != "" then region.value
                                             else "us-east-1")),
                         ("AWS_ACCESS_KEY_ID", EnvVar(processEnv, "AWS_ACCESS_KEY_ID")),
                         ("AWS_SECRET_ACCESS_KEY", EnvVar(processEnv, "AWS_SECRET_ACCESS_KEY"))]))
    else None
  }

  /** `{ ...process.env, ...config.env }` as the child sees it: `undefined` entries are
      not passed on. */
  function ChildEnv(processEnv: map<string, string>, extra: seq<(string, Option<string>)>)
    : (r: map<string, string>)
    ensures forall k :: k in processEnv ==> k in r
    decreases |extra|
  {
    if extra == [] then processEnv
    else
      var last := extra[|extra| - 1];
      var base := ChildEnv(processEnv, extra[..|extra| - 1]);
      if last.1.Some? then base[last.0 := last.1.value] else base
  }

  /** The aws server always runs in a region: "us-east-1" unless the bridge has a
      non-empty `AWS_REGION`. */
  lemma {:induction false} AwsRegionDefault(processEnv: map<string, string>)
    ensures ConfigOf("aws", processEnv).Some?
    ensures var env := ChildEnv(processEnv, ConfigOf("aws", processEnv).value.env);
      "AWS_REGION" in env
      && env["AWS_REGION"] == (if "AWS_REGION" in processEnv && processEnv["AWS_REGION"] != ""
                               then processEnv["AWS_REGION"] else "us-east-1")
  {
    var extra := ConfigOf("aws", processEnv).value.env;
    var region := extra[0].1.value;
    assert extra[..1][..0] == [];
    assert ChildEnv(processEnv, extra[..1]) == processEnv["AWS_REGION" := region];
    assert extra[..2][..1] == extra[..1];
    assert ChildEnv(processEnv, extra[..2])["AWS_REGION"] == region;
    assert extra[..3][..2] == extra[..2];
    assert ChildEnv(processEnv, extra[..3])["AWS_REGION"] == region;
    assert extra[..3] == extra;
  }

  /** `line.trim()` is empty. */
  predicate Blank(line: string)
  {
    JsTrim(line) == ""
  }

  /** The responses the stdout handler queues for a list of complete lines: every
      non-blank line that parses, in order; other lines are dropped. */
  function Queued(parse: Parser, lines: seq<string>): seq<Json>
    decreases |lines|
  {
    if lines == [] then []
    else
      var last := lines[|lines| - 1];
      Queued(parse, lines[..|lines| - 1])
        + (if !Blank(last) && parse(last).Some? then [parse(last).value] else [])
  }

  lemma {:induction false} QueuedAppend(parse: Parser, a: seq<string>, b: seq<string>)
    ensures Queued(parse, a + b) == Queued(parse, a) + Queued(parse, b)
    decreases |b|
  {
    if b == [] {
      assert a + b == a;
    } else {
      var init := b[..|b| - 1];
      assert (a + b)[..|a + b| - 1] == a + init;
      QueuedAppend(parse, a, init);
    }
  }

  /** `response.result && response.result.protocolVersion` is truthy. For `null` the
      property read throws, which the handler's `catch` swallows: no initialisation. */
  predicate Initializes(response: Json)
  {
    var result := JsGet(response, "result");
    && result.Success? && result.value.Some? && JsTruthy(result.value.value)
    && var version := JsGet(result.value.value, "protocolVersion");
       version.Success? && version.value.Some? && JsTruthy(version.value.value)
  }

  /** The responses that also reach an open event stream: all but `null`, whose
      `protocolVersion` check throws before the write. */
  function NonNull(responses: seq<Json>): (r: seq<Json>)
    ensures forall j :: j in r <==> j in responses && !j.JNull?
    decreases |responses|
  {
    if responses == [] then []
    else
      var last := responses[|responses| - 1];
      NonNull(responses[..|responses| - 1]) + (if last.JNull? then [] else [last])
  }

  /** Some response initialises the server. */
  predicate AnyInitializes(responses: seq<Json>)
  {
    exists j :: j in responses && Initializes(j)
  }

  lemma {:induction false} AnyInitializesSnoc(responses: seq<Json>, last: Json)
    ensures AnyInitializes(responses + [last]) <==> AnyInitializes(responses) || Initializes(last)
  {
    if Initializes(last) {
      assert last in responses + [last];
    }
    if AnyInitializes(responses) {
      var j :| j in responses && Initializes(j);
      assert j in responses + [last];
    }
  }

  lemma {:induction false} AnyInitializesAppend(a: seq<Json>, b: seq<Json>)
    ensures AnyInitializes(a + b) <==> AnyInitializes(a) || AnyInitializes(b)
  {
    if AnyInitializes(a + b) {
      var j :| j in a + b && Initializes(j);
      assert j in a || j in b;
    }
    if AnyInitializes(a) {
      var j :| j in a && Initializes(j);
      assert j in a + b;
    }
    if AnyInitializes(b) {
      var j :| j in b && Initializes(j);
      assert j in a + b;
    }
  }

  lemma {:induction false} NonNullSnoc(responses: seq<Json>, last: Json)
    ensures NonNull(responses + [last]) == NonNull(responses) + (if last.JNull? then [] else [last])
  {
    assert (responses + [last])[..|responses|] == responses;
  }

  /** The complete lines in `text`, which ends with an incomplete one (perhaps empty). */
  function CompleteLines(text: string): (r: seq<string>)
    ensures forall i :: 0 <= i < |r| ==> '\n' !in r[i]
  {
    var parts := Split(text, '\n');
    parts[..|parts| - 1]
  }

  /** What is left in the buffer: the text after the last line feed. */
  function Remainder(text: string): (r: string)
    ensures '\n' !in r
    ensures Unlines(CompleteLines(text)) + r == text
  {
    var parts := Split(text, '\n');
    JoinAsUnlines(parts);
    parts[|parts| - 1]
  }

  /** The lines split off so far are determined by the text alone, however it was cut
      into chunks: they are all but the last `\n`-field of everything received. */
  lemma {:induction false} LinesDetermined(lines: seq<string>, buffer: string, received: string)
    requires Unlines(lines) + buffer == received && '\n' !in buffer
    requires forall i :: 0 <= i < |lines| ==> '\n' !in lines[i]
    ensures lines == CompleteLines(received) && buffer == Remainder(received)
  {
    var parts := lines + [buffer];
    assert parts[..|parts| - 1] == lines;
    JoinAsUnlines(parts);
    SplitJoin(parts, '\n');
  }

  /** The `lines.forEach` loop of the stdout handler: each non-blank line that parses
      is queued, may set `initialized` (never cleared) and, unless `null`, is framed onto
      an attached event stream; other lines are dropped. */
  method HandleLines(parse: Parser, stringify: Stringify, streaming: bool, initialized: bool,
                     complete: seq<string>)
    returns (queued: seq<Json>, init: bool, frames: seq<string>)
    ensures queued == Queued(parse, complete)
    ensures init == (initialized || AnyInitializes(queued))
    ensures frames == (if streaming then FramesOf(stringify, NonNull(queued)) else [])
  {
    queued := [];
    init := initialized;
    frames := [];
    var j := 0;
    while j < |complete|
      invariant 0 <= j <= |complete|
      invariant queued == Queued(parse, complete[..j])
      invariant init == (initialized || AnyInitializes(queued))
      invariant frames == (if streaming then FramesOf(stringify, NonNull(queued)) else [])
    {
      var line := complete[j];
      assert complete[..j + 1][..j] == complete[..j];
      assert Queued(parse, complete[..j + 1]) == Queued(parse, complete[..j])
        + (if !Blank(line) && parse(line).Some? then [parse(line).value] else []);
      if !Blank(line) && parse(line).Some? {
        var response := parse(line).value;
        AnyInitializesSnoc(queued, response);
        NonNullSnoc(queued, response);
        FramesOfAppend(stringify, NonNull(queued), if response.JNull? then [] else [response]);
        queued := queued + [response];
        if Initializes(response) {
          init := true;
        }
        if streaming && !response.JNull? {
          frames := frames + [SseFrame(stringify(response))];
        }
      }
      j := j + 1;
    }
    assert complete[..j] == complete;
  }

  /** The line buffer's invariant: the buffer holds no line feed and completes the lines
      split off so far to all text received. */
  ghost predicate LinesConsistent(received: string, lines: seq<string>, buffer: string)
  {
    && Unlines(lines) + buffer == received
    && '\n' !in buffer
    && (forall i :: 0 <= i < |lines| ==> '\n' !in lines[i])
  }

  /** The queue's invariant: it is a FIFO over everything parsed (what was taken, then
      what waits), and `initialized` records whether any parsed response initialised the
      server. */
  ghost predicate QueueConsistent(parse: Parser, lines: seq<string>, taken: seq<Json>,
                                  responses: seq<Json>, initialized: bool)
  {
    && taken + responses == Queued(parse, lines)
    && (initialized <==> AnyInitializes(Queued(parse, lines)))
  }

  /** Splitting off the complete lines of buffer + chunk keeps the line invariant. */
  lemma {:induction false} LinesAfterChunk(received: string, lines: seq<string>, buffer: string, chunk: string)
    requires LinesConsistent(received, lines, buffer)
    ensures LinesConsistent(received + chunk, lines + CompleteLines(buffer + chunk),
                            Remainder(buffer + chunk))
  {
    var complete := CompleteLines(buffer + chunk);
    var rest := Remainder(buffer + chunk);
    UnlinesAppend(lines, complete);
    assert Unlines(lines + complete) + rest == Unlines(lines) + (Unlines(complete) + rest);
    forall i | 0 <= i < |lines + complete|
      ensures '\n' !in (lines + complete)[i]
    {
      if i >= |lines| {
        assert (lines + complete)[i] == complete[i - |lines|];
      }
    }
  }

  /** Queuing what the new lines parse to keeps the queue invariant. */
  lemma {:induction false} QueueAfterLines(parse: Parser, lines: seq<string>, taken: seq<Json>,
                        responses: seq<Json>, initialized: bool, complete: seq<string>)
    requires QueueConsistent(parse, lines, taken, responses, initialized)
    ensures QueueConsistent(parse, lines + complete, taken, responses + Queued(parse, complete),
                            initialized || AnyInitializes(Queued(parse, complete)))
  {
    var before := Queued(parse, lines);
    var added := Queued(parse, complete);
    QueuedAppend(parse, lines, complete);
    assert Queued(parse, lines + complete) == before + added;
    assert taken + (responses + added) == (taken + responses) + added;
    AnyInitializesAppend(before, added);
    assert (initialized || AnyInitializes(added)) <==> AnyInitializes(before + added);
  }

  /** One MCP session: a child process and the state its handlers share. */
  class Session {
    const id: string
    const serverType: string
    const command: string
    const args: seq<string>
    const env: map<string, string>
    const parse: Parser
    const stringify: Stringify

    /** Text after the last line feed seen on stdout. */
    var buffer: string
    /** Parsed responses not yet handed to a client. */
    var responses: seq<Json>
    var initialized: bool
    /** An event stream is attached (`eventEmitter` is not null). */
    var streaming: bool
    /** The frames written to the attached event stream, oldest first. */
    var stream: seq<string>
    var killed: bool
    /** Lines written to the child's stdin. */
    var stdin: seq<string>

    /** Everything the child wrote to stdout. */
    ghost var received: string
    /** The complete lines split off `received` so far. */
    ghost var lines: seq<string>
    /** Responses that left the queue, oldest first. */
    ghost var taken: seq<Json>

    /** The buffer holds no line feed and completes the lines to all text received; the
        queue is a FIFO over everything parsed (what was taken, then what waits); and
        `initialized` records whether any parsed response initialised the server. */
    ghost predicate Valid()
      reads this
    {
      && LinesConsistent(received, lines, buffer)
      && QueueConsistent(parse, lines, taken, responses, initialized)
    }

    /** `createMcpSession` after its config lookup: the spawned child and a fresh state. */
    constructor (id: string, serverType: string, config: ServerConfig,
                 processEnv: map<string, string>, parse: Parser, stringify: Stringify)
      ensures this.id == id && this.serverType == serverType
      ensures command == config.command && args == config.args
      ensures env == ChildEnv(processEnv, config.env)
      ensures this.parse == parse && this.stringify == stringify
      ensures buffer == "" && responses == [] && !initialized && !streaming && stream == []
      ensures !killed && stdin == [] && received == "" && lines == [] && taken == []
      ensures Valid()
    {
      this.id := id;
      this.serverType := serverType;
      command := config.command;
      args := config.args;
      env := ChildEnv(processEnv, config.env);
      this.parse := parse;
      this.stringify := stringify;
      buffer := "";
      responses := [];
      initialized := false;
      streaming := false;
      stream := [];
      killed := false;
      stdin := [];
      received := "";
      lines := [];
      taken := [];
    }

    /** The first half of the stdout handler: the complete lines of buffer + chunk are split
        off and the rest stays buffered. */
    method SplitOff(chunk: string) returns (complete: seq<string>)
      requires LinesConsistent(received, lines, buffer)
      modifies this`buffer, this`lines, this`received
      ensures complete == CompleteLines(old(buffer) + chunk)
      ensures received == old(received) + chunk && lines == old(lines) + complete
      ensures buffer == Remainder(old(buffer) + chunk)
      ensures LinesConsistent(received, lines, buffer)
    {
      var text := buffer + chunk;
      complete := CompleteLines(text);
      LinesAfterChunk(received, lines, buffer, chunk);
      buffer, lines, received := Remainder(text), lines + complete, received + chunk;
    }

    /** The second half: each complete line is handled in order. */
    method Enqueue(complete: seq<string>)
      requires QueueConsistent(parse, lines, taken, responses, initialized)
      modifies this`responses, this`initialized, this`stream
      ensures responses == old(responses) + Queued(parse, complete)
      ensures initialized == (old(initialized) || AnyInitializes(Queued(parse, complete)))
      ensures stream == old(stream) + (if streaming then FramesOf(stringify, NonNull(Queued(parse, complete))) else [])
      ensures QueueConsistent(parse, lines + complete, taken, responses, initialized)
    {
      var queued, init, frames := HandleLines(parse, stringify, streaming, initialized, complete);
      QueueAfterLines(parse, lines, taken, responses, initialized, complete);
      responses, initialized, stream := responses + queued, init, stream + frames;
    }

    /** The stdout handler for one chunk: the complete lines of buffer + chunk are handled
        in order and the rest stays buffered. */
    method Deliver(chunk: string)
      requires Valid()
      modifies this`buffer, this`lines, this`received, this`responses, this`initialized, this`stream
      ensures Valid()
      ensures received == old(received) + chunk
      ensures lines == old(lines) + CompleteLines(old(buffer) + chunk)
      ensures buffer == Remainder(old(buffer) + chunk)
      ensures responses == old(responses) + Queued(parse, CompleteLines(old(buffer) + chunk))
      ensures initialized == (old(initialized) || AnyInitializes(Queued(parse, CompleteLines(old(buffer) + chunk))))
      ensures stream == old(stream) +
                (if streaming then FramesOf(stringify, NonNull(Queued(parse, CompleteLines(old(buffer) + chunk))))
                 else [])
      ensures taken == old(taken) && streaming == old(streaming)
      ensures killed == old(killed) && stdin == old(stdin)
    {
      var complete := CompleteLines(buffer + chunk);
      Enqueue(complete);
      ghost var extended, queue, init, frames := lines + complete, responses, initialized, stream;
      var split := SplitOff(chunk);
      assert lines == extended && split == complete;
      assert responses == queue && initialized == init && stream == frames;
      assert QueueConsistent(parse, lines, taken, responses, initialized);
    }

    /** `session.process.stdin.write(line)`. */
    method WriteStdin(line: string)
      modifies this
      ensures stdin == old(stdin) + [line]
      ensures buffer == old(buffer) && responses == old(responses) && initialized == old(initialized)
      ensures streaming == old(streaming) && stream == old(stream) && killed == old(killed)
      ensures received == old(received) && lines == old(lines) && taken == old(taken)
    {
      stdin := stdin + [line];
    }

    /** The SSE branch of POST: attach the stream, write every queued response in order,
        and empty the queue. */
    method OpenStream() returns (frames: seq<string>)
      requires Valid()
      modifies this
      ensures Valid()
      ensures frames == FramesOf(stringify, old(responses))
      ensures streaming && stream == frames && responses == []
      ensures taken == old(taken) + old(responses)
      ensures buffer == old(buffer) && initialized == old(initialized) && killed == old(killed)
      ensures stdin == old(stdin) && received == old(received) && lines == old(lines)
    {
      streaming := true;
      frames := [];
      var i := 0;
      while i < |responses|
        invariant 0 <= i <= |responses|
        invariant frames == FramesOf(stringify, responses[..i])
      {
        assert responses[..i + 1][..i] == responses[..i];
        frames := frames + [SseFrame(stringify(responses[i]))];
        i := i + 1;
      }
      assert responses[..i] == responses;
      stream := frames;
      taken := taken + responses;
      responses := [];
    }

    /** `session.responses.shift()`: the oldest queued response, if any. */
    method TakeOne() returns (r: Option<Json>)
      requires Valid()
      modifies this
      ensures Valid()
      ensures old(responses) == [] ==> r.None? && responses == [] && taken == old(taken)
      ensures old(responses) != [] ==>
                r == Some(old(responses)[0]) && responses == old(responses)[1..]
                && taken == old(taken) + [old(responses)[0]]
      ensures buffer == old(buffer) && initialized == old(initialized) && killed == old(killed)
      ensures streaming == old(streaming) && stream == old(stream)
      ensures stdin == old(stdin) && received == old(received) && lines == old(lines)
    {
      if responses == [] {
        return None;
      }
      r := Some(responses[0]);
      taken := taken + [responses[0]];
      responses := responses[1..];
    }

    /** `session.responses.splice(0, length)`: every queued response, oldest first. */
    method DrainAll() returns (all: seq<Json>)
      requires Valid()
      modifies this
      ensures Valid()
      ensures all == old(responses) && responses == [] && taken == old(taken) + all
      ensures buffer == old(buffer) && initialized == old(initialized) && killed == old(killed)
      ensures streaming == old(streaming) && stream == old(stream)
      ensures stdin == old(stdin) && received == old(received) && lines == old(lines)
    {
      all := responses;
      taken := taken + all;
      responses := [];
    }

    /** The part of POST after the session is chosen: the request goes to stdin as one
        line; an event-stream request attaches the stream and gets every queued response;
        any other request takes the oldest queued response, or gets 202 with the id. */
    method Respond(line: string, wantsStream: bool) returns (r: HttpResponse)
      requires Valid()
      modifies this
      ensures Valid()
      ensures stdin == old(stdin) + [line]
      ensures killed == old(killed)
      ensures wantsStream ==>
                && streaming && responses == [] && stream == FramesOf(stringify, old(responses))
                && r == HttpResponse(200, Some(id), EventStream(stream))
      ensures !wantsStream && old(responses) != [] ==>
                && responses == old(responses)[1..]
                && r == HttpResponse(200, Some(id), JsonBody(old(responses)[0]))
      ensures !wantsStream && old(responses) == [] ==>
                && responses == []
                && r == HttpResponse(202, Some(id), JsonBody(SessionIdBody(id)))
      ensures !wantsStream ==> streaming == old(streaming)
    {
      WriteStdin(line);
      if wantsStream {
        var frames := OpenStream();
        r := HttpResponse(200, Some(id), EventStream(frames));
      } else {
        var first := TakeOne();
        if first.Some? {
          r := HttpResponse(200, Some(id), JsonBody(first.value));
        } else {
          r := HttpResponse(202, Some(id), JsonBody(SessionIdBody(id)));
        }
      }
    }

    /** The SSE `close` handler's effect on the session: detach the stream and kill the
        child if it is not killed yet. */
    method Close()
      modifies this
      ensures !streaming && killed
      ensures buffer == old(buffer) && responses == old(responses) && initialized == old(initialized)
      ensures stream == old(stream) && stdin == old(stdin)
      ensures received == old(received) && lines == old(lines) && taken == old(taken)
    {
      streaming := false;
      if !killed {
        killed := true;
      }
    }
  }

  /** The request accepts an event stream: its `Accept` header contains
      "text/event-stream". */
  predicate WantsEventStream(accept: Option<string>)
  {
    accept.Some? && Contains(accept.value, "text/event-stream")
  }

  /** `sessionId && sessions.has(sessionId)`: the header names a live session (an empty
      header is falsy). */
  predicate Names(sessions: map<string, Session>, sessionHeader: Option<string>)
  {
    sessionHeader.Some? && sessionHeader.value != "" && sessionHeader.value in sessions
  }

  /** The 202 body of a plain POST that finds nothing queued. */
  function SessionIdBody(id: string): Json
  {
    JObj([("sessionId", JStr(id))])
  }

  /** The bridge process: the session map and the settings every handler reads. */
  class Bridge {
    var sessions: map<string, Session>
    /** `process.env.MCP_API_KEY`. */
    const apiKey: Option<string>
    const processEnv: map<string, string>
    const decode: Base64Decoder
    const parse: Parser
    const stringify: Stringify

    /** Every session is filed under its own id, satisfies its invariant, shares the
        bridge's JSON functions, and has a child that was not killed (the only handler that
        kills a child removes its session in the same step). */
    ghost predicate Valid()
      reads this, sessions.Values
    {
      forall id :: id in sessions ==>
        && sessions[id].id == id
        && sessions[id].Valid()
        && !sessions[id].killed
        && sessions[id].parse == parse
        && sessions[id].stringify == stringify
    }

    constructor (apiKey: Option<string>, processEnv: map<string, string>, decode: Base64Decoder,
                 parse: Parser, stringify: Stringify)
      ensures sessions == map[] && Valid()
      ensures this.apiKey == apiKey && this.processEnv == processEnv && this.decode == decode
      ensures this.parse == parse && this.stringify == stringify
    {
      sessions := map[];
      this.apiKey := apiKey;
      this.processEnv := processEnv;
      this.decode := decode;
      this.parse := parse;
      this.stringify := stringify;
    }

    /** `POST /mcp/:serverType`. The auth gate runs first. A header naming a live session
        reuses it whatever `:serverType` says; otherwise a session of `:serverType` is
        created under `newId` (the fresh uuid), and an unknown type is a 500. The request
        body goes to the child's stdin as one line. An event-stream request gets every
        queued response as an event and empties the queue; any other request takes the
        oldest queued response, or gets 202 with the session id. */
    method Post(auth: Option<string>, sessionHeader: Option<string>, serverType: string,
                body: Json, accept: Option<string>, newId: string)
      returns (r: HttpResponse)
      requires Valid()
      requires newId !in sessions
      modifies this, if Names(sessions, sessionHeader) then {sessions[sessionHeader.value]} else {}
      ensures Valid()
      ensures BasicAuth(auth, apiKey, decode).Reject? ==>
                r == AuthReply(BasicAuth(auth, apiKey, decode)) && sessions == old(sessions)
      ensures BasicAuth(auth, apiKey, decode) == Pass && !Names(old(sessions), sessionHeader)
              && ConfigOf(serverType, processEnv).None? ==>
                r == ErrorReply(500, "Unknown server type: " + serverType) && sessions == old(sessions)
      ensures BasicAuth(auth, apiKey, decode) == Pass && Names(old(sessions), sessionHeader) ==>
                var id := sessionHeader.value;
                var s := old(sessions)[id];
                && sessions == old(sessions)
                && s.stdin == old(s.stdin) + [stringify(body) + "\n"]
                && (WantsEventStream(accept) ==>
                      && s.streaming && s.responses == []
                      && s.stream == FramesOf(stringify, old(s.responses))
                      && r == HttpResponse(200, Some(id), EventStream(s.stream)))
                && (!WantsEventStream(accept) && old(s.responses) != [] ==>
                      && s.responses == old(s.responses)[1..]
                      && r == HttpResponse(200, Some(id), JsonBody(old(s.responses)[0])))
                && (!WantsEventStream(accept) && old(s.responses) == [] ==>
                      && s.responses == []
                      && r == HttpResponse(202, Some(id), JsonBody(SessionIdBody(id))))
      ensures BasicAuth(auth, apiKey, decode) == Pass && !Names(old(sessions), sessionHeader)
              && ConfigOf(serverType, processEnv).Some? ==>
                && newId in sessions && fresh(sessions[newId])
                && sessions == old(sessions)[newId := sessions[newId]]
                && sessions[newId].serverType == serverType
                && sessions[newId].command == ConfigOf(serverType, processEnv).value.command
                && sessions[newId].args == ConfigOf(serverType, processEnv).value.args
                && sessions[newId].stdin == [stringify(body) + "\n"]
                && sessions[newId].responses == []
                && sessions[newId].streaming == WantsEventStream(accept)
                && r == (if WantsEventStream(accept) then HttpResponse(200, Some(newId), EventStream([]))
                         else HttpResponse(202, Some(newId), JsonBody(SessionIdBody(newId))))
    {
      var decision := BasicAuth(auth, apiKey, decode);
      if decision.Reject? {
        return AuthReply(decision);
      }
      var session: Session;
      var id: string;
      if Names(sessions, sessionHeader) {
        id := sessionHeader.value;
        session := sessions[id];
      } else {
        var config := ConfigOf(serverType, processEnv);
        if config.None? {
          return ErrorReply(500, "Unknown server type: " + serverType);
        }
        id := newId;
        session := new Session(newId, serverType, config.value, processEnv, parse, stringify);
        sessions := sessions[newId := session];
      }
      r := session.Respond(stringify(body) + "\n", WantsEventStream(accept));
    }

    /** `GET /mcp/:serverType/poll`: after the auth gate, an absent, empty or unknown
        session id is a 400; otherwise every queued response is returned, oldest first,
        and the queue is emptied. */
    method Poll(auth: Option<string>, sessionHeader: Option<string>) returns (r: HttpResponse)
      requires Valid()
      modifies if Names(sessions, sessionHeader) then {sessions[sessionHeader.value]} else {}
      ensures Valid()
      ensures BasicAuth(auth, apiKey, decode).Reject? ==> r == AuthReply(BasicAuth(auth, apiKey, decode))
      ensures BasicAuth(auth, apiKey, decode) == Pass && !Names(sessions, sessionHeader) ==>
                r == ErrorReply(400, "Invalid session ID")
      ensures BasicAuth(auth, apiKey, decode) == Pass && Names(sessions, sessionHeader) ==>
                var s := sessions[sessionHeader.value];
                && s.responses == []
                && r == HttpResponse(200, None, JsonBody(JObj([("responses", JArr(old(s.responses)))])))
    {
      var decision := BasicAuth(auth, apiKey, decode);
      if decision.Reject? {
        return AuthReply(decision);
      }
      if !Names(sessions, sessionHeader) {
        return ErrorReply(400, "Invalid session ID");
      }
      var session := sessions[sessionHeader.value];
      var all := session.DrainAll();
      r := HttpResponse(200, None, JsonBody(JObj([("responses", JArr(all))])));
    }

    /** A chunk of the child's stdout for a live session. */
    method OnStdout(id: string, chunk: string)
      requires Valid() && id in sessions
      modifies sessions[id]
      ensures Valid()
      ensures var s := sessions[id];
        && s.responses == old(s.responses) + Queued(parse, CompleteLines(old(s.buffer) + chunk))
        && s.buffer == Remainder(old(s.buffer) + chunk)
    {
      sessions[id].Deliver(chunk);
    }

    /** The child's `exit` event: its session leaves the map. */
    method ProcessExit(id: string)
      requires Valid()
      modifies this
      ensures Valid()
      ensures sessions == old(sessions) - {id}
    {
      sessions := sessions - {id};
    }

    /** The event-stream client's `close` event: the stream is detached, the child killed
        and the session removed. */
    method ClientClosed(id: string)
      requires Valid()
      modifies this, if id in sessions then {sessions[id]} else {}
      ensures Valid()
      ensures sessions == old(sessions) - {id}
      ensures id in old(sessions) ==> old(sessions)[id].killed && !old(sessions)[id].streaming
    {
      if id in sessions {
        sessions[id].Close();
      }
      sessions := sessions - {id};
    }

    /** The periodic sweep: every session whose child was killed is removed. Because the
        only handler that kills a child also removes its session, the sweep never finds
        one. */
    method Sweep()
      modifies this
      ensures sessions == map id | id in old(sessions) && !old(sessions)[id].killed :: old(sessions)[id]
      ensures old(Valid()) ==> sessions == old(sessions)
    {
      var ids := sessions.Keys;
      while ids != {}
        invariant ids <= old(sessions).Keys
        invariant sessions == map id | id in old(sessions) && (id in ids || !old(sessions)[id].killed)
                                :: old(sessions)[id]
        decreases ids
      {
        var id :| id in ids;
        if sessions[id].killed {
          sessions := sessions - {id};
        }
        ids := ids - {id};
      }
    }
  }

  /** A chunk holding one whole line. */
  lemma {:induction false} OneLine(line: string)
    requires '\n' !in line
    ensures CompleteLines(line + "\n") == [line] && Remainder(line + "\n") == ""
  {
    assert line + "\n" == line + ['\n'] + "";
    SplitPrefix(line, "", '\n');
  }

  /** After an event stream is attached, each new response is both streamed and queued,
      so a later poll hands it out a second time. */
  method StreamedResponsesStayQueued(parse: Parser, stringify: Stringify, line: string)
    returns (streamed: seq<string>, polled: seq<Json>)
    requires '\n' !in line && !Blank(line) && parse(line).Some? && !parse(line).value.JNull?
    ensures streamed == [SseFrame(stringify(parse(line).value))]
    ensures polled == [parse(line).value]
  {
    var config := ServerConfig("node", ["/app/mcp-servers/notion/dist/index.js"], []);
    var s := new Session("session", "notion", config, map[], parse, stringify);
    var initial := s.OpenStream();
    OneLine(line);
    assert Queued(parse, [line]) == [parse(line).value] by {
      assert [line][..0] == [];
    }
    assert NonNull([parse(line).value]) == [parse(line).value] by {
      assert [parse(line).value][..0] == [];
    }
    var response := parse(line).value;
    var chunk := line + "\n";
    assert s.buffer + chunk == chunk;
    assert FramesOf(stringify, [response]) == [SseFrame(stringify(response))] by {
      assert [response][..0] == [];
    }
    ghost var queued := Queued(parse, CompleteLines(s.buffer + chunk));
    assert queued == [response];
    s.Deliver(chunk);
    assert s.stream == FramesOf(stringify, NonNull(queued));
    streamed := s.stream;
    assert s.responses == queued;
    polled := s.DrainAll();
  }
}
