/** The older MCP HTTP bridge (clean-mcp-bridge/server.js). Each session runs its MCP
    server in a Docker container; every stdout chunk is split into lines on its own (no
    carry-over buffer), each line that parses is queued and, with an event stream
    attached, also written to it. A plain POST only forwards the request; responses leave
    through an event stream opened by POST or GET. Sessions are never removed. */
module CleanBridge {
  import opened Wrappers
  import opened Text
  import opened Json
  import opened BridgeCommon
  import FixedBridge

  /** The `args` field of a server entry: absent, an array, or some other value. */
  datatype ArgsField = NoArgs | ArrayArgs(items: seq<string>) | OtherArgs

  /** One entry of `MCP_SERVERS`; `env` values are None for `undefined`. */
  datatype DockerConfig = DockerConfig(mode: string, image: string, container: string,
                                       command: string, args: ArgsField,
                                       env: Option<seq<(string, Option<string>)>>)

  /** `${value}` for a possibly undefined value. */
  function ValueText(v: Option<string>): string
  {
    if v.Some? then v.value else "undefined"
  }

  /** `'-e', '<key>=<value>'` for each entry, in entry order. */
  function EnvFlags(env: seq<(string, Option<string>)>): (r: seq<string>)
    ensures |r| == 2 * |env|
    decreases |env|
  {
    if env == [] then []
    else
      var last := env[|env| - 1];
      EnvFlags(env[..|env| - 1]) + ["-e", last.0 + "=" + ValueText(last.1)]
  }

  /** Each entry becomes a `-e` flag followed by its `key=value` word. */
  lemma {:induction false} EnvFlagsAt(env: seq<(string, Option<string>)>, i: nat)
    requires i < |env|
    ensures EnvFlags(env)[2 * i] == "-e"
    ensures EnvFlags(env)[2 * i + 1] == env[i].0 + "=" + ValueText(env[i].1)
    decreases |env|
  {
    if i < |env| - 1 {
      EnvFlagsAt(env[..|env| - 1], i);
    }
  }

  /** The arguments `args.push(...config.args)` appends: only an array counts. */
  function ExtraArgs(args: ArgsField): seq<string>
  {
    if args.ArrayArgs? then args.items else []
  }

  /** The argv of `docker`: in run mode `run --rm -i`, the env flags, the image, the
      command and the array args; in any other mode `exec -i`, the container, the command
      and the array args. */
  method DockerArgv(config: DockerConfig) returns (argv: seq<string>)
    ensures config.mode == "run" ==>
              argv == ["run", "--rm", "-i"]
                      + (if config.env.Some? then EnvFlags(config.env.value) else [])
                      + [config.image, config.command] + ExtraArgs(config.args)
    ensures config.mode != "run" ==>
              argv == ["exec", "-i", config.container, config.command] + ExtraArgs(config.args)
  {
    if config.mode == "run" {
      argv := ["run", "--rm", "-i"];
      if config.env.Some? {
        var env := config.env.value;
        var i := 0;
        while i < |env|
          invariant 0 <= i <= |env|
          invariant argv == ["run", "--rm", "-i"] + EnvFlags(env[..i])
        {
          assert env[..i + 1][..i] == env[..i];
          var (key, value) := env[i];
          argv := argv + ["-e", key + "=" + ValueText(value)];
          i := i + 1;
        }
        assert env[..i] == env;
      }
      argv := argv + [config.image, config.command];
    } else {
      argv := ["exec", "-i", config.container, config.command];
    }
    if config.args.ArrayArgs? {
      var items := config.args.items;
      ghost var base := argv;
      var i := 0;
      while i < |items|
        invariant 0 <= i <= |items|
        invariant argv == base + items[..i]
      {
        argv := argv + [items[i]];
        i := i + 1;
      }
      assert items[..i] == items;
    }
  }

  /** `MCP_SERVERS[serverType]`, read from the bridge's environment when it loads. */
  function ConfigOf(serverType: string, processEnv: map<string, string>): (r: Option<DockerConfig>)
    ensures r.Some? <==> serverType == "pdf-reader" || serverType == "notion" || serverType == "aws"
    ensures r.Some? ==> r.value.mode == "run"
  {
    if serverType == "pdf-reader" then
      Some(DockerConfig("run", "mcp-pdf-reader:latest", "", "python",
                        ArrayArgs(["mcp_pdf_reader.py"]), None))
    else if serverType == "notion" then
      Some(DockerConfig("run", "mcp-notion:latest", "", "notion-mcp-server", NoArgs,
                        Some([("NOTION_API_KEY", FixedBridge.EnvVar(processEnv, "NOTION_API_KEY"))])))
    else if serverType == "aws" then
      var region := FixedBridge.EnvVar(processEnv, "AWS_REGION");
      Some(DockerConfig("run", "mcp-aws:latest", "", "awslabs.core-mcp-server.server", NoArgs,
                        Some([("AWS_REGION", Some(if region.Some? && region.value != "" then region.value
                                                  else "us-east-1")),
                              ("AWS_ACCESS_KEY_ID", FixedBridge.EnvVar(processEnv, "AWS_ACCESS_KEY_ID")),
                              ("AWS_SECRET_ACCESS_KEY", FixedBridge.EnvVar(processEnv, "AWS_SECRET_ACCESS_KEY"))])))
    else None
  }

  /** The notion container gets its key as a `-e` flag, and an unset key is passed as the
      literal text "undefined". */
  method NotionArgvWithoutKey(processEnv: map<string, string>) returns (argv: seq<string>)
    requires "NOTION_API_KEY" !in processEnv
    ensures argv == ["run", "--rm", "-i", "-e", "NOTION_API_KEY=undefined",
                     "mcp-notion:latest", "notion-mcp-server"]
  {
    var config := ConfigOf("notion", processEnv).value;
    argv := DockerArgv(config);
    assert FixedBridge.EnvVar(processEnv, "NOTION_API_KEY") == None;
    assert config.env.value == [("NOTION_API_KEY", None)];
    assert EnvFlags(config.env.value) == ["-e", "NOTION_API_KEY=undefined"] by {
      assert config.env.value[..0] == [];
      assert EnvFlags([]) == [];
      assert "NOTION_API_KEY" + "=" + ValueText(None) == "NOTION_API_KEY=undefined";
    }
  }

  /** The responses one stdout chunk yields on its own: every non-blank `\n`-field of the
      chunk that parses, its last (unterminated) field included. */
  function ChunkResponses(parse: Parser, chunk: string): seq<Json>
  {
    FixedBridge.Queued(parse, Split(chunk, '\n'))
  }

  /** A JSON line that reaches the bridge in two chunks, neither half being JSON, is queued
      by the newer bridge once its line feed arrives, and never by this one. */
  lemma {:induction false} SplitLineLost(parse: Parser, a: string, b: string)
    requires '\n' !in a + b
    requires parse(a).None? && parse(b).None? && parse(a + b).Some? && !FixedBridge.Blank(a + b)
    ensures ChunkResponses(parse, a) + ChunkResponses(parse, b + "\n") == []
    ensures FixedBridge.CompleteLines("" + a) == [] && FixedBridge.Remainder("" + a) == a
    ensures FixedBridge.Queued(parse, FixedBridge.CompleteLines(a + (b + "\n"))) == [parse(a + b).value]
  {
    assert '\n' !in a && '\n' !in b by {
      assert forall i :: 0 <= i < |a| ==> (a + b)[i] == a[i];
      assert forall i :: 0 <= i < |b| ==> (a + b)[|a| + i] == b[i];
    }
    SplitNoSeparator(a, '\n');
    assert "" + a == a;
    assert [a][..0] == [];
    assert FixedBridge.Queued(parse, [a]) == [];
    assert b + "\n" == b + ['\n'] + "";
    SplitPrefix(b, "", '\n');
    SplitNoSeparator("", '\n');
    assert Split(b + "\n", '\n') == [b, ""];
    assert [b, ""][..1] == [b] && [b][..0] == [];
    assert FixedBridge.Queued(parse, [b]) == [];
    assert FixedBridge.Blank("");
    assert FixedBridge.Queued(parse, [b, ""]) == [];
    FixedBridge.OneLine(a + b);
    assert a + (b + "\n") == (a + b) + "\n";
    assert [a + b][..0] == [];
  }

  /** One session: the container process and the state its handlers share. */
  class Session {
    const id: string
    const serverType: string
    /** The argv `docker` was spawned with. */
    const argv: seq<string>
    const parse: Parser
    const stringify: Stringify

    /** Parsed responses not yet handed to a client. */
    var responses: seq<Json>
    /** An event stream is attached. */
    var streaming: bool
    /** The frames written to the attached event stream, oldest first. */
    var stream: seq<string>
    /** Lines written to the container's stdin. */
    var stdin: seq<string>

    /** Every response ever queued, and those that left the queue, oldest first. */
    ghost var parsed: seq<Json>
    ghost var taken: seq<Json>

    /** The queue is a FIFO over everything parsed. */
    ghost predicate Valid()
      reads this
    {
      taken + responses == parsed
    }

    constructor (id: string, serverType: string, argv: seq<string>, parse: Parser,
                 stringify: Stringify)
      ensures this.id == id && this.serverType == serverType && this.argv == argv
      ensures this.parse == parse && this.stringify == stringify
      ensures responses == [] && !streaming && stream == [] && stdin == []
      ensures parsed == [] && taken == [] && Valid()
    {
      this.id := id;
      this.serverType := serverType;
      this.argv := argv;
      this.parse := parse;
      this.stringify := stringify;
      responses := [];
      streaming := false;
      stream := [];
      stdin := [];
      parsed := [];
      taken := [];
    }

    /** The stdout handler for one chunk: its non-blank lines that parse are queued and,
        with a stream attached, written to it (`null` included). */
    method Deliver(chunk: string)
      requires Valid()
      modifies this`responses, this`parsed, this`stream
      ensures Valid()
      ensures parsed == old(parsed) + ChunkResponses(parse, chunk)
      ensures responses == old(responses) + ChunkResponses(parse, chunk)
      ensures stream == old(stream) + (if streaming then FramesOf(stringify, ChunkResponses(parse, chunk)) else [])
      ensures taken == old(taken) && streaming == old(streaming) && stdin == old(stdin)
    {
      var lines := Split(chunk, '\n');
      var queued, init, frames := FixedBridge.HandleLines(parse, stringify, false, false, lines);
      assert queued == ChunkResponses(parse, chunk);
      var written: seq<string> := [];
      if streaming {
        written := FramesOf(stringify, queued);
      }
      assert taken + (responses + queued) == (taken + responses) + queued;
      responses, parsed, stream := responses + queued, parsed + queued, stream + written;
    }

    /** `session.process.stdin.write(line)`. */
    method WriteStdin(line: string)
      modifies this`stdin
      ensures stdin == old(stdin) + [line]
      ensures responses == old(responses) && streaming == old(streaming) && stream == old(stream)
      ensures parsed == old(parsed) && taken == old(taken)
    {
      stdin := stdin + [line];
    }

    /** Attach an event stream: write every queued response, in order, and empty the queue. */
    method OpenStream() returns (frames: seq<string>)
      requires Valid()
      modifies this`streaming, this`stream, this`taken, this`responses
      ensures Valid()
      ensures frames == FramesOf(stringify, old(responses))
      ensures streaming && stream == frames && responses == []
      ensures taken == old(taken) + old(responses) && parsed == old(parsed) && stdin == old(stdin)
    {
      streaming := true;
      frames := [];
      var i := 0;
      while i < |responses|
        invariant 0 <= i <= |responses|
        invariant frames == FramesOf(stringify, responses[..i])
      {
        assert responses[..i + 1][..i] == responses[..i];
        frames := frames + [SseFrame(stringify(responses[i]))];
        i := i + 1;
      }
      assert responses[..i] == responses;
      stream := frames;
      taken := taken + responses;
      responses := [];
    }

    /** What a POST does with its session: the body goes to stdin; an event-stream
        request then attaches a stream that gets every queued response and empties the
        queue, any other request gets 202 with no body. */
    method Exchange(line: string, eventStream: bool) returns (r: HttpResponse)
      requires Valid()
      modifies this`stdin, this`streaming, this`stream, this`taken, this`responses
      ensures Valid()
      ensures stdin == old(stdin) + [line] && parsed == old(parsed)
      ensures eventStream ==>
                && streaming && responses == [] && stream == FramesOf(stringify, old(responses))
                && taken == old(taken) + old(responses)
                && r == HttpResponse(200, Some(id), EventStream(stream))
      ensures !eventStream ==>
                && responses == old(responses) && streaming == old(streaming)
                && stream == old(stream) && taken == old(taken)
                && r == HttpResponse(202, Some(id), NoBody)
    {
      WriteStdin(line);
      if eventStream {
        var frames := OpenStream();
        r := HttpResponse(200, Some(id), EventStream(frames));
      } else {
        r := HttpResponse(202, Some(id), NoBody);
      }
    }

    /** The stream's `close` handler: only the stream is detached. */
    method Detach()
      modifies this`streaming
      ensures !streaming
      ensures responses == old(responses) && stream == old(stream) && stdin == old(stdin)
      ensures parsed == old(parsed) && taken == old(taken)
    {
      streaming := false;
    }
  }

  /** `sessionId && sessions.has(sessionId)`: the header names a session (an empty header
      is falsy). */
  predicate Names(sessions: map<string, Session>, sessionHeader: Option<string>)
  {
    sessionHeader.Some? && sessionHeader.value != "" && sessionHeader.value in sessions
  }

  /** The bridge process: the session map and the settings every handler reads. */
  class Bridge {
    var sessions: map<string, Session>
    const apiKey: Option<string>
    const processEnv: map<string, string>
    const decode: Base64Decoder
    const parse: Parser
    const stringify: Stringify

    /** Every session is filed under its own id and keeps its queue invariant. */
    ghost predicate Valid()
      reads this, sessions.Values
    {
      forall id :: id in sessions ==>
        && sessions[id].id == id && sessions[id].Valid()
        && sessions[id].parse == parse && sessions[id].stringify == stringify
    }

    constructor (apiKey: Option<string>, processEnv: map<string, string>, decode: Base64Decoder,
                 parse: Parser, stringify: Stringify)
      ensures sessions == map[] && Valid()
      ensures this.apiKey == apiKey && this.processEnv == processEnv && this.decode == decode
      ensures this.parse == parse && this.stringify == stringify
    {
      sessions := map[];
      this.apiKey := apiKey;
      this.processEnv := processEnv;
      this.decode := decode;
      this.parse := parse;
      this.stringify := stringify;
    }

    /** `POST /mcp/:serverType`: after the auth gate, a live session named by the header is
        reused, else one is created under `newId` (an unknown type is a 500 and spawns
        nothing); the body goes to stdin. An event-stream request gets the queued
        responses and empties the queue; any other gets 202 with no body and leaves the
        queue as it is. */
    method Post(auth: Option<string>, sessionHeader: Option<string>, serverType: string,
                body: Json, accept: Option<string>, newId: string)
      returns (r: HttpResponse)
      requires Valid()
      requires newId !in sessions
      modifies this, if Names(sessions, sessionHeader) then {sessions[sessionHeader.value]} else {}
      ensures Valid()
      ensures BasicAuth(auth, apiKey, decode).Reject? ==>
                r == AuthReply(BasicAuth(auth, apiKey, decode)) && sessions == old(sessions)
      ensures BasicAuth(auth, apiKey, decode) == Pass && !Names(old(sessions), sessionHeader)
              && ConfigOf(serverType, processEnv).None? ==>
                r == ErrorReply(500, "Unknown server type: " + serverType) && sessions == old(sessions)
      ensures BasicAuth(auth, apiKey, decode) == Pass && Names(old(sessions), sessionHeader) ==>
                var id := sessionHeader.value;
                var s := old(sessions)[id];
                && sessions == old(sessions)
                && s.stdin == old(s.stdin) + [stringify(body) + "\n"]
                && (FixedBridge.WantsEventStream(accept) ==>
                      && s.streaming && s.responses == []
                      && s.stream == FramesOf(stringify, old(s.responses))
                      && r == HttpResponse(200, Some(id), EventStream(s.stream)))
                && (!FixedBridge.WantsEventStream(accept) ==>
                      && s.responses == old(s.responses)
                      && r == HttpResponse(202, Some(id), NoBody))
      ensures BasicAuth(auth, apiKey, decode) == Pass && !Names(old(sessions), sessionHeader)
              && ConfigOf(serverType, processEnv).Some? ==>
                && newId in sessions && fresh(sessions[newId])
                && sessions == old(sessions)[newId := sessions[newId]]
                && sessions[newId].argv == ["run", "--rm", "-i"]
                     + EnvFlags(ConfigOf(serverType, processEnv).value.env.GetOr([]))
                     + [ConfigOf(serverType, processEnv).value.image,
                        ConfigOf(serverType, processEnv).value.command]
                     + ExtraArgs(ConfigOf(serverType, processEnv).value.args)
                && sessions[newId].stdin == [stringify(body) + "\n"]
                && sessions[newId].responses == []
                && r == (if FixedBridge.WantsEventStream(accept)
                         then HttpResponse(200, Some(newId), EventStream([]))
                         else HttpResponse(202, Some(newId), NoBody))
    {
      var decision := BasicAuth(auth, apiKey, decode);
      if decision.Reject? {
        return AuthReply(decision);
      }
      var session: Session;
      var id: string;
      if Names(sessions, sessionHeader) {
        id := sessionHeader.value;
        session := sessions[id];
      } else {
        var config := ConfigOf(serverType, processEnv);
        if config.None? {
          return ErrorReply(500, "Unknown server type: " + serverType);
        }
        var argv := DockerArgv(config.value);
        id := newId;
        session := new Session(newId, serverType, argv, parse, stringify);
        sessions := sessions[newId := session];
      }
      r := session.Exchange(stringify(body) + "\n", FixedBridge.WantsEventStream(accept));
    }

    /** `GET /mcp/:serverType`: after the auth gate, an absent, empty or unknown session id
        is a 400; otherwise an event stream is attached, gets every queued response in
        order, and the queue is emptied. */
    method GetStream(auth: Option<string>, sessionHeader: Option<string>) returns (r: HttpResponse)
      requires Valid()
      modifies if Names(sessions, sessionHeader) then {sessions[sessionHeader.value]} else {}
      ensures Valid()
      ensures BasicAuth(auth, apiKey, decode).Reject? ==> r == AuthReply(BasicAuth(auth, apiKey, decode))
      ensures BasicAuth(auth, apiKey, decode) == Pass && !Names(sessions, sessionHeader) ==>
                r == ErrorReply(400, "Invalid session ID")
      ensures BasicAuth(auth, apiKey, decode) == Pass && Names(sessions, sessionHeader) ==>
                var s := sessions[sessionHeader.value];
                && s.streaming && s.responses == []
                && s.stream == FramesOf(stringify, old(s.responses))
                && r == HttpResponse(200, None, EventStream(s.stream))
    {
      var decision := BasicAuth(auth, apiKey, decode);
      if decision.Reject? {
        return AuthReply(decision);
      }
      if !Names(sessions, sessionHeader) {
        return ErrorReply(400, "Invalid session ID");
      }
      var session := sessions[sessionHeader.value];
      var frames := session.OpenStream();
      r := HttpResponse(200, None, EventStream(frames));
    }

    /** A chunk of a container's stdout. */
    method OnStdout(id: string, chunk: string)
      requires Valid() && id in sessions
      modifies sessions[id]
      ensures Valid()
      ensures sessions[id].responses == old(sessions[id].responses) + ChunkResponses(parse, chunk)
    {
      sessions[id].Deliver(chunk);
    }

    /** The stream client's `close` event: the stream is detached and the session stays. */
    method ClientClosed(id: string)
      requires Valid() && id in sessions
      modifies sessions[id]
      ensures Valid()
      ensures !sessions[id].streaming
      ensures sessions[id].responses == old(sessions[id].responses)
    {
      sessions[id].Detach();
    }
  }
}
