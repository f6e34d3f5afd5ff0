/** What the two MCP HTTP bridges (mcp-bridge-fixed/server-v2.js and
    clean-mcp-bridge/server.js) share: the Basic-auth gate in front of every MCP route,
    the server-sent-event framing of responses, and the shape of an HTTP reply. */
module BridgeCommon {
  import opened Wrappers
  import opened Text
  import opened Json

  /** `Buffer.from(s, 'base64').toString()`, which never throws. */
  type Base64Decoder = string -> string

  /** `JSON.stringify`. */
  type Stringify = Json -> string

  datatype AuthDecision = Pass | Reject(reason: string)

  const AuthUser: string := "beepmedia"

  /** The `:`-separated fields of the decoded credentials. */
  function CredentialFields(decoded: string): (r: seq<string>)
    ensures |r| >= 1 && forall i :: 0 <= i < |r| ==> ':' !in r[i]
  {
    Split(decoded, ':')
  }

  /** The second field, `undefined` (None) when the credentials hold no colon. */
  function SecondField(decoded: string): Option<string>
  {
    var fields := CredentialFields(decoded);
    if |fields| > 1 then Some(fields[1]) else None
  }

  /** The `basicAuth` middleware: no `Authorization` header, or one without the `Basic `
      prefix, is refused with "Authentication required"; otherwise the second
      space-separated word is decoded, split on every colon, and the request passes iff
      the first field is "beepmedia" and the second is strictly equal to `MCP_API_KEY`
      (both absent counts as equal). */
  function BasicAuth(header: Option<string>, apiKey: Option<string>, decode: Base64Decoder)
    : (r: AuthDecision)
    ensures r.Reject? ==> r.reason == "Authentication required" || r.reason == "Invalid credentials"
    ensures (header.None? || !StartsWith(header.value, "Basic ")) <==>
            r == Reject("Authentication required")
  {
    if header.None? || !StartsWith(header.value, "Basic ") then Reject("Authentication required")
    else
      var h := header.value;
      assert h[5] == ' ';
      var words := Split(h, ' ');
      var decoded := decode(words[1]);
      if CredentialFields(decoded)[0] == AuthUser && SecondField(decoded) == apiKey then Pass
      else Reject("Invalid credentials")
  }

  /** The word `basicAuth` decodes from a `Basic ` header: everything up to the next space. */
  lemma {:induction false} TokenOfHeader(token: string)
    ensures Split("Basic " + token, ' ')[1] == Split(token, ' ')[0]
  {
    assert "Basic " + token == "Basic" + [' '] + token;
    SplitPrefix("Basic", token, ' ');
  }

  lemma {:induction false} SplitHead(s: string, c: char)
    ensures s == [] || s[0] == c ==> Split(s, c)[0] == ""
    ensures s != [] && s[0] != c ==> Split(s, c)[0] == [s[0]] + Split(s[1..], c)[0]
  {
  }

  lemma {:induction false} StartsWithCons(s: string, p: string)
    requires s != [] && p != []
    ensures StartsWith(s, p) <==> s[0] == p[0] && StartsWith(s[1..], p[1..])
  {
    if s[0] == p[0] && StartsWith(s[1..], p[1..]) {
      assert s[..|p|] == [s[0]] + s[1..][..|p[1..]|];
      assert p == [p[0]] + p[1..];
    }
    if StartsWith(s, p) {
      assert s[1..][..|p[1..]|] == s[..|p|][1..];
    }
  }

  lemma {:induction false} EqualCons(s: string, k: string)
    requires s != [] && k != []
    ensures s == k <==> s[0] == k[0] && s[1..] == k[1..]
  {
    if s[0] == k[0] && s[1..] == k[1..] {
      assert s == [s[0]] + s[1..];
      assert k == [k[0]] + k[1..];
    }
  }

  /** The first `c`-field of `s` is `k` (free of `c`) iff `s` is `k` or starts with `k`
      followed by `c`. */
  lemma {:induction false} FirstFieldIs(s: string, c: char, k: string)
    requires c !in k
    ensures Split(s, c)[0] == k <==> s == k || StartsWith(s, k + [c])
    decreases |s|
  {
    SplitHead(s, c);
    if k == [] {
      assert k + [c] == [c];
      assert s != [] ==> (StartsWith(s, [c]) <==> s[0] == c);
    } else if s == [] {
      assert !StartsWith(s, k + [c]);
    } else if s[0] == c {
      assert k[0] != c;
      assert (k + [c])[0] == k[0];
      assert !StartsWith(s, k + [c]) && s != k;
    } else {
      var kc := k + [c];
      assert kc[0] == k[0] && kc[1..] == k[1..] + [c];
      FirstFieldIs(s[1..], c, k[1..]);
      StartsWithCons(s, kc);
      EqualCons(s, k);
      var rest := Split(s[1..], c)[0];
      EqualCons([s[0]] + rest, k);
      assert ([s[0]] + rest)[1..] == rest;
    }
  }

  /** User and password as section 2 of RFC 7617 reads them: the user-id ends at the first
      colon and the password is everything after it, colons included. */
  function RfcUserPass(decoded: string): (r: Option<(string, string)>)
    ensures r.Some? ==> decoded == r.value.0 + ":" + r.value.1 && ':' !in r.value.0
    ensures r.None? <==> ':' !in decoded
    decreases |decoded|
  {
    if decoded == [] then None
    else if decoded[0] == ':' then Some(("", decoded[1..]))
    else
      match RfcUserPass(decoded[1..])
      case None => None
      case Some((u, p)) => Some(([decoded[0]] + u, p))
  }

  /** A `Basic` header is judged on the credentials its token decodes to. */
  lemma {:induction false} BasicOfToken(token: string, apiKey: Option<string>, decode: Base64Decoder)
    ensures var decoded := decode(Split(token, ' ')[0]);
      BasicAuth(Some("Basic " + token), apiKey, decode) == Pass <==>
        CredentialFields(decoded)[0] == AuthUser && SecondField(decoded) == apiKey
  {
    TokenOfHeader(token);
    assert StartsWith("Basic " + token, "Basic ");
  }

  /** The fields `basicAuth` compares, against the RFC 7617 reading of the same text. */
  lemma {:induction false} FieldsAgainstRfc(decoded: string, key: string)
    requires ':' !in key
    ensures CredentialFields(decoded)[0] == AuthUser && SecondField(decoded) == Some(key) <==>
        && RfcUserPass(decoded).Some?
        && RfcUserPass(decoded).value.0 == AuthUser
        && (RfcUserPass(decoded).value.1 == key || StartsWith(RfcUserPass(decoded).value.1, key + ":"))
  {
    match RfcUserPass(decoded)
    case None =>
      SplitNoSeparator(decoded, ':');
    case Some((u, p)) =>
      assert decoded == u + [':'] + p;
      SplitPrefix(u, p, ':');
      var fields := CredentialFields(decoded);
      assert fields[0] == u && fields[1] == Split(p, ':')[0];
      assert key + ":" == key + [':'];
      FirstFieldIs(p, ':', key);
  }

  /** With `MCP_API_KEY` set to a colon-free key, a `Basic` request passes iff, read as
      RFC 7617 intends, the user is "beepmedia" and the password is the key itself or the
      key followed by a colon and anything at all: only the text between the first and
      second colon is compared. */
  lemma {:induction false} BasicAuthAgainstRfc(token: string, key: string, decode: Base64Decoder)
    requires ':' !in key
    ensures var decoded := decode(Split(token, ' ')[0]);
      BasicAuth(Some("Basic " + token), Some(key), decode) == Pass <==>
        && RfcUserPass(decoded).Some?
        && RfcUserPass(decoded).value.0 == AuthUser
        && (RfcUserPass(decoded).value.1 == key || StartsWith(RfcUserPass(decoded).value.1, key + ":"))
  {
    BasicOfToken(token, Some(key), decode);
    FieldsAgainstRfc(decode(Split(token, ' ')[0]), key);
  }

  /** A key holding a colon can never be matched: no field of a split holds one. */
  lemma {:induction false} KeyWithColonNeverPasses(header: Option<string>, key: string, decode: Base64Decoder)
    requires ':' in key
    ensures BasicAuth(header, Some(key), decode) != Pass
  {
  }

  /** With `MCP_API_KEY` unset, a credential without any colon whose text is "beepmedia"
      passes, and nothing else does. */
  lemma {:induction false} UnsetKeyAcceptsBareUser(token: string, decode: Base64Decoder)
    ensures BasicAuth(Some("Basic " + token), None, decode) == Pass <==>
            decode(Split(token, ' ')[0]) == AuthUser
  {
    TokenOfHeader(token);
    assert StartsWith("Basic " + token, "Basic ");
    var decoded := decode(Split(token, ' ')[0]);
    if ':' !in decoded {
      SplitNoSeparator(decoded, ':');
    }
  }

  /** One server-sent event carrying `payload` in a single `data` field. */
  function SseFrame(payload: string): string
  {
    "data: " + payload + "\n\n"
  }

  /** Several events, back to back. */
  function SseFrames(payloads: seq<string>): string
  {
    if payloads == [] then "" else SseFrame(payloads[0]) + SseFrames(payloads[1..])
  }

  /** Position of the first colon, or the length when there is none. */
  function ColonIndex(line: string): (i: nat)
    ensures i <= |line| && ':' !in line[..i]
    ensures i < |line| ==> line[i] == ':'
    decreases |line|
  {
    if line == [] || line[0] == ':' then 0
    else
      var j := ColonIndex(line[1..]);
      assert line[..j + 1] == [line[0]] + line[1..][..j];
      1 + j
  }

  /** A field line's name and value: the name runs to the first colon, the value follows
      it without one leading space; a line without a colon is a name with an empty value. */
  function FieldOf(line: string): (string, string)
  {
    var i := ColonIndex(line);
    if i == |line| then (line, "")
    else
      var value := line[i + 1..];
      (line[..i], if value != [] && value[0] == ' ' then value[1..] else value)
  }

  /** Event-stream interpretation (HTML Living Standard, section 9.2.6) of complete lines:
      a blank line dispatches the data buffer without its last line feed, unless the
      buffer is empty; a line starting with a colon is a comment; a `data` field appends
      its value and a line feed; other fields are ignored. */
  function DecodeLines(lines: seq<string>, data: string): seq<string>
    decreases |lines|
  {
    if lines == [] then []
    else
      var line := lines[0];
      if line == "" then
        (if data == "" then [] else [data[..|data| - 1]]) + DecodeLines(lines[1..], "")
      else if line[0] == ':' then DecodeLines(lines[1..], data)
      else if FieldOf(line).0 == "data" then DecodeLines(lines[1..], data + FieldOf(line).1 + "\n")
      else DecodeLines(lines[1..], data)
  }

  /** The data of every event a client reads from a stream that uses line-feed line
      endings; text after the last line feed is an incomplete line and is discarded. */
  function DecodeStream(stream: string): seq<string>
  {
    var lines := Split(stream, '\n');
    DecodeLines(lines[..|lines| - 1], "")
  }

  /** The lines of `SseFrames(payloads)`. */
  function FrameLines(payloads: seq<string>): seq<string>
  {
    if payloads == [] then [] else ["data: " + payloads[0], ""] + FrameLines(payloads[1..])
  }

  lemma {:induction false} SplitFrames(payloads: seq<string>)
    requires forall i :: 0 <= i < |payloads| ==> '\n' !in payloads[i]
    ensures Split(SseFrames(payloads), '\n') == FrameLines(payloads) + [""]
  {
    if payloads != [] {
      var p := payloads[0];
      SplitFrames(payloads[1..]);
      var rest := SseFrames(payloads[1..]);
      assert SseFrames(payloads) == ("data: " + p) + ['\n'] + ("" + ['\n'] + rest);
      assert '\n' !in "data: " + p;
      SplitPrefix("data: " + p, "" + ['\n'] + rest, '\n');
      SplitPrefix("", rest, '\n');
      assert "" + ['\n'] + rest == [] + ['\n'] + rest;
    }
  }

  lemma {:induction false} DecodeFrameLines(payloads: seq<string>)
    ensures DecodeLines(FrameLines(payloads), "") == payloads
  {
    if payloads != [] {
      var p := payloads[0];
      var line := "data: " + p;
      assert line[..4] == "data" && line[4] == ':';
      assert ':' !in line[..4];
      assert ColonIndex(line) == 4 by {
        assert line[1..][..3] == "ata" && line[1..][3] == ':';
        assert line[2..][..2] == "ta" && line[2..][2] == ':';
        assert line[3..][..1] == "a" && line[3..][1] == ':';
        assert line[1..][1..] == line[2..] && line[2..][1..] == line[3..] && line[3..][1..] == line[4..];
      }
      assert line[5..] == " " + p;
      assert FieldOf(line) == ("data", p);
      DecodeFrameLines(payloads[1..]);
      var lines := FrameLines(payloads);
      assert lines[1..][1..] == FrameLines(payloads[1..]);
      assert ("" + p + "\n")[..|p|] == p;
    }
  }

  /** A client reads back exactly the payloads the bridge framed, in order, provided no
      payload holds a line feed (which `JSON.stringify` output never does). */
  lemma {:induction false} SseRoundTrip(payloads: seq<string>)
    requires forall i :: 0 <= i < |payloads| ==> '\n' !in payloads[i]
    ensures DecodeStream(SseFrames(payloads)) == payloads
  {
    SplitFrames(payloads);
    var lines := FrameLines(payloads) + [""];
    assert lines[..|lines| - 1] == FrameLines(payloads);
    DecodeFrameLines(payloads);
  }

  /** The body of a reply. */
  datatype Body = JsonBody(json: Json) | EventStream(frames: seq<string>) | NoBody

  /** A reply: status, the `Mcp-Session-Id` header when one was set, and the body. */
  datatype HttpResponse = HttpResponse(status: int, sessionId: Option<string>, body: Body)

  /** `res.status(status).json({ error: message })`. */
  function ErrorReply(status: int, message: string): (r: HttpResponse)
    ensures r.status == status && r.sessionId.None?
    ensures r.body == JsonBody(JObj([("error", JStr(message))]))
  {
    HttpResponse(status, None, JsonBody(JObj([("error", JStr(message))])))
  }

  /** The 401 reply of a refused request. */
  function AuthReply(decision: AuthDecision): (r: HttpResponse)
    requires decision.Reject?
    ensures r == ErrorReply(401, decision.reason)
  {
    ErrorReply(401, decision.reason)
  }

  /** `data: ${JSON.stringify(response)}\n\n` for each response in order. */
  function FramesOf(stringify: Stringify, responses: seq<Json>): (r: seq<string>)
    ensures |r| == |responses|
    decreases |responses|
  {
    if responses == [] then []
    else
      FramesOf(stringify, responses[..|responses| - 1])
        + [SseFrame(stringify(responses[|responses| - 1]))]
  }

  lemma {:induction false} FramesOfAppend(stringify: Stringify, a: seq<Json>, b: seq<Json>)
    ensures FramesOf(stringify, a + b) == FramesOf(stringify, a) + FramesOf(stringify, b)
    decreases |b|
  {
    if b == [] {
      assert a + b == a;
    } else {
      var init := b[..|b| - 1];
      assert (a + b)[..|a + b| - 1] == a + init;
      FramesOfAppend(stringify, a, init);
    }
  }

  /** The frames carry the responses' text, one each, in order. */
  lemma {:induction false} FramesOfAt(stringify: Stringify, responses: seq<Json>, i: nat)
    requires i < |responses|
    ensures FramesOf(stringify, responses)[i] == SseFrame(stringify(responses[i]))
    decreases |responses|
  {
    if i < |responses| - 1 {
      FramesOfAt(stringify, responses[..|responses| - 1], i);
    }
  }
}
