/**
 * Logic of the shared types package (shared-types/src/index.ts): the URL
 * normaliser `formatServerUrl` used for MCP servers, and the `ChatStreamChunk`
 * union that streamed chat replies are made of.
 */
module SharedTypes {
  import opened Wrappers
  import opened Js
  import opened McpContracts

  // ---------------------------------------------------------------------------
  // The IPv4-looking prefix /^\d+\.\d+\.\d+\.\d+/
  // ---------------------------------------------------------------------------

  /** The length of the longest run of decimal digits in `s` starting at index `i`. */
  function DigitRun(s: string, i: nat): (r: nat)
    requires i <= |s|
    ensures i + r <= |s|
    ensures forall k | i <= k < i + r :: IsDigit(s[k])
    ensures i + r < |s| ==> !IsDigit(s[i + r])
    decreases |s| - i
  {
    if i < |s| && IsDigit(s[i]) then 1 + DigitRun(s, i + 1) else 0
  }

  /**
   * From index `i`, `s` has `groups - 1` non-empty digit runs each followed by
   * a dot, and then at least one more digit. Digits and dots never overlap, so
   * each run can be read greedily.
   */
  predicate DigitGroups(s: string, i: nat, groups: nat)
    requires i <= |s|
    decreases groups
  {
    if groups <= 1 then groups == 1 && i < |s| && IsDigit(s[i])
    else
      var n := DigitRun(s, i);
      n > 0 && i + n < |s| && s[i + n] == '.' && DigitGroups(s, i + n + 1, groups - 1)
  }

  /** `s.match(/^\d+\.\d+\.\d+\.\d+/)` succeeds. */
  predicate DottedQuadPrefix(s: string) {
    DigitGroups(s, 0, 4)
  }

  /** A dot at `p` closes a non-empty run of digits that starts at `i`. */
  predicate DotAt(s: string, i: int, p: int) {
    0 <= i < p < |s| && s[p] == '.' && forall q | i <= q < p :: IsDigit(s[q])
  }

  /**
   * The regular expression's own reading: `\d+` may stop anywhere, so a match
   * is any choice of dot positions that leaves each group non-empty and all digits.
   */
  ghost predicate GroupsMatch(s: string, i: int, groups: nat)
    decreases groups
  {
    if groups <= 1 then groups == 1 && 0 <= i < |s| && IsDigit(s[i])
    else exists p :: DotAt(s, i, p) && GroupsMatch(s, p + 1, groups - 1)
  }

  /** A dot that closes a digit run sits exactly where the longest digit run ends. */
  lemma DotEndsRun(s: string, i: nat, p: int)
    requires i <= |s| && DotAt(s, i, p)
    ensures p == i + DigitRun(s, i)
  {
  }

  /** The greedy reading and the backtracking reading accept the same strings. */
  lemma {:induction false} DigitGroupsMatch(s: string, i: nat, groups: nat)
    requires i <= |s|
    ensures DigitGroups(s, i, groups) <==> GroupsMatch(s, i, groups)
    decreases groups
  {
    if groups > 1 {
      var n := DigitRun(s, i);
      if n > 0 && i + n < |s| && s[i + n] == '.' {
        DigitGroupsMatch(s, i + n + 1, groups - 1);
        assert DotAt(s, i, i + n);
      }
      if GroupsMatch(s, i, groups) {
        var p :| DotAt(s, i, p) && GroupsMatch(s, p + 1, groups - 1);
        DotEndsRun(s, i, p);
        DigitGroupsMatch(s, p + 1, groups - 1);
      }
    }
  }

  /** `DottedQuadPrefix` is the regular expression's match. */
  lemma DottedQuadPrefixIsRegexMatch(s: string)
    ensures DottedQuadPrefix(s) <==> GroupsMatch(s, 0, 4)
  {
    DigitGroupsMatch(s, 0, 4);
  }

  /** A bare address has the prefix. */
  lemma DottedQuadAddress()
    ensures DottedQuadPrefix("192.168.0.1")
  {
    assert DigitRun("192.168.0.1", 0) == 3;
    assert DigitRun("192.168.0.1", 4) == 3;
    assert DigitRun("192.168.0.1", 8) == 1;
  }

  /** The prefix only needs to start the string: an address followed by a port still has it. */
  lemma DottedQuadWithPort()
    ensures DottedQuadPrefix("10.0.0.7:8080")
  {
    assert DigitRun("10.0.0.7:8080", 0) == 2;
    assert DigitRun("10.0.0.7:8080", 3) == 1;
    assert DigitRun("10.0.0.7:8080", 5) == 1;
  }

  /** Three groups are not enough. */
  lemma ThreeGroupsAreNotAnAddress()
    ensures !DottedQuadPrefix("1.2.3")
  {
    assert DigitRun("1.2.3", 0) == 1;
    assert DigitRun("1.2.3", 2) == 1;
    assert DigitRun("1.2.3", 4) == 1;
  }

  /** Every group needs at least one digit. */
  lemma EmptyGroupIsNotAnAddress()
    ensures !DottedQuadPrefix("1..2.3")
  {
    assert DigitRun("1..2.3", 0) == 1;
    assert DigitRun("1..2.3", 2) == 0;
  }

  // ---------------------------------------------------------------------------
  // formatServerUrl
  // ---------------------------------------------------------------------------

  const UrlRequired: string := "Server URL is required"

  /** The URL carries an explicit HTTP or HTTPS scheme. */
  predicate HasHttpScheme(url: string) {
    StartsWith(url, "http://") || StartsWith(url, "https://")
  }

  /** An sse address without a scheme that is taken to be an HTTP host. */
  predicate LooksLikeHttpHost(url: string) {
    StartsWith(url, "localhost") || DottedQuadPrefix(url)
  }

  /**
   * `formatServerUrl`: the address used to reach an MCP server. `resolve` stands
   * for Node's `path.resolve`, which turns a local path into an absolute one.
   */
  function FormatServerUrl(url: string, serverType: ServerType, resolve: string -> string): (r: Result<string>)
    ensures r.Err? <==> url == ""
    ensures r.Err? ==> r.message == UrlRequired
  {
    if url == "" then Err(UrlRequired)
    else if HasHttpScheme(url) then Ok(url)
    else if Includes(url, "://") then Ok(url)
    else if serverType == Stdio then Ok("file://" + resolve(url))
    else if LooksLikeHttpHost(url) then Ok("http://" + url)
    else Ok(url)
  }

  /** An empty URL is rejected with "Server URL is required", whatever the server type. */
  lemma EmptyUrlRejected(serverType: ServerType, resolve: string -> string)
    ensures FormatServerUrl("", serverType, resolve) == Err("Server URL is required")
  {
  }

  /** A URL with a scheme, HTTP or any other, is returned unchanged for either server type. */
  lemma {:induction false} SchemeUrlsPassThrough(url: string, serverType: ServerType, resolve: string -> string)
    requires HasHttpScheme(url) || OccursIn("://", url)
    ensures FormatServerUrl(url, serverType, resolve) == Ok(url)
  {
    IncludesIffOccurs(url, "://");
    if HasHttpScheme(url) {
      assert |url| >= 7;
    }
  }

  /** A stdio path without a scheme becomes a `file://` URL of its absolute form. */
  lemma StdioPathsBecomeFileUrls(url: string, resolve: string -> string)
    requires url != "" && !OccursIn("://", url)
    ensures FormatServerUrl(url, Stdio, resolve) == Ok("file://" + resolve(url))
    ensures StartsWith(FormatServerUrl(url, Stdio, resolve).value, "file://")
  {
    IncludesIffOccurs(url, "://");
    if StartsWith(url, "http://") {
      assert OccursAt("://", url, 4);
    } else if StartsWith(url, "https://") {
      assert OccursAt("://", url, 5);
    }
    StartsWithAppend("file://", resolve(url));
  }

  /** An sse address without a scheme gets `http://` exactly when it starts with `localhost` or a dotted quad. */
  lemma SseAddressesGetHttpScheme(url: string, resolve: string -> string)
    requires url != "" && !OccursIn("://", url)
    ensures LooksLikeHttpHost(url) ==> FormatServerUrl(url, Sse, resolve) == Ok("http://" + url)
    ensures !LooksLikeHttpHost(url) ==> FormatServerUrl(url, Sse, resolve) == Ok(url)
  {
    IncludesIffOccurs(url, "://");
    if StartsWith(url, "http://") {
      assert OccursAt("://", url, 4);
    } else if StartsWith(url, "https://") {
      assert OccursAt("://", url, 5);
    }
  }

  /** Every result begins with the original URL's text or with one of the two added schemes. */
  lemma ResultShapes(url: string, serverType: ServerType, resolve: string -> string)
    requires url != ""
    ensures FormatServerUrl(url, serverType, resolve).Ok?
    ensures var r := FormatServerUrl(url, serverType, resolve).value;
      r == url || r == "http://" + url || (serverType == Stdio && r == "file://" + resolve(url))
    ensures FormatServerUrl(url, serverType, resolve).value != ""
  {
  }

  /** A `://` placed at index `i` of the added prefix is found in the whole result. */
  lemma SchemeFound(prefix: string, rest: string, i: nat)
    requires i + 3 <= |prefix| && prefix[i..i + 3] == "://"
    ensures Includes(prefix + rest, "://")
  {
    assert (prefix + rest)[i..i + 3] == prefix[i..i + 3];
    OccursAtIncludes(prefix + rest, "://", i);
  }

  /** Formatting an address that was already formatted, for the same server type, changes nothing. */
  lemma FormatIdempotent(url: string, serverType: ServerType, resolve: string -> string)
    requires FormatServerUrl(url, serverType, resolve).Ok?
    ensures var once := FormatServerUrl(url, serverType, resolve).value;
      FormatServerUrl(once, serverType, resolve) == Ok(once)
  {
    var once := FormatServerUrl(url, serverType, resolve).value;
    if once == "http://" + url {
      StartsWithAppend("http://", url);
    } else if once != url {
      SchemeFound("file://", resolve(url), 4);
    }
  }

  // ---------------------------------------------------------------------------
  // ChatStreamChunk
  // ---------------------------------------------------------------------------

  /** The `state` of a tool call. */
  datatype ToolCallState = StateRequested | StateExecuting | StateResult | StateError

  function StateName(s: ToolCallState): (r: string) {
    match s
    case StateRequested => "requested"
    case StateExecuting => "executing"
    case StateResult => "result"
    case StateError => "error"
  }

  /** The state a `state` string names, if any. */
  function StateOf(name: string): (r: Option<ToolCallState>)
    ensures r.Some? ==> StateName(r.value) == name
    ensures forall s: ToolCallState :: StateName(s) == name ==> r == Some(s)
  {
    if name == "requested" then Some(StateRequested)
    else if name == "executing" then Some(StateExecuting)
    else if name == "result" then Some(StateResult)
    else if name == "error" then Some(StateError)
    else None
  }

  /**
   * `ToolCall`: the declared properties, and whatever else the index signature
   * lets a producer add under other keys.
   */
  datatype ToolCall = ToolCall(
    toolName: string,
    args: Option<map<string, Value>>,
    result: Option<Value>,
    state: Option<ToolCallState>,
    extra: map<string, Value>)

  /** The keys `ToolCall` declares. */
  const ToolCallKeys: set<string> := {"toolName", "args", "result", "state"}

  /** Extra properties never reuse a declared key. */
  predicate ValidToolCall(tc: ToolCall) {
    tc.extra.Keys !! ToolCallKeys
  }

  predicate ValidToolCalls(tcs: seq<ToolCall>) {
    forall i | 0 <= i < |tcs| :: ValidToolCall(tcs[i])
  }

  /** The four chunk kinds, the `type` discriminant. */
  datatype ChunkType = TokenChunk | ThoughtChunk | FinalChunk | ErrorChunk

  function ChunkTypeName(t: ChunkType): (r: string) {
    match t
    case TokenChunk => "token"
    case ThoughtChunk => "thought"
    case FinalChunk => "final"
    case ErrorChunk => "error"
  }

  /** `ChatStreamChunk`. */
  datatype ChatStreamChunk =
    | Token(content: string)
    | Thought(description: string)
    | Final(content: string, toolCalls: Option<seq<ToolCall>>)
    | Error(message: string, code: Option<string>)

  function ChunkTypeOf(c: ChatStreamChunk): (r: ChunkType) {
    match c
    case Token(_) => TokenChunk
    case Thought(_) => ThoughtChunk
    case Final(_, _) => FinalChunk
    case Error(_, _) => ErrorChunk
  }

  predicate ValidChunk(c: ChatStreamChunk) {
    c.Final? && c.toolCalls.Some? ==> ValidToolCalls(c.toolCalls.value)
  }

  /** A tool call as a JavaScript object. */
  function ToolCallValue(tc: ToolCall): (r: Value)
    ensures r.Obj? && "toolName" in r.fields && r.fields["toolName"] == Str(tc.toolName)
    ensures ValidToolCall(tc) ==>
              r.fields.Keys * ToolCallKeys ==
              {"toolName"} + (if tc.args.Some? then {"args"} else {}) + (if tc.result.Some? then {"result"} else {})
              + (if tc.state.Some? then {"state"} else {})
  {
    var named := map["toolName" := Str(tc.toolName)];
    var withArgs := if tc.args.Some? then named["args" := Obj(tc.args.value)] else named;
    var withResult := if tc.result.Some? then withArgs["result" := tc.result.value] else withArgs;
    var withState := if tc.state.Some? then withResult["state" := Str(StateName(tc.state.value))] else withResult;
    Obj(tc.extra + withState)
  }

  function ToolCallValues(tcs: seq<ToolCall>): (r: seq<Value>)
    ensures |r| == |tcs|
  {
    if |tcs| == 0 then [] else [ToolCallValue(tcs[0])] + ToolCallValues(tcs[1..])
  }

  /** A chunk as the JavaScript object that crosses the IPC boundary. */
  function ChunkValue(c: ChatStreamChunk): (r: Value)
    ensures r.Obj? && "type" in r.fields && r.fields["type"] == Str(ChunkTypeName(ChunkTypeOf(c)))
  {
    match c
    case Token(content) => Obj(map["type" := Str("token"), "content" := Str(content)])
    case Thought(description) => Obj(map["type" := Str("thought"), "description" := Str(description)])
    case Final(content, toolCalls) =>
      var fields := map["type" := Str("final"), "content" := Str(content)];
      Obj(if toolCalls.Some? then fields["toolCalls" := Arr(ToolCallValues(toolCalls.value))] else fields)
    case Error(message, code) =>
      var fields := map["type" := Str("error"), "message" := Str(message)];
      Obj(if code.Some? then fields["code" := Str(code.value)] else fields)
  }

  /** The `type` tag fixes which properties a chunk carries. */
  lemma TagDeterminesFields(c: ChatStreamChunk)
    ensures var keys := ChunkValue(c).fields.Keys;
      match c
      case Token(_) => keys == {"type", "content"}
      case Thought(_) => keys == {"type", "description"}
      case Final(_, toolCalls) => keys == {"type", "content"} + (if toolCalls.Some? then {"toolCalls"} else {})
      case Error(_, code) => keys == {"type", "message"} + (if code.Some? then {"code"} else {})
  {
  }

  /** Reads a value as a tool call, the way code typed against `ToolCall` reads it. */
  function ToolCallOf(v: Value): (r: Option<ToolCall>)
    ensures r.Some? ==> v.Obj? && "toolName" in v.fields && v.fields["toolName"] == Str(r.value.toolName)
    ensures r.Some? ==> ValidToolCall(r.value)
  {
    if !v.Obj? || "toolName" !in v.fields || !v.fields["toolName"].Str? then None
    else if "args" in v.fields && !v.fields["args"].Obj? then None
    else if "state" in v.fields && (!v.fields["state"].Str? || StateOf(v.fields["state"].s).None?) then None
    else
      Some(ToolCall(
        v.fields["toolName"].s,
        if "args" in v.fields then Some(v.fields["args"].fields) else None,
        if "result" in v.fields then Some(v.fields["result"]) else None,
        if "state" in v.fields then StateOf(v.fields["state"].s) else None,
        v.fields - ToolCallKeys))
  }

  function ToolCallsOf(vs: seq<Value>): (r: Option<seq<ToolCall>>)
    ensures r.Some? ==> |r.value| == |vs| && ValidToolCalls(r.value)
  {
    if |vs| == 0 then Some([])
    else
      var head := ToolCallOf(vs[0]);
      var tail := ToolCallsOf(vs[1..]);
      if head.None? || tail.None? then None else Some([head.value] + tail.value)
  }

  /**
   * Narrows a value to a chunk by its `type` tag, as a consumer that switches
   * on `chunk.type` does; properties that the variant does not declare are ignored.
   */
  function ChunkOf(v: Value): (r: Option<ChatStreamChunk>)
    ensures r.Some? ==> v.Obj? && "type" in v.fields && v.fields["type"] == Str(ChunkTypeName(ChunkTypeOf(r.value)))
    ensures r.Some? ==> ValidChunk(r.value)
  {
    if !v.Obj? || "type" !in v.fields || !v.fields["type"].Str? then None
    else
      var f := v.fields;
      var tag := f["type"].s;
      if tag == "token" then
        if "content" in f && f["content"].Str? then Some(Token(f["content"].s)) else None
      else if tag == "thought" then
        if "description" in f && f["description"].Str? then Some(Thought(f["description"].s)) else None
      else if tag == "final" then
        if "content" !in f || !f["content"].Str? then None
        else if "toolCalls" !in f then Some(Final(f["content"].s, None))
        else if !f["toolCalls"].Arr? then None
        else
          var calls := ToolCallsOf(f["toolCalls"].items);
          if calls.None? then None else Some(Final(f["content"].s, Some(calls.value)))
      else if tag == "error" then
        if "message" !in f || !f["message"].Str? then None
        else if "code" !in f then Some(Error(f["message"].s, None))
        else if !f["code"].Str? then None
        else Some(Error(f["message"].s, Some(f["code"].s)))
      else None
  }

  /** Reading back a tool call's object gives the tool call. */
  lemma ToolCallRoundTrip(tc: ToolCall)
    requires ValidToolCall(tc)
    ensures ToolCallOf(ToolCallValue(tc)) == Some(tc)
  {
    var v := ToolCallValue(tc);
    if tc.state.Some? {
      assert StateOf(StateName(tc.state.value)) == Some(tc.state.value);
    }
    assert v.fields - ToolCallKeys == tc.extra;
  }

  lemma {:induction false} ToolCallsRoundTrip(tcs: seq<ToolCall>)
    requires ValidToolCalls(tcs)
    ensures ToolCallsOf(ToolCallValues(tcs)) == Some(tcs)
  {
    if |tcs| > 0 {
      ToolCallRoundTrip(tcs[0]);
      ToolCallsRoundTrip(tcs[1..]);
      var vs := ToolCallValues(tcs);
      assert vs[0] == ToolCallValue(tcs[0]);
      assert vs[1..] == ToolCallValues(tcs[1..]);
      assert [tcs[0]] + tcs[1..] == tcs;
    }
  }

  /** Narrowing a chunk's object by its tag gives back the chunk. */
  lemma ChunkRoundTrip(c: ChatStreamChunk)
    requires ValidChunk(c)
    ensures ChunkOf(ChunkValue(c)) == Some(c)
  {
    if c.Final? && c.toolCalls.Some? {
      ToolCallsRoundTrip(c.toolCalls.value);
    }
  }
}
