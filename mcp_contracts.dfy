/**
 * The MCP (Model Context Protocol) IPC contract of the application copy
 * (src/mcp-contracts.ts): the message records, the closed unions of events,
 * requests and responses with their `type` tags, the constant tables, and the
 * runtime guards `isMCPEvent`, `isMCPRequest`, `isMCPResponse`,
 * `isMCPErrorResponse` and `isMCPSuccessResponse` evaluated over JavaScript values.
 */
module McpContracts {
  import opened Wrappers
  import opened Js

  // ---------------------------------------------------------------- records

  /** `'sse' | 'stdio'`. */
  datatype ServerType = Sse | Stdio

  function ServerTypeName(t: ServerType): string {
    match t
    case Sse => "sse"
    case Stdio => "stdio"
  }

  /** `MCPServerStatus`: `'disconnected' | 'connecting' | 'connected' | 'error'`. */
  datatype ServerStatus = Disconnected | Connecting | Connected | Failed

  function StatusName(s: ServerStatus): string {
    match s
    case Disconnected => "disconnected"
    case Connecting => "connecting"
    case Connected => "connected"
    case Failed => "error"
  }

  const AllStatuses: seq<ServerStatus> := [Disconnected, Connecting, Connected, Failed]

  /** A `{ key, value }` pair of a header or an environment variable. */
  datatype KeyValue = KeyValue(key: string, value: string)

  /** `Omit<MCPServerConfig, 'id'>`: every field of a server configuration except its id. */
  datatype ServerSettings = ServerSettings(
    name: string,
    url: string,
    serverType: ServerType,
    description: Option<string>,
    headers: Option<seq<KeyValue>>,
    autoConnect: bool,
    command: Option<string>,
    args: Option<seq<string>>,
    env: Option<seq<KeyValue>>)

  /** `MCPServerConfig`: an id together with the settings. */
  datatype ServerConfig = ServerConfig(id: string, settings: ServerSettings)

  /** `Partial<MCPServerConfig>`: any subset of the configuration's fields. */
  datatype ServerConfigUpdate = ServerConfigUpdate(
    id: Option<string>,
    name: Option<string>,
    url: Option<string>,
    serverType: Option<ServerType>,
    description: Option<string>,
    headers: Option<seq<KeyValue>>,
    autoConnect: Option<bool>,
    command: Option<string>,
    args: Option<seq<string>>,
    env: Option<seq<KeyValue>>)

  /** `MCPTool`. */
  datatype Tool = Tool(name: string, description: string, inputSchema: Value, enabled: bool)

  /** `MCPServerView`: configuration plus runtime state. */
  datatype ServerView = ServerView(
    id: string,
    name: string,
    url: string,
    serverType: ServerType,
    description: Option<string>,
    autoConnect: bool,
    status: ServerStatus,
    errorMessage: Option<string>,
    toolsLoading: bool,
    toolsError: Option<string>,
    lastConnected: Option<Number>,
    connectionAttempts: Number,
    tools: Option<seq<Tool>>)

  /** `MCPSystemState`. */
  datatype SystemState = SystemState(servers: seq<ServerView>, autoConnectExecuted: bool, lastAutoConnectTime: Option<Number>)

  /** `MCPToolResult`. */
  datatype ToolResult = ToolResult(success: bool, result: Option<Value>, error: Option<string>, timestamp: Number, executionTime: Number)

  /** `MCPServerConnectionResult`. */
  datatype ConnectionResult = ConnectionResult(serverId: string, success: bool, error: Option<string>, toolsCount: Option<Number>)

  /** `MCPAutoConnectResult`. */
  datatype AutoConnectResult = AutoConnectResult(
    totalServers: Number,
    successfulConnections: Number,
    failedConnections: Number,
    results: seq<ConnectionResult>,
    duration: Number)

  // ---------------------------------------------------------------- unions

  /** The `type` literals of `MCPEvent`. */
  datatype EventType =
    StateUpdate | ServerStatusChanged | ServerAdded | ServerRemoved | ServerConnected | ServerDisconnected | AutoConnectCompleted

  const AllEventTypes: seq<EventType> :=
    [StateUpdate, ServerStatusChanged, ServerAdded, ServerRemoved, ServerConnected, ServerDisconnected, AutoConnectCompleted]

  function EventName(t: EventType): string {
    match t
    case StateUpdate => "mcp:state-update"
    case ServerStatusChanged => "mcp:server-status-changed"
    case ServerAdded => "mcp:server-added"
    case ServerRemoved => "mcp:server-removed"
    case ServerConnected => "mcp:server-connected"
    case ServerDisconnected => "mcp:server-disconnected"
    case AutoConnectCompleted => "mcp:auto-connect-completed"
  }

  /** The property of `MCP_EVENTS` that holds each event type's name. */
  function EventKey(t: EventType): string {
    match t
    case StateUpdate => "STATE_UPDATE"
    case ServerStatusChanged => "SERVER_STATUS_CHANGED"
    case ServerAdded => "SERVER_ADDED"
    case ServerRemoved => "SERVER_REMOVED"
    case ServerConnected => "SERVER_CONNECTED"
    case ServerDisconnected => "SERVER_DISCONNECTED"
    case AutoConnectCompleted => "AUTO_CONNECT_COMPLETED"
  }

  /** The `type` literals of `MCPRequest`. */
  datatype RequestType =
    GetSystemState | AddServer | UpdateServer | RemoveServer | ConnectServer | DisconnectServer | ExecuteTool | ForceAutoConnect

  const AllRequestTypes: seq<RequestType> :=
    [GetSystemState, AddServer, UpdateServer, RemoveServer, ConnectServer, DisconnectServer, ExecuteTool, ForceAutoConnect]

  function RequestName(t: RequestType): string {
    match t
    case GetSystemState => "mcp:get-system-state"
    case AddServer => "mcp:add-server"
    case UpdateServer => "mcp:update-server"
    case RemoveServer => "mcp:remove-server"
    case ConnectServer => "mcp:connect-server"
    case DisconnectServer => "mcp:disconnect-server"
    case ExecuteTool => "mcp:execute-tool"
    case ForceAutoConnect => "mcp:force-auto-connect"
  }

  /** The property of `MCP_REQUESTS` that holds each request type's name. */
  function RequestKey(t: RequestType): string {
    match t
    case GetSystemState => "GET_SYSTEM_STATE"
    case AddServer => "ADD_SERVER"
    case UpdateServer => "UPDATE_SERVER"
    case RemoveServer => "REMOVE_SERVER"
    case ConnectServer => "CONNECT_SERVER"
    case DisconnectServer => "DISCONNECT_SERVER"
    case ExecuteTool => "EXECUTE_TOOL"
    case ForceAutoConnect => "FORCE_AUTO_CONNECT"
  }

  /** `MCPEvent`: the payload fields of each variant, and the common `timestamp`. */
  datatype Event =
    | StateUpdateEvent(state: SystemState, timestamp: Number)
    | ServerStatusChangedEvent(serverId: string, status: ServerStatus, previousStatus: Option<ServerStatus>, timestamp: Number)
    | ServerAddedEvent(serverId: string, config: ServerConfig, timestamp: Number)
    | ServerRemovedEvent(serverId: string, timestamp: Number)
    | ServerConnectedEvent(serverId: string, tools: seq<Tool>, connectionTime: Number, timestamp: Number)
    | ServerDisconnectedEvent(serverId: string, reason: Option<string>, timestamp: Number)
    | AutoConnectCompletedEvent(result: AutoConnectResult, timestamp: Number)

  function EventTypeOf(e: Event): EventType {
    match e
    case StateUpdateEvent(_, _) => StateUpdate
    case ServerStatusChangedEvent(_, _, _, _) => ServerStatusChanged
    case ServerAddedEvent(_, _, _) => ServerAdded
    case ServerRemovedEvent(_, _) => ServerRemoved
    case ServerConnectedEvent(_, _, _, _) => ServerConnected
    case ServerDisconnectedEvent(_, _, _) => ServerDisconnected
    case AutoConnectCompletedEvent(_, _) => AutoConnectCompleted
  }

  /** The discriminant `e.type`. */
  function EventTag(e: Event): string {
    EventName(EventTypeOf(e))
  }

  /** `MCPRequest`: the payload fields of each variant, and the common `timestamp`. */
  datatype Request =
    | GetSystemStateRequest(timestamp: Number)
    | AddServerRequest(settings: ServerSettings, timestamp: Number)
    | UpdateServerRequest(serverId: string, updates: ServerConfigUpdate, timestamp: Number)
    | RemoveServerRequest(serverId: string, timestamp: Number)
    | ConnectServerRequest(serverId: string, timestamp: Number)
    | DisconnectServerRequest(serverId: string, timestamp: Number)
    | ExecuteToolRequest(serverId: string, toolName: string, args: Value, timestamp: Number)
    | ForceAutoConnectRequest(timestamp: Number)

  function RequestTypeOf(q: Request): RequestType {
    match q
    case GetSystemStateRequest(_) => GetSystemState
    case AddServerRequest(_, _) => AddServer
    case UpdateServerRequest(_, _, _) => UpdateServer
    case RemoveServerRequest(_, _) => RemoveServer
    case ConnectServerRequest(_, _) => ConnectServer
    case DisconnectServerRequest(_, _) => DisconnectServer
    case ExecuteToolRequest(_, _, _, _) => ExecuteTool
    case ForceAutoConnectRequest(_) => ForceAutoConnect
  }

  /** The discriminant `q.type`. */
  function RequestTag(q: Request): string {
    RequestName(RequestTypeOf(q))
  }

  /** `MCPResponse`: one success variant per request, each with `success: true`, and `MCPErrorResponse`. */
  datatype Response =
    | GetSystemStateResponse(state: SystemState, timestamp: Number)
    | AddServerResponse(serverId: string, timestamp: Number)
    | UpdateServerResponse(timestamp: Number)
    | RemoveServerResponse(timestamp: Number)
    | ConnectServerResponse(connected: bool, timestamp: Number)
    | DisconnectServerResponse(timestamp: Number)
    | ExecuteToolResponse(toolResult: ToolResult, timestamp: Number)
    | ForceAutoConnectResponse(timestamp: Number)
    | ErrorResponse(error: string, code: Option<string>, timestamp: Number)

  /** The literal type of the `success` field of each variant. */
  function ResponseSuccess(r: Response): bool {
    !r.ErrorResponse?
  }

  // ---------------------------------------------------------------- JavaScript views

  function OptionValue<T>(o: Option<T>, view: T -> Value): Option<Value> {
    match o
    case None => None
    case Some(x) => Some(view(x))
  }

  /** Adds property `k` when the optional field is present; an absent optional property has no key. */
  function WithOptional(m: map<string, Value>, k: string, v: Option<Value>): (r: map<string, Value>)
    ensures r.Keys == if v.Some? then m.Keys + {k} else m.Keys
  {
    if v.Some? then m[k := v.value] else m
  }

  /** The key an optional property contributes: `{k}` when present, nothing when absent. */
  function OptionalKey<T>(o: Option<T>, k: string): set<string> {
    if o.Some? then {k} else {}
  }

  function ArrayOf<T>(xs: seq<T>, view: T -> Value): Value {
    Arr(seq(|xs|, i requires 0 <= i < |xs| => view(xs[i])))
  }

  function StrValue(s: string): Value {
    Str(s)
  }

  function NumValue(n: Number): Value {
    Num(n)
  }

  function KeyValueValue(p: KeyValue): Value {
    Obj(map["key" := Str(p.key), "value" := Str(p.value)])
  }

  function ServerTypeValue(t: ServerType): Value {
    Str(ServerTypeName(t))
  }

  function StatusValue(s: ServerStatus): Value {
    Str(StatusName(s))
  }

  function KeyValuesValue(ps: seq<KeyValue>): Value {
    ArrayOf(ps, KeyValueValue)
  }

  function StringsValue(ss: seq<string>): Value {
    ArrayOf(ss, StrValue)
  }

  /** The keys every settings object carries: the fields that are not optional. */
  const RequiredSettingsKeys: set<string> := {"name", "url", "type", "autoConnect"}

  /** The keys that may be present in a settings object. */
  const SettingsKeys: set<string> :=
    {"name", "url", "type", "description", "headers", "autoConnect", "command", "args", "env"}

  function SettingsFields(s: ServerSettings): (r: map<string, Value>)
    ensures RequiredSettingsKeys <= r.Keys <= SettingsKeys
  {
    var m := map["name" := Str(s.name), "url" := Str(s.url), "type" := ServerTypeValue(s.serverType),
                 "autoConnect" := Bool(s.autoConnect)];
    var m := WithOptional(m, "description", OptionValue(s.description, StrValue));
    var m := WithOptional(m, "headers", OptionValue(s.headers, KeyValuesValue));
    var m := WithOptional(m, "command", OptionValue(s.command, StrValue));
    var m := WithOptional(m, "args", OptionValue(s.args, StringsValue));
    WithOptional(m, "env", OptionValue(s.env, KeyValuesValue))
  }

  function SettingsValue(s: ServerSettings): Value {
    Obj(SettingsFields(s))
  }

  function ConfigValue(c: ServerConfig): (r: Value)
    ensures r.Obj? && r.fields.Keys == SettingsFields(c.settings).Keys + {"id"}
  {
    Obj(SettingsFields(c.settings)["id" := Str(c.id)])
  }

  function UpdateValue(u: ServerConfigUpdate): Value {
    var m := WithOptional(map[], "id", OptionValue(u.id, StrValue));
    var m := WithOptional(m, "name", OptionValue(u.name, StrValue));
    var m := WithOptional(m, "url", OptionValue(u.url, StrValue));
    var m := WithOptional(m, "type", OptionValue(u.serverType, ServerTypeValue));
    var m := WithOptional(m, "description", OptionValue(u.description, StrValue));
    var m := WithOptional(m, "headers", OptionValue(u.headers, KeyValuesValue));
    var m := WithOptional(m, "autoConnect", OptionValue(u.autoConnect, (b: bool) => Bool(b)));
    var m := WithOptional(m, "command", OptionValue(u.command, StrValue));
    var m := WithOptional(m, "args", OptionValue(u.args, StringsValue));
    Obj(WithOptional(m, "env", OptionValue(u.env, KeyValuesValue)))
  }

  function ToolValue(t: Tool): Value {
    Obj(map["name" := Str(t.name), "description" := Str(t.description), "inputSchema" := t.inputSchema,
            "enabled" := Bool(t.enabled)])
  }

  function ToolsValue(ts: seq<Tool>): Value {
    ArrayOf(ts, ToolValue)
  }

  function ServerViewValue(v: ServerView): Value {
    var m := map["id" := Str(v.id), "name" := Str(v.name), "url" := Str(v.url), "type" := ServerTypeValue(v.serverType),
                 "autoConnect" := Bool(v.autoConnect), "status" := StatusValue(v.status),
                 "toolsLoading" := Bool(v.toolsLoading), "connectionAttempts" := Num(v.connectionAttempts)];
    var m := WithOptional(m, "description", OptionValue(v.description, StrValue));
    var m := WithOptional(m, "errorMessage", OptionValue(v.errorMessage, StrValue));
    var m := WithOptional(m, "toolsError", OptionValue(v.toolsError, StrValue));
    var m := WithOptional(m, "lastConnected", OptionValue(v.lastConnected, NumValue));
    Obj(WithOptional(m, "tools", OptionValue(v.tools, ToolsValue)))
  }

  function SystemStateValue(s: SystemState): Value {
    var m := map["servers" := ArrayOf(s.servers, ServerViewValue), "autoConnectExecuted" := Bool(s.autoConnectExecuted)];
    Obj(WithOptional(m, "lastAutoConnectTime", OptionValue(s.lastAutoConnectTime, NumValue)))
  }

  function ToolResultValue(t: ToolResult): Value {
    var m := map["success" := Bool(t.success), "timestamp" := Num(t.timestamp), "executionTime" := Num(t.executionTime)];
    var m := WithOptional(m, "result", t.result);
    Obj(WithOptional(m, "error", OptionValue(t.error, StrValue)))
  }

  function ConnectionResultValue(c: ConnectionResult): Value {
    var m := map["serverId" := Str(c.serverId), "success" := Bool(c.success)];
    var m := WithOptional(m, "error", OptionValue(c.error, StrValue));
    Obj(WithOptional(m, "toolsCount", OptionValue(c.toolsCount, NumValue)))
  }

  function AutoConnectResultValue(a: AutoConnectResult): Value {
    Obj(map["totalServers" := Num(a.totalServers), "successfulConnections" := Num(a.successfulConnections),
            "failedConnections" := Num(a.failedConnections), "results" := ArrayOf(a.results, ConnectionResultValue),
            "duration" := Num(a.duration)])
  }

  /** The `payload` object of an event: exactly the properties its interface declares, optional ones when present. */
  function EventPayload(e: Event): (r: Value)
    ensures r.Obj?
    ensures e.StateUpdateEvent? ==>
      r.fields.Keys == {"servers", "autoConnectExecuted"} + OptionalKey(e.state.lastAutoConnectTime, "lastAutoConnectTime")
    ensures e.ServerStatusChangedEvent? ==>
      r.fields.Keys == {"serverId", "status"} + OptionalKey(e.previousStatus, "previousStatus")
    ensures e.ServerAddedEvent? ==> r.fields.Keys == {"serverId", "config"}
    ensures e.ServerRemovedEvent? ==> r.fields.Keys == {"serverId"}
    ensures e.ServerConnectedEvent? ==> r.fields.Keys == {"serverId", "tools", "connectionTime"}
    ensures e.ServerDisconnectedEvent? ==> r.fields.Keys == {"serverId"} + OptionalKey(e.reason, "reason")
    ensures e.AutoConnectCompletedEvent? ==>
      r.fields.Keys == {"totalServers", "successfulConnections", "failedConnections", "results", "duration"}
    ensures !(e.StateUpdateEvent? || e.AutoConnectCompletedEvent?) ==> r.fields["serverId"] == Str(e.serverId)
  {
    match e
    case StateUpdateEvent(state, _) => SystemStateValue(state)
    case ServerStatusChangedEvent(id, status, previous, _) =>
      Obj(WithOptional(map["serverId" := Str(id), "status" := StatusValue(status)], "previousStatus",
                       OptionValue(previous, StatusValue)))
    case ServerAddedEvent(id, config, _) => Obj(map["serverId" := Str(id), "config" := ConfigValue(config)])
    case ServerRemovedEvent(id, _) => Obj(map["serverId" := Str(id)])
    case ServerConnectedEvent(id, tools, time, _) =>
      Obj(map["serverId" := Str(id), "tools" := ToolsValue(tools), "connectionTime" := Num(time)])
    case ServerDisconnectedEvent(id, reason, _) =>
      Obj(WithOptional(map["serverId" := Str(id)], "reason", OptionValue(reason, StrValue)))
    case AutoConnectCompletedEvent(result, _) => AutoConnectResultValue(result)
  }

  /** An event as the object that crosses the IPC boundary: `{ type, payload, timestamp }`. */
  function EventValue(e: Event): (r: Value)
    ensures r.Obj? && r.fields.Keys == {"type", "payload", "timestamp"}
    ensures r.fields["type"] == Str(EventTag(e))
  {
    Obj(map["type" := Str(EventTag(e)), "payload" := EventPayload(e), "timestamp" := Num(e.timestamp)])
  }

  /** `MCPRequestPayload<T>` for the request's type: nothing for the variants declared without a payload. */
  function RequestPayload(q: Request): (r: Option<Value>)
    ensures r.None? <==> RequestTypeOf(q) in {GetSystemState, ForceAutoConnect}
  {
    match q
    case GetSystemStateRequest(_) => None
    case AddServerRequest(settings, _) => Some(SettingsValue(settings))
    case UpdateServerRequest(id, updates, _) => Some(Obj(map["serverId" := Str(id), "updates" := UpdateValue(updates)]))
    case RemoveServerRequest(id, _) => Some(Obj(map["serverId" := Str(id)]))
    case ConnectServerRequest(id, _) => Some(Obj(map["serverId" := Str(id)]))
    case DisconnectServerRequest(id, _) => Some(Obj(map["serverId" := Str(id)]))
    case ExecuteToolRequest(id, tool, args, _) => Some(Obj(map["serverId" := Str(id), "toolName" := Str(tool), "args" := args]))
    case ForceAutoConnectRequest(_) => None
  }

  /** A request as the object that crosses the IPC boundary: `{ type, payload?, timestamp }`. */
  function RequestValue(q: Request): (r: Value)
    ensures r.Obj? && r.fields.Keys == if RequestPayload(q).Some? then {"type", "payload", "timestamp"} else {"type", "timestamp"}
    ensures r.fields["type"] == Str(RequestTag(q))
  {
    var m := map["type" := Str(RequestTag(q)), "timestamp" := Num(q.timestamp)];
    Obj(WithOptional(m, "payload", RequestPayload(q)))
  }

  /** The `data` field of a success response, where the variant declares one. */
  function ResponseData(r: Response): (d: Option<Value>)
    ensures d.Some? <==>
      r.GetSystemStateResponse? || r.AddServerResponse? || r.ConnectServerResponse? || r.ExecuteToolResponse?
    ensures r.AddServerResponse? ==> d == Some(Str(r.serverId))
    ensures r.ConnectServerResponse? ==> d == Some(Bool(r.connected))
  {
    match r
    case GetSystemStateResponse(state, _) => Some(SystemStateValue(state))
    case AddServerResponse(id, _) => Some(Str(id))
    case ConnectServerResponse(connected, _) => Some(Bool(connected))
    case ExecuteToolResponse(result, _) => Some(ToolResultValue(result))
    case _ => None
  }

  /** A response as the object that crosses the IPC boundary. */
  function ResponseValue(r: Response): (v: Value)
    ensures v.Obj?
    ensures r.ErrorResponse? ==> v.fields.Keys == {"success", "timestamp", "error"} + OptionalKey(r.code, "code")
    ensures !r.ErrorResponse? ==> v.fields.Keys == {"success", "timestamp"} + OptionalKey(ResponseData(r), "data")
    ensures v.fields["success"] == Bool(ResponseSuccess(r))
    ensures r.ErrorResponse? ==> v.fields["error"] == Str(r.error)
    ensures ResponseData(r).Some? ==> v.fields["data"] == ResponseData(r).value
  {
    var m := map["success" := Bool(ResponseSuccess(r)), "timestamp" := Num(r.timestamp)];
    if r.ErrorResponse? then
      Obj(WithOptional(m["error" := Str(r.error)], "code", OptionValue(r.code, StrValue)))
    else
      Obj(WithOptional(m, "data", ResponseData(r)))
  }

  // ---------------------------------------------------------------- constants

  const McpChannelPrefix: string := "mcp:"

  /** `MCP_EVENTS`. */
  const McpEvents: map<string, string> := map[
    "STATE_UPDATE" := "mcp:state-update",
    "SERVER_STATUS_CHANGED" := "mcp:server-status-changed",
    "SERVER_ADDED" := "mcp:server-added",
    "SERVER_REMOVED" := "mcp:server-removed",
    "SERVER_CONNECTED" := "mcp:server-connected",
    "SERVER_DISCONNECTED" := "mcp:server-disconnected",
    "AUTO_CONNECT_COMPLETED" := "mcp:auto-connect-completed"]

  /** `MCP_REQUESTS`. */
  const McpRequests: map<string, string> := map[
    "GET_SYSTEM_STATE" := "mcp:get-system-state",
    "ADD_SERVER" := "mcp:add-server",
    "UPDATE_SERVER" := "mcp:update-server",
    "REMOVE_SERVER" := "mcp:remove-server",
    "CONNECT_SERVER" := "mcp:connect-server",
    "DISCONNECT_SERVER" := "mcp:disconnect-server",
    "EXECUTE_TOOL" := "mcp:execute-tool",
    "FORCE_AUTO_CONNECT" := "mcp:force-auto-connect"]

  /** `MCP_SERVER_STATUS`. */
  const McpServerStatus: map<string, string> := map[
    "DISCONNECTED" := "disconnected",
    "CONNECTING" := "connecting",
    "CONNECTED" := "connected",
    "ERROR" := "error"]

  /** `MCP_SERVER_TYPES`. */
  const McpServerTypes: map<string, string> := map["SSE" := "sse", "STDIO" := "stdio"]

  /** `MCP_ERROR_CODES`. */
  const McpErrorCodes: map<string, string> := map[
    "UNKNOWN_ERROR" := "UNKNOWN_ERROR",
    "INVALID_REQUEST" := "INVALID_REQUEST",
    "SERVER_NOT_FOUND" := "SERVER_NOT_FOUND",
    "SERVER_ALREADY_EXISTS" := "SERVER_ALREADY_EXISTS",
    "CONNECTION_FAILED" := "CONNECTION_FAILED",
    "CONNECTION_TIMEOUT" := "CONNECTION_TIMEOUT",
    "TOOL_EXECUTION_FAILED" := "TOOL_EXECUTION_FAILED",
    "TOOL_NOT_FOUND" := "TOOL_NOT_FOUND",
    "INVALID_TOOL_ARGS" := "INVALID_TOOL_ARGS",
    "VALIDATION_ERROR" := "VALIDATION_ERROR",
    "PERMISSION_DENIED" := "PERMISSION_DENIED",
    "RATE_LIMIT_EXCEEDED" := "RATE_LIMIT_EXCEEDED",
    "SERVER_UNAVAILABLE" := "SERVER_UNAVAILABLE",
    "PROTOCOL_ERROR" := "PROTOCOL_ERROR",
    "CONFIGURATION_ERROR" := "CONFIGURATION_ERROR"]

  // ---------------------------------------------------------------- guards

  /**
   * `receiver.startsWith(p)`: a string answers; `undefined` and `null` have no
   * properties to read, and no other JSON value has a `startsWith` method, so
   * the call throws a TypeError.
   */
  function CallStartsWith(receiver: Value, p: string): (r: Completion)
    ensures r.Returned? <==> receiver.Str?
    ensures receiver.Str? ==> r == Returned(Bool(StartsWith(receiver.s, p)))
  {
    match receiver
    case Str(s) => Returned(Bool(StartsWith(s, p)))
    case _ => Threw("TypeError")
  }

  /** The object form the event and request guards look for: a plain object whose `type` is a string with the MCP prefix. */
  predicate HasMcpType(v: Value) {
    v.Obj? && "type" in v.fields && v.fields["type"].Str? && StartsWith(v.fields["type"].s, McpChannelPrefix)
  }

  /**
   * `v && typeof v === 'object' && 'type' in v && v.type.startsWith(MCP_CHANNEL_PREFIX)`,
   * the body shared word for word by `isMCPEvent` and `isMCPRequest`.
   * A falsy `v` is returned as it is; a `type` that is not a string makes the call throw.
   */
  function TypeHasMcpPrefix(v: Value): (r: Completion)
    ensures !Truthy(v) ==> r == Returned(v)
    ensures r == Returned(Bool(true)) <==> HasMcpType(v)
    ensures r.Threw? <==> v.Obj? && "type" in v.fields && !v.fields["type"].Str?
    ensures r.Returned? ==> (Truthy(r.value) <==> HasMcpType(v))
  {
    if !Truthy(v) then Returned(v)
    else if TypeOf(v) != "object" then Returned(Bool(false))
    else if !HasKey(v, "type") then
      LetterKeyNotIndex("type", if v.Arr? then |v.items| else 0);
      Returned(Bool(false))
    else
      LetterKeyNotIndex("type", if v.Arr? then |v.items| else 0);
      CallStartsWith(Get(v, "type"), McpChannelPrefix)
  }

  /** `isMCPEvent`. */
  function IsMcpEvent(event: Value): (r: Completion)
    ensures r == Returned(Bool(true)) <==> HasMcpType(event)
  {
    TypeHasMcpPrefix(event)
  }

  /** `isMCPRequest`. */
  function IsMcpRequest(request: Value): (r: Completion)
    ensures r == Returned(Bool(true)) <==> HasMcpType(request)
  {
    TypeHasMcpPrefix(request)
  }

  /** A plain object carrying both `success` and `timestamp`. */
  predicate HasResponseKeys(v: Value) {
    v.Obj? && "success" in v.fields && "timestamp" in v.fields
  }

  /** `isMCPResponse`: `response && typeof response === 'object' && 'success' in response && 'timestamp' in response`. */
  function IsMcpResponse(response: Value): (r: Value)
    ensures !Truthy(response) ==> r == response
    ensures Truthy(r) <==> HasResponseKeys(response)
    ensures Truthy(r) ==> r == Bool(true)
  {
    if !Truthy(response) then response
    else if TypeOf(response) != "object" then Bool(false)
    else if !HasKey(response, "success") then
      LetterKeyNotIndex("success", if response.Arr? then |response.items| else 0);
      Bool(false)
    else
      LetterKeyNotIndex("timestamp", if response.Arr? then |response.items| else 0);
      LetterKeyNotIndex("success", if response.Arr? then |response.items| else 0);
      Bool(HasKey(response, "timestamp"))
  }

  /** `isMCPResponse(response) && response.success === <expected>`. */
  function ResponseWithSuccess(response: Value, expected: bool): (r: Value)
    ensures Truthy(r) <==> HasResponseKeys(response) && response.fields["success"] == Bool(expected)
  {
    var shape := IsMcpResponse(response);
    if !Truthy(shape) then shape else Bool(Get(response, "success") == Bool(expected))
  }

  /** `isMCPErrorResponse`. */
  function IsMcpErrorResponse(response: Value): (r: Value)
    ensures Truthy(r) <==> HasResponseKeys(response) && response.fields["success"] == Bool(false)
  {
    ResponseWithSuccess(response, false)
  }

  /** `isMCPSuccessResponse`. */
  function IsMcpSuccessResponse(response: Value): (r: Value)
    ensures Truthy(r) <==> HasResponseKeys(response) && response.fields["success"] == Bool(true)
  {
    ResponseWithSuccess(response, true)
  }

  // ---------------------------------------------------------------- properties

  /** Every event type has its name in `MCP_EVENTS`, and the table holds nothing else. */
  lemma EventTableMatchesUnion()
    ensures forall t: EventType :: t in AllEventTypes
    ensures forall t: EventType :: EventName(t) in McpEvents.Values
    ensures forall k | k in McpEvents :: exists t: EventType :: EventName(t) == McpEvents[k]
  {
    forall t: EventType ensures t in AllEventTypes {
      match t
      case StateUpdate =>
      case ServerStatusChanged =>
      case ServerAdded =>
      case ServerRemoved =>
      case ServerConnected =>
      case ServerDisconnected =>
      case AutoConnectCompleted =>
    }
    forall t: EventType ensures EventName(t) in McpEvents.Values {
      assert McpEvents[EventKey(t)] == EventName(t);
    }
    forall k | k in McpEvents ensures exists t: EventType :: EventName(t) == McpEvents[k] {
      if k == "STATE_UPDATE" { assert EventName(StateUpdate) == McpEvents[k]; }
      else if k == "SERVER_STATUS_CHANGED" { assert EventName(ServerStatusChanged) == McpEvents[k]; }
      else if k == "SERVER_ADDED" { assert EventName(ServerAdded) == McpEvents[k]; }
      else if k == "SERVER_REMOVED" { assert EventName(ServerRemoved) == McpEvents[k]; }
      else if k == "SERVER_CONNECTED" { assert EventName(ServerConnected) == McpEvents[k]; }
      else if k == "SERVER_DISCONNECTED" { assert EventName(ServerDisconnected) == McpEvents[k]; }
      else { assert EventName(AutoConnectCompleted) == McpEvents[k]; }
    }
  }

  /** Every request type has its name in `MCP_REQUESTS`, and the table holds nothing else. */
  lemma RequestTableMatchesUnion()
    ensures forall t: RequestType :: t in AllRequestTypes
    ensures forall t: RequestType :: RequestName(t) in McpRequests.Values
    ensures forall k | k in McpRequests :: exists t: RequestType :: RequestName(t) == McpRequests[k]
  {
    forall t: RequestType ensures t in AllRequestTypes {
      match t
      case GetSystemState =>
      case AddServer =>
      case UpdateServer =>
      case RemoveServer =>
      case ConnectServer =>
      case DisconnectServer =>
      case ExecuteTool =>
      case ForceAutoConnect =>
    }
    forall t: RequestType ensures RequestName(t) in McpRequests.Values {
      assert McpRequests[RequestKey(t)] == RequestName(t);
    }
    forall k | k in McpRequests ensures exists t: RequestType :: RequestName(t) == McpRequests[k] {
      if k == "GET_SYSTEM_STATE" { assert RequestName(GetSystemState) == McpRequests[k]; }
      else if k == "ADD_SERVER" { assert RequestName(AddServer) == McpRequests[k]; }
      else if k == "UPDATE_SERVER" { assert RequestName(UpdateServer) == McpRequests[k]; }
      else if k == "REMOVE_SERVER" { assert RequestName(RemoveServer) == McpRequests[k]; }
      else if k == "CONNECT_SERVER" { assert RequestName(ConnectServer) == McpRequests[k]; }
      else if k == "DISCONNECT_SERVER" { assert RequestName(DisconnectServer) == McpRequests[k]; }
      else if k == "EXECUTE_TOOL" { assert RequestName(ExecuteTool) == McpRequests[k]; }
      else { assert RequestName(ForceAutoConnect) == McpRequests[k]; }
    }
  }

  /** Every value of `MCP_EVENTS` carries `MCP_CHANNEL_PREFIX`. */
  lemma EventNamesPrefixed()
    ensures forall k | k in McpEvents :: StartsWith(McpEvents[k], McpChannelPrefix)
  {
  }

  /** Every value of `MCP_REQUESTS` carries `MCP_CHANNEL_PREFIX`. */
  lemma RequestNamesPrefixed()
    ensures forall k | k in McpRequests :: StartsWith(McpRequests[k], McpChannelPrefix)
  {
  }

  /** The fifteen type literals are pairwise distinct, so a tag identifies its variant's type. */
  lemma TagsIdentifyTypes()
    ensures forall a: EventType, b: EventType :: EventName(a) == EventName(b) ==> a == b
    ensures forall a: RequestType, b: RequestType :: RequestName(a) == RequestName(b) ==> a == b
    ensures forall a: EventType, b: RequestType :: EventName(a) != RequestName(b)
  {
  }

  /** Every well-formed event passes `isMCPEvent`, and `isMCPRequest` accepts it as well. */
  lemma WellFormedEventsPass(e: Event)
    ensures IsMcpEvent(EventValue(e)) == Returned(Bool(true))
    ensures IsMcpRequest(EventValue(e)) == Returned(Bool(true))
  {
    EventTableMatchesUnion();
    EventNamesPrefixed();
    var t := EventTypeOf(e);
    assert EventName(t) in McpEvents.Values;
  }

  /** Every well-formed request passes `isMCPRequest`, and `isMCPEvent` accepts it as well. */
  lemma WellFormedRequestsPass(q: Request)
    ensures IsMcpRequest(RequestValue(q)) == Returned(Bool(true))
    ensures IsMcpEvent(RequestValue(q)) == Returned(Bool(true))
  {
    RequestTableMatchesUnion();
    RequestNamesPrefixed();
    var t := RequestTypeOf(q);
    assert RequestName(t) in McpRequests.Values;
  }

  /** The two guards agree on every value, thrown errors included. */
  lemma EventAndRequestGuardsAgree(v: Value)
    ensures IsMcpEvent(v) == IsMcpRequest(v)
  {
  }

  /** An object whose `type` is present but not a string makes the guards throw instead of answering false. */
  lemma NonStringTypeThrows(fields: map<string, Value>)
    requires "type" in fields && !fields["type"].Str?
    ensures IsMcpEvent(Obj(fields)) == Threw("TypeError")
    ensures IsMcpRequest(Obj(fields)) == Threw("TypeError")
  {
  }

  /** `isMCPResponse` looks only at which keys are present: any values of `success` and `timestamp` pass. */
  lemma ResponseGuardChecksOnlyKeys(fields: map<string, Value>, success: Value, timestamp: Value)
    ensures IsMcpResponse(Obj(fields["success" := success]["timestamp" := timestamp])) == Bool(true)
  {
  }

  /** The narrow guards exclude each other, and each implies the broad one. */
  lemma NarrowGuardsExclusive(v: Value)
    ensures !(Truthy(IsMcpErrorResponse(v)) && Truthy(IsMcpSuccessResponse(v)))
    ensures Truthy(IsMcpErrorResponse(v)) ==> Truthy(IsMcpResponse(v))
    ensures Truthy(IsMcpSuccessResponse(v)) ==> Truthy(IsMcpResponse(v))
  {
  }

  /** A response-shaped object whose `success` is neither `true` nor `false` passes only the broad guard. */
  lemma OtherSuccessValues(v: Value)
    requires HasResponseKeys(v) && v.fields["success"] != Bool(true) && v.fields["success"] != Bool(false)
    ensures Truthy(IsMcpResponse(v))
    ensures !Truthy(IsMcpErrorResponse(v)) && !Truthy(IsMcpSuccessResponse(v))
  {
  }

  /** `MCPErrorResponse` is the only variant whose `success` is false, so the narrow guards classify every well-formed response. */
  lemma GuardsClassifyResponses(r: Response)
    ensures ResponseValue(r).fields["success"] == Bool(false) <==> r.ErrorResponse?
    ensures Truthy(IsMcpResponse(ResponseValue(r)))
    ensures Truthy(IsMcpErrorResponse(ResponseValue(r))) <==> r.ErrorResponse?
    ensures Truthy(IsMcpSuccessResponse(ResponseValue(r))) <==> !r.ErrorResponse?
  {
  }

  /** `MCP_SERVER_STATUS` lists exactly the four `MCPServerStatus` literals, and `MCP_SERVER_TYPES` the two server types. */
  lemma StatusAndTypeTables()
    ensures forall s: ServerStatus :: StatusName(s) in McpServerStatus.Values
    ensures forall k | k in McpServerStatus :: exists s: ServerStatus :: StatusName(s) == McpServerStatus[k]
    ensures McpServerTypes.Values == {ServerTypeName(Sse), ServerTypeName(Stdio)}
  {
    forall s: ServerStatus ensures StatusName(s) in McpServerStatus.Values {
      match s
      case Disconnected => assert McpServerStatus["DISCONNECTED"] == StatusName(s);
      case Connecting => assert McpServerStatus["CONNECTING"] == StatusName(s);
      case Connected => assert McpServerStatus["CONNECTED"] == StatusName(s);
      case Failed => assert McpServerStatus["ERROR"] == StatusName(s);
    }
    forall k | k in McpServerStatus ensures exists s: ServerStatus :: StatusName(s) == McpServerStatus[k] {
      if k == "DISCONNECTED" { assert StatusName(Disconnected) == McpServerStatus[k]; }
      else if k == "CONNECTING" { assert StatusName(Connecting) == McpServerStatus[k]; }
      else if k == "CONNECTED" { assert StatusName(Connected) == McpServerStatus[k]; }
      else { assert StatusName(Failed) == McpServerStatus[k]; }
    }
    assert McpServerTypes.Values == {McpServerTypes["SSE"], McpServerTypes["STDIO"]};
  }

  /** Every key of `MCP_ERROR_CODES` is its own value. */
  lemma ErrorCodesNameThemselves()
    ensures forall k | k in McpErrorCodes :: McpErrorCodes[k] == k
  {
  }

  /** The settings keys that every add-server payload carries are exactly the fields `MCPServerConfig` does not mark optional, less `id`. */
  lemma RequiredSettingsKeysAreTheMandatoryFields(s: ServerSettings)
    ensures RequiredSettingsKeys <= SettingsFields(s).Keys
    ensures SettingsFields(s.(description := None, headers := None, command := None, args := None, env := None)).Keys
            == RequiredSettingsKeys
    ensures "id" !in SettingsFields(s)
  {
  }
}
