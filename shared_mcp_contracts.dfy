/**
 * The shared-types copy of the MCP contract (shared-types/src/mcp-contracts.ts).
 * Its records and unions are the ones of the application copy and are imported
 * from `McpContracts`; what it adds is data: the request validation schemas,
 * the list of MCP IPC channels and its own, shorter, table of error codes.
 * Nothing executes the schemas, so they are modelled as values and checked
 * against the request types they describe.
 */
module SharedMcpContracts {
  import opened Wrappers
  import opened Js
  import opened McpContracts

  /** The constraint a schema places on one property. */
  datatype PropertyRule =
    | StringRule(minLength: Option<nat>, format: Option<string>)
    | EnumRule(values: seq<string>)
    | BooleanRule
    | ObjectRule

  /** One entry of `MCPRequestSchema`; the empty object `{}` has neither `required` nor `properties`. */
  datatype RequestSchema = RequestSchema(required: Option<seq<string>>, properties: Option<map<string, PropertyRule>>)

  const NonEmptyString: PropertyRule := StringRule(Some(1), None)

  const ServerIdOnly: RequestSchema := RequestSchema(Some(["serverId"]), Some(map["serverId" := NonEmptyString]))

  /** `MCPRequestSchema`. */
  const McpRequestSchema: map<string, RequestSchema> := map[
    "mcp:get-system-state" := RequestSchema(None, None),
    "mcp:add-server" := RequestSchema(
      Some(["name", "url", "type", "autoConnect"]),
      Some(map[
        "name" := NonEmptyString,
        "url" := StringRule(None, Some("uri")),
        "type" := EnumRule(["sse", "stdio"]),
        "autoConnect" := BooleanRule,
        "description" := StringRule(None, None)])),
    "mcp:update-server" := RequestSchema(
      Some(["serverId"]),
      Some(map["serverId" := NonEmptyString, "updates" := ObjectRule])),
    "mcp:remove-server" := ServerIdOnly,
    "mcp:connect-server" := ServerIdOnly,
    "mcp:disconnect-server" := ServerIdOnly,
    "mcp:execute-tool" := RequestSchema(
      Some(["serverId", "toolName"]),
      Some(map["serverId" := NonEmptyString, "toolName" := NonEmptyString, "args" := ObjectRule])),
    "mcp:force-auto-connect" := RequestSchema(None, None)]

  /** `MCP_IPC_CHANNELS`: the event channels, then the request channels. */
  const McpIpcChannels: seq<string> := [
    "mcp:state-update",
    "mcp:server-status-changed",
    "mcp:server-added",
    "mcp:server-removed",
    "mcp:server-connected",
    "mcp:server-disconnected",
    "mcp:auto-connect-completed",
    "mcp:get-system-state",
    "mcp:add-server",
    "mcp:update-server",
    "mcp:remove-server",
    "mcp:connect-server",
    "mcp:disconnect-server",
    "mcp:execute-tool",
    "mcp:force-auto-connect"]

  /** `MCP_ERROR_CODES` of this copy. */
  const SharedErrorCodes: map<string, string> := map[
    "SERVER_NOT_FOUND" := "SERVER_NOT_FOUND",
    "CONNECTION_FAILED" := "CONNECTION_FAILED",
    "TOOL_EXECUTION_FAILED" := "TOOL_EXECUTION_FAILED",
    "INVALID_CONFIG" := "INVALID_CONFIG",
    "ALREADY_CONNECTED" := "ALREADY_CONNECTED",
    "NOT_CONNECTED" := "NOT_CONNECTED",
    "VALIDATION_ERROR" := "VALIDATION_ERROR",
    "TIMEOUT" := "TIMEOUT",
    "PERMISSION_DENIED" := "PERMISSION_DENIED"]

  /**
   * The schema entry for a request's type. Every type has one; it is empty
   * exactly for the two requests declared without a payload, and otherwise
   * each required name is among the described properties.
   */
  function SchemaFor(t: RequestType): (r: RequestSchema)
    ensures RequestName(t) in McpRequestSchema && r == McpRequestSchema[RequestName(t)]
    ensures r == RequestSchema(None, None) <==> t == GetSystemState || t == ForceAutoConnect
    ensures r.required.Some? ==> r.properties.Some? && forall f | f in r.required.value :: f in r.properties.value
  {
    SchemaTableMatchesRequestTypes();
    McpRequestSchema[RequestName(t)]
  }

  /** The schema has exactly one entry per `MCPRequest` type literal, and no other entry. */
  lemma SchemaTableMatchesRequestTypes()
    ensures forall t: RequestType :: RequestName(t) in McpRequestSchema
    ensures forall k | k in McpRequestSchema :: exists t: RequestType :: RequestName(t) == k
  {
    forall k | k in McpRequestSchema ensures exists t: RequestType :: RequestName(t) == k {
      if k == "mcp:get-system-state" { assert RequestName(GetSystemState) == k; }
      else if k == "mcp:add-server" { assert RequestName(AddServer) == k; }
      else if k == "mcp:update-server" { assert RequestName(UpdateServer) == k; }
      else if k == "mcp:remove-server" { assert RequestName(RemoveServer) == k; }
      else if k == "mcp:connect-server" { assert RequestName(ConnectServer) == k; }
      else if k == "mcp:disconnect-server" { assert RequestName(DisconnectServer) == k; }
      else if k == "mcp:execute-tool" { assert RequestName(ExecuteTool) == k; }
      else { assert RequestName(ForceAutoConnect) == k; }
    }
  }

  /** In every entry, each name in `required` is also described under `properties`. */
  lemma RequiredAmongProperties(t: RequestType)
    ensures SchemaFor(t).required.Some? <==> SchemaFor(t).properties.Some?
    ensures SchemaFor(t).required.Some? ==>
              forall f | f in SchemaFor(t).required.value :: f in SchemaFor(t).properties.value
  {
  }

  /** The requests declared without a payload are exactly the ones whose schema is empty. */
  lemma PayloadlessRequestsHaveEmptySchemas(q: Request)
    ensures RequestPayload(q).None? <==> SchemaFor(RequestTypeOf(q)) == RequestSchema(None, None)
  {
  }

  /** Every well-typed payload carries each field its schema requires, so the schema never rejects one for a missing field. */
  lemma WellTypedPayloadsHaveRequiredFields(q: Request)
    requires RequestPayload(q).Some?
    ensures RequestPayload(q).value.Obj? && SchemaFor(RequestTypeOf(q)).required.Some?
    ensures forall f | f in SchemaFor(RequestTypeOf(q)).required.value :: f in RequestPayload(q).value.fields
  {
    if q.AddServerRequest? {
      RequiredSettingsKeysAreTheMandatoryFields(q.settings);
    }
  }

  /**
   * The properties a schema describes are the payload's keys, except for
   * add-server, whose schema leaves out the optional `headers`, `command`,
   * `args` and `env`.
   */
  lemma PropertiesDescribePayloadKeys(q: Request)
    requires RequestPayload(q).Some?
    ensures RequestPayload(q).value.Obj? && SchemaFor(RequestTypeOf(q)).properties.Some?
    ensures !q.AddServerRequest? ==> RequestPayload(q).value.fields.Keys == SchemaFor(RequestTypeOf(q)).properties.value.Keys
    ensures q.AddServerRequest? ==>
              SchemaFor(AddServer).properties.value.Keys <= SettingsKeys &&
              RequestPayload(q).value.fields.Keys - SchemaFor(AddServer).properties.value.Keys
              <= {"headers", "command", "args", "env"}
  {
  }

  /** The add-server `required` list is exactly the set of `MCPServerConfig` fields not marked optional, less `id`. */
  lemma AddServerRequiredIsMandatoryConfig()
    ensures SchemaFor(AddServer).required.Some?
    ensures (set f | f in SchemaFor(AddServer).required.value) == RequiredSettingsKeys
    ensures SchemaFor(AddServer).properties.Some? && "type" in SchemaFor(AddServer).properties.value
    ensures SchemaFor(AddServer).properties.value["type"] == EnumRule([ServerTypeName(Sse), ServerTypeName(Stdio)])
  {
  }

  /** `MCP_IPC_CHANNELS` is the seven event tags in declaration order followed by the eight request tags. */
  lemma ChannelListIsEventsThenRequests()
    ensures |McpIpcChannels| == 15
    ensures forall i | 0 <= i < 7 :: McpIpcChannels[i] == EventName(AllEventTypes[i])
    ensures forall i | 7 <= i < 15 :: McpIpcChannels[i] == RequestName(AllRequestTypes[i - 7])
  {
  }

  /** The fifteen channels are pairwise distinct. */
  lemma ChannelListDistinct()
    ensures forall i, j | 0 <= i < j < |McpIpcChannels| :: McpIpcChannels[i] != McpIpcChannels[j]
  {
  }

  /** Every channel carries the MCP prefix. */
  lemma ChannelListPrefixed()
    ensures forall i | 0 <= i < |McpIpcChannels| :: StartsWith(McpIpcChannels[i], McpChannelPrefix)
  {
    ChannelListIsEventsThenRequests();
    EventTableMatchesUnion();
    RequestTableMatchesUnion();
    EventNamesPrefixed();
    RequestNamesPrefixed();
    forall i | 0 <= i < |McpIpcChannels|
      ensures StartsWith(McpIpcChannels[i], McpChannelPrefix)
    {
      if i < 7 {
        assert EventName(AllEventTypes[i]) in McpEvents.Values;
      } else {
        assert RequestName(AllRequestTypes[i - 7]) in McpRequests.Values;
      }
    }
  }

  /** Every key of this copy's `MCP_ERROR_CODES` is its own value. */
  lemma SharedErrorCodesNameThemselves()
    ensures forall k | k in SharedErrorCodes :: SharedErrorCodes[k] == k
  {
  }

  /** The two copies' error-code tables share five codes; four codes exist only in this copy. */
  lemma ErrorCodeTablesDiffer()
    ensures SharedErrorCodes.Keys * McpErrorCodes.Keys ==
            {"SERVER_NOT_FOUND", "CONNECTION_FAILED", "TOOL_EXECUTION_FAILED", "VALIDATION_ERROR", "PERMISSION_DENIED"}
    ensures SharedErrorCodes.Keys - McpErrorCodes.Keys == {"INVALID_CONFIG", "ALREADY_CONNECTED", "NOT_CONNECTED", "TIMEOUT"}
  {
  }
}
