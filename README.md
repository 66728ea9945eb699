# Shared IPC and MCP contracts, modelled in Dafny

This project models the logic of an Electron application's shared contract
packages. The modelled pieces are:

- **The IPC channel allowlist.** `ALLOWED_IPC_CHANNELS` and `isAllowedChannel`
  in `shared-types/src/ipc-channels.ts`. The list is a constant of 137 channel
  names, and `isAllowedChannel` is an exact-match membership test. The key
  names of the `IPCChannels` and `IPCEvents` contracts in
  `shared-types/src/index.ts` are constants too. The model proves that the
  allowlist is exactly the `IPCChannels` keys followed by the `IPCEvents` keys,
  in declaration order. The allowlist's maintenance comment asks that every
  channel also be in `IPCChannels`. The invoke part keeps that rule. The events
  block does not: its names are `IPCEvents` keys and none is an `IPCChannels`
  key.
- **The MCP (Model Context Protocol) contract** in `src/mcp-contracts.ts`:
  - the event, request and response unions, each with its JavaScript object view;
  - the constant tables `MCP_EVENTS`, `MCP_REQUESTS`, `MCP_SERVER_STATUS`,
    `MCP_SERVER_TYPES` and `MCP_ERROR_CODES`;
  - the runtime guards `isMCPEvent`, `isMCPRequest`, `isMCPResponse`,
    `isMCPErrorResponse` and `isMCPSuccessResponse`, evaluated with JavaScript's
    truthiness, `typeof`, `in` and `startsWith`. This includes the `TypeError`
    that `type.startsWith` throws when `type` is not a string.
- **The shared-types copy of the MCP contract** (`shared-types/src/mcp-contracts.ts`).
  It adds data over the same unions: the request schemas `MCPRequestSchema`,
  the list `MCP_IPC_CHANNELS` and its own shorter `MCP_ERROR_CODES`.
- **The two `formatServerUrl` functions.**
  - The shared-types one (`shared-types/src/index.ts`) rejects an empty URL and
    keeps a URL that already has a scheme. For a stdio server it builds a
    `file://` URL of the absolute path. For an sse server that looks like
    `localhost` or an IPv4 address it prefixes `http://`.
  - The application's one (`src/index.ts`) is a display helper. It shows sse
    URLs as given and puts `stdio://` before stdio commands.
  - They are modelled separately, with lemmas about where they agree and where
    they do not.
- **The `ChatStreamChunk` union** (token, thought, final, error) and its
  `ToolCall` record, with their object views. A reading of an object back into a
  chunk serves as the inverse of the view.

Modules:

| module | file | models |
|---|---|---|
| `Wrappers` | wrappers.dfy | `Option`, `Result` |
| `Js` | js.dfy | JavaScript values, truthiness, `typeof`, `in`, property reads, `startsWith`, `includes` |
| `McpContracts` | mcp_contracts.dfy | src/mcp-contracts.ts |
| `SharedMcpContracts` | shared_mcp_contracts.dfy | shared-types/src/mcp-contracts.ts |
| `IpcChannels` | ipc_channels.dfy | shared-types/src/ipc-channels.ts |
| `IpcChannelsDistinct` | ipc_channels_distinct.dfy | distinctness of the allowlist |
| `SharedIpcRegistry` | ipc_registry.dfy | the `IPCChannels` / `IPCEvents` key names of shared-types/src/index.ts |
| `SharedTypes` | shared_types.dfy | `formatServerUrl` and `ChatStreamChunk` of shared-types/src/index.ts |
| `AppTypes` | app_types.dfy | `formatServerUrl` of src/index.ts |
| `ContractConsistency` | contract_consistency.dfy | MCP channel names against the allowlist |

The allowlist is written as the concatenation of its commented sections, in
source order. The closing block of events is split into the groups in which
`IPCEvents` declares them. Distinctness is proved section against section: the
`IpcChannelsDistinct.Apart*` and `SectionsHaveNoDuplicates*` lemmas evaluate the
literals, and `NoDuplicatesAppend` chains them.

`src/index.ts` lines 982-1021 declare `ToolCall` and `ChatStreamChunk` exactly
as shared-types/src/index.ts lines 743-782 do. The model declares them once, in
`SharedTypes`, and its lemmas cover both copies.

## Model

| member | source | states |
|---|---|---|
| IpcChannels.IsAllowedChannel | shared-types/src/ipc-channels.ts:208-210 | A channel passes exactly when it equals some entry of `ALLOWED_IPC_CHANNELS`. |
| IpcChannels.Includes | shared-types/src/ipc-channels.ts:209 | `Array.prototype.includes` on a string array is true exactly when the string is an element. |
| IpcChannels.CreateTabAllowed | shared-types/src/ipc-channels.ts:18-23 | The entry "create-tab" of the tabs section passes `isAllowedChannel`. |
| IpcChannels.ExactMatchOnly | shared-types/src/ipc-channels.ts:208-210 | "create-tab" passes, while "Create-Tab", "create-tab " and "create-tab:x" are rejected: matching is exact and case-sensitive, with no prefix matching. |
| IpcChannels.McpNamesRejected | shared-types/src/ipc-channels.ts:100-130 | The six MCP lifecycle events (server status changed, added, removed, connected, disconnected, auto-connect completed) and `mcp:force-auto-connect` are not allowed. |
| IpcChannels.SamplesAbsent | shared-types/src/ipc-channels.ts:10-201 | No entry of the allowlist is one of the rejected sample names above. |
| IpcChannelsDistinct.AllowedIpcChannelsHaveNoDuplicates | shared-types/src/ipc-channels.ts:10-201 | The 137 allowlist entries are pairwise distinct. |
| IpcChannelsDistinct.EventsHaveNoDuplicates | shared-types/src/ipc-channels.ts:173-200 | The events block names no event twice. |
| IpcChannelsDistinct.EventsApartFromInvoke | shared-types/src/ipc-channels.ts:10-200 | No event name is also an invoke channel. |
| IpcChannelsDistinct.NoDuplicatesThroughProxy | shared-types/src/ipc-channels.ts:11-171 | The invoke channels, navigation through proxy, are pairwise distinct. |
| SharedIpcRegistry.AllowlistMatchesRegistry | shared-types/src/ipc-channels.ts:8-201 | The allowlist is exactly the `IPCChannels` keys in declaration order followed by the `IPCEvents` keys, so the registry and the allowlist have not drifted. |
| SharedIpcRegistry.RegistryKeysAllowed | shared-types/src/index.ts:350-652 | Every named key of `IPCChannels` and every key of `IPCEvents` passes `isAllowedChannel`. |
| SharedIpcRegistry.AllowedNamesAreRegistryKeys | shared-types/src/ipc-channels.ts:8-9 | Every allowed name is a key of `IPCChannels` or of `IPCEvents`. |
| SharedIpcRegistry.EventNamesAreNotChannelKeys | shared-types/src/ipc-channels.ts:8-9 | Every name of the events block (lines 173-200) is allowed, yet none is an `IPCChannels` key: the block does not follow the rule that each allowed channel is also in `IPCChannels`. |
| IpcChannelsDistinct.NoDuplicatesSplit | shared-types/src/ipc-channels.ts:10-201 | In a duplicate-free list, no name of the back part occurs in the front part. |
| SharedIpcRegistry.TabEventThroughAgentEventAgree | shared-types/src/index.ts:595-652 | Each group of the allowlist's events block lists the keys of the matching `IPCEvents` group, in order. |
| Js.TypeOf | src/mcp-contracts.ts:383 | `typeof v === 'object'` holds exactly for `null`, arrays and plain objects. |
| Js.TruthyObjectsAreArraysOrPlainObjects | src/mcp-contracts.ts:383 | `v && typeof v === 'object'` holds exactly for arrays and plain objects. |
| Js.Get | src/mcp-contracts.ts:383 | A property read gives `undefined` for a missing key and the stored value for an own key of a plain object. |
| Js.LetterKeyNotIndex | src/mcp-contracts.ts:391 | A key such as `success` or `type` is never an array index, so on an array `in` finds it only as "length". |
| Js.Includes | shared-types/src/index.ts:327 | `String.prototype.includes` succeeds when the string starts with the searched text, and fails when the text is longer than the string. |
| Js.IncludesIffOccurs | shared-types/src/index.ts:327 | `s.includes(t)` is true exactly when `t` occurs in `s` at some index. |
| McpContracts.CallStartsWith | src/mcp-contracts.ts:383 | `x.startsWith(p)` returns the prefix test when `x` is a string and throws for any other value. |
| McpContracts.TypeHasMcpPrefix | src/mcp-contracts.ts:382-388 | The guard returns a falsy input as it is. It returns `true` exactly for objects whose string `type` starts with `mcp:`. It throws exactly when `type` is present but not a string, and its result is truthy only for such `mcp:` objects. |
| McpContracts.IsMcpEvent | src/mcp-contracts.ts:382-384 | `isMCPEvent` returns `true` exactly for objects whose string `type` starts with `mcp:`. |
| McpContracts.IsMcpRequest | src/mcp-contracts.ts:386-388 | `isMCPRequest` returns `true` exactly for objects whose string `type` starts with `mcp:`. |
| McpContracts.EventAndRequestGuardsAgree | src/mcp-contracts.ts:382-388 | `isMCPEvent` and `isMCPRequest` give the same outcome on every value, errors included, so they cannot tell events from requests. |
| McpContracts.NonStringTypeThrows | src/mcp-contracts.ts:383 | An object with a non-string `type` makes both guards throw a TypeError rather than return false. |
| McpContracts.IsMcpResponse | src/mcp-contracts.ts:390-392 | `isMCPResponse` returns a falsy input as it is, and returns `true` exactly for objects having both `success` and `timestamp` keys. |
| McpContracts.ResponseGuardChecksOnlyKeys | src/mcp-contracts.ts:390-392 | Any values of `success` and `timestamp` pass `isMCPResponse`. |
| McpContracts.ResponseWithSuccess | src/mcp-contracts.ts:394-400 | `isMCPResponse(r) && r.success === b` is truthy exactly when `r` has the response keys and `success` is the boolean `b`. |
| McpContracts.IsMcpErrorResponse | src/mcp-contracts.ts:394-396 | Truthy exactly for response-shaped objects whose `success` is `false`. |
| McpContracts.IsMcpSuccessResponse | src/mcp-contracts.ts:398-400 | Truthy exactly for response-shaped objects whose `success` is `true`. |
| McpContracts.NarrowGuardsExclusive | src/mcp-contracts.ts:390-400 | The error and success guards are never both true, and each implies `isMCPResponse`. |
| McpContracts.OtherSuccessValues | src/mcp-contracts.ts:390-400 | A response-shaped object whose `success` is neither `true` nor `false` passes `isMCPResponse` but neither narrow guard. |
| McpContracts.GuardsClassifyResponses | src/mcp-contracts.ts:280-317 | `MCPErrorResponse` is the only response variant with `success` false. Every response passes `isMCPResponse`, and exactly one narrow guard, the one matching its variant. |
| McpContracts.WellFormedEventsPass | src/mcp-contracts.ts:289-296 | Every well-formed event object passes `isMCPEvent`, and `isMCPRequest` as well. |
| McpContracts.WellFormedRequestsPass | src/mcp-contracts.ts:298-306 | Every well-formed request object passes `isMCPRequest`, and `isMCPEvent` as well. |
| McpContracts.EventTableMatchesUnion | src/mcp-contracts.ts:342-350 | `MCP_EVENTS` holds the type literal of every event variant and nothing else. |
| McpContracts.RequestTableMatchesUnion | src/mcp-contracts.ts:352-361 | `MCP_REQUESTS` holds the type literal of every request variant and nothing else. |
| McpContracts.EventNamesPrefixed | src/mcp-contracts.ts:340-350 | Every `MCP_EVENTS` value starts with `MCP_CHANNEL_PREFIX`. |
| McpContracts.RequestNamesPrefixed | src/mcp-contracts.ts:340-361 | Every `MCP_REQUESTS` value starts with `MCP_CHANNEL_PREFIX`. |
| McpContracts.TagsIdentifyTypes | src/mcp-contracts.ts:289-306 | The fifteen type literals are pairwise distinct, so a tag identifies its variant's type. |
| McpContracts.StatusAndTypeTables | src/mcp-contracts.ts:363-373 | `MCP_SERVER_STATUS` lists exactly the four `MCPServerStatus` literals, and `MCP_SERVER_TYPES` the two server types. |
| McpContracts.ErrorCodesNameThemselves | src/mcp-contracts.ts:404-420 | Every `MCP_ERROR_CODES` key equals its value. |
| McpContracts.EventValue | src/mcp-contracts.ts:115-171 | An event object has exactly the keys `type`, `payload` and `timestamp`, and its `type` is the variant's literal. |
| McpContracts.EventPayload | src/mcp-contracts.ts:115-171 | Each event's payload has exactly the keys its interface declares: the `MCPSystemState` fields, `serverId` and `status` plus `previousStatus` when present, `serverId` and `config`, `serverId` alone, `serverId`, `tools` and `connectionTime`, `serverId` plus `reason` when present, or the five `MCPAutoConnectResult` fields. Where a payload has `serverId`, it is the event's server id. |
| McpContracts.RequestPayload | src/mcp-contracts.ts:324-329 | The payload projection gives nothing exactly for the get-system-state and force-auto-connect requests. |
| McpContracts.RequestValue | src/mcp-contracts.ts:175-271 | A request object has `type`, `timestamp` and, for the variants that declare one, `payload`. Its `type` is the variant's literal. |
| McpContracts.ResponseData | src/mcp-contracts.ts:180-280 | A success response has `data` exactly for get-system-state, add-server, connect-server and execute-tool. Add-server's data is the server id, and connect-server's is the connection flag. |
| McpContracts.ResponseValue | src/mcp-contracts.ts:180-285 | A response object has exactly `success`, `timestamp` and either `error` (plus `code` when present) for the error response or `data` for the four success variants that declare it. `success` is the variant's declared boolean, `error` is the message, and `data` is the variant's data. |
| McpContracts.WithOptional | src/mcp-contracts.ts:16-29 | An optional property adds its key exactly when present. |
| McpContracts.SettingsFields | src/mcp-contracts.ts:16-29 | A server-settings object carries every mandatory field and only declared fields. |
| McpContracts.ConfigValue | src/mcp-contracts.ts:16-29 | A server configuration object has the settings keys plus `id`. |
| McpContracts.RequiredSettingsKeysAreTheMandatoryFields | src/mcp-contracts.ts:16-29 | The keys every settings object carries, and the keys of one with all optional fields absent, are exactly name, url, type and autoConnect. `id` is not among them. |
| SharedMcpContracts.SchemaFor | shared-types/src/mcp-contracts.ts:339-385 | Every request type has an entry in `MCPRequestSchema`. The entry is the empty object `{}` exactly for get-system-state and force-auto-connect, and otherwise every name in its `required` list is among its `properties`. |
| SharedMcpContracts.SchemaTableMatchesRequestTypes | shared-types/src/mcp-contracts.ts:339-385 | `MCPRequestSchema` has one entry per `MCPRequest` type literal and no other entry. |
| SharedMcpContracts.RequiredAmongProperties | shared-types/src/mcp-contracts.ts:341-383 | An entry has `required` exactly when it has `properties`, and each required name is among the properties. |
| SharedMcpContracts.PayloadlessRequestsHaveEmptySchemas | shared-types/src/mcp-contracts.ts:340-384 | A request has no payload exactly when its schema is the empty object. |
| SharedMcpContracts.WellTypedPayloadsHaveRequiredFields | shared-types/src/mcp-contracts.ts:341-383 | Every well-typed payload carries each field its schema requires. |
| SharedMcpContracts.PropertiesDescribePayloadKeys | shared-types/src/mcp-contracts.ts:341-383 | The schema's properties are the payload's keys. The exception is add-server, whose schema leaves out only the optional headers, command, args and env. |
| SharedMcpContracts.AddServerRequiredIsMandatoryConfig | shared-types/src/mcp-contracts.ts:341-351 | The add-server `required` list is the set of non-optional `MCPServerConfig` fields less `id`, and `type` is the enum of the two server types. |
| SharedMcpContracts.ChannelListIsEventsThenRequests | shared-types/src/mcp-contracts.ts:389-408 | `MCP_IPC_CHANNELS` has 15 entries: the seven event literals in union order, then the eight request literals. |
| SharedMcpContracts.ChannelListDistinct | shared-types/src/mcp-contracts.ts:389-408 | The fifteen channels are pairwise distinct. |
| SharedMcpContracts.ChannelListPrefixed | shared-types/src/mcp-contracts.ts:389-408 | Every channel starts with `mcp:`. |
| SharedMcpContracts.SharedErrorCodesNameThemselves | shared-types/src/mcp-contracts.ts:410-420 | Every key of this copy's `MCP_ERROR_CODES` equals its value. |
| SharedMcpContracts.ErrorCodeTablesDiffer | shared-types/src/mcp-contracts.ts:410-420 | The two copies share five codes, and INVALID_CONFIG, ALREADY_CONNECTED, NOT_CONNECTED and TIMEOUT exist only in this copy. |
| ContractConsistency.OnlyStateUpdateEventAllowed | shared-types/src/ipc-channels.ts:183-185 | Of the seven MCP event channels, only `mcp:state-update` passes `isAllowedChannel`. |
| ContractConsistency.RequestsAllowedExceptForceAutoConnect | shared-types/src/ipc-channels.ts:101-129 | Every MCP request channel except `mcp:force-auto-connect` passes `isAllowedChannel`. |
| SharedTypes.DigitRun | shared-types/src/index.ts:337 | The run of digits starting at an index is the longest one: all digits, and followed by a non-digit or by the end. |
| SharedTypes.DigitGroupsMatch | shared-types/src/index.ts:337 | Reading the digit groups greedily accepts exactly the strings that the backtracking regular expression accepts. |
| SharedTypes.DottedQuadPrefixIsRegexMatch | shared-types/src/index.ts:337 | The IPv4 test is a match of `/^\d+\.\d+\.\d+\.\d+/` at the start of the string. |
| SharedTypes.DottedQuadAddress | shared-types/src/index.ts:337 | "192.168.0.1" matches. |
| SharedTypes.DottedQuadWithPort | shared-types/src/index.ts:337 | "10.0.0.7:8080" matches, because only a prefix must match. |
| SharedTypes.ThreeGroupsAreNotAnAddress | shared-types/src/index.ts:337 | "1.2.3" does not match. |
| SharedTypes.EmptyGroupIsNotAnAddress | shared-types/src/index.ts:337 | "1..2.3" does not match. |
| SharedTypes.FormatServerUrl | shared-types/src/index.ts:316-340 | `formatServerUrl` fails exactly for the empty URL, and then with "Server URL is required". |
| SharedTypes.EmptyUrlRejected | shared-types/src/index.ts:317-319 | An empty URL is rejected with "Server URL is required" for either server type. |
| SharedTypes.SchemeUrlsPassThrough | shared-types/src/index.ts:322-329 | A URL that starts with `http://` or `https://`, or contains `://` anywhere, is returned unchanged for either type. |
| SharedTypes.StdioPathsBecomeFileUrls | shared-types/src/index.ts:332-334 | A stdio URL without `://` yields `file://` followed by the resolved path, so the result starts with `file://`. |
| SharedTypes.SseAddressesGetHttpScheme | shared-types/src/index.ts:337-339 | An sse URL without `://` gets `http://` exactly when it starts with `localhost` or a dotted quad. Otherwise it is returned unchanged. |
| SharedTypes.ResultShapes | shared-types/src/index.ts:322-339 | For a non-empty URL the result exists and is non-empty. It is the URL itself, `http://` plus the URL, or for stdio `file://` plus the resolved path. |
| SharedTypes.FormatIdempotent | shared-types/src/index.ts:322-339 | Formatting a formatted URL again with the same type returns it unchanged. |
| SharedTypes.StateOf | shared-types/src/index.ts:751 | The four `state` literals name the four tool-call states one to one. |
| SharedTypes.ToolCallValue | shared-types/src/index.ts:743-754 | A tool call's object has `toolName`, and of the declared keys just those whose optional field is present. |
| SharedTypes.ToolCallOf | shared-types/src/index.ts:743-754 | Reading an object as a tool call succeeds only with a string `toolName`. Extra properties never reuse a declared key. |
| SharedTypes.ToolCallRoundTrip | shared-types/src/index.ts:743-754 | Reading back a tool call's object gives the tool call, extra properties included. |
| SharedTypes.ToolCallsRoundTrip | shared-types/src/index.ts:769 | Reading back an array of tool-call objects gives the tool calls. |
| SharedTypes.ChunkValue | shared-types/src/index.ts:756-782 | A chunk's object carries `type` set to its variant's literal. |
| SharedTypes.TagDeterminesFields | shared-types/src/index.ts:756-782 | Each tag fixes the keys: token has content, thought has description, final has content and optional toolCalls, error has message and optional code. |
| SharedTypes.ChunkOf | shared-types/src/index.ts:756-782 | Narrowing an object by its `type` succeeds only when `type` is the chosen variant's literal. |
| SharedTypes.ChunkRoundTrip | shared-types/src/index.ts:756-782 | Narrowing a chunk's object by its tag gives back the chunk. The identical declaration at src/index.ts:995-1021 is covered by the same lemma. |
| AppTypes.FormatServerUrl | src/index.ts:586-591 | An sse URL is shown unchanged. A stdio URL is shown so that stripping `stdio://` gives it back. The displayed URL is never shorter than the URL. |
| AppTypes.SseAddressShownAsGiven | src/index.ts:587-589 | An sse URL is returned unchanged, the empty string included. |
| AppTypes.StdioAddressPrefixed | src/index.ts:590 | A stdio URL is returned after `stdio://`. The result is eight characters longer, and dropping those eight gives the URL back. |
| AppTypes.StripStdioScheme | src/index.ts:590 | An inverse written for the model, not code of the repository: stripping the display prefix succeeds exactly on strings that start with `stdio://`. |
| AppTypes.StripInvertsStdioFormat | src/index.ts:590 | Stripping `stdio://` inverts stdio formatting, and only formatted strings strip to a given URL. |
| AppTypes.OnlySharedCopyRejectsEmpty | src/index.ts:586-591 | The application copy never fails, while the shared copy rejects the empty URL. |
| AppTypes.CopiesAgreeOnSseSchemeUrls | src/index.ts:587-589 | For an sse URL containing `://`, both copies return the URL unchanged. |
| AppTypes.CopiesDisagreeOnStdioPaths | src/index.ts:590 | For a non-empty stdio path without `://`, the copies always differ: `file://` against `stdio://`. |
| AppTypes.SharedCopyKeepsDisplayedStdio | src/index.ts:590 | The shared copy returns a displayed stdio address unchanged, because it carries a scheme. |
| AppTypes.StdioFormatNotIdempotent | src/index.ts:590 | Formatting a stdio address twice differs from formatting it once. |

## Left out

- `path.resolve` (shared-types/src/index.ts:333) is a Node library call. It is the parameter `resolve` of `SharedTypes.FormatServerUrl`. Only the `file://` prefix of its result is specified.
- `SharedTypes.FormatServerUrl` takes its URL as a string. A missing or falsy `url` is rejected by `!server.url`, and a truthy non-string one throws a TypeError at `startsWith`. Neither case is modelled, since both lie outside the declared type.
- JavaScript numbers are exact reals, with `NaN` as a separate value. `-0`, the infinities and floating-point rounding are not modelled, because no modelled code computes with numbers.
- The `in` operator sees only own properties: the keys of a plain object, and the indices and "length" of an array. Keys inherited from `Object.prototype` (such as `toString`) are not modelled, so an object that relies on one of them to pass a guard is outside the model.
- `Js.Value` has no functions or symbols, since contract messages are data. A function-valued `type` would also make `startsWith` throw.
- The placeholder services `TaskExecutionService`, `PlannerService`, `backendApi` and `streamChatCompletion` (shared-types/src/index.ts:883-950), and their declarations in src/index.ts:1120-1142, log warnings and return fixed values. They carry no logic to model.
- shared-types/src/openrouter-types.ts only declares types. No code computes the fields its comments describe.
- The `Promise` signatures of `IPCChannels`, `IPCEvents`, `MCPIPCChannels` and `NeiraAPI` are not modelled, and neither are the `[key: string]: any` entries of `IPCChannels` and `IPCEvents`. Only the key names matter to the allowlist.
- The transport (`invoke`, `send`, `on`, `removeListener`) is implemented outside these files.
- The envelope convention (`IPCResponse`, `ApiResponse`) is not modelled, because no code in these files checks it.
- The expected order of stream chunks (tokens and thoughts, then exactly one final or error) is not modelled, because no code in these files checks it.
- The timing constants `MCP_CONNECTION_TIMEOUT`, `MCP_HEARTBEAT_INTERVAL`, `MCP_MAX_RECONNECT_ATTEMPTS` and `MCP_RECONNECT_DELAY` (src/mcp-contracts.ts:375-378) are policy for a connector outside these files.
- `MCPRequestSchema` is data that nothing in these files executes. It is modelled as values and compared with the request types, and no validator is invented for it.
- `SharedTypes.ChunkOf` and `SharedTypes.ToolCallOf` ignore properties that a variant does not declare, as TypeScript's structural typing does. They, and `AppTypes.StripStdioScheme`, are inverses written for the model's round-trip lemmas, not code of the repository.
- The remaining records (voice, tabs, workers, extensions, sales, authentication, pagination, `MCPServer`) only declare data and have no logic.
