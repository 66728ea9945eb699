/**
 * The IPC channel allowlist (shared-types/src/ipc-channels.ts): the closed list
 * `ALLOWED_IPC_CHANNELS` of channel names, from which the allowed-channels.json
 * of the main and preload processes is generated, and the exact-match test
 * `isAllowedChannel`.
 *
 * The list is written as the concatenation of its sections, one constant per
 * commented group of the source array, in source order; the closing block of
 * events is split into the groups in which `IPCEvents` declares them. The
 * value is the flat list of 137 names either way.
 */
module IpcChannels {

  /** The navigation section (ipc-channels.ts lines 12-15). */
  const NavigationChannels: seq<string> := [
    "navigation:navigate",
    "navigation:back",
    "navigation:forward",
    "navigation:reload"]

  /** The tabs section (ipc-channels.ts lines 18-23). */
  const TabChannels: seq<string> := [
    "create-tab",
    "activate-tab",
    "close-tab",
    "get-tabs",
    "get-active-tab",
    "get-initial-tab-state"]

  /** The chat and AI section (ipc-channels.ts lines 26-30). */
  const ChatChannels: seq<string> := [
    "chat:send-message",
    "chats:get-list",
    "chats:get-by-id",
    "chats:delete",
    "chats:save"]

  /** The Polylith backend chats section (ipc-channels.ts lines 33-36). */
  const PolylithChatChannels: seq<string> := [
    "polylith:chats:get-all",
    "polylith:chats:get-by-id",
    "polylith:chats:save",
    "polylith:chats:delete"]

  /** The AI models section (ipc-channels.ts lines 39-40). */
  const ModelChannels: seq<string> := [
    "models:get-available",
    "models:get-tariffs"]

  /** The voice interface section (ipc-channels.ts lines 43-50). */
  const VoiceChannels: seq<string> := [
    "voice-start-listening",
    "voice-stop-listening",
    "voice-toggle-listening",
    "voice-get-status",
    "voice-update-settings",
    "voice-toggle-mode",
    "voice-hide-window",
    "voice-control"]

  /** The speech-to-text section (ipc-channels.ts lines 53-54). */
  const SttChannels: seq<string> := [
    "stt:recognize",
    "stt:disconnect"]

  /** The recording window section (ipc-channels.ts lines 57-59). */
  const RecordingWindowChannels: seq<string> := [
    "recording-window-show",
    "recording-window-hide",
    "recording-window-update"]

  /** The window control section (ipc-channels.ts lines 62-66). */
  const WindowControlChannels: seq<string> := [
    "minimize-window",
    "maximize-window",
    "close-window",
    "get-window-state",
    "theme:update"]

  /** The workers section (ipc-channels.ts lines 69-73). */
  const WorkerChannels: seq<string> := [
    "browser-worker-command",
    "desktop-worker-command",
    "agent-command",
    "audio-worker-command",
    "get-workers-status"]

  /** The server section (ipc-channels.ts lines 76-77). */
  const ServerChannels: seq<string> := [
    "server:get-status",
    "server:restart"]

  /** The system section (ipc-channels.ts lines 80-82). */
  const SystemChannels: seq<string> := [
    "system:get-app-info",
    "system:get-system-info",
    "hotkeys:get-config"]

  /** The extensions section (ipc-channels.ts lines 85-92). */
  const ExtensionChannels: seq<string> := [
    "extensions:get-list",
    "extensions:install",
    "extensions:remove",
    "extensions:toggle",
    "extensions:get-stats",
    "extensions-webstore-install",
    "extensions-webstore-update-all",
    "extensions-webstore-status"]

  /** The utilities section (ipc-channels.ts lines 95-98). */
  const UtilityChannels: seq<string> := [
    "generate-title",
    "get-user-id",
    "user:set-id",
    "log-message"]

  /** The MCP (Model Context Protocol) section (ipc-channels.ts lines 101-114). */
  const McpChannels: seq<string> := [
    "mcp:get-servers",
    "mcp:add-server",
    "mcp:remove-server",
    "mcp:create-eventsource",
    "mcp:close-eventsource",
    "mcp:send-message",
    "mcp:call-tool",
    "mcp:execute-tool",
    "mcp:connect-server",
    "mcp:disconnect-server",
    "mcp:update-server",
    "mcp:toggle-tool",
    "mcp:get-tools",
    "mcp:prepare-tools"]

  /** The direct API endpoints section (ipc-channels.ts lines 117-120). */
  const ApiEndpointChannels: seq<string> := [
    "api-chats",
    "api-models",
    "api-chat",
    "api-debug"]

  /** The UI readiness and logging section (ipc-channels.ts lines 123-124). */
  const SystemUiChannels: seq<string> := [
    "ui-ready",
    "system:log"]

  /** The MCP manager utilities section (ipc-channels.ts lines 127-129). */
  const McpUtilityChannels: seq<string> := [
    "mcp:auto-connect",
    "mcp:get-system-state",
    "mcp:get-auto-connect-servers"]

  /** The file system section (ipc-channels.ts lines 132-135). */
  const FileSystemChannels: seq<string> := [
    "fs-read-file",
    "fs-write-file",
    "fs-stat",
    "fs-readdir"]

  /** The settings section (ipc-channels.ts lines 138-141). */
  const SettingsChannels: seq<string> := [
    "settings:get-hotkeys",
    "settings:set-hotkeys",
    "settings:register-hotkeys",
    "system:get-registered-ipc-channels"]

  /** The tab hotkeys section (ipc-channels.ts lines 144-147). */
  const TabHotkeyChannels: seq<string> := [
    "request-new-tab",
    "request-close-tab",
    "request-select-next-tab",
    "request-select-previous-tab"]

  /** The agent execution plans section (ipc-channels.ts lines 150-153). */
  const AgentPlanChannels: seq<string> := [
    "agent:create-plan",
    "agent:execute-plan",
    "agent:cancel-plan",
    "agent:get-plan-status"]

  /** The desktop worker section (ipc-channels.ts lines 156-157). */
  const DesktopWorkerChannels: seq<string> := [
    "desktop:click",
    "desktop:type"]

  /** The browser worker section (ipc-channels.ts lines 160-162). */
  const BrowserWorkerChannels: seq<string> := [
    "browser:navigate",
    "browser:click",
    "browser:get-html"]

  /** The API key settings section (ipc-channels.ts lines 165-166). */
  const ApiKeyChannels: seq<string> := [
    "settings:api-keys:get",
    "settings:api-keys:set"]

  /** The proxy section (ipc-channels.ts lines 169-171). */
  const ProxyChannels: seq<string> := [
    "proxy:get-status",
    "proxy:set-keys",
    "proxy:refresh-status"]

  /** The tab events (ipc-channels.ts lines 174-178). */
  const TabEventChannels: seq<string> := [
    "tab-created",
    "tab-closed",
    "tab-activated",
    "tab-updated",
    "tab-navigated"]

  /** The chat events (ipc-channels.ts lines 179-180). */
  const ChatEventChannels: seq<string> := [
    "chat-created",
    "chat:stream-chunk"]

  /** The voice events (ipc-channels.ts lines 181-182). */
  const VoiceEventChannels: seq<string> := [
    "voice-status-changed",
    "voice-transcription"]

  /** The MCP events (ipc-channels.ts lines 183-185). */
  const McpEventChannels: seq<string> := [
    "mcp:state-update",
    "mcp-auto-connect-trigger",
    "mcp:open-add-server-ui"]

  /** The system events (ipc-channels.ts lines 186-190). */
  const SystemEventChannels: seq<string> := [
    "app-will-quit",
    "window-will-close",
    "theme-changed",
    "theme-sync",
    "app-focus-requested"]

  /** The readiness events (ipc-channels.ts lines 191-192). */
  const ReadinessEventChannels: seq<string> := [
    "core-services-ready",
    "main-process-fully-ready"]

  /** The agent events (ipc-channels.ts lines 193-200). */
  const AgentEventChannels: seq<string> := [
    "agent:step-started",
    "agent:step-completed",
    "agent:step-reasoning",
    "agent:plan-created",
    "agent:plan-updated",
    "agent:plan-step-started",
    "agent:plan-step-completed",
    "agent:plan-completed"]

  /** The events section, sent with `send` and received with `on` (ipc-channels.ts lines 174-200). */
  const EventChannels: seq<string> :=
    TabEventChannels + ChatEventChannels + VoiceEventChannels + McpEventChannels +
    SystemEventChannels + ReadinessEventChannels + AgentEventChannels

  /** `ALLOWED_IPC_CHANNELS`. */
  const AllowedIpcChannels: seq<string> :=
    NavigationChannels + TabChannels + ChatChannels + PolylithChatChannels + ModelChannels +
    VoiceChannels + SttChannels + RecordingWindowChannels + WindowControlChannels + WorkerChannels +
    ServerChannels + SystemChannels + ExtensionChannels + UtilityChannels + McpChannels +
    ApiEndpointChannels + SystemUiChannels + McpUtilityChannels + FileSystemChannels +
    SettingsChannels + TabHotkeyChannels + AgentPlanChannels + DesktopWorkerChannels +
    BrowserWorkerChannels + ApiKeyChannels + ProxyChannels + EventChannels

  /**
   * `list.includes(c)` on an array of strings: a scan from the front that
   * stops at the first element equal to `c`.
   */
  function Includes(list: seq<string>, c: string): (r: bool)
    ensures r <==> c in list
  {
    if |list| == 0 then false
    else if list[0] == c then true
    else Includes(list[1..], c)
  }

  /** `isAllowedChannel`: exact, case-sensitive membership in the allowlist. */
  function IsAllowedChannel(channel: string): (r: bool)
    ensures r <==> channel in AllowedIpcChannels
  {
    Includes(AllowedIpcChannels, channel)
  }

  /** No name occurs twice. */
  predicate NoDuplicates(s: seq<string>) {
    forall i, j | 0 <= i < j < |s| :: s[i] != s[j]
  }

  /** Near misses of the allowed name "create-tab": other letter case, a trailing space, a sub-channel suffix. */
  predicate IsCreateTabNearMiss(c: string) {
    c in {"Create-Tab", "create-tab ", "create-tab:x"}
  }

  /**
   * Channel names of the MCP contract that the allowlist does not carry: six
   * lifecycle events the main process emits, and the force-auto-connect request.
   */
  predicate IsMcpNameNotAllowed(c: string) {
    c in {"mcp:server-status-changed", "mcp:server-added", "mcp:server-removed", "mcp:server-connected",
          "mcp:server-disconnected", "mcp:auto-connect-completed", "mcp:force-auto-connect"}
  }

  // Each literal comparison of two names costs the verifier a fixed amount,
  // so the sample names are checked against a few consecutive sections at a
  // time (at most 16 names) and `SamplesAbsent` combines the runs.

  /** No sample name occurs in the sections from navigation to chat and AI. */
  lemma SamplesAbsentFromNavigationToChat()
    ensures forall x | x in NavigationChannels + TabChannels + ChatChannels ::
              !IsCreateTabNearMiss(x) && !IsMcpNameNotAllowed(x)
  {
  }

  /** No sample name occurs in the sections from Polylith backend chats to speech-to-text. */
  lemma SamplesAbsentFromPolylithChatToStt()
    ensures forall x | x in PolylithChatChannels + ModelChannels + VoiceChannels + SttChannels ::
              !IsCreateTabNearMiss(x) && !IsMcpNameNotAllowed(x)
  {
  }

  /** No sample name occurs in the sections from recording window to server. */
  lemma SamplesAbsentFromRecordingWindowToServer()
    ensures forall x | x in RecordingWindowChannels + WindowControlChannels + WorkerChannels + ServerChannels ::
              !IsCreateTabNearMiss(x) && !IsMcpNameNotAllowed(x)
  {
  }

  /** No sample name occurs in the sections from system to utilities. */
  lemma SamplesAbsentFromSystemToUtility()
    ensures forall x | x in SystemChannels + ExtensionChannels + UtilityChannels ::
              !IsCreateTabNearMiss(x) && !IsMcpNameNotAllowed(x)
  {
  }

  /** No sample name occurs in the MCP (Model Context Protocol) section. */
  lemma SamplesAbsentFromMcp()
    ensures forall x | x in McpChannels ::
              !IsCreateTabNearMiss(x) && !IsMcpNameNotAllowed(x)
  {
  }

  /** No sample name occurs in the sections from direct API endpoints to file system. */
  lemma SamplesAbsentFromApiEndpointToFileSystem()
    ensures forall x | x in ApiEndpointChannels + SystemUiChannels + McpUtilityChannels + FileSystemChannels ::
              !IsCreateTabNearMiss(x) && !IsMcpNameNotAllowed(x)
  {
  }

  /** No sample name occurs in the sections from settings to desktop worker. */
  lemma SamplesAbsentFromSettingsToDesktopWorker()
    ensures forall x | x in SettingsChannels + TabHotkeyChannels + AgentPlanChannels + DesktopWorkerChannels ::
              !IsCreateTabNearMiss(x) && !IsMcpNameNotAllowed(x)
  {
  }

  /** No sample name occurs in the sections from browser worker to proxy. */
  lemma SamplesAbsentFromBrowserWorkerToProxy()
    ensures forall x | x in BrowserWorkerChannels + ApiKeyChannels + ProxyChannels ::
              !IsCreateTabNearMiss(x) && !IsMcpNameNotAllowed(x)
  {
  }

  /** No sample name occurs in the sections from tab events to MCP events. */
  lemma SamplesAbsentFromTabEventToMcpEvent()
    ensures forall x | x in TabEventChannels + ChatEventChannels + VoiceEventChannels + McpEventChannels ::
              !IsCreateTabNearMiss(x) && !IsMcpNameNotAllowed(x)
  {
  }

  /** No sample name occurs in the sections from system events to agent events. */
  lemma SamplesAbsentFromSystemEventToAgentEvent()
    ensures forall x | x in SystemEventChannels + ReadinessEventChannels + AgentEventChannels ::
              !IsCreateTabNearMiss(x) && !IsMcpNameNotAllowed(x)
  {
  }

  /** No sample name occurs anywhere in the allowlist. */
  lemma SamplesAbsent()
    ensures forall x | x in AllowedIpcChannels :: !IsCreateTabNearMiss(x) && !IsMcpNameNotAllowed(x)
  {
    SamplesAbsentFromNavigationToChat();
    SamplesAbsentFromPolylithChatToStt();
    SamplesAbsentFromRecordingWindowToServer();
    SamplesAbsentFromSystemToUtility();
    SamplesAbsentFromMcp();
    SamplesAbsentFromApiEndpointToFileSystem();
    SamplesAbsentFromSettingsToDesktopWorker();
    SamplesAbsentFromBrowserWorkerToProxy();
    SamplesAbsentFromTabEventToMcpEvent();
    SamplesAbsentFromSystemEventToAgentEvent();
  }

  /** "create-tab" itself is allowed. */
  lemma CreateTabAllowed()
    ensures IsAllowedChannel("create-tab")
  {
    assert "create-tab" in TabChannels;
  }

  /** Matching is exact and case-sensitive, with no prefix or wildcard matching. */
  lemma ExactMatchOnly()
    ensures IsAllowedChannel("create-tab")
    ensures forall c | IsCreateTabNearMiss(c) :: !IsAllowedChannel(c)
  {
    CreateTabAllowed();
    SamplesAbsent();
  }

  /** The MCP lifecycle events and `mcp:force-auto-connect` are rejected. */
  lemma McpNamesRejected()
    ensures forall c | IsMcpNameNotAllowed(c) :: !IsAllowedChannel(c)
  {
    SamplesAbsent();
  }
}
