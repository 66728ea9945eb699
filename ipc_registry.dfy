/**
 * The key names of the `IPCChannels` and `IPCEvents` contracts of the shared
 * types (shared-types/src/index.ts), and the proof that the allowlist of
 * shared-types/src/ipc-channels.ts is exactly the `IPCChannels` keys followed
 * by the `IPCEvents` keys, in declaration order.
 *
 * The maintenance comment at the head of the allowlist asks that every channel
 * added to it also be added to `IPCChannels`. The invoke part of the list keeps
 * that rule; the events block at its end does not, since its names are
 * `IPCEvents` keys and none of them is an `IPCChannels` key.
 */
module SharedIpcRegistry {
  import opened IpcChannels
  import opened IpcChannelsDistinct

  /** `IPCChannels` keys of the navigation group (index.ts lines 350-353). */
  const NavigationKeys: seq<string> := [
    "navigation:navigate",
    "navigation:back",
    "navigation:forward",
    "navigation:reload"]

  /** `IPCChannels` keys of the tabs group (index.ts lines 356-361). */
  const TabKeys: seq<string> := [
    "create-tab",
    "activate-tab",
    "close-tab",
    "get-tabs",
    "get-active-tab",
    "get-initial-tab-state"]

  /** `IPCChannels` keys of the chat and AI group (index.ts lines 364-368). */
  const ChatKeys: seq<string> := [
    "chat:send-message",
    "chats:get-list",
    "chats:get-by-id",
    "chats:delete",
    "chats:save"]

  /** `IPCChannels` keys of the Polylith backend chats group (index.ts lines 371-382). */
  const PolylithChatKeys: seq<string> := [
    "polylith:chats:get-all",
    "polylith:chats:get-by-id",
    "polylith:chats:save",
    "polylith:chats:delete"]

  /** `IPCChannels` keys of the AI models group (index.ts lines 388-389). */
  const ModelKeys: seq<string> := [
    "models:get-available",
    "models:get-tariffs"]

  /** `IPCChannels` keys of the voice interface group (index.ts lines 392-399). */
  const VoiceKeys: seq<string> := [
    "voice-start-listening",
    "voice-stop-listening",
    "voice-toggle-listening",
    "voice-get-status",
    "voice-update-settings",
    "voice-toggle-mode",
    "voice-hide-window",
    "voice-control"]

  /** `IPCChannels` keys of the speech-to-text group (index.ts lines 405-409). */
  const SttKeys: seq<string> := [
    "stt:recognize",
    "stt:disconnect"]

  /** `IPCChannels` keys of the recording window group (index.ts lines 412-414). */
  const RecordingWindowKeys: seq<string> := [
    "recording-window-show",
    "recording-window-hide",
    "recording-window-update"]

  /** `IPCChannels` keys of the window control group (index.ts lines 421-425). */
  const WindowControlKeys: seq<string> := [
    "minimize-window",
    "maximize-window",
    "close-window",
    "get-window-state",
    "theme:update"]

  /** `IPCChannels` keys of the workers group (index.ts lines 428-432). */
  const WorkerKeys: seq<string> := [
    "browser-worker-command",
    "desktop-worker-command",
    "agent-command",
    "audio-worker-command",
    "get-workers-status"]

  /** `IPCChannels` keys of the server group (index.ts lines 435-436). */
  const ServerKeys: seq<string> := [
    "server:get-status",
    "server:restart"]

  /** `IPCChannels` keys of the system group (index.ts lines 439-441). */
  const SystemKeys: seq<string> := [
    "system:get-app-info",
    "system:get-system-info",
    "hotkeys:get-config"]

  /** `IPCChannels` keys of the extensions group (index.ts lines 444-456). */
  const ExtensionKeys: seq<string> := [
    "extensions:get-list",
    "extensions:install",
    "extensions:remove",
    "extensions:toggle",
    "extensions:get-stats",
    "extensions-webstore-install",
    "extensions-webstore-update-all",
    "extensions-webstore-status"]

  /** `IPCChannels` keys of the utilities group (index.ts lines 459-462). */
  const UtilityKeys: seq<string> := [
    "generate-title",
    "get-user-id",
    "user:set-id",
    "log-message"]

  /** `IPCChannels` keys of the MCP (Model Context Protocol) group (index.ts lines 470-494). */
  const McpKeys: seq<string> := [
    "mcp:get-servers",
    "mcp:add-server",
    "mcp:remove-server",
    "mcp:create-eventsource",
    "mcp:close-eventsource",
    "mcp:send-message",
    "mcp:call-tool",
    "mcp:execute-tool",
    "mcp:connect-server",
    "mcp:disconnect-server",
    "mcp:update-server",
    "mcp:toggle-tool",
    "mcp:get-tools",
    "mcp:prepare-tools"]

  /** `IPCChannels` keys of the direct API endpoints group (index.ts lines 497-500). */
  const ApiEndpointKeys: seq<string> := [
    "api-chats",
    "api-models",
    "api-chat",
    "api-debug"]

  /** `IPCChannels` keys of the UI readiness group (index.ts lines 503-503). */
  const UiReadyKeys: seq<string> := [
    "ui-ready"]

  /** `IPCChannels` keys of the logging group (index.ts lines 506-506). */
  const LogKeys: seq<string> := [
    "system:log"]

  /** `IPCChannels` keys of the MCP manager utilities group (index.ts lines 514-516). */
  const McpUtilityKeys: seq<string> := [
    "mcp:auto-connect",
    "mcp:get-system-state",
    "mcp:get-auto-connect-servers"]

  /** `IPCChannels` keys of the file system group (index.ts lines 519-531). */
  const FileSystemKeys: seq<string> := [
    "fs-read-file",
    "fs-write-file",
    "fs-stat",
    "fs-readdir"]

  /** `IPCChannels` keys of the settings group (index.ts lines 536-539). */
  const SettingsKeys: seq<string> := [
    "settings:get-hotkeys",
    "settings:set-hotkeys",
    "settings:register-hotkeys",
    "system:get-registered-ipc-channels"]

  /** `IPCChannels` keys of the tab hotkeys group (index.ts lines 542-545). */
  const TabHotkeyKeys: seq<string> := [
    "request-new-tab",
    "request-close-tab",
    "request-select-next-tab",
    "request-select-previous-tab"]

  /** `IPCChannels` keys of the agent execution plans group (index.ts lines 548-551). */
  const AgentPlanKeys: seq<string> := [
    "agent:create-plan",
    "agent:execute-plan",
    "agent:cancel-plan",
    "agent:get-plan-status"]

  /** `IPCChannels` keys of the desktop worker group (index.ts lines 554-555). */
  const DesktopWorkerKeys: seq<string> := [
    "desktop:click",
    "desktop:type"]

  /** `IPCChannels` keys of the browser worker group (index.ts lines 558-560). */
  const BrowserWorkerKeys: seq<string> := [
    "browser:navigate",
    "browser:click",
    "browser:get-html"]

  /** `IPCChannels` keys of the API key settings group (index.ts lines 563-564). */
  const ApiKeyKeys: seq<string> := [
    "settings:api-keys:get",
    "settings:api-keys:set"]

  /** `IPCChannels` keys of the proxy group (index.ts lines 569-579). */
  const ProxyKeys: seq<string> := [
    "proxy:get-status",
    "proxy:set-keys",
    "proxy:refresh-status"]

  /** The named keys of `IPCChannels`, in declaration order. */
  const IpcChannelKeys: seq<string> :=
    NavigationKeys + TabKeys + ChatKeys + PolylithChatKeys + ModelKeys + VoiceKeys + SttKeys +
    RecordingWindowKeys + WindowControlKeys + WorkerKeys + ServerKeys + SystemKeys + ExtensionKeys +
    UtilityKeys + McpKeys + ApiEndpointKeys + (UiReadyKeys + LogKeys) + McpUtilityKeys +
    FileSystemKeys + SettingsKeys + TabHotkeyKeys + AgentPlanKeys + DesktopWorkerKeys +
    BrowserWorkerKeys + ApiKeyKeys + ProxyKeys

  /** `IPCEvents` keys of the tab group (index.ts lines 595-599). */
  const TabEventKeys: seq<string> := [
    "tab-created",
    "tab-closed",
    "tab-activated",
    "tab-updated",
    "tab-navigated"]

  /** `IPCEvents` keys of the chat group (index.ts lines 602-603). */
  const ChatEventKeys: seq<string> := [
    "chat-created",
    "chat:stream-chunk"]

  /** `IPCEvents` keys of the voice group (index.ts lines 610-611). */
  const VoiceEventKeys: seq<string> := [
    "voice-status-changed",
    "voice-transcription"]

  /** `IPCEvents` keys of the MCP group (index.ts lines 614-616). */
  const McpEventKeys: seq<string> := [
    "mcp:state-update",
    "mcp-auto-connect-trigger",
    "mcp:open-add-server-ui"]

  /** `IPCEvents` keys of the system group (index.ts lines 623-627). */
  const SystemEventKeys: seq<string> := [
    "app-will-quit",
    "window-will-close",
    "theme-changed",
    "theme-sync",
    "app-focus-requested"]

  /** `IPCEvents` keys of the readiness group (index.ts lines 630-631). */
  const ReadinessEventKeys: seq<string> := [
    "core-services-ready",
    "main-process-fully-ready"]

  /** `IPCEvents` keys of the agent group (index.ts lines 634-652). */
  const AgentEventKeys: seq<string> := [
    "agent:step-started",
    "agent:step-completed",
    "agent:step-reasoning",
    "agent:plan-created",
    "agent:plan-updated",
    "agent:plan-step-started",
    "agent:plan-step-completed",
    "agent:plan-completed"]

  /** The named keys of `IPCEvents`, in declaration order. */
  const IpcEventKeys: seq<string> :=
    TabEventKeys + ChatEventKeys + VoiceEventKeys + McpEventKeys + SystemEventKeys +
    ReadinessEventKeys + AgentEventKeys

  /** The allowlist's sections from navigation to workers list the keys of the matching registry groups. */
  lemma NavigationThroughWorkerAgree()
    ensures NavigationChannels == NavigationKeys &&
            TabChannels == TabKeys &&
            ChatChannels == ChatKeys &&
            PolylithChatChannels == PolylithChatKeys &&
            ModelChannels == ModelKeys &&
            VoiceChannels == VoiceKeys &&
            SttChannels == SttKeys &&
            RecordingWindowChannels == RecordingWindowKeys &&
            WindowControlChannels == WindowControlKeys &&
            WorkerChannels == WorkerKeys
  {
  }

  /** The allowlist's sections from server to UI readiness and logging list the keys of the matching registry groups. */
  lemma ServerThroughSystemUiAgree()
    ensures ServerChannels == ServerKeys &&
            SystemChannels == SystemKeys &&
            ExtensionChannels == ExtensionKeys &&
            UtilityChannels == UtilityKeys &&
            McpChannels == McpKeys &&
            ApiEndpointChannels == ApiEndpointKeys &&
            SystemUiChannels == UiReadyKeys + LogKeys
  {
  }

  /** The allowlist's sections from MCP manager utilities to proxy list the keys of the matching registry groups. */
  lemma McpUtilityThroughProxyAgree()
    ensures McpUtilityChannels == McpUtilityKeys &&
            FileSystemChannels == FileSystemKeys &&
            SettingsChannels == SettingsKeys &&
            TabHotkeyChannels == TabHotkeyKeys &&
            AgentPlanChannels == AgentPlanKeys &&
            DesktopWorkerChannels == DesktopWorkerKeys &&
            BrowserWorkerChannels == BrowserWorkerKeys &&
            ApiKeyChannels == ApiKeyKeys &&
            ProxyChannels == ProxyKeys
  {
  }

  /** The allowlist's sections from tab events to agent events list the keys of the matching registry groups. */
  lemma TabEventThroughAgentEventAgree()
    ensures TabEventChannels == TabEventKeys &&
            ChatEventChannels == ChatEventKeys &&
            VoiceEventChannels == VoiceEventKeys &&
            McpEventChannels == McpEventKeys &&
            SystemEventChannels == SystemEventKeys &&
            ReadinessEventChannels == ReadinessEventKeys &&
            AgentEventChannels == AgentEventKeys
  {
  }

  /** No drift: the allowlist is the `IPCChannels` keys followed by the `IPCEvents` keys. */
  lemma AllowlistMatchesRegistry()
    ensures AllowedIpcChannels == IpcChannelKeys + IpcEventKeys
  {
    NavigationThroughWorkerAgree();
    ServerThroughSystemUiAgree();
    McpUtilityThroughProxyAgree();
    TabEventThroughAgentEventAgree();
  }

  /** Every named channel of `IPCChannels` and every event of `IPCEvents` passes `isAllowedChannel`. */
  lemma RegistryKeysAllowed()
    ensures forall k | k in IpcChannelKeys :: IsAllowedChannel(k)
    ensures forall k | k in IpcEventKeys :: IsAllowedChannel(k)
  {
    AllowlistMatchesRegistry();
  }

  /** Conversely, every allowed name is a key of one of the two contracts. */
  lemma AllowedNamesAreRegistryKeys()
    ensures forall c | IsAllowedChannel(c) :: c in IpcChannelKeys || c in IpcEventKeys
  {
    AllowlistMatchesRegistry();
  }

  /**
   * The events block is where the maintenance rule does not hold: each of its
   * names is allowed, yet none is a key of `IPCChannels`.
   */
  lemma EventNamesAreNotChannelKeys()
    ensures forall c | c in IpcEventKeys :: IsAllowedChannel(c) && c !in IpcChannelKeys
  {
    AllowlistMatchesRegistry();
    AllowedIpcChannelsHaveNoDuplicates();
    NoDuplicatesSplit(IpcChannelKeys, IpcEventKeys);
  }
}
