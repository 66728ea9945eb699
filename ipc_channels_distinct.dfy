/**
 * `ALLOWED_IPC_CHANNELS` names no channel twice (shared-types/src/ipc-channels.ts:10-201).
 *
 * The proof compares names section against section. Each `Apart` lemma below
 * evaluates, over the literals, that the names of one section differ from all
 * names of a run of other sections; `NoDuplicatesAppend` then extends
 * duplicate-freedom one section at a time along the concatenation that
 * defines the allowlist.
 *
 * The `Apart` lemmas are numbered rather than named because their boundaries
 * follow the verifier's cost, not the program: every comparison of two string
 * literals costs about the same, and one lemma can afford about 240 of them, so
 * the section pairs are packed into lemmas of at most that many comparisons.
 * The doc comment of each lemma names the sections it compares.
 */
module IpcChannelsDistinct {
  import opened IpcChannels

  /** Appending a duplicate-free list of new names keeps a list duplicate-free. */
  lemma NoDuplicatesAppend(front: seq<string>, back: seq<string>)
    requires NoDuplicates(front) && NoDuplicates(back)
    requires forall x | x in back :: x !in front
    ensures NoDuplicates(front + back)
  {
    forall i, j | 0 <= i < j < |front + back|
      ensures (front + back)[i] != (front + back)[j]
    {
      if i < |front| <= j {
        assert front[i] in front;
        assert (front + back)[j] == back[j - |front|];
      }
    }
  }

  /** Conversely, the two halves of a duplicate-free list share no name. */
  lemma NoDuplicatesSplit(front: seq<string>, back: seq<string>)
    requires NoDuplicates(front + back)
    ensures forall x | x in back :: x !in front
  {
    forall x | x in back
      ensures x !in front
    {
      var j :| 0 <= j < |back| && back[j] == x;
      assert (front + back)[|front| + j] == x;
      forall i | 0 <= i < |front|
        ensures front[i] != x
      {
        assert (front + back)[i] == front[i];
      }
    }
  }

  /** Compares the tabs against navigation section; chat and AI against sections from navigation to tabs; Polylith backend chats against sections from navigation to chat and AI; AI models against sections from navigation to Polylith backend chats. */
  lemma Apart0()
    ensures (forall x | x in TabChannels ::
               x !in NavigationChannels) &&
            (forall x | x in ChatChannels ::
               x !in NavigationChannels && x !in TabChannels) &&
            (forall x | x in PolylithChatChannels ::
               x !in NavigationChannels && x !in TabChannels && x !in ChatChannels) &&
            (forall x | x in ModelChannels ::
               x !in NavigationChannels && x !in TabChannels && x !in ChatChannels && x !in PolylithChatChannels)
  {
  }

  /** Compares the voice interface against sections from navigation to AI models; speech-to-text against sections from navigation to voice interface. */
  lemma Apart1()
    ensures (forall x | x in VoiceChannels ::
               x !in NavigationChannels && x !in TabChannels && x !in ChatChannels && x !in PolylithChatChannels && x !in ModelChannels) &&
            (forall x | x in SttChannels ::
               x !in NavigationChannels && x !in TabChannels && x !in ChatChannels && x !in PolylithChatChannels && x !in ModelChannels && x !in VoiceChannels)
  {
  }

  /** Compares the recording window against sections from navigation to speech-to-text. */
  lemma Apart2()
    ensures (forall x | x in RecordingWindowChannels ::
               x !in NavigationChannels && x !in TabChannels && x !in ChatChannels && x !in PolylithChatChannels && x !in ModelChannels && x !in VoiceChannels && x !in SttChannels)
  {
  }

  /** Compares the window control against sections from navigation to recording window. */
  lemma Apart3()
    ensures (forall x | x in WindowControlChannels ::
               x !in NavigationChannels && x !in TabChannels && x !in ChatChannels && x !in PolylithChatChannels && x !in ModelChannels && x !in VoiceChannels && x !in SttChannels && x !in RecordingWindowChannels)
  {
  }

  /** Compares the workers against sections from navigation to window control. */
  lemma Apart4()
    ensures (forall x | x in WorkerChannels ::
               x !in NavigationChannels && x !in TabChannels && x !in ChatChannels && x !in PolylithChatChannels && x !in ModelChannels && x !in VoiceChannels && x !in SttChannels && x !in RecordingWindowChannels && x !in WindowControlChannels)
  {
  }

  /** Compares the server against sections from navigation to workers; system against sections from navigation to server. */
  lemma Apart5()
    ensures (forall x | x in ServerChannels ::
               x !in NavigationChannels && x !in TabChannels && x !in ChatChannels && x !in PolylithChatChannels && x !in ModelChannels && x !in VoiceChannels && x !in SttChannels && x !in RecordingWindowChannels && x !in WindowControlChannels && x !in WorkerChannels) &&
            (forall x | x in SystemChannels ::
               x !in NavigationChannels && x !in TabChannels && x !in ChatChannels && x !in PolylithChatChannels && x !in ModelChannels && x !in VoiceChannels && x !in SttChannels && x !in RecordingWindowChannels && x !in WindowControlChannels && x !in WorkerChannels && x !in ServerChannels)
  {
  }

  /** Compares the extensions against sections from navigation to voice interface. */
  lemma Apart6()
    ensures (forall x | x in ExtensionChannels ::
               x !in NavigationChannels && x !in TabChannels && x !in ChatChannels && x !in PolylithChatChannels && x !in ModelChannels && x !in VoiceChannels)
  {
  }

  /** Compares the extensions against sections from speech-to-text to system. */
  lemma Apart7()
    ensures (forall x | x in ExtensionChannels ::
               x !in SttChannels && x !in RecordingWindowChannels && x !in WindowControlChannels && x !in WorkerChannels && x !in ServerChannels && x !in SystemChannels)
  {
  }

  /** Compares the utilities against sections from navigation to extensions. */
  lemma Apart8()
    ensures (forall x | x in UtilityChannels ::
               x !in NavigationChannels && x !in TabChannels && x !in ChatChannels && x !in PolylithChatChannels && x !in ModelChannels && x !in VoiceChannels && x !in SttChannels && x !in RecordingWindowChannels && x !in WindowControlChannels && x !in WorkerChannels && x !in ServerChannels && x !in SystemChannels && x !in ExtensionChannels)
  {
  }

  /** Compares the MCP (Model Context Protocol) against sections from navigation to chat and AI. */
  lemma Apart9()
    ensures (forall x | x in McpChannels ::
               x !in NavigationChannels && x !in TabChannels && x !in ChatChannels)
  {
  }

  /** Compares the MCP (Model Context Protocol) against sections from Polylith backend chats to speech-to-text. */
  lemma Apart10()
    ensures (forall x | x in McpChannels ::
               x !in PolylithChatChannels && x !in ModelChannels && x !in VoiceChannels && x !in SttChannels)
  {
  }

  /** Compares the MCP (Model Context Protocol) against sections from recording window to server. */
  lemma Apart11()
    ensures (forall x | x in McpChannels ::
               x !in RecordingWindowChannels && x !in WindowControlChannels && x !in WorkerChannels && x !in ServerChannels)
  {
  }

  /** Compares the MCP (Model Context Protocol) against sections from system to utilities. */
  lemma Apart12()
    ensures (forall x | x in McpChannels ::
               x !in SystemChannels && x !in ExtensionChannels && x !in UtilityChannels)
  {
  }

  /** Compares the direct API endpoints against sections from navigation to extensions. */
  lemma Apart13()
    ensures (forall x | x in ApiEndpointChannels ::
               x !in NavigationChannels && x !in TabChannels && x !in ChatChannels && x !in PolylithChatChannels && x !in ModelChannels && x !in VoiceChannels && x !in SttChannels && x !in RecordingWindowChannels && x !in WindowControlChannels && x !in WorkerChannels && x !in ServerChannels && x !in SystemChannels && x !in ExtensionChannels)
  {
  }

  /** Compares the direct API endpoints against sections from utilities to MCP (Model Context Protocol); UI readiness and logging against sections from navigation to direct API endpoints. */
  lemma Apart14()
    ensures (forall x | x in ApiEndpointChannels ::
               x !in UtilityChannels && x !in McpChannels) &&
            (forall x | x in SystemUiChannels ::
               x !in NavigationChannels && x !in TabChannels && x !in ChatChannels && x !in PolylithChatChannels && x !in ModelChannels && x !in VoiceChannels && x !in SttChannels && x !in RecordingWindowChannels && x !in WindowControlChannels && x !in WorkerChannels && x !in ServerChannels && x !in SystemChannels && x !in ExtensionChannels && x !in UtilityChannels && x !in McpChannels && x !in ApiEndpointChannels)
  {
  }

  /** Compares the MCP manager utilities against sections from navigation to direct API endpoints. */
  lemma Apart15()
    ensures (forall x | x in McpUtilityChannels ::
               x !in NavigationChannels && x !in TabChannels && x !in ChatChannels && x !in PolylithChatChannels && x !in ModelChannels && x !in VoiceChannels && x !in SttChannels && x !in RecordingWindowChannels && x !in WindowControlChannels && x !in WorkerChannels && x !in ServerChannels && x !in SystemChannels && x !in ExtensionChannels && x !in UtilityChannels && x !in McpChannels && x !in ApiEndpointChannels)
  {
  }

  /** Compares the MCP manager utilities against UI readiness and logging section; file system against sections from navigation to extensions. */
  lemma Apart16()
    ensures (forall x | x in McpUtilityChannels ::
               x !in SystemUiChannels) &&
            (forall x | x in FileSystemChannels ::
               x !in NavigationChannels && x !in TabChannels && x !in ChatChannels && x !in PolylithChatChannels && x !in ModelChannels && x !in VoiceChannels && x !in SttChannels && x !in RecordingWindowChannels && x !in WindowControlChannels && x !in WorkerChannels && x !in ServerChannels && x !in SystemChannels && x !in ExtensionChannels)
  {
  }

  /** Compares the file system against sections from utilities to MCP manager utilities. */
  lemma Apart17()
    ensures (forall x | x in FileSystemChannels ::
               x !in UtilityChannels && x !in McpChannels && x !in ApiEndpointChannels && x !in SystemUiChannels && x !in McpUtilityChannels)
  {
  }

  /** Compares the settings against sections from navigation to extensions. */
  lemma Apart18()
    ensures (forall x | x in SettingsChannels ::
               x !in NavigationChannels && x !in TabChannels && x !in ChatChannels && x !in PolylithChatChannels && x !in ModelChannels && x !in VoiceChannels && x !in SttChannels && x !in RecordingWindowChannels && x !in WindowControlChannels && x !in WorkerChannels && x !in ServerChannels && x !in SystemChannels && x !in ExtensionChannels)
  {
  }

  /** Compares the settings against sections from utilities to file system. */
  lemma Apart19()
    ensures (forall x | x in SettingsChannels ::
               x !in UtilityChannels && x !in McpChannels && x !in ApiEndpointChannels && x !in SystemUiChannels && x !in McpUtilityChannels && x !in FileSystemChannels)
  {
  }

  /** Compares the tab hotkeys against sections from navigation to extensions. */
  lemma Apart20()
    ensures (forall x | x in TabHotkeyChannels ::
               x !in NavigationChannels && x !in TabChannels && x !in ChatChannels && x !in PolylithChatChannels && x !in ModelChannels && x !in VoiceChannels && x !in SttChannels && x !in RecordingWindowChannels && x !in WindowControlChannels && x !in WorkerChannels && x !in ServerChannels && x !in SystemChannels && x !in ExtensionChannels)
  {
  }

  /** Compares the tab hotkeys against sections from utilities to settings. */
  lemma Apart21()
    ensures (forall x | x in TabHotkeyChannels ::
               x !in UtilityChannels && x !in McpChannels && x !in ApiEndpointChannels && x !in SystemUiChannels && x !in McpUtilityChannels && x !in FileSystemChannels && x !in SettingsChannels)
  {
  }

  /** Compares the agent execution plans against sections from navigation to extensions. */
  lemma Apart22()
    ensures (forall x | x in AgentPlanChannels ::
               x !in NavigationChannels && x !in TabChannels && x !in ChatChannels && x !in PolylithChatChannels && x !in ModelChannels && x !in VoiceChannels && x !in SttChannels && x !in RecordingWindowChannels && x !in WindowControlChannels && x !in WorkerChannels && x !in ServerChannels && x !in SystemChannels && x !in ExtensionChannels)
  {
  }

  /** Compares the agent execution plans against sections from utilities to tab hotkeys. */
  lemma Apart23()
    ensures (forall x | x in AgentPlanChannels ::
               x !in UtilityChannels && x !in McpChannels && x !in ApiEndpointChannels && x !in SystemUiChannels && x !in McpUtilityChannels && x !in FileSystemChannels && x !in SettingsChannels && x !in TabHotkeyChannels)
  {
  }

  /** Compares the desktop worker against sections from navigation to agent execution plans. */
  lemma Apart24()
    ensures (forall x | x in DesktopWorkerChannels ::
               x !in NavigationChannels && x !in TabChannels && x !in ChatChannels && x !in PolylithChatChannels && x !in ModelChannels && x !in VoiceChannels && x !in SttChannels && x !in RecordingWindowChannels && x !in WindowControlChannels && x !in WorkerChannels && x !in ServerChannels && x !in SystemChannels && x !in ExtensionChannels && x !in UtilityChannels && x !in McpChannels && x !in ApiEndpointChannels && x !in SystemUiChannels && x !in McpUtilityChannels && x !in FileSystemChannels && x !in SettingsChannels && x !in TabHotkeyChannels && x !in AgentPlanChannels)
  {
  }

  /** Compares the browser worker against sections from navigation to direct API endpoints. */
  lemma Apart25()
    ensures (forall x | x in BrowserWorkerChannels ::
               x !in NavigationChannels && x !in TabChannels && x !in ChatChannels && x !in PolylithChatChannels && x !in ModelChannels && x !in VoiceChannels && x !in SttChannels && x !in RecordingWindowChannels && x !in WindowControlChannels && x !in WorkerChannels && x !in ServerChannels && x !in SystemChannels && x !in ExtensionChannels && x !in UtilityChannels && x !in McpChannels && x !in ApiEndpointChannels)
  {
  }

  /** Compares the browser worker against sections from UI readiness and logging to desktop worker. */
  lemma Apart26()
    ensures (forall x | x in BrowserWorkerChannels ::
               x !in SystemUiChannels && x !in McpUtilityChannels && x !in FileSystemChannels && x !in SettingsChannels && x !in TabHotkeyChannels && x !in AgentPlanChannels && x !in DesktopWorkerChannels)
  {
  }

  /** Compares the API key settings against sections from navigation to browser worker. */
  lemma Apart27()
    ensures (forall x | x in ApiKeyChannels ::
               x !in NavigationChannels && x !in TabChannels && x !in ChatChannels && x !in PolylithChatChannels && x !in ModelChannels && x !in VoiceChannels && x !in SttChannels && x !in RecordingWindowChannels && x !in WindowControlChannels && x !in WorkerChannels && x !in ServerChannels && x !in SystemChannels && x !in ExtensionChannels && x !in UtilityChannels && x !in McpChannels && x !in ApiEndpointChannels && x !in SystemUiChannels && x !in McpUtilityChannels && x !in FileSystemChannels && x !in SettingsChannels && x !in TabHotkeyChannels && x !in AgentPlanChannels && x !in DesktopWorkerChannels && x !in BrowserWorkerChannels)
  {
  }

  /** Compares the proxy against sections from navigation to direct API endpoints. */
  lemma Apart28()
    ensures (forall x | x in ProxyChannels ::
               x !in NavigationChannels && x !in TabChannels && x !in ChatChannels && x !in PolylithChatChannels && x !in ModelChannels && x !in VoiceChannels && x !in SttChannels && x !in RecordingWindowChannels && x !in WindowControlChannels && x !in WorkerChannels && x !in ServerChannels && x !in SystemChannels && x !in ExtensionChannels && x !in UtilityChannels && x !in McpChannels && x !in ApiEndpointChannels)
  {
  }

  /** Compares the proxy against sections from UI readiness and logging to API key settings; chat events against tab events section; voice events against sections from tab events to chat events; MCP events against sections from tab events to voice events; system events against sections from tab events to MCP events; readiness events against sections from tab events to system events. */
  lemma Apart29()
    ensures (forall x | x in ProxyChannels ::
               x !in SystemUiChannels && x !in McpUtilityChannels && x !in FileSystemChannels && x !in SettingsChannels && x !in TabHotkeyChannels && x !in AgentPlanChannels && x !in DesktopWorkerChannels && x !in BrowserWorkerChannels && x !in ApiKeyChannels) &&
            (forall x | x in ChatEventChannels ::
               x !in TabEventChannels) &&
            (forall x | x in VoiceEventChannels ::
               x !in TabEventChannels && x !in ChatEventChannels) &&
            (forall x | x in McpEventChannels ::
               x !in TabEventChannels && x !in ChatEventChannels && x !in VoiceEventChannels) &&
            (forall x | x in SystemEventChannels ::
               x !in TabEventChannels && x !in ChatEventChannels && x !in VoiceEventChannels && x !in McpEventChannels) &&
            (forall x | x in ReadinessEventChannels ::
               x !in TabEventChannels && x !in ChatEventChannels && x !in VoiceEventChannels && x !in McpEventChannels && x !in SystemEventChannels)
  {
  }

  /** Compares the agent events against sections from tab events to readiness events. */
  lemma Apart30()
    ensures (forall x | x in AgentEventChannels ::
               x !in TabEventChannels && x !in ChatEventChannels && x !in VoiceEventChannels && x !in McpEventChannels && x !in SystemEventChannels && x !in ReadinessEventChannels)
  {
  }

  /** Compares the tab events against sections from navigation to server. */
  lemma Apart31()
    ensures (forall x | x in TabEventChannels ::
               x !in NavigationChannels && x !in TabChannels && x !in ChatChannels && x !in PolylithChatChannels && x !in ModelChannels && x !in VoiceChannels && x !in SttChannels && x !in RecordingWindowChannels && x !in WindowControlChannels && x !in WorkerChannels && x !in ServerChannels)
  {
  }

  /** Compares the tab events against sections from system to settings. */
  lemma Apart32()
    ensures (forall x | x in TabEventChannels ::
               x !in SystemChannels && x !in ExtensionChannels && x !in UtilityChannels && x !in McpChannels && x !in ApiEndpointChannels && x !in SystemUiChannels && x !in McpUtilityChannels && x !in FileSystemChannels && x !in SettingsChannels)
  {
  }

  /** Compares the tab events against sections from tab hotkeys to proxy. */
  lemma Apart33()
    ensures (forall x | x in TabEventChannels ::
               x !in TabHotkeyChannels && x !in AgentPlanChannels && x !in DesktopWorkerChannels && x !in BrowserWorkerChannels && x !in ApiKeyChannels && x !in ProxyChannels)
  {
  }

  /** Compares the chat events against sections from navigation to proxy. */
  lemma Apart34()
    ensures (forall x | x in ChatEventChannels ::
               x !in NavigationChannels && x !in TabChannels && x !in ChatChannels && x !in PolylithChatChannels && x !in ModelChannels && x !in VoiceChannels && x !in SttChannels && x !in RecordingWindowChannels && x !in WindowControlChannels && x !in WorkerChannels && x !in ServerChannels && x !in SystemChannels && x !in ExtensionChannels && x !in UtilityChannels && x !in McpChannels && x !in ApiEndpointChannels && x !in SystemUiChannels && x !in McpUtilityChannels && x !in FileSystemChannels && x !in SettingsChannels && x !in TabHotkeyChannels && x !in AgentPlanChannels && x !in DesktopWorkerChannels && x !in BrowserWorkerChannels && x !in ApiKeyChannels && x !in ProxyChannels)
  {
  }

  /** Compares the voice events against sections from navigation to proxy. */
  lemma Apart35()
    ensures (forall x | x in VoiceEventChannels ::
               x !in NavigationChannels && x !in TabChannels && x !in ChatChannels && x !in PolylithChatChannels && x !in ModelChannels && x !in VoiceChannels && x !in SttChannels && x !in RecordingWindowChannels && x !in WindowControlChannels && x !in WorkerChannels && x !in ServerChannels && x !in SystemChannels && x !in ExtensionChannels && x !in UtilityChannels && x !in McpChannels && x !in ApiEndpointChannels && x !in SystemUiChannels && x !in McpUtilityChannels && x !in FileSystemChannels && x !in SettingsChannels && x !in TabHotkeyChannels && x !in AgentPlanChannels && x !in DesktopWorkerChannels && x !in BrowserWorkerChannels && x !in ApiKeyChannels && x !in ProxyChannels)
  {
  }

  /** Compares the MCP events against sections from navigation to direct API endpoints. */
  lemma Apart36()
    ensures (forall x | x in McpEventChannels ::
               x !in NavigationChannels && x !in TabChannels && x !in ChatChannels && x !in PolylithChatChannels && x !in ModelChannels && x !in VoiceChannels && x !in SttChannels && x !in RecordingWindowChannels && x !in WindowControlChannels && x !in WorkerChannels && x !in ServerChannels && x !in SystemChannels && x !in ExtensionChannels && x !in UtilityChannels && x !in McpChannels && x !in ApiEndpointChannels)
  {
  }

  /** Compares the MCP events against sections from UI readiness and logging to proxy. */
  lemma Apart37()
    ensures (forall x | x in McpEventChannels ::
               x !in SystemUiChannels && x !in McpUtilityChannels && x !in FileSystemChannels && x !in SettingsChannels && x !in TabHotkeyChannels && x !in AgentPlanChannels && x !in DesktopWorkerChannels && x !in BrowserWorkerChannels && x !in ApiKeyChannels && x !in ProxyChannels)
  {
  }

  /** Compares the system events against sections from navigation to server. */
  lemma Apart38()
    ensures (forall x | x in SystemEventChannels ::
               x !in NavigationChannels && x !in TabChannels && x !in ChatChannels && x !in PolylithChatChannels && x !in ModelChannels && x !in VoiceChannels && x !in SttChannels && x !in RecordingWindowChannels && x !in WindowControlChannels && x !in WorkerChannels && x !in ServerChannels)
  {
  }

  /** Compares the system events against sections from system to settings. */
  lemma Apart39()
    ensures (forall x | x in SystemEventChannels ::
               x !in SystemChannels && x !in ExtensionChannels && x !in UtilityChannels && x !in McpChannels && x !in ApiEndpointChannels && x !in SystemUiChannels && x !in McpUtilityChannels && x !in FileSystemChannels && x !in SettingsChannels)
  {
  }

  /** Compares the system events against sections from tab hotkeys to proxy. */
  lemma Apart40()
    ensures (forall x | x in SystemEventChannels ::
               x !in TabHotkeyChannels && x !in AgentPlanChannels && x !in DesktopWorkerChannels && x !in BrowserWorkerChannels && x !in ApiKeyChannels && x !in ProxyChannels)
  {
  }

  /** Compares the readiness events against sections from navigation to proxy. */
  lemma Apart41()
    ensures (forall x | x in ReadinessEventChannels ::
               x !in NavigationChannels && x !in TabChannels && x !in ChatChannels && x !in PolylithChatChannels && x !in ModelChannels && x !in VoiceChannels && x !in SttChannels && x !in RecordingWindowChannels && x !in WindowControlChannels && x !in WorkerChannels && x !in ServerChannels && x !in SystemChannels && x !in ExtensionChannels && x !in UtilityChannels && x !in McpChannels && x !in ApiEndpointChannels && x !in SystemUiChannels && x !in McpUtilityChannels && x !in FileSystemChannels && x !in SettingsChannels && x !in TabHotkeyChannels && x !in AgentPlanChannels && x !in DesktopWorkerChannels && x !in BrowserWorkerChannels && x !in ApiKeyChannels && x !in ProxyChannels)
  {
  }

  /** Compares the agent events against sections from navigation to voice interface. */
  lemma Apart42()
    ensures (forall x | x in AgentEventChannels ::
               x !in NavigationChannels && x !in TabChannels && x !in ChatChannels && x !in PolylithChatChannels && x !in ModelChannels && x !in VoiceChannels)
  {
  }

  /** Compares the agent events against sections from speech-to-text to extensions. */
  lemma Apart43()
    ensures (forall x | x in AgentEventChannels ::
               x !in SttChannels && x !in RecordingWindowChannels && x !in WindowControlChannels && x !in WorkerChannels && x !in ServerChannels && x !in SystemChannels && x !in ExtensionChannels)
  {
  }

  /** Compares the agent events against sections from utilities to MCP manager utilities. */
  lemma Apart44()
    ensures (forall x | x in AgentEventChannels ::
               x !in UtilityChannels && x !in McpChannels && x !in ApiEndpointChannels && x !in SystemUiChannels && x !in McpUtilityChannels)
  {
  }

  /** Compares the agent events against sections from file system to proxy. */
  lemma Apart45()
    ensures (forall x | x in AgentEventChannels ::
               x !in FileSystemChannels && x !in SettingsChannels && x !in TabHotkeyChannels && x !in AgentPlanChannels && x !in DesktopWorkerChannels && x !in BrowserWorkerChannels && x !in ApiKeyChannels && x !in ProxyChannels)
  {
  }

  /** The sections from navigation to window control each name no channel twice. */
  lemma SectionsHaveNoDuplicatesNavigationWindowControl()
    ensures NoDuplicates(NavigationChannels) &&
            NoDuplicates(TabChannels) &&
            NoDuplicates(ChatChannels) &&
            NoDuplicates(PolylithChatChannels) &&
            NoDuplicates(ModelChannels) &&
            NoDuplicates(VoiceChannels) &&
            NoDuplicates(SttChannels) &&
            NoDuplicates(RecordingWindowChannels) &&
            NoDuplicates(WindowControlChannels)
  {
  }

  /** The sections up to window control name no channel twice. */
  lemma NoDuplicatesThroughWindowControl()
    ensures NoDuplicates(
              NavigationChannels + TabChannels + ChatChannels + PolylithChatChannels +
              ModelChannels + VoiceChannels + SttChannels + RecordingWindowChannels +
              WindowControlChannels)
  {
    SectionsHaveNoDuplicatesNavigationWindowControl();
    Apart0();
    NoDuplicatesAppend(
      NavigationChannels,
      TabChannels);
    Apart0();
    NoDuplicatesAppend(
      NavigationChannels + TabChannels,
      ChatChannels);
    Apart0();
    NoDuplicatesAppend(
      NavigationChannels + TabChannels + ChatChannels,
      PolylithChatChannels);
    Apart0();
    NoDuplicatesAppend(
      NavigationChannels + TabChannels + ChatChannels + PolylithChatChannels,
      ModelChannels);
    Apart1();
    NoDuplicatesAppend(
      NavigationChannels + TabChannels + ChatChannels + PolylithChatChannels + ModelChannels,
      VoiceChannels);
    Apart1();
    NoDuplicatesAppend(
      NavigationChannels + TabChannels + ChatChannels + PolylithChatChannels + ModelChannels +
      VoiceChannels,
      SttChannels);
    Apart2();
    NoDuplicatesAppend(
      NavigationChannels + TabChannels + ChatChannels + PolylithChatChannels + ModelChannels +
      VoiceChannels + SttChannels,
      RecordingWindowChannels);
    Apart3();
    NoDuplicatesAppend(
      NavigationChannels + TabChannels + ChatChannels + PolylithChatChannels + ModelChannels +
      VoiceChannels + SttChannels + RecordingWindowChannels,
      WindowControlChannels);
  }

  /** The sections from workers to mcp (model context protocol) each name no channel twice. */
  lemma SectionsHaveNoDuplicatesWorkerMcp()
    ensures NoDuplicates(WorkerChannels) &&
            NoDuplicates(ServerChannels) &&
            NoDuplicates(SystemChannels) &&
            NoDuplicates(ExtensionChannels) &&
            NoDuplicates(UtilityChannels) &&
            NoDuplicates(McpChannels)
  {
  }

  /** The sections up to MCP (Model Context Protocol) name no channel twice. */
  lemma NoDuplicatesThroughMcp()
    ensures NoDuplicates(
              NavigationChannels + TabChannels + ChatChannels + PolylithChatChannels +
              ModelChannels + VoiceChannels + SttChannels + RecordingWindowChannels +
              WindowControlChannels + WorkerChannels + ServerChannels + SystemChannels +
              ExtensionChannels + UtilityChannels + McpChannels)
  {
    SectionsHaveNoDuplicatesWorkerMcp();
    NoDuplicatesThroughWindowControl();
    Apart4();
    NoDuplicatesAppend(
      NavigationChannels + TabChannels + ChatChannels + PolylithChatChannels + ModelChannels +
      VoiceChannels + SttChannels + RecordingWindowChannels + WindowControlChannels,
      WorkerChannels);
    Apart5();
    NoDuplicatesAppend(
      NavigationChannels + TabChannels + ChatChannels + PolylithChatChannels + ModelChannels +
      VoiceChannels + SttChannels + RecordingWindowChannels + WindowControlChannels + WorkerChannels,
      ServerChannels);
    Apart5();
    NoDuplicatesAppend(
      NavigationChannels + TabChannels + ChatChannels + PolylithChatChannels + ModelChannels +
      VoiceChannels + SttChannels + RecordingWindowChannels + WindowControlChannels +
      WorkerChannels + ServerChannels,
      SystemChannels);
    Apart6();
    Apart7();
    NoDuplicatesAppend(
      NavigationChannels + TabChannels + ChatChannels + PolylithChatChannels + ModelChannels +
      VoiceChannels + SttChannels + RecordingWindowChannels + WindowControlChannels +
      WorkerChannels + ServerChannels + SystemChannels,
      ExtensionChannels);
    Apart8();
    NoDuplicatesAppend(
      NavigationChannels + TabChannels + ChatChannels + PolylithChatChannels + ModelChannels +
      VoiceChannels + SttChannels + RecordingWindowChannels + WindowControlChannels +
      WorkerChannels + ServerChannels + SystemChannels + ExtensionChannels,
      UtilityChannels);
    Apart9();
    Apart10();
    Apart11();
    Apart12();
    NoDuplicatesAppend(
      NavigationChannels + TabChannels + ChatChannels + PolylithChatChannels + ModelChannels +
      VoiceChannels + SttChannels + RecordingWindowChannels + WindowControlChannels +
      WorkerChannels + ServerChannels + SystemChannels + ExtensionChannels + UtilityChannels,
      McpChannels);
  }

  /** The sections from direct api endpoints to tab hotkeys each name no channel twice. */
  lemma SectionsHaveNoDuplicatesApiEndpointTabHotkey()
    ensures NoDuplicates(ApiEndpointChannels) &&
            NoDuplicates(SystemUiChannels) &&
            NoDuplicates(McpUtilityChannels) &&
            NoDuplicates(FileSystemChannels) &&
            NoDuplicates(SettingsChannels) &&
            NoDuplicates(TabHotkeyChannels)
  {
  }

  /** The sections up to tab hotkeys name no channel twice. */
  lemma NoDuplicatesThroughTabHotkey()
    ensures NoDuplicates(
              NavigationChannels + TabChannels + ChatChannels + PolylithChatChannels +
              ModelChannels + VoiceChannels + SttChannels + RecordingWindowChannels +
              WindowControlChannels + WorkerChannels + ServerChannels + SystemChannels +
              ExtensionChannels + UtilityChannels + McpChannels + ApiEndpointChannels +
              SystemUiChannels + McpUtilityChannels + FileSystemChannels + SettingsChannels +
              TabHotkeyChannels)
  {
    SectionsHaveNoDuplicatesApiEndpointTabHotkey();
    NoDuplicatesThroughMcp();
    Apart13();
    Apart14();
    NoDuplicatesAppend(
      NavigationChannels + TabChannels + ChatChannels + PolylithChatChannels + ModelChannels +
      VoiceChannels + SttChannels + RecordingWindowChannels + WindowControlChannels +
      WorkerChannels + ServerChannels + SystemChannels + ExtensionChannels + UtilityChannels +
      McpChannels,
      ApiEndpointChannels);
    Apart14();
    NoDuplicatesAppend(
      NavigationChannels + TabChannels + ChatChannels + PolylithChatChannels + ModelChannels +
      VoiceChannels + SttChannels + RecordingWindowChannels + WindowControlChannels +
      WorkerChannels + ServerChannels + SystemChannels + ExtensionChannels + UtilityChannels +
      McpChannels + ApiEndpointChannels,
      SystemUiChannels);
    Apart15();
    Apart16();
    NoDuplicatesAppend(
      NavigationChannels + TabChannels + ChatChannels + PolylithChatChannels + ModelChannels +
      VoiceChannels + SttChannels + RecordingWindowChannels + WindowControlChannels +
      WorkerChannels + ServerChannels + SystemChannels + ExtensionChannels + UtilityChannels +
      McpChannels + ApiEndpointChannels + SystemUiChannels,
      McpUtilityChannels);
    Apart16();
    Apart17();
    NoDuplicatesAppend(
      NavigationChannels + TabChannels + ChatChannels + PolylithChatChannels + ModelChannels +
      VoiceChannels + SttChannels + RecordingWindowChannels + WindowControlChannels +
      WorkerChannels + ServerChannels + SystemChannels + ExtensionChannels + UtilityChannels +
      McpChannels + ApiEndpointChannels + SystemUiChannels + McpUtilityChannels,
      FileSystemChannels);
    Apart18();
    Apart19();
    NoDuplicatesAppend(
      NavigationChannels + TabChannels + ChatChannels + PolylithChatChannels + ModelChannels +
      VoiceChannels + SttChannels + RecordingWindowChannels + WindowControlChannels +
      WorkerChannels + ServerChannels + SystemChannels + ExtensionChannels + UtilityChannels +
      McpChannels + ApiEndpointChannels + SystemUiChannels + McpUtilityChannels + FileSystemChannels,
      SettingsChannels);
    Apart20();
    Apart21();
    NoDuplicatesAppend(
      NavigationChannels + TabChannels + ChatChannels + PolylithChatChannels + ModelChannels +
      VoiceChannels + SttChannels + RecordingWindowChannels + WindowControlChannels +
      WorkerChannels + ServerChannels + SystemChannels + ExtensionChannels + UtilityChannels +
      McpChannels + ApiEndpointChannels + SystemUiChannels + McpUtilityChannels +
      FileSystemChannels + SettingsChannels,
      TabHotkeyChannels);
  }

  /** The sections from agent execution plans to proxy each name no channel twice. */
  lemma SectionsHaveNoDuplicatesAgentPlanProxy()
    ensures NoDuplicates(AgentPlanChannels) &&
            NoDuplicates(DesktopWorkerChannels) &&
            NoDuplicates(BrowserWorkerChannels) &&
            NoDuplicates(ApiKeyChannels) &&
            NoDuplicates(ProxyChannels)
  {
  }

  /** The sections up to proxy name no channel twice. */
  lemma NoDuplicatesThroughProxy()
    ensures NoDuplicates(
              NavigationChannels + TabChannels + ChatChannels + PolylithChatChannels +
              ModelChannels + VoiceChannels + SttChannels + RecordingWindowChannels +
              WindowControlChannels + WorkerChannels + ServerChannels + SystemChannels +
              ExtensionChannels + UtilityChannels + McpChannels + ApiEndpointChannels +
              SystemUiChannels + McpUtilityChannels + FileSystemChannels + SettingsChannels +
              TabHotkeyChannels + AgentPlanChannels + DesktopWorkerChannels +
              BrowserWorkerChannels + ApiKeyChannels + ProxyChannels)
  {
    SectionsHaveNoDuplicatesAgentPlanProxy();
    NoDuplicatesThroughTabHotkey();
    Apart22();
    Apart23();
    NoDuplicatesAppend(
      NavigationChannels + TabChannels + ChatChannels + PolylithChatChannels + ModelChannels +
      VoiceChannels + SttChannels + RecordingWindowChannels + WindowControlChannels +
      WorkerChannels + ServerChannels + SystemChannels + ExtensionChannels + UtilityChannels +
      McpChannels + ApiEndpointChannels + SystemUiChannels + McpUtilityChannels +
      FileSystemChannels + SettingsChannels + TabHotkeyChannels,
      AgentPlanChannels);
    Apart24();
    NoDuplicatesAppend(
      NavigationChannels + TabChannels + ChatChannels + PolylithChatChannels + ModelChannels +
      VoiceChannels + SttChannels + RecordingWindowChannels + WindowControlChannels +
      WorkerChannels + ServerChannels + SystemChannels + ExtensionChannels + UtilityChannels +
      McpChannels + ApiEndpointChannels + SystemUiChannels + McpUtilityChannels +
      FileSystemChannels + SettingsChannels + TabHotkeyChannels + AgentPlanChannels,
      DesktopWorkerChannels);
    Apart25();
    Apart26();
    NoDuplicatesAppend(
      NavigationChannels + TabChannels + ChatChannels + PolylithChatChannels + ModelChannels +
      VoiceChannels + SttChannels + RecordingWindowChannels + WindowControlChannels +
      WorkerChannels + ServerChannels + SystemChannels + ExtensionChannels + UtilityChannels +
      McpChannels + ApiEndpointChannels + SystemUiChannels + McpUtilityChannels +
      FileSystemChannels + SettingsChannels + TabHotkeyChannels + AgentPlanChannels +
      DesktopWorkerChannels,
      BrowserWorkerChannels);
    Apart27();
    NoDuplicatesAppend(
      NavigationChannels + TabChannels + ChatChannels + PolylithChatChannels + ModelChannels +
      VoiceChannels + SttChannels + RecordingWindowChannels + WindowControlChannels +
      WorkerChannels + ServerChannels + SystemChannels + ExtensionChannels + UtilityChannels +
      McpChannels + ApiEndpointChannels + SystemUiChannels + McpUtilityChannels +
      FileSystemChannels + SettingsChannels + TabHotkeyChannels + AgentPlanChannels +
      DesktopWorkerChannels + BrowserWorkerChannels,
      ApiKeyChannels);
    Apart28();
    Apart29();
    NoDuplicatesAppend(
      NavigationChannels + TabChannels + ChatChannels + PolylithChatChannels + ModelChannels +
      VoiceChannels + SttChannels + RecordingWindowChannels + WindowControlChannels +
      WorkerChannels + ServerChannels + SystemChannels + ExtensionChannels + UtilityChannels +
      McpChannels + ApiEndpointChannels + SystemUiChannels + McpUtilityChannels +
      FileSystemChannels + SettingsChannels + TabHotkeyChannels + AgentPlanChannels +
      DesktopWorkerChannels + BrowserWorkerChannels + ApiKeyChannels,
      ProxyChannels);
  }

  /** The sections from tab events to agent events each name no channel twice. */
  lemma SectionsHaveNoDuplicatesTabEventAgentEvent()
    ensures NoDuplicates(TabEventChannels) &&
            NoDuplicates(ChatEventChannels) &&
            NoDuplicates(VoiceEventChannels) &&
            NoDuplicates(McpEventChannels) &&
            NoDuplicates(SystemEventChannels) &&
            NoDuplicates(ReadinessEventChannels) &&
            NoDuplicates(AgentEventChannels)
  {
  }

  /** The events section names no event twice. */
  lemma EventsHaveNoDuplicates()
    ensures NoDuplicates(
              TabEventChannels + ChatEventChannels + VoiceEventChannels + McpEventChannels +
              SystemEventChannels + ReadinessEventChannels + AgentEventChannels)
  {
    SectionsHaveNoDuplicatesTabEventAgentEvent();
    Apart29();
    NoDuplicatesAppend(
      TabEventChannels,
      ChatEventChannels);
    Apart29();
    NoDuplicatesAppend(
      TabEventChannels + ChatEventChannels,
      VoiceEventChannels);
    Apart29();
    NoDuplicatesAppend(
      TabEventChannels + ChatEventChannels + VoiceEventChannels,
      McpEventChannels);
    Apart29();
    NoDuplicatesAppend(
      TabEventChannels + ChatEventChannels + VoiceEventChannels + McpEventChannels,
      SystemEventChannels);
    Apart29();
    NoDuplicatesAppend(
      TabEventChannels + ChatEventChannels + VoiceEventChannels + McpEventChannels +
      SystemEventChannels,
      ReadinessEventChannels);
    Apart30();
    NoDuplicatesAppend(
      TabEventChannels + ChatEventChannels + VoiceEventChannels + McpEventChannels +
      SystemEventChannels + ReadinessEventChannels,
      AgentEventChannels);
  }

  /** No name of the tab events occurs among the invoke channels. */
  lemma TabEventApartFromInvoke()
    ensures forall x | x in TabEventChannels ::
              x !in
                NavigationChannels + TabChannels + ChatChannels + PolylithChatChannels +
                ModelChannels + VoiceChannels + SttChannels + RecordingWindowChannels +
                WindowControlChannels + WorkerChannels + ServerChannels + SystemChannels +
                ExtensionChannels + UtilityChannels + McpChannels + ApiEndpointChannels +
                SystemUiChannels + McpUtilityChannels + FileSystemChannels + SettingsChannels +
                TabHotkeyChannels + AgentPlanChannels + DesktopWorkerChannels +
                BrowserWorkerChannels + ApiKeyChannels + ProxyChannels
  {
    Apart31();
    Apart32();
    Apart33();
  }

  /** No name of the chat events occurs among the invoke channels. */
  lemma ChatEventApartFromInvoke()
    ensures forall x | x in ChatEventChannels ::
              x !in
                NavigationChannels + TabChannels + ChatChannels + PolylithChatChannels +
                ModelChannels + VoiceChannels + SttChannels + RecordingWindowChannels +
                WindowControlChannels + WorkerChannels + ServerChannels + SystemChannels +
                ExtensionChannels + UtilityChannels + McpChannels + ApiEndpointChannels +
                SystemUiChannels + McpUtilityChannels + FileSystemChannels + SettingsChannels +
                TabHotkeyChannels + AgentPlanChannels + DesktopWorkerChannels +
                BrowserWorkerChannels + ApiKeyChannels + ProxyChannels
  {
    Apart34();
  }

  /** No name of the voice events occurs among the invoke channels. */
  lemma VoiceEventApartFromInvoke()
    ensures forall x | x in VoiceEventChannels ::
              x !in
                NavigationChannels + TabChannels + ChatChannels + PolylithChatChannels +
                ModelChannels + VoiceChannels + SttChannels + RecordingWindowChannels +
                WindowControlChannels + WorkerChannels + ServerChannels + SystemChannels +
                ExtensionChannels + UtilityChannels + McpChannels + ApiEndpointChannels +
                SystemUiChannels + McpUtilityChannels + FileSystemChannels + SettingsChannels +
                TabHotkeyChannels + AgentPlanChannels + DesktopWorkerChannels +
                BrowserWorkerChannels + ApiKeyChannels + ProxyChannels
  {
    Apart35();
  }

  /** No name of the MCP events occurs among the invoke channels. */
  lemma McpEventApartFromInvoke()
    ensures forall x | x in McpEventChannels ::
              x !in
                NavigationChannels + TabChannels + ChatChannels + PolylithChatChannels +
                ModelChannels + VoiceChannels + SttChannels + RecordingWindowChannels +
                WindowControlChannels + WorkerChannels + ServerChannels + SystemChannels +
                ExtensionChannels + UtilityChannels + McpChannels + ApiEndpointChannels +
                SystemUiChannels + McpUtilityChannels + FileSystemChannels + SettingsChannels +
                TabHotkeyChannels + AgentPlanChannels + DesktopWorkerChannels +
                BrowserWorkerChannels + ApiKeyChannels + ProxyChannels
  {
    Apart36();
    Apart37();
  }

  /** No name of the system events occurs among the invoke channels. */
  lemma SystemEventApartFromInvoke()
    ensures forall x | x in SystemEventChannels ::
              x !in
                NavigationChannels + TabChannels + ChatChannels + PolylithChatChannels +
                ModelChannels + VoiceChannels + SttChannels + RecordingWindowChannels +
                WindowControlChannels + WorkerChannels + ServerChannels + SystemChannels +
                ExtensionChannels + UtilityChannels + McpChannels + ApiEndpointChannels +
                SystemUiChannels + McpUtilityChannels + FileSystemChannels + SettingsChannels +
                TabHotkeyChannels + AgentPlanChannels + DesktopWorkerChannels +
                BrowserWorkerChannels + ApiKeyChannels + ProxyChannels
  {
    Apart38();
    Apart39();
    Apart40();
  }

  /** No name of the readiness events occurs among the invoke channels. */
  lemma ReadinessEventApartFromInvoke()
    ensures forall x | x in ReadinessEventChannels ::
              x !in
                NavigationChannels + TabChannels + ChatChannels + PolylithChatChannels +
                ModelChannels + VoiceChannels + SttChannels + RecordingWindowChannels +
                WindowControlChannels + WorkerChannels + ServerChannels + SystemChannels +
                ExtensionChannels + UtilityChannels + McpChannels + ApiEndpointChannels +
                SystemUiChannels + McpUtilityChannels + FileSystemChannels + SettingsChannels +
                TabHotkeyChannels + AgentPlanChannels + DesktopWorkerChannels +
                BrowserWorkerChannels + ApiKeyChannels + ProxyChannels
  {
    Apart41();
  }

  /** No name of the agent events occurs among the invoke channels. */
  lemma AgentEventApartFromInvoke()
    ensures forall x | x in AgentEventChannels ::
              x !in
                NavigationChannels + TabChannels + ChatChannels + PolylithChatChannels +
                ModelChannels + VoiceChannels + SttChannels + RecordingWindowChannels +
                WindowControlChannels + WorkerChannels + ServerChannels + SystemChannels +
                ExtensionChannels + UtilityChannels + McpChannels + ApiEndpointChannels +
                SystemUiChannels + McpUtilityChannels + FileSystemChannels + SettingsChannels +
                TabHotkeyChannels + AgentPlanChannels + DesktopWorkerChannels +
                BrowserWorkerChannels + ApiKeyChannels + ProxyChannels
  {
    Apart42();
    Apart43();
    Apart44();
    Apart45();
  }

  /** No event name is also an invoke channel. */
  lemma EventsApartFromInvoke()
    ensures forall x | x in EventChannels ::
              x !in
                NavigationChannels + TabChannels + ChatChannels + PolylithChatChannels +
                ModelChannels + VoiceChannels + SttChannels + RecordingWindowChannels +
                WindowControlChannels + WorkerChannels + ServerChannels + SystemChannels +
                ExtensionChannels + UtilityChannels + McpChannels + ApiEndpointChannels +
                SystemUiChannels + McpUtilityChannels + FileSystemChannels + SettingsChannels +
                TabHotkeyChannels + AgentPlanChannels + DesktopWorkerChannels +
                BrowserWorkerChannels + ApiKeyChannels + ProxyChannels
  {
    TabEventApartFromInvoke();
    ChatEventApartFromInvoke();
    VoiceEventApartFromInvoke();
    McpEventApartFromInvoke();
    SystemEventApartFromInvoke();
    ReadinessEventApartFromInvoke();
    AgentEventApartFromInvoke();
  }

  /** The allowlist entries are pairwise distinct. */
  lemma AllowedIpcChannelsHaveNoDuplicates()
    ensures NoDuplicates(AllowedIpcChannels)
  {
    NoDuplicatesThroughProxy();
    EventsHaveNoDuplicates();
    EventsApartFromInvoke();
    NoDuplicatesAppend(
      NavigationChannels + TabChannels + ChatChannels + PolylithChatChannels + ModelChannels +
      VoiceChannels + SttChannels + RecordingWindowChannels + WindowControlChannels +
      WorkerChannels + ServerChannels + SystemChannels + ExtensionChannels + UtilityChannels +
      McpChannels + ApiEndpointChannels + SystemUiChannels + McpUtilityChannels +
      FileSystemChannels + SettingsChannels + TabHotkeyChannels + AgentPlanChannels +
      DesktopWorkerChannels + BrowserWorkerChannels + ApiKeyChannels + ProxyChannels,
      EventChannels);
  }
}
