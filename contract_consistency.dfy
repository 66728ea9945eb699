/**
 * How the MCP contract's channel names relate to the IPC allowlist of the
 * shared types package. The MCP contract names seven events and eight
 * requests; the allowlist, from which the allowed-channels.json of the main
 * and preload processes is generated, carries only some of them.
 */
module ContractConsistency {
  import opened IpcChannels
  import opened McpContracts
  import opened SharedMcpContracts

  /** Of the seven MCP event channels, only `mcp:state-update` passes `isAllowedChannel`. */
  lemma OnlyStateUpdateEventAllowed()
    ensures forall t: EventType :: IsAllowedChannel(EventName(t)) <==> t == StateUpdate
  {
    McpNamesRejected();
    assert "mcp:state-update" in McpEventChannels;
  }

  /** Every MCP request channel except `mcp:force-auto-connect` passes `isAllowedChannel`. */
  lemma RequestsAllowedExceptForceAutoConnect()
    ensures forall t: RequestType :: IsAllowedChannel(RequestName(t)) <==> t != ForceAutoConnect
  {
    McpNamesRejected();
    assert "mcp:get-system-state" in ApiEndpointChannels + SystemUiChannels + McpUtilityChannels;
    assert forall t: RequestType | t !in {GetSystemState, ForceAutoConnect} :: RequestName(t) in McpChannels;
  }
}
