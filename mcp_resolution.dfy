/** Which MCP servers a chat session runs with: a cascade from the session's
    own override to the project setting to the global default, followed by
    the automatic enabling of newly discovered servers
    (src/components/chat/hooks/useMcpServerResolution.ts). */
module McpResolution {
  import opened Common
  import opened Mcp

  /** The catalogue fetched for the worktree, or the empty list while it is
      not loaded (`mcpServersData ?? []`). */
  function AvailableServers(data: Option<seq<McpServerInfo>>): (r: seq<McpServerInfo>)
    ensures data.None? ==> r == []
    ensures data.Some? ==> r == data.value
  {
    data.GetOr([])
  }

  /** The session's own list of enabled servers: only looked up when the
      session id is truthy, and absent when the store has no entry. */
  function SessionOverride(sessionId: Option<string>, store: map<string, seq<string>>): (r: Option<seq<string>>)
    ensures r.Some? <==> Truthy(sessionId) && sessionId.value in store
    ensures r.Some? ==> r.value == store[sessionId.value]
  {
    if Truthy(sessionId) then Lookup(store, sessionId.value) else None
  }

  /** Session override, else the project's setting, else the global default,
      else nothing. `projectEnabled` is `None` when there is no project or its
      setting is null. An explicit empty override wins over everything. */
  function BaseEnabledMcpServers(sessionOverride: Option<seq<string>>, projectEnabled: Option<seq<string>>,
                                 globalDefault: Option<seq<string>>): (r: seq<string>)
    ensures sessionOverride.Some? ==> r == sessionOverride.value
    ensures sessionOverride.None? && projectEnabled.Some? ==> r == projectEnabled.value
    ensures sessionOverride.None? && projectEnabled.None? && globalDefault.Some? ==> r == globalDefault.value
    ensures sessionOverride.None? && projectEnabled.None? && globalDefault.None? ==> r == []
  {
    if sessionOverride.Some? then sessionOverride.value
    else if projectEnabled.Some? then projectEnabled.value
    else globalDefault.GetOr([])
  }

  /** The effective list: the base list followed by whatever the auto-enable
      rule adds (the base list itself when it adds nothing). */
  function EnabledMcpServers(available: seq<McpServerInfo>, base: seq<string>): (r: seq<string>)
    ensures |base| <= |r| && r[..|base|] == base
    ensures forall k :: |base| <= k < |r| ==> r[k] !in base && r[k] in Names(available)
    ensures forall s :: s in available && !s.disabled ==> s.name in r
    ensures NewServersToAutoEnable(available, base) == [] ==> r == base
  {
    var added := NewServersToAutoEnable(available, base);
    if |added| > 0 then
      assert forall s :: s in available && !s.disabled && s.name !in base ==> s.name in added;
      assert forall k :: |base| <= k < |base + added| ==> (base + added)[k] == added[k - |base|];
      base + added
    else base
  }

  /** The effective list is stable: resolving it once more adds nothing. */
  lemma EnabledIsStable(available: seq<McpServerInfo>, base: seq<string>)
    ensures EnabledMcpServers(available, EnabledMcpServers(available, base))
         == EnabledMcpServers(available, base)
  {
    var added := NewServersToAutoEnable(available, base);
    AutoEnableIdempotent(available, base);
    if |added| == 0 {
      assert base + added == base;
    }
  }

  /** Every name in the effective list comes either from the base list or
      from a server of the catalogue that is not disabled. */
  lemma EnabledComesFromBaseOrCatalogue(available: seq<McpServerInfo>, base: seq<string>, name: string)
    requires name in EnabledMcpServers(available, base)
    ensures name in base || exists i :: 0 <= i < |available| && !available[i].disabled && available[i].name == name
  {
    var added := NewServersToAutoEnable(available, base);
    if name !in base {
      assert name in added;
      AutoEnabledAreNotDisabled(available, base, name);
    }
  }

  /** The whole resolution, from the inputs the hook reads. */
  function ResolveEnabled(data: Option<seq<McpServerInfo>>, sessionId: Option<string>,
                          store: map<string, seq<string>>, projectEnabled: Option<seq<string>>,
                          globalDefault: Option<seq<string>>): (r: seq<string>)
    ensures forall s :: s in AvailableServers(data) && !s.disabled ==> s.name in r
  {
    EnabledMcpServers(AvailableServers(data),
      BaseEnabledMcpServers(SessionOverride(sessionId, store), projectEnabled, globalDefault))
  }

  /** An explicit empty session override still lets newly discovered servers
      in: the result is exactly the usable servers of the catalogue. */
  lemma {:induction false} EmptyOverrideEnablesUsable(data: seq<McpServerInfo>, sessionId: string,
                                                     store: map<string, seq<string>>,
                                                     projectEnabled: Option<seq<string>>,
                                                     globalDefault: Option<seq<string>>)
    requires sessionId != "" && sessionId in store && store[sessionId] == []
    ensures ResolveEnabled(Some(data), Some(sessionId), store, projectEnabled, globalDefault)
         == NewServersToAutoEnable(data, [])
  {
    var added := NewServersToAutoEnable(data, []);
    assert [] + added == added;
  }
}
