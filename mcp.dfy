/** MCP (Model Context Protocol) tool servers: which newly discovered servers
    are switched on automatically, and the `--mcp-config` payload built from
    the enabled names (src/services/mcp.ts). */
module Mcp {
  import opened Common

  /** A server's configuration object, kept as its serialised JSON text. */
  type JsonText = string

  /** One entry of the global server catalogue (`McpServerInfo`). */
  datatype McpServerInfo = McpServerInfo(name: string, disabled: bool, config: JsonText)

  /** The names of a list of servers, in order (`servers.map(s => s.name)`). */
  function Names(servers: seq<McpServerInfo>): (r: seq<string>)
    ensures |r| == |servers|
    ensures forall k :: 0 <= k < |r| ==> r[k] == servers[k].name
  {
    if servers == [] then [] else [servers[0].name] + Names(servers[1..])
  }

  /** `getNewServersToAutoEnable(allServers, currentEnabled)`: the names of
      the servers that are not disabled and not already enabled, in
      catalogue order. */
  function NewServersToAutoEnable(all: seq<McpServerInfo>, current: seq<string>): (r: seq<string>)
    ensures forall k :: 0 <= k < |r| ==> r[k] !in current
    ensures forall s :: s in all && !s.disabled && s.name !in current ==> s.name in r
    ensures forall k :: 0 <= k < |r| ==> r[k] in Names(all)
  {
    if all == [] then []
    else
      var rest := NewServersToAutoEnable(all[1..], current);
      assert forall s :: s in all[1..] ==> s in all;
      assert Names(all) == [all[0].name] + Names(all[1..]);
      if !all[0].disabled && all[0].name !in current then [all[0].name] + rest else rest
  }

  /** Every auto-enabled name belongs to a server that is not disabled. */
  lemma {:induction false} AutoEnabledAreNotDisabled(all: seq<McpServerInfo>, current: seq<string>, name: string)
    requires name in NewServersToAutoEnable(all, current)
    ensures exists i :: 0 <= i < |all| && !all[i].disabled && all[i].name == name
  {
    if all[0].disabled || all[0].name != name {
      AutoEnabledAreNotDisabled(all[1..], current, name);
      var i :| 0 <= i < |all[1..]| && !all[1..][i].disabled && all[1..][i].name == name;
      assert all[i + 1] == all[1..][i];
    }
  }

  /** The auto-enabled names keep the order of the catalogue: they are a
      subsequence of its names. */
  lemma {:induction false} AutoEnableKeepsOrder(all: seq<McpServerInfo>, current: seq<string>)
    ensures IsSubsequence(NewServersToAutoEnable(all, current), Names(all))
  {
    if all != [] {
      AutoEnableKeepsOrder(all[1..], current);
      var rest := NewServersToAutoEnable(all[1..], current);
      assert Names(all)[1..] == Names(all[1..]);
      assert Names(all) == [all[0].name] + Names(all[1..]);
      if !(!all[0].disabled && all[0].name !in current) {
        SubsequenceCons(rest, all[0].name, Names(all[1..]));
      }
    }
  }

  /** When every usable server is already enabled, nothing is auto-enabled. */
  lemma {:induction false} NothingNewWhenAllEnabled(all: seq<McpServerInfo>, current: seq<string>)
    requires forall s :: s in all && !s.disabled ==> s.name in current
    ensures NewServersToAutoEnable(all, current) == []
  {
    if all != [] {
      assert forall s :: s in all[1..] ==> s in all;
      NothingNewWhenAllEnabled(all[1..], current);
    }
  }

  /** Idempotence: once the auto-enabled names are appended, running the
      auto-enable step again adds nothing. */
  lemma AutoEnableIdempotent(all: seq<McpServerInfo>, current: seq<string>)
    ensures NewServersToAutoEnable(all, current + NewServersToAutoEnable(all, current)) == []
  {
    var added := NewServersToAutoEnable(all, current);
    NothingNewWhenAllEnabled(all, current + added);
  }

  /** With distinct server names, no name is auto-enabled twice. */
  lemma {:induction false} AutoEnableDistinct(all: seq<McpServerInfo>, current: seq<string>)
    requires Distinct(Names(all))
    ensures Distinct(NewServersToAutoEnable(all, current))
  {
    if all != [] {
      assert Names(all)[1..] == Names(all[1..]);
      AutoEnableDistinct(all[1..], current);
      var names := Names(all);
      assert forall j :: 0 <= j < |all| - 1 ==> Names(all[1..])[j] == names[j + 1];
      assert all[0].name !in Names(all[1..]);
    }
  }

  /** `allServers.find(s => s.name === name)`: the first server with that
      name. */
  function FindServer(all: seq<McpServerInfo>, name: string): (r: Option<McpServerInfo>)
    ensures r.Some? <==> name in Names(all)
    ensures r.Some? ==> r.value.name == name && r.value in all
  {
    if all == [] then None
    else if all[0].name == name then Some(all[0])
    else
      assert Names(all) == [all[0].name] + Names(all[1..]);
      FindServer(all[1..], name)
  }

  /** No server before index `i` bears `name`. */
  predicate NoneNamedBefore(all: seq<McpServerInfo>, name: string, i: int)
    requires 0 <= i <= |all|
  {
    forall j :: 0 <= j < i ==> all[j].name != name
  }

  /** The server found is the first one bearing the name. */
  lemma {:induction false} FindServerIsFirst(all: seq<McpServerInfo>, name: string)
    requires FindServer(all, name).Some?
    ensures exists i :: 0 <= i < |all| && all[i] == FindServer(all, name).value && NoneNamedBefore(all, name, i)
  {
    if all[0].name == name {
      assert all[0] == FindServer(all, name).value && NoneNamedBefore(all, name, 0);
    } else {
      var tail := all[1..];
      assert FindServer(all, name) == FindServer(tail, name);
      FindServerIsFirst(tail, name);
      var i :| 0 <= i < |tail| && tail[i] == FindServer(tail, name).value && NoneNamedBefore(tail, name, i);
      assert all[i + 1] == tail[i];
      forall j | 0 <= j < i + 1
        ensures all[j].name != name
      {
        if j > 0 {
          assert all[j] == tail[j - 1];
        }
      }
      assert NoneNamedBefore(all, name, i + 1);
    }
  }

  /** The `mcpServers` dictionary of the payload: every enabled name that
      matches a server, mapped to the configuration of the first server of
      that name. */
  function ConfigMap(all: seq<McpServerInfo>, enabled: seq<string>): map<string, JsonText> {
    map name | name in enabled && FindServer(all, name).Some? :: FindServer(all, name).value.config
  }

  /** The payload the source serialises, as the dictionary it contains;
      `None` stands for `undefined`. */
  function McpConfigOf(all: seq<McpServerInfo>, enabled: seq<string>): Option<map<string, JsonText>> {
    if enabled == [] then None
    else
      var m := ConfigMap(all, enabled);
      if |m| == 0 then None else Some(m)
  }

  /** Adding one more enabled name to the dictionary. */
  lemma ConfigMapSnoc(all: seq<McpServerInfo>, enabled: seq<string>, name: string)
    ensures ConfigMap(all, enabled + [name]) ==
      if FindServer(all, name).Some? then ConfigMap(all, enabled)[name := FindServer(all, name).value.config]
      else ConfigMap(all, enabled)
  {
    var m := ConfigMap(all, enabled + [name]);
    var m' := ConfigMap(all, enabled);
    var m2 := if FindServer(all, name).Some? then m'[name := FindServer(all, name).value.config] else m';
    assert forall k :: k in enabled + [name] <==> k in enabled || k == name;
    assert m.Keys == m2.Keys;
  }

  /** No enabled names: no payload. */
  lemma McpConfigEmpty(all: seq<McpServerInfo>)
    ensures McpConfigOf(all, []) == None
  {
  }

  /** There is no payload exactly when nothing is enabled or no enabled name
      matches a server. */
  lemma McpConfigNoneIff(all: seq<McpServerInfo>, enabled: seq<string>)
    ensures McpConfigOf(all, enabled).None? <==>
      enabled == [] || forall name :: name in enabled ==> name !in Names(all)
  {
    var m := ConfigMap(all, enabled);
    if exists name :: name in enabled && name in Names(all) {
      var name :| name in enabled && name in Names(all);
      assert name in m;
    }
  }

  /** The payload's keys are exactly the enabled names that match a server,
      and each is mapped to the configuration of the first server bearing it. */
  lemma McpConfigContents(all: seq<McpServerInfo>, enabled: seq<string>, name: string)
    requires McpConfigOf(all, enabled).Some?
    ensures name in McpConfigOf(all, enabled).value <==> name in enabled && name in Names(all)
    ensures name in McpConfigOf(all, enabled).value ==>
      exists i :: 0 <= i < |all| && all[i].name == name
        && (forall j :: 0 <= j < i ==> all[j].name != name)
        && McpConfigOf(all, enabled).value[name] == all[i].config
  {
    if name in McpConfigOf(all, enabled).value {
      FindServerIsFirst(all, name);
    }
  }

  /** `buildMcpConfigJson(allServers, enabledNames)`: the dictionary is filled
      one enabled name at a time; unknown names are skipped; no payload when
      nothing is enabled or nothing matched. */
  method BuildMcpConfigJson(all: seq<McpServerInfo>, enabled: seq<string>) returns (r: Option<map<string, JsonText>>)
    ensures r == McpConfigOf(all, enabled)
  {
    if |enabled| == 0 {
      return None;
    }
    var servers: map<string, JsonText> := map[];
    for i := 0 to |enabled|
      invariant servers == ConfigMap(all, enabled[..i])
    {
      var name := enabled[i];
      var server := FindServer(all, name);
      assert enabled[..i + 1] == enabled[..i] + [name];
      ConfigMapSnoc(all, enabled[..i], name);
      if server.Some? {
        servers := servers[name := server.value.config];
      }
    }
    assert enabled[..|enabled|] == enabled;
    if |servers| == 0 {
      return None;
    }
    return Some(servers);
  }
}
