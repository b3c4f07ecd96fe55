/** The router manager: the router list and the selected router, the PPPoE
    secrets, hotspot servers and firewall rules of the selected router (local
    mock tables, each row Enabled or Disabled), and the system log, a
    newest-first buffer of at most 50 entries that a heartbeat extends while
    the log tab of a selected router is open. Random ids and draws, clock
    readings and dialog answers are parameters. */
module Mikrotik {
  import opened Wrappers
  import opened Seqs
  import opened Keyed

  /** The Enabled/Disabled flag every table row carries. */
  datatype Switch = Enabled | Disabled

  function Flipped(s: Switch): (r: Switch)
    ensures r != s
  {
    if s == Enabled then Disabled else Enabled
  }

  datatype LinkState = Up | Down
  datatype InterfaceStats = InterfaceStats(name: string, kind: string, status: LinkState, rx: string, tx: string)

  datatype RouterStatus = Connected | Disconnected
  datatype RouterDetails = RouterDetails(
    id: string,
    name: string,
    ip: string,
    username: string,
    status: RouterStatus,
    cpu: int,
    memory: string,
    uptime: string,
    interfaces: seq<InterfaceStats>)

  datatype PPPoESecret = PPPoESecret(
    id: string, name: string, password: string, service: string, profile: string,
    status: Switch, lastCaller: Option<string>)

  datatype HotspotServer = HotspotServer(
    id: string, name: string, iface: string, profile: string, status: Switch, addressPool: string)

  datatype Chain = Forward | Input | Output | SrcNat | DstNat
  datatype Action = Accept | Drop | Masquerade | Redirect
  datatype FirewallRule = FirewallRule(
    id: string, chain: Chain, action: Action, srcAddress: Option<string>, dstAddress: Option<string>,
    comment: string, status: Switch)

  datatype LogType = Info | Error | Warning
  datatype SystemLog = SystemLog(id: string, time: string, topics: string, message: string, kind: LogType)

  function RouterId(r: RouterDetails): string { r.id }
  function SecretId(s: PPPoESecret): string { s.id }
  function ServerId(h: HotspotServer): string { h.id }
  function RuleId(f: FirewallRule): string { f.id }

  const InitialRouters: seq<RouterDetails> := [
    RouterDetails("1", "Main Core Router", "192.168.88.1", "admin", Connected, 12, "128MB / 512MB", "15d 04h 22m", [
      InterfaceStats("ether1-WAN", "ether", Up, "45 Mbps", "12 Mbps"),
      InterfaceStats("ether2-LAN", "ether", Up, "10 Mbps", "40 Mbps"),
      InterfaceStats("wlan1", "wifi", Up, "2 Mbps", "5 Mbps")
    ])
  ]

  const InitialSecrets: seq<PPPoESecret> := [
    PPPoESecret("p1", "user01", "123", "pppoe", "5Mbps_Profile", Enabled, Some("00:1A:2B:3C:4D:5E")),
    PPPoESecret("p2", "user02", "456", "pppoe", "10Mbps_Profile", Disabled, None),
    PPPoESecret("p3", "user03", "789", "any", "20Mbps_Profile", Enabled, None)
  ]

  const InitialServers: seq<HotspotServer> := [
    HotspotServer("h1", "hotspot1", "bridge-local", "hsprof1", Enabled, "hs-pool-1"),
    HotspotServer("h2", "hotspot-guest", "wlan1", "default", Disabled, "none")
  ]

  const InitialRules: seq<FirewallRule> := [
    FirewallRule("f1", Forward, Drop, Some("10.5.50.12"), None, "Block malicious user", Enabled),
    FirewallRule("f2", SrcNat, Masquerade, None, Some("0.0.0.0/0"), "Main Internet NAT", Enabled),
    FirewallRule("f3", Input, Accept, Some("192.168.88.0/24"), None, "Allow local management", Enabled)
  ]

  const InitialLogs: seq<SystemLog> := [
    SystemLog("l1", "10:45:22", "system,info", "User admin logged in via webfig from 192.168.88.25", Info),
    SystemLog("l2", "10:46:05", "interface,info", "ether1-WAN link up (1Gbps Full Duplex)", Info),
    SystemLog("l3", "10:50:11", "firewall,warning", "Drop forward rule matched: src 10.5.50.12", Warning),
    SystemLog("l4", "11:02:44", "pppoe,info", "user01 connected via ether2-LAN", Info)
  ]

  /** The number of entries the log keeps. */
  const LogCapacity: nat := 50

  /** `[entry, ...logs].slice(0, 50)`. */
  function PushLog(entry: SystemLog, logs: seq<SystemLog>): (r: seq<SystemLog>)
    ensures |r| == if |logs| + 1 <= LogCapacity then |logs| + 1 else LogCapacity
    ensures r[0] == entry
    ensures r[1..] <= logs
  {
    var full := [entry] + logs;
    var r := if |full| <= LogCapacity then full else full[..LogCapacity];
    assert r[1..] == logs[..|r| - 1];
    r
  }

  /** Under the cap, a push loses nothing: the old log follows the new entry whole. */
  lemma PushLogKeepsAll(entry: SystemLog, logs: seq<SystemLog>)
    requires |logs| < LogCapacity
    ensures PushLog(entry, logs) == [entry] + logs
  {
  }

  /** At the cap, a push drops exactly the oldest entry. */
  lemma PushLogDropsOldest(entry: SystemLog, logs: seq<SystemLog>)
    requires |logs| == LogCapacity
    ensures PushLog(entry, logs) == [entry] + logs[..LogCapacity - 1]
  {
  }

  /** Two pushes leave their two entries at the head of the log, newest first. */
  lemma {:induction false} PushLogOrder(a: SystemLog, b: SystemLog, logs: seq<SystemLog>)
    ensures PushLog(b, PushLog(a, logs))[..2] == [b, a]
  {
    var once := PushLog(a, logs);
    var twice := PushLog(b, once);
    assert twice[1..][0] == once[0];
  }

  /** The entry one heartbeat writes. */
  function HeartbeatEntry(id: string, time: string): (l: SystemLog)
    ensures l.id == id && l.time == time && l.kind == Info && l.topics == "system,info"
  {
    SystemLog(id, time, "system,info", "Monitoring active session heartbeat...", Info)
  }

  /** `handleAddRouter`: a Connected router with the form's name, address and
      user, a CPU load `Math.floor(r * 20)` and a single idle ether1. */
  function NewRouter(id: string, name: string, ip: string, username: string, cpuDraw: real): (r: RouterDetails)
    requires 0.0 <= cpuDraw < 1.0
    ensures r.id == id && r.name == name && r.ip == ip && r.username == username
    ensures r.status == Connected && 0 <= r.cpu < 20
    ensures |r.interfaces| == 1 && r.interfaces[0].name == "ether1" && r.interfaces[0].status == Up
  {
    assert cpuDraw * 20.0 < 20.0;
    RouterDetails(id, name, ip, username, Connected, (cpuDraw * 20.0).Floor, "256MB / 1024MB", "0h 01m",
                  [InterfaceStats("ether1", "ether", Up, "0", "0")])
  }

  /** The selection after deleting router `id`: cleared when it was the deleted router. */
  function SelectionAfterRouterDelete(selected: Option<RouterDetails>, id: string): (r: Option<RouterDetails>)
    ensures selected.Some? && selected.value.id == id ==> r.None?
    ensures !(selected.Some? && selected.value.id == id) ==> r == selected
  {
    if selected.Some? && selected.value.id == id then None else selected
  }

  function FlipSecret(): PPPoESecret -> PPPoESecret
  {
    (s: PPPoESecret) => s.(status := Flipped(s.status))
  }

  function FlipServer(): HotspotServer -> HotspotServer
  {
    (h: HotspotServer) => h.(status := Flipped(h.status))
  }

  function FlipRule(): FirewallRule -> FirewallRule
  {
    (f: FirewallRule) => f.(status := Flipped(f.status))
  }

  /** `togglePppoeStatus`: the secrets with `id` switch between Enabled and Disabled. */
  function ToggleSecret(secrets: seq<PPPoESecret>, id: string): (r: seq<PPPoESecret>)
    ensures |r| == |secrets|
    ensures forall i :: 0 <= i < |r| ==> r[i].id == secrets[i].id
    ensures forall i :: 0 <= i < |r| && secrets[i].id == id ==> r[i] == secrets[i].(status := Flipped(secrets[i].status))
    ensures forall i :: 0 <= i < |r| && secrets[i].id != id ==> r[i] == secrets[i]
  {
    UpdateWhere(secrets, SecretId, id, FlipSecret())
  }

  /** `toggleHotspotStatus`. */
  function ToggleServer(servers: seq<HotspotServer>, id: string): (r: seq<HotspotServer>)
    ensures |r| == |servers|
    ensures forall i :: 0 <= i < |r| ==> r[i].id == servers[i].id
    ensures forall i :: 0 <= i < |r| && servers[i].id == id ==> r[i] == servers[i].(status := Flipped(servers[i].status))
    ensures forall i :: 0 <= i < |r| && servers[i].id != id ==> r[i] == servers[i]
  {
    UpdateWhere(servers, ServerId, id, FlipServer())
  }

  /** `toggleFirewallStatus`. */
  function ToggleRule(rules: seq<FirewallRule>, id: string): (r: seq<FirewallRule>)
    ensures |r| == |rules|
    ensures forall i :: 0 <= i < |r| ==> r[i].id == rules[i].id
    ensures forall i :: 0 <= i < |r| && rules[i].id == id ==> r[i] == rules[i].(status := Flipped(rules[i].status))
    ensures forall i :: 0 <= i < |r| && rules[i].id != id ==> r[i] == rules[i]
  {
    UpdateWhere(rules, RuleId, id, FlipRule())
  }

  lemma ToggleSecretTwice(secrets: seq<PPPoESecret>, id: string)
    ensures ToggleSecret(ToggleSecret(secrets, id), id) == secrets
  {
    UpdateInvolutive(secrets, SecretId, id, FlipSecret());
  }

  lemma ToggleServerTwice(servers: seq<HotspotServer>, id: string)
    ensures ToggleServer(ToggleServer(servers, id), id) == servers
  {
    UpdateInvolutive(servers, ServerId, id, FlipServer());
  }

  lemma ToggleRuleTwice(rules: seq<FirewallRule>, id: string)
    ensures ToggleRule(ToggleRule(rules, id), id) == rules
  {
    UpdateInvolutive(rules, RuleId, id, FlipRule());
  }

  function SecretEnabled(): PPPoESecret -> bool
  {
    (s: PPPoESecret) => s.status == Enabled
  }

  function ServerEnabled(): HotspotServer -> bool
  {
    (h: HotspotServer) => h.status == Enabled
  }

  /** The "active PPPoE" count: the Enabled secrets. */
  function ActiveSecrets(secrets: seq<PPPoESecret>): (n: nat)
    ensures n <= |secrets|
    ensures n == |secrets| <==> forall i :: 0 <= i < |secrets| ==> secrets[i].status == Enabled
    ensures n == 0 <==> forall i :: 0 <= i < |secrets| ==> secrets[i].status == Disabled
    ensures n == |set i | 0 <= i < |secrets| && secrets[i].status == Enabled|
  {
    CountAll(secrets, SecretEnabled());
    CountIndices(secrets, SecretEnabled());
    assert PassingIndices(secrets, SecretEnabled()) == set i | 0 <= i < |secrets| && secrets[i].status == Enabled;
    |Filter(secrets, SecretEnabled())|
  }

  /** The "active hotspot" count: the Enabled servers. */
  function ActiveServers(servers: seq<HotspotServer>): (n: nat)
    ensures n <= |servers|
    ensures n == |servers| <==> forall i :: 0 <= i < |servers| ==> servers[i].status == Enabled
    ensures n == 0 <==> forall i :: 0 <= i < |servers| ==> servers[i].status == Disabled
    ensures n == |set i | 0 <= i < |servers| && servers[i].status == Enabled|
  {
    CountAll(servers, ServerEnabled());
    CountIndices(servers, ServerEnabled());
    assert PassingIndices(servers, ServerEnabled()) == set i | 0 <= i < |servers| && servers[i].status == Enabled;
    |Filter(servers, ServerEnabled())|
  }

  function SecretDisabled(): PPPoESecret -> bool
  {
    (s: PPPoESecret) => s.status == Disabled
  }

  function ServerDisabled(): HotspotServer -> bool
  {
    (h: HotspotServer) => h.status == Disabled
  }

  /** Every secret is Enabled or Disabled: the active count and the Disabled count make up the table. */
  lemma SecretsPartition(secrets: seq<PPPoESecret>)
    ensures ActiveSecrets(secrets) + |Filter(secrets, SecretDisabled())| == |secrets|
  {
    CountComplement(secrets, SecretEnabled(), SecretDisabled());
  }

  /** Every server is Enabled or Disabled: the active count and the Disabled count make up the table. */
  lemma ServersPartition(servers: seq<HotspotServer>)
    ensures ActiveServers(servers) + |Filter(servers, ServerDisabled())| == |servers|
  {
    CountComplement(servers, ServerEnabled(), ServerDisabled());
  }

  /** Toggling a secret whose id no other secret shares moves the count by exactly one. */
  lemma ToggleSecretCount(secrets: seq<PPPoESecret>, id: string, i: nat)
    requires i < |secrets| && secrets[i].id == id
    requires forall j :: 0 <= j < |secrets| && j != i ==> secrets[j].id != id
    ensures secrets[i].status == Enabled ==> ActiveSecrets(ToggleSecret(secrets, id)) == ActiveSecrets(secrets) - 1
    ensures secrets[i].status == Disabled ==> ActiveSecrets(ToggleSecret(secrets, id)) == ActiveSecrets(secrets) + 1
  {
    UpdateOneCount(secrets, SecretId, id, FlipSecret(), SecretEnabled(), i);
  }

  /** Toggling a server whose id no other server shares moves the count by exactly one. */
  lemma ToggleServerCount(servers: seq<HotspotServer>, id: string, i: nat)
    requires i < |servers| && servers[i].id == id
    requires forall j :: 0 <= j < |servers| && j != i ==> servers[j].id != id
    ensures servers[i].status == Enabled ==> ActiveServers(ToggleServer(servers, id)) == ActiveServers(servers) - 1
    ensures servers[i].status == Disabled ==> ActiveServers(ToggleServer(servers, id)) == ActiveServers(servers) + 1
  {
    UpdateOneCount(servers, ServerId, id, FlipServer(), ServerEnabled(), i);
  }

  /** The seed tables show 2 active PPPoE secrets and 1 active hotspot server. */
  lemma InitialCounts()
    ensures ActiveSecrets(InitialSecrets) == 2
    ensures ActiveServers(InitialServers) == 1
  {
    var ps, hs := InitialSecrets, InitialServers;
    assert ps == [ps[0], ps[1], ps[2]];
    assert hs == [hs[0], hs[1]];
    CountThree(ps[0], ps[1], ps[2], SecretEnabled());
    CountTwo(hs[0], hs[1], ServerEnabled());
  }

  datatype Tab = InterfacesTab | PPPoETab | HotspotTab | FirewallTab | LogTab

  /** The router manager's state. */
  class RouterManager {
    var routers: seq<RouterDetails>
    var selectedRouter: Option<RouterDetails>
    var activeTab: Tab
    var pppoeSecrets: seq<PPPoESecret>
    var hotspotServers: seq<HotspotServer>
    var firewallRules: seq<FirewallRule>
    var systemLogs: seq<SystemLog>
    var editingPppoe: Option<PPPoESecret>
    var editingHotspot: Option<HotspotServer>
    var editingFirewall: Option<FirewallRule>

    /** Every log the manager keeps fits the buffer. */
    predicate Valid()
      reads this
    {
      |systemLogs| <= LogCapacity
    }

    /** The seed tables, no router selected, the interfaces tab open. */
    constructor ()
      ensures Valid()
      ensures routers == InitialRouters && selectedRouter == None && activeTab == InterfacesTab
      ensures pppoeSecrets == InitialSecrets && hotspotServers == InitialServers
      ensures firewallRules == InitialRules && systemLogs == InitialLogs
      ensures editingPppoe == None && editingHotspot == None && editingFirewall == None
    {
      routers := InitialRouters;
      selectedRouter := None;
      activeTab := InterfacesTab;
      pppoeSecrets := InitialSecrets;
      hotspotServers := InitialServers;
      firewallRules := InitialRules;
      systemLogs := InitialLogs;
      editingPppoe := None;
      editingHotspot := None;
      editingFirewall := None;
    }

    /** Opens a router's detail panel, or closes it with None. */
    method SelectRouter(r: Option<RouterDetails>)
      modifies this
      ensures selectedRouter == r
      ensures routers == old(routers) && activeTab == old(activeTab) && systemLogs == old(systemLogs)
      ensures pppoeSecrets == old(pppoeSecrets) && hotspotServers == old(hotspotServers) && firewallRules == old(firewallRules)
      ensures editingPppoe == old(editingPppoe) && editingHotspot == old(editingHotspot) && editingFirewall == old(editingFirewall)
    {
      selectedRouter := r;
    }

    method SelectTab(t: Tab)
      modifies this
      ensures activeTab == t
      ensures routers == old(routers) && selectedRouter == old(selectedRouter) && systemLogs == old(systemLogs)
      ensures pppoeSecrets == old(pppoeSecrets) && hotspotServers == old(hotspotServers) && firewallRules == old(firewallRules)
      ensures editingPppoe == old(editingPppoe) && editingHotspot == old(editingHotspot) && editingFirewall == old(editingFirewall)
    {
      activeTab := t;
    }

    /** One tick of the 5-second heartbeat: it runs only while a router is
        selected and its log tab is open, and pushes one entry into the log. */
    method Heartbeat(id: string, time: string)
      requires Valid()
      modifies this
      ensures Valid()
      ensures selectedRouter.Some? && activeTab == LogTab ==> systemLogs == PushLog(HeartbeatEntry(id, time), old(systemLogs))
      ensures !(selectedRouter.Some? && activeTab == LogTab) ==> systemLogs == old(systemLogs)
      ensures routers == old(routers) && selectedRouter == old(selectedRouter) && activeTab == old(activeTab)
      ensures pppoeSecrets == old(pppoeSecrets) && hotspotServers == old(hotspotServers) && firewallRules == old(firewallRules)
      ensures editingPppoe == old(editingPppoe) && editingHotspot == old(editingHotspot) && editingFirewall == old(editingFirewall)
    {
      if selectedRouter.Some? && activeTab == LogTab {
        systemLogs := PushLog(HeartbeatEntry(id, time), systemLogs);
      }
    }

    /** `handleAddRouter`: appends one new router. */
    method AddRouter(id: string, name: string, ip: string, username: string, cpuDraw: real)
      requires 0.0 <= cpuDraw < 1.0
      modifies this
      ensures routers == old(routers) + [NewRouter(id, name, ip, username, cpuDraw)]
      ensures selectedRouter == old(selectedRouter) && activeTab == old(activeTab) && systemLogs == old(systemLogs)
      ensures pppoeSecrets == old(pppoeSecrets) && hotspotServers == old(hotspotServers) && firewallRules == old(firewallRules)
      ensures editingPppoe == old(editingPppoe) && editingHotspot == old(editingHotspot) && editingFirewall == old(editingFirewall)
    {
      routers := routers + [NewRouter(id, name, ip, username, cpuDraw)];
    }

    /** `handleDeleteRouter`: once confirmed, removes the routers with `id`
        and closes the detail panel if it shows that router. */
    method DeleteRouter(id: string, confirmed: bool)
      modifies this
      ensures confirmed ==> routers == RemoveKey(old(routers), RouterId, id)
      ensures confirmed ==> selectedRouter == SelectionAfterRouterDelete(old(selectedRouter), id)
      ensures !confirmed ==> routers == old(routers) && selectedRouter == old(selectedRouter)
      ensures activeTab == old(activeTab) && systemLogs == old(systemLogs)
      ensures pppoeSecrets == old(pppoeSecrets) && hotspotServers == old(hotspotServers) && firewallRules == old(firewallRules)
      ensures editingPppoe == old(editingPppoe) && editingHotspot == old(editingHotspot) && editingFirewall == old(editingFirewall)
    {
      if confirmed {
        routers := RemoveKey(routers, RouterId, id);
        selectedRouter := SelectionAfterRouterDelete(selectedRouter, id);
      }
    }

    method TogglePppoe(id: string)
      modifies this
      ensures pppoeSecrets == ToggleSecret(old(pppoeSecrets), id)
      ensures routers == old(routers) && selectedRouter == old(selectedRouter) && activeTab == old(activeTab) && systemLogs == old(systemLogs)
      ensures hotspotServers == old(hotspotServers) && firewallRules == old(firewallRules)
      ensures editingPppoe == old(editingPppoe) && editingHotspot == old(editingHotspot) && editingFirewall == old(editingFirewall)
    {
      pppoeSecrets := ToggleSecret(pppoeSecrets, id);
    }

    /** Opens the PPPoE dialog on a secret, or keeps the dialog's edits so far. */
    method EditPppoe(draft: Option<PPPoESecret>)
      modifies this
      ensures editingPppoe == draft
      ensures routers == old(routers) && selectedRouter == old(selectedRouter) && activeTab == old(activeTab) && systemLogs == old(systemLogs)
      ensures pppoeSecrets == old(pppoeSecrets) && hotspotServers == old(hotspotServers) && firewallRules == old(firewallRules)
      ensures editingHotspot == old(editingHotspot) && editingFirewall == old(editingFirewall)
    {
      editingPppoe := draft;
    }

    /** `handleSavePppoe`: the secrets with the draft's id become the draft and
        the dialog closes; with no dialog open nothing changes. */
    method SavePppoe()
      modifies this
      ensures old(editingPppoe).Some? ==> pppoeSecrets == ReplaceKey(old(pppoeSecrets), SecretId, old(editingPppoe).value)
      ensures old(editingPppoe).None? ==> pppoeSecrets == old(pppoeSecrets)
      ensures editingPppoe == None
      ensures routers == old(routers) && selectedRouter == old(selectedRouter) && activeTab == old(activeTab) && systemLogs == old(systemLogs)
      ensures hotspotServers == old(hotspotServers) && firewallRules == old(firewallRules)
      ensures editingHotspot == old(editingHotspot) && editingFirewall == old(editingFirewall)
    {
      if editingPppoe.Some? {
        pppoeSecrets := ReplaceKey(pppoeSecrets, SecretId, editingPppoe.value);
        editingPppoe := None;
      }
    }

    method DeletePppoe(id: string, confirmed: bool)
      modifies this
      ensures confirmed ==> pppoeSecrets == RemoveKey(old(pppoeSecrets), SecretId, id)
      ensures !confirmed ==> pppoeSecrets == old(pppoeSecrets)
      ensures routers == old(routers) && selectedRouter == old(selectedRouter) && activeTab == old(activeTab) && systemLogs == old(systemLogs)
      ensures hotspotServers == old(hotspotServers) && firewallRules == old(firewallRules)
      ensures editingPppoe == old(editingPppoe) && editingHotspot == old(editingHotspot) && editingFirewall == old(editingFirewall)
    {
      if confirmed {
        pppoeSecrets := RemoveKey(pppoeSecrets, SecretId, id);
      }
    }

    method ToggleHotspot(id: string)
      modifies this
      ensures hotspotServers == ToggleServer(old(hotspotServers), id)
      ensures routers == old(routers) && selectedRouter == old(selectedRouter) && activeTab == old(activeTab) && systemLogs == old(systemLogs)
      ensures pppoeSecrets == old(pppoeSecrets) && firewallRules == old(firewallRules)
      ensures editingPppoe == old(editingPppoe) && editingHotspot == old(editingHotspot) && editingFirewall == old(editingFirewall)
    {
      hotspotServers := ToggleServer(hotspotServers, id);
    }

    method EditHotspot(draft: Option<HotspotServer>)
      modifies this
      ensures editingHotspot == draft
      ensures routers == old(routers) && selectedRouter == old(selectedRouter) && activeTab == old(activeTab) && systemLogs == old(systemLogs)
      ensures pppoeSecrets == old(pppoeSecrets) && hotspotServers == old(hotspotServers) && firewallRules == old(firewallRules)
      ensures editingPppoe == old(editingPppoe) && editingFirewall == old(editingFirewall)
    {
      editingHotspot := draft;
    }

    /** `handleSaveHotspot`. */
    method SaveHotspot()
      modifies this
      ensures old(editingHotspot).Some? ==> hotspotServers == ReplaceKey(old(hotspotServers), ServerId, old(editingHotspot).value)
      ensures old(editingHotspot).None? ==> hotspotServers == old(hotspotServers)
      ensures editingHotspot == None
      ensures routers == old(routers) && selectedRouter == old(selectedRouter) && activeTab == old(activeTab) && systemLogs == old(systemLogs)
      ensures pppoeSecrets == old(pppoeSecrets) && firewallRules == old(firewallRules)
      ensures editingPppoe == old(editingPppoe) && editingFirewall == old(editingFirewall)
    {
      if editingHotspot.Some? {
        hotspotServers := ReplaceKey(hotspotServers, ServerId, editingHotspot.value);
        editingHotspot := None;
      }
    }

    method DeleteHotspot(id: string, confirmed: bool)
      modifies this
      ensures confirmed ==> hotspotServers == RemoveKey(old(hotspotServers), ServerId, id)
      ensures !confirmed ==> hotspotServers == old(hotspotServers)
      ensures routers == old(routers) && selectedRouter == old(selectedRouter) && activeTab == old(activeTab) && systemLogs == old(systemLogs)
      ensures pppoeSecrets == old(pppoeSecrets) && firewallRules == old(firewallRules)
      ensures editingPppoe == old(editingPppoe) && editingHotspot == old(editingHotspot) && editingFirewall == old(editingFirewall)
    {
      if confirmed {
        hotspotServers := RemoveKey(hotspotServers, ServerId, id);
      }
    }

    method ToggleFirewall(id: string)
      modifies this
      ensures firewallRules == ToggleRule(old(firewallRules), id)
      ensures routers == old(routers) && selectedRouter == old(selectedRouter) && activeTab == old(activeTab) && systemLogs == old(systemLogs)
      ensures pppoeSecrets == old(pppoeSecrets) && hotspotServers == old(hotspotServers)
      ensures editingPppoe == old(editingPppoe) && editingHotspot == old(editingHotspot) && editingFirewall == old(editingFirewall)
    {
      firewallRules := ToggleRule(firewallRules, id);
    }

    method EditFirewall(draft: Option<FirewallRule>)
      modifies this
      ensures editingFirewall == draft
      ensures routers == old(routers) && selectedRouter == old(selectedRouter) && activeTab == old(activeTab) && systemLogs == old(systemLogs)
      ensures pppoeSecrets == old(pppoeSecrets) && hotspotServers == old(hotspotServers) && firewallRules == old(firewallRules)
      ensures editingPppoe == old(editingPppoe) && editingHotspot == old(editingHotspot)
    {
      editingFirewall := draft;
    }

    /** `handleSaveFirewall`. */
    method SaveFirewall()
      modifies this
      ensures old(editingFirewall).Some? ==> firewallRules == ReplaceKey(old(firewallRules), RuleId, old(editingFirewall).value)
      ensures old(editingFirewall).None? ==> firewallRules == old(firewallRules)
      ensures editingFirewall == None
      ensures routers == old(routers) && selectedRouter == old(selectedRouter) && activeTab == old(activeTab) && systemLogs == old(systemLogs)
      ensures pppoeSecrets == old(pppoeSecrets) && hotspotServers == old(hotspotServers)
      ensures editingPppoe == old(editingPppoe) && editingHotspot == old(editingHotspot)
    {
      if editingFirewall.Some? {
        firewallRules := ReplaceKey(firewallRules, RuleId, editingFirewall.value);
        editingFirewall := None;
      }
    }

    method DeleteFirewall(id: string, confirmed: bool)
      modifies this
      ensures confirmed ==> firewallRules == RemoveKey(old(firewallRules), RuleId, id)
      ensures !confirmed ==> firewallRules == old(firewallRules)
      ensures routers == old(routers) && selectedRouter == old(selectedRouter) && activeTab == old(activeTab) && systemLogs == old(systemLogs)
      ensures pppoeSecrets == old(pppoeSecrets) && hotspotServers == old(hotspotServers)
      ensures editingPppoe == old(editingPppoe) && editingHotspot == old(editingHotspot) && editingFirewall == old(editingFirewall)
    {
      if confirmed {
        firewallRules := RemoveKey(firewallRules, RuleId, id);
      }
    }
  }
}
