/** The exit-host scripts: a compiler from gateway rows to commands, and what the commands do
    to a host. */
module ExitHost {
  import opened Common
  import opened Kernel

  /** A rendered WireGuard configuration: its text, and what wg-quick reads in it. */
  datatype Conf = Conf(text: string, allowed: Bits, mtu: nat)

  datatype Gateway = Gateway(name: string, lanIp: Option<Bits>, slot: Option<nat>)
  datatype Entry = Entry(gw: Gateway, ready: bool, conf: Option<Conf>)

  /** The group's parent interface, LAN gateway and LAN network (whose length is the prefix length). */
  datatype Group = Group(parent: string, lanGw: Bits, lanNet: Bits)

  // ---------------------------------------------------------------- names

  predicate Alnum(c: char) {
    'a' <= c <= 'z' || 'A' <= c <= 'Z' || '0' <= c <= '9'
  }

  function OnlyAlnum(s: string): string {
    if s == [] then [] else if Alnum(s[0]) then [s[0]] + OnlyAlnum(s[1..]) else OnlyAlnum(s[1..])
  }

  function WgName(name: string): string {
    var base := "wg-" + OnlyAlnum(name);
    if |base| <= 15 then base else base[..15]
  }

  function MacName(slot: nat): string { "mac_" + Decimal(slot) }

  predicate Contains(s: string, part: string) {
    part <= s || (s != [] && Contains(s[1..], part))
  }

  predicate ValidConf(conf: Option<Conf>) {
    conf.Some? && Contains(conf.value.text, "[Interface]") && Contains(conf.value.text, "[Peer]") &&
    Contains(conf.value.text, "PrivateKey")
  }

  // ---------------------------------------------------------------- the host

  datatype Link = Macvlan(parent: string, addr: Option<(Bits, nat)>, up: bool) | Tunnel(conf: Conf, mtu: nat) | Other

  /** A FORWARD rule accepting traffic from one interface to another. */
  datatype Fwd = Fwd(from: string, to: string, established: bool) | OtherFwd(id: nat)

  /** Routes of all tables together, keyed by table and prefix. */
  datatype Exit = Exit(
    links: map<string, Link>,
    routes: map<(nat, Bits), Route>,
    rules: seq<Rule>,
    forward: seq<Fwd>,
    masquerade: seq<string>,
    confs: map<string, Conf>,
    names: seq<(nat, string)>)

  datatype Command =
    | LinkDel(dev: string)
    | MacAdd(dev: string, parent: string)
    | AddrAdd(dev: string, ip: Bits, len: nat)
    | LinkUp(dev: string)
    | NameTable(id: nat, name: string)
    | RouteVia(table: nat, via: Bits, dev: string)
    | RouteLink(table: nat, net: Bits, dev: string)
    | RuleRemove(sel: Selector, table: nat)
    | RulePut(rule: Rule)
    | WriteConf(dev: string, conf: Conf)
    | QuickDown(dev: string)
    | QuickUp(dev: string)
    | SetMtu(dev: string, mtu: nat)
    | Accept(fwd: Fwd)
    | Masquerade(dev: string)
    | Unaccept(fwd: Fwd)
    | Unmasquerade(dev: string)
    | RemoveConf(dev: string)
    | FlushTable(table: nat)

  /** Deleting a link takes its routes, in every table, with it. */
  function DropLink(s: Exit, dev: string): Exit {
    s.(links := s.links - {dev}, routes := map k | k in s.routes && s.routes[k].dev != dev :: s.routes[k])
  }

  predicate Reaches(link: Link, via: Bits) {
    link.Macvlan? && link.up && link.addr.Some? && link.addr.value.1 <= |link.addr.value.0| &&
    link.addr.value.0[..link.addr.value.1] <= via
  }

  function Without<T(==)>(s: seq<T>, x: T): seq<T> {
    if s == [] then [] else if s[0] == x then s[1..] else [s[0]] + Without(s[1..], x)
  }

  function Ensure<T(==)>(s: seq<T>, x: T): seq<T> {
    if x in s then s else s + [x]
  }

  predicate Named(names: seq<(nat, string)>, id: nat) {
    exists line :: line in names && line.0 == id
  }

  /** A route written to table 0 goes to main. */
  function Written(table: nat): nat { if table == 0 then MAIN else table }

  /** One command; `works` is the configurations wg-quick can bring up. A command that fails
      leaves the host alone, and the script goes on: a block guarded by `||` runs without
      `set -e`, and the teardown guards every line. */
  function Exec(c: Command, s: Exit, works: set<Conf>): Exit {
    match c
    case LinkDel(dev) => if dev in s.links then DropLink(s, dev) else s
    case MacAdd(dev, parent) =>
      if parent in s.links && dev !in s.links then s.(links := s.links[dev := Macvlan(parent, None, false)]) else s
    case AddrAdd(dev, ip, len) =>
      if dev in s.links && s.links[dev].Macvlan? && s.links[dev].addr.None?
      then s.(links := s.links[dev := s.links[dev].(addr := Some((ip, len)))]) else s
    case LinkUp(dev) =>
      if dev in s.links && s.links[dev].Macvlan? then s.(links := s.links[dev := s.links[dev].(up := true)]) else s
    case NameTable(id, name) => if Named(s.names, id) then s else s.(names := s.names + [(id, name)])
    case RouteVia(table, via, dev) =>
      if dev in s.links && Reaches(s.links[dev], via) then s.(routes := s.routes[(Written(table), []) := Route(Some(via), dev)]) else s
    case RouteLink(table, net, dev) =>
      if dev in s.links && s.links[dev].Macvlan? && s.links[dev].up
      then s.(routes := s.routes[(Written(table), net) := Route(None, dev)]) else s
    case RuleRemove(sel, table) =>
      (match RuleDel(s.rules, BySel(sel, table)) case Some(rest) => s.(rules := rest) case None => s)
    case RulePut(rule) => s.(rules := Insert(s.rules, rule))
    case WriteConf(dev, conf) => s.(confs := s.confs[dev := conf])
    case QuickDown(dev) => if dev in s.confs && dev in s.links && s.links[dev].Tunnel? then DropLink(s, dev) else s
    case QuickUp(dev) =>
      if dev in s.confs && dev !in s.links && s.confs[dev] in works && (MAIN, s.confs[dev].allowed) !in s.routes
      then s.(links := s.links[dev := Tunnel(s.confs[dev], s.confs[dev].mtu)],
              routes := s.routes[(MAIN, s.confs[dev].allowed) := Route(None, dev)])
      else s
    case SetMtu(dev, mtu) =>
      if dev in s.links && s.links[dev].Tunnel? then s.(links := s.links[dev := s.links[dev].(mtu := mtu)]) else s
    case Accept(fwd) => s.(forward := Ensure(s.forward, fwd))
    case Masquerade(dev) => s.(masquerade := Ensure(s.masquerade, dev))
    case Unaccept(fwd) => s.(forward := Without(s.forward, fwd))
    case Unmasquerade(dev) => s.(masquerade := Without(s.masquerade, dev))
    case RemoveConf(dev) => s.(confs := s.confs - {dev})
    case FlushTable(table) => // `ip route flush table 0` means every table
      if table == 0 then s.(routes := map[]) else s.(routes := map k | k in s.routes && k.0 != table :: s.routes[k])
  }

  function Run(cs: seq<Command>, s: Exit, works: set<Conf>): Exit {
    if cs == [] then s else Run(cs[1..], Exec(cs[0], s, works), works)
  }

  // ---------------------------------------------------------------- the compiler

  const MTU := 1380

  function LanPart(group: Group, gw: Gateway): seq<Command>
    requires gw.lanIp.Some? && gw.slot.Some?
  {
    var slot := gw.slot.value;
    var mac := MacName(slot);
    var ip := gw.lanIp.value;
    [LinkDel(mac), MacAdd(mac, group.parent), AddrAdd(mac, ip, |group.lanNet|), LinkUp(mac),
     NameTable(slot, "deeporc-" + Decimal(slot)), RouteVia(slot, group.lanGw, mac), RouteLink(slot, group.lanNet, mac)] +
    [RuleRemove(From(ip), slot), RulePut(Rule(32000 + slot, From(ip), slot)), RuleRemove(Iif(WgName(gw.name)), slot)]
  }

  function TunnelPart(gw: Gateway, conf: Conf): seq<Command>
    requires gw.slot.Some?
  {
    var slot := gw.slot.value;
    var mac := MacName(slot);
    var wg := WgName(gw.name);
    [WriteConf(wg, conf), QuickDown(wg), QuickUp(wg), SetMtu(wg, MTU)] +
    [RulePut(Rule(32500 + slot, Iif(wg), slot)), Accept(Fwd(wg, mac, false)), Accept(Fwd(mac, wg, true)), Masquerade(mac)]
  }

  predicate WantsTunnel(e: Entry) { e.ready && ValidConf(e.conf) }

  predicate Skipped(gw: Gateway) { gw.lanIp.None? || gw.slot.None? }

  function Block(group: Group, e: Entry): seq<Command>
    requires !Skipped(e.gw)
  {
    LanPart(group, e.gw) + WantedTunnel(e)
  }

  function WantedTunnel(e: Entry): seq<Command>
    requires e.gw.slot.Some?
  {
    if WantsTunnel(e) then TunnelPart(e.gw, e.conf.value) else []
  }

  function SetupCommands(group: Group, entries: seq<Entry>): seq<Command> {
    if entries == [] then []
    else (if Skipped(entries[0].gw) then [] else Block(group, entries[0])) + SetupCommands(group, entries[1..])
  }

  function UndoPart(gw: Gateway): seq<Command>
    requires gw.slot.Some?
  {
    var slot := gw.slot.value;
    var mac := MacName(slot);
    var wg := WgName(gw.name);
    [QuickDown(wg), RemoveConf(wg), Unmasquerade(mac), Unaccept(Fwd(wg, mac, false)), Unaccept(Fwd(mac, wg, true))] +
    (if gw.lanIp.Some? then [RuleRemove(From(gw.lanIp.value), slot)] else []) +
    [RuleRemove(Iif(wg), slot), FlushTable(slot), LinkDel(mac)]
  }

  function TeardownCommands(gws: seq<Gateway>): seq<Command> {
    if gws == [] then []
    else (if gws[0].slot.None? then [] else UndoPart(gws[0])) + TeardownCommands(gws[1..])
  }

  /** The setup script: its first part stops it when the parent interface is missing. */
  function Setup(group: Group, entries: seq<Entry>, s: Exit, works: set<Conf>): Exit {
    if group.parent !in s.links then s else Run(SetupCommands(group, entries), Prelude(s), works)
  }

  predicate HasDeeporcName(names: seq<(nat, string)>) {
    exists line :: line in names && line.0 == 200 && "deeporc" <= line.1
  }

  function Prelude(s: Exit): Exit {
    if HasDeeporcName(s.names) then s else s.(names := s.names + [(200, "deeporc")])
  }

  /** The setup renderer: one loop over the rows. */
  method RenderSetup(group: Group, entries: seq<Entry>) returns (lines: seq<Command>)
    ensures lines == SetupCommands(group, entries)
  {
    hide Block;
    lines := [];
    for i := 0 to |entries|
      invariant lines + SetupCommands(group, entries[i..]) == SetupCommands(group, entries)
    {
      assert entries[i..][0] == entries[i] && entries[i..][1..] == entries[i + 1..];
      if entries[i].gw.lanIp.None? || entries[i].gw.slot.None? { continue; }
      lines := lines + Block(group, entries[i]);
    }
  }

  method RenderTeardown(gws: seq<Gateway>) returns (lines: seq<Command>)
    ensures lines == TeardownCommands(gws)
  {
    hide UndoPart;
    lines := [];
    for i := 0 to |gws|
      invariant lines + TeardownCommands(gws[i..]) == TeardownCommands(gws)
    {
      assert gws[i..][0] == gws[i] && gws[i..][1..] == gws[i + 1..];
      if gws[i].slot.None? { continue; }
      lines := lines + UndoPart(gws[i]);
    }
  }

  lemma {:induction false} RunAppend(a: seq<Command>, b: seq<Command>, s: Exit, works: set<Conf>)
    ensures Run(a + b, s, works) == Run(b, Run(a, s, works), works)
  {
    if a == [] {
      assert a + b == b;
    } else {
      assert (a + b)[1..] == a[1..] + b;
      RunAppend(a[1..], b, Exec(a[0], s, works), works);
    }
  }

  lemma Run4(a: Command, b: Command, c: Command, d: Command, s: Exit, works: set<Conf>)
    ensures Run([a, b, c, d], s, works) == Exec(d, Exec(c, Exec(b, Exec(a, s, works), works), works), works)
  {
    hide Exec;
    assert [a, b, c, d][1..] == [b, c, d];
    Run3(b, c, d, Exec(a, s, works), works);
  }

  lemma Run3(a: Command, b: Command, c: Command, s: Exit, works: set<Conf>)
    ensures Run([a, b, c], s, works) == Exec(c, Exec(b, Exec(a, s, works), works), works)
  {
    hide Exec;
    var s1 := Exec(a, s, works);
    var s2 := Exec(b, s1, works);
    assert [a, b, c][1..] == [b, c] && [b, c][1..] == [c] && [c][1..] == [];
    assert Run([c], s2, works) == Exec(c, s2, works);
    assert Run([b, c], s1, works) == Run([c], s2, works);
  }
}
