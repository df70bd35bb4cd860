/** Running the setup script twice leaves the host as running it once. */
module ExitHostTwice {
  import opened Common
  import opened Kernel
  import opened ExitHost
  import opened ExitHostTeardown
  import opened ExitHostRestore

  // ---------------------------------------------------------------- what one block does

  function MacLink(group: Group, gw: Gateway): Link
    requires !Skipped(gw)
  {
    Macvlan(group.parent, Some((gw.lanIp.value, |group.lanNet|)), true)
  }

  /** The routes of the gateway's own table. */
  function LanRoutes(group: Group, gw: Gateway): map<(nat, Bits), Route>
    requires !Skipped(gw)
  {
    var slot := gw.slot.value;
    var base := if Reaches(MacLink(group, gw), group.lanGw) then map[(slot, []) := Route(Some(group.lanGw), MacName(slot))] else map[];
    base[(slot, group.lanNet) := Route(None, MacName(slot))]
  }

  function RoutesNotVia(routes: map<(nat, Bits), Route>, dev: string): map<(nat, Bits), Route> {
    map k | k in routes && routes[k].dev != dev :: routes[k]
  }

  function NamedTable(names: seq<(nat, string)>, slot: nat): seq<(nat, string)> {
    if Named(names, slot) then names else names + [(slot, "deeporc-" + Decimal(slot))]
  }

  function LanDone(group: Group, gw: Gateway, s: Exit): Exit
    requires !Skipped(gw)
  {
    var mac := MacName(gw.slot.value);
    s.(links := s.links[mac := MacLink(group, gw)],
       routes := RoutesNotVia(s.routes, mac) + LanRoutes(group, gw),
       names := NamedTable(s.names, gw.slot.value),
       rules := LanRules(s.rules, gw))
  }

  predicate CanBuild(group: Group, mac: string, s: Exit) {
    group.parent in s.links && group.parent != mac && Routed(s, mac)
  }

  lemma MacBuilt(group: Group, mac: string, ip: Bits, s: Exit, works: set<Conf>)
    requires CanBuild(group, mac, s)
    ensures Run([LinkDel(mac), MacAdd(mac, group.parent), AddrAdd(mac, ip, |group.lanNet|), LinkUp(mac)], s, works) ==
      s.(links := s.links[mac := Macvlan(group.parent, Some((ip, |group.lanNet|)), true)], routes := RoutesNotVia(s.routes, mac))
  {
    Run4(LinkDel(mac), MacAdd(mac, group.parent), AddrAdd(mac, ip, |group.lanNet|), LinkUp(mac), s, works);
    var s1 := Exec(LinkDel(mac), s, works);
    assert s1.routes == RoutesNotVia(s.routes, mac) && s1.links == s.links - {mac} && s1 == s.(links := s1.links, routes := s1.routes);
    var s2 := Exec(MacAdd(mac, group.parent), s1, works);
    assert s2 == s1.(links := s1.links[mac := Macvlan(group.parent, None, false)]);
    var s3 := Exec(AddrAdd(mac, ip, |group.lanNet|), s2, works);
    assert s3 == s2.(links := s2.links[mac := Macvlan(group.parent, Some((ip, |group.lanNet|)), false)]);
    var s4 := Exec(LinkUp(mac), s3, works);
    assert s4 == s3.(links := s3.links[mac := Macvlan(group.parent, Some((ip, |group.lanNet|)), true)]);
    hide Exec, RoutesNotVia;
    assert s4.links == s.links[mac := Macvlan(group.parent, Some((ip, |group.lanNet|)), true)];
  }

  lemma TableBuilt(group: Group, gw: Gateway, s: Exit, works: set<Conf>)
    requires !Skipped(gw) && OwnTable(gw)
    requires var mac := MacName(gw.slot.value); mac in s.links && s.links[mac] == MacLink(group, gw)
    ensures var slot := gw.slot.value;
      var mac := MacName(slot);
      Run([NameTable(slot, "deeporc-" + Decimal(slot)), RouteVia(slot, group.lanGw, mac), RouteLink(slot, group.lanNet, mac)], s, works) ==
      s.(names := NamedTable(s.names, slot), routes := s.routes + LanRoutes(group, gw))
  {
    var slot := gw.slot.value;
    var mac := MacName(slot);
    hide MacName, Decimal;
    Run3(NameTable(slot, "deeporc-" + Decimal(slot)), RouteVia(slot, group.lanGw, mac), RouteLink(slot, group.lanNet, mac), s, works);
    var s1 := Exec(NameTable(slot, "deeporc-" + Decimal(slot)), s, works);
    assert s1 == s.(names := NamedTable(s.names, slot));
    hide Exec;
    RoutesBuilt(group, gw, s1, works);
  }

  lemma RoutesBuilt(group: Group, gw: Gateway, s: Exit, works: set<Conf>)
    requires !Skipped(gw) && OwnTable(gw)
    requires var mac := MacName(gw.slot.value); mac in s.links && s.links[mac] == MacLink(group, gw)
    ensures var slot := gw.slot.value;
      var mac := MacName(slot);
      Exec(RouteLink(slot, group.lanNet, mac), Exec(RouteVia(slot, group.lanGw, mac), s, works), works) ==
      s.(routes := s.routes + LanRoutes(group, gw))
  {
    var slot := gw.slot.value;
    var mac := MacName(slot);
    hide MacName, Reaches;
    var t := Exec(RouteLink(slot, group.lanNet, mac), Exec(RouteVia(slot, group.lanGw, mac), s, works), works);
    assert t.routes == s.routes + LanRoutes(group, gw);
  }

  lemma LanEffect(group: Group, gw: Gateway, s: Exit, works: set<Conf>)
    requires !Skipped(gw) && OwnTable(gw) && CanBuild(group, MacName(gw.slot.value), s)
    ensures Run(LanPart(group, gw), s, works) == LanDone(group, gw, s)
  {
    var slot := gw.slot.value;
    var mac := MacName(slot);
    var ip := gw.lanIp.value;
    var c1 := [LinkDel(mac), MacAdd(mac, group.parent), AddrAdd(mac, ip, |group.lanNet|), LinkUp(mac)];
    var c2 := [NameTable(slot, "deeporc-" + Decimal(slot)), RouteVia(slot, group.lanGw, mac), RouteLink(slot, group.lanNet, mac)];
    var c3 := [RuleRemove(From(ip), slot), RulePut(Rule(32000 + slot, From(ip), slot)), RuleRemove(Iif(WgName(gw.name)), slot)];
    assert LanPart(group, gw) == c1 + (c2 + c3) by { hide MacName, WgName, Decimal; }
    hide LanPart, Decimal, WgName, MacName, Exec, Insert, Removed, LanRoutes, RoutesNotVia, NamedTable;
    RunAppend(c1, c2 + c3, s, works);
    var s1 := Run(c1, s, works);
    RunAppend(c2, c3, s1, works);
    var s2 := Run(c2, s1, works);
    MacBuilt(group, mac, ip, s, works);
    TableBuilt(group, gw, s1, works);
    RulesOnly(c3, s2, works);
    ThreeRules(c3[0], c3[1], c3[2], s2.rules);
  }

  lemma {:induction false} RulesOnly(cs: seq<Command>, s: Exit, works: set<Conf>)
    requires forall c :: c in cs ==> c.RuleRemove? || c.RulePut?
    ensures Run(cs, s, works) == s.(rules := RunRules(cs, s.rules))
  {
    if cs != [] {
      assert cs[0] in cs && forall c :: c in cs[1..] ==> c in cs;
      assert Exec(cs[0], s, works) == s.(rules := ExecRules(cs[0], s.rules));
      hide Exec, ExecRules;
      RulesOnly(cs[1..], Exec(cs[0], s, works), works);
    }
  }

  // ---------------------------------------------------------------- the tunnel's part

  function TunnelDown(wg: string, conf: Conf, s: Exit): Exit {
    (if wg in s.links then DropLink(s, wg) else s).(confs := s.confs[wg := conf])
  }

  function TunnelLinks(wg: string, conf: Conf, s: Exit, works: set<Conf>): Exit {
    var down := TunnelDown(wg, conf, s);
    if conf in works && (MAIN, conf.allowed) !in down.routes
    then down.(links := down.links[wg := Tunnel(conf, MTU)], routes := down.routes[(MAIN, conf.allowed) := Route(None, wg)])
    else down
  }

  function TunnelDone(gw: Gateway, conf: Conf, s: Exit, works: set<Conf>): Exit
    requires gw.slot.Some?
  {
    var mac := MacName(gw.slot.value);
    var wg := WgName(gw.name);
    TunnelLinks(wg, conf, s, works).(
      rules := Insert(s.rules, TunnelRule(gw)),
      forward := Ensure(Ensure(s.forward, Fwd(wg, mac, false)), Fwd(mac, wg, true)),
      masquerade := Ensure(s.masquerade, mac))
  }

  lemma TunnelDownBuilt(wg: string, conf: Conf, s: Exit, works: set<Conf>)
    requires wg in s.links ==> s.links[wg].Tunnel?
    ensures Exec(QuickDown(wg), Exec(WriteConf(wg, conf), s, works), works) == TunnelDown(wg, conf, s)
  {
  }

  lemma TunnelUpBuilt(wg: string, s: Exit, works: set<Conf>)
    requires wg in s.confs && wg !in s.links
    ensures var conf := s.confs[wg];
      Exec(SetMtu(wg, MTU), Exec(QuickUp(wg), s, works), works) ==
      if conf in works && (MAIN, conf.allowed) !in s.routes
      then s.(links := s.links[wg := Tunnel(conf, MTU)], routes := s.routes[(MAIN, conf.allowed) := Route(None, wg)])
      else s
  {
    var t := Exec(SetMtu(wg, MTU), Exec(QuickUp(wg), s, works), works);
    assert wg in t.links ==> t.links == s.links[wg := Tunnel(s.confs[wg], MTU)];
  }

  lemma TunnelBuilt(wg: string, conf: Conf, s: Exit, works: set<Conf>)
    requires wg in s.links ==> s.links[wg].Tunnel?
    ensures Run([WriteConf(wg, conf), QuickDown(wg), QuickUp(wg), SetMtu(wg, MTU)], s, works) == TunnelLinks(wg, conf, s, works)
  {
    Run4(WriteConf(wg, conf), QuickDown(wg), QuickUp(wg), SetMtu(wg, MTU), s, works);
    TunnelDownBuilt(wg, conf, s, works);
    hide Exec;
    var down := TunnelDown(wg, conf, s);
    TunnelUpBuilt(wg, down, works);
  }

  lemma FirewallBuilt(wg: string, mac: string, r: Rule, s: Exit, works: set<Conf>)
    ensures Run([RulePut(r), Accept(Fwd(wg, mac, false)), Accept(Fwd(mac, wg, true)), Masquerade(mac)], s, works) ==
      s.(rules := Insert(s.rules, r), forward := Ensure(Ensure(s.forward, Fwd(wg, mac, false)), Fwd(mac, wg, true)),
         masquerade := Ensure(s.masquerade, mac))
  {
    hide Insert;
    Run4(RulePut(r), Accept(Fwd(wg, mac, false)), Accept(Fwd(mac, wg, true)), Masquerade(mac), s, works);
  }

  lemma TunnelEffect(gw: Gateway, conf: Conf, s: Exit, works: set<Conf>)
    requires gw.slot.Some? && (WgName(gw.name) in s.links ==> s.links[WgName(gw.name)].Tunnel?)
    ensures Run(TunnelPart(gw, conf), s, works) == TunnelDone(gw, conf, s, works)
  {
    var mac := MacName(gw.slot.value);
    var wg := WgName(gw.name);
    var c1 := [WriteConf(wg, conf), QuickDown(wg), QuickUp(wg), SetMtu(wg, MTU)];
    var c2 := [RulePut(TunnelRule(gw)), Accept(Fwd(wg, mac, false)), Accept(Fwd(mac, wg, true)), Masquerade(mac)];
    hide WgName, MacName, Exec, Insert, Ensure;
    RunAppend(c1, c2, s, works);
    TunnelBuilt(wg, conf, s, works);
    FirewallBuilt(wg, mac, TunnelRule(gw), Run(c1, s, works), works);
  }

  function BlockDone(group: Group, e: Entry, s: Exit, works: set<Conf>): Exit
    requires !Skipped(e.gw)
  {
    var lan := LanDone(group, e.gw, s);
    if WantsTunnel(e) then TunnelDone(e.gw, e.conf.value, lan, works) else lan
  }

  lemma BlockEffect(group: Group, e: Entry, s: Exit, works: set<Conf>)
    requires !Skipped(e.gw) && OwnTable(e.gw) && CanBuild(group, MacName(e.gw.slot.value), s)
    requires WantsTunnel(e) && WgName(e.gw.name) in s.links ==> s.links[WgName(e.gw.name)].Tunnel?
    ensures Run(Block(group, e), s, works) == BlockDone(group, e, s, works)
  {
    NamesDiffer(e.gw.slot.value, e.gw.name);
    RunAppend(LanPart(group, e.gw), WantedTunnel(e), s, works);
    LanEffect(group, e.gw, s, works);
    hide WgName, MacName, LanPart, TunnelPart, Contains, TunnelDone, LanRules, LanRoutes, RoutesNotVia;
    if WantsTunnel(e) { TunnelEffect(e.gw, e.conf.value, LanDone(group, e.gw, s), works); }
  }

  // ---------------------------------------------------------------- settled blocks

  predicate LanSettled(group: Group, gw: Gateway, s: Exit)
    requires !Skipped(gw)
  {
    var mac := MacName(gw.slot.value);
    var own := LanRoutes(group, gw);
    OwnTable(gw) && group.parent in s.links && group.parent != mac && mac in s.links && s.links[mac] == MacLink(group, gw) &&
    (forall k :: k in own ==> k in s.routes && s.routes[k] == own[k]) &&
    (forall k :: k in s.routes && (s.routes[k].dev == mac || k.0 == gw.slot.value) ==> k in own) &&
    Named(s.names, gw.slot.value)
  }

  predicate TunnelSettled(wg: string, conf: Conf, s: Exit, works: set<Conf>) {
    var k0 := (MAIN, conf.allowed);
    wg in s.confs && s.confs[wg] == conf &&
    (if wg in s.links then
      conf in works && s.links[wg] == Tunnel(conf, MTU) && k0 in s.routes && s.routes[k0] == Route(None, wg) &&
      forall k :: k in s.routes && s.routes[k].dev == wg ==> k == k0
    else
      (conf !in works || k0 in s.routes) && forall k :: k in s.routes ==> s.routes[k].dev != wg)
  }

  predicate FirewallSettled(mac: string, wg: string, s: Exit) {
    Fwd(wg, mac, false) in s.forward && Fwd(mac, wg, true) in s.forward && mac in s.masquerade
  }

  /** Deleting the rule and adding it again gives the same list. */
  predicate Fixed(rules: seq<Rule>, r: Rule) {
    var del := RuleDel(rules, BySel(r.sel, r.table));
    del.Some? && Insert(del.value, r) == rules
  }

  function LanRule(gw: Gateway): Rule
    requires !Skipped(gw)
  {
    Rule(32000 + gw.slot.value, From(gw.lanIp.value), gw.slot.value)
  }

  predicate RulesSettled(rules: seq<Rule>, e: Entry)
    requires !Skipped(e.gw)
  {
    Fixed(rules, LanRule(e.gw)) &&
    if WantsTunnel(e) then Fixed(rules, TunnelRule(e.gw)) else RuleCount(rules, Iif(WgName(e.gw.name)), e.gw.slot.value) == 0
  }

  predicate Settled(group: Group, e: Entry, s: Exit, works: set<Conf>) {
    !Skipped(e.gw) ==>
      var mac := MacName(e.gw.slot.value);
      var wg := WgName(e.gw.name);
      LanSettled(group, e.gw, s) && RulesSettled(s.rules, e) &&
      (WantsTunnel(e) ==> TunnelSettled(wg, e.conf.value, s, works) && FirewallSettled(mac, wg, s))
  }

  // ---------------------------------------------------------------- settled means unchanged

  lemma LanUnchanged(group: Group, gw: Gateway, s: Exit)
    requires !Skipped(gw) && LanSettled(group, gw, s)
    ensures LanDone(group, gw, s) == s.(rules := LanRules(s.rules, gw))
  {
    hide MacName, LanRoutes, LanRules, Decimal;
    var mac := MacName(gw.slot.value);
    assert s.links[mac := MacLink(group, gw)] == s.links;
    assert RoutesNotVia(s.routes, mac) + LanRoutes(group, gw) == s.routes;
  }

  lemma TunnelUnchanged(wg: string, conf: Conf, s: Exit, works: set<Conf>)
    requires TunnelSettled(wg, conf, s, works)
    ensures TunnelLinks(wg, conf, s, works) == s
  {
    var t := TunnelLinks(wg, conf, s, works);
    assert t.confs == s.confs;
    assert t.links == s.links;
    assert t.routes == s.routes;
  }

  lemma RulesUnchanged(rules: seq<Rule>, e: Entry)
    requires !Skipped(e.gw) && RulesSettled(rules, e)
    ensures if WantsTunnel(e) then Insert(LanRules(rules, e.gw), TunnelRule(e.gw)) == rules else LanRules(rules, e.gw) == rules
  {
    hide Insert, RuleDel, RuleCount, WgName, Contains;
    CountRemoved(rules, Iif(WgName(e.gw.name)), e.gw.slot.value, Iif(WgName(e.gw.name)), e.gw.slot.value);
  }

  lemma BlockUnchanged(group: Group, e: Entry, s: Exit, works: set<Conf>)
    requires !Skipped(e.gw) && Settled(group, e, s, works)
    ensures BlockDone(group, e, s, works) == s
  {
    LanUnchanged(group, e.gw, s);
    RulesUnchanged(s.rules, e);
    hide Insert, LanRules, LanSettled, RulesSettled, WgName, MacName, Contains, LanDone;
    if WantsTunnel(e) {
      var wg := WgName(e.gw.name);
      TunnelUnchanged(wg, e.conf.value, s, works);
      TunnelLinksRules(wg, e.conf.value, s, LanRules(s.rules, e.gw), works);
      hide TunnelLinks;
      assert TunnelDone(e.gw, e.conf.value, s.(rules := LanRules(s.rules, e.gw)), works) == s;
    }
  }

  lemma TunnelLinksRules(wg: string, conf: Conf, s: Exit, rules: seq<Rule>, works: set<Conf>)
    ensures TunnelLinks(wg, conf, s.(rules := rules), works) == TunnelLinks(wg, conf, s, works).(rules := rules)
  {
    if wg in s.links { assert DropLink(s.(rules := rules), wg) == DropLink(s, wg).(rules := rules); }
    hide DropLink;
  }

  // ---------------------------------------------------------------- a block settles itself

  lemma InsertedIsFixed(rules: seq<Rule>, r: Rule)
    requires RuleCount(rules, r.sel, r.table) == 0
    ensures Fixed(Insert(rules, r), r)
  {
    CountNone(rules, r.sel, r.table);
    DelInserted(rules, r);
  }

  lemma {:induction false} DelInserted(rules: seq<Rule>, r: Rule)
    requires forall x :: x in rules ==> !Fits(BySel(r.sel, r.table), x)
    ensures RuleDel(Insert(rules, r), BySel(r.sel, r.table)) == Some(rules)
  {
    if rules == [] {
      assert [r][1..] == [];
    } else if r.pref < rules[0].pref {
      assert ([r] + rules)[1..] == rules;
    } else {
      assert rules[0] in rules && rules == [rules[0]] + rules[1..];
      DelInserted(rules[1..], r);
      assert ([rules[0]] + Insert(rules[1..], r))[1..] == Insert(rules[1..], r);
    }
  }

  lemma InsertHead(x: Rule, rest: seq<Rule>, r: Rule)
    ensures Insert([x] + rest, r) == if r.pref < x.pref then [r] + ([x] + rest) else [x] + Insert(rest, r)
  {
    assert ([x] + rest)[1..] == rest;
  }

  lemma {:induction false} InsertsCommute(rules: seq<Rule>, a: Rule, b: Rule)
    requires a.pref != b.pref
    ensures Insert(Insert(rules, a), b) == Insert(Insert(rules, b), a)
  {
    if rules == [] {
      assert Insert([a], b) == if b.pref < a.pref then [b, a] else [a, b] by { InsertHead(a, [], b); }
      assert Insert([b], a) == if a.pref < b.pref then [a, b] else [b, a] by { InsertHead(b, [], a); }
    } else {
      var x := rules[0];
      var rest := rules[1..];
      assert rules == [x] + rest;
      InsertHead(x, rest, a);
      InsertHead(x, rest, b);
      InsertHead(a, rules, b);
      InsertHead(b, rules, a);
      InsertHead(x, Insert(rest, a), b);
      InsertHead(x, Insert(rest, b), a);
      InsertsCommute(rest, a, b);
      if a.pref < x.pref || b.pref < x.pref {
        assert Insert(Insert(rules, a), b) == Insert(Insert(rules, b), a);
      }
    }
  }

  lemma {:induction false} DelInsertCommute(rules: seq<Rule>, spec: Spec, r: Rule)
    requires Sorted(rules) && !Fits(spec, r)
    ensures RuleDel(rules, spec).Some? ==> RuleDel(Insert(rules, r), spec) == Some(Insert(RuleDel(rules, spec).value, r))
  {
    if rules != [] {
      if r.pref < rules[0].pref {
        assert ([r] + rules)[1..] == rules;
        if RuleDel(rules, spec).Some? {
          var rest := RuleDel(rules, spec).value;
          DelMembers(rules, spec);
          assert forall x :: x in rules ==> r.pref < x.pref;
          assert rest != [] ==> rest[0] in rest && rest[0] in rules;
          assert RuleDel([r] + rules, spec) == Some([r] + rest);
          assert Insert(rest, r) == [r] + rest;
        }
      } else {
        assert ([rules[0]] + Insert(rules[1..], r))[1..] == Insert(rules[1..], r);
        DelInsertCommute(rules[1..], spec, r);
        if !Fits(spec, rules[0]) && RuleDel(rules[1..], spec).Some? {
          var rest := RuleDel(rules[1..], spec).value;
          assert ([rules[0]] + rest)[1..] == rest;
        }
      }
    }
  }

  lemma FixedAfterInsert(rules: seq<Rule>, r: Rule, other: Rule)
    requires Sorted(rules) && Fixed(rules, r) && other.pref != r.pref && (other.sel, other.table) != (r.sel, r.table)
    ensures Fixed(Insert(rules, other), r)
  {
    DelInsertCommute(rules, BySel(r.sel, r.table), other);
    InsertsCommute(RuleDel(rules, BySel(r.sel, r.table)).value, r, other);
  }

  predicate Unused(s: Exit, dev: string) {
    dev !in s.links && forall k :: k in s.routes ==> s.routes[k].dev != dev
  }

  lemma LanRoutesShape(group: Group, gw: Gateway)
    requires !Skipped(gw)
    ensures forall k :: k in LanRoutes(group, gw) ==> k.0 == gw.slot.value && LanRoutes(group, gw)[k].dev == MacName(gw.slot.value)
  {
    hide MacName, Reaches;
  }

  predicate EmptyTable(s: Exit, table: nat) {
    forall k :: k in s.routes ==> k.0 != table
  }

  lemma LanSettles(group: Group, gw: Gateway, s: Exit)
    requires !Skipped(gw) && OwnTable(gw) && group.parent in s.links && Unused(s, MacName(gw.slot.value)) && EmptyTable(s, gw.slot.value)
    ensures LanSettled(group, gw, LanDone(group, gw, s))
  {
    LanRoutesShape(group, gw);
    hide MacName, LanRoutes, LanRules, Decimal;
    var t := LanDone(group, gw, s);
    assert Named(t.names, gw.slot.value) by {
      var line := (gw.slot.value, "deeporc-" + Decimal(gw.slot.value));
      assert !Named(s.names, gw.slot.value) ==> line in t.names && line.0 == gw.slot.value;
    }
  }

  lemma LanKeepsLan(group: Group, gw: Gateway, other: Gateway, s: Exit)
    requires !Skipped(gw) && !Skipped(other) && LanSettled(group, gw, s)
    requires MacName(gw.slot.value) != MacName(other.slot.value) && gw.slot != other.slot
    requires Unused(s, MacName(other.slot.value))
    ensures LanSettled(group, gw, LanDone(group, other, s))
  {
    LanRoutesShape(group, gw);
    LanRoutesShape(group, other);
    hide MacName, LanRoutes, LanRules, Decimal, MacLink;
    var t := LanDone(group, other, s);
    assert forall line :: line in s.names ==> line in t.names;
  }

  lemma TunnelKeepsLan(group: Group, gw: Gateway, wg: string, conf: Conf, s: Exit, works: set<Conf>)
    requires !Skipped(gw) && LanSettled(group, gw, s) && Unused(s, wg) && gw.slot.value != MAIN
    ensures LanSettled(group, gw, TunnelLinks(wg, conf, s, works))
  {
    LanRoutesShape(group, gw);
    hide MacName, LanRoutes, MacLink;
  }

  lemma TunnelSettles(wg: string, conf: Conf, s: Exit, works: set<Conf>)
    requires Unused(s, wg)
    ensures TunnelSettled(wg, conf, TunnelLinks(wg, conf, s, works), works)
  {
  }

  lemma LanKeepsTunnel(group: Group, other: Gateway, wg: string, conf: Conf, s: Exit, works: set<Conf>)
    requires !Skipped(other) && TunnelSettled(wg, conf, s, works) && other.slot.value != MAIN
    requires Unused(s, MacName(other.slot.value)) && wg != MacName(other.slot.value)
    ensures TunnelSettled(wg, conf, LanDone(group, other, s), works)
  {
    LanRoutesShape(group, other);
    hide MacName, LanRoutes, LanRules, Decimal, MacLink;
  }

  lemma TunnelKeepsTunnel(wg: string, conf: Conf, wg2: string, conf2: Conf, s: Exit, works: set<Conf>)
    requires TunnelSettled(wg, conf, s, works) && Unused(s, wg2) && wg != wg2
    ensures TunnelSettled(wg, conf, TunnelLinks(wg2, conf2, s, works), works)
  {
  }

  // ---------------------------------------------------------------- rules

  lemma RulesSettle(rules: seq<Rule>, e: Entry)
    requires !Skipped(e.gw) && Sorted(rules) && e.gw.slot.value < 253
    requires RuleCount(rules, From(e.gw.lanIp.value), e.gw.slot.value) == 0
    requires RuleCount(rules, Iif(WgName(e.gw.name)), e.gw.slot.value) == 0
    ensures RulesSettled(if WantsTunnel(e) then Insert(LanRules(rules, e.gw), TunnelRule(e.gw)) else LanRules(rules, e.gw), e)
    ensures LanRules(rules, e.gw) == Insert(rules, LanRule(e.gw))
    ensures Sorted(LanRules(rules, e.gw))
  {
    var from := From(e.gw.lanIp.value);
    var iif := Iif(WgName(e.gw.name));
    var slot := e.gw.slot.value;
    hide RuleCount, Insert, WgName, Contains, Sorted, Fixed, RuleDel;
    var one := Insert(rules, LanRule(e.gw));
    CountRemoved(rules, from, slot, from, slot);
    InsertedIsFixed(rules, LanRule(e.gw));
    CountInsert(rules, LanRule(e.gw), iif, slot);
    CountRemoved(one, iif, slot, iif, slot);
    InsertSorted(rules, LanRule(e.gw));
    assert LanRules(rules, e.gw) == one;
    if WantsTunnel(e) {
      InsertedIsFixed(one, TunnelRule(e.gw));
      FixedAfterInsert(one, LanRule(e.gw), TunnelRule(e.gw));
    }
  }

  lemma InsertKeepsSettled(rules: seq<Rule>, e: Entry, r: Rule)
    requires !Skipped(e.gw) && Sorted(rules) && RulesSettled(rules, e)
    requires r.table != e.gw.slot.value && r.pref != 32000 + e.gw.slot.value && r.pref != 32500 + e.gw.slot.value
    ensures RulesSettled(Insert(rules, r), e)
  {
    hide RuleCount, Insert, WgName, Contains, Sorted, Fixed;
    FixedAfterInsert(rules, LanRule(e.gw), r);
    if WantsTunnel(e) {
      FixedAfterInsert(rules, TunnelRule(e.gw), r);
    } else {
      CountInsert(rules, r, Iif(WgName(e.gw.name)), e.gw.slot.value);
    }
  }

  // ---------------------------------------------------------------- one block among others

  /** Nothing of the gateway is on the host yet. */
  predicate Fresh(s: Exit, gw: Gateway)
    requires !Skipped(gw)
  {
    Unused(s, MacName(gw.slot.value)) && Unused(s, WgName(gw.name)) && EmptyTable(s, gw.slot.value) && 1 <= gw.slot.value < 253 &&
    RuleCount(s.rules, From(gw.lanIp.value), gw.slot.value) == 0 && RuleCount(s.rules, Iif(WgName(gw.name)), gw.slot.value) == 0
  }

  lemma FreeIsFresh(s: Exit, gw: Gateway)
    requires !Skipped(gw) && Free(s, Of(gw)) && 1 <= gw.slot.value < 253
    ensures Fresh(s, gw)
  {
    CountNone(s.rules, From(gw.lanIp.value), gw.slot.value);
    CountNone(s.rules, Iif(WgName(gw.name)), gw.slot.value);
    hide MacName, WgName, RuleCount;
  }

  lemma LanLeavesUnused(group: Group, gw: Gateway, s: Exit, dev: string)
    requires !Skipped(gw) && Unused(s, dev) && dev != MacName(gw.slot.value)
    ensures Unused(LanDone(group, gw, s), dev)
  {
    LanRoutesShape(group, gw);
    hide MacName, LanRoutes, LanRules, MacLink, Decimal;
  }

  lemma LanBlockSettles(group: Group, gw: Gateway, s: Exit)
    requires !Skipped(gw) && Fresh(s, gw) && group.parent in s.links
    ensures var t := LanDone(group, gw, s);
      LanSettled(group, gw, t) && Unused(t, WgName(gw.name)) && group.parent in t.links && t.rules == LanRules(s.rules, gw) &&
      forall line :: line in s.names ==> line in t.names
  {
    NamesDiffer(gw.slot.value, gw.name);
    LanSettles(group, gw, s);
    LanLeavesUnused(group, gw, s, WgName(gw.name));
    hide LanSettled, Unused, LanRules, LanRoutes, RuleCount, MacName, WgName;
  }

  lemma BlockSettles(group: Group, e: Entry, s: Exit, works: set<Conf>)
    requires !Skipped(e.gw) && Fresh(s, e.gw) && group.parent in s.links && Sorted(s.rules)
    ensures var t := BlockDone(group, e, s, works);
      Settled(group, e, t, works) && Sorted(t.rules) && group.parent in t.links && forall line :: line in s.names ==> line in t.names
  {
    var wg := WgName(e.gw.name);
    var lan := LanDone(group, e.gw, s);
    LanBlockSettles(group, e.gw, s);
    RulesSettle(s.rules, e);
    hide LanSettled, TunnelSettled, LanDone, LanRules, MacName, WgName, Contains, RulesSettled, Decimal, RuleCount, Sorted, Unused, Insert;
    if WantsTunnel(e) {
      InsertSorted(LanRules(s.rules, e.gw), TunnelRule(e.gw));
      TunnelKeepsLan(group, e.gw, wg, e.conf.value, lan, works);
      TunnelSettles(wg, e.conf.value, lan, works);
      TunnelDoneParts(group, e, lan, works);
    }
  }

  /** The tunnel's part, seen by the predicates that do not read rules or the firewall. */
  lemma TunnelDoneParts(group: Group, e: Entry, s: Exit, works: set<Conf>)
    requires !Skipped(e.gw) && WantsTunnel(e)
    ensures var t := TunnelDone(e.gw, e.conf.value, s, works);
      var l := TunnelLinks(WgName(e.gw.name), e.conf.value, s, works);
      t.links == l.links && t.routes == l.routes && t.confs == l.confs && t.names == s.names &&
      FirewallSettled(MacName(e.gw.slot.value), WgName(e.gw.name), t) &&
      (forall f :: f in s.forward ==> f in t.forward) && forall d :: d in s.masquerade ==> d in t.masquerade
  {
    hide MacName, WgName, Insert, Contains;
  }

  lemma LanKeepsSettled(group: Group, e: Entry, other: Gateway, s: Exit, works: set<Conf>)
    requires !Skipped(e.gw) && !Skipped(other) && Settled(group, e, s, works) && Fresh(s, other) && Sorted(s.rules)
    requires e.gw.slot.value < 253 && other.slot != e.gw.slot
    ensures Settled(group, e, LanDone(group, other, s), works)
  {
    var mac := MacName(other.slot.value);
    if mac == MacName(e.gw.slot.value) { MacInjective(other.slot.value, e.gw.slot.value); }
    NamesDiffer(other.slot.value, e.gw.name);
    RulesSettle(s.rules, Entry(other, false, None));
    hide MacName, WgName, Contains, LanRules, Insert, RuleCount, RulesSettled, LanSettled, TunnelSettled, Sorted, LanDone;
    LanKeepsLan(group, e.gw, other, s);
    InsertKeepsSettled(s.rules, e, LanRule(other));
    LanDoneParts(group, other, s);
    if WantsTunnel(e) { LanKeepsTunnel(group, other, WgName(e.gw.name), e.conf.value, s, works); }
  }

  lemma LanDoneParts(group: Group, gw: Gateway, s: Exit)
    requires !Skipped(gw)
    ensures var t := LanDone(group, gw, s);
      t.rules == LanRules(s.rules, gw) && t.forward == s.forward && t.masquerade == s.masquerade && t.confs == s.confs
  {
    hide LanRules, LanRoutes, MacName;
  }

  lemma TunnelKeepsSettled(group: Group, e: Entry, other: Entry, s: Exit, works: set<Conf>)
    requires !Skipped(e.gw) && !Skipped(other.gw) && WantsTunnel(other) && Settled(group, e, s, works) && Sorted(s.rules)
    requires e.gw.slot.value < 253 && other.gw.slot.value < 253 && other.gw.slot != e.gw.slot
    requires WgName(e.gw.name) != WgName(other.gw.name) && Unused(s, WgName(other.gw.name))
    ensures Settled(group, e, TunnelDone(other.gw, other.conf.value, s, works), works)
  {
    var t := TunnelDone(other.gw, other.conf.value, s, works);
    var wg2 := WgName(other.gw.name);
    TunnelDoneParts(group, other, s, works);
    assert t.rules == Insert(s.rules, TunnelRule(other.gw));
    hide MacName, WgName, Contains, Insert, RulesSettled, Sorted, TunnelLinks, TunnelDone;
    TunnelKeepsLan(group, e.gw, wg2, other.conf.value, s, works);
    InsertKeepsSettled(s.rules, e, TunnelRule(other.gw));
    if WantsTunnel(e) { TunnelKeepsTunnel(WgName(e.gw.name), e.conf.value, wg2, other.conf.value, s, works); }
  }

  lemma BlockKeepsSettled(group: Group, e: Entry, other: Entry, s: Exit, works: set<Conf>)
    requires !Skipped(e.gw) && !Skipped(other.gw) && Settled(group, e, s, works) && Fresh(s, other.gw) && Sorted(s.rules)
    requires e.gw.slot.value < 253 && other.gw.slot != e.gw.slot && WgName(e.gw.name) != WgName(other.gw.name)
    ensures Settled(group, e, BlockDone(group, other, s, works), works)
  {
    LanKeepsSettled(group, e, other.gw, s, works);
    if WantsTunnel(other) {
      NamesDiffer(other.gw.slot.value, other.gw.name);
      LanLeavesUnused(group, other.gw, s, WgName(other.gw.name));
      RulesSettle(s.rules, other);
      LanDoneParts(group, other.gw, s);
      hide MacName, WgName, Contains, LanDone, LanRules, Settled, Sorted, TunnelDone, RulesSettled, RuleCount;
      TunnelKeepsSettled(group, e, other, LanDone(group, other.gw, s), works);
    }
  }

  // ---------------------------------------------------------------- the whole script

  function GatewaysOf(entries: seq<Entry>): (r: seq<Gateway>)
    ensures |r| == |entries| && forall i :: 0 <= i < |entries| ==> r[i] == entries[i].gw
  {
    seq(|entries|, i requires 0 <= i < |entries| => entries[i].gw)
  }

  /** Slots are last octets; 0 and 253 to 255 name the kernel's own tables. */
  predicate UsableSlots(entries: seq<Entry>) {
    forall e :: e in entries && e.gw.slot.Some? ==> 1 <= e.gw.slot.value < 253
  }

  ghost predicate DistinctEntries(entries: seq<Entry>) {
    forall i, j :: 0 <= i < j < |entries| && entries[i].gw.slot.Some? && entries[j].gw.slot.Some? ==>
      entries[i].gw.slot != entries[j].gw.slot && WgName(entries[i].gw.name) != WgName(entries[j].gw.name)
  }

  /** The rows already set up are settled, nothing of the others is on the host. */
  ghost predicate Halfway(group: Group, done: seq<Entry>, todo: seq<Entry>, s: Exit, works: set<Conf>) {
    group.parent in s.links && Sorted(s.rules) && HasDeeporcName(s.names) &&
    (forall e :: e in done ==> Settled(group, e, s, works)) &&
    forall e :: e in todo ==> Free(s, Of(e.gw))
  }

  lemma HalfwayStep(group: Group, done: seq<Entry>, todo: seq<Entry>, s: Exit, works: set<Conf>)
    requires todo != [] && !Skipped(todo[0].gw) && Halfway(group, done, todo, s, works)
    requires DistinctEntries(done + todo) && UsableSlots(done + todo)
    ensures Halfway(group, done + [todo[0]], todo[1..], Run(Block(group, todo[0]), s, works), works)
  {
    var e := todo[0];
    var t := Run(Block(group, e), s, works);
    assert e in done + todo && e in todo;
    FreeIsFresh(s, e.gw);
    FreeIsTidy(s, e.gw);
    BlockIsWithin(group, e);
    BlockEffect(group, e, s, works) by {
      assert CanBuild(group, MacName(e.gw.slot.value), s);
    }
    BlockSettles(group, e, s, works);
    hide Run, Block, BlockDone, Settled, Free, Of, Within, WgName, Fresh, Sorted, Leaves;
    forall d | d in done ensures Settled(group, d, t, works) {
      if !Skipped(d.gw) {
        var i :| 0 <= i < |done| && done[i] == d;
        assert (done + todo)[i] == d && (done + todo)[|done|] == e;
        assert d in done + todo;
        BlockKeepsSettled(group, d, e, s, works);
      } else {
        SkippedSettled(group, d, t, works);
      }
    }
    forall later | later in todo[1..] ensures Free(t, Of(later.gw)) {
      if later.gw.slot.Some? {
        var j :| 0 <= j < |todo[1..]| && todo[1..][j] == later;
        assert (done + todo)[|done| + 1 + j] == later && (done + todo)[|done|] == e;
        assert later in done + todo && later in todo;
        DistinctApart(e.gw, later.gw);
        MainIsNobodys(later.gw);
        RunKeepsFree(Block(group, e), s, works, Of(e.gw), Of(later.gw));
      } else {
        NothingToFree(later.gw, t);
      }
    }
  }

  lemma SkippedSettled(group: Group, e: Entry, s: Exit, works: set<Conf>)
    requires Skipped(e.gw)
    ensures Settled(group, e, s, works)
  {
  }

  lemma MainIsNobodys(gw: Gateway)
    requires gw.slot.Some? && gw.slot.value < 253
    ensures MAIN !in Of(gw).tables
  {
  }

  lemma {:induction false} SetupSettles(group: Group, done: seq<Entry>, todo: seq<Entry>, s: Exit, works: set<Conf>)
    requires Halfway(group, done, todo, s, works) && DistinctEntries(done + todo) && UsableSlots(done + todo)
    ensures Halfway(group, done + todo, [], Run(SetupCommands(group, todo), s, works), works)
    decreases |todo|
  {
    if todo == [] {
      assert done + todo == done;
    } else {
      var e := todo[0];
      assert (done + [e]) + todo[1..] == done + todo;
      if Skipped(e.gw) {
        SkippedSettled(group, e, s, works);
        assert Halfway(group, done + [e], todo[1..], s, works) by { hide Settled, Free, Sorted; }
        assert [] + SetupCommands(group, todo[1..]) == SetupCommands(group, todo[1..]);
        hide Halfway, DistinctEntries, UsableSlots, Run;
        SetupSettles(group, done + [e], todo[1..], s, works);
      } else {
        hide Halfway, DistinctEntries, UsableSlots, Block;
        HalfwayStep(group, done, todo, s, works);
        RunAppend(Block(group, e), SetupCommands(group, todo[1..]), s, works);
        SetupSettles(group, done + [e], todo[1..], Run(Block(group, e), s, works), works);
      }
    }
  }

  lemma {:induction false} SettledIsUnchanged(group: Group, entries: seq<Entry>, s: Exit, works: set<Conf>)
    requires forall e :: e in entries ==> Settled(group, e, s, works)
    ensures Run(SetupCommands(group, entries), s, works) == s
  {
    if entries != [] {
      var e := entries[0];
      assert e in entries && forall x :: x in entries[1..] ==> x in entries;
      if Skipped(e.gw) {
        assert [] + SetupCommands(group, entries[1..]) == SetupCommands(group, entries[1..]);
      } else {
        SettledCanRun(group, e, s, works);
        hide Settled, Block, BlockDone, CanBuild, Exec;
        BlockEffect(group, e, s, works);
        BlockUnchanged(group, e, s, works);
        RunAppend(Block(group, e), SetupCommands(group, entries[1..]), s, works);
      }
      hide Settled, Block, Exec;
      SettledIsUnchanged(group, entries[1..], s, works);
    }
  }

  lemma SettledCanRun(group: Group, e: Entry, s: Exit, works: set<Conf>)
    requires !Skipped(e.gw) && Settled(group, e, s, works)
    ensures OwnTable(e.gw) && CanBuild(group, MacName(e.gw.slot.value), s)
    ensures WantsTunnel(e) && WgName(e.gw.name) in s.links ==> s.links[WgName(e.gw.name)].Tunnel?
  {
    hide WgName, MacName, Contains, RulesSettled, LanRoutes;
    LanRoutesShape(group, e.gw);
  }

  /** The setup script run a second time changes nothing at all. */
  lemma SetupTwiceIsOnce(group: Group, entries: seq<Entry>, s: Exit, works: set<Conf>)
    requires DistinctEntries(entries) && UsableSlots(entries) && Sorted(s.rules)
    requires forall e :: e in entries ==> Free(s, Of(e.gw))
    ensures Setup(group, entries, Setup(group, entries, s, works), works) == Setup(group, entries, s, works)
  {
    if group.parent in s.links {
      var p := Prelude(s);
      PreludeHalfway(group, entries, s, works);
      assert [] + entries == entries;
      hide Halfway, DistinctEntries, UsableSlots, Run, Free, Of, SetupCommands;
      SetupSettles(group, [], entries, p, works);
      var t := Run(SetupCommands(group, entries), p, works);
      HalfwayEnd(group, entries, t, works);
      SettledIsUnchanged(group, entries, t, works);
    }
  }

  lemma PreludeHalfway(group: Group, entries: seq<Entry>, s: Exit, works: set<Conf>)
    requires Sorted(s.rules) && group.parent in s.links && forall e :: e in entries ==> Free(s, Of(e.gw))
    ensures Halfway(group, [], entries, Prelude(s), works)
  {
    hide Of, Sorted;
    var p := Prelude(s);
    var line: (nat, string) := (200, "deeporc");
    assert !HasDeeporcName(s.names) ==> line in p.names && line.0 == 200 && "deeporc" <= line.1;
    forall e | e in entries ensures Free(p, Of(e.gw)) { assert Free(s, Of(e.gw)); }
  }

  lemma HalfwayEnd(group: Group, entries: seq<Entry>, s: Exit, works: set<Conf>)
    requires Halfway(group, entries, [], s, works)
    ensures group.parent in s.links && HasDeeporcName(s.names) && forall e :: e in entries ==> Settled(group, e, s, works)
  {
  }

  /** The two families of rule preferences never meet, keep gateways with different slots apart,
      and stay below the kernel's main rule at 32766. */
  lemma PreferencesApart(a: Gateway, b: Gateway)
    requires !Skipped(a) && !Skipped(b) && a.slot.value < 256 && b.slot.value < 256
    ensures LanRule(a).pref != TunnelRule(b).pref
    ensures a.slot != b.slot ==> LanRule(a).pref != LanRule(b).pref && TunnelRule(a).pref != TunnelRule(b).pref
    ensures LanRule(a).pref < TunnelRule(a).pref < 32766
  {
  }
}
