/** Setup keeps a host tidy, so one teardown undoes any number of setups. */
module ExitHostRestore {
  import opened Common
  import opened Kernel
  import opened ExitHost
  import opened ExitHostTeardown

  // ---------------------------------------------------------------- distinct gateways

  /** The gateways that have a slot have different slots and different interface names. */
  ghost predicate Distinct(gws: seq<Gateway>) {
    forall i, j :: 0 <= i < j < |gws| && gws[i].slot.Some? && gws[j].slot.Some? ==>
      gws[i].slot != gws[j].slot && WgName(gws[i].name) != WgName(gws[j].name)
  }

  lemma {:induction false} DecimalInjective(a: nat, b: nat)
    requires Decimal(a) == Decimal(b)
    ensures a == b
  {
    assert |Decimal(a)| >= 1 && |Decimal(b)| >= 1;
    if a >= 10 && b >= 10 {
      assert Decimal(a / 10) == Decimal(a)[..|Decimal(a)| - 1];
      assert Decimal(b / 10) == Decimal(b)[..|Decimal(b)| - 1];
      DecimalInjective(a / 10, b / 10);
      assert Decimal(a)[|Decimal(a)| - 1] == Digit(a % 10) && Decimal(b)[|Decimal(b)| - 1] == Digit(b % 10);
    } else if a < 10 && b < 10 {
      assert Decimal(a)[0] == Digit(a) && Decimal(b)[0] == Digit(b);
    } else {
      DecimalShort(a);
      DecimalShort(b);
    }
  }

  lemma DecimalShort(a: nat)
    ensures |Decimal(a)| == 1 <==> a < 10
  {
    if a >= 10 { assert |Decimal(a / 10)| >= 1; }
  }

  lemma MacInjective(a: nat, b: nat)
    requires MacName(a) == MacName(b)
    ensures a == b
  {
    assert MacName(a)[4..] == Decimal(a) && MacName(b)[4..] == Decimal(b);
    DecimalInjective(a, b);
  }

  lemma DistinctApart(a: Gateway, b: Gateway)
    requires a.slot.Some? && b.slot.Some? && a.slot != b.slot && WgName(a.name) != WgName(b.name)
    ensures Apart(Of(a), Of(b))
  {
    NamesDiffer(a.slot.value, b.name);
    NamesDiffer(b.slot.value, a.name);
    if MacName(a.slot.value) == MacName(b.slot.value) { MacInjective(a.slot.value, b.slot.value); }
    hide MacName, WgName;
  }

  lemma MembersApart(gws: seq<Gateway>, a: Gateway, b: Gateway)
    requires Distinct(gws) && a in gws && b in gws && a != b && a.slot.Some? && b.slot.Some?
    ensures Apart(Of(a), Of(b))
  {
    var i :| 0 <= i < |gws| && gws[i] == a;
    var j :| 0 <= j < |gws| && gws[j] == b;
    assert i < j || j < i;
    hide WgName, Of, Apart;
    DistinctApart(a, b);
  }

  // ---------------------------------------------------------------- a block on a tidy host

  /** Within the gateway's footprint, and leaving its tunnel interface and configuration in place. */
  predicate Fine(c: Command, gw: Gateway) {
    (OwnTable(gw) ==> Within(c, Of(gw))) && Leaves(c, WgName(gw.name))
  }

  lemma LanIsFine(group: Group, gw: Gateway)
    requires !Skipped(gw)
    ensures forall c :: c in LanPart(group, gw) ==> Fine(c, gw)
  {
    var slot := gw.slot.value;
    var mac := MacName(slot);
    var wg := WgName(gw.name);
    var ip := gw.lanIp.value;
    NamesDiffer(slot, gw.name);
    assert mac in Of(gw).links && slot in Of(gw).tables && (From(ip), slot) in Of(gw).sels && (Iif(wg), slot) in Of(gw).sels;
    hide MacName, WgName, Decimal, Of;
    forall c | c in LanPart(group, gw) ensures Fine(c, gw) {
      LanIn(group, gw, c);
      hide LanPart;
    }
  }

  lemma LanIn(group: Group, gw: Gateway, c: Command)
    requires !Skipped(gw) && c in LanPart(group, gw)
    ensures var slot := gw.slot.value;
      var mac := MacName(slot);
      var ip := gw.lanIp.value;
      c == LinkDel(mac) || (c.MacAdd? && c.dev == mac) || (c.AddrAdd? && c.dev == mac) || c == LinkUp(mac) || c.NameTable? ||
      (c.RouteVia? && c.dev == mac && c.table == slot) || (c.RouteLink? && c.dev == mac && c.table == slot) ||
      c == RuleRemove(From(ip), slot) || c == RulePut(Rule(32000 + slot, From(ip), slot)) || c == RuleRemove(Iif(WgName(gw.name)), slot)
  {
    hide MacName, WgName, Decimal;
  }

  lemma TunnelIsFine(gw: Gateway, conf: Conf)
    requires gw.slot.Some?
    ensures forall c :: c in TunnelPart(gw, conf) ==> Fine(c, gw)
  {
    var fp := Of(gw);
    assert WgName(gw.name) in fp.links && WgName(gw.name) in fp.confs;
    assert MacName(gw.slot.value) in fp.masq && (Iif(WgName(gw.name)), gw.slot.value) in fp.sels;
    assert Fwd(WgName(gw.name), MacName(gw.slot.value), false) in fp.fwd && Fwd(MacName(gw.slot.value), WgName(gw.name), true) in fp.fwd;
    hide MacName, WgName, Of, Within, Leaves, TunnelPart;
    forall c | c in TunnelPart(gw, conf) ensures Fine(c, gw) {
      TunnelIn(gw, conf, c);
      TunnelCommandIsFine(c, fp, MacName(gw.slot.value), WgName(gw.name), gw.slot.value);
    }
  }

  lemma TunnelCommandIsFine(c: Command, fp: Footprint, mac: string, wg: string, slot: nat)
    requires wg in fp.links && wg in fp.confs && mac in fp.masq && (Iif(wg), slot) in fp.sels
    requires Fwd(wg, mac, false) in fp.fwd && Fwd(mac, wg, true) in fp.fwd
    requires (c.WriteConf? && c.dev == wg) || c == QuickDown(wg) || c == QuickUp(wg) || c == SetMtu(wg, MTU) ||
      c == RulePut(Rule(32500 + slot, Iif(wg), slot)) || c == Accept(Fwd(wg, mac, false)) || c == Accept(Fwd(mac, wg, true)) ||
      c == Masquerade(mac)
    ensures Within(c, fp) && Leaves(c, wg)
  {
  }

  lemma TunnelIn(gw: Gateway, conf: Conf, c: Command)
    requires gw.slot.Some? && c in TunnelPart(gw, conf)
    ensures var slot := gw.slot.value;
      var mac := MacName(slot);
      var wg := WgName(gw.name);
      c == WriteConf(wg, conf) || c == QuickDown(wg) || c == QuickUp(wg) || c == SetMtu(wg, MTU) ||
      c == RulePut(Rule(32500 + slot, Iif(wg), slot)) || c == Accept(Fwd(wg, mac, false)) || c == Accept(Fwd(mac, wg, true)) ||
      c == Masquerade(mac)
  {
    hide MacName, WgName;
  }

  lemma BlockIsWithin(group: Group, e: Entry)
    requires !Skipped(e.gw)
    ensures OwnTable(e.gw) ==> AllWithin(Block(group, e), Of(e.gw))
    ensures forall c :: c in Block(group, e) ==> Leaves(c, WgName(e.gw.name))
  {
    LanIsFine(group, e.gw);
    if WantsTunnel(e) { TunnelIsFine(e.gw, e.conf.value); }
    hide LanPart, TunnelPart, WgName, Within, Leaves, Of, Contains;
    forall c | c in Block(group, e) ensures Fine(c, e.gw) {}
  }

  lemma {:induction false} RunKeepsTidyLinks(cs: seq<Command>, s: Exit, works: set<Conf>, mac: string, wg: string)
    requires TidyLinks(s, mac, wg) && mac != wg && forall c :: c in cs ==> Leaves(c, wg)
    ensures TidyLinks(Run(cs, s, works), mac, wg)
  {
    if cs != [] {
      hide Exec, TidyLinks, Leaves;
      assert cs[0] in cs && forall c :: c in cs[1..] ==> c in cs;
      ExecKeepsTidyLinks(cs[0], s, works, mac, wg);
      RunKeepsTidyLinks(cs[1..], Exec(cs[0], s, works), works, mac, wg);
    }
  }

  lemma {:induction false} RunKeepsTidyFirewall(cs: seq<Command>, s: Exit, works: set<Conf>, mac: string, wg: string)
    requires TidyFirewall(s, mac, wg)
    ensures TidyFirewall(Run(cs, s, works), mac, wg)
  {
    if cs != [] {
      hide Exec, TidyFirewall;
      ExecKeepsTidyFirewall(cs[0], s, works, mac, wg);
      RunKeepsTidyFirewall(cs[1..], Exec(cs[0], s, works), works, mac, wg);
    }
  }

  // ---------------------------------------------------------------- rules alone

  function ExecRules(c: Command, rules: seq<Rule>): seq<Rule> {
    match c
    case RuleRemove(sel, table) => Removed(rules, sel, table)
    case RulePut(r) => Insert(rules, r)
    case _ => rules
  }

  function RunRules(cs: seq<Command>, rules: seq<Rule>): seq<Rule> {
    if cs == [] then rules else RunRules(cs[1..], ExecRules(cs[0], rules))
  }

  lemma {:induction false} RulesAlone(cs: seq<Command>, s: Exit, works: set<Conf>)
    ensures Run(cs, s, works).rules == RunRules(cs, s.rules)
  {
    if cs != [] {
      RulesAlone(cs[1..], Exec(cs[0], s, works), works);
      assert Exec(cs[0], s, works).rules == ExecRules(cs[0], s.rules);
    }
  }

  lemma {:induction false} RunRulesAppend(a: seq<Command>, b: seq<Command>, rules: seq<Rule>)
    ensures RunRules(a + b, rules) == RunRules(b, RunRules(a, rules))
  {
    if a == [] {
      assert a + b == b;
    } else {
      assert (a + b)[1..] == a[1..] + b;
      RunRulesAppend(a[1..], b, ExecRules(a[0], rules));
    }
  }

  lemma {:induction false} NoRuleCommands(cs: seq<Command>, rules: seq<Rule>)
    requires forall c :: c in cs ==> !c.RuleRemove? && !c.RulePut?
    ensures RunRules(cs, rules) == rules
  {
    if cs != [] {
      assert cs[0] in cs && forall c :: c in cs[1..] ==> c in cs;
      NoRuleCommands(cs[1..], rules);
    }
  }

  function LanRules(rules: seq<Rule>, gw: Gateway): seq<Rule>
    requires !Skipped(gw)
  {
    var slot := gw.slot.value;
    var from := From(gw.lanIp.value);
    Removed(Insert(Removed(rules, from, slot), Rule(32000 + slot, from, slot)), Iif(WgName(gw.name)), slot)
  }

  function TunnelRule(gw: Gateway): Rule
    requires gw.slot.Some?
  {
    Rule(32500 + gw.slot.value, Iif(WgName(gw.name)), gw.slot.value)
  }

  lemma ThreeRules(a: Command, b: Command, c: Command, rules: seq<Rule>)
    ensures RunRules([a, b, c], rules) == ExecRules(c, ExecRules(b, ExecRules(a, rules)))
  {
    hide ExecRules;
    assert [a, b, c][1..] == [b, c] && [b, c][1..] == [c] && [c][1..] == [];
    var r2 := ExecRules(b, ExecRules(a, rules));
    assert RunRules([c], r2) == ExecRules(c, r2);
    assert RunRules([b, c], ExecRules(a, rules)) == RunRules([c], r2);
  }

  lemma LanPartRules(group: Group, gw: Gateway, rules: seq<Rule>)
    requires !Skipped(gw)
    ensures RunRules(LanPart(group, gw), rules) == LanRules(rules, gw)
  {
    var slot := gw.slot.value;
    var mac := MacName(slot);
    var ip := gw.lanIp.value;
    hide WgName, MacName, Decimal;
    var links := [LinkDel(mac), MacAdd(mac, group.parent), AddrAdd(mac, ip, |group.lanNet|), LinkUp(mac),
      NameTable(slot, "deeporc-" + Decimal(slot)), RouteVia(slot, group.lanGw, mac), RouteLink(slot, group.lanNet, mac)];
    var last := [RuleRemove(From(ip), slot), RulePut(Rule(32000 + slot, From(ip), slot)), RuleRemove(Iif(WgName(gw.name)), slot)];
    NoRuleCommands(links, rules);
    RunRulesAppend(links, last, rules);
    ThreeRules(last[0], last[1], last[2], rules);
    assert LanPart(group, gw) == links + last;
  }

  lemma TunnelPartRules(gw: Gateway, conf: Conf, rules: seq<Rule>)
    requires gw.slot.Some?
    ensures RunRules(TunnelPart(gw, conf), rules) == Insert(rules, TunnelRule(gw))
  {
    var mac := MacName(gw.slot.value);
    var wg := WgName(gw.name);
    hide WgName, MacName, Insert;
    var first := [WriteConf(wg, conf), QuickDown(wg), QuickUp(wg), SetMtu(wg, MTU)];
    var last := [Accept(Fwd(wg, mac, false)), Accept(Fwd(mac, wg, true)), Masquerade(mac)];
    var put := [RulePut(TunnelRule(gw))];
    NoRuleCommands(first, rules);
    RunRulesAppend(first, put + last, rules);
    RunRulesAppend(put, last, rules);
    assert put[1..] == [];
    assert RunRules(put, rules) == RunRules(put[1..], Insert(rules, TunnelRule(gw)));
    NoRuleCommands(last, Insert(rules, TunnelRule(gw)));
    assert TunnelPart(gw, conf) == first + (put + last);
  }

  lemma BlockRules(group: Group, e: Entry, rules: seq<Rule>)
    requires !Skipped(e.gw)
    ensures RunRules(Block(group, e), rules) ==
      if WantsTunnel(e) then Insert(LanRules(rules, e.gw), TunnelRule(e.gw)) else LanRules(rules, e.gw)
  {
    hide LanPart, TunnelPart, LanRules, TunnelRule, Contains;
    LanPartRules(group, e.gw, rules);
    if WantsTunnel(e) {
      RunRulesAppend(LanPart(group, e.gw), WantedTunnel(e), rules);
      TunnelPartRules(e.gw, e.conf.value, LanRules(rules, e.gw));
    } else {
      assert Block(group, e) == LanPart(group, e.gw);
    }
  }

  lemma LanRulesTidy(rules: seq<Rule>, gw: Gateway)
    requires !Skipped(gw) && TidyRules(rules, gw)
    ensures TidyRules(LanRules(rules, gw), gw)
    ensures TidyRules(Insert(LanRules(rules, gw), TunnelRule(gw)), gw)
  {
    var slot := gw.slot.value;
    var from := From(gw.lanIp.value);
    var iif := Iif(WgName(gw.name));
    var r1 := Removed(rules, from, slot);
    var r2 := Insert(r1, Rule(32000 + slot, from, slot));
    var r3 := Removed(r2, iif, slot);
    hide RuleCount, Insert, Removed, WgName;
    CountRemoved(rules, from, slot, from, slot);
    CountRemoved(rules, from, slot, iif, slot);
    CountInsert(r1, Rule(32000 + slot, from, slot), from, slot);
    CountInsert(r1, Rule(32000 + slot, from, slot), iif, slot);
    CountRemoved(r2, iif, slot, from, slot);
    CountRemoved(r2, iif, slot, iif, slot);
    CountInsert(r3, TunnelRule(gw), from, slot);
    CountInsert(r3, TunnelRule(gw), iif, slot);
  }

  lemma BlockKeepsTidy(group: Group, e: Entry, s: Exit, works: set<Conf>)
    requires !Skipped(e.gw) && Tidy(s, e.gw)
    ensures Tidy(Run(Block(group, e), s, works), e.gw)
  {
    var cs := Block(group, e);
    BlockIsWithin(group, e);
    NamesDiffer(e.gw.slot.value, e.gw.name);
    RulesAlone(cs, s, works);
    BlockRules(group, e, s.rules);
    LanRulesTidy(s.rules, e.gw);
    hide Block, Run, WgName, MacName, LanRules, Insert, TunnelRule, TidyLinks, TidyFirewall, TidyRules, Leaves, RunRules;
    RunKeepsTidyLinks(cs, s, works, MacName(e.gw.slot.value), WgName(e.gw.name));
    RunKeepsTidyFirewall(cs, s, works, MacName(e.gw.slot.value), WgName(e.gw.name));
  }

  // ---------------------------------------------------------------- setup on a tidy host

  lemma OneBlock(gws: seq<Gateway>, group: Group, e: Entry, s: Exit, works: set<Conf>)
    requires Distinct(gws) && e.gw in gws && !Skipped(e.gw) && OwnTable(e.gw) && forall g :: g in gws ==> Tidy(s, g)
    ensures forall g :: g in gws ==> Tidy(Run(Block(group, e), s, works), g)
    ensures Outside(Run(Block(group, e), s, works), OfAll(gws)) == Outside(s, OfAll(gws))
  {
    var cs := Block(group, e);
    var t := Run(cs, s, works);
    BlockIsWithin(group, e);
    hide Run, Block, Of, Apart, Outside, Within, Leaves, WgName, Distinct;
    forall g | g in gws ensures Tidy(t, g) {
      if g == e.gw {
        BlockKeepsTidy(group, e, s, works);
      } else if g.slot.Some? {
        hide Tidy;
        MembersApart(gws, e.gw, g);
        RunKeepsTidy(cs, s, works, Of(e.gw), g);
      }
    }
    OfAllIn(gws, e.gw);
    RunOutside(cs, s, works, OfAll(gws));
  }

  lemma {:induction false} SetupRun(gws: seq<Gateway>, group: Group, entries: seq<Entry>, s: Exit, works: set<Conf>)
    requires Distinct(gws) && (forall e :: e in entries ==> e.gw in gws && OwnTable(e.gw)) && forall g :: g in gws ==> Tidy(s, g)
    ensures var t := Run(SetupCommands(group, entries), s, works);
      (forall g :: g in gws ==> Tidy(t, g)) && Outside(t, OfAll(gws)) == Outside(s, OfAll(gws))
  {
    if entries != [] {
      hide Block, Tidy, Outside, OfAll, Distinct, Exec;
      assert entries[0] in entries && forall e :: e in entries[1..] ==> e in entries;
      if Skipped(entries[0].gw) {
        assert [] + SetupCommands(group, entries[1..]) == SetupCommands(group, entries[1..]);
        SetupRun(gws, group, entries[1..], s, works);
      } else {
        RunAppend(Block(group, entries[0]), SetupCommands(group, entries[1..]), s, works);
        OneBlock(gws, group, entries[0], s, works);
        SetupRun(gws, group, entries[1..], Run(Block(group, entries[0]), s, works), works);
      }
    }
  }

  /** One run of a setup script: statuses, configurations and what wg-quick accepts may differ
      from run to run. */
  datatype Attempt = Attempt(group: Group, entries: seq<Entry>, works: set<Conf>)

  function Attempts(runs: seq<Attempt>, s: Exit): Exit {
    if runs == [] then s else Attempts(runs[1..], Setup(runs[0].group, runs[0].entries, s, runs[0].works))
  }

  lemma {:induction false} AttemptsKeep(gws: seq<Gateway>, runs: seq<Attempt>, s: Exit)
    requires Distinct(gws) && (forall g :: g in gws ==> Tidy(s, g))
    requires forall r :: r in runs ==> forall e :: e in r.entries ==> e.gw in gws && OwnTable(e.gw)
    ensures var t := Attempts(runs, s);
      (forall g :: g in gws ==> Tidy(t, g)) && Outside(t, OfAll(gws)) == Outside(s, OfAll(gws))
  {
    if runs != [] {
      assert runs[0] in runs && forall r :: r in runs[1..] ==> r in runs;
      var t := Setup(runs[0].group, runs[0].entries, s, runs[0].works);
      if runs[0].group.parent in s.links {
        PreludeKeeps(gws, s);
        hide Tidy, Outside, OfAll, Distinct, Prelude, Run, SetupCommands;
        SetupRun(gws, runs[0].group, runs[0].entries, Prelude(s), runs[0].works);
      }
      hide Tidy, Outside, OfAll, Distinct, Setup;
      AttemptsKeep(gws, runs[1..], t);
    }
  }

  lemma PreludeKeeps(gws: seq<Gateway>, s: Exit)
    requires forall g :: g in gws ==> Tidy(s, g)
    ensures forall g :: g in gws ==> Tidy(Prelude(s), g)
    ensures Outside(Prelude(s), OfAll(gws)) == Outside(s, OfAll(gws))
  {
    hide WgName, MacName, TidyRules;
    assert forall g :: g in gws ==> (Tidy(Prelude(s), g) <==> Tidy(s, g));
  }

  /** However often setup ran, and however the gateways' statuses and configurations changed in
      between, one teardown gives the host back as it was (the names in rt_tables aside). */
  lemma TeardownRestores(gws: seq<Gateway>, runs: seq<Attempt>, s: Exit, works: set<Conf>)
    requires Distinct(gws) && Free(s, OfAll(gws)) && forall g :: g in gws ==> OwnTable(g)
    requires forall r :: r in runs ==> forall e :: e in r.entries ==> e.gw in gws
    ensures Run(TeardownCommands(gws), Attempts(runs, s), works).(names := []) == s.(names := [])
  {
    forall g | g in gws ensures Tidy(s, g) {
      OfAllIn(gws, g);
      FreeIsTidy(s, g);
    }
    hide Tidy, Outside, OfAll, Run, TeardownCommands, Attempts, Free, OwnTable;
    AttemptsKeep(gws, runs, s);
    TeardownClears(gws, Attempts(runs, s), works);
    FreeIsOutside(s, OfAll(gws));
  }

  /** On any host that has a route, that is true exactly when no row has slot 0. */
  lemma TeardownRestoresExactly(gws: seq<Gateway>, runs: seq<Attempt>, s: Exit, works: set<Conf>)
    requires Distinct(gws) && Free(s, OfAll(gws)) && s.routes != map[]
    requires forall r :: r in runs ==> forall e :: e in r.entries ==> e.gw in gws
    ensures Run(TeardownCommands(gws), Attempts(runs, s), works).(names := []) == s.(names := []) <==>
      forall g :: g in gws ==> OwnTable(g)
  {
    if forall g :: g in gws ==> OwnTable(g) {
      TeardownRestores(gws, runs, s, works);
    } else {
      var g :| g in gws && !OwnTable(g);
      SlotZeroFlushesAll(gws, g, Attempts(runs, s), works);
      hide Run, TeardownCommands, Attempts, Free, OfAll, Distinct;
      assert Run(TeardownCommands(gws), Attempts(runs, s), works).routes != s.routes;
    }
  }
}
