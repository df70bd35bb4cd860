/** Teardown after any number of setup runs restores the host. */
module ExitHostTeardown {
  import opened Common
  import opened Kernel
  import opened ExitHost

  // ---------------------------------------------------------------- footprints

  /** What a script may create, change or remove. */
  datatype Footprint = Footprint(
    links: set<string>,
    tables: set<nat>,
    sels: set<(Selector, nat)>,
    fwd: set<Fwd>,
    masq: set<string>,
    confs: set<string>)

  const NOTHING := Footprint({}, {}, {}, {}, {}, {})

  function Of(gw: Gateway): Footprint {
    if gw.slot.None? then NOTHING
    else
      var slot := gw.slot.value;
      var mac := MacName(slot);
      var wg := WgName(gw.name);
      Footprint({mac, wg}, {slot},
                {(Iif(wg), slot)} + if gw.lanIp.Some? then {(From(gw.lanIp.value), slot)} else {},
                {Fwd(wg, mac, false), Fwd(mac, wg, true)}, {mac}, {wg})
  }

  /** Slot 0 is no table of the gateway's own: to the kernel it names main, or every table. */
  predicate OwnTable(gw: Gateway) { gw.slot != Some(0) }

  function Both(a: Footprint, b: Footprint): Footprint {
    Footprint(a.links + b.links, a.tables + b.tables, a.sels + b.sels, a.fwd + b.fwd, a.masq + b.masq, a.confs + b.confs)
  }

  function OfAll(gws: seq<Gateway>): Footprint {
    if gws == [] then NOTHING else Both(Of(gws[0]), OfAll(gws[1..]))
  }

  predicate Apart(a: Footprint, b: Footprint) {
    a.links !! b.links && a.tables !! b.tables && a.sels !! b.sels && a.fwd !! b.fwd && a.masq !! b.masq && a.confs !! b.confs
  }

  predicate Within(c: Command, fp: Footprint) {
    match c
    case LinkDel(dev) => dev in fp.links
    case MacAdd(dev, _) => dev in fp.links
    case AddrAdd(dev, _, _) => dev in fp.links
    case LinkUp(dev) => dev in fp.links
    case NameTable(_, _) => true
    case RouteVia(table, _, dev) => table != 0 && table in fp.tables && dev in fp.links
    case RouteLink(table, _, dev) => table != 0 && table in fp.tables && dev in fp.links
    case RuleRemove(sel, table) => (sel, table) in fp.sels
    case RulePut(r) => (r.sel, r.table) in fp.sels
    case WriteConf(dev, _) => dev in fp.confs
    case QuickDown(dev) => dev in fp.links
    case QuickUp(dev) => dev in fp.links
    case SetMtu(dev, _) => dev in fp.links
    case Accept(fwd) => fwd in fp.fwd
    case Masquerade(dev) => dev in fp.masq
    case Unaccept(fwd) => fwd in fp.fwd
    case Unmasquerade(dev) => dev in fp.masq
    case RemoveConf(dev) => dev in fp.confs
    case FlushTable(table) => table != 0 && table in fp.tables
  }

  predicate AllWithin(cs: seq<Command>, fp: Footprint) {
    forall c :: c in cs ==> Within(c, fp)
  }

  // ---------------------------------------------------------------- the host outside a footprint

  function OtherRules(rules: seq<Rule>, sels: set<(Selector, nat)>): seq<Rule> {
    if rules == [] then []
    else if (rules[0].sel, rules[0].table) in sels then OtherRules(rules[1..], sels)
    else [rules[0]] + OtherRules(rules[1..], sels)
  }

  function Minus<T(==)>(s: seq<T>, drop: set<T>): seq<T> {
    if s == [] then [] else if s[0] in drop then Minus(s[1..], drop) else [s[0]] + Minus(s[1..], drop)
  }

  function OtherLinks(links: map<string, Link>, names: set<string>): map<string, Link> {
    map n | n in links && n !in names :: links[n]
  }

  function OtherRoutes(routes: map<(nat, Bits), Route>, fp: Footprint): map<(nat, Bits), Route> {
    map k | k in routes && k.0 !in fp.tables && routes[k].dev !in fp.links :: routes[k]
  }

  function OtherConfs(confs: map<string, Conf>, names: set<string>): map<string, Conf> {
    map n | n in confs && n !in names :: confs[n]
  }

  /** The host with everything in the footprint taken away; table names are not compared. */
  function Outside(s: Exit, fp: Footprint): Exit {
    Exit(OtherLinks(s.links, fp.links), OtherRoutes(s.routes, fp), OtherRules(s.rules, fp.sels), Minus(s.forward, fp.fwd),
         Minus(s.masquerade, fp.masq), OtherConfs(s.confs, fp.confs), [])
  }

  predicate Free(s: Exit, fp: Footprint) {
    s.links.Keys !! fp.links &&
    (forall k :: k in s.routes ==> k.0 !in fp.tables && s.routes[k].dev !in fp.links) &&
    (forall r :: r in s.rules ==> (r.sel, r.table) !in fp.sels) &&
    (forall f :: f in s.forward ==> f !in fp.fwd) &&
    (forall d :: d in s.masquerade ==> d !in fp.masq) &&
    s.confs.Keys !! fp.confs
  }

  lemma {:induction false} NoOtherRules(rules: seq<Rule>, sels: set<(Selector, nat)>)
    requires forall r :: r in rules ==> (r.sel, r.table) !in sels
    ensures OtherRules(rules, sels) == rules
  {
    if rules != [] { assert rules[0] in rules; NoOtherRules(rules[1..], sels); }
  }

  lemma {:induction false} MinusNone<T>(s: seq<T>, drop: set<T>)
    requires forall x :: x in s ==> x !in drop
    ensures Minus(s, drop) == s
  {
    if s != [] { assert s[0] in s; MinusNone(s[1..], drop); }
  }

  lemma FreeIsOutside(s: Exit, fp: Footprint)
    requires Free(s, fp)
    ensures Outside(s, fp) == s.(names := [])
  {
    NoOtherRules(s.rules, fp.sels);
    MinusNone(s.forward, fp.fwd);
    MinusNone(s.masquerade, fp.masq);
  }

  lemma {:induction false} MinusAppend<T>(s: seq<T>, x: T, drop: set<T>)
    ensures Minus(s + [x], drop) == if x in drop then Minus(s, drop) else Minus(s, drop) + [x]
  {
    if s == [] {
      assert [x][1..] == [];
    } else {
      assert (s + [x])[1..] == s[1..] + [x];
      MinusAppend(s[1..], x, drop);
    }
  }

  lemma {:induction false} MinusWithout<T>(s: seq<T>, x: T, drop: set<T>)
    requires x in drop
    ensures Minus(Without(s, x), drop) == Minus(s, drop)
  {
    if s != [] && s[0] != x {
      MinusWithout(s[1..], x, drop);
      assert ([s[0]] + Without(s[1..], x))[1..] == Without(s[1..], x);
    }
  }

  lemma {:induction false} OtherRulesInsert(rules: seq<Rule>, r: Rule, sels: set<(Selector, nat)>)
    requires (r.sel, r.table) in sels
    ensures OtherRules(Insert(rules, r), sels) == OtherRules(rules, sels)
  {
    if rules == [] {
      assert [r][1..] == [];
    } else if r.pref < rules[0].pref {
      assert ([r] + rules)[1..] == rules;
    } else {
      OtherRulesInsert(rules[1..], r, sels);
      assert ([rules[0]] + Insert(rules[1..], r))[1..] == Insert(rules[1..], r);
    }
  }

  lemma {:induction false} OtherRulesDel(rules: seq<Rule>, sel: Selector, table: nat, sels: set<(Selector, nat)>)
    requires (sel, table) in sels
    ensures RuleDel(rules, BySel(sel, table)).Some? ==>
      OtherRules(RuleDel(rules, BySel(sel, table)).value, sels) == OtherRules(rules, sels)
  {
    var spec := BySel(sel, table);
    if rules != [] && !Fits(spec, rules[0]) {
      OtherRulesDel(rules[1..], sel, table, sels);
      if RuleDel(rules[1..], spec).Some? {
        var rest := RuleDel(rules[1..], spec).value;
        assert ([rules[0]] + rest)[1..] == rest;
      }
    }
  }

  lemma ExecOtherLinks(c: Command, s: Exit, works: set<Conf>, fp: Footprint)
    requires Within(c, fp)
    ensures OtherLinks(Exec(c, s, works).links, fp.links) == OtherLinks(s.links, fp.links)
  {
    var t := Exec(c, s, works);
    assert OtherLinks(t.links, fp.links) == OtherLinks(s.links, fp.links);
  }

  lemma DropOther(s: Exit, dev: string, fp: Footprint)
    requires dev in fp.links
    ensures OtherRoutes(DropLink(s, dev).routes, fp) == OtherRoutes(s.routes, fp)
  {
  }

  lemma PutOther(routes: map<(nat, Bits), Route>, k: (nat, Bits), r: Route, fp: Footprint)
    requires r.dev in fp.links && (k.0 in fp.tables || k !in routes)
    ensures OtherRoutes(routes[k := r], fp) == OtherRoutes(routes, fp)
  {
  }

  lemma FlushOther(routes: map<(nat, Bits), Route>, table: nat, fp: Footprint)
    requires table in fp.tables
    ensures OtherRoutes(map k | k in routes && k.0 != table :: routes[k], fp) == OtherRoutes(routes, fp)
  {
  }

  lemma ExecOtherRoutes(c: Command, s: Exit, works: set<Conf>, fp: Footprint)
    requires Within(c, fp)
    ensures OtherRoutes(Exec(c, s, works).routes, fp) == OtherRoutes(s.routes, fp)
  {
    hide OtherRoutes, DropLink;
    match c {
      case LinkDel(dev) => DropOther(s, dev, fp);
      case QuickDown(dev) => DropOther(s, dev, fp);
      case RouteVia(table, via, dev) => PutOther(s.routes, (table, []), Route(Some(via), dev), fp);
      case RouteLink(table, net, dev) => PutOther(s.routes, (table, net), Route(None, dev), fp);
      case QuickUp(dev) =>
        if dev in s.confs && (MAIN, s.confs[dev].allowed) !in s.routes {
          PutOther(s.routes, (MAIN, s.confs[dev].allowed), Route(None, dev), fp);
        }
      case FlushTable(table) => FlushOther(s.routes, table, fp);
      case _ =>
    }
  }

  lemma ExecOtherConfs(c: Command, s: Exit, works: set<Conf>, fp: Footprint)
    requires Within(c, fp)
    ensures OtherConfs(Exec(c, s, works).confs, fp.confs) == OtherConfs(s.confs, fp.confs)
  {
    assert OtherConfs(Exec(c, s, works).confs, fp.confs) == OtherConfs(s.confs, fp.confs);
  }

  lemma ExecOtherLists(c: Command, s: Exit, works: set<Conf>, fp: Footprint)
    requires Within(c, fp)
    ensures var t := Exec(c, s, works);
      OtherRules(t.rules, fp.sels) == OtherRules(s.rules, fp.sels) && Minus(t.forward, fp.fwd) == Minus(s.forward, fp.fwd) &&
      Minus(t.masquerade, fp.masq) == Minus(s.masquerade, fp.masq)
  {
    hide OtherRules, Minus, Without, Insert, RuleDel;
    match c {
      case RuleRemove(sel, table) => OtherRulesDel(s.rules, sel, table, fp.sels);
      case RulePut(r) => OtherRulesInsert(s.rules, r, fp.sels);
      case Accept(f) => MinusAppend(s.forward, f, fp.fwd);
      case Masquerade(d) => MinusAppend(s.masquerade, d, fp.masq);
      case Unaccept(f) => MinusWithout(s.forward, f, fp.fwd);
      case Unmasquerade(d) => MinusWithout(s.masquerade, d, fp.masq);
      case _ =>
    }
  }

  /** A command within a footprint changes nothing outside it. */
  lemma ExecOutside(c: Command, s: Exit, works: set<Conf>, fp: Footprint)
    requires Within(c, fp)
    ensures Outside(Exec(c, s, works), fp) == Outside(s, fp)
  {
    ExecOtherLinks(c, s, works, fp);
    ExecOtherRoutes(c, s, works, fp);
    ExecOtherConfs(c, s, works, fp);
    ExecOtherLists(c, s, works, fp);
    hide Exec, OtherLinks, OtherRoutes, OtherConfs, OtherRules, Minus, Within;
  }

  lemma {:induction false} RunOutside(cs: seq<Command>, s: Exit, works: set<Conf>, fp: Footprint)
    requires AllWithin(cs, fp)
    ensures Outside(Run(cs, s, works), fp) == Outside(s, fp)
  {
    if cs != [] {
      assert cs[0] in cs && forall c :: c in cs[1..] ==> c in cs;
      ExecOutside(cs[0], s, works, fp);
      RunOutside(cs[1..], Exec(cs[0], s, works), works, fp);
    }
  }

  // ---------------------------------------------------------------- no artefact twice

  function RuleCount(rules: seq<Rule>, sel: Selector, table: nat): nat {
    if rules == [] then 0
    else (if Fits(BySel(sel, table), rules[0]) then 1 else 0) + RuleCount(rules[1..], sel, table)
  }

  function Times<T(==)>(s: seq<T>, x: T): nat {
    if s == [] then 0 else (if s[0] == x then 1 else 0) + Times(s[1..], x)
  }

  predicate TidyLinks(s: Exit, mac: string, wg: string) {
    (wg in s.links ==> wg in s.confs && s.links[wg].Tunnel?) &&
    forall k :: k in s.routes && (s.routes[k].dev == mac || s.routes[k].dev == wg) ==> s.routes[k].dev in s.links
  }

  predicate TidyRules(rules: seq<Rule>, gw: Gateway)
    requires gw.slot.Some?
  {
    (gw.lanIp.Some? ==> RuleCount(rules, From(gw.lanIp.value), gw.slot.value) <= 1) &&
    RuleCount(rules, Iif(WgName(gw.name)), gw.slot.value) <= 1
  }

  predicate TidyFirewall(s: Exit, mac: string, wg: string) {
    Times(s.forward, Fwd(wg, mac, false)) <= 1 && Times(s.forward, Fwd(mac, wg, true)) <= 1 && Times(s.masquerade, mac) <= 1
  }

  /** Every artefact of the gateway is there at most once, and in a form the teardown removes. */
  predicate Tidy(s: Exit, gw: Gateway) {
    gw.slot.Some? ==>
      var mac := MacName(gw.slot.value);
      var wg := WgName(gw.name);
      TidyLinks(s, mac, wg) && TidyRules(s.rules, gw) && TidyFirewall(s, mac, wg)
  }

  lemma {:induction false} CountNone(rules: seq<Rule>, sel: Selector, table: nat)
    ensures RuleCount(rules, sel, table) == 0 <==> forall r :: r in rules ==> !Fits(BySel(sel, table), r)
  {
    if rules != [] {
      CountNone(rules[1..], sel, table);
      assert rules[0] in rules && forall r :: r in rules <==> r == rules[0] || r in rules[1..];
    }
  }

  lemma {:induction false} TimesNone<T>(s: seq<T>, x: T)
    ensures Times(s, x) == 0 <==> x !in s
  {
    if s != [] { TimesNone(s[1..], x); }
  }

  lemma {:induction false} TimesWithout<T>(s: seq<T>, x: T, y: T)
    ensures Times(Without(s, x), y) == if x == y && Times(s, y) > 0 then Times(s, y) - 1 else Times(s, y)
  {
    if s != [] {
      TimesWithout(s[1..], x, y);
      assert ([s[0]] + Without(s[1..], x))[1..] == Without(s[1..], x);
    }
  }

  lemma {:induction false} TimesAppend<T>(s: seq<T>, x: T, y: T)
    ensures Times(s + [x], y) == Times(s, y) + if x == y then 1 else 0
  {
    if s == [] {
      assert [x][1..] == [];
    } else {
      TimesAppend(s[1..], x, y);
      assert (s + [x])[1..] == s[1..] + [x];
    }
  }

  lemma {:induction false} CountInsert(rules: seq<Rule>, r: Rule, sel: Selector, table: nat)
    ensures RuleCount(Insert(rules, r), sel, table) == RuleCount(rules, sel, table) + if Fits(BySel(sel, table), r) then 1 else 0
  {
    if rules == [] {
      assert [r][1..] == [];
    } else if r.pref < rules[0].pref {
      assert ([r] + rules)[1..] == rules;
    } else {
      CountInsert(rules[1..], r, sel, table);
      assert ([rules[0]] + Insert(rules[1..], r))[1..] == Insert(rules[1..], r);
    }
  }

  /** What `ip rule del` leaves, also when it fails. */
  function Removed(rules: seq<Rule>, sel: Selector, table: nat): seq<Rule> {
    match RuleDel(rules, BySel(sel, table)) case Some(rest) => rest case None => rules
  }

  lemma {:induction false} CountRemoved(rules: seq<Rule>, del: Selector, t: nat, sel: Selector, table: nat)
    ensures var n := RuleCount(rules, sel, table);
      RuleCount(Removed(rules, del, t), sel, table) == if del == sel && t == table && n > 0 then n - 1 else n
    ensures RuleDel(rules, BySel(del, t)).None? <==> RuleCount(rules, del, t) == 0
  {
    if rules != [] {
      CountRemoved(rules[1..], del, t, sel, table);
      if !Fits(BySel(del, t), rules[0]) && RuleDel(rules[1..], BySel(del, t)).Some? {
        var rest := RuleDel(rules[1..], BySel(del, t)).value;
        assert ([rules[0]] + rest)[1..] == rest;
      }
    }
  }

  lemma FreeIsTidy(s: Exit, gw: Gateway)
    requires Free(s, Of(gw))
    ensures Tidy(s, gw)
  {
    if gw.slot.Some? {
      var slot := gw.slot.value;
      var mac := MacName(slot);
      var wg := WgName(gw.name);
      if gw.lanIp.Some? { CountNone(s.rules, From(gw.lanIp.value), slot); }
      CountNone(s.rules, Iif(wg), slot);
      TimesNone(s.forward, Fwd(wg, mac, false));
      TimesNone(s.forward, Fwd(mac, wg, true));
      TimesNone(s.masquerade, mac);
    }
  }

  // ---------------------------------------------------------------- other gateways' commands

  lemma ExecKeepsFree(c: Command, s: Exit, works: set<Conf>, fp: Footprint, other: Footprint)
    requires Within(c, fp) && Apart(fp, other) && MAIN !in other.tables && Free(s, other)
    ensures Free(Exec(c, s, works), other)
  {
    match c {
      case RuleRemove(sel, table) => DelMembers(s.rules, BySel(sel, table));
      case RulePut(r) => InsertMembers(s.rules, r);
      case Unaccept(f) => WithoutMembers(s.forward, f);
      case Unmasquerade(d) => WithoutMembers(s.masquerade, d);
      case _ =>
    }
  }

  lemma {:induction false} DelMembers(rules: seq<Rule>, spec: Spec)
    ensures RuleDel(rules, spec).Some? ==> forall r :: r in RuleDel(rules, spec).value ==> r in rules
  {
    if rules != [] { DelMembers(rules[1..], spec); }
  }

  lemma {:induction false} WithoutMembers<T>(s: seq<T>, x: T)
    ensures forall y :: y in Without(s, x) ==> y in s
  {
    if s != [] { WithoutMembers(s[1..], x); }
  }

  lemma {:induction false} RunKeepsFree(cs: seq<Command>, s: Exit, works: set<Conf>, fp: Footprint, other: Footprint)
    requires AllWithin(cs, fp) && Apart(fp, other) && MAIN !in other.tables && Free(s, other)
    ensures Free(Run(cs, s, works), other)
  {
    if cs != [] {
      hide Exec, Within, Free;
      assert cs[0] in cs && forall c :: c in cs[1..] ==> c in cs;
      ExecKeepsFree(cs[0], s, works, fp, other);
      RunKeepsFree(cs[1..], Exec(cs[0], s, works), works, fp, other);
    }
  }

  lemma ExecKeepsTidy(c: Command, s: Exit, works: set<Conf>, fp: Footprint, gw: Gateway)
    requires Within(c, fp) && Apart(fp, Of(gw)) && Tidy(s, gw)
    ensures Tidy(Exec(c, s, works), gw)
  {
    if gw.slot.Some? {
      var slot := gw.slot.value;
      var mac := MacName(slot);
      var wg := WgName(gw.name);
      assert mac in Of(gw).links && wg in Of(gw).links && wg in Of(gw).confs && mac in Of(gw).masq;
      assert Fwd(wg, mac, false) in Of(gw).fwd && Fwd(mac, wg, true) in Of(gw).fwd && (Iif(wg), slot) in Of(gw).sels;
      assert gw.lanIp.Some? ==> (From(gw.lanIp.value), slot) in Of(gw).sels;
      NamesDiffer(slot, gw.name);
      hide Of, MacName, WgName;
      ExecKeepsTidyLinks(c, s, works, mac, wg);
      ExecKeepsTidyRules(c, s, works, gw);
      ExecKeepsTidyFirewall(c, s, works, mac, wg);
    }
  }

  lemma NamesDiffer(slot: nat, name: string)
    ensures MacName(slot) != WgName(name)
  {
    assert MacName(slot)[0] == 'm' && WgName(name)[0] == 'w';
  }

  predicate Leaves(c: Command, dev: string) {
    match c
    case LinkDel(d) => d != dev
    case MacAdd(d, _) => d != dev
    case RemoveConf(d) => d != dev
    case _ => true
  }

  lemma ExecKeepsTidyLinks(c: Command, s: Exit, works: set<Conf>, mac: string, wg: string)
    requires TidyLinks(s, mac, wg) && mac != wg && Leaves(c, wg)
    ensures TidyLinks(Exec(c, s, works), mac, wg)
  {
  }

  lemma ExecKeepsTidyRules(c: Command, s: Exit, works: set<Conf>, gw: Gateway)
    requires gw.slot.Some? && TidyRules(s.rules, gw)
    requires c.RulePut? ==> c.rule.table != gw.slot.value || (c.rule.sel != Iif(WgName(gw.name)) && Some(c.rule.sel) != FromLan(gw))
    ensures TidyRules(Exec(c, s, works).rules, gw)
  {
    var slot := gw.slot.value;
    match c {
      case RuleRemove(sel, table) =>
        CountRemoved(s.rules, sel, table, Iif(WgName(gw.name)), slot);
        if gw.lanIp.Some? { CountRemoved(s.rules, sel, table, From(gw.lanIp.value), slot); }
      case RulePut(r) =>
        CountInsert(s.rules, r, Iif(WgName(gw.name)), slot);
        if gw.lanIp.Some? { CountInsert(s.rules, r, From(gw.lanIp.value), slot); }
      case _ =>
    }
  }

  function FromLan(gw: Gateway): Option<Selector> {
    if gw.lanIp.Some? then Some(From(gw.lanIp.value)) else None
  }

  lemma ExecKeepsTimes<T>(s: seq<T>, x: T, y: T)
    requires Times(s, y) <= 1
    ensures Times(Ensure(s, x), y) <= 1 && Times(Without(s, x), y) <= 1
  {
    TimesNone(s, y);
    TimesAppend(s, x, y);
    TimesWithout(s, x, y);
  }

  lemma ExecKeepsTidyFirewall(c: Command, s: Exit, works: set<Conf>, mac: string, wg: string)
    requires TidyFirewall(s, mac, wg)
    ensures TidyFirewall(Exec(c, s, works), mac, wg)
  {
    hide Ensure, Times, Without;
    match c {
      case Accept(f) =>
        ExecKeepsTimes(s.forward, f, Fwd(wg, mac, false));
        ExecKeepsTimes(s.forward, f, Fwd(mac, wg, true));
      case Unaccept(f) =>
        ExecKeepsTimes(s.forward, f, Fwd(wg, mac, false));
        ExecKeepsTimes(s.forward, f, Fwd(mac, wg, true));
      case Masquerade(d) => ExecKeepsTimes(s.masquerade, d, mac);
      case Unmasquerade(d) => ExecKeepsTimes(s.masquerade, d, mac);
      case _ =>
    }
  }

  lemma {:induction false} RunKeepsTidy(cs: seq<Command>, s: Exit, works: set<Conf>, fp: Footprint, gw: Gateway)
    requires AllWithin(cs, fp) && Apart(fp, Of(gw)) && Tidy(s, gw)
    ensures Tidy(Run(cs, s, works), gw)
  {
    if cs != [] {
      hide Exec, Within, Tidy, Of, Apart;
      assert cs[0] in cs && forall c :: c in cs[1..] ==> c in cs;
      ExecKeepsTidy(cs[0], s, works, fp, gw);
      RunKeepsTidy(cs[1..], Exec(cs[0], s, works), works, fp, gw);
    }
  }

  // ---------------------------------------------------------------- commands that only remove

  predicate Removes(c: Command) {
    c.LinkDel? || c.QuickDown? || c.RemoveConf? || c.Unmasquerade? || c.Unaccept? || c.RuleRemove? || c.FlushTable?
  }

  /** What the command is there to remove is gone. */
  predicate Gone(c: Command, s: Exit) {
    match c
    case LinkDel(dev) => dev !in s.links && forall k :: k in s.routes ==> s.routes[k].dev != dev
    case QuickDown(dev) => dev !in s.links && forall k :: k in s.routes ==> s.routes[k].dev != dev
    case RemoveConf(dev) => dev !in s.confs
    case Unmasquerade(dev) => dev !in s.masquerade
    case Unaccept(fwd) => fwd !in s.forward
    case RuleRemove(sel, table) => forall r :: r in s.rules ==> !Fits(BySel(sel, table), r)
    case FlushTable(table) => forall k :: k in s.routes ==> k.0 != table
    case _ => true
  }

  predicate Routed(s: Exit, dev: string) {
    forall k :: k in s.routes && s.routes[k].dev == dev ==> dev in s.links
  }

  /** One run of the command is enough to remove it. */
  predicate Removable(c: Command, s: Exit) {
    match c
    case LinkDel(dev) => Routed(s, dev)
    case QuickDown(dev) => Routed(s, dev) && (dev in s.links ==> dev in s.confs && s.links[dev].Tunnel?)
    case Unmasquerade(dev) => Times(s.masquerade, dev) <= 1
    case Unaccept(fwd) => Times(s.forward, fwd) <= 1
    case RuleRemove(sel, table) => RuleCount(s.rules, sel, table) <= 1
    case _ => true
  }

  lemma RemovableGoes(c: Command, s: Exit, works: set<Conf>)
    requires Removes(c) && Removable(c, s)
    ensures Gone(c, Exec(c, s, works))
  {
    var t := Exec(c, s, works);
    match c {
      case RuleRemove(sel, table) =>
        CountRemoved(s.rules, sel, table, sel, table);
        CountNone(t.rules, sel, table);
      case Unmasquerade(dev) =>
        TimesWithout(s.masquerade, dev, dev);
        TimesNone(t.masquerade, dev);
      case Unaccept(fwd) =>
        TimesWithout(s.forward, fwd, fwd);
        TimesNone(t.forward, fwd);
      case _ =>
    }
  }

  /** A removing command leaves only what was there. */
  lemma RemovingShrinks(c: Command, s: Exit, works: set<Conf>)
    requires Removes(c)
    ensures var t := Exec(c, s, works);
      t.links.Keys <= s.links.Keys && t.confs.Keys <= s.confs.Keys &&
      (forall k :: k in t.routes ==> k in s.routes && t.routes[k] == s.routes[k]) &&
      (forall r :: r in t.rules ==> r in s.rules) && (forall f :: f in t.forward ==> f in s.forward) &&
      forall d :: d in t.masquerade ==> d in s.masquerade
  {
    hide RuleDel, Without;
    match c {
      case RuleRemove(sel, table) => DelMembers(s.rules, BySel(sel, table));
      case Unaccept(f) => WithoutMembers(s.forward, f);
      case Unmasquerade(d) => WithoutMembers(s.masquerade, d);
      case _ =>
    }
  }

  lemma RemovingKeepsGone(c: Command, s: Exit, works: set<Conf>, d: Command)
    requires Removes(c) && Gone(d, s)
    ensures Gone(d, Exec(c, s, works))
  {
    RemovingShrinks(c, s, works);
    hide Exec, Removes;
  }

  lemma RemovingKeepsRemovable(c: Command, s: Exit, works: set<Conf>, d: Command)
    requires Removes(c) && Removes(d) && Removable(d, s)
    requires c.RemoveConf? && d.QuickDown? ==> c.dev != d.dev
    ensures Removable(d, Exec(c, s, works))
  {
    hide Times, Without, RuleCount;
    match c {
      case RuleRemove(sel, table) => if d.RuleRemove? { CountRemoved(s.rules, sel, table, d.sel, d.table); }
      case Unaccept(f) => if d.Unaccept? { TimesWithout(s.forward, f, d.fwd); }
      case Unmasquerade(m) => if d.Unmasquerade? { TimesWithout(s.masquerade, m, d.dev); }
      case _ =>
    }
  }

  /** No tunnel is taken down after its configuration is gone. */
  predicate ConfsLast(cs: seq<Command>) {
    forall i, j :: 0 <= i < j < |cs| && cs[i].RemoveConf? && cs[j].QuickDown? ==> cs[i].dev != cs[j].dev
  }

  lemma {:induction false} RemovingKeepsGoneAll(cs: seq<Command>, s: Exit, works: set<Conf>, d: Command)
    requires (forall c :: c in cs ==> Removes(c)) && Gone(d, s)
    ensures Gone(d, Run(cs, s, works))
  {
    if cs != [] {
      hide Exec, Removes, Gone;
      assert cs[0] in cs && forall c :: c in cs[1..] ==> c in cs;
      RemovingKeepsGone(cs[0], s, works, d);
      RemovingKeepsGoneAll(cs[1..], Exec(cs[0], s, works), works, d);
    }
  }

  lemma {:induction false} AllGoes(cs: seq<Command>, s: Exit, works: set<Conf>)
    requires (forall c :: c in cs ==> Removes(c) && Removable(c, s)) && ConfsLast(cs)
    ensures forall c :: c in cs ==> Gone(c, Run(cs, s, works))
  {
    if cs != [] {
      var t := Exec(cs[0], s, works);
      assert cs[0] in cs && forall c :: c in cs[1..] ==> c in cs;
      assert ConfsLast(cs[1..]) by { assert forall i :: 0 <= i < |cs[1..]| ==> cs[1..][i] == cs[i + 1]; }
      forall c | c in cs[1..] ensures Removable(c, t) {
        var i :| 0 <= i < |cs[1..]| && cs[1..][i] == c;
        assert cs[i + 1] == c;
        RemovingKeepsRemovable(cs[0], s, works, c);
      }
      RemovableGoes(cs[0], s, works);
      hide Exec, Removable, Gone, Removes;
      AllGoes(cs[1..], t, works);
      assert forall c :: c in cs[1..] ==> Removes(c);
      RemovingKeepsGoneAll(cs[1..], t, works, cs[0]);
    }
  }

  // ---------------------------------------------------------------- the whole teardown

  ghost predicate DistinctTunnels(gws: seq<Gateway>) {
    forall i, j :: 0 <= i < j < |gws| && gws[i].slot.Some? && gws[j].slot.Some? ==> WgName(gws[i].name) != WgName(gws[j].name)
  }

  lemma UndoIn(gw: Gateway, c: Command)
    requires gw.slot.Some?
    ensures var mac := MacName(gw.slot.value);
      var wg := WgName(gw.name);
      c in UndoPart(gw) <==>
        c == QuickDown(wg) || c == RemoveConf(wg) || c == Unmasquerade(mac) || c == Unaccept(Fwd(wg, mac, false)) ||
        c == Unaccept(Fwd(mac, wg, true)) || (gw.lanIp.Some? && c == RuleRemove(From(gw.lanIp.value), gw.slot.value)) ||
        c == RuleRemove(Iif(wg), gw.slot.value) || c == FlushTable(gw.slot.value) || c == LinkDel(mac)
  {
    hide WgName, MacName;
  }

  lemma UndoHas(gw: Gateway)
    requires gw.slot.Some?
    ensures var mac := MacName(gw.slot.value);
      var wg := WgName(gw.name);
      QuickDown(wg) in UndoPart(gw) && RemoveConf(wg) in UndoPart(gw) && Unmasquerade(mac) in UndoPart(gw) &&
      Unaccept(Fwd(wg, mac, false)) in UndoPart(gw) && Unaccept(Fwd(mac, wg, true)) in UndoPart(gw) &&
      (gw.lanIp.Some? ==> RuleRemove(From(gw.lanIp.value), gw.slot.value) in UndoPart(gw)) &&
      RuleRemove(Iif(wg), gw.slot.value) in UndoPart(gw) && FlushTable(gw.slot.value) in UndoPart(gw) && LinkDel(mac) in UndoPart(gw)
  {
    hide WgName, MacName;
  }

  lemma UndoFirst(gw: Gateway)
    requires gw.slot.Some?
    ensures forall j :: 0 < j < |UndoPart(gw)| ==> !UndoPart(gw)[j].QuickDown?
  {
    hide WgName, MacName;
    var wg := WgName(gw.name);
    var mac := MacName(gw.slot.value);
    var rest := [RemoveConf(wg), Unmasquerade(mac), Unaccept(Fwd(wg, mac, false)), Unaccept(Fwd(mac, wg, true))] +
      (if gw.lanIp.Some? then [RuleRemove(From(gw.lanIp.value), gw.slot.value)] else []) +
      [RuleRemove(Iif(wg), gw.slot.value), FlushTable(gw.slot.value), LinkDel(mac)];
    assert UndoPart(gw) == [QuickDown(wg)] + rest;
    assert forall c :: c in rest ==> !c.QuickDown?;
  }

  lemma UndoIsWithin(gw: Gateway, c: Command)
    requires gw.slot.Some? && c in UndoPart(gw)
    ensures Removes(c) && (OwnTable(gw) ==> Within(c, Of(gw))) && (c.QuickDown? || c.RemoveConf? ==> c.dev == WgName(gw.name))
  {
    UndoIn(gw, c);
    hide WgName, MacName, UndoPart;
  }

  lemma TidyIsRemovable(gw: Gateway, c: Command, s: Exit)
    requires gw.slot.Some? && c in UndoPart(gw) && Tidy(s, gw)
    ensures Removable(c, s)
  {
    UndoIn(gw, c);
    hide WgName, MacName, UndoPart, Times, RuleCount;
  }

  lemma PiecesMakeAll(gw: Gateway, s: Exit)
    requires gw.slot.Some? && forall c :: c in UndoPart(gw) ==> Gone(c, s)
    ensures Free(s, Of(gw))
  {
    var slot := gw.slot.value;
    var mac := MacName(slot);
    var wg := WgName(gw.name);
    UndoHas(gw);
    var lan := if gw.lanIp.Some? then RuleRemove(From(gw.lanIp.value), slot) else RuleRemove(Iif(wg), slot);
    assert lan in UndoPart(gw);
    var f1 := Unaccept(Fwd(wg, mac, false));
    var f2 := Unaccept(Fwd(mac, wg, true));
    assert Gone(QuickDown(wg), s) && Gone(LinkDel(mac), s) && Gone(RemoveConf(wg), s) && Gone(FlushTable(slot), s);
    assert Gone(Unmasquerade(mac), s) && Gone(f1, s) && Gone(f2, s) && Gone(lan, s) && Gone(RuleRemove(Iif(wg), slot), s);
    hide WgName, MacName, UndoPart;
    FreeFromGone(gw, s, lan);
  }

  lemma FreeFromGone(gw: Gateway, s: Exit, lan: Command)
    requires gw.slot.Some?
    requires lan == RuleRemove(if gw.lanIp.Some? then From(gw.lanIp.value) else Iif(WgName(gw.name)), gw.slot.value)
    requires var mac := MacName(gw.slot.value);
      var wg := WgName(gw.name);
      Gone(QuickDown(wg), s) && Gone(LinkDel(mac), s) && Gone(RemoveConf(wg), s) && Gone(FlushTable(gw.slot.value), s) &&
      Gone(Unmasquerade(mac), s) && Gone(Unaccept(Fwd(wg, mac, false)), s) && Gone(Unaccept(Fwd(mac, wg, true)), s) &&
      Gone(lan, s) && Gone(RuleRemove(Iif(wg), gw.slot.value), s)
    ensures Free(s, Of(gw))
  {
    hide WgName, MacName;
  }

  lemma {:induction false} TeardownIn(gws: seq<Gateway>, c: Command)
    ensures c in TeardownCommands(gws) <==> exists g :: g in gws && g.slot.Some? && c in UndoPart(g)
  {
    if gws != [] {
      hide UndoPart;
      TeardownIn(gws[1..], c);
      assert gws[0] in gws && forall g :: g in gws <==> g == gws[0] || g in gws[1..];
    }
  }

  lemma {:induction false} TeardownOrder(gws: seq<Gateway>)
    requires DistinctTunnels(gws)
    ensures ConfsLast(TeardownCommands(gws))
  {
    if gws != [] {
      var rest := TeardownCommands(gws[1..]);
      assert DistinctTunnels(gws[1..]) by { assert forall i :: 0 <= i < |gws[1..]| ==> gws[1..][i] == gws[i + 1]; }
      TeardownOrder(gws[1..]);
      if gws[0].slot.Some? {
        var undo := UndoPart(gws[0]);
        UndoFirst(gws[0]);
        hide UndoPart, WgName;
        forall a, b | a in undo && b in rest && a.RemoveConf? && b.QuickDown? ensures a.dev != b.dev {
          UndoIsWithin(gws[0], a);
          TeardownIn(gws[1..], b);
          var g :| g in gws[1..] && g.slot.Some? && b in UndoPart(g);
          UndoIsWithin(g, b);
          var k :| 0 <= k < |gws[1..]| && gws[1..][k] == g;
          assert gws[k + 1] == g;
        }
        ConfsLastConcat(undo, rest);
      }
    }
  }

  lemma ConfsLastConcat(a: seq<Command>, b: seq<Command>)
    requires ConfsLast(b) && forall j :: 0 < j < |a| ==> !a[j].QuickDown?
    requires forall x, y :: x in a && y in b && x.RemoveConf? && y.QuickDown? ==> x.dev != y.dev
    ensures ConfsLast(a + b)
  {
    forall i, j | 0 <= i < j < |a + b| && (a + b)[i].RemoveConf? && (a + b)[j].QuickDown? ensures (a + b)[i].dev != (a + b)[j].dev {
      assert (a + b)[j] == b[j - |a|] && (a + b)[j] in b;
      if i < |a| {
        assert (a + b)[i] in a;
      } else {
        assert (a + b)[i] == b[i - |a|];
      }
    }
  }

  lemma {:induction false} OfAllIn(gws: seq<Gateway>, gw: Gateway)
    requires gw in gws
    ensures forall c :: Within(c, Of(gw)) ==> Within(c, OfAll(gws))
    ensures forall s :: Free(s, OfAll(gws)) ==> Free(s, Of(gw))
  {
    hide Of;
    if gw != gws[0] { OfAllIn(gws[1..], gw); }
  }

  lemma {:induction false} OfAllFree(gws: seq<Gateway>, s: Exit)
    requires forall g :: g in gws ==> Free(s, Of(g))
    ensures Free(s, OfAll(gws))
  {
    if gws != [] {
      hide Of;
      OfAllFree(gws[1..], s);
      assert Free(s, Of(gws[0]));
    }
  }

  /** A tidy host is cleared of everything, and only of that. */
  lemma TeardownClears(gws: seq<Gateway>, s: Exit, works: set<Conf>)
    requires DistinctTunnels(gws) && forall g :: g in gws ==> Tidy(s, g) && OwnTable(g)
    ensures Run(TeardownCommands(gws), s, works).(names := []) == Outside(s, OfAll(gws))
  {
    var cs := TeardownCommands(gws);
    var t := Run(cs, s, works);
    forall c | c in cs ensures Removes(c) && Removable(c, s) && Within(c, OfAll(gws)) {
      TeardownIn(gws, c);
      var g :| g in gws && g.slot.Some? && c in UndoPart(g);
      UndoIsWithin(g, c);
      TidyIsRemovable(g, c, s);
      OfAllIn(gws, g);
    }
    TeardownOrder(gws);
    hide Removes, Removable, Within, Tidy, Run, TeardownCommands, ConfsLast, UndoPart, Free, Of, OfAll, Outside, Gone;
    AllGoes(cs, s, works);
    forall g | g in gws ensures Free(t, Of(g)) {
      if g.slot.Some? {
        forall c | c in UndoPart(g) ensures Gone(c, t) { TeardownIn(gws, c); }
        PiecesMakeAll(g, t);
      } else {
        NothingToFree(g, t);
      }
    }
    OfAllFree(gws, t);
    RunOutside(cs, s, works, OfAll(gws));
    FreeIsOutside(t, OfAll(gws));
  }

  lemma NothingToFree(gw: Gateway, s: Exit)
    requires gw.slot.None?
    ensures Free(s, Of(gw))
  {
  }

  // ---------------------------------------------------------------- slot 0

  lemma {:induction false} RemovingKeepsEmpty(cs: seq<Command>, s: Exit, works: set<Conf>)
    requires (forall c :: c in cs ==> Removes(c)) && s.routes == map[]
    ensures Run(cs, s, works).routes == map[]
  {
    if cs != [] {
      var t := Exec(cs[0], s, works);
      assert cs[0] in cs && forall c :: c in cs[1..] ==> c in cs;
      assert t.routes == map[];
      hide Exec, Removes;
      RemovingKeepsEmpty(cs[1..], t, works);
    }
  }

  lemma {:induction false} FlushingAllEmpties(cs: seq<Command>, s: Exit, works: set<Conf>)
    requires (forall c :: c in cs ==> Removes(c)) && FlushTable(0) in cs
    ensures Run(cs, s, works).routes == map[]
  {
    var t := Exec(cs[0], s, works);
    assert cs[0] in cs && forall c :: c in cs[1..] ==> c in cs;
    if cs[0] == FlushTable(0) {
      RemovingKeepsEmpty(cs[1..], t, works);
    } else {
      hide Exec, Removes;
      FlushingAllEmpties(cs[1..], t, works);
    }
  }

  /** One row with slot 0, and the teardown flushes every route of the host. */
  lemma SlotZeroFlushesAll(gws: seq<Gateway>, gw: Gateway, s: Exit, works: set<Conf>)
    requires gw in gws && gw.slot == Some(0)
    ensures Run(TeardownCommands(gws), s, works).routes == map[]
  {
    forall c | c in TeardownCommands(gws) ensures Removes(c) {
      TeardownIn(gws, c);
      var g :| g in gws && g.slot.Some? && c in UndoPart(g);
      UndoIsWithin(g, c);
    }
    UndoHas(gw);
    TeardownIn(gws, FlushTable(0));
    hide Removes, Run, TeardownCommands, UndoPart, WgName, MacName;
    FlushingAllEmpties(TeardownCommands(gws), s, works);
  }
}
