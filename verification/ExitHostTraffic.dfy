/** What a setup run achieves: every gateway's plumbing is complete, and its traffic leaves on
    its own macvlan interface. */
module ExitHostTraffic {
  import opened Common
  import opened Kernel
  import opened ExitHost
  import opened ExitHostTeardown
  import opened ExitHostRestore
  import opened ExitHostTwice

  /** After one run on a host free of the artefacts, everything every row asks for is there. */
  lemma SetupBuilds(group: Group, entries: seq<Entry>, s: Exit, works: set<Conf>)
    requires DistinctEntries(entries) && UsableSlots(entries) && Sorted(s.rules) && group.parent in s.links
    requires forall e :: e in entries ==> Free(s, Of(e.gw))
    ensures var t := Setup(group, entries, s, works);
      Sorted(t.rules) && forall e :: e in entries ==> Settled(group, e, t, works)
  {
    var p := Prelude(s);
    PreludeHalfway(group, entries, s, works);
    assert [] + entries == entries;
    hide DistinctEntries, UsableSlots, Run, Free, Of, SetupCommands, Settled;
    SetupSettles(group, [], entries, p, works);
  }

  // ---------------------------------------------------------------- the kernel's view

  function Prefixes(routes: map<(nat, Bits), Route>): set<Bits> { set k | k in routes :: k.1 }

  function TableIn(routes: map<(nat, Bits), Route>, id: nat): Table {
    map p | p in Prefixes(routes) && (id, p) in routes :: routes[(id, p)]
  }

  function TablesIn(routes: map<(nat, Bits), Route>): Tables {
    map id | id in (set k | k in routes :: k.0) :: TableIn(routes, id)
  }

  lemma TableFound(routes: map<(nat, Bits), Route>, id: nat)
    ensures forall p :: p in TableOf(TablesIn(routes), id) <==> (id, p) in routes
    ensures forall p :: p in TableOf(TablesIn(routes), id) ==> TableOf(TablesIn(routes), id)[p] == routes[(id, p)]
  {
    forall p | (id, p) in routes ensures p in TableIn(routes, id) && id in TablesIn(routes) {
      assert (id, p).1 in Prefixes(routes) && (id, p).0 == id;
    }
  }

  /** In a settled host the gateway's own table leads everywhere, and only out of its macvlan. */
  lemma OwnTableLeads(group: Group, gw: Gateway, s: Exit, dst: Bits)
    requires !Skipped(gw) && LanSettled(group, gw, s) && Reaches(MacLink(group, gw), group.lanGw)
    ensures var best := Lpm(TableOf(TablesIn(s.routes), gw.slot.value), dst);
      best.Some? && best.value.dev == MacName(gw.slot.value)
  {
    var slot := gw.slot.value;
    var t := TableOf(TablesIn(s.routes), slot);
    TableFound(s.routes, slot);
    LanRoutesShape(group, gw);
    assert (slot, []) in LanRoutes(group, gw) by { hide MacName; }
    hide Lpm, TablesIn, TableOf, LanRoutes, MacName, MacLink, Reaches;
    LpmLongest(t, dst);
    assert [] in t && [] <= dst;
    var p :| IsBest(t, dst, p) && t[p] == Lpm(t, dst).value;
    assert (slot, p) in s.routes;
  }

  // ---------------------------------------------------------------- rules after setup

  lemma {:induction false} KeptOutside(rules: seq<Rule>, sels: set<(Selector, nat)>)
    ensures forall r :: r in OtherRules(rules, sels) <==> r in rules && (r.sel, r.table) !in sels
  {
    if rules != [] { KeptOutside(rules[1..], sels); }
  }

  lemma {:induction false} SelOf(gws: seq<Gateway>, sel: Selector, table: nat)
    requires (sel, table) in OfAll(gws).sels
    ensures exists g :: g in gws && g.slot == Some(table) && (sel == Iif(WgName(g.name)) || (g.lanIp.Some? && sel == From(g.lanIp.value)))
  {
    hide WgName, MacName;
    if (sel, table) in Of(gws[0]).sels {
      assert gws[0] in gws;
    } else {
      SelOf(gws[1..], sel, table);
      assert forall g :: g in gws[1..] ==> g in gws;
    }
  }

  /** The rule selects traffic of this row's gateway, for its table. */
  predicate SelectsFor(r: Rule, gw: Gateway) {
    gw.slot == Some(r.table) && (r.sel == Iif(WgName(gw.name)) || (gw.lanIp.Some? && r.sel == From(gw.lanIp.value)))
  }

  lemma OutsideKept(group: Group, entries: seq<Entry>, s: Exit, works: set<Conf>)
    requires DistinctEntries(entries) && UsableSlots(entries) && forall e :: e in entries ==> Free(s, Of(e.gw))
    ensures var all := OfAll(GatewaysOf(entries));
      Outside(Setup(group, entries, s, works), all) == Outside(s, all)
  {
    var gws := GatewaysOf(entries);
    forall g | g in gws ensures Tidy(s, g) {
      var i :| 0 <= i < |gws| && gws[i] == g;
      assert entries[i] in entries;
      FreeIsTidy(s, g);
    }
    assert Distinct(gws) by { hide WgName; }
    assert forall e :: e in entries ==> OwnTable(e.gw);
    forall e | e in entries ensures e.gw in gws { var i :| 0 <= i < |entries| && entries[i] == e; assert gws[i] == e.gw; }
    hide Tidy, Distinct, Setup, WgName, Free, Outside, OfAll, GatewaysOf, OwnTable;
    var run := Attempt(group, entries, works);
    AttemptsKeep(gws, [run], s);
    assert [run][1..] == [];
  }

  /** A rule there after setup was there before, or is one gateway's own. */
  lemma RulesAfter(group: Group, entries: seq<Entry>, s: Exit, works: set<Conf>, r: Rule)
    requires DistinctEntries(entries) && UsableSlots(entries) && forall e :: e in entries ==> Free(s, Of(e.gw))
    requires r in Setup(group, entries, s, works).rules && r !in s.rules
    ensures exists e :: e in entries && SelectsFor(r, e.gw)
  {
    var gws := GatewaysOf(entries);
    var all := OfAll(gws);
    var t := Setup(group, entries, s, works);
    OutsideKept(group, entries, s, works);
    KeptOutside(t.rules, all.sels);
    KeptOutside(s.rules, all.sels);
    hide Setup, OfAll, OtherRules, Free, Of, WgName;
    assert Outside(t, all).rules == OtherRules(t.rules, all.sels) && Outside(s, all).rules == OtherRules(s.rules, all.sels);
    SelOf(gws, r.sel, r.table);
    var g :| g in gws && g.slot == Some(r.table) && (r.sel == Iif(WgName(g.name)) || (g.lanIp.Some? && r.sel == From(g.lanIp.value)));
    var i :| 0 <= i < |gws| && gws[i] == g;
    assert entries[i] in entries && SelectsFor(r, entries[i].gw);
  }

  // ---------------------------------------------------------------- traffic

  /** The packet is one gateway's, by the interface it came in on or by its source, and no other's. */
  predicate Belongs(p: Packet, gw: Gateway, entries: seq<Entry>) {
    forall x :: x in entries && x.gw.slot != gw.slot ==>
      p.iif != Some(WgName(x.gw.name)) && (x.gw.lanIp.Some? ==> !(x.gw.lanIp.value <= p.src))
  }

  /** No rule of the host's own, at or before `pref`, has a route for the packet. */
  predicate NobodyElse(s: Exit, after: Exit, p: Packet, pref: nat) {
    forall r :: r in s.rules && r.pref <= pref ==> Decide(r, TablesIn(after.routes), p).None?
  }

  lemma FixedIsThere(rules: seq<Rule>, r: Rule)
    requires Fixed(rules, r)
    ensures r in rules
  {
    InsertMembers(RuleDel(rules, BySel(r.sel, r.table)).value, r);
  }

  /** Traffic of a gateway's LAN address leaves on the gateway's macvlan; so does whatever comes
      out of its tunnel, once that is configured. */
  lemma TrafficLeavesOnOwnMacvlan(group: Group, entries: seq<Entry>, s: Exit, works: set<Conf>, e: Entry, p: Packet)
    requires DistinctEntries(entries) && UsableSlots(entries) && Sorted(s.rules) && group.parent in s.links
    requires forall x :: x in entries ==> Free(s, Of(x.gw))
    requires e in entries && !Skipped(e.gw) && Reaches(MacLink(group, e.gw), group.lanGw) && Belongs(p, e.gw, entries)
    requires e.gw.lanIp.value <= p.src || (WantsTunnel(e) && p.iif == Some(WgName(e.gw.name)))
    requires NobodyElse(s, Setup(group, entries, s, works), p, 32500 + e.gw.slot.value)
    ensures var t := Setup(group, entries, s, works);
      var out := Lookup(t.rules, TablesIn(t.routes), p);
      out.Some? && out.value.dev == MacName(e.gw.slot.value)
  {
    var t := Setup(group, entries, s, works);
    var slot := e.gw.slot.value;
    SetupBuilds(group, entries, s, works);
    assert Settled(group, e, t, works);
    OwnTableLeads(group, e.gw, t, p.dst);
    var own := if e.gw.lanIp.value <= p.src then LanRule(e.gw) else TunnelRule(e.gw);
    FixedIsThere(t.rules, own) by { hide LanSettled, TunnelSettled, FirewallSettled, Contains, WgName, MacName, Setup, RuleDel, Insert; }
    hide Setup, Settled, DistinctEntries, UsableSlots, Free, Of, Lpm, TablesIn, TableOf, Reaches, MacLink, MacName, WgName, Contains, Sorted;
    forall r | r in t.rules && r.pref <= own.pref && Decide(r, TablesIn(t.routes), p).Some?
      ensures Decide(r, TablesIn(t.routes), p).value.dev == MacName(slot)
    {
      if r !in s.rules {
        RulesAfter(group, entries, s, works, r);
        var x :| x in entries && SelectsFor(r, x.gw);
        assert x.gw.slot == e.gw.slot;
      }
    }
    assert Decide(own, TablesIn(t.routes), p).Some?;
    LookupDev(t.rules, TablesIn(t.routes), p, own.pref, MacName(slot));
  }
}
