/** What the setup script emits for a row and leaves on the host for it, in the host's terms. */
module ExitHostRows {
  import opened Common
  import opened Kernel
  import opened ExitHost
  import opened ExitHostTeardown
  import opened ExitHostRestore
  import opened ExitHostTwice
  import opened ExitHostTraffic

  // ---------------------------------------------------------------- which rows get a tunnel

  predicate PartAt(s: string, part: string, i: nat) {
    i + |part| <= |s| && s[i..i + |part|] == part
  }

  lemma {:induction false} ContainsExactly(s: string, part: string)
    ensures Contains(s, part) <==> exists i: nat :: PartAt(s, part, i)
  {
    if part <= s {
      assert PartAt(s, part, 0);
    } else if s == [] {
      assert forall i: nat :: PartAt(s, part, i) ==> part == [];
    } else {
      var rest := s[1..];
      ContainsExactly(rest, part);
      forall i: nat | PartAt(rest, part, i) ensures PartAt(s, part, i + 1) {
        assert s[i + 1..i + 1 + |part|] == rest[i..i + |part|];
      }
      forall i: nat | PartAt(s, part, i) ensures i > 0 && PartAt(rest, part, i - 1) {
        assert i == 0 ==> part <= s;
        assert i > 0 ==> s[i..i + |part|] == rest[i - 1..i - 1 + |part|];
      }
    }
  }

  /** A row's commands bring up its tunnel, and add the rule for what comes out of it, exactly when
      the row is READY and has a configuration with the three markers. */
  lemma TunnelCommandsExactly(group: Group, e: Entry)
    requires e.gw.lanIp.Some? && e.gw.slot.Some?
    ensures var wg := WgName(e.gw.name);
      var wanted := e.ready && e.conf.Some? && Contains(e.conf.value.text, "[Interface]") &&
        Contains(e.conf.value.text, "[Peer]") && Contains(e.conf.value.text, "PrivateKey");
      (QuickUp(wg) in SetupCommands(group, [e]) <==> wanted) &&
      (RulePut(Rule(32500 + e.gw.slot.value, Iif(wg), e.gw.slot.value)) in SetupCommands(group, [e]) <==> wanted) &&
      ((exists c: Conf :: WriteConf(wg, c) in SetupCommands(group, [e])) <==> wanted)
  {
    var slot := e.gw.slot.value;
    var wg := WgName(e.gw.name);
    assert [e][1..] == [];
    assert SetupCommands(group, [e]) == Block(group, e) + [] == Block(group, e);
    LanHasNoTunnel(group, e.gw);
    if e.conf.Some? { TunnelHas(e.gw, e.conf.value); }
    hide Contains, LanPart, TunnelPart, WgName, SetupCommands;
  }

  lemma LanHasNoTunnel(group: Group, gw: Gateway)
    requires !Skipped(gw)
    ensures forall c :: c in LanPart(group, gw) ==>
      !c.QuickUp? && !c.WriteConf? && c != RulePut(Rule(32500 + gw.slot.value, Iif(WgName(gw.name)), gw.slot.value))
  {
    forall c | c in LanPart(group, gw)
      ensures !c.QuickUp? && !c.WriteConf? && c != RulePut(Rule(32500 + gw.slot.value, Iif(WgName(gw.name)), gw.slot.value))
    {
      LanIn(group, gw, c);
      hide LanPart, WgName, MacName;
    }
  }

  lemma TunnelHas(gw: Gateway, conf: Conf)
    requires gw.slot.Some?
    ensures var cs := TunnelPart(gw, conf);
      QuickUp(WgName(gw.name)) in cs && WriteConf(WgName(gw.name), conf) in cs &&
      RulePut(Rule(32500 + gw.slot.value, Iif(WgName(gw.name)), gw.slot.value)) in cs
  {
    hide WgName, MacName;
    var cs := TunnelPart(gw, conf);
    assert cs[0] == WriteConf(WgName(gw.name), conf) && cs[2] == QuickUp(WgName(gw.name));
    assert cs[4] == RulePut(Rule(32500 + gw.slot.value, Iif(WgName(gw.name)), gw.slot.value));
  }

  // ---------------------------------------------------------------- a row without a tunnel

  /** What only the tunnel part of a gateway's block creates. */
  function TunnelThings(gw: Gateway): Footprint
    requires gw.slot.Some?
  {
    var mac := MacName(gw.slot.value);
    var wg := WgName(gw.name);
    NOTHING.(links := {wg}, fwd := {Fwd(wg, mac, false), Fwd(mac, wg, true)}, masq := {mac}, confs := {wg})
  }

  /** What the LAN part works on. */
  function LanThings(gw: Gateway): Footprint
    requires !Skipped(gw)
  {
    var slot := gw.slot.value;
    NOTHING.(links := {MacName(slot)}, tables := {slot}, sels := {(From(gw.lanIp.value), slot), (Iif(WgName(gw.name)), slot)})
  }

  lemma LanIsWithin(group: Group, gw: Gateway)
    requires !Skipped(gw) && OwnTable(gw)
    ensures AllWithin(LanPart(group, gw), LanThings(gw)) && Apart(LanThings(gw), TunnelThings(gw))
  {
    NamesDiffer(gw.slot.value, gw.name);
    forall c | c in LanPart(group, gw) ensures Within(c, LanThings(gw)) {
      LanIn(group, gw, c);
      hide LanPart, WgName, MacName;
    }
    hide WgName, MacName;
  }

  lemma OthersApart(x: Gateway, gw: Gateway)
    requires x.slot.Some? && gw.slot.Some? && x.slot != gw.slot && WgName(x.name) != WgName(gw.name)
    ensures Apart(Of(x), TunnelThings(gw))
  {
    DistinctApart(x, gw);
    hide WgName, MacName;
  }

  predicate KeepsApart(x: Entry, e: Entry) {
    x == e || x.gw.slot.None? || (x.gw.slot != e.gw.slot && WgName(x.gw.name) != WgName(e.gw.name))
  }

  lemma {:induction false} NoTunnelIsMade(group: Group, entries: seq<Entry>, e: Entry, s: Exit, works: set<Conf>)
    requires !Skipped(e.gw) && !WantsTunnel(e) && Free(s, TunnelThings(e.gw))
    requires forall x :: x in entries ==> KeepsApart(x, e) && OwnTable(x.gw)
    ensures Free(Run(SetupCommands(group, entries), s, works), TunnelThings(e.gw))
  {
    if entries != [] {
      var x := entries[0];
      var rest := SetupCommands(group, entries[1..]);
      assert x in entries && forall y :: y in entries[1..] ==> y in entries;
      if Skipped(x.gw) {
        assert [] + rest == rest;
        hide Free, TunnelThings, WantsTunnel;
        NoTunnelIsMade(group, entries[1..], e, s, works);
      } else {
        assert MAIN !in TunnelThings(e.gw).tables;
        RunAppend(Block(group, x), rest, s, works);
        if x == e {
          LanIsWithin(group, x.gw);
          assert Block(group, x) == LanPart(group, x.gw);
          hide Free, TunnelThings, LanThings, WantsTunnel, AllWithin, Apart, Block;
          RunKeepsFree(LanPart(group, x.gw), s, works, LanThings(x.gw), TunnelThings(e.gw));
        } else {
          OthersApart(x.gw, e.gw);
          BlockIsWithin(group, x);
          hide Free, TunnelThings, WantsTunnel, AllWithin, Apart, Block, Of, Leaves;
          RunKeepsFree(Block(group, x), s, works, Of(x.gw), TunnelThings(e.gw));
        }
        hide Free, TunnelThings, WantsTunnel, Block;
        NoTunnelIsMade(group, entries[1..], e, Run(Block(group, x), s, works), works);
      }
    }
  }

  lemma TunnelThingsFree(gw: Gateway, s: Exit)
    requires gw.slot.Some? && Free(s, Of(gw))
    ensures Free(s, TunnelThings(gw))
  {
    hide WgName, MacName;
  }

  lemma RowsKeepApart(entries: seq<Entry>, e: Entry)
    requires DistinctEntries(entries) && e in entries && e.gw.slot.Some?
    ensures forall x :: x in entries ==> KeepsApart(x, e)
  {
    hide WgName;
    var j :| 0 <= j < |entries| && entries[j] == e;
    forall x | x in entries ensures KeepsApart(x, e) {
      var i :| 0 <= i < |entries| && entries[i] == x;
      assert i < j || j < i || x == e;
    }
  }

  // ---------------------------------------------------------------- a row on the host after setup

  /** The gateway's macvlan, routing table and rule are there for every row with a LAN address and
      a slot. */
  lemma SetupGivesLan(group: Group, entries: seq<Entry>, s: Exit, works: set<Conf>, e: Entry)
    requires DistinctEntries(entries) && UsableSlots(entries) && Sorted(s.rules) && group.parent in s.links
    requires forall x :: x in entries ==> Free(s, Of(x.gw))
    requires e in entries && e.gw.lanIp.Some? && e.gw.slot.Some?
    ensures var t := Setup(group, entries, s, works);
      var ip := e.gw.lanIp.value;
      var slot := e.gw.slot.value;
      var mac := "mac_" + Decimal(slot);
      && mac in t.links && t.links[mac] == Macvlan(group.parent, Some((ip, |group.lanNet|)), true)
      && (slot, group.lanNet) in t.routes && t.routes[(slot, group.lanNet)] == Route(None, mac)
      && (|group.lanNet| <= |ip| && ip[..|group.lanNet|] <= group.lanGw && group.lanNet != [] ==>
            (slot, []) in t.routes && t.routes[(slot, [])] == Route(Some(group.lanGw), mac))
      && (forall p :: (slot, p) in t.routes ==> p == [] || p == group.lanNet)
      && Rule(32000 + slot, From(ip), slot) in t.rules && Named(t.names, slot)
  {
    var t := Setup(group, entries, s, works);
    SetupBuilds(group, entries, s, works);
    assert Settled(group, e, t, works);
    hide Setup, DistinctEntries, UsableSlots, Free, TunnelSettled, FirewallSettled, WantsTunnel, Decimal, WgName, Sorted;
    FixedIsThere(t.rules, LanRule(e.gw)) by { hide LanSettled; }
    hide Fixed, RuleCount;
    LanInTable(group, e.gw, t);
  }

  lemma LanInTable(group: Group, gw: Gateway, t: Exit)
    requires !Skipped(gw) && LanSettled(group, gw, t)
    ensures var slot := gw.slot.value;
      var ip := gw.lanIp.value;
      var mac := MacName(slot);
      && mac in t.links && t.links[mac] == Macvlan(group.parent, Some((ip, |group.lanNet|)), true)
      && (slot, group.lanNet) in t.routes && t.routes[(slot, group.lanNet)] == Route(None, mac)
      && (|group.lanNet| <= |ip| && ip[..|group.lanNet|] <= group.lanGw && group.lanNet != [] ==>
            (slot, []) in t.routes && t.routes[(slot, [])] == Route(Some(group.lanGw), mac))
      && (forall p :: (slot, p) in t.routes ==> p == [] || p == group.lanNet) && Named(t.names, slot)
  {
    hide MacName, Named;
    var own := LanRoutes(group, gw);
    assert (gw.slot.value, group.lanNet) in own;
    assert forall k :: k in own ==> k == (gw.slot.value, []) || k == (gw.slot.value, group.lanNet);
  }

  /** The tunnel's configuration, rule and firewall entries are there exactly for the rows that are
      READY and have a configuration with the three markers; and then the tunnel is up, unless
      wg-quick cannot bring it up or its subnet is routed elsewhere. */
  lemma SetupGivesTunnelExactly(group: Group, entries: seq<Entry>, s: Exit, works: set<Conf>, e: Entry)
    requires DistinctEntries(entries) && UsableSlots(entries) && Sorted(s.rules) && group.parent in s.links
    requires forall x :: x in entries ==> Free(s, Of(x.gw))
    requires e in entries && e.gw.lanIp.Some? && e.gw.slot.Some?
    ensures var t := Setup(group, entries, s, works);
      var slot := e.gw.slot.value;
      var mac := "mac_" + Decimal(slot);
      var wg := WgName(e.gw.name);
      var wanted := e.ready && e.conf.Some? && Contains(e.conf.value.text, "[Interface]") &&
        Contains(e.conf.value.text, "[Peer]") && Contains(e.conf.value.text, "PrivateKey");
      && ((exists r :: r in t.rules && r.sel == Iif(wg) && r.table == slot) <==> wanted)
      && (wg in t.confs <==> wanted) && (Fwd(wg, mac, false) in t.forward <==> wanted)
      && (Fwd(mac, wg, true) in t.forward <==> wanted) && (mac in t.masquerade <==> wanted)
      && (wg in t.links ==> wanted)
      && (wanted ==>
            && Rule(32500 + slot, Iif(wg), slot) in t.rules && t.confs[wg] == e.conf.value
            && (wg in t.links ==> t.links[wg] == Tunnel(e.conf.value, 1380) && (MAIN, e.conf.value.allowed) in t.routes)
            && (wg in t.links ==> t.routes[(MAIN, e.conf.value.allowed)] == Route(None, wg))
            && (e.conf.value in works && (MAIN, e.conf.value.allowed) !in t.routes ==> wg in t.links))
  {
    var t := Setup(group, entries, s, works);
    var wg := WgName(e.gw.name);
    SetupBuilds(group, entries, s, works);
    assert Settled(group, e, t, works);
    if WantsTunnel(e) {
      hide Setup, DistinctEntries, UsableSlots, Free, LanSettled, Decimal, WgName, Sorted, Contains;
      FixedIsThere(t.rules, TunnelRule(e.gw));
    } else {
      RowsKeepApart(entries, e);
      TunnelThingsFree(e.gw, s);
      assert forall x :: x in entries ==> OwnTable(x.gw);
      FreeAtPrelude(s, TunnelThings(e.gw));
      NoTunnelIsMade(group, entries, e, Prelude(s), works);
      hide DistinctEntries, UsableSlots, LanSettled, Decimal, WgName, Sorted, Contains, Run, SetupCommands, Prelude, Of, KeepsApart;
      CountNone(t.rules, Iif(wg), e.gw.slot.value);
      hide RuleCount;
    }
  }

  lemma FreeAtPrelude(s: Exit, fp: Footprint)
    requires Free(s, fp)
    ensures Free(Prelude(s), fp)
  {
  }

  /** A row without LAN address or slot emits nothing, and without the parent interface the script
      stops before its first row. */
  lemma NothingToDo(group: Group, e: Entry, entries: seq<Entry>, s: Exit, works: set<Conf>)
    ensures e.gw.lanIp.None? || e.gw.slot.None? ==> SetupCommands(group, [e]) == []
    ensures e.gw.slot.None? ==> TeardownCommands([e.gw]) == []
    ensures group.parent !in s.links ==> Setup(group, entries, s, works) == s
  {
    assert [e][1..] == [] && [e.gw][1..] == [];
  }
}
