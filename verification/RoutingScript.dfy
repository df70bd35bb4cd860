/** The routing script as it runs: loops of `ip` commands that change the kernel's state in
    place, proved to compute the functions of module Routing. */
module RoutingScript {
  import opened Common
  import opened Kernel
  import opened Routing

  class GatewayHost {
    var rules: seq<Rule>
    var tables: Tables
    var links: set<string>
    var tsIp: Option<Bits>
    var vmShown: bool

    function Snapshot(): Host
      reads this
    {
      Host(rules, tables, links, tsIp, vmShown)
    }

    /** `while ip rule del ...; do :; done` */
    method ScrubRules(spec: Spec)
      modifies this`rules
      ensures rules == Scrub(old(rules), spec)
    {
      var deleted := RuleDel(rules, spec);
      ScrubStep(rules, spec);
      while deleted.Some?
        invariant deleted == RuleDel(rules, spec)
        invariant Scrub(rules, spec) == Scrub(old(rules), spec)
        invariant deleted.None? ==> Scrub(rules, spec) == rules
        decreases |rules|
      {
        ScrubStep(rules, spec);
        rules := deleted.value;
        deleted := RuleDel(rules, spec);
        ScrubStep(rules, spec);
      }
    }

    method ScrubEach(specs: seq<Spec>)
      modifies this`rules
      ensures rules == ScrubAll(old(rules), specs)
    {
      for i := 0 to |specs|
        invariant ScrubAll(rules, specs[i..]) == ScrubAll(old(rules), specs)
      {
        assert specs[i..][0] == specs[i] && specs[i..][1..] == specs[i + 1..];
        ScrubRules(specs[i]);
      }
      assert specs[|specs|..] == [];
    }

    method CleanupStale()
      modifies this`rules, this`tables
      ensures Snapshot() == Cleanup(old(Snapshot()))
    {
      ScrubEach(StaleSpecs(tsIp));
      tables := tables[STALE_TABLE := map[]];
    }

    method ApplyHostLink(env: Env)
      modifies this`tables, this`vmShown
      ensures Snapshot() == HostLink(old(Snapshot()), env)
    {
      if !vmShown && HOST_IF in links && |env.vmIp| >= 16 {
        vmShown := true;
        tables := tables[MAIN := TableOf(tables, MAIN)[env.vmIp[..16] := Route(None, HOST_IF)]];
      }
    }

    /** Pins /32 routes through the gateway, one `ip route replace` after another. */
    method PinRoutes(pins: seq<Bits>, g: Bits)
      modifies this`tables
      ensures TableOf(tables, WAN) == PinAll(TableOf(old(tables), WAN), pins, g)
      ensures pins != [] ==> WAN in tables
      ensures tables == if pins == [] then old(tables) else old(tables)[WAN := TableOf(tables, WAN)]
    {
      for i := 0 to |pins|
        invariant PinAll(TableOf(tables, WAN), pins[i..], g) == PinAll(TableOf(old(tables), WAN), pins, g)
        invariant tables == if i == 0 then old(tables) else old(tables)[WAN := TableOf(tables, WAN)]
      {
        assert pins[i..][0] == pins[i] && pins[i..][1..] == pins[i + 1..];
        tables := tables[WAN := TableOf(tables, WAN)[pins[i] := Route(Some(g), HOST_IF)]];
      }
      assert pins[|pins|..] == [];
    }

    /** False when `set -e` stops the script at the default route. */
    method ApplyWanTable(env: Env) returns (ok: bool)
      modifies this`tables
      ensures var h := old(Snapshot());
        ok == (WanGw(h, env).NoHop? || (WanGw(h, env).Gw? && HOST_IF in links)) &&
        tables == if ok && WanGw(h, env).Gw?
          then h.tables[WAN := WanTable(WanOf(h), links, env, WanGw(h, env).addr)] else h.tables
    {
      var hop := WanGw(Snapshot(), env);
      if hop.NoHop? { return true; }
      if hop.Junk? || HOST_IF !in links { return false; }
      var wan := TableOf(tables, WAN)[[] := Route(Some(hop.addr), HOST_IF)];
      tables := tables[WAN := TailnetRoutes(wan, links)];
      hide TailnetRoutes, WanGw, PUBLIC_DNS, TableOf;
      PinRoutes(env.headscale, hop.addr);
      PinRoutes(PUBLIC_DNS, hop.addr);
      PinRoutes(env.doh, hop.addr);
      PinInTurn(TailnetRoutes(wan, links), env.headscale, PUBLIC_DNS, hop.addr);
      PinInTurn(TailnetRoutes(wan, links), env.headscale + PUBLIC_DNS, env.doh, hop.addr);
      return true;
    }

    /** One `ip route del` for every route of main through wg0 but the default and the subnet. */
    method StripWgPollution(env: Env)
      requires MAIN in tables
      modifies this`tables
      ensures tables == old(tables)[MAIN := Strip(old(tables)[MAIN], env)]
    {
      var main := tables[MAIN];
      var lines := set p | p in main && main[p].dev == UPLINK_IF;
      while lines != {}
        invariant MAIN in tables && tables == old(tables)[MAIN := tables[MAIN]]
        invariant lines <= main.Keys && forall p :: p in lines ==> main[p].dev == UPLINK_IF
        invariant forall p :: p in tables[MAIN] <==> p in main && (main[p].dev != UPLINK_IF || p == [] || p == env.wgSubnet || p in lines)
        invariant forall p :: p in tables[MAIN] ==> tables[MAIN][p] == main[p]
        decreases lines
      {
        var p :| p in lines;
        if p != [] && p != env.wgSubnet {
          tables := tables[MAIN := map q | q in tables[MAIN] && q != p :: tables[MAIN][q]];
        }
        lines := lines - {p};
      }
      assert tables[MAIN] == Strip(main, env);
    }

    method ApplyMainTable(env: Env)
      modifies this`tables
      ensures Snapshot() == ApplyMain(old(Snapshot()), env)
    {
      if UPLINK_IF !in links { return; }
      if MAIN in tables { StripWgPollution(env); }
      var main := TableOf(tables, MAIN);
      assert main == Strip(TableOf(old(tables), MAIN), env);
      tables := tables[MAIN := TailnetRoutes(main[[] := Route(None, UPLINK_IF)][env.wgSubnet := Route(None, UPLINK_IF)], links)];
    }

    method ApplyPolicyRules(env: Env)
      modifies this`rules
      ensures rules == AddAll(old(rules), Policy(env, tsIp))
    {
      var added := Policy(env, tsIp);
      for i := 0 to |added|
        invariant AddAll(rules, added[i..]) == AddAll(old(rules), added)
      {
        hide Policy;
        assert added[i..][0] == added[i] && added[i..][1..] == added[i + 1..];
        ScrubRules(ByPref(added[i].pref));
        rules := Insert(rules, added[i]);
      }
      assert added[|added|..] == [];
    }

    method ApplyAll(env: Env) returns (done: bool)
      modifies this`rules, this`tables, this`vmShown
      ensures Snapshot() == Apply(old(Snapshot()), env).host
      ensures done == Apply(old(Snapshot()), env).Done?
    {
      hide Cleanup, HostLink, WanGw, WanTable, ApplyMain, AddAll, Policy;
      CleanupStale();
      ApplyHostLink(env);
      done := ApplyWanTable(env);
      if done {
        ApplyMainTable(env);
        ApplyPolicyRules(env);
      }
    }

    method StopRules()
      modifies this`rules, this`tables
      ensures Snapshot() == Stop(old(Snapshot()))
    {
      CleanupStale();
      ScrubEach(OwnSpecs());
    }
  }

  lemma {:induction false} PinInTurn(t: Table, first: seq<Bits>, second: seq<Bits>, g: Bits)
    ensures PinAll(PinAll(t, first, g), second, g) == PinAll(t, first + second, g)
    decreases |first|
  {
    if first == [] {
      assert first + second == second;
    } else {
      assert (first + second)[1..] == first[1..] + second;
      PinInTurn(t[first[0] := Route(Some(g), HOST_IF)], first[1..], second, g);
    }
  }
}
