/** What one `apply` leaves in the rules and tables, entry by entry. */
module RoutingOutcomes {
  import opened Common
  import opened Kernel
  import opened Routing
  import opened RoutingTheorems
  import opened RoutingPackets

  // ---------------------------------------------------------------- the gateway

  /** The gateway is read from main's default through eth0, else from the wan table's default, else
      it is the pool's first host when VM_IP lies in the pool; there is none otherwise. An eth0
      default without a next hop stops the script. */
  lemma GatewayFound(h: Host, env: Env)
    ensures var main := TableOf(h.tables, 254);
      var wan := TableOf(h.tables, 100);
      var own := [] in main && main[[]].dev == "eth0";
      && (own && main[[]].via.Some? ==> WanGw(h, env) == Gw(main[[]].via.value))
      && (own && main[[]].via.None? ==> WanGw(h, env) == Junk && Apply(h, env).Aborted?)
      && (!own && [] in wan && wan[[]].via.Some? ==> WanGw(h, env) == Gw(wan[[]].via.value))
      && (!own && !([] in wan && wan[[]].via.Some?) && Address(10, 10, 0, 0)[..16] <= env.vmIp ==> WanGw(h, env) == Gw(Address(10, 10, 0, 1)))
      && (!own && !([] in wan && wan[[]].via.Some?) && !(Address(10, 10, 0, 0)[..16] <= env.vmIp) ==> WanGw(h, env) == NoHop)
  {
    GatewayUnmoved(h, env);
    hide Address, Cleanup, HostLink, Finish;
  }

  // ---------------------------------------------------------------- rules

  /** The preferences an older version of the script used, and those of this one. */
  predicate OldPref(p: nat) { p in {52, 53, 54, 55, 58, 60, 100} }
  predicate NewPref(p: nat, ts: bool) { p in {35, 40, 48, 49, 50, 57, 59} || (ts && p == 45) }

  /** One of the script's rules. */
  predicate Scripted(r: Rule, env: Env, tsIp: Option<Bits>) {
    r in {Rule(35, To(env.wgSubnet), 254), Rule(40, From(env.wgGw), 254), Rule(48, To(Address(100, 64, 0, 0)[..10]), 254),
          Rule(49, Iif("tailscale0"), 254), Rule(50, From(env.vmIp), 100), Rule(57, To(Address(100, 100, 100, 100)), 254),
          Rule(59, Iif("wg0"), 254)} ||
    (tsIp.Some? && r == Rule(45, From(tsIp.value), 100))
  }

  /** Left over: an older version's rule, by its preference or by what it selects. */
  predicate Leftover(r: Rule, tsIp: Option<Bits>) {
    OldPref(r.pref) || (r.sel == Iif("tailscale0") && r.table == 200) || (tsIp.Some? && r.sel == From(tsIp.value) && r.table == 254)
  }

  lemma StaleMeans(r: Rule, tsIp: Option<Bits>)
    ensures FitsAny(StaleSpecs(tsIp), r) <==> Leftover(r, tsIp)
  {
    var specs := StaleSpecs(tsIp);
    assert specs[0] == ByPref(52) && specs[1] == ByPref(53) && specs[2] == ByPref(54) && specs[3] == ByPref(55);
    assert specs[4] == ByPref(58) && specs[5] == ByPref(60) && specs[6] == ByPref(100) && specs[7] == BySel(Iif(TS_IF), STALE_TABLE);
    assert tsIp.Some? ==> |specs| == 9 && specs[8] == BySel(From(tsIp.value), MAIN);
    assert tsIp.None? ==> |specs| == 8;
    forall s | s in specs && Fits(s, r) ensures Leftover(r, tsIp) {
      var i :| 0 <= i < |specs| && specs[i] == s;
      assert i < 8 || i == 8;
    }
    if OldPref(r.pref) { assert ByPref(r.pref) in specs && Fits(ByPref(r.pref), r); }
    if r.sel == Iif("tailscale0") && r.table == 200 { assert specs[7] in specs && Fits(specs[7], r); }
    if tsIp.Some? && r.sel == From(tsIp.value) && r.table == 254 { assert specs[8] in specs && Fits(specs[8], r); }
  }

  lemma PolicyMeans(env: Env, tsIp: Option<Bits>)
    ensures forall r :: r in Policy(env, tsIp) <==> Scripted(r, env, tsIp)
    ensures forall p :: Adds(Policy(env, tsIp), p) <==> NewPref(p, tsIp.Some?)
  {
    hide Address;
    var policy := Policy(env, tsIp);
    forall r ensures r in policy <==> Scripted(r, env, tsIp) {}
    assert policy[0].pref == 35 && policy[1].pref == 40;
    forall p: nat ensures Adds(policy, p) <==> NewPref(p, tsIp.Some?) { PolicyPref(env, tsIp, p); }
  }

  lemma PolicyPref(env: Env, tsIp: Option<Bits>, p: nat)
    ensures Adds(Policy(env, tsIp), p) <==> NewPref(p, tsIp.Some?)
  {
    hide TAILNET, MAGICDNS;
    var policy := Policy(env, tsIp);
    forall r | r in policy ensures NewPref(r.pref, tsIp.Some?) {}
    assert Rule(35, To(env.wgSubnet), MAIN) in policy && Rule(40, From(env.wgGw), MAIN) in policy && Rule(48, To(TAILNET), MAIN) in policy;
    assert Rule(50, From(env.vmIp), WAN) in policy && Rule(49, Iif(TS_IF), MAIN) in policy;
    assert Rule(57, To(MAGICDNS), MAIN) in policy && Rule(59, Iif(UPLINK_IF), MAIN) in policy;
    assert tsIp.Some? ==> Rule(45, From(tsIp.value), WAN) in policy;
  }

  /** After `apply` the rules are the script's, and those from before that are neither left over
      nor at one of its preferences. */
  lemma RulesAfterApply(h: Host, env: Env)
    requires Sorted(h.rules) && Finishes(h, env)
    ensures var rules := Apply(h, env).host.rules;
      Sorted(rules) && forall r :: r in rules <==>
        Scripted(r, env, h.tsIp) || (r in h.rules && !Leftover(r, h.tsIp) && !NewPref(r.pref, h.tsIp.Some?))
  {
    ApplyParts(h, env);
    PolicyDistinct(env, h.tsIp);
    PolicyMeans(env, h.tsIp);
    forall r ensures FitsAny(StaleSpecs(h.tsIp), r) <==> Leftover(r, h.tsIp) { StaleMeans(r, h.tsIp); }
    hide Policy, StaleSpecs, Apply, Finishes, FitsAny, Adds, Sorted, MainTable, WanTable, Leftover, NewPref, Scripted;
    ScrubAllKeeps(h.rules, StaleSpecs(h.tsIp));
    AddAllKeeps(ScrubAll(h.rules, StaleSpecs(h.tsIp)), Policy(env, h.tsIp));
  }

  // ---------------------------------------------------------------- tables

  /** Destinations whose own routes the script pins to the gateway. */
  predicate Pinned32(d: Bits, env: Env) {
    d in env.headscale || d in env.doh || d in {Address(8, 8, 8, 8), Address(8, 8, 4, 4), Address(1, 1, 1, 1), Address(1, 0, 0, 1)}
  }

  predicate IsTailnet(d: Bits) {
    d == Address(100, 64, 0, 0)[..10] || d == Address(100, 100, 100, 100)
  }

  lemma PinsMean(env: Env)
    ensures forall d :: d in Pins(env) <==> Pinned32(d, env)
  {
    hide Address;
  }

  /** The wan table: the default and every pinned destination through the gateway on eth0, the
      tailnet through tailscale0 where that exists, and what else was there. */
  lemma WanAfterApply(h: Host, env: Env, g: Bits, d: Bits)
    requires WanGw(h, env) == Gw(g) && "eth0" in h.links
    ensures var before := TableOf(h.tables, 100);
      var after := TableOf(Apply(h, env).host.tables, 100);
      var ts := "tailscale0" in h.links && IsTailnet(d);
      && (Pinned32(d, env) || (d == [] && !ts) ==> d in after && after[d] == Route(Some(g), "eth0"))
      && (!Pinned32(d, env) && ts ==> d in after && after[d] == Route(None, "tailscale0"))
      && (!Pinned32(d, env) && !ts && d != [] ==> (d in after <==> d in before) && (d in after ==> after[d] == before[d]))
  {
    ApplyParts(h, env);
    WanTableRoutes(WanOf(h), h.links, env, g);
    PinsMean(env);
    hide Apply, WanTable, MainTable, Policy, StaleSpecs, WanGw, Pins, Pinned32, HostLink, Cleanup, Address;
  }

  /** The main table: the default and the WireGuard subnet on wg0, the tailnet on tailscale0 where
      that exists; of what was there, with eth0's own network, all but other routes through wg0. */
  lemma MainAfterApply(h: Host, env: Env, d: Bits)
    requires Finishes(h, env) && "wg0" in h.links
    ensures var before := TableOf(h.tables, 254);
      var after := TableOf(Apply(h, env).host.tables, 254);
      var ts := "tailscale0" in h.links && IsTailnet(d);
      var eth := !h.vmShown && "eth0" in h.links && |env.vmIp| >= 16 && d == env.vmIp[..16];
      && (ts ==> d in after && after[d] == Route(None, "tailscale0"))
      && (!ts && (d == [] || d == env.wgSubnet) ==> d in after && after[d] == Route(None, "wg0"))
      && (!ts && d != [] && d != env.wgSubnet && eth ==> d in after && after[d] == Route(None, "eth0"))
      && (!ts && d != [] && d != env.wgSubnet && !eth ==>
            (d in after <==> d in before && before[d].dev != "wg0") && (d in after ==> after[d] == before[d]))
  {
    ApplyParts(h, env);
    MainTableRoutes(MainOf(HostLink(Cleanup(h), env)), h.links, env);
    MainBefore(h, env, d);
    hide Apply, WanTable, MainTable, Policy, StaleSpecs, WanGw, HostLink, Cleanup, Address;
  }

  lemma MainBefore(h: Host, env: Env, d: Bits)
    ensures var before := TableOf(h.tables, 254);
      var main := MainOf(HostLink(Cleanup(h), env));
      var eth := !h.vmShown && "eth0" in h.links && |env.vmIp| >= 16 && d == env.vmIp[..16];
      && (eth ==> d in main && main[d] == Route(None, "eth0"))
      && (!eth ==> (d in main <==> d in before) && (d in main ==> main[d] == before[d]))
  {
  }

  /** Without wg0 the main table is left as it is, but for eth0's own network; table 200 is empty
      after every `apply`, and no other table changes. */
  lemma OthersAfterApply(h: Host, env: Env)
    requires Finishes(h, env)
    ensures "wg0" !in h.links ==> TableOf(Apply(h, env).host.tables, 254) == MainOf(HostLink(Cleanup(h), env))
    ensures TableOf(Apply(h, env).host.tables, 200) == map[]
    ensures forall id :: id != 100 && id != 200 && id != 254 ==> TableOf(Apply(h, env).host.tables, id) == TableOf(h.tables, id)
    ensures WanGw(h, env) == NoHop ==> TableOf(Apply(h, env).host.tables, 100) == TableOf(h.tables, 100)
  {
    ApplyParts(h, env);
    hide Apply, WanTable, MainTable, Policy, StaleSpecs, WanGw, HostLink, Cleanup;
  }

  /** `stop` removes the leftovers and whatever is at the script's preferences, empties table 200,
      and changes nothing else. */
  lemma StopLeaves(h: Host)
    ensures forall r :: r in Stop(h).rules <==>
      r in h.rules && !Leftover(r, h.tsIp) && r.pref !in {35, 40, 45, 48, 49, 50, 57, 59}
    ensures TableOf(Stop(h).tables, 200) == map[]
    ensures forall id :: id != 200 ==> TableOf(Stop(h).tables, id) == TableOf(h.tables, id)
    ensures Stop(h).links == h.links && Stop(h).tsIp == h.tsIp && Stop(h).vmShown == h.vmShown
  {
    StopLeavesRules(h);
    hide StaleSpecs, OwnSpecs, FitsAny, Leftover, ScrubAll;
  }

  lemma StopLeavesRules(h: Host)
    ensures forall r :: r in Stop(h).rules <==>
      r in h.rules && !Leftover(r, h.tsIp) && r.pref !in {35, 40, 45, 48, 49, 50, 57, 59}
  {
    var clean := ScrubAll(h.rules, StaleSpecs(h.tsIp));
    ScrubAllKeeps(h.rules, StaleSpecs(h.tsIp));
    ScrubAllKeeps(clean, OwnSpecs());
    assert Stop(h).rules == ScrubAll(clean, OwnSpecs());
    hide StaleSpecs, OwnSpecs, FitsAny, Leftover, ScrubAll, Stop, Sorted, Bucket;
    forall r ensures r in Stop(h).rules <==> r in h.rules && !Leftover(r, h.tsIp) && r.pref !in {35, 40, 45, 48, 49, 50, 57, 59} {
      StaleMeans(r, h.tsIp);
      OwnPrefs(r);
    }
  }
}
