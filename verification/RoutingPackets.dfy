/** Where packets leave after `apply`, and what `stop` takes back. */
module RoutingPackets {
  import opened Common
  import opened Kernel
  import opened Routing
  import opened RoutingTheorems

  /** A rule that neither the cleanup nor a later add would remove, in front of the script's last. */
  predicate Foreign(r: Rule, env: Env, tsIp: Option<Bits>) {
    r.pref <= 59 && r != Rule(0, Any, LOCAL) && !FitsAny(StaleSpecs(tsIp), r) && !Adds(Policy(env, tsIp), r.pref)
  }

  predicate Apart(a: Bits, b: Bits) {
    !(a <= b) && !(b <= a)
  }

  /** A host on which `apply` finds all it needs. */
  ghost predicate Ready(h: Host, env: Env) {
    Sorted(h.rules) && {HOST_IF, UPLINK_IF, TS_IF} <= h.links && WanGw(h, env).Gw? &&
    h.tsIp.Some? && Apart(env.wgSubnet, TAILNET) &&
    forall r :: r in h.rules ==> !Foreign(r, env, h.tsIp)
  }

  /** The rules up to the script's last are the local one and the script's own. */
  ghost predicate InForce(rules: seq<Rule>, env: Env, ip: Bits) {
    Sorted(rules) && (forall r :: r in Policy(env, Some(ip)) ==> r in rules) &&
    forall r :: r in rules && r.pref <= 59 ==> r == Rule(0, Any, LOCAL) || r in Policy(env, Some(ip))
  }

  lemma RulesInForce(h: Host, env: Env)
    requires Ready(h, env)
    ensures InForce(Apply(h, env).host.rules, env, h.tsIp.value)
  {
    ApplyParts(h, env);
    PolicyDistinct(env, h.tsIp);
    ScrubAllKeeps(h.rules, StaleSpecs(h.tsIp));
    AddAllKeeps(ScrubAll(h.rules, StaleSpecs(h.tsIp)), Policy(env, h.tsIp));
    hide Policy, StaleSpecs, Apply, WanGw, FitsAny, Adds, Sorted, MainTable, WanTable;
  }

  lemma PolicyRules(env: Env, ip: Bits)
    ensures forall r :: r in Policy(env, Some(ip)) <==>
      r in {Rule(35, To(env.wgSubnet), MAIN), Rule(40, From(env.wgGw), MAIN), Rule(45, From(ip), WAN), Rule(48, To(TAILNET), MAIN),
            Rule(49, Iif(TS_IF), MAIN), Rule(50, From(env.vmIp), WAN), Rule(57, To(MAGICDNS), MAIN), Rule(59, Iif(UPLINK_IF), MAIN)}
  {
    hide TAILNET, MAGICDNS;
  }

  lemma TablesInForce(h: Host, env: Env)
    requires Ready(h, env)
    ensures var h' := Apply(h, env).host;
      MainOf(h') == MainTable(MainOf(HostLink(Cleanup(h), env)), h.links, env) &&
      WanOf(h') == WanTable(WanOf(h), h.links, env, WanGw(h, env).addr) &&
      TableOf(h'.tables, LOCAL) == TableOf(h.tables, LOCAL)
  {
    ApplyParts(h, env);
    hide MainTable, WanTable, Apply, WanGw, HostLink, Cleanup, Policy, StaleSpecs;
  }

  lemma Comparable(a: Bits, b: Bits, whole: Bits)
    requires a <= whole && b <= whole
    ensures a <= b || b <= a
  {
    if |a| <= |b| { assert a == b[..|a|]; } else { assert b == a[..|b|]; }
  }

  predicate Outside(dst: Bits, env: Env) {
    !(TAILNET <= dst) && !(env.wgSubnet <= dst)
  }

  // ---------------------------------------------------------------- exit clients

  /** Traffic forwarded for exit clients: in from tailscale0 with another node's address. */
  predicate ExitClient(p: Packet, ip: Bits, env: Env) {
    p.iif == Some(TS_IF) && !(env.wgGw <= p.src) && !(ip <= p.src) && Outside(p.dst, env)
  }

  lemma ExitClientRule(rules: seq<Rule>, tables: Tables, env: Env, ip: Bits, p: Packet)
    requires InForce(rules, env, ip) && ExitClient(p, ip, env)
    requires Lpm(TableOf(tables, LOCAL), p.dst).None? && Lpm(TableOf(tables, MAIN), p.dst).Some?
    ensures Lookup(rules, tables, p).Some?
    ensures Lookup(rules, tables, p).value.dev == Lpm(TableOf(tables, MAIN), p.dst).value.dev
  {
    PolicyRules(env, ip);
    hide Lpm, TableOf, Policy, TAILNET, MAGICDNS, Sorted;
    assert Rule(49, Iif(TS_IF), MAIN) in rules;
    LookupDev(rules, tables, p, 49, Lpm(TableOf(tables, MAIN), p.dst).value.dev);
  }

  /** The main table `apply` finds once eth0 carries its address. */
  function MainBefore(h: Host, env: Env): Table { MainOf(HostLink(Cleanup(h), env)) }

  /** No route but the default leads to `dst` around the tunnel. */
  predicate NoDetour(main: Table, dst: Bits) {
    forall q :: q in main && q <= dst && q != [] ==> main[q].dev == UPLINK_IF
  }

  lemma MainRoutes(main: Table, links: set<string>, env: Env, dst: Bits)
    requires Outside(dst, env)
    ensures var best := Lpm(MainTable(main, links, env), dst);
      best.Some? && (best.value.dev == UPLINK_IF <==> NoDetour(main, dst))
  {
    var t := MainTable(main, links, env);
    MainTableRoutes(main, links, env);
    LpmLongest(t, dst);
    TailnetShape();
    hide TAILNET, MAGICDNS, MainTable, Lpm;
    assert [] in t && [] <= dst;
    var p :| IsBest(t, dst, p) && t[p] == Lpm(t, dst).value;
    forall q | q in main && q <= dst && q != [] && main[q].dev != UPLINK_IF ensures p != [] { assert q in t; }
  }

  /** Forwarded exit traffic leaves through the tunnel exactly when no detour exists. */
  lemma ExitTrafficLeavesOnTunnel(h: Host, env: Env, p: Packet)
    requires Ready(h, env) && ExitClient(p, h.tsIp.value, env) && Lpm(TableOf(h.tables, LOCAL), p.dst).None?
    ensures var h' := Apply(h, env).host;
      var out := Lookup(h'.rules, h'.tables, p);
      out.Some? && (out.value.dev == UPLINK_IF <==> NoDetour(MainBefore(h, env), p.dst))
  {
    hide Apply, WanGw, MainTable, HostLink, Cleanup, InForce, NoDetour, Lookup, Lpm, LpmUpTo;
    RulesInForce(h, env);
    TablesInForce(h, env);
    MainRoutes(MainBefore(h, env), h.links, env, p.dst);
    var h' := Apply(h, env).host;
    ExitClientRule(h'.rules, h'.tables, env, h.tsIp.value, p);
  }

  // ---------------------------------------------------------------- the gateway's own traffic

  /** Sent by the host itself from its VM or tailscale address: WireGuard's own datagrams,
      tailscaled, the control connection. */
  predicate OwnTraffic(p: Packet, ip: Bits, env: Env) {
    p.iif == None && (env.vmIp <= p.src || ip <= p.src) && !(env.wgGw <= p.src) && Outside(p.dst, env)
  }

  lemma OwnTrafficRule(rules: seq<Rule>, tables: Tables, env: Env, ip: Bits, p: Packet)
    requires InForce(rules, env, ip) && OwnTraffic(p, ip, env)
    requires Lpm(TableOf(tables, LOCAL), p.dst).None? && Lpm(TableOf(tables, WAN), p.dst).Some?
    ensures Lookup(rules, tables, p).Some?
    ensures Lookup(rules, tables, p).value.dev == Lpm(TableOf(tables, WAN), p.dst).value.dev
  {
    PolicyRules(env, ip);
    hide Lpm, TableOf, Policy, TAILNET, MAGICDNS, Sorted;
    var dev := Lpm(TableOf(tables, WAN), p.dst).value.dev;
    if ip <= p.src {
      assert Rule(45, From(ip), WAN) in rules;
      LookupDev(rules, tables, p, 45, dev);
    } else {
      assert Rule(50, From(env.vmIp), WAN) in rules;
      LookupDev(rules, tables, p, 50, dev);
    }
  }

  /** The wan table holds only routes through eth0 and routes of the tailnet. */
  predicate WanOwn(wan: Table) {
    forall q :: q in wan ==> wan[q].dev == HOST_IF || TAILNET <= q
  }

  lemma WanRoutes(wan: Table, links: set<string>, env: Env, g: Bits, dst: Bits)
    requires WanOwn(wan) && !(TAILNET <= dst)
    ensures var best := Lpm(WanTable(wan, links, env, g), dst);
      best.Some? && best.value.dev == HOST_IF
  {
    var t := WanTable(wan, links, env, g);
    WanTableRoutes(wan, links, env, g);
    LpmLongest(t, dst);
    TailnetShape();
    hide TAILNET, MAGICDNS, WanTable, Lpm, Pins;
    assert [] in t && [] <= dst;
    var p :| IsBest(t, dst, p) && t[p] == Lpm(t, dst).value;
  }

  /** The gateway's own packets never go into the tunnel they carry. */
  lemma OwnTrafficAvoidsTunnel(h: Host, env: Env, p: Packet)
    requires Ready(h, env) && OwnTraffic(p, h.tsIp.value, env) && Lpm(TableOf(h.tables, LOCAL), p.dst).None?
    requires WanOwn(WanOf(h))
    ensures var h' := Apply(h, env).host;
      var out := Lookup(h'.rules, h'.tables, p);
      out.Some? && out.value.dev == HOST_IF
  {
    hide Apply, WanGw, WanTable, HostLink, Cleanup, InForce, Lookup, Lpm, LpmUpTo, MainTable;
    RulesInForce(h, env);
    TablesInForce(h, env);
    WanRoutes(WanOf(h), h.links, env, WanGw(h, env).addr, p.dst);
    var h' := Apply(h, env).host;
    OwnTrafficRule(h'.rules, h'.tables, env, h.tsIp.value, p);
  }

  lemma ApplyKeepsWanOwn(h: Host, env: Env)
    requires WanOwn(WanOf(h))
    ensures WanOwn(WanOf(Apply(h, env).host))
  {
    GatewayUnmoved(h, env);
    if Finishes(h, env) {
      ApplyParts(h, env);
      if WanGw(h, env).Gw? { WanTableRoutes(WanOf(h), h.links, env, WanGw(h, env).addr); }
      TailnetShape();
      hide TAILNET, MAGICDNS, WanTable, Pins, Apply, MainTable, Policy, StaleSpecs, WanGw;
    } else {
      hide TAILNET, WanGw, WanTable, MainTable;
    }
  }

  lemma {:induction false} RunKeepsWanOwn(h: Host, env: Env, events: seq<Event>)
    requires WanOwn(WanOf(h))
    ensures WanOwn(WanOf(Run(h, env, events)))
    decreases |events|
  {
    if events != [] {
      if events[0].Reapply? { ApplyKeepsWanOwn(h, env); }
      assert WanOwn(WanOf(Happen(h, env, events[0]))) by { hide Apply, TAILNET; }
      hide Apply, TAILNET, WanOwn, Happen;
      RunKeepsWanOwn(Happen(h, env, events[0]), env, events[1..]);
    }
  }

  // ---------------------------------------------------------------- the tailnet

  lemma TailnetRule(rules: seq<Rule>, tables: Tables, env: Env, ip: Bits, p: Packet)
    requires InForce(rules, env, ip) && TAILNET <= p.dst && Apart(env.wgSubnet, TAILNET)
    requires Lpm(TableOf(tables, LOCAL), p.dst).None?
    requires forall id :: id == MAIN || id == WAN ==>
      Lpm(TableOf(tables, id), p.dst).Some? && Lpm(TableOf(tables, id), p.dst).value.dev == TS_IF
    ensures Lookup(rules, tables, p).Some? && Lookup(rules, tables, p).value.dev == TS_IF
  {
    PolicyRules(env, ip);
    if env.wgSubnet <= p.dst { Comparable(env.wgSubnet, TAILNET, p.dst); }
    hide Lpm, TableOf, Policy, TAILNET, MAGICDNS, Sorted;
    assert Rule(48, To(TAILNET), MAIN) in rules;
    LookupDev(rules, tables, p, 48, TS_IF);
  }

  /** A route more specific than the tailnet's, through something else, on the way to `dst`. */
  predicate NoForeignTailnet(t: Table, dst: Bits) {
    forall q :: q in t && TAILNET < q && q <= dst ==> t[q].dev == TS_IF || t[q].dev == UPLINK_IF
  }

  predicate PinsElsewhere(env: Env) {
    forall q :: q in Pins(env) ==> !(TAILNET <= q)
  }

  lemma TailnetRoutesBest(main: Table, wan: Table, links: set<string>, env: Env, g: Bits, dst: Bits)
    requires TS_IF in links && TAILNET <= dst && Apart(env.wgSubnet, TAILNET) && PinsElsewhere(env)
    requires NoForeignTailnet(main, dst)
    requires forall q :: q in wan && TAILNET < q && q <= dst ==> wan[q].dev == TS_IF
    ensures var best := Lpm(MainTable(main, links, env), dst);
      best.Some? && best.value.dev == TS_IF
    ensures var best := Lpm(WanTable(wan, links, env, g), dst);
      best.Some? && best.value.dev == TS_IF
  {
    MainTableRoutes(main, links, env);
    WanTableRoutes(wan, links, env, g);
    TailnetShape();
    TailnetBest(MainTable(main, links, env), dst, env);
    TailnetBest(WanTable(wan, links, env, g), dst, env);
  }

  lemma TailnetBest(t: Table, dst: Bits, env: Env)
    requires TAILNET <= dst && TAILNET in t
    requires forall q :: q in t && TAILNET <= q && q <= dst ==> t[q].dev == TS_IF
    ensures Lpm(t, dst).Some? && Lpm(t, dst).value.dev == TS_IF
  {
    LpmLongest(t, dst);
    hide Lpm, TAILNET;
    var p :| IsBest(t, dst, p) && t[p] == Lpm(t, dst).value;
    Comparable(p, TAILNET, dst);
  }

  /** Whatever its source and whichever rule it meets first, a packet to the tailnet leaves on
      tailscale0. */
  lemma TailnetLeavesOnTailscale(h: Host, env: Env, p: Packet)
    requires Ready(h, env) && TAILNET <= p.dst && Lpm(TableOf(h.tables, LOCAL), p.dst).None? && PinsElsewhere(env)
    requires NoForeignTailnet(MainBefore(h, env), p.dst)
    requires forall q :: q in WanOf(h) && TAILNET < q && q <= p.dst ==> WanOf(h)[q].dev == TS_IF
    ensures var h' := Apply(h, env).host;
      var out := Lookup(h'.rules, h'.tables, p);
      out.Some? && out.value.dev == TS_IF
  {
    hide Apply, WanGw, WanTable, MainTable, HostLink, Cleanup, InForce, Lookup, Lpm, LpmUpTo, PinsElsewhere, NoForeignTailnet, TAILNET;
    RulesInForce(h, env);
    TablesInForce(h, env);
    TailnetRoutesBest(MainBefore(h, env), WanOf(h), h.links, env, WanGw(h, env).addr, p.dst);
    var h' := Apply(h, env).host;
    TailnetRule(h'.rules, h'.tables, env, h.tsIp.value, p);
  }

  // ---------------------------------------------------------------- stop

  predicate IsOwnPref(p: nat) { p in {35, 40, 45, 48, 49, 50, 57, 59} }

  lemma OwnPrefs(r: Rule)
    ensures FitsAny(OwnSpecs(), r) <==> IsOwnPref(r.pref)
  {
    var specs := OwnSpecs();
    assert forall s :: s in specs ==> s.ByPref? && IsOwnPref(s.pref);
    if IsOwnPref(r.pref) {
      assert specs[0].pref == 35 && specs[1].pref == 40 && specs[2].pref == 45 && specs[3].pref == 48;
      assert specs[4].pref == 50 && specs[5].pref == 49 && specs[6].pref == 57 && specs[7].pref == 59;
      assert ByPref(r.pref) in specs;
    }
  }

  lemma OwnBucket(rules: seq<Rule>, p: nat)
    ensures Bucket(ScrubAll(rules, OwnSpecs()), p) == if IsOwnPref(p) then [] else Bucket(rules, p)
  {
    ScrubAllKeeps(rules, OwnSpecs());
    hide OwnSpecs, FitsAny, IsOwnPref;
    BucketPref(rules, p);
    if IsOwnPref(p) {
      forall r | r in rules && r.pref == p ensures FitsAny(OwnSpecs(), r) { OwnPrefs(r); }
      EmptyBucket(ScrubAll(rules, OwnSpecs()), p);
    } else {
      forall r | r in Bucket(rules, p) ensures !FitsAny(OwnSpecs(), r) { OwnPrefs(r); }
      ScrubAllNothing(Bucket(rules, p), OwnSpecs());
    }
  }

  lemma ScrubbedAdds(clean: seq<Rule>, added: seq<Rule>, specs: seq<Spec>)
    requires Sorted(clean) && DistinctPrefs(added) && forall r :: r in clean ==> !FitsAny(specs, r)
    requires forall r :: r in added ==> IsOwnPref(r.pref)
    ensures ScrubAll(ScrubAll(AddAll(clean, added), specs), OwnSpecs()) == ScrubAll(clean, OwnSpecs())
  {
    hide OwnSpecs, FitsAny, Sorted, IsOwnPref;
    var again := ScrubAll(AddAll(clean, added), specs);
    AddAllKeeps(clean, added);
    ScrubAllKeeps(AddAll(clean, added), specs);
    forall p: nat ensures Bucket(ScrubAll(again, OwnSpecs()), p) == Bucket(ScrubAll(clean, OwnSpecs()), p) {
      OwnBucket(again, p);
      OwnBucket(clean, p);
      if !IsOwnPref(p) {
        BucketPref(clean, p);
        ScrubAllNothing(Bucket(clean, p), specs);
      }
    }
    ScrubAllKeeps(clean, OwnSpecs());
    ScrubAllKeeps(again, OwnSpecs());
    SameBuckets(ScrubAll(again, OwnSpecs()), ScrubAll(clean, OwnSpecs()));
  }

  lemma PolicyPrefs(env: Env, tsIp: Option<Bits>)
    ensures forall r :: r in Policy(env, tsIp) ==> IsOwnPref(r.pref)
  {
    hide TAILNET, MAGICDNS;
  }

  /** `stop` after `apply` leaves the rules that `stop` alone would have left. */
  lemma StopTakesBackApply(h: Host, env: Env)
    requires Sorted(h.rules) && Finishes(h, env)
    ensures Stop(Apply(h, env).host).rules == Stop(h).rules
  {
    ApplyParts(h, env);
    PolicyDistinct(env, h.tsIp);
    ScrubAllKeeps(h.rules, StaleSpecs(h.tsIp));
    PolicyPrefs(env, h.tsIp);
    hide Policy, StaleSpecs, OwnSpecs, Apply, Finishes, FitsAny, Sorted, MainTable, WanTable, IsOwnPref, MainOf, WanOf, HostLink, TableOf;
    ScrubbedAdds(ScrubAll(h.rules, StaleSpecs(h.tsIp)), Policy(env, h.tsIp), StaleSpecs(h.tsIp));
  }

  /** So on a host that had none of the script's rules, present or past, it restores the list. */
  lemma StopRestores(h: Host, env: Env)
    requires Sorted(h.rules) && Finishes(h, env)
    requires forall r :: r in h.rules ==> !FitsAny(StaleSpecs(h.tsIp), r) && !FitsAny(OwnSpecs(), r)
    ensures Stop(Apply(h, env).host).rules == h.rules
  {
    StopTakesBackApply(h, env);
    hide FitsAny, OwnSpecs, StaleSpecs;
    ScrubAllNothing(h.rules, StaleSpecs(h.tsIp));
    ScrubAllNothing(h.rules, OwnSpecs());
  }
}
