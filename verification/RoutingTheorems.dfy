/** What `apply` guarantees: idempotence, the WAN gateway over runs, where packets leave, and
    what `stop` takes back. */
module RoutingTheorems {
  import opened Common
  import opened Kernel
  import opened Routing

  // ---------------------------------------------------------------- apply twice

  lemma GatewayUnmoved(h: Host, env: Env)
    ensures WanGw(HostLink(Cleanup(h), env), env) == WanGw(h, env)
    ensures WanOf(HostLink(Cleanup(h), env)) == WanOf(h)
  {
  }

  lemma PolicyDistinct(env: Env, tsIp: Option<Bits>)
    ensures DistinctPrefs(Policy(env, tsIp))
  {
  }

  /** `apply` runs to its end: no gateway is known, or one is and eth0 exists. */
  predicate Finishes(h: Host, env: Env) {
    WanGw(h, env) == NoHop || (WanGw(h, env).Gw? && HOST_IF in h.links)
  }

  /** The three parts of the state a finished `apply` leaves. */
  lemma ApplyParts(h: Host, env: Env)
    requires Finishes(h, env)
    ensures var h1 := HostLink(Cleanup(h), env);
      var h' := Apply(h, env).host;
      Apply(h, env).Done? &&
      h'.rules == AddAll(ScrubAll(h.rules, StaleSpecs(h.tsIp)), Policy(env, h.tsIp)) &&
      h'.links == h.links && h'.tsIp == h.tsIp && h'.vmShown == h1.vmShown &&
      MainOf(h') == (if UPLINK_IF in h.links then MainTable(MainOf(h1), h.links, env) else MainOf(h1)) &&
      WanOf(h') == (if WanGw(h, env).Gw? then WanTable(WanOf(h), h.links, env, WanGw(h, env).addr) else WanOf(h)) &&
      TableOf(h'.tables, STALE_TABLE) == map[] && STALE_TABLE in h'.tables &&
      forall id :: id != MAIN && id != WAN && id != STALE_TABLE ==>
        (id in h'.tables <==> id in h.tables) && TableOf(h'.tables, id) == TableOf(h.tables, id)
  {
    GatewayUnmoved(h, env);
    hide MainTable, WanTable, Policy, StaleSpecs, WanGw;
  }

  /** The gateway the first `apply` read is the one every later `apply` reads: it is held in the
      wan table, and no default through eth0 contradicts it. */
  ghost predicate Pinned(h: Host, g: Bits) {
    HOST_IF in h.links && [] in WanOf(h) && WanOf(h)[[]] == Route(Some(g), HOST_IF) &&
    ([] in MainOf(h) && MainOf(h)[[]].dev == HOST_IF ==> MainOf(h)[[]].via == Some(g))
  }

  lemma PinnedGateway(h: Host, env: Env, g: Bits)
    requires Pinned(h, g)
    ensures WanGw(h, env) == Gw(g)
  {
  }

  lemma ApplyPins(h: Host, env: Env, g: Bits)
    requires WanGw(h, env) == Gw(g) && HOST_IF in h.links
    ensures Pinned(Apply(h, env).host, g)
  {
    ApplyParts(h, env);
    WanTableAgain(WanOf(h), h.links, env, g);
    var h1 := HostLink(Cleanup(h), env);
    MainTableAgain(MainOf(h1), h.links, env);
    GatewayUnmoved(h, env);
    hide MainTable, WanTable, Apply, Policy, StaleSpecs, HostLink, Cleanup;
  }

  lemma SettledTables(h: Host, env: Env)
    requires Finishes(h, env)
    ensures var h' := Apply(h, env).host;
      HostLink(Cleanup(h'), env) == h'.(rules := ScrubAll(h'.rules, StaleSpecs(h.tsIp)))
  {
    ApplyParts(h, env);
    hide MainTable, WanTable, Policy, StaleSpecs, WanGw, Apply, TableOf;
    var h' := Apply(h, env).host;
    assert h'.tables[STALE_TABLE] == map[] by { StaleEmpty(h', STALE_TABLE); }
    assert Cleanup(h').tables == h'.tables;
  }

  lemma StaleEmpty(h: Host, id: nat)
    requires id in h.tables
    ensures h.tables[id] == TableOf(h.tables, id)
  {
  }

  lemma GatewayAgain(h: Host, env: Env)
    requires Finishes(h, env)
    ensures WanGw(Apply(h, env).host, env) == WanGw(h, env)
  {
    if WanGw(h, env).Gw? {
      ApplyPins(h, env, WanGw(h, env).addr);
      PinnedGateway(Apply(h, env).host, env, WanGw(h, env).addr);
    } else {
      ApplyParts(h, env);
      GatewayUnmoved(h, env);
      var h1 := HostLink(Cleanup(h), env);
      MainTableAgain(MainOf(h1), h.links, env);
      hide MainTable, WanTable, Apply, Policy, StaleSpecs, HostLink, Cleanup;
    }
  }

  /** A second `apply` changes nothing and ends as the first did. */
  lemma ApplyTwiceIsOnce(h: Host, env: Env)
    requires Sorted(h.rules)
    ensures Apply(Apply(h, env).host, env) == Apply(h, env)
  {
    var h' := Apply(h, env).host;
    if Apply(h, env).Aborted? {
      AbortedTwice(h, env);
    } else {
      FinishedTwice(h, env);
    }
  }

  lemma AbortedTwice(h: Host, env: Env)
    requires Sorted(h.rules) && Apply(h, env).Aborted?
    ensures Apply(Apply(h, env).host, env) == Apply(h, env)
  {
    var h1 := HostLink(Cleanup(h), env);
    GatewayUnmoved(h, env);
    ScrubAllKeeps(h.rules, StaleSpecs(h.tsIp));
    ScrubAllNothing(h1.rules, StaleSpecs(h.tsIp));
    hide StaleSpecs;
    assert Cleanup(h1).tables == h1.tables;
    assert Cleanup(h1) == h1;
    GatewayUnmoved(h1, env);
    hide WanGw;
  }

  lemma FinishedTwice(h: Host, env: Env)
    requires Sorted(h.rules) && Apply(h, env).Done?
    ensures Apply(Apply(h, env).host, env) == Apply(h, env)
  {
    var h' := Apply(h, env).host;
    GatewayUnmoved(h, env);
    assert Finishes(h, env) by { hide WanGw; }
    RulesTwice(h, env);
    TablesTwice(h, env);
    hide Apply, Finishes;
  }

  lemma RulesTwice(h: Host, env: Env)
    requires Sorted(h.rules) && Finishes(h, env)
    ensures var h' := Apply(h, env).host;
      Apply(h', env).Done? && Apply(h', env).host == h'.(tables := Apply(h', env).host.tables)
  {
    var h' := Apply(h, env).host;
    ApplyParts(h, env);
    GatewayAgain(h, env);
    SettledTables(h, env);
    ApplyParts(h', env);
    PolicyDistinct(env, h.tsIp);
    RulesAgain(h.rules, h.tsIp, Policy(env, h.tsIp));
    hide MainTable, WanTable, Policy, StaleSpecs, WanGw, HostLink, Cleanup, Apply, TableOf, Sorted;
  }

  lemma TablesTwice(h: Host, env: Env)
    requires Finishes(h, env)
    ensures Apply(Apply(h, env).host, env).host.tables == Apply(h, env).host.tables
  {
    var h' := Apply(h, env).host;
    SettledTables(h, env);
    GatewayAgain(h, env);
    GatewayUnmoved(h', env);
    WanInPlace(h, env);
    MainInPlace(h, env);
    hide MainTable, WanTable, Policy, StaleSpecs, WanGw, HostLink, Cleanup, TableOf;
  }

  lemma WanInPlace(h: Host, env: Env)
    requires Finishes(h, env)
    ensures var h' := Apply(h, env).host;
      WanGw(h, env).Gw? ==> h'.tables[WAN := WanTable(WanOf(h'), h'.links, env, WanGw(h, env).addr)] == h'.tables
  {
    ApplyParts(h, env);
    if WanGw(h, env).Gw? { WanTableAgain(WanOf(h), h.links, env, WanGw(h, env).addr); }
    hide MainTable, WanTable, Policy, StaleSpecs, WanGw, HostLink, Cleanup, Apply;
  }

  lemma MainInPlace(h: Host, env: Env)
    requires Finishes(h, env)
    ensures var h' := Apply(h, env).host;
      ApplyMain(h', env).tables == h'.tables
  {
    ApplyParts(h, env);
    MainTableAgain(MainOf(HostLink(Cleanup(h), env)), h.links, env);
    hide MainTable, WanTable, Policy, StaleSpecs, WanGw, HostLink, Cleanup, Apply;
  }

  // ---------------------------------------------------------------- the gateway over runs

  /** What happens to a gateway between applies: its two tunnels come and go, taking their
      routes with them, and tailscale0 changes address. */
  datatype Event = Reapply | TunnelDown(dev: string) | TunnelUp(dev: string) | TsAddress(ip: Option<Bits>)

  predicate Possible(e: Event) {
    match e
    case TunnelDown(dev) => dev == UPLINK_IF || dev == TS_IF
    case TunnelUp(dev) => dev == UPLINK_IF || dev == TS_IF
    case _ => true
  }

  function Without(t: Table, dev: string): Table {
    map p | p in t && t[p].dev != dev :: t[p]
  }

  function Happen(h: Host, env: Env, e: Event): Host {
    match e
    case Reapply => Apply(h, env).host
    case TunnelDown(dev) =>
      h.(links := h.links - {dev}, tables := map id | id in h.tables :: Without(h.tables[id], dev))
    case TunnelUp(dev) => h.(links := h.links + {dev})
    case TsAddress(ip) => h.(tsIp := ip)
  }

  function Run(h: Host, env: Env, events: seq<Event>): Host
    decreases |events|
  {
    if events == [] then h else Run(Happen(h, env, events[0]), env, events[1..])
  }

  lemma HappenPins(h: Host, env: Env, g: Bits, e: Event)
    requires Pinned(h, g) && Possible(e)
    ensures Pinned(Happen(h, env, e), g)
  {
    if e.Reapply? {
      PinnedGateway(h, env, g);
      ApplyPins(h, env, g);
    }
    hide Apply;
  }

  lemma {:induction false} RunPins(h: Host, env: Env, g: Bits, events: seq<Event>)
    requires Pinned(h, g) && forall e :: e in events ==> Possible(e)
    ensures Pinned(Run(h, env, events), g)
    decreases |events|
  {
    if events != [] {
      HappenPins(h, env, g, events[0]);
      RunPins(Happen(h, env, events[0]), env, g, events[1..]);
    }
  }

  /** After one `apply` that found gateway `g`, every later one finds `g` and runs to its end,
      however the tunnels came and went in between, although the first replaced the very
      default route that `g` was read from. */
  lemma GatewayIsRemembered(h: Host, env: Env, g: Bits, events: seq<Event>)
    requires WanGw(h, env) == Gw(g) && HOST_IF in h.links && forall e :: e in events ==> Possible(e)
    ensures var later := Run(Apply(h, env).host, env, events);
      WanGw(later, env) == Gw(g) && Apply(later, env).Done?
  {
    ApplyPins(h, env, g);
    RunPins(Apply(h, env).host, env, g, events);
    var later := Run(Apply(h, env).host, env, events);
    PinnedGateway(later, env, g);
    ApplyParts(later, env);
    hide MainTable, WanTable, Apply, WanGw, HostLink, Cleanup, Policy, StaleSpecs;
  }

  lemma DefaultIsReplaced(h: Host, env: Env)
    requires Finishes(h, env) && UPLINK_IF in h.links
    ensures [] in MainOf(Apply(h, env).host) && MainOf(Apply(h, env).host)[[]] == Route(None, UPLINK_IF)
  {
    ApplyParts(h, env);
    MainTableAgain(MainOf(HostLink(Cleanup(h), env)), h.links, env);
    hide MainTable, WanTable, Apply, WanGw, HostLink, Cleanup, Policy, StaleSpecs;
  }
}
