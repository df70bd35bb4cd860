/** The gateway routing script: `apply` and `stop_rules` as functions on the kernel state. */
module Routing {
  import opened Common
  import opened Kernel

  const HOST_IF := "eth0"
  const UPLINK_IF := "wg0"
  const TS_IF := "tailscale0"
  const WAN := 100
  const STALE_TABLE := 200

  function Octet(n: nat): Bits
    requires n < 256
  {
    [n / 128 % 2 == 1, n / 64 % 2 == 1, n / 32 % 2 == 1, n / 16 % 2 == 1,
     n / 8 % 2 == 1, n / 4 % 2 == 1, n / 2 % 2 == 1, n % 2 == 1]
  }

  function Address(a: nat, b: nat, c: nat, d: nat): Bits
    requires a < 256 && b < 256 && c < 256 && d < 256
  {
    Octet(a) + Octet(b) + Octet(c) + Octet(d)
  }

  const TAILNET: Bits := Address(100, 64, 0, 0)[..10]
  const MAGICDNS: Bits := Address(100, 100, 100, 100)
  const POOL: Bits := Address(10, 10, 0, 0)[..16]
  const PUBLIC_DNS: seq<Bits> := [Address(8, 8, 8, 8), Address(8, 8, 4, 4), Address(1, 1, 1, 1), Address(1, 0, 0, 1)]

  /** The values read from the env files, with host names already resolved. */
  datatype Env = Env(wgSubnet: Bits, wgGw: Bits, vmIp: Bits, headscale: seq<Bits>, doh: seq<Bits>)

  /** `vmShown` is whether eth0 already carries VM_IP. */
  datatype Host = Host(rules: seq<Rule>, tables: Tables, links: set<string>, tsIp: Option<Bits>, vmShown: bool)

  function MainOf(h: Host): Table { TableOf(h.tables, MAIN) }
  function WanOf(h: Host): Table { TableOf(h.tables, WAN) }

  // ---------------------------------------------------------------- the WAN gateway

  /** What `_wan_gw` prints: nothing, an address, or the third word of an on-link default. */
  datatype Hop = NoHop | Gw(addr: Bits) | Junk

  function WanGw(h: Host, env: Env): Hop {
    if [] in MainOf(h) && MainOf(h)[[]].dev == HOST_IF then
      match MainOf(h)[[]].via { case Some(g) => Gw(g) case None => Junk }
    else if [] in WanOf(h) && WanOf(h)[[]].via.Some? then Gw(WanOf(h)[[]].via.value)
    else if POOL <= env.vmIp then Gw(Address(10, 10, 0, 1))
    else NoHop
  }

  // ---------------------------------------------------------------- rules

  /** What `_cleanup_stale` scrubs. */
  function StaleSpecs(tsIp: Option<Bits>): seq<Spec> {
    [ByPref(52), ByPref(53), ByPref(54), ByPref(55), ByPref(58), ByPref(60), ByPref(100),
     BySel(Iif(TS_IF), STALE_TABLE)] +
    match tsIp { case Some(ip) => [BySel(From(ip), MAIN)] case None => [] }
  }

  function ScrubAll(rules: seq<Rule>, specs: seq<Spec>): seq<Rule>
    decreases |specs|
  {
    if specs == [] then rules else ScrubAll(Scrub(rules, specs[0]), specs[1..])
  }

  /** The rules `_apply_policy_rules` adds, in its order. */
  function Policy(env: Env, tsIp: Option<Bits>): seq<Rule> {
    [Rule(35, To(env.wgSubnet), MAIN), Rule(40, From(env.wgGw), MAIN)] +
    (match tsIp { case Some(ip) => [Rule(45, From(ip), WAN)] case None => [] }) +
    [Rule(48, To(TAILNET), MAIN), Rule(50, From(env.vmIp), WAN), Rule(49, Iif(TS_IF), MAIN),
     Rule(57, To(MAGICDNS), MAIN), Rule(59, Iif(UPLINK_IF), MAIN)]
  }

  function RuleAdd(rules: seq<Rule>, r: Rule): seq<Rule> {
    Insert(Scrub(rules, ByPref(r.pref)), r)
  }

  function AddAll(rules: seq<Rule>, added: seq<Rule>): seq<Rule>
    decreases |added|
  {
    if added == [] then rules else AddAll(RuleAdd(rules, added[0]), added[1..])
  }

  // ---------------------------------------------------------------- tables

  function PinAll(t: Table, pins: seq<Bits>, g: Bits): Table
    decreases |pins|
  {
    if pins == [] then t else PinAll(t[pins[0] := Route(Some(g), HOST_IF)], pins[1..], g)
  }

  function TailnetRoutes(t: Table, links: set<string>): Table {
    if TS_IF in links then t[TAILNET := Route(None, TS_IF)][MAGICDNS := Route(None, TS_IF)] else t
  }

  function Pins(env: Env): seq<Bits> { env.headscale + PUBLIC_DNS + env.doh }

  function WanTable(wan: Table, links: set<string>, env: Env, g: Bits): Table {
    PinAll(TailnetRoutes(wan[[] := Route(Some(g), HOST_IF)], links), Pins(env), g)
  }

  /** `_strip_wg_pollution` */
  function Strip(main: Table, env: Env): Table {
    map p | p in main && (main[p].dev != UPLINK_IF || p == [] || p == env.wgSubnet) :: main[p]
  }

  function MainTable(main: Table, links: set<string>, env: Env): Table {
    TailnetRoutes(Strip(main, env)[[] := Route(None, UPLINK_IF)][env.wgSubnet := Route(None, UPLINK_IF)], links)
  }

  function Cleanup(h: Host): Host {
    h.(rules := ScrubAll(h.rules, StaleSpecs(h.tsIp)), tables := h.tables[STALE_TABLE := map[]])
  }

  /** Adding VM_IP/16 to eth0 brings its connected route. */
  function HostLink(h: Host, env: Env): Host {
    if h.vmShown || HOST_IF !in h.links || |env.vmIp| < 16 then h
    else h.(vmShown := true, tables := h.tables[MAIN := MainOf(h)[env.vmIp[..16] := Route(None, HOST_IF)]])
  }

  function ApplyMain(h: Host, env: Env): Host {
    if UPLINK_IF !in h.links then h
    else h.(tables := h.tables[MAIN := MainTable(MainOf(h), h.links, env)])
  }

  /** Under `set -e` a default route through something that is no address, or through a
      missing eth0, stops the script where it stands. */
  datatype Outcome = Done(host: Host) | Aborted(host: Host)

  function Apply(h: Host, env: Env): Outcome {
    var h1 := HostLink(Cleanup(h), env);
    match WanGw(h1, env)
    case Junk => Aborted(h1)
    case NoHop => Done(Finish(h1, env))
    case Gw(g) =>
      if HOST_IF !in h1.links then Aborted(h1)
      else Done(Finish(h1.(tables := h1.tables[WAN := WanTable(WanOf(h1), h1.links, env, g)]), env))
  }

  function Finish(h: Host, env: Env): Host {
    var h1 := ApplyMain(h, env);
    h1.(rules := AddAll(h1.rules, Policy(env, h1.tsIp)))
  }

  function OwnSpecs(): seq<Spec> {
    [ByPref(35), ByPref(40), ByPref(45), ByPref(48), ByPref(50), ByPref(49), ByPref(57), ByPref(59)]
  }

  function Stop(h: Host): Host {
    var h1 := Cleanup(h);
    h1.(rules := ScrubAll(h1.rules, OwnSpecs()))
  }

  // ---------------------------------------------------------------- what the loops do

  predicate FitsAny(specs: seq<Spec>, r: Rule) {
    exists s :: s in specs && Fits(s, r)
  }

  lemma {:induction false} ScrubAllKeeps(rules: seq<Rule>, specs: seq<Spec>)
    ensures Sorted(rules) ==> Sorted(ScrubAll(rules, specs))
    ensures forall x :: x in ScrubAll(rules, specs) <==> x in rules && !FitsAny(specs, x)
    ensures forall p :: Bucket(ScrubAll(rules, specs), p) == ScrubAll(Bucket(rules, p), specs)
    decreases |specs|
  {
    if specs != [] {
      ScrubKeeps(rules, specs[0]);
      ScrubAllKeeps(Scrub(rules, specs[0]), specs[1..]);
      forall x ensures FitsAny(specs, x) <==> Fits(specs[0], x) || FitsAny(specs[1..], x) {
        if FitsAny(specs, x) {
          var s :| s in specs && Fits(s, x);
          assert s == specs[0] || s in specs[1..];
        }
      }
    }
  }

  lemma {:induction false} ScrubAllNothing(rules: seq<Rule>, specs: seq<Spec>)
    requires forall r :: r in rules ==> !FitsAny(specs, r)
    ensures ScrubAll(rules, specs) == rules
    decreases |specs|
  {
    if specs != [] {
      forall r | r in rules ensures !Fits(specs[0], r) && !FitsAny(specs[1..], r) {
        assert specs[0] in specs;
        assert forall s :: s in specs[1..] ==> s in specs;
      }
      ScrubNothing(rules, specs[0]);
      ScrubAllNothing(rules, specs[1..]);
    }
  }

  ghost predicate DistinctPrefs(added: seq<Rule>) {
    forall i, j :: 0 <= i < j < |added| ==> added[i].pref != added[j].pref
  }

  predicate Adds(added: seq<Rule>, pref: nat) {
    exists r :: r in added && r.pref == pref
  }

  lemma RuleAddKeeps(rules: seq<Rule>, r: Rule)
    requires Sorted(rules)
    ensures Sorted(RuleAdd(rules, r))
    ensures forall x :: x in RuleAdd(rules, r) <==> x == r || (x in rules && x.pref != r.pref)
    ensures forall p :: Bucket(RuleAdd(rules, r), p) == if p == r.pref then [r] else Bucket(rules, p)
  {
    var spec := ByPref(r.pref);
    ScrubKeeps(rules, spec);
    InsertKeeps(Scrub(rules, spec), r);
    EmptyBucket(Scrub(rules, spec), r.pref);
    forall p: nat | p != r.pref ensures Bucket(Scrub(rules, spec), p) == Bucket(rules, p) {
      BucketPref(rules, p);
      ScrubNothing(Bucket(rules, p), spec);
    }
  }

  lemma {:induction false} AddAllKeeps(rules: seq<Rule>, added: seq<Rule>)
    requires Sorted(rules) && DistinctPrefs(added)
    ensures Sorted(AddAll(rules, added))
    ensures forall x :: x in AddAll(rules, added) <==> x in added || (x in rules && !Adds(added, x.pref))
    ensures forall r :: r in added ==> Bucket(AddAll(rules, added), r.pref) == [r]
    ensures forall p :: !Adds(added, p) ==> Bucket(AddAll(rules, added), p) == Bucket(rules, p)
    decreases |added|
  {
    if added != [] {
      RuleAddKeeps(rules, added[0]);
      AddAllKeeps(RuleAdd(rules, added[0]), added[1..]);
      forall p: nat ensures Adds(added, p) <==> added[0].pref == p || Adds(added[1..], p) {
        if Adds(added, p) {
          var r :| r in added && r.pref == p;
          assert r == added[0] || r in added[1..];
        }
      }
      assert !Adds(added[1..], added[0].pref) by {
        assert forall i :: 0 <= i < |added[1..]| ==> added[1..][i] == added[i + 1];
      }
      forall r | r in added ensures Bucket(AddAll(rules, added), r.pref) == [r] {
        assert r == added[0] || r in added[1..];
      }
    }
  }

  lemma {:induction false} PinAllRoutes(t: Table, pins: seq<Bits>, g: Bits)
    ensures forall p :: p in PinAll(t, pins, g) <==> p in t || p in pins
    ensures forall p :: p in PinAll(t, pins, g) ==>
      PinAll(t, pins, g)[p] == if p in pins then Route(Some(g), HOST_IF) else t[p]
    decreases |pins|
  {
    if pins != [] {
      PinAllRoutes(t[pins[0] := Route(Some(g), HOST_IF)], pins[1..], g);
      assert forall p :: p in pins <==> p == pins[0] || p in pins[1..];
    }
  }

  // ---------------------------------------------------------------- apply twice

  lemma RulesAgain(rules: seq<Rule>, tsIp: Option<Bits>, added: seq<Rule>)
    requires Sorted(rules) && DistinctPrefs(added)
    ensures var once := AddAll(ScrubAll(rules, StaleSpecs(tsIp)), added);
      AddAll(ScrubAll(once, StaleSpecs(tsIp)), added) == once
  {
    var specs := StaleSpecs(tsIp);
    var clean := ScrubAll(rules, specs);
    ScrubAllKeeps(rules, specs);
    var once := AddAll(clean, added);
    AddAllKeeps(clean, added);
    ScrubAllKeeps(once, specs);
    var twice := AddAll(ScrubAll(once, specs), added);
    AddAllKeeps(ScrubAll(once, specs), added);
    forall p: nat ensures Bucket(once, p) == Bucket(twice, p) {
      if Adds(added, p) {
        var r :| r in added && r.pref == p;
        assert Bucket(once, r.pref) == [r] && Bucket(twice, r.pref) == [r];
      } else {
        BucketPref(clean, p);
        ScrubAllNothing(Bucket(clean, p), specs);
      }
    }
    SameBuckets(once, twice);
  }

  predicate IsTailnetRoute(p: Bits, links: set<string>) {
    TS_IF in links && (p == TAILNET || p == MAGICDNS)
  }

  lemma WanTableRoutes(wan: Table, links: set<string>, env: Env, g: Bits)
    ensures var t := WanTable(wan, links, env, g);
      forall p ::
        (p in t <==> p in Pins(env) || IsTailnetRoute(p, links) || p == [] || p in wan) &&
        (p in t ==> (t[p] ==
          if p in Pins(env) then Route(Some(g), HOST_IF)
          else if IsTailnetRoute(p, links) then Route(None, TS_IF)
          else if p == [] then Route(Some(g), HOST_IF) else wan[p]))
  {
    hide Pins;
    TailnetShape();
    hide TAILNET, MAGICDNS;
    PinAllRoutes(TailnetRoutes(wan[[] := Route(Some(g), HOST_IF)], links), Pins(env), g);
  }

  lemma WanTableAgain(wan: Table, links: set<string>, env: Env, g: Bits)
    ensures WanTable(WanTable(wan, links, env, g), links, env, g) == WanTable(wan, links, env, g)
    ensures [] in WanTable(wan, links, env, g)
    ensures WanTable(wan, links, env, g)[[]] == Route(Some(g), HOST_IF)
  {
    TailnetShape();
    WanTableRoutes(wan, links, env, g);
    WanTableRoutes(WanTable(wan, links, env, g), links, env, g);
    hide TAILNET, MAGICDNS, Pins, WanTable;
    assert WanTable(WanTable(wan, links, env, g), links, env, g) == WanTable(wan, links, env, g);
  }

  lemma TailnetShape()
    ensures |TAILNET| == 10 && |MAGICDNS| == 32 && TAILNET <= MAGICDNS
  {
    assert MAGICDNS[..10] == TAILNET;
  }

  lemma MainTableRoutes(main: Table, links: set<string>, env: Env)
    ensures var t := MainTable(main, links, env);
      forall p ::
        (p in t <==> p == [] || p == env.wgSubnet || IsTailnetRoute(p, links) || (p in main && main[p].dev != UPLINK_IF)) &&
        (p in t ==> (t[p] ==
          if IsTailnetRoute(p, links) then Route(None, TS_IF)
          else if p == [] || p == env.wgSubnet then Route(None, UPLINK_IF) else main[p]))
  {
    TailnetShape();
    hide TAILNET, MAGICDNS;
  }

  lemma MainTableAgain(main: Table, links: set<string>, env: Env)
    ensures MainTable(MainTable(main, links, env), links, env) == MainTable(main, links, env)
    ensures [] in MainTable(main, links, env)
    ensures MainTable(main, links, env)[[]] == Route(None, UPLINK_IF)
  {
    TailnetShape();
    MainTableRoutes(main, links, env);
    MainTableRoutes(MainTable(main, links, env), links, env);
    hide TAILNET, MAGICDNS, MainTable;
    assert MainTable(MainTable(main, links, env), links, env) == MainTable(main, links, env);
  }
}
