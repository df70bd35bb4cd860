/** What the allocators keep over every run: no sharing, exact pools, and the leak. */
module AllocationTheorems {
  import opened Common
  import opened FirstFit
  import opened Allocation

  // ---------------------------------------------------------------- runs

  /** Create is a request whose error rolls the session back; Swallowed is the handler that
      catches the ValueError, so that what the session holds is committed. Ids may be reused. */
  datatype Step =
    | Create(id: nat, w: Worker, explicit: Option<nat>)
    | Swallowed(id: nat, w: Worker)
    | Delete(id: nat)
    | PeerCreate(id: nat, g: nat)
    | PeerDelete(id: nat)

  function Apply(db: Db, step: Step): Db {
    match step
    case Create(id, w, explicit) => (match CreateGateway(db, id, w, explicit) case Made(d) => d case _ => db)
    case Swallowed(id, w) => (match CreateGateway(db, id, w, None) case Made(d) => d case Refused(d) => d case Conflict => db)
    case Delete(id) => DeleteGateway(db, id)
    case PeerCreate(id, g) => (match CreatePeer(db, id, g) case Ok(d) => d case ValueError => db)
    case PeerDelete(id) => (match DeletePeer(db, id) case Ok(d) => d case ValueError => db)
  }

  /** A new row's id belongs to no row that is there. */
  predicate Enabled(db: Db, step: Step) {
    match step
    case Create(id, _, _) => id !in db.gateways
    case Swallowed(id, _) => id !in db.gateways
    case PeerCreate(id, _) => id !in db.peers
    case _ => true
  }

  function Run(db: Db, steps: seq<Step>): Db
    decreases |steps|
  {
    if steps == [] then db else Run(Apply(db, steps[0]), steps[1..])
  }

  predicate Runs(db: Db, steps: seq<Step>)
    decreases |steps|
  {
    steps == [] || (Enabled(db, steps[0]) && Runs(Apply(db, steps[0]), steps[1..]))
  }

  const EMPTY := Db(map[], [], [], map[])

  // ---------------------------------------------------------------- the invariant

  /** The unique constraint on (worker, address). */
  ghost predicate UniqueIps(rows: seq<IpRow>) {
    forall i, j :: 0 <= i < j < |rows| ==> rows[i].worker != rows[j].worker || rows[i].address != rows[j].address
  }

  ghost predicate UniquePorts(rows: seq<PortRow>) {
    forall i, j :: 0 <= i < j < |rows| ==> rows[i] != rows[j]
  }

  ghost predicate GatewaysOk(db: Db) {
    (forall g, h :: g in db.gateways && h in db.gateways && g != h && db.gateways[g].worker == db.gateways[h].worker ==>
      db.gateways[g].vmIp != db.gateways[h].vmIp && db.gateways[g].port != db.gateways[h].port) &&
    forall g :: g in db.gateways ==> IpRow(db.gateways[g].worker, db.gateways[g].vmIp, None) in db.ips
  }

  ghost predicate PortsOk(db: Db) {
    UniquePorts(db.ports) && forall r :: r in db.ports ==> PortTaken(db, r.worker, r.port)
  }

  /** Peer rows: no address twice, no gateway id twice, each a host of its gateway's subnet. */
  ghost predicate PeerRowsOk(rows: seq<IpRow>) {
    (forall r, q :: r in rows && q in rows && r.gateway.Some? && q.gateway.Some? && (r.address == q.address || r.gateway == q.gateway) ==> r == q) &&
    forall r :: r in rows && r.gateway.Some? ==> SubnetStart(r.gateway.value) + 2 <= r.address < SubnetStart(r.gateway.value) + 255
  }

  ghost predicate HasRow(rows: seq<IpRow>, p: Peer) {
    exists r :: r in rows && r.gateway == Some(p.gateway) && r.address == p.address
  }

  ghost predicate PeersOk(db: Db) {
    (forall p :: p in db.peers ==> HasRow(db.ips, db.peers[p])) &&
    forall p, q :: p in db.peers && q in db.peers && p != q ==> db.peers[p].gateway != db.peers[q].gateway
  }

  ghost predicate Inv(db: Db) {
    UniqueIps(db.ips) && GatewaysOk(db) && PortsOk(db) && PeerRowsOk(db.ips) && PeersOk(db)
  }

  /** No VM row without its gateway. */
  ghost predicate NoOrphan(db: Db) {
    forall r :: r in db.ips && r.gateway.None? ==>
      exists g :: g in db.gateways && db.gateways[g].worker == r.worker && db.gateways[g].vmIp == r.address
  }

  // ---------------------------------------------------------------- rows dropped and added

  lemma UniqueTail(rows: seq<IpRow>)
    requires UniqueIps(rows) && rows != []
    ensures UniqueIps(rows[1..])
    ensures forall r :: r in rows[1..] ==> r.worker != rows[0].worker || r.address != rows[0].address
    ensures forall r :: r in rows <==> r == rows[0] || r in rows[1..]
  {
    var rest := rows[1..];
    assert forall i :: 0 <= i < |rest| ==> rest[i] == rows[i + 1];
    assert forall r :: r in rows <==> r == rows[0] || r in rest;
  }

  lemma UniqueCons(first: IpRow, rest: seq<IpRow>)
    requires UniqueIps(rest) && forall r :: r in rest ==> r.worker != first.worker || r.address != first.address
    ensures UniqueIps([first] + rest)
    ensures forall r :: r in [first] + rest <==> r == first || r in rest
  {
    assert forall i :: 0 <= i < |rest| ==> rest[i] in rest;
  }

  lemma {:induction false} DropIpRows(rows: seq<IpRow>, w: nat, a: nat)
    requires UniqueIps(rows)
    ensures UniqueIps(DropIp(rows, w, a))
    ensures forall r :: r in DropIp(rows, w, a) <==> r in rows && !(r.worker == w && r.address == a)
  {
    if rows != [] {
      UniqueTail(rows);
      hide UniqueIps;
      DropIpRows(rows[1..], w, a);
      if !(rows[0].worker == w && rows[0].address == a) { UniqueCons(rows[0], DropIp(rows[1..], w, a)); }
    }
  }

  lemma {:induction false} DropPeerIpRows(rows: seq<IpRow>, g: nat, a: nat)
    requires UniqueIps(rows)
    requires forall r, q :: r in rows && q in rows && r.gateway.Some? && q.gateway.Some? && r.gateway == q.gateway ==> r == q
    ensures UniqueIps(DropPeerIp(rows, g, a))
    ensures forall r :: r in DropPeerIp(rows, g, a) <==> r in rows && !(r.gateway == Some(g) && r.address == a)
  {
    if rows != [] {
      UniqueTail(rows);
      hide UniqueIps;
      assert rows[0] in rows;
      DropPeerIpRows(rows[1..], g, a);
      if !(rows[0].gateway == Some(g) && rows[0].address == a) { UniqueCons(rows[0], DropPeerIp(rows[1..], g, a)); }
    }
  }

  lemma {:induction false} DropPortRows(rows: seq<PortRow>, x: PortRow)
    requires UniquePorts(rows)
    ensures UniquePorts(DropPort(rows, x))
    ensures forall r :: r in DropPort(rows, x) <==> r in rows && r != x
  {
    if rows != [] {
      var rest := rows[1..];
      assert forall i :: 0 <= i < |rest| ==> rest[i] == rows[i + 1];
      assert rows[0] !in rest;
      DropPortRows(rest, x);
      if rows[0] != x {
        var d := DropPort(rest, x);
        assert forall i :: 0 <= i < |d| ==> d[i] in d;
      }
    }
  }

  lemma {:induction false} StaleRowFound(rows: seq<IpRow>, g: nat, inUse: set<nat>)
    ensures StaleRow(rows, g, inUse).None? ==> forall r :: r in rows && r.gateway == Some(g) ==> r.address in inUse
    ensures StaleRow(rows, g, inUse).Some? ==> exists r :: r in rows && r.gateway == Some(g) && r.address == StaleRow(rows, g, inUse).value
  {
    if rows != [] && !(rows[0].gateway == Some(g) && rows[0].address !in inUse) {
      StaleRowFound(rows[1..], g, inUse);
      assert forall r :: r in rows <==> r == rows[0] || r in rows[1..];
    }
  }

  // ---------------------------------------------------------------- what a create adds

  lemma VmIpIsFree(db: Db, w: Worker)
    requires FreeVmIp(db, w).Some?
    ensures var ip := FreeVmIp(db, w).value;
      w.ipStart <= ip < w.broadcast && (forall r :: r in db.ips && r.worker == w.id ==> r.address != ip) &&
      forall g :: g in db.gateways && db.gateways[g].worker == w.id ==> db.gateways[g].vmIp != ip
  {
    FirstFreeIsLeast(UsedIps(db, w.id), w.ipStart, w.broadcast);
  }

  lemma PortIsFree(db: Db, w: Worker)
    requires FreePort(db, w).Some?
    ensures var port := FreePort(db, w).value;
      w.portStart <= port <= w.portEnd && (forall r :: r in db.ports && r.worker == w.id ==> r.port != port) &&
      forall g :: g in db.gateways && db.gateways[g].worker == w.id ==> db.gateways[g].port != port
  {
    FirstFreeIsLeast(UsedPorts(db, w.id), w.portStart, w.portEnd + 1);
  }

  lemma AddVmRow(db: Db, w: nat, a: nat)
    requires Inv(db) && forall r :: r in db.ips && r.worker == w ==> r.address != a
    ensures Inv(WithIp(db, IpRow(w, a, None)))
  {
    var t := WithIp(db, IpRow(w, a, None));
    assert forall r :: r in t.ips <==> r in db.ips || r == IpRow(w, a, None);
    assert UniqueIps(t.ips) by { assert forall i :: 0 <= i < |db.ips| ==> db.ips[i] in db.ips; }
    assert PortsOk(t) by { forall r | r in t.ports ensures PortTaken(t, r.worker, r.port) { assert PortTaken(db, r.worker, r.port); } }
    forall p | p in t.peers ensures HasRow(t.ips, t.peers[p]) { assert HasRow(db.ips, db.peers[p]); }
  }

  /** A new gateway whose VM row is there, with or without a new port row. */
  function Entered(db: Db, id: nat, g: Gateway, pooled: bool): Db {
    (if pooled then WithPort(db, PortRow(g.worker, g.port)) else db).(gateways := db.gateways[id := g])
  }

  lemma EnteredPorts(db: Db, id: nat, g: Gateway, pooled: bool)
    requires PortsOk(db) && id !in db.gateways && !PortTaken(db, g.worker, g.port)
    ensures PortsOk(Entered(db, id, g, pooled))
  {
    var t := Entered(db, id, g, pooled);
    assert PortRow(g.worker, g.port) !in db.ports;
    assert PortTaken(t, g.worker, g.port) by { assert t.gateways[id] == g; }
    forall r | r in db.ports ensures PortTaken(t, r.worker, r.port) {
      var h :| h in db.gateways && db.gateways[h].worker == r.worker && db.gateways[h].port == r.port;
      assert t.gateways[h] == db.gateways[h];
    }
  }

  lemma AddGatewayKeeps(db: Db, id: nat, g: Gateway, pooled: bool)
    requires Inv(db) && id !in db.gateways && IpRow(g.worker, g.vmIp, None) in db.ips && !PortTaken(db, g.worker, g.port)
    requires forall h :: h in db.gateways && db.gateways[h].worker == g.worker ==> db.gateways[h].vmIp != g.vmIp
    ensures Inv(Entered(db, id, g, pooled))
  {
    EnteredPorts(db, id, g, pooled);
    hide UniqueIps, PeerRowsOk, HasRow, PortsOk;
  }

  lemma CreateKeeps(db: Db, id: nat, w: Worker, explicit: Option<nat>)
    requires Inv(db) && id !in db.gateways
    ensures match CreateGateway(db, id, w, explicit) case Made(d) => Inv(d) case Refused(d) => Inv(d) case Conflict => true
  {
    if FreeVmIp(db, w).Some? {
      VmIpIsFree(db, w);
      var ip := FreeVmIp(db, w).value;
      var db1 := WithIp(db, IpRow(w.id, ip, None));
      AddVmRow(db, w.id, ip);
      if FreePort(db1, w).Some? { PortIsFree(db1, w); }
      hide Inv, FreeVmIp, FreePort, PortTaken;
      var port := if explicit.Some? then explicit.value else if FreePort(db1, w).Some? then FreePort(db1, w).value else 0;
      if !PortTaken(db1, w.id, port) {
        AddGatewayKeeps(db1, id, Gateway(w.id, ip, port), explicit.None?);
      }
      assert forall r :: PortTaken(WithPort(db1, r), w.id, port) == PortTaken(db1, w.id, port) by { SamePorts(db1, w.id, port); }
    }
  }

  lemma SamePorts(db: Db, w: nat, port: nat)
    ensures forall r :: PortTaken(WithPort(db, r), w, port) == PortTaken(db, w, port)
  {
  }

  // ---------------------------------------------------------------- deletes and peers

  lemma DeleteKeeps(db: Db, id: nat)
    requires Inv(db)
    ensures Inv(DeleteGateway(db, id))
  {
    if id in db.gateways {
      var g := db.gateways[id];
      var t := DeleteGateway(db, id);
      DropIpRows(db.ips, g.worker, g.vmIp);
      DropPortRows(db.ports, PortRow(g.worker, g.port));
      DeletedPeers(db, id);
      DeletedPorts(db, id);
      assert GatewaysOk(t);
      assert PeerRowsOk(t.ips);
    }
  }

  lemma DeletedPorts(db: Db, id: nat)
    requires id in db.gateways && PortsOk(db)
    ensures PortsOk(DeleteGateway(db, id))
  {
    var g := db.gateways[id];
    var t := DeleteGateway(db, id);
    DropPortRows(db.ports, PortRow(g.worker, g.port));
    forall r | r in t.ports ensures PortTaken(t, r.worker, r.port) {
      assert PortTaken(db, r.worker, r.port);
      var h :| h in db.gateways && db.gateways[h].worker == r.worker && db.gateways[h].port == r.port;
      assert h in t.gateways;
    }
  }

  lemma DeletedPeers(db: Db, id: nat)
    requires id in db.gateways && UniqueIps(db.ips) && GatewaysOk(db) && PeersOk(db)
    ensures PeersOk(DeleteGateway(db, id))
  {
    var g := db.gateways[id];
    var t := DeleteGateway(db, id);
    var vm := IpRow(g.worker, g.vmIp, None);
    assert vm in db.ips;
    DropIpRows(db.ips, g.worker, g.vmIp);
    forall p | p in t.peers ensures HasRow(t.ips, t.peers[p]) {
      hide UniqueIps, GatewaysOk, DropIp;
      assert HasRow(db.ips, db.peers[p]);
      var r :| r in db.ips && r.gateway == Some(db.peers[p].gateway) && r.address == db.peers[p].address;
      if r.worker == g.worker && r.address == g.vmIp { UniqueByKey(db.ips, r, vm); }
      assert r in t.ips;
    }
    hide DropIp, HasRow, UniqueIps, GatewaysOk;
  }

  lemma UniqueByKey(rows: seq<IpRow>, r: IpRow, q: IpRow)
    requires UniqueIps(rows) && r in rows && q in rows && r.worker == q.worker && r.address == q.address
    ensures r == q
  {
  }

  lemma AddPeerRow(db: Db, w: nat, a: nat, g: nat)
    requires Inv(db) && (forall r :: r in db.ips ==> r.address != a && r.gateway != Some(g))
    requires SubnetStart(g) + 2 <= a < SubnetStart(g) + 255
    ensures Inv(WithIp(db, IpRow(w, a, Some(g))))
  {
    var row := IpRow(w, a, Some(g));
    var t := WithIp(db, row);
    assert forall r :: r in t.ips <==> r in db.ips || r == row;
    assert UniqueIps(t.ips) by { assert forall i :: 0 <= i < |db.ips| ==> db.ips[i] in db.ips; }
    assert PortsOk(t) by { forall r | r in t.ports ensures PortTaken(t, r.worker, r.port) { assert PortTaken(db, r.worker, r.port); } }
    forall p | p in t.peers ensures HasRow(t.ips, t.peers[p]) { assert HasRow(db.ips, db.peers[p]); }
    assert PeerRowsOk(t.ips) by { hide UniqueIps, GatewaysOk, PortsOk, PeersOk; }
  }

  lemma AddPeerKeeps(db: Db, id: nat, p: Peer)
    requires Inv(db) && id !in db.peers && HasRow(db.ips, p) && !HasPeer(db, p.gateway)
    ensures Inv(db.(peers := db.peers[id := p]))
  {
    hide UniqueIps, GatewaysOk, PeerRowsOk, HasRow, UniquePorts;
    var t := db.(peers := db.peers[id := p]);
    assert GatewaysOk(t) by { SameGateways(db, t); }
    assert PortsOk(t) by { forall r | r in t.ports ensures PortTaken(t, r.worker, r.port) { assert PortTaken(db, r.worker, r.port); } }
  }

  lemma SameGateways(db: Db, t: Db)
    requires GatewaysOk(db) && t.gateways == db.gateways && t.ips == db.ips
    ensures GatewaysOk(t)
  {
  }

  lemma PeerCreateKeeps(db: Db, id: nat, g: nat)
    requires Inv(db) && id !in db.peers && CreatePeer(db, id, g).Ok?
    ensures Inv(CreatePeer(db, id, g).value)
  {
    StaleRowFound(db.ips, g, PeerIps(db, g));
    assert PeerIps(db, g) == {};
    var used := PeerIps(db, g) + set r | r in db.ips :: r.address;
    FirstFreeIsLeast(used, SubnetStart(g) + 2, SubnetStart(g) + 255);
    assert forall r :: r in db.ips ==> r.address in used;
    hide Inv, FirstFree, SubnetStart;
    match StaleRow(db.ips, g, PeerIps(db, g)) {
      case Some(a) =>
        AddPeerKeeps(db, id, Peer(g, a));
      case None =>
        var row := IpRow(db.gateways[g].worker, FreePeerIp(db, g).value, Some(g));
        AddPeerRow(db, row.worker, row.address, g);
        assert row in WithIp(db, row).ips;
        AddPeerKeeps(WithIp(db, row), id, Peer(g, row.address));
    }
  }

  lemma PeerDeleteKeeps(db: Db, id: nat)
    requires Inv(db) && id in db.peers
    ensures Inv(DeletePeer(db, id).value)
  {
    var t := DeletePeer(db, id).value;
    var gone := db.peers[id];
    DropPeerIpRows(db.ips, gone.gateway, gone.address);
    forall p | p in t.peers ensures HasRow(t.ips, t.peers[p]) {
      assert HasRow(db.ips, db.peers[p]);
      var r :| r in db.ips && r.gateway == Some(db.peers[p].gateway) && r.address == db.peers[p].address;
      assert r in t.ips;
    }
    assert PortsOk(t) by { forall r | r in t.ports ensures PortTaken(t, r.worker, r.port) { assert PortTaken(db, r.worker, r.port); } }
  }

  lemma StepKeeps(db: Db, step: Step)
    requires Inv(db) && Enabled(db, step)
    ensures Inv(Apply(db, step))
  {
    match step {
      case Create(id, w, explicit) => CreateKeeps(db, id, w, explicit);
      case Swallowed(id, w) => CreateKeeps(db, id, w, None);
      case Delete(id) => DeleteKeeps(db, id);
      case PeerCreate(id, g) => if CreatePeer(db, id, g).Ok? { PeerCreateKeeps(db, id, g); }
      case PeerDelete(id) => if id in db.peers { PeerDeleteKeeps(db, id); }
    }
  }

  lemma {:induction false} RunKeeps(db: Db, steps: seq<Step>)
    requires Inv(db) && Runs(db, steps)
    ensures Inv(Run(db, steps))
    decreases |steps|
  {
    if steps != [] {
      hide Inv, Apply, Enabled;
      StepKeeps(db, steps[0]);
      RunKeeps(Apply(db, steps[0]), steps[1..]);
    }
  }

  lemma EmptyInv()
    ensures Inv(EMPTY) && NoOrphan(EMPTY)
  {
  }

  // ---------------------------------------------------------------- nothing is shared

  /** Over every run, with swallowed errors and reused ids: no two gateways of a worker have
      the same address or port, and every port row is one gateway's. */
  lemma NoSharedVmIpOrPort(steps: seq<Step>)
    requires Runs(EMPTY, steps)
    ensures var db := Run(EMPTY, steps);
      (forall g, h :: g in db.gateways && h in db.gateways && g != h && db.gateways[g].worker == db.gateways[h].worker ==>
        db.gateways[g].vmIp != db.gateways[h].vmIp && db.gateways[g].port != db.gateways[h].port) &&
      (forall r :: r in db.ports ==> PortTaken(db, r.worker, r.port)) && UniquePorts(db.ports)
  {
    EmptyInv();
    RunKeeps(EMPTY, steps);
    hide UniqueIps, PeerRowsOk, PeersOk, Runs, Run;
  }

  /** Nor do two peers anywhere have the same address, also when their gateways share a /24, and
      none has the address of a gateway. */
  lemma NoSharedPeerIp(steps: seq<Step>)
    requires Runs(EMPTY, steps)
    ensures var db := Run(EMPTY, steps);
      (forall p, q :: p in db.peers && q in db.peers && p != q ==> db.peers[p].address != db.peers[q].address) &&
      forall p, g: nat :: p in db.peers ==> db.peers[p].address != SubnetStart(g) + 1
  {
    EmptyInv();
    RunKeeps(EMPTY, steps);
    hide UniqueIps, GatewaysOk, PortsOk, Runs, Run;
    var db := Run(EMPTY, steps);
    forall p, q | p in db.peers && q in db.peers && p != q ensures db.peers[p].address != db.peers[q].address {
      assert HasRow(db.ips, db.peers[p]) && HasRow(db.ips, db.peers[q]);
    }
    forall p, g: nat | p in db.peers ensures db.peers[p].address != SubnetStart(g) + 1 {
      assert HasRow(db.ips, db.peers[p]);
      OctetsApart(db.peers[p].gateway, db.peers[p].address, g);
    }
  }

  lemma OctetsApart(g: nat, a: nat, h: nat)
    requires SubnetStart(g) + 2 <= a < SubnetStart(g) + 255
    ensures a != SubnetStart(h) + 1
  {
    assert (SubnetStart(h) + 1) % 256 == 1;
    assert a % 256 == a - SubnetStart(g);
  }

  lemma SubnetSharedExactly(a: nat, b: nat)
    ensures SubnetStart(a) == SubnetStart(b) <==> a % 253 == b % 253
    ensures 256 <= SubnetStart(a) && SubnetStart(a) + 255 < 255 * 256
  {
  }

  // ---------------------------------------------------------------- the pool is exact, or leaks

  lemma CreateKeepsNoOrphan(db: Db, id: nat, w: Worker, explicit: Option<nat>)
    requires NoOrphan(db) && id !in db.gateways && CreateGateway(db, id, w, explicit).Made?
    ensures NoOrphan(CreateGateway(db, id, w, explicit).db)
  {
    var t := CreateGateway(db, id, w, explicit).db;
    hide FreeVmIp, FreePort, PortTaken;
    forall r | r in t.ips && r.gateway.None? ensures exists g :: g in t.gateways && t.gateways[g].worker == r.worker && t.gateways[g].vmIp == r.address {
      if r in db.ips {
        var g :| g in db.gateways && db.gateways[g].worker == r.worker && db.gateways[g].vmIp == r.address;
        assert t.gateways[g] == db.gateways[g];
      } else {
        assert t.gateways[id].worker == r.worker && t.gateways[id].vmIp == r.address;
      }
    }
  }

  lemma DeleteKeepsNoOrphan(db: Db, id: nat)
    requires Inv(db) && NoOrphan(db) && id in db.gateways
    ensures NoOrphan(DeleteGateway(db, id))
  {
    var gone := db.gateways[id];
    var t := DeleteGateway(db, id);
    DropIpRows(db.ips, gone.worker, gone.vmIp);
    hide Inv, DropIp;
    forall r | r in t.ips && r.gateway.None? ensures exists g :: g in t.gateways && t.gateways[g].worker == r.worker && t.gateways[g].vmIp == r.address {
      var g :| g in db.gateways && db.gateways[g].worker == r.worker && db.gateways[g].vmIp == r.address;
      assert g in t.gateways;
    }
  }

  lemma StepKeepsNoOrphan(db: Db, step: Step)
    requires Inv(db) && NoOrphan(db) && Enabled(db, step) && !step.Swallowed?
    ensures NoOrphan(Apply(db, step))
  {
    match step {
      case Create(id, w, explicit) => if CreateGateway(db, id, w, explicit).Made? { CreateKeepsNoOrphan(db, id, w, explicit); }
      case Delete(id) => if id in db.gateways { DeleteKeepsNoOrphan(db, id); }
      case PeerCreate(id, g) => hide Inv;
      case PeerDelete(id) =>
        if id in db.peers { DropPeerIpRows(db.ips, db.peers[id].gateway, db.peers[id].address); }
    }
  }

  lemma {:induction false} RunKeepsNoOrphan(db: Db, steps: seq<Step>)
    requires Inv(db) && NoOrphan(db) && Runs(db, steps) && forall s :: s in steps ==> !s.Swallowed?
    ensures NoOrphan(Run(db, steps))
    decreases |steps|
  {
    if steps != [] {
      hide Inv, NoOrphan, Apply, Enabled;
      StepKeeps(db, steps[0]);
      StepKeepsNoOrphan(db, steps[0]);
      RunKeepsNoOrphan(Apply(db, steps[0]), steps[1..]);
    }
  }

  /** With every failed create rolled back, the VM rows are the live gateways' addresses. */
  lemma PoolIsExact(steps: seq<Step>, w: nat)
    requires Runs(EMPTY, steps) && forall s :: s in steps ==> !s.Swallowed?
    ensures var db := Run(EMPTY, steps);
      (set r | r in db.ips && r.worker == w && r.gateway.None? :: r.address) ==
      (set g | g in db.gateways && db.gateways[g].worker == w :: db.gateways[g].vmIp)
  {
    EmptyInv();
    RunKeeps(EMPTY, steps);
    RunKeepsNoOrphan(EMPTY, steps);
    hide UniqueIps, PeerRowsOk, PeersOk, PortsOk, Runs, Run;
  }

  ghost predicate Orphan(db: Db, w: nat, a: nat) {
    IpRow(w, a, None) in db.ips && forall g :: g in db.gateways && db.gateways[g].worker == w ==> db.gateways[g].vmIp != a
  }

  lemma CreateKeepsOrphan(db: Db, id: nat, worker: Worker, explicit: Option<nat>, w: nat, a: nat)
    requires Orphan(db, w, a) && id !in db.gateways
    ensures match CreateGateway(db, id, worker, explicit) case Made(d) => Orphan(d, w, a) case Refused(d) => Orphan(d, w, a) case Conflict => true
  {
    if FreeVmIp(db, worker).Some? { VmIpIsFree(db, worker); }
    hide FreeVmIp, FreePort, PortTaken;
  }

  lemma StepKeepsOrphan(db: Db, step: Step, w: nat, a: nat)
    requires Inv(db) && Orphan(db, w, a) && Enabled(db, step)
    ensures Orphan(Apply(db, step), w, a)
  {
    match step {
      case Create(id, worker, explicit) => hide Orphan, CreateGateway; CreateKeepsOrphan(db, id, worker, explicit, w, a);
      case Swallowed(id, worker) => hide Orphan, CreateGateway; CreateKeepsOrphan(db, id, worker, None, w, a);
      case Delete(id) => if id in db.gateways { DropIpRows(db.ips, db.gateways[id].worker, db.gateways[id].vmIp); }
      case PeerCreate(id, g) => hide Inv;
      case PeerDelete(id) =>
        if id in db.peers { DropPeerIpRows(db.ips, db.peers[id].gateway, db.peers[id].address); }
    }
  }

  /** A leaked address is never given to a gateway again. */
  lemma {:induction false} LeakIsForever(db: Db, steps: seq<Step>, w: nat, a: nat)
    requires Inv(db) && Orphan(db, w, a) && Runs(db, steps)
    ensures Orphan(Run(db, steps), w, a)
    decreases |steps|
  {
    if steps != [] {
      hide Inv, Orphan, Apply, Enabled;
      StepKeeps(db, steps[0]);
      StepKeepsOrphan(db, steps[0], w, a);
      LeakIsForever(Apply(db, steps[0]), steps[1..], w, a);
    }
  }

  // ---------------------------------------------------------------- success and release

  /** An automatic create fails only when a pool is full, and never on a taken port. */
  lemma CreateSucceedsExactly(db: Db, id: nat, w: Worker)
    ensures CreateGateway(db, id, w, None).Made? <==>
      (exists a :: w.ipStart <= a < w.broadcast && a !in UsedIps(db, w.id)) &&
      (exists p :: w.portStart <= p <= w.portEnd && p !in UsedPorts(db, w.id))
    ensures !CreateGateway(db, id, w, None).Conflict?
    ensures FreeVmIp(db, w).Some? <==> exists a :: w.ipStart <= a < w.broadcast && a !in UsedIps(db, w.id)
  {
    FirstFreeIsLeast(UsedIps(db, w.id), w.ipStart, w.broadcast);
    FirstFreeIsLeast(UsedPorts(db, w.id), w.portStart, w.portEnd + 1);
    hide UsedIps;
    if FreeVmIp(db, w).Some? {
      var db1 := WithIp(db, IpRow(w.id, FreeVmIp(db, w).value, None));
      assert UsedPorts(db1, w.id) == UsedPorts(db, w.id);
      if FreePort(db1, w).Some? {
        PortIsFree(db1, w);
        SamePorts(db1, w.id, FreePort(db1, w).value);
      }
      hide UsedPorts, PortTaken, FirstFree;
    }
  }

  /** A swallowed error breaks that exactly when an address was free and no port was. */
  lemma SwallowedLeaksExactly(db: Db, id: nat, w: Worker)
    requires Inv(db) && NoOrphan(db) && id !in db.gateways
    ensures !NoOrphan(Apply(db, Swallowed(id, w))) <==>
      (exists a :: w.ipStart <= a < w.broadcast && a !in UsedIps(db, w.id)) &&
      (forall p :: w.portStart <= p <= w.portEnd ==> p in UsedPorts(db, w.id))
  {
    CreateSucceedsExactly(db, id, w);
    if CreateGateway(db, id, w, None).Made? {
      CreateKeepsNoOrphan(db, id, w, None);
      hide NoOrphan, Inv, UsedIps, UsedPorts;
    } else if FreeVmIp(db, w).None? {
      hide NoOrphan, Inv, UsedIps, UsedPorts, FreeVmIp;
    } else {
      VmIpIsFree(db, w);
      AddedRowIsOrphan(db, w.id, FreeVmIp(db, w).value);
      hide NoOrphan, Inv, UsedIps, UsedPorts, FreeVmIp, PortTaken;
    }
  }

  lemma AddedRowIsOrphan(db: Db, w: nat, a: nat)
    requires forall g :: g in db.gateways && db.gateways[g].worker == w ==> db.gateways[g].vmIp != a
    ensures !NoOrphan(WithIp(db, IpRow(w, a, None)))
  {
    assert IpRow(w, a, None) in WithIp(db, IpRow(w, a, None)).ips;
  }

  predicate Held(db: Db, a: nat) {
    exists r :: r in db.ips && r.address == a
  }

  predicate HasLeftover(db: Db, g: nat) {
    exists r :: r in db.ips && r.gateway == Some(g)
  }

  /** A peer is refused only for want of a gateway or of room: some leftover row of the id, or
      some host of its /24 that no row of any worker holds, is enough. */
  lemma PeerSucceedsExactly(db: Db, id: nat, g: nat)
    requires g in db.gateways && !HasPeer(db, g)
    ensures CreatePeer(db, id, g).Ok? <==>
      HasLeftover(db, g) || exists a :: SubnetStart(g) + 2 <= a < SubnetStart(g) + 255 && !Held(db, a)
  {
    assert PeerIps(db, g) == {};
    StaleRowFound(db.ips, g, {});
    var used := PeerIps(db, g) + set r | r in db.ips :: r.address;
    FirstFreeIsLeast(used, SubnetStart(g) + 2, SubnetStart(g) + 255);
    assert forall a: nat :: a in used <==> Held(db, a);
    hide Held, HasPeer, FirstFree, StaleRow, SubnetStart;
    assert FreePeerIp(db, g) == FirstFree(used, SubnetStart(g) + 2, SubnetStart(g) + 255);
  }

  /** Deleting a gateway makes its address and port free again. */
  lemma DeleteReleases(db: Db, id: nat)
    requires Inv(db) && id in db.gateways
    ensures var g := db.gateways[id];
      var t := DeleteGateway(db, id);
      UsedIps(t, g.worker) == UsedIps(db, g.worker) - {g.vmIp} && UsedPorts(t, g.worker) == UsedPorts(db, g.worker) - {g.port}
  {
    DeleteReleasesIp(db, id);
    DeleteReleasesPort(db, id);
  }

  predicate IpTaken(db: Db, w: nat, ip: nat) {
    exists g :: g in db.gateways && db.gateways[g].worker == w && db.gateways[g].vmIp == ip
  }

  predicate IpReserved(db: Db, w: nat, ip: nat) {
    exists r :: r in db.ips && r.worker == w && r.address == ip
  }

  lemma InUse(db: Db, w: nat, x: nat)
    ensures x in UsedIps(db, w) <==> IpTaken(db, w, x) || IpReserved(db, w, x)
    ensures x in UsedPorts(db, w) <==> PortTaken(db, w, x) || PortRow(w, x) in db.ports
  {
    if PortRow(w, x) in db.ports { assert PortRow(w, x).worker == w; }
  }

  lemma GatewayGone(db: Db, id: nat, x: nat)
    requires GatewaysOk(db) && id in db.gateways
    ensures var g := db.gateways[id];
      var t := DeleteGateway(db, id);
      (IpTaken(t, g.worker, x) <==> IpTaken(db, g.worker, x) && x != g.vmIp) &&
      (PortTaken(t, g.worker, x) <==> PortTaken(db, g.worker, x) && x != g.port)
  {
    var g := db.gateways[id];
    var t := DeleteGateway(db, id);
    if IpTaken(db, g.worker, x) && x != g.vmIp {
      var h :| h in db.gateways && db.gateways[h].worker == g.worker && db.gateways[h].vmIp == x;
      assert h in t.gateways && t.gateways[h] == db.gateways[h];
    }
    if PortTaken(db, g.worker, x) && x != g.port {
      var h :| h in db.gateways && db.gateways[h].worker == g.worker && db.gateways[h].port == x;
      assert h in t.gateways && t.gateways[h] == db.gateways[h];
    }
  }

  lemma DeleteReleasesIp(db: Db, id: nat)
    requires UniqueIps(db.ips) && GatewaysOk(db) && id in db.gateways
    ensures var g := db.gateways[id];
      UsedIps(DeleteGateway(db, id), g.worker) == UsedIps(db, g.worker) - {g.vmIp}
  {
    var g := db.gateways[id];
    var t := DeleteGateway(db, id);
    DropIpRows(db.ips, g.worker, g.vmIp);
    hide DropIp, DropPort, UniqueIps, GatewaysOk, UsedIps, UsedPorts, IpTaken, PortTaken;
    forall x: nat ensures x in UsedIps(t, g.worker) <==> x in UsedIps(db, g.worker) && x != g.vmIp {
      InUse(db, g.worker, x);
      InUse(t, g.worker, x);
      GatewayGone(db, id, x);
    }
  }

  lemma DeleteReleasesPort(db: Db, id: nat)
    requires UniquePorts(db.ports) && GatewaysOk(db) && id in db.gateways
    ensures var g := db.gateways[id];
      UsedPorts(DeleteGateway(db, id), g.worker) == UsedPorts(db, g.worker) - {g.port}
  {
    var g := db.gateways[id];
    var t := DeleteGateway(db, id);
    DropPortRows(db.ports, PortRow(g.worker, g.port));
    hide DropIp, DropPort, UniquePorts, GatewaysOk, UsedIps, UsedPorts, IpTaken, PortTaken, IpReserved;
    forall x: nat ensures x in UsedPorts(t, g.worker) <==> x in UsedPorts(db, g.worker) && x != g.port {
      InUse(db, g.worker, x);
      InUse(t, g.worker, x);
      GatewayGone(db, id, x);
    }
  }

  // ---------------------------------------------------------------- what each operation leaves

  /** An address that no gateway of the worker has and no row of the worker holds. */
  predicate IpFree(db: Db, w: nat, ip: nat) {
    (forall g :: g in db.gateways && db.gateways[g].worker == w ==> db.gateways[g].vmIp != ip) &&
    forall r :: r in db.ips && r.worker == w ==> r.address != ip
  }

  predicate PortFree(db: Db, w: nat, port: nat) {
    (forall g :: g in db.gateways && db.gateways[g].worker == w ==> db.gateways[g].port != port) &&
    forall r :: r in db.ports && r.worker == w ==> r.port != port
  }

  lemma FreeMeans(db: Db, w: nat)
    ensures forall x: nat :: IpFree(db, w, x) <==> x !in UsedIps(db, w)
    ensures forall x: nat :: PortFree(db, w, x) <==> x !in UsedPorts(db, w)
  {
    forall x: nat ensures IpFree(db, w, x) <==> x !in UsedIps(db, w) {}
    forall x: nat ensures PortFree(db, w, x) <==> x !in UsedPorts(db, w) {}
  }

  lemma FreeVmIpMeans(db: Db, w: Worker)
    ensures forall a :: FreeVmIp(db, w) == Some(a) <==>
      w.ipStart <= a < w.broadcast && IpFree(db, w.id, a) && forall x: nat :: w.ipStart <= x < a ==> !IpFree(db, w.id, x)
    ensures FreeVmIp(db, w).None? <==> forall x: nat :: w.ipStart <= x < w.broadcast ==> !IpFree(db, w.id, x)
  {
    FirstFreeIsLeast(UsedIps(db, w.id), w.ipStart, w.broadcast);
    FreeMeans(db, w.id);
    hide UsedIps, UsedPorts, IpFree, PortFree, FirstFree;
  }

  lemma FreePortMeans(db: Db, w: Worker)
    ensures forall p :: FreePort(db, w) == Some(p) <==>
      w.portStart <= p <= w.portEnd && PortFree(db, w.id, p) && forall x: nat :: w.portStart <= x < p ==> !PortFree(db, w.id, x)
    ensures FreePort(db, w).None? <==> forall x: nat :: w.portStart <= x <= w.portEnd ==> !PortFree(db, w.id, x)
  {
    FirstFreeIsLeast(UsedPorts(db, w.id), w.portStart, w.portEnd + 1);
    FreeMeans(db, w.id);
    hide UsedIps, UsedPorts, IpFree, PortFree, FirstFree;
  }

  /** A created gateway has the worker's least free address, with a row for it, and the port asked
      for without a row, or else the least free port with one. Nothing else changes. */
  lemma CreateGives(db: Db, id: nat, w: Worker, explicit: Option<nat>)
    requires CreateGateway(db, id, w, explicit).Made?
    ensures var t := CreateGateway(db, id, w, explicit).db;
      && id in t.gateways && t.gateways == db.gateways[id := t.gateways[id]] && t.peers == db.peers
      && t.gateways[id].worker == w.id
      && w.ipStart <= t.gateways[id].vmIp < w.broadcast && IpFree(db, w.id, t.gateways[id].vmIp)
      && (forall x: nat :: w.ipStart <= x < t.gateways[id].vmIp ==> !IpFree(db, w.id, x))
      && t.ips == db.ips + [IpRow(w.id, t.gateways[id].vmIp, None)]
      && (explicit.Some? ==> t.gateways[id].port == explicit.value && t.ports == db.ports)
      && (explicit.None? ==>
            && w.portStart <= t.gateways[id].port <= w.portEnd && PortFree(db, w.id, t.gateways[id].port)
            && (forall x: nat :: w.portStart <= x < t.gateways[id].port ==> !PortFree(db, w.id, x))
            && t.ports == db.ports + [PortRow(w.id, t.gateways[id].port)])
  {
    FreeVmIpMeans(db, w);
    var db1 := WithIp(db, IpRow(w.id, FreeVmIp(db, w).value, None));
    FreePortMeans(db1, w);
    assert forall x: nat :: PortFree(db1, w.id, x) <==> PortFree(db, w.id, x);
    hide FreeVmIp, FreePort, IpFree, PortFree, PortTaken;
  }

  /** When a create succeeds, is refused, or meets a taken port, and what the session then holds. */
  lemma CreateFailsExactly(db: Db, id: nat, w: Worker, explicit: Option<nat>)
    ensures var full := forall x: nat :: w.ipStart <= x < w.broadcast ==> !IpFree(db, w.id, x);
      var noPort := explicit.None? && forall x: nat :: w.portStart <= x <= w.portEnd ==> !PortFree(db, w.id, x);
      var taken := explicit.Some? && exists g :: g in db.gateways && db.gateways[g].worker == w.id && db.gateways[g].port == explicit.value;
      var r := CreateGateway(db, id, w, explicit);
      && (r.Refused? <==> full || noPort) && (r.Conflict? <==> !full && taken) && (r.Made? <==> !full && !noPort && !taken)
      && (full ==> r == Refused(db))
      && (!full && noPort ==> exists a: nat :: r == Refused(db.(ips := db.ips + [IpRow(w.id, a, None)])))
  {
    FreeVmIpMeans(db, w);
    if FreeVmIp(db, w).Some? {
      var db1 := WithIp(db, IpRow(w.id, FreeVmIp(db, w).value, None));
      FreePortMeans(db1, w);
      assert forall x: nat :: PortFree(db1, w.id, x) <==> PortFree(db, w.id, x);
      if explicit.None? && FreePort(db1, w).Some? {
        assert PortFree(db1, w.id, FreePort(db1, w).value);
      }
    }
    hide FreeVmIp, FreePort, IpFree;
  }

  /** A deletion takes the gateway, the rows of its address and port, and its peers, and leaves all
      else: the address rows of its peers too. */
  lemma DeleteGives(db: Db, id: nat)
    requires Inv(db) && id in db.gateways
    ensures var g := db.gateways[id];
      var t := DeleteGateway(db, id);
      && t.gateways == db.gateways - {id}
      && (forall r :: r in t.ips <==> r in db.ips && !(r.worker == g.worker && r.address == g.vmIp))
      && (forall r :: r in t.ports <==> r in db.ports && !(r.worker == g.worker && r.port == g.port))
      && (forall p :: p in t.peers <==> p in db.peers && db.peers[p].gateway != id)
      && (forall p :: p in t.peers ==> t.peers[p] == db.peers[p])
      && forall r :: r in db.ips && r.gateway.Some? ==> r in t.ips
  {
    var g := db.gateways[id];
    DropIpRows(db.ips, g.worker, g.vmIp);
    DropPortRows(db.ports, PortRow(g.worker, g.port));
    assert IpRow(g.worker, g.vmIp, None) in db.ips;
    forall r | r in db.ips && r.gateway.Some? ensures r.worker != g.worker || r.address != g.vmIp {
      if r.worker == g.worker && r.address == g.vmIp { UniqueByKey(db.ips, r, IpRow(g.worker, g.vmIp, None)); }
    }
    hide Inv, DropIp, DropPort;
  }

  /** A new peer takes over a leftover address of its gateway's id, or the least host from .2 to
      .254 of its /24 that no row holds, and then has a row for it. */
  lemma PeerGives(db: Db, id: nat, g: nat)
    requires CreatePeer(db, id, g).Ok?
    ensures var t := CreatePeer(db, id, g).value;
      && id in t.peers && t.peers == db.peers[id := t.peers[id]] && t.peers[id].gateway == g
      && t.gateways == db.gateways && t.ports == db.ports
      && (HasLeftover(db, g) ==> t.ips == db.ips && exists r :: r in db.ips && r.gateway == Some(g) && r.address == t.peers[id].address)
      && (!HasLeftover(db, g) ==>
            && g in db.gateways && t.ips == db.ips + [IpRow(db.gateways[g].worker, t.peers[id].address, Some(g))]
            && (g % 253 + 1) * 256 + 2 <= t.peers[id].address <= (g % 253 + 1) * 256 + 254 && !Held(db, t.peers[id].address)
            && forall a: nat :: (g % 253 + 1) * 256 + 2 <= a < t.peers[id].address ==> Held(db, a))
  {
    assert PeerIps(db, g) == {};
    StaleRowFound(db.ips, g, {});
    var used := PeerIps(db, g) + set r | r in db.ips :: r.address;
    FirstFreeIsLeast(used, SubnetStart(g) + 2, SubnetStart(g) + 255);
    assert forall a: nat :: a in used <==> Held(db, a);
    hide Held, FirstFree, StaleRow, HasPeer;
    assert FreePeerIp(db, g) == FirstFree(used, SubnetStart(g) + 2, SubnetStart(g) + 255);
  }

  /** Removing a peer takes its row and its address's, and nothing else. */
  lemma PeerRemovalGives(db: Db, id: nat)
    requires Inv(db) && id in db.peers
    ensures DeletePeer(db, id).Ok?
    ensures var p := db.peers[id];
      var t := DeletePeer(db, id).value;
      && t.peers == db.peers - {id} && t.gateways == db.gateways && t.ports == db.ports
      && forall r :: r in t.ips <==> r in db.ips && !(r.gateway == Some(p.gateway) && r.address == p.address)
  {
    DropPeerIpRows(db.ips, db.peers[id].gateway, db.peers[id].address);
  }
}
