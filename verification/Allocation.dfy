/** VM addresses, UDP ports and peer addresses: the allocators and the operations that use them. */
module Allocation {
  import opened Common
  import opened FirstFit

  // ---------------------------------------------------------------- rows

  /** A worker's pools: VM addresses from `ipStart` below `broadcast`, ports up to `portEnd`. */
  datatype Worker = Worker(id: nat, ipStart: nat, broadcast: nat, portStart: nat, portEnd: nat)

  datatype Gateway = Gateway(worker: nat, vmIp: nat, port: nat)
  datatype IpRow = IpRow(worker: nat, address: nat, gateway: Option<nat>)
  datatype PortRow = PortRow(worker: nat, port: nat)
  datatype Peer = Peer(gateway: nat, address: nat)

  /** Rows are in the order of their ids; `base` is the first address of the WireGuard range. */
  datatype Db = Db(gateways: map<nat, Gateway>, ips: seq<IpRow>, ports: seq<PortRow>, peers: map<nat, Peer>)

  // ---------------------------------------------------------------- what each allocator avoids

  function UsedIps(db: Db, w: nat): set<nat> {
    (set g | g in db.gateways && db.gateways[g].worker == w :: db.gateways[g].vmIp) +
    (set r | r in db.ips && r.worker == w :: r.address)
  }

  function UsedPorts(db: Db, w: nat): set<nat> {
    (set g | g in db.gateways && db.gateways[g].worker == w :: db.gateways[g].port) +
    (set r | r in db.ports && r.worker == w :: r.port)
  }

  function FreeVmIp(db: Db, w: Worker): Option<nat> { FirstFree(UsedIps(db, w.id), w.ipStart, w.broadcast) }

  function FreePort(db: Db, w: Worker): Option<nat> { FirstFree(UsedPorts(db, w.id), w.portStart, w.portEnd + 1) }

  // ---------------------------------------------------------------- peers

  /** The third octet of the gateway's /24. */
  function SubnetOctet(gateway: nat): nat { gateway % 253 + 1 }

  /** Addresses of the WireGuard range are counted from its first. */
  function SubnetStart(gateway: nat): nat { SubnetOctet(gateway) * 256 }

  function PeerIps(db: Db, g: nat): set<nat> {
    set p | p in db.peers && db.peers[p].gateway == g :: db.peers[p].address
  }

  /** The first row left over from an earlier gateway with this id. */
  function StaleRow(rows: seq<IpRow>, g: nat, inUse: set<nat>): Option<nat> {
    if rows == [] then None
    else if rows[0].gateway == Some(g) && rows[0].address !in inUse then Some(rows[0].address)
    else StaleRow(rows[1..], g, inUse)
  }

  function FreePeerIp(db: Db, g: nat): Option<nat> {
    var used := PeerIps(db, g) + set r | r in db.ips :: r.address;
    FirstFree(used, SubnetStart(g) + 2, SubnetStart(g) + 255)
  }

  // ---------------------------------------------------------------- operations

  predicate PortTaken(db: Db, w: nat, port: nat) {
    exists g :: g in db.gateways && db.gateways[g].worker == w && db.gateways[g].port == port
  }

  function WithIp(db: Db, r: IpRow): Db { db.(ips := db.ips + [r]) }
  function WithPort(db: Db, r: PortRow): Db { db.(ports := db.ports + [r]) }

  /** Refused: a ValueError, with the rows added so far still in the session. Conflict: the
      unique constraint on (worker, port), after which the session can only roll back. */
  datatype Created = Made(db: Db) | Refused(session: Db) | Conflict

  function CreateGateway(db: Db, id: nat, w: Worker, explicit: Option<nat>): Created {
    match FreeVmIp(db, w)
    case None => Refused(db)
    case Some(ip) =>
      var db1 := WithIp(db, IpRow(w.id, ip, None));
      match explicit
      case Some(port) => AddGateway(db1, id, Gateway(w.id, ip, port))
      case None =>
        match FreePort(db1, w)
        case None => Refused(db1)
        case Some(port) => AddGateway(WithPort(db1, PortRow(w.id, port)), id, Gateway(w.id, ip, port))
  }

  function AddGateway(db: Db, id: nat, g: Gateway): Created {
    if PortTaken(db, g.worker, g.port) then Conflict else Made(db.(gateways := db.gateways[id := g]))
  }

  function DropIp(rows: seq<IpRow>, w: nat, a: nat): seq<IpRow> {
    if rows == [] then []
    else if rows[0].worker == w && rows[0].address == a then rows[1..]
    else [rows[0]] + DropIp(rows[1..], w, a)
  }

  function DropPort(rows: seq<PortRow>, r: PortRow): seq<PortRow> {
    if rows == [] then [] else if rows[0] == r then rows[1..] else [rows[0]] + DropPort(rows[1..], r)
  }

  function DropPeerIp(rows: seq<IpRow>, g: nat, a: nat): seq<IpRow> {
    if rows == [] then []
    else if rows[0].gateway == Some(g) && rows[0].address == a then rows[1..]
    else [rows[0]] + DropPeerIp(rows[1..], g, a)
  }

  /** Its peers go with the gateway; the rows of their addresses stay. */
  function DeleteGateway(db: Db, id: nat): Db {
    if id !in db.gateways then db
    else
      var g := db.gateways[id];
      Db(db.gateways - {id}, DropIp(db.ips, g.worker, g.vmIp), DropPort(db.ports, PortRow(g.worker, g.port)),
         map p | p in db.peers && db.peers[p].gateway != id :: db.peers[p])
  }

  predicate HasPeer(db: Db, g: nat) {
    exists p :: p in db.peers && db.peers[p].gateway == g
  }

  function CreatePeer(db: Db, id: nat, g: nat): Result<Db> {
    if g !in db.gateways || HasPeer(db, g) then ValueError
    else
      match StaleRow(db.ips, g, PeerIps(db, g))
      case Some(a) => Ok(db.(peers := db.peers[id := Peer(g, a)]))
      case None =>
        match FreePeerIp(db, g)
        case Some(a) =>
          Ok(WithIp(db, IpRow(db.gateways[g].worker, a, Some(g))).(peers := db.peers[id := Peer(g, a)]))
        case None => ValueError
  }

  function DeletePeer(db: Db, id: nat): Result<Db> {
    if id !in db.peers then ValueError
    else
      Ok(db.(ips := DropPeerIp(db.ips, db.peers[id].gateway, db.peers[id].address), peers := db.peers - {id}))
  }

  // ---------------------------------------------------------------- the session

  /** One database session; its fields are the rows it sees. */
  class Session {
    var gateways: map<nat, Gateway>
    var ips: seq<IpRow>
    var ports: seq<PortRow>
    var peers: map<nat, Peer>

    function Rows(): Db
      reads this
    {
      Db(gateways, ips, ports, peers)
    }

    method AllocateVmIp(w: Worker) returns (r: Result<nat>)
      modifies this`ips
      ensures match FreeVmIp(old(Rows()), w)
        case Some(ip) => r == Ok(ip) && Rows() == WithIp(old(Rows()), IpRow(w.id, ip, None))
        case None => r == ValueError && Rows() == old(Rows())
    {
      var used := UsedIps(Rows(), w.id);
      var host := w.ipStart;
      while host < w.broadcast
        invariant ips == old(ips) && host >= w.ipStart
        invariant FirstFree(used, host, w.broadcast) == FirstFree(used, w.ipStart, w.broadcast)
      {
        if host !in used {
          ips := ips + [IpRow(w.id, host, None)];
          return Ok(host);
        }
        host := host + 1;
      }
      return ValueError;
    }

    method AllocateUdpPort(w: Worker) returns (r: Result<nat>)
      modifies this`ports
      ensures match FreePort(old(Rows()), w)
        case Some(port) => r == Ok(port) && Rows() == WithPort(old(Rows()), PortRow(w.id, port))
        case None => r == ValueError && Rows() == old(Rows())
    {
      var used := UsedPorts(Rows(), w.id);
      var port := w.portStart;
      while port < w.portEnd + 1
        invariant ports == old(ports)
        invariant FirstFree(used, port, w.portEnd + 1) == FirstFree(used, w.portStart, w.portEnd + 1)
        decreases w.portEnd + 1 - port
      {
        if port !in used {
          ports := ports + [PortRow(w.id, port)];
          return Ok(port);
        }
        port := port + 1;
      }
      return ValueError;
    }

    /** True: done and committed. False: an error, with the session as it stands at that point;
        whether it is committed or rolled back is the caller's. */
    method Create(id: nat, w: Worker, explicit: Option<nat>) returns (ok: bool)
      modifies this`gateways, this`ips, this`ports
      ensures match CreateGateway(old(Rows()), id, w, explicit)
        case Made(db) => ok && Rows() == db
        case Refused(session) => !ok && Rows() == session
        case Conflict => !ok && gateways == old(gateways)
    {
      var ip := AllocateVmIp(w);
      if ip.ValueError? { return false; }
      var port: nat;
      if explicit.Some? {
        port := explicit.value;
      } else {
        var p := AllocateUdpPort(w);
        if p.ValueError? { return false; }
        port := p.value;
      }
      if PortTaken(Rows(), w.id, port) { return false; }
      gateways := gateways[id := Gateway(w.id, ip.value, port)];
      return true;
    }

    method ReleaseVmIp(w: nat, a: nat)
      modifies this`ips
      ensures ips == DropIp(old(ips), w, a)
    {
      var i := 0;
      while i < |ips|
        invariant i <= |ips| && ips == old(ips)
        invariant DropIp(ips, w, a) == ips[..i] + DropIp(ips[i..], w, a)
      {
        if ips[i].worker == w && ips[i].address == a {
          ips := ips[..i] + ips[i + 1..];
          return;
        }
        i := i + 1;
      }
    }

    method ReleasePeerIp(g: nat, a: nat)
      modifies this`ips
      ensures ips == DropPeerIp(old(ips), g, a)
    {
      var i := 0;
      while i < |ips|
        invariant i <= |ips| && ips == old(ips)
        invariant DropPeerIp(ips, g, a) == ips[..i] + DropPeerIp(ips[i..], g, a)
      {
        if ips[i].gateway == Some(g) && ips[i].address == a {
          ips := ips[..i] + ips[i + 1..];
          return;
        }
        i := i + 1;
      }
    }

    /** The rows' part of executing a deletion. */
    method Delete(id: nat)
      modifies this`gateways, this`ips, this`ports, this`peers
      ensures Rows() == DeleteGateway(old(Rows()), id)
    {
      if id !in gateways { return; }
      var g := gateways[id];
      ReleaseVmIp(g.worker, g.vmIp);
      ReleaseUdpPort(g.worker, g.port);
      gateways := gateways - {id};
      peers := map p | p in peers && peers[p].gateway != id :: peers[p];
    }

    method ReleaseUdpPort(w: nat, port: nat)
      modifies this`ports
      ensures ports == DropPort(old(ports), PortRow(w, port))
    {
      var i := 0;
      while i < |ports|
        invariant i <= |ports| && ports == old(ports)
        invariant DropPort(ports, PortRow(w, port)) == ports[..i] + DropPort(ports[i..], PortRow(w, port))
      {
        if ports[i] == PortRow(w, port) {
          ports := ports[..i] + ports[i + 1..];
          return;
        }
        i := i + 1;
      }
    }

    /** A leftover row of this gateway id, or else the first free host from .2 on. */
    method AllocatePeerIp(g: nat) returns (r: Result<nat>)
      requires g in gateways
      modifies this`ips
      ensures match StaleRow(old(ips), g, PeerIps(old(Rows()), g))
        case Some(a) => r == Ok(a) && ips == old(ips)
        case None =>
          match FreePeerIp(old(Rows()), g)
          case Some(a) => r == Ok(a) && ips == old(ips) + [IpRow(gateways[g].worker, a, Some(g))]
          case None => r == ValueError && ips == old(ips)
    {
      var inUse := PeerIps(Rows(), g);
      var used := inUse;
      for i := 0 to |ips|
        invariant ips == old(ips)
        invariant used == inUse + set r | r in ips[..i] :: r.address
        invariant StaleRow(ips, g, inUse) == StaleRow(ips[i..], g, inUse)
      {
        used := used + {ips[i].address};
        assert ips[..i + 1] == ips[..i] + [ips[i]];
        if ips[i].gateway == Some(g) && ips[i].address !in inUse {
          return Ok(ips[i].address);
        }
        assert ips[i..][1..] == ips[i + 1..];
      }
      assert ips[..|ips|] == ips;
      var host := FreeHost(g, used);
      if host.None? { return ValueError; }
      ips := ips + [IpRow(gateways[g].worker, host.value, Some(g))];
      return Ok(host.value);
    }

    /** The hosts of the gateway's /24 in order, without its first, which is the gateway's own. */
    method FreeHost(g: nat, used: set<nat>) returns (r: Option<nat>)
      ensures r == FirstFree(used, SubnetStart(g) + 2, SubnetStart(g) + 255)
    {
      hide SubnetStart;
      var host := SubnetStart(g) + 1;
      var end := SubnetStart(g) + 255;
      while host < end
        invariant SubnetStart(g) + 1 <= host <= end
        invariant FirstFree(used, SubnetStart(g) + 2, end) ==
          FirstFree(used, if host == SubnetStart(g) + 1 then host + 1 else host, end)
      {
        if host != SubnetStart(g) + 1 && host !in used { return Some(host); }
        host := host + 1;
      }
      return None;
    }

    method AddPeer(id: nat, g: nat) returns (ok: bool)
      modifies this`ips, this`peers
      ensures match CreatePeer(old(Rows()), id, g)
        case Ok(db) => ok && Rows() == db
        case ValueError => !ok && Rows() == old(Rows())
    {
      if g !in gateways || HasPeer(Rows(), g) { return false; }
      var a := AllocatePeerIp(g);
      if a.ValueError? { return false; }
      peers := peers[id := Peer(g, a.value)];
      return true;
    }

    method RemovePeer(id: nat) returns (ok: bool)
      modifies this`ips, this`peers
      ensures match DeletePeer(old(Rows()), id)
        case Ok(db) => ok && Rows() == db
        case ValueError => !ok && Rows() == old(Rows())
    {
      if id !in peers { return false; }
      ReleasePeerIp(peers[id].gateway, peers[id].address);
      peers := peers - {id};
      return true;
    }
  }
}
