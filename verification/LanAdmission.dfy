/** Creating gateways in a peer group: the capacity check and the allocator it protects. */
module LanAdmission {
  import opened Common
  import opened FirstFit

  /** A group's LAN: `size` addresses from `net`, allocation from `start`. */
  datatype Lan = Lan(net: nat, size: nat, start: nat)

  predicate ValidStart(lan: Lan) { lan.net <= lan.start < lan.net + lan.size }

  /** `hosts()` leaves out the network and broadcast addresses, except in a /31 or /32. */
  function FirstHost(lan: Lan): nat { if lan.size <= 2 then lan.net else lan.net + 1 }
  function EndOfHosts(lan: Lan): nat
    requires lan.size > 0
  {
    if lan.size <= 2 then lan.net + lan.size else lan.net + lan.size - 1
  }

  function HostsFrom(lan: Lan): nat
    requires ValidStart(lan)
  {
    var lo := if lan.start < FirstHost(lan) then FirstHost(lan) else lan.start;
    if lo < EndOfHosts(lan) then EndOfHosts(lan) - lo else 0
  }

  /** The hosts of the network from the start address on. */
  function HostsAbove(lan: Lan): (hosts: set<nat>)
    ensures forall a :: a in hosts <==>
      lan.start <= a && lan.net <= a < lan.net + lan.size && (lan.size <= 2 || (a != lan.net && a != lan.net + lan.size - 1))
  {
    set a | lan.net <= a < lan.net + lan.size && IsHostAbove(lan, a)
  }

  predicate IsHostAbove(lan: Lan, a: nat) {
    lan.start <= a && (lan.size <= 2 || (a != lan.net && a != lan.net + lan.size - 1))
  }

  lemma {:induction false} IntervalSize(lo: nat, hi: nat, s: set<nat>)
    requires lo <= hi && forall x :: x in s <==> lo <= x < hi
    ensures |s| == hi - lo
    decreases hi - lo
  {
    if lo < hi {
      IntervalSize(lo + 1, hi, s - {lo});
    } else {
      assert s == {};
    }
  }

  /** The number that the sum over `hosts()` gives. */
  lemma HostsCounted(lan: Lan)
    requires ValidStart(lan)
    ensures HostsFrom(lan) == |HostsAbove(lan)|
  {
    var lo := if lan.start < FirstHost(lan) then FirstHost(lan) else lan.start;
    if lo < EndOfHosts(lan) {
      IntervalSize(lo, EndOfHosts(lan), HostsAbove(lan));
    } else {
      IntervalSize(lo, lo, HostsAbove(lan));
    }
  }

  /** The gateways of the group, by LAN address; some have none. */
  type Rows = seq<Option<nat>>

  function Used(rows: Rows): set<nat> {
    set r | r in rows && r.Some? :: r.value
  }

  function Capacity(rows: Rows, lan: Lan): nat
    requires ValidStart(lan)
  {
    if HostsFrom(lan) > |rows| then HostsFrom(lan) - |rows| else 0
  }

  function NextLanIp(rows: Rows, lan: Lan): Option<nat> {
    FirstFree(Used(rows), lan.start, lan.net + lan.size)
  }

  /** The addresses of `n` creations in a row, as long as the allocator finds one. */
  function Batch(rows: Rows, lan: Lan, n: nat): seq<nat>
    decreases n
  {
    if n == 0 || NextLanIp(rows, lan).None? then []
    else
      var ip := NextLanIp(rows, lan).value;
      [ip] + Batch(rows + [Some(ip)], lan, n - 1)
  }

  function WithIps(rows: Rows, ips: seq<nat>): Rows {
    rows + seq(|ips|, i requires 0 <= i < |ips| => Some(ips[i]))
  }

  // ---------------------------------------------------------------- the check is enough

  lemma {:induction false} CoverNeedsRoom(lo: nat, hi: nat, s: set<nat>)
    requires lo <= hi && forall x :: lo <= x < hi ==> x in s
    ensures |s| >= hi - lo
    decreases hi - lo
  {
    if lo < hi { CoverNeedsRoom(lo + 1, hi, s - {lo}); }
  }

  lemma {:induction false} UsedSize(rows: Rows)
    ensures |Used(rows)| <= |rows|
  {
    if rows != [] {
      var last := rows[|rows| - 1];
      var rest := rows[..|rows| - 1];
      UsedSize(rest);
      assert rows == rest + [last];
      assert Used(rows) == Used(rest) + if last.Some? then {last.value} else {};
    }
  }

  /** While the capacity is not used up, the allocator finds a host that is not the broadcast
      address, whatever the rows hold. */
  lemma NextIsHost(rows: Rows, lan: Lan)
    requires ValidStart(lan) && Capacity(rows, lan) > 0
    ensures NextLanIp(rows, lan).Some?
    ensures lan.start <= NextLanIp(rows, lan).value < EndOfHosts(lan)
    ensures NextLanIp(rows, lan).value !in Used(rows)
  {
    var used := Used(rows);
    var lo := if lan.start < FirstHost(lan) then FirstHost(lan) else lan.start;
    FirstFreeIsLeast(used, lan.start, lan.net + lan.size);
    UsedSize(rows);
    if forall x :: lo <= x < EndOfHosts(lan) ==> x in used { CoverNeedsRoom(lo, EndOfHosts(lan), used); }
  }

  /** An admitted batch is allocated in full: distinct, unused, increasing addresses from the
      start address on, none of them the broadcast address of a prefix of 30 or less. */
  lemma {:induction false} AdmittedBatchSucceeds(rows: Rows, lan: Lan, n: nat)
    requires ValidStart(lan) && n <= Capacity(rows, lan)
    ensures var ips := Batch(rows, lan, n);
      |ips| == n &&
      (forall i, j :: 0 <= i < j < n ==> ips[i] < ips[j]) &&
      (forall i :: 0 <= i < n ==> lan.start <= ips[i] < lan.net + lan.size && Some(ips[i]) !in rows) &&
      (lan.size >= 4 ==> forall i :: 0 <= i < n ==> ips[i] != lan.net + lan.size - 1)
    decreases n
  {
    if n > 0 {
      NextIsHost(rows, lan);
      var ip := NextLanIp(rows, lan).value;
      var rows1 := rows + [Some(ip)];
      CapacityShrinks(rows, lan, ip);
      NextIsLeast(rows, lan);
      hide NextLanIp, Used, Capacity, ValidStart, FirstHost, EndOfHosts, HostsFrom;
      AdmittedBatchSucceeds(rows1, lan, n - 1);
      var rest := Batch(rows1, lan, n - 1);
      assert Batch(rows, lan, n) == [ip] + rest;
      forall i | 0 <= i < |rest| ensures rest[i] > ip && Some(rest[i]) !in rows {
        assert Some(rest[i]) !in rows1;
        assert forall r :: r in rows ==> r in rows1;
        assert Some(ip) in rows1;
      }
    }
  }

  lemma CapacityShrinks(rows: Rows, lan: Lan, ip: nat)
    requires ValidStart(lan)
    ensures Capacity(rows, lan) <= Capacity(rows + [Some(ip)], lan) + 1
  {
  }

  lemma NextIsLeast(rows: Rows, lan: Lan)
    requires NextLanIp(rows, lan).Some?
    ensures var ip := NextLanIp(rows, lan).value;
      lan.start <= ip < lan.net + lan.size && Some(ip) !in rows &&
      forall x :: lan.start <= x < ip ==> Some(x) in rows
  {
    FirstFreeIsLeast(Used(rows), lan.start, lan.net + lan.size);
    var ip := NextLanIp(rows, lan).value;
    assert Some(ip) in rows ==> ip in Used(rows);
  }

  /** And each is the least that was free in its turn. */
  lemma {:induction false} BatchIsLeast(rows: Rows, lan: Lan, n: nat, i: nat, x: nat)
    requires i < |Batch(rows, lan, n)| && lan.start <= x < Batch(rows, lan, n)[i]
    ensures Some(x) in rows || x in Batch(rows, lan, n)[..i]
    decreases n
  {
    var ip := NextLanIp(rows, lan).value;
    var rest := Batch(rows + [Some(ip)], lan, n - 1);
    assert Batch(rows, lan, n) == [ip] + rest;
    if i == 0 {
      NextIsLeast(rows, lan);
    } else {
      BatchIsLeast(rows + [Some(ip)], lan, n - 1, i - 1, x);
      assert Batch(rows, lan, n)[..i] == [ip] + rest[..i - 1];
    }
  }

  lemma WithIpsAppend(rows: Rows, ips: seq<nat>, ip: nat)
    ensures WithIps(rows, ips + [ip]) == WithIps(rows, ips) + [Some(ip)]
    ensures WithIps(rows, []) == rows && |WithIps(rows, ips)| == |rows| + |ips|
  {
  }

  /** Addresses of one group of prefix 24 or longer differ in their last octet. */
  function Slot(ip: nat): nat { ip % 256 }

  lemma DistinctSlots(lan: Lan, a: nat, b: nat)
    requires lan.size <= 256 && lan.net <= a < lan.net + lan.size && lan.net <= b < lan.net + lan.size && a != b
    ensures Slot(a) != Slot(b)
  {
    assert a - b == 256 * (a / 256 - b / 256) + Slot(a) - Slot(b);
  }

  /** Slot 0, which the exit host cannot use as a table of its own, is handed out in a prefix of
      24 or longer exactly when the start address is a free one that ends in .0. */
  lemma SlotZeroExactly(rows: Rows, lan: Lan, n: nat)
    requires ValidStart(lan) && 1 <= n <= Capacity(rows, lan)
    requires 256 % lan.size == 0 && lan.net % lan.size == 0
    ensures (exists i :: 0 <= i < n && i < |Batch(rows, lan, n)| && Slot(Batch(rows, lan, n)[i]) == 0) <==>
      Slot(lan.start) == 0 && Some(lan.start) !in rows
  {
    AdmittedBatchSucceeds(rows, lan, n);
    NextIsHost(rows, lan);
    NextIsLeast(rows, lan);
    var ips := Batch(rows, lan, n);
    assert ips[0] == NextLanIp(rows, lan).value;
    hide Batch, NextLanIp, Capacity, Used;
    if Slot(lan.start) == 0 && Some(lan.start) !in rows {
      assert Slot(ips[0]) == 0;
    }
    forall i | 0 <= i < n && Slot(ips[i]) == 0 ensures ips[i] == lan.start {
      OnlyFirstEndsInZero(lan, ips[i]);
    }
  }

  /** An aligned network of at most 256 addresses has at most one that ends in .0, its first. */
  lemma OnlyFirstEndsInZero(lan: Lan, ip: nat)
    requires lan.size > 0 && 256 % lan.size == 0 && lan.net % lan.size == 0
    requires lan.net <= ip < lan.net + lan.size && Slot(ip) == 0
    ensures ip == lan.net
  {
    var k := 256 / lan.size;
    var m := lan.net / lan.size;
    assert 256 == k * lan.size && lan.net == m * lan.size;
    var b := ip / 256;
    assert ip == 256 * b;
    assert ip == (k * b) * lan.size;
    MultiplesApart(k * b, m, lan.size);
  }

  lemma MultiplesApart(a: nat, b: nat, size: nat)
    requires size > 0 && b * size <= a * size < b * size + size
    ensures a == b
  {
    assert a > b ==> a * size >= (b + 1) * size;
    assert a < b ==> b * size >= (a + 1) * size;
  }

  // ---------------------------------------------------------------- the service

  class PeerGroup {
    var lan: Lan
    var rows: Rows

    method AllocateLanIp() returns (r: Result<nat>)
      ensures r == if !ValidStart(lan) then ValueError else match NextLanIp(rows, lan) case Some(ip) => Ok(ip) case None => ValueError
    {
      if !ValidStart(lan) { return ValueError; }
      var used := Used(rows);
      var current := lan.start;
      while current < lan.net + lan.size
        invariant FirstFree(used, current, lan.net + lan.size) == FirstFree(used, lan.start, lan.net + lan.size)
      {
        if current !in used { return Ok(current); }
        current := current + 1;
      }
      return ValueError;
    }

    /** `sum(1 for host in network.hosts() if host >= start)`, less the gateways there are. */
    method RemainingLanCapacity() returns (r: nat)
      requires ValidStart(lan)
      ensures r == if |HostsAbove(lan)| > |rows| then |HostsAbove(lan)| - |rows| else 0
      ensures r == Capacity(rows, lan)
    {
      HostsCounted(lan);
      var total := 0;
      var host := FirstHost(lan);
      while host < EndOfHosts(lan)
        invariant FirstHost(lan) <= host <= EndOfHosts(lan)
        invariant total == if host <= lan.start then 0 else if lan.start < FirstHost(lan) then host - FirstHost(lan) else host - lan.start
      {
        if host >= lan.start { total := total + 1; }
        host := host + 1;
      }
      return if total > |rows| then total - |rows| else 0;
    }

    /** The allocation loop, entered with the check passed. `made` is how many of the gateway
        creations themselves succeed (they also need a VM address, a port, a name and a key);
        each is committed before the next begins. */
    method CreateEach(count: nat, made: nat) returns (ips: seq<nat>)
      requires ValidStart(lan) && count <= Capacity(rows, lan)
      modifies this`rows
      ensures ips == Batch(old(rows), lan, if made < count then made else count)
      ensures rows == WithIps(old(rows), ips)
    {
      ghost var want := if made < count then made else count;
      hide NextLanIp, Capacity, ValidStart, WithIps;
      ips := [];
      WithIpsAppend(rows, [], 0);
      for i := 0 to count
        invariant i <= want && |ips| == i && rows == WithIps(old(rows), ips)
        invariant count - i <= Capacity(rows, lan)
        invariant Batch(old(rows), lan, want) == ips + Batch(rows, lan, want - i)
      {
        NextIsHost(rows, lan);
        var ip := AllocateLanIp();
        if i == made { return; }
        WithIpsAppend(old(rows), ips, ip.value);
        CapacityShrinks(rows, lan, ip.value);
        rows := rows + [Some(ip.value)];
        ips := ips + [ip.value];
      }
    }

    /** Admitted exactly when the count is from 1 to 64 and no more than the hosts from the start on,
        less the gateways there are; and then created in full, unless a creation itself fails. */
    method CreateGateways(count: int, made: nat) returns (r: Result<seq<nat>>)
      modifies this`rows
      ensures var admitted := 1 <= count <= 64 && ValidStart(lan) && count <= |HostsAbove(lan)| - old(|rows|);
        if !admitted then r == ValueError && rows == old(rows)
        else if made < count then r == ValueError && |rows| == old(|rows|) + made && rows == WithIps(old(rows), Batch(old(rows), lan, made))
        else r.Ok? && |r.value| == count && r.value == Batch(old(rows), lan, count) && rows == WithIps(old(rows), r.value)
    {
      if count < 1 || count > 64 || !ValidStart(lan) { return ValueError; }
      var available := RemainingLanCapacity();
      if count > available { return ValueError; }
      AdmittedBatchSucceeds(rows, lan, count);
      if made < count { AdmittedBatchSucceeds(rows, lan, made); }
      WithIpsAppend(rows, Batch(rows, lan, if made < count then made else count), 0);
      hide Capacity, Batch, WithIps, ValidStart;
      var results := CreateEach(count, made);
      if made < count { return ValueError; }
      return Ok(results);
    }
  }
}
