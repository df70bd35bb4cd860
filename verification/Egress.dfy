/** The refresh policy for a gateway's public address, over runs of metric polls. */
module Egress {
  import opened Common

  const REFRESH := 300

  datatype State = State(tailscale: Option<bool>, wg: Option<bool>, exit: Option<bool>)

  datatype Metric = Metric(state: State, ip: Option<string>, country: Option<string>, updated: Option<nat>, polled: nat)

  datatype Snapshot = Snapshot(ip: Option<string>, country: Option<string>, updated: Option<nat>)

  const NOTHING := Snapshot(None, None, None)

  /** What the agent answers, and what the geo service says about the address. */
  datatype Answer = NoAnswer | Answer(ip: string, geo: Option<Geo>)
  datatype Geo = Geo(ip: string, country: string)

  /** One poll of one READY gateway. `reached` is whether the agent calls before the refresh
      decision all succeed; `state` is what the poll concludes about the interfaces. */
  datatype Poll = Poll(now: nat, polled: nat, state: State, reached: bool, answer: Answer)

  // ---------------------------------------------------------------- the policy

  predicate Ready(s: State) { s.tailscale == Some(true) && s.wg == Some(true) }

  function FromMetric(m: Option<Metric>): Snapshot {
    if m.None? || m.value.ip.None? then NOTHING
    else Snapshot(m.value.ip, m.value.country, if m.value.updated.Some? then m.value.updated else Some(m.value.polled))
  }

  predicate ShouldRefresh(previous: Option<State>, current: State, snapshot: Snapshot, now: nat) {
    Ready(current) &&
    (snapshot.updated.None? ||
     (now - snapshot.updated.value >= REFRESH && (snapshot.ip.None? || previous != Some(current))))
  }

  function Lookup(answer: Answer, snapshot: Snapshot): Snapshot {
    match answer
    case NoAnswer => NOTHING
    case Answer(ip, geo) =>
      if snapshot.ip == Some(ip) && snapshot.country.Some? then Snapshot(Some(ip), snapshot.country, None)
      else
        match geo
        case Some(g) => Snapshot(Some(g.ip), Some(g.country), None)
        case None => Snapshot(Some(ip), None, None)
  }

  function Merge(snapshot: Snapshot, refreshed: Snapshot, now: nat): Snapshot {
    if refreshed.ip.Some? then
      Snapshot(refreshed.ip, if refreshed.country.Some? then refreshed.country else snapshot.country, Some(now))
    else Snapshot(snapshot.ip, snapshot.country, Some(now))
  }

  // ---------------------------------------------------------------- the rows

  /** The most recent row by `polled`. */
  function Latest(rows: seq<Metric>): Option<Metric> {
    if rows == [] then None
    else
      var last := rows[|rows| - 1];
      var best := Latest(rows[..|rows| - 1]);
      if best.None? || last.polled >= best.value.polled then Some(last) else best
  }

  function Rank(m: Metric): int { if m.updated.Some? then m.updated.value else -1 }

  predicate AtLeast(a: Metric, b: Metric) {
    Rank(a) > Rank(b) || (Rank(a) == Rank(b) && a.polled >= b.polled)
  }

  /** The row with an address that is first by `egress_updated_at` (NULL last), then `polled_at`. */
  function Best(rows: seq<Metric>): Option<Metric> {
    if rows == [] then None
    else
      var last := rows[|rows| - 1];
      var best := Best(rows[..|rows| - 1]);
      if last.ip.Some? && (best.None? || AtLeast(last, best.value)) then Some(last) else best
  }

  function SnapshotOf(rows: seq<Metric>): Snapshot {
    var s := FromMetric(Best(rows));
    if s.ip.None? then FromMetric(Latest(rows)) else s
  }

  function Previous(rows: seq<Metric>): Option<State> {
    match Latest(rows) case Some(m) => Some(m.state) case None => None
  }

  /** Whether the poll asks the outside world. */
  predicate LooksUp(rows: seq<Metric>, p: Poll) {
    p.reached && ShouldRefresh(Previous(rows), p.state, SnapshotOf(rows), p.now)
  }

  function Resolved(rows: seq<Metric>, p: Poll): Snapshot {
    if LooksUp(rows, p) then Merge(SnapshotOf(rows), Lookup(p.answer, SnapshotOf(rows)), p.now) else SnapshotOf(rows)
  }

  function NewRow(rows: seq<Metric>, p: Poll): Metric {
    var s := if Ready(p.state) then Resolved(rows, p) else NOTHING;
    Metric(p.state, s.ip, s.country, s.updated, p.polled)
  }

  function After(rows: seq<Metric>, polls: seq<Poll>): seq<Metric>
    decreases |polls|
  {
    if polls == [] then rows else After(rows + [NewRow(rows, polls[0])], polls[1..])
  }

  // ---------------------------------------------------------------- one cycle over the gateways

  /** `broken`: the gateway's worker cannot be found, which ends the cycle with a rollback. */
  datatype Visit = Visit(gateway: nat, ready: bool, broken: bool, poll: Poll)

  type History = map<nat, seq<Metric>>

  function RowsOf(h: History, g: nat): seq<Metric> { if g in h then h[g] else [] }

  function Cycle(h: History, visits: seq<Visit>): (History, nat)
    decreases |visits|
  {
    if visits == [] then (h, 0)
    else if !visits[0].ready then Cycle(h, visits[1..])
    else
      var rows := RowsOf(h, visits[0].gateway);
      var rest := Cycle(h[visits[0].gateway := rows + [NewRow(rows, visits[0].poll)]], visits[1..]);
      (rest.0, rest.1 + 1)
  }

  class Metrics {
    var history: History

    method CollectMetrics(visits: seq<Visit>) returns (r: Result<nat>)
      modifies this
      ensures r.ValueError? <==> exists v :: v in visits && v.ready && v.broken
      ensures r.Ok? ==> (history, r.value) == Cycle(old(history), visits)
      ensures r.ValueError? ==> history == old(history)
    {
      var committed := history;
      var count := 0;
      for i := 0 to |visits|
        invariant forall v :: v in visits[..i] ==> !(v.ready && v.broken)
        invariant var rest := Cycle(history, visits[i..]);
          (rest.0, count + rest.1) == Cycle(old(history), visits)
      {
        var v := visits[i];
        assert visits[i..][0] == v && visits[i..][1..] == visits[i + 1..];
        assert visits[..i + 1] == visits[..i] + [v];
        if !v.ready { continue; }
        if v.broken {
          history := committed;
          return ValueError;
        }
        var rows := RowsOf(history, v.gateway);
        var snapshot := SnapshotOf(rows);
        if v.poll.reached && ShouldRefresh(Previous(rows), v.poll.state, snapshot, v.poll.now) {
          snapshot := Merge(snapshot, Lookup(v.poll.answer, snapshot), v.poll.now);
        }
        if !Ready(v.poll.state) { snapshot := NOTHING; }
        var row := Metric(v.poll.state, snapshot.ip, snapshot.country, snapshot.updated, v.poll.polled);
        assert row == NewRow(rows, v.poll);
        history := history[v.gateway := rows + [row]];
        count := count + 1;
      }
      assert visits[..|visits|] == visits;
      return Ok(count);
    }
  }

  // ---------------------------------------------------------------- the chosen rows

  lemma {:induction false} BestIsMax(rows: seq<Metric>)
    ensures Best(rows).None? <==> forall m :: m in rows ==> m.ip.None?
    ensures Best(rows).Some? ==> Best(rows).value in rows && Best(rows).value.ip.Some?
    ensures Best(rows).Some? ==> forall m :: m in rows && m.ip.Some? ==> AtLeast(Best(rows).value, m)
  {
    if rows != [] {
      var n := |rows| - 1;
      BestIsMax(rows[..n]);
      assert rows == rows[..n] + [rows[n]];
      assert forall m :: m in rows <==> m in rows[..n] || m == rows[n];
    }
  }

  /** Nothing in the rows lies after `t`. */
  ghost predicate Before(rows: seq<Metric>, t: nat) {
    forall m :: m in rows ==> m.polled <= t && (m.updated.Some? ==> m.updated.value <= t)
  }

  lemma Appended(rows: seq<Metric>, m: Metric)
    ensures Best(rows + [m]) ==
      if m.ip.Some? && (Best(rows).None? || AtLeast(m, Best(rows).value)) then Some(m) else Best(rows)
    ensures Latest(rows + [m]) ==
      if Latest(rows).None? || m.polled >= Latest(rows).value.polled then Some(m) else Latest(rows)
  {
    assert (rows + [m])[..|rows|] == rows;
  }

  predicate Recorded(rows: seq<Metric>) { Best(rows).Some? }

  /** The time a row's address was last asked for; rows from before that was stored have their
      poll's. */
  function AskedAt(m: Metric): nat { if m.updated.Some? then m.updated.value else m.polled }

  lemma {:induction false} LatestIsMax(rows: seq<Metric>)
    ensures rows == [] <==> Latest(rows).None?
    ensures Latest(rows).Some? ==> Latest(rows).value in rows && forall m :: m in rows ==> m.polled <= Latest(rows).value.polled
  {
    if rows != [] {
      var n := |rows| - 1;
      LatestIsMax(rows[..n]);
      assert rows == rows[..n] + [rows[n]];
    }
  }

  /** With an address on record a poll looks up exactly when the agent is reached, both links are
      up, 300 seconds have passed, and the interfaces are not as the latest row says. */
  lemma RecordedLooksUpExactly(rows: seq<Metric>, p: Poll)
    requires Recorded(rows)
    ensures Latest(rows).Some?
    ensures LooksUp(rows, p) <==>
      p.reached && p.state.tailscale == Some(true) && p.state.wg == Some(true) &&
      p.now - AskedAt(Best(rows).value) >= 300 && Latest(rows).value.state != p.state
  {
    BestIsMax(rows);
    LatestIsMax(rows);
    hide Best, Latest;
  }

  // ---------------------------------------------------------------- what a poll records

  /** An answered lookup is recorded under its own time: the address it stands for, and its country
      if that is known, else the country on record. */
  lemma AnswerIsRecorded(rows: seq<Metric>, p: Poll)
    requires LooksUp(rows, p) && p.answer.Answer?
    ensures var row := NewRow(rows, p);
      && row.state == p.state && row.polled == p.polled && row.updated == Some(p.now)
      && (OnRecord(rows, p.answer.ip) ==> row.ip == Some(p.answer.ip) && row.country == Best(rows).value.country)
      && (!OnRecord(rows, p.answer.ip) && p.answer.geo.Some? ==>
            row.ip == Some(p.answer.geo.value.ip) && row.country == Some(p.answer.geo.value.country))
      && (!OnRecord(rows, p.answer.ip) && p.answer.geo.None? ==>
            row.ip == Some(p.answer.ip) && row.country == if Recorded(rows) then Best(rows).value.country else None)
  {
    SnapshotMeans(rows);
    BestIsMax(rows);
    hide SnapshotOf, Best, Latest;
  }

  /** A lookup without an answer keeps address and country, and takes note of the time. */
  lemma FailureIsRecorded(rows: seq<Metric>, p: Poll)
    requires LooksUp(rows, p) && p.answer.NoAnswer?
    ensures var row := NewRow(rows, p);
      && row.state == p.state && row.polled == p.polled && row.updated == Some(p.now)
      && row.ip == (if Recorded(rows) then Best(rows).value.ip else None)
      && row.country == (if Recorded(rows) then Best(rows).value.country else None)
  {
    SnapshotMeans(rows);
    BestIsMax(rows);
    hide SnapshotOf, Best, Latest;
  }

  /** A poll that does not look up repeats the record, time included, while both links are up, and
      records no address while one is not. */
  lemma NoLookupIsRecorded(rows: seq<Metric>, p: Poll)
    requires !LooksUp(rows, p)
    ensures var row := NewRow(rows, p);
      && row.state == p.state && row.polled == p.polled
      && (p.state.tailscale == Some(true) && p.state.wg == Some(true) && Recorded(rows) ==>
            row.ip == Best(rows).value.ip && row.country == Best(rows).value.country && row.updated == Some(AskedAt(Best(rows).value)))
      && (p.state.tailscale != Some(true) || p.state.wg != Some(true) || !Recorded(rows) ==>
            row.ip == None && row.country == None && row.updated == None)
  {
    SnapshotMeans(rows);
    BestIsMax(rows);
    hide SnapshotOf, Best, Latest;
  }

  ghost predicate DistinctGateways(visits: seq<Visit>) {
    forall i, j :: 0 <= i < j < |visits| ==> visits[i].gateway != visits[j].gateway
  }

  function ReadyOnes(visits: seq<Visit>): set<nat> {
    set v | v in visits && v.ready :: v.gateway
  }

  lemma ReadyFirst(visits: seq<Visit>)
    requires visits != [] && DistinctGateways(visits)
    ensures DistinctGateways(visits[1..])
    ensures ReadyOnes(visits) == ReadyOnes(visits[1..]) + (if visits[0].ready then {visits[0].gateway} else {})
    ensures visits[0].gateway !in ReadyOnes(visits[1..])
    ensures forall x :: x in visits <==> x == visits[0] || x in visits[1..]
    ensures forall x :: x in visits[1..] ==> x.gateway != visits[0].gateway
  {
    var rest := visits[1..];
    assert forall i :: 0 <= i < |rest| ==> rest[i] == visits[i + 1];
    assert forall x :: x in visits <==> x == visits[0] || x in rest;
  }

  /** The visited gateway has one more row, which its rows before and its poll determine. */
  predicate Grew(h: History, h': History, v: Visit) {
    RowsOf(h', v.gateway) == RowsOf(h, v.gateway) + [NewRow(RowsOf(h, v.gateway), v.poll)]
  }

  predicate Unvisited(h: History, h': History, g: nat) {
    RowsOf(h', g) == RowsOf(h, g)
  }

  lemma GrewLater(h: History, h1: History, h2: History, v: Visit)
    requires Unvisited(h, h1, v.gateway) && Grew(h1, h2, v)
    ensures Grew(h, h2, v)
  {
  }

  lemma GrewFirst(h: History, h1: History, h2: History, v: Visit)
    requires Grew(h, h1, v) && Unvisited(h1, h2, v.gateway)
    ensures Grew(h, h2, v)
  {
  }

  /** A cycle adds one row to every READY gateway, touches no other, and returns how many those are. */
  lemma {:induction false} CycleGives(h: History, visits: seq<Visit>)
    requires DistinctGateways(visits)
    ensures Cycle(h, visits).1 == |ReadyOnes(visits)|
    ensures forall v :: v in visits && v.ready ==> Grew(h, Cycle(h, visits).0, v)
    ensures forall g: nat :: g !in ReadyOnes(visits) ==> Unvisited(h, Cycle(h, visits).0, g)
    decreases |visits|
  {
    if visits != [] {
      var v := visits[0];
      var rest := visits[1..];
      var rows := RowsOf(h, v.gateway);
      var h1 := if v.ready then h[v.gateway := rows + [NewRow(rows, v.poll)]] else h;
      ReadyFirst(visits);
      assert forall g: nat :: g != v.gateway ==> Unvisited(h, h1, g);
      assert v.ready ==> Grew(h, h1, v);
      assert !v.ready ==> h1 == h;
      var h2 := Cycle(h1, rest).0;
      assert h2 == Cycle(h, visits).0;
      CycleGives(h1, rest);
      assert Cycle(h, visits).1 == Cycle(h1, rest).1 + if v.ready then 1 else 0;
      assert forall g: nat :: Unvisited(h, h1, g) && Unvisited(h1, h2, g) ==> Unvisited(h, h2, g);
      hide NewRow, DistinctGateways, RowsOf, Grew, Unvisited, Cycle, ReadyOnes;
      forall x | x in visits && x.ready ensures Grew(h, h2, x) {
        if x == v { GrewFirst(h, h1, h2, x); } else { GrewLater(h, h1, h2, x); }
      }
    }
  }

  lemma SnapshotMeans(rows: seq<Metric>)
    ensures Recorded(rows) ==> SnapshotOf(rows) == FromMetric(Best(rows)) && SnapshotOf(rows).ip.Some? && SnapshotOf(rows).updated.Some?
    ensures !Recorded(rows) ==> SnapshotOf(rows) == NOTHING
  {
    BestIsMax(rows);
    LatestIsMax(rows);
  }

  // ---------------------------------------------------------------- lookups are apart

  predicate Timely(polls: seq<Poll>, t: nat) {
    polls == [] || (t <= polls[0].now <= polls[0].polled && Timely(polls[1..], polls[0].polled))
  }

  /** Whatever is recorded was refreshed at `t` or later. */
  predicate SinceOk(rows: seq<Metric>, t: nat) {
    Recorded(rows) ==> Rank(Best(rows).value) >= t
  }

  lemma SinceKept(rows: seq<Metric>, p: Poll, t: nat)
    requires SinceOk(rows, t) && t <= p.now
    ensures SinceOk(rows + [NewRow(rows, p)], t)
  {
    Appended(rows, NewRow(rows, p));
    SnapshotMeans(rows);
    hide SnapshotOf, Best, Latest, Lookup, ShouldRefresh;
  }

  lemma SinceStarts(rows: seq<Metric>, p: Poll)
    requires LooksUp(rows, p)
    ensures SinceOk(rows + [NewRow(rows, p)], p.now)
  {
    Appended(rows, NewRow(rows, p));
    SnapshotMeans(rows);
    hide SnapshotOf, Best, Latest, Lookup;
  }

  lemma SinceAllows(rows: seq<Metric>, p: Poll, t: nat)
    requires SinceOk(rows, t) && Recorded(rows) && LooksUp(rows, p)
    ensures p.now - t >= REFRESH
  {
    SnapshotMeans(rows);
    hide SnapshotOf, Best, Latest, Lookup;
  }

  lemma {:induction false} SinceHolds(rows: seq<Metric>, polls: seq<Poll>, t: nat)
    requires SinceOk(rows, t) && Timely(polls, t)
    ensures SinceOk(After(rows, polls), t)
    decreases |polls|
  {
    if polls != [] {
      SinceKept(rows, polls[0], t);
      hide SinceOk, NewRow;
      TimelyFrom(polls[1..], polls[0].polled, t);
      SinceHolds(rows + [NewRow(rows, polls[0])], polls[1..], t);
    }
  }

  lemma TimelyFrom(polls: seq<Poll>, t: nat, u: nat)
    requires Timely(polls, t) && u <= t
    ensures Timely(polls, u)
  {
  }

  /** However links flap and lookups fail: a lookup made while an address is on record comes at
      least 300 seconds after every earlier lookup. */
  lemma LookupsAreApart(rows: seq<Metric>, first: Poll, between: seq<Poll>, second: Poll)
    requires LooksUp(rows, first) && Timely([first] + between + [second], 0)
    requires var rows2 := After(rows + [NewRow(rows, first)], between);
      Recorded(rows2) && LooksUp(rows2, second)
    ensures second.now - first.now >= REFRESH
  {
    SnapshotMeans(rows);
    var all := [first] + between + [second];
    assert all[1..] == between + [second];
    TimelyPrefix(between, second, first.polled);
    SinceStarts(rows, first);
    hide Recorded, SnapshotOf, NewRow, LooksUp, SinceOk;
    TimelyFrom(between, first.polled, first.now);
    SinceHolds(rows + [NewRow(rows, first)], between, first.now);
    SinceAllows(After(rows + [NewRow(rows, first)], between), second, first.now);
  }

  lemma {:induction false} TimelyPrefix(polls: seq<Poll>, last: Poll, t: nat)
    requires Timely(polls + [last], t)
    ensures Timely(polls, t)
    decreases |polls|
  {
    if polls != [] {
      assert (polls + [last])[1..] == polls[1..] + [last];
      TimelyPrefix(polls[1..], last, polls[0].polled);
    }
  }

  /** With nothing on record the limit does not hold: every poll that finds the links up and
      the agent there looks up, however soon, and a lookup that fails leaves nothing on record. */
  lemma UnrecordedLooksUpExactly(rows: seq<Metric>, p: Poll)
    requires !Recorded(rows)
    ensures LooksUp(rows, p) <==> p.reached && Ready(p.state)
    ensures Recorded(rows + [NewRow(rows, p)]) <==> p.reached && Ready(p.state) && p.answer.Answer?
  {
    Appended(rows, NewRow(rows, p));
    SnapshotMeans(rows);
    hide SnapshotOf, Best, Latest;
  }

  const UP := State(Some(true), Some(true), Some(true))

  lemma TwoLookupsASecondApart()
    ensures var a := Poll(1000, 1000, UP, true, NoAnswer);
      var b := Poll(1001, 1001, UP, true, NoAnswer);
      LooksUp([], a) && LooksUp(After([], [a]), b)
  {
    var a := Poll(1000, 1000, UP, true, NoAnswer);
    UnrecordedLooksUpExactly([], a);
    assert After([], [a]) == [NewRow([], a)] by { assert [a][1..] == []; assert [] + [NewRow([], a)] == [NewRow([], a)]; }
    assert [] + [NewRow([], a)] == [NewRow([], a)];
    UnrecordedLooksUpExactly([NewRow([], a)], Poll(1001, 1001, UP, true, NoAnswer));
  }

  // ---------------------------------------------------------------- the address is kept

  /** The address that the answer to a lookup stands for: the agent's own when it is the one on
      record, with its country known, or when the geo service is silent; else the geo service's. */
  function Reported(rows: seq<Metric>, p: Poll): Option<string> {
    if !LooksUp(rows, p) || p.answer.NoAnswer? then None
    else if p.answer.geo.None? || OnRecord(rows, p.answer.ip) then Some(p.answer.ip)
    else Some(p.answer.geo.value.ip)
  }

  predicate OnRecord(rows: seq<Metric>, ip: string) {
    Recorded(rows) && Best(rows).value.ip == Some(ip) && Best(rows).value.country.Some?
  }

  /** The last address found during the polls, or `ip` if none was. */
  function LastFound(rows: seq<Metric>, polls: seq<Poll>, ip: Option<string>): Option<string>
    decreases |polls|
  {
    if polls == [] then ip
    else
      var found := Reported(rows, polls[0]);
      LastFound(rows + [NewRow(rows, polls[0])], polls[1..], if found.Some? then found else ip)
  }

  lemma KeptByOne(rows: seq<Metric>, p: Poll)
    requires Recorded(rows) && Before(rows, p.now) && p.now <= p.polled
    ensures var found := Reported(rows, p);
      var rows' := rows + [NewRow(rows, p)];
      Recorded(rows') && Before(rows', p.polled) && Best(rows').value.ip == (if found.Some? then found else Best(rows).value.ip)
  {
    var row := NewRow(rows, p);
    Appended(rows, row);
    SnapshotMeans(rows);
    BestIsMax(rows);
    if LooksUp(rows, p) && p.answer.Answer? {
      AnswerIsRecorded(rows, p);
    } else if LooksUp(rows, p) {
      FailureIsRecorded(rows, p);
    } else {
      NoLookupIsRecorded(rows, p);
    }
    hide SnapshotOf, Best, Latest, NewRow, LooksUp;
    forall m | m in rows + [row] ensures m.polled <= p.polled && (m.updated.Some? ==> m.updated.value <= p.polled) {
      assert m in rows || m == row;
    }
  }

  /** Once on record the address is never lost: it is always the last one found. */
  lemma {:induction false} AddressIsKept(rows: seq<Metric>, polls: seq<Poll>, t: nat)
    requires Recorded(rows) && Before(rows, t) && Timely(polls, t)
    ensures Recorded(After(rows, polls))
    ensures Best(After(rows, polls)).value.ip == LastFound(rows, polls, Best(rows).value.ip)
    decreases |polls|
  {
    if polls != [] {
      KeptByOne(rows, polls[0]);
      hide Recorded, SnapshotOf, NewRow, Reported;
      AddressIsKept(rows + [NewRow(rows, polls[0])], polls[1..], polls[0].polled);
    }
  }

  // ---------------------------------------------------------------- no lookup without a change

  /** While the interfaces stay as the latest row says, nothing is looked up again. */
  lemma {:induction false} SteadyMeansSilent(rows: seq<Metric>, polls: seq<Poll>, t: nat, k: nat)
    requires Recorded(rows) && Before(rows, t) && Timely(polls, t) && k < |polls|
    requires forall i :: 0 <= i < |polls| ==> Previous(rows) == Some(polls[i].state)
    ensures !LooksUp(After(rows, polls[..k]), polls[k])
    decreases |polls|
  {
    SnapshotMeans(rows);
    if k > 0 {
      var rows' := rows + [NewRow(rows, polls[0])];
      KeptByOne(rows, polls[0]);
      Appended(rows, NewRow(rows, polls[0]));
      LatestIsMax(rows);
      assert Previous(rows') == Some(polls[0].state) by { hide Best, SnapshotOf, Recorded; }
      hide Recorded, SnapshotOf, NewRow, LooksUp, Previous;
      SteadyMeansSilent(rows', polls[1..], polls[0].polled, k - 1);
      assert polls[..k][1..] == polls[1..][..k - 1];
    }
  }
}
