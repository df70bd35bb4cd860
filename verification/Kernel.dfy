/** A small model of Linux policy routing: ordered rules, tables with longest-prefix match
    (section 5.2.4.3 of RFC 1812), and the `ip rule` commands. An address is its 32 bits
    and a prefix is an initial piece of one, so "matches" is the prefix order on sequences. */
module Kernel {
  import opened Common

  type Bits = seq<bool>

  datatype Selector = Any | To(prefix: Bits) | From(prefix: Bits) | Iif(dev: string)
  datatype Rule = Rule(pref: nat, sel: Selector, table: nat)
  datatype Route = Route(via: Option<Bits>, dev: string)
  datatype Packet = Packet(src: Bits, dst: Bits, iif: Option<string>)

  type Table = map<Bits, Route>
  type Tables = map<nat, Table>

  const MAIN := 254
  const LOCAL := 255

  function TableOf(tables: Tables, id: nat): Table {
    if id in tables then tables[id] else map[]
  }

  predicate Matches(sel: Selector, p: Packet) {
    match sel
    case Any => true
    case To(prefix) => prefix <= p.dst
    case From(prefix) => prefix <= p.src
    case Iif(dev) => p.iif == Some(dev)
  }

  // ---------------------------------------------------------------- longest-prefix match

  function Lpm(t: Table, dst: Bits): Option<Route> {
    LpmUpTo(t, dst, |dst|)
  }

  function LpmUpTo(t: Table, dst: Bits, n: nat): Option<Route>
    requires n <= |dst|
  {
    if dst[..n] in t then Some(t[dst[..n]])
    else if n == 0 then None
    else LpmUpTo(t, dst, n - 1)
  }

  /** The route found is that of the longest matching prefix, and one is found exactly when
      some prefix matches. */
  ghost predicate IsBest(t: Table, dst: Bits, p: Bits) {
    p in t && p <= dst && forall q :: q in t && q <= dst ==> |q| <= |p|
  }

  lemma {:induction false} LpmLongest(t: Table, dst: Bits)
    ensures Lpm(t, dst).None? <==> forall p :: p in t ==> !(p <= dst)
    ensures Lpm(t, dst).Some? ==> exists p :: IsBest(t, dst, p) && t[p] == Lpm(t, dst).value
    ensures forall p :: IsBest(t, dst, p) ==> Lpm(t, dst) == Some(t[p])
  {
    LpmUpToLongest(t, dst, |dst|);
    forall p | IsBest(t, dst, p) ensures Lpm(t, dst) == Some(t[p]) {
      var q :| q in t && q <= dst && t[q] == Lpm(t, dst).value && forall x :: x in t && x <= dst && |x| <= |dst| ==> |x| <= |q|;
      assert p == dst[..|p|] && q == dst[..|q|];
    }
  }

  lemma {:induction false} LpmUpToLongest(t: Table, dst: Bits, n: nat)
    requires n <= |dst|
    ensures LpmUpTo(t, dst, n).None? <==> forall p :: p in t && |p| <= n ==> !(p <= dst)
    ensures LpmUpTo(t, dst, n).Some? ==>
      exists p :: p in t && p <= dst && t[p] == LpmUpTo(t, dst, n).value && forall q :: q in t && q <= dst && |q| <= n ==> |q| <= |p|
  {
    if dst[..n] in t {
      assert dst[..n] <= dst;
    } else if n == 0 {
      assert forall p: Bits :: |p| == 0 ==> p == dst[..0];
    } else {
      LpmUpToLongest(t, dst, n - 1);
      forall p | p in t && p <= dst && |p| <= n ensures |p| <= n - 1 { assert p == dst[..|p|]; }
    }
  }

  // ---------------------------------------------------------------- rule lookup

  function Decide(r: Rule, tables: Tables, p: Packet): Option<Route> {
    if Matches(r.sel, p) then Lpm(TableOf(tables, r.table), p.dst) else None
  }

  /** Rules in order; a rule whose table has no route passes the packet on. */
  function Lookup(rules: seq<Rule>, tables: Tables, p: Packet): Option<Route> {
    if rules == [] then None
    else if Decide(rules[0], tables, p).Some? then Decide(rules[0], tables, p)
    else Lookup(rules[1..], tables, p)
  }

  ghost predicate Sorted(rules: seq<Rule>) {
    forall i, j :: 0 <= i < j < |rules| ==> rules[i].pref <= rules[j].pref
  }

  /** If every rule up to preference `pref` that decides sends the packet out of `dev`, and
      one at `pref` does decide, the packet leaves on `dev`. */
  lemma {:induction false} LookupDev(rules: seq<Rule>, tables: Tables, p: Packet, pref: nat, dev: string)
    requires Sorted(rules)
    requires forall r :: r in rules && r.pref <= pref && Decide(r, tables, p).Some? ==> Decide(r, tables, p).value.dev == dev
    requires exists r :: r in rules && r.pref == pref && Decide(r, tables, p).Some?
    ensures Lookup(rules, tables, p).Some? && Lookup(rules, tables, p).value.dev == dev
  {
    var r :| r in rules && r.pref == pref && Decide(r, tables, p).Some?;
    assert rules[0] in rules && rules[0].pref <= pref by {
      var i :| 0 <= i < |rules| && rules[i] == r;
    }
    if Decide(rules[0], tables, p).None? {
      assert r in rules[1..];
      LookupDev(rules[1..], tables, p, pref, dev);
    }
  }

  // ---------------------------------------------------------------- ip rule add and del

  /** What an `ip rule del` names: a preference, or a selector with its table. */
  datatype Spec = ByPref(pref: nat) | BySel(sel: Selector, table: nat)

  predicate Fits(spec: Spec, r: Rule) {
    match spec
    case ByPref(pref) => r.pref == pref
    case BySel(sel, table) => r.sel == sel && r.table == table
  }

  /** `ip rule del`: the first rule that fits; fails when there is none. */
  function RuleDel(rules: seq<Rule>, spec: Spec): Option<seq<Rule>> {
    if rules == [] then None
    else if Fits(spec, rules[0]) then Some(rules[1..])
    else
      match RuleDel(rules[1..], spec)
      case None => None
      case Some(rest) => Some([rules[0]] + rest)
  }

  /** `ip rule add pref`: after every rule of the same or a lower preference. */
  function Insert(rules: seq<Rule>, r: Rule): (result: seq<Rule>)
    ensures |result| == |rules| + 1
  {
    if rules == [] then [r]
    else if r.pref < rules[0].pref then [r] + rules
    else [rules[0]] + Insert(rules[1..], r)
  }

  /** `while ip rule del ...; do :; done` */
  function Scrub(rules: seq<Rule>, spec: Spec): seq<Rule> {
    if rules == [] then []
    else if Fits(spec, rules[0]) then Scrub(rules[1..], spec)
    else [rules[0]] + Scrub(rules[1..], spec)
  }

  function Bucket(rules: seq<Rule>, pref: nat): seq<Rule> {
    if rules == [] then []
    else if rules[0].pref == pref then [rules[0]] + Bucket(rules[1..], pref)
    else Bucket(rules[1..], pref)
  }

  lemma {:induction false} InBucket(rules: seq<Rule>, r: Rule)
    ensures r in rules <==> r in Bucket(rules, r.pref)
  {
    if rules != [] { InBucket(rules[1..], r); }
  }

  lemma {:induction false} BucketPref(rules: seq<Rule>, pref: nat)
    ensures forall r :: r in Bucket(rules, pref) ==> r.pref == pref && r in rules
  {
    if rules != [] { BucketPref(rules[1..], pref); }
  }

  lemma {:induction false} InsertMembers(rules: seq<Rule>, r: Rule)
    ensures forall x :: x in Insert(rules, r) <==> x == r || x in rules
  {
    if rules != [] && r.pref >= rules[0].pref { InsertMembers(rules[1..], r); }
  }

  lemma {:induction false} InsertBucket(rules: seq<Rule>, r: Rule, p: nat)
    requires Sorted(rules)
    ensures Bucket(Insert(rules, r), p) == if p == r.pref then Bucket(rules, p) + [r] else Bucket(rules, p)
  {
    if rules == [] {
    } else if r.pref < rules[0].pref {
      assert ([r] + rules)[1..] == rules;
      if p == r.pref { EmptyBucket(rules, p); }
    } else {
      InsertBucket(rules[1..], r, p);
      assert ([rules[0]] + Insert(rules[1..], r))[1..] == Insert(rules[1..], r);
    }
  }

  lemma {:induction false} InsertSorted(rules: seq<Rule>, r: Rule)
    requires Sorted(rules)
    ensures Sorted(Insert(rules, r))
  {
    if rules != [] && r.pref >= rules[0].pref {
      InsertSorted(rules[1..], r);
      InsertMembers(rules[1..], r);
      var rest := Insert(rules[1..], r);
      forall x | x in rest ensures rules[0].pref <= x.pref {
        if x != r { var i :| 0 <= i < |rules[1..]| && rules[1..][i] == x; assert rules[i + 1] == x; }
      }
    }
  }

  lemma InsertKeeps(rules: seq<Rule>, r: Rule)
    requires Sorted(rules)
    ensures Sorted(Insert(rules, r))
    ensures forall x :: x in Insert(rules, r) <==> x == r || x in rules
    ensures forall p :: Bucket(Insert(rules, r), p) == if p == r.pref then Bucket(rules, p) + [r] else Bucket(rules, p)
  {
    InsertMembers(rules, r);
    InsertSorted(rules, r);
    forall p: nat ensures Bucket(Insert(rules, r), p) == if p == r.pref then Bucket(rules, p) + [r] else Bucket(rules, p) {
      InsertBucket(rules, r, p);
    }
  }

  lemma {:induction false} EmptyBucket(rules: seq<Rule>, pref: nat)
    requires forall r :: r in rules ==> r.pref != pref
    ensures Bucket(rules, pref) == []
  {
    if rules != [] {
      assert rules[0] in rules;
      EmptyBucket(rules[1..], pref);
    }
  }

  lemma {:induction false} ScrubKeeps(rules: seq<Rule>, spec: Spec)
    ensures Sorted(rules) ==> Sorted(Scrub(rules, spec))
    ensures forall x :: x in Scrub(rules, spec) <==> x in rules && !Fits(spec, x)
    ensures forall p :: Bucket(Scrub(rules, spec), p) == Scrub(Bucket(rules, p), spec)
  {
    if rules != [] {
      ScrubKeeps(rules[1..], spec);
      var rest := Scrub(rules[1..], spec);
      if !Fits(spec, rules[0]) {
        assert ([rules[0]] + rest)[1..] == rest;
        if Sorted(rules) {
          forall x | x in rest ensures rules[0].pref <= x.pref {
            var i :| 0 <= i < |rules[1..]| && rules[1..][i] == x; assert rules[i + 1] == x;
          }
        }
      }
      forall p ensures Bucket(Scrub(rules, spec), p) == Scrub(Bucket(rules, p), spec) {
        var b := Bucket(rules[1..], p);
        assert ([rules[0]] + b)[1..] == b;
        assert Bucket(rest, p) == Scrub(b, spec);
      }
    }
  }

  lemma {:induction false} ScrubNothing(rules: seq<Rule>, spec: Spec)
    requires forall r :: r in rules ==> !Fits(spec, r)
    ensures Scrub(rules, spec) == rules
  {
    if rules != [] {
      assert rules[0] in rules;
      ScrubNothing(rules[1..], spec);
    }
  }

  /** One successful `ip rule del` is a step of the scrub; a failed one ends it. */
  lemma {:induction false} ScrubStep(rules: seq<Rule>, spec: Spec)
    ensures RuleDel(rules, spec).None? ==> Scrub(rules, spec) == rules
    ensures RuleDel(rules, spec).Some? ==>
      Scrub(RuleDel(rules, spec).value, spec) == Scrub(rules, spec) && |RuleDel(rules, spec).value| == |rules| - 1
  {
    if rules != [] {
      ScrubStep(rules[1..], spec);
      if !Fits(spec, rules[0]) && RuleDel(rules[1..], spec).Some? {
        var rest := RuleDel(rules[1..], spec).value;
        assert ([rules[0]] + rest)[1..] == rest;
      }
    }
  }

  /** Two rule lists in preference order are the same list when each preference holds the
      same rules in the same order. */
  lemma {:induction false} SameBuckets(a: seq<Rule>, b: seq<Rule>)
    requires Sorted(a) && Sorted(b)
    requires forall p :: Bucket(a, p) == Bucket(b, p)
    ensures a == b
    decreases |a|
  {
    if a == [] {
      assert b != [] ==> Bucket(b, b[0].pref) != Bucket(a, b[0].pref);
    } else {
      InBucket(a, a[0]);
      assert a[0] in Bucket(b, a[0].pref);
      InBucket(b, a[0]);
      assert b != [];
      InBucket(b, b[0]);
      InBucket(a, b[0]);
      assert a[0].pref == b[0].pref by {
        var i :| 0 <= i < |a| && a[i] == b[0];
        var j :| 0 <= j < |b| && b[j] == a[0];
      }
      assert Bucket(a, a[0].pref)[0] == a[0] && Bucket(b, a[0].pref)[0] == b[0];
      forall p ensures Bucket(a[1..], p) == Bucket(b[1..], p) {
        assert Bucket(a, p) == Bucket(b, p);
        if p == a[0].pref {
          assert Bucket(a[1..], p) == Bucket(a, p)[1..];
          assert Bucket(b[1..], p) == Bucket(b, p)[1..];
        }
      }
      SameBuckets(a[1..], b[1..]);
    }
  }
}
