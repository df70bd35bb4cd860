/** The exit-node naming pass: distinct least names, nothing else touched, nothing left to do. */
module NamingTheorems {
  import opened Common
  import opened Naming
  import opened ExitHost

  /** Candidate `i` has a fresh sequential name, and every lower number was taken, or given to
      an earlier candidate. */
  ghost predicate WellNamed(nodes: seq<Node>, after: seq<Node>, taken: set<string>, gateways: set<string>, i: nat)
    requires i < |nodes| == |after|
  {
    var name := after[i].name;
    |name| == 6 && IsSequential(EXIT, name) && name !in taken &&
    (forall j :: 0 <= j < i && Candidate(nodes[j], gateways) ==> after[j].name != name) &&
    forall k: nat :: k < LIMIT && k < Number(name[3..]) && Sequential(EXIT, k) !in taken ==> GivenBefore(nodes, after, gateways, i, Sequential(EXIT, k))
  }

  ghost predicate GivenBefore(nodes: seq<Node>, after: seq<Node>, gateways: set<string>, i: nat, name: string)
    requires i < |nodes| == |after|
  {
    exists j :: 0 <= j < i && Candidate(nodes[j], gateways) && after[j].name == name
  }

  lemma {:induction false} RenameShape(nodes: seq<Node>, taken: set<string>, gateways: set<string>)
    ensures var after := Rename(nodes, taken, gateways).nodes;
      |after| == |nodes| && forall i :: 0 <= i < |nodes| ==>
        after[i] == nodes[i].(name := after[i].name) && (!Candidate(nodes[i], gateways) ==> after[i] == nodes[i])
    decreases |nodes|
  {
    hide Candidate, Chosen;
    if nodes != [] {
      var rest := nodes[1..];
      if !Candidate(nodes[0], gateways) {
        RenameShape(rest, taken, gateways);
      } else if Chosen(taken).Some? {
        RenameShape(rest, taken + {Chosen(taken).value}, gateways);
      }
    }
  }

  /** The pass ends well exactly when there are names enough, and then renames every candidate. */
  lemma {:induction false} RenameCount(nodes: seq<Node>, taken: set<string>, gateways: set<string>)
    ensures var p := Rename(nodes, taken, gateways);
      (p.ok <==> Candidates(nodes, gateways) <= |FreeIndexes(EXIT, taken)|) && (p.ok ==> p.renamed == Candidates(nodes, gateways))
    decreases |nodes|
  {
    hide Candidate, Chosen, FreeIndexes, IsSequential;
    if nodes != [] {
      if !Candidate(nodes[0], gateways) {
        RenameCount(nodes[1..], taken, gateways);
      } else {
        ChosenIsFresh(taken);
        if Chosen(taken).Some? { RenameCount(nodes[1..], taken + {Chosen(taken).value}, gateways); }
      }
    }
  }

  lemma {:induction false} RenameNames(nodes: seq<Node>, taken: set<string>, gateways: set<string>)
    requires Rename(nodes, taken, gateways).ok
    ensures var after := Rename(nodes, taken, gateways).nodes;
      |after| == |nodes| && forall i :: 0 <= i < |nodes| && Candidate(nodes[i], gateways) ==> WellNamed(nodes, after, taken, gateways, i)
    decreases |nodes|
  {
    if nodes != [] {
      var rest := nodes[1..];
      var after := Rename(nodes, taken, gateways).nodes;
      RenameShape(nodes, taken, gateways);
      var named := Candidate(nodes[0], gateways);
      if named { ChosenIsFresh(taken); }
      hide Candidate, Chosen, IsSequential, Number, Sequential, FreeIndexes;
      var taken1 := if named then taken + {Chosen(taken).value} else taken;
      RenameNames(rest, taken1, gateways);
      RenameShape(rest, taken1, gateways);
      assert after[1..] == Rename(rest, taken1, gateways).nodes;
      hide Rename;
      forall i | 0 < i < |nodes| && Candidate(nodes[i], gateways) ensures WellNamed(nodes, after, taken, gateways, i) {
        assert nodes[i] == rest[i - 1] && after[i] == after[1..][i - 1];
        LaterIsWellNamed(nodes, after, taken, taken1, gateways, i);
      }
      if named { assert WellNamed(nodes, after, taken, gateways, 0); }
    }
  }

  lemma LaterIsWellNamed(nodes: seq<Node>, after: seq<Node>, taken: set<string>, taken1: set<string>, gateways: set<string>, i: nat)
    requires 0 < i < |nodes| == |after|
    requires taken1 == if Candidate(nodes[0], gateways) then taken + {after[0].name} else taken
    requires WellNamed(nodes[1..], after[1..], taken1, gateways, i - 1)
    ensures WellNamed(nodes, after, taken, gateways, i)
  {
    hide Candidate, IsSequential, Number, Sequential;
    var name := after[i].name;
    forall j | 0 <= j < i && Candidate(nodes[j], gateways) ensures after[j].name != name {
      if j > 0 { assert nodes[1..][j - 1] == nodes[j] && after[1..][j - 1] == after[j]; }
    }
    forall k: nat | k < LIMIT && k < Number(name[3..]) && Sequential(EXIT, k) !in taken
      ensures GivenBefore(nodes, after, gateways, i, Sequential(EXIT, k))
    {
      if Sequential(EXIT, k) !in taken1 {
        assert GivenBefore(nodes[1..], after[1..], gateways, i - 1, Sequential(EXIT, k));
        var j :| 0 <= j < i - 1 && Candidate(nodes[1..][j], gateways) && after[1..][j].name == Sequential(EXIT, k);
        assert nodes[j + 1] == nodes[1..][j] && after[j + 1] == after[1..][j];
      }
    }
  }

  // ---------------------------------------------------------------- sorting

  ghost predicate InOrder(nodes: seq<Node>) {
    forall i, j :: 0 <= i < j < |nodes| ==> Key(nodes[i]) <= Key(nodes[j])
  }

  lemma {:induction false} PlaceMembers(node: Node, sorted: seq<Node>)
    ensures multiset(Place(node, sorted)) == multiset(sorted) + multiset{node}
  {
    if sorted != [] && Key(node) >= Key(sorted[0]) {
      PlaceMembers(node, sorted[1..]);
      assert sorted == [sorted[0]] + sorted[1..];
    }
  }

  lemma {:induction false} PlaceKeeps(node: Node, sorted: seq<Node>)
    requires InOrder(sorted)
    ensures InOrder(Place(node, sorted))
  {
    if sorted != [] && Key(node) >= Key(sorted[0]) {
      var rest := Place(node, sorted[1..]);
      PlaceKeeps(node, sorted[1..]);
      PlaceMembers(node, sorted[1..]);
      forall x | x in rest ensures Key(sorted[0]) <= Key(x) {
        assert x in multiset(rest);
        assert x == node || x in sorted[1..];
      }
    }
  }

  lemma {:induction false} SortKeeps(nodes: seq<Node>)
    ensures var t := SortById(nodes);
      InOrder(t) && multiset(t) == multiset(nodes)
  {
    if nodes != [] {
      var last := nodes[|nodes| - 1];
      var rest := nodes[..|nodes| - 1];
      SortKeeps(rest);
      PlaceKeeps(last, SortById(rest));
      PlaceMembers(last, SortById(rest));
      assert nodes == rest + [last];
    }
  }

  lemma {:induction false} NoCandidates(nodes: seq<Node>, gateways: set<string>)
    ensures Candidates(nodes, gateways) == 0 <==> forall n :: n in nodes ==> !Candidate(n, gateways)
  {
    if nodes != [] {
      NoCandidates(nodes[1..], gateways);
      assert nodes[0] in nodes && forall n :: n in nodes <==> n == nodes[0] || n in nodes[1..];
    }
  }

  lemma {:induction false} RenameNothing(nodes: seq<Node>, taken: set<string>, gateways: set<string>)
    requires forall n :: n in nodes ==> !Candidate(n, gateways)
    ensures Rename(nodes, taken, gateways) == Pass(nodes, 0, true)
    decreases |nodes|
  {
    if nodes != [] {
      assert nodes[0] in nodes;
      RenameNothing(nodes[1..], taken, gateways);
    }
  }

  // ---------------------------------------------------------------- the pass as a whole

  /** In id order: candidates get fresh, distinct, least names; all else stays as it was; and
      the pass succeeds exactly when the candidates fit in the free names. */
  lemma SyncNames(nodes: seq<Node>, gateways: set<string>)
    ensures var sorted := SortById(nodes);
      var taken := TakenAtFirst(nodes, gateways);
      var p := Sync(nodes, gateways);
      |p.nodes| == |sorted| &&
      (p.ok <==> Candidates(sorted, gateways) <= |FreeIndexes(EXIT, taken)|) &&
      (p.ok ==> p.renamed == Candidates(sorted, gateways)) &&
      (forall i :: 0 <= i < |sorted| && !Candidate(sorted[i], gateways) ==> p.nodes[i] == sorted[i]) &&
      (p.ok ==> forall i :: 0 <= i < |sorted| && Candidate(sorted[i], gateways) ==> WellNamed(sorted, p.nodes, taken, gateways, i))
  {
    var sorted := SortById(nodes);
    var taken := TakenAtFirst(nodes, gateways);
    RenameShape(sorted, taken, gateways);
    RenameCount(sorted, taken, gateways);
    if Rename(sorted, taken, gateways).ok { RenameNames(sorted, taken, gateways); }
    hide Rename, SortById, TakenAtFirst, Candidate, WellNamed;
  }

  /** So exit nodes that are not gateways end with names all different from one another,
      provided those that had one already differed. */
  lemma ExitNamesDistinct(nodes: seq<Node>, gateways: set<string>, i: nat, j: nat)
    requires Sync(nodes, gateways).ok && i < j < |SortById(nodes)| == |Sync(nodes, gateways).nodes|
    requires var sorted := SortById(nodes);
      (Candidate(sorted[i], gateways) || IsSequential(EXIT, sorted[i].name)) &&
      (Candidate(sorted[j], gateways) || IsSequential(EXIT, sorted[j].name)) &&
      (sorted[i].name == sorted[j].name ==> Candidate(sorted[i], gateways) || Candidate(sorted[j], gateways))
    ensures Sync(nodes, gateways).nodes[i].name != Sync(nodes, gateways).nodes[j].name
  {
    var sorted := SortById(nodes);
    var p := Sync(nodes, gateways);
    SyncNames(nodes, gateways);
    SortKeeps(nodes);
    TakenBefore(nodes, gateways, sorted, i);
    TakenBefore(nodes, gateways, sorted, j);
    hide SortById, TakenAtFirst, Sync, Candidate, IsSequential;
    if Candidate(sorted[i], gateways) { assert WellNamed(sorted, p.nodes, TakenAtFirst(nodes, gateways), gateways, i); }
    if Candidate(sorted[j], gateways) { assert WellNamed(sorted, p.nodes, TakenAtFirst(nodes, gateways), gateways, j); }
  }

  lemma TakenBefore(nodes: seq<Node>, gateways: set<string>, sorted: seq<Node>, i: nat)
    requires multiset(sorted) == multiset(nodes) && i < |sorted|
    ensures IsSequential(EXIT, sorted[i].name) ==> sorted[i].name in TakenAtFirst(nodes, gateways)
  {
    assert sorted[i] in multiset(sorted);
    assert sorted[i] in nodes;
  }

  /** A second pass renames nothing. */
  lemma SyncTwice(nodes: seq<Node>, gateways: set<string>)
    requires Sync(nodes, gateways).ok
    ensures var again := Sync(Sync(nodes, gateways).nodes, gateways);
      again.ok && again.renamed == 0 && multiset(again.nodes) == multiset(Sync(nodes, gateways).nodes)
  {
    var sorted := SortById(nodes);
    var after := Sync(nodes, gateways).nodes;
    SyncNames(nodes, gateways);
    forall n | n in after ensures !Candidate(n, gateways) {
      var i :| 0 <= i < |after| && after[i] == n;
      hide Sync, SortById, TakenAtFirst;
      if Candidate(sorted[i], gateways) { assert WellNamed(sorted, after, TakenAtFirst(nodes, gateways), gateways, i); }
    }
    SortKeeps(after);
    forall n | n in SortById(after) ensures !Candidate(n, gateways) {
      assert n in multiset(SortById(after));
      assert n in after;
    }
    RenameNothing(SortById(after), TakenAtFirst(after, gateways), gateways);
  }

  // ---------------------------------------------------------------- the pass in terms of nodes and names

  /** The names that count as sequential are the thousand there are, with or without a final newline. */
  lemma IsSequentialExactly(prefix: string, name: string)
    ensures IsSequential(prefix, name) <==>
      exists n: nat :: n < LIMIT && (name == Sequential(prefix, n) || name == Sequential(prefix, n) + "\n")
  {
    if IsSequential(prefix, name) {
      var body := WithoutNewline(name);
      BodyIsSequential(prefix, body);
      var n: nat :| n < LIMIT && body == Sequential(prefix, n);
      if body != name { assert name == body + "\n"; }
    }
    forall n: nat | n < LIMIT && name == Sequential(prefix, n) ensures IsSequential(prefix, name) { SequentialIs(prefix, n); }
    forall n: nat | n < LIMIT && name == Sequential(prefix, n) + "\n" ensures IsSequential(prefix, name) {
      SequentialWithNewline(prefix, n);
    }
  }

  lemma SequentialWithNewline(prefix: string, n: nat)
    requires n < LIMIT
    ensures IsSequential(prefix, Sequential(prefix, n) + "\n")
  {
    var s := Sequential(prefix, n);
    assert (s + "\n")[..|s|] == s;
    SequentialIs(prefix, n);
    assert s[|s| - 1] == Digit(n % 10);
  }

  lemma BodyIsSequential(prefix: string, body: string)
    requires |body| == |prefix| + 3 && prefix <= body && forall i :: |prefix| <= i < |body| ==> '0' <= body[i] <= '9'
    ensures exists n: nat :: n < LIMIT && body == Sequential(prefix, n)
  {
    var digits := body[|prefix|..];
    assert body == prefix + digits;
    assert digits[0] == body[|prefix|] && digits[1] == body[|prefix| + 1] && digits[2] == body[|prefix| + 2];
    PadOfNumber(digits);
    assert body == Sequential(prefix, Number(digits));
  }

  lemma PadOfNumber(digits: string)
    requires |digits| == 3 && forall i :: 0 <= i < 3 ==> '0' <= digits[i] <= '9'
    ensures Number(digits) < LIMIT && Pad3(Number(digits)) == digits
  {
    var a, b, c := (digits[0] - '0') as nat, (digits[1] - '0') as nat, (digits[2] - '0') as nat;
    var n := a * 100 + b * 10 + c;
    assert n / 100 == a && n / 10 % 10 == b && n % 10 == c;
    assert Digit(a) == digits[0] && Digit(b) == digits[1] && Digit(c) == digits[2];
  }

  predicate HasName(nodes: seq<Node>, name: string) {
    exists n :: n in nodes && n.name == name
  }

  /** The numbers whose exit name neither a node nor a gateway has. */
  function FreeNumbers(nodes: seq<Node>, gateways: set<string>): (r: set<nat>)
    ensures forall k: nat :: k in r <==> k < LIMIT && !HasName(nodes, Sequential(EXIT, k)) && Sequential(EXIT, k) !in gateways
  {
    set k: nat | k < LIMIT && !HasName(nodes, Sequential(EXIT, k)) && Sequential(EXIT, k) !in gateways
  }

  lemma TakenMeans(nodes: seq<Node>, gateways: set<string>, k: nat)
    requires k < LIMIT
    ensures Sequential(EXIT, k) in TakenAtFirst(nodes, gateways) <==> HasName(nodes, Sequential(EXIT, k)) || Sequential(EXIT, k) in gateways
  {
    SequentialIs(EXIT, k);
    hide IsSequential, Pad3;
  }

  /** To be named: a node with an id that has the exit tag or an exit route, and neither an exit
      name, nor a gateway name, nor the name of a known gateway. */
  predicate ToBeNamed(n: Node, gateways: set<string>) {
    n.id.Some? && n.exit && !IsSequential("ex-", n.name) && !IsSequential("gw-", n.name) && n.name !in gateways
  }

  function HowManyToName(nodes: seq<Node>, gateways: set<string>): nat {
    if nodes == [] then 0 else HowManyToName(nodes[1..], gateways) + if ToBeNamed(nodes[0], gateways) then 1 else 0
  }

  lemma {:induction false} CandidatesCounted(nodes: seq<Node>, gateways: set<string>)
    ensures Candidates(nodes, gateways) == HowManyToName(nodes, gateways)
  {
    if nodes != [] { CandidatesCounted(nodes[1..], gateways); }
  }

  /** The whole pass: it succeeds exactly when the nodes to be named fit in the free names, returns
      their number, and leaves every other node as it was. */
  lemma SyncGives(nodes: seq<Node>, gateways: set<string>)
    ensures var sorted := SortById(nodes);
      var p := Sync(nodes, gateways);
      && |p.nodes| == |sorted| && multiset(sorted) == multiset(nodes) && InOrder(sorted)
      && (p.ok <==> HowManyToName(sorted, gateways) <= |FreeNumbers(nodes, gateways)|)
      && (p.ok ==> p.renamed == HowManyToName(sorted, gateways))
      && forall i :: 0 <= i < |sorted| && !ToBeNamed(sorted[i], gateways) ==> p.nodes[i] == sorted[i]
  {
    SyncNames(nodes, gateways);
    SortKeeps(nodes);
    CandidatesCounted(SortById(nodes), gateways);
    var taken := TakenAtFirst(nodes, gateways);
    forall k: nat ensures k in FreeIndexes(EXIT, taken) <==> k in FreeNumbers(nodes, gateways) {
      if k < LIMIT { TakenMeans(nodes, gateways, k); }
      hide TakenAtFirst, Sequential, HasName;
    }
    hide Sync, SortById, TakenAtFirst, FreeIndexes, HasName, IsSequential, WellNamed, Sequential;
    assert FreeIndexes(EXIT, taken) == FreeNumbers(nodes, gateways);
  }

  /** And each node to be named gets an exit name that no node and no gateway has, of the least
      number that is not had and was not given to a node of lower id. */
  lemma SyncGivesName(nodes: seq<Node>, gateways: set<string>, i: nat)
    requires Sync(nodes, gateways).ok && i < |SortById(nodes)| == |Sync(nodes, gateways).nodes| && ToBeNamed(SortById(nodes)[i], gateways)
    ensures var sorted := SortById(nodes);
      var after := Sync(nodes, gateways).nodes;
      exists k: nat :: k in FreeNumbers(nodes, gateways) && after[i] == sorted[i].(name := Sequential(EXIT, k)) &&
        (forall j :: 0 <= j < i && ToBeNamed(sorted[j], gateways) ==> after[j].name != Sequential(EXIT, k)) &&
        forall m: nat :: m < k && m in FreeNumbers(nodes, gateways) ==> HasName(after[..i], Sequential(EXIT, m))
  {
    var sorted := SortById(nodes);
    var taken := TakenAtFirst(nodes, gateways);
    var after := Sync(nodes, gateways).nodes;
    SyncNames(nodes, gateways);
    RenameShape(sorted, taken, gateways);
    assert WellNamed(sorted, after, taken, gateways, i);
    hide Rename, Sync, SortById, TakenAtFirst, FreeIndexes, IsSequential;
    var name := after[i].name;
    NewlineFree(name);
    var k: nat :| k < LIMIT && name == Sequential(EXIT, k);
    TakenMeans(nodes, gateways, k);
    NumberOfPad(k);
    assert name[3..] == Pad3(k);
    forall m: nat | m < k && m in FreeNumbers(nodes, gateways) ensures HasName(after[..i], Sequential(EXIT, m)) {
      TakenMeans(nodes, gateways, m);
      GivenIsHad(sorted, after, gateways, i, Sequential(EXIT, m));
    }
    hide Sequential, TakenAtFirst, Sync, SortById, IsSequential, Pad3, HasName, Number;
    assert k in FreeNumbers(nodes, gateways);
  }

  lemma GivenIsHad(nodes: seq<Node>, after: seq<Node>, gateways: set<string>, i: nat, name: string)
    requires i < |nodes| == |after| && GivenBefore(nodes, after, gateways, i, name)
    ensures HasName(after[..i], name)
  {
    hide Candidate;
    var j :| 0 <= j < i && Candidate(nodes[j], gateways) && after[j].name == name;
    assert after[..i][j] == after[j];
  }

  lemma NewlineFree(name: string)
    requires |name| == 6 && IsSequential(EXIT, name)
    ensures exists k: nat :: k < LIMIT && name == Sequential(EXIT, k)
  {
    IsSequentialExactly(EXIT, name);
    hide IsSequential;
    forall n: nat | n < LIMIT ensures |Sequential(EXIT, n) + "\n"| == 7 {}
  }

  // ---------------------------------------------------------------- interface names

  lemma {:induction false} OnlyAlnumKeeps(s: string)
    requires forall c :: c in s ==> Alnum(c)
    ensures OnlyAlnum(s) == s
  {
    if s != [] { assert s[0] in s; OnlyAlnumKeeps(s[1..]); }
  }

  /** Interface names fit the kernel's 15 characters, and generated gateway names keep theirs apart. */
  lemma InterfaceNames(a: nat, b: nat, any: string)
    requires a < LIMIT && b < LIMIT
    ensures |WgName(any)| <= 15
    ensures WgName(Sequential(GW, a)) == WgName(Sequential(GW, b)) <==> a == b
    ensures WgName(Sequential(GW, a)) == "wg-gw" + Pad3(a)
  {
    GatewayInterface(a);
    GatewayInterface(b);
    if WgName(Sequential(GW, a)) == WgName(Sequential(GW, b)) {
      NumberOfPad(a);
      NumberOfPad(b);
      hide Pad3, Number;
      assert ("wg-gw" + Pad3(a))[5..] == Pad3(a) && ("wg-gw" + Pad3(b))[5..] == Pad3(b);
    }
  }

  lemma OnlyAlnumFirst(c: char, rest: string)
    ensures OnlyAlnum([c] + rest) == if Alnum(c) then [c] + OnlyAlnum(rest) else OnlyAlnum(rest)
  {
    assert ([c] + rest)[1..] == rest;
  }

  lemma GatewayAlnum(digits: string)
    requires OnlyAlnum(digits) == digits
    ensures OnlyAlnum(GW + digits) == "gw" + digits
  {
    hide OnlyAlnum;
    var dash := ['-'] + digits;
    OnlyAlnumFirst('-', digits);
    OnlyAlnumFirst('w', dash);
    OnlyAlnumFirst('g', ['w'] + dash);
    assert GW + digits == ['g'] + (['w'] + dash);
    assert ['g'] + (['w'] + digits) == "gw" + digits;
  }

  lemma GatewayInterface(n: nat)
    requires n < LIMIT
    ensures WgName(Sequential(GW, n)) == "wg-gw" + Pad3(n)
  {
    OnlyAlnumKeeps(Pad3(n));
    GatewayAlnum(Pad3(n));
    assert |Pad3(n)| == 3;
    hide Pad3, OnlyAlnum, GW;
    assert "wg-" + ("gw" + Pad3(n)) == "wg-gw" + Pad3(n);
  }
}
