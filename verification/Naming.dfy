/** Sequential names, and the pass that names exit nodes. */
module Naming {
  import opened Common
  import opened FirstFit

  const EXIT := "ex-"
  const GW := "gw-"
  const LIMIT := 1000

  function Pad3(n: nat): string
    requires n < LIMIT
  {
    [Digit(n / 100), Digit(n / 10 % 10), Digit(n % 10)]
  }

  /** Width three; the callers stay below the limit. */
  function Sequential(prefix: string, n: nat): string
    requires n < LIMIT
  {
    prefix + Pad3(n)
  }

  /** The number that three digits show. */
  function Number(digits: string): nat {
    if |digits| == 3 && forall i :: 0 <= i < 3 ==> '0' <= digits[i] <= '9'
    then (digits[0] - '0') as nat * 100 + (digits[1] - '0') as nat * 10 + (digits[2] - '0') as nat
    else 0
  }

  lemma NumberOfPad(n: nat)
    requires n < LIMIT
    ensures Number(Pad3(n)) == n
  {
  }

  lemma SequentialInjective(prefix: string, a: nat, b: nat)
    requires a < LIMIT && b < LIMIT && Sequential(prefix, a) == Sequential(prefix, b)
    ensures a == b
  {
    NumberOfPad(a);
    NumberOfPad(b);
    hide Number;
    assert Pad3(a) == Sequential(prefix, a)[|prefix|..] && Pad3(b) == Sequential(prefix, b)[|prefix|..] by { hide Pad3; }
  }

  /** `^prefix\d{3}$`; the `$` also matches before a final newline. */
  predicate IsSequential(prefix: string, name: string) {
    var body := WithoutNewline(name);
    |body| == |prefix| + 3 && prefix <= body && forall i :: |prefix| <= i < |body| ==> '0' <= body[i] <= '9'
  }

  function WithoutNewline(name: string): string {
    if name != [] && name[|name| - 1] == '\n' then name[..|name| - 1] else name
  }

  lemma SequentialIs(prefix: string, n: nat)
    requires n < LIMIT
    ensures IsSequential(prefix, Sequential(prefix, n))
  {
    var name := Sequential(prefix, n);
    assert name[|name| - 1] == Digit(n % 10);
    assert name[|prefix|] == Digit(n / 100) && name[|prefix| + 1] == Digit(n / 10 % 10);
  }

  function TakenIndexes(prefix: string, taken: set<string>): set<nat> {
    set i: nat | i < LIMIT && Sequential(prefix, i) in taken
  }

  function FreeIndexes(prefix: string, taken: set<string>): set<nat> {
    set i: nat | i < LIMIT && Sequential(prefix, i) !in taken
  }

  function NextIndex(prefix: string, taken: set<string>): Option<nat> {
    FirstFree(TakenIndexes(prefix, taken), 0, LIMIT)
  }

  lemma FreeOrTaken(prefix: string, taken: set<string>, x: nat)
    ensures x in FreeIndexes(prefix, taken) <==> x < LIMIT && x !in TakenIndexes(prefix, taken)
  {
    hide Sequential;
  }

  lemma NextIndexIsLeast(prefix: string, taken: set<string>)
    ensures NextIndex(prefix, taken).None? <==> FreeIndexes(prefix, taken) == {}
    ensures NextIndex(prefix, taken).Some? ==>
      NextIndex(prefix, taken).value in FreeIndexes(prefix, taken) &&
      forall i :: i in FreeIndexes(prefix, taken) ==> NextIndex(prefix, taken).value <= i
  {
    FirstFreeIsLeast(TakenIndexes(prefix, taken), 0, LIMIT);
    hide FreeIndexes, TakenIndexes, FirstFree;
    forall x: nat ensures x in FreeIndexes(prefix, taken) <==> x < LIMIT && x !in TakenIndexes(prefix, taken) { FreeOrTaken(prefix, taken, x); }
    if FreeIndexes(prefix, taken) != {} { var x :| x in FreeIndexes(prefix, taken); }
  }

  predicate TakenBelow(prefix: string, taken: set<string>, n: nat)
    requires n <= 1000
  {
    forall k: nat :: k < n ==> Sequential(prefix, k) in taken
  }

  method NextSequentialName(prefix: string, taken: set<string>) returns (r: Result<string>)
    ensures match NextIndex(prefix, taken)
      case Some(i) => i < LIMIT && r == Ok(Sequential(prefix, i))
      case None => r == ValueError
    ensures r.Ok? ==> r.value !in taken && exists i: nat :: i < 1000 && r.value == Sequential(prefix, i) && TakenBelow(prefix, taken, i)
    ensures r.ValueError? ==> TakenBelow(prefix, taken, 1000)
  {
    hide Sequential;
    var index := 0;
    FirstFreeIsLeast(TakenIndexes(prefix, taken), 0, LIMIT);
    while index < LIMIT
      invariant index <= LIMIT && TakenBelow(prefix, taken, index)
      invariant FirstFree(TakenIndexes(prefix, taken), index, LIMIT) == NextIndex(prefix, taken)
    {
      var name := Sequential(prefix, index);
      if name !in taken { return Ok(name); }
      index := index + 1;
    }
    return ValueError;
  }

  // ---------------------------------------------------------------- nodes

  /** `exit` is whether the node has the exit tag or advertises or is approved for an exit route. */
  datatype Node = Node(id: Option<nat>, name: string, exit: bool)

  predicate Candidate(node: Node, gateways: set<string>) {
    node.id.Some? && !IsSequential(EXIT, node.name) && !IsSequential(GW, node.name) && node.name !in gateways && node.exit
  }

  function Key(node: Node): nat { if node.id.Some? then node.id.value else 0 }

  function Place(node: Node, sorted: seq<Node>): seq<Node> {
    if sorted == [] || Key(node) < Key(sorted[0]) then [node] + sorted else [sorted[0]] + Place(node, sorted[1..])
  }

  /** Stable sort by id. */
  function SortById(nodes: seq<Node>): seq<Node> {
    if nodes == [] then [] else Place(nodes[|nodes| - 1], SortById(nodes[..|nodes| - 1]))
  }

  function TakenAtFirst(nodes: seq<Node>, gateways: set<string>): set<string> {
    (set n | n in nodes && IsSequential(EXIT, n.name) :: n.name) + (set g | g in gateways && g != "")
  }

  /** The nodes after the pass over `nodes`, in its order; the pass ends at the first candidate
      for which no name is left. */
  datatype Pass = Pass(nodes: seq<Node>, renamed: nat, ok: bool)

  function Rename(nodes: seq<Node>, taken: set<string>, gateways: set<string>): Pass
    decreases |nodes|
  {
    if nodes == [] then Pass([], 0, true)
    else if !Candidate(nodes[0], gateways) then
      var p := Rename(nodes[1..], taken, gateways);
      Pass([nodes[0]] + p.nodes, p.renamed, p.ok)
    else
      match Chosen(taken)
      case None => Pass(nodes, 0, false)
      case Some(name) =>
        var p := Rename(nodes[1..], taken + {name}, gateways);
        Pass([nodes[0].(name := name)] + p.nodes, p.renamed + 1, p.ok)
  }

  function Chosen(taken: set<string>): Option<string> {
    match NextIndex(EXIT, taken)
    case Some(i) => if i < LIMIT then Some(Sequential(EXIT, i)) else None
    case None => None
  }

  function Sync(nodes: seq<Node>, gateways: set<string>): Pass {
    Rename(SortById(nodes), TakenAtFirst(nodes, gateways), gateways)
  }

  function Candidates(nodes: seq<Node>, gateways: set<string>): nat {
    if nodes == [] then 0 else (if Candidate(nodes[0], gateways) then 1 else 0) + Candidates(nodes[1..], gateways)
  }

  method SyncExitNodeNames(nodes: seq<Node>, gateways: set<string>) returns (after: seq<Node>, renamed: nat, ok: bool)
    ensures Pass(after, renamed, ok) == Sync(nodes, gateways)
  {
    hide TakenAtFirst, SortById, IsSequential, Sequential, NextIndex, Candidate, FreeIndexes;
    var sorted := SortById(nodes);
    var taken := TakenAtFirst(nodes, gateways);
    after, renamed, ok := [], 0, true;
    for i := 0 to |sorted|
      invariant ok
      invariant var p := Rename(sorted[i..], taken, gateways);
        Sync(nodes, gateways) == Pass(after + p.nodes, renamed + p.renamed, p.ok)
    {
      var node := sorted[i];
      assert sorted[i..][0] == node && sorted[i..][1..] == sorted[i + 1..];
      if !Candidate(node, gateways) {
        after := after + [node];
        continue;
      }
      var name := NextSequentialName(EXIT, taken);
      if name.ValueError? {
        after := after + sorted[i..];
        ok := false;
        return;
      }
      after := after + [node.(name := name.value)];
      taken := taken + {name.value};
      renamed := renamed + 1;
    }
  }

  // ---------------------------------------------------------------- what the pass does

  lemma ChosenIsFresh(taken: set<string>)
    ensures Chosen(taken).None? <==> FreeIndexes(EXIT, taken) == {}
    ensures Chosen(taken).Some? ==> |Chosen(taken).value| == 6
    ensures Chosen(taken).Some? ==> Chosen(taken).value !in taken && IsSequential(EXIT, Chosen(taken).value)
    ensures Chosen(taken).Some? ==> |FreeIndexes(EXIT, taken)| == |FreeIndexes(EXIT, taken + {Chosen(taken).value})| + 1
    ensures Chosen(taken).Some? ==>
      forall i: nat :: i < LIMIT && Sequential(EXIT, i) !in taken ==> Number(Chosen(taken).value[|EXIT|..]) <= i
  {
    NextIndexIsLeast(EXIT, taken);
    hide FirstFree, IsSequential;
    if NextIndex(EXIT, taken).Some? {
      var i := NextIndex(EXIT, taken).value;
      SequentialIs(EXIT, i);
      NumberOfPad(i);
      assert Sequential(EXIT, i)[|EXIT|..] == Pad3(i) by { hide Pad3; }
      forall j: nat | j < LIMIT && j != i ensures Sequential(EXIT, j) != Sequential(EXIT, i) {
        if Sequential(EXIT, j) == Sequential(EXIT, i) { SequentialInjective(EXIT, i, j); }
      }
      hide Sequential, Number, Digit, Pad3;
      var name := Sequential(EXIT, i);
      assert FreeIndexes(EXIT, taken + {name}) == FreeIndexes(EXIT, taken) - {i};
      assert forall k: nat :: k < LIMIT && Sequential(EXIT, k) !in taken ==> k in FreeIndexes(EXIT, taken);
    }
  }
}
