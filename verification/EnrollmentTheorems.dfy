/** Enrolment over every run: one active row, one worker a token, and exactly when a token that
    the checks refuse can still make a worker. */
module EnrollmentTheorems {
  import opened Common
  import opened FirstFit
  import opened Enrollment

  // ---------------------------------------------------------------- the invariant

  ghost predicate OneActive(rows: seq<Enrolment>, now: nat) {
    forall i, j :: 0 <= i < j < |rows| ==> !(Active(rows[i], now) && Active(rows[j], now))
  }

  predicate IssuedFor(db: Db, token: nat, row: nat) {
    token in db.issued && db.issued[token] == row && row < |db.rows|
  }

  ghost predicate TokensOk(db: Db) {
    (forall i :: 0 <= i < |db.rows| ==> IssuedFor(db, db.rows[i].hash.token, i)) &&
    (forall q :: q in db.requests ==> IssuedFor(db, db.requests[q].token, db.requests[q].row)) &&
    forall w :: w in db.born ==> IssuedFor(db, db.born[w].token, db.born[w].row)
  }

  ghost predicate NamesUnique(workers: map<nat, Worker>) {
    forall w, v :: w in workers && v in workers && w != v ==> workers[w].name != workers[v].name
  }

  /** A worker made by an enrolment has that row's name and is the worker the row records. */
  predicate MadeBy(db: Db, w: nat, r: Request) {
    w in db.workers && r.row < |db.rows| && db.workers[w].name == db.rows[r.row].name &&
    db.rows[r.row].worker == Some(w) && db.rows[r.row].used.Some?
  }

  predicate HasWorker(db: Db, i: nat)
    requires i < |db.rows|
  {
    db.rows[i].worker.Some? && db.rows[i].worker.value in db.born && db.born[db.rows[i].worker.value].row == i
  }

  ghost predicate BornOk(db: Db) {
    (forall w :: w in db.born ==> MadeBy(db, w, db.born[w])) &&
    forall i :: 0 <= i < |db.rows| && db.rows[i].used.Some? ==> HasWorker(db, i)
  }

  ghost predicate Inv(db: Db) {
    OneActive(db.rows, db.now) && TokensOk(db) && NamesUnique(db.workers) && BornOk(db)
  }

  // ---------------------------------------------------------------- creating

  lemma {:induction false} NoneActive(rows: seq<Enrolment>, now: nat)
    ensures LatestActive(rows, now).None? ==> forall i :: 0 <= i < |rows| ==> !Active(rows[i], now)
  {
    if rows != [] { NoneActive(rows[..|rows| - 1], now); }
  }

  lemma RefreshKeeps(db: Db, i: nat, token: nat)
    requires Inv(db) && token !in db.issued && i < |db.rows|
    ensures Inv(Refreshed(db, i, token))
  {
    var t := Refreshed(db, i, token);
    assert OneActive(t.rows, t.now) by { hide TokensOk, BornOk, NamesUnique; }
    assert TokensOk(t) by { hide OneActive, BornOk, NamesUnique; }
    assert BornOk(t) by {
      hide OneActive, TokensOk, NamesUnique;
      forall w | w in t.born ensures MadeBy(t, w, t.born[w]) { assert MadeBy(db, w, db.born[w]); }
      forall k | 0 <= k < |t.rows| && t.rows[k].used.Some? ensures HasWorker(t, k) { assert HasWorker(db, k); }
    }
  }

  lemma AddKeeps(db: Db, row: Enrolment)
    requires Inv(db) && row.hash.token !in db.issued && row.used.None?
    requires forall i :: 0 <= i < |db.rows| ==> !Active(db.rows[i], db.now)
    ensures Inv(Added(db, row))
  {
    var t := Added(db, row);
    assert OneActive(t.rows, t.now) by { hide TokensOk, BornOk, NamesUnique; }
    assert TokensOk(t) by { hide OneActive, BornOk, NamesUnique; }
    assert BornOk(t) by {
      hide OneActive, TokensOk, NamesUnique;
      forall w | w in t.born ensures MadeBy(t, w, t.born[w]) { assert MadeBy(db, w, db.born[w]); }
      forall k | 0 <= k < |t.rows| && t.rows[k].used.Some? ensures HasWorker(t, k) { assert HasWorker(db, k); }
    }
  }

  lemma CreateKeeps(db: Db, token: nat, keyOk: bool)
    requires Inv(db) && token !in db.issued
    ensures Inv(OrSame(Create(db, token, keyOk), db))
  {
    NoneActive(db.rows, db.now);
    hide Inv, NameTaken, NextIdentity, WorkerNamed, NameOf;
    match LatestActive(db.rows, db.now) {
      case Some(i) => RefreshKeeps(db, i, token);
      case None =>
        if NextIdentity(db).Some? {
          AddKeeps(db, Enrolment(Hash(token), NameOf(NextIdentity(db).value), db.now + DAY, None, None, db.now, true));
        }
    }
  }

  // ---------------------------------------------------------------- completing

  lemma CommitKeeps(db: Db, request: nat, worker: nat)
    requires Inv(db) && request in db.requests && worker !in db.workers && Commit(db, request, worker).Ok?
    ensures Inv(Commit(db, request, worker).value)
  {
    var t := Commit(db, request, worker).value;
    var r := db.requests[request];
    assert OneActive(t.rows, t.now) by { hide TokensOk, BornOk, NamesUnique, WorkerNamed; }
    assert NamesUnique(t.workers) by { hide TokensOk, BornOk, OneActive; }
    assert TokensOk(t) by {
      hide OneActive, BornOk, NamesUnique, WorkerNamed;
      assert IssuedFor(db, r.token, r.row);
      assert t.issued == db.issued && |t.rows| == |db.rows|;
      assert forall i :: 0 <= i < |t.rows| ==> t.rows[i].hash == db.rows[i].hash;
    }
    assert BornOk(t) by {
      hide OneActive, TokensOk, NamesUnique;
      assert !HasWorkerNamed(db, r.row);
      forall w | w in t.born ensures MadeBy(t, w, t.born[w]) {
        if w != worker {
          assert MadeBy(db, w, db.born[w]);
          assert db.born[w].row != r.row;
        }
      }
      forall k | 0 <= k < |t.rows| && t.rows[k].used.Some? ensures HasWorker(t, k) {
        if k != r.row {
          assert HasWorker(db, k);
          assert MadeBy(db, db.rows[k].worker.value, db.born[db.rows[k].worker.value]);
        }
      }
    }
  }

  predicate HasWorkerNamed(db: Db, i: nat)
    requires i < |db.rows|
  {
    WorkerNamed(db, db.rows[i].name)
  }

  lemma RequestsChange(db: Db, t: Db)
    requires Inv(db) && t == db.(requests := t.requests)
    requires forall q :: q in t.requests ==> IssuedFor(db, t.requests[q].token, t.requests[q].row)
    ensures Inv(t)
  {
    assert TokensOk(t) by {
      forall w | w in t.born ensures IssuedFor(t, t.born[w].token, t.born[w].row) { assert IssuedFor(db, db.born[w].token, db.born[w].row); }
      forall i | 0 <= i < |t.rows| ensures IssuedFor(t, t.rows[i].hash.token, i) { assert IssuedFor(db, db.rows[i].hash.token, i); }
    }
    assert BornOk(t) by {
      hide OneActive, TokensOk, NamesUnique;
      forall w | w in t.born ensures MadeBy(t, w, t.born[w]) { assert MadeBy(db, w, db.born[w]); }
      forall k | 0 <= k < |t.rows| && t.rows[k].used.Some? ensures HasWorker(t, k) { assert HasWorker(db, k); }
    }
  }

  lemma WorkersGrow(db: Db, worker: nat, row: Worker)
    requires Inv(db) && worker !in db.workers && !WorkerNamed(db, row.name)
    ensures Inv(db.(workers := db.workers[worker := row]))
  {
    var t := db.(workers := db.workers[worker := row]);
    assert TokensOk(t) by { RequestsLike(db, t); }
    assert NamesUnique(t.workers) by { hide TokensOk, BornOk; }
    assert BornOk(t) by {
      hide OneActive, TokensOk, NamesUnique;
      forall w | w in t.born ensures MadeBy(t, w, t.born[w]) { assert MadeBy(db, w, db.born[w]); }
      forall k | 0 <= k < |t.rows| && t.rows[k].used.Some? ensures HasWorker(t, k) { assert HasWorker(db, k); }
    }
  }

  lemma RequestsLike(db: Db, t: Db)
    requires TokensOk(db) && t.rows == db.rows && t.issued == db.issued && t.requests == db.requests && t.born == db.born
    ensures TokensOk(t)
  {
  }

  lemma TimePasses(db: Db, now: nat)
    requires Inv(db) && db.now <= now
    ensures Inv(db.(now := now))
  {
    var t := db.(now := now);
    RequestsLike(db, t);
    assert BornOk(t) by {
      hide OneActive, TokensOk, NamesUnique;
      forall w | w in t.born ensures MadeBy(t, w, t.born[w]) { assert MadeBy(db, w, db.born[w]); }
      forall k | 0 <= k < |t.rows| && t.rows[k].used.Some? ensures HasWorker(t, k) { assert HasWorker(db, k); }
    }
    hide TokensOk, BornOk, NamesUnique;
    assert forall e: Enrolment :: Active(e, now) ==> Active(e, db.now);
    assert OneActive(t.rows, t.now);
  }

  lemma StepKeeps(db: Db, step: Step)
    requires Inv(db) && Enabled(db, step)
    ensures Inv(Apply(db, step))
  {
    assert forall q :: q in db.requests ==> IssuedFor(db, db.requests[q].token, db.requests[q].row);
    assert forall i :: 0 <= i < |db.rows| ==> IssuedFor(db, db.rows[i].hash.token, i);
    hide Inv, Create, WorkerNamed, IssuedFor;
    match step {
      case Wait(now) => TimePasses(db, now);
      case CreateEnrolment(token, keyOk) => CreateKeeps(db, token, keyOk);
      case BeginCompletion(request, token) => if Begin(db, request, token).Ok? { RequestsChange(db, Begin(db, request, token).value); }
      case CommitCompletion(request, worker) =>
        if Commit(db, request, worker).Ok? {
          CommitKeeps(db, request, worker);
        } else {
          RequestsChange(db, db.(requests := db.requests - {request}));
        }
      case FailCompletion(request) => RequestsChange(db, db.(requests := db.requests - {request}));
      case OtherWorker(worker, row) => WorkersGrow(db, worker, row);
    }
  }

  lemma {:induction false} RunKeeps(db: Db, steps: seq<Step>)
    requires Inv(db) && Runs(db, steps)
    ensures Inv(Run(db, steps))
    decreases |steps|
  {
    if steps != [] {
      hide Inv, Apply, Enabled;
      StepKeeps(db, steps[0]);
      RunKeeps(Apply(db, steps[0]), steps[1..]);
    }
  }

  // ---------------------------------------------------------------- what every run keeps

  lemma EmptyInv()
    ensures Inv(EMPTY)
  {
  }

  /** From any table that satisfies the invariant, with rows of any age: at most one enrolment is
      unused and unexpired; no token makes two workers; and two used enrolments point to two
      workers. */
  lemma EnrolmentIsOneTime(start: Db, steps: seq<Step>)
    requires Inv(start) && Runs(start, steps)
    ensures var db := Run(start, steps);
      OneActive(db.rows, db.now) &&
      (forall w, v :: w in db.born && v in db.born && w != v ==> db.born[w].token != db.born[v].token) &&
      forall i, j :: 0 <= i < j < |db.rows| && db.rows[i].used.Some? && db.rows[j].used.Some? ==>
        db.rows[i].worker.Some? && db.rows[j].worker.Some? && db.rows[i].worker != db.rows[j].worker
  {
    RunKeeps(start, steps);
    hide Run, Runs, OneActive, NamesUnique;
    var db := Run(start, steps);
    forall w, v | w in db.born && v in db.born && w != v ensures db.born[w].token != db.born[v].token {
      assert IssuedFor(db, db.born[w].token, db.born[w].row) && IssuedFor(db, db.born[v].token, db.born[v].row);
      assert MadeBy(db, w, db.born[w]) && MadeBy(db, v, db.born[v]);
    }
    forall i, j | 0 <= i < j < |db.rows| && db.rows[i].used.Some? && db.rows[j].used.Some?
      ensures db.rows[i].worker.Some? && db.rows[j].worker.Some? && db.rows[i].worker != db.rows[j].worker
    {
      assert HasWorker(db, i) && HasWorker(db, j);
    }
  }

  // ---------------------------------------------------------------- tables from before the stored tokens

  function MadeRow(rows: seq<Enrolment>, w: nat): (r: Option<nat>)
    ensures r.Some? ==> r.value < |rows| && rows[r.value].used.Some? && rows[r.value].worker == Some(w)
    ensures r.None? ==> forall i :: 0 <= i < |rows| && rows[i].used.Some? ==> rows[i].worker != Some(w)
  {
    if rows == [] then None
    else
      var n := |rows| - 1;
      if rows[n].used.Some? && rows[n].worker == Some(w) then Some(n) else MadeRow(rows[..n], w)
  }

  /** A table as found, with the histories that explain it. */
  function Found(rows: seq<Enrolment>, workers: map<nat, Worker>, now: nat): Db {
    var tokens := set i | 0 <= i < |rows| :: rows[i].hash.token;
    Db(rows, workers, now, map[],
       map k | k in tokens && ByHash(rows, Hash(k)).Some? :: ByHash(rows, Hash(k)).value,
       map w | w in workers && MadeRow(rows, w).Some? :: Request(rows[MadeRow(rows, w).value].hash.token, MadeRow(rows, w).value))
  }

  /** Any table with the database's unique columns, one active row, and a worker of its own for
      every used row satisfies the invariant, whether or not its rows store their tokens. */
  lemma FoundInv(rows: seq<Enrolment>, workers: map<nat, Worker>, now: nat)
    requires forall i, j :: 0 <= i < j < |rows| ==> rows[i].hash != rows[j].hash
    requires NamesUnique(workers) && OneActive(rows, now)
    requires forall i :: 0 <= i < |rows| && rows[i].used.Some? ==>
      rows[i].worker.Some? && rows[i].worker.value in workers && workers[rows[i].worker.value].name == rows[i].name
    requires forall i, j :: 0 <= i < j < |rows| && rows[i].used.Some? && rows[j].used.Some? ==> rows[i].worker != rows[j].worker
    ensures Inv(Found(rows, workers, now))
  {
    var db := Found(rows, workers, now);
    hide NamesUnique, OneActive;
    FoundIssued(rows, workers, now);
    hide IssuedFor;
    forall w | w in db.born ensures IssuedFor(db, db.born[w].token, db.born[w].row) && MadeBy(db, w, db.born[w]) {
      assert IssuedFor(db, rows[MadeRow(rows, w).value].hash.token, MadeRow(rows, w).value);
    }
    forall i | 0 <= i < |rows| && rows[i].used.Some? ensures HasWorker(db, i) {
      assert MadeRow(rows, rows[i].worker.value).Some?;
    }
    assert TokensOk(db) && BornOk(db);
  }

  lemma FoundIssued(rows: seq<Enrolment>, workers: map<nat, Worker>, now: nat)
    requires forall i, j :: 0 <= i < j < |rows| ==> rows[i].hash != rows[j].hash
    ensures forall i :: 0 <= i < |rows| ==> IssuedFor(Found(rows, workers, now), rows[i].hash.token, i)
  {
    forall i | 0 <= i < |rows| ensures IssuedFor(Found(rows, workers, now), rows[i].hash.token, i) {
      assert Hash(rows[i].hash.token) == rows[i].hash;
      var j := ByHash(rows, rows[i].hash).value;
      assert i == j;
    }
  }

  // ---------------------------------------------------------------- dead tokens

  /** A token that was issued and that no row answers to any more, or whose row is used. */
  ghost predicate Dead(db: Db, token: nat) {
    token in db.issued && forall i :: 0 <= i < |db.rows| && db.rows[i].hash == Hash(token) ==> db.rows[i].used.Some?
  }

  lemma DeadIsRefused(db: Db, request: nat, token: nat)
    requires Dead(db, token)
    ensures Begin(db, request, token) == ValueError
  {
  }

  lemma StepKeepsDead(db: Db, step: Step, token: nat)
    requires Dead(db, token) && Enabled(db, step)
    ensures Dead(Apply(db, step), token)
  {
    hide WorkerNamed, NextIdentity, NameOf;
  }

  /** No request that begins with a dead token passes its checks, in any later state. */
  lemma {:induction false} DeadForever(db: Db, steps: seq<Step>, request: nat, token: nat)
    requires Dead(db, token) && Runs(db, steps)
    ensures Dead(Run(db, steps), token) && Begin(Run(db, steps), request, token) == ValueError
    decreases |steps|
  {
    if steps == [] {
      DeadIsRefused(db, request, token);
    } else {
      hide Dead, Apply, Enabled, Begin;
      StepKeepsDead(db, steps[0], token);
      DeadForever(Apply(db, steps[0]), steps[1..], request, token);
    }
  }

  /** Refreshing an enrolment kills the token it had: no request that begins later passes with it. */
  lemma RefreshKills(db: Db, token: nat, i: nat)
    requires Inv(db) && token !in db.issued && LatestActive(db.rows, db.now) == Some(i) && !db.rows[i].readable
    ensures Create(db, token, true) == Ok(Refreshed(db, i, token)) && Dead(Refreshed(db, i, token), db.rows[i].hash.token)
  {
    RefreshMeans(db, i, token);
  }

  lemma CommitKills(db: Db, request: nat, worker: nat)
    requires Inv(db) && request in db.requests && worker !in db.workers && Commit(db, request, worker).Ok?
    ensures Dead(Commit(db, request, worker).value, db.requests[request].token)
  {
    var r := db.requests[request];
    assert IssuedFor(db, r.token, r.row);
    forall k | 0 <= k < |db.rows| && k != r.row ensures db.rows[k].hash.token != r.token { assert IssuedFor(db, db.rows[k].hash.token, k); }
    hide WorkerNamed;
  }

  // ---------------------------------------------------------------- requests in flight

  /** A request that passed its checks with the token and could commit now. */
  predicate InFlight(db: Db, token: nat) {
    exists q :: q in db.requests && CanCommit(db, db.requests[q], token)
  }

  predicate CanCommit(db: Db, r: Request, token: nat) {
    r.token == token && r.row < |db.rows| && !WorkerNamed(db, db.rows[r.row].name)
  }

  predicate MadeNew(db: Db, after: Db, token: nat) {
    exists w :: w in after.born && w !in db.born && after.born[w].token == token
  }

  /** Some run makes a new worker with the token. */
  ghost predicate CanStillMake(db: Db, token: nat) {
    exists steps :: Runs(db, steps) && MadeNew(db, Run(db, steps), token)
  }

  lemma {:induction false} NewId(ids: set<nat>) returns (id: nat)
    ensures forall i :: i in ids ==> i < id
  {
    id := 0;
    if ids != {} {
      var x :| x in ids;
      id := NewId(ids - {x});
      if id <= x { id := x + 1; }
      assert ids == (ids - {x}) + {x};
    }
  }

  lemma CommitMakes(db: Db, q: nat, token: nat)
    requires Inv(db) && q in db.requests && CanCommit(db, db.requests[q], token)
    ensures CanStillMake(db, token)
  {
    var w := NewId(db.workers.Keys);
    assert w !in db.workers;
    assert w !in db.born by { assert forall v :: v in db.born ==> MadeBy(db, v, db.born[v]); }
    var step := CommitCompletion(q, w);
    hide Inv, WorkerNamed;
    var t := Apply(db, step);
    assert t.born[w].token == token;
    assert [step][1..] == [] && Runs(t, []);
    assert Runs(db, [step]) && Run(db, [step]) == Run(t, []);
    assert MadeNew(db, Run(db, [step]), token);
  }

  /** Without such a request no step makes a worker with a dead token, or brings such a request about. */
  lemma StepKeepsOut(db: Db, step: Step, token: nat)
    requires Inv(db) && Dead(db, token) && !InFlight(db, token) && Enabled(db, step)
    ensures !InFlight(Apply(db, step), token) && !MadeNew(db, Apply(db, step), token)
  {
    var t := Apply(db, step);
    if step.BeginCompletion? { DeadIsRefused(db, step.request, token); }
    StepKeepsNames(db, step);
    forall q | q in db.requests ensures db.requests[q].row < |db.rows| {
      assert IssuedFor(db, db.requests[q].token, db.requests[q].row);
    }
    forall q | q in t.requests ensures !CanCommit(t, t.requests[q], token) {
      if q in db.requests && t.requests[q] == db.requests[q] {
        assert !CanCommit(db, db.requests[q], token);
      } else {
        hide Dead, Inv, WorkerNamed;
        assert step.BeginCompletion? && t.requests[q].token == step.token;
      }
    }
    if step.CommitCompletion? { assert !CanCommit(db, db.requests[step.request], token); }
    hide Inv, Dead, WorkerNamed, NextIdentity, NameOf;
  }

  /** Names of rows and of workers stay. */
  lemma StepKeepsNames(db: Db, step: Step)
    requires Enabled(db, step)
    ensures var t := Apply(db, step);
      |db.rows| <= |t.rows| && (forall i :: 0 <= i < |db.rows| ==> t.rows[i].name == db.rows[i].name) &&
      forall n :: WorkerNamed(db, n) ==> WorkerNamed(t, n)
  {
    var t := Apply(db, step);
    hide NextIdentity, NameOf, NameTaken;
    forall n | WorkerNamed(db, n) ensures WorkerNamed(t, n) {
      var w :| w in db.workers && db.workers[w].name == n;
      assert w in t.workers && t.workers[w] == db.workers[w];
    }
  }

  lemma {:induction false} RunKeepsOut(db: Db, steps: seq<Step>, token: nat)
    requires Inv(db) && Dead(db, token) && !InFlight(db, token) && Runs(db, steps)
    ensures !MadeNew(db, Run(db, steps), token)
    decreases |steps|
  {
    if steps != [] {
      hide Inv, Dead, InFlight, Apply, Enabled, MadeNew;
      var t := Apply(db, steps[0]);
      StepKeeps(db, steps[0]);
      StepKeepsDead(db, steps[0], token);
      StepKeepsOut(db, steps[0], token);
      RunKeepsOut(t, steps[1..], token);
      BornStays(t, steps[1..]);
      NoneInTurn(db, t, Run(t, steps[1..]), token);
    }
  }

  lemma {:induction false} BornStays(db: Db, steps: seq<Step>)
    requires Inv(db) && Runs(db, steps)
    ensures forall w :: w in db.born ==> w in Run(db, steps).born && Run(db, steps).born[w] == db.born[w]
    decreases |steps|
  {
    if steps != [] {
      var t := Apply(db, steps[0]);
      StepKeeps(db, steps[0]);
      StepBornStays(db, steps[0]);
      hide Inv, Apply, Enabled;
      BornStays(t, steps[1..]);
    }
  }

  lemma StepBornStays(db: Db, step: Step)
    requires Inv(db) && Enabled(db, step)
    ensures var t := Apply(db, step);
      forall w :: w in db.born ==> w in t.born && t.born[w] == db.born[w]
  {
    assert forall w :: w in db.born ==> MadeBy(db, w, db.born[w]);
    hide Inv, WorkerNamed, NextIdentity, NameOf;
  }

  lemma NoneInTurn(a: Db, b: Db, c: Db, token: nat)
    requires !MadeNew(a, b, token) && !MadeNew(b, c, token)
    requires forall w :: w in b.born ==> w in c.born && c.born[w] == b.born[w]
    ensures !MadeNew(a, c, token)
  {
  }

  /** A dead token can still make a worker exactly when a request already past its checks holds
      it and the name of its row is not taken. */
  lemma DeadTokenStillMakesExactly(db: Db, token: nat)
    requires Inv(db) && Dead(db, token)
    ensures CanStillMake(db, token) <==> InFlight(db, token)
  {
    hide Inv, Dead, CanCommit;
    if InFlight(db, token) {
      var q :| q in db.requests && CanCommit(db, db.requests[q], token);
      CommitMakes(db, q, token);
    } else {
      forall steps | Runs(db, steps) ensures !MadeNew(db, Run(db, steps), token) { RunKeepsOut(db, steps, token); }
    }
  }

  // ---------------------------------------------------------------- a refreshed token at work

  /** One enrolment whose token was not stored, as `row` and `issued` stand, with a request at work. */
  function Single(row: Enrolment, requests: map<nat, Request>, issued: map<nat, nat>): Db {
    Db([row], map[], 0, requests, issued, map[])
  }

  function Row(token: nat, readable: bool): Enrolment {
    Enrolment(Hash(token), "worker1", DAY, None, None, 0, readable)
  }

  lemma SingleFacts(row: Enrolment, requests: map<nat, Request>, issued: map<nat, nat>)
    requires Active(row, 0)
    ensures LatestActive([row], 0) == Some(0)
    ensures forall h :: ByHash([row], h) == if row.hash == h then Some(0) else None
    ensures forall n :: !WorkerNamed(Single(row, requests, issued), n)
  {
    assert [row][..0] == [];
    assert LatestActive([], 0) == None;
  }

  /** A token that was refreshed away while a completion was on its way: the checks pass, the row
      gets a new token, the old one is dead, and the completion then makes a worker with it. */
  lemma RefreshedTokenMakesWorker()
    ensures var start := Single(Row(7, false), map[], map[7 := 0]);
      var refreshed := Single(Row(8, true), map[1 := Request(7, 0)], map[7 := 0, 8 := 0]);
      Inv(start) && Runs(start, [BeginCompletion(1, 7), CreateEnrolment(8, true)]) &&
      Run(start, [BeginCompletion(1, 7), CreateEnrolment(8, true)]) == refreshed &&
      Dead(refreshed, 7) && Begin(refreshed, 2, 7) == ValueError &&
      Enabled(refreshed, CommitCompletion(1, 5)) && 5 in Apply(refreshed, CommitCompletion(1, 5)).born &&
      Apply(refreshed, CommitCompletion(1, 5)).born[5].token == 7
  {
    var start := Single(Row(7, false), map[], map[7 := 0]);
    var begun := Single(Row(7, false), map[1 := Request(7, 0)], map[7 := 0]);
    var refreshed := Single(Row(8, true), map[1 := Request(7, 0)], map[7 := 0, 8 := 0]);
    SingleFacts(Row(7, false), map[], map[7 := 0]);
    SingleFacts(Row(7, false), map[1 := Request(7, 0)], map[7 := 0]);
    SingleFacts(Row(8, true), map[1 := Request(7, 0)], map[7 := 0, 8 := 0]);
    hide ByHash, LatestActive, WorkerNamed;
    assert Apply(start, BeginCompletion(1, 7)) == begun;
    assert Apply(begun, CreateEnrolment(8, true)) == refreshed;
    var steps := [BeginCompletion(1, 7), CreateEnrolment(8, true)];
    assert steps[1..] == [CreateEnrolment(8, true)] && steps[1..][1..] == [];
    assert Runs(refreshed, []) && Runs(begun, steps[1..]) && Runs(start, steps);
    DeadIsRefused(refreshed, 2, 7);
  }

  // ---------------------------------------------------------------- a refresh

  /** What a refresh means to a caller: the former token is dead, the new one finds the row. */
  lemma RefreshMeans(db: Db, i: nat, token: nat)
    requires Inv(db) && token !in db.issued && i < |db.rows|
    ensures var t := Refreshed(db, i, token);
      ByHash(t.rows, Hash(token)) == Some(i) && Dead(t, db.rows[i].hash.token) && Inv(t)
  {
    RefreshKeeps(db, i, token);
    var t := Refreshed(db, i, token);
    var before := db.rows[i].hash.token;
    assert IssuedFor(db, before, i);
    forall k | 0 <= k < |db.rows| ensures (k != i ==> db.rows[k].hash.token != before) && db.rows[k].hash.token != token {
      assert IssuedFor(db, db.rows[k].hash.token, k);
    }
    hide Inv;
    assert t.rows[i].hash == Hash(token);
  }

  /** The name of a new enrolment is the least that no remote worker and no active enrolment has. */
  lemma IdentityIsLeastFree(db: Db)
    ensures NextIdentity(db).None? <==> forall n: nat :: 1 <= n < 1000 ==> NameTaken(db, NameOf(n))
    ensures forall n: nat :: NextIdentity(db) == Some(n) <==>
      (1 <= n < 1000 && !NameTaken(db, NameOf(n)) && forall m: nat :: 1 <= m < n ==> NameTaken(db, NameOf(m)))
  {
    FirstFreeIsLeast(TakenIndexes(db), 1, 1000);
    hide NameTaken, NameOf, FirstFree;
    assert forall n: nat :: 1 <= n < 1000 ==> (n in TakenIndexes(db) <==> NameTaken(db, NameOf(n)));
  }

  // ---------------------------------------------------------------- what each request leaves

  /** A completion passes its checks exactly when its token is a row's, the row is unused and not
      expired, and no worker has its name; it then holds that row, and nothing else changes. */
  lemma BeginPassesExactly(db: Db, request: nat, token: nat)
    requires Inv(db)
    ensures Begin(db, request, token).Ok? <==> exists i :: 0 <= i < |db.rows| && Passes(db, i, token)
    ensures forall i :: 0 <= i < |db.rows| && Passes(db, i, token) ==>
      Begin(db, request, token) == Ok(db.(requests := db.requests[request := Request(token, i)]))
  {
    forall i | 0 <= i < |db.rows| && db.rows[i].hash == Hash(token) ensures ByHash(db.rows, Hash(token)) == Some(i) {
      var j := ByHash(db.rows, Hash(token)).value;
      assert IssuedFor(db, db.rows[i].hash.token, i) && IssuedFor(db, db.rows[j].hash.token, j);
    }
    if Begin(db, request, token).Ok? { assert Passes(db, ByHash(db.rows, Hash(token)).value, token); }
    hide Inv, ByHash;
  }

  predicate Passes(db: Db, i: nat, token: nat)
    requires i < |db.rows|
  {
    db.rows[i].hash == Hash(token) && db.rows[i].used.None? && db.now < db.rows[i].expires &&
    forall w :: w in db.workers ==> db.workers[w].name != db.rows[i].name
  }

  /** A commit succeeds exactly when no worker has the row's name by then. The new worker has that
      name, the row its worker and the time, the request is gone, and nothing else changes. */
  lemma CommitGives(db: Db, request: nat, worker: nat)
    requires Inv(db) && request in db.requests
    ensures db.requests[request].row < |db.rows|
    ensures var r := db.requests[request];
      Commit(db, request, worker).Ok? <==> forall w :: w in db.workers ==> db.workers[w].name != db.rows[r.row].name
    ensures Commit(db, request, worker).Ok? ==>
      var r := db.requests[request];
      var t := Commit(db, request, worker).value;
      && t.workers == db.workers[worker := Worker(db.rows[r.row].name, false)] && t.requests == db.requests - {request}
      && |t.rows| == |db.rows| && t.rows[r.row].used == Some(db.now) && t.rows[r.row].worker == Some(worker)
      && t.rows[r.row].hash == db.rows[r.row].hash && t.rows[r.row].name == db.rows[r.row].name
      && t.rows[r.row].expires == db.rows[r.row].expires && t.now == db.now
      && forall k :: 0 <= k < |db.rows| && k != r.row ==> t.rows[k] == db.rows[k]
  {
    assert IssuedFor(db, db.requests[request].token, db.requests[request].row);
    hide Inv;
  }

  predicate Usable(e: Enrolment, now: nat) { e.used.None? && now < e.expires }

  predicate RemoteNamed(db: Db, name: string) {
    exists w :: w in db.workers && !db.workers[w].local && db.workers[w].name == name
  }

  /** While an enrolment is unused and unexpired, creating returns it; one without a stored token
      gets a new one, if a key can be had. */
  lemma CreateReturns(db: Db, token: nat, keyOk: bool, i: nat)
    requires Inv(db) && i < |db.rows| && Usable(db.rows[i], db.now)
    ensures db.rows[i].readable ==> Create(db, token, keyOk) == Ok(db)
    ensures !db.rows[i].readable && !keyOk ==> Create(db, token, keyOk) == ValueError
    ensures !db.rows[i].readable && keyOk ==>
      Create(db, token, keyOk).Ok? &&
      var t := Create(db, token, keyOk).value;
      && |t.rows| == |db.rows| && t.rows[i] == db.rows[i].(hash := Hash(token), readable := true)
      && (forall k :: 0 <= k < |db.rows| && k != i ==> t.rows[k] == db.rows[k])
      && t.workers == db.workers && t.requests == db.requests && t.now == db.now
  {
    NoneActive(db.rows, db.now);
    assert LatestActive(db.rows, db.now) == Some(i) by {
      var j := LatestActive(db.rows, db.now).value;
      assert Active(db.rows[i], db.now) && Active(db.rows[j], db.now);
      assert OneActive(db.rows, db.now);
    }
    hide Inv, LatestActive;
  }

  /** Otherwise it adds one, good for a day, under the least name that no remote worker has; it
      fails when there is none such, when a local worker has it, or without a key. */
  lemma CreateAdds(db: Db, token: nat, keyOk: bool)
    requires forall i :: 0 <= i < |db.rows| ==> !Usable(db.rows[i], db.now)
    ensures (forall n: nat :: 1 <= n < 1000 ==> RemoteNamed(db, "worker" + Decimal(n))) || !keyOk ==> Create(db, token, keyOk) == ValueError
    ensures forall n: nat :: 1 <= n < 1000 && LeastName(db, n) && keyOk ==>
      var name := "worker" + Decimal(n);
      if exists w :: w in db.workers && db.workers[w].name == name then Create(db, token, keyOk) == ValueError
      else
        Create(db, token, keyOk).Ok? &&
        var t := Create(db, token, keyOk).value;
        && t.rows == db.rows + [Enrolment(Hash(token), name, db.now + 86400, None, None, db.now, true)]
        && t.workers == db.workers && t.requests == db.requests && t.now == db.now
  {
    assert LatestActive(db.rows, db.now).None?;
    IdentityIsLeastFree(db);
    forall n: nat ensures NameTaken(db, NameOf(n)) <==> RemoteNamed(db, "worker" + Decimal(n)) { hide Decimal; }
    hide LatestActive, NextIdentity, Decimal, NameTaken, RemoteNamed;
  }

  predicate LeastName(db: Db, n: nat) {
    !RemoteNamed(db, "worker" + Decimal(n)) && forall m: nat :: 1 <= m < n ==> RemoteNamed(db, "worker" + Decimal(m))
  }
}
