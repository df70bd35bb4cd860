/** One-time enrolment of workers. */
module Enrollment {
  import opened Common
  import opened FirstFit

  /** Hashing is injective: the hash of a token, by the token. */
  datatype Hash = Hash(token: nat)

  /** `readable` is whether the encrypted token and key are stored with the row. */
  datatype Enrolment = Enrolment(hash: Hash, name: string, expires: nat, used: Option<nat>, worker: Option<nat>, created: nat, readable: bool)

  datatype Worker = Worker(name: string, local: bool)

  /** A completion request past its checks, about to commit: the token shown and the row found. */
  datatype Request = Request(token: nat, row: nat)

  /** `issued` records the row each token was generated for, `born` which token made which worker;
      no code reads them. Rows are never removed, so a row is known by its place. */
  datatype Db = Db(rows: seq<Enrolment>, workers: map<nat, Worker>, now: nat, requests: map<nat, Request>,
                   issued: map<nat, nat>, born: map<nat, Request>)

  const DAY := 86400

  predicate Active(e: Enrolment, now: nat) { e.used.None? && e.expires > now }

  function NameOf(index: nat): string { "worker" + Decimal(index) }

  // ---------------------------------------------------------------- creating

  /** The active row created last. */
  function LatestActive(rows: seq<Enrolment>, now: nat): (r: Option<nat>)
    ensures r.Some? ==> r.value < |rows| && Active(rows[r.value], now)
  {
    if rows == [] then None
    else
      var n := |rows| - 1;
      var best := LatestActive(rows[..n], now);
      if Active(rows[n], now) && (best.None? || rows[n].created >= rows[best.value].created) then Some(n) else best
  }

  predicate NameTaken(db: Db, name: string) {
    (exists w :: w in db.workers && !db.workers[w].local && db.workers[w].name == name) ||
    (exists e :: e in db.rows && Active(e, db.now) && e.name == name)
  }

  predicate WorkerNamed(db: Db, name: string) {
    exists w :: w in db.workers && db.workers[w].name == name
  }

  function TakenIndexes(db: Db): set<nat> {
    set i | 1 <= i < 1000 && NameTaken(db, NameOf(i))
  }

  function NextIdentity(db: Db): Option<nat> { FirstFree(TakenIndexes(db), 1, 1000) }

  function Refreshed(db: Db, i: nat, token: nat): Db
    requires i < |db.rows|
  {
    db.(rows := db.rows[i := db.rows[i].(hash := Hash(token), readable := true)], issued := db.issued[token := i])
  }

  function Added(db: Db, row: Enrolment): Db {
    db.(rows := db.rows + [row], issued := db.issued[row.hash.token := |db.rows|])
  }

  /** `token` is the value generated, if one is; `keyOk` whether a pre-auth key could be had. */
  function Create(db: Db, token: nat, keyOk: bool): Result<Db> {
    match LatestActive(db.rows, db.now)
    case Some(i) =>
      if db.rows[i].readable then Ok(db)
      else if !keyOk then ValueError
      else Ok(Refreshed(db, i, token))
    case None =>
      match NextIdentity(db)
      case None => ValueError
      case Some(n) =>
        if WorkerNamed(db, NameOf(n)) || !keyOk then ValueError
        else
          Ok(Added(db, Enrolment(Hash(token), NameOf(n), db.now + DAY, None, None, db.now, true)))
  }

  // ---------------------------------------------------------------- completing

  function ByHash(rows: seq<Enrolment>, h: Hash): (r: Option<nat>)
    ensures r.Some? ==> r.value < |rows| && rows[r.value].hash == h
    ensures r.None? ==> forall i :: 0 <= i < |rows| ==> rows[i].hash != h
  {
    if rows == [] then None
    else
      var n := |rows| - 1;
      if rows[n].hash == h then Some(n) else ByHash(rows[..n], h)
  }

  /** The checks; a request that passes is held until it commits or fails. */
  function Begin(db: Db, request: nat, token: nat): Result<Db> {
    match ByHash(db.rows, Hash(token))
    case None => ValueError
    case Some(i) =>
      if db.rows[i].used.Some? || db.rows[i].expires <= db.now || WorkerNamed(db, db.rows[i].name) then ValueError
      else Ok(db.(requests := db.requests[request := Request(token, i)]))
  }

  /** The commit: the unique worker name decides between requests that passed together. */
  function Commit(db: Db, request: nat, worker: nat): Result<Db>
    requires request in db.requests
  {
    var r := db.requests[request];
    if r.row >= |db.rows| || WorkerNamed(db, db.rows[r.row].name) then ValueError
    else
      Ok(db.(workers := db.workers[worker := Worker(db.rows[r.row].name, false)],
             rows := db.rows[r.row := db.rows[r.row].(used := Some(db.now), worker := Some(worker))],
             requests := db.requests - {request},
             born := db.born[worker := r]))
  }

  // ---------------------------------------------------------------- runs

  datatype Step =
    | Wait(now: nat)
    | CreateEnrolment(token: nat, keyOk: bool)
    | BeginCompletion(request: nat, token: nat)
    | CommitCompletion(request: nat, worker: nat)
    | FailCompletion(request: nat)
    | OtherWorker(worker: nat, row: Worker)

  /** Time moves forward, generated tokens and new ids are fresh, and worker names are unique. */
  predicate Enabled(db: Db, step: Step) {
    match step
    case Wait(now) => db.now <= now
    case CreateEnrolment(token, _) => token !in db.issued
    case BeginCompletion(request, _) => request !in db.requests
    case CommitCompletion(request, worker) => request in db.requests && worker !in db.workers
    case FailCompletion(request) => request in db.requests
    case OtherWorker(worker, row) => worker !in db.workers && !WorkerNamed(db, row.name)
  }

  function OrSame(r: Result<Db>, db: Db): Db { match r case Ok(d) => d case ValueError => db }

  function Apply(db: Db, step: Step): Db
    requires Enabled(db, step)
  {
    match step
    case Wait(now) => db.(now := now)
    case CreateEnrolment(token, keyOk) => OrSame(Create(db, token, keyOk), db)
    case BeginCompletion(request, token) => OrSame(Begin(db, request, token), db)
    case CommitCompletion(request, worker) => OrSame(Commit(db, request, worker), db.(requests := db.requests - {request}))
    case FailCompletion(request) => db.(requests := db.requests - {request})
    case OtherWorker(worker, row) => db.(workers := db.workers[worker := row])
  }

  predicate Runs(db: Db, steps: seq<Step>)
    decreases |steps|
  {
    steps == [] || (Enabled(db, steps[0]) && Runs(Apply(db, steps[0]), steps[1..]))
  }

  function Run(db: Db, steps: seq<Step>): Db
    requires Runs(db, steps)
    decreases |steps|
  {
    if steps == [] then db else Run(Apply(db, steps[0]), steps[1..])
  }

  const EMPTY := Db([], map[], 0, map[], map[], map[])
}
