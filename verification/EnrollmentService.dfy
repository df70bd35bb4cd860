/** The enrolment methods of the worker service, on the rows they change in place. */
module EnrollmentService {
  import opened Common
  import opened FirstFit
  import opened Enrollment
  import opened EnrollmentTheorems

  class WorkerService {
    var db: Db

    method NextWorkerIdentity() returns (r: Result<string>)
      ensures match NextIdentity(db) case Some(n) => r == Ok(NameOf(n)) case None => r == ValueError
    {
      var index := 1;
      while index < 1000
        invariant 1 <= index <= 1000
        invariant FirstFree(TakenIndexes(db), index, 1000) == NextIdentity(db)
      {
        if !NameTaken(db, NameOf(index)) { return Ok(NameOf(index)); }
        index := index + 1;
      }
      return ValueError;
    }

    method CreateEnrollment(token: nat, keyOk: bool) returns (ok: bool)
      modifies this
      ensures old(Inv(db)) && token !in old(db.issued) ==> Inv(db)
      ensures match Create(old(db), token, keyOk)
        case Ok(d) => ok && db == d
        case ValueError => !ok && db == old(db)
    {
      hide Inv, Dead, Begin, NameTaken, WorkerNamed, LatestActive, NextIdentity, ByHash;
      if Inv(db) && token !in db.issued { CreateKeeps(db, token, keyOk); }
      var existing := LatestActive(db.rows, db.now);
      if existing.Some? {
        var i := existing.value;
        if db.rows[i].readable { return true; }
        ok := RefreshEnrollment(i, token, keyOk);
        return;
      }
      var slug := NextWorkerIdentity();
      if slug.ValueError? || WorkerNamed(db, slug.value) || !keyOk { return false; }
      var row := Enrolment(Hash(token), slug.value, db.now + DAY, None, None, db.now, true);
      db := db.(rows := db.rows + [row], issued := db.issued[token := |db.rows|]);
      return true;
    }

    /** Afterwards the row answers to the new token only: the former one is refused from then on,
        by every request that begins. No other row, and no request or worker, changes. */
    method RefreshEnrollment(i: nat, token: nat, keyOk: bool) returns (ok: bool)
      requires i < |db.rows|
      modifies this
      ensures ok == keyOk && (!ok ==> db == old(db))
      ensures ok ==> db == Refreshed(old(db), i, token)
      ensures ok && old(Inv(db)) && token !in old(db.issued) ==>
        Inv(db) && ByHash(db.rows, Hash(token)) == Some(i) && Dead(db, old(db.rows[i].hash.token)) &&
        forall request :: Begin(db, request, old(db.rows[i].hash.token)) == ValueError
      ensures |db.rows| == old(|db.rows|) && forall k :: 0 <= k < |db.rows| && k != i ==> db.rows[k] == old(db.rows[k])
      ensures db.requests == old(db.requests) && db.workers == old(db.workers) && db.born == old(db.born)
    {
      if !keyOk { return false; }
      ghost var before := db;
      var row := db.rows[i];
      db := db.(rows := db.rows[i := row.(hash := Hash(token), readable := true)], issued := db.issued[token := i]);
      if Inv(before) && token !in before.issued {
        RefreshMeans(before, i, token);
        forall request ensures Begin(db, request, before.rows[i].hash.token) == ValueError {
          DeadIsRefused(db, request, before.rows[i].hash.token);
        }
      }
      hide Inv, Dead, Begin;
      return true;
    }

    /** The checks of a completion request. */
    method BeginCompletion(request: nat, token: nat) returns (ok: bool)
      modifies this
      ensures old(Inv(db)) && request !in old(db.requests) ==> Inv(db)
      ensures match Begin(old(db), request, token)
        case Ok(d) => ok && db == d
        case ValueError => !ok && db == old(db)
    {
      hide Inv;
      if Inv(db) && request !in db.requests { StepKeeps(db, Step.BeginCompletion(request, token)); }
      var found := ByHash(db.rows, Hash(token));
      if found.None? { return false; }
      var e := db.rows[found.value];
      if e.used.Some? { return false; }
      if e.expires <= db.now { return false; }
      if WorkerNamed(db, e.name) { return false; }
      db := db.(requests := db.requests[request := Request(token, found.value)]);
      return true;
    }

    /** Insert the worker and mark the enrolment, in one transaction. */
    method CommitCompletion(request: nat, worker: nat) returns (ok: bool)
      requires request in db.requests
      modifies this
      ensures old(Inv(db)) && worker !in old(db.workers) ==> Inv(db)
      ensures match Commit(old(db), request, worker)
        case Ok(d) => ok && db == d
        case ValueError => !ok && db == old(db).(requests := old(db).requests - {request})
    {
      hide Inv;
      if Inv(db) && worker !in db.workers { StepKeeps(db, Step.CommitCompletion(request, worker)); }
      var r := db.requests[request];
      if r.row >= |db.rows| || WorkerNamed(db, db.rows[r.row].name) {
        db := db.(requests := db.requests - {request});
        return false;
      }
      var e := db.rows[r.row];
      db := db.(workers := db.workers[worker := Worker(e.name, false)]);
      db := db.(rows := db.rows[r.row := e.(used := Some(db.now), worker := Some(worker))], born := db.born[worker := r]);
      db := db.(requests := db.requests - {request});
      return true;
    }
  }
}
