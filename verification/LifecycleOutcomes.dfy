/** What each commit leaves in the rows and in its thread, row by row, and that a deletion once
    asked for can be carried through. */
module LifecycleOutcomes {
  import opened Common
  import opened Lifecycle
  import opened LifecycleSafety
  import opened LifecycleNoStranding
  import opened LifecycleRecovery
  import opened LifecycleDeletion
  import opened LifecycleDeleteJob

  // ---------------------------------------------------------------- what stays

  /** Every gateway but `g` and every job but `j` is as it was; -1 excepts none. */
  predicate RestSame(db: Db, db': Db, g: int, j: int) {
    && db'.gateways.Keys == db.gateways.Keys && db'.jobs.Keys == db.jobs.Keys
    && (forall h :: h in db.gateways && h != g ==> db'.gateways[h] == db.gateways[h])
    && (forall k :: k in db.jobs && k != j ==> db'.jobs[k] == db.jobs[k])
    && (forall k :: k in db.jobs ==> db'.jobs[k].kind == db.jobs[k].kind && db'.jobs[k].gateway == db.jobs[k].gateway)
  }

  /** Thread `t` is in the phase, still on its gateway and job; all other threads, and who is
      active, are as they were. */
  predicate NowIn(p: Pool, p': Pool, t: nat, phase: Phase) {
    && t in p.threads && p'.active == p.active && p'.threads.Keys == p.threads.Keys
    && (forall u :: u in p.threads && u != t ==> p'.threads[u] == p.threads[u])
    && p'.threads[t] == Thread(p.threads[t].gateway, p.threads[t].arg, p.threads[t].job, phase)
  }

  predicate BothRows(db: Db, th: Thread) {
    th.gateway in db.gateways && th.job in db.jobs
  }

  // ---------------------------------------------------------------- a provisioning thread's commits

  /** The RUNNING commit. */
  lemma BeginOutcome(s: State, t: nat)
    requires At(s.prov, t, {Admitted}) && BothRows(s.db, s.prov.threads[t])
    ensures var th := s.prov.threads[t];
      var s' := Apply(s, ProvBegin(t));
      && s'.db.jobs[th.job].status == Running && s'.db.jobs[th.job].updatedAt == s.now
      && RestSame(s.db, s'.db, -1, th.job) && NowIn(s.prov, s'.prov, t, Begun) && s'.del == s.del && s'.now == s.now
  {
  }

  /** The PROVISIONING commit. */
  lemma LaunchOutcome(s: State, t: nat)
    requires At(s.prov, t, {Begun}) && BothRows(s.db, s.prov.threads[t])
    ensures var th := s.prov.threads[t];
      var s' := Apply(s, ProvLaunch(t));
      && s'.db.gateways[th.gateway] == Provisioning && s'.db.jobs[th.job].status == s.db.jobs[th.job].status
      && RestSame(s.db, s'.db, th.gateway, th.job) && NowIn(s.prov, s'.prov, t, Launched) && s'.del == s.del && s'.now == s.now
  {
  }

  /** The outcome commit: READY when all checks passed, ERROR otherwise; the job stays as it is. */
  lemma SettleOutcome(s: State, t: nat, ok: bool)
    requires At(s.prov, t, {Launched}) && BothRows(s.db, s.prov.threads[t])
    ensures var th := s.prov.threads[t];
      var s' := Apply(s, ProvSettle(t, ok));
      && (ok ==> s'.db.gateways[th.gateway] == Ready) && (!ok ==> s'.db.gateways[th.gateway] == Error)
      && RestSame(s.db, s'.db, th.gateway, -1) && NowIn(s.prov, s'.prov, t, Settled) && s'.del == s.del && s'.now == s.now
  {
  }

  /** The COMPLETED commit leaves the gateway as it is. */
  lemma CloseOutcome(s: State, t: nat)
    requires At(s.prov, t, {Settled})
    ensures var th := s.prov.threads[t];
      var s' := Apply(s, ProvClose(t));
      && (th.job in s.db.jobs ==> s'.db.jobs[th.job].status == Completed)
      && RestSame(s.db, s'.db, -1, th.job) && NowIn(s.prov, s'.prov, t, Finished) && s'.del == s.del && s'.now == s.now
  {
  }

  /** A failure at any point of the work: the gateway is ERROR and the job FAILED. */
  lemma FailureOutcome(s: State, t: nat)
    requires At(s.prov, t, {Begun, Launched, Settled}) && BothRows(s.db, s.prov.threads[t])
    ensures var th := s.prov.threads[t];
      var s' := Apply(s, ProvFail(t));
      && s'.db.gateways[th.gateway] == Error && s'.db.jobs[th.job].status == Failed
      && RestSame(s.db, s'.db, th.gateway, th.job) && NowIn(s.prov, s'.prov, t, Finished) && s'.del == s.del && s'.now == s.now
  {
  }

  /** When the gateway or the job is gone, a commit changes no row and the thread is finished. */
  lemma RowsGoneOutcome(s: State, step: Step)
    requires Enabled(s, step) && (step.ProvBegin? || step.ProvLaunch? || step.ProvSettle? || step.ProvFail?)
    requires !BothRows(s.db, s.prov.threads[step.t])
    ensures var s' := Apply(s, step);
      s'.db == s.db && NowIn(s.prov, s'.prov, step.t, Finished) && s'.del == s.del && s'.now == s.now
  {
  }

  /** A heartbeat renews the job's time and nothing else. */
  lemma HeartbeatOutcome(s: State, t: nat)
    requires At(s.prov, t, {Begun, Launched, Settled})
    ensures var th := s.prov.threads[t];
      var s' := Apply(s, ProvHeartbeat(t));
      && (th.job in s.db.jobs ==> s'.db.jobs[th.job].status == s.db.jobs[th.job].status && s'.db.jobs[th.job].updatedAt == s.now)
      && RestSame(s.db, s'.db, -1, th.job) && s'.prov == s.prov && s'.del == s.del && s'.now == s.now
  {
  }

  /** The end of a thread: it and its entry in the active set go. */
  lemma EndOutcome(s: State, t: nat)
    requires At(s.prov, t, {Finished})
    ensures var s' := Apply(s, ProvDiscard(t));
      && t !in s'.prov.threads && s.prov.threads[t].gateway !in s'.prov.active
      && (forall g :: g != s.prov.threads[t].gateway ==> (g in s'.prov.active <==> g in s.prov.active))
      && (forall u :: u in s.prov.threads && u != t ==> u in s'.prov.threads && s'.prov.threads[u] == s.prov.threads[u])
      && s'.db == s.db && s'.del == s.del && s'.now == s.now
  {
  }

  /** A thread that meets a locked database starts over with the job it was given. */
  lemma RestartOutcome(s: State, t: nat)
    requires Enabled(s, ProvRestart(t))
    ensures var th := s.prov.threads[t];
      var s' := Apply(s, ProvRestart(t));
      && s'.prov == Pool(s.prov.active, s.prov.threads[t := Thread(th.gateway, th.arg, th.arg, Spawned)])
      && s'.db == s.db && s'.del == s.del && s'.now == s.now
  {
  }

  /** A crash loses both pools and no row. */
  lemma CrashOutcome(s: State)
    ensures var s' := Apply(s, Crash);
      s'.db == s.db && s'.now == s.now && s'.prov.active == {} && s'.prov.threads == map[] && s'.del.active == {} && s'.del.threads == map[]
  {
  }

  // ---------------------------------------------------------------- preparing and the gate

  /** What preparing leaves: ERROR becomes PENDING, and so does PROVISIONING whose job FAILED; the
      latest create job is PENDING, or a new one is added when there is none. */
  lemma PrepareOutcome(s: State, g: nat, newJob: nat)
    requires g in s.db.gateways && FreshJob(s, newJob)
    ensures var db' := Prepare(s.now, s.db, g, newJob);
      && (s.db.gateways[g] == Error ==> db'.gateways[g] == Pending)
      && (s.db.gateways[g] != Error && s.db.gateways[g] != Provisioning ==> db'.gateways[g] == s.db.gateways[g])
      && (s.db.gateways[g] == Provisioning ==>
            forall j: nat :: IsLatest(s.db, g, CreateGateway, j) ==>
              db'.gateways[g] == if s.db.jobs[j].status == Failed then Pending else Provisioning)
      && (forall j: nat :: IsLatest(s.db, g, CreateGateway, j) ==> db'.jobs[j].status == JobPending && RestSame(s.db, db', g, j))
      && ((forall j: nat :: !IsJobOf(s.db, g, CreateGateway, j)) ==>
            newJob in db'.jobs && db'.jobs[newJob] == Job(CreateGateway, g, JobPending, s.now) &&
            RestSame(s.db, Db(db'.gateways, map k | k in db'.jobs && k != newJob :: db'.jobs[k]), g, -1))
  {
    var db' := Prepare(s.now, s.db, g, newJob);
    forall j: nat | IsLatest(s.db, g, CreateGateway, j)
      ensures db'.jobs[j].status == JobPending && RestSame(s.db, db', g, j)
      ensures s.db.gateways[g] == Provisioning ==> db'.gateways[g] == if s.db.jobs[j].status == Failed then Pending else Provisioning
    {
      LatestIs(s.db, g, CreateGateway, j);
    }
  }

  /** A spawned thread whose gateway no longer needs provisioning, or whose job is neither PENDING
      nor RUNNING for more than ten minutes nor gone, does nothing. */
  lemma GateRefuses(s: State, t: nat, pick: nat, newJob: nat)
    requires Enabled(s, ProvGate(t, pick, newJob))
    requires var th := s.prov.threads[t];
      || th.gateway !in s.db.gateways || s.db.gateways[th.gateway] == Ready || s.db.gateways[th.gateway] == Deleting
      || (th.arg in s.db.jobs && s.db.jobs[th.arg].status != JobPending &&
          !(s.db.jobs[th.arg].status == Running && s.now - s.db.jobs[th.arg].updatedAt > 10))
    ensures var s' := Apply(s, ProvGate(t, pick, newJob));
      s'.db == s.db && NowIn(s.prov, s'.prov, t, Finished) && s'.del == s.del && s'.now == s.now
  {
  }

  /** With a PENDING job and a gateway that needs provisioning, the thread is admitted on that job. */
  lemma GateAdmits(s: State, t: nat, pick: nat, newJob: nat)
    requires Enabled(s, ProvGate(t, pick, newJob))
    requires var th := s.prov.threads[t];
      && th.gateway in s.db.gateways && s.db.gateways[th.gateway] in {Pending, Error, Provisioning}
      && th.arg in s.db.jobs && s.db.jobs[th.arg].status == JobPending
    ensures var th := s.prov.threads[t];
      var s' := Apply(s, ProvGate(t, pick, newJob));
      && s'.prov == Pool(s.prov.active, s.prov.threads[t := Thread(th.gateway, th.arg, th.arg, Admitted)])
      && s'.db.jobs[th.arg].status == JobPending && RestSame(s.db, s'.db, -1, th.arg) && s'.del == s.del && s'.now == s.now
  {
  }

  /** With its job gone or RUNNING for more than ten minutes, the thread prepares again and is
      admitted on the PENDING job the query hands out. */
  lemma GatePreparesAgain(s: State, t: nat, pick: nat, newJob: nat)
    requires Enabled(s, ProvGate(t, pick, newJob))
    requires var th := s.prov.threads[t];
      && th.gateway in s.db.gateways && s.db.gateways[th.gateway] in {Pending, Error, Provisioning}
      && (th.arg in s.db.jobs ==> s.db.jobs[th.arg].status == Running && s.now - s.db.jobs[th.arg].updatedAt > 10)
    ensures var th := s.prov.threads[t];
      var s' := Apply(s, ProvGate(t, pick, newJob));
      && s'.prov == Pool(s.prov.active, s.prov.threads[t := Thread(th.gateway, th.arg, pick, Admitted)])
      && pick in s'.db.jobs && s'.db.jobs[pick].status == JobPending && s'.db.jobs[pick].gateway == th.gateway
      && RestSame(Prepare(s.now, s.db, th.gateway, newJob), s'.db, -1, pick) && s'.del == s.del && s'.now == s.now
  {
    hide Prepare, FreshJob;
  }

  // ---------------------------------------------------------------- creating, retrying, asking for a deletion

  lemma CreateOutcome(s: State, g: nat, j: nat)
    requires Enabled(s, CreateStep(g, j))
    ensures var s' := Apply(s, CreateStep(g, j));
      && s'.db.gateways.Keys == s.db.gateways.Keys + {g} && s'.db.jobs.Keys == s.db.jobs.Keys + {j}
      && s'.db.gateways[g] == Pending && s'.db.jobs[j] == Job(CreateGateway, g, JobPending, s.now)
      && (forall h :: h in s.db.gateways ==> s'.db.gateways[h] == s.db.gateways[h])
      && (forall k :: k in s.db.jobs ==> s'.db.jobs[k] == s.db.jobs[k]) && s'.prov == s.prov && s'.del == s.del
  {
  }

  /** The retry button starts a waiting gateway: with no thread on it there is one afterwards, on a
      PENDING job; with its latest create job PENDING and no error, on that job and with no row
      changed. */
  lemma RetryStarts(s: State, t: nat, g: nat, pick: nat, newJob: nat)
    requires Enabled(s, UiRetry(t, g, pick, newJob)) && g in s.db.gateways && g !in s.prov.active
    requires s.db.gateways[g] in {Pending, Error, Provisioning}
    requires forall j: nat :: IsLatest(s.db, g, CreateGateway, j) ==> s.db.gateways[g] == Error || s.db.jobs[j].status != Completed
    ensures var s' := Apply(s, UiRetry(t, g, pick, newJob));
      && s'.prov.active == s.prov.active + {g} && t in s'.prov.threads
      && (exists j: nat :: IsPendingOf(s'.db, g, j) && s'.prov.threads == s.prov.threads[t := Thread(g, j, j, Spawned)])
      && forall j: nat :: IsLatest(s.db, g, CreateGateway, j) && s.db.jobs[j].status == JobPending && s.db.gateways[g] != Error ==>
           s'.db == s.db && s'.prov.threads[t].job == j
  {
    hide Prepare, FreshJob;
    var s' := Apply(s, UiRetry(t, g, pick, newJob));
    forall j: nat | IsLatest(s.db, g, CreateGateway, j) ensures Latest(s.db, g, CreateGateway) == Some(j) { LatestIs(s.db, g, CreateGateway, j); }
    assert IsPendingOf(s'.db, g, s'.prov.threads[t].job);
  }

  /** It does nothing to a gateway that is READY or DELETING, or whose job is COMPLETED without an error. */
  lemma RetryRefuses(s: State, t: nat, g: nat, pick: nat, newJob: nat)
    requires Enabled(s, UiRetry(t, g, pick, newJob))
    requires g in s.db.gateways && s.db.gateways[g] != Ready && s.db.gateways[g] != Deleting ==>
      s.db.gateways[g] != Error && exists j: nat :: IsLatest(s.db, g, CreateGateway, j) && s.db.jobs[j].status == Completed
    ensures Apply(s, UiRetry(t, g, pick, newJob)) == s
  {
    if g in s.db.gateways && !(s.db.gateways[g] in {Ready, Deleting}) {
      var j: nat :| IsLatest(s.db, g, CreateGateway, j) && s.db.jobs[j].status == Completed;
      LatestIs(s.db, g, CreateGateway, j);
    }
  }

  predicate StillServes(db: Db, g: nat, j: nat)
    requires j in db.jobs && g in db.gateways
  {
    db.jobs[j].status == JobPending || (db.jobs[j].status == Running && db.gateways[g] == Deleting)
  }

  /** A delete request leaves the gateway DELETING. It keeps a latest delete job that is PENDING,
      or RUNNING under a gateway already DELETING, and otherwise adds a PENDING one. */
  lemma RequestOutcome(s: State, g: nat, newJob: nat)
    requires Enabled(s, DeleteRequest(g, newJob))
    ensures var s' := Apply(s, DeleteRequest(g, newJob));
      var kept := exists j: nat :: IsLatest(s.db, g, DeleteGateway, j) && StillServes(s.db, g, j);
      && s'.db.gateways[g] == Deleting && s'.prov == s.prov && s'.del == s.del && s'.now == s.now
      && s'.db.gateways.Keys == s.db.gateways.Keys && (forall h :: h in s.db.gateways && h != g ==> s'.db.gateways[h] == s.db.gateways[h])
      && (kept ==> s'.db.jobs == s.db.jobs)
      && (!kept ==> s'.db.jobs == s.db.jobs[newJob := Job(DeleteGateway, g, JobPending, s.now)])
  {
    forall j: nat | IsLatest(s.db, g, DeleteGateway, j) ensures Latest(s.db, g, DeleteGateway) == Some(j) { LatestIs(s.db, g, DeleteGateway, j); }
  }

  // ---------------------------------------------------------------- a deletion thread's commits

  /** A live delete job of a DELETING gateway is admitted; a stale one becomes PENDING first. */
  lemma DeletionGateAdmits(s: State, t: nat)
    requires At(s.del, t, {Spawned})
    requires var th := s.del.threads[t];
      IsDeleting(s.db, th.gateway) && th.job in s.db.jobs && s.db.jobs[th.job].status in {JobPending, Running}
    ensures var th := s.del.threads[t];
      var s' := Apply(s, DelGateStep(t));
      && NowIn(s.del, s'.del, t, Admitted) && RestSame(s.db, s'.db, -1, th.job) && s'.prov == s.prov && s'.now == s.now
      && (if s.db.jobs[th.job].status == Running && s.now - s.db.jobs[th.job].updatedAt > 10 then s'.db.jobs[th.job].status == JobPending
          else s'.db == s.db)
  {
  }

  /** With the gateway gone the job is COMPLETED; when it is not DELETING, or the job is gone or
      dead, nothing changes. Either way the thread is finished. */
  lemma DeletionGateRefuses(s: State, t: nat)
    requires At(s.del, t, {Spawned})
    requires var th := s.del.threads[t];
      !(IsDeleting(s.db, th.gateway) && th.job in s.db.jobs && s.db.jobs[th.job].status in {JobPending, Running})
    ensures var th := s.del.threads[t];
      var s' := Apply(s, DelGateStep(t));
      && NowIn(s.del, s'.del, t, Finished) && RestSame(s.db, s'.db, -1, th.job) && s'.prov == s.prov && s'.now == s.now
      && (th.gateway in s.db.gateways ==> s'.db == s.db)
      && (th.gateway !in s.db.gateways && th.job in s.db.jobs ==> s'.db.jobs[th.job].status == Completed)
  {
  }

  lemma DeletionBeginOutcome(s: State, t: nat)
    requires At(s.del, t, {Admitted})
    ensures var th := s.del.threads[t];
      var s' := Apply(s, DelBeginStep(t));
      && RestSame(s.db, s'.db, -1, th.job) && s'.prov == s.prov && s'.now == s.now
      && (th.job in s.db.jobs ==> s'.db.jobs[th.job].status == Running && NowIn(s.del, s'.del, t, Begun))
      && (th.job !in s.db.jobs ==> NowIn(s.del, s'.del, t, Finished))
  {
  }

  /** Executing a deletion removes the gateway and all its jobs, whatever its status, and no other
      row; with the gateway gone already it completes the job. */
  lemma DeletionRemoves(s: State, t: nat)
    requires At(s.del, t, {Begun})
    ensures var g := s.del.threads[t].gateway;
      var s' := Apply(s, DelExecuteStep(t));
      && NowIn(s.del, s'.del, t, Finished) && s'.prov == s.prov && s'.now == s.now
      && g !in s'.db.gateways
      && (g in s.db.gateways ==>
            && s'.db.gateways.Keys == s.db.gateways.Keys - {g}
            && (forall h :: h in s.db.gateways && h != g ==> s'.db.gateways[h] == s.db.gateways[h])
            && (forall k :: k in s'.db.jobs ==> k in s.db.jobs && s'.db.jobs[k].gateway != g)
            && (forall k :: k in s.db.jobs && s.db.jobs[k].gateway != g ==> k in s'.db.jobs && s'.db.jobs[k] == s.db.jobs[k]))
      && (g !in s.db.gateways ==>
            && RestSame(s.db, s'.db, -1, s.del.threads[t].job)
            && (s.del.threads[t].job in s.db.jobs ==> s'.db.jobs[s.del.threads[t].job].status == Completed))
  {
  }

  lemma DeletionFailureOutcome(s: State, t: nat)
    requires At(s.del, t, {Begun})
    ensures var th := s.del.threads[t];
      var s' := Apply(s, DelFailStep(t));
      && NowIn(s.del, s'.del, t, Finished) && RestSame(s.db, s'.db, th.gateway, th.job) && s'.prov == s.prov && s'.now == s.now
      && (th.gateway in s.db.gateways ==> s'.db.gateways[th.gateway] == Error)
      && (th.job in s.db.jobs ==> s'.db.jobs[th.job].status == Failed)
  {
  }

  lemma DeletionEndOutcome(s: State, t: nat)
    requires At(s.del, t, {Finished})
    ensures var s' := Apply(s, DelDiscard(t));
      && t !in s'.del.threads && s.del.threads[t].gateway !in s'.del.active
      && (forall g :: g != s.del.threads[t].gateway ==> (g in s'.del.active <==> g in s.del.active))
      && (forall u :: u in s.del.threads && u != t ==> u in s'.del.threads && s'.del.threads[u] == s.del.threads[u])
      && s'.db == s.db && s'.prov == s.prov && s'.now == s.now
  {
  }

  /** The deletion sweep adds a job to a DELETING gateway that has none and starts on it; it leaves
      alone a gateway that is active or not DELETING, and one whose latest job is dead or freshly
      RUNNING. */
  lemma DeletionSweepOutcome(s: State, t: nat, g: nat, newJob: nat)
    requires Enabled(s, SweepDel(t, g, newJob))
    ensures var s' := Apply(s, SweepDel(t, g, newJob));
      && (IsDeleting(s.db, g) && g !in s.del.active && (forall j: nat :: !IsJobOf(s.db, g, DeleteGateway, j)) ==>
            && s'.db.gateways == s.db.gateways && s'.db.jobs == s.db.jobs[newJob := Job(DeleteGateway, g, JobPending, s.now)]
            && s'.del == Pool(s.del.active + {g}, s.del.threads[t := Thread(g, newJob, newJob, Spawned)]))
      && (!IsDeleting(s.db, g) || g in s.del.active ==> s' == s)
      && forall j: nat :: IsLatest(s.db, g, DeleteGateway, j) && s.db.jobs[j].status != JobPending ==>
           (s.db.jobs[j].status != Running || s.now - s.db.jobs[j].updatedAt <= 10 ==> s' == s)
  {
    forall j: nat | IsLatest(s.db, g, DeleteGateway, j) ensures Latest(s.db, g, DeleteGateway) == Some(j) { LatestIs(s.db, g, DeleteGateway, j); }
  }

  // ---------------------------------------------------------------- a deletion carried through

  predicate Deleted(db: Db, g: nat) {
    g !in db.gateways && forall k :: k in db.jobs ==> db.jobs[k].gateway != g
  }

  lemma ExecuteRun(s: State, t: nat, g: nat)
    requires At(s.del, t, {Begun}) && s.del.threads[t].gateway == g && g in s.db.gateways
    ensures Valid(s, [DelExecuteStep(t)]) && Deleted(After(s, [DelExecuteStep(t)]).db, g)
  {
    DeletionRemoves(s, t);
    NoSteps(Apply(s, DelExecuteStep(t)));
    hide Apply, RestSame, NowIn;
    Chain(s, DelExecuteStep(t), []);
    assert [DelExecuteStep(t)] + [] == [DelExecuteStep(t)];
  }

  lemma BeginRun(s: State, t: nat, g: nat)
    requires At(s.del, t, {Admitted}) && s.del.threads[t].gateway == g && g in s.db.gateways && s.del.threads[t].job in s.db.jobs
    ensures var run := [DelBeginStep(t), DelExecuteStep(t)];
      Valid(s, run) && Deleted(After(s, run).db, g)
  {
    DeletionBeginOutcome(s, t);
    hide Apply, Deleted;
    ExecuteRun(Apply(s, DelBeginStep(t)), t, g);
    Chain(s, DelBeginStep(t), [DelExecuteStep(t)]);
    assert [DelBeginStep(t)] + [DelExecuteStep(t)] == [DelBeginStep(t), DelExecuteStep(t)];
  }

  lemma GateRun(s: State, t: nat, g: nat, j: nat)
    requires t in s.del.threads && s.del.threads[t] == Thread(g, j, j, Spawned)
    requires IsDeleting(s.db, g) && j in s.db.jobs && s.db.jobs[j].status == JobPending
    ensures var run := [DelGateStep(t), DelBeginStep(t), DelExecuteStep(t)];
      Valid(s, run) && Deleted(After(s, run).db, g)
  {
    DeletionGateAdmits(s, t);
    hide Apply, Deleted;
    BeginRun(Apply(s, DelGateStep(t)), t, g);
    Chain(s, DelGateStep(t), [DelBeginStep(t), DelExecuteStep(t)]);
    assert [DelGateStep(t)] + [DelBeginStep(t), DelExecuteStep(t)] == [DelGateStep(t), DelBeginStep(t), DelExecuteStep(t)];
  }

  /** From any state with the deletion invariant, a DELETING gateway without a deletion thread can
      be deleted: eleven minutes, a sweep, the gate, the begin and the execution are an enabled run
      that ends with the gateway and all its jobs gone. */
  lemma DeletionCanComplete(s: State, g: nat, t: nat, newJob: nat)
    requires DelInv(s) && IsDeleting(s.db, g) && g !in s.del.active && t !in s.del.threads && FreshJob(s, newJob)
    ensures var run := [Tick(11), SweepDel(t, g, newJob), DelGateStep(t), DelBeginStep(t), DelExecuteStep(t)];
      Valid(s, run) && Deleted(After(s, run).db, g)
  {
    var j: nat :| IsLatest(s.db, g, DeleteGateway, j) && Live(s.db.jobs[j].status);
    TimesOk(s);
    hide DelInv;
    var s1 := Apply(s, Tick(11));
    assert s1 == s.(now := s.now + 11);
    assert FreshJob(s1, newJob);
    DeletionIsRestarted(s1, g, j, t, newJob);
    var s2 := Apply(s1, SweepDel(t, g, newJob));
    GateRun(s2, t, g, j);
    hide Apply, Enabled, FreshJob, Deleted;
    var last := [DelGateStep(t), DelBeginStep(t), DelExecuteStep(t)];
    assert Enabled(s, Tick(11)) by { TickEnabled(s, 11); }
    Chain(s1, SweepDel(t, g, newJob), last);
    Chain(s, Tick(11), [SweepDel(t, g, newJob)] + last);
    assert [Tick(11)] + ([SweepDel(t, g, newJob)] + last) == [Tick(11), SweepDel(t, g, newJob), DelGateStep(t), DelBeginStep(t), DelExecuteStep(t)];
  }

  lemma TickEnabled(s: State, minutes: nat)
    ensures Enabled(s, Tick(minutes))
  {
  }

  // ---------------------------------------------------------------- a provisioning carried through

  predicate Provisioned(s: State, g: nat, j: nat, t: nat) {
    g in s.db.gateways && s.db.gateways[g] == Ready && j in s.db.jobs && s.db.jobs[j].status == Completed &&
    t !in s.prov.threads && g !in s.prov.active
  }

  predicate WorksOn(s: State, t: nat, g: nat, j: nat, phase: Phase) {
    t in s.prov.threads && s.prov.threads[t].gateway == g && s.prov.threads[t].job == j && s.prov.threads[t].phase == phase &&
    g in s.db.gateways && j in s.db.jobs
  }

  lemma CloseRun(s: State, t: nat, g: nat, j: nat)
    requires WorksOn(s, t, g, j, Settled) && s.db.gateways[g] == Ready
    ensures var run := [ProvClose(t), ProvDiscard(t)];
      Valid(s, run) && Provisioned(After(s, run), g, j, t)
  {
    CloseOutcome(s, t);
    var s1 := Apply(s, ProvClose(t));
    EndOutcome(s1, t);
    var s2 := Apply(s1, ProvDiscard(t));
    assert Provisioned(s2, g, j, t);
    NoSteps(s2);
    hide Apply, RestSame, NowIn, Provisioned;
    Chain(s1, ProvDiscard(t), []);
    Chain(s, ProvClose(t), [ProvDiscard(t)]);
    assert [ProvDiscard(t)] + [] == [ProvDiscard(t)] && [ProvClose(t)] + [ProvDiscard(t)] == [ProvClose(t), ProvDiscard(t)];
  }

  lemma SettleRun(s: State, t: nat, g: nat, j: nat)
    requires WorksOn(s, t, g, j, Launched)
    ensures var run := [ProvSettle(t, true), ProvClose(t), ProvDiscard(t)];
      Valid(s, run) && Provisioned(After(s, run), g, j, t)
  {
    SettleOutcome(s, t, true);
    hide Apply, Provisioned;
    CloseRun(Apply(s, ProvSettle(t, true)), t, g, j);
    Chain(s, ProvSettle(t, true), [ProvClose(t), ProvDiscard(t)]);
    assert [ProvSettle(t, true)] + [ProvClose(t), ProvDiscard(t)] == [ProvSettle(t, true), ProvClose(t), ProvDiscard(t)];
  }

  lemma LaunchRun(s: State, t: nat, g: nat, j: nat)
    requires WorksOn(s, t, g, j, Begun)
    ensures var run := [ProvLaunch(t), ProvSettle(t, true), ProvClose(t), ProvDiscard(t)];
      Valid(s, run) && Provisioned(After(s, run), g, j, t)
  {
    LaunchOutcome(s, t);
    hide Apply, Provisioned;
    SettleRun(Apply(s, ProvLaunch(t)), t, g, j);
    Chain(s, ProvLaunch(t), [ProvSettle(t, true), ProvClose(t), ProvDiscard(t)]);
    assert [ProvLaunch(t)] + [ProvSettle(t, true), ProvClose(t), ProvDiscard(t)] ==
      [ProvLaunch(t), ProvSettle(t, true), ProvClose(t), ProvDiscard(t)];
  }

  lemma AdmittedRun(s: State, t: nat, g: nat, j: nat)
    requires WorksOn(s, t, g, j, Admitted)
    ensures var run := [ProvBegin(t), ProvLaunch(t), ProvSettle(t, true), ProvClose(t), ProvDiscard(t)];
      Valid(s, run) && Provisioned(After(s, run), g, j, t)
  {
    BeginOutcome(s, t);
    hide Apply, Provisioned;
    var rest := [ProvLaunch(t), ProvSettle(t, true), ProvClose(t), ProvDiscard(t)];
    LaunchRun(Apply(s, ProvBegin(t)), t, g, j);
    Chain(s, ProvBegin(t), rest);
    assert [ProvBegin(t)] + rest == [ProvBegin(t), ProvLaunch(t), ProvSettle(t, true), ProvClose(t), ProvDiscard(t)];
  }

  /** A thread spawned on the PENDING job of a gateway that needs provisioning can carry it
      through: the gateway is READY, the job COMPLETED, and neither thread nor active id remains. */
  lemma ProvisioningCanComplete(s: State, t: nat, g: nat, j: nat, pick: nat, newJob: nat)
    requires Enabled(s, ProvGate(t, pick, newJob)) && s.prov.threads[t] == Thread(g, j, j, Spawned)
    requires g in s.db.gateways && s.db.gateways[g] in {Pending, Error, Provisioning} && IsPendingOf(s.db, g, j)
    ensures var run := [ProvGate(t, pick, newJob), ProvBegin(t), ProvLaunch(t), ProvSettle(t, true), ProvClose(t), ProvDiscard(t)];
      Valid(s, run) && Provisioned(After(s, run), g, j, t)
  {
    GateAdmits(s, t, pick, newJob);
    hide Apply, Provisioned, Enabled;
    var s1 := Apply(s, ProvGate(t, pick, newJob));
    var rest := [ProvBegin(t), ProvLaunch(t), ProvSettle(t, true), ProvClose(t), ProvDiscard(t)];
    AdmittedRun(s1, t, g, j);
    Chain(s, ProvGate(t, pick, newJob), rest);
    assert [ProvGate(t, pick, newJob)] + rest ==
      [ProvGate(t, pick, newJob), ProvBegin(t), ProvLaunch(t), ProvSettle(t, true), ProvClose(t), ProvDiscard(t)];
  }
}
