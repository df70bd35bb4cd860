/** What the recovery sweep and the retry button do to one gateway: the sweep starts exactly
    the gateways it should, and the retry button strands a gateway exactly when its thread
    has committed an ERROR outcome but not closed its job. */
module LifecycleRecovery {
  import opened Common
  import opened Lifecycle
  import opened LifecycleSafety
  import opened LifecycleNoStranding

  lemma LatestIs(db: Db, g: nat, kind: JobKind, j: nat)
    requires IsLatest(db, g, kind, j)
    ensures Latest(db, g, kind) == Some(j)
  {
    var k := Latest(db, g, kind).value;
    assert IsJobOf(db, g, kind, k) && IsJobOf(db, g, kind, j);
  }

  lemma OnlyCreateIsLatest(db: Db, g: nat, c: nat)
    requires OnlyCreateJob(db, g, c)
    ensures Latest(db, g, CreateGateway) == Some(c)
  {
    assert IsLatest(db, g, CreateGateway, c);
    LatestIs(db, g, CreateGateway, c);
  }

  /** The gateways a sweep must start. */
  ghost predicate Resumable(db: Db, g: nat) {
    g in db.gateways && NeedsProvisioning(db.gateways[g]) && CreateLive(db, g)
  }

  /** One sweep iteration with no thread on the gateway: it spawns a thread on a PENDING job
      of that gateway if the gateway needs provisioning and its create job is PENDING or
      RUNNING, and does nothing at all otherwise. */
  lemma SweepStartsExactly(s: State, t: nat, g: nat, pick: nat, newJob: nat)
    requires Inv(s) && g !in s.prov.active && Enabled(s, SweepProv(t, g, pick, newJob))
    ensures var s' := Apply(s, SweepProv(t, g, pick, newJob));
      if Resumable(s.db, g) then
        && g in s'.prov.active && t in s'.prov.threads
        && s'.prov.threads[t] == Thread(g, s'.prov.threads[t].arg, s'.prov.threads[t].arg, Spawned)
        && IsPendingOf(s'.db, g, s'.prov.threads[t].arg)
      else s' == s
  {
    if g in s.db.gateways {
      NotStranded(s, g);
      var c: nat :| OnlyCreateJob(s.db, g, c);
      OnlyCreateIsLatest(s.db, g, c);
      assert CreateLive(s.db, g) <==> Live(s.db.jobs[c].status);
    }
  }

  /** Once no thread is active, the next sweep starts a waiting gateway. */
  lemma WaitingIsPickedUp(s: State, t: nat, g: nat, pick: nat, newJob: nat)
    requires Inv(s) && g in s.db.gateways && Waiting(s.db.gateways[g]) && g !in s.prov.active
    requires Enabled(s, SweepProv(t, g, pick, newJob))
    ensures g in Apply(s, SweepProv(t, g, pick, newJob)).prov.active
  {
    NotStranded(s, g);
    SweepStartsExactly(s, t, g, pick, newJob);
  }

  /** A stranded gateway is invisible to every later sweep. */
  lemma StrandedIsIgnored(s: State, t: nat, g: nat, pick: nat, newJob: nat)
    requires Stranded(s.db, g) && (exists c: nat :: OnlyCreateJob(s.db, g, c))
    requires Enabled(s, SweepProv(t, g, pick, newJob))
    ensures Apply(s, SweepProv(t, g, pick, newJob)) == s
  {
    var c: nat :| OnlyCreateJob(s.db, g, c);
    OnlyCreateIsLatest(s.db, g, c);
  }

  /** Thread `u` has committed its outcome and works on the gateway's create job. If the
      retry button is pressed now and the thread then closes its job, the gateway ends up
      stranded if and only if the outcome now in the row is ERROR. */
  lemma RetryStrandsExactlyOnError(s: State, u: nat, t: nat, pick: nat, newJob: nat)
    requires Inv(s) && At(s.prov, u, {Settled})
    requires var th := s.prov.threads[u];
      th.gateway in s.db.gateways && IsJobOf(s.db, th.gateway, CreateGateway, th.job)
    requires Enabled(s, UiRetry(t, s.prov.threads[u].gateway, pick, newJob))
    ensures var g := s.prov.threads[u].gateway;
      var s1 := Apply(s, UiRetry(t, g, pick, newJob));
      Enabled(s1, ProvClose(u)) &&
      (Stranded(Apply(s1, ProvClose(u)).db, g) <==> s.db.gateways[g] == Error)
  {
    var th := s.prov.threads[u];
    var g, c := th.gateway, th.job;
    SettledFacts(s, u);
    OnlyCreateIsLatest(s.db, g, c);
    hide Inv, FreshJob, PickOk, OnlyCreateJob;
    var plan := RetryPlan(s.now, s.db, g, pick, newJob);
    var s1 := Follow(s, plan, t, g);
    assert s1.prov == s.prov;
    if s.db.gateways[g] == Error {
      PrepareEffect(s.now, s.db, g, newJob);
      assert IsJobOf(Close(s1, u).db, g, CreateGateway, c);
    }
  }

  lemma SettledFacts(s: State, u: nat)
    requires Inv(s) && At(s.prov, u, {Settled})
    requires var th := s.prov.threads[u];
      th.gateway in s.db.gateways && IsJobOf(s.db, th.gateway, CreateGateway, th.job)
    ensures var th := s.prov.threads[u];
      && OnlyCreateJob(s.db, th.gateway, th.job) && th.gateway in s.prov.active
      && !Waiting(s.db.gateways[th.gateway]) && DbOk(s.db)
  {
    var th := s.prov.threads[u];
    NotStranded(s, th.gateway);
    assert ThreadOk(s.db, th);
  }

  /** One gateway, its create job and its thread, as the run below goes through them. */
  function Single(status: GatewayStatus, job: JobStatus, phase: Phase): State {
    State(0, Db(map[1 := status], map[1 := Job(CreateGateway, 1, job, 0)]),
          Pool({1}, map[1 := Thread(1, 1, 1, phase)]), Idle)
  }

  lemma SingleLatest(status: GatewayStatus, job: JobStatus, phase: Phase)
    ensures Latest(Single(status, job, phase).db, 1, CreateGateway) == Some(1)
  {
    assert IsJobOf(Single(status, job, phase).db, 1, CreateGateway, 1);
    OnlyCreateIsLatest(Single(status, job, phase).db, 1, 1);
  }

  lemma SingleStart()
    ensures Reachable(Fresh, Single(Pending, JobPending, Spawned))
  {
    NoSteps(Fresh);
    Extend(Fresh, Fresh, CreateStep(1, 1));
    var s1 := Apply(Fresh, CreateStep(1, 1));
    assert s1 == State(0, Db(map[1 := Pending], map[1 := Job(CreateGateway, 1, JobPending, 0)]), Idle, Idle);
    Extend(Fresh, s1, StartProv(1, 1, 1));
    assert Apply(s1, StartProv(1, 1, 1)) == Single(Pending, JobPending, Spawned);
  }

  lemma SingleGate()
    ensures Goes(Single(Pending, JobPending, Spawned), ProvGate(1, 1, 2), Single(Pending, JobPending, Admitted))
  {
    SingleLatest(Pending, JobPending, Spawned);
  }

  lemma SingleRetry()
    ensures Goes(Single(Error, Running, Settled), UiRetry(2, 1, 1, 2), Single(Pending, JobPending, Settled))
  {
    SingleLatest(Error, Running, Settled);
  }

  lemma SingleWork()
    ensures Goes(Single(Pending, JobPending, Admitted), ProvBegin(1), Single(Pending, Running, Begun))
    ensures Goes(Single(Pending, Running, Begun), ProvLaunch(1), Single(Provisioning, Running, Launched))
  {
  }

  lemma SingleOutcome()
    ensures Goes(Single(Provisioning, Running, Launched), ProvSettle(1, false), Single(Error, Running, Settled))
    ensures Goes(Single(Pending, JobPending, Settled), ProvClose(1), Single(Pending, Completed, Finished))
  {
  }

  /** The run behind it, from an empty system: create, start, gate, begin, launch, a failed
      health check, retry, close. It ends with a PENDING gateway whose job is COMPLETED. */
  lemma StrandingRun()
    ensures exists s :: Reachable(Fresh, s) && Stranded(s.db, 1)
  {
    SingleStart();
    SingleGate();
    SingleWork();
    SingleOutcome();
    SingleRetry();
    hide Reachable, Goes;
    ExtendTo(Fresh, Single(Pending, JobPending, Spawned), ProvGate(1, 1, 2), Single(Pending, JobPending, Admitted));
    ExtendTo(Fresh, Single(Pending, JobPending, Admitted), ProvBegin(1), Single(Pending, Running, Begun));
    ExtendTo(Fresh, Single(Pending, Running, Begun), ProvLaunch(1), Single(Provisioning, Running, Launched));
    ExtendTo(Fresh, Single(Provisioning, Running, Launched), ProvSettle(1, false), Single(Error, Running, Settled));
    ExtendTo(Fresh, Single(Error, Running, Settled), UiRetry(2, 1, 1, 2), Single(Pending, JobPending, Settled));
    ExtendTo(Fresh, Single(Pending, JobPending, Settled), ProvClose(1), Single(Pending, Completed, Finished));
    assert IsJobOf(Single(Pending, Completed, Finished).db, 1, CreateGateway, 1);
  }
}
