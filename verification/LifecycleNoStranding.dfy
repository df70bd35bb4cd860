/** No stranded gateway: a gateway that waits for provisioning always has a create job that
    a sweep will start. The row invariant behind it, and the exact hypothesis it needs. */
module LifecycleNoStranding {
  import opened Common
  import opened Lifecycle
  import opened LifecycleSafety

  predicate Waiting(status: GatewayStatus) {
    status == Pending || status == Provisioning
  }

  /** `c` is the one create job of `g`. */
  ghost predicate OnlyCreateJob(db: Db, g: nat, c: nat) {
    IsJobOf(db, g, CreateGateway, c) && forall d: nat :: IsJobOf(db, g, CreateGateway, d) ==> d == c
  }

  ghost predicate CreateLive(db: Db, g: nat) {
    forall c: nat :: IsJobOf(db, g, CreateGateway, c) ==> Live(db.jobs[c].status)
  }

  /** Waiting for provisioning with a create job that is neither PENDING nor RUNNING. */
  ghost predicate Stranded(db: Db, g: nat) {
    g in db.gateways && Waiting(db.gateways[g]) && !CreateLive(db, g)
  }

  ghost predicate GatewayOk(db: Db, g: nat) {
    (exists c: nat :: OnlyCreateJob(db, g, c)) && !Stranded(db, g)
  }

  ghost predicate DbOk(db: Db) {
    && (forall j :: j in db.jobs ==> db.jobs[j].gateway in db.gateways)
    && (forall g :: g in db.gateways ==> GatewayOk(db, g))
  }

  predicate Held(db: Db, g: nat, j: nat) {
    j in db.jobs ==> db.jobs[j].gateway == g
  }

  /** Threads on whose gateway the create job is known to be live: past the gate, or about
      to reach it with a delete job that the unordered query handed out. */
  predicate InFlight(db: Db, th: Thread) {
    match th.phase
    case Spawned => th.arg in db.jobs && db.jobs[th.arg].kind == DeleteGateway
    case Finished => false
    case _ => true
  }

  ghost predicate ThreadOk(db: Db, th: Thread) {
    && Held(db, th.gateway, th.arg) && Held(db, th.gateway, th.job)
    && (InFlight(db, th) ==> CreateLive(db, th.gateway))
    && (th.phase == Settled && th.gateway in db.gateways ==> !Waiting(db.gateways[th.gateway]))
    && (th.phase in {Admitted, Begun, Launched, Settled} && th.gateway in db.gateways ==> th.job in db.jobs)
  }

  ghost predicate DelThreadOk(db: Db, th: Thread) {
    th.arg == th.job && (th.job in db.jobs ==> IsJobOf(db, th.gateway, DeleteGateway, th.job))
  }

  ghost predicate Inv(s: State) {
    && PoolOk(s.prov) && PoolOk(s.del) && DbOk(s.db)
    && (forall t :: t in s.prov.threads ==> ThreadOk(s.db, s.prov.threads[t]))
    && (forall t :: t in s.del.threads ==> DelThreadOk(s.db, s.del.threads[t]))
  }

  /** The one demand on outside callers of `prepare_provisioning`: the retry button is not
      pressed on an ERROR gateway whose thread has committed its outcome but not yet closed
      its job. Never pressing it while the gateway is in `_active` is more than enough. */
  ghost predicate RetryAllowed(s: State, step: Step) {
    step.UiRetry? && step.g in s.db.gateways && s.db.gateways[step.g] == Error ==>
      !Closing(s, step.g)
  }

  ghost predicate Closing(s: State, g: nat) {
    exists t :: t in s.prov.threads && s.prov.threads[t].gateway == g && s.prov.threads[t].phase == Settled
  }

  // ---------------------------------------------------------------- framing

  /** Only rows of gateway `g` differ, job rows keep kind and owner, and a row that is new
      belongs to `g` and has id `newJob` (-1 when there is none). */
  ghost predicate OnlyTouches(db: Db, db': Db, g: nat, newJob: int) {
    && (forall h :: h != g ==> (h in db.gateways <==> h in db'.gateways))
    && (forall h :: h != g && h in db.gateways ==> db'.gateways[h] == db.gateways[h])
    && (forall j: nat :: j in db.jobs && db.jobs[j].gateway != g ==> j in db'.jobs && db'.jobs[j].status == db.jobs[j].status)
    && (forall j: nat :: j in db'.jobs && j in db.jobs ==> db'.jobs[j].kind == db.jobs[j].kind && db'.jobs[j].gateway == db.jobs[j].gateway)
    && (forall j: nat :: j in db'.jobs && j !in db.jobs ==> j == newJob && db'.jobs[j].gateway == g)
  }

  lemma OtherGateway(db: Db, db': Db, g: nat, newJob: int, h: nat)
    requires OnlyTouches(db, db', g, newJob) && h != g
    ensures forall c: nat, kind :: IsJobOf(db, h, kind, c) <==> IsJobOf(db', h, kind, c)
    ensures CreateLive(db, h) <==> CreateLive(db', h)
    ensures GatewayOk(db, h) && h in db.gateways ==> GatewayOk(db', h)
  {
    assert forall c: nat, kind :: IsJobOf(db, h, kind, c) <==> IsJobOf(db', h, kind, c);
    if GatewayOk(db, h) && h in db.gateways {
      var c: nat :| OnlyCreateJob(db, h, c);
      assert OnlyCreateJob(db', h, c);
    }
  }

  lemma OtherThread(db: Db, db': Db, g: nat, newJob: int, th: Thread)
    requires OnlyTouches(db, db', g, newJob) && ThreadOk(db, th) && th.gateway != g && th.arg != newJob && th.job != newJob
    ensures ThreadOk(db', th)
  {
    OtherGateway(db, db', g, newJob, th.gateway);
  }

  lemma OtherDelThread(db: Db, db': Db, g: nat, newJob: int, th: Thread)
    requires OnlyTouches(db, db', g, newJob) && DelThreadOk(db, th) && th.job != newJob
    ensures DelThreadOk(db', th)
  {
  }

  lemma DbKept(db: Db, db': Db, g: nat, newJob: int)
    requires DbOk(db) && OnlyTouches(db, db', g, newJob)
    requires g in db'.gateways ==> GatewayOk(db', g)
    requires g !in db'.gateways ==> forall j :: j in db'.jobs ==> db'.jobs[j].gateway != g
    ensures DbOk(db')
  {
    forall h | h in db'.gateways ensures GatewayOk(db', h) {
      if h != g { OtherGateway(db, db', g, newJob, h); }
    }
    forall j | j in db'.jobs ensures db'.jobs[j].gateway in db'.gateways {
      if db'.jobs[j].gateway != g { assert j in db.jobs; }
    }
  }

  /** A step that touches rows of `g` only, and moves or starts threads of `g` only. */
  lemma Kept(s: State, s': State, g: nat, newJob: int)
    requires Inv(s) && PoolOk(s'.prov) && PoolOk(s'.del)
    requires OnlyTouches(s.db, s'.db, g, newJob)
    requires g in s'.db.gateways ==> GatewayOk(s'.db, g)
    requires g !in s'.db.gateways ==> forall j :: j in s'.db.jobs ==> s'.db.jobs[j].gateway != g
    requires forall t :: t in s'.prov.threads ==>
      var th := s'.prov.threads[t];
      ThreadOk(s'.db, th) ||
      (th.gateway != g && th.arg != newJob && th.job != newJob && t in s.prov.threads && th == s.prov.threads[t])
    requires forall t :: t in s'.del.threads ==>
      var th := s'.del.threads[t];
      DelThreadOk(s'.db, th) || (th.job != newJob && t in s.del.threads && th == s.del.threads[t])
    ensures Inv(s')
  {
    DbKept(s.db, s'.db, g, newJob);
    forall t | t in s'.prov.threads ensures ThreadOk(s'.db, s'.prov.threads[t]) {
      var th := s'.prov.threads[t];
      if !ThreadOk(s'.db, th) { OtherThread(s.db, s'.db, g, newJob, th); }
    }
    forall t | t in s'.del.threads ensures DelThreadOk(s'.db, s'.del.threads[t]) {
      var th := s'.del.threads[t];
      if !DelThreadOk(s'.db, th) { OtherDelThread(s.db, s'.db, g, newJob, th); }
    }
  }

  // ---------------------------------------------------------------- effects of the row writes

  /** `db'` is `db` with other statuses or times on rows of `g`. */
  ghost predicate Rewrites(db: Db, db': Db, g: nat) {
    && db'.gateways.Keys == db.gateways.Keys
    && (forall h :: h in db.gateways && h != g ==> db'.gateways[h] == db.gateways[h])
    && db'.jobs.Keys == db.jobs.Keys
    && (forall j :: j in db.jobs ==> db'.jobs[j].kind == db.jobs[j].kind && db'.jobs[j].gateway == db.jobs[j].gateway)
    && (forall j :: j in db.jobs && db.jobs[j].gateway != g ==> db'.jobs[j].status == db.jobs[j].status)
  }

  lemma RewritesTouches(db: Db, db': Db, g: nat)
    requires Rewrites(db, db', g)
    ensures OnlyTouches(db, db', g, -1)
    ensures forall j: nat, h, kind :: IsJobOf(db', h, kind, j) <==> IsJobOf(db, h, kind, j)
    ensures forall c: nat, h :: OnlyCreateJob(db, h, c) <==> OnlyCreateJob(db', h, c)
  {
    assert forall j: nat, h, kind :: IsJobOf(db', h, kind, j) <==> IsJobOf(db, h, kind, j);
    forall c: nat, h ensures OnlyCreateJob(db, h, c) <==> OnlyCreateJob(db', h, c) {
      if OnlyCreateJob(db', h, c) {
        assert forall d: nat :: IsJobOf(db, h, CreateGateway, d) ==> IsJobOf(db', h, CreateGateway, d);
      }
    }
  }

  /** Re-establishing the gateway's own part after a rewrite. */
  lemma RewritesGateway(db: Db, db': Db, g: nat)
    requires DbOk(db) && g in db.gateways && Rewrites(db, db', g)
    requires Waiting(db'.gateways[g]) ==> CreateLive(db', g)
    ensures GatewayOk(db', g)
  {
    RewritesTouches(db, db', g);
    var c: nat :| OnlyCreateJob(db, g, c);
    assert OnlyCreateJob(db', g, c);
  }

  /** A thread keeps its invariant when a rewrite leaves its gateway's create job live and
      does not send a closing gateway back to waiting. */
  lemma RewritesThread(db: Db, db': Db, g: nat, th: Thread)
    requires Rewrites(db, db', g) && ThreadOk(db, th)
    requires th.gateway == g && InFlight(db, th) ==> CreateLive(db', g)
    requires th.gateway == g && th.phase == Settled && g in db.gateways ==> !Waiting(db'.gateways[g])
    ensures ThreadOk(db', th)
  {
    RewritesTouches(db, db', g);
    if th.gateway != g { OtherThread(db, db', g, -1, th); }
  }

  /** `prepare_provisioning` never adds a job here, resets the one create job to PENDING and
      moves the gateway from ERROR to PENDING. */
  lemma PrepareEffect(now: int, db: Db, g: nat, newJob: nat)
    requires DbOk(db) && g in db.gateways
    ensures var db' := Prepare(now, db, g, newJob);
      && Rewrites(db, db', g) && GatewayOk(db', g) && CreateLive(db', g)
      && db'.gateways[g] == (if db.gateways[g] == Error then Pending else db.gateways[g])
      && (exists c: nat :: OnlyCreateJob(db, g, c) && Latest(db, g, CreateGateway) == Some(c) && IsPendingOf(db', g, c))
      && (forall j :: j in db.jobs && db.jobs[j].kind == DeleteGateway ==> db'.jobs[j] == db.jobs[j])
  {
    var c: nat :| OnlyCreateJob(db, g, c);
    LatestExists(db, g, CreateGateway, c);
    assert Latest(db, g, CreateGateway) == Some(c);
    var db' := Prepare(now, db, g, newJob);
    assert Rewrites(db, db', g);
    RewritesTouches(db, db', g);
    assert OnlyCreateJob(db', g, c);
    assert CreateLive(db', g);
  }

  /** A rewrite of the rows of `g`, with the provisioning pool moving thread `t` of `g` (or
      no thread) and the deletion pool moving threads in a way that keeps their jobs. */
  lemma RewriteKept(s: State, s': State, g: nat)
    requires Inv(s) && PoolOk(s'.prov) && PoolOk(s'.del)
    requires g in s.db.gateways && Rewrites(s.db, s'.db, g)
    requires Waiting(s'.db.gateways[g]) ==> CreateLive(s'.db, g)
    requires forall t :: t in s'.prov.threads ==>
      var th := s'.prov.threads[t];
      ThreadOk(s'.db, th) || (th.gateway != g && t in s.prov.threads && th == s.prov.threads[t])
    requires forall t :: t in s'.del.threads ==>
      var th := s'.del.threads[t];
      DelThreadOk(s'.db, th) || (t in s.del.threads && th == s.del.threads[t])
    ensures Inv(s')
  {
    RewritesTouches(s.db, s'.db, g);
    RewritesGateway(s.db, s'.db, g);
    Kept(s, s', g, -1);
  }

  // ---------------------------------------------------------------- callers of start_provisioning

  lemma StartKept(s: State, t: nat, g: nat, j: nat)
    requires Inv(s) && t !in s.prov.threads && (j in s.db.jobs ==> IsJobOf(s.db, g, CreateGateway, j))
    ensures Inv(s.(prov := Start(s.prov, t, g, j)))
  {
    StartKeepsPool(s.prov, t, g, j);
  }

  lemma PrepareStartKept(s: State, t: nat, g: nat, pick: nat, newJob: nat)
    requires Inv(s) && t !in s.prov.threads && g in s.db.gateways && PickOk(s, g, pick, newJob)
    requires s.db.gateways[g] == Error ==> !Closing(s, g)
    ensures Inv(Follow(s, Plan(Prepare(s.now, s.db, g, newJob), Some(pick)), t, g))
  {
    hide PoolOk, DbOk, ThreadOk, DelThreadOk, Prepare, Rewrites, CreateLive, GatewayOk;
    var s1 := s.(db := Prepare(s.now, s.db, g, newJob));
    PreparedKept(s, g, newJob);
    var s2 := s1.(prov := Start(s1.prov, t, g, pick));
    StartKeepsPool(s1.prov, t, g, pick);
    PrepareEffect(s.now, s.db, g, newJob);
    forall u | u in s2.prov.threads ensures ThreadOk(s2.db, s2.prov.threads[u]) {
      if u !in s1.prov.threads { NewThread(s2.db, g, pick); }
    }
  }

  lemma NewThread(db: Db, g: nat, j: nat)
    requires j in db.jobs ==> db.jobs[j].gateway == g && (db.jobs[j].kind == DeleteGateway ==> CreateLive(db, g))
    ensures ThreadOk(db, Thread(g, j, j, Spawned))
  {
  }

  lemma PreparedKept(s: State, g: nat, newJob: nat)
    requires Inv(s) && g in s.db.gateways
    requires s.db.gateways[g] == Error ==> !Closing(s, g)
    ensures Inv(s.(db := Prepare(s.now, s.db, g, newJob)))
  {
    hide PoolOk, DbOk, DelThreadOk, Prepare;
    var s' := s.(db := Prepare(s.now, s.db, g, newJob));
    PrepareEffect(s.now, s.db, g, newJob);
    forall u | u in s'.prov.threads ensures ThreadOk(s'.db, s'.prov.threads[u]) {
      RewritesThread(s.db, s'.db, g, s.prov.threads[u]);
    }
    RewriteKept(s, s', g);
  }

  lemma SweepKept(s: State, t: nat, g: nat, pick: nat, newJob: nat)
    requires Inv(s) && t !in s.prov.threads && PickOk(s, g, pick, newJob)
    ensures Inv(Follow(s, SweepPlan(s.now, s.db, s.prov.active, g, pick, newJob), t, g))
  {
    hide Inv, Prepare, PickOk;
    var plan := SweepPlan(s.now, s.db, s.prov.active, g, pick, newJob);
    if plan.db == s.db && plan.start == None {
      assert Follow(s, plan, t, g) == s;
    } else if plan.db == s.db && plan.start == Latest(s.db, g, CreateGateway) {
      StartKept(s, t, g, plan.start.value);
      assert Follow(s, plan, t, g) == s.(prov := Start(s.prov, t, g, plan.start.value));
    } else {
      NotClosing(s, g);
      PrepareStartKept(s, t, g, pick, newJob);
    }
  }

  lemma NotClosing(s: State, g: nat)
    requires Inv(s) && g !in s.prov.active
    ensures !Closing(s, g)
  {
  }

  lemma RetryKept(s: State, t: nat, g: nat, pick: nat, newJob: nat)
    requires Inv(s) && t !in s.prov.threads && PickOk(s, g, pick, newJob)
    requires RetryAllowed(s, UiRetry(t, g, pick, newJob))
    ensures Inv(Follow(s, RetryPlan(s.now, s.db, g, pick, newJob), t, g))
  {
    hide Inv, Prepare, PickOk;
    var plan := RetryPlan(s.now, s.db, g, pick, newJob);
    if plan.db == s.db && plan.start == None {
      assert Follow(s, plan, t, g) == s;
    } else if plan.db == s.db && plan.start == Latest(s.db, g, CreateGateway) {
      StartKept(s, t, g, plan.start.value);
      assert Follow(s, plan, t, g) == s.(prov := Start(s.prov, t, g, plan.start.value));
    } else {
      PrepareStartKept(s, t, g, pick, newJob);
    }
  }

  // ---------------------------------------------------------------- provisioning thread steps

  /** Thread `t` rewrites rows of its own gateway and moves on. */
  lemma ThreadKept(s: State, t: nat, db': Db, th': Thread)
    requires Inv(s) && t in s.prov.threads && th'.gateway == s.prov.threads[t].gateway && th'.gateway in s.db.gateways
    requires Rewrites(s.db, db', th'.gateway)
    requires Waiting(db'.gateways[th'.gateway]) ==> CreateLive(db', th'.gateway)
    requires ThreadOk(db', th')
    ensures Inv(s.(db := db', prov := s.prov.(threads := s.prov.threads[t := th'])))
  {
    hide DbOk, ThreadOk, DelThreadOk, CreateLive, GatewayOk, Rewrites;
    UpdateKeepsPool(s.prov, t, th');
    RewriteKept(s, s.(db := db', prov := s.prov.(threads := s.prov.threads[t := th'])), th'.gateway);
  }

  /** Thread `t` moves without writing a row. */
  lemma MoveKept(s: State, t: nat, th': Thread)
    requires Inv(s) && t in s.prov.threads && th'.gateway == s.prov.threads[t].gateway
    requires ThreadOk(s.db, th')
    ensures Inv(s.(prov := s.prov.(threads := s.prov.threads[t := th'])))
  {
    hide DbOk, ThreadOk, DelThreadOk;
    UpdateKeepsPool(s.prov, t, th');
  }

  lemma FinishKept(s: State, t: nat)
    requires Inv(s) && t in s.prov.threads
    ensures Inv(s.(prov := Move(s.prov, t, Finished)))
  {
    MoveKept(s, t, s.prov.threads[t].(phase := Finished));
  }

  lemma RestartKept(s: State, t: nat)
    requires Inv(s) && At(s.prov, t, {Spawned, Admitted, Begun, Launched, Settled})
    ensures Inv(s.(prov := Restart(s.prov, t)))
  {
    var th := s.prov.threads[t];
    MoveKept(s, t, th.(phase := Spawned, job := th.arg));
  }

  lemma ProvDiscardKept(s: State, t: nat)
    requires Inv(s) && t in s.prov.threads
    ensures Inv(s.(prov := Discard(s.prov, t)))
  {
    hide PoolOk, DbOk, ThreadOk, DelThreadOk;
    DiscardKeepsPool(s.prov, t);
  }

  lemma GateKept(s: State, t: nat, pick: nat, newJob: nat)
    requires Inv(s) && At(s.prov, t, {Spawned}) && PickOk(s, s.prov.threads[t].gateway, pick, newJob)
    ensures Inv(Gate(s, t, pick, newJob))
  {
    hide Inv, Prepare, FreshJob;
    var th := s.prov.threads[t];
    if th.gateway !in s.db.gateways || !NeedsProvisioning(s.db.gateways[th.gateway]) {
      FinishKept(s, t);
    } else if GatePrepares(s.now, s.db, th) {
      GateNotClosing(s, t);
      PreparedKept(s, th.gateway, newJob);
      var s1 := s.(db := Prepare(s.now, s.db, th.gateway, newJob));
      assert DbOk(s.db) by { InvDb(s); }
      PrepareEffect(s.now, s.db, th.gateway, newJob);
      TakeKept(s1, t, pick);
    } else if s.db.jobs[th.arg].status == JobPending {
      GateLive(s, t);
      TakeKept(s, t, th.arg);
    } else {
      FinishKept(s, t);
    }
  }

  lemma InvDb(s: State)
    requires Inv(s)
    ensures DbOk(s.db)
  {
  }

  lemma GateNotClosing(s: State, t: nat)
    requires Inv(s) && At(s.prov, t, {Spawned})
    ensures !Closing(s, s.prov.threads[t].gateway)
  {
  }

  /** A thread admitted on a pending job finds its gateway's create job live. */
  lemma GateLive(s: State, t: nat)
    requires Inv(s) && At(s.prov, t, {Spawned})
    requires var th := s.prov.threads[t];
      th.gateway in s.db.gateways && NeedsProvisioning(s.db.gateways[th.gateway]) && th.arg in s.db.jobs && s.db.jobs[th.arg].status == JobPending
    ensures CreateLive(s.db, s.prov.threads[t].gateway)
    ensures IsPendingOf(s.db, s.prov.threads[t].gateway, s.prov.threads[t].arg)
  {
    var th := s.prov.threads[t];
    assert ThreadOk(s.db, th);
    if s.db.jobs[th.arg].kind == CreateGateway {
      NotStranded(s, th.gateway);
      var c: nat :| OnlyCreateJob(s.db, th.gateway, c);
      assert IsJobOf(s.db, th.gateway, CreateGateway, th.arg);
    }
  }

  lemma TakeKept(s: State, t: nat, job: nat)
    requires Inv(s) && At(s.prov, t, {Spawned}) && s.prov.threads[t].gateway in s.db.gateways
    requires IsPendingOf(s.db, s.prov.threads[t].gateway, job) && CreateLive(s.db, s.prov.threads[t].gateway)
    ensures Inv(s.(db := Touch(s.now, s.db, job), prov := Take(s.prov, t, job)))
  {
    var th := s.prov.threads[t];
    var db' := Touch(s.now, s.db, job);
    RewritesTouches(s.db, db', th.gateway);
    ThreadKept(s, t, db', th.(phase := Admitted, job := job));
  }

  lemma BeginKept(s: State, t: nat)
    requires Inv(s) && At(s.prov, t, {Admitted})
    ensures Inv(Begin(s, t))
  {
    hide PoolOk, DbOk;
    var th := s.prov.threads[t];
    if !RowsThere(s.db, th) { FinishKept(s, t); } else {
      assert ThreadOk(s.db, th);
      var db' := Touch(s.now, SetJob(s.now, s.db, th.job, Running), th.job);
      RewritesTouches(s.db, db', th.gateway);
      ThreadKept(s, t, db', th.(phase := Begun));
    }
  }

  lemma LaunchKept(s: State, t: nat)
    requires Inv(s) && At(s.prov, t, {Begun})
    ensures Inv(Launch(s, t))
  {
    hide PoolOk, DbOk;
    var th := s.prov.threads[t];
    if !RowsThere(s.db, th) { FinishKept(s, t); } else {
      assert ThreadOk(s.db, th);
      var db' := Touch(s.now, SetGateway(s.db, th.gateway, Provisioning), th.job);
      RewritesTouches(s.db, db', th.gateway);
      ThreadKept(s, t, db', th.(phase := Launched));
    }
  }

  lemma SettleKept(s: State, t: nat, ok: bool)
    requires Inv(s) && At(s.prov, t, {Launched})
    ensures Inv(Settle(s, t, ok))
  {
    hide PoolOk, DbOk;
    var th := s.prov.threads[t];
    if !RowsThere(s.db, th) { FinishKept(s, t); } else {
      assert ThreadOk(s.db, th);
      var db' := SetGateway(s.db, th.gateway, if ok then Ready else Error);
      RewritesTouches(s.db, db', th.gateway);
      ThreadKept(s, t, db', th.(phase := Settled));
    }
  }

  lemma CloseKept(s: State, t: nat)
    requires Inv(s) && At(s.prov, t, {Settled})
    ensures Inv(Close(s, t))
  {
    hide PoolOk, DbOk;
    var th := s.prov.threads[t];
    assert ThreadOk(s.db, th);
    var db' := Touch(s.now, SetJob(s.now, s.db, th.job, Completed), th.job);
    if th.job !in s.db.jobs { FinishKept(s, t); } else {
      assert s.db.jobs[th.job].gateway in s.db.gateways by { JobHasGateway(s, th.job); }
      RewritesTouches(s.db, db', th.gateway);
      ThreadKept(s, t, db', th.(phase := Finished));
    }
  }

  lemma JobHasGateway(s: State, j: nat)
    requires Inv(s) && j in s.db.jobs
    ensures s.db.jobs[j].gateway in s.db.gateways
  {
  }

  lemma FailKept(s: State, t: nat)
    requires Inv(s) && At(s.prov, t, {Begun, Launched, Settled})
    ensures Inv(Fail(s, t))
  {
    hide PoolOk, DbOk;
    var th := s.prov.threads[t];
    if !RowsThere(s.db, th) { FinishKept(s, t); } else {
      assert ThreadOk(s.db, th);
      var db' := SetJob(s.now, SetGateway(s.db, th.gateway, Error), th.job, Failed);
      RewritesTouches(s.db, db', th.gateway);
      ThreadKept(s, t, db', th.(phase := Finished));
    }
  }

  lemma HeartbeatKept(s: State, t: nat)
    requires Inv(s) && t in s.prov.threads
    ensures Inv(s.(db := Touch(s.now, s.db, s.prov.threads[t].job)))
  {
    hide PoolOk, DbOk;
    var th := s.prov.threads[t];
    assert ThreadOk(s.db, th);
    if th.job in s.db.jobs {
      JobHasGateway(s, th.job);
      var db' := Touch(s.now, s.db, th.job);
      RewritesTouches(s.db, db', th.gateway);
      NotStranded(s, th.gateway);
      ThreadKept(s, t, db', th);
      assert s.prov.threads[t := th] == s.prov.threads;
    }
  }

  lemma NotStranded(s: State, g: nat)
    requires Inv(s) && g in s.db.gateways
    ensures !Stranded(s.db, g)
    ensures exists c: nat :: OnlyCreateJob(s.db, g, c)
  {
    assert GatewayOk(s.db, g);
  }

  // ---------------------------------------------------------------- the other steps

  lemma CreateTouches(now: int, db: Db, g: nat, j: nat)
    requires DbOk(db) && g !in db.gateways && j !in db.jobs
    ensures OnlyTouches(db, Create(now, db, g, j), g, j)
    ensures OnlyCreateJob(Create(now, db, g, j), g, j) && GatewayOk(Create(now, db, g, j), g)
  {
    var db' := Create(now, db, g, j);
    assert forall k :: k in db.jobs ==> db.jobs[k].gateway != g;
    assert OnlyCreateJob(db', g, j);
  }

  lemma CreateKept(s: State, g: nat, j: nat)
    requires Inv(s) && FreshGateway(s, g) && FreshJob(s, j)
    ensures Inv(s.(db := Create(s.now, s.db, g, j)))
  {
    hide PoolOk, DbOk, ThreadOk, DelThreadOk, OnlyTouches, GatewayOk;
    CreateTouches(s.now, s.db, g, j);
    Kept(s, s.(db := Create(s.now, s.db, g, j)), g, j);
  }

  lemma ThreadFacts(db: Db, th: Thread)
    requires ThreadOk(db, th)
    ensures InFlight(db, th) ==> CreateLive(db, th.gateway)
    ensures th.phase == Settled && th.gateway in db.gateways ==> !Waiting(db.gateways[th.gateway])
  {
  }

  /** Rewriting a delete job, or a status that is not a waiting one, disturbs no thread. */
  lemma DeleteRewriteKept(s: State, db': Db, g: nat, del': Pool)
    requires Inv(s) && g in s.db.gateways && Rewrites(s.db, db', g)
    requires db'.gateways[g] == s.db.gateways[g] || !Waiting(db'.gateways[g])
    requires forall j :: j in s.db.jobs && s.db.jobs[j].kind == CreateGateway ==> db'.jobs[j].status == s.db.jobs[j].status
    requires PoolOk(del') && forall t :: t in del'.threads ==> DelThreadOk(s.db, del'.threads[t])
    ensures Inv(s.(db := db', del := del'))
  {
    hide PoolOk, DbOk, ThreadOk, DelThreadOk;
    var s1 := s.(del := del');
    RewritesTouches(s.db, db', g);
    assert CreateLive(s.db, g) ==> CreateLive(db', g);
    NotStranded(s, g);
    forall t | t in s.prov.threads ensures ThreadOk(db', s.prov.threads[t]) {
      var th := s.prov.threads[t];
      ThreadFacts(s.db, th);
      RewritesThread(s.db, db', g, th);
    }
    RewriteKept(s1, s1.(db := db'), g);
  }

  lemma DelPhaseKept(s: State, t: nat, db': Db, phase: Phase)
    requires Inv(s) && t in s.del.threads
    requires db' == s.db || var g := s.del.threads[t].gateway;
      g in s.db.gateways && Rewrites(s.db, db', g) &&
      (db'.gateways[g] == s.db.gateways[g] || !Waiting(db'.gateways[g])) &&
      forall j :: j in s.db.jobs && s.db.jobs[j].kind == CreateGateway ==> db'.jobs[j].status == s.db.jobs[j].status
    ensures Inv(s.(db := db', del := Move(s.del, t, phase)))
  {
    UpdateKeepsPool(s.del, t, s.del.threads[t].(phase := phase));
    hide PoolOk, DbOk, ThreadOk, Rewrites;
    if db' != s.db {
      DeleteRewriteKept(s, db', s.del.threads[t].gateway, Move(s.del, t, phase));
    }
  }

  lemma DelThreadFacts(s: State, t: nat)
    requires Inv(s) && t in s.del.threads
    ensures s.del.threads[t].arg == s.del.threads[t].job
    ensures var th := s.del.threads[t];
      th.job in s.db.jobs ==> th.gateway in s.db.gateways && IsJobOf(s.db, th.gateway, DeleteGateway, th.job)
  {
    assert DelThreadOk(s.db, s.del.threads[t]);
  }

  lemma DelGateKept(s: State, t: nat)
    requires Inv(s) && t in s.del.threads
    ensures Inv(DelGate(s, t)) && Inv(DelBegin(s, t)) && Inv(DelFail(s, t))
    ensures Inv(s.(del := Move(s.del, t, Finished)))
  {
    hide Inv;
    DelThreadFacts(s, t);
    DelPhaseKept(s, t, DelGate(s, t).db, DelGate(s, t).del.threads[t].phase);
    DelPhaseKept(s, t, DelBegin(s, t).db, DelBegin(s, t).del.threads[t].phase);
    DelPhaseKept(s, t, DelFail(s, t).db, Finished);
    DelPhaseKept(s, t, s.db, Finished);
  }

  lemma DelRestartKept(s: State, t: nat)
    requires Inv(s) && t in s.del.threads
    ensures Inv(s.(del := Restart(s.del, t)))
  {
    hide Inv;
    DelThreadFacts(s, t);
    DelPhaseKept(s, t, s.db, Spawned);
    assert Restart(s.del, t) == Move(s.del, t, Spawned);
    assert s.(db := s.db, del := Move(s.del, t, Spawned)) == s.(del := Restart(s.del, t));
  }

  lemma DelDiscardKept(s: State, t: nat)
    requires Inv(s) && t in s.del.threads
    ensures Inv(s.(del := Discard(s.del, t)))
  {
    hide PoolOk, DbOk, ThreadOk, DelThreadOk;
    DiscardKeepsPool(s.del, t);
  }

  lemma RemovalTouches(db: Db, g: nat)
    ensures OnlyTouches(db, RemoveGateway(db, g), g, -1)
    ensures forall j :: j in RemoveGateway(db, g).jobs ==> RemoveGateway(db, g).jobs[j].gateway != g
  {
  }

  lemma RemovedThread(db: Db, th: Thread)
    requires ThreadOk(db, th)
    ensures ThreadOk(RemoveGateway(db, th.gateway), th)
  {
  }

  lemma RemovedDelThread(db: Db, g: nat, th: Thread)
    requires DelThreadOk(db, th)
    ensures DelThreadOk(RemoveGateway(db, g), th)
  {
  }

  /** The row removal: every row of the gateway goes, so its threads hold dangling ids. */
  lemma DelExecuteKept(s: State, t: nat)
    requires Inv(s) && t in s.del.threads
    ensures Inv(DelExecute(s, t))
  {
    hide PoolOk, DbOk, ThreadOk, OnlyTouches, RemoveGateway;
    var g := s.del.threads[t].gateway;
    if g in s.db.gateways {
      DelPhaseKept(s, t, s.db, Finished);
      var s1, s' := s.(db := s.db, del := Move(s.del, t, Finished)), DelExecute(s, t);
      hide DelThreadOk;
      RemovalTouches(s.db, g);
      assert g !in s'.db.gateways by { RemovedGateway(s.db, g); }
      forall u | u in s'.prov.threads && s'.prov.threads[u].gateway == g ensures ThreadOk(s'.db, s'.prov.threads[u]) {
        RemovedThread(s.db, s.prov.threads[u]);
      }
      forall u | u in s'.del.threads ensures DelThreadOk(s'.db, s'.del.threads[u]) {
        RemovedDelThread(s.db, g, s1.del.threads[u]);
      }
      Kept(s1, s', g, -1);
    } else {
      DelThreadFacts(s, t);
      DelPhaseKept(s, t, s.db, Finished);
    }
  }

  lemma RemovedGateway(db: Db, g: nat)
    ensures g !in RemoveGateway(db, g).gateways
  {
  }

  lemma RequestKept(s: State, g: nat, newJob: nat)
    requires Inv(s) && g in s.db.gateways && FreshJob(s, newJob)
    ensures Inv(s.(db := RequestDelete(s.now, s.db, g, newJob).0))
  {
    var db1 := SetGateway(s.db, g, Deleting);
    assert Inv(s.(db := db1)) by {
      hide Inv;
      assert PoolOk(s.del) && forall t :: t in s.del.threads ==> DelThreadOk(s.db, s.del.threads[t]) by { DelPart(s); }
      DeleteRewriteKept(s, db1, g, s.del);
      assert s.(db := db1, del := s.del) == s.(db := db1);
    }
    hide Inv;
    AddDeleteJobKept(s.(db := db1), g, newJob);
  }

  lemma DelPart(s: State)
    requires Inv(s)
    ensures PoolOk(s.del) && forall t :: t in s.del.threads ==> DelThreadOk(s.db, s.del.threads[t])
  {
  }

  lemma AddDeleteJobKept(s: State, g: nat, newJob: nat)
    requires Inv(s) && g in s.db.gateways && FreshJob(s, newJob)
    ensures Inv(s.(db := AddJob(s.now, s.db, newJob, DeleteGateway, g)))
  {
    hide PoolOk;
    var db' := AddJob(s.now, s.db, newJob, DeleteGateway, g);
    NotStranded(s, g);
    var c: nat :| OnlyCreateJob(s.db, g, c);
    assert forall d: nat :: IsJobOf(db', g, CreateGateway, d) <==> IsJobOf(s.db, g, CreateGateway, d);
    assert OnlyCreateJob(db', g, c);
    assert OnlyTouches(s.db, db', g, newJob);
    forall t | t in s.prov.threads ensures ThreadOk(db', s.prov.threads[t]) {
      var th := s.prov.threads[t];
      if th.gateway != g { OtherThread(s.db, db', g, newJob, th); } else { assert ThreadOk(s.db, th); }
    }
    hide DbOk, ThreadOk, DelThreadOk, OnlyTouches;
    Kept(s, s.(db := db'), g, newJob);
  }

  lemma StartDelKept(s: State, t: nat, g: nat, j: nat)
    requires Inv(s) && t !in s.del.threads && (j in s.db.jobs ==> IsJobOf(s.db, g, DeleteGateway, j))
    ensures Inv(s.(del := Start(s.del, t, g, j)))
  {
    hide DbOk, ThreadOk;
    StartKeepsPool(s.del, t, g, j);
  }

  lemma SweepDelKept(s: State, t: nat, g: nat, newJob: nat)
    requires Inv(s) && t !in s.del.threads && FreshJob(s, newJob)
    ensures Inv(FollowDelete(s, DeleteSweepPlan(s.now, s.db, s.del.active, g, newJob), t, g))
  {
    hide Inv, FreshJob;
    var plan := DeleteSweepPlan(s.now, s.db, s.del.active, g, newJob);
    if plan.start == None {
      assert FollowDelete(s, plan, t, g) == s;
    } else if Latest(s.db, g, DeleteGateway) == None {
      AddDeleteJobKept(s, g, newJob);
      StartDelKept(s.(db := plan.db), t, g, newJob);
    } else {
      var j := Latest(s.db, g, DeleteGateway).value;
      DelPart(s);
      DeleteRewriteKept(s, plan.db, g, s.del);
      assert s.(db := plan.db, del := s.del) == s.(db := plan.db);
      StartDelKept(s.(db := plan.db), t, g, j);
    }
  }

  // ---------------------------------------------------------------- the theorem

  lemma StepKeepsInv(s: State, step: Step)
    requires Inv(s) && Enabled(s, step) && RetryAllowed(s, step)
    ensures Inv(Apply(s, step))
  {
    hide Inv, FreshJob, FreshGateway, PickOk, Latest, RequestDelete, SweepPlan, RetryPlan, DeleteSweepPlan;
    hide Gate, Begin, Launch, Settle, Close, Fail, DelGate, DelBegin, DelExecute, DelFail, Start, Move, Restart, Discard;
    match step
    case Tick(m) => TickCrashKept(s, m);
    case Crash => TickCrashKept(s, 0);
    case CreateStep(g, j) => CreateKept(s, g, j);
    case StartProv(t, g, j) => StartKept(s, t, g, j);
    case SweepProv(t, g, pick, newJob) => SweepKept(s, t, g, pick, newJob);
    case UiRetry(t, g, pick, newJob) => RetryKept(s, t, g, pick, newJob);
    case ProvGate(t, pick, newJob) => GateKept(s, t, pick, newJob);
    case ProvBegin(t) => BeginKept(s, t);
    case ProvHeartbeat(t) => HeartbeatKept(s, t);
    case ProvLaunch(t) => LaunchKept(s, t);
    case ProvSettle(t, ok) => SettleKept(s, t, ok);
    case ProvClose(t) => CloseKept(s, t);
    case ProvFail(t) => FailKept(s, t);
    case ProvAbort(t) => FinishKept(s, t);
    case ProvRestart(t) => RestartKept(s, t);
    case ProvDiscard(t) => ProvDiscardKept(s, t);
    case DeleteRequest(g, newJob) => RequestKept(s, g, newJob);
    case StartDel(t, g, j) => StartDelKept(s, t, g, j);
    case SweepDel(t, g, newJob) => SweepDelKept(s, t, g, newJob);
    case DelGateStep(t) => DelGateKept(s, t);
    case DelBeginStep(t) => DelGateKept(s, t);
    case DelExecuteStep(t) => DelExecuteKept(s, t);
    case DelFailStep(t) => DelGateKept(s, t);
    case DelAbort(t) => DelGateKept(s, t);
    case DelRestart(t) => DelRestartKept(s, t);
    case DelDiscard(t) => DelDiscardKept(s, t);
  }

  lemma TickCrashKept(s: State, m: nat)
    requires Inv(s)
    ensures Inv(s.(now := s.now + m)) && Inv(s.(prov := Idle, del := Idle))
  {
  }

  ghost predicate RetriesAllowed(s: State, run: seq<Step>)
    requires Valid(s, run)
    decreases |run|
  {
    run == [] || (RetryAllowed(s, run[0]) && RetriesAllowed(Apply(s, run[0]), run[1..]))
  }

  /** No stranded gateway. Over every interleaving of creates, sweeps, retries, thread steps,
      delete requests and crashes with retries as allowed above: every gateway has exactly
      one create job, and while the gateway is PENDING or PROVISIONING that job is PENDING
      or RUNNING. */
  lemma {:induction false} NoStrandedGateway(s: State, run: seq<Step>)
    requires Inv(s) && Valid(s, run) && RetriesAllowed(s, run)
    ensures Inv(After(s, run))
    ensures forall g :: g in After(s, run).db.gateways ==>
      !Stranded(After(s, run).db, g) && exists c: nat :: OnlyCreateJob(After(s, run).db, g, c)
    decreases |run|
  {
    hide Inv;
    if run == [] {
      forall g | g in s.db.gateways ensures !Stranded(s.db, g) && exists c: nat :: OnlyCreateJob(s.db, g, c) {
        NotStranded(s, g);
      }
    } else {
      StepKeepsInv(s, run[0]);
      NoStrandedGateway(Apply(s, run[0]), run[1..]);
    }
  }

  lemma FreshInv()
    ensures Inv(Fresh)
  {
  }
}
