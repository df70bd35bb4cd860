/** The job behind DELETING: the latest delete job of a DELETING gateway is PENDING or RUNNING
    throughout a run exactly when no provisioning thread closes such a job. A repeated request
    then adds nothing, and a crash never loses a deletion. */
module LifecycleDeleteJob {
  import opened Common
  import opened Lifecycle
  import opened LifecycleSafety
  import opened LifecycleNoStranding
  import opened LifecycleRecovery
  import opened LifecycleDeletion

  // ---------------------------------------------------------------- the invariant

  /** The latest delete job of `g` is PENDING or RUNNING. */
  ghost predicate DeleteLive(db: Db, g: nat) {
    exists j: nat :: IsLatest(db, g, DeleteGateway, j) && Live(db.jobs[j].status)
  }

  /** The jobs a provisioning thread holds are its gateway's, though not always create jobs. */
  ghost predicate ProvHoldsOwn(db: Db, th: Thread) {
    && (th.arg in db.jobs ==> db.jobs[th.arg].gateway == th.gateway)
    && (th.job in db.jobs ==> db.jobs[th.job].gateway == th.gateway)
  }

  /** Kept by every step but one; nothing is asked of the retry button or of the job query. */
  ghost predicate DelInv(s: State) {
    && (forall j :: j in s.db.jobs ==> s.db.jobs[j].gateway in s.db.gateways && s.db.jobs[j].updatedAt <= s.now)
    && (forall g :: IsDeleting(s.db, g) ==> DeleteLive(s.db, g))
    && (forall t :: t in s.prov.threads ==> ProvHoldsOwn(s.db, s.prov.threads[t]))
    && (forall t :: t in s.del.threads ==> DelThreadOk(s.db, s.del.threads[t]))
  }

  /** A provisioning thread marks COMPLETED the delete job of a gateway that is DELETING. */
  ghost predicate ClosesDeletion(s: State, step: Step)
    requires Enabled(s, step)
  {
    step.ProvClose? &&
    var th := s.prov.threads[step.t];
    IsDeleting(s.db, th.gateway) && IsLatest(s.db, th.gateway, DeleteGateway, th.job)
  }

  /** Job rows keep kind and owner, times stay in the past, a live latest delete job of a
      DELETING gateway stays live, and a new row is a create job called `newJob`. */
  ghost predicate CreateSideOnly(s: State, db': Db, newJob: int) {
    && (forall g :: IsDeleting(db', g) ==> IsDeleting(s.db, g))
    && s.db.gateways.Keys <= db'.gateways.Keys
    && (forall j :: j in s.db.jobs ==> j in db'.jobs && db'.jobs[j].kind == s.db.jobs[j].kind && db'.jobs[j].gateway == s.db.jobs[j].gateway)
    && (forall g: nat, j: nat :: IsDeleting(db', g) && IsLatest(s.db, g, DeleteGateway, j) && Live(s.db.jobs[j].status) ==> Live(db'.jobs[j].status))
    && (forall j :: j in db'.jobs && j !in s.db.jobs ==> j == newJob && db'.jobs[j].kind == CreateGateway && db'.jobs[j].gateway in db'.gateways)
    && (forall j :: j in db'.jobs ==> db'.jobs[j].updatedAt <= s.now)
  }

  lemma CreateSideKept(s: State, db': Db, newJob: int, prov': Pool)
    requires DelInv(s) && CreateSideOnly(s, db', newJob)
    requires newJob < 0 || FreshJob(s, newJob)
    requires forall t :: t in prov'.threads ==> ProvHoldsOwn(db', prov'.threads[t]) || (t in s.prov.threads && prov'.threads[t] == s.prov.threads[t])
    ensures DelInv(s.(db := db', prov := prov'))
  {
    forall g | IsDeleting(db', g) ensures DeleteLive(db', g) {
      var j: nat :| IsLatest(s.db, g, DeleteGateway, j) && Live(s.db.jobs[j].status);
      assert forall k: nat :: IsJobOf(db', g, DeleteGateway, k) ==> IsJobOf(s.db, g, DeleteGateway, k);
      assert IsLatest(db', g, DeleteGateway, j);
    }
    forall t | t in prov'.threads ensures ProvHoldsOwn(db', prov'.threads[t]) {
      if !ProvHoldsOwn(db', prov'.threads[t]) { assert ProvHoldsOwn(s.db, s.prov.threads[t]); }
    }
    forall t | t in s.del.threads ensures DelThreadOk(db', s.del.threads[t]) {
      assert DelThreadOk(s.db, s.del.threads[t]);
    }
  }

  lemma PrepareCreateSide(s: State, g: nat, newJob: nat)
    requires DelInv(s) && g in s.db.gateways && FreshJob(s, newJob)
    ensures CreateSideOnly(s, Prepare(s.now, s.db, g, newJob), newJob)
  {
  }

  lemma TouchCreateSide(s: State, db': Db, newJob: int, j: nat)
    requires CreateSideOnly(s, db', newJob)
    ensures CreateSideOnly(s, Touch(s.now, db', j), newJob)
  {
  }

  lemma PlanCreateSide(s: State, plan: Plan, t: nat, g: nat, pick: nat, newJob: nat)
    requires DelInv(s) && t !in s.prov.threads && FreshJob(s, newJob)
    requires g in s.db.gateways ==> IsPendingOf(Prepare(s.now, s.db, g, newJob), g, pick)
    requires plan in {SweepPlan(s.now, s.db, s.prov.active, g, pick, newJob), RetryPlan(s.now, s.db, g, pick, newJob)}
    ensures DelInv(Follow(s, plan, t, g))
  {
    hide DelInv, CreateSideOnly, FreshJob, Prepare;
    var prov' := Follow(s, plan, t, g).prov;
    if g in s.db.gateways { PrepareCreateSide(s, g, newJob); }
    SameCreateSide(s);
    CreateSideKept(s, plan.db, newJob, prov');
  }

  lemma SameCreateSide(s: State)
    requires DelInv(s)
    ensures forall n :: CreateSideOnly(s, s.db, n)
  {
  }

  lemma HeldJob(s: State, t: nat)
    requires DelInv(s) && t in s.prov.threads
    ensures s.prov.threads[t].job in s.db.jobs ==> s.db.jobs[s.prov.threads[t].job].gateway == s.prov.threads[t].gateway
    ensures forall j :: j in s.db.jobs ==> s.db.jobs[j].updatedAt <= s.now
  {
    assert ProvHoldsOwn(s.db, s.prov.threads[t]);
  }

  lemma ProvStepCreateSide(s: State, step: Step)
    requires DelInv(s) && Enabled(s, step)
    requires (ProvisioningStep(step) || step.ProvHeartbeat?) && !ClosesDeletion(s, step)
    ensures CreateSideOnly(s, Apply(s, step).db, -1)
  {
    HeldJob(s, step.t);
    hide DelInv;
    match step
    case ProvBegin(t) =>
    case ProvLaunch(t) =>
    case ProvSettle(t, ok) =>
    case ProvClose(t) =>
    case ProvFail(t) =>
    case ProvHeartbeat(t) =>
  }

  lemma ProvStepThreads(s: State, step: Step)
    requires DelInv(s) && Enabled(s, step) && CreateSideOnly(s, Apply(s, step).db, -1)
    requires ProvisioningStep(step) || step.ProvHeartbeat? || step.ProvAbort? || step.ProvRestart? || step.ProvDiscard?
    ensures forall u :: u in Apply(s, step).prov.threads ==> ProvHoldsOwn(Apply(s, step).db, Apply(s, step).prov.threads[u])
  {
    var s' := Apply(s, step);
    HoldsAll(s);
    hide DelInv, CreateSideOnly, ProvHoldsOwn;
    forall u | u in s'.prov.threads ensures ProvHoldsOwn(s'.db, s'.prov.threads[u]) {
      StepHolds(s, step, u);
      HoldsOn(s, s'.db, s.prov.threads[u], s'.prov.threads[u]);
    }
  }

  lemma HoldsAll(s: State)
    requires DelInv(s)
    ensures forall t :: t in s.prov.threads ==> ProvHoldsOwn(s.db, s.prov.threads[t])
  {
  }

  lemma StepHolds(s: State, step: Step, u: nat)
    requires Enabled(s, step) && u in s.prov.threads && u in Apply(s, step).prov.threads
    requires ProvisioningStep(step) || step.ProvHeartbeat? || step.ProvAbort? || step.ProvRestart? || step.ProvDiscard?
    ensures var th, th' := s.prov.threads[u], Apply(s, step).prov.threads[u];
      th'.gateway == th.gateway && th'.arg == th.arg && (th'.job == th.job || th'.job == th.arg)
  {
  }

  lemma HoldsOn(s: State, db': Db, th: Thread, th': Thread)
    requires CreateSideOnly(s, db', -1) && ProvHoldsOwn(s.db, th)
    requires th'.gateway == th.gateway && th'.arg == th.arg && (th'.job == th.job || th'.job == th.arg)
    ensures ProvHoldsOwn(db', th')
  {
  }

  lemma ProvStepKept(s: State, step: Step)
    requires DelInv(s) && Enabled(s, step)
    requires ProvisioningStep(step) || step.ProvHeartbeat? || step.ProvAbort? || step.ProvRestart? || step.ProvDiscard?
    requires !ClosesDeletion(s, step)
    ensures DelInv(Apply(s, step))
  {
    SameCreateSide(s);
    if ProvisioningStep(step) || step.ProvHeartbeat? { ProvStepCreateSide(s, step); }
    ProvStepThreads(s, step);
    hide DelInv, CreateSideOnly, ProvHoldsOwn;
    var s' := Apply(s, step);
    CreateSideKept(s, s'.db, -1, s'.prov);
    assert s' == s.(db := s'.db, prov := s'.prov);
  }

  lemma GateCreateSide(s: State, t: nat, pick: nat, newJob: nat)
    requires DelInv(s) && Enabled(s, ProvGate(t, pick, newJob))
    ensures DelInv(Gate(s, t, pick, newJob))
  {
    hide DelInv, CreateSideOnly, ProvHoldsOwn, FreshJob, Prepare;
    var s' := Gate(s, t, pick, newJob);
    var g := s.prov.threads[t].gateway;
    SameCreateSide(s);
    TouchCreateSide(s, s.db, newJob, s.prov.threads[t].arg);
    if g in s.db.gateways {
      PrepareCreateSide(s, g, newJob);
      TouchCreateSide(s, Prepare(s.now, s.db, g, newJob), newJob, pick);
    }
    GateThread(s, t, pick, newJob);
    CreateSideKept(s, s'.db, newJob, s'.prov);
    assert s' == s.(db := s'.db, prov := s'.prov);
  }

  lemma GateThread(s: State, t: nat, pick: nat, newJob: nat)
    requires DelInv(s) && Enabled(s, ProvGate(t, pick, newJob))
    ensures ProvHoldsOwn(Gate(s, t, pick, newJob).db, Gate(s, t, pick, newJob).prov.threads[t])
  {
    var th := s.prov.threads[t];
    assert ProvHoldsOwn(s.db, th);
    if th.gateway in s.db.gateways { PrepareCreateSide(s, th.gateway, newJob); }
  }

  // ---------------------------------------------------------------- deletion side steps

  /** Rows of `g` rewritten by a deletion thread or a delete request: if `g` is still
      DELETING, its latest delete job is live; every other gateway is as before. */
  lemma DeleteSideKept(s: State, db': Db, g: nat, newJob: int, del': Pool)
    requires DelInv(s) && g in s.db.gateways && g in db'.gateways
    requires newJob < 0 || FreshJob(s, newJob)
    requires OnlyTouches(s.db, db', g, newJob)
    requires forall j :: j in s.db.jobs ==> j in db'.jobs
    requires forall j :: j in db'.jobs && j !in s.db.jobs ==> db'.jobs[j].kind == DeleteGateway
    requires forall j :: j in db'.jobs ==> db'.jobs[j].updatedAt <= s.now
    requires IsDeleting(db', g) ==> DeleteLive(db', g)
    requires forall t :: t in del'.threads ==> DelThreadOk(db', del'.threads[t]) || (t in s.del.threads && s.del.threads[t] == del'.threads[t])
    ensures DelInv(s.(db := db', del := del'))
  {
    forall h: nat | IsDeleting(db', h) && h != g ensures DeleteLive(db', h) {
      OtherGateway(s.db, db', g, newJob, h);
      assert IsDeleting(s.db, h);
      var j: nat :| IsLatest(s.db, h, DeleteGateway, j) && Live(s.db.jobs[j].status);
      assert IsLatest(db', h, DeleteGateway, j);
    }
    forall t | t in s.prov.threads ensures ProvHoldsOwn(db', s.prov.threads[t]) {
      assert ProvHoldsOwn(s.db, s.prov.threads[t]);
    }
    forall t | t in del'.threads ensures DelThreadOk(db', del'.threads[t]) {
      if !DelThreadOk(db', del'.threads[t]) { assert DelThreadOk(s.db, s.del.threads[t]); }
    }
  }

  /** A rewrite of one delete job of `g` to a live status, or with `g` leaving DELETING. */
  lemma JobRewriteKept(s: State, t: nat, j: nat, status: JobStatus, gateway: GatewayStatus, phase: Phase)
    requires DelInv(s) && t in s.del.threads && s.del.threads[t].job == j && j in s.db.jobs
    requires s.db.jobs[j].gateway in s.db.gateways
    requires (Live(status) && gateway == s.db.gateways[s.db.jobs[j].gateway]) || gateway == Error
    ensures var g := s.db.jobs[j].gateway;
      DelInv(s.(db := SetGateway(SetJob(s.now, s.db, j, status), g, gateway), del := Move(s.del, t, phase)))
  {
    var g := s.db.jobs[j].gateway;
    var db' := SetGateway(SetJob(s.now, s.db, j, status), g, gateway);
    assert DelThreadOk(s.db, s.del.threads[t]);
    assert Rewrites(s.db, db', g);
    RewritesTouches(s.db, db', g);
    if IsDeleting(db', g) {
      assert IsDeleting(s.db, g);
      var k: nat :| IsLatest(s.db, g, DeleteGateway, k) && Live(s.db.jobs[k].status);
      assert IsLatest(db', g, DeleteGateway, k);
    }
    var del' := Move(s.del, t, phase);
    assert DelThreadOk(db', del'.threads[t]);
    hide DelInv, ProvHoldsOwn, Rewrites, OnlyTouches;
    assert forall k :: k in db'.jobs ==> db'.jobs[k].updatedAt <= s.now by { TimesOk(s); }
    DeleteSideKept(s, db', g, -1, del');
  }

  lemma TimesOk(s: State)
    requires DelInv(s)
    ensures forall k :: k in s.db.jobs ==> s.db.jobs[k].updatedAt <= s.now && s.db.jobs[k].gateway in s.db.gateways
  {
  }

  lemma DelMoveKept(s: State, t: nat, phase: Phase)
    requires DelInv(s) && t in s.del.threads
    ensures DelInv(s.(del := Move(s.del, t, phase)))
  {
    assert DelThreadOk(s.db, s.del.threads[t]);
  }

  lemma JobWriteKept(s: State, t: nat, status: JobStatus, phase: Phase)
    requires DelInv(s) && t in s.del.threads && Live(status)
    ensures DelInv(s.(db := SetJob(s.now, s.db, s.del.threads[t].job, status), del := Move(s.del, t, phase)))
  {
    hide DelInv;
    var j := s.del.threads[t].job;
    DelMoveKept(s, t, phase);
    if j in s.db.jobs {
      TimesOk(s);
      var g := s.db.jobs[j].gateway;
      JobRewriteKept(s, t, j, status, s.db.gateways[g], phase);
      assert s.db.gateways[g := s.db.gateways[g]] == s.db.gateways;
    } else {
      assert s.(db := s.db, del := Move(s.del, t, phase)) == s.(del := Move(s.del, t, phase));
    }
  }

  lemma DelFailKept(s: State, t: nat)
    requires DelInv(s) && t in s.del.threads
    ensures DelInv(DelFail(s, t))
  {
    var g, j := s.del.threads[t].gateway, s.del.threads[t].job;
    OwnJob(s, t);
    if j in s.db.jobs {
      JobRewriteKept(s, t, j, Failed, Error, Finished);
    } else if g in s.db.gateways {
      ErrorKept(s, g);
      DelMoveKept(s.(db := SetGateway(s.db, g, Error)), t, Finished);
    } else {
      DelMoveKept(s, t, Finished);
    }
  }

  lemma OwnJob(s: State, t: nat)
    requires DelInv(s) && t in s.del.threads
    ensures var g, j := s.del.threads[t].gateway, s.del.threads[t].job;
      j in s.db.jobs ==> s.db.jobs[j].gateway == g && g in s.db.gateways
  {
    assert DelThreadOk(s.db, s.del.threads[t]);
  }

  lemma ErrorKept(s: State, g: nat)
    requires DelInv(s) && g in s.db.gateways
    ensures DelInv(s.(db := SetGateway(s.db, g, Error)))
  {
    var db' := SetGateway(s.db, g, Error);
    TimesOk(s);
    hide DelInv, ProvHoldsOwn;
    DeleteSideKept(s, db', g, -1, s.del);
    assert s.(db := db', del := s.del) == s.(db := db');
  }

  lemma DelGateInv(s: State, t: nat)
    requires DelInv(s) && t in s.del.threads
    ensures DelInv(DelGate(s, t))
  {
    OwnJob(s, t);
    hide DelInv;
    var s' := DelGate(s, t);
    var j := s.del.threads[t].job;
    if s'.db == s.db {
      DelMoveKept(s, t, s'.del.threads[t].phase);
      assert s' == s.(del := Move(s.del, t, s'.del.threads[t].phase));
    } else {
      JobWriteKept(s, t, JobPending, Admitted);
    }
  }

  lemma RemoveKept(s: State, g: nat)
    requires DelInv(s)
    ensures DelInv(s.(db := RemoveGateway(s.db, g)))
  {
    var db' := RemoveGateway(s.db, g);
    forall h: nat | IsDeleting(db', h) ensures DeleteLive(db', h) {
      assert IsDeleting(s.db, h);
      var j: nat :| IsLatest(s.db, h, DeleteGateway, j) && Live(s.db.jobs[j].status);
      assert forall k: nat :: IsJobOf(db', h, DeleteGateway, k) ==> IsJobOf(s.db, h, DeleteGateway, k);
      assert IsLatest(db', h, DeleteGateway, j);
    }
    forall t | t in s.prov.threads ensures ProvHoldsOwn(db', s.prov.threads[t]) {
      assert ProvHoldsOwn(s.db, s.prov.threads[t]);
    }
    forall t | t in s.del.threads ensures DelThreadOk(db', s.del.threads[t]) {
      RemovedDelThread(s.db, g, s.del.threads[t]);
    }
  }

  lemma DelExecuteInv(s: State, t: nat)
    requires DelInv(s) && t in s.del.threads
    ensures DelInv(DelExecute(s, t))
  {
    OwnJob(s, t);
    hide DelInv, RemoveGateway;
    var g := s.del.threads[t].gateway;
    if g in s.db.gateways {
      RemoveKept(s, g);
      DelMoveKept(s.(db := RemoveGateway(s.db, g)), t, Finished);
    } else {
      DelMoveKept(s, t, Finished);
      assert DelExecute(s, t) == s.(del := Move(s.del, t, Finished));
    }
  }

  /** Marking `g` DELETING with the given row as its latest, live delete job. */
  lemma MarkKept(s: State, db': Db, g: nat, newJob: int, j: nat)
    requires DelInv(s) && g in s.db.gateways && (newJob < 0 || FreshJob(s, newJob))
    requires db'.gateways == s.db.gateways || db'.gateways == s.db.gateways[g := Deleting]
    requires if newJob < 0 then Rewrites(s.db, db', g) else db'.jobs == s.db.jobs[newJob as nat := Job(DeleteGateway, g, JobPending, s.now)]
    requires forall k :: k in db'.jobs ==> db'.jobs[k].updatedAt <= s.now
    requires IsLatest(db', g, DeleteGateway, j) && Live(db'.jobs[j].status)
    ensures DelInv(s.(db := db'))
  {
    if newJob < 0 { RewritesTouches(s.db, db', g); }
    hide DelInv, ProvHoldsOwn, Rewrites;
    assert OnlyTouches(s.db, db', g, newJob);
    assert forall k :: k in db'.jobs && k !in s.db.jobs ==> db'.jobs[k].kind == DeleteGateway;
    assert DeleteLive(db', g);
    hide OnlyTouches, FreshJob;
    DeleteSideKept(s, db', g, newJob, s.del);
    assert s.(db := db', del := s.del) == s.(db := db');
  }

  lemma FreshIsLatest(s: State, gateways: map<nat, GatewayStatus>, g: nat, newJob: nat)
    requires FreshJob(s, newJob)
    ensures IsLatest(AddJob(s.now, Db(gateways, s.db.jobs), newJob, DeleteGateway, g), g, DeleteGateway, newJob)
  {
  }

  lemma RequestInv(s: State, g: nat, newJob: nat)
    requires DelInv(s) && g in s.db.gateways && FreshJob(s, newJob)
    ensures DelInv(s.(db := RequestDelete(s.now, s.db, g, newJob).0))
  {
    TimesOk(s);
    hide DelInv;
    var db' := RequestDelete(s.now, s.db, g, newJob).0;
    var existing := Latest(s.db, g, DeleteGateway);
    if db' == s.db {
      assert s.(db := db') == s;
    } else if existing.Some? && s.db.jobs[existing.value].status == JobPending {
      RewritesTouches(s.db, db', g);
      assert IsLatest(db', g, DeleteGateway, existing.value);
      MarkKept(s, db', g, -1, existing.value);
    } else {
      FreshIsLatest(s, s.db.gateways[g := Deleting], g, newJob);
      MarkKept(s, db', g, newJob, newJob);
    }
  }

  lemma StartDelInv(s: State, t: nat, g: nat, j: nat)
    requires DelInv(s) && t !in s.del.threads && (j in s.db.jobs ==> IsJobOf(s.db, g, DeleteGateway, j))
    ensures DelInv(s.(del := Start(s.del, t, g, j)))
  {
  }

  lemma SweepDelInv(s: State, t: nat, g: nat, newJob: nat)
    requires DelInv(s) && t !in s.del.threads && FreshJob(s, newJob)
    ensures DelInv(FollowDelete(s, DeleteSweepPlan(s.now, s.db, s.del.active, g, newJob), t, g))
  {
    TimesOk(s);
    hide DelInv;
    var plan := DeleteSweepPlan(s.now, s.db, s.del.active, g, newJob);
    var existing := Latest(s.db, g, DeleteGateway);
    if plan.start == None {
      assert FollowDelete(s, plan, t, g) == s;
    } else if existing == None {
      FreshIsLatest(s, s.db.gateways, g, newJob);
      MarkKept(s, plan.db, g, newJob, newJob);
      StartDelInv(s.(db := plan.db), t, g, newJob);
    } else {
      RewritesTouches(s.db, plan.db, g);
      assert IsLatest(plan.db, g, DeleteGateway, existing.value);
      MarkKept(s, plan.db, g, -1, existing.value);
      StartDelInv(s.(db := plan.db), t, g, existing.value);
    }
  }

  // ---------------------------------------------------------------- the theorem

  lemma OtherInv(s: State, step: Step)
    requires DelInv(s) && Enabled(s, step)
    ensures step.Tick? || step.Crash? || step.CreateStep? || step.StartProv? || step.DelDiscard? ==> DelInv(Apply(s, step))
  {
    match step
    case CreateStep(g, j) => CreateInv(s, g, j);
    case StartProv(t, g, j) =>
    case Tick(m) => TickInv(s, m);
    case _ =>
  }

  lemma TickInv(s: State, m: nat)
    requires DelInv(s)
    ensures DelInv(s.(now := s.now + m))
  {
  }

  lemma CreateInv(s: State, g: nat, j: nat)
    requires DelInv(s) && FreshGateway(s, g) && FreshJob(s, j)
    ensures DelInv(s.(db := Create(s.now, s.db, g, j)))
  {
    var db' := Create(s.now, s.db, g, j);
    assert CreateSideOnly(s, db', j);
    HoldsCreate(s, g, j);
    hide DelInv, CreateSideOnly, ProvHoldsOwn, FreshJob;
    CreateSideKept(s, db', j, s.prov);
    assert s.(db := db', prov := s.prov) == s.(db := db');
  }

  lemma HoldsCreate(s: State, g: nat, j: nat)
    requires DelInv(s) && FreshJob(s, j)
    ensures forall t :: t in s.prov.threads ==> ProvHoldsOwn(Create(s.now, s.db, g, j), s.prov.threads[t])
  {
    forall t | t in s.prov.threads ensures ProvHoldsOwn(Create(s.now, s.db, g, j), s.prov.threads[t]) {
      assert ProvHoldsOwn(s.db, s.prov.threads[t]);
    }
  }

  lemma StepKeepsDelInv(s: State, step: Step)
    requires DelInv(s) && Enabled(s, step) && !ClosesDeletion(s, step)
    ensures DelInv(Apply(s, step))
  {
    hide DelInv, FreshJob, FreshGateway, Latest, RequestDelete, SweepPlan, RetryPlan, DeleteSweepPlan;
    hide Gate, Begin, Launch, Settle, Close, Fail, DelGate, DelBegin, DelExecute, DelFail, Start, Move, Restart, Discard;
    match step
    case SweepProv(t, g, pick, newJob) =>
      PlanCreateSide(s, SweepPlan(s.now, s.db, s.prov.active, g, pick, newJob), t, g, pick, newJob);
    case UiRetry(t, g, pick, newJob) =>
      PlanCreateSide(s, RetryPlan(s.now, s.db, g, pick, newJob), t, g, pick, newJob);
    case ProvGate(t, pick, newJob) => GateCreateSide(s, t, pick, newJob);
    case DeleteRequest(g, newJob) => RequestInv(s, g, newJob);
    case StartDel(t, g, j) => StartDelInv(s, t, g, j);
    case SweepDel(t, g, newJob) => SweepDelInv(s, t, g, newJob);
    case DelGateStep(t) => DelGateInv(s, t);
    case DelBeginStep(t) => DelBeginInv(s, t);
    case DelExecuteStep(t) => DelExecuteInv(s, t);
    case DelFailStep(t) => DelFailKept(s, t);
    case DelAbort(t) => DelMoveKept(s, t, Finished);
    case DelRestart(t) => DelRestartInv(s, t);
    case _ => if ProvStep(step) { ProvStepKept(s, step); } else { OtherInv(s, step); }
  }

  predicate ProvStep(step: Step) {
    ProvisioningStep(step) || step.ProvHeartbeat? || step.ProvAbort? || step.ProvRestart? || step.ProvDiscard?
  }

  lemma DelBeginInv(s: State, t: nat)
    requires DelInv(s) && t in s.del.threads
    ensures DelInv(DelBegin(s, t))
  {
    hide DelInv;
    JobWriteKept(s, t, Running, if s.del.threads[t].job in s.db.jobs then Begun else Finished);
  }

  lemma DelRestartInv(s: State, t: nat)
    requires DelInv(s) && t in s.del.threads
    ensures DelInv(s.(del := Restart(s.del, t)))
  {
    assert DelThreadOk(s.db, s.del.threads[t]);
    DelMoveKept(s, t, Spawned);
    assert Restart(s.del, t) == Move(s.del, t, Spawned);
  }

  ghost predicate NoneClosesDeletion(s: State, run: seq<Step>)
    requires Valid(s, run)
    decreases |run|
  {
    run == [] || (!ClosesDeletion(s, run[0]) && NoneClosesDeletion(Apply(s, run[0]), run[1..]))
  }

  ghost predicate DeletionsLive(db: Db) {
    forall g: nat :: IsDeleting(db, g) ==> DeleteLive(db, g)
  }

  /** In every state that the run goes through. */
  ghost predicate AlwaysLive(s: State, run: seq<Step>)
    requires Valid(s, run)
    decreases |run|
  {
    DeletionsLive(s.db) && (run == [] || AlwaysLive(Apply(s, run[0]), run[1..]))
  }

  lemma ClosingBreaks(s: State, step: Step)
    requires Enabled(s, step) && ClosesDeletion(s, step)
    ensures !DeletionsLive(Apply(s, step).db)
  {
    var th := s.prov.threads[step.t];
    var db' := Apply(s, step).db;
    assert IsDeleting(db', th.gateway);
    if DeleteLive(db', th.gateway) {
      var j: nat :| IsLatest(db', th.gateway, DeleteGateway, j) && Live(db'.jobs[j].status);
      assert IsJobOf(db', th.gateway, DeleteGateway, th.job) && IsJobOf(s.db, th.gateway, DeleteGateway, j);
    }
  }

  /** In every run, with any crashes, any retries and any picks: DELETING implies all along that
      the latest delete job is PENDING or RUNNING, if and only if no provisioning thread closes
      the latest delete job of a DELETING gateway. */
  lemma {:induction false} DeletingHasLiveJobExactly(s: State, run: seq<Step>)
    requires DelInv(s) && Valid(s, run)
    ensures AlwaysLive(s, run) <==> NoneClosesDeletion(s, run)
    ensures NoneClosesDeletion(s, run) ==> DelInv(After(s, run))
    decreases |run|
  {
    assert DeletionsLive(s.db);
    if run != [] {
      hide DelInv, DeletionsLive, ClosesDeletion, Enabled, Apply;
      if ClosesDeletion(s, run[0]) {
        ClosingBreaks(s, run[0]);
      } else {
        StepKeepsDelInv(s, run[0]);
        DeletingHasLiveJobExactly(Apply(s, run[0]), run[1..]);
      }
    }
  }

  // ---------------------------------------------------------------- where a delete job comes from

  predicate HoldsDeleteJob(db: Db, th: Thread) {
    (th.arg in db.jobs && db.jobs[th.arg].kind == DeleteGateway) || (th.job in db.jobs && db.jobs[th.job].kind == DeleteGateway)
  }

  /** The unordered query of this step hands out a delete job. */
  ghost predicate PicksDelete(s: State, step: Step)
    requires Enabled(s, step)
  {
    match step
    case SweepProv(t, g, pick, newJob) => g in s.db.gateways && !IsJobOf(Prepare(s.now, s.db, g, newJob), g, CreateGateway, pick)
    case UiRetry(t, g, pick, newJob) => g in s.db.gateways && !IsJobOf(Prepare(s.now, s.db, g, newJob), g, CreateGateway, pick)
    case ProvGate(t, pick, newJob) =>
      var g := s.prov.threads[t].gateway;
      g in s.db.gateways && !IsJobOf(Prepare(s.now, s.db, g, newJob), g, CreateGateway, pick)
    case _ => false
  }

  /** A provisioning thread comes to hold a delete job only through that query. */
  lemma DeleteJobComesFromThePick(s: State, step: Step, t: nat)
    requires Enabled(s, step) && t in Apply(s, step).prov.threads && HoldsDeleteJob(Apply(s, step).db, Apply(s, step).prov.threads[t])
    ensures PicksDelete(s, step) || (t in s.prov.threads && HoldsDeleteJob(s.db, s.prov.threads[t]))
  {
    match step
    case SweepProv(u, g, pick, newJob) =>
      if g in s.db.gateways { PlanHolds(s, SweepPlan(s.now, s.db, s.prov.active, g, pick, newJob), u, g, pick, newJob, t); }
      hide Latest, Prepare, FreshJob;
    case UiRetry(u, g, pick, newJob) =>
      if g in s.db.gateways { PlanHolds(s, RetryPlan(s.now, s.db, g, pick, newJob), u, g, pick, newJob, t); }
      hide Latest, Prepare, FreshJob;
    case ProvGate(u, pick, newJob) => GateHolds(s, u, pick, newJob, t);
    case _ =>
  }

  lemma GateHolds(s: State, u: nat, pick: nat, newJob: nat, t: nat)
    requires Enabled(s, ProvGate(u, pick, newJob))
    requires t in Gate(s, u, pick, newJob).prov.threads
    requires HoldsDeleteJob(Gate(s, u, pick, newJob).db, Gate(s, u, pick, newJob).prov.threads[t])
    ensures PicksDelete(s, ProvGate(u, pick, newJob)) || (t in s.prov.threads && HoldsDeleteJob(s.db, s.prov.threads[t]))
  {
  }

  lemma PlanHolds(s: State, plan: Plan, u: nat, g: nat, pick: nat, newJob: nat, t: nat)
    requires FreshJob(s, newJob) && g in s.db.gateways
    requires plan in {SweepPlan(s.now, s.db, s.prov.active, g, pick, newJob), RetryPlan(s.now, s.db, g, pick, newJob)}
    requires var s' := Follow(s, plan, u, g); t in s'.prov.threads && HoldsDeleteJob(s'.db, s'.prov.threads[t])
    ensures !IsJobOf(Prepare(s.now, s.db, g, newJob), g, CreateGateway, pick) || (t in s.prov.threads && HoldsDeleteJob(s.db, s.prov.threads[t]))
  {
  }

  ghost predicate NoneHoldsDelete(s: State) {
    forall t :: t in s.prov.threads ==> !HoldsDeleteJob(s.db, s.prov.threads[t])
  }

  ghost predicate NonePicksDelete(s: State, run: seq<Step>)
    requires Valid(s, run)
    decreases |run|
  {
    run == [] || (!PicksDelete(s, run[0]) && NonePicksDelete(Apply(s, run[0]), run[1..]))
  }

  lemma StepHoldsNone(s: State, step: Step)
    requires Enabled(s, step) && NoneHoldsDelete(s) && !PicksDelete(s, step)
    ensures NoneHoldsDelete(Apply(s, step)) && !ClosesDeletion(s, step)
  {
    var s' := Apply(s, step);
    assert !ClosesDeletion(s, step) by {
      if step.ProvClose? { assert !HoldsDeleteJob(s.db, s.prov.threads[step.t]); }
    }
    hide Apply, PicksDelete, HoldsDeleteJob, Enabled;
    forall t | t in s'.prov.threads ensures !HoldsDeleteJob(s'.db, s'.prov.threads[t]) {
      if HoldsDeleteJob(s'.db, s'.prov.threads[t]) { DeleteJobComesFromThePick(s, step, t); }
    }
  }

  /** So if the query is answered with create jobs throughout, as it would be if it filtered on
      the type, then over the whole run DELETING implies a live delete job. */
  lemma {:induction false} CreatePicksKeepDeletionsLive(s: State, run: seq<Step>)
    requires DelInv(s) && NoneHoldsDelete(s) && Valid(s, run) && NonePicksDelete(s, run)
    ensures AlwaysLive(s, run) && DelInv(After(s, run)) && NoneHoldsDelete(After(s, run))
    decreases |run|
  {
    assert DeletionsLive(s.db);
    if run != [] {
      hide DelInv, DeletionsLive, NoneHoldsDelete, PicksDelete, ClosesDeletion, Enabled, Apply;
      StepHoldsNone(s, run[0]);
      StepKeepsDelInv(s, run[0]);
      CreatePicksKeepDeletionsLive(Apply(s, run[0]), run[1..]);
    }
  }

  /** An empty system is such a state. */
  lemma FreshDelInv()
    ensures DelInv(Fresh) && NoneHoldsDelete(Fresh)
  {
  }

  /** A repeated request changes nothing and returns the job that is already under way. */
  lemma RepeatedRequestReturnsSameJob(s: State, g: nat, newJob: nat)
    requires DelInv(s) && IsDeleting(s.db, g)
    ensures RequestDelete(s.now, s.db, g, newJob).0 == s.db
    ensures IsLatest(s.db, g, DeleteGateway, RequestDelete(s.now, s.db, g, newJob).1)
    ensures Live(s.db.jobs[RequestDelete(s.now, s.db, g, newJob).1].status)
  {
    var j: nat :| IsLatest(s.db, g, DeleteGateway, j) && Live(s.db.jobs[j].status);
    LatestIs(s.db, g, DeleteGateway, j);
  }

  /** A DELETING gateway with no deletion thread and a latest delete job that is PENDING, or
      RUNNING for more than ten minutes, is restarted by the next sweep: one thread on that job,
      which is PENDING afterwards. Every other thread stays. */
  lemma DeletionIsRestarted(s: State, g: nat, j: nat, t: nat, newJob: nat)
    requires IsDeleting(s.db, g) && g !in s.del.active && t !in s.del.threads && FreshJob(s, newJob)
    requires IsLatest(s.db, g, DeleteGateway, j) && (s.db.jobs[j].status == JobPending || IsStale(s.now, s.db.jobs[j]))
    ensures Enabled(s, SweepDel(t, g, newJob))
    ensures var s' := Apply(s, SweepDel(t, g, newJob));
      && IsDeleting(s'.db, g) && IsLatest(s'.db, g, DeleteGateway, j) && s'.db.jobs[j].status == JobPending
      && s'.del == Pool(s.del.active + {g}, s.del.threads[t := Thread(g, j, j, Spawned)]) && s'.prov == s.prov
  {
    LatestIs(s.db, g, DeleteGateway, j);
    var s' := Apply(s, SweepDel(t, g, newJob));
    assert forall k: nat :: IsJobOf(s'.db, g, DeleteGateway, k) <==> IsJobOf(s.db, g, DeleteGateway, k);
  }

  /** After a crash, every DELETING gateway is in that position ten minutes later at the latest:
      as long as nothing but time touches its rows its delete job is PENDING or stale. */
  lemma CrashedDeletionIsRestarted(s: State, g: nat, minutes: nat, t: nat, newJob: nat)
    requires DelInv(s) && IsDeleting(s.db, g) && minutes > STALE_MINUTES && FreshJob(s, newJob)
    ensures Enabled(s, Crash)
    ensures var s1 := Apply(s, Crash).(now := s.now + minutes);
      s1 == Apply(Apply(s, Crash), Tick(minutes)) && Enabled(s1, SweepDel(t, g, newJob)) &&
      var s2 := Apply(s1, SweepDel(t, g, newJob));
      && IsDeleting(s2.db, g) && s2.del.active == {g}
      && (exists j: nat :: IsLatest(s2.db, g, DeleteGateway, j) && s2.db.jobs[j].status == JobPending &&
           s2.del.threads == map[t := Thread(g, j, j, Spawned)])
  {
    var j: nat :| IsLatest(s.db, g, DeleteGateway, j) && Live(s.db.jobs[j].status);
    var s1 := Apply(s, Crash).(now := s.now + minutes);
    TimesOk(s);
    hide DelInv;
    DeletionIsRestarted(s1, g, j, t, newJob);
  }

  // ---------------------------------------------------------------- why the pick matters

  /** One gateway with a create job 1 and a delete job 2. */
  function Pair(now: int, status: GatewayStatus, create: Job, delete: Job, prov: Pool, del: Pool): State {
    State(now, Db(map[1 := status], map[1 := create, 2 := delete]), prov, del)
  }

  function C(status: JobStatus): Job { Job(CreateGateway, 1, status, 0) }
  function D(status: JobStatus, at: int): Job { Job(DeleteGateway, 1, status, at) }
  function Worker(arg: nat, job: nat, phase: Phase): Pool { Pool({1}, map[1 := Thread(1, arg, job, phase)]) }

  lemma PairLatest(s: State, now: int, status: GatewayStatus, c: JobStatus, d: JobStatus, at: int, prov: Pool, del: Pool)
    requires s == Pair(now, status, C(c), D(d, at), prov, del)
    ensures Latest(s.db, 1, CreateGateway) == Some(1) && Latest(s.db, 1, DeleteGateway) == Some(2)
  {
    assert IsLatest(s.db, 1, CreateGateway, 1);
    assert IsLatest(s.db, 1, DeleteGateway, 2);
    LatestIs(s.db, 1, CreateGateway, 1);
    LatestIs(s.db, 1, DeleteGateway, 2);
  }

  /** A delete request while delete job 2 is PENDING reuses that row. */
  lemma PairRequest(now: int, status: GatewayStatus, at: int, prov: Pool, del: Pool)
    requires forall t :: t in prov.threads ==> prov.threads[t].arg < 3 && prov.threads[t].job < 3
    requires forall t :: t in del.threads ==> del.threads[t].job < 3
    ensures Goes(Pair(now, status, C(JobPending), D(JobPending, at), prov, del), DeleteRequest(1, 3),
                 Pair(now, Deleting, C(JobPending), D(JobPending, at), prov, del))
  {
    PairLatest(Pair(now, status, C(JobPending), D(JobPending, at), prov, del), now, status, JobPending, JobPending, at, prov, del);
  }

  lemma PairFirstRequest()
    ensures Goes(Single(Pending, Running, Begun), DeleteRequest(1, 2),
                 Pair(0, Deleting, C(Running), D(JobPending, 0), Worker(1, 1, Begun), Idle))
  {
    var s := Single(Pending, Running, Begun);
    assert Latest(s.db, 1, DeleteGateway) == None;
  }

  lemma PairOverwritten()
    ensures Goes(Pair(0, Deleting, C(Running), D(JobPending, 0), Worker(1, 1, Begun), Idle), ProvLaunch(1),
                 Pair(0, Provisioning, C(Running), D(JobPending, 0), Worker(1, 1, Launched), Idle))
    ensures Goes(Pair(0, Provisioning, C(Running), D(JobPending, 0), Worker(1, 1, Launched), Idle), Crash,
                 Pair(0, Provisioning, C(Running), D(JobPending, 0), Idle, Idle))
  {
  }

  lemma PairSweep()
    ensures Goes(Pair(0, Provisioning, C(Running), D(JobPending, 0), Idle, Idle), SweepProv(1, 1, 2, 3),
                 Pair(0, Provisioning, C(JobPending), D(JobPending, 0), Worker(2, 2, Spawned), Idle))
  {
    var s := Pair(0, Provisioning, C(Running), D(JobPending, 0), Idle, Idle);
    PairLatest(s, 0, Provisioning, Running, JobPending, 0, Idle, Idle);
  }

  lemma PairGate()
    ensures Goes(Pair(0, Provisioning, C(JobPending), D(JobPending, 0), Worker(2, 2, Spawned), Idle), ProvGate(1, 2, 3),
                 Pair(0, Provisioning, C(JobPending), D(JobPending, 0), Worker(2, 2, Admitted), Idle))
  {
    var s := Pair(0, Provisioning, C(JobPending), D(JobPending, 0), Worker(2, 2, Spawned), Idle);
    PairLatest(s, 0, Provisioning, JobPending, JobPending, 0, Worker(2, 2, Spawned), Idle);
  }

  lemma PairBegin()
    ensures Goes(Pair(0, Deleting, C(JobPending), D(JobPending, 0), Worker(2, 2, Admitted), Idle), ProvBegin(1),
                 Pair(0, Deleting, C(JobPending), D(Running, 0), Worker(2, 2, Begun), Idle))
    ensures Goes(Pair(0, Deleting, C(JobPending), D(Running, 0), Worker(2, 2, Begun), Idle), Tick(11),
                 Pair(11, Deleting, C(JobPending), D(Running, 0), Worker(2, 2, Begun), Idle))
  {
  }

  lemma PairDeleteSweep()
    ensures Goes(Pair(11, Deleting, C(JobPending), D(Running, 0), Worker(2, 2, Begun), Idle), SweepDel(1, 1, 3),
                 Pair(11, Deleting, C(JobPending), D(JobPending, 11), Worker(2, 2, Begun), Worker(2, 2, Spawned)))
  {
    var s := Pair(11, Deleting, C(JobPending), D(Running, 0), Worker(2, 2, Begun), Idle);
    PairLatest(s, 11, Deleting, JobPending, Running, 0, Worker(2, 2, Begun), Idle);
  }

  lemma PairFinish(del: Pool)
    ensures Goes(Pair(11, Deleting, C(JobPending), D(JobPending, 11), Worker(2, 2, Begun), del), ProvLaunch(1),
                 Pair(11, Provisioning, C(JobPending), D(JobPending, 11), Worker(2, 2, Launched), del))
    ensures Goes(Pair(11, Provisioning, C(JobPending), D(JobPending, 11), Worker(2, 2, Launched), del), ProvSettle(1, true),
                 Pair(11, Ready, C(JobPending), D(JobPending, 11), Worker(2, 2, Settled), del))
    ensures Goes(Pair(11, Deleting, C(JobPending), D(JobPending, 11), Worker(2, 2, Settled), del), ProvClose(1),
                 Pair(11, Deleting, C(JobPending), D(Completed, 11), Worker(2, 2, Finished), del))
  {
  }

  /** First half: a delete request overwritten by PROVISIONING, a crash, and a sweep whose
      unordered query hands the delete job to a provisioning thread. */
  lemma DeleteJobHandedOut()
    ensures Reachable(Fresh, Pair(0, Provisioning, C(JobPending), D(JobPending, 0), Worker(2, 2, Admitted), Idle))
  {
    SingleStart();
    SingleGate();
    SingleWork();
    PairFirstRequest();
    PairOverwritten();
    PairSweep();
    PairGate();
    hide Reachable, Goes;
    ExtendTo(Fresh, Single(Pending, JobPending, Spawned), ProvGate(1, 1, 2), Single(Pending, JobPending, Admitted));
    ExtendTo(Fresh, Single(Pending, JobPending, Admitted), ProvBegin(1), Single(Pending, Running, Begun));
    var s1 := Pair(0, Deleting, C(Running), D(JobPending, 0), Worker(1, 1, Begun), Idle);
    var s2 := Pair(0, Provisioning, C(Running), D(JobPending, 0), Worker(1, 1, Launched), Idle);
    var s3 := Pair(0, Provisioning, C(Running), D(JobPending, 0), Idle, Idle);
    var s4 := Pair(0, Provisioning, C(JobPending), D(JobPending, 0), Worker(2, 2, Spawned), Idle);
    ExtendTo(Fresh, Single(Pending, Running, Begun), DeleteRequest(1, 2), s1);
    ExtendTo(Fresh, s1, ProvLaunch(1), s2);
    ExtendTo(Fresh, s2, Crash, s3);
    ExtendTo(Fresh, s3, SweepProv(1, 1, 2, 3), s4);
    ExtendTo(Fresh, s4, ProvGate(1, 2, 3), Pair(0, Provisioning, C(JobPending), D(JobPending, 0), Worker(2, 2, Admitted), Idle));
  }

  ghost predicate DeadDelete(s: State) {
    IsDeleting(s.db, 1) && Latest(s.db, 1, DeleteGateway) == Some(2) && s.db.jobs[2].status == Completed
  }

  lemma StaleJobSweptAgain()
    ensures Reachable(Fresh, Pair(11, Deleting, C(JobPending), D(JobPending, 11), Worker(2, 2, Begun), Worker(2, 2, Spawned)))
  {
    DeleteJobHandedOut();
    PairRequest(0, Provisioning, 0, Worker(2, 2, Admitted), Idle);
    PairBegin();
    PairDeleteSweep();
    hide Reachable, Goes;
    var s0 := Pair(0, Provisioning, C(JobPending), D(JobPending, 0), Worker(2, 2, Admitted), Idle);
    var s1 := Pair(0, Deleting, C(JobPending), D(JobPending, 0), Worker(2, 2, Admitted), Idle);
    var s2 := Pair(0, Deleting, C(JobPending), D(Running, 0), Worker(2, 2, Begun), Idle);
    var s3 := Pair(11, Deleting, C(JobPending), D(Running, 0), Worker(2, 2, Begun), Idle);
    ExtendTo(Fresh, s0, DeleteRequest(1, 3), s1);
    ExtendTo(Fresh, s1, ProvBegin(1), s2);
    ExtendTo(Fresh, s2, Tick(11), s3);
    ExtendTo(Fresh, s3, SweepDel(1, 1, 3),
      Pair(11, Deleting, C(JobPending), D(JobPending, 11), Worker(2, 2, Begun), Worker(2, 2, Spawned)));
  }

  /** The exception does happen: a run from an empty system ends
      with a DELETING gateway whose only delete job is COMPLETED, so no sweep restarts it. */
  lemma DeletingWithDeadJob()
    ensures exists s :: Reachable(Fresh, s) && DeadDelete(s)
  {
    var del := Worker(2, 2, Spawned);
    StaleJobSweptAgain();
    PairFinish(del);
    PairRequest(11, Ready, 11, Worker(2, 2, Settled), del);
    hide Reachable, Goes;
    var s4 := Pair(11, Deleting, C(JobPending), D(JobPending, 11), Worker(2, 2, Begun), del);
    var s5 := Pair(11, Provisioning, C(JobPending), D(JobPending, 11), Worker(2, 2, Launched), del);
    var s6 := Pair(11, Ready, C(JobPending), D(JobPending, 11), Worker(2, 2, Settled), del);
    var s7 := Pair(11, Deleting, C(JobPending), D(JobPending, 11), Worker(2, 2, Settled), del);
    var s8 := Pair(11, Deleting, C(JobPending), D(Completed, 11), Worker(2, 2, Finished), del);
    ExtendTo(Fresh, s4, ProvLaunch(1), s5);
    ExtendTo(Fresh, s5, ProvSettle(1, true), s6);
    ExtendTo(Fresh, s6, DeleteRequest(1, 3), s7);
    ExtendTo(Fresh, s7, ProvClose(1), s8);
    PairLatest(s8, 11, Deleting, JobPending, Completed, 11, Worker(2, 2, Finished), del);
  }
}
