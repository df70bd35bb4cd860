/** The orchestrator process itself: its rows, its two `_active` sets and its threads as
    mutable state, and the service and worker functions as methods. A method that commits,
    or that takes one of the locks, is proved to take an enabled step of `Lifecycle` and to
    keep the invariants of the theorems about runs (`Steps`). */
module ControlPlane {
  import opened Common
  import opened Lifecycle
  import opened LifecycleSafety
  import opened LifecycleNoStranding
  import opened LifecycleRecovery
  import opened LifecycleDeletion
  import opened LifecycleDeleteJob

  /** `step` is enabled in `s` and leads to `s'`, and what the theorems about runs keep is kept. */
  ghost predicate Steps(s: State, step: Step, s': State) {
    && Enabled(s, step) && s' == Apply(s, step)
    && (PoolOk(s.prov) ==> PoolOk(s'.prov)) && (PoolOk(s.del) ==> PoolOk(s'.del))
    && (Inv(s) && RetryAllowed(s, step) ==> Inv(s'))
    && (DelInv(s) && !ClosesDeletion(s, step) ==> DelInv(s'))
  }

  lemma EnabledSteps(s: State, step: Step)
    requires Enabled(s, step)
    ensures Steps(s, step, Apply(s, step))
  {
    hide PoolOk, Inv, RetryAllowed, DelInv, ClosesDeletion, Enabled, Apply;
    if PoolOk(s.prov) { StepKeepsProvPool(s, step); }
    if PoolOk(s.del) { StepKeepsDelPool(s, step); }
    if Inv(s) && RetryAllowed(s, step) { StepKeepsInv(s, step); }
    if DelInv(s) && !ClosesDeletion(s, step) { StepKeepsDelInv(s, step); }
  }

  /** The three steps that pick a job, for every pick the query allows. */
  lemma PickedSteps(s: State, t: nat, g: nat, newJob: nat)
    requires t !in s.prov.threads && FreshJob(s, newJob)
    ensures forall pick :: PickOk(s, g, pick, newJob) ==>
      Steps(s, SweepProv(t, g, pick, newJob), Follow(s, SweepPlan(s.now, s.db, s.prov.active, g, pick, newJob), t, g))
    ensures forall pick :: PickOk(s, g, pick, newJob) ==>
      Steps(s, UiRetry(t, g, pick, newJob), Follow(s, RetryPlan(s.now, s.db, g, pick, newJob), t, g))
  {
    hide Steps, PickOk, FreshJob, SweepPlan, RetryPlan, Follow;
    forall pick | PickOk(s, g, pick, newJob)
      ensures Steps(s, SweepProv(t, g, pick, newJob), Follow(s, SweepPlan(s.now, s.db, s.prov.active, g, pick, newJob), t, g))
      ensures Steps(s, UiRetry(t, g, pick, newJob), Follow(s, RetryPlan(s.now, s.db, g, pick, newJob), t, g))
    {
      EnabledSteps(s, SweepProv(t, g, pick, newJob));
      EnabledSteps(s, UiRetry(t, g, pick, newJob));
    }
  }

  lemma GateSteps(s: State, t: nat, newJob: nat)
    requires At(s.prov, t, {Spawned})
    ensures forall pick :: PickOk(s, s.prov.threads[t].gateway, pick, newJob) ==>
      Steps(s, ProvGate(t, pick, newJob), Gate(s, t, pick, newJob))
  {
    hide Steps, PickOk, Gate;
    forall pick | PickOk(s, s.prov.threads[t].gateway, pick, newJob)
      ensures Steps(s, ProvGate(t, pick, newJob), Gate(s, t, pick, newJob))
    {
      EnabledSteps(s, ProvGate(t, pick, newJob));
    }
  }

  /** The steps of one provisioning thread, by the function each applies. */
  lemma ThreadSteps(s: State, t: nat)
    requires t in s.prov.threads
    ensures At(s.prov, t, {Admitted}) ==> Steps(s, ProvBegin(t), Begin(s, t))
    ensures At(s.prov, t, {Begun}) ==> Steps(s, ProvLaunch(t), Launch(s, t))
    ensures forall ok :: At(s.prov, t, {Launched}) ==> Steps(s, ProvSettle(t, ok), Settle(s, t, ok))
    ensures At(s.prov, t, {Settled}) ==> Steps(s, ProvClose(t), Close(s, t))
    ensures At(s.prov, t, {Begun, Launched, Settled}) ==> Steps(s, ProvFail(t), Fail(s, t))
    ensures At(s.prov, t, {Finished}) ==> Steps(s, ProvDiscard(t), s.(prov := Discard(s.prov, t)))
  {
    hide Steps, At, Begin, Launch, Settle, Close, Fail, Discard;
    if At(s.prov, t, {Admitted}) { EnabledSteps(s, ProvBegin(t)); }
    if At(s.prov, t, {Begun}) { EnabledSteps(s, ProvLaunch(t)); }
    forall ok: bool | At(s.prov, t, {Launched}) ensures Steps(s, ProvSettle(t, ok), Settle(s, t, ok)) { EnabledSteps(s, ProvSettle(t, ok)); }
    if At(s.prov, t, {Settled}) { EnabledSteps(s, ProvClose(t)); }
    if At(s.prov, t, {Begun, Launched, Settled}) { EnabledSteps(s, ProvFail(t)); }
    if At(s.prov, t, {Finished}) { EnabledSteps(s, ProvDiscard(t)); }
  }

  /** And of one deletion thread. */
  lemma DeletionSteps(s: State, t: nat)
    requires t in s.del.threads
    ensures At(s.del, t, {Spawned}) ==> Steps(s, DelGateStep(t), DelGate(s, t))
    ensures At(s.del, t, {Admitted}) ==> Steps(s, DelBeginStep(t), DelBegin(s, t))
    ensures At(s.del, t, {Begun}) ==> Steps(s, DelExecuteStep(t), DelExecute(s, t))
    ensures At(s.del, t, {Begun}) ==> Steps(s, DelFailStep(t), DelFail(s, t))
    ensures At(s.del, t, {Finished}) ==> Steps(s, DelDiscard(t), s.(del := Discard(s.del, t)))
  {
    hide Steps, At, DelGate, DelBegin, DelExecute, DelFail, Discard;
    if At(s.del, t, {Spawned}) { EnabledSteps(s, DelGateStep(t)); }
    if At(s.del, t, {Admitted}) { EnabledSteps(s, DelBeginStep(t)); }
    if At(s.del, t, {Begun}) { EnabledSteps(s, DelExecuteStep(t)); EnabledSteps(s, DelFailStep(t)); }
    if At(s.del, t, {Finished}) { EnabledSteps(s, DelDiscard(t)); }
  }

  lemma DeletionSweepSteps(s: State, t: nat, g: nat, newJob: nat)
    requires t !in s.del.threads && FreshJob(s, newJob)
    ensures Steps(s, SweepDel(t, g, newJob), FollowDelete(s, DeleteSweepPlan(s.now, s.db, s.del.active, g, newJob), t, g))
  {
    hide Steps, FreshJob, DeleteSweepPlan, FollowDelete;
    EnabledSteps(s, SweepDel(t, g, newJob));
  }

  lemma RequestSteps(s: State, g: nat, newJob: nat)
    requires g in s.db.gateways && FreshJob(s, newJob)
    ensures Steps(s, DeleteRequest(g, newJob), s.(db := RequestDelete(s.now, s.db, g, newJob).0))
  {
    hide Steps, FreshJob, RequestDelete;
    EnabledSteps(s, DeleteRequest(g, newJob));
  }

  class Orchestrator {
    var now: int
    var gateways: map<nat, GatewayStatus>
    var jobs: map<nat, Job>
    var provActive: set<nat>
    var provThreads: map<nat, Thread>
    var delActive: set<nat>
    var delThreads: map<nat, Thread>
    var nextJob: nat
    var nextThread: nat

    ghost function Rows(): Db
      reads this
    {
      Db(gateways, jobs)
    }

    ghost function Snapshot(): State
      reads this
    {
      State(now, Rows(), Pool(provActive, provThreads), Pool(delActive, delThreads))
    }

    /** Ids grow: no row and no live thread mentions an id that is still to be handed out. */
    ghost predicate Valid()
      reads this
    {
      && (forall j :: j in jobs ==> j < nextJob)
      && (forall t :: t in provThreads ==> t < nextThread && provThreads[t].arg < nextJob && provThreads[t].job < nextJob)
      && (forall t :: t in delThreads ==> t < nextThread && delThreads[t].arg < nextJob && delThreads[t].job < nextJob)
    }

    constructor ()
      ensures Valid() && Snapshot() == Fresh
    {
      now, gateways, jobs := 0, map[], map[];
      provActive, provThreads, delActive, delThreads := {}, map[], {}, map[];
      nextJob, nextThread := 0, 0;
    }

    // -------------------------------------------------------------- job repository

    /** `get_latest_create_job` and `get_latest_delete_job` */
    method GetLatestJob(g: nat, kind: JobKind) returns (r: Option<nat>)
      ensures r == Latest(Rows(), g, kind)
    {
      r := None;
      var todo := jobs.Keys;
      while todo != {}
        invariant todo <= jobs.Keys
        invariant r.Some? ==> IsJobOf(Rows(), g, kind, r.value)
        invariant forall k: nat :: IsJobOf(Rows(), g, kind, k) && k !in todo ==> r.Some? && k <= r.value
        decreases |todo|
      {
        var j :| j in todo;
        todo := todo - {j};
        if jobs[j].gateway == g && jobs[j].kind == kind && (r.None? || j > r.value) {
          r := Some(j);
        }
      }
      if r.Some? {
        assert IsLatest(Rows(), g, kind, r.value);
        LatestIs(Rows(), g, kind, r.value);
      }
    }

    /** `get_pending_for_gateway`: any row that matches. */
    method GetPendingForGateway(g: nat) returns (r: Option<nat>)
      ensures r.Some? ==> IsPendingOf(Rows(), g, r.value)
      ensures r.None? ==> forall j: nat :: !IsPendingOf(Rows(), g, j)
    {
      var todo := jobs.Keys;
      while todo != {}
        invariant todo <= jobs.Keys
        invariant forall j: nat :: IsPendingOf(Rows(), g, j) ==> j in todo
        decreases |todo|
      {
        var j :| j in todo;
        todo := todo - {j};
        if jobs[j].gateway == g && jobs[j].status == JobPending {
          return Some(j);
        }
      }
      r := None;
    }

    method UpdateStatus(j: nat, status: JobStatus)
      modifies this`jobs
      ensures Rows() == SetJob(now, old(Rows()), j, status)
    {
      if j in jobs && jobs[j].status != status {
        jobs := jobs[j := jobs[j].(status := status, updatedAt := now)];
      }
    }

    method SetStage(j: nat)
      modifies this`jobs
      ensures Rows() == Touch(now, old(Rows()), j)
    {
      if j in jobs {
        jobs := jobs[j := jobs[j].(updatedAt := now)];
      }
    }

    method CreateJob(kind: JobKind, g: nat) returns (j: nat)
      requires Valid()
      modifies this`jobs, this`nextJob
      ensures Valid() && j == old(nextJob) && nextJob == old(nextJob) + 1
      ensures Rows() == AddJob(now, old(Rows()), j, kind, g)
    {
      j := nextJob;
      jobs := jobs[j := Job(kind, g, JobPending, now)];
      nextJob := nextJob + 1;
    }

    /** `reset_failed_job` */
    method ResetFailedJob(g: nat) returns (r: Option<nat>)
      modifies this`jobs
      ensures r == Latest(old(Rows()), g, CreateGateway)
      ensures Rows() == if r.Some? then SetJob(now, old(Rows()), r.value, JobPending) else old(Rows())
    {
      r := GetLatestJob(g, CreateGateway);
      if r.Some? {
        if jobs[r.value].status == Failed || jobs[r.value].status == Completed || jobs[r.value].status == Running {
          UpdateStatus(r.value, JobPending);
        }
      }
    }

    // -------------------------------------------------------------- gateway service

    method PrepareProvisioning(g: nat)
      requires Valid() && g in gateways
      modifies this`gateways, this`jobs, this`nextJob
      ensures Valid() && nextJob >= old(nextJob)
      ensures Rows() == Prepare(now, old(Rows()), g, old(nextJob))
    {
      if gateways[g] == Error {
        gateways := gateways[g := Pending];
      } else if gateways[g] == Provisioning {
        var latest := GetLatestJob(g, CreateGateway);
        if latest.Some? && jobs[latest.value].status == Failed {
          gateways := gateways[g := Pending];
        }
      }
      assert gateways == old(gateways)[g := PreparedStatus(old(Rows()), g)];
      ghost var moved := Rows();
      SameJobsLatest(old(Rows()), moved, g);
      var job := ResetFailedJob(g);
      if job.None? {
        var _ := CreateJob(CreateGateway, g);
      }
    }

    method CreateGatewayRow(g: nat) returns (j: nat)
      requires Valid() && FreshGateway(Snapshot(), g)
      modifies this`gateways, this`jobs, this`nextJob
      ensures Valid() && Steps(old(Snapshot()), CreateStep(g, j), Snapshot())
    {
      EnabledSteps(Snapshot(), CreateStep(g, nextJob));
      hide Steps;
      gateways := gateways[g := Pending];
      j := CreateJob(CreateGateway, g);
    }

    method RequestDeleteGateway(g: nat) returns (r: Result<nat>)
      requires Valid()
      modifies this`gateways, this`jobs, this`nextJob
      ensures Valid()
      ensures g !in old(gateways) ==> r == ValueError && Snapshot() == old(Snapshot())
      ensures g in old(gateways) ==>
        && Steps(old(Snapshot()), DeleteRequest(g, old(nextJob)), Snapshot())
        && r == Ok(RequestDelete(now, old(Rows()), g, old(nextJob)).1)
    {
      if g !in gateways {
        return ValueError;
      }
      RequestSteps(Snapshot(), g, nextJob);
      hide Steps, Apply, Enabled, FreshJob;
      var existing := GetLatestJob(g, DeleteGateway);
      if gateways[g] == Deleting {
        if existing.Some? && (jobs[existing.value].status == JobPending || jobs[existing.value].status == Running) {
          return Ok(existing.value);
        }
      }
      gateways := gateways[g := Deleting];
      if existing.Some? && jobs[existing.value].status == JobPending {
        r := Ok(existing.value);
      } else {
        var j := CreateJob(DeleteGateway, g);
        r := Ok(j);
      }
    }

    /** `prepare_provisioning` followed by `get_pending_for_gateway`, as every caller does. */
    method PrepareAndPick(g: nat) returns (pick: nat)
      requires Valid() && g in gateways
      modifies this`gateways, this`jobs, this`nextJob
      ensures Valid() && pick < nextJob
      ensures Rows() == Prepare(now, old(Rows()), g, old(nextJob))
      ensures IsPendingOf(Rows(), g, pick)
    {
      ghost var some := PreparedPick(now, Rows(), g, nextJob);
      PrepareProvisioning(g);
      assert IsPendingOf(Rows(), g, some);
      var latest := GetPendingForGateway(g);
      assert IsPendingOf(Rows(), g, some);
      pick := latest.value;
    }

    // -------------------------------------------------------------- provisioning worker

    /** `start_provisioning` */
    method StartProvisioning(g: nat, j: nat)
      requires Valid() && j < nextJob
      modifies this`provActive, this`provThreads, this`nextThread
      ensures Valid()
      ensures Pool(provActive, provThreads) == Start(old(Pool(provActive, provThreads)), old(nextThread), g, j)
      ensures (j in jobs ==> IsJobOf(Rows(), g, CreateGateway, j)) ==> Steps(old(Snapshot()), StartProv(old(nextThread), g, j), Snapshot())
    {
      ghost var step := StartProv(nextThread, g, j);
      if Enabled(Snapshot(), step) { EnabledSteps(Snapshot(), step); }
      hide Steps;
      if g in provActive {
        return;
      }
      provActive := provActive + {g};
      provThreads := provThreads[nextThread := Thread(g, j, j, Spawned)];
      nextThread := nextThread + 1;
    }

    /** The loop body of `resume_incomplete_provisioning`. */
    method ResumeOne(g: nat) returns (started: bool, ghost pick: nat)
      requires Valid() && g in gateways
      modifies this`gateways, this`jobs, this`nextJob, this`provActive, this`provThreads, this`nextThread
      ensures Valid()
      ensures Snapshot() == Follow(old(Snapshot()), SweepPlan(now, old(Rows()), old(provActive), g, pick, old(nextJob)), old(nextThread), g)
      ensures Steps(old(Snapshot()), SweepProv(old(nextThread), g, pick, old(nextJob)), Snapshot())
      ensures IsPendingOf(Prepare(now, old(Rows()), g, old(nextJob)), g, pick)
      ensures started <==> g in provActive && g !in old(provActive)
    {
      PickedSteps(Snapshot(), nextThread, g, nextJob);
      hide Steps, Apply, Enabled;
      pick := PreparedPick(now, Rows(), g, nextJob);
      started := false;
      if !NeedsProvisioning(gateways[g]) || g in provActive {
        return;
      }
      var latest := GetLatestJob(g, CreateGateway);
      if latest.Some? && jobs[latest.value].status == Running {
        if IsStale(now, jobs[latest.value]) || g !in provActive {
          var job := PrepareAndPick(g);
          latest, pick := Some(job), job;
        } else {
          return;
        }
      }
      if latest.Some? && jobs[latest.value].status == JobPending {
        StartProvisioning(g, latest.value);
        started := true;
      } else if latest.None? {
        var job := PrepareAndPick(g);
        pick := job;
        StartProvisioning(g, job);
        started := true;
      }
    }

    /** The same, in the terms a sweep over all gateways needs. */
    method SweepOne(g: nat) returns (started: bool)
      requires Valid() && g in gateways
      modifies this`gateways, this`jobs, this`nextJob, this`provActive, this`provThreads, this`nextThread
      ensures Valid() && Others(old(Rows()), Rows(), {g})
      ensures old(Inv(Snapshot())) ==> Inv(Snapshot())
      ensures started <==> Restartable(old(Rows()), g) && g !in old(provActive)
      ensures provActive == if started then old(provActive) + {g} else old(provActive)
      ensures |provThreads| == old(|provThreads|) + if started then 1 else 0
      ensures !started ==> Rows() == old(Rows())
    {
      ghost var before := Snapshot();
      ghost var t, newJob := nextThread, nextJob;
      assert FreshJob(before, newJob);
      hide Inv, FreshJob, Restartable, SweepPlan, Prepare, Apply, Follow, Enabled, PickOk, Rewrites, Others;
      ghost var pick;
      started, pick := ResumeOne(g);
      SweepOneEffect(before, t, g, pick, newJob);
    }

    /** `resume_incomplete_provisioning`. In any state, one sweep starts exactly the inactive
        gateways that need provisioning and whose create job is PENDING, RUNNING or missing,
        one thread each, returns how many those are, and leaves the rows of all others alone. */
    method ResumeIncompleteProvisioning() returns (started: nat)
      requires Valid()
      modifies this`gateways, this`jobs, this`nextJob, this`provActive, this`provThreads, this`nextThread
      ensures Valid() && (old(Inv(Snapshot())) ==> Inv(Snapshot()))
      ensures provActive == old(provActive) + Startable(old(Rows()), old(provActive))
      ensures started == |Startable(old(Rows()), old(provActive))|
      ensures |provThreads| == old(|provThreads|) + started
      ensures Others(old(Rows()), Rows(), Startable(old(Rows()), old(provActive)))
    {
      hide Inv, Restartable, Valid, Startable, Others;
      started := 0;
      var todo := gateways.Keys;
      ghost var db0, active0 := Rows(), provActive;
      ghost var begun := {};
      OthersSame(db0, {});
      while todo != {}
        invariant Valid() && (old(Inv(Snapshot())) ==> Inv(Snapshot()))
        invariant todo <= db0.gateways.Keys == gateways.Keys
        invariant provActive == active0 + begun && started == |begun| && begun !! todo
        invariant |provThreads| == old(|provThreads|) + started
        invariant forall h :: h in begun <==> h in Startable(db0, active0) && h in db0.gateways && h !in todo
        invariant Others(db0, Rows(), begun)
        decreases |todo|
      {
        var g :| g in todo;
        ghost var db1 := Rows();
        RestartableElsewhere(db0, db1, begun, g);
        var did := SweepOne(g);
        InStartable(db0, active0, g);
        todo := todo - {g};
        if did {
          started := started + 1;
          OthersTogether(db0, db1, Rows(), begun, g);
          begun := begun + {g};
        }
        OthersKeys(db0, Rows(), begun);
      }
      InStartable(db0, active0, 0);
      assert begun == Startable(db0, active0);
    }

    /** `_maybe_enqueue_provisioning`, the retry button. */
    method MaybeEnqueueProvisioning(g: nat) returns (ghost pick: nat)
      requires Valid()
      modifies this`gateways, this`jobs, this`nextJob, this`provActive, this`provThreads, this`nextThread
      ensures Valid()
      ensures Snapshot() == Follow(old(Snapshot()), RetryPlan(now, old(Rows()), g, pick, old(nextJob)), old(nextThread), g)
      ensures Steps(old(Snapshot()), UiRetry(old(nextThread), g, pick, old(nextJob)), Snapshot())
      ensures g in old(gateways) ==> IsPendingOf(Prepare(now, old(Rows()), g, old(nextJob)), g, pick)
    {
      PickedSteps(Snapshot(), nextThread, g, nextJob);
      hide Steps, Apply, Enabled;
      pick := if g in gateways then PreparedPick(now, Rows(), g, nextJob) else 0;
      if g !in gateways || !NeedsProvisioning(gateways[g]) {
        return;
      }
      var job := GetLatestJob(g, CreateGateway);
      if job.None? || jobs[job.value].status == Failed || gateways[g] == Error || jobs[job.value].status == Running {
        var pending := PrepareAndPick(g);
        job, pick := Some(pending), pending;
      }
      if jobs[job.value].status == JobPending {
        StartProvisioning(g, job.value);
      }
    }

    // -------------------------------------------------------------- a provisioning thread

    method MoveProv(t: nat, phase: Phase)
      requires t in provThreads
      modifies this`provThreads
      ensures Pool(provActive, provThreads) == Move(old(Pool(provActive, provThreads)), t, phase)
    {
      provThreads := provThreads[t := provThreads[t].(phase := phase)];
    }

    method TakeJob(t: nat, j: nat)
      requires t in provThreads
      modifies this`provThreads
      ensures Pool(provActive, provThreads) == Take(old(Pool(provActive, provThreads)), t, j)
    {
      provThreads := provThreads[t := provThreads[t].(phase := Admitted, job := j)];
    }

    /** `_run_gateway_provisioning_once` up to the QUEUED stage commit. */
    method RunGate(t: nat) returns (ghost pick: nat)
      requires Valid() && At(Snapshot().prov, t, {Spawned})
      modifies this`gateways, this`jobs, this`nextJob, this`provThreads
      ensures Valid()
      ensures Steps(old(Snapshot()), ProvGate(t, pick, old(nextJob)), Snapshot())
    {
      GateSteps(Snapshot(), t, nextJob);
      hide Steps, Apply, Enabled;
      var g, arg := provThreads[t].gateway, provThreads[t].arg;
      pick := if g in gateways then PreparedPick(now, Rows(), g, nextJob) else 0;
      if g !in gateways || !NeedsProvisioning(gateways[g]) {
        MoveProv(t, Finished);
        return;
      }
      if arg !in jobs || IsStale(now, jobs[arg]) {
        var job := PrepareAndPick(g);
        pick := job;
        SetStage(job);
        TakeJob(t, job);
      } else if jobs[arg].status != JobPending {
        MoveProv(t, Finished);
      } else {
        SetStage(arg);
        TakeJob(t, arg);
      }
    }

    /** The RUNNING commit of `process_provisioning_job`. */
    method BeginJob(t: nat)
      requires Valid() && At(Snapshot().prov, t, {Admitted})
      modifies this`jobs, this`provThreads
      ensures Valid() && Steps(old(Snapshot()), ProvBegin(t), Snapshot())
    {
      ThreadSteps(Snapshot(), t);
      hide Steps, Apply, Enabled;
      var g, j := provThreads[t].gateway, provThreads[t].job;
      if g !in gateways || j !in jobs {
        MoveProv(t, Finished);
        return;
      }
      UpdateStatus(j, Running);
      SetStage(j);
      MoveProv(t, Begun);
    }

    /** The PROVISIONING commit of `provision_gateway`. */
    method LaunchVm(t: nat)
      requires Valid() && At(Snapshot().prov, t, {Begun})
      modifies this`gateways, this`jobs, this`provThreads
      ensures Valid() && Steps(old(Snapshot()), ProvLaunch(t), Snapshot())
    {
      ThreadSteps(Snapshot(), t);
      hide Steps, Apply, Enabled;
      var g, j := provThreads[t].gateway, provThreads[t].job;
      if g !in gateways || j !in jobs {
        MoveProv(t, Finished);
        return;
      }
      gateways := gateways[g := Provisioning];
      SetStage(j);
      MoveProv(t, Launched);
    }

    /** The READY or ERROR commit of `provision_gateway`. */
    method SettleGateway(t: nat, ok: bool)
      requires Valid() && At(Snapshot().prov, t, {Launched})
      modifies this`gateways, this`provThreads
      ensures Valid() && Steps(old(Snapshot()), ProvSettle(t, ok), Snapshot())
    {
      ThreadSteps(Snapshot(), t);
      hide Steps, Apply, Enabled;
      var g, j := provThreads[t].gateway, provThreads[t].job;
      if g !in gateways || j !in jobs {
        MoveProv(t, Finished);
        return;
      }
      if ok {
        gateways := gateways[g := Ready];
      } else {
        gateways := gateways[g := Error];
      }
      MoveProv(t, Settled);
    }

    /** The COMPLETED commit of `process_provisioning_job`. */
    method CloseJob(t: nat)
      requires Valid() && At(Snapshot().prov, t, {Settled})
      modifies this`jobs, this`provThreads
      ensures Valid() && Steps(old(Snapshot()), ProvClose(t), Snapshot())
    {
      ThreadSteps(Snapshot(), t);
      hide Steps, Apply, Enabled;
      UpdateStatus(provThreads[t].job, Completed);
      SetStage(provThreads[t].job);
      MoveProv(t, Finished);
    }

    /** The exception handler of `process_provisioning_job`. */
    method HandleFailure(t: nat)
      requires Valid() && At(Snapshot().prov, t, {Begun, Launched, Settled})
      modifies this`gateways, this`jobs, this`provThreads
      ensures Valid() && Steps(old(Snapshot()), ProvFail(t), Snapshot())
    {
      ThreadSteps(Snapshot(), t);
      hide Steps, Apply, Enabled;
      var g, j := provThreads[t].gateway, provThreads[t].job;
      if j in jobs && g in gateways {
        gateways := gateways[g := Error];
        UpdateStatus(j, Failed);
      }
      MoveProv(t, Finished);
    }

    /** The `finally` block of `_provisioning_thread`. */
    method EndProvisioningThread(t: nat)
      requires Valid() && At(Snapshot().prov, t, {Finished})
      modifies this`provActive, this`provThreads
      ensures Valid() && Steps(old(Snapshot()), ProvDiscard(t), Snapshot())
    {
      ThreadSteps(Snapshot(), t);
      hide Steps, Apply, Enabled;
      provActive := provActive - {provThreads[t].gateway};
      provThreads := provThreads - {t};
    }

    // -------------------------------------------------------------- deletion worker

    /** `start_deletion` */
    method StartDeletion(g: nat, j: nat)
      requires Valid() && j < nextJob
      modifies this`delActive, this`delThreads, this`nextThread
      ensures Valid()
      ensures Pool(delActive, delThreads) == Start(old(Pool(delActive, delThreads)), old(nextThread), g, j)
      ensures (j in jobs ==> IsJobOf(Rows(), g, DeleteGateway, j)) ==> Steps(old(Snapshot()), StartDel(old(nextThread), g, j), Snapshot())
    {
      ghost var step := StartDel(nextThread, g, j);
      if Enabled(Snapshot(), step) { EnabledSteps(Snapshot(), step); }
      hide Steps;
      if g in delActive {
        return;
      }
      delActive := delActive + {g};
      delThreads := delThreads[nextThread := Thread(g, j, j, Spawned)];
      nextThread := nextThread + 1;
    }

    /** The loop body of `resume_incomplete_deletions`. */
    method ResumeDeletion(g: nat) returns (started: bool)
      requires Valid() && g in gateways
      modifies this`jobs, this`nextJob, this`delActive, this`delThreads, this`nextThread
      ensures Valid()
      ensures Steps(old(Snapshot()), SweepDel(old(nextThread), g, old(nextJob)), Snapshot())
      ensures started <==> g in delActive && g !in old(delActive)
    {
      DeletionSweepSteps(Snapshot(), nextThread, g, nextJob);
      hide Steps, Apply, Enabled, FreshJob;
      started := false;
      if gateways[g] != Deleting || g in delActive {
        return;
      }
      var latest := GetLatestJob(g, DeleteGateway);
      if latest.Some? && jobs[latest.value].status == Running {
        if IsStale(now, jobs[latest.value]) {
          UpdateStatus(latest.value, JobPending);
        } else {
          return;
        }
      }
      if latest.Some? && jobs[latest.value].status == JobPending {
        StartDeletion(g, latest.value);
        started := true;
      } else if latest.None? {
        var job := CreateJob(DeleteGateway, g);
        StartDeletion(g, job);
        started := true;
      }
    }

    method MoveDel(t: nat, phase: Phase)
      requires t in delThreads
      modifies this`delThreads
      ensures Pool(delActive, delThreads) == Move(old(Pool(delActive, delThreads)), t, phase)
    {
      delThreads := delThreads[t := delThreads[t].(phase := phase)];
    }

    /** `_run_gateway_deletion_once` up to the call of `process_deletion_job`. */
    method RunDeletionGate(t: nat)
      requires Valid() && At(Snapshot().del, t, {Spawned})
      modifies this`jobs, this`delThreads
      ensures Valid() && Steps(old(Snapshot()), DelGateStep(t), Snapshot())
    {
      DeletionSteps(Snapshot(), t);
      hide Steps, Apply, Enabled;
      var g, j := delThreads[t].gateway, delThreads[t].job;
      var next := Finished;
      if g !in gateways {
        UpdateStatus(j, Completed);
      } else if gateways[g] == Deleting && j in jobs {
        if IsStale(now, jobs[j]) {
          UpdateStatus(j, JobPending);
          next := Admitted;
        } else if jobs[j].status == JobPending || jobs[j].status == Running {
          next := Admitted;
        }
      }
      MoveDel(t, next);
    }

    /** The RUNNING commit of `process_deletion_job`. */
    method BeginDeletion(t: nat)
      requires Valid() && At(Snapshot().del, t, {Admitted})
      modifies this`jobs, this`delThreads
      ensures Valid() && Steps(old(Snapshot()), DelBeginStep(t), Snapshot())
    {
      DeletionSteps(Snapshot(), t);
      hide Steps, Apply, Enabled;
      var j := delThreads[t].job;
      var next := if j in jobs then Begun else Finished;
      UpdateStatus(j, Running);
      MoveDel(t, next);
    }

    /** `execute_delete_gateway` with its single commit. */
    method ExecuteDeleteGateway(t: nat)
      requires Valid() && At(Snapshot().del, t, {Begun})
      modifies this`gateways, this`jobs, this`delThreads
      ensures Valid() && Steps(old(Snapshot()), DelExecuteStep(t), Snapshot())
    {
      DeletionSteps(Snapshot(), t);
      hide Steps, Apply, Enabled;
      var g, j := delThreads[t].gateway, delThreads[t].job;
      if g in gateways {
        jobs := map k | k in jobs && jobs[k].gateway != g :: jobs[k];
        gateways := gateways - {g};
      } else {
        UpdateStatus(j, Completed);
      }
      MoveDel(t, Finished);
    }

    /** The exception handler of `process_deletion_job`. */
    method HandleDeletionFailure(t: nat)
      requires Valid() && At(Snapshot().del, t, {Begun})
      modifies this`gateways, this`jobs, this`delThreads
      ensures Valid() && Steps(old(Snapshot()), DelFailStep(t), Snapshot())
    {
      DeletionSteps(Snapshot(), t);
      hide Steps, Apply, Enabled;
      var g, j := delThreads[t].gateway, delThreads[t].job;
      UpdateStatus(j, Failed);
      if g in gateways {
        gateways := gateways[g := Error];
      }
      MoveDel(t, Finished);
    }

    /** The `finally` block of `_deletion_thread`. */
    method EndDeletionThread(t: nat)
      requires Valid() && At(Snapshot().del, t, {Finished})
      modifies this`delActive, this`delThreads
      ensures Valid() && Steps(old(Snapshot()), DelDiscard(t), Snapshot())
    {
      DeletionSteps(Snapshot(), t);
      hide Steps, Apply, Enabled;
      delActive := delActive - {delThreads[t].gateway};
      delThreads := delThreads - {t};
    }

    /** One heartbeat of a long provisioning stage. */
    method Heartbeat(t: nat)
      requires Valid() && At(Snapshot().prov, t, {Begun, Launched, Settled})
      modifies this`jobs
      ensures Valid() && Steps(old(Snapshot()), ProvHeartbeat(t), Snapshot())
    {
      EnabledSteps(Snapshot(), ProvHeartbeat(t));
      hide Steps;
      SetStage(provThreads[t].job);
    }
  }

  /** What makes a sweep start a gateway that has no thread. */
  ghost predicate Restartable(db: Db, g: nat) {
    g in db.gateways && NeedsProvisioning(db.gateways[g]) &&
    match Latest(db, g, CreateGateway) case None => true case Some(j) => Live(db.jobs[j].status)
  }

  /** The gateways a full sweep starts. */
  ghost function Startable(db: Db, active: set<nat>): set<nat> {
    set g | g in db.gateways && Restartable(db, g) && g !in active
  }

  lemma InStartable(db: Db, active: set<nat>, g: nat)
    ensures g in Startable(db, active) <==> g in db.gateways && Restartable(db, g) && g !in active
    ensures Startable(db, active) <= db.gateways.Keys
  {
  }

  /** Rows of gateways outside `gs`, and of their jobs, are as they were; none are added. */
  ghost predicate Others(db: Db, db': Db, gs: set<nat>) {
    db'.gateways.Keys == db.gateways.Keys &&
    (forall h :: h in db.gateways && h !in gs ==> db'.gateways[h] == db.gateways[h]) &&
    (forall j: nat :: j in db.jobs ==> j in db'.jobs && db'.jobs[j].gateway == db.jobs[j].gateway && db'.jobs[j].kind == db.jobs[j].kind) &&
    (forall j: nat :: j in db.jobs && db.jobs[j].gateway !in gs ==> db'.jobs[j] == db.jobs[j]) &&
    forall j: nat :: j in db'.jobs && j !in db.jobs ==> db'.jobs[j].gateway in gs
  }

  lemma OthersSame(db: Db, gs: set<nat>)
    ensures Others(db, db, gs)
  {
  }

  lemma OthersKeys(db: Db, db': Db, gs: set<nat>)
    requires Others(db, db', gs)
    ensures db'.gateways.Keys == db.gateways.Keys
  {
  }

  lemma OthersTogether(a: Db, b: Db, c: Db, gs: set<nat>, g: nat)
    requires Others(a, b, gs) && Others(b, c, {g})
    ensures Others(a, c, gs + {g})
  {
  }

  lemma RestartableElsewhere(db: Db, db': Db, gs: set<nat>, h: nat)
    requires Others(db, db', gs) && h !in gs
    ensures Restartable(db', h) <==> Restartable(db, h)
  {
    assert forall j: nat :: IsJobOf(db', h, CreateGateway, j) <==> IsJobOf(db, h, CreateGateway, j);
    assert forall j: nat :: IsLatest(db', h, CreateGateway, j) <==> IsLatest(db, h, CreateGateway, j);
    if Latest(db, h, CreateGateway).Some? { LatestIs(db', h, CreateGateway, Latest(db, h, CreateGateway).value); }
  }

  /** In a state with the lifecycle invariant no create job is missing. */
  lemma RestartableIsResumable(s: State, g: nat)
    requires Inv(s)
    ensures Restartable(s.db, g) <==> Resumable(s.db, g)
  {
    if g in s.db.gateways {
      NotStranded(s, g);
      var c: nat :| OnlyCreateJob(s.db, g, c);
      OnlyCreateIsLatest(s.db, g, c);
      assert CreateLive(s.db, g) <==> Live(s.db.jobs[c].status);
    }
  }

  /** One sweep iteration in the terms of the loop. */
  lemma SweepOneEffect(s: State, t: nat, g: nat, pick: nat, newJob: nat)
    requires g in s.db.gateways && t !in s.prov.threads && FreshJob(s, newJob)
    requires IsPendingOf(Prepare(s.now, s.db, g, newJob), g, pick)
    ensures var s' := Follow(s, SweepPlan(s.now, s.db, s.prov.active, g, pick, newJob), t, g);
      var starts := Restartable(s.db, g) && g !in s.prov.active;
      && (Inv(s) ==> Inv(s'))
      && s'.prov.active == (if starts then s.prov.active + {g} else s.prov.active)
      && |s'.prov.threads| == |s.prov.threads| + (if starts then 1 else 0)
      && (!starts ==> s'.db == s.db)
      && Others(s.db, s'.db, {g})
  {
    var plan := SweepPlan(s.now, s.db, s.prov.active, g, pick, newJob);
    if Inv(s) { SweepKept(s, t, g, pick, newJob); }
    hide Inv;
    PrepareOthers(s, g, newJob);
    OthersSame(s.db, {g});
    hide Others, Prepare;
    var s' := Follow(s, plan, t, g);
    assert Others(s.db, s'.db, {g});
  }

  lemma PrepareOthers(s: State, g: nat, newJob: nat)
    requires g in s.db.gateways && FreshJob(s, newJob)
    ensures Others(s.db, Prepare(s.now, s.db, g, newJob), {g})
  {
    if Latest(s.db, g, CreateGateway).Some? {
      assert IsJobOf(s.db, g, CreateGateway, Latest(s.db, g, CreateGateway).value);
    }
  }

  lemma SameJobsLatest(db: Db, db': Db, g: nat)
    requires db'.jobs == db.jobs
    ensures Latest(db', g, CreateGateway) == Latest(db, g, CreateGateway)
  {
    assert forall j: nat, kind :: IsJobOf(db', g, kind, j) <==> IsJobOf(db, g, kind, j);
    assert forall j: nat :: IsLatest(db', g, CreateGateway, j) <==> IsLatest(db, g, CreateGateway, j);
    if Latest(db, g, CreateGateway).Some? { LatestIs(db', g, CreateGateway, Latest(db, g, CreateGateway).value); }
  }

  /** After `prepare_provisioning` some job of the gateway is PENDING. */
  ghost function PreparedPick(now: int, db: Db, g: nat, newJob: nat): (j: nat)
    requires g in db.gateways
    ensures IsPendingOf(Prepare(now, db, g, newJob), g, j)
  {
    match Latest(db, g, CreateGateway)
    case None => newJob
    case Some(j) => j
  }
}
