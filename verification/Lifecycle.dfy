/** The gateway and job tables, the two in-memory worker pools and their threads, with one
    function per database commit or lock section. Everything concurrent in the
    orchestrator's gateway lifecycle is an interleaving of these functions. */
module Lifecycle {
  import opened Common

  datatype GatewayStatus = Pending | Provisioning | Ready | Error | Deleting
  datatype JobStatus = JobPending | Running | Completed | Failed
  datatype JobKind = CreateGateway | DeleteGateway
  datatype Job = Job(kind: JobKind, gateway: nat, status: JobStatus, updatedAt: int)

  /** The committed rows. */
  datatype Db = Db(gateways: map<nat, GatewayStatus>, jobs: map<nat, Job>)

  /** Where a worker thread stands: Spawned (settling, gate not reached), Admitted (gate
      passed), Begun (job RUNNING committed), Launched (gateway PROVISIONING committed),
      Settled (READY or ERROR committed, job still open), Finished (only the `_active`
      discard is left). Deletion threads skip Launched and Settled. */
  datatype Phase = Spawned | Admitted | Begun | Launched | Settled | Finished
  datatype Thread = Thread(gateway: nat, arg: nat, job: nat, phase: Phase)

  /** A module-level `_active` set together with the daemon threads it guards. */
  datatype Pool = Pool(active: set<nat>, threads: map<nat, Thread>)

  datatype State = State(now: int, db: Db, prov: Pool, del: Pool)

  const STALE_MINUTES := 10
  const Idle := Pool({}, map[])
  const Fresh := State(0, Db(map[], map[]), Idle, Idle)

  // ---------------------------------------------------------------- rows

  predicate NeedsProvisioning(status: GatewayStatus) {
    status == Pending || status == Error || status == Provisioning
  }

  predicate IsJobOf(db: Db, g: nat, kind: JobKind, j: nat) {
    j in db.jobs && db.jobs[j].gateway == g && db.jobs[j].kind == kind
  }

  /** `order_by(Job.id.desc()).first()` */
  ghost predicate IsLatest(db: Db, g: nat, kind: JobKind, j: nat) {
    IsJobOf(db, g, kind, j) && forall k: nat :: IsJobOf(db, g, kind, k) ==> k <= j
  }

  ghost function Latest(db: Db, g: nat, kind: JobKind): (r: Option<nat>)
    ensures r.Some? ==> IsLatest(db, g, kind, r.value)
  {
    if exists j: nat :: IsLatest(db, g, kind, j) then
      var j: nat :| IsLatest(db, g, kind, j); Some(j)
    else None
  }

  /** A row `get_pending_for_gateway` may return: it filters on gateway and status only. */
  predicate IsPendingOf(db: Db, g: nat, j: nat) {
    j in db.jobs && db.jobs[j].gateway == g && db.jobs[j].status == JobPending
  }

  predicate IsStale(now: int, job: Job) {
    job.status == Running && now - job.updatedAt > STALE_MINUTES
  }

  function SetGateway(db: Db, g: nat, status: GatewayStatus): Db {
    db.(gateways := db.gateways[g := status])
  }

  /** `update_status`; the row's `updated_at` moves only when a column really changes. */
  function SetJob(now: int, db: Db, j: nat, status: JobStatus): Db {
    if j !in db.jobs || db.jobs[j].status == status then db
    else db.(jobs := db.jobs[j := db.jobs[j].(status := status, updatedAt := now)])
  }

  /** A stage write: always touches the row. */
  function Touch(now: int, db: Db, j: nat): Db {
    if j !in db.jobs then db
    else db.(jobs := db.jobs[j := db.jobs[j].(updatedAt := now)])
  }

  function AddJob(now: int, db: Db, j: nat, kind: JobKind, g: nat): Db {
    db.(jobs := db.jobs[j := Job(kind, g, JobPending, now)])
  }

  /** Removing a gateway row cascades to every job row of that gateway. */
  function RemoveGateway(db: Db, g: nat): Db {
    Db(db.gateways - {g}, map j | j in db.jobs && db.jobs[j].gateway != g :: db.jobs[j])
  }

  // ---------------------------------------------------------------- pools

  /** The lock section of `start_provisioning` and `start_deletion`. */
  function Start(p: Pool, t: nat, g: nat, j: nat): Pool {
    if g in p.active then p
    else Pool(p.active + {g}, p.threads[t := Thread(g, j, j, Spawned)])
  }

  function Move(p: Pool, t: nat, phase: Phase): Pool
    requires t in p.threads
  {
    p.(threads := p.threads[t := p.threads[t].(phase := phase)])
  }

  function Take(p: Pool, t: nat, job: nat): Pool
    requires t in p.threads
  {
    p.(threads := p.threads[t := p.threads[t].(phase := Admitted, job := job)])
  }

  /** A locked database: the thread starts over with its own argument. */
  function Restart(p: Pool, t: nat): Pool
    requires t in p.threads
  {
    p.(threads := p.threads[t := p.threads[t].(phase := Spawned, job := p.threads[t].arg)])
  }

  /** The `finally` lock section of the thread functions. */
  function Discard(p: Pool, t: nat): Pool
    requires t in p.threads
  {
    Pool(p.active - {p.threads[t].gateway}, p.threads - {t})
  }

  // ---------------------------------------------------------------- services

  function Create(now: int, db: Db, g: nat, j: nat): Db {
    AddJob(now, SetGateway(db, g, Pending), j, CreateGateway, g)
  }

  ghost function PreparedStatus(db: Db, g: nat): GatewayStatus
    requires g in db.gateways
  {
    var latest := Latest(db, g, CreateGateway);
    if db.gateways[g] == Error then Pending
    else if db.gateways[g] == Provisioning && latest.Some? && db.jobs[latest.value].status == Failed then Pending
    else db.gateways[g]
  }

  /** `prepare_provisioning` with `reset_failed_job` inside it. */
  ghost function Prepare(now: int, db: Db, g: nat, newJob: nat): Db
    requires g in db.gateways
  {
    var db1 := SetGateway(db, g, PreparedStatus(db, g));
    match Latest(db, g, CreateGateway)
    case None => AddJob(now, db1, newJob, CreateGateway, g)
    case Some(j) => SetJob(now, db1, j, JobPending)
  }

  /** What a caller that wants gateway `g` provisioned does to the rows, and the job it then
      hands to `start_provisioning`. `pick` is the row the unordered query returns. */
  datatype Plan = Plan(db: Db, start: Option<nat>)

  /** One iteration of `resume_incomplete_provisioning`. */
  ghost function SweepPlan(now: int, db: Db, active: set<nat>, g: nat, pick: nat, newJob: nat): Plan {
    if g !in db.gateways || !NeedsProvisioning(db.gateways[g]) || g in active then Plan(db, None)
    else
      match Latest(db, g, CreateGateway)
      case None => Plan(Prepare(now, db, g, newJob), Some(pick))
      case Some(j) =>
        if db.jobs[j].status == Running then Plan(Prepare(now, db, g, newJob), Some(pick))
        else if db.jobs[j].status == JobPending then Plan(db, Some(j))
        else Plan(db, None)
  }

  /** `_maybe_enqueue_provisioning`, the retry button. */
  ghost function RetryPlan(now: int, db: Db, g: nat, pick: nat, newJob: nat): Plan {
    if g !in db.gateways || !NeedsProvisioning(db.gateways[g]) then Plan(db, None)
    else
      match Latest(db, g, CreateGateway)
      case None => Plan(Prepare(now, db, g, newJob), Some(pick))
      case Some(j) =>
        if db.jobs[j].status == Failed || db.gateways[g] == Error || db.jobs[j].status == Running then
          Plan(Prepare(now, db, g, newJob), Some(pick))
        else if db.jobs[j].status == JobPending then Plan(db, Some(j))
        else Plan(db, None)
  }

  function Follow(s: State, plan: Plan, t: nat, g: nat): State {
    s.(db := plan.db, prov := if plan.start.Some? then Start(s.prov, t, g, plan.start.value) else s.prov)
  }

  /** `request_delete_gateway`; also the job handed to the caller. */
  ghost function RequestDelete(now: int, db: Db, g: nat, newJob: nat): (Db, nat)
    requires g in db.gateways
  {
    var existing := Latest(db, g, DeleteGateway);
    if db.gateways[g] == Deleting && existing.Some? && Live(db.jobs[existing.value].status) then (db, existing.value)
    else if existing.Some? && db.jobs[existing.value].status == JobPending then
      (SetGateway(db, g, Deleting), existing.value)
    else (AddJob(now, SetGateway(db, g, Deleting), newJob, DeleteGateway, g), newJob)
  }

  predicate Live(status: JobStatus) {
    status == JobPending || status == Running
  }

  /** One iteration of `resume_incomplete_deletions`. */
  ghost function DeleteSweepPlan(now: int, db: Db, active: set<nat>, g: nat, newJob: nat): Plan {
    if g !in db.gateways || db.gateways[g] != Deleting || g in active then Plan(db, None)
    else
      match Latest(db, g, DeleteGateway)
      case None => Plan(AddJob(now, db, newJob, DeleteGateway, g), Some(newJob))
      case Some(j) =>
        if IsStale(now, db.jobs[j]) then Plan(SetJob(now, db, j, JobPending), Some(j))
        else if db.jobs[j].status == JobPending then Plan(db, Some(j))
        else Plan(db, None)
  }

  function FollowDelete(s: State, plan: Plan, t: nat, g: nat): State {
    s.(db := plan.db, del := if plan.start.Some? then Start(s.del, t, g, plan.start.value) else s.del)
  }

  // ---------------------------------------------------------------- provisioning thread

  predicate GatePrepares(now: int, db: Db, th: Thread) {
    th.gateway in db.gateways && NeedsProvisioning(db.gateways[th.gateway]) &&
    (th.arg !in db.jobs || IsStale(now, db.jobs[th.arg]))
  }

  /** The reads of `_run_gateway_provisioning_once` up to the QUEUED stage commit. */
  ghost function Gate(s: State, t: nat, pick: nat, newJob: nat): State
    requires t in s.prov.threads
  {
    var th := s.prov.threads[t];
    if th.gateway !in s.db.gateways || !NeedsProvisioning(s.db.gateways[th.gateway]) then
      s.(prov := Move(s.prov, t, Finished))
    else if GatePrepares(s.now, s.db, th) then
      s.(db := Touch(s.now, Prepare(s.now, s.db, th.gateway, newJob), pick), prov := Take(s.prov, t, pick))
    else if s.db.jobs[th.arg].status == JobPending then
      s.(db := Touch(s.now, s.db, th.arg), prov := Take(s.prov, t, th.arg))
    else s.(prov := Move(s.prov, t, Finished))
  }

  /** Both rows a commit of the thread writes still exist; otherwise the write raises and
      the handler finds nothing to update. */
  predicate RowsThere(db: Db, th: Thread) {
    th.gateway in db.gateways && th.job in db.jobs
  }

  /** One commit of `process_provisioning_job`: the rows it writes and the phase after it. */
  function Commit(s: State, t: nat, db: Db, phase: Phase): State
    requires t in s.prov.threads
  {
    if RowsThere(s.db, s.prov.threads[t]) then s.(db := db, prov := Move(s.prov, t, phase))
    else s.(prov := Move(s.prov, t, Finished))
  }

  function Begin(s: State, t: nat): State
    requires t in s.prov.threads
  {
    var j := s.prov.threads[t].job;
    Commit(s, t, Touch(s.now, SetJob(s.now, s.db, j, Running), j), Begun)
  }

  function Launch(s: State, t: nat): State
    requires t in s.prov.threads
  {
    var th := s.prov.threads[t];
    Commit(s, t, Touch(s.now, SetGateway(s.db, th.gateway, Provisioning), th.job), Launched)
  }

  /** READY, or ERROR for a failed health check or exit advertisement; either way
      `provision_gateway` returns normally. */
  function Settle(s: State, t: nat, ok: bool): State
    requires t in s.prov.threads
  {
    Commit(s, t, SetGateway(s.db, s.prov.threads[t].gateway, if ok then Ready else Error), Settled)
  }

  function Close(s: State, t: nat): State
    requires t in s.prov.threads
  {
    var j := s.prov.threads[t].job;
    s.(db := Touch(s.now, SetJob(s.now, s.db, j, Completed), j), prov := Move(s.prov, t, Finished))
  }

  /** The exception handler of `process_provisioning_job`. */
  function Fail(s: State, t: nat): State
    requires t in s.prov.threads
  {
    var th := s.prov.threads[t];
    Commit(s, t, SetJob(s.now, SetGateway(s.db, th.gateway, Error), th.job, Failed), Finished)
  }

  // ---------------------------------------------------------------- deletion thread

  function DelGate(s: State, t: nat): State
    requires t in s.del.threads
  {
    var g, j := s.del.threads[t].gateway, s.del.threads[t].job;
    if g !in s.db.gateways then
      s.(db := SetJob(s.now, s.db, j, Completed), del := Move(s.del, t, Finished))
    else if s.db.gateways[g] != Deleting || j !in s.db.jobs then s.(del := Move(s.del, t, Finished))
    else if IsStale(s.now, s.db.jobs[j]) then
      s.(db := SetJob(s.now, s.db, j, JobPending), del := Move(s.del, t, Admitted))
    else if Live(s.db.jobs[j].status) then s.(del := Move(s.del, t, Admitted))
    else s.(del := Move(s.del, t, Finished))
  }

  function DelBegin(s: State, t: nat): State
    requires t in s.del.threads
  {
    var j := s.del.threads[t].job;
    s.(db := SetJob(s.now, s.db, j, Running),
       del := Move(s.del, t, if j in s.db.jobs then Begun else Finished))
  }

  /** `execute_delete_gateway`: it does not look at the status again. */
  function DelExecute(s: State, t: nat): State
    requires t in s.del.threads
  {
    var g, j := s.del.threads[t].gateway, s.del.threads[t].job;
    s.(db := if g in s.db.gateways then RemoveGateway(s.db, g) else SetJob(s.now, s.db, j, Completed),
       del := Move(s.del, t, Finished))
  }

  function DelFail(s: State, t: nat): State
    requires t in s.del.threads
  {
    var g, j := s.del.threads[t].gateway, s.del.threads[t].job;
    var db1 := SetJob(s.now, s.db, j, Failed);
    s.(db := if g in db1.gateways then SetGateway(db1, g, Error) else db1, del := Move(s.del, t, Finished))
  }

  // ---------------------------------------------------------------- steps and runs

  datatype Step =
    | Tick(minutes: nat)
    | Crash
    | CreateStep(g: nat, j: nat)
    | StartProv(t: nat, g: nat, j: nat)
    | SweepProv(t: nat, g: nat, pick: nat, newJob: nat)
    | UiRetry(t: nat, g: nat, pick: nat, newJob: nat)
    | ProvGate(t: nat, pick: nat, newJob: nat)
    | ProvBegin(t: nat)
    | ProvHeartbeat(t: nat)
    | ProvLaunch(t: nat)
    | ProvSettle(t: nat, ok: bool)
    | ProvClose(t: nat)
    | ProvFail(t: nat)
    | ProvAbort(t: nat)
    | ProvRestart(t: nat)
    | ProvDiscard(t: nat)
    | DeleteRequest(g: nat, newJob: nat)
    | StartDel(t: nat, g: nat, j: nat)
    | SweepDel(t: nat, g: nat, newJob: nat)
    | DelGateStep(t: nat)
    | DelBeginStep(t: nat)
    | DelExecuteStep(t: nat)
    | DelFailStep(t: nat)
    | DelAbort(t: nat)
    | DelRestart(t: nat)
    | DelDiscard(t: nat)

  /** A job id the database may hand out: past every row, and held by no live thread. */
  ghost predicate FreshJob(s: State, j: nat) {
    && (forall k: nat :: k in s.db.jobs ==> k < j)
    && (forall t :: t in s.prov.threads ==> s.prov.threads[t].arg != j && s.prov.threads[t].job != j)
    && (forall t :: t in s.del.threads ==> s.del.threads[t].job != j)
  }

  ghost predicate FreshGateway(s: State, g: nat) {
    && g !in s.db.gateways
    && (forall t :: t in s.prov.threads ==> s.prov.threads[t].gateway != g)
    && (forall t :: t in s.del.threads ==> s.del.threads[t].gateway != g)
  }

  /** `pick` is a row the query after `prepare_provisioning` can return. */
  ghost predicate PickOk(s: State, g: nat, pick: nat, newJob: nat) {
    FreshJob(s, newJob) && (g in s.db.gateways ==> IsPendingOf(Prepare(s.now, s.db, g, newJob), g, pick))
  }

  predicate At(p: Pool, t: nat, phases: set<Phase>) {
    t in p.threads && p.threads[t].phase in phases
  }

  ghost predicate Enabled(s: State, step: Step) {
    match step
    case Tick(_) => true
    case Crash => true
    case CreateStep(g, j) => FreshGateway(s, g) && FreshJob(s, j)
    case StartProv(t, g, j) => t !in s.prov.threads && (j in s.db.jobs ==> IsJobOf(s.db, g, CreateGateway, j))
    case SweepProv(t, g, pick, newJob) => t !in s.prov.threads && PickOk(s, g, pick, newJob)
    case UiRetry(t, g, pick, newJob) => t !in s.prov.threads && PickOk(s, g, pick, newJob)
    case ProvGate(t, pick, newJob) =>
      At(s.prov, t, {Spawned}) && PickOk(s, s.prov.threads[t].gateway, pick, newJob)
    case ProvBegin(t) => At(s.prov, t, {Admitted})
    case ProvHeartbeat(t) => At(s.prov, t, {Begun, Launched, Settled})
    case ProvLaunch(t) => At(s.prov, t, {Begun})
    case ProvSettle(t, _) => At(s.prov, t, {Launched})
    case ProvClose(t) => At(s.prov, t, {Settled})
    case ProvFail(t) => At(s.prov, t, {Begun, Launched, Settled})
    case ProvAbort(t) => t in s.prov.threads
    case ProvRestart(t) => At(s.prov, t, {Spawned, Admitted, Begun, Launched, Settled})
    case ProvDiscard(t) => At(s.prov, t, {Finished})
    case DeleteRequest(g, newJob) => g in s.db.gateways && FreshJob(s, newJob)
    case StartDel(t, g, j) => t !in s.del.threads && (j in s.db.jobs ==> IsJobOf(s.db, g, DeleteGateway, j))
    case SweepDel(t, g, newJob) => t !in s.del.threads && FreshJob(s, newJob)
    case DelGateStep(t) => At(s.del, t, {Spawned})
    case DelBeginStep(t) => At(s.del, t, {Admitted})
    case DelExecuteStep(t) => At(s.del, t, {Begun})
    case DelFailStep(t) => At(s.del, t, {Begun})
    case DelAbort(t) => t in s.del.threads
    case DelRestart(t) => At(s.del, t, {Spawned, Admitted, Begun})
    case DelDiscard(t) => At(s.del, t, {Finished})
  }

  ghost function Apply(s: State, step: Step): State
    requires Enabled(s, step)
  {
    match step
    case Tick(m) => s.(now := s.now + m)
    case Crash => s.(prov := Idle, del := Idle)
    case CreateStep(g, j) => s.(db := Create(s.now, s.db, g, j))
    case StartProv(t, g, j) => s.(prov := Start(s.prov, t, g, j))
    case SweepProv(t, g, pick, newJob) => Follow(s, SweepPlan(s.now, s.db, s.prov.active, g, pick, newJob), t, g)
    case UiRetry(t, g, pick, newJob) => Follow(s, RetryPlan(s.now, s.db, g, pick, newJob), t, g)
    case ProvGate(t, pick, newJob) => Gate(s, t, pick, newJob)
    case ProvBegin(t) => Begin(s, t)
    case ProvHeartbeat(t) => s.(db := Touch(s.now, s.db, s.prov.threads[t].job))
    case ProvLaunch(t) => Launch(s, t)
    case ProvSettle(t, ok) => Settle(s, t, ok)
    case ProvClose(t) => Close(s, t)
    case ProvFail(t) => Fail(s, t)
    case ProvAbort(t) => s.(prov := Move(s.prov, t, Finished))
    case ProvRestart(t) => s.(prov := Restart(s.prov, t))
    case ProvDiscard(t) => s.(prov := Discard(s.prov, t))
    case DeleteRequest(g, newJob) => s.(db := RequestDelete(s.now, s.db, g, newJob).0)
    case StartDel(t, g, j) => s.(del := Start(s.del, t, g, j))
    case SweepDel(t, g, newJob) => FollowDelete(s, DeleteSweepPlan(s.now, s.db, s.del.active, g, newJob), t, g)
    case DelGateStep(t) => DelGate(s, t)
    case DelBeginStep(t) => DelBegin(s, t)
    case DelExecuteStep(t) => DelExecute(s, t)
    case DelFailStep(t) => DelFail(s, t)
    case DelAbort(t) => s.(del := Move(s.del, t, Finished))
    case DelRestart(t) => s.(del := Restart(s.del, t))
    case DelDiscard(t) => s.(del := Discard(s.del, t))
  }

  /** Every step of the list can be taken in turn. */
  ghost predicate Valid(s: State, run: seq<Step>)
    decreases |run|
  {
    run == [] || (Enabled(s, run[0]) && Valid(Apply(s, run[0]), run[1..]))
  }

  ghost function After(s: State, run: seq<Step>): State
    requires Valid(s, run)
    decreases |run|
  {
    if run == [] then s else After(Apply(s, run[0]), run[1..])
  }

  // ---------------------------------------------------------------- facts about the queries

  lemma {:induction false} LatestExists(db: Db, g: nat, kind: JobKind, j: nat)
    requires IsJobOf(db, g, kind, j)
    ensures Latest(db, g, kind).Some? && Latest(db, g, kind).value >= j
  {
    LatestAbove(db, g, kind, j, set k | k in db.jobs && k > j && IsJobOf(db, g, kind, k));
  }

  lemma {:induction false} LatestAbove(db: Db, g: nat, kind: JobKind, j: nat, above: set<nat>)
    requires IsJobOf(db, g, kind, j)
    requires above == set k | k in db.jobs && k > j && IsJobOf(db, g, kind, k)
    ensures exists m: nat :: IsLatest(db, g, kind, m) && m >= j
    decreases above
  {
    if above == {} {
      assert forall k: nat :: k > j && IsJobOf(db, g, kind, k) ==> k in above;
      assert IsLatest(db, g, kind, j);
    } else {
      var k :| k in above;
      var higher := set i | i in db.jobs && i > k && IsJobOf(db, g, kind, i);
      assert higher <= above - {k};
      LatestAbove(db, g, kind, k, higher);
    }
  }

  // ---------------------------------------------------------------- composing runs

  /** Some run leads from `s` to `s'`. */
  ghost predicate Reachable(s: State, s': State) {
    exists run :: Valid(s, run) && After(s, run) == s'
  }

  ghost predicate Goes(s: State, step: Step, s': State) {
    Enabled(s, step) && Apply(s, step) == s'
  }

  lemma ExtendTo(s0: State, s: State, step: Step, s': State)
    requires Reachable(s0, s) && Goes(s, step, s')
    ensures Reachable(s0, s')
  {
    Extend(s0, s, step);
  }

  lemma Extend(s0: State, s: State, step: Step)
    requires Reachable(s0, s) && Enabled(s, step)
    ensures Reachable(s0, Apply(s, step))
  {
    var run :| Valid(s0, run) && After(s0, run) == s;
    NoSteps(Apply(s, step));
    Chain(s, step, []);
    Append(s0, run, [step] + []);
  }

  lemma NoSteps(s: State)
    ensures Valid(s, []) && After(s, []) == s && Reachable(s, s)
  {
    assert Valid(s, []) && After(s, []) == s;
  }

  lemma Chain(s: State, step: Step, rest: seq<Step>)
    requires Enabled(s, step) && Valid(Apply(s, step), rest)
    ensures Valid(s, [step] + rest) && After(s, [step] + rest) == After(Apply(s, step), rest)
  {
    assert ([step] + rest)[1..] == rest;
  }

  lemma {:induction false} Append(s: State, run: seq<Step>, rest: seq<Step>)
    requires Valid(s, run) && Valid(After(s, run), rest)
    ensures Valid(s, run + rest) && After(s, run + rest) == After(After(s, run), rest)
    decreases |run|
  {
    if run == [] {
      assert run + rest == rest;
    } else {
      Append(Apply(s, run[0]), run[1..], rest);
      Chain(s, run[0], run[1..] + rest);
      assert run + rest == [run[0]] + (run[1..] + rest);
    }
  }
}
