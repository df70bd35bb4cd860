/** Deletion: how DELETING is left, and when provisioning threads can overwrite it. */
module LifecycleDeletion {
  import opened Common
  import opened Lifecycle
  import opened LifecycleSafety
  import opened LifecycleNoStranding
  import opened LifecycleRecovery

  predicate IsDeleting(db: Db, g: nat) {
    g in db.gateways && db.gateways[g] == Deleting
  }

  // ---------------------------------------------------------------- leaving DELETING

  /** No provisioning thread of `g` has passed its gate. */
  ghost predicate Quiet(s: State, g: nat) {
    forall t :: t in s.prov.threads && s.prov.threads[t].gateway == g ==> s.prov.threads[t].phase in {Spawned, Finished}
  }

  /** A deletion thread of `g` removing the row, or recording its own failure as ERROR. */
  ghost predicate DeletionOutcome(s: State, step: Step, g: nat)
    requires Enabled(s, step)
  {
    var s' := Apply(s, step);
    || (step.DelExecuteStep? && s.del.threads[step.t].gateway == g && g !in s'.db.gateways)
    || (step.DelFailStep? && s.del.threads[step.t].gateway == g && g in s'.db.gateways && s'.db.gateways[g] == Error)
  }

  lemma QuietPlanStep(s: State, plan: Plan, t: nat, g: nat, h: nat)
    requires IsDeleting(s.db, g) && Quiet(s, g) && t !in s.prov.threads
    requires plan.db == s.db || (h in s.db.gateways && NeedsProvisioning(s.db.gateways[h]) && h != g && g in plan.db.gateways && plan.db.gateways[g] == Deleting)
    ensures IsDeleting(Follow(s, plan, t, h).db, g) && Quiet(Follow(s, plan, t, h), g)
  {
  }

  lemma QuietStep(s: State, step: Step, g: nat)
    requires IsDeleting(s.db, g) && Quiet(s, g) && Enabled(s, step)
    ensures (IsDeleting(Apply(s, step).db, g) && Quiet(Apply(s, step), g)) || DeletionOutcome(s, step, g)
  {
    hide FreshJob, PickOk, Latest;
    match step
    case SweepProv(t, h, pick, newJob) =>
      QuietPlanStep(s, SweepPlan(s.now, s.db, s.prov.active, h, pick, newJob), t, g, h);
    case UiRetry(t, h, pick, newJob) =>
      QuietPlanStep(s, RetryPlan(s.now, s.db, h, pick, newJob), t, g, h);
    case _ => QuietOther(s, step, g);
  }

  lemma QuietOther(s: State, step: Step, g: nat)
    requires IsDeleting(s.db, g) && Quiet(s, g) && Enabled(s, step) && !step.SweepProv? && !step.UiRetry?
    ensures (IsDeleting(Apply(s, step).db, g) && Quiet(Apply(s, step), g)) || DeletionOutcome(s, step, g)
  {
    hide FreshJob, PickOk, Latest;
    match step
    case Tick(m) =>
    case Crash =>
    case CreateStep(h, j) =>
    case StartProv(t, h, j) =>
    case ProvGate(t, pick, newJob) =>
    case ProvBegin(t) =>
    case ProvHeartbeat(t) =>
    case ProvLaunch(t) =>
    case ProvSettle(t, ok) =>
    case ProvClose(t) =>
    case ProvFail(t) =>
    case ProvAbort(t) =>
    case ProvRestart(t) =>
    case ProvDiscard(t) =>
    case DeleteRequest(h, newJob) =>
    case StartDel(t, h, j) =>
    case SweepDel(t, h, newJob) =>
    case DelGateStep(t) =>
    case DelBeginStep(t) =>
    case DelExecuteStep(t) =>
    case DelFailStep(t) =>
    case DelAbort(t) =>
    case DelRestart(t) =>
    case DelDiscard(t) =>
  }

  /** The state after the first `k` steps. */
  ghost function StateAt(s: State, run: seq<Step>, k: nat): State
    requires Valid(s, run) && k <= |run|
    decreases k
  {
    if k == 0 then s else StateAt(Apply(s, run[0]), run[1..], k - 1)
  }

  lemma {:induction false} StepAt(s: State, run: seq<Step>, k: nat)
    requires Valid(s, run) && k < |run|
    ensures Enabled(StateAt(s, run, k), run[k])
    ensures StateAt(s, run, k + 1) == Apply(StateAt(s, run, k), run[k])
    decreases k
  {
    if k > 0 {
      StepAt(Apply(s, run[0]), run[1..], k - 1);
      assert run[1..][k - 1] == run[k];
    }
  }

  /** In every run from a state where `g` is DELETING and no provisioning thread of `g` has
      passed its gate, the first step that leaves DELETING is a deletion thread removing the
      row or recording a failed deletion as ERROR. */
  lemma {:induction false} DeletingLeftOnlyByDeletion(s: State, run: seq<Step>, g: nat, k: nat)
    requires IsDeleting(s.db, g) && Quiet(s, g) && Valid(s, run) && k < |run|
    requires forall i: nat :: i <= k ==> IsDeleting(StateAt(s, run, i).db, g)
    ensures Quiet(StateAt(s, run, k), g)
    ensures Enabled(StateAt(s, run, k), run[k])
    ensures IsDeleting(StateAt(s, run, k + 1).db, g) || DeletionOutcome(StateAt(s, run, k), run[k], g)
    decreases k
  {
    StepAt(s, run, k);
    if k > 0 {
      DeletingLeftOnlyByDeletion(s, run, g, k - 1);
      StepAt(s, run, k - 1);
      QuietStep(StateAt(s, run, k - 1), run[k - 1], g);
      assert IsDeleting(StateAt(s, run, k).db, g);
      OutcomeLeaves(StateAt(s, run, k - 1), run[k - 1], g);
    }
    QuietStep(StateAt(s, run, k), run[k], g);
  }

  lemma OutcomeLeaves(s: State, step: Step, g: nat)
    requires Enabled(s, step)
    ensures DeletionOutcome(s, step, g) ==> !IsDeleting(Apply(s, step).db, g)
  {
  }

  predicate ProvisioningStep(step: Step) {
    step.ProvBegin? || step.ProvLaunch? || step.ProvSettle? || step.ProvClose? || step.ProvFail?
  }

  /** Provisioning threads alone can take the gateway out of DELETING while its row stays. */
  ghost predicate Overwritable(s: State, g: nat) {
    exists run :: Valid(s, run) && (forall i :: 0 <= i < |run| ==> ProvisioningStep(run[i])) && Overwritten(After(s, run), g)
  }

  predicate Overwritten(s: State, g: nat) {
    g in s.db.gateways && s.db.gateways[g] != Deleting
  }

  lemma {:induction false} QuietKeepsDeleting(s: State, run: seq<Step>, g: nat)
    requires IsDeleting(s.db, g) && Quiet(s, g) && Valid(s, run)
    requires forall i :: 0 <= i < |run| ==> ProvisioningStep(run[i])
    ensures !Overwritten(After(s, run), g)
    decreases |run|
  {
    if run != [] {
      assert ProvisioningStep(run[0]);
      QuietStep(s, run[0], g);
      QuietKeepsDeleting(Apply(s, run[0]), run[1..], g);
    }
  }

  /** The delete request is safe from the provisioning threads exactly when none of them has
      passed its gate: past it, a thread can still overwrite DELETING. */
  lemma OverwritableExactlyWhenNotQuiet(s: State, g: nat)
    requires Inv(s) && IsDeleting(s.db, g)
    ensures Overwritable(s, g) <==> !Quiet(s, g)
  {
    if Quiet(s, g) {
      forall run | Valid(s, run) && (forall i :: 0 <= i < |run| ==> ProvisioningStep(run[i]))
        ensures !Overwritten(After(s, run), g)
      {
        QuietKeepsDeleting(s, run, g);
      }
    } else {
      var t :| t in s.prov.threads && s.prov.threads[t].gateway == g && s.prov.threads[t].phase !in {Spawned, Finished};
      assert ThreadOk(s.db, s.prov.threads[t]);
      if s.prov.threads[t].phase == Admitted {
        var s1 := Apply(s, ProvBegin(t));
        FailOverwrites(s1, t);
        Chain(s, ProvBegin(t), [ProvFail(t)]);
        assert Overwritten(After(s, [ProvBegin(t)] + [ProvFail(t)]), g);
      } else {
        FailOverwrites(s, t);
      }
    }
  }

  lemma FailOverwrites(s: State, t: nat)
    requires At(s.prov, t, {Begun, Launched, Settled}) && RowsThere(s.db, s.prov.threads[t])
    ensures Valid(s, [ProvFail(t)]) && Overwritten(After(s, [ProvFail(t)]), s.prov.threads[t].gateway)
  {
    NoSteps(Apply(s, ProvFail(t)));
    Chain(s, ProvFail(t), []);
    assert [ProvFail(t)] + [] == [ProvFail(t)];
  }

  /** In particular a thread that has launched its VM turns DELETING into READY. */
  lemma ReadyOverwritesDeleting(s: State, t: nat)
    requires Inv(s) && At(s.prov, t, {Launched}) && IsDeleting(s.db, s.prov.threads[t].gateway)
    ensures Enabled(s, ProvSettle(t, true))
    ensures s.prov.threads[t].gateway in Apply(s, ProvSettle(t, true)).db.gateways
    ensures Apply(s, ProvSettle(t, true)).db.gateways[s.prov.threads[t].gateway] == Ready
  {
    assert ThreadOk(s.db, s.prov.threads[t]);
  }
}
