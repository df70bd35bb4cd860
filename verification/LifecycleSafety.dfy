/** At most one worker thread of each kind per gateway, over every interleaving. */
module LifecycleSafety {
  import opened Common
  import opened Lifecycle

  // ---------------------------------------------------------------- mutual exclusion

  /** The `_active` set is exactly the gateways with a live thread, one thread each. */
  ghost predicate PoolOk(p: Pool) {
    && (forall t :: t in p.threads ==> p.threads[t].gateway in p.active)
    && (forall t, u :: t in p.threads && u in p.threads && p.threads[t].gateway == p.threads[u].gateway ==> t == u)
    && (forall g :: g in p.active ==> exists t :: t in p.threads && p.threads[t].gateway == g)
  }

  lemma StartKeepsPool(p: Pool, t: nat, g: nat, j: nat)
    requires PoolOk(p) && t !in p.threads
    ensures PoolOk(Start(p, t, g, j))
  {
    var p' := Start(p, t, g, j);
    forall h | h in p'.active ensures exists u :: u in p'.threads && p'.threads[u].gateway == h {
      if h in p.active {
        var u :| u in p.threads && p.threads[u].gateway == h;
        assert p'.threads[u].gateway == h;
      } else {
        assert p'.threads[t].gateway == h;
      }
    }
  }

  lemma UpdateKeepsPool(p: Pool, t: nat, th: Thread)
    requires PoolOk(p) && t in p.threads && th.gateway == p.threads[t].gateway
    ensures PoolOk(p.(threads := p.threads[t := th]))
  {
    var p' := p.(threads := p.threads[t := th]);
    forall h | h in p'.active ensures exists u :: u in p'.threads && p'.threads[u].gateway == h {
      var u :| u in p.threads && p.threads[u].gateway == h;
      assert p'.threads[u].gateway == h;
    }
  }

  lemma DiscardKeepsPool(p: Pool, t: nat)
    requires PoolOk(p) && t in p.threads
    ensures PoolOk(Discard(p, t))
  {
    var p' := Discard(p, t);
    forall h | h in p'.active ensures exists u :: u in p'.threads && p'.threads[u].gateway == h {
      var u :| u in p.threads && p.threads[u].gateway == h;
      assert p'.threads[u].gateway == h;
    }
  }

  lemma IdlePool()
    ensures PoolOk(Idle)
  {
  }

  lemma StepKeepsProvPool(s: State, step: Step)
    requires PoolOk(s.prov) && Enabled(s, step)
    ensures PoolOk(Apply(s, step).prov)
  {
    hide PoolOk, FreshJob, FreshGateway, PickOk, Latest, SweepPlan, RetryPlan, DeleteSweepPlan, RequestDelete;
    match step
    case Crash => IdlePool();
    case StartProv(t, g, j) => StartKeepsPool(s.prov, t, g, j);
    case SweepProv(t, g, pick, newJob) =>
      var plan := SweepPlan(s.now, s.db, s.prov.active, g, pick, newJob);
      if plan.start.Some? { StartKeepsPool(s.prov, t, g, plan.start.value); }
    case UiRetry(t, g, pick, newJob) =>
      var plan := RetryPlan(s.now, s.db, g, pick, newJob);
      if plan.start.Some? { StartKeepsPool(s.prov, t, g, plan.start.value); }
    case ProvDiscard(t) => DiscardKeepsPool(s.prov, t);
    case ProvGate(t, pick, newJob) => UpdateKeepsPool(s.prov, t, Apply(s, step).prov.threads[t]);
    case ProvBegin(t) => UpdateKeepsPool(s.prov, t, Apply(s, step).prov.threads[t]);
    case ProvLaunch(t) => UpdateKeepsPool(s.prov, t, Apply(s, step).prov.threads[t]);
    case ProvSettle(t, ok) => UpdateKeepsPool(s.prov, t, Apply(s, step).prov.threads[t]);
    case ProvClose(t) => UpdateKeepsPool(s.prov, t, Apply(s, step).prov.threads[t]);
    case ProvFail(t) => UpdateKeepsPool(s.prov, t, Apply(s, step).prov.threads[t]);
    case ProvAbort(t) => UpdateKeepsPool(s.prov, t, Apply(s, step).prov.threads[t]);
    case ProvRestart(t) => UpdateKeepsPool(s.prov, t, Apply(s, step).prov.threads[t]);
    case _ =>
  }

  lemma StepKeepsDelPool(s: State, step: Step)
    requires PoolOk(s.del) && Enabled(s, step)
    ensures PoolOk(Apply(s, step).del)
  {
    hide PoolOk, FreshJob, FreshGateway, PickOk, Latest, SweepPlan, RetryPlan, DeleteSweepPlan, RequestDelete;
    match step
    case Crash => IdlePool();
    case StartDel(t, g, j) => StartKeepsPool(s.del, t, g, j);
    case SweepDel(t, g, newJob) =>
      var plan := DeleteSweepPlan(s.now, s.db, s.del.active, g, newJob);
      if plan.start.Some? { StartKeepsPool(s.del, t, g, plan.start.value); }
    case DelDiscard(t) => DiscardKeepsPool(s.del, t);
    case DelGateStep(t) => UpdateKeepsPool(s.del, t, Apply(s, step).del.threads[t]);
    case DelBeginStep(t) => UpdateKeepsPool(s.del, t, Apply(s, step).del.threads[t]);
    case DelExecuteStep(t) => UpdateKeepsPool(s.del, t, Apply(s, step).del.threads[t]);
    case DelFailStep(t) => UpdateKeepsPool(s.del, t, Apply(s, step).del.threads[t]);
    case DelAbort(t) => UpdateKeepsPool(s.del, t, Apply(s, step).del.threads[t]);
    case DelRestart(t) => UpdateKeepsPool(s.del, t, Apply(s, step).del.threads[t]);
    case _ =>
  }

  /** At every point of every interleaving there is at most one live provisioning thread and
      at most one live deletion thread per gateway, and each `_active` set is exactly the
      gateways with such a thread. */
  lemma {:induction false} MutualExclusion(s: State, run: seq<Step>)
    requires PoolOk(s.prov) && PoolOk(s.del) && Valid(s, run)
    ensures PoolOk(After(s, run).prov) && PoolOk(After(s, run).del)
    decreases |run|
  {
    if run != [] {
      StepKeepsProvPool(s, run[0]);
      StepKeepsDelPool(s, run[0]);
      MutualExclusion(Apply(s, run[0]), run[1..]);
    }
  }
}
