/** What a lagging node cache can and cannot break.  An admission lists the nodes from the
    informer cache, so the list may miss nodes that are in service, and name some that are not. */
module RolloutListing {
  import opened Containers
  import opened GoText
  import opened Rollout
  import opened RolloutProtocol
  import opened RolloutTheorems

  /** One stay in the lock: node n takes it in step k and still holds it before step i. */
  ghost predicate IsStay(cfg: Config, run: seq<World>, steps: seq<Step>, k: nat, i: nat, n: string) {
    && IsRun(cfg, run, steps) && k < i <= |steps|
    && steps[k].TakeLock? && steps[k].n == n
    && forall j :: k < j <= i ==> run[j].lock == Some(n)
  }

  /** The list the holder works with is the one it took with the lock. */
  lemma StayLists(cfg: Config, run: seq<World>, steps: seq<Step>, k: nat, i: nat, n: string)
    requires IsStay(cfg, run, steps, k, i, n)
    ensures HoldsList(run[i], n, ListedBy(run[k], steps[k].nodeViews))
  {
    var listed := ListedBy(run[k], steps[k].nodeViews);
    assert IsStep(cfg, run, steps, k);
    forall j | k < j < i && HoldsList(run[j], n, listed) ensures HoldsList(run[j + 1], n, listed) {
      InvAlways(cfg, run, steps, j);
      assert IsStep(cfg, run, steps, j);
      ListStep(cfg, run[j], steps[j], n, listed);
    }
    Induct(run, k + 1, i, w => HoldsList(w, n, listed));
  }

  predicate HoldsList(w: World, n: string, listed: set<string>) {
    n in w.nodes && w.nodes[n].HoldsLock() && w.nodes[n].phase.listed == listed
  }

  lemma ListStep(cfg: Config, w: World, step: Step, n: string, listed: set<string>)
    requires Inv(cfg, w) && HoldsList(w, n, listed) && Enabled(cfg, w, step) && Do(cfg, w, step).lock == Some(n)
    ensures HoldsList(Do(cfg, w, step), n, listed) && !step.ApplyAdmitted?
  {
    InvStep(cfg, w, step);
    HeldBefore(cfg, w, step, n);
  }

  lemma LockedBefore(cfg: Config, w: World, step: Step, n: string)
    requires Inv(cfg, w) && Enabled(cfg, w, step) && Do(cfg, w, step).lock == Some(n)
    ensures w.lock == Some(n) || (step.TakeLock? && step.n == n)
  {
  }

  /** Whoever holds the lock took it in some earlier step. */
  lemma {:induction false} StayExists(cfg: Config, run: seq<World>, steps: seq<Step>, i: nat, n: string)
    returns (k: nat)
    requires IsRun(cfg, run, steps) && i < |run| && run[i].lock == Some(n)
    ensures IsStay(cfg, run, steps, k, i, n)
  {
    InvAlways(cfg, run, steps, i - 1);
    assert IsStep(cfg, run, steps, i - 1);
    LockedBefore(cfg, run[i - 1], steps[i - 1], n);
    if steps[i - 1].TakeLock? && steps[i - 1].n == n {
      return i - 1;
    }
    k := StayExists(cfg, run, steps, i - 1, n);
  }

  // ----- Quiet stays -----

  ghost predicate IsQuietStay(cfg: Config, run: seq<World>, steps: seq<Step>, k: nat, i: nat, n: string) {
    IsStay(cfg, run, steps, k, i, n) && forall j :: k <= j < i ==> IsQuietStep(cfg, run, steps, j)
  }

  function TemplateOf(ns: NodeState): Option<Template> {
    if ns.deployments.live.Some? then Some(ns.deployments.live.value.template) else None
  }

  /** A node that at most became available. */
  predicate Unmoved(cfg: Config, m: string, before: NodeState, after: NodeState) {
    && after.InService() == before.InService() && TemplateOf(after) == TemplateOf(before)
    && (IsPending(cfg, m, after.deployments.live) <==> IsPending(cfg, m, before.deployments.live))
    && (IsAvail(before.deployments.live) ==> IsAvail(after.deployments.live))
  }

  predicate AllUnmoved(cfg: Config, before: World, after: World) {
    before.nodes.Keys == after.nodes.Keys &&
    forall m :: m in before.nodes ==> Unmoved(cfg, m, before.nodes[m], after.nodes[m])
  }

  lemma UnmovedStep(cfg: Config, w0: World, w: World, step: Step)
    requires Inv(cfg, w) && AllUnmoved(cfg, w0, w)
    requires Enabled(cfg, w, step) && Quiet(cfg, w, step) && !step.ApplyAdmitted?
    ensures AllUnmoved(cfg, w0, Do(cfg, w, step))
  {
    ActorStep(cfg, w, step);
    TemplateStep(cfg, w, step);
    OthersKept(cfg, w, step);
  }

  lemma UnmovedSets(cfg: Config, w0: World, w: World, listed: set<string>)
    requires AllUnmoved(cfg, w0, w)
    ensures InServiceNodes(w) == InServiceNodes(w0) && Down(w) <= Down(w0)
    ensures Pending(cfg, w) == Pending(cfg, w0) && PendingAmong(cfg, w, listed) == PendingAmong(cfg, w0, listed)
  {
  }

  /** The node itself asked for a rollout while its Deployment was up. */
  predicate AskedUp(cfg: Config, w0: World, n: string) {
    n in w0.nodes && IsPending(cfg, n, w0.nodes[n].deployments.live) && IsAvail(w0.nodes[n].deployments.live)
  }

  /** What holds of a world in the middle of a stay that began in `w0` with the given list. */
  ghost predicate StayInv(cfg: Config, w0: World, n: string, listed: set<string>, w: World) {
    && Inv(cfg, w) && AllUnmoved(cfg, w0, w) && HoldsList(w, n, listed)
    && StayPhase(cfg, w0, n, w, w.nodes[n].phase)
  }

  /** What the worker has fetched still holds; what it was granted, it was granted rightly for
      its list. */
  ghost predicate StayPhase(cfg: Config, w0: World, n: string, w: World, phase: Phase)
    requires IsLocked(phase)
  {
    && (phase.Fetched? ==> StillTrue(cfg, phase.fetched, w))
    && (phase.Fetched? && AskedUp(cfg, w0, n) && n in phase.fetched ==> IsAvail(phase.fetched[n]))
    && (phase.Admitted? && AskedUp(cfg, w0, n) ==>
          Down(w) !! phase.listed && IsLeast(n, PendingAmong(cfg, w0, phase.listed)))
  }

  lemma StayFetched(cfg: Config, w0: World, n: string, listed: set<string>, w: World, step: Step)
    requires StayInv(cfg, w0, n, listed, w) && Enabled(cfg, w, step) && Quiet(cfg, w, step)
    requires Do(cfg, w, step).nodes[n].phase.Fetched?
    ensures StayPhase(cfg, w0, n, Do(cfg, w, step), Do(cfg, w, step).nodes[n].phase)
  {
    FetchedBefore(cfg, w, step, n);
    FetchedStillTrue(cfg, w, step, n);
    assert Unmoved(cfg, n, w0.nodes[n], w.nodes[n]);
  }

  lemma StayAdmitted(cfg: Config, w0: World, n: string, listed: set<string>, w: World, step: Step)
    requires StayInv(cfg, w0, n, listed, w) && Enabled(cfg, w, step) && Quiet(cfg, w, step)
    requires Do(cfg, w, step).nodes[n].phase.Admitted? && AskedUp(cfg, w0, n) && !step.ApplyAdmitted?
    ensures Down(Do(cfg, w, step)) !! listed && IsLeast(n, PendingAmong(cfg, w0, listed))
  {
    UnmovedStep(cfg, w0, w, step);
    UnmovedSets(cfg, w0, w, listed);
    assert Unmoved(cfg, n, w0.nodes[n], Do(cfg, w, step).nodes[n]);
    AdmittedBefore(cfg, w, step, n);
    DownStep(cfg, w, step);
    if step.Decide? && step.n == n {
      DecideSafe(cfg, w, step);
    }
  }

  lemma StayStep(cfg: Config, w0: World, n: string, listed: set<string>, w: World, step: Step)
    requires StayInv(cfg, w0, n, listed, w) && Enabled(cfg, w, step) && Quiet(cfg, w, step)
    requires Do(cfg, w, step).lock == Some(n)
    ensures StayInv(cfg, w0, n, listed, Do(cfg, w, step))
  {
    ListStep(cfg, w, step, n, listed);
    InvStep(cfg, w, step);
    UnmovedStep(cfg, w0, w, step);
    var w' := Do(cfg, w, step);
    if w'.nodes[n].phase.Fetched? {
      StayFetched(cfg, w0, n, listed, w, step);
    } else if w'.nodes[n].phase.Admitted? && AskedUp(cfg, w0, n) {
      StayAdmitted(cfg, w0, n, listed, w, step);
    }
  }

  lemma StayStart(cfg: Config, w0: World, step: Step)
    requires Inv(cfg, w0) && Enabled(cfg, w0, step) && step.TakeLock?
    ensures StayInv(cfg, w0, step.n, ListedBy(w0, step.nodeViews), Do(cfg, w0, step))
  {
    InvStep(cfg, w0, step);
    UnmovedStep(cfg, w0, w0, step);
  }

  lemma StayAlways(cfg: Config, run: seq<World>, steps: seq<Step>, k: nat, i: nat, n: string)
    requires IsQuietStay(cfg, run, steps, k, i, n)
    ensures StayInv(cfg, run[k], n, ListedBy(run[k], steps[k].nodeViews), run[i])
  {
    var w0, listed := run[k], ListedBy(run[k], steps[k].nodeViews);
    StayBegins(cfg, run, steps, k, i, n);
    forall j | k < j < i && StayInv(cfg, w0, n, listed, run[j]) ensures StayInv(cfg, w0, n, listed, run[j + 1]) {
      StayNext(cfg, run, steps, k, i, j, n, listed);
    }
    Induct(run, k + 1, i, w => StayInv(cfg, w0, n, listed, w));
  }

  lemma StayNext(cfg: Config, run: seq<World>, steps: seq<Step>, k: nat, i: nat, j: nat, n: string, listed: set<string>)
    requires IsQuietStay(cfg, run, steps, k, i, n) && k < j < i && StayInv(cfg, run[k], n, listed, run[j])
    ensures StayInv(cfg, run[k], n, listed, run[j + 1])
  {
    assert IsQuietStep(cfg, run, steps, j);
    StayStep(cfg, run[k], n, listed, run[j], steps[j]);
  }

  lemma StayBegins(cfg: Config, run: seq<World>, steps: seq<Step>, k: nat, i: nat, n: string)
    requires IsQuietStay(cfg, run, steps, k, i, n)
    ensures StayInv(cfg, run[k], n, ListedBy(run[k], steps[k].nodeViews), run[k + 1])
  {
    InvAlways(cfg, run, steps, k);
    assert IsStep(cfg, run, steps, k);
    StayStart(cfg, run[k], steps[k]);
  }

  // ----- Exactly what a stale list breaks -----

  /** In a quiet stay the write pushes the down count above max(1, count at the listing)
      exactly when its node was in service and up, its template changes, nobody recovered since,
      and the list missed a node that was down. */
  lemma MissedDownExactly(cfg: Config, run: seq<World>, steps: seq<Step>, k: nat, i: nat, n: string)
    requires IsQuietStay(cfg, run, steps, k, i, n)
    requires i < |steps| && steps[i] == ApplyAdmitted(n) && n in run[i].nodes && run[i].nodes[n].deployments.live.Some?
    ensures |Down(run[i + 1])| > AtLeastOne(|Down(run[k])|) <==>
              && n in InServiceNodes(run[k]) && n !in Down(run[k])
              && TemplateOf(run[k].nodes[n]) != Some(Target(cfg, n))
              && Down(run[i]) == Down(run[k])
              && !(Down(run[k]) <= ListedBy(run[k], steps[k].nodeViews))
  {
    StayAlways(cfg, run, steps, k, i, n);
    assert IsStep(cfg, run, steps, i);
    MissedDown(cfg, run[k], n, ListedBy(run[k], steps[k].nodeViews), run[i]);
  }

  lemma MissedDown(cfg: Config, w0: World, n: string, listed: set<string>, w: World)
    requires StayInv(cfg, w0, n, listed, w) && Enabled(cfg, w, ApplyAdmitted(n)) && w.nodes[n].deployments.live.Some?
    ensures |Down(Do(cfg, w, ApplyAdmitted(n)))| > AtLeastOne(|Down(w0)|) <==>
              && n in InServiceNodes(w0) && n !in Down(w0) && TemplateOf(w0.nodes[n]) != Some(Target(cfg, n))
              && Down(w) == Down(w0) && !(Down(w0) <= listed)
  {
    WriteBringsDown(cfg, w, n);
    UnmovedSets(cfg, w0, w, listed);
    assert Unmoved(cfg, n, w0.nodes[n], w.nodes[n]);
    var isRise := n in InServiceNodes(w0) && TemplateOf(w0.nodes[n]) != Some(Target(cfg, n));
    assert isRise ==> n in Pending(cfg, w0) by {
      assert NodeInv(cfg, n, w.nodes[n]);
      assert w.nodes[n].deployments.Has(w.nodes[n].deployments.live);
    }
    CountRise(Down(w0), Down(w), n, isRise, listed);
  }

  /** When one more node goes down beside a set that can only have shrunk. */
  lemma CountRise(down0: set<string>, down: set<string>, n: string, isRise: bool, listed: set<string>)
    requires down <= down0 && (isRise && n !in down0 ==> down !! listed)
    ensures |down + (if isRise then {n} else {})| > AtLeastOne(|down0|) <==>
              isRise && n !in down0 && down == down0 && !(down0 <= listed)
  {
    SubsetCard(down, down0);
    if isRise && n !in down0 {
      assert |down + {n}| == |down| + 1;
      if |down| == |down0| {
        FullSubset(down, down0);
      }
      assert down == down0 ==> (down0 <= listed <==> down0 == {});
    } else {
      SubsetCard(down + (if isRise then {n} else {}), down0);
    }
  }

  /** In a quiet stay a Deployment that was pending and up is rolled out in its turn, as the
      least pending in-service node, exactly when the node was in service and the list missed no
      pending node with a smaller name. */
  lemma MissedTurnExactly(cfg: Config, run: seq<World>, steps: seq<Step>, k: nat, i: nat, n: string)
    requires IsQuietStay(cfg, run, steps, k, i, n)
    requires i < |steps| && steps[i] == ApplyAdmitted(n) && AskedUp(cfg, run[k], n)
    ensures IsLeast(n, Pending(cfg, run[i])) <==>
              && run[k].nodes[n].InService()
              && forall m :: m in Pending(cfg, run[k]) && Less(m, n) ==> m in ListedBy(run[k], steps[k].nodeViews)
  {
    StayAlways(cfg, run, steps, k, i, n);
    assert IsStep(cfg, run, steps, i);
    MissedTurn(cfg, run[k], n, ListedBy(run[k], steps[k].nodeViews), run[i]);
  }

  lemma MissedTurn(cfg: Config, w0: World, n: string, listed: set<string>, w: World)
    requires StayInv(cfg, w0, n, listed, w) && w.nodes[n].phase.Admitted? && AskedUp(cfg, w0, n)
    ensures IsLeast(n, Pending(cfg, w)) <==>
              w0.nodes[n].InService() && forall m :: m in Pending(cfg, w0) && Less(m, n) ==> m in listed
  {
    UnmovedSets(cfg, w0, w, listed);
    forall m | m in Pending(cfg, w0) && Less(m, n)
      ensures !IsLeast(n, Pending(cfg, w0)) && m !in listed
    {
      LessAsymmetric(m, n);
      assert m in listed ==> m in PendingAmong(cfg, w0, listed);
    }
    forall m | m in Pending(cfg, w0) && m != n && !Less(m, n) ensures Less(n, m) {
      LessTotal(m, n);
    }
  }

  /** Step i replaces the template of node n's Deployment. */
  predicate Replaces(run: seq<World>, i: nat, n: string) {
    && i + 1 < |run| && n in run[i].nodes && n in run[i + 1].nodes
    && var before, after := run[i].nodes[n].deployments.live, run[i + 1].nodes[n].deployments.live;
       before.Some? && after.Some? && before.value.template != after.value.template
  }

  /** The worker of n read its node in service before it came to ask. */
  predicate ReadsInService(steps: seq<Step>, j: nat, n: string) {
    j < |steps| && steps[j].ReadCaches? && steps[j].n == n && IsInService(steps[j].seen.node)
  }

  lemma {:induction false} ReadBefore(cfg: Config, run: seq<World>, steps: seq<Step>, i: nat, n: string)
    returns (j: nat)
    requires IsRun(cfg, run, steps) && i < |run| && n in run[i].nodes && run[i].nodes[n].phase.SyncPod?
    ensures j < i && steps[j] == ReadCaches(n, run[i].nodes[n].phase.seen)
  {
    assert IsStep(cfg, run, steps, i - 1);
    OthersKept(cfg, run[i - 1], steps[i - 1]);
    if steps[i - 1].n == n && steps[i - 1].ReadCaches? {
      return i - 1;
    }
    j := ReadBefore(cfg, run, steps, i - 1, n);
  }

  lemma {:induction false} AsksInService(cfg: Config, run: seq<World>, steps: seq<Step>, i: nat, n: string)
    returns (j: nat)
    requires IsRun(cfg, run, steps) && i < |run| && n in run[i].nodes && run[i].nodes[n].phase.AskAdmission?
    ensures j < i && ReadsInService(steps, j, n)
  {
    assert IsStep(cfg, run, steps, i - 1);
    OthersKept(cfg, run[i - 1], steps[i - 1]);
    if steps[i - 1].n == n && steps[i - 1].SyncPrePullPod? {
      j := ReadBefore(cfg, run, steps, i - 1, n);
    } else {
      j := AsksInService(cfg, run, steps, i - 1, n);
    }
  }

  /** Cordoned and NotReady nodes wait, as far as the cache knows: in every run, a template is
      replaced only after the worker read the node in service, and in a stay in the lock that
      listed the node itself from a cached view in service. */
  lemma OutOfServiceWaits(cfg: Config, run: seq<World>, steps: seq<Step>, i: nat, n: string) returns (k: nat)
    requires IsRun(cfg, run, steps) && Replaces(run, i, n)
    ensures IsStay(cfg, run, steps, k, i, n) && steps[i] == ApplyAdmitted(n)
    ensures n in ListedBy(run[k], steps[k].nodeViews)
    ensures exists j :: 0 <= j < k && ReadsInService(steps, j, n)
  {
    StaleCacheSafety(cfg, run, steps, i, n);
    k := StayExists(cfg, run, steps, i, n);
    StayLists(cfg, run, steps, k, i, n);
    InvAlways(cfg, run, steps, i);
    assert IsStep(cfg, run, steps, i) && IsStep(cfg, run, steps, k);
    var j := AsksInService(cfg, run, steps, k, n);
  }

  /** In a quiet stay a template is replaced on a node out of service exactly when that node was
      out of service at the list, which took it from an outdated view. */
  lemma OutOfServiceExactly(cfg: Config, run: seq<World>, steps: seq<Step>, k: nat, i: nat, n: string)
    requires IsQuietStay(cfg, run, steps, k, i, n) && Replaces(run, i, n)
    ensures n in run[k].nodes && n in steps[k].nodeViews
    ensures !run[i].nodes[n].InService() <==> !run[k].nodes[n].InService() && IsInService(steps[k].nodeViews[n])
  {
    var k' := OutOfServiceWaits(cfg, run, steps, i, n);
    StayAlways(cfg, run, steps, k, i, n);
    StayLists(cfg, run, steps, k', i, n);
    assert Unmoved(cfg, n, run[k].nodes[n], run[i].nodes[n]);
  }
}
