/** The image pre-pull: no rollout before every listed node has the image, and no lost work. */
module RolloutPrePull {
  import opened Containers
  import opened Rollout
  import opened RolloutProtocol
  import opened RolloutTheorems
  import opened RolloutListing

  /** The in-service nodes that still need the new image and have not really pulled it. */
  function Lacking(cfg: Config, w: World): set<string> {
    set m | m in w.nodes && w.nodes[m].InService() && !Gated(cfg, m, w.nodes[m])
  }

  /** In every run, a template is replaced in a stay that listed no node still lacking the image,
      however stale the pod cache was. */
  lemma PrePullGate(cfg: Config, run: seq<World>, steps: seq<Step>, i: nat, n: string) returns (k: nat)
    requires IsRun(cfg, run, steps) && Replaces(run, i, n)
    ensures IsStay(cfg, run, steps, k, i, n) && steps[i] == ApplyAdmitted(n)
    ensures Lacking(cfg, run[i]) !! ListedBy(run[k], steps[k].nodeViews)
  {
    k := OutOfServiceWaits(cfg, run, steps, i, n);
    StayLists(cfg, run, steps, k, i, n);
    Admitted(cfg, run, steps, i, n);
  }

  /** Exactly who lacks the image at the write of a quiet stay: the in-service nodes that lacked
      it at the list, were missed by the list, and have not pulled it since. */
  lemma MissedPrePullExactly(cfg: Config, run: seq<World>, steps: seq<Step>, k: nat, i: nat, n: string)
    requires IsQuietStay(cfg, run, steps, k, i, n) && i < |steps| && steps[i] == ApplyAdmitted(n)
    ensures Lacking(cfg, run[i]) ==
            set m | m in Lacking(cfg, run[k]) && m !in ListedBy(run[k], steps[k].nodeViews) &&
                    m in run[i].nodes && cfg.image !in run[i].nodes[m].images
  {
    StayAlways(cfg, run, steps, k, i, n);
    Admitted(cfg, run, steps, i, n);
    ImagesGrow(cfg, run, steps, k, i);
    forall m | m in run[i].nodes
      ensures m in Lacking(cfg, run[i]) ==> m in Lacking(cfg, run[k])
      ensures m in Lacking(cfg, run[k]) && cfg.image !in run[i].nodes[m].images ==> m in Lacking(cfg, run[i])
    {
      assert Unmoved(cfg, m, run[k].nodes[m], run[i].nodes[m]);
    }
  }

  predicate HasImages(w0: World, w: World) {
    w.nodes.Keys == w0.nodes.Keys && forall m :: m in w0.nodes ==> w0.nodes[m].images <= w.nodes[m].images
  }

  lemma ImagesGrow(cfg: Config, run: seq<World>, steps: seq<Step>, k: nat, i: nat)
    requires IsRun(cfg, run, steps) && k <= i < |run|
    ensures HasImages(run[k], run[i])
  {
    forall j | k <= j < i && HasImages(run[k], run[j]) ensures HasImages(run[k], run[j + 1]) {
      InvAlways(cfg, run, steps, j);
      assert IsStep(cfg, run, steps, j);
      NodeStep(cfg, run[j], steps[j]);
      OthersKept(cfg, run[j], steps[j]);
    }
    Induct(run, k, i, w => HasImages(run[k], w));
  }

  lemma Admitted(cfg: Config, run: seq<World>, steps: seq<Step>, i: nat, n: string)
    requires IsRun(cfg, run, steps) && i < |steps| && steps[i] == ApplyAdmitted(n)
    ensures n in run[i].nodes && run[i].nodes[n].phase.Admitted?
    ensures Lacking(cfg, run[i]) !! run[i].nodes[n].phase.listed
  {
    assert IsStep(cfg, run, steps, i);
    InvAlways(cfg, run, steps, i);
  }

  /** A listing names every in-service node that lacks the image. */
  predicate SeesLacking(cfg: Config, run: seq<World>, steps: seq<Step>, i: nat) {
    i < |run| && i < |steps| &&
    (steps[i].TakeLock? ==> Lacking(cfg, run[i]) <= ListedBy(run[i], steps[i].nodeViews))
  }

  lemma LackingStep(cfg: Config, w: World, step: Step)
    requires Inv(cfg, w) && Enabled(cfg, w, step) && Quiet(cfg, w, step)
    ensures Lacking(cfg, Do(cfg, w, step)) <= Lacking(cfg, w)
  {
    NodeStep(cfg, w, step);
    ActorStep(cfg, w, step);
    OthersKept(cfg, w, step);
  }

  lemma LackingShrinks(cfg: Config, run: seq<World>, steps: seq<Step>, start: nat, k: nat, i: nat)
    requires IsQuietFrom(cfg, run, steps, start) && start <= k <= i < |run|
    ensures Lacking(cfg, run[i]) <= Lacking(cfg, run[k])
  {
    var lacking := Lacking(cfg, run[k]);
    forall j | k <= j < i && Lacking(cfg, run[j]) <= lacking ensures Lacking(cfg, run[j + 1]) <= lacking {
      InvAlways(cfg, run, steps, j);
      QuietAt(cfg, run, steps, start, j);
      LackingStep(cfg, run[j], steps[j]);
    }
    Induct(run, k, i, w => Lacking(cfg, w) <= lacking);
  }

  /** Pre-pull everywhere first: in a quiet stretch whose listings miss no node lacking the image,
      no template is replaced while any in-service node lacks it. */
  lemma PrePullEverywhereFirst(cfg: Config, run: seq<World>, steps: seq<Step>, start: nat, i: nat, n: string)
    requires IsQuietFrom(cfg, run, steps, start) && start <= i && Replaces(run, i, n)
    requires forall j :: start <= j < |steps| ==> SeesLacking(cfg, run, steps, j)
    ensures Lacking(cfg, run[i]) == {}
  {
    var k := PrePullGate(cfg, run, steps, i, n);
    assert start <= k;
    assert SeesLacking(cfg, run, steps, k);
    LackingShrinks(cfg, run, steps, start, k, i);
  }

  // ----- Finished pre-pulls are kept -----

  /** The live pre-pull pod has done its job and is still needed. */
  predicate Satisfied(cfg: Config, n: string, ns: NodeState) {
    var live := ns.deployments.live;
    && IsPending(cfg, n, live) && cfg.prePullImage && live.value.template.image != cfg.image
    && ns.pods.live.Some?
    && PrePullPodImage(ns.pods.live.value) == cfg.image && IsImagePrePulled(ns.pods.live.value)
  }

  /** A sync about to run that read its node out of service, and the pod that is live now. */
  predicate RemovesLive(ns: NodeState) {
    && ns.phase.SyncPod? && !IsInService(ns.phase.seen.node)
    && ns.phase.seen.pod.Some? && ns.pods.live.Some? && ns.phase.seen.pod.value.uid == ns.pods.live.value.uid
  }

  /** The live pre-pull pod is still needed and has done its job or may still do it. */
  predicate IsUseful(cfg: Config, n: string, ns: NodeState) {
    && IsNeeded(cfg, n, ns)
    && (IsImagePrePulled(ns.pods.live.value) || ns.pods.live.value.phase != PodFailed)
  }

  /** The live pre-pull pod pulls the right image for a node that still needs it. */
  predicate IsNeeded(cfg: Config, n: string, ns: NodeState) {
    var live := ns.deployments.live;
    && IsPending(cfg, n, live) && cfg.prePullImage && live.value.template.image != cfg.image
    && ns.pods.live.Some? && PrePullPodImage(ns.pods.live.value) == cfg.image
  }

  lemma SatisfiedStep(cfg: Config, w: World, step: Step)
    requires Inv(cfg, w) && Enabled(cfg, w, step) && IsUseful(cfg, step.n, w.nodes[step.n])
    requires !step.UpdatePod? && !step.DeletePod?
    ensures NewNode(cfg, w, step).pods.live != w.nodes[step.n].pods.live <==>
              step.SyncPrePullPod? && RemovesLive(w.nodes[step.n])
  {
    var ns := w.nodes[step.n];
    assert NodeInv(cfg, step.n, ns);
    if step.SyncPrePullPod? {
      assert Untouched(cfg, step.n, ns.phase.seen.deployment, ns.deployments.live);
      assert PodEvolves(cfg, ns.phase.seen.pod, ns.pods.live);
    }
  }

  /** Apart from the cluster's own changes of that pod, a step alters or removes a pre-pull pod
      that is still needed and has done its job or may still do it if and only if it is a sync of that node that
      read the same pod and a view of the node out of service; stale Deployment and pod caches
      alone never do. */
  lemma SatisfiedPodSurvives(cfg: Config, run: seq<World>, steps: seq<Step>, i: nat, n: string)
    requires IsRun(cfg, run, steps) && i < |steps| && n in run[i].nodes
    requires IsUseful(cfg, n, run[i].nodes[n])
    requires steps[i].n == n ==> !steps[i].UpdatePod? && !steps[i].DeletePod?
    ensures n in run[i + 1].nodes
    ensures run[i + 1].nodes[n].pods.live != run[i].nodes[n].pods.live <==>
              steps[i] == SyncPrePullPod(n) && RemovesLive(run[i].nodes[n])
  {
    InvAlways(cfg, run, steps, i);
    assert IsStep(cfg, run, steps, i);
    OthersKept(cfg, run[i], steps[i]);
    if steps[i].n == n {
      SatisfiedStep(cfg, run[i], steps[i]);
    }
  }

  /** A pod that failed without a pull is replaced: apart from the cluster's own changes, a step
      removes it exactly when it is a sync that read this very pod, and read its node out of
      service or saw the failure of a pod at least sixty seconds old. */
  lemma FailedPodRetried(cfg: Config, run: seq<World>, steps: seq<Step>, i: nat, n: string)
    requires IsRun(cfg, run, steps) && i < |steps| && n in run[i].nodes
    requires IsNeeded(cfg, n, run[i].nodes[n]) && !IsUseful(cfg, n, run[i].nodes[n])
    requires steps[i].n == n ==> !steps[i].UpdatePod? && !steps[i].DeletePod?
    ensures n in run[i + 1].nodes
    ensures run[i + 1].nodes[n].pods.live != run[i].nodes[n].pods.live <==>
              steps[i] == SyncPrePullPod(n) && (RemovesLive(run[i].nodes[n]) || SawFailure(run[i].nodes[n], 60))
  {
    InvAlways(cfg, run, steps, i);
    assert IsStep(cfg, run, steps, i);
    OthersKept(cfg, run[i], steps[i]);
    if steps[i].n == n {
      FailedStep(cfg, run[i], steps[i]);
    }
  }

  predicate SawFailure(ns: NodeState, age: int) {
    && ns.phase.SyncPod? && ns.phase.seen.pod.Some? && ns.pods.live.Some?
    && var seen := ns.phase.seen.pod.value;
       seen.uid == ns.pods.live.value.uid && seen.phase == PodFailed && ns.phase.seen.now - seen.created >= age
  }

  lemma FailedStep(cfg: Config, w: World, step: Step)
    requires Inv(cfg, w) && Enabled(cfg, w, step) && IsNeeded(cfg, step.n, w.nodes[step.n])
    requires !IsUseful(cfg, step.n, w.nodes[step.n]) && !step.UpdatePod? && !step.DeletePod?
    ensures NewNode(cfg, w, step).pods.live != w.nodes[step.n].pods.live <==>
              step.SyncPrePullPod? && (RemovesLive(w.nodes[step.n]) || SawFailure(w.nodes[step.n], 60))
  {
    var ns := w.nodes[step.n];
    assert NodeInv(cfg, step.n, ns);
    if step.SyncPrePullPod? {
      assert Untouched(cfg, step.n, ns.phase.seen.deployment, ns.deployments.live);
      assert PodEvolves(cfg, ns.phase.seen.pod, ns.pods.live);
    }
  }
}
