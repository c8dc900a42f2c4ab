/** The rollout protocol as a transition system: any number of reconcile workers, one per
    node, interleaved step by step with the cluster.  Caches may lag arbitrarily: every cached
    read (of nodes, Deployments and pre-pull pods) returns some point of the object's history. */
module RolloutProtocol {
  import opened Containers
  import opened Rollout

  /** An object's history since this manager started leading; `live` is the newest point. */
  datatype History<T(==)> = History(past: seq<T>, live: T) {
    predicate Has(x: T) { x in past || x == live }
    function Push(x: T): History<T> { History(past + [live], x) }
  }

  /** What `syncRollout` read before acting: the node object, the cached Deployment and
      pre-pull pod, and the clock. */
  datatype Seen = Seen(node: Node, deployment: Option<Deployment>, pod: Option<Pod>, now: int)

  datatype Phase =
    | Idle
    | SyncPod(seen: Seen)            // about to run syncPrePullPod
    | FastApply                      // not pending: unlocked ApplyDeployment comes next
    | AskAdmission                   // pending and in service: admitRollout comes next
    | Locked(listed: set<string>)    // lock held, cached nodes listed, Deployments not yet
    | Fetched(listed: set<string>, fetched: map<string, Option<Deployment>>)
                                     // lock held, live Deployments listed, cached pods not yet read
    | Admitted(listed: set<string>)  // lock held, rolloutHold said go, write not yet sent

  predicate IsLocked(phase: Phase) {
    phase.Locked? || phase.Fetched? || phase.Admitted?
  }

  datatype NodeState = NodeState(
    views: History<Node>,
    deployments: History<Option<Deployment>>,
    pods: History<Option<Pod>>,
    nextUid: nat,
    images: set<string>,             // what the node has really pulled
    phase: Phase)
  {
    predicate InService() { IsInService(views.live) }
    predicate HoldsLock() { IsLocked(phase) }
  }

  /** `log` records the nodes whose pending Deployment was written under the lock. */
  datatype World = World(nodes: map<string, NodeState>, lock: Option<string>, log: seq<string>)

  datatype Step =
    // the worker of node n
    | ReadCaches(n: string, seen: Seen)
    | SyncPrePullPod(n: string)
    | ApplyUnlocked(n: string)
    | TakeLock(n: string, nodeViews: map<string, Node>)
    | FetchDeployments(n: string)
    | Decide(n: string, cachedPods: map<string, Option<Pod>>)
    | ApplyAdmitted(n: string)
    | Fail(n: string)
    // the cluster around it
    | ChangeNode(n: string, node: Node)
    | UpdateStatus(n: string, status: DeploymentStatus)
    | DeleteDeployment(n: string)
    | UpdatePod(n: string, phase: PodPhase, statuses: seq<ContainerStatus>, hasPulled: bool)
    | DeletePod(n: string)

  // ----- Effects of the API calls -----

  /** Server-side apply of the target: create, restamp an equal spec, or replace the spec and
      raise the generation. */
  function ApplyDeployment(cfg: Config, n: string, live: Option<Deployment>): Option<Deployment> {
    var target := Target(cfg, n);
    match live
    case None => Some(Deployment(Some(target), target, Some(1), 1, DeploymentStatus(0, 0, 0, 0)))
    case Some(d) =>
      if d.template == target && Replicas(d) == 1 then Some(d.(stamp := Some(target)))
      else Some(d.(stamp := Some(target), template := target, replicas := Some(1), generation := d.generation + 1))
  }

  datatype PodPlan = KeepPod | RemovePod(uid: nat) | MakePod

  /** The decision of `syncPrePullPod`. */
  function PlanPod(cfg: Config, self: NodeRollout, now: int): PodPlan {
    var isKept := self.prePull.Some? && self.needsPrePull && PrePullPodImage(self.prePull.value) == cfg.image &&
                  !IsRetryablePrePull(self.prePull.value, now);
    if self.prePull.Some? && !isKept then RemovePod(self.prePull.value.uid)
    else if self.prePull.None? && self.needsPrePull then MakePod
    else KeepPod
  }

  function NewPod(cfg: Config, uid: nat, now: int): Pod {
    Pod(uid, now, [Container(PRE_PULL_CONTAINER, cfg.image)], PodPending, [])
  }

  /** A delete carries the UID of the pod that was read; a create is an apply, which retargets
      a pod that already exists. */
  function PodAfter(cfg: Config, live: Option<Pod>, uid: nat, plan: PodPlan, now: int): Option<Pod> {
    match plan
    case KeepPod => live
    case RemovePod(seen) => if live.Some? && live.value.uid == seen then None else live
    case MakePod =>
      match live
      case None => Some(NewPod(cfg, uid, now))
      case Some(pod) =>
        if PrePullPodImage(pod) == cfg.image then live
        else Some(pod.(containers := [Container(PRE_PULL_CONTAINER, cfg.image)]))
  }

  function RunPodPlan(cfg: Config, ns: NodeState, plan: PodPlan, now: int): NodeState {
    var live := ns.pods.live;
    var after := PodAfter(cfg, live, ns.nextUid, plan, now);
    if after == live then ns
    else ns.(pods := ns.pods.Push(after), nextUid := if live.None? then ns.nextUid + 1 else ns.nextUid)
  }

  function SelfOf(cfg: Config, n: string, seen: Seen): NodeRollout {
    MakeRollout(cfg, n, IsInService(seen.node), seen.pod, seen.deployment)
  }

  /** Where `syncRollout` goes after the pre-pull pod is in order. */
  function AfterSync(self: NodeRollout): Phase {
    if !self.isPending then FastApply else if !self.isInService then Idle else AskAdmission
  }

  function LiveDeployments(w: World): map<string, Option<Deployment>> {
    map m | m in w.nodes :: w.nodes[m].deployments.live
  }

  /** `listRollouts`: the fetched Deployments and the cached pods of the nodes listed in service. */
  ghost function FleetOf(
    cfg: Config, listed: set<string>, fetched: map<string, Option<Deployment>>, cachedPods: map<string, Option<Pod>>)
    : set<NodeRollout>
  {
    set m | m in listed && m in fetched && m in cachedPods :: MakeRollout(cfg, m, true, cachedPods[m], fetched[m])
  }

  function InServiceNodes(w: World): set<string> {
    set m | m in w.nodes && w.nodes[m].InService()
  }

  /** The node lister's answer when its cache holds the given views. */
  function ListedBy(w: World, nodeViews: map<string, Node>): set<string> {
    set m | m in w.nodes && m in nodeViews && IsInService(nodeViews[m])
  }

  // ----- Steps -----

  ghost predicate Enabled(cfg: Config, w: World, step: Step) {
    && step.n in w.nodes
    && var ns := w.nodes[step.n];
       match step
       case ReadCaches(n, seen) =>
         ns.phase.Idle? && ns.views.Has(seen.node) && ns.deployments.Has(seen.deployment) && ns.pods.Has(seen.pod)
       case SyncPrePullPod(n) => ns.phase.SyncPod?
       case ApplyUnlocked(n) => ns.phase.FastApply?
       case TakeLock(n, nodeViews) =>
         && ns.phase.AskAdmission? && w.lock.None?
         && forall m :: m in w.nodes ==> m in nodeViews && w.nodes[m].views.Has(nodeViews[m])
       case FetchDeployments(n) => ns.phase.Locked?
       case Decide(n, cachedPods) =>
         ns.phase.Fetched? &&
         forall m :: m in ns.phase.listed && m in w.nodes ==> m in cachedPods && w.nodes[m].pods.Has(cachedPods[m])
       case ApplyAdmitted(n) => ns.phase.Admitted?
       case Fail(n) => !ns.phase.Idle?
       case ChangeNode(n, node) => true
       case UpdateStatus(n, status) =>
         ns.deployments.live.Some? && status.observedGeneration <= ns.deployments.live.value.generation
       case DeleteDeployment(n) => ns.deployments.live.Some?
       case UpdatePod(n, phase, statuses, hasPulled) =>
         // a failed pod is final, a pull that was visible stays visible, and none is made up
         && ns.pods.live.Some?
         && ns.pods.live.value.phase != PodFailed
         && var pod := ns.pods.live.value.(phase := phase, statuses := statuses);
            && (IsImagePrePulled(ns.pods.live.value) ==> IsImagePrePulled(pod))
            && IsHonest(pod, hasPulled || PrePullPodImage(pod) in ns.images)
       case DeletePod(n) => ns.pods.live.Some?
  }

  ghost function NewNode(cfg: Config, w: World, step: Step): NodeState
    requires Enabled(cfg, w, step)
  {
    var n := step.n;
    var ns := w.nodes[n];
    match step
    case ReadCaches(_, seen) => ns.(phase := SyncPod(seen))
    case SyncPrePullPod(_) =>
      var seen := ns.phase.seen;
      var self := SelfOf(cfg, n, seen);
      RunPodPlan(cfg, ns, PlanPod(cfg, self, seen.now), seen.now).(phase := AfterSync(self))
    case ApplyUnlocked(_) =>
      ns.(deployments := ns.deployments.Push(ApplyDeployment(cfg, n, ns.deployments.live)), phase := Idle)
    case TakeLock(_, nodeViews) => ns.(phase := Locked(ListedBy(w, nodeViews)))
    case FetchDeployments(_) => ns.(phase := Fetched(ns.phase.listed, LiveDeployments(w)))
    case Decide(_, cachedPods) =>
      var fleet := FleetOf(cfg, ns.phase.listed, ns.phase.fetched, cachedPods);
      ns.(phase := if Admits(fleet, n, cfg.image) then Admitted(ns.phase.listed) else Idle)
    case ApplyAdmitted(_) =>
      ns.(deployments := ns.deployments.Push(ApplyDeployment(cfg, n, ns.deployments.live)), phase := Idle)
    case Fail(_) => ns.(phase := Idle)
    case ChangeNode(_, node) => ns.(views := ns.views.Push(node))
    case UpdateStatus(_, status) =>
      ns.(deployments := ns.deployments.Push(Some(ns.deployments.live.value.(status := status))))
    case DeleteDeployment(_) => ns.(deployments := ns.deployments.Push(None))
    case UpdatePod(_, phase, statuses, hasPulled) =>
      var pod := ns.pods.live.value.(phase := phase, statuses := statuses);
      ns.(pods := ns.pods.Push(Some(pod)),
          images := if hasPulled then ns.images + {PrePullPodImage(pod)} else ns.images)
    case DeletePod(_) => ns.(pods := ns.pods.Push(None))
  }

  predicate IsPending(cfg: Config, n: string, live: Option<Deployment>) {
    live.Some? && live.value.stamp != Some(Target(cfg, n))
  }

  ghost function Do(cfg: Config, w: World, step: Step): World
    requires Enabled(cfg, w, step)
  {
    var n := step.n;
    var ns' := NewNode(cfg, w, step);
    World(
      w.nodes[n := ns'],
      if step.TakeLock? then Some(n) else if w.nodes[n].HoldsLock() && !ns'.HoldsLock() then None else w.lock,
      if step.ApplyAdmitted? && IsPending(cfg, n, w.nodes[n].deployments.live) then w.log + [n] else w.log)
  }

  /** The same world with n's worker at another point. */
  function InPhase(w: World, n: string, phase: Phase): World
    requires n in w.nodes
  {
    w.(nodes := w.nodes[n := w.nodes[n].(phase := phase)], lock := if IsLocked(phase) then Some(n) else w.lock)
  }

  /** A worker's phase is not part of what others read. */
  lemma InPhaseReads(w: World, n: string, phase: Phase, nodeViews: map<string, Node>)
    requires n in w.nodes
    ensures var x := InPhase(w, n, phase);
            && ListedBy(x, nodeViews) == ListedBy(w, nodeViews) && InServiceNodes(x) == InServiceNodes(w)
            && LiveDeployments(x) == LiveDeployments(w)
  {
  }

  lemma InPhaseAgain(w: World, n: string, first: Phase, phase: Phase)
    requires n in w.nodes && (IsLocked(first) ==> IsLocked(phase))
    ensures InPhase(InPhase(w, n, first), n, phase) == InPhase(w, n, phase)
  {
  }

  /** Locking and fetching change nothing but the worker. */
  lemma LockIs(cfg: Config, w: World, n: string, nodeViews: map<string, Node>)
    requires Enabled(cfg, w, TakeLock(n, nodeViews))
    ensures Do(cfg, w, TakeLock(n, nodeViews)) == InPhase(w, n, Locked(ListedBy(w, nodeViews)))
  {
  }

  lemma FetchIs(cfg: Config, w: World, n: string)
    requires n in w.nodes && w.nodes[n].phase.Locked? && w.lock == Some(n)
    ensures Enabled(cfg, w, FetchDeployments(n))
    ensures Do(cfg, w, FetchDeployments(n)) == InPhase(w, n, Fetched(w.nodes[n].phase.listed, LiveDeployments(w)))
  {
  }

  // ----- Runs -----

  /** A Deployment this operator wrote: one replica, a stamp that tells the truth about the
      template, and a status that never runs ahead of the spec. */
  predicate Sane(d: Option<Deployment>) {
    d.Some? ==>
      && Replicas(d.value) == 1
      && (d.value.stamp.Some? ==> d.value.stamp.value == d.value.template)
      && d.value.status.observedGeneration <= d.value.generation
  }

  /** The moment leadership starts: no history, no worker, lock free. */
  ghost predicate Init(w: World) {
    && "" !in w.nodes && w.lock.None? && w.log == []
    && forall n :: n in w.nodes ==>
         var ns := w.nodes[n];
         && ns.views.past == [] && ns.deployments.past == [] && ns.pods.past == []
         && ns.phase.Idle?
         && Sane(ns.deployments.live)
         && (ns.pods.live.Some? ==>
               && ns.pods.live.value.uid < ns.nextUid
               && IsHonest(ns.pods.live.value, PrePullPodImage(ns.pods.live.value) in ns.images))
  }

  /** The i-th step can be taken and leads to the next world. */
  ghost predicate IsStep(cfg: Config, run: seq<World>, steps: seq<Step>, i: int) {
    && 0 <= i < |steps| && |run| == |steps| + 1
    && Enabled(cfg, run[i], steps[i]) && run[i + 1] == Do(cfg, run[i], steps[i])
  }

  ghost predicate IsRun(cfg: Config, run: seq<World>, steps: seq<Step>) {
    && |run| == |steps| + 1
    && Init(run[0])
    && forall i :: 0 <= i < |steps| ==> IsStep(cfg, run, steps, i)
  }

  // ----- The invariant of every run -----

  predicate Settled(cfg: Config, n: string, d: Option<Deployment>) {
    !IsPending(cfg, n, d)
  }

  /** Once absent or on target, always so; and an unsettled Deployment has never been touched. */
  predicate Untouched(cfg: Config, n: string, earlier: Option<Deployment>, later: Option<Deployment>) {
    !Settled(cfg, n, later) ==>
      earlier.Some? && earlier.value.template == later.value.template && earlier.value.stamp == later.value.stamp
  }

  predicate PodEvolves(cfg: Config, earlier: Option<Pod>, later: Option<Pod>) {
    later.Some? ==>
      && (earlier.None? ==> PrePullPodImage(later.value) == cfg.image)
      && (earlier.Some? && earlier.value.uid == later.value.uid ==>
            && PrePullPodImage(earlier.value) == PrePullPodImage(later.value)
            && (IsImagePrePulled(earlier.value) ==> IsImagePrePulled(later.value))
            && (earlier.value.phase == PodFailed ==>
                  later.value.phase == PodFailed && later.value.statuses == earlier.value.statuses))
  }

  ghost predicate NodeInv(cfg: Config, n: string, ns: NodeState) {
    && (forall d :: ns.deployments.Has(d) ==> Sane(d) && Untouched(cfg, n, d, ns.deployments.live))
    && (forall p :: ns.pods.Has(p) ==>
          && PodEvolves(cfg, p, ns.pods.live)
          && (p.Some? ==> p.value.uid < ns.nextUid)
          && (p.Some? && IsImagePrePulled(p.value) ==> PrePullPodImage(p.value) in ns.images))
    && (ns.phase.SyncPod? ==>
          && ns.views.Has(ns.phase.seen.node)
          && ns.deployments.Has(ns.phase.seen.deployment)
          && ns.pods.Has(ns.phase.seen.pod))
    && (ns.phase.FastApply? ==> Settled(cfg, n, ns.deployments.live))
  }

  /** A node that still needs the new image has it. */
  predicate Gated(cfg: Config, n: string, ns: NodeState) {
    var live := ns.deployments.live;
    IsPending(cfg, n, live) && cfg.prePullImage && live.value.template.image != cfg.image ==> cfg.image in ns.images
  }

  ghost predicate Inv(cfg: Config, w: World) {
    && "" !in w.nodes
    && (w.lock.Some? ==> w.lock.value in w.nodes)
    && forall n :: n in w.nodes ==>
         var ns := w.nodes[n];
         && NodeInv(cfg, n, ns)
         && (ns.HoldsLock() <==> w.lock == Some(n))
         && (ns.HoldsLock() ==> ns.phase.listed <= w.nodes.Keys)
         && (ns.phase.Fetched? ==> WereLive(ns.phase.fetched, w))
         && (ns.phase.Admitted? ==>
               n in ns.phase.listed && forall m :: m in ns.phase.listed ==> Gated(cfg, m, w.nodes[m]))
  }

  /** Every fetched Deployment is a point of its history. */
  ghost predicate WereLive(fetched: map<string, Option<Deployment>>, w: World) {
    fetched.Keys == w.nodes.Keys && forall m :: m in w.nodes ==> w.nodes[m].deployments.Has(fetched[m])
  }

  /** What a step can do to one node, as the other nodes' promises see it. */
  ghost predicate Evolves(cfg: Config, n: string, ns: NodeState, ns': NodeState) {
    && ns.images <= ns'.images
    && (forall d :: ns.deployments.Has(d) ==> ns'.deployments.Has(d))
    && Untouched(cfg, n, ns.deployments.live, ns'.deployments.live)
  }

  lemma PodStep(cfg: Config, w: World, step: Step)
    requires Enabled(cfg, w, step) && NodeInv(cfg, step.n, w.nodes[step.n])
    requires step.SyncPrePullPod? || step.UpdatePod? || step.DeletePod?
    ensures NodeInv(cfg, step.n, NewNode(cfg, w, step))
    ensures Evolves(cfg, step.n, w.nodes[step.n], NewNode(cfg, w, step))
  {
    var ns := w.nodes[step.n];
    var ns' := NewNode(cfg, w, step);
    assert ns.deployments.Has(ns.deployments.live);
    assert ns.pods.Has(ns.pods.live);
    if step.SyncPrePullPod? {
      var seen := ns.phase.seen;
      assert Untouched(cfg, step.n, seen.deployment, ns.deployments.live);
      assert PodEvolves(cfg, seen.pod, ns.pods.live);
    }
    if step.UpdatePod? {
      var pod := ns'.pods.live.value;
      assert PrePullPodImage(pod) == PrePullPodImage(ns.pods.live.value);
      if IsImagePrePulled(pod) {
        HonestPull(pod, step.hasPulled || PrePullPodImage(pod) in ns.images);
      }
    }
    forall p | ns'.pods.Has(p)
      ensures PodEvolves(cfg, p, ns'.pods.live)
    {
      if ns.pods.Has(p) {
        assert PodEvolves(cfg, p, ns.pods.live);
      }
    }
  }

  lemma NodeStep(cfg: Config, w: World, step: Step)
    requires Enabled(cfg, w, step) && NodeInv(cfg, step.n, w.nodes[step.n])
    ensures NodeInv(cfg, step.n, NewNode(cfg, w, step))
    ensures Evolves(cfg, step.n, w.nodes[step.n], NewNode(cfg, w, step))
  {
    var ns := w.nodes[step.n];
    assert ns.deployments.Has(ns.deployments.live);
    assert ns.pods.Has(ns.pods.live);
    if step.SyncPrePullPod? || step.UpdatePod? || step.DeletePod? {
      PodStep(cfg, w, step);
    }
  }

  /** An admission found every listed node either not needing the image or holding it. */
  lemma DecideGates(cfg: Config, w: World, step: Step, m: string)
    requires Inv(cfg, w) && step.Decide? && Enabled(cfg, w, step)
    requires NewNode(cfg, w, step).phase.Admitted? && m in w.nodes[step.n].phase.listed
    ensures Gated(cfg, m, w.nodes[m])
  {
    var ns := w.nodes[m];
    var pod, phase := step.cachedPods[m], w.nodes[step.n].phase;
    assert MakeRollout(cfg, m, true, pod, phase.fetched[m]) in
           FleetOf(cfg, phase.listed, phase.fetched, step.cachedPods);
    assert ns.pods.Has(pod) && ns.deployments.Has(phase.fetched[m]);
    assert NodeInv(cfg, m, ns);
    assert Untouched(cfg, m, phase.fetched[m], ns.deployments.live);
  }

  lemma DecideLists(cfg: Config, w: World, step: Step)
    requires Inv(cfg, w) && step.Decide? && Enabled(cfg, w, step) && NewNode(cfg, w, step).phase.Admitted?
    ensures var listed := w.nodes[step.n].phase.listed;
            step.n in listed && forall m :: m in listed ==> m in w.nodes && Gated(cfg, m, w.nodes[m])
  {
    var phase := w.nodes[step.n].phase;
    var self :| self in FleetOf(cfg, phase.listed, phase.fetched, step.cachedPods) && self.name == step.n;
    forall m | m in phase.listed ensures m in w.nodes && Gated(cfg, m, w.nodes[m]) {
      DecideGates(cfg, w, step, m);
    }
  }

  /** The gate of an admission outlives every step. */
  lemma GateStep(cfg: Config, w: World, step: Step, n: string)
    requires Inv(cfg, w) && Enabled(cfg, w, step) && n in w.nodes && Do(cfg, w, step).nodes[n].phase.Admitted?
    ensures var w' := Do(cfg, w, step);
            var listed := w'.nodes[n].phase.listed;
            n in listed && forall m :: m in listed ==> m in w'.nodes && Gated(cfg, m, w'.nodes[m])
  {
    NodeStep(cfg, w, step);
    var listed := Do(cfg, w, step).nodes[n].phase.listed;
    if step.Decide? && step.n == n {
      DecideLists(cfg, w, step);
    }
    forall m | m in listed ensures m in w.nodes && Gated(cfg, m, Do(cfg, w, step).nodes[m]) {
      assert Gated(cfg, m, w.nodes[m]);
    }
  }

  /** The lock has one holder, which lists known nodes only. */
  lemma LockStep(cfg: Config, w: World, step: Step, n: string)
    requires Inv(cfg, w) && Enabled(cfg, w, step) && n in w.nodes
    ensures var w' := Do(cfg, w, step);
            && (w'.nodes[n].HoldsLock() <==> w'.lock == Some(n))
            && (w'.nodes[n].HoldsLock() ==> w'.nodes[n].phase.listed <= w'.nodes.Keys)
  {
  }

  /** What was fetched stays in the histories. */
  lemma FetchedStep(cfg: Config, w: World, step: Step, n: string)
    requires Inv(cfg, w) && Enabled(cfg, w, step) && n in w.nodes && Do(cfg, w, step).nodes[n].phase.Fetched?
    ensures WereLive(Do(cfg, w, step).nodes[n].phase.fetched, Do(cfg, w, step))
  {
    NodeStep(cfg, w, step);
    var w', fetched := Do(cfg, w, step), Do(cfg, w, step).nodes[n].phase.fetched;
    assert WereLive(fetched, w) by {
      if step.FetchDeployments? && step.n == n {
        assert fetched == LiveDeployments(w);
      }
    }
    assert w'.nodes == w.nodes[step.n := NewNode(cfg, w, step)];
  }

  lemma InvStep(cfg: Config, w: World, step: Step)
    requires Inv(cfg, w) && Enabled(cfg, w, step)
    ensures Inv(cfg, Do(cfg, w, step))
  {
    var w' := Do(cfg, w, step);
    forall n | n in w'.nodes
      ensures NodeInv(cfg, n, w'.nodes[n])
      ensures w'.nodes[n].HoldsLock() <==> w'.lock == Some(n)
      ensures w'.nodes[n].HoldsLock() ==> w'.nodes[n].phase.listed <= w'.nodes.Keys
      ensures w'.nodes[n].phase.Fetched? ==> WereLive(w'.nodes[n].phase.fetched, w')
    {
      LockStep(cfg, w, step, n);
      if w'.nodes[n].phase.Fetched? {
        FetchedStep(cfg, w, step, n);
      }
      if n == step.n {
        NodeStep(cfg, w, step);
      }
    }
    forall n | n in w'.nodes && w'.nodes[n].phase.Admitted?
      ensures n in w'.nodes[n].phase.listed
      ensures forall m :: m in w'.nodes[n].phase.listed ==> Gated(cfg, m, w'.nodes[m])
    {
      GateStep(cfg, w, step, n);
    }
  }

  lemma InvInit(cfg: Config, w: World)
    requires Init(w)
    ensures Inv(cfg, w)
  {
    forall n | n in w.nodes && w.nodes[n].pods.live.Some? && IsImagePrePulled(w.nodes[n].pods.live.value)
      ensures PrePullPodImage(w.nodes[n].pods.live.value) in w.nodes[n].images
    {
      var pod := w.nodes[n].pods.live.value;
      HonestPull(pod, PrePullPodImage(pod) in w.nodes[n].images);
    }
  }

  lemma {:induction false} InvAlways(cfg: Config, run: seq<World>, steps: seq<Step>, i: nat)
    requires IsRun(cfg, run, steps) && i < |run|
    ensures Inv(cfg, run[i])
  {
    if i == 0 {
      InvInit(cfg, run[0]);
    } else {
      InvAlways(cfg, run, steps, i - 1);
      assert IsStep(cfg, run, steps, i - 1);
      InvStep(cfg, run[i - 1], steps[i - 1]);
    }
  }
}
