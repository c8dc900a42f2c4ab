/** The rollout is not only safe: from every reachable state it can be finished, when no worker
    fails and the cluster completes what it was asked for. */
module RolloutProgress {
  import opened Containers
  import opened GoText
  import opened Rollout
  import opened RolloutProtocol
  import opened RolloutTheorems
  import opened RolloutPrePull

  /** No worker fails, nothing is deleted from outside, no node changes, and the cluster only
      completes rollouts and image pulls. */
  ghost predicate Cooperative(cfg: Config, w: World, step: Step)
    requires Enabled(cfg, w, step)
  {
    var ns := w.nodes[step.n];
    match step
    case Fail(_) => false
    case ChangeNode(_, _) => false
    case DeleteDeployment(_) => false
    case DeletePod(_) => false
    case UpdateStatus(_, status) => IsRolledOut(ns.deployments.live.value.(status := status))
    case UpdatePod(_, phase, statuses, _) => IsImagePrePulled(ns.pods.live.value.(phase := phase, statuses := statuses))
    case _ => true
  }

  /** One cooperative step, on demand also a quiet one, leads from one world to the next. */
  ghost predicate Leads(cfg: Config, isQuiet: bool, w: World, end: World) {
    exists step :: IsTaken(cfg, isQuiet, w, step, end)
  }

  ghost predicate IsTaken(cfg: Config, isQuiet: bool, w: World, step: Step, end: World) {
    && Enabled(cfg, w, step) && Cooperative(cfg, w, step) && (isQuiet ==> Quiet(cfg, w, step))
    && end == Do(cfg, w, step)
  }

  ghost function NextOf(cfg: Config, isQuiet: bool): (World, World) -> bool {
    (w, end) => Leads(cfg, isQuiet, w, end)
  }

  /** Some number of such steps does. */
  ghost predicate Reaches(cfg: Config, isQuiet: bool, w: World, end: World) {
    ReachesBy(NextOf(cfg, isQuiet), w, end)
  }

  lemma ReachesSelf(cfg: Config, isQuiet: bool, w: World)
    ensures Reaches(cfg, isQuiet, w, w)
  {
    ReachesByOne(NextOf(cfg, isQuiet), w, w);
  }

  lemma Chain(cfg: Config, isQuiet: bool, a: World, b: World, c: World)
    requires Reaches(cfg, isQuiet, a, b) && Reaches(cfg, isQuiet, b, c)
    ensures Reaches(cfg, isQuiet, a, c)
  {
    ChainBy(NextOf(cfg, isQuiet), a, b, c);
  }

  lemma Weaken(cfg: Config, a: World, b: World)
    requires Reaches(cfg, true, a, b)
    ensures Reaches(cfg, false, a, b)
  {
    var k: nat :| ReachesIn(NextOf(cfg, true), k, a, b);
    forall x, y | NextOf(cfg, true)(x, y) ensures NextOf(cfg, false)(x, y) {
      var step :| IsTaken(cfg, true, x, step, y);
      assert IsTaken(cfg, false, x, step, y);
    }
    WeakenIn(NextOf(cfg, true), NextOf(cfg, false), k, a, b);
  }

  lemma Take(cfg: Config, isQuiet: bool, w: World, step: Step, end: World)
    requires Inv(cfg, w) && IsTaken(cfg, isQuiet, w, step, end)
    ensures Reaches(cfg, isQuiet, w, end) && Inv(cfg, end)
  {
    InvStep(cfg, w, step);
    ReachesByOne(NextOf(cfg, isQuiet), w, end);
  }

  predicate NeedsImage(cfg: Config, n: string, ns: NodeState) {
    IsPending(cfg, n, ns.deployments.live) && cfg.prePullImage && ns.deployments.live.value.template.image != cfg.image
  }

  /** No worker active, nothing down, and every node that needs the image has pulled it. */
  ghost predicate Healthy(cfg: Config, w: World) {
    && Inv(cfg, w) && w.lock.None? && Down(w) == {}
    && forall n :: n in w.nodes ==>
         && w.nodes[n].phase.Idle?
         && (w.nodes[n].InService() && NeedsImage(cfg, n, w.nodes[n]) ==> Satisfied(cfg, n, w.nodes[n]))
  }

  function LiveViews(w: World): map<string, Node> {
    map m | m in w.nodes :: w.nodes[m].views.live
  }

  function LivePods(w: World): map<string, Option<Pod>> {
    map m | m in w.nodes :: w.nodes[m].pods.live
  }

  function LiveSeen(ns: NodeState, now: int): Seen {
    Seen(ns.views.live, ns.deployments.live, ns.pods.live, now)
  }

  lemma LiveListing(w: World)
    ensures ListedBy(w, LiveViews(w)) == InServiceNodes(w)
  {
  }

  // ----- One turn in a healthy fleet -----

  /** Node n's part of a world in the middle of its turn. */
  ghost predicate Turn(cfg: Config, w: World, n: string, x: World, phase: Phase) {
    && n in w.nodes && x.nodes.Keys == w.nodes.Keys
    && (forall m :: m in w.nodes && m != n ==> x.nodes[m] == w.nodes[m])
    && x.nodes[n].views == w.nodes[n].views && x.nodes[n].deployments == w.nodes[n].deployments
    && x.nodes[n].phase == phase
    && (Satisfied(cfg, n, w.nodes[n]) ==> x.nodes[n].pods == w.nodes[n].pods)
    && x.lock == (if IsLocked(phase) then Some(n) else None)
  }

  lemma TurnReads(cfg: Config, w: World, n: string) returns (x: World)
    requires Healthy(cfg, w) && n in Pending(cfg, w)
    ensures Reaches(cfg, true, w, x) && Inv(cfg, x) && x == InPhase(w, n, SyncPod(LiveSeen(w.nodes[n], 0)))
  {
    x := InPhase(w, n, SyncPod(LiveSeen(w.nodes[n], 0)));
    Take(cfg, true, w, ReadCaches(n, LiveSeen(w.nodes[n], 0)), x);
  }

  lemma TurnAsks(cfg: Config, w: World, n: string) returns (x: World)
    requires Healthy(cfg, w) && n in Pending(cfg, w)
    ensures Reaches(cfg, true, w, x) && Inv(cfg, x) && Turn(cfg, w, n, x, AskAdmission)
  {
    var w1 := TurnReads(cfg, w, n);
    TurnSyncs(cfg, w, n);
    x := Do(cfg, w1, SyncPrePullPod(n));
    Take(cfg, true, w1, SyncPrePullPod(n), x);
    Chain(cfg, true, w, w1, x);
  }

  /** With fresh caches, the sync keeps a satisfied pod and goes on to ask. */
  lemma TurnSyncs(cfg: Config, w: World, n: string)
    requires n in Pending(cfg, w) && w.lock.None?
    ensures var w1 := InPhase(w, n, SyncPod(LiveSeen(w.nodes[n], 0)));
            Enabled(cfg, w1, SyncPrePullPod(n)) && Turn(cfg, w, n, Do(cfg, w1, SyncPrePullPod(n)), AskAdmission)
  {
    var w1 := InPhase(w, n, SyncPod(LiveSeen(w.nodes[n], 0)));
    OthersKept(cfg, w1, SyncPrePullPod(n));
  }

  /** Where a worker stands that locked, listed and fetched with fresh caches. */
  function FetchedLive(x: World): Phase {
    Fetched(InServiceNodes(x), LiveDeployments(x))
  }

  lemma LockLive(cfg: Config, x: World, n: string)
    requires Inv(cfg, x) && n in x.nodes && x.nodes[n].phase.AskAdmission? && x.lock.None?
    ensures var y := InPhase(x, n, Locked(InServiceNodes(x))); Reaches(cfg, true, x, y) && Inv(cfg, y)
  {
    LiveListing(x);
    LockIs(cfg, x, n, LiveViews(x));
    Take(cfg, true, x, TakeLock(n, LiveViews(x)), InPhase(x, n, Locked(InServiceNodes(x))));
  }

  lemma FetchLive(cfg: Config, x: World, n: string)
    requires Inv(cfg, x) && n in x.nodes && x.nodes[n].phase.AskAdmission? && x.lock.None?
    ensures var y := InPhase(x, n, FetchedLive(x)); Reaches(cfg, true, x, y) && Inv(cfg, y)
  {
    var locked, y := InPhase(x, n, Locked(InServiceNodes(x))), InPhase(x, n, FetchedLive(x));
    LockLive(cfg, x, n);
    InPhaseReads(x, n, Locked(InServiceNodes(x)), map[]);
    InPhaseAgain(x, n, Locked(InServiceNodes(x)), FetchedLive(x));
    FetchIs(cfg, locked, n);
    Take(cfg, true, locked, FetchDeployments(n), y);
    Chain(cfg, true, x, locked, y);
  }

  lemma TurnLocks(cfg: Config, w: World, n: string, x: World) returns (y: World)
    requires Turn(cfg, w, n, x, AskAdmission) && Inv(cfg, x)
    ensures Reaches(cfg, true, x, y) && Inv(cfg, y) && Turn(cfg, w, n, y, FetchedLive(w))
  {
    y := InPhase(x, n, FetchedLive(x));
    FetchLive(cfg, x, n);
    TurnLocked(cfg, w, n, x);
  }

  lemma TurnLocked(cfg: Config, w: World, n: string, x: World)
    requires Turn(cfg, w, n, x, AskAdmission)
    ensures Turn(cfg, w, n, InPhase(x, n, FetchedLive(x)), FetchedLive(w))
  {
    assert InServiceNodes(x) == InServiceNodes(w);
    assert LiveDeployments(x) == LiveDeployments(w);
  }

  /** With the lock held and the whole fleet healthy, the least pending node is admitted. */
  lemma LeastIsAdmitted(cfg: Config, w: World, n: string, y: World)
    requires Healthy(cfg, w) && IsLeast(n, Pending(cfg, w)) && Turn(cfg, w, n, y, FetchedLive(w))
    ensures Admits(FleetOf(cfg, InServiceNodes(w), LiveDeployments(w), LivePods(y)), n, cfg.image)
  {
    var service, fetched, pods := InServiceNodes(w), LiveDeployments(w), LivePods(y);
    var fleet := FleetOf(cfg, service, fetched, pods);
    AllReady(cfg, w, n, y);
    FleetPending(cfg, w, service, fetched, pods);
    assert PendingNames(fleet) == Pending(cfg, w);
    var self := MakeRollout(cfg, n, true, pods[n], fetched[n]);
    assert self in fleet && self.name == n;
  }

  lemma AllReady(cfg: Config, w: World, n: string, y: World)
    requires Healthy(cfg, w) && Turn(cfg, w, n, y, FetchedLive(w))
    ensures forall r :: r in FleetOf(cfg, InServiceNodes(w), LiveDeployments(w), LivePods(y)) ==>
              !r.LacksPrePull(cfg.image) && r.isAvailable
  {
    var service, fetched, pods := InServiceNodes(w), LiveDeployments(w), LivePods(y);
    forall r | r in FleetOf(cfg, service, fetched, pods) ensures !r.LacksPrePull(cfg.image) && r.isAvailable {
      var m :| m in service && m in fetched && m in pods && r == MakeRollout(cfg, m, true, pods[m], fetched[m]);
      FleetReady(cfg, w, n, y, m);
    }
  }

  /** In a healthy fleet nobody lacks a pre-pull or is down. */
  lemma FleetReady(cfg: Config, w: World, n: string, y: World, m: string)
    requires Healthy(cfg, w) && Turn(cfg, w, n, y, FetchedLive(w)) && m in InServiceNodes(w)
    ensures var r := MakeRollout(cfg, m, true, y.nodes[m].pods.live, w.nodes[m].deployments.live);
            !r.LacksPrePull(cfg.image) && r.isAvailable
  {
    assert m !in Down(w);
  }

  /** The decision that admits changes nothing but n's worker. */
  lemma TurnDecides(cfg: Config, w: World, n: string, y: World)
    requires Healthy(cfg, w) && IsLeast(n, Pending(cfg, w)) && Turn(cfg, w, n, y, FetchedLive(w))
    ensures var decide := Decide(n, LivePods(y));
            Enabled(cfg, y, decide) && Do(cfg, y, decide) == InPhase(y, n, Admitted(InServiceNodes(w)))
  {
    LeastIsAdmitted(cfg, w, n, y);
  }

  lemma TurnInPhase(cfg: Config, w: World, n: string, y: World)
    requires Turn(cfg, w, n, y, FetchedLive(w))
    ensures Turn(cfg, w, n, InPhase(y, n, Admitted(InServiceNodes(w))), Admitted(InServiceNodes(w)))
  {
  }

  lemma TurnAdmits(cfg: Config, w: World, n: string, y: World) returns (z: World)
    requires Healthy(cfg, w) && IsLeast(n, Pending(cfg, w)) && Inv(cfg, y) && Turn(cfg, w, n, y, FetchedLive(w))
    ensures Reaches(cfg, true, y, z) && Inv(cfg, z) && Turn(cfg, w, n, z, Admitted(InServiceNodes(w)))
  {
    TurnDecides(cfg, w, n, y);
    TurnInPhase(cfg, w, n, y);
    z := InPhase(y, n, Admitted(InServiceNodes(w)));
    Take(cfg, true, y, Decide(n, LivePods(y)), z);
  }

  ghost predicate Ended(cfg: Config, w: World, n: string, end: World) {
    && end.lock.None? && OnlyNode(w, n, end)
    && var ns := end.nodes[n];
       ns.phase.Idle? && !IsDown(ns) && !IsPending(cfg, n, ns.deployments.live)
  }

  /** The admitted write puts n on target and frees the lock. */
  lemma TurnWrites(cfg: Config, w: World, n: string, z: World) returns (z1: World)
    requires Healthy(cfg, w) && n in Pending(cfg, w) && Inv(cfg, z)
    requires Turn(cfg, w, n, z, Admitted(InServiceNodes(w)))
    ensures Reaches(cfg, true, z, z1) && Inv(cfg, z1) && z1.lock.None? && OnlyNode(w, n, z1)
    ensures var ns := z1.nodes[n];
            ns.phase.Idle? && ns.deployments.live.Some? && !IsPending(cfg, n, ns.deployments.live)
  {
    z1 := Do(cfg, z, ApplyAdmitted(n));
    Take(cfg, true, z, ApplyAdmitted(n), z1);
    OthersKept(cfg, z, ApplyAdmitted(n));
  }

  function Completed(d: Deployment): DeploymentStatus {
    DeploymentStatus(d.generation, Replicas(d), Replicas(d), Replicas(d))
  }

  /** A rollout completes. */
  lemma Completes(cfg: Config, isQuiet: bool, w: World, n: string) returns (end: World)
    requires Inv(cfg, w) && n in w.nodes && w.nodes[n].deployments.live.Some?
    ensures Reaches(cfg, isQuiet, w, end) && Inv(cfg, end) && OnlyNode(w, n, end) && end.lock == w.lock
    ensures var d := w.nodes[n].deployments.live.value;
            end.nodes[n] == w.nodes[n].(deployments := w.nodes[n].deployments.Push(Some(d.(status := Completed(d)))))
  {
    var step := UpdateStatus(n, Completed(w.nodes[n].deployments.live.value));
    end := Do(cfg, w, step);
    Take(cfg, isQuiet, w, step, end);
    OthersKept(cfg, w, step);
  }

  lemma EndedSets(cfg: Config, w: World, n: string, end: World)
    requires Down(w) == {} && n in Pending(cfg, w) && Ended(cfg, w, n, end)
    ensures Down(end) == {} && Pending(cfg, end) == Pending(cfg, w) - {n}
  {
    forall m | m in end.nodes ensures !IsDown(end.nodes[m]) {
      if m != n {
        assert m !in Down(w);
      }
    }
  }

  lemma EndedIsHealthy(cfg: Config, w: World, n: string, end: World)
    requires Healthy(cfg, w) && n in Pending(cfg, w) && Ended(cfg, w, n, end) && Inv(cfg, end)
    ensures Healthy(cfg, end) && Pending(cfg, end) == Pending(cfg, w) - {n}
  {
    EndedSets(cfg, w, n, end);
  }

  lemma TurnGranted(cfg: Config, w: World, n: string) returns (z: World)
    requires Healthy(cfg, w) && IsLeast(n, Pending(cfg, w))
    ensures Reaches(cfg, true, w, z) && Inv(cfg, z) && Turn(cfg, w, n, z, Admitted(InServiceNodes(w)))
  {
    var x := TurnAsks(cfg, w, n);
    var y := TurnLocks(cfg, w, n, x);
    Chain(cfg, true, w, x, y);
    z := TurnAdmits(cfg, w, n, y);
    Chain(cfg, true, w, y, z);
  }

  lemma WholeTurn(cfg: Config, w: World, n: string) returns (end: World)
    requires Healthy(cfg, w) && IsLeast(n, Pending(cfg, w))
    ensures Reaches(cfg, true, w, end) && Inv(cfg, end) && Ended(cfg, w, n, end)
  {
    var z := TurnGranted(cfg, w, n);
    var z1 := TurnWrites(cfg, w, n, z);
    Chain(cfg, true, w, z, z1);
    end := Completes(cfg, true, z1, n);
    Chain(cfg, true, w, z1, end);
    TurnEnds(cfg, w, n, z1, end);
  }

  lemma TurnEnds(cfg: Config, w: World, n: string, z1: World, end: World)
    requires OnlyNode(w, n, z1) && OnlyNode(z1, n, end) && end.lock.None?
    requires z1.nodes[n].phase.Idle? && z1.nodes[n].deployments.live.Some?
    requires !IsPending(cfg, n, z1.nodes[n].deployments.live)
    requires var d := z1.nodes[n].deployments.live.value;
             end.nodes[n] == z1.nodes[n].(deployments := z1.nodes[n].deployments.Push(Some(d.(status := Completed(d)))))
    ensures Ended(cfg, w, n, end)
  {
  }

  /** From every healthy world a quiet run exists that brings the whole in-service fleet onto
      the target with nothing down at the end. */
  lemma {:induction false} CanFinish(cfg: Config, w: World) returns (end: World)
    requires Healthy(cfg, w)
    ensures Reaches(cfg, true, w, end) && Healthy(cfg, end) && Pending(cfg, end) == {}
    ensures InServiceNodes(end) == InServiceNodes(w)
    decreases Pending(cfg, w)
  {
    if Pending(cfg, w) == {} {
      ReachesSelf(cfg, true, w);
      return w;
    }
    var n := Least(Pending(cfg, w));
    var mid := WholeTurn(cfg, w, n);
    EndedIsHealthy(cfg, w, n, mid);
    SameService(w, n, mid);
    end := CanFinish(cfg, mid);
    Chain(cfg, true, w, mid, end);
  }

  /** Only n's part of the world differs, and its node object is the same. */
  predicate OnlyNode(w: World, n: string, end: World) {
    && n in w.nodes && end.nodes.Keys == w.nodes.Keys && end.nodes[n].views == w.nodes[n].views
    && forall m :: m in w.nodes && m != n ==> end.nodes[m] == w.nodes[m]
  }

  lemma SameService(w: World, n: string, end: World)
    requires OnlyNode(w, n, end)
    ensures InServiceNodes(end) == InServiceNodes(w)
  {
  }

  // ----- Letting every worker run to its end -----

  function Rank(phase: Phase): nat {
    match phase
    case Idle => 0
    case Admitted(_) => 1
    case Fetched(_, _) => 2
    case Locked(_) => 3
    case AskAdmission => 4
    case FastApply => 4
    case SyncPod(_) => 5
  }

  function NextStep(w: World, n: string): Step
    requires n in w.nodes && !w.nodes[n].phase.Idle?
  {
    match w.nodes[n].phase
    case SyncPod(_) => SyncPrePullPod(n)
    case FastApply => ApplyUnlocked(n)
    case AskAdmission => TakeLock(n, LiveViews(w))
    case Locked(_) => FetchDeployments(n)
    case Fetched(_, _) => Decide(n, LivePods(w))
    case Admitted(_) => ApplyAdmitted(n)
  }

  /** The step brings n's worker closer to its end and leaves the lock to n or to nobody. */
  ghost predicate Drains(cfg: Config, w: World, n: string, step: Step) {
    && step.n == n && Enabled(cfg, w, step) && Cooperative(cfg, w, step)
    && var ns' := NewNode(cfg, w, step);
       Rank(ns'.phase) < Rank(w.nodes[n].phase) && ns'.views == w.nodes[n].views
  }

  lemma DrainStep(cfg: Config, w: World, n: string)
    requires Inv(cfg, w) && n in w.nodes && !w.nodes[n].phase.Idle? && (w.lock.None? || w.lock == Some(n))
    ensures Drains(cfg, w, n, NextStep(w, n))
    ensures var w' := Do(cfg, w, NextStep(w, n)); (w'.lock.None? || w'.lock == Some(n)) && OnlyNode(w, n, w')
  {
    match w.nodes[n].phase
    case SyncPod(_) => DrainSync(cfg, w, n);
    case FastApply =>
    case AskAdmission =>
    case Locked(_) => FetchIs(cfg, w, n);
    case Fetched(_, _) => DrainDecide(cfg, w, n);
    case Admitted(_) =>
  }

  lemma DrainSync(cfg: Config, w: World, n: string)
    requires n in w.nodes && w.nodes[n].phase.SyncPod?
    ensures Drains(cfg, w, n, SyncPrePullPod(n))
  {
  }

  lemma DrainDecide(cfg: Config, w: World, n: string)
    requires n in w.nodes && w.nodes[n].phase.Fetched?
    ensures Drains(cfg, w, n, Decide(n, LivePods(w)))
  {
  }

  lemma {:induction false} DrainOne(cfg: Config, w: World, n: string) returns (end: World)
    requires Inv(cfg, w) && n in w.nodes && (w.lock.None? || w.lock == Some(n))
    ensures Reaches(cfg, false, w, end) && Inv(cfg, end) && OnlyNode(w, n, end)
    ensures end.lock.None? && end.nodes[n].phase.Idle?
    decreases Rank(w.nodes[n].phase)
  {
    if w.nodes[n].phase.Idle? {
      ReachesSelf(cfg, false, w);
      return w;
    }
    DrainStep(cfg, w, n);
    var mid := Do(cfg, w, NextStep(w, n));
    Take(cfg, false, w, NextStep(w, n), mid);
    end := DrainOne(cfg, mid, n);
    Chain(cfg, false, w, mid, end);
  }

  function Busy(w: World): set<string> {
    set n | n in w.nodes && !w.nodes[n].phase.Idle?
  }

  lemma DrainedBusy(w: World, n: string, end: World)
    requires OnlyNode(w, n, end) && end.nodes[n].phase.Idle?
    ensures Busy(end) == Busy(w) - {n}
  {
  }

  /** Whose worker to drain next: the lock holder's first. */
  lemma NextToDrain(cfg: Config, w: World) returns (n: string)
    requires Inv(cfg, w) && Busy(w) != {}
    ensures n in Busy(w) && (w.lock.None? || w.lock == Some(n))
  {
    if w.lock.Some? {
      return w.lock.value;
    }
    n :| n in Busy(w);
  }

  /** Every worker runs to its end. */
  lemma {:induction false} DrainAll(cfg: Config, w: World) returns (end: World)
    requires Inv(cfg, w)
    ensures Reaches(cfg, false, w, end) && Inv(cfg, end) && Busy(end) == {} && end.lock.None?
    ensures InServiceNodes(end) == InServiceNodes(w)
    decreases Busy(w)
  {
    if Busy(w) == {} {
      ReachesSelf(cfg, false, w);
      assert forall n :: n in w.nodes ==> n !in Busy(w);
      return w;
    }
    var n := NextToDrain(cfg, w);
    var mid := DrainOne(cfg, w, n);
    DrainedBusy(w, n, mid);
    SameService(w, n, mid);
    end := DrainAll(cfg, mid);
    Chain(cfg, false, w, mid, end);
  }

  // ----- Creating what is missing -----

  function Missing(w: World): set<string> {
    set n | n in w.nodes && w.nodes[n].deployments.live.None?
  }

  /** The world after a reconcile of n with fresh caches that found no Deployment. */
  ghost function Created(cfg: Config, w: World, n: string): World
    requires n in w.nodes
  {
    var ns := Synced(cfg, w, n, 0).nodes[n];
    w.(nodes := w.nodes[n := ns.(deployments := ns.deployments.Push(ApplyDeployment(cfg, n, None)))])
  }

  lemma CreateReads(cfg: Config, w: World, n: string)
    requires Inv(cfg, w) && Busy(w) == {} && n in w.nodes
    ensures var x := InPhase(w, n, SyncPod(LiveSeen(w.nodes[n], 0))); Reaches(cfg, false, w, x) && Inv(cfg, x)
  {
    assert n !in Busy(w);
    Take(cfg, false, w, ReadCaches(n, LiveSeen(w.nodes[n], 0)), InPhase(w, n, SyncPod(LiveSeen(w.nodes[n], 0))));
  }

  /** A node without a Deployment takes the unlocked path. */
  lemma CreateSyncs(cfg: Config, w: World, n: string)
    requires n in Missing(w) && w.lock.None?
    ensures var x := InPhase(w, n, SyncPod(LiveSeen(w.nodes[n], 0)));
            && Enabled(cfg, x, SyncPrePullPod(n))
            && Do(cfg, x, SyncPrePullPod(n)) == InPhase(Synced(cfg, w, n, 0), n, FastApply)
  {
  }

  lemma CreateApplies(cfg: Config, w: World, n: string)
    requires n in Missing(w) && w.lock.None? && w.nodes[n].phase.Idle?
    ensures var y := InPhase(Synced(cfg, w, n, 0), n, FastApply);
            Enabled(cfg, y, ApplyUnlocked(n)) && Do(cfg, y, ApplyUnlocked(n)) == Created(cfg, w, n)
  {
  }

  lemma CreateOne(cfg: Config, w: World, n: string) returns (end: World)
    requires Inv(cfg, w) && Busy(w) == {} && w.lock.None? && n in Missing(w)
    ensures Reaches(cfg, false, w, end) && Inv(cfg, end) && end.lock.None? && OnlyNode(w, n, end)
    ensures Busy(end) == {} && Missing(end) == Missing(w) - {n}
  {
    var x := InPhase(w, n, SyncPod(LiveSeen(w.nodes[n], 0)));
    var y := InPhase(Synced(cfg, w, n, 0), n, FastApply);
    assert n !in Busy(w);
    CreateReads(cfg, w, n);
    CreateSyncs(cfg, w, n);
    CreateApplies(cfg, w, n);
    Take(cfg, false, x, SyncPrePullPod(n), y);
    Chain(cfg, false, w, x, y);
    end := Created(cfg, w, n);
    Take(cfg, false, y, ApplyUnlocked(n), end);
    Chain(cfg, false, w, y, end);
    CreatedSets(cfg, w, n);
  }

  lemma CreatedSets(cfg: Config, w: World, n: string)
    requires n in w.nodes && w.nodes[n].phase.Idle?
    ensures var end := Created(cfg, w, n);
            OnlyNode(w, n, end) && end.lock == w.lock && Busy(end) == Busy(w) && Missing(end) == Missing(w) - {n}
  {
  }

  lemma {:induction false} CreateAll(cfg: Config, w: World) returns (end: World)
    requires Inv(cfg, w) && Busy(w) == {} && w.lock.None?
    ensures Reaches(cfg, false, w, end) && Inv(cfg, end) && Busy(end) == {} && end.lock.None? && Missing(end) == {}
    ensures InServiceNodes(end) == InServiceNodes(w)
    decreases Missing(w)
  {
    if Missing(w) == {} {
      ReachesSelf(cfg, false, w);
      return w;
    }
    var n :| n in Missing(w);
    var mid := CreateOne(cfg, w, n);
    SameService(w, n, mid);
    end := CreateAll(cfg, mid);
    Chain(cfg, false, w, mid, end);
  }

  /** A cooperative step deletes no Deployment. */
  lemma StaysCreated(cfg: Config, isQuiet: bool, w: World, end: World)
    requires Reaches(cfg, isQuiet, w, end) && Missing(w) == {}
    ensures Missing(end) == {}
  {
    forall x, y | NextOf(cfg, isQuiet)(x, y) && Missing(x) == {} ensures Missing(y) == {} {
      var step :| IsTaken(cfg, isQuiet, x, step, y);
      CreatedStep(cfg, x, step);
    }
    Keeps(NextOf(cfg, isQuiet), w, end, x => Missing(x) == {});
  }

  lemma CreatedStep(cfg: Config, w: World, step: Step)
    requires Enabled(cfg, w, step) && Cooperative(cfg, w, step) && Missing(w) == {}
    ensures Missing(Do(cfg, w, step)) == {}
  {
    OthersKept(cfg, w, step);
    assert step.n !in Missing(w);
    forall m | m in Do(cfg, w, step).nodes ensures Do(cfg, w, step).nodes[m].deployments.live.Some? {
      assert m !in Missing(w);
    }
  }

  // ----- Repairing what is down -----

  function Broken(w: World): set<string> {
    set n | n in w.nodes && w.nodes[n].deployments.live.Some? && !IsRolledOut(w.nodes[n].deployments.live.value)
  }

  lemma RepairOne(cfg: Config, w: World, n: string) returns (end: World)
    requires Inv(cfg, w) && Busy(w) == {} && n in Broken(w)
    ensures Reaches(cfg, false, w, end) && Inv(cfg, end) && OnlyNode(w, n, end) && end.lock == w.lock
    ensures Busy(end) == {} && Broken(end) == Broken(w) - {n}
  {
    end := Completes(cfg, false, w, n);
    assert n !in Busy(w);
    RepairedSets(w, n, end);
  }

  lemma RepairedSets(w: World, n: string, end: World)
    requires OnlyNode(w, n, end) && end.nodes[n].phase == w.nodes[n].phase
    requires end.nodes[n].deployments.live.Some? && IsRolledOut(end.nodes[n].deployments.live.value)
    ensures Busy(end) == Busy(w) && Broken(end) == Broken(w) - {n}
  {
  }

  lemma {:induction false} RepairAll(cfg: Config, w: World) returns (end: World)
    requires Inv(cfg, w) && Busy(w) == {} && w.lock.None?
    ensures Reaches(cfg, false, w, end) && Calm(cfg, end) && InServiceNodes(end) == InServiceNodes(w)
    decreases Broken(w)
  {
    if Broken(w) == {} {
      ReachesSelf(cfg, false, w);
      return w;
    }
    var n :| n in Broken(w);
    var mid := RepairOne(cfg, w, n);
    SameService(w, n, mid);
    end := RepairAll(cfg, mid);
    Chain(cfg, false, w, mid, end);
  }

  // ----- Pre-pulling everywhere -----

  ghost predicate Calm(cfg: Config, w: World) {
    Inv(cfg, w) && w.lock.None? && Busy(w) == {} && Broken(w) == {}
  }

  function Unsatisfied(cfg: Config, w: World): set<string> {
    set n | n in w.nodes && w.nodes[n].InService() && NeedsImage(cfg, n, w.nodes[n]) && !Satisfied(cfg, n, w.nodes[n])
  }

  /** The world after n's pre-pull pod was synchronized with fresh caches. */
  function Synced(cfg: Config, w: World, n: string, now: int): World
    requires n in w.nodes
  {
    var ns := w.nodes[n];
    w.(nodes := w.nodes[n := RunPodPlan(cfg, ns, PlanPod(cfg, SelfOf(cfg, n, LiveSeen(ns, now)), now), now)])
  }

  lemma PassReads(cfg: Config, w: World, n: string, now: int)
    requires Calm(cfg, w) && n in w.nodes
    ensures var x := InPhase(w, n, SyncPod(LiveSeen(w.nodes[n], now))); Reaches(cfg, false, w, x) && Inv(cfg, x)
  {
    assert n !in Busy(w);
    Take(cfg, false, w, ReadCaches(n, LiveSeen(w.nodes[n], now)), InPhase(w, n, SyncPod(LiveSeen(w.nodes[n], now))));
  }

  lemma PassSyncs(cfg: Config, w: World, n: string, now: int)
    requires n in Unsatisfied(cfg, w)
    ensures var x := InPhase(w, n, SyncPod(LiveSeen(w.nodes[n], now)));
            && Enabled(cfg, x, SyncPrePullPod(n))
            && (w.lock.None? ==> Do(cfg, x, SyncPrePullPod(n)) == InPhase(Synced(cfg, w, n, now), n, AskAdmission))
  {
  }

  lemma PassAsks(cfg: Config, w: World, n: string, now: int)
    requires Calm(cfg, w) && n in Unsatisfied(cfg, w)
    ensures var x := InPhase(Synced(cfg, w, n, now), n, AskAdmission); Reaches(cfg, false, w, x) && Inv(cfg, x)
  {
    var w1, x := InPhase(w, n, SyncPod(LiveSeen(w.nodes[n], now))), InPhase(Synced(cfg, w, n, now), n, AskAdmission);
    PassReads(cfg, w, n, now);
    PassSyncs(cfg, w, n, now);
    Take(cfg, false, w1, SyncPrePullPod(n), x);
    Chain(cfg, false, w, w1, x);
  }

  /** A node that still lacks its own pre-pull is held. */
  lemma LackingIsHeld(cfg: Config, v: World, n: string)
    requires n in Unsatisfied(cfg, v) && v.nodes[n].phase.Idle? && v.lock.None?
    ensures var y := InPhase(v, n, FetchedLive(v));
            Enabled(cfg, y, Decide(n, LivePods(y))) && Do(cfg, y, Decide(n, LivePods(y))) == v
  {
    var y := InPhase(v, n, FetchedLive(v));
    var self := MakeRollout(cfg, n, true, LivePods(y)[n], LiveDeployments(v)[n]);
    assert n in InServiceNodes(v);
    assert self in FleetOf(cfg, InServiceNodes(v), LiveDeployments(v), LivePods(y));
    assert self.LacksPrePull(cfg.image);
  }

  lemma FetchedFrom(v: World, n: string)
    requires n in v.nodes
    ensures var x := InPhase(v, n, AskAdmission); InPhase(x, n, FetchedLive(x)) == InPhase(v, n, FetchedLive(v))
  {
    var x := InPhase(v, n, AskAdmission);
    assert InServiceNodes(x) == InServiceNodes(v) && LiveDeployments(x) == LiveDeployments(v);
  }

  lemma PassHeld(cfg: Config, v: World, n: string)
    requires n in Unsatisfied(cfg, v) && v.nodes[n].phase.Idle? && v.lock.None?
    requires Inv(cfg, InPhase(v, n, AskAdmission))
    ensures Reaches(cfg, false, InPhase(v, n, AskAdmission), v) && Inv(cfg, v)
  {
    var x, y := InPhase(v, n, AskAdmission), InPhase(v, n, FetchedLive(v));
    FetchLive(cfg, x, n);
    FetchedFrom(v, n);
    Weaken(cfg, x, y);
    LackingIsHeld(cfg, v, n);
    Take(cfg, false, y, Decide(n, LivePods(y)), v);
    Chain(cfg, false, x, y, v);
  }

  /** One reconcile of a node whose pre-pull is not done only synchronizes its pod. */
  lemma Pass(cfg: Config, w: World, n: string, now: int)
    requires Calm(cfg, w) && n in Unsatisfied(cfg, w) && n in Unsatisfied(cfg, Synced(cfg, w, n, now))
    ensures Reaches(cfg, false, w, Synced(cfg, w, n, now)) && Calm(cfg, Synced(cfg, w, n, now))
  {
    var v := Synced(cfg, w, n, now);
    assert n !in Busy(w);
    PassAsks(cfg, w, n, now);
    SyncedShape(cfg, w, n, now);
    PassHeld(cfg, v, n);
    Chain(cfg, false, w, InPhase(v, n, AskAdmission), v);
    PodSets(w, n, v);
  }

  lemma SyncedShape(cfg: Config, w: World, n: string, now: int)
    requires n in w.nodes
    ensures var v := Synced(cfg, w, n, now);
            OnlyPods(w, n, v) && v.nodes[n].phase == w.nodes[n].phase && v.lock == w.lock
  {
  }

  /** Nothing differs but n's pre-pull pod. */
  predicate OnlyPods(w: World, n: string, end: World) {
    OnlyNode(w, n, end) && end.nodes[n].deployments == w.nodes[n].deployments
  }

  predicate IsUsable(cfg: Config, live: Option<Pod>) {
    live.Some? && PrePullPodImage(live.value) == cfg.image && live.value.phase != PodFailed
  }

  /** A wrong or failed pod is removed; afterwards there is none, or a usable one. */
  lemma ClearPod(cfg: Config, w: World, n: string) returns (end: World)
    requires Calm(cfg, w) && n in Unsatisfied(cfg, w)
    ensures Reaches(cfg, false, w, end) && Calm(cfg, end) && OnlyPods(w, n, end) && n in Unsatisfied(cfg, end)
    ensures end.nodes[n].pods.live.None? || IsUsable(cfg, end.nodes[n].pods.live)
  {
    var live := w.nodes[n].pods.live;
    if live.None? || IsUsable(cfg, live) {
      ReachesSelf(cfg, false, w);
      return w;
    }
    var now := live.value.created + PRE_PULL_RETRY_INTERVAL;
    end := Synced(cfg, w, n, now);
    Pass(cfg, w, n, now);
  }

  lemma MakePodAgain(cfg: Config, w: World, n: string) returns (end: World)
    requires Calm(cfg, w) && n in Unsatisfied(cfg, w) && w.nodes[n].pods.live.None?
    ensures Reaches(cfg, false, w, end) && Calm(cfg, end) && OnlyPods(w, n, end) && n in Unsatisfied(cfg, end)
    ensures IsUsable(cfg, end.nodes[n].pods.live)
  {
    end := Synced(cfg, w, n, 0);
    Pass(cfg, w, n, 0);
  }

  lemma MakeUsable(cfg: Config, w: World, n: string) returns (end: World)
    requires Calm(cfg, w) && n in Unsatisfied(cfg, w)
    ensures Reaches(cfg, false, w, end) && Calm(cfg, end) && OnlyPods(w, n, end) && n in Unsatisfied(cfg, end)
    ensures IsUsable(cfg, end.nodes[n].pods.live)
  {
    end := ClearPod(cfg, w, n);
    if end.nodes[n].pods.live.None? {
      var mid := end;
      end := MakePodAgain(cfg, mid, n);
      Chain(cfg, false, w, mid, end);
    }
  }

  const PULLED := [ContainerStatus(PRE_PULL_CONTAINER, "done", Terminated)]

  /** The pod's pull completes. */
  lemma PullCompletes(cfg: Config, w: World, n: string) returns (end: World)
    requires Calm(cfg, w) && n in Unsatisfied(cfg, w) && IsUsable(cfg, w.nodes[n].pods.live)
    ensures Reaches(cfg, false, w, end) && Calm(cfg, end) && OnlyPods(w, n, end)
    ensures Satisfied(cfg, n, end.nodes[n])
  {
    var step := UpdatePod(n, PodSucceeded, PULLED, true);
    var pod := w.nodes[n].pods.live.value.(phase := PodSucceeded, statuses := PULLED);
    assert ShowsPull(PULLED[0]) && IsImagePrePulled(pod) by {
      assert PULLED[0] in PULLED;
    }
    end := Do(cfg, w, step);
    Take(cfg, false, w, step, end);
    OthersKept(cfg, w, step);
    PodSets(w, n, end);
  }

  lemma PodSets(w: World, n: string, end: World)
    requires OnlyPods(w, n, end) && end.nodes[n].phase == w.nodes[n].phase
    ensures Busy(end) == Busy(w) && Broken(end) == Broken(w)
  {
  }

  lemma PrePullOne(cfg: Config, w: World, n: string) returns (end: World)
    requires Calm(cfg, w) && n in Unsatisfied(cfg, w)
    ensures Reaches(cfg, false, w, end) && Calm(cfg, end) && OnlyPods(w, n, end)
    ensures Satisfied(cfg, n, end.nodes[n])
  {
    var mid := MakeUsable(cfg, w, n);
    end := PullCompletes(cfg, mid, n);
    Chain(cfg, false, w, mid, end);
  }

  lemma PulledSet(cfg: Config, w: World, n: string, end: World)
    requires OnlyPods(w, n, end) && Satisfied(cfg, n, end.nodes[n])
    ensures Unsatisfied(cfg, end) == Unsatisfied(cfg, w) - {n}
  {
  }

  lemma {:induction false} PrePullAll(cfg: Config, w: World) returns (end: World)
    requires Calm(cfg, w)
    ensures Reaches(cfg, false, w, end) && Calm(cfg, end) && Unsatisfied(cfg, end) == {}
    ensures InServiceNodes(end) == InServiceNodes(w)
    decreases Unsatisfied(cfg, w)
  {
    if Unsatisfied(cfg, w) == {} {
      ReachesSelf(cfg, false, w);
      return w;
    }
    var n :| n in Unsatisfied(cfg, w);
    var mid := PrePullOne(cfg, w, n);
    PulledSet(cfg, w, n, mid);
    SameService(w, n, mid);
    end := PrePullAll(cfg, mid);
    Chain(cfg, false, w, mid, end);
  }

  lemma CalmIsHealthy(cfg: Config, w: World)
    requires Calm(cfg, w) && Unsatisfied(cfg, w) == {}
    ensures Healthy(cfg, w)
  {
    forall n | n in w.nodes
      ensures w.nodes[n].phase.Idle? && !IsDown(w.nodes[n])
      ensures w.nodes[n].InService() && NeedsImage(cfg, n, w.nodes[n]) ==> Satisfied(cfg, n, w.nodes[n])
    {
      assert n !in Busy(w) && n !in Broken(w) && n !in Unsatisfied(cfg, w);
    }
  }

  // ----- Clearing away what is not needed any more -----

  function Leftover(w: World): set<string> {
    set n | n in w.nodes && w.nodes[n].pods.live.Some?
  }

  ghost predicate Done(cfg: Config, w: World) {
    Healthy(cfg, w) && Pending(cfg, w) == {} && Missing(w) == {}
  }

  /** With fresh caches, a sync removes the pod of a node that does not need it. */
  lemma CleanSyncs(cfg: Config, w: World, n: string)
    requires Done(cfg, w) && n in Leftover(w)
    ensures var x := InPhase(w, n, SyncPod(LiveSeen(w.nodes[n], 0)));
            && Enabled(cfg, x, SyncPrePullPod(n))
            && var ns := NewNode(cfg, x, SyncPrePullPod(n));
               && ns.pods.live.None? && ns.deployments == w.nodes[n].deployments && ns.views == w.nodes[n].views
               && (ns.phase.Idle? || ns.phase.FastApply?)
  {
    assert n !in Pending(cfg, w);
  }

  /** An unlocked write on target changes nothing. */
  lemma CleanApplies(cfg: Config, y: World, n: string) returns (end: World)
    requires Inv(cfg, y) && n in y.nodes && y.lock.None? && y.nodes[n].deployments.live.Some?
    requires y.nodes[n].phase.Idle? || y.nodes[n].phase.FastApply?
    ensures Reaches(cfg, false, y, end) && Inv(cfg, end) && end.lock.None? && OnlyNode(y, n, end)
    ensures end.nodes[n].phase.Idle? && end.nodes[n].pods == y.nodes[n].pods
    ensures end.nodes[n].deployments.live == y.nodes[n].deployments.live
  {
    if y.nodes[n].phase.Idle? {
      ReachesSelf(cfg, false, y);
      return y;
    }
    end := Do(cfg, y, ApplyUnlocked(n));
    TemplateStep(cfg, y, ApplyUnlocked(n));
    Take(cfg, false, y, ApplyUnlocked(n), end);
    OthersKept(cfg, y, ApplyUnlocked(n));
  }

  lemma CleanSynced(cfg: Config, w: World, n: string) returns (y: World)
    requires Done(cfg, w) && n in Leftover(w)
    ensures Reaches(cfg, false, w, y) && Inv(cfg, y) && y.lock.None? && OnlyNode(w, n, y)
    ensures y.nodes[n].pods.live.None? && y.nodes[n].deployments == w.nodes[n].deployments
    ensures y.nodes[n].phase.Idle? || y.nodes[n].phase.FastApply?
  {
    var x := InPhase(w, n, SyncPod(LiveSeen(w.nodes[n], 0)));
    DoneIsIdle(cfg, w);
    CreateReads(cfg, w, n);
    CleanSyncs(cfg, w, n);
    y := Do(cfg, x, SyncPrePullPod(n));
    Take(cfg, false, x, SyncPrePullPod(n), y);
    OthersKept(cfg, x, SyncPrePullPod(n));
    Chain(cfg, false, w, x, y);
  }

  lemma DoneIsIdle(cfg: Config, w: World)
    requires Done(cfg, w)
    ensures Busy(w) == {} && forall n :: n in w.nodes ==> w.nodes[n].deployments.live.Some?
  {
    assert forall n :: n in w.nodes ==> n !in Missing(w);
  }

  lemma CleanOne(cfg: Config, w: World, n: string) returns (end: World)
    requires Done(cfg, w) && n in Leftover(w)
    ensures Reaches(cfg, false, w, end) && Inv(cfg, end) && end.lock.None? && OnlyNode(w, n, end)
    ensures end.nodes[n].phase.Idle? && end.nodes[n].pods.live.None?
    ensures end.nodes[n].deployments.live == w.nodes[n].deployments.live
  {
    DoneIsIdle(cfg, w);
    var y := CleanSynced(cfg, w, n);
    end := CleanApplies(cfg, y, n);
    Chain(cfg, false, w, y, end);
    OnlyNodeTwice(w, n, y, end);
  }

  lemma OnlyNodeTwice(w: World, n: string, mid: World, end: World)
    requires OnlyNode(w, n, mid) && OnlyNode(mid, n, end)
    ensures OnlyNode(w, n, end)
  {
  }

  lemma CleanedSets(cfg: Config, w: World, n: string, end: World)
    requires Done(cfg, w) && Inv(cfg, end) && end.lock.None? && OnlyNode(w, n, end)
    requires end.nodes[n].phase.Idle? && end.nodes[n].pods.live.None?
    requires end.nodes[n].deployments.live == w.nodes[n].deployments.live
    ensures Done(cfg, end) && Leftover(end) == Leftover(w) - {n}
  {
    SameService(w, n, end);
    SameSets(cfg, w, n, end);
    forall m | m in end.nodes
      ensures end.nodes[m].phase.Idle? && (end.nodes[m].InService() ==> !NeedsImage(cfg, m, end.nodes[m]))
    {
      assert m !in Pending(cfg, end);
    }
  }

  lemma SameSets(cfg: Config, w: World, n: string, end: World)
    requires OnlyNode(w, n, end) && end.nodes[n].deployments.live == w.nodes[n].deployments.live
    ensures Pending(cfg, end) == Pending(cfg, w) && Down(end) == Down(w) && Missing(end) == Missing(w)
  {
  }

  lemma {:induction false} CleanAll(cfg: Config, w: World) returns (end: World)
    requires Done(cfg, w)
    ensures Reaches(cfg, false, w, end) && Done(cfg, end) && Leftover(end) == {}
    ensures InServiceNodes(end) == InServiceNodes(w)
    decreases Leftover(w)
  {
    if Leftover(w) == {} {
      ReachesSelf(cfg, false, w);
      return w;
    }
    var n :| n in Leftover(w);
    var mid := CleanOne(cfg, w, n);
    CleanedSets(cfg, w, n, mid);
    SameService(w, n, mid);
    end := CleanAll(cfg, mid);
    Chain(cfg, false, w, mid, end);
  }

  /** The Deployment that node n should have in the end, fully rolled out. */
  predicate IsFinished(cfg: Config, n: string, live: Option<Deployment>) {
    && live.Some? && live.value.template == Template(n, cfg.image, cfg.options)
    && live.value.stamp == Some(Template(n, cfg.image, cfg.options)) && IsRolledOut(live.value)
  }

  lemma FinishedMeans(cfg: Config, w: World)
    requires Done(cfg, w)
    ensures forall n :: n in InServiceNodes(w) ==> IsFinished(cfg, n, w.nodes[n].deployments.live)
  {
    forall n | n in InServiceNodes(w) ensures IsFinished(cfg, n, w.nodes[n].deployments.live) {
      assert n !in Missing(w) && n !in Pending(cfg, w) && n !in Down(w);
      assert NodeInv(cfg, n, w.nodes[n]);
      assert w.nodes[n].deployments.Has(w.nodes[n].deployments.live);
    }
  }

  /** From every state of every run, whatever the workers are doing, whatever is missing or down
      and whatever is not pulled yet, a cooperative continuation ends with every in-service node
      having its Deployment, with the target template and stamp, fully rolled out, with a
      Deployment on every other node, and with every pre-pull pod cleared away. */
  lemma CanAlwaysFinish(cfg: Config, run: seq<World>, steps: seq<Step>, i: nat) returns (end: World)
    requires IsRun(cfg, run, steps) && i < |run|
    ensures Reaches(cfg, false, run[i], end) && InServiceNodes(end) == InServiceNodes(run[i])
    ensures forall n :: n in InServiceNodes(end) ==> IsFinished(cfg, n, end.nodes[n].deployments.live)
    ensures forall n :: n in end.nodes ==>
              && end.nodes[n].deployments.live.Some? && end.nodes[n].pods.live.None?
              && end.nodes[n].phase.Idle?
  {
    InvAlways(cfg, run, steps, i);
    var finished := FinishFrom(cfg, run[i]);
    end := CleanAll(cfg, finished);
    Chain(cfg, false, run[i], finished, end);
    FinishedMeans(cfg, end);
    assert forall n :: n in end.nodes ==> n !in Missing(end) && n !in Leftover(end);
  }

  lemma FinishFrom(cfg: Config, w: World) returns (end: World)
    requires Inv(cfg, w)
    ensures Reaches(cfg, false, w, end) && InServiceNodes(end) == InServiceNodes(w)
    ensures Done(cfg, end)
  {
    var drained := DrainAll(cfg, w);
    var created := CreateAll(cfg, drained);
    Chain(cfg, false, w, drained, created);
    end := FinishCreated(cfg, created);
    Chain(cfg, false, w, created, end);
    StaysCreated(cfg, false, created, end);
  }

  lemma FinishCreated(cfg: Config, w: World) returns (end: World)
    requires Inv(cfg, w) && Busy(w) == {} && w.lock.None?
    ensures Reaches(cfg, false, w, end) && InServiceNodes(end) == InServiceNodes(w)
    ensures Healthy(cfg, end) && Pending(cfg, end) == {}
  {
    var repaired := RepairAll(cfg, w);
    var pulled := PrePullAll(cfg, repaired);
    Chain(cfg, false, w, repaired, pulled);
    CalmIsHealthy(cfg, pulled);
    end := CanFinish(cfg, pulled);
    Weaken(cfg, pulled, end);
    Chain(cfg, false, w, pulled, end);
  }
}
