/** What every run of the rollout protocol guarantees. */
module RolloutTheorems {
  import opened Containers
  import opened GoText
  import opened Rollout
  import opened RolloutProtocol

  // ----- Stale caches are harmless -----

  lemma TemplateStep(cfg: Config, w: World, step: Step)
    requires Inv(cfg, w) && Enabled(cfg, w, step)
    ensures var before, after := w.nodes[step.n].deployments.live, NewNode(cfg, w, step).deployments.live;
            && (before.Some? && after.Some? && before.value.template != after.value.template ==>
                  step.ApplyAdmitted? && w.lock == Some(step.n))
            && (step.ApplyUnlocked? ==> before.None? || after == before)
  {
    var ns := w.nodes[step.n];
    assert NodeInv(cfg, step.n, ns);
    assert ns.deployments.Has(ns.deployments.live);
  }

  /** A Deployment's template is only ever replaced by an admitted write with the lock held;
      the unlocked write creates the Deployment or changes nothing at all. */
  lemma StaleCacheSafety(cfg: Config, run: seq<World>, steps: seq<Step>, i: nat, n: string)
    requires IsRun(cfg, run, steps) && i < |steps| && n in run[i].nodes
    ensures n in run[i + 1].nodes
    ensures var before, after := run[i].nodes[n].deployments.live, run[i + 1].nodes[n].deployments.live;
            && (before.Some? && after.Some? && before.value.template != after.value.template ==>
                  steps[i] == ApplyAdmitted(n) && run[i].lock == Some(n))
            && (steps[i] == ApplyUnlocked(n) ==> before.None? || after == before)
  {
    InvAlways(cfg, run, steps, i);
    assert IsStep(cfg, run, steps, i);
    OthersKept(cfg, run[i], steps[i]);
    TemplateStep(cfg, run[i], steps[i]);
  }

  // ----- One at a time -----

  predicate IsDown(ns: NodeState) {
    ns.InService() && ns.deployments.live.Some? && !IsRolledOut(ns.deployments.live.value)
  }

  /** Not a Deployment that is not fully rolled out. */
  predicate IsAvail(d: Option<Deployment>) {
    d.Some? ==> IsRolledOut(d.value)
  }

  /** The in-service nodes whose Deployment is not fully rolled out. */
  function Down(w: World): set<string> {
    set n | n in w.nodes && IsDown(w.nodes[n])
  }

  /** The in-service nodes whose Deployment still carries another target. */
  function Pending(cfg: Config, w: World): set<string> {
    set n | n in w.nodes && w.nodes[n].InService() && IsPending(cfg, n, w.nodes[n].deployments.live)
  }

  /** A fixed in-service set, no first creation, no deletion, and a cluster that only
      completes rollouts. */
  ghost predicate Quiet(cfg: Config, w: World, step: Step)
    requires Enabled(cfg, w, step)
  {
    var ns := w.nodes[step.n];
    match step
    case ChangeNode(_, node) => IsInService(node) == ns.InService()
    case UpdateStatus(_, status) =>
      IsRolledOut(ns.deployments.live.value) ==> IsRolledOut(ns.deployments.live.value.(status := status))
    case DeleteDeployment(_) => false
    case ApplyUnlocked(_) => ns.deployments.live.Some?
    case ApplyAdmitted(_) => ns.deployments.live.Some?
    case _ => true
  }

  /** A run that is quiet from some state on in which nobody holds the lock; whatever happened
      before that state. */
  ghost predicate IsQuietFrom(cfg: Config, run: seq<World>, steps: seq<Step>, start: nat) {
    && IsRun(cfg, run, steps) && start < |run| && run[start].lock.None?
    && forall i :: start <= i < |steps| ==> IsQuietStep(cfg, run, steps, i)
  }

  ghost predicate IsQuietStep(cfg: Config, run: seq<World>, steps: seq<Step>, i: int) {
    IsStep(cfg, run, steps, i) && Quiet(cfg, run[i], steps[i])
  }

  lemma QuietAt(cfg: Config, run: seq<World>, steps: seq<Step>, start: nat, i: nat)
    requires IsQuietFrom(cfg, run, steps, start) && start <= i < |steps|
    ensures Enabled(cfg, run[i], steps[i]) && Quiet(cfg, run[i], steps[i]) && run[i + 1] == Do(cfg, run[i], steps[i])
  {
    assert IsQuietStep(cfg, run, steps, i);
  }

  /** A listing names every in-service node that is down. */
  predicate SeesDown(w: World, step: Step) {
    step.TakeLock? ==> Down(w) <= ListedBy(w, step.nodeViews)
  }

  predicate AllSeeDown(run: seq<World>, steps: seq<Step>, start: nat) {
    forall i :: start <= i < |steps| ==> SeesDownAt(run, steps, i)
  }

  predicate SeesDownAt(run: seq<World>, steps: seq<Step>, i: nat) {
    i < |run| && i < |steps| && SeesDown(run[i], steps[i])
  }

  /** What a quiet step does to the acting node. */
  lemma ActorStep(cfg: Config, w: World, step: Step)
    requires Inv(cfg, w) && Enabled(cfg, w, step) && Quiet(cfg, w, step)
    ensures var ns, ns' := w.nodes[step.n], NewNode(cfg, w, step);
            && ns'.InService() == ns.InService()
            && (IsPending(cfg, step.n, ns'.deployments.live) <==>
                  IsPending(cfg, step.n, ns.deployments.live) && !step.ApplyAdmitted?)
            && (IsAvail(ns.deployments.live) && !step.ApplyAdmitted? ==> IsAvail(ns'.deployments.live))
            && (IsDown(ns') ==>
                  IsDown(ns) || (step.ApplyAdmitted? && IsPending(cfg, step.n, ns.deployments.live)))
  {
    var ns := w.nodes[step.n];
    assert NodeInv(cfg, step.n, ns);
    assert ns.deployments.Has(ns.deployments.live);
  }

  /** No node but the actor changes. */
  lemma OthersKept(cfg: Config, w: World, step: Step)
    requires Enabled(cfg, w, step)
    ensures Do(cfg, w, step).nodes == w.nodes[step.n := NewNode(cfg, w, step)]
  {
  }

  /** A quiet step leaves the down set alone or shrinks it, except an admitted write of a
      pending Deployment, which may add its own node. */
  lemma DownStep(cfg: Config, w: World, step: Step)
    requires Inv(cfg, w) && Enabled(cfg, w, step) && Quiet(cfg, w, step)
    ensures var isWrite := step.ApplyAdmitted? && step.n in Pending(cfg, w);
            Down(Do(cfg, w, step)) <= Down(w) + (if isWrite then {step.n} else {})
  {
    ActorStep(cfg, w, step);
    OthersKept(cfg, w, step);
  }

  function PendingAmong(cfg: Config, w: World, nodes: set<string>): set<string> {
    set m | m in nodes && m in w.nodes && IsPending(cfg, m, w.nodes[m].deployments.live)
  }

  /** What was fetched still tells who is pending, and who was up still is. */
  predicate StillTrue(cfg: Config, fetched: map<string, Option<Deployment>>, w: World) {
    forall m :: m in w.nodes && m in fetched ==>
      && (IsAvail(fetched[m]) ==> IsAvail(w.nodes[m].deployments.live))
      && (IsPending(cfg, m, fetched[m]) <==> IsPending(cfg, m, w.nodes[m].deployments.live))
  }

  lemma StillTrueStep(cfg: Config, w: World, step: Step, fetched: map<string, Option<Deployment>>)
    requires Inv(cfg, w) && Enabled(cfg, w, step) && Quiet(cfg, w, step) && !step.ApplyAdmitted?
    requires StillTrue(cfg, fetched, w)
    ensures StillTrue(cfg, fetched, Do(cfg, w, step))
  {
    ActorStep(cfg, w, step);
    OthersKept(cfg, w, step);
  }

  /** The fetched Deployments name exactly the pending nodes among the listed ones. */
  lemma FleetPending(
    cfg: Config, w: World, listed: set<string>, fetched: map<string, Option<Deployment>>,
    cachedPods: map<string, Option<Pod>>)
    requires listed <= w.nodes.Keys && listed <= fetched.Keys && listed <= cachedPods.Keys && StillTrue(cfg, fetched, w)
    ensures PendingNames(FleetOf(cfg, listed, fetched, cachedPods)) == PendingAmong(cfg, w, listed)
    ensures forall m :: m in listed ==>
              MakeRollout(cfg, m, true, cachedPods[m], fetched[m]) in FleetOf(cfg, listed, fetched, cachedPods)
  {
    var fleet := FleetOf(cfg, listed, fetched, cachedPods);
    forall m | m in PendingAmong(cfg, w, listed) ensures m in PendingNames(fleet) {
      var r := MakeRollout(cfg, m, true, cachedPods[m], fetched[m]);
      assert r in fleet && r.isPending && r.name == m;
    }
  }

  /** An admitted pending node was either not rolled out itself, or all listed nodes are up and it
      has the least pending name among them. */
  lemma DecideSafe(cfg: Config, w: World, step: Step)
    requires Inv(cfg, w) && step.Decide? && Enabled(cfg, w, step) && StillTrue(cfg, w.nodes[step.n].phase.fetched, w)
    requires NewNode(cfg, w, step).phase.Admitted? && IsPending(cfg, step.n, w.nodes[step.n].deployments.live)
    ensures var phase := w.nodes[step.n].phase;
            || !IsAvail(phase.fetched[step.n])
            || (Down(w) !! phase.listed && IsLeast(step.n, PendingAmong(cfg, w, phase.listed)))
  {
    var n, phase := step.n, w.nodes[step.n].phase;
    if IsAvail(phase.fetched[n]) {
      AdmitsSafe(cfg, w, phase.listed, phase.fetched, step.cachedPods, n);
    }
  }

  lemma AdmitsSafe(
    cfg: Config, w: World, listed: set<string>, fetched: map<string, Option<Deployment>>,
    cachedPods: map<string, Option<Pod>>, n: string)
    requires listed <= w.nodes.Keys && listed <= fetched.Keys && listed <= cachedPods.Keys && n in w.nodes
    requires StillTrue(cfg, fetched, w) && n in fetched && IsAvail(fetched[n])
    requires Admits(FleetOf(cfg, listed, fetched, cachedPods), n, cfg.image)
    requires IsPending(cfg, n, w.nodes[n].deployments.live)
    ensures Down(w) !! listed && IsLeast(n, PendingAmong(cfg, w, listed))
  {
    var fleet := FleetOf(cfg, listed, fetched, cachedPods);
    FleetPending(cfg, w, listed, fetched, cachedPods);
    var self :| self in fleet && self.name == n;
    forall m | m in listed ensures !IsDown(w.nodes[m]) {
      assert MakeRollout(cfg, m, true, cachedPods[m], fetched[m]) in fleet;
    }
  }

  ghost predicate BoundInv(cfg: Config, w: World, bound: nat) {
    && Inv(cfg, w) && 1 <= bound && |Down(w)| <= bound
    && forall n :: n in w.nodes && w.nodes[n].HoldsLock() ==> BoundHolder(cfg, w, n, w.nodes[n].phase, bound)
  }

  /** What the lock holder's list, its fetched Deployments and its admission mean for the bound. */
  ghost predicate BoundHolder(cfg: Config, w: World, n: string, phase: Phase, bound: nat)
    requires IsLocked(phase)
  {
    && Down(w) <= phase.listed
    && (phase.Fetched? ==> StillTrue(cfg, phase.fetched, w))
    && (n in Pending(cfg, w) &&
        (phase.Admitted? || (phase.Fetched? && n in phase.fetched && !IsAvail(phase.fetched[n]))) ==>
          |Down(w) - {n}| + 1 <= bound)
  }

  /** A node about to write was admitted just now, or was already admitted and pending. */
  lemma AdmittedBefore(cfg: Config, w: World, step: Step, n: string)
    requires Inv(cfg, w) && Enabled(cfg, w, step) && n in w.nodes
    requires var ns' := Do(cfg, w, step).nodes[n];
             ns'.phase.Admitted? && IsPending(cfg, n, ns'.deployments.live)
    ensures !step.ApplyAdmitted? && IsPending(cfg, n, w.nodes[n].deployments.live)
    ensures (step.Decide? && step.n == n) || w.nodes[n].phase.Admitted?
  {
    NodeStep(cfg, w, step);
  }

  lemma BoundDown(cfg: Config, w: World, step: Step, bound: nat)
    requires BoundInv(cfg, w, bound) && Enabled(cfg, w, step) && Quiet(cfg, w, step)
    ensures |Down(Do(cfg, w, step))| <= bound
  {
    DownStep(cfg, w, step);
    if step.ApplyAdmitted? && step.n in Pending(cfg, w) {
      SubsetCard(Down(Do(cfg, w, step)), (Down(w) - {step.n}) + {step.n});
    } else {
      SubsetCard(Down(Do(cfg, w, step)), Down(w));
    }
  }

  /** Whoever holds the lock after a step listed just now, or held it before under the same list. */
  lemma HeldBefore(cfg: Config, w: World, step: Step, n: string)
    requires Inv(cfg, w) && Enabled(cfg, w, step) && n in w.nodes && Do(cfg, w, step).nodes[n].HoldsLock()
    ensures !step.ApplyAdmitted?
    ensures var listed := Do(cfg, w, step).nodes[n].phase.listed;
            if step.TakeLock? && step.n == n then listed == ListedBy(w, step.nodeViews)
            else w.nodes[n].HoldsLock() && w.nodes[n].phase.listed == listed
  {
    InvStep(cfg, w, step);
  }

  lemma HolderDown(cfg: Config, w: World, step: Step, bound: nat, n: string)
    requires BoundInv(cfg, w, bound) && Enabled(cfg, w, step) && Quiet(cfg, w, step) && SeesDown(w, step)
    requires n in w.nodes && Do(cfg, w, step).nodes[n].HoldsLock()
    ensures Down(Do(cfg, w, step)) <= Down(w) <= Do(cfg, w, step).nodes[n].phase.listed
  {
    DownStep(cfg, w, step);
    HeldBefore(cfg, w, step, n);
  }

  /** A worker that has just fetched, or had fetched before, knows what still holds. */
  lemma FetchedBefore(cfg: Config, w: World, step: Step, n: string)
    requires Inv(cfg, w) && Enabled(cfg, w, step) && n in w.nodes && Do(cfg, w, step).nodes[n].phase.Fetched?
    ensures !step.ApplyAdmitted?
    ensures var fetched := Do(cfg, w, step).nodes[n].phase.fetched;
            if step.FetchDeployments? && step.n == n then fetched == LiveDeployments(w)
            else w.nodes[n].phase.Fetched? && w.nodes[n].phase.fetched == fetched
  {
    HeldBefore(cfg, w, step, n);
  }

  lemma FetchedStillTrue(cfg: Config, w: World, step: Step, n: string)
    requires Inv(cfg, w) && Enabled(cfg, w, step) && Quiet(cfg, w, step)
    requires n in w.nodes && Do(cfg, w, step).nodes[n].phase.Fetched?
    requires w.nodes[n].phase.Fetched? ==> StillTrue(cfg, w.nodes[n].phase.fetched, w)
    ensures StillTrue(cfg, Do(cfg, w, step).nodes[n].phase.fetched, Do(cfg, w, step))
  {
    FetchedBefore(cfg, w, step, n);
    StillTrueStep(cfg, w, step, Do(cfg, w, step).nodes[n].phase.fetched);
  }

  /** The worker found its own node down when it fetched. */
  lemma BoundFetched(cfg: Config, w: World, step: Step, bound: nat, n: string)
    requires BoundInv(cfg, w, bound) && Enabled(cfg, w, step) && Quiet(cfg, w, step) && SeesDown(w, step)
    requires var w' := Do(cfg, w, step);
             && n in w.nodes && w'.nodes[n].phase.Fetched? && n in Pending(cfg, w')
             && n in w'.nodes[n].phase.fetched && !IsAvail(w'.nodes[n].phase.fetched[n])
    ensures |Down(Do(cfg, w, step)) - {n}| + 1 <= bound
  {
    FetchedBefore(cfg, w, step, n);
    PendingStep(cfg, w, step);
    HolderDown(cfg, w, step, bound, n);
    SubsetCard(Down(Do(cfg, w, step)) - {n}, Down(w) - {n});
    if step.FetchDeployments? && step.n == n {
      assert n in Down(w);
    }
  }

  lemma BoundAdmitted(cfg: Config, w: World, step: Step, bound: nat, n: string)
    requires BoundInv(cfg, w, bound) && Enabled(cfg, w, step) && Quiet(cfg, w, step) && SeesDown(w, step)
    requires var w' := Do(cfg, w, step); n in w.nodes && w'.nodes[n].phase.Admitted? && n in Pending(cfg, w')
    ensures |Down(Do(cfg, w, step)) - {n}| + 1 <= bound
  {
    AdmittedBefore(cfg, w, step, n);
    PendingStep(cfg, w, step);
    HolderDown(cfg, w, step, bound, n);
    SubsetCard(Down(Do(cfg, w, step)) - {n}, Down(w) - {n});
    if step.Decide? && step.n == n {
      DecideSafe(cfg, w, step);
    }
  }

  lemma BoundHolderStep(cfg: Config, w: World, step: Step, bound: nat, n: string)
    requires BoundInv(cfg, w, bound) && Enabled(cfg, w, step) && Quiet(cfg, w, step) && SeesDown(w, step)
    requires n in w.nodes && Do(cfg, w, step).nodes[n].HoldsLock()
    ensures BoundHolder(cfg, Do(cfg, w, step), n, Do(cfg, w, step).nodes[n].phase, bound)
  {
    var w' := Do(cfg, w, step);
    HolderDown(cfg, w, step, bound, n);
    if w'.nodes[n].phase.Fetched? {
      FetchedStillTrue(cfg, w, step, n);
      if n in Pending(cfg, w') && n in w'.nodes[n].phase.fetched && !IsAvail(w'.nodes[n].phase.fetched[n]) {
        BoundFetched(cfg, w, step, bound, n);
      }
    }
    if w'.nodes[n].phase.Admitted? && n in Pending(cfg, w') {
      BoundAdmitted(cfg, w, step, bound, n);
    }
  }

  lemma BoundStep(cfg: Config, w: World, step: Step, bound: nat)
    requires BoundInv(cfg, w, bound) && Enabled(cfg, w, step) && Quiet(cfg, w, step) && SeesDown(w, step)
    ensures BoundInv(cfg, Do(cfg, w, step), bound)
  {
    InvStep(cfg, w, step);
    BoundDown(cfg, w, step, bound);
    var w' := Do(cfg, w, step);
    forall n | n in w'.nodes && w'.nodes[n].HoldsLock() ensures BoundHolder(cfg, w', n, w'.nodes[n].phase, bound) {
      BoundHolderStep(cfg, w, step, bound, n);
    }
  }

  lemma BoundNext(cfg: Config, run: seq<World>, steps: seq<Step>, start: nat, i: nat, bound: nat)
    requires IsQuietFrom(cfg, run, steps, start) && start <= i < |steps| && AllSeeDown(run, steps, start)
    requires BoundInv(cfg, run[i], bound)
    ensures BoundInv(cfg, run[i + 1], bound)
  {
    QuietAt(cfg, run, steps, start, i);
    assert SeesDownAt(run, steps, i);
    BoundStep(cfg, run[i], steps[i], bound);
  }

  lemma BoundStart(cfg: Config, w: World, bound: nat)
    requires Inv(cfg, w) && w.lock.None? && 1 <= bound && |Down(w)| <= bound
    ensures BoundInv(cfg, w, bound)
  {
  }

  lemma {:induction false} BoundAlways(
    cfg: Config, run: seq<World>, steps: seq<Step>, start: nat, i: nat, bound: nat)
    requires IsQuietFrom(cfg, run, steps, start) && start <= i < |run|
    requires AllSeeDown(run, steps, start)
    requires 1 <= bound && |Down(run[start])| <= bound
    ensures BoundInv(cfg, run[i], bound)
  {
    if i == start {
      InvAlways(cfg, run, steps, start);
      BoundStart(cfg, run[start], bound);
    } else {
      BoundAlways(cfg, run, steps, start, i - 1, bound);
      BoundNext(cfg, run, steps, start, i - 1, bound);
    }
  }

  function AtLeastOne(k: nat): nat {
    if k == 0 then 1 else k
  }

  /** While the cluster is quiet and no listing misses a down node, at most one in-service node
      is down at any time, or as many as were down at the start when that was more. */
  lemma OneAtATime(cfg: Config, run: seq<World>, steps: seq<Step>, start: nat, i: nat)
    requires IsQuietFrom(cfg, run, steps, start) && start <= i < |run|
    requires AllSeeDown(run, steps, start)
    ensures |Down(run[i])| <= AtLeastOne(|Down(run[start])|)
  {
    BoundAlways(cfg, run, steps, start, i, AtLeastOne(|Down(run[start])|));
  }

  /** Outside quiet runs the lock does not cover the cluster: an admitted write of an existing
      Deployment pushes the down count above max(1, count before) exactly when the node was
      itself up, its template changes, and some other in-service node is down at the write. */
  lemma WriteRaisesExactly(cfg: Config, w: World, n: string)
    requires Inv(cfg, w) && Enabled(cfg, w, ApplyAdmitted(n)) && w.nodes[n].deployments.live.Some?
    ensures var before, after := |Down(w)|, |Down(Do(cfg, w, ApplyAdmitted(n)))|;
            after > AtLeastOne(before) <==>
              && w.nodes[n].InService() && n !in Down(w) && Down(w) != {}
              && w.nodes[n].deployments.live.value.template != Target(cfg, n)
  {
    WriteBringsDown(cfg, w, n);
  }

  lemma WriteBringsDown(cfg: Config, w: World, n: string)
    requires Inv(cfg, w) && Enabled(cfg, w, ApplyAdmitted(n)) && w.nodes[n].deployments.live.Some?
    ensures var changes := w.nodes[n].InService() && w.nodes[n].deployments.live.value.template != Target(cfg, n);
            Down(Do(cfg, w, ApplyAdmitted(n))) == Down(w) + (if changes then {n} else {})
  {
    var ns := w.nodes[n];
    var ns' := NewNode(cfg, w, ApplyAdmitted(n));
    assert NodeInv(cfg, n, ns);
    assert ns.deployments.Has(ns.deployments.live);
    OthersKept(cfg, w, ApplyAdmitted(n));
    assert IsDown(ns') <==>
           IsDown(ns) || (ns.InService() && ns.deployments.live.value.template != Target(cfg, n));
  }

  // ----- Name order -----

  /** A listing names every in-service node that is down or pending. */
  predicate SeesTurn(cfg: Config, w: World, step: Step) {
    step.TakeLock? ==> Down(w) + Pending(cfg, w) <= ListedBy(w, step.nodeViews)
  }

  predicate AllSeeTurn(cfg: Config, run: seq<World>, steps: seq<Step>, start: nat) {
    forall i :: start <= i < |steps| ==> SeesTurnAt(cfg, run, steps, i)
  }

  predicate SeesTurnAt(cfg: Config, run: seq<World>, steps: seq<Step>, i: nat) {
    i < |run| && i < |steps| && SeesTurn(cfg, run[i], steps[i])
  }

  /** The plan is what of the in-service nodes was rolled out, followed by what is pending. */
  ghost predicate OrderInv(cfg: Config, w: World, service: set<string>, plan: seq<string>) {
    && Inv(cfg, w) && InServiceNodes(w) == service
    && Filter(w.log, service) + Sorted(Pending(cfg, w)) == plan
    && Down(w) !! Pending(cfg, w)
    && forall n :: n in w.nodes && w.nodes[n].HoldsLock() ==> OrderHolder(cfg, w, n, w.nodes[n].phase)
  }

  /** What the lock holder's list, its fetched Deployments and its admission mean for the order. */
  ghost predicate OrderHolder(cfg: Config, w: World, n: string, phase: Phase)
    requires IsLocked(phase)
  {
    && Down(w) + Pending(cfg, w) <= phase.listed
    && (phase.Fetched? ==> StillTrue(cfg, phase.fetched, w))
    && (phase.Fetched? && n in Pending(cfg, w) && n in phase.fetched ==> IsAvail(phase.fetched[n]))
    && (phase.Admitted? && n in Pending(cfg, w) ==> Down(w) == {} && IsLeast(n, Pending(cfg, w)))
  }

  lemma PendingStep(cfg: Config, w: World, step: Step)
    requires Inv(cfg, w) && Enabled(cfg, w, step) && Quiet(cfg, w, step)
    ensures Pending(cfg, Do(cfg, w, step)) == Pending(cfg, w) - (if step.ApplyAdmitted? then {step.n} else {})
  {
    ActorStep(cfg, w, step);
    OthersKept(cfg, w, step);
  }

  lemma ServiceStep(cfg: Config, w: World, step: Step)
    requires Inv(cfg, w) && Enabled(cfg, w, step) && Quiet(cfg, w, step)
    ensures InServiceNodes(Do(cfg, w, step)) == InServiceNodes(w)
  {
    ActorStep(cfg, w, step);
    OthersKept(cfg, w, step);
  }

  lemma SortedHead(log: seq<string>, pending: set<string>, n: string)
    requires IsLeast(n, pending)
    ensures (log + [n]) + Sorted(pending - {n}) == log + Sorted(pending)
  {
    LeastUnique(pending, n, Least(pending));
    assert Sorted(pending) == [n] + Sorted(pending - {n});
  }

  lemma OrderLog(cfg: Config, w: World, step: Step, service: set<string>, plan: seq<string>)
    requires OrderInv(cfg, w, service, plan) && Enabled(cfg, w, step) && Quiet(cfg, w, step)
    ensures Filter(Do(cfg, w, step).log, service) + Sorted(Pending(cfg, Do(cfg, w, step))) == plan
  {
    var isWrite := step.ApplyAdmitted? && IsPending(cfg, step.n, w.nodes[step.n].deployments.live);
    PendingStep(cfg, w, step);
    LogStep(cfg, w, step);
    if isWrite {
      WriterIsLeast(cfg, w, step, service, plan);
      PlanKept(w.log, service, Pending(cfg, w), step.n);
    } else {
      assert Pending(cfg, Do(cfg, w, step)) == Pending(cfg, w);
    }
  }

  lemma WriterIsLeast(cfg: Config, w: World, step: Step, service: set<string>, plan: seq<string>)
    requires OrderInv(cfg, w, service, plan) && Enabled(cfg, w, step) && step.ApplyAdmitted?
    ensures step.n in Pending(cfg, w) ==> IsLeast(step.n, Pending(cfg, w)) && step.n in service
    ensures step.n in service && IsPending(cfg, step.n, w.nodes[step.n].deployments.live) ==> step.n in Pending(cfg, w)
  {
    assert OrderHolder(cfg, w, step.n, w.nodes[step.n].phase);
    assert step.n in service <==> step.n in InServiceNodes(w);
  }

  /** A write moves the least pending node to the log, or adds a node that does not count. */
  lemma PlanKept(log: seq<string>, service: set<string>, pending: set<string>, n: string)
    requires if n in service then IsLeast(n, pending) else n !in pending
    ensures Filter(log + [n], service) + Sorted(pending - {n}) == Filter(log, service) + Sorted(pending)
  {
    if n in service {
      LogMoves(log, service, pending, n);
    } else {
      assert pending - {n} == pending;
      FilterAppend(log, n, service);
    }
  }

  lemma LogStep(cfg: Config, w: World, step: Step)
    requires Enabled(cfg, w, step)
    ensures Do(cfg, w, step).log ==
            if step.ApplyAdmitted? && IsPending(cfg, step.n, w.nodes[step.n].deployments.live)
            then w.log + [step.n] else w.log
  {
  }

  /** The least pending node moves from the pending list to the log. */
  lemma LogMoves(log: seq<string>, service: set<string>, pending: set<string>, n: string)
    requires n in service && IsLeast(n, pending)
    ensures Filter(log + [n], service) + Sorted(pending - {n}) == Filter(log, service) + Sorted(pending)
  {
    FilterAppend(log, n, service);
    SortedHead(Filter(log, service), pending, n);
  }

  lemma OrderDecide(cfg: Config, w: World, step: Step, service: set<string>, plan: seq<string>)
    requires OrderInv(cfg, w, service, plan) && Enabled(cfg, w, step) && step.Decide?
    requires NewNode(cfg, w, step).phase.Admitted? && step.n in Pending(cfg, w)
    ensures Down(w) == {} && IsLeast(step.n, Pending(cfg, w))
  {
    DecideSafe(cfg, w, step);
    assert Pending(cfg, w) <= PendingAmong(cfg, w, w.nodes[step.n].phase.listed);
  }

  lemma OrderFetched(cfg: Config, w: World, step: Step, service: set<string>, plan: seq<string>, n: string)
    requires OrderInv(cfg, w, service, plan) && Enabled(cfg, w, step) && Quiet(cfg, w, step)
    requires n in w.nodes && Do(cfg, w, step).nodes[n].phase.Fetched?
    ensures var w' := Do(cfg, w, step);
            var fetched := w'.nodes[n].phase.fetched;
            StillTrue(cfg, fetched, w') && (n in Pending(cfg, w') && n in fetched ==> IsAvail(fetched[n]))
  {
    FetchedStillTrue(cfg, w, step, n);
    FetchedBefore(cfg, w, step, n);
    PendingStep(cfg, w, step);
    if n in Pending(cfg, w) {
      assert n !in Down(w);
    }
  }

  lemma OrderHolderStep(cfg: Config, w: World, step: Step, service: set<string>, plan: seq<string>, n: string)
    requires OrderInv(cfg, w, service, plan) && Enabled(cfg, w, step) && Quiet(cfg, w, step) && SeesTurn(cfg, w, step)
    requires n in w.nodes && Do(cfg, w, step).nodes[n].HoldsLock()
    ensures OrderHolder(cfg, Do(cfg, w, step), n, Do(cfg, w, step).nodes[n].phase)
  {
    HolderSees(cfg, w, step, service, plan, n);
    var w' := Do(cfg, w, step);
    if w'.nodes[n].phase.Fetched? {
      OrderFetched(cfg, w, step, service, plan, n);
    }
    if w'.nodes[n].phase.Admitted? && n in Pending(cfg, w') {
      OrderAdmitted(cfg, w, step, service, plan, n);
    }
  }

  lemma HolderSees(cfg: Config, w: World, step: Step, service: set<string>, plan: seq<string>, n: string)
    requires OrderInv(cfg, w, service, plan) && Enabled(cfg, w, step) && Quiet(cfg, w, step) && SeesTurn(cfg, w, step)
    requires n in w.nodes && Do(cfg, w, step).nodes[n].HoldsLock()
    ensures var w' := Do(cfg, w, step); Down(w') + Pending(cfg, w') <= w'.nodes[n].phase.listed
  {
    HeldBefore(cfg, w, step, n);
    SetsShrink(cfg, w, step);
    if !(step.TakeLock? && step.n == n) {
      assert OrderHolder(cfg, w, n, w.nodes[n].phase);
    }
  }

  lemma SetsShrink(cfg: Config, w: World, step: Step)
    requires Inv(cfg, w) && Enabled(cfg, w, step) && Quiet(cfg, w, step) && !step.ApplyAdmitted?
    ensures var w' := Do(cfg, w, step); Down(w') + Pending(cfg, w') <= Down(w) + Pending(cfg, w)
  {
    DownStep(cfg, w, step);
    PendingStep(cfg, w, step);
  }

  lemma OrderAdmitted(cfg: Config, w: World, step: Step, service: set<string>, plan: seq<string>, n: string)
    requires OrderInv(cfg, w, service, plan) && Enabled(cfg, w, step) && Quiet(cfg, w, step)
    requires var w' := Do(cfg, w, step); n in w.nodes && w'.nodes[n].phase.Admitted? && n in Pending(cfg, w')
    ensures var w' := Do(cfg, w, step); Down(w') == {} && IsLeast(n, Pending(cfg, w'))
  {
    AdmittedBefore(cfg, w, step, n);
    DownStep(cfg, w, step);
    PendingStep(cfg, w, step);
    if step.Decide? && step.n == n {
      OrderDecide(cfg, w, step, service, plan);
    } else {
      assert OrderHolder(cfg, w, n, w.nodes[n].phase);
    }
  }

  lemma OrderStep(cfg: Config, w: World, step: Step, service: set<string>, plan: seq<string>)
    requires OrderInv(cfg, w, service, plan) && Enabled(cfg, w, step) && Quiet(cfg, w, step) && SeesTurn(cfg, w, step)
    ensures OrderInv(cfg, Do(cfg, w, step), service, plan)
  {
    InvStep(cfg, w, step);
    OrderLog(cfg, w, step, service, plan);
    DownStep(cfg, w, step);
    PendingStep(cfg, w, step);
    ServiceStep(cfg, w, step);
    var w' := Do(cfg, w, step);
    forall n | n in w'.nodes && w'.nodes[n].HoldsLock()
      ensures OrderHolder(cfg, w', n, w'.nodes[n].phase)
    {
      OrderHolderStep(cfg, w, step, service, plan, n);
    }
  }

  lemma OrderNext(
    cfg: Config, run: seq<World>, steps: seq<Step>, start: nat, i: nat, service: set<string>, plan: seq<string>)
    requires IsQuietFrom(cfg, run, steps, start) && start <= i < |steps| && AllSeeTurn(cfg, run, steps, start)
    requires OrderInv(cfg, run[i], service, plan)
    ensures OrderInv(cfg, run[i + 1], service, plan)
  {
    QuietAt(cfg, run, steps, start, i);
    assert SeesTurnAt(cfg, run, steps, i);
    OrderStep(cfg, run[i], steps[i], service, plan);
  }

  function ServedLog(w: World, service: set<string>): seq<string> {
    Filter(w.log, service)
  }

  lemma OrderAlways(cfg: Config, run: seq<World>, steps: seq<Step>, start: nat, i: nat)
    requires IsQuietFrom(cfg, run, steps, start) && start <= i < |run| && Down(run[start]) == {}
    requires AllSeeTurn(cfg, run, steps, start)
    ensures var service := InServiceNodes(run[start]);
            OrderInv(cfg, run[i], service, ServedLog(run[start], service) + Sorted(Pending(cfg, run[start])))
  {
    var service := InServiceNodes(run[start]);
    var plan := ServedLog(run[start], service) + Sorted(Pending(cfg, run[start]));
    InvAlways(cfg, run, steps, start);
    forall j | start <= j < i && OrderInv(cfg, run[j], service, plan) ensures OrderInv(cfg, run[j + 1], service, plan) {
      OrderNext(cfg, run, steps, start, j, service, plan);
    }
    Induct(run, start, i, w => OrderInv(cfg, w, service, plan));
  }

  /** From an all-available fleet, the rollouts of in-service nodes in a quiet stretch whose
      listings miss no down or pending node are always a prefix of the name-sorted list of the
      nodes pending at its start, and what is left of that list is exactly what is still
      pending: the pending count falls by one with each of them. */
  lemma RollsOutInNameOrder(cfg: Config, run: seq<World>, steps: seq<Step>, start: nat, i: nat)
    requires IsQuietFrom(cfg, run, steps, start) && start <= i < |run| && Down(run[start]) == {}
    requires AllSeeTurn(cfg, run, steps, start)
    ensures var service := InServiceNodes(run[start]);
            && ServedLog(run[i], service) <= ServedLog(run[start], service) + Sorted(Pending(cfg, run[start]))
            && |ServedLog(run[i], service)| + |Pending(cfg, run[i])| ==
               |ServedLog(run[start], service)| + |Pending(cfg, run[start])|
  {
    OrderAlways(cfg, run, steps, start, i);
    var service := InServiceNodes(run[start]);
    var plan := ServedLog(run[start], service) + Sorted(Pending(cfg, run[start]));
    assert ServedLog(run[i], service) + Sorted(Pending(cfg, run[i])) == plan;
  }

  /** Each rollout of an in-service node starts only once the whole fleet, hence every
      predecessor, is available. */
  lemma EachRolloutWaitsForTheLast(cfg: Config, run: seq<World>, steps: seq<Step>, start: nat, i: nat)
    requires IsQuietFrom(cfg, run, steps, start) && start <= i < |steps| && Down(run[start]) == {}
    requires AllSeeTurn(cfg, run, steps, start)
    requires run[i + 1].log != run[i].log && steps[i].n in InServiceNodes(run[i])
    ensures Down(run[i]) == {}
    ensures IsLeast(steps[i].n, Pending(cfg, run[i])) && run[i + 1].log == run[i].log + [steps[i].n]
  {
    OrderAlways(cfg, run, steps, start, i);
    QuietAt(cfg, run, steps, start, i);
  }
}
