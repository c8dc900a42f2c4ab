/** Runs in which the expected guarantees fail, one for each condition of the theorems. */
module RolloutScenes {
  import opened Containers
  import opened GoText
  import opened Rollout
  import opened RolloutProtocol
  import opened RolloutTheorems
  import opened RolloutListing
  import opened RolloutPrePull

  const READY := Node(false, [NodeCondition(true, true)])
  const CORDONED := Node(true, [NodeCondition(true, true)])
  const UP := DeploymentStatus(1, 1, 1, 1)
  const BROKEN := DeploymentStatus(1, 1, 1, 0)
  const CFG := Config("new", "", false)
  const PRE_PULLING := Config("new", "", true)

  function OnTarget(cfg: Config, n: string, status: DeploymentStatus): Deployment {
    Deployment(Some(Target(cfg, n)), Target(cfg, n), Some(1), 1, status)
  }

  /** Pending and up: an earlier image, or only an earlier option. */
  function Outdated(n: string, image: string): Deployment {
    Deployment(None, Template(n, image, "earlier"), Some(1), 1, UP)
  }

  lemma Extend(cfg: Config, run: seq<World>, steps: seq<Step>, step: Step, w: World)
    requires IsRun(cfg, run, steps) && Enabled(cfg, run[|steps|], step) && w == Do(cfg, run[|steps|], step)
    ensures IsRun(cfg, run + [w], steps + [step])
  {
    var run', steps' := run + [w], steps + [step];
    forall i | 0 <= i < |steps'| ensures IsStep(cfg, run', steps', i) {
      assert i < |steps| ==> IsStep(cfg, run, steps, i);
    }
  }

  lemma ExtendTwice(cfg: Config, run: seq<World>, steps: seq<Step>, s1: Step, w1: World, s2: Step, w2: World)
    requires IsRun(cfg, run, steps) && Enabled(cfg, run[|steps|], s1) && w1 == Do(cfg, run[|steps|], s1)
    requires Enabled(cfg, w1, s2) && w2 == Do(cfg, w1, s2)
    ensures IsRun(cfg, run + [w1, w2], steps + [s1, s2])
  {
    Extend(cfg, run, steps, s1, w1);
    Extend(cfg, run + [w1], steps + [s1], s2, w2);
    assert run + [w1] + [w2] == run + [w1, w2];
    assert steps + [s1] + [s2] == steps + [s1, s2];
  }

  // ----- One admission, from any world in which it is granted -----

  /** Node n can ask with the given cached node views, fresh other caches and no pre-pull of its
      own, and is granted with those views and no cached pods. */
  ghost predicate Grants(cfg: Config, w: World, n: string, nodeViews: map<string, Node>) {
    && n in w.nodes && n in nodeViews && w.lock.None? && CanAsk(cfg, n, w.nodes[n], nodeViews[n])
    && (forall m :: m in w.nodes ==>
          m in nodeViews && w.nodes[m].views.Has(nodeViews[m]) && w.nodes[m].pods.Has(None))
    && Admits(FleetOf(cfg, ListedBy(w, nodeViews), LiveDeployments(w), NoPods(w)), n, cfg.image)
  }

  predicate CanAsk(cfg: Config, n: string, ns: NodeState, view: Node) {
    && ns.phase.Idle? && IsInService(view) && ns.pods.live.None? && IsPending(cfg, n, ns.deployments.live)
    && (cfg.prePullImage ==> ns.deployments.live.value.template.image == cfg.image)
  }

  function NoPods(w: World): map<string, Option<Pod>> {
    map m | m in w.nodes :: None
  }

  function SeenBy(w: World, n: string, nodeViews: map<string, Node>): Seen
    requires n in w.nodes && n in nodeViews
  {
    Seen(nodeViews[n], w.nodes[n].deployments.live, None, 0)
  }

  function AdmissionSteps(w: World, n: string, nodeViews: map<string, Node>): seq<Step>
    requires n in w.nodes && n in nodeViews
  {
    [ReadCaches(n, SeenBy(w, n, nodeViews)), SyncPrePullPod(n), TakeLock(n, nodeViews), FetchDeployments(n),
     Decide(n, NoPods(w))]
  }

  function AdmissionWorlds(w: World, n: string, nodeViews: map<string, Node>): seq<World>
    requires n in w.nodes && n in nodeViews
  {
    var listed := ListedBy(w, nodeViews);
    [InPhase(w, n, SyncPod(SeenBy(w, n, nodeViews))), InPhase(w, n, AskAdmission), InPhase(w, n, Locked(listed)),
     InPhase(w, n, Fetched(listed, LiveDeployments(w))), InPhase(w, n, Admitted(listed))]
  }

  lemma Asks(cfg: Config, w: World, n: string, nodeViews: map<string, Node>)
    requires Grants(cfg, w, n, nodeViews)
    ensures var s, ws := AdmissionSteps(w, n, nodeViews), AdmissionWorlds(w, n, nodeViews);
            && Enabled(cfg, w, s[0]) && Do(cfg, w, s[0]) == ws[0]
            && Enabled(cfg, ws[0], s[1]) && Do(cfg, ws[0], s[1]) == ws[1]
  {
  }

  lemma Locks(cfg: Config, w: World, n: string, nodeViews: map<string, Node>)
    requires Grants(cfg, w, n, nodeViews)
    ensures var s, ws := AdmissionSteps(w, n, nodeViews), AdmissionWorlds(w, n, nodeViews);
            Enabled(cfg, ws[1], s[2]) && Do(cfg, ws[1], s[2]) == ws[2]
  {
    var listed, asks := ListedBy(w, nodeViews), InPhase(w, n, AskAdmission);
    InPhaseReads(w, n, AskAdmission, nodeViews);
    InPhaseAgain(w, n, AskAdmission, Locked(listed));
    LockIs(cfg, asks, n, nodeViews);
  }

  lemma Fetches(cfg: Config, w: World, n: string, nodeViews: map<string, Node>)
    requires n in w.nodes && n in nodeViews
    ensures var s, ws := AdmissionSteps(w, n, nodeViews), AdmissionWorlds(w, n, nodeViews);
            Enabled(cfg, ws[2], s[3]) && Do(cfg, ws[2], s[3]) == ws[3]
  {
    var listed := ListedBy(w, nodeViews);
    InPhaseReads(w, n, Locked(listed), nodeViews);
    InPhaseAgain(w, n, Locked(listed), Fetched(listed, LiveDeployments(w)));
    FetchIs(cfg, InPhase(w, n, Locked(listed)), n);
  }

  lemma Decides(cfg: Config, w: World, n: string, nodeViews: map<string, Node>)
    requires Grants(cfg, w, n, nodeViews)
    ensures var s, ws := AdmissionSteps(w, n, nodeViews), AdmissionWorlds(w, n, nodeViews);
            Enabled(cfg, ws[3], s[4]) && Do(cfg, ws[3], s[4]) == ws[4]
  {
  }

  lemma AskRun(cfg: Config, run: seq<World>, steps: seq<Step>, n: string, nodeViews: map<string, Node>)
    requires IsRun(cfg, run, steps) && Grants(cfg, run[|steps|], n, nodeViews)
    ensures var w := run[|steps|];
            IsRun(cfg, run + AdmissionWorlds(w, n, nodeViews)[..2], steps + AdmissionSteps(w, n, nodeViews)[..2])
  {
    var w := run[|steps|];
    var s, ws := AdmissionSteps(w, n, nodeViews), AdmissionWorlds(w, n, nodeViews);
    Asks(cfg, w, n, nodeViews);
    ExtendTwice(cfg, run, steps, s[0], ws[0], s[1], ws[1]);
    assert s[..2] == [s[0], s[1]] && ws[..2] == [ws[0], ws[1]];
  }

  lemma LockRun(cfg: Config, run: seq<World>, steps: seq<Step>, w: World, n: string, nodeViews: map<string, Node>)
    requires IsRun(cfg, run, steps) && Grants(cfg, w, n, nodeViews) && run[|steps|] == InPhase(w, n, AskAdmission)
    ensures IsRun(cfg, run + AdmissionWorlds(w, n, nodeViews)[2..4], steps + AdmissionSteps(w, n, nodeViews)[2..4])
  {
    var s, ws := AdmissionSteps(w, n, nodeViews), AdmissionWorlds(w, n, nodeViews);
    Locks(cfg, w, n, nodeViews);
    Fetches(cfg, w, n, nodeViews);
    ExtendTwice(cfg, run, steps, s[2], ws[2], s[3], ws[3]);
    assert s[2..4] == [s[2], s[3]] && ws[2..4] == [ws[2], ws[3]];
  }

  /** A granted admission extends a run by five steps that change nothing but the worker. */
  lemma AdmissionRun(cfg: Config, run: seq<World>, steps: seq<Step>, n: string, nodeViews: map<string, Node>)
    requires IsRun(cfg, run, steps) && Grants(cfg, run[|steps|], n, nodeViews)
    ensures var w := run[|steps|];
            IsRun(cfg, run + AdmissionWorlds(w, n, nodeViews), steps + AdmissionSteps(w, n, nodeViews))
  {
    var w := run[|steps|];
    var s, ws := AdmissionSteps(w, n, nodeViews), AdmissionWorlds(w, n, nodeViews);
    AskRun(cfg, run, steps, n, nodeViews);
    var run2, steps2 := run + ws[..2], steps + s[..2];
    LockRun(cfg, run2, steps2, w, n, nodeViews);
    var run4, steps4 := run2 + ws[2..4], steps2 + s[2..4];
    Decides(cfg, w, n, nodeViews);
    Extend(cfg, run4, steps4, s[4], ws[4]);
    assert run + ws == run4 + [ws[4]];
    assert steps + s == steps4 + [s[4]];
  }

  /** Those steps are quiet, and so is the write after them. */
  lemma AdmissionQuiet(
    cfg: Config, run: seq<World>, steps: seq<Step>, w: World, n: string, nodeViews: map<string, Node>)
    requires IsRun(cfg, run, steps) && Grants(cfg, w, n, nodeViews) && |steps| >= 6
    requires steps[|steps| - 6..] == AdmissionSteps(w, n, nodeViews) + [ApplyAdmitted(n)]
    requires run[|steps| - 6] == w && run[|steps| - 1] == InPhase(w, n, Admitted(ListedBy(w, nodeViews)))
    ensures IsQuietFrom(cfg, run, steps, |steps| - 6)
  {
    var last := AdmissionSteps(w, n, nodeViews) + [ApplyAdmitted(n)];
    forall i | |steps| - 6 <= i < |steps| ensures IsQuietStep(cfg, run, steps, i) {
      assert IsStep(cfg, run, steps, i);
      assert steps[i] == last[i - (|steps| - 6)];
    }
  }

  // ----- A node that has just entered service is still cordoned in the cache -----

  function FreshNode(node: Node, d: Deployment): NodeState {
    NodeState(History([], node), History([], Some(d)), History([], None), 0, {}, Idle)
  }

  function Entering(n: string, dn: Deployment, s: string, ds: Deployment): World {
    World(map[n := FreshNode(READY, dn), s := FreshNode(CORDONED, ds)], None, [])
  }

  function Entered(n: string, dn: Deployment, s: string, ds: Deployment): World {
    var w := Entering(n, dn, s, ds);
    w.(nodes := w.nodes[s := w.nodes[s].(views := History([], CORDONED).Push(READY))])
  }

  function Lagging(n: string, s: string): map<string, Node> {
    map[n := READY, s := CORDONED]
  }

  predicate IsStage(cfg: Config, n: string, dn: Deployment, s: string, ds: Deployment) {
    && n != s && n != "" && s != "" && Sane(Some(dn)) && Sane(Some(ds))
    && IsPending(cfg, n, Some(dn)) && IsRolledOut(dn) && (cfg.prePullImage ==> dn.template.image == cfg.image)
  }

  lemma LaggingGrants(cfg: Config, n: string, dn: Deployment, s: string, ds: Deployment)
    requires IsStage(cfg, n, dn, s, ds)
    ensures Grants(cfg, Entered(n, dn, s, ds), n, Lagging(n, s))
    ensures ListedBy(Entered(n, dn, s, ds), Lagging(n, s)) == {n}
  {
    assert ListedBy(Entered(n, dn, s, ds), Lagging(n, s)) == {n};
    AloneAdmits(cfg, n, dn, s, ds);
  }

  lemma AloneAdmits(cfg: Config, n: string, dn: Deployment, s: string, ds: Deployment)
    requires IsStage(cfg, n, dn, s, ds)
    ensures var w := Entered(n, dn, s, ds); Admits(FleetOf(cfg, {n}, LiveDeployments(w), NoPods(w)), n, cfg.image)
  {
    var w := Entered(n, dn, s, ds);
    var self := MakeRollout(cfg, n, true, None, Some(dn));
    assert FleetOf(cfg, {n}, LiveDeployments(w), NoPods(w)) == {self};
    AdmitsAlone(self, cfg.image);
  }

  lemma AdmitsAlone(self: NodeRollout, image: string)
    requires !self.needsPrePull
    ensures Admits({self}, self.name, image)
  {
    if self.isPending {
      assert PendingNames({self}) == {self.name};
    }
    assert self in {self};
  }

  function StageSteps(n: string, dn: Deployment, s: string, ds: Deployment): seq<Step>
    requires n != s
  {
    [ChangeNode(s, READY)] + (AdmissionSteps(Entered(n, dn, s, ds), n, Lagging(n, s)) + [ApplyAdmitted(n)])
  }

  lemma EnteringRun(cfg: Config, n: string, dn: Deployment, s: string, ds: Deployment)
    requires IsStage(cfg, n, dn, s, ds)
    ensures IsRun(cfg, [Entering(n, dn, s, ds), Entered(n, dn, s, ds)], [ChangeNode(s, READY)])
  {
    var w0, w := Entering(n, dn, s, ds), Entered(n, dn, s, ds);
    assert IsRun(cfg, [w0], []);
    Extend(cfg, [w0], [], ChangeNode(s, READY), w);
    assert [w0] + [w] == [w0, w] && [] + [ChangeNode(s, READY)] == [ChangeNode(s, READY)];
  }

  /** Node s enters service, then n is admitted and written with a list that misses s. */
  lemma StageRun(cfg: Config, n: string, dn: Deployment, s: string, ds: Deployment) returns (run: seq<World>)
    requires IsStage(cfg, n, dn, s, ds)
    ensures IsRun(cfg, run, StageSteps(n, dn, s, ds)) && |run| == 8
    ensures run[1] == Entered(n, dn, s, ds) && run[6] == InPhase(run[1], n, Admitted({n}))
  {
    var w0, w := Entering(n, dn, s, ds), Entered(n, dn, s, ds);
    EnteringRun(cfg, n, dn, s, ds);
    LaggingGrants(cfg, n, dn, s, ds);
    AdmissionRun(cfg, [w0, w], [ChangeNode(s, READY)], n, Lagging(n, s));
    run := [w0, w] + AdmissionWorlds(w, n, Lagging(n, s));
    var steps := [ChangeNode(s, READY)] + AdmissionSteps(w, n, Lagging(n, s));
    assert run[|steps|] == InPhase(w, n, Admitted({n}));
    Extend(cfg, run, steps, ApplyAdmitted(n), Do(cfg, run[|steps|], ApplyAdmitted(n)));
    run := run + [Do(cfg, run[|steps|], ApplyAdmitted(n))];
    assert steps + [ApplyAdmitted(n)] == StageSteps(n, dn, s, ds);
  }

  /** From the second world on, that run is quiet. */
  lemma StageQuiet(cfg: Config, n: string, dn: Deployment, s: string, ds: Deployment, run: seq<World>)
    requires IsStage(cfg, n, dn, s, ds) && IsRun(cfg, run, StageSteps(n, dn, s, ds))
    requires run[1] == Entered(n, dn, s, ds) && run[6] == InPhase(run[1], n, Admitted({n}))
    ensures IsQuietFrom(cfg, run, StageSteps(n, dn, s, ds), 1)
  {
    LaggingGrants(cfg, n, dn, s, ds);
    AdmissionQuiet(cfg, run, StageSteps(n, dn, s, ds), run[1], n, Lagging(n, s));
  }

  lemma StageWrites(cfg: Config, n: string, dn: Deployment, s: string, ds: Deployment, run: seq<World>)
    requires IsStage(cfg, n, dn, s, ds) && IsRun(cfg, run, StageSteps(n, dn, s, ds))
    requires run[1] == Entered(n, dn, s, ds) && run[6] == InPhase(run[1], n, Admitted({n}))
    ensures n in run[7].nodes && run[7].nodes[n].deployments.live == ApplyDeployment(cfg, n, Some(dn))
    ensures run[7].nodes[n].InService() && run[7].nodes == run[6].nodes[n := run[7].nodes[n]] && run[7].log == [n]
  {
    assert IsStep(cfg, run, StageSteps(n, dn, s, ds), 6);
  }

  /** Two nodes down at once in a quiet stretch that started with one: the list missed b. */
  lemma MissedDownRun() returns (run: seq<World>, steps: seq<Step>)
    ensures IsQuietFrom(CFG, run, steps, 1) && |run| == 8
    ensures Down(run[1]) == {"b"} && Down(run[7]) == {"a", "b"}
  {
    var da, db := Outdated("a", "old"), OnTarget(CFG, "b", BROKEN);
    run := StageRun(CFG, "a", da, "b", db);
    steps := StageSteps("a", da, "b", db);
    StageQuiet(CFG, "a", da, "b", db, run);
    StageWrites(CFG, "a", da, "b", db, run);
  }

  /** b is rolled out before a in a quiet stretch that started with nothing down: the list
      missed a. */
  lemma MissedTurnRun() returns (run: seq<World>, steps: seq<Step>)
    ensures IsQuietFrom(CFG, run, steps, 1) && |run| == 8
    ensures Down(run[1]) == {} && Pending(CFG, run[1]) == {"a", "b"} && Less("a", "b")
    ensures run[1].log == [] && run[7].log == ["b"]
  {
    var da, db := Outdated("a", "old"), Outdated("b", "old");
    run := StageRun(CFG, "b", db, "a", da);
    steps := StageSteps("b", db, "a", da);
    StageQuiet(CFG, "b", db, "a", da, run);
    StageWrites(CFG, "b", db, "a", da, run);
  }

  /** a is rolled out while b is in service and lacks the image: the list missed b. */
  lemma MissedPrePullRun() returns (run: seq<World>, steps: seq<Step>)
    ensures IsQuietFrom(PRE_PULLING, run, steps, 1) && |run| == 8
    ensures Replaces(run, 6, "a") && Lacking(PRE_PULLING, run[6]) == {"b"}
  {
    var da, db := Outdated("a", "new"), Outdated("b", "old");
    run := StageRun(PRE_PULLING, "a", da, "b", db);
    steps := StageSteps("a", da, "b", db);
    StageQuiet(PRE_PULLING, "a", da, "b", db, run);
    StageWrites(PRE_PULLING, "a", da, "b", db, run);
  }

  // ----- A node that has just been cordoned is still ready in the cache -----

  const A_OUTDATED := Outdated("a", "old")
  const BEFORE_CORDON := World(map["a" := FreshNode(READY, A_OUTDATED)], None, [])
  const AFTER_CORDON :=
    World(map["a" := FreshNode(READY, A_OUTDATED).(views := History([], READY).Push(CORDONED))], None, [])
  const READY_VIEW := map["a" := READY]

  lemma CordonedGrants()
    ensures Grants(CFG, AFTER_CORDON, "a", READY_VIEW) && ListedBy(AFTER_CORDON, READY_VIEW) == {"a"}
  {
    var self := MakeRollout(CFG, "a", true, None, Some(A_OUTDATED));
    assert ListedBy(AFTER_CORDON, READY_VIEW) == {"a"};
    assert FleetOf(CFG, {"a"}, LiveDeployments(AFTER_CORDON), NoPods(AFTER_CORDON)) == {self};
    AdmitsAlone(self, CFG.image);
  }

  lemma CordoningRun()
    ensures IsRun(CFG, [BEFORE_CORDON, AFTER_CORDON], [ChangeNode("a", CORDONED)])
  {
    var cordon := ChangeNode("a", CORDONED);
    assert IsRun(CFG, [BEFORE_CORDON], []);
    Extend(CFG, [BEFORE_CORDON], [], cordon, AFTER_CORDON);
    assert [BEFORE_CORDON] + [AFTER_CORDON] == [BEFORE_CORDON, AFTER_CORDON] && [] + [cordon] == [cordon];
  }

  /** A cordoned node does not wait: from a fleet with nothing down and nothing pending in
      service, in a quiet stretch whose lists see every down and every pending node, the template
      of a node out of service is replaced. */
  lemma CordonedRun() returns (run: seq<World>, steps: seq<Step>)
    ensures IsQuietFrom(CFG, run, steps, 1) && AllSeeTurn(CFG, run, steps, 1) && |run| == 8
    ensures Down(run[1]) == {} && Pending(CFG, run[1]) == {} && run[1].log == [] && run[7].log == ["a"]
    ensures Replaces(run, 6, "a") && !run[6].nodes["a"].InService()
  {
    var cordon := ChangeNode("a", CORDONED);
    CordoningRun();
    CordonedGrants();
    AdmissionRun(CFG, [BEFORE_CORDON, AFTER_CORDON], [cordon], "a", READY_VIEW);
    run := [BEFORE_CORDON, AFTER_CORDON] + AdmissionWorlds(AFTER_CORDON, "a", READY_VIEW);
    steps := [cordon] + AdmissionSteps(AFTER_CORDON, "a", READY_VIEW);
    run, steps := CordonedWrite(run, steps);
  }

  lemma CordonedWrite(run0: seq<World>, steps0: seq<Step>) returns (run: seq<World>, steps: seq<Step>)
    requires IsRun(CFG, run0, steps0) && |run0| == 7
    requires steps0 == [ChangeNode("a", CORDONED)] + AdmissionSteps(AFTER_CORDON, "a", READY_VIEW)
    requires run0[1] == AFTER_CORDON && run0[6] == InPhase(AFTER_CORDON, "a", Admitted({"a"}))
    ensures IsQuietFrom(CFG, run, steps, 1) && AllSeeTurn(CFG, run, steps, 1) && |run| == 8
    ensures Down(run[1]) == {} && Pending(CFG, run[1]) == {} && run[1].log == [] && run[7].log == ["a"]
    ensures Replaces(run, 6, "a") && !run[6].nodes["a"].InService()
  {
    CordonedGrants();
    var end := Do(CFG, run0[6], ApplyAdmitted("a"));
    Extend(CFG, run0, steps0, ApplyAdmitted("a"), end);
    run, steps := run0 + [end], steps0 + [ApplyAdmitted("a")];
    AdmissionQuiet(CFG, run, steps, AFTER_CORDON, "a", READY_VIEW);
    CordonedSees(run, steps);
    CordonedFacts();
  }

  lemma CordonedFacts()
    ensures Down(AFTER_CORDON) == {} && Pending(CFG, AFTER_CORDON) == {}
    ensures var w := InPhase(AFTER_CORDON, "a", Admitted({"a"}));
            var end := Do(CFG, w, ApplyAdmitted("a"));
            && end.log == ["a"] && "a" in end.nodes && !w.nodes["a"].InService()
            && end.nodes["a"].deployments.live == ApplyDeployment(CFG, "a", Some(A_OUTDATED))
  {
  }

  lemma CordonedSees(run: seq<World>, steps: seq<Step>)
    requires IsRun(CFG, run, steps) && |steps| == 7 && run[1] == AFTER_CORDON
    requires steps[1..] == AdmissionSteps(AFTER_CORDON, "a", READY_VIEW) + [ApplyAdmitted("a")]
    ensures AllSeeTurn(CFG, run, steps, 1)
  {
    var last := AdmissionSteps(AFTER_CORDON, "a", READY_VIEW) + [ApplyAdmitted("a")];
    forall i | 1 <= i < |steps| ensures SeesTurnAt(CFG, run, steps, i) {
      assert steps[i] == last[i - 1];
      if i == 3 {
        assert IsStep(CFG, run, steps, 1) && IsStep(CFG, run, steps, 2);
        assert Down(run[3]) == {} && Pending(CFG, run[3]) == {};
      }
    }
  }

  // ----- A node breaks between the list and the write -----

  const A_UP := FreshNode(READY, Outdated("a", "old"))
  const B_UP := FreshNode(READY, OnTarget(CFG, "b", UP))
  const BOTH_UP := World(map["a" := A_UP, "b" := B_UP], None, [])
  const VIEWS := map["a" := READY, "b" := READY]

  lemma BothUpGrants()
    ensures Grants(CFG, BOTH_UP, "a", VIEWS) && ListedBy(BOTH_UP, VIEWS) == {"a", "b"}
  {
    assert CanAsk(CFG, "a", A_UP, READY);
    assert ListedBy(BOTH_UP, VIEWS) == {"a", "b"};
    BothUpAdmits();
  }

  lemma BothUpAdmits()
    ensures Admits(FleetOf(CFG, {"a", "b"}, LiveDeployments(BOTH_UP), NoPods(BOTH_UP)), "a", CFG.image)
  {
    var ra := MakeRollout(CFG, "a", true, None, Some(Outdated("a", "old")));
    var rb := MakeRollout(CFG, "b", true, None, Some(OnTarget(CFG, "b", UP)));
    assert FleetOf(CFG, {"a", "b"}, LiveDeployments(BOTH_UP), NoPods(BOTH_UP)) == {ra, rb};
    AdmitsBeside(ra, rb, CFG.image);
  }

  lemma AdmitsBeside(self: NodeRollout, other: NodeRollout, image: string)
    requires !self.needsPrePull && !other.needsPrePull && self.isPending && !other.isPending && other.isAvailable
    ensures Admits({self, other}, self.name, image)
  {
    assert PendingNames({self, other}) == {self.name};
    assert self in {self, other};
  }

  lemma Breaks(w: World)
    requires w == InPhase(BOTH_UP, "a", Admitted({"a", "b"}))
    ensures Enabled(CFG, w, UpdateStatus("b", BROKEN))
    ensures var broken := Do(CFG, w, UpdateStatus("b", BROKEN));
            && Down(broken) == {"b"} && Enabled(CFG, broken, ApplyAdmitted("a"))
            && Down(Do(CFG, broken, ApplyAdmitted("a"))) == {"a", "b"}
  {
  }

  lemma BothUpRun() returns (run: seq<World>, steps: seq<Step>)
    ensures IsRun(CFG, run, steps) && run[|steps|] == InPhase(BOTH_UP, "a", Admitted({"a", "b"}))
  {
    BothUpGrants();
    assert Init(BOTH_UP);
    assert IsRun(CFG, [BOTH_UP], []);
    AdmissionRun(CFG, [BOTH_UP], [], "a", VIEWS);
    run := [BOTH_UP] + AdmissionWorlds(BOTH_UP, "a", VIEWS);
    steps := [] + AdmissionSteps(BOTH_UP, "a", VIEWS);
  }

  /** The lock does not cover the cluster: b breaks after a was admitted and before a is written. */
  lemma AdmissionOvertaken() returns (run: seq<World>, steps: seq<Step>, i: nat)
    ensures IsRun(CFG, run, steps) && i + 1 == |steps| && steps[i] == ApplyAdmitted("a")
    ensures Down(run[i]) == {"b"} && Down(run[i + 1]) == {"a", "b"}
  {
    run, steps := BothUpRun();
    Breaks(run[|steps|]);
    var broken := Do(CFG, run[|steps|], UpdateStatus("b", BROKEN));
    Extend(CFG, run, steps, UpdateStatus("b", BROKEN), broken);
    run, steps := run + [broken], steps + [UpdateStatus("b", BROKEN)];
    i := |steps|;
    Extend(CFG, run, steps, ApplyAdmitted("a"), Do(CFG, broken, ApplyAdmitted("a")));
    run, steps := run + [Do(CFG, broken, ApplyAdmitted("a"))], steps + [ApplyAdmitted("a")];
  }

  // ----- A satisfied pod is removed -----

  const PULLED_POD := Pod(0, 0, [Container(PRE_PULL_CONTAINER, "new")], PodSucceeded,
                          [ContainerStatus(PRE_PULL_CONTAINER, "id", Terminated)])
  const PULLED := NodeState(History([], CORDONED), History([], Some(Outdated("a", "old"))),
                            History([], Some(PULLED_POD)), 1, {"new"}, Idle)
  const STALE_SEEN := Seen(CORDONED, Some(Outdated("a", "old")), Some(PULLED_POD), 0)

  lemma PulledSteps()
    ensures var w := World(map["a" := PULLED.(views := History([], CORDONED).Push(READY))], None, []);
            && Init(World(map["a" := PULLED], None, []))
            && Satisfied(PRE_PULLING, "a", w.nodes["a"]) && w.nodes["a"].InService()
            && Enabled(PRE_PULLING, w, ReadCaches("a", STALE_SEEN))
            && var read := Do(PRE_PULLING, w, ReadCaches("a", STALE_SEEN));
               && Enabled(PRE_PULLING, read, SyncPrePullPod("a"))
               && Do(PRE_PULLING, read, SyncPrePullPod("a")).nodes["a"].pods.live == None
  {
    assert ShowsPull(PULLED_POD.statuses[0]);
  }

  /** A node now in service loses the finished pre-pull pod it still needs, because the sync read
      it as cordoned. */
  lemma LostPodRun() returns (run: seq<World>, steps: seq<Step>)
    ensures IsRun(PRE_PULLING, run, steps) && |steps| == 3 && steps[2] == SyncPrePullPod("a")
    ensures "a" in run[2].nodes && Satisfied(PRE_PULLING, "a", run[2].nodes["a"]) && run[2].nodes["a"].InService()
    ensures "a" in run[3].nodes && run[3].nodes["a"].pods.live == None
  {
    var w0 := World(map["a" := PULLED], None, []);
    var w := World(map["a" := PULLED.(views := History([], CORDONED).Push(READY))], None, []);
    PulledSteps();
    assert IsRun(PRE_PULLING, [w0], []);
    Extend(PRE_PULLING, [w0], [], ChangeNode("a", READY), w);
    run, steps := [w0] + [w], [] + [ChangeNode("a", READY)];
    var read := Do(PRE_PULLING, w, ReadCaches("a", STALE_SEEN));
    Extend(PRE_PULLING, run, steps, ReadCaches("a", STALE_SEEN), read);
    run, steps := run + [read], steps + [ReadCaches("a", STALE_SEEN)];
    var end := Do(PRE_PULLING, read, SyncPrePullPod("a"));
    Extend(PRE_PULLING, run, steps, SyncPrePullPod("a"), end);
    run, steps := run + [end], steps + [SyncPrePullPod("a")];
  }
}
