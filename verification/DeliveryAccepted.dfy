/** The boot snapshot catches up with what the containers run. */
module DeliveryAccepted {
  import opened Containers
  import opened Admin
  import opened Delivery
  import opened DeliveryTheorems
  import Agg = Aggregator

  /** A snapshot is an earlier merge, or the current one. */
  predicate IsPast(agg: Agg.State, snapshot: Agg.Snapshot) {
    snapshot.revision <= agg.revision && (snapshot.revision == agg.revision ==> Agg.Merged(agg) == Ok(snapshot))
  }

  function SnapshotOf(phase: Phase): Option<Agg.Snapshot> {
    if phase.GotSnapshot? || phase.Pushing? || phase.Pushed? || phase.IsLoaded? then Some(phase.snapshot) else None
  }

  function ReportOf(r: NodeRec): Option<Saw> {
    match r.phase
    case OwesMirror(saw) => Some(saw)
    case Finished(result) => result
    case _ => r.saw
  }

  /** What was reported as loaded was accepted, or something newer was. */
  predicate IsReported(acceptedRevision: nat, saw: Saw) {
    saw.verdict.DidLoad? && saw.merged.Ok? ==> saw.merged.value.revision <= acceptedRevision
  }

  predicate AcceptedNode(agg: Agg.State, r: NodeRec) {
    && (SnapshotOf(r.phase).Some? ==> IsPast(agg, SnapshotOf(r.phase).value))
    && (ReportOf(r).Some? ==> IsReported(agg.acceptedRevision, ReportOf(r).value))
    && (r.saw.Some? ==> IsReported(agg.acceptedRevision, r.saw.value))
  }

  ghost predicate AcceptedInv(w: World) {
    && Agg.Counted(w.agg) && w.agg.acceptedRevision <= w.agg.revision
    && (w.agg.acceptedRevision > 0 ==> IsPast(w.agg, Agg.Snapshot(w.agg.accepted, w.agg.acceptedRevision)))
    && forall n :: n in w.nodes ==> AcceptedNode(w.agg, w.nodes[n])
  }

  lemma MergedIsPast(agg: Agg.State)
    ensures Agg.Merged(agg).Ok? ==> IsPast(agg, Agg.Merged(agg).value)
  {
  }

  lemma UpdateKeepsPast(agg: Agg.State, op: Agg.Op, snapshot: Agg.Snapshot)
    requires Agg.Counted(agg) && IsPast(agg, snapshot)
    ensures IsPast(Agg.Update(agg, op), snapshot)
  {
    Agg.UpdateStep(agg, op);
  }

  /** What one act leaves of the acting node, with the aggregator as the act leaves it. */
  lemma AcceptedAct(agg: Agg.State, env: Env, r: NodeRec, act: Act)
    requires CanAct(env, r, act) && AcceptedNode(agg, r) && !act.AcceptSnapshot?
    requires env.merged == Agg.Merged(agg)
    ensures AcceptedNode(agg, NewRec(env, r, act))
  {
    MergedIsPast(agg);
    if IsQueueAct(act) {
      QueueShape(env, r, act);
    } else if IsPushAct(act) {
      AcceptedPush(agg, env, r, act);
    }
  }

  lemma AcceptedPush(agg: Agg.State, env: Env, r: NodeRec, act: Act)
    requires CanAct(env, r, act) && AcceptedNode(agg, r) && IsPushAct(act)
    ensures AcceptedNode(agg, NewRec(env, r, act))
  {
  }

  lemma AcceptAct(agg: Agg.State, env: Env, r: NodeRec)
    requires Agg.Counted(agg) && CanAct(env, r, AcceptSnapshot) && AcceptedNode(agg, r)
    requires env.acceptedRevision == agg.acceptedRevision
    ensures AcceptedNode(Agg.Update(agg, Agg.Accept(r.phase.snapshot)), NewRec(env, r, AcceptSnapshot))
  {
  }

  lemma KeptNode(agg: Agg.State, op: Agg.Op, r: NodeRec)
    requires Agg.Counted(agg) && AcceptedNode(agg, r)
    ensures AcceptedNode(Agg.Update(agg, op), r)
  {
    Agg.UpdateStep(agg, op);
    if SnapshotOf(r.phase).Some? {
      UpdateKeepsPast(agg, op, SnapshotOf(r.phase).value);
    }
  }

  lemma AcceptedNodeStep(bootstrap: string, w: World, n: string, act: Act)
    requires AcceptedInv(w) && Enabled(bootstrap, w, OnNode(n, act))
    ensures AcceptedInv(Do(bootstrap, w, OnNode(n, act)))
  {
    var w' := Do(bootstrap, w, OnNode(n, act));
    AggOf(bootstrap, w, n, act);
    NodesOf(bootstrap, w, n, act);
    if act.AcceptSnapshot? {
      AcceptAct(w.agg, EnvOf(w), w.nodes[n]);
      AcceptedAgg(w.agg, w.nodes[n].phase.snapshot);
      forall m | m in w.nodes ensures AcceptedNode(w'.agg, w.nodes[m]) {
        KeptNode(w.agg, Agg.Accept(w.nodes[n].phase.snapshot), w.nodes[m]);
      }
    } else {
      AcceptedAct(w.agg, EnvOf(w), w.nodes[n], act);
    }
  }

  lemma NodesOf(bootstrap: string, w: World, n: string, act: Act)
    requires Enabled(bootstrap, w, OnNode(n, act))
    ensures Do(bootstrap, w, OnNode(n, act)).nodes == w.nodes[n := NewRec(EnvOf(w), w.nodes[n], act)]
  {
  }

  lemma AcceptedAgg(agg: Agg.State, snapshot: Agg.Snapshot)
    requires Agg.Counted(agg) && agg.acceptedRevision <= agg.revision && IsPast(agg, snapshot)
    requires agg.acceptedRevision > 0 ==> IsPast(agg, Agg.Snapshot(agg.accepted, agg.acceptedRevision))
    ensures var agg' := Agg.Update(agg, Agg.Accept(snapshot));
            && Agg.Counted(agg') && agg'.acceptedRevision <= agg'.revision
            && (agg'.acceptedRevision > 0 ==> IsPast(agg', Agg.Snapshot(agg'.accepted, agg'.acceptedRevision)))
  {
    AcceptKeepsMerge(agg, snapshot);
    Agg.UpdateStep(agg, Agg.Accept(snapshot));
  }

  lemma AcceptedStep(bootstrap: string, w: World, step: Step)
    requires AcceptedInv(w) && Enabled(bootstrap, w, step)
    ensures AcceptedInv(Do(bootstrap, w, step))
  {
    match step
    case OnNode(n, act) => AcceptedNodeStep(bootstrap, w, n, act);
    case Change(op) => AcceptedChange(bootstrap, w, op);
    case _ =>
      var w' := Do(bootstrap, w, step);
      assert w'.agg == w.agg;
      forall n | n in w'.nodes ensures AcceptedNode(w'.agg, w'.nodes[n]) {
        SameFindings(bootstrap, w, step, n);
      }
  }

  /** The other steps touch neither worker nor findings. */
  lemma SameFindings(bootstrap: string, w: World, step: Step, n: string)
    requires Enabled(bootstrap, w, step) && !step.OnNode? && n in w.nodes
    ensures n in Do(bootstrap, w, step).nodes
    ensures var r, r' := w.nodes[n], Do(bootstrap, w, step).nodes[n]; r'.phase == r.phase && r'.saw == r.saw
  {
  }

  lemma AcceptedChange(bootstrap: string, w: World, op: Agg.Op)
    requires AcceptedInv(w) && !op.Accept?
    ensures AcceptedInv(Do(bootstrap, w, Change(op)))
  {
    Agg.UpdateStep(w.agg, op);
    forall n | n in w.nodes ensures AcceptedNode(Agg.Update(w.agg, op), w.nodes[n]) {
      KeptNode(w.agg, op, w.nodes[n]);
    }
    if w.agg.acceptedRevision > 0 {
      UpdateKeepsPast(w.agg, op, Agg.Snapshot(w.agg.accepted, w.agg.acceptedRevision));
    }
  }

  lemma AcceptedAlways(bootstrap: string, run: seq<World>, steps: seq<Step>, i: nat)
    requires IsRun(bootstrap, run, steps) && i < |run|
    ensures AcceptedInv(run[i])
  {
    forall j | 0 <= j < i && AcceptedInv(run[j]) ensures AcceptedInv(run[j + 1]) {
      assert IsStep(bootstrap, run, steps, j);
      AcceptedStep(bootstrap, run[j], steps[j]);
    }
    Induct(run, 0, i, w => AcceptedInv(w));
  }

  /** Once a managed node is at rest and its serving container has not refused the current merge,
      that merge is the accepted boot snapshot. */
  lemma AcceptedAtRest(bootstrap: string, run: seq<World>, steps: seq<Step>, i: nat, n: string, p: nat, c: nat)
    requires IsRun(bootstrap, run, steps) && i < |run| && n in run[i].nodes
    requires var r := run[i].nodes[n]; r.managed && r.phase.Idle? && !Work(run[i].bumps, r) && IsServing(r.pods, p, c)
    requires var merged := Agg.Merged(run[i].agg);
             merged.Ok? && merged.value.caddyfile !in ContentsOf(run[i].nodes[n], c).refused
    ensures Agg.Merged(run[i].agg) == Ok(Agg.Snapshot(run[i].agg.accepted, run[i].agg.acceptedRevision))
  {
    AcceptedAlways(bootstrap, run, steps, i);
    NoLostUpdate(bootstrap, run, steps, i, n);
    RestIsAccepted(run[i].agg, run[i].nodes[n], p, c);
  }

  lemma RestIsAccepted(agg: Agg.State, r: NodeRec, p: nat, c: nat)
    requires Agg.Counted(agg) && agg.acceptedRevision <= agg.revision && AcceptedNode(agg, r)
    requires agg.acceptedRevision > 0 ==> IsPast(agg, Agg.Snapshot(agg.accepted, agg.acceptedRevision))
    requires r.phase.Idle? && Fresh(Agg.Merged(agg), r) && IsServing(r.pods, p, c)
    requires Agg.Merged(agg).Ok? && Agg.Merged(agg).value.caddyfile !in ContentsOf(r, c).refused
    ensures Agg.Merged(agg) == Ok(Agg.Snapshot(agg.accepted, agg.acceptedRevision))
  {
    FoundExactly(r.pods, p, c);
    FirstRevision(agg);
  }

  lemma FirstRevision(agg: Agg.State)
    requires Agg.Counted(agg) && Agg.Merged(agg).Ok?
    ensures Agg.Merged(agg).value.revision == agg.revision >= 1
  {
  }
}
