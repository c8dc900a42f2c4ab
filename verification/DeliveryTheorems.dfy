/** What every run of config delivery guarantees the nodes. */
module DeliveryTheorems {
  import opened Containers
  import opened Admin
  import opened Delivery
  import Agg = Aggregator

  // ----- No lost update -----

  /** Something will put the node's key (back) on the queue. */
  predicate Work(bumps: nat, r: NodeRec) {
    r.dirty || r.delayed || r.owed > 0 || r.events > 0 || bumps > 0
  }

  /** A reconcile's findings still describe the current merge and the container it found. */
  predicate SawCurrent(merged: Result<Agg.Snapshot, Agg.MergeError>, r: NodeRec, saw: Saw) {
    && saw.found == FindActivePod(r.pods)
    && saw.merged == merged
    && match saw.verdict
       case DidLoad =>
         saw.found.Some? && saw.merged.Ok? &&
         ContentsOf(r, saw.found.value.container).running == saw.merged.value.caddyfile
       case WasRefused =>
         saw.found.Some? && saw.merged.Ok? &&
         saw.merged.value.caddyfile in ContentsOf(r, saw.found.value.container).refused
       case NotStarted => saw.found.None?
       case NoMerge => saw.merged.Err?
  }

  /** What the worker has read so far is still current. */
  predicate Fresh(merged: Result<Agg.Snapshot, Agg.MergeError>, r: NodeRec) {
    var found := FindActivePod(r.pods);
    match r.phase
    case Idle => r.hasObjects && r.saw.Some? && SawCurrent(merged, r, r.saw.value)
    case Taken => true
    case TearingDown => false
    case Deploying => true
    case GotPod(f) => r.hasObjects && f == found
    case GotSnapshot(f, snapshot) => r.hasObjects && f == found && merged == Ok(snapshot)
    case Pushing(target, snapshot) => r.hasObjects && Some(target) == found && merged == Ok(snapshot)
    case Pushed(target, snapshot) => r.hasObjects && Some(target) == found && merged == Ok(snapshot)
    case IsLoaded(target, snapshot) => r.hasObjects && Some(target) == found && merged == Ok(snapshot)
    case OwesMirror(saw) => r.hasObjects && SawCurrent(merged, r, saw)
    case Finished(result) => r.hasObjects && result.Some? && SawCurrent(merged, r, result.value)
  }

  /** A node that is not managed any more: its objects and its record are gone, or the worker is on
      its way to remove them. */
  predicate IsTornDown(r: NodeRec) {
    match r.phase
    case Taken => true
    case TearingDown => true
    case Idle => !r.hasObjects && r.record.None?
    case Finished(result) => !r.hasObjects && r.record.None?
    case _ => false
  }

  // ----- The push cache -----

  function LastLoad(r: NodeRec, container: nat): Option<string> {
    ContentsOf(r, container).lastLoad
  }

  /** The record's container last loaded the record's text. */
  predicate IsTruthful(r: NodeRec) {
    r.record.Some? ==> LastLoad(r, r.record.value.container) == Some(r.record.value.text)
  }

  /** Some pod still has the container. */
  predicate IsPlaced(pods: map<nat, CaddyPod>, container: nat) {
    exists p :: p in pods && pods[p].container == Some(container)
  }

  function TargetOf(phase: Phase): Option<Started> {
    match phase
    case GotPod(found) => found
    case GotSnapshot(found, _) => found
    case Pushing(target, _) => Some(target)
    case Pushed(target, _) => Some(target)
    case IsLoaded(target, _) => Some(target)
    case _ => None
  }

  predicate HasLoaded(phase: Phase) {
    phase.Pushed? || phase.IsLoaded?
  }

  /** Container IDs in use were issued; a confirmed load is remembered. */
  ghost predicate IdsOK(nextContainer: nat, confirmed: set<string>, r: NodeRec) {
    && DistinctContainers(nextContainer, r.pods)
    && (forall c :: c in r.contents ==> c < nextContainer)
    && (r.record.Some? ==> r.record.value.container < nextContainer && r.record.value.text in confirmed)
    && (TargetOf(r.phase).Some? ==> TargetOf(r.phase).value.container < nextContainer)
    && (HasLoaded(r.phase) ==> r.phase.snapshot.caddyfile in confirmed)
  }

  /** A container that loaded something runs what it loaded last; the container a worker found
      is at the pod it found or gone; a worker that has just loaded it, and a record of a
      container that some pod still has, are truthful. */
  ghost predicate LoadsOK(r: NodeRec) {
    && (forall c :: c in r.contents && r.contents[c].lastLoad.Some? ==>
          r.contents[c].running == r.contents[c].lastLoad.value)
    && (TargetOf(r.phase).Some? ==>
          forall p :: p in r.pods && r.pods[p].container == Some(TargetOf(r.phase).value.container) ==>
            p == TargetOf(r.phase).value.pod)
    && (HasLoaded(r.phase) && Behind(r.pods, r.phase.target) == Some(r.phase.target.container) ==>
          LastLoad(r, r.phase.target.container) == Some(r.phase.snapshot.caddyfile))
    && (!r.phase.Pushed? && r.record.Some? && IsPlaced(r.pods, r.record.value.container) ==> IsTruthful(r))
  }

  ghost predicate NodeOK(w: World, r: NodeRec) {
    && IdsOK(w.nextContainer, w.confirmed, r) && LoadsOK(r)
    && IsServed(w.bumps, Agg.Merged(w.agg), r)
  }

  /** Either something will bring the node's key back, or all is as it should be.  (A pending
      enqueue of all managed nodes is no work for a node that is not managed.) */
  predicate IsServed(bumps: nat, merged: Result<Agg.Snapshot, Agg.MergeError>, r: NodeRec) {
    if r.managed then Work(bumps, r) || Fresh(merged, r) else Work(0, r) || IsTornDown(r)
  }

  ghost predicate Inv(accepted0: string, w: World) {
    && Agg.Counted(w.agg)
    && (w.agg.accepted == accepted0 || w.agg.accepted in w.confirmed)
    && forall n :: n in w.nodes ==> NodeOK(w, w.nodes[n])
  }

  predicate IsPushAct(act: Act) {
    act.CheckRecord? || act.Push? || act.RecordPush?
  }

  predicate IsPodAct(act: Act) {
    act.AddPod? || act.RetirePod? || act.RemovePod? || act.StartContainer? || act.StopContainer?
  }

  lemma FoundIsBehind(pods: map<nat, CaddyPod>)
    ensures var found := FindActivePod(pods); found.Some? ==> Behind(pods, found.value) == Some(found.value.container)
  {
  }

  // ----- Every act keeps the invariant -----

  lemma IdsPush(env: Env, confirmed: set<string>, r: NodeRec, act: Act)
    requires CanAct(env, r, act) && IdsOK(env.nextContainer, confirmed, r) && IsPushAct(act)
    ensures var confirmed' := if act == Push(Loaded) then confirmed + {r.phase.snapshot.caddyfile} else confirmed;
            IdsOK(env.nextContainer, confirmed', NewRec(env, r, act))
  {
    if act.Push? {
      IdsLoad(env, confirmed, r, act.outcome);
    } else if act.CheckRecord? {
      var r' := NewRec(env, r, CheckRecord);
      assert r' == r.(phase := r'.phase);
    } else {
      var r' := NewRec(env, r, RecordPush);
      assert r' == r.(phase := r'.phase, record := r'.record);
    }
  }

  lemma IdsLoad(env: Env, confirmed: set<string>, r: NodeRec, outcome: Outcome)
    requires CanAct(env, r, Push(outcome)) && IdsOK(env.nextContainer, confirmed, r)
    ensures var confirmed' := if outcome.Loaded? then confirmed + {r.phase.snapshot.caddyfile} else confirmed;
            IdsOK(env.nextContainer, confirmed', NewRec(env, r, Push(outcome)))
  {
  }

  lemma IdsPod(env: Env, confirmed: set<string>, r: NodeRec, act: Act)
    requires CanAct(env, r, act) && IdsOK(env.nextContainer, confirmed, r) && IsPodAct(act)
    ensures var next := if act.StartContainer? then env.nextContainer + 1 else env.nextContainer;
            IdsOK(next, confirmed, NewRec(env, r, act))
  {
  }

  /** Nothing but the queue and the worker moved, and the worker has at most looked for a pod. */
  predicate OnlyWorker(r: NodeRec, r': NodeRec) {
    && r'.pods == r.pods && r'.contents == r.contents && (r'.record == r.record || r'.record == None)
    && (r'.phase == r.phase || (!r.phase.Pushed? && !HasLoaded(r'.phase) && TargetOf(r'.phase) in
                                {None, TargetOf(r.phase), FindActivePod(r.pods)}))
  }

  lemma OtherShape(env: Env, r: NodeRec, act: Act)
    requires CanAct(env, r, act) && !IsPushAct(act) && !IsPodAct(act)
    ensures OnlyWorker(r, NewRec(env, r, act))
  {
  }

  lemma IdsKept(nextContainer: nat, confirmed: set<string>, r: NodeRec, r': NodeRec)
    requires IdsOK(nextContainer, confirmed, r) && OnlyWorker(r, r')
    ensures IdsOK(nextContainer, confirmed, r')
  {
    FoundIsBehind(r.pods);
  }

  lemma LoadsKept(nextContainer: nat, confirmed: set<string>, r: NodeRec, r': NodeRec)
    requires IdsOK(nextContainer, confirmed, r) && LoadsOK(r) && OnlyWorker(r, r')
    ensures LoadsOK(r')
  {
    FoundIsBehind(r.pods);
  }

  lemma IdsOther(env: Env, confirmed: set<string>, r: NodeRec, act: Act)
    requires CanAct(env, r, act) && IdsOK(env.nextContainer, confirmed, r) && !IsPushAct(act) && !IsPodAct(act)
    ensures IdsOK(env.nextContainer, confirmed, NewRec(env, r, act))
  {
    OtherShape(env, r, act);
    IdsKept(env.nextContainer, confirmed, r, NewRec(env, r, act));
  }

  lemma LoadsCheck(env: Env, r: NodeRec)
    requires CanAct(env, r, CheckRecord) && LoadsOK(r)
    ensures LoadsOK(NewRec(env, r, CheckRecord))
  {
  }

  lemma LoadsPush(env: Env, r: NodeRec, outcome: Outcome)
    requires CanAct(env, r, Push(outcome)) && LoadsOK(r)
    ensures LoadsOK(NewRec(env, r, Push(outcome)))
  {
  }

  lemma LoadsRecord(env: Env, r: NodeRec)
    requires CanAct(env, r, RecordPush) && LoadsOK(r)
    ensures LoadsOK(NewRec(env, r, RecordPush))
  {
  }

  lemma LoadsPod(env: Env, confirmed: set<string>, r: NodeRec, act: Act)
    requires CanAct(env, r, act) && IdsOK(env.nextContainer, confirmed, r) && LoadsOK(r) && IsPodAct(act)
    ensures LoadsOK(NewRec(env, r, act))
  {
    if act.StartContainer? {
      LoadsStart(env, confirmed, r, act.pod, act.boot);
    } else {
      var r' := NewRec(env, r, act);
      assert r' == r.(pods := r'.pods, events := r'.events);
      assert forall p :: p in r'.pods && r'.pods[p].container.Some? ==>
               p in r.pods && r'.pods[p].container == r.pods[p].container;
      LoadsShrunk(r, r');
    }
  }

  lemma LoadsStart(env: Env, confirmed: set<string>, r: NodeRec, p: nat, boot: string)
    requires p in r.pods && IdsOK(env.nextContainer, confirmed, r) && LoadsOK(r)
    ensures LoadsOK(NewRec(env, r, StartContainer(p, boot)))
  {
  }

  /** Pods may go and containers may stop without harm. */
  lemma LoadsShrunk(r: NodeRec, r': NodeRec)
    requires LoadsOK(r) && r' == r.(pods := r'.pods, events := r'.events)
    requires forall p :: p in r'.pods && r'.pods[p].container.Some? ==>
               p in r.pods && r'.pods[p].container == r.pods[p].container
    ensures LoadsOK(r')
  {
  }

  lemma LoadsOther(env: Env, confirmed: set<string>, r: NodeRec, act: Act)
    requires CanAct(env, r, act) && IdsOK(env.nextContainer, confirmed, r) && LoadsOK(r)
    requires !IsPushAct(act) && !IsPodAct(act)
    ensures LoadsOK(NewRec(env, r, act))
  {
    OtherShape(env, r, act);
    LoadsKept(env.nextContainer, confirmed, r, NewRec(env, r, act));
  }

  lemma FreshPush(env: Env, bumps: nat, r: NodeRec, act: Act)
    requires CanAct(env, r, act) && LoadsOK(r) && IsPushAct(act)
    requires IsServed(bumps, env.merged, r)
    ensures IsServed(bumps, env.merged, NewRec(env, r, act))
  {
    FoundIsBehind(r.pods);
    if act.Push? {
      FreshLoad(env, bumps, r, act.outcome);
    } else if act.CheckRecord? {
      var r' := NewRec(env, r, CheckRecord);
      assert r' == r.(phase := r'.phase);
    } else {
      var r' := NewRec(env, r, RecordPush);
      assert r' == r.(phase := r'.phase, record := r'.record);
    }
  }

  lemma FreshLoad(env: Env, bumps: nat, r: NodeRec, outcome: Outcome)
    requires CanAct(env, r, Push(outcome)) && LoadsOK(r) && IsServed(bumps, env.merged, r)
    ensures IsServed(bumps, env.merged, NewRec(env, r, Push(outcome)))
  {
    FoundIsBehind(r.pods);
  }

  /** Acts that make work, or turn one kind of work into another. */
  predicate IsQueueAct(act: Act) {
    || act.ExpireDelay? || act.DeliverEvent? || act.MergeEvents? || act.DeliverOwed?
    || act.ChangeManaged? || act.LoseObjects? || IsPodAct(act)
  }

  lemma QueueWork(env: Env, r: NodeRec, act: Act)
    requires CanAct(env, r, act) && IsQueueAct(act)
    ensures Work(0, NewRec(env, r, act))
  {
  }

  /** They leave the worker and the record alone. */
  lemma QueueShape(env: Env, r: NodeRec, act: Act)
    requires CanAct(env, r, act) && IsQueueAct(act)
    ensures NewRec(env, r, act).phase == r.phase && NewRec(env, r, act).record == r.record
    ensures NewRec(env, r, act).saw == r.saw
  {
    if IsPodAct(act) {
      PodShape(env, r, act);
    }
  }

  lemma PodShape(env: Env, r: NodeRec, act: Act)
    requires CanAct(env, r, act) && IsPodAct(act)
    ensures NewRec(env, r, act).phase == r.phase && NewRec(env, r, act).record == r.record
    ensures NewRec(env, r, act).saw == r.saw
  {
    match act
    case AddPod(p) =>
    case RetirePod(p) =>
    case RemovePod(p) =>
    case StartContainer(p, boot) =>
    case StopContainer(p) =>
  }

  /** The worker's own acts, but for the push, only touch its phase and what it reports. */
  lemma FreshWorker(env: Env, bumps: nat, r: NodeRec, act: Act)
    requires CanAct(env, r, act) && LoadsOK(r) && !IsPushAct(act) && !IsQueueAct(act) && !act.AcceptSnapshot?
    requires IsServed(bumps, env.merged, r)
    ensures IsServed(bumps, env.merged, NewRec(env, r, act))
  {
  }

  lemma FreshAccept(env: Env, bumps: nat, r: NodeRec)
    requires CanAct(env, r, AcceptSnapshot) && LoadsOK(r)
    requires IsServed(bumps, env.merged, r)
    ensures IsServed(bumps, env.merged, NewRec(env, r, AcceptSnapshot))
  {
    FoundIsBehind(r.pods);
  }

  /** What one act leaves of the acting node. */
  lemma ActStep(env: Env, confirmed: set<string>, bumps: nat, r: NodeRec, act: Act)
    requires CanAct(env, r, act) && IdsOK(env.nextContainer, confirmed, r) && LoadsOK(r)
    requires IsServed(bumps, env.merged, r)
    ensures var r' := NewRec(env, r, act);
            && IdsOK(if act.StartContainer? then env.nextContainer + 1 else env.nextContainer,
                     if act == Push(Loaded) then confirmed + {r.phase.snapshot.caddyfile} else confirmed, r')
            && LoadsOK(r')
            && IsServed(bumps, env.merged, r')
  {
    if IsPushAct(act) {
      IdsPush(env, confirmed, r, act);
      FreshPush(env, bumps, r, act);
      match act {
        case CheckRecord => LoadsCheck(env, r);
        case Push(outcome) => LoadsPush(env, r, outcome);
        case RecordPush => LoadsRecord(env, r);
      }
    } else {
      if IsQueueAct(act) {
        QueueWork(env, r, act);
      } else if act.AcceptSnapshot? {
        FreshAccept(env, bumps, r);
      } else {
        FreshWorker(env, bumps, r, act);
      }
      if IsPodAct(act) {
        IdsPod(env, confirmed, r, act);
        LoadsPod(env, confirmed, r, act);
      } else {
        IdsOther(env, confirmed, r, act);
        LoadsOther(env, confirmed, r, act);
      }
    }
  }

  /** A node that did not act is not disturbed by what others add. */
  lemma Undisturbed(w: World, w': World, r: NodeRec)
    requires NodeOK(w, r) && w.nextContainer <= w'.nextContainer && w.confirmed <= w'.confirmed
    requires w'.bumps == w.bumps && Agg.Merged(w'.agg) == Agg.Merged(w.agg)
    ensures NodeOK(w', r)
  {
  }

  lemma MergeKept(bootstrap: string, w: World, n: string, act: Act)
    requires Agg.Counted(w.agg) && Enabled(bootstrap, w, OnNode(n, act))
    ensures var w' := Do(bootstrap, w, OnNode(n, act));
            Agg.Counted(w'.agg) && Agg.Merged(w'.agg) == Agg.Merged(w.agg)
  {
    AggOf(bootstrap, w, n, act);
    if act.AcceptSnapshot? {
      Agg.UpdateStep(w.agg, Agg.Accept(w.nodes[n].phase.snapshot));
      AcceptKeepsMerge(w.agg, w.nodes[n].phase.snapshot);
    }
  }

  lemma AggOf(bootstrap: string, w: World, n: string, act: Act)
    requires Enabled(bootstrap, w, OnNode(n, act))
    ensures Do(bootstrap, w, OnNode(n, act)).agg ==
            if act.AcceptSnapshot? then Agg.Update(w.agg, Agg.Accept(w.nodes[n].phase.snapshot)) else w.agg
  {
  }

  lemma AcceptKeepsMerge(agg: Agg.State, snapshot: Agg.Snapshot)
    ensures Agg.Merged(Agg.Update(agg, Agg.Accept(snapshot))) == Agg.Merged(agg)
  {
  }

  lemma NodeStep(bootstrap: string, accepted0: string, w: World, n: string, act: Act)
    requires Inv(accepted0, w) && Enabled(bootstrap, w, OnNode(n, act))
    ensures Inv(accepted0, Do(bootstrap, w, OnNode(n, act)))
  {
    var w' := Do(bootstrap, w, OnNode(n, act));
    MergeKept(bootstrap, w, n, act);
    assert NodeOK(w, w.nodes[n]);
    ActStep(EnvOf(w), w.confirmed, w.bumps, w.nodes[n], act);
    forall m | m in w'.nodes ensures NodeOK(w', w'.nodes[m]) {
      if m != n {
        Undisturbed(w, w', w.nodes[m]);
      }
    }
  }

  lemma ChangeStep(bootstrap: string, accepted0: string, w: World, op: Agg.Op)
    requires Inv(accepted0, w) && !op.Accept?
    ensures Inv(accepted0, Do(bootstrap, w, Change(op)))
  {
    Agg.UpdateStep(w.agg, op);
  }

  lemma InvStep(bootstrap: string, accepted0: string, w: World, step: Step)
    requires Inv(accepted0, w) && Enabled(bootstrap, w, step)
    ensures Inv(accepted0, Do(bootstrap, w, step))
  {
    match step
    case OnNode(n, act) => NodeStep(bootstrap, accepted0, w, n, act);
    case Change(op) => ChangeStep(bootstrap, accepted0, w, op);
    case ListManaged => ListStep(bootstrap, accepted0, w);
    case ForceResync => ResyncStep(bootstrap, accepted0, w);
    case OnMirror(act) =>
  }

  lemma ListStep(bootstrap: string, accepted0: string, w: World)
    requires Inv(accepted0, w) && w.bumps > 0
    ensures Inv(accepted0, Do(bootstrap, w, ListManaged))
  {
    forall n | n in w.nodes ensures NodeOK(Do(bootstrap, w, ListManaged), Do(bootstrap, w, ListManaged).nodes[n]) {
      assert NodeOK(w, w.nodes[n]);
    }
  }

  lemma ResyncStep(bootstrap: string, accepted0: string, w: World)
    requires Inv(accepted0, w)
    ensures Inv(accepted0, Do(bootstrap, w, ForceResync))
  {
    forall n | n in w.nodes ensures NodeOK(Do(bootstrap, w, ForceResync), Do(bootstrap, w, ForceResync).nodes[n]) {
      assert NodeOK(w, w.nodes[n]);
    }
  }

  lemma InvAlways(bootstrap: string, run: seq<World>, steps: seq<Step>, i: nat)
    requires IsRun(bootstrap, run, steps) && i < |run|
    ensures Inv(run[0].agg.accepted, run[i])
  {
    var accepted0 := run[0].agg.accepted;
    forall j | 0 <= j < i && Inv(accepted0, run[j]) ensures Inv(accepted0, run[j + 1]) {
      assert IsStep(bootstrap, run, steps, j);
      InvStep(bootstrap, accepted0, run[j], steps[j]);
    }
    Induct(run, 0, i, w => Inv(accepted0, w));
  }

  /** In every reachable state, a managed node either has work outstanding for its key or
      everything its worker or its last reconcile saw is current. */
  lemma NoLostUpdate(bootstrap: string, run: seq<World>, steps: seq<Step>, i: nat, n: string)
    requires IsRun(bootstrap, run, steps) && i < |run| && n in run[i].nodes && run[i].nodes[n].managed
    ensures Work(run[i].bumps, run[i].nodes[n]) || Fresh(Agg.Merged(run[i].agg), run[i].nodes[n])
  {
    InvAlways(bootstrap, run, steps, i);
    assert NodeOK(run[i], run[i].nodes[n]);
  }

  /** The pod is active, no active pod is newer, and its container has started. */
  ghost predicate IsServing(pods: map<nat, CaddyPod>, p: nat, container: nat) {
    && p in pods && pods[p] == CaddyPod(true, Some(container))
    && forall q :: q in pods && pods[q].isActive ==> q <= p
  }

  lemma FoundExactly(pods: map<nat, CaddyPod>, p: nat, container: nat)
    ensures FindActivePod(pods) == Some(Started(p, container)) <==> IsServing(pods, p, container)
  {
    if IsServing(pods, p, container) {
      assert IsNewest(pods, p);
    }
  }

  /** Once a managed node's key is at rest, its objects exist, and the started container of its
      newest active pod runs the current merge or has refused it, unless there is no loadable
      merge. */
  lemma DeliveredAtRest(bootstrap: string, run: seq<World>, steps: seq<Step>, i: nat, n: string, p: nat, container: nat)
    requires IsRun(bootstrap, run, steps) && i < |run| && n in run[i].nodes
    requires var r := run[i].nodes[n]; r.managed && r.phase.Idle? && !Work(run[i].bumps, r)
    ensures run[i].nodes[n].hasObjects
    ensures var r, merged := run[i].nodes[n], Agg.Merged(run[i].agg);
            var contents := ContentsOf(r, container);
            IsServing(r.pods, p, container) && merged.Ok? ==>
              contents.running == merged.value.caddyfile || merged.value.caddyfile in contents.refused
  {
    NoLostUpdate(bootstrap, run, steps, i, n);
    FoundExactly(run[i].nodes[n].pods, p, container);
  }

  /** And once the key of a node that is not managed is at rest, none of its objects exist and no
      push is on record for it. */
  lemma TornDownAtRest(bootstrap: string, run: seq<World>, steps: seq<Step>, i: nat, n: string)
    requires IsRun(bootstrap, run, steps) && i < |run| && n in run[i].nodes
    requires var r := run[i].nodes[n]; !r.managed && r.phase.Idle? && !Work(0, r)
    ensures !run[i].nodes[n].hasObjects && run[i].nodes[n].record.None?
  {
    InvAlways(bootstrap, run, steps, i);
    assert NodeOK(run[i], run[i].nodes[n]);
  }

  // ----- When a push record tells the truth -----

  /** Between a push and state i, node n has neither pushed again nor lost what the push left:
      the phase `Pushed`, then the record; and no container's last load has changed since. */
  ghost predicate StemsFrom(r0: NodeRec, r: NodeRec) {
    && r0.phase.Pushing? && Behind(r0.pods, r0.phase.target).Some?
    && (if r.phase.Pushed?
        then r.phase == Pushed(r0.phase.target, r0.phase.snapshot) && (r.record == r0.record || r.record == None)
        else r.record == Some(Record(r0.phase.snapshot.caddyfile, r0.phase.target.container)))
    && forall c: nat :: LastLoad(r, c) ==
         if Some(c) == Behind(r0.pods, r0.phase.target) then Some(r0.phase.snapshot.caddyfile) else LastLoad(r0, c)
  }

  predicate HasPushed(r: NodeRec) {
    r.record.Some? || r.phase.Pushed?
  }

  /** An act that is no successful push keeps the origin, or clears the record. */
  lemma StemsStep(env: Env, r0: NodeRec, r: NodeRec, act: Act)
    requires CanAct(env, r, act) && StemsFrom(r0, r) && act != Push(Loaded) && env.nextContainer !in r.contents
    requires HasPushed(NewRec(env, r, act))
    ensures StemsFrom(r0, NewRec(env, r, act))
  {
    var r' := NewRec(env, r, act);
    forall c: nat ensures LastLoad(r', c) == LastLoad(r, c) {
    }
  }

  lemma StemsPush(env: Env, r: NodeRec)
    requires CanAct(env, r, Push(Loaded))
    ensures StemsFrom(r, NewRec(env, r, Push(Loaded)))
  {
  }

  lemma PushedBefore(env: Env, r: NodeRec, act: Act)
    requires CanAct(env, r, act) && HasPushed(NewRec(env, r, act)) && act != Push(Loaded)
    ensures HasPushed(r)
  {
  }

  lemma StepOfNode(bootstrap: string, w: World, step: Step, n: string)
    requires Enabled(bootstrap, w, step)
    ensures n in Do(bootstrap, w, step).nodes <==> n in w.nodes
    ensures w.nextContainer <= Do(bootstrap, w, step).nextContainer
    ensures n in w.nodes ==>
            var r, r' := w.nodes[n], Do(bootstrap, w, step).nodes[n];
            if step.OnNode? && step.n == n then r' == NewRec(EnvOf(w), r, step.act)
            else r'.phase == r.phase && r'.contents == r.contents && r'.pods == r.pods &&
                 (r'.record == r.record || r'.record == None)
  {
  }

  /** Every push record comes from a successful push of the same run. */
  lemma {:induction false} RecordOrigin(bootstrap: string, run: seq<World>, steps: seq<Step>, i: nat, n: string)
    returns (p: nat)
    requires IsRun(bootstrap, run, steps) && i < |run| && n in run[i].nodes && HasPushed(run[i].nodes[n])
    ensures p < i && n in run[p].nodes && steps[p] == OnNode(n, Push(Loaded))
    ensures StemsFrom(run[p].nodes[n], run[i].nodes[n])
  {
    assert i > 0 && IsStep(bootstrap, run, steps, i - 1);
    var w, step := run[i - 1], steps[i - 1];
    StepOfNode(bootstrap, w, step, n);
    InvAlways(bootstrap, run, steps, i - 1);
    assert NodeOK(w, w.nodes[n]);
    if step == OnNode(n, Push(Loaded)) {
      StemsPush(EnvOf(w), w.nodes[n]);
      return i - 1;
    }
    if step.OnNode? && step.n == n {
      PushedBefore(EnvOf(w), w.nodes[n], step.act);
    }
    p := RecordOrigin(bootstrap, run, steps, i - 1, n);
    if step.OnNode? && step.n == n {
      StemsStep(EnvOf(w), run[p].nodes[n], w.nodes[n], step.act);
    }
  }

  /** In every state, also between a load and its recording, a record tells the truth about its
      container exactly when the latest push reached that container with the record's text, or
      reached another container and this one had loaded the text last before. */
  lemma RecordTruthfulExactly(bootstrap: string, run: seq<World>, steps: seq<Step>, i: nat, n: string)
    returns (p: nat)
    requires IsRun(bootstrap, run, steps) && i < |run| && n in run[i].nodes && run[i].nodes[n].record.Some?
    ensures p < i && n in run[p].nodes && steps[p] == OnNode(n, Push(Loaded)) && run[p].nodes[n].phase.Pushing?
    ensures var r0, r := run[p].nodes[n], run[i].nodes[n];
            && r.record == (if r.phase.Pushed? then r0.record
                            else Some(Record(r0.phase.snapshot.caddyfile, r0.phase.target.container)))
            && (IsTruthful(r) <==>
                  if Behind(r0.pods, r0.phase.target) == Some(r.record.value.container)
                  then r.record.value.text == r0.phase.snapshot.caddyfile
                  else LastLoad(r0, r.record.value.container) == Some(r.record.value.text))
  {
    p := RecordOrigin(bootstrap, run, steps, i, n);
  }

  lemma GoneStep(bootstrap: string, accepted0: string, w: World, step: Step, n: string, c: nat)
    requires Inv(accepted0, w) && Enabled(bootstrap, w, step) && n in w.nodes && c < w.nextContainer
    requires !IsPlaced(w.nodes[n].pods, c)
    ensures var w' := Do(bootstrap, w, step);
            n in w'.nodes && c < w'.nextContainer && !IsPlaced(w'.nodes[n].pods, c)
  {
    StepOfNode(bootstrap, w, step, n);
    if step.OnNode? && step.n == n {
      GoneAct(EnvOf(w), w.nodes[n], step.act, c);
    }
  }

  lemma GoneAct(env: Env, r: NodeRec, act: Act, c: nat)
    requires CanAct(env, r, act) && c < env.nextContainer && !IsPlaced(r.pods, c)
    ensures !IsPlaced(NewRec(env, r, act).pods, c)
  {
    if !IsPodAct(act) {
      assert NewRec(env, r, act).pods == r.pods;
    }
  }

  /** A container that no pod has any more never returns. */
  lemma GoneForGood(bootstrap: string, run: seq<World>, steps: seq<Step>, i: nat, j: nat, n: string, c: nat)
    requires IsRun(bootstrap, run, steps) && i <= j < |run| && n in run[i].nodes
    requires c < run[i].nextContainer && !IsPlaced(run[i].nodes[n].pods, c)
    ensures n in run[j].nodes && !IsPlaced(run[j].nodes[n].pods, c)
  {
    forall k | i <= k < j && IsGone(run[k], n, c) ensures IsGone(run[k + 1], n, c) {
      InvAlways(bootstrap, run, steps, k);
      assert IsStep(bootstrap, run, steps, k);
      GoneStep(bootstrap, run[0].agg.accepted, run[k], steps[k], n, c);
    }
    Induct(run, i, j, w => IsGone(w, n, c));
  }

  predicate IsGone(w: World, n: string, c: nat) {
    n in w.nodes && c < w.nextContainer && !IsPlaced(w.nodes[n].pods, c)
  }

  /** So an untruthful record is harmless: either its container has just loaded a text that the
      same worker records next, before anyone reads the record again, or the container it names
      is gone for good. */
  lemma UntruthfulIsGone(bootstrap: string, run: seq<World>, steps: seq<Step>, i: nat, j: nat, n: string)
    requires IsRun(bootstrap, run, steps) && i <= j < |run| && n in run[i].nodes && !IsTruthful(run[i].nodes[n])
    ensures var r := run[i].nodes[n];
            || (n in run[j].nodes && !IsPlaced(run[j].nodes[n].pods, r.record.value.container))
            || (r.phase.Pushed? && LastLoad(r, r.record.value.container) == Some(r.phase.snapshot.caddyfile))
  {
    var r := run[i].nodes[n];
    var c := r.record.value.container;
    var p := i;
    if r.phase.Pushed? {
      p := RecordOrigin(bootstrap, run, steps, i, n);
    }
    if !r.phase.Pushed? || LastLoad(r, c) != Some(r.phase.snapshot.caddyfile) {
      UntruthfulUnplaced(bootstrap, run, steps, p, n);
      GoneForGood(bootstrap, run, steps, p, j, n, c);
    }
  }

  lemma UntruthfulUnplaced(bootstrap: string, run: seq<World>, steps: seq<Step>, i: nat, n: string)
    requires IsRun(bootstrap, run, steps) && i < |run| && n in run[i].nodes
    requires !run[i].nodes[n].phase.Pushed? && !IsTruthful(run[i].nodes[n])
    ensures IsGone(run[i], n, run[i].nodes[n].record.value.container)
  {
    InvAlways(bootstrap, run, steps, i);
    assert NodeOK(run[i], run[i].nodes[n]);
  }

  /** Skipping a push never leaves a stale config: when the record says up to date for a
      container that some pod still has, that container runs exactly the snapshot. */
  lemma SkippedPushIsSafe(bootstrap: string, run: seq<World>, steps: seq<Step>, i: nat, n: string)
    requires IsRun(bootstrap, run, steps) && i < |run| && n in run[i].nodes
    requires var r := run[i].nodes[n];
             && r.phase.GotSnapshot? && UpToDate(r.record, r.phase.snapshot.caddyfile, r.phase.found)
             && IsPlaced(r.pods, r.phase.found.value.container)
    ensures var r := run[i].nodes[n];
            ContentsOf(r, r.phase.found.value.container).running == r.phase.snapshot.caddyfile
  {
    InvAlways(bootstrap, run, steps, i);
    assert NodeOK(run[i], run[i].nodes[n]);
  }

  /** A snapshot is accepted only after a container confirmed loading exactly that text, and
      the container the worker found runs that text while its pod has it; so the accepted
      snapshot is the initial one or a confirmed one. */
  lemma AcceptedWasLoaded(bootstrap: string, run: seq<World>, steps: seq<Step>, i: nat, n: string)
    requires IsRun(bootstrap, run, steps) && i < |run|
    ensures run[i].agg.accepted == run[0].agg.accepted || run[i].agg.accepted in run[i].confirmed
    ensures i < |steps| && steps[i] == OnNode(n, AcceptSnapshot) ==>
              && n in run[i].nodes && run[i].nodes[n].phase.IsLoaded?
              && var r := run[i].nodes[n];
                 && r.phase.snapshot.caddyfile in run[i].confirmed
                 && (Behind(r.pods, r.phase.target) == Some(r.phase.target.container) ==>
                       ContentsOf(r, r.phase.target.container).running == r.phase.snapshot.caddyfile)
  {
    InvAlways(bootstrap, run, steps, i);
    if i < |steps| && steps[i] == OnNode(n, AcceptSnapshot) {
      assert IsStep(bootstrap, run, steps, i);
      assert NodeOK(run[i], run[i].nodes[n]);
    }
  }
}
