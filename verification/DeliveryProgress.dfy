/** Delivery is not only safe: from every reachable state it can come to rest, when nothing changes
    from outside, no call fails that can succeed, and containers load what they are sent. */
module DeliveryProgress {
  import opened Containers
  import opened Admin
  import opened Delivery
  import opened DeliveryTheorems
  import opened MirrorTheorems
  import Agg = Aggregator

  // ----- Cooperative steps -----

  predicate CooperativeAct(r: NodeRec, act: Act) {
    match act
    case TearDown(isOk) => isOk
    case Deploy(isOk, hasWritten) => isOk && hasWritten
    case Push(outcome) =>
      r.phase.Pushing? && (outcome.Loaded? || (outcome.Failed? && Behind(r.pods, r.phase.target).None?))
    case MergeEvents => false
    case ChangeManaged => false
    case LoseObjects => false
    case _ => !IsPodAct(act)
  }

  predicate Cooperative(w: World, step: Step) {
    match step
    case OnNode(n, act) => n in w.nodes && CooperativeAct(w.nodes[n], act)
    case ListManaged => true
    case OnMirror(act) => !act.MEdit? && !act.MRelist? && !act.MResync? && (act.MWrite? ==> act.isOk)
    case _ => false
  }

  ghost predicate IsTaken(bootstrap: string, w: World, step: Step, end: World) {
    Enabled(bootstrap, w, step) && Cooperative(w, step) && end == Do(bootstrap, w, step)
  }

  ghost predicate Leads(bootstrap: string, w: World, end: World) {
    exists step :: IsTaken(bootstrap, w, step, end)
  }

  ghost function NextOf(bootstrap: string): (World, World) -> bool {
    (w, end) => Leads(bootstrap, w, end)
  }

  ghost predicate Reaches(bootstrap: string, w: World, end: World) {
    ReachesBy(NextOf(bootstrap), w, end)
  }

  /** No text a worker holds or a container has confirmed is empty, nor is the accepted one. */
  ghost predicate TextsOK(w: World) {
    && w.agg.accepted != "" && "" !in w.confirmed
    && forall n :: n in w.nodes ==> SnapshotOK(w.nodes[n].phase)
  }

  predicate SnapshotOK(phase: Phase) {
    phase.GotSnapshot? || phase.Pushing? || phase.Pushed? || phase.IsLoaded? ==> phase.snapshot.caddyfile != ""
  }

  lemma SnapshotAct(env: Env, r: NodeRec, act: Act)
    requires CanAct(env, r, act) && SnapshotOK(r.phase) && (env.merged.Ok? ==> env.merged.value.caddyfile != "")
    ensures SnapshotOK(NewRec(env, r, act).phase)
    ensures act.AcceptSnapshot? || act.Push? ==> r.phase.snapshot.caddyfile != ""
  {
    if IsQueueAct(act) {
      QueueShape(env, r, act);
    }
  }

  lemma TextsNode(bootstrap: string, w: World, n: string, act: Act)
    requires TextsOK(w) && Enabled(bootstrap, w, OnNode(n, act))
    ensures TextsOK(Do(bootstrap, w, OnNode(n, act)))
  {
    Agg.MergedSize(w.agg);
    SnapshotAct(EnvOf(w), w.nodes[n], act);
    TextsOf(bootstrap, w, n, act);
  }

  /** What a step of a node does to the texts. */
  lemma TextsOf(bootstrap: string, w: World, n: string, act: Act)
    requires Enabled(bootstrap, w, OnNode(n, act))
    ensures var w' := Do(bootstrap, w, OnNode(n, act));
            && w'.nodes == w.nodes[n := NewRec(EnvOf(w), w.nodes[n], act)]
            && (act.Push? || w'.confirmed == w.confirmed)
            && (act.Push? ==> w'.confirmed <= w.confirmed + {w.nodes[n].phase.snapshot.caddyfile})
            && (act.AcceptSnapshot? || w'.agg == w.agg)
            && (act.AcceptSnapshot? ==>
                  w'.agg.accepted == w.agg.accepted || w'.agg.accepted == w.nodes[n].phase.snapshot.caddyfile)
  {
  }

  lemma TextsStep(bootstrap: string, w: World, step: Step)
    requires TextsOK(w) && Enabled(bootstrap, w, step)
    ensures TextsOK(Do(bootstrap, w, step))
  {
    if step.OnNode? {
      TextsNode(bootstrap, w, step.n, step.act);
    } else {
      forall n | n in w.nodes ensures Do(bootstrap, w, step).nodes[n].phase == w.nodes[n].phase {
        StepOfNode(bootstrap, w, step, n);
      }
    }
  }

  ghost predicate Good(accepted0: string, w: World) {
    Inv(accepted0, w) && MirrorInv(w) && TextsOK(w)
  }

  lemma Take(bootstrap: string, accepted0: string, w: World, step: Step, end: World)
    requires Good(accepted0, w) && IsTaken(bootstrap, w, step, end)
    ensures Reaches(bootstrap, w, end) && Good(accepted0, end)
  {
    InvStep(bootstrap, accepted0, w, step);
    MirrorInvStep(bootstrap, w, step);
    TextsStep(bootstrap, w, step);
    ReachesByOne(NextOf(bootstrap), w, end);
  }

  lemma Stay(bootstrap: string, w: World)
    ensures Reaches(bootstrap, w, w)
  {
    ReachesByOne(NextOf(bootstrap), w, w);
  }

  lemma Chain(bootstrap: string, a: World, b: World, c: World)
    requires Reaches(bootstrap, a, b) && Reaches(bootstrap, b, c)
    ensures Reaches(bootstrap, a, c)
  {
    ChainBy(NextOf(bootstrap), a, b, c);
  }

  // ----- One node -----

  function Rank(phase: Phase): nat {
    match phase
    case Idle => 0
    case Finished(_) => 1
    case OwesMirror(_) => 2
    case IsLoaded(_, _) => 3
    case Pushed(_, _) => 4
    case Pushing(_, _) => 5
    case GotSnapshot(_, _) => 6
    case GotPod(_) => 7
    case Deploying => 8
    case TearingDown => 8
    case Taken => 9
  }

  function NextAct(r: NodeRec): Act
    requires !r.phase.Idle?
  {
    match r.phase
    case Taken => Inspect
    case TearingDown => TearDown(true)
    case Deploying => Deploy(true, true)
    case GotPod(_) => ReadMerged
    case GotSnapshot(_, _) => CheckRecord
    case Pushing(target, _) => Push(if Behind(r.pods, target).Some? then Loaded else Failed)
    case Pushed(_, _) => RecordPush
    case IsLoaded(_, _) => AcceptSnapshot
    case OwesMirror(_) => AddMirrorKey
    case Finished(_) => Done
  }

  /** The container the worker works on is where it was found. */
  predicate IsReachable(r: NodeRec) {
    TargetOf(r.phase).Some? ==> Behind(r.pods, TargetOf(r.phase).value).Some?
  }

  /** The act brings the worker closer to its end and makes no new work; if nothing has moved since
      the worker looked, not even a retry. */
  predicate Drains(env: Env, r: NodeRec, act: Act) {
    && CanAct(env, r, act) && CooperativeAct(r, act)
    && var r' := NewRec(env, r, act);
       && Rank(r'.phase) < Rank(r.phase)
       && r'.dirty == r.dirty && r'.owed == r.owed && r'.events == r.events && r'.managed == r.managed
       && (IsReachable(r) ==> IsReachable(r') && r'.delayed == r.delayed)
  }

  lemma DrainEarly(env: Env, r: NodeRec)
    ensures r.phase.Taken? ==> Drains(env, r, Inspect)
    ensures r.phase.TearingDown? ==> Drains(env, r, TearDown(true))
    ensures r.phase.GotPod? ==> Drains(env, r, ReadMerged)
  {
  }

  lemma DrainDeploy(env: Env, r: NodeRec)
    requires r.phase.Deploying?
    ensures Drains(env, r, Deploy(true, true))
  {
    FoundIsBehind(r.pods);
  }

  lemma DrainPush(env: Env, r: NodeRec)
    requires r.phase.Pushing?
    ensures Drains(env, r, NextAct(r))
  {
    if Behind(r.pods, r.phase.target).Some? {
      assert Drains(env, r, Push(Loaded));
    } else {
      assert Drains(env, r, Push(Failed));
    }
  }

  lemma DrainCheck(env: Env, r: NodeRec)
    requires r.phase.GotSnapshot?
    ensures Drains(env, r, CheckRecord)
  {
  }

  lemma DrainAccept(env: Env, r: NodeRec)
    requires r.phase.IsLoaded?
    ensures Drains(env, r, AcceptSnapshot)
  {
  }

  lemma DrainRecord(env: Env, r: NodeRec)
    requires r.phase.Pushed?
    ensures Drains(env, r, RecordPush)
  {
  }

  lemma DrainLate(env: Env, r: NodeRec)
    ensures r.phase.OwesMirror? ==> Drains(env, r, AddMirrorKey)
    ensures r.phase.Finished? ==> Drains(env, r, Done)
  {
  }

  lemma DrainAct(env: Env, r: NodeRec)
    requires !r.phase.Idle?
    ensures Drains(env, r, NextAct(r))
  {
    if r.phase.Pushing? {
      DrainPush(env, r);
    } else if r.phase.Deploying? {
      DrainDeploy(env, r);
    } else if r.phase.GotSnapshot? {
      DrainCheck(env, r);
    } else if r.phase.IsLoaded? {
      DrainAccept(env, r);
    } else if r.phase.Pushed? {
      DrainRecord(env, r);
    } else {
      DrainEarly(env, r);
      DrainLate(env, r);
    }
  }

  predicate OnlyNode(w: World, n: string, end: World) {
    && n in w.nodes && n in end.nodes && end.nodes == w.nodes[n := end.nodes[n]]
    && end.bumps == w.bumps && end.mirror.watching == w.mirror.watching
    && end.nodes[n].managed == w.nodes[n].managed
  }

  lemma OnlyNodeStep(bootstrap: string, w: World, n: string, act: Act)
    requires Enabled(bootstrap, w, OnNode(n, act)) && NewRec(EnvOf(w), w.nodes[n], act).managed == w.nodes[n].managed
    ensures OnlyNode(w, n, Do(bootstrap, w, OnNode(n, act)))
    ensures Do(bootstrap, w, OnNode(n, act)).nodes[n] == NewRec(EnvOf(w), w.nodes[n], act)
  {
  }

  lemma OnlyNodeChain(w: World, n: string, mid: World, end: World)
    requires OnlyNode(w, n, mid) && OnlyNode(mid, n, end)
    ensures OnlyNode(w, n, end)
  {
  }

  /** The worker runs to its end.  If nothing has moved since it looked, it does not have to retry. */
  lemma {:induction false} Drain(bootstrap: string, accepted0: string, w: World, n: string) returns (end: World)
    requires Good(accepted0, w) && n in w.nodes
    ensures Reaches(bootstrap, w, end) && Good(accepted0, end) && OnlyNode(w, n, end) && end.nodes[n].phase.Idle?
    ensures var r, r' := w.nodes[n], end.nodes[n];
            && r'.dirty == r.dirty && r'.owed == r.owed && r'.events == r.events
            && (IsReachable(r) ==> r'.delayed == r.delayed)
    decreases Rank(w.nodes[n].phase)
  {
    var r := w.nodes[n];
    if r.phase.Idle? {
      Stay(bootstrap, w);
      return w;
    }
    var step := OnNode(n, NextAct(r));
    DrainAct(EnvOf(w), r);
    OnlyNodeStep(bootstrap, w, n, NextAct(r));
    var mid := Do(bootstrap, w, step);
    Take(bootstrap, accepted0, w, step, mid);
    end := Drain(bootstrap, accepted0, mid, n);
    Chain(bootstrap, w, mid, end);
    OnlyNodeChain(w, n, mid, end);
  }

  function Debt(r: NodeRec): nat {
    r.events + r.owed + if r.delayed then 1 else 0
  }

  function CollectAct(r: NodeRec): Act
    requires Debt(r) > 0
  {
    if r.events > 0 then DeliverEvent else if r.owed > 0 then DeliverOwed else ExpireDelay
  }

  lemma CollectOne(env: Env, r: NodeRec)
    requires Debt(r) > 0
    ensures CanAct(env, r, CollectAct(r)) && CooperativeAct(r, CollectAct(r))
    ensures var r' := NewRec(env, r, CollectAct(r));
            Debt(r') < Debt(r) && r'.phase == r.phase && r'.managed == r.managed
  {
  }

  /** Events, owed enqueues and delays all end in the queue. */
  lemma {:induction false} Collect(bootstrap: string, accepted0: string, w: World, n: string) returns (end: World)
    requires Good(accepted0, w) && n in w.nodes && w.nodes[n].phase.Idle?
    ensures Reaches(bootstrap, w, end) && Good(accepted0, end) && OnlyNode(w, n, end)
    ensures end.nodes[n].phase.Idle? && Debt(end.nodes[n]) == 0
    decreases Debt(w.nodes[n])
  {
    var r := w.nodes[n];
    if Debt(r) == 0 {
      Stay(bootstrap, w);
      return w;
    }
    var step := OnNode(n, CollectAct(r));
    CollectOne(EnvOf(w), r);
    OnlyNodeStep(bootstrap, w, n, CollectAct(r));
    var mid := Do(bootstrap, w, step);
    Take(bootstrap, accepted0, w, step, mid);
    end := Collect(bootstrap, accepted0, mid, n);
    Chain(bootstrap, w, mid, end);
    OnlyNodeChain(w, n, mid, end);
  }

  predicate IsResting(r: NodeRec) {
    r.phase.Idle? && !Work(0, r)
  }

  /** A queued key is taken and reconciled. */
  lemma Reconcile(bootstrap: string, accepted0: string, w: World, n: string) returns (end: World)
    requires Good(accepted0, w) && n in w.nodes && w.nodes[n].phase.Idle? && Debt(w.nodes[n]) == 0
    requires w.mirror.watching
    ensures Reaches(bootstrap, w, end) && Good(accepted0, end) && OnlyNode(w, n, end) && IsResting(end.nodes[n])
  {
    if !w.nodes[n].dirty {
      Stay(bootstrap, w);
      return w;
    }
    OnlyNodeStep(bootstrap, w, n, Get);
    var mid := Do(bootstrap, w, OnNode(n, Get));
    Take(bootstrap, accepted0, w, OnNode(n, Get), mid);
    end := Drain(bootstrap, accepted0, mid, n);
    Chain(bootstrap, w, mid, end);
    OnlyNodeChain(w, n, mid, end);
  }

  lemma Serve(bootstrap: string, accepted0: string, w: World, n: string) returns (end: World)
    requires Good(accepted0, w) && n in w.nodes && w.mirror.watching
    ensures Reaches(bootstrap, w, end) && Good(accepted0, end) && OnlyNode(w, n, end) && IsResting(end.nodes[n])
  {
    var drained := Drain(bootstrap, accepted0, w, n);
    var collected := Collect(bootstrap, accepted0, drained, n);
    Chain(bootstrap, w, drained, collected);
    OnlyNodeChain(w, n, drained, collected);
    end := Reconcile(bootstrap, accepted0, collected, n);
    Chain(bootstrap, w, collected, end);
    OnlyNodeChain(w, n, collected, end);
  }

  function Restless(w: World): set<string> {
    set n | n in w.nodes && !IsResting(w.nodes[n])
  }

  /** The same nodes are managed as before. */
  predicate SameManaged(w: World, end: World) {
    end.nodes.Keys == w.nodes.Keys && forall n :: n in w.nodes ==> end.nodes[n].managed == w.nodes[n].managed
  }

  lemma ServedSets(w: World, n: string, end: World)
    requires OnlyNode(w, n, end) && IsResting(end.nodes[n])
    ensures Restless(end) == Restless(w) - {n} && SameManaged(w, end)
  {
  }

  lemma {:induction false} ServeAll(bootstrap: string, accepted0: string, w: World) returns (end: World)
    requires Good(accepted0, w) && w.mirror.watching
    ensures Reaches(bootstrap, w, end) && Good(accepted0, end) && Restless(end) == {}
    ensures end.bumps == w.bumps && end.mirror.watching && SameManaged(w, end)
    decreases Restless(w)
  {
    if Restless(w) == {} {
      Stay(bootstrap, w);
      return w;
    }
    var n :| n in Restless(w);
    var mid := Serve(bootstrap, accepted0, w, n);
    ServedSets(w, n, mid);
    end := ServeAll(bootstrap, accepted0, mid);
    Chain(bootstrap, w, mid, end);
  }

  // ----- Before that -----

  lemma StartWatching(bootstrap: string, accepted0: string, w: World) returns (end: World)
    requires Good(accepted0, w)
    ensures Reaches(bootstrap, w, end) && Good(accepted0, end) && end.mirror.watching && SameManaged(w, end)
    ensures w.mirror.watching ==> end == w
  {
    if w.mirror.watching {
      Stay(bootstrap, w);
      return w;
    }
    end := Do(bootstrap, w, OnMirror(FirstList));
    Take(bootstrap, accepted0, w, OnMirror(FirstList), end);
  }

  lemma {:induction false} ListAll(bootstrap: string, accepted0: string, w: World) returns (end: World)
    requires Good(accepted0, w) && w.mirror.watching
    ensures Reaches(bootstrap, w, end) && Good(accepted0, end) && end.bumps == 0 && end.mirror.watching
    ensures SameManaged(w, end)
    decreases w.bumps
  {
    if w.bumps == 0 {
      Stay(bootstrap, w);
      return w;
    }
    var mid := Do(bootstrap, w, ListManaged);
    Take(bootstrap, accepted0, w, ListManaged, mid);
    end := ListAll(bootstrap, accepted0, mid);
    Chain(bootstrap, w, mid, end);
  }

  // ----- The mirror -----

  /** Nothing but the mirror's part differs. */
  predicate OnlyMirror(w: World, end: World) {
    end == w.(mirror := end.mirror) && end.mirror.watching == w.mirror.watching
  }

  function MirrorRank(phase: MirrorPhase): nat {
    match phase
    case MIdle => 0
    case MFinished => 1
    case MWriting(_, _) => 2
    case MTaken => 3
  }

  function NextMirrorAct(phase: MirrorPhase): MirrorAct
    requires !phase.MIdle?
  {
    match phase
    case MTaken => MRead
    case MWriting(_, _) => MWrite(true, true)
    case MFinished => MDone
  }

  lemma {:induction false} DrainMirror(bootstrap: string, accepted0: string, w: World) returns (end: World)
    requires Good(accepted0, w) && w.mirror.watching
    ensures Reaches(bootstrap, w, end) && Good(accepted0, end) && OnlyMirror(w, end) && end.mirror.phase.MIdle?
    decreases MirrorRank(w.mirror.phase)
  {
    if w.mirror.phase.MIdle? {
      Stay(bootstrap, w);
      return w;
    }
    var step := OnMirror(NextMirrorAct(w.mirror.phase));
    var mid := Do(bootstrap, w, step);
    Take(bootstrap, accepted0, w, step, mid);
    end := DrainMirror(bootstrap, accepted0, mid);
    Chain(bootstrap, w, mid, end);
  }

  /** The informer receives all changes. */
  lemma {:induction false} Receive(bootstrap: string, accepted0: string, w: World) returns (end: World)
    requires Good(accepted0, w) && w.mirror.watching
    ensures Reaches(bootstrap, w, end) && Good(accepted0, end) && OnlyMirror(w, end)
    ensures end.mirror ==
            w.mirror.(stream := [], known := end.mirror.known, events := w.mirror.events + w.mirror.stream)
    decreases |w.mirror.stream|
  {
    if w.mirror.stream == [] {
      Stay(bootstrap, w);
      assert w.mirror.events + [] == w.mirror.events;
      return w;
    }
    var mid := Do(bootstrap, w, OnMirror(MReceive));
    Take(bootstrap, accepted0, w, OnMirror(MReceive), mid);
    end := Receive(bootstrap, accepted0, mid);
    Chain(bootstrap, w, mid, end);
    Shifted(w.mirror.events, w.mirror.stream);
  }

  lemma Shifted<T>(a: seq<T>, b: seq<T>)
    requires b != []
    ensures (a + [b[0]]) + b[1..] == a + b
  {
  }

  predicate AllCurrent(bootstrap: string, accepted: string, events: seq<Option<Mirror>>) {
    forall i :: 0 <= i < |events| ==> events[i] == Some(Published(bootstrap, accepted))
  }

  /** The handler handles all notifications; current ones queue nothing. */
  lemma {:induction false} Handle(bootstrap: string, accepted0: string, w: World) returns (end: World)
    requires Good(accepted0, w) && w.mirror.watching
    ensures Reaches(bootstrap, w, end) && Good(accepted0, end) && OnlyMirror(w, end)
    ensures end.mirror == w.mirror.(events := [], dirty := end.mirror.dirty)
    ensures AllCurrent(bootstrap, w.agg.accepted, w.mirror.events) ==> end.mirror.dirty == w.mirror.dirty
    decreases |w.mirror.events|
  {
    if w.mirror.events == [] {
      Stay(bootstrap, w);
      return w;
    }
    var mid := Do(bootstrap, w, OnMirror(MDeliver));
    Take(bootstrap, accepted0, w, OnMirror(MDeliver), mid);
    end := Handle(bootstrap, accepted0, mid);
    Chain(bootstrap, w, mid, end);
  }

  predicate IsQuiet(m: MirrorRec) {
    m.phase.MIdle? && m.stream == [] && m.events == []
  }

  /** A failed publish comes back to the queue. */
  lemma Expire(bootstrap: string, accepted0: string, w: World) returns (end: World)
    requires Good(accepted0, w) && w.mirror.watching
    ensures Reaches(bootstrap, w, end) && Good(accepted0, end) && OnlyMirror(w, end)
    ensures end.mirror == w.mirror.(delayed := false, dirty := end.mirror.dirty)
  {
    if !w.mirror.delayed {
      Stay(bootstrap, w);
      return w;
    }
    end := Do(bootstrap, w, OnMirror(MExpire));
    Take(bootstrap, accepted0, w, OnMirror(MExpire), end);
  }

  function Publishing(bootstrap: string, accepted: string, revision: nat, m: MirrorRec): seq<MirrorRec> {
    var taken := m.(dirty := false, phase := MTaken);
    var writing := taken.(phase := MWriting(accepted, revision));
    var written := SetLive(writing, Some(Published(bootstrap, accepted)))
                     .(published := m.published + [revision], phase := MFinished);
    [taken, writing, written, written.(phase := MIdle)]
  }

  lemma PublishSteps(bootstrap: string, w: World)
    requires w.mirror.watching && w.mirror.dirty && w.mirror.phase.MIdle? && w.agg.accepted != ""
    ensures var ms := Publishing(bootstrap, w.agg.accepted, w.agg.acceptedRevision, w.mirror);
            && IsTaken(bootstrap, w, OnMirror(MGet), w.(mirror := ms[0]))
            && IsTaken(bootstrap, w.(mirror := ms[0]), OnMirror(MRead), w.(mirror := ms[1]))
            && IsTaken(bootstrap, w.(mirror := ms[1]), OnMirror(MWrite(true, true)), w.(mirror := ms[2]))
            && IsTaken(bootstrap, w.(mirror := ms[2]), OnMirror(MDone), w.(mirror := ms[3]))
  {
  }

  /** The queued mirror key is taken and the accepted snapshot published. */
  lemma Publish(bootstrap: string, accepted0: string, w: World) returns (end: World)
    requires Good(accepted0, w) && w.mirror.watching && w.mirror.dirty && w.mirror.phase.MIdle?
    ensures Reaches(bootstrap, w, end) && Good(accepted0, end)
    ensures end == w.(mirror := Publishing(bootstrap, w.agg.accepted, w.agg.acceptedRevision, w.mirror)[3])
  {
    var ms := Publishing(bootstrap, w.agg.accepted, w.agg.acceptedRevision, w.mirror);
    PublishSteps(bootstrap, w);
    Take(bootstrap, accepted0, w, OnMirror(MGet), w.(mirror := ms[0]));
    Take(bootstrap, accepted0, w.(mirror := ms[0]), OnMirror(MRead), w.(mirror := ms[1]));
    Chain(bootstrap, w, w.(mirror := ms[0]), w.(mirror := ms[1]));
    Take(bootstrap, accepted0, w.(mirror := ms[1]), OnMirror(MWrite(true, true)), w.(mirror := ms[2]));
    Chain(bootstrap, w, w.(mirror := ms[1]), w.(mirror := ms[2]));
    end := w.(mirror := ms[3]);
    Take(bootstrap, accepted0, w.(mirror := ms[2]), OnMirror(MDone), end);
    Chain(bootstrap, w, w.(mirror := ms[2]), end);
  }

  /** The worker ends and the informer catches up. */
  lemma CatchUp(bootstrap: string, accepted0: string, w: World) returns (end: World)
    requires Good(accepted0, w) && w.mirror.watching
    ensures Reaches(bootstrap, w, end) && Good(accepted0, end) && OnlyMirror(w, end)
    ensures IsQuiet(end.mirror) && !end.mirror.delayed
  {
    var drained := DrainMirror(bootstrap, accepted0, w);
    var received := Receive(bootstrap, accepted0, drained);
    Chain(bootstrap, w, drained, received);
    var handled := Handle(bootstrap, accepted0, received);
    Chain(bootstrap, w, received, handled);
    end := Expire(bootstrap, accepted0, handled);
    Chain(bootstrap, w, handled, end);
  }

  lemma Settle(bootstrap: string, accepted0: string, w: World) returns (end: World)
    requires Good(accepted0, w) && w.mirror.watching
    ensures Reaches(bootstrap, w, end) && Good(accepted0, end) && OnlyMirror(w, end)
    ensures IsQuiet(end.mirror) && !end.mirror.delayed && !end.mirror.dirty
  {
    end := CatchUp(bootstrap, accepted0, w);
    if end.mirror.dirty {
      var ready := end;
      var published := Publish(bootstrap, accepted0, ready);
      Chain(bootstrap, w, ready, published);
      var received := Receive(bootstrap, accepted0, published);
      Chain(bootstrap, w, published, received);
      end := Handle(bootstrap, accepted0, received);
      Chain(bootstrap, w, received, end);
    }
  }

  // ----- All together -----

  lemma ComeToRest(bootstrap: string, accepted0: string, w: World) returns (end: World)
    requires Good(accepted0, w)
    ensures Reaches(bootstrap, w, end) && Good(accepted0, end) && SameManaged(w, end)
    ensures end.bumps == 0 && Restless(end) == {} && !MirrorWork(end)
  {
    var watching := StartWatching(bootstrap, accepted0, w);
    var listed := ListAll(bootstrap, accepted0, watching);
    Chain(bootstrap, w, watching, listed);
    var served := ServeAll(bootstrap, accepted0, listed);
    Chain(bootstrap, w, listed, served);
    end := Settle(bootstrap, accepted0, served);
    Chain(bootstrap, w, served, end);
    assert Restless(end) == Restless(served);
    assert forall n :: n in end.nodes ==> n !in Restless(end);
  }

  lemma StaysConvergingTo(bootstrap: string, w: World, end: World)
    requires Reaches(bootstrap, w, end) && MirrorInv(w) && WatchingAndConverging(bootstrap, w)
    ensures WatchingAndConverging(bootstrap, end)
  {
    forall x, y | NextOf(bootstrap)(x, y) && MirrorInv(x) && WatchingAndConverging(bootstrap, x)
      ensures MirrorInv(y) && WatchingAndConverging(bootstrap, y)
    {
      var step :| IsTaken(bootstrap, x, step, y);
      MirrorInvStep(bootstrap, x, step);
      MirrorStep(bootstrap, x, step);
      StaysWatching(bootstrap, x, step);
    }
    Keeps(NextOf(bootstrap), w, end, x => MirrorInv(x) && WatchingAndConverging(bootstrap, x));
  }

  lemma StaysWatching(bootstrap: string, w: World, step: Step)
    requires Enabled(bootstrap, w, step) && w.mirror.watching
    ensures Do(bootstrap, w, step).mirror.watching
  {
  }

  lemma TextsAlways(bootstrap: string, run: seq<World>, steps: seq<Step>, i: nat)
    requires IsRun(bootstrap, run, steps) && i < |run| && run[0].agg.accepted != ""
    ensures TextsOK(run[i])
  {
    forall j | 0 <= j < i && TextsOK(run[j]) ensures TextsOK(run[j + 1]) {
      assert IsStep(bootstrap, run, steps, j);
      TextsStep(bootstrap, run[j], steps[j]);
    }
    Induct(run, 0, i, w => TextsOK(w));
  }

  /** What a world at rest looks like for one node. */
  ghost predicate IsDelivered(w: World, n: string)
    requires n in w.nodes
  {
    var r, merged := w.nodes[n], Agg.Merged(w.agg);
    if !r.managed then !r.hasObjects && r.record.None?
    else
      && r.hasObjects
      && forall p, c :: IsServing(r.pods, p, c) && merged.Ok? ==>
           ContentsOf(r, c).running == merged.value.caddyfile || merged.value.caddyfile in ContentsOf(r, c).refused
  }

  lemma RestIsDelivered(accepted0: string, w: World, n: string)
    requires Inv(accepted0, w) && w.bumps == 0 && n in w.nodes && IsResting(w.nodes[n])
    ensures IsDelivered(w, n)
  {
    assert NodeOK(w, w.nodes[n]);
    forall p, c | IsServing(w.nodes[n].pods, p, c) ensures FindActivePod(w.nodes[n].pods) == Some(Started(p, c)) {
      FoundExactly(w.nodes[n].pods, p, c);
    }
  }

  /** From every state of every run a cooperative continuation comes to rest: every worker is done
      and nothing is queued or owed; every managed node has its objects and its serving container
      runs the current merge or has refused it; every other node is torn down; and a mirror that was
      converging holds the accepted snapshot. */
  lemma CanAlwaysDeliver(bootstrap: string, run: seq<World>, steps: seq<Step>, i: nat) returns (end: World)
    requires IsRun(bootstrap, run, steps) && i < |run| && run[0].agg.accepted != ""
    ensures Reaches(bootstrap, run[i], end) && SameManaged(run[i], end)
    ensures end.bumps == 0 && !MirrorWork(end)
    ensures forall n :: n in end.nodes ==> IsResting(end.nodes[n]) && IsDelivered(end, n)
    ensures WatchingAndConverging(bootstrap, run[i]) ==> MirrorHoldsAccepted(bootstrap, end)
  {
    var accepted0 := run[0].agg.accepted;
    InvAlways(bootstrap, run, steps, i);
    MirrorInvAlways(bootstrap, run, steps, i);
    TextsAlways(bootstrap, run, steps, i);
    end := ComeToRest(bootstrap, accepted0, run[i]);
    forall n | n in end.nodes ensures IsResting(end.nodes[n]) && IsDelivered(end, n) {
      assert n !in Restless(end);
      RestIsDelivered(accepted0, end, n);
    }
    if WatchingAndConverging(bootstrap, run[i]) {
      StaysConvergingTo(bootstrap, run[i], end);
    }
  }
}
