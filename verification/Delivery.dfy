/** Config delivery as a transition system: informer events, the work queue, the reconcile
    workers with their push cache, the containers, and the boot mirror, interleaved step by
    step within one manager process. */
module Delivery {
  import opened Containers
  import opened Admin
  import Agg = Aggregator

  /** An entry of `pushState`; the digest is represented by the text. */
  datatype Record = Record(text: string, container: nat)

  datatype Verdict = DidLoad | WasRefused | NotStarted | NoMerge

  /** A pod with its started container, as `FindActivePod` returns it. */
  datatype Started = Started(pod: nat, container: nat)

  /** What one finished reconcile of a managed node had seen. */
  datatype Saw = Saw(found: Option<Started>, merged: Result<Agg.Snapshot, Agg.MergeError>, verdict: Verdict)

  /** The worker that holds a node key; `found` is the started container it found. */
  datatype Phase =
    | Idle
    | Taken                                         // Get returned the key
    | TearingDown                                   // the lister says: not managed
    | Deploying                                     // deployFn running
    | GotPod(found: Option<Started>)
    | GotSnapshot(found: Option<Started>, snapshot: Agg.Snapshot)
    | Pushing(target: Started, snapshot: Agg.Snapshot)
    | Pushed(target: Started, snapshot: Agg.Snapshot)   // loaded, not yet recorded
    | IsLoaded(target: Started, snapshot: Agg.Snapshot) // ensureLoaded returned true
    | OwesMirror(saw: Saw)                              // Accept returned true, queue.Add not yet
    | Finished(result: Option<Saw>)                     // before Done; None: error or teardown

  /** A pod of the node.  An inactive pod may still run its container until it is removed. */
  datatype CaddyPod = CaddyPod(isActive: bool, container: Option<nat>)

  /** A container's configuration, what it has refused, and its last successful load. */
  datatype Contents = Contents(running: string, refused: set<string>, lastLoad: Option<string>)

  /** One node: the lister's view, the key in the work queue, the worker, whether managed objects
      exist for it (Deployment, Service), the pods and the push record.  Pods are numbered in the
      order of `Pods.IsNewer`; the number also stands for the pod's address, which a later pod may
      get again.  `contents` keeps every container the node ever had; container IDs are never used
      twice. */
  datatype NodeRec = NodeRec(
    managed: bool,
    dirty: bool, delayed: bool, owed: nat, events: nat,
    phase: Phase, saw: Option<Saw>,
    hasObjects: bool, pods: map<nat, CaddyPod>, contents: map<nat, Contents>,
    record: Option<Record>)

  datatype MirrorPhase = MIdle | MTaken | MWriting(text: string, revision: nat) | MFinished

  /** The boot mirror: the live ConfigMap; the informer, with the changes it has not received
      yet, its store, and the notifications its handler has not handled yet (oldest first); and
      the mirror key in the work queue. */
  datatype MirrorRec = MirrorRec(
    live: Option<Mirror>,
    watching: bool, stream: seq<Option<Mirror>>, known: Option<Mirror>, events: seq<Option<Mirror>>,
    dirty: bool, delayed: bool, phase: MirrorPhase, published: seq<nat>)

  /** `bumps` counts calls of enqueueManagedNodes that have not listed the nodes yet. */
  datatype World = World(
    agg: Agg.State, nodes: map<string, NodeRec>, bumps: nat, nextContainer: nat,
    confirmed: set<string>, mirror: MirrorRec)

  datatype Act =
    | Get | Inspect | TearDown(isOk: bool) | Deploy(isOk: bool, hasWritten: bool) | ReadMerged | CheckRecord
    | Push(outcome: Outcome) | RecordPush | AcceptSnapshot | AddMirrorKey | Done
    | ExpireDelay | DeliverEvent | MergeEvents | DeliverOwed
    | ChangeManaged | LoseObjects
    | AddPod(pod: nat) | RetirePod(pod: nat) | RemovePod(pod: nat)
    | StartContainer(pod: nat, boot: string) | StopContainer(pod: nat)

  datatype MirrorAct =
    | FirstList | MGet | MRead | MWrite(isApplied: bool, isOk: bool) | MDone | MExpire
    | MEdit(mirror: Option<Mirror>) | MReceive | MRelist | MResync | MDeliver

  datatype Step =
    | OnNode(n: string, act: Act)
    | Change(op: Agg.Op)
    | ListManaged
    | ForceResync
    | OnMirror(mirrorAct: MirrorAct)

  // ----- Pods and containers -----

  predicate IsNewest(pods: map<nat, CaddyPod>, p: nat) {
    p in pods && pods[p].isActive && forall q :: q in pods && pods[q].isActive ==> q <= p
  }

  /** `FindActivePod`: the newest active pod, if its container has started. */
  function FindActivePod(pods: map<nat, CaddyPod>): Option<Started> {
    if exists p :: p in pods && IsNewest(pods, p) then
      var p :| p in pods && IsNewest(pods, p);
      if pods[p].container.Some? then Some(Started(p, pods[p].container.value)) else None
    else None
  }

  /** The container that now answers at the address of the pod that was found. */
  function Behind(pods: map<nat, CaddyPod>, target: Started): Option<nat> {
    if target.pod in pods then pods[target.pod].container else None
  }

  function ContentsOf(r: NodeRec, container: nat): Contents {
    if container in r.contents then r.contents[container] else Contents("", {}, None)
  }

  /** `pushUpToDate`. */
  predicate UpToDate(record: Option<Record>, text: string, found: Option<Started>) {
    found.Some? && record == Some(Record(text, found.value.container))
  }

  // ----- Node steps -----

  /** What a node step reads of the rest of the world. */
  datatype Env = Env(
    merged: Result<Agg.Snapshot, Agg.MergeError>, acceptedRevision: nat, nextContainer: nat, watching: bool)

  function EnvOf(w: World): Env {
    Env(Agg.Merged(w.agg), w.agg.acceptedRevision, w.nextContainer, w.mirror.watching)
  }

  predicate CanAct(env: Env, r: NodeRec, act: Act) {
    match act
    case Get => env.watching && r.dirty && r.phase.Idle?
    case Inspect => r.phase.Taken?
    case TearDown(_) => r.phase.TearingDown?
    case Deploy(isOk, hasWritten) =>
      // a held rollout writes nothing, because the cache shows a Deployment; if that is gone, the
      // informer has not handled its deletion yet or has queued the key for it
      r.phase.Deploying? && (isOk && !hasWritten ==> r.hasObjects || r.events > 0 || r.dirty)
    case ReadMerged => r.phase.GotPod?
    case CheckRecord => r.phase.GotSnapshot?
    case Push(outcome) => r.phase.Pushing? && (outcome.Failed? || Behind(r.pods, r.phase.target).Some?)
    case RecordPush => r.phase.Pushed?
    case AcceptSnapshot => r.phase.IsLoaded?
    case AddMirrorKey => r.phase.OwesMirror?
    case Done => r.phase.Finished?
    case ExpireDelay => r.delayed
    case DeliverEvent => r.events > 0
    case MergeEvents => r.events > 0
    case DeliverOwed => r.owed > 0
    case ChangeManaged => true
    case LoseObjects => r.hasObjects
    case AddPod(p) => p !in r.pods
    case RetirePod(p) => p in r.pods
    case RemovePod(p) => p in r.pods
    case StartContainer(p, _) => p in r.pods
    case StopContainer(p) => p in r.pods && r.pods[p].container.Some?
  }

  function NewRec(env: Env, r: NodeRec, act: Act): NodeRec
    requires CanAct(env, r, act)
  {
    match act
    case Get => r.(dirty := false, phase := Taken)
    case Inspect => r.(phase := if r.managed then Deploying else TearingDown)
    case TearDown(isOk) =>
      if isOk then r.(record := None, hasObjects := false, phase := Finished(None))
      else r.(delayed := true, phase := Finished(None))
    case Deploy(isOk, hasWritten) =>
      var written := r.(hasObjects := r.hasObjects || hasWritten);
      if isOk then written.(phase := GotPod(FindActivePod(r.pods)))
      else written.(delayed := true, phase := Finished(None))
    case ReadMerged =>
      r.(phase := if env.merged.Ok? then GotSnapshot(r.phase.found, env.merged.value)
                  else Finished(Some(Saw(r.phase.found, env.merged, NoMerge))))
    case CheckRecord =>
      var found, snapshot := r.phase.found, r.phase.snapshot;
      r.(phase := if UpToDate(r.record, snapshot.caddyfile, found) then IsLoaded(found.value, snapshot)
                  else if found.None? then Finished(Some(Saw(found, Ok(snapshot), NotStarted)))
                  else Pushing(found.value, snapshot))
    case Push(outcome) =>
      var target, snapshot := r.phase.target, r.phase.snapshot;
      if outcome.Failed? then r.(delayed := true, phase := Finished(None)) else
        var hit := Behind(r.pods, target).value;
        var was := ContentsOf(r, hit);
        if outcome.Loaded? then
          r.(contents := r.contents[hit := was.(running := snapshot.caddyfile, lastLoad := Some(snapshot.caddyfile))],
             phase := Pushed(target, snapshot))
        else
          r.(contents := r.contents[hit := was.(refused := was.refused + {snapshot.caddyfile})],
             phase := Finished(Some(Saw(Some(target), Ok(snapshot), WasRefused))))
    case RecordPush =>
      r.(record := Some(Record(r.phase.snapshot.caddyfile, r.phase.target.container)),
         phase := IsLoaded(r.phase.target, r.phase.snapshot))
    case AcceptSnapshot =>
      var saw := Saw(Some(r.phase.target), Ok(r.phase.snapshot), DidLoad);
      r.(phase := if env.acceptedRevision < r.phase.snapshot.revision then OwesMirror(saw) else Finished(Some(saw)))
    case AddMirrorKey => r.(phase := Finished(Some(r.phase.saw)))
    case Done => r.(phase := Idle, saw := r.phase.result)
    case ExpireDelay => r.(delayed := false, dirty := true)
    case DeliverEvent => r.(events := r.events - 1, dirty := true)
    case MergeEvents => r.(events := 1)
    case DeliverOwed => r.(owed := r.owed - 1, dirty := true)
    case ChangeManaged => r.(managed := !r.managed, events := r.events + 1)
    case LoseObjects => r.(hasObjects := false, events := r.events + 1)
    case AddPod(p) => r.(pods := r.pods[p := CaddyPod(true, None)], events := r.events + 1)
    case RetirePod(p) => r.(pods := r.pods[p := r.pods[p].(isActive := false)], events := r.events + 1)
    case RemovePod(p) => r.(pods := r.pods - {p}, events := r.events + 1)
    case StartContainer(p, boot) =>
      r.(pods := r.pods[p := r.pods[p].(container := Some(env.nextContainer))],
         contents := r.contents[env.nextContainer := Contents(boot, {}, None)], events := r.events + 1)
    case StopContainer(p) => r.(pods := r.pods[p := r.pods[p].(container := None)], events := r.events + 1)
  }

  // ----- Mirror steps -----

  predicate CanMirror(bootstrap: string, w: World, act: MirrorAct) {
    var m := w.mirror;
    match act
    case FirstList => !m.watching
    case MGet => m.watching && m.dirty && m.phase.MIdle?
    case MRead => m.phase.MTaken?
    case MWrite(isApplied, isOk) => m.phase.MWriting? && (isOk ==> isApplied)
    case MDone => m.phase.MFinished?
    case MExpire => m.delayed
    case MEdit(_) => true
    case MReceive => m.stream != []
    case MRelist => m.watching
    case MResync => m.known.Some?
    case MDeliver => m.events != []
  }

  /** A change of the ConfigMap reaches a watching informer later, or is skipped by a relist; an
      apply that changes nothing is no change. */
  function SetLive(m: MirrorRec, live: Option<Mirror>): MirrorRec {
    m.(live := live, stream := if m.watching && live != m.live then m.stream + [live] else m.stream)
  }

  /** A list replaces the informer's store.  It notifies of the object it found, and of a
      deletion only if the store held the object. */
  function Listed(m: MirrorRec): MirrorRec {
    m.(watching := true, stream := [], known := m.live,
       events := if m.live.Some? || m.known.Some? then m.events + [m.live] else m.events)
  }

  function NewMirror(bootstrap: string, w: World, act: MirrorAct): MirrorRec
    requires CanMirror(bootstrap, w, act)
  {
    var m := w.mirror;
    match act
    case FirstList => Listed(m)
    case MGet => m.(dirty := false, phase := MTaken)
    case MRead =>
      // PublishMirror refuses to publish before initialization
      if w.agg.accepted == "" then m.(delayed := true, phase := MFinished)
      else m.(phase := MWriting(w.agg.accepted, w.agg.acceptedRevision))
    case MWrite(isApplied, isOk) =>
      var written := SetLive(m, Some(Published(bootstrap, m.phase.text)));
      var sent := if isApplied then written.(published := m.published + [m.phase.revision]) else m;
      sent.(phase := MFinished, delayed := if isOk then m.delayed else true)
    case MDone => m.(phase := MIdle)
    case MExpire => m.(delayed := false, dirty := true)
    case MEdit(mirror) => SetLive(m, mirror)
    case MReceive => m.(stream := m.stream[1..], known := m.stream[0], events := m.events + [m.stream[0]])
    case MRelist => if m.stream == [] then m else Listed(m)  // an unchanged object is not notified
    case MResync => m.(events := m.events + [m.known])
    case MDeliver =>
      var isCurrent := m.events[0].Some? && IsMirrorCurrent(bootstrap, w.agg.accepted, m.events[0].value);
      m.(events := m.events[1..], dirty := m.dirty || !isCurrent)
  }

  // ----- All steps -----

  predicate Enabled(bootstrap: string, w: World, step: Step) {
    match step
    case OnNode(n, act) => n in w.nodes && CanAct(EnvOf(w), w.nodes[n], act)
    case Change(op) => !op.Accept?
    case ListManaged => w.bumps > 0
    case ForceResync => true
    case OnMirror(act) => CanMirror(bootstrap, w, act)
  }

  function Do(bootstrap: string, w: World, step: Step): World
    requires Enabled(bootstrap, w, step)
  {
    match step
    case OnNode(n, act) =>
      var r := w.nodes[n];
      w.(nodes := w.nodes[n := NewRec(EnvOf(w), r, act)],
         agg := if act.AcceptSnapshot? then Agg.Update(w.agg, Agg.Accept(r.phase.snapshot)) else w.agg,
         confirmed := if act == Push(Loaded) then w.confirmed + {r.phase.snapshot.caddyfile} else w.confirmed,
         nextContainer := if act.StartContainer? then w.nextContainer + 1 else w.nextContainer,
         mirror := if act.AddMirrorKey? then w.mirror.(dirty := true) else w.mirror)
    case Change(op) =>
      var agg := Agg.Update(w.agg, op);
      w.(agg := agg, bumps := if agg.revision > w.agg.revision then w.bumps + 1 else w.bumps)
    case ListManaged =>
      w.(bumps := w.bumps - 1,
         nodes := map n | n in w.nodes ::
                    if w.nodes[n].managed then w.nodes[n].(owed := w.nodes[n].owed + 1) else w.nodes[n])
    case ForceResync =>
      w.(bumps := w.bumps + 1, nodes := map n | n in w.nodes :: w.nodes[n].(record := None))
    case OnMirror(act) => w.(mirror := NewMirror(bootstrap, w, act))
  }

  /** The moment InitializeMirror has returned: nothing is queued, and the informers owe an event
      for every managed node and for every node with managed objects.  The mirror may since have been edited. */
  ghost predicate Init(w: World) {
    && Agg.Counted(w.agg) && w.agg.acceptedRevision == 0 && w.bumps == 0 && w.confirmed == {}
    && w.mirror == MirrorRec(w.mirror.live, false, [], None, [], false, false, MIdle, [])
    && forall n :: n in w.nodes ==>
         var r := w.nodes[n];
         && r.phase.Idle? && !r.dirty && !r.delayed && r.owed == 0 && r.record.None? && r.saw.None?
         && (r.managed || r.hasObjects ==> r.events > 0)
         && DistinctContainers(w.nextContainer, r.pods)
         && (forall c :: c in r.contents ==> c < w.nextContainer && r.contents[c].lastLoad.None?)
  }

  /** No two pods share a container, and all IDs have been issued. */
  ghost predicate DistinctContainers(nextContainer: nat, pods: map<nat, CaddyPod>) {
    && (forall p :: p in pods && pods[p].container.Some? ==> pods[p].container.value < nextContainer)
    && (forall p, q :: p in pods && q in pods && pods[p].container.Some? && pods[p].container == pods[q].container ==>
          p == q)
  }

  /** The i-th step can be taken and leads to the next world. */
  ghost predicate IsStep(bootstrap: string, run: seq<World>, steps: seq<Step>, i: int) {
    && 0 <= i < |steps| && |run| == |steps| + 1
    && Enabled(bootstrap, run[i], steps[i]) && run[i + 1] == Do(bootstrap, run[i], steps[i])
  }

  ghost predicate IsRun(bootstrap: string, run: seq<World>, steps: seq<Step>) {
    && |run| == |steps| + 1
    && Init(run[0])
    && forall i :: 0 <= i < |steps| ==> IsStep(bootstrap, run, steps, i)
  }

  lemma Extend(bootstrap: string, run: seq<World>, steps: seq<Step>, step: Step, w: World)
    requires IsRun(bootstrap, run, steps) && Enabled(bootstrap, run[|steps|], step)
    requires w == Do(bootstrap, run[|steps|], step)
    ensures IsRun(bootstrap, run + [w], steps + [step])
  {
    var run', steps' := run + [w], steps + [step];
    forall i | 0 <= i < |steps'| ensures IsStep(bootstrap, run', steps', i) {
      assert i < |steps| ==> IsStep(bootstrap, run, steps, i);
    }
  }

  // ----- The push cache as the code keeps it -----

  /** CheckRecord, then Push and RecordPush where they apply. */
  function Ensured(bootstrap: string, w: World, node: string, outcome: Outcome): World
    requires node in w.nodes && w.nodes[node].phase.GotSnapshot? && CanReach(w.nodes[node], outcome)
  {
    var checked := Do(bootstrap, w, OnNode(node, CheckRecord));
    if !checked.nodes[node].phase.Pushing? then checked else
      var pushed := Do(bootstrap, checked, OnNode(node, Push(outcome)));
      if !pushed.nodes[node].phase.Pushed? then pushed else Do(bootstrap, pushed, OnNode(node, RecordPush))
  }

  /** Only a container behind the pod's address can load or refuse a text. */
  predicate CanReach(r: NodeRec, outcome: Outcome)
    requires r.phase.GotSnapshot?
  {
    outcome.Failed? || (r.phase.found.Some? ==> Behind(r.pods, r.phase.found.value).Some?)
  }

  /** Up to date or nothing started: no push. */
  lemma EnsuredUnpushed(bootstrap: string, w: World, node: string, outcome: Outcome)
    requires node in w.nodes && w.nodes[node].phase.GotSnapshot? && CanReach(w.nodes[node], outcome)
    requires var r := w.nodes[node];
             UpToDate(r.record, r.phase.snapshot.caddyfile, r.phase.found) || r.phase.found.None?
    ensures SameRecords(w, Ensured(bootstrap, w, node, outcome))
    ensures var found, snapshot := w.nodes[node].phase.found, w.nodes[node].phase.snapshot;
            Ensured(bootstrap, w, node, outcome).nodes[node].phase ==
            if found.Some? then IsLoaded(found.value, snapshot)
            else Finished(Some(Saw(found, Ok(snapshot), NotStarted)))
  {
    var checked := Do(bootstrap, w, OnNode(node, CheckRecord));
    assert !checked.nodes[node].phase.Pushing?;
  }

  /** A refused or failed push leaves the records alone. */
  lemma EnsuredInVain(bootstrap: string, w: World, node: string, outcome: Outcome)
    requires node in w.nodes && w.nodes[node].phase.GotSnapshot? && CanReach(w.nodes[node], outcome) && !outcome.Loaded?
    requires var r := w.nodes[node];
             r.phase.found.Some? && !UpToDate(r.record, r.phase.snapshot.caddyfile, r.phase.found)
    ensures SameRecords(w, Ensured(bootstrap, w, node, outcome))
    ensures var found, snapshot := w.nodes[node].phase.found, w.nodes[node].phase.snapshot;
            Ensured(bootstrap, w, node, outcome).nodes[node].phase ==
            Finished(if outcome.Rejected? then Some(Saw(found, Ok(snapshot), WasRefused)) else None)
  {
    var checked := Do(bootstrap, w, OnNode(node, CheckRecord));
    var r := w.nodes[node];
    assert checked.nodes[node] == r.(phase := Pushing(r.phase.found.value, r.phase.snapshot));
    var pushed := Do(bootstrap, checked, OnNode(node, Push(outcome)));
    assert !pushed.nodes[node].phase.Pushed?;
  }

  predicate SameRecords(w: World, end: World) {
    end.nodes.Keys == w.nodes.Keys && forall n :: n in w.nodes ==> end.nodes[n].record == w.nodes[n].record
  }

  /** A load that succeeded is recorded. */
  lemma EnsuredByLoad(bootstrap: string, w: World, node: string)
    requires node in w.nodes && w.nodes[node].phase.GotSnapshot? && CanReach(w.nodes[node], Loaded)
    requires var r := w.nodes[node];
             r.phase.found.Some? && !UpToDate(r.record, r.phase.snapshot.caddyfile, r.phase.found)
    ensures var checked := Do(bootstrap, w, OnNode(node, CheckRecord));
            && Enabled(bootstrap, checked, OnNode(node, Push(Loaded)))
            && var pushed := Do(bootstrap, checked, OnNode(node, Push(Loaded)));
               && SameRecords(w, pushed)
               && pushed.nodes[node].phase == Pushed(w.nodes[node].phase.found.value, w.nodes[node].phase.snapshot)
               && Ensured(bootstrap, w, node, Loaded) == Do(bootstrap, pushed, OnNode(node, RecordPush))
  {
  }

  /** The in-memory `pushState` map. */
  class PushState {
    var records: map<string, Record>

    function For(node: string): Option<Record>
      reads this
    {
      if node in records then Some(records[node]) else None
    }

    /** The map holds exactly the records of the transition system. */
    ghost predicate Represents(w: World)
      reads this
    {
      records.Keys <= w.nodes.Keys && forall n :: n in w.nodes ==> For(n) == w.nodes[n].record
    }

    constructor (ghost w: World)
      requires Init(w)
      ensures Represents(w)
    {
      records := map[];
    }

    method RecordPush(node: string, text: string, container: nat, ghost bootstrap: string, ghost w: World)
      requires Represents(w) && Enabled(bootstrap, w, OnNode(node, Act.RecordPush))
      requires w.nodes[node].phase.snapshot.caddyfile == text && w.nodes[node].phase.target.container == container
      modifies this
      ensures Represents(Do(bootstrap, w, OnNode(node, Act.RecordPush)))
    {
      records := records[node := Record(text, container)];
    }

    method ClearPushState(node: string, ghost bootstrap: string, ghost w: World)
      requires Represents(w) && Enabled(bootstrap, w, OnNode(node, TearDown(true)))
      modifies this
      ensures Represents(Do(bootstrap, w, OnNode(node, TearDown(true))))
    {
      records := records - {node};
    }

    method ForceConfigResync(ghost bootstrap: string, ghost w: World)
      requires Represents(w)
      modifies this
      ensures Represents(Do(bootstrap, w, ForceResync))
    {
      records := map[];
    }

    /** `ensureLoaded`, without interleaving, is the steps CheckRecord, Push and RecordPush of
        the transition system in a row: the same end of the phase and the same records. */
    method EnsureLoaded(node: string, found: Option<Started>, snapshot: Agg.Snapshot, outcome: Outcome,
                        ghost bootstrap: string, ghost w: World) returns (phase: Phase)
      requires Represents(w) && node in w.nodes && w.nodes[node].phase == GotSnapshot(found, snapshot)
      requires CanReach(w.nodes[node], outcome)
      modifies this
      ensures Represents(Ensured(bootstrap, w, node, outcome))
      ensures phase == Ensured(bootstrap, w, node, outcome).nodes[node].phase
    {
      if found.Some? && For(node) == Some(Record(snapshot.caddyfile, found.value.container)) {
        EnsuredUnpushed(bootstrap, w, node, outcome);
        return IsLoaded(found.value, snapshot);
      }
      if found.None? {
        EnsuredUnpushed(bootstrap, w, node, outcome);
        return Finished(Some(Saw(found, Ok(snapshot), NotStarted)));
      }
      match outcome
      case Rejected =>
        EnsuredInVain(bootstrap, w, node, outcome);
        return Finished(Some(Saw(found, Ok(snapshot), WasRefused)));
      case Failed =>
        EnsuredInVain(bootstrap, w, node, outcome);
        return Finished(None);
      case Loaded =>
        EnsuredByLoad(bootstrap, w, node);
        ghost var checked := Do(bootstrap, w, OnNode(node, CheckRecord));
        ghost var pushed := Do(bootstrap, checked, OnNode(node, Push(Loaded)));
        RecordPush(node, snapshot.caddyfile, found.value.container, bootstrap, pushed);
        return IsLoaded(found.value, snapshot);
    }
  }
}
