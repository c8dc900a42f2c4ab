/** Runs of config delivery in which the expected guarantees fail. */
module DeliveryScenes {
  import opened Containers
  import opened Admin
  import opened GoText
  import opened Delivery
  import opened DeliveryTheorems
  import opened MirrorTheorems
  import Agg = Aggregator

  // ----- A mirror deleted where the informer does not look -----

  lemma InitMirror(w: World)
    requires Init(w)
    ensures MirrorInv(w) && !Queued(w) && !w.mirror.watching
  {
  }

  /** From every start, a mirror deleted between InitializeMirror and the first list is never
      reported, and nothing is queued to restore it: the first list does not see. */
  lemma DeletedBeforeFirstList(bootstrap: string, start: World)
    requires Init(start)
    ensures var deleted := Do(bootstrap, start, OnMirror(MEdit(None)));
            var listed := Do(bootstrap, deleted, OnMirror(FirstList));
            && IsRun(bootstrap, [start, deleted, listed], [OnMirror(MEdit(None)), OnMirror(FirstList)])
            && !ListSees(deleted) && listed.mirror.live.None? && !MirrorWork(listed)
  {
    var deleted := Do(bootstrap, start, OnMirror(MEdit(None)));
    InitMirror(start);
    MirrorInvStep(bootstrap, start, OnMirror(MEdit(None)));
    OwesKept(bootstrap, start, OnMirror(MEdit(None)));
    BlindList(bootstrap, deleted, OnMirror(FirstList));
    var run := [start, deleted, Do(bootstrap, deleted, OnMirror(FirstList))];
    var steps := [OnMirror(MEdit(None)), OnMirror(FirstList)];
    assert IsStep(bootstrap, run, steps, 0) && IsStep(bootstrap, run, steps, 1);
  }

  /** One mirror act of a run that changes nothing but the mirror. */
  lemma MirrorTo(
    bootstrap: string, start: World, run: seq<World>, steps: seq<Step>, m: MirrorRec, act: MirrorAct, m': MirrorRec)
    returns (run': seq<World>, steps': seq<Step>)
    requires StartedAs(bootstrap, start, run, steps, m)
    requires CanMirror(bootstrap, start.(mirror := m), act) && m' == NewMirror(bootstrap, start.(mirror := m), act)
    ensures StartedAs(bootstrap, start, run', steps', m') && steps' == steps + [OnMirror(act)]
    ensures run' == run + [start.(mirror := m')]
  {
    Extend(bootstrap, run, steps, OnMirror(act), start.(mirror := m'));
    run', steps' := run + [start.(mirror := m')], steps + [OnMirror(act)];
  }

  /** The run has led from the start to the same world with another mirror. */
  ghost predicate StartedAs(bootstrap: string, start: World, run: seq<World>, steps: seq<Step>, m: MirrorRec) {
    && IsRun(bootstrap, run, steps) && run[0] == start && run[|steps|] == start.(mirror := m)
  }

  function Reported(start: MirrorRec): MirrorRec {
    start.(watching := true, live := None, known := None, stream := [], events := [], dirty := true)
  }

  function Restored(bootstrap: string, accepted: string): MirrorRec {
    var mirror := Some(Published(bootstrap, accepted));
    MirrorRec(mirror, true, [mirror], None, [], false, false, MIdle, [0])
  }

  /** The mirror is deleted, and the informer receives and handles the deletion. */
  lemma DeletionReported(bootstrap: string, start: World) returns (run: seq<World>, steps: seq<Step>)
    requires Init(start) && start.mirror.live.Some?
    ensures StartedAs(bootstrap, start, run, steps, Reported(start.mirror)) && |steps| > 0
    ensures steps[0] == OnMirror(FirstList)
  {
    var m0 := start.mirror;
    var m1 := m0.(watching := true, known := m0.live, events := [m0.live]);
    var m2 := m1.(live := None, stream := [None]);
    var m3 := m2.(stream := [], known := None, events := [m0.live, None]);
    var m4 := NewMirror(bootstrap, start.(mirror := m3), MDeliver);
    run, steps := DeletedOnce(bootstrap, start, m1, m2);
    run, steps := MirrorTo(bootstrap, start, run, steps, m2, MReceive, m3);
    run, steps := MirrorTo(bootstrap, start, run, steps, m3, MDeliver, m4);
    run, steps := MirrorTo(bootstrap, start, run, steps, m4, MDeliver, Reported(m0));
  }

  lemma DeletedOnce(bootstrap: string, start: World, m1: MirrorRec, m2: MirrorRec)
    returns (run: seq<World>, steps: seq<Step>)
    requires Init(start) && start.mirror.live.Some?
    requires m1 == start.mirror.(watching := true, known := start.mirror.live, events := [start.mirror.live])
    requires m2 == m1.(live := None, stream := [None])
    ensures StartedAs(bootstrap, start, run, steps, m2) && |steps| > 0 && steps[0] == OnMirror(FirstList)
  {
    assert start.(mirror := start.mirror) == start;
    assert IsRun(bootstrap, [start], []);
    run, steps := MirrorTo(bootstrap, start, [start], [], start.mirror, FirstList, m1);
    run, steps := MirrorTo(bootstrap, start, run, steps, m1, MEdit(None), m2);
  }

  /** The worker publishes it again. */
  lemma PublishedAgain(bootstrap: string, start: World, run0: seq<World>, steps0: seq<Step>)
    returns (run: seq<World>, steps: seq<Step>)
    requires Init(start) && start.agg.accepted != ""
    requires StartedAs(bootstrap, start, run0, steps0, Reported(start.mirror))
    ensures StartedAs(bootstrap, start, run, steps, Restored(bootstrap, start.agg.accepted)) && steps0 <= steps
  {
    var accepted, m5 := start.agg.accepted, Reported(start.mirror);
    var m6 := m5.(dirty := false, phase := MTaken);
    var m7 := m6.(phase := MWriting(accepted, 0));
    var m9 := Restored(bootstrap, accepted);
    run, steps := MirrorTo(bootstrap, start, run0, steps0, m5, MGet, m6);
    run, steps := MirrorTo(bootstrap, start, run, steps, m6, MRead, m7);
    run, steps := MirrorTo(bootstrap, start, run, steps, m7, MWrite(true, true), m9.(phase := MFinished));
    run, steps := MirrorTo(bootstrap, start, run, steps, m9.(phase := MFinished), MDone, m9);
  }

  /** From every start with a mirror, also a relist can miss a deletion: the mirror is deleted,
      the deletion is reported, the worker publishes it again, and it is deleted once more before
      the informer received that.  The relist skips both changes, its store holds nothing, and
      the mirror is lost with nothing queued. */
  lemma DeletedBeforeRelist(bootstrap: string, start: World) returns (run: seq<World>, steps: seq<Step>)
    requires Init(start) && start.mirror.live.Some? && start.agg.accepted != ""
    ensures IsRun(bootstrap, run, steps) && run[0] == start && |steps| > 0
    ensures steps[0] == OnMirror(FirstList) && ListSees(start) && steps[|steps| - 1] == OnMirror(MRelist)
    ensures !ListSees(run[|steps| - 1]) && run[|steps|].mirror.live.None? && !MirrorWork(run[|steps|])
  {
    run, steps := DeletionReported(bootstrap, start);
    run, steps := PublishedAgain(bootstrap, start, run, steps);
    run, steps := LostAgain(bootstrap, start, run, steps);
  }

  lemma LostAgain(bootstrap: string, start: World, run0: seq<World>, steps0: seq<Step>)
    returns (run: seq<World>, steps: seq<Step>)
    requires Init(start) && StartedAs(bootstrap, start, run0, steps0, Restored(bootstrap, start.agg.accepted))
    ensures IsRun(bootstrap, run, steps) && run[0] == start
    ensures steps == steps0 + [OnMirror(MEdit(None)), OnMirror(MRelist)]
    ensures !ListSees(run[|steps| - 1]) && run[|steps|].mirror.live.None? && !MirrorWork(run[|steps|])
  {
    var m := Restored(bootstrap, start.agg.accepted);
    var gone := m.(live := None, stream := m.stream + [None]);
    run, steps := MirrorTo(bootstrap, start, run0, steps0, m, MEdit(None), gone);
    run, steps := MirrorTo(bootstrap, start, run, steps, gone, MRelist, gone.(stream := []));
    InitMirror(start);
    assert SomeoneOwes(start.(mirror := gone)) == SomeoneOwes(start);
    assert SomeoneOwes(start.(mirror := gone.(stream := []))) == SomeoneOwes(start);
  }

  // ----- A container replaced between the lookup and the push -----

  const AGG := Agg.State("", true, map[], 1, "x", 0)
  const SNAPSHOT := Agg.Snapshot("\n", 1)
  const FOUND := Started(0, 0)

  lemma SceneMerge()
    ensures Agg.Counted(AGG) && Agg.Merged(AGG) == Ok(SNAPSHOT)
  {
    assert Agg.Fragments(map[]) == map[];
    var none: map<string, string> := map[];
    assert none.Keys == {};
    assert Agg.MergedText("", none) == "\n";
    assert ByteLen("\n") == 1;
  }

  /** One managed node with one started pod. */
  function SceneNode(phase: Phase): NodeRec {
    NodeRec(true, false, false, 0, 0, phase, None, true,
            map[0 := CaddyPod(true, Some(0))], map[0 := Contents("", {}, None)], None)
  }

  function Scene(r: NodeRec, watching: bool, nextContainer: nat, confirmed: set<string>): World {
    World(AGG, map["n" := r], 0, nextContainer, confirmed,
          MirrorRec(None, watching, [], None, [], false, false, MIdle, []))
  }

  lemma SceneFinds()
    ensures FindActivePod(map[0 := CaddyPod(true, Some(0))]) == Some(FOUND)
  {
    var pods: map<nat, CaddyPod> := map[0 := CaddyPod(true, Some(0))];
    assert IsNewest(pods, 0);
  }

  /** A successful act on the scene's node. */
  lemma SceneAct(bootstrap: string, run: seq<World>, steps: seq<Step>, act: Act, r: NodeRec, r': NodeRec,
                 next: nat, confirmed: set<string>)
    returns (run': seq<World>, steps': seq<Step>)
    requires IsRun(bootstrap, run, steps) && run[|steps|] == Scene(r, true, next, confirmed)
    requires CanAct(EnvOf(Scene(r, true, next, confirmed)), r, act) && !act.AcceptSnapshot? && !act.AddMirrorKey?
    requires r' == NewRec(EnvOf(Scene(r, true, next, confirmed)), r, act)
    ensures IsRun(bootstrap, run', steps') && steps' == steps + [OnNode("n", act)] && run[0] == run'[0]
    ensures run'[|steps'|] ==
            Scene(r', true, if act.StartContainer? then next + 1 else next,
                  if act == Push(Loaded) then confirmed + {r.phase.snapshot.caddyfile} else confirmed)
  {
    var w := Do(bootstrap, run[|steps|], OnNode("n", act));
    Extend(bootstrap, run, steps, OnNode("n", act), w);
    run', steps' := run + [w], steps + [OnNode("n", act)];
    assert w.nodes == map["n" := r'];
  }

  lemma SceneStart(bootstrap: string) returns (run: seq<World>, steps: seq<Step>)
    ensures IsRun(bootstrap, run, steps) && run[|steps|] == Scene(SceneNode(Idle).(events := 1), true, 1, {})
  {
    SceneMerge();
    var w := Scene(SceneNode(Idle).(events := 1), false, 1, {});
    assert IsRun(bootstrap, [w], []);
    Extend(bootstrap, [w], [], OnMirror(FirstList), Scene(SceneNode(Idle).(events := 1), true, 1, {}));
    run, steps := [w] + [Scene(SceneNode(Idle).(events := 1), true, 1, {})], [] + [OnMirror(FirstList)];
  }

  /** The worker has found container 0 and read the snapshot. */
  lemma SceneReads(bootstrap: string) returns (run: seq<World>, steps: seq<Step>)
    ensures IsRun(bootstrap, run, steps)
    ensures run[|steps|] == Scene(SceneNode(GotSnapshot(Some(FOUND), SNAPSHOT)), true, 1, {})
  {
    SceneMerge();
    SceneFinds();
    run, steps := SceneStart(bootstrap);
    var r := SceneNode(Idle);
    run, steps := SceneAct(bootstrap, run, steps, DeliverEvent, r.(events := 1), r.(dirty := true), 1, {});
    run, steps := SceneAct(bootstrap, run, steps, Get, r.(dirty := true), r.(phase := Taken), 1, {});
    run, steps := SceneAct(bootstrap, run, steps, Inspect, r.(phase := Taken), r.(phase := Deploying), 1, {});
    run, steps := SceneAct(bootstrap, run, steps, Deploy(true, false), r.(phase := Deploying),
                           r.(phase := GotPod(Some(FOUND))), 1, {});
    run, steps := SceneAct(bootstrap, run, steps, ReadMerged, r.(phase := GotPod(Some(FOUND))),
                           r.(phase := GotSnapshot(Some(FOUND), SNAPSHOT)), 1, {});
  }

  const PUSHING := SceneNode(Pushing(FOUND, SNAPSHOT))
  const REPLACED := PUSHING.(pods := PUSHING.pods[0 := CaddyPod(true, Some(1))],
                             contents := PUSHING.contents[1 := Contents("", {}, None)], events := 1)
  const PUSHED := REPLACED.(contents := REPLACED.contents[1 := Contents("\n", {}, Some("\n"))],
                            phase := Pushed(FOUND, SNAPSHOT))
  const RECORDED := PUSHED.(record := Some(Record("\n", 0)), phase := IsLoaded(FOUND, SNAPSHOT))

  lemma SceneReplaces(bootstrap: string) returns (run: seq<World>, steps: seq<Step>)
    ensures IsRun(bootstrap, run, steps) && run[|steps|] == Scene(REPLACED, true, 2, {})
  {
    run, steps := SceneReads(bootstrap);
    run, steps := SceneAct(bootstrap, run, steps, CheckRecord, SceneNode(GotSnapshot(Some(FOUND), SNAPSHOT)),
                           PUSHING, 1, {});
    run, steps := SceneAct(bootstrap, run, steps, StartContainer(0, ""), PUSHING, REPLACED, 1, {});
  }

  /** A run whose push record names a text its container never loaded: the container was
      restarted in place, behind the same address, after the lookup and before the push. */
  lemma RecordOfReplacedContainer(bootstrap: string) returns (run: seq<World>, steps: seq<Step>)
    ensures IsRun(bootstrap, run, steps)
    ensures var w := run[|steps|];
            && "n" in w.nodes && w.nodes["n"].record == Some(Record("\n", 0)) && !w.nodes["n"].phase.Pushed?
            && LastLoad(w.nodes["n"], 0) == None && LastLoad(w.nodes["n"], 1) == Some("\n") && !IsTruthful(w.nodes["n"])
  {
    run, steps := SceneReplaces(bootstrap);
    run, steps := ScenePushes(bootstrap, run, steps);
    run, steps := SceneAct(bootstrap, run, steps, RecordPush, PUSHED, RECORDED, 2, {"\n"});
  }

  lemma ScenePushes(bootstrap: string, run0: seq<World>, steps0: seq<Step>) returns (run: seq<World>, steps: seq<Step>)
    requires IsRun(bootstrap, run0, steps0) && run0[|steps0|] == Scene(REPLACED, true, 2, {})
    ensures IsRun(bootstrap, run, steps) && run[|steps|] == Scene(PUSHED, true, 2, {"\n"})
  {
    run, steps := SceneAct(bootstrap, run0, steps0, Push(Loaded), REPLACED, PUSHED, 2, {});
  }

  // ----- The moment between a load and its recording -----

  /** A run of the one-node scene, up to what its node and its aggregator are. */
  ghost predicate Ends(bootstrap: string, run: seq<World>, steps: seq<Step>, agg: Agg.State, bumps: nat, r: NodeRec) {
    && IsRun(bootstrap, run, steps)
    && var w := run[|steps|];
       w.agg == agg && w.nodes == map["n" := r] && w.bumps == bumps && w.nextContainer == 1 && w.mirror.watching
  }

  function SceneEnv(agg: Agg.State): Env {
    Env(Agg.Merged(agg), agg.acceptedRevision, 1, true)
  }

  lemma ActEnds(bootstrap: string, run: seq<World>, steps: seq<Step>, agg: Agg.State, r: NodeRec, act: Act, r': NodeRec)
    returns (run': seq<World>, steps': seq<Step>)
    requires Ends(bootstrap, run, steps, agg, 0, r)
    requires CanAct(SceneEnv(agg), r, act) && !act.StartContainer? && !act.AcceptSnapshot?
    requires r' == NewRec(SceneEnv(agg), r, act)
    ensures Ends(bootstrap, run', steps', agg, 0, r')
  {
    var w := Do(bootstrap, run[|steps|], OnNode("n", act));
    Extend(bootstrap, run, steps, OnNode("n", act), w);
    run', steps' := run + [w], steps + [OnNode("n", act)];
    assert w.nodes == map["n" := r'];
  }

  const LOADED := Contents("\n", {}, Some("\n"))
  const SAW := Saw(Some(FOUND), Ok(SNAPSHOT), DidLoad)
  const RECORD := Some(Record("\n", 0))
  const ACCEPTED := AGG.(accepted := "\n", acceptedRevision := 1)
  const CHANGED := ACCEPTED.(base := "B", revision := 2)
  const NEXT_SNAPSHOT := Agg.Snapshot("B\n", 2)

  function LoadedNode(phase: Phase): NodeRec {
    SceneNode(phase).(contents := map[0 := LOADED], record := RECORD)
  }

  /** Container 0 has loaded and recorded the first text. */
  lemma FirstLoad(bootstrap: string) returns (run: seq<World>, steps: seq<Step>)
    ensures Ends(bootstrap, run, steps, AGG, 0, LoadedNode(IsLoaded(FOUND, SNAPSHOT)))
  {
    SceneMerge();
    run, steps := SceneReads(bootstrap);
    var r := SceneNode(GotSnapshot(Some(FOUND), SNAPSHOT));
    var pushed := SceneNode(Pushed(FOUND, SNAPSHOT)).(contents := map[0 := LOADED]);
    run, steps := ActEnds(bootstrap, run, steps, AGG, r, CheckRecord, SceneNode(Pushing(FOUND, SNAPSHOT)));
    run, steps := ActEnds(bootstrap, run, steps, AGG, SceneNode(Pushing(FOUND, SNAPSHOT)), Push(Loaded), pushed);
    run, steps := ActEnds(bootstrap, run, steps, AGG, pushed, RecordPush, LoadedNode(IsLoaded(FOUND, SNAPSHOT)));
  }

  lemma FirstAccepted(bootstrap: string) returns (run: seq<World>, steps: seq<Step>)
    ensures Ends(bootstrap, run, steps, ACCEPTED, 0, LoadedNode(OwesMirror(SAW)))
  {
    run, steps := FirstLoad(bootstrap);
    var w := Do(bootstrap, run[|steps|], OnNode("n", AcceptSnapshot));
    Extend(bootstrap, run, steps, OnNode("n", AcceptSnapshot), w);
    run, steps := run + [w], steps + [OnNode("n", AcceptSnapshot)];
    assert w.nodes == map["n" := LoadedNode(OwesMirror(SAW))] && w.agg == ACCEPTED;
  }

  /** The snapshot is accepted and the worker is done. */
  lemma FirstDone(bootstrap: string) returns (run: seq<World>, steps: seq<Step>)
    ensures Ends(bootstrap, run, steps, ACCEPTED, 0, LoadedNode(Idle).(saw := Some(SAW)))
  {
    run, steps := FirstAccepted(bootstrap);
    run, steps := ActEnds(bootstrap, run, steps, ACCEPTED, LoadedNode(OwesMirror(SAW)), AddMirrorKey,
                          LoadedNode(Finished(Some(SAW))));
    run, steps := ActEnds(bootstrap, run, steps, ACCEPTED, LoadedNode(Finished(Some(SAW))), Done,
                          LoadedNode(Idle).(saw := Some(SAW)));
  }

  /** The base changes, and the node is owed an enqueue. */
  lemma BaseChanges(bootstrap: string) returns (run: seq<World>, steps: seq<Step>)
    ensures Ends(bootstrap, run, steps, CHANGED, 0, LoadedNode(Idle).(saw := Some(SAW), owed := 1))
  {
    run, steps := FirstDone(bootstrap);
    var change := Change(Agg.UpdateBase("B"));
    var w := Do(bootstrap, run[|steps|], change);
    Extend(bootstrap, run, steps, change, w);
    run, steps := run + [w], steps + [change];
    assert Ends(bootstrap, run, steps, CHANGED, 1, LoadedNode(Idle).(saw := Some(SAW)));
    var listed := Do(bootstrap, w, ListManaged);
    Extend(bootstrap, run, steps, ListManaged, listed);
    run, steps := run + [listed], steps + [ListManaged];
    assert listed.nodes == map["n" := LoadedNode(Idle).(saw := Some(SAW), owed := 1)];
  }

  lemma ChangedMerge()
    ensures Agg.Merged(CHANGED) == Ok(NEXT_SNAPSHOT)
  {
    assert Agg.Fragments(map[]) == map[];
    var none: map<string, string> := map[];
    assert none.Keys == {};
    assert Agg.MergedText("B", none) == "B\n";
    assert ByteLen("B\n") == 2;
  }

  lemma SecondRead(bootstrap: string) returns (run: seq<World>, steps: seq<Step>)
    ensures Ends(bootstrap, run, steps, CHANGED, 0,
                 LoadedNode(GotSnapshot(Some(FOUND), NEXT_SNAPSHOT)).(saw := Some(SAW)))
  {
    ChangedMerge();
    SceneFinds();
    run, steps := BaseChanges(bootstrap);
    var r := LoadedNode(Idle).(saw := Some(SAW));
    run, steps := ActEnds(bootstrap, run, steps, CHANGED, r.(owed := 1), DeliverOwed, r.(dirty := true));
    run, steps := ActEnds(bootstrap, run, steps, CHANGED, r.(dirty := true), Get, r.(phase := Taken));
    run, steps := ActEnds(bootstrap, run, steps, CHANGED, r.(phase := Taken), Inspect, r.(phase := Deploying));
    run, steps := ActEnds(bootstrap, run, steps, CHANGED, r.(phase := Deploying), Deploy(true, false),
                          r.(phase := GotPod(Some(FOUND))));
    run, steps := ActEnds(bootstrap, run, steps, CHANGED, r.(phase := GotPod(Some(FOUND))), ReadMerged,
                          r.(phase := GotSnapshot(Some(FOUND), NEXT_SNAPSHOT)));
  }

  /** A run in which a record is untruthful although its container is still there: the container
      has loaded the next text, and the worker has not recorded that yet. */
  lemma UnrecordedLoadRun(bootstrap: string) returns (run: seq<World>, steps: seq<Step>)
    ensures IsRun(bootstrap, run, steps)
    ensures var w := run[|steps|];
            && "n" in w.nodes && w.nodes["n"].phase.Pushed? && w.nodes["n"].record == RECORD
            && IsPlaced(w.nodes["n"].pods, 0) && !IsTruthful(w.nodes["n"])
  {
    run, steps := SecondRead(bootstrap);
    var r := LoadedNode(GotSnapshot(Some(FOUND), NEXT_SNAPSHOT)).(saw := Some(SAW));
    SecondPush();
    run, steps := ActEnds(bootstrap, run, steps, CHANGED, r, CheckRecord, SECOND_PUSHING);
    run, steps := ActEnds(bootstrap, run, steps, CHANGED, SECOND_PUSHING, Push(Loaded), SECOND_PUSHED);
  }

  const SECOND_PUSHING := LoadedNode(Pushing(FOUND, NEXT_SNAPSHOT)).(saw := Some(SAW))
  const SECOND_PUSHED :=
    SECOND_PUSHING.(phase := Pushed(FOUND, NEXT_SNAPSHOT), contents := map[0 := Contents("B\n", {}, Some("B\n"))])

  lemma SecondPush()
    ensures CanAct(SceneEnv(CHANGED), SECOND_PUSHING, Push(Loaded))
    ensures NewRec(SceneEnv(CHANGED), SECOND_PUSHING, Push(Loaded)) == SECOND_PUSHED
    ensures IsPlaced(SECOND_PUSHED.pods, 0) && !IsTruthful(SECOND_PUSHED)
  {
    assert SECOND_PUSHED.pods[0].container == Some(0);
  }
}
