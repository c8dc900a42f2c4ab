/** What every run of config delivery guarantees the boot mirror. */
module MirrorTheorems {
  import opened Containers
  import opened Admin
  import opened Delivery
  import Agg = Aggregator

  /** The mirror holds the accepted text with the stamp of the bootstrap and that text. */
  predicate MirrorHoldsAccepted(bootstrap: string, w: World) {
    w.mirror.live == Some(Mirror(w.agg.accepted, Digest(bootstrap + "\0" + w.agg.accepted)))
  }

  predicate SomeoneOwes(w: World) {
    exists n :: n in w.nodes && w.nodes[n].phase.OwesMirror?
  }

  /** Work for the mirror key that does not depend on what the informer still has to receive. */
  predicate Queued(w: World) {
    var m := w.mirror;
    || m.dirty || m.delayed || m.events != [] || SomeoneOwes(w)
    || m.phase.MTaken? || (m.phase.MWriting? && m.phase.text == w.agg.accepted)
  }

  /** Work for the mirror key is outstanding. */
  predicate MirrorWork(w: World) {
    Queued(w) || w.mirror.stream != []
  }

  predicate Converging(bootstrap: string, w: World) {
    MirrorHoldsAccepted(bootstrap, w) || MirrorWork(w)
  }

  predicate IsList(step: Step) {
    step == OnMirror(FirstList) || step == OnMirror(MRelist)
  }

  /** A list finds the mirror, or its store held one, or it skips no change, or other work is
      queued anyway. */
  predicate ListSees(w: World) {
    var m := w.mirror;
    m.live.Some? || m.known.Some? || (m.watching && m.stream == []) || Queued(w)
  }

  /** Before the first list nothing runs. */
  predicate QuietStart(w: World) {
    var m := w.mirror;
    && m.stream == [] && m.known.None? && m.events == [] && !m.dirty && !m.delayed && m.phase.MIdle?
    && forall n :: n in w.nodes ==> w.nodes[n].phase.Idle?
  }

  /** The newest change on its way is the live mirror, and the newest notification is the
      informer's store. */
  predicate InformerOK(m: MirrorRec) {
    && (m.stream != [] ==> m.stream[|m.stream| - 1] == m.live)
    && (m.watching && m.stream == [] ==> m.known == m.live)
    && (m.events != [] ==> m.events[|m.events| - 1] == m.known)
  }

  /** Published revisions never fall. */
  predicate PublishedOK(w: World) {
    var m := w.mirror;
    && (forall i, j :: 0 <= i < j < |m.published| ==> m.published[i] <= m.published[j])
    && (forall i :: 0 <= i < |m.published| ==> m.published[i] <= w.agg.acceptedRevision)
    && (m.phase.MWriting? ==>
          && m.phase.revision <= w.agg.acceptedRevision
          && (forall i :: 0 <= i < |m.published| ==> m.published[i] <= m.phase.revision))
  }

  predicate MirrorInv(w: World) {
    && (!w.mirror.watching ==> QuietStart(w))
    && InformerOK(w.mirror) && PublishedOK(w)
    // a write in flight is the accepted snapshot, or a newer one is on its way
    && (w.mirror.phase.MWriting? ==> w.mirror.phase.text == w.agg.accepted || w.mirror.dirty || SomeoneOwes(w))
  }

  // ----- Steps -----

  /** Who owes the mirror key after a step of a node. */
  lemma OwesStep(bootstrap: string, w: World, n: string, act: Act)
    requires Enabled(bootstrap, w, OnNode(n, act))
    ensures var w' := Do(bootstrap, w, OnNode(n, act));
            && (SomeoneOwes(w) ==> SomeoneOwes(w') || act.AddMirrorKey?)
            && (w'.agg != w.agg ==> SomeoneOwes(w'))
  {
    var w' := Do(bootstrap, w, OnNode(n, act));
    OwesAct(EnvOf(w), w.nodes[n], act);
    assert w'.nodes == w.nodes[n := NewRec(EnvOf(w), w.nodes[n], act)];
    if SomeoneOwes(w) && !act.AddMirrorKey? {
      var k :| k in w.nodes && w.nodes[k].phase.OwesMirror?;
      assert k in w'.nodes && w'.nodes[k].phase.OwesMirror?;
    }
    if w'.agg != w.agg {
      assert n in w'.nodes && w'.nodes[n].phase.OwesMirror?;
    }
  }

  lemma OwesAct(env: Env, r: NodeRec, act: Act)
    requires CanAct(env, r, act)
    ensures r.phase.OwesMirror? && !act.AddMirrorKey? ==> NewRec(env, r, act).phase.OwesMirror?
    ensures act.AcceptSnapshot? && env.acceptedRevision < r.phase.snapshot.revision ==>
              NewRec(env, r, act).phase.OwesMirror?
  {
  }

  /** What a step of a node does to the mirror's side of the world. */
  lemma NodeShape(bootstrap: string, w: World, n: string, act: Act)
    requires Enabled(bootstrap, w, OnNode(n, act))
    ensures var w' := Do(bootstrap, w, OnNode(n, act));
            && w'.mirror == (if act.AddMirrorKey? then w.mirror.(dirty := true) else w.mirror)
            && w.agg.acceptedRevision <= w'.agg.acceptedRevision
  {
  }

  /** No worker starts before the first list. */
  lemma QuietNode(env: Env, r: NodeRec, act: Act)
    requires CanAct(env, r, act) && r.phase.Idle? && !env.watching
    ensures NewRec(env, r, act).phase.Idle? && !act.AddMirrorKey?
  {
  }

  lemma MirrorNodeStep(bootstrap: string, w: World, n: string, act: Act)
    requires MirrorInv(w) && Enabled(bootstrap, w, OnNode(n, act))
    ensures MirrorInv(Do(bootstrap, w, OnNode(n, act)))
    ensures Converging(bootstrap, w) ==> Converging(bootstrap, Do(bootstrap, w, OnNode(n, act)))
  {
    OwesStep(bootstrap, w, n, act);
    NodeShape(bootstrap, w, n, act);
    if !w.mirror.watching {
      QuietNode(EnvOf(w), w.nodes[n], act);
    }
    Beside(bootstrap, w, Do(bootstrap, w, OnNode(n, act)));
  }

  /** A step beside the mirror keeps convergence if it queues a newly accepted snapshot. */
  lemma Beside(bootstrap: string, w: World, w': World)
    requires MirrorInv(w) && w.agg.acceptedRevision <= w'.agg.acceptedRevision
    requires w'.mirror == w.mirror || w'.mirror == w.mirror.(dirty := true)
    requires SomeoneOwes(w) ==> SomeoneOwes(w') || w'.mirror.dirty
    requires w'.agg.accepted != w.agg.accepted ==> SomeoneOwes(w')
    requires !w.mirror.watching ==> QuietStart(w')
    ensures MirrorInv(w')
    ensures Converging(bootstrap, w) ==> Converging(bootstrap, w')
  {
  }

  lemma InformerStep(bootstrap: string, w: World, act: MirrorAct)
    requires InformerOK(w.mirror) && (!w.mirror.watching ==> QuietStart(w)) && CanMirror(bootstrap, w, act)
    ensures InformerOK(NewMirror(bootstrap, w, act))
  {
    var m, m' := w.mirror, NewMirror(bootstrap, w, act);
    if act.MDeliver? && |m.events| > 1 {
      assert m'.events[|m'.events| - 1] == m.events[|m.events| - 1];
    }
    if act.MReceive? && |m.stream| > 1 {
      assert m'.stream[|m'.stream| - 1] == m.stream[|m.stream| - 1];
    }
  }

  lemma PublishedStep(bootstrap: string, w: World, act: MirrorAct)
    requires PublishedOK(w) && CanMirror(bootstrap, w, act)
    ensures PublishedOK(Do(bootstrap, w, OnMirror(act)))
  {
    var m, m' := w.mirror, NewMirror(bootstrap, w, act);
    if act.MWrite? && act.isApplied {
      assert m'.published == m.published + [m.phase.revision];
    } else {
      assert m'.published == m.published;
    }
  }

  lemma OwesKept(bootstrap: string, w: World, step: Step)
    requires Enabled(bootstrap, w, step) && !step.OnNode?
    ensures SomeoneOwes(Do(bootstrap, w, step)) <==> SomeoneOwes(w)
  {
    var w' := Do(bootstrap, w, step);
    forall n | n in w.nodes ensures n in w'.nodes && w'.nodes[n].phase == w.nodes[n].phase {
    }
  }

  lemma MirrorInvAct(bootstrap: string, w: World, act: MirrorAct)
    requires MirrorInv(w) && CanMirror(bootstrap, w, act)
    ensures MirrorInv(Do(bootstrap, w, OnMirror(act)))
  {
    InformerStep(bootstrap, w, act);
    PublishedStep(bootstrap, w, act);
    OwesKept(bootstrap, w, OnMirror(act));
  }

  /** A step of the mirror keeps convergence, except a list that does not see. */
  lemma ConvergingAct(bootstrap: string, w: World, act: MirrorAct)
    requires MirrorInv(w) && CanMirror(bootstrap, w, act) && w.mirror.watching && Converging(bootstrap, w)
    requires act.MRelist? ==> ListSees(w)
    ensures Converging(bootstrap, Do(bootstrap, w, OnMirror(act)))
  {
    OwesKept(bootstrap, w, OnMirror(act));
  }

  /** A list that does not see leaves the mirror missing with nothing on its way. */
  lemma BlindList(bootstrap: string, w: World, step: Step)
    requires MirrorInv(w) && Enabled(bootstrap, w, step) && IsList(step) && !ListSees(w)
    ensures var w' := Do(bootstrap, w, step); w'.mirror.live.None? && !MirrorWork(w')
  {
    OwesKept(bootstrap, w, step);
  }

  lemma MirrorInvStep(bootstrap: string, w: World, step: Step)
    requires MirrorInv(w) && Enabled(bootstrap, w, step)
    ensures MirrorInv(Do(bootstrap, w, step))
  {
    match step
    case OnNode(n, act) => MirrorNodeStep(bootstrap, w, n, act);
    case OnMirror(act) => MirrorInvAct(bootstrap, w, act);
    case _ =>
      OwesKept(bootstrap, w, step);
      Beside(bootstrap, w, Do(bootstrap, w, step));
  }

  /** Through foreign edits, deletions, failed and half-failed writes, every step of a watching
      world keeps convergence, except exactly the lists that do not see. */
  lemma MirrorStep(bootstrap: string, w: World, step: Step)
    requires MirrorInv(w) && Enabled(bootstrap, w, step) && w.mirror.watching && Converging(bootstrap, w)
    ensures Converging(bootstrap, Do(bootstrap, w, step)) <==> (IsList(step) ==> ListSees(w))
  {
    if IsList(step) && !ListSees(w) {
      BlindList(bootstrap, w, step);
    } else {
      match step
      case OnNode(n, act) => MirrorNodeStep(bootstrap, w, n, act);
      case OnMirror(act) => ConvergingAct(bootstrap, w, act);
      case _ =>
        OwesKept(bootstrap, w, step);
        Beside(bootstrap, w, Do(bootstrap, w, step));
    }
  }

  // ----- Runs -----

  lemma MirrorInvAlways(bootstrap: string, run: seq<World>, steps: seq<Step>, i: nat)
    requires IsRun(bootstrap, run, steps) && i < |run|
    ensures MirrorInv(run[i])
  {
    forall j | 0 <= j < i && MirrorInv(run[j]) ensures MirrorInv(run[j + 1]) {
      assert IsStep(bootstrap, run, steps, j);
      MirrorInvStep(bootstrap, run[j], steps[j]);
    }
    Induct(run, 0, i, w => MirrorInv(w));
  }

  predicate WatchingAndConverging(bootstrap: string, w: World) {
    w.mirror.watching && Converging(bootstrap, w)
  }

  /** Every list from step i on sees. */
  predicate AllListsSee(run: seq<World>, steps: seq<Step>, i: nat) {
    forall k :: i <= k < |steps| && k < |run| && IsList(steps[k]) ==> ListSees(run[k])
  }

  lemma StaysConverging(bootstrap: string, run: seq<World>, steps: seq<Step>, i: nat, j: nat)
    requires IsRun(bootstrap, run, steps) && i <= j < |run| && WatchingAndConverging(bootstrap, run[i])
    requires AllListsSee(run, steps, i)
    ensures WatchingAndConverging(bootstrap, run[j])
  {
    forall k | i <= k < j && WatchingAndConverging(bootstrap, run[k])
      ensures WatchingAndConverging(bootstrap, run[k + 1])
    {
      assert IsStep(bootstrap, run, steps, k);
      MirrorInvAlways(bootstrap, run, steps, k);
      MirrorStep(bootstrap, run[k], steps[k]);
    }
    Induct(run, i, j, w => WatchingAndConverging(bootstrap, w));
  }

  lemma BlindAt(bootstrap: string, run: seq<World>, steps: seq<Step>, k: nat)
    requires IsRun(bootstrap, run, steps) && k < |steps| && IsList(steps[k]) && !ListSees(run[k])
    ensures !Converging(bootstrap, run[k + 1])
  {
    MirrorInvAlways(bootstrap, run, steps, k);
    assert IsStep(bootstrap, run, steps, k);
    BlindList(bootstrap, run[k], steps[k]);
  }

  /** From a converging state on, the mirror holds the accepted snapshot or mirror work is
      outstanding in every later state if and only if every later list sees. */
  lemma ConvergesExactly(bootstrap: string, run: seq<World>, steps: seq<Step>, i: nat)
    requires IsRun(bootstrap, run, steps) && i < |run| && WatchingAndConverging(bootstrap, run[i])
    ensures (forall j :: i <= j < |run| ==> Converging(bootstrap, run[j])) <==> AllListsSee(run, steps, i)
  {
    if AllListsSee(run, steps, i) {
      forall j | i <= j < |run| ensures Converging(bootstrap, run[j]) {
        StaysConverging(bootstrap, run, steps, i, j);
      }
    } else {
      var k :| i <= k < |steps| && k < |run| && IsList(steps[k]) && !ListSees(run[k]);
      BlindAt(bootstrap, run, steps, k);
    }
  }

  lemma FirstListStarts(bootstrap: string, run: seq<World>, steps: seq<Step>, first: nat)
    requires IsRun(bootstrap, run, steps) && first < |steps| && steps[first] == OnMirror(FirstList)
    ensures ListSees(run[first]) <==> run[first].mirror.live.Some?
    ensures WatchingAndConverging(bootstrap, run[first + 1]) <==> ListSees(run[first])
  {
    MirrorInvAlways(bootstrap, run, steps, first);
    assert IsStep(bootstrap, run, steps, first);
    if !ListSees(run[first]) {
      BlindList(bootstrap, run[first], steps[first]);
    }
  }

  /** After the informer's first list, every state has the mirror holding the accepted snapshot
      or mirror work outstanding, through any edits, deletions and failed writes, exactly when
      that list found a mirror and every later one sees. */
  lemma MirrorConverges(bootstrap: string, run: seq<World>, steps: seq<Step>, first: nat)
    requires IsRun(bootstrap, run, steps) && first < |steps| && steps[first] == OnMirror(FirstList)
    ensures (forall j :: first < j < |run| ==> Converging(bootstrap, run[j])) <==>
              run[first].mirror.live.Some? && AllListsSee(run, steps, first + 1)
  {
    FirstListStarts(bootstrap, run, steps, first);
    if run[first].mirror.live.Some? {
      ConvergesExactly(bootstrap, run, steps, first + 1);
    } else {
      BlindAt(bootstrap, run, steps, first);
    }
  }

  /** After a blind list the next newly accepted snapshot restores convergence, and it lasts
      exactly as long as every later list sees. */
  lemma AcceptanceHeals(bootstrap: string, run: seq<World>, steps: seq<Step>, i: nat)
    requires IsRun(bootstrap, run, steps) && i < |steps|
    requires steps[i].OnNode? && steps[i].act.AcceptSnapshot? && run[i + 1].agg != run[i].agg
    ensures Converging(bootstrap, run[i + 1])
    ensures (forall j :: i < j < |run| ==> Converging(bootstrap, run[j])) <==> AllListsSee(run, steps, i + 1)
  {
    assert IsStep(bootstrap, run, steps, i);
    MirrorInvAlways(bootstrap, run, steps, i);
    OwesStep(bootstrap, run[i], steps[i].n, steps[i].act);
    NodeShape(bootstrap, run[i], steps[i].n, steps[i].act);
    assert run[i].mirror.watching;
    ConvergesExactly(bootstrap, run, steps, i + 1);
  }

  lemma RevisionStep(bootstrap: string, w: World, step: Step)
    requires Enabled(bootstrap, w, step)
    ensures w.agg.acceptedRevision <= Do(bootstrap, w, step).agg.acceptedRevision
  {
  }

  /** The accepted revision never falls. */
  lemma {:induction false} RevisionsNeverFall(bootstrap: string, run: seq<World>, steps: seq<Step>, i: nat, j: nat)
    requires IsRun(bootstrap, run, steps) && i <= j < |run|
    ensures run[i].agg.acceptedRevision <= run[j].agg.acceptedRevision
  {
    if i < j {
      RevisionsNeverFall(bootstrap, run, steps, i, j - 1);
      assert IsStep(bootstrap, run, steps, j - 1);
      RevisionStep(bootstrap, run[j - 1], steps[j - 1]);
    }
  }

  /** The revisions written to the mirror never fall. */
  lemma PublishedInOrder(bootstrap: string, run: seq<World>, steps: seq<Step>, i: nat, a: nat, b: nat)
    requires IsRun(bootstrap, run, steps) && i < |run| && a <= b < |run[i].mirror.published|
    ensures run[i].mirror.published[a] <= run[i].mirror.published[b] <= run[i].agg.acceptedRevision
  {
    MirrorInvAlways(bootstrap, run, steps, i);
  }
}
