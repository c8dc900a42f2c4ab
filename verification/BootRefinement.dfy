/** One process of config delivery is a run of the boot model: so the provenance of the
    accepted snapshot holds with every interleaving of workers and events. */
module BootRefinement {
  import opened Containers
  import opened Admin
  import Boot
  import D = Delivery
  import T = DeliveryTheorems

  /** The boot model's view of a delivery state under an origin key. */
  ghost predicate Related(key: string, w: D.World, b: Boot.World) {
    && b.mirror == w.mirror.live
    && b.manager == Some(Boot.Manager(key, Boot.Running(
         w.agg.accepted, if w.mirror.phase.MWriting? then Some(w.mirror.phase.text) else None)))
    && forall text :: text in w.confirmed ==> (BootstrapCaddyfile(key), text) in b.confirmed
  }

  /** The same environment on both sides: a load succeeds only if the admin client says so,
      and a foreign edit cannot compute a stamp. */
  ghost predicate Faithful(key: string, adapt: string -> Adaptation, w: D.World, b: Boot.World, step: D.Step)
    requires D.Enabled(BootstrapCaddyfile(key), w, step)
  {
    && (step.OnNode? && step.act == D.Push(Loaded) ==>
          exists adaptStatus, loadStatus ::
            Load(key, adaptStatus, adapt(w.nodes[step.n].phase.snapshot.caddyfile), loadStatus) == Loaded)
    && (step.OnMirror? && step.mirrorAct.MEdit? && step.mirrorAct.mirror.Some? ==>
          Boot.Unforged(b, step.mirrorAct.mirror.value))
  }

  /** The boot step a delivery step amounts to, if any. */
  function BootStepOf(bootstrap: string, w: D.World, step: D.Step): Option<Boot.Step>
    requires D.Enabled(bootstrap, w, step)
  {
    match step
    case OnNode(n, act) =>
      if act == D.Push(Loaded) then
        Some(Boot.ConfirmLoad(w.nodes[n].phase.snapshot.caddyfile, Some(200), Some(200)))
      else if act.AcceptSnapshot? && w.agg.acceptedRevision < w.nodes[n].phase.snapshot.revision then
        Some(Boot.AcceptLoaded(w.nodes[n].phase.snapshot.caddyfile))
      else None
    case OnMirror(act) =>
      if act.MRead? && w.agg.accepted != "" then Some(Boot.BeginPublish)
      else if act.MWrite? then Some(Boot.EndPublish(act.isApplied))
      else if act.MEdit? then Some(Boot.EditMirror(act.mirror))
      else None
    case _ => None
  }

  /** The boot step, if there is one, can be taken and leads to the next delivery state's view. */
  ghost predicate Matches(
    key: string, adapt: string -> Adaptation, b: Boot.World, bootStep: Option<Boot.Step>, w': D.World)
  {
    if bootStep.Some? then Boot.Enabled(adapt, b, bootStep.value) && Related(key, w', Boot.Do(adapt, b, bootStep.value))
    else Related(key, w', b)
  }

  lemma SimulatesNode(
    key: string, adapt: string -> Adaptation, accepted0: string, w: D.World, b: Boot.World, step: D.Step)
    requires T.Inv(accepted0, w) && D.Enabled(BootstrapCaddyfile(key), w, step) && step.OnNode?
    requires Related(key, w, b) && Faithful(key, adapt, w, b, step)
    ensures Matches(key, adapt, b, BootStepOf(BootstrapCaddyfile(key), w, step), D.Do(BootstrapCaddyfile(key), w, step))
  {
    var w' := D.Do(BootstrapCaddyfile(key), w, step);
    SeenOfNode(key, w, step);
    if step.act == D.Push(Loaded) {
      SimulatesLoad(key, adapt, w, b, w', w.nodes[step.n].phase.snapshot.caddyfile);
    } else if step.act.AcceptSnapshot? {
      assert T.NodeOK(w, w.nodes[step.n]);
      SimulatesAccept(key, adapt, w, b, w', w.nodes[step.n].phase.snapshot.caddyfile);
    }
  }

  /** Both worlds show the boot model the same mirror. */
  predicate SameMirror(w: D.World, w': D.World) {
    w'.mirror.live == w.mirror.live && w'.mirror.phase == w.mirror.phase
  }

  lemma SimulatesLoad(key: string, adapt: string -> Adaptation, w: D.World, b: Boot.World, w': D.World, text: string)
    requires Related(key, w, b) && SameMirror(w, w') && w'.confirmed == w.confirmed + {text}
    requires w'.agg.accepted == w.agg.accepted
    requires exists adaptStatus, loadStatus :: Load(key, adaptStatus, adapt(text), loadStatus) == Loaded
    ensures var load := Boot.ConfirmLoad(text, Some(200), Some(200));
            Boot.Enabled(adapt, b, load) && Related(key, w', Boot.Do(adapt, b, load))
  {
  }

  lemma SimulatesAccept(key: string, adapt: string -> Adaptation, w: D.World, b: Boot.World, w': D.World, text: string)
    requires Related(key, w, b) && SameMirror(w, w') && w'.confirmed == w.confirmed && text in w.confirmed
    ensures w'.agg.accepted == w.agg.accepted ==> Related(key, w', b)
    ensures Boot.Enabled(adapt, b, Boot.AcceptLoaded(text))
    ensures w'.agg.accepted == text ==> Related(key, w', Boot.Do(adapt, b, Boot.AcceptLoaded(text)))
  {
  }

  /** What the boot model sees of a node's step. */
  lemma SeenOfNode(key: string, w: D.World, step: D.Step)
    requires D.Enabled(BootstrapCaddyfile(key), w, step) && step.OnNode?
    ensures var w' := D.Do(BootstrapCaddyfile(key), w, step);
            && SameMirror(w, w')
            && w'.confirmed ==
               (if step.act == D.Push(Loaded) then w.confirmed + {w.nodes[step.n].phase.snapshot.caddyfile}
                else w.confirmed)
            && w'.agg.accepted ==
               (if step.act.AcceptSnapshot? && w.agg.acceptedRevision < w.nodes[step.n].phase.snapshot.revision
                then w.nodes[step.n].phase.snapshot.caddyfile else w.agg.accepted)
  {
  }

  lemma SimulatesMirror(key: string, adapt: string -> Adaptation, w: D.World, b: Boot.World, step: D.Step)
    requires D.Enabled(BootstrapCaddyfile(key), w, step) && step.OnMirror?
    requires Related(key, w, b) && Faithful(key, adapt, w, b, step)
    ensures Matches(key, adapt, b, BootStepOf(BootstrapCaddyfile(key), w, step), D.Do(BootstrapCaddyfile(key), w, step))
  {
    if BootStepOf(BootstrapCaddyfile(key), w, step).None? {
      InvisibleAct(key, w, step.mirrorAct);
    }
  }

  /** What the boot model does not see of the mirror: the informer and the queue. */
  lemma InvisibleAct(key: string, w: D.World, act: D.MirrorAct)
    requires D.CanMirror(BootstrapCaddyfile(key), w, act) && !act.MWrite? && !act.MEdit?
    requires act.MRead? ==> w.agg.accepted == ""
    ensures var m := D.NewMirror(BootstrapCaddyfile(key), w, act);
            m.live == w.mirror.live && !m.phase.MWriting? == !w.mirror.phase.MWriting? &&
            (m.phase.MWriting? ==> m.phase == w.mirror.phase)
  {
  }

  /** Every delivery step is the boot step it amounts to, or leaves the boot model's view alone. */
  lemma Simulates(key: string, adapt: string -> Adaptation, accepted0: string, w: D.World, b: Boot.World, step: D.Step)
    requires T.Inv(accepted0, w) && D.Enabled(BootstrapCaddyfile(key), w, step)
    requires Related(key, w, b) && Faithful(key, adapt, w, b, step)
    ensures Matches(key, adapt, b, BootStepOf(BootstrapCaddyfile(key), w, step), D.Do(BootstrapCaddyfile(key), w, step))
  {
    match step
    case OnNode(_, _) => SimulatesNode(key, adapt, accepted0, w, b, step);
    case OnMirror(_) => SimulatesMirror(key, adapt, w, b, step);
    case Change(_) =>
    case ListManaged =>
    case ForceResync =>
  }

  /** The boot world beside a delivery run: it moves by the boot steps the delivery steps amount to. */
  ghost function BootBeside(
    key: string, adapt: string -> Adaptation, start: Boot.World, run: seq<D.World>, steps: seq<D.Step>, i: nat)
    : Boot.World
    requires D.IsRun(BootstrapCaddyfile(key), run, steps) && i < |run|
  {
    if i == 0 then start else
      assert D.IsStep(BootstrapCaddyfile(key), run, steps, i - 1);
      Moved(adapt, BootBeside(key, adapt, start, run, steps, i - 1),
            BootStepOf(BootstrapCaddyfile(key), run[i - 1], steps[i - 1]))
  }

  ghost function Moved(adapt: string -> Adaptation, b: Boot.World, bootStep: Option<Boot.Step>): Boot.World {
    if bootStep.Some? && Boot.Enabled(adapt, b, bootStep.value) then Boot.Do(adapt, b, bootStep.value) else b
  }

  /** The environment of the delivery run obeys the boot model's rules at step j. */
  ghost predicate IsFaithfulAt(
    key: string, adapt: string -> Adaptation, start: Boot.World, run: seq<D.World>, steps: seq<D.Step>, j: nat)
  {
    && D.IsRun(BootstrapCaddyfile(key), run, steps) && D.IsStep(BootstrapCaddyfile(key), run, steps, j)
    && Faithful(key, adapt, run[j], BootBeside(key, adapt, start, run, steps, j), steps[j])
  }

  /** A delivery process that continues a boot run: it starts where InitializeMirror has left the
      boot world, and its environment obeys the boot model's rules. */
  ghost predicate Continues(
    key: string, adapt: string -> Adaptation, bootRun: seq<Boot.World>, bootSteps: seq<Boot.Step>,
    run: seq<D.World>, steps: seq<D.Step>)
  {
    && Boot.IsRun(adapt, bootRun, bootSteps) && D.IsRun(BootstrapCaddyfile(key), run, steps)
    && Related(key, run[0], bootRun[|bootSteps|])
    && forall j: nat :: j < |steps| ==> IsFaithfulAt(key, adapt, bootRun[|bootSteps|], run, steps, j)
  }

  lemma MovesOn(key: string, adapt: string -> Adaptation, accepted0: string, w: D.World, b: Boot.World, step: D.Step)
    requires T.Inv(accepted0, w) && D.Enabled(BootstrapCaddyfile(key), w, step) && Faithful(key, adapt, w, b, step)
    requires Boot.Inv(adapt, b) && Related(key, w, b)
    ensures var b' := Moved(adapt, b, BootStepOf(BootstrapCaddyfile(key), w, step));
            Boot.Inv(adapt, b') && Related(key, D.Do(BootstrapCaddyfile(key), w, step), b')
  {
    Simulates(key, adapt, accepted0, w, b, step);
    var bootStep := BootStepOf(BootstrapCaddyfile(key), w, step);
    if bootStep.Some? {
      Boot.InvStep(adapt, b, bootStep.value);
    }
  }

  lemma {:induction false} BesideAlways(
    key: string, adapt: string -> Adaptation, bootRun: seq<Boot.World>, bootSteps: seq<Boot.Step>,
    run: seq<D.World>, steps: seq<D.Step>, i: nat)
    requires Continues(key, adapt, bootRun, bootSteps, run, steps) && i < |run|
    ensures var b := BootBeside(key, adapt, bootRun[|bootSteps|], run, steps, i);
            Boot.Inv(adapt, b) && Related(key, run[i], b)
  {
    if i == 0 {
      Boot.InvAlways(adapt, bootRun, bootSteps, |bootSteps|);
    } else {
      BesideAlways(key, adapt, bootRun, bootSteps, run, steps, i - 1);
      var start := bootRun[|bootSteps|];
      assert IsFaithfulAt(key, adapt, start, run, steps, i - 1);
      T.InvAlways(BootstrapCaddyfile(key), run, steps, i - 1);
      MovesOn(key, adapt, run[0].agg.accepted, run[i - 1], BootBeside(key, adapt, start, run, steps, i - 1),
              steps[i - 1]);
    }
  }

  /** So in every interleaving of a delivery process that continues any boot run, the accepted
      snapshot is the bootstrap or a text confirmed under it. */
  lemma ProvenanceInDelivery(
    key: string, adapt: string -> Adaptation, bootRun: seq<Boot.World>, bootSteps: seq<Boot.Step>,
    run: seq<D.World>, steps: seq<D.Step>, i: nat)
    requires Continues(key, adapt, bootRun, bootSteps, run, steps) && i < |run|
    ensures var b := BootBeside(key, adapt, bootRun[|bootSteps|], run, steps, i);
            Boot.Legitimate(b, BootstrapCaddyfile(key), run[i].agg.accepted)
  {
    BesideAlways(key, adapt, bootRun, bootSteps, run, steps, i);
  }

  /** And if a container booted from the bootstrap answers the client, so does one booted from the
      accepted snapshot, in every state of such a process. */
  lemma NoSelfLockoutInDelivery(
    key: string, adapt: string -> Adaptation, bootRun: seq<Boot.World>, bootSteps: seq<Boot.Step>,
    run: seq<D.World>, steps: seq<D.Step>, i: nat)
    requires Continues(key, adapt, bootRun, bootSteps, run, steps) && i < |run|
    requires Boot.AnswersClient(adapt, BootstrapCaddyfile(key), key)
    ensures Boot.AnswersClient(adapt, run[i].agg.accepted, key)
  {
    BesideAlways(key, adapt, bootRun, bootSteps, run, steps, i);
    var b := BootBeside(key, adapt, bootRun[|bootSteps|], run, steps, i);
    Boot.LegitimateIsAnswered(adapt, b, key, run[i].agg.accepted);
  }
}
