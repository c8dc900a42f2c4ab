/** What the push cache saves, and what a forced resync brings back. */
module DeliveryResync {
  import opened Containers
  import opened Admin
  import opened Delivery
  import opened DeliveryTheorems
  import Agg = Aggregator

  // ----- The cache skips exactly what it has on record -----

  /** A step that writes or clears the record of node n. */
  predicate TouchesRecord(step: Step, n: string) {
    || step == ForceResync
    || (step.OnNode? && step.n == n && (step.act.RecordPush? || step.act == TearDown(true)))
  }

  lemma RecordKept(bootstrap: string, w: World, step: Step, n: string)
    requires Enabled(bootstrap, w, step) && n in w.nodes && !TouchesRecord(step, n)
    ensures n in Do(bootstrap, w, step).nodes && Do(bootstrap, w, step).nodes[n].record == w.nodes[n].record
  {
    StepOfNode(bootstrap, w, step, n);
    if step.OnNode? && step.n == n {
      RecordOfAct(EnvOf(w), w.nodes[n], step.act);
    }
  }

  lemma RecordOfAct(env: Env, r: NodeRec, act: Act)
    requires CanAct(env, r, act) && !act.RecordPush? && act != TearDown(true)
    ensures NewRec(env, r, act).record == r.record
  {
    if IsQueueAct(act) {
      QueueShape(env, r, act);
    }
  }

  predicate HasRecord(w: World, n: string, record: Option<Record>) {
    n in w.nodes && w.nodes[n].record == record
  }

  lemma RecordStays(
    bootstrap: string, run: seq<World>, steps: seq<Step>, i: nat, j: nat, n: string, record: Option<Record>)
    requires IsRun(bootstrap, run, steps) && i <= j < |run| && HasRecord(run[i], n, record)
    requires forall x :: i <= x < j ==> !TouchesRecord(steps[x], n)
    ensures HasRecord(run[j], n, record)
  {
    forall x | i <= x < j && HasRecord(run[x], n, record) ensures HasRecord(run[x + 1], n, record) {
      assert IsStep(bootstrap, run, steps, x) && !TouchesRecord(steps[x], n);
      RecordKept(bootstrap, run[x], steps[x], n);
    }
    Induct(run, i, j, w => HasRecord(w, n, record));
  }

  /** After a recorded push, and until the record is written or cleared again, a later reconcile
      skips the push exactly when it found the same container and read the same text. */
  lemma SkipsExactly(bootstrap: string, run: seq<World>, steps: seq<Step>, i: nat, j: nat, n: string)
    requires IsRun(bootstrap, run, steps) && i < j < |steps|
    requires steps[i] == OnNode(n, RecordPush) && steps[j] == OnNode(n, CheckRecord)
    requires forall x :: i < x < j ==> !TouchesRecord(steps[x], n)
    ensures n in run[i].nodes && run[i].nodes[n].phase.Pushed?
    ensures n in run[j].nodes && run[j].nodes[n].phase.GotSnapshot? && n in run[j + 1].nodes
    ensures var pushed, read, after := run[i].nodes[n].phase, run[j].nodes[n].phase, run[j + 1].nodes[n].phase;
            var isSame := read.found.Some? && read.found.value.container == pushed.target.container &&
                          read.snapshot.caddyfile == pushed.snapshot.caddyfile;
            && (after.IsLoaded? <==> isSame)
            && (after.Pushing? <==> read.found.Some? && !isSame)
  {
    assert IsStep(bootstrap, run, steps, i) && IsStep(bootstrap, run, steps, j);
    var pushed := run[i].nodes[n].phase;
    var record := Some(Record(pushed.snapshot.caddyfile, pushed.target.container));
    assert HasRecord(run[i + 1], n, record);
    RecordStays(bootstrap, run, steps, i + 1, j, n, record);
  }

  /** After a forced resync, and until a push is recorded again, every reconcile that finds a
      started container pushes. */
  lemma ResyncForcesPush(bootstrap: string, run: seq<World>, steps: seq<Step>, i: nat, j: nat, n: string)
    requires IsRun(bootstrap, run, steps) && i < j < |steps| && n in run[i].nodes
    requires steps[i] == ForceResync && steps[j] == OnNode(n, CheckRecord)
    requires forall x :: i < x < j ==> steps[x] != OnNode(n, RecordPush)
    ensures n in run[j].nodes && run[j].nodes[n].phase.GotSnapshot? && n in run[j + 1].nodes
    ensures run[j].nodes[n].phase.found.Some? ==> run[j + 1].nodes[n].phase.Pushing?
  {
    assert IsStep(bootstrap, run, steps, i) && IsStep(bootstrap, run, steps, j);
    forall x | i + 1 <= x < j && HasRecord(run[x], n, None) ensures HasRecord(run[x + 1], n, None) {
      assert IsStep(bootstrap, run, steps, x) && steps[x] != OnNode(n, RecordPush);
      StaysCleared(bootstrap, run[x], steps[x], n);
    }
    Induct(run, i + 1, j, w => HasRecord(w, n, None));
  }

  lemma StaysCleared(bootstrap: string, w: World, step: Step, n: string)
    requires Enabled(bootstrap, w, step) && HasRecord(w, n, None) && step != OnNode(n, RecordPush)
    ensures HasRecord(Do(bootstrap, w, step), n, None)
  {
    StepOfNode(bootstrap, w, step, n);
    if step.OnNode? && step.n == n && step.act != TearDown(true) {
      RecordOfAct(EnvOf(w), w.nodes[n], step.act);
    }
  }

  // ----- Everyone is pushed to again -----

  /** A push of node n that a container answered, sent to this container. */
  predicate AnsweredPush(w: World, step: Step, n: string, c: nat) {
    && step.OnNode? && step.n == n && step.act.Push? && !step.act.outcome.Failed?
    && n in w.nodes && w.nodes[n].phase.Pushing? && w.nodes[n].phase.target.container == c
  }

  predicate IsAbout(saw: Saw, c: nat) {
    saw.found.Some? && saw.found.value.container == c && (saw.verdict.DidLoad? || saw.verdict.WasRefused?)
  }

  /** Nothing the worker has found out rests on an earlier push to container c. */
  predicate StartsOver(r: NodeRec, c: nat) {
    match r.phase
    case IsLoaded(target, _) => target.container != c
    case OwesMirror(saw) => !IsAbout(saw, c)
    case Finished(result) => result.Some? ==> !IsAbout(result.value, c)
    case Idle => r.saw.Some? ==> !IsAbout(r.saw.value, c)
    case _ => true
  }

  /** Since the resync, no record and no push in flight concerns container c, and a managed node
      has work outstanding or starts over. */
  predicate ResyncInv(w: World, n: string, c: nat) {
    && n in w.nodes
    && NothingOf(w.nodes[n], c)
    && (w.nodes[n].managed ==> Work(w.bumps, w.nodes[n]) || StartsOver(w.nodes[n], c))
  }

  predicate NothingOf(r: NodeRec, c: nat) {
    && (r.record.Some? ==> r.record.value.container != c)
    && (r.phase.Pushed? ==> r.phase.target.container != c)
  }

  lemma ResyncAct(env: Env, bumps: nat, r: NodeRec, act: Act, c: nat)
    requires CanAct(env, r, act) && NothingOf(r, c)
    requires act.Push? && !act.outcome.Failed? ==> r.phase.target.container != c
    requires r.managed ==> Work(bumps, r) || StartsOver(r, c)
    ensures var r' := NewRec(env, r, act);
            NothingOf(r', c) && (r'.managed ==> Work(bumps, r') || StartsOver(r', c))
  {
    if IsQueueAct(act) {
      QueueWork(env, r, act);
      QueueShape(env, r, act);
    } else {
      ResyncWork(env, bumps, r, act, c);
    }
  }

  lemma ResyncWork(env: Env, bumps: nat, r: NodeRec, act: Act, c: nat)
    requires CanAct(env, r, act) && NothingOf(r, c) && !IsQueueAct(act)
    requires act.Push? && !act.outcome.Failed? ==> r.phase.target.container != c
    requires r.managed ==> Work(bumps, r) || StartsOver(r, c)
    ensures var r' := NewRec(env, r, act);
            NothingOf(r', c) && (r'.managed ==> Work(bumps, r') || StartsOver(r', c))
  {
  }

  lemma ResyncStep(bootstrap: string, w: World, step: Step, n: string, c: nat)
    requires Enabled(bootstrap, w, step) && ResyncInv(w, n, c) && !AnsweredPush(w, step, n, c)
    ensures ResyncInv(Do(bootstrap, w, step), n, c)
  {
    if step.OnNode? && step.n == n {
      ResyncAct(EnvOf(w), w.bumps, w.nodes[n], step.act, c);
    }
  }

  /** After a forced resync, once a managed node is at rest again and a merge is loadable, the
      started container of its newest active pod has answered a push since, or the worker was
      between its push to that very container and the recording when the resync came. */
  lemma ResyncRepushes(
    bootstrap: string, run: seq<World>, steps: seq<Step>, i: nat, j: nat, n: string, p: nat, c: nat)
    requires IsRun(bootstrap, run, steps) && i < j < |run| && steps[i] == ForceResync && n in run[i].nodes
    requires n in run[j].nodes && Agg.Merged(run[j].agg).Ok? && IsServing(run[j].nodes[n].pods, p, c)
    requires var r := run[j].nodes[n]; r.managed && r.phase.Idle? && !Work(run[j].bumps, r)
    ensures || (exists x :: i < x < j && AnsweredPush(run[x], steps[x], n, c))
            || IsPushedTo(run[i].nodes[n], c)
  {
    if NoneAnswered(run, steps, i, j, n, c) && !IsPushedTo(run[i].nodes[n], c) {
      ResyncHolds(bootstrap, run, steps, i, j, n, c);
      NoLostUpdate(bootstrap, run, steps, j, n);
      RestKnowsPush(Agg.Merged(run[j].agg), run[j].nodes[n], p, c);
    }
  }

  predicate IsPushedTo(r: NodeRec, c: nat) {
    r.phase.Pushed? && r.phase.target.container == c
  }

  predicate NoneAnswered(run: seq<World>, steps: seq<Step>, i: nat, j: nat, n: string, c: nat) {
    forall x :: i < x < j && x < |run| && x < |steps| ==> !AnsweredPush(run[x], steps[x], n, c)
  }

  lemma ResyncHolds(bootstrap: string, run: seq<World>, steps: seq<Step>, i: nat, j: nat, n: string, c: nat)
    requires IsRun(bootstrap, run, steps) && i < j < |run| && steps[i] == ForceResync && n in run[i].nodes
    requires NoneAnswered(run, steps, i, j, n, c) && !IsPushedTo(run[i].nodes[n], c)
    ensures ResyncInv(run[j], n, c)
  {
    assert IsStep(bootstrap, run, steps, i);
    assert ResyncInv(run[i + 1], n, c);
    forall x | i + 1 <= x < j && ResyncInv(run[x], n, c) ensures ResyncInv(run[x + 1], n, c) {
      assert IsStep(bootstrap, run, steps, x);
      ResyncStep(bootstrap, run[x], steps[x], n, c);
    }
    Induct(run, i + 1, j, w => ResyncInv(w, n, c));
  }

  /** What a node at rest has found out rests on a push to its serving container. */
  lemma RestKnowsPush(merged: Result<Agg.Snapshot, Agg.MergeError>, r: NodeRec, p: nat, c: nat)
    requires Fresh(merged, r) && r.phase.Idle? && merged.Ok? && IsServing(r.pods, p, c)
    ensures !StartsOver(r, c)
  {
    FoundExactly(r.pods, p, c);
  }
}
