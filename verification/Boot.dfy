/** Where the accepted boot snapshot comes from, across any sequence of manager runs with
    possibly different origin keys, interleaved with foreign edits of the mirror. */
module Boot {
  import opened Containers
  import opened Admin

  datatype ManagerPhase =
    | Starting                                            // before InitializeMirror reads
    | Resetting                                           // stamp mismatch: bootstrap not yet published
    | Running(accepted: string, writing: Option<string>)  // writing: read for a publish, not yet sent

  datatype Manager = Manager(key: string, phase: ManagerPhase)

  /** `confirmed` holds the (bootstrap, text) pairs some container confirmed loading for a
      manager with that bootstrap; `issued` the pairs whose stamp a manager ever published. */
  datatype World = World(
    mirror: Option<Mirror>, manager: Option<Manager>,
    confirmed: set<(string, string)>, issued: set<(string, string)>)

  datatype Step =
    | Start(key: string)
    | Stop
    | ReadMirror
    | PublishBootstrap
    | ConfirmLoad(caddyfile: string, adaptStatus: Option<int>, loadStatus: Option<int>)
    | AcceptLoaded(caddyfile: string)
    | BeginPublish
    | EndPublish(isApplied: bool)
    | EditMirror(mirror: Option<Mirror>)

  predicate IsRunning(w: World) {
    w.manager.Some? && w.manager.value.phase.Running?
  }

  function CurrentBootstrap(w: World): string
    requires w.manager.Some?
  {
    BootstrapCaddyfile(w.manager.value.key)
  }

  /** A foreign editor may keep or copy any stamp ever issued, next to any text, but cannot
      compute a new one. */
  ghost predicate Unforged(w: World, mirror: Mirror) {
    mirror.stamp.Digest? ==> exists pair :: pair in w.issued && mirror.stamp == SnapshotHash(pair.0, pair.1)
  }

  ghost predicate Enabled(adapt: string -> Adaptation, w: World, step: Step) {
    match step
    case Start(key) => w.manager.None? && NulFree(key)
    case Stop => w.manager.Some?
    case ReadMirror => w.manager.Some? && w.manager.value.phase.Starting?
    case PublishBootstrap => w.manager.Some? && w.manager.value.phase.Resetting?
    case ConfirmLoad(caddyfile, adaptStatus, loadStatus) =>
      IsRunning(w) && Load(w.manager.value.key, adaptStatus, adapt(caddyfile), loadStatus) == Loaded
    case AcceptLoaded(caddyfile) => IsRunning(w) && (CurrentBootstrap(w), caddyfile) in w.confirmed
    case BeginPublish => IsRunning(w) && w.manager.value.phase.writing.None? && w.manager.value.phase.accepted != ""
    case EndPublish(_) => IsRunning(w) && w.manager.value.phase.writing.Some?
    case EditMirror(mirror) => mirror.Some? ==> Unforged(w, mirror.value)
  }

  function WithPhase(w: World, phase: ManagerPhase): World
    requires w.manager.Some?
  {
    w.(manager := Some(w.manager.value.(phase := phase)))
  }

  /** `publishMirror` reaching the API server. */
  function Publish(w: World, caddyfile: string): World
    requires w.manager.Some?
  {
    var bootstrap := CurrentBootstrap(w);
    w.(mirror := Some(Published(bootstrap, caddyfile)), issued := w.issued + {(bootstrap, caddyfile)})
  }

  ghost function Do(adapt: string -> Adaptation, w: World, step: Step): World
    requires Enabled(adapt, w, step)
  {
    match step
    case Start(key) => w.(manager := Some(Manager(key, Starting)))
    case Stop => w.(manager := None)
    case ReadMirror =>
      var mirror := if w.mirror.Some? then w.mirror.value else Mirror("", Unstamped);
      WithPhase(w, if mirror.stamp == SnapshotHash(CurrentBootstrap(w), mirror.caddyfile)
                   then Running(mirror.caddyfile, None) else Resetting)
    case PublishBootstrap => WithPhase(Publish(w, CurrentBootstrap(w)), Running(CurrentBootstrap(w), None))
    case ConfirmLoad(caddyfile, _, _) => w.(confirmed := w.confirmed + {(CurrentBootstrap(w), caddyfile)})
    case AcceptLoaded(caddyfile) => WithPhase(w, w.manager.value.phase.(accepted := caddyfile))
    case BeginPublish => WithPhase(w, w.manager.value.phase.(writing := Some(w.manager.value.phase.accepted)))
    case EndPublish(isApplied) =>
      var sent := if isApplied then Publish(w, w.manager.value.phase.writing.value) else w;
      WithPhase(sent, w.manager.value.phase.(writing := None))
    case EditMirror(mirror) => w.(mirror := mirror)
  }

  ghost predicate Init(w: World) {
    w.manager.None? && w.confirmed == {} && w.issued == {} && (w.mirror.Some? ==> !w.mirror.value.stamp.Digest?)
  }

  ghost predicate IsRun(adapt: string -> Adaptation, run: seq<World>, steps: seq<Step>) {
    && |run| == |steps| + 1
    && Init(run[0])
    && forall i :: 0 <= i < |steps| ==> Enabled(adapt, run[i], steps[i]) && run[i + 1] == Do(adapt, run[i], steps[i])
  }

  /** A text that may be booted under a bootstrap: the bootstrap itself, or confirmed under it. */
  predicate Legitimate(w: World, bootstrap: string, caddyfile: string) {
    caddyfile == bootstrap || (bootstrap, caddyfile) in w.confirmed
  }

  /** The load behind a confirmed pair left the admin endpoint reachable for its key. */
  ghost predicate Vetted(adapt: string -> Adaptation, pair: (string, string)) {
    exists key ::
      NulFree(key) && pair.0 == BootstrapCaddyfile(key) &&
      adapt(pair.1).Adapted? && Reachable(key, adapt(pair.1).admin)
  }

  ghost predicate Inv(adapt: string -> Adaptation, w: World) {
    && (forall pair :: pair in w.confirmed ==> Vetted(adapt, pair))
    && (forall pair :: pair in w.issued ==> NulFree(pair.0) && Legitimate(w, pair.0, pair.1))
    && (w.mirror.Some? ==> Unforged(w, w.mirror.value))
    && (w.manager.Some? ==> NulFree(w.manager.value.key))
    && (IsRunning(w) ==>
          && Legitimate(w, CurrentBootstrap(w), w.manager.value.phase.accepted)
          && (w.manager.value.phase.writing.Some? ==>
                Legitimate(w, CurrentBootstrap(w), w.manager.value.phase.writing.value)))
  }

  /** A stamp that matches the current bootstrap was issued for exactly this text. */
  lemma MatchedStampIsHonest(adapt: string -> Adaptation, w: World)
    requires Inv(adapt, w) && w.manager.Some? && w.mirror.Some?
    requires w.mirror.value.stamp == SnapshotHash(CurrentBootstrap(w), w.mirror.value.caddyfile)
    ensures Legitimate(w, CurrentBootstrap(w), w.mirror.value.caddyfile)
  {
    var pair :| pair in w.issued && w.mirror.value.stamp == SnapshotHash(pair.0, pair.1);
    BootstrapNulFree(w.manager.value.key);
    PairedInjective(pair.0, pair.1, CurrentBootstrap(w), w.mirror.value.caddyfile);
  }

  lemma InvStep(adapt: string -> Adaptation, w: World, step: Step)
    requires Inv(adapt, w) && Enabled(adapt, w, step)
    ensures Inv(adapt, Do(adapt, w, step))
  {
    var w' := Do(adapt, w, step);
    if w.manager.Some? {
      BootstrapNulFree(w.manager.value.key);
      if step.ReadMirror? && IsRunning(w') {
        MatchedStampIsHonest(adapt, w);
      }
      if step.ConfirmLoad? {
        assert Vetted(adapt, (CurrentBootstrap(w), step.caddyfile));
      }
    }
    if w'.mirror.Some? && w'.mirror.value.stamp.Digest? && !step.EditMirror? {
      if w'.mirror == w.mirror {
        var pair :| pair in w.issued && w.mirror.value.stamp == SnapshotHash(pair.0, pair.1);
        assert pair in w'.issued;
      } else {
        assert (CurrentBootstrap(w), w'.mirror.value.caddyfile) in w'.issued;
      }
    }
  }

  lemma {:induction false} InvAlways(adapt: string -> Adaptation, run: seq<World>, steps: seq<Step>, i: nat)
    requires IsRun(adapt, run, steps) && i < |run|
    ensures Inv(adapt, run[i])
  {
    if i > 0 {
      InvAlways(adapt, run, steps, i - 1);
      InvStep(adapt, run[i - 1], steps[i - 1]);
    }
  }

  /** Over any sequence of manager runs, foreign edits and key rotations, the accepted snapshot
      is the current bootstrap or a text confirmed under that same bootstrap. */
  lemma Provenance(adapt: string -> Adaptation, run: seq<World>, steps: seq<Step>, i: nat)
    requires IsRun(adapt, run, steps) && i < |run| && IsRunning(run[i])
    ensures Legitimate(run[i], CurrentBootstrap(run[i]), run[i].manager.value.phase.accepted)
  {
    InvAlways(adapt, run, steps, i);
  }

  /** A container that boots from this text answers the client of this key. */
  predicate AnswersClient(adapt: string -> Adaptation, text: string, key: string) {
    adapt(text).Adapted? && Answers(adapt(text).admin, RequestOf(key))
  }

  /** A text that may be booted under a key's bootstrap answers that key's client, if the
      bootstrap itself does. */
  lemma LegitimateIsAnswered(adapt: string -> Adaptation, w: World, key: string, text: string)
    requires Inv(adapt, w) && Legitimate(w, BootstrapCaddyfile(key), text)
    requires AnswersClient(adapt, BootstrapCaddyfile(key), key)
    ensures AnswersClient(adapt, text, key)
  {
    if text != BootstrapCaddyfile(key) {
      assert Vetted(adapt, (BootstrapCaddyfile(key), text));
      var other :| NulFree(other) && BootstrapCaddyfile(key) == BootstrapCaddyfile(other) &&
                   adapt(text).Adapted? && Reachable(other, adapt(text).admin);
      BootstrapInjective(other, key);
      ReachableExactly(key, adapt(text).admin);
    }
  }

  /** If a container booted from the current key's bootstrap answers that key's client, so does one
      booted from the accepted snapshot, in every state, also after a rotation. */
  lemma NoSelfLockout(adapt: string -> Adaptation, run: seq<World>, steps: seq<Step>, i: nat)
    requires IsRun(adapt, run, steps) && i < |run| && IsRunning(run[i])
    requires var key := run[i].manager.value.key; AnswersClient(adapt, BootstrapCaddyfile(key), key)
    ensures AnswersClient(adapt, run[i].manager.value.phase.accepted, run[i].manager.value.key)
  {
    InvAlways(adapt, run, steps, i);
    LegitimateIsAnswered(adapt, run[i], run[i].manager.value.key, run[i].manager.value.phase.accepted);
  }

  // ----- Restarts -----

  /** The mirror holds this text with the stamp of this key's bootstrap and the text. */
  predicate HoldsStamped(mirror: Option<Mirror>, key: string, text: string) {
    mirror == Some(Mirror(text, Digest(BootstrapCaddyfile(key) + "\0" + text)))
  }

  /** Exactly when a starting manager goes on with the mirror it finds: when it is stamped for the
      current bootstrap and its own text.  Then that text is accepted and nothing is written. */
  lemma KeepsMirrorExactly(adapt: string -> Adaptation, run: seq<World>, steps: seq<Step>, j: nat)
    requires IsRun(adapt, run, steps) && j < |steps| && steps[j] == ReadMirror
    ensures run[j].manager.Some? && run[j + 1].manager.Some?
    ensures IsRunning(run[j + 1]) <==> exists text :: HoldsStamped(run[j].mirror, run[j].manager.value.key, text)
    ensures IsRunning(run[j + 1]) ==>
              HoldsStamped(run[j].mirror, run[j].manager.value.key, run[j + 1].manager.value.phase.accepted)
    ensures run[j + 1].mirror == run[j].mirror && run[j + 1].manager.value.key == run[j].manager.value.key
    ensures !IsRunning(run[j + 1]) ==> run[j + 1].manager.value.phase == Resetting
  {
    var key := run[j].manager.value.key;
    if run[j].mirror.Some? && IsRunning(run[j + 1]) {
      assert HoldsStamped(run[j].mirror, key, run[j].mirror.value.caddyfile);
    }
  }

  /** Otherwise its next own step, unless it stops, publishes and accepts the bootstrap. */
  lemma ResetsToBootstrap(adapt: string -> Adaptation, run: seq<World>, steps: seq<Step>, j: nat, k: nat)
    requires IsRun(adapt, run, steps) && j < k < |steps| && steps[j] == ReadMirror && !IsRunning(run[j + 1])
    requires forall x :: j < x < k ==> steps[x].EditMirror?
    requires !steps[k].EditMirror? && steps[k] != Stop
    ensures run[j].manager.Some? && IsRunning(run[k + 1])
    ensures var key := run[j].manager.value.key;
            && run[k + 1].manager.value.key == key
            && run[k + 1].manager.value.phase.accepted == BootstrapCaddyfile(key)
            && HoldsStamped(run[k + 1].mirror, key, BootstrapCaddyfile(key))
  {
    KeepsMirrorExactly(adapt, run, steps, j);
    var manager := run[j + 1].manager;
    forall x | j + 1 <= x < k && run[x].manager == manager ensures run[x + 1].manager == manager {
      assert steps[x].EditMirror?;
    }
    Induct(run, j + 1, k, (w: World) => w.manager == manager);
  }

  predicate WritesMirror(step: Step) {
    step.EditMirror? || step.EndPublish? || step.PublishBootstrap?
  }

  /** A published snapshot survives a restart exactly under the same key: if nobody writes the
      mirror between a successful publish and the next manager's look at it, that manager goes on
      with the published text if its key is the same, and falls back to its bootstrap if not. */
  lemma SurvivesRestartExactly(adapt: string -> Adaptation, run: seq<World>, steps: seq<Step>, i: nat, j: nat)
    requires IsRun(adapt, run, steps) && i < j < |steps| && steps[i] == EndPublish(true) && steps[j] == ReadMirror
    requires forall x :: i < x < j ==> !WritesMirror(steps[x])
    ensures run[i].manager.Some? && run[i].manager.value.phase.Running? && run[i].manager.value.phase.writing.Some?
    ensures run[j].manager.Some? && run[j + 1].manager.Some?
    ensures var text := run[i].manager.value.phase.writing.value;
            run[j].manager.value.key == run[i].manager.value.key <==>
              IsRunning(run[j + 1]) && run[j + 1].manager.value.phase.accepted == text
  {
    var key, text := run[i].manager.value.key, run[i].manager.value.phase.writing.value;
    assert HoldsStamped(run[i + 1].mirror, key, text);
    forall x | i + 1 <= x < j && HoldsStamped(run[x].mirror, key, text)
      ensures HoldsStamped(run[x + 1].mirror, key, text)
    {
      assert !WritesMirror(steps[x]);
    }
    Induct(run, i + 1, j, (w: World) => HoldsStamped(w.mirror, key, text));
    KeepsMirrorExactly(adapt, run, steps, j);
    InvAlways(adapt, run, steps, i);
    InvAlways(adapt, run, steps, j);
    StampedFor(run[j].mirror, key, text, run[j].manager.value.key);
  }

  /** One mirror is stamped for one key. */
  lemma StampedFor(mirror: Option<Mirror>, key: string, text: string, other: string)
    requires HoldsStamped(mirror, key, text) && NulFree(key) && NulFree(other)
    ensures forall t :: HoldsStamped(mirror, other, t) ==> t == text && other == key
  {
    forall t | HoldsStamped(mirror, other, t) ensures t == text && other == key {
      BootstrapNulFree(key);
      BootstrapNulFree(other);
      PairedInjective(BootstrapCaddyfile(key), text, BootstrapCaddyfile(other), t);
      BootstrapInjective(key, other);
    }
  }
}
