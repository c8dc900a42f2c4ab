/** The external informer keeps the aggregator's fragments in step with the labelled
    ConfigMaps of the allowed namespaces. */
module Externals {
  import opened Containers
  import Agg = Aggregator

  datatype Config = Config(namespace: string, allow: seq<string>, deny: seq<string>)

  predicate NamespaceAllowed(cfg: Config, namespace: string) {
    namespace != cfg.namespace && namespace !in cfg.deny && (|cfg.allow| == 0 || namespace in cfg.allow)
  }

  type Key = (string, string)  // namespace, name

  /** A labelled ConfigMap, as far as the handler reads it. */
  datatype ConfigMap = ConfigMap(caddyfile: Option<string>)

  function Source(key: Key): string {
    key.0 + "/" + key.1
  }

  /** Namespace names are DNS labels: they contain no slash. */
  predicate NoSlash(s: string) {
    '/' !in s
  }

  lemma SourceInjective(a: Key, b: Key)
    requires NoSlash(a.0) && NoSlash(b.0) && Source(a) == Source(b)
    ensures a == b
  {
    var s, t := Source(a), Source(b);
    assert s[|a.0|] == '/' && forall i :: 0 <= i < |a.0| ==> s[i] == a.0[i];
    assert t[|b.0|] == '/' && forall i :: 0 <= i < |b.0| ==> t[i] == b.0[i];
    assert |a.0| == |b.0|;
    assert a.0 == s[..|a.0|] && b.0 == t[..|b.0|];
    assert a.1 == s[|a.0| + 1..] && b.1 == t[|b.0| + 1..];
  }

  datatype Event = Upsert(key: Key, cm: ConfigMap) | Deleted(key: Key)

  /** `externalConfigMapHandler`. */
  function Handle(cfg: Config, agg: Agg.State, e: Event): Agg.State {
    match e
    case Upsert(key, cm) =>
      if !NamespaceAllowed(cfg, key.0) then agg
      else if cm.caddyfile.None? then Agg.Update(agg, Agg.RemoveExternal(Source(key)))
      else Agg.Update(agg, Agg.SetExternal(Source(key), cm.caddyfile.value))
    case Deleted(key) => Agg.Update(agg, Agg.RemoveExternal(Source(key)))
  }

  /** `store` holds the ConfigMaps that carry the label now; `queue` the undelivered informer
      events, oldest first. */
  datatype World = World(store: map<Key, ConfigMap>, queue: seq<Event>, agg: Agg.State)

  datatype Step =
    | Put(key: Key, cm: ConfigMap)    // created, changed, or label gained
    | Remove(key: Key)                // deleted, or label lost
    | Deliver
    | Compress(at: nat)               // the informer skips an outdated event
    | DropUnknown(at: nat)            // a relist does not report a deletion of what it never knew
    | Other(op: Agg.Op)               // base update or acceptance

  predicate Enabled(w: World, step: Step) {
    match step
    case Put(key, _) => NoSlash(key.0)
    case Remove(key) => key in w.store
    case Deliver => w.queue != []
    case Compress(at) => at < |w.queue| && exists j :: at < j < |w.queue| && w.queue[j].key == w.queue[at].key
    case DropUnknown(at) =>
      && at < |w.queue| && w.queue[at].Deleted? && Held(w.agg, w.queue[at].key) == None
      && forall j :: 0 <= j < |w.queue| && w.queue[j].key == w.queue[at].key ==> j == at
    case Other(op) => op.UpdateBase? || op.Accept?
  }

  function Do(cfg: Config, w: World, step: Step): World
    requires Enabled(w, step)
  {
    match step
    case Put(key, cm) => w.(store := w.store[key := cm], queue := w.queue + [Upsert(key, cm)])
    case Remove(key) => w.(store := w.store - {key}, queue := w.queue + [Deleted(key)])
    case Deliver => w.(queue := w.queue[1..], agg := Handle(cfg, w.agg, w.queue[0]))
    case Compress(at) => w.(queue := w.queue[..at] + w.queue[at + 1..])
    case DropUnknown(at) => w.(queue := w.queue[..at] + w.queue[at + 1..])
    case Other(op) => w.(agg := Agg.Update(w.agg, op))
  }

  predicate Init(w: World) {
    w.store == map[] && w.queue == [] && w.agg.externals == map[]
  }

  ghost predicate IsRun(cfg: Config, run: seq<World>, steps: seq<Step>) {
    && |run| == |steps| + 1
    && Init(run[0])
    && forall i :: 0 <= i < |steps| ==> Enabled(run[i], steps[i]) && run[i + 1] == Do(cfg, run[i], steps[i])
  }

  /** The fragment a key should contribute, if any. */
  function Wanted(cfg: Config, store: map<Key, ConfigMap>, key: Key): Option<string> {
    if key in store && NamespaceAllowed(cfg, key.0) then store[key].caddyfile else None
  }

  function Held(agg: Agg.State, key: Key): Option<string> {
    if Source(key) in agg.externals then Some(agg.externals[Source(key)]) else None
  }

  function EventFor(store: map<Key, ConfigMap>, key: Key): Event {
    if key in store then Upsert(key, store[key]) else Deleted(key)
  }

  /** The newest undelivered event about a key. */
  function Last(queue: seq<Event>, key: Key): Option<Event> {
    if queue == [] then None
    else if queue[|queue| - 1].key == key then Some(queue[|queue| - 1])
    else Last(queue[..|queue| - 1], key)
  }

  lemma {:induction false} LastConcat(a: seq<Event>, b: seq<Event>, key: Key)
    ensures Last(a + b, key) == if Last(b, key).Some? then Last(b, key) else Last(a, key)
  {
    if b == [] {
      assert a + b == a;
    } else {
      assert (a + b)[..|a + b| - 1] == a + b[..|b| - 1];
      LastConcat(a, b[..|b| - 1], key);
    }
  }

  lemma {:induction false} LastMentions(queue: seq<Event>, j: nat)
    requires j < |queue|
    ensures Last(queue, queue[j].key).Some?
  {
    if j < |queue| - 1 {
      LastMentions(queue[..|queue| - 1], j);
    }
  }

  /** The newest event about a key tells the store's truth; a key without one is settled. */
  predicate KeyOK(cfg: Config, w: World, key: Key) {
    && (match Last(w.queue, key)
        case Some(e) => e == EventFor(w.store, key)
        case None => Held(w.agg, key) == Wanted(cfg, w.store, key))
    && (!NamespaceAllowed(cfg, key.0) ==> Held(w.agg, key) == None)
  }

  ghost predicate Inv(cfg: Config, w: World) {
    && (forall key :: key in w.store ==> NoSlash(key.0))
    && (forall e :: e in w.queue ==> NoSlash(e.key.0))
    && (forall key: Key :: NoSlash(key.0) ==> KeyOK(cfg, w, key))
    && (forall source :: source in w.agg.externals ==> exists key: Key :: NoSlash(key.0) && source == Source(key))
  }

  /** Handling an event settles its own key and leaves every other key alone. */
  lemma HandleOne(cfg: Config, w: World, e: Event, key: Key)
    requires Inv(cfg, w) && NoSlash(e.key.0) && NoSlash(key.0)
    ensures key != e.key ==> Held(Handle(cfg, w.agg, e), key) == Held(w.agg, key)
    ensures e == EventFor(w.store, e.key) ==> Held(Handle(cfg, w.agg, e), e.key) == Wanted(cfg, w.store, e.key)
    ensures !NamespaceAllowed(cfg, e.key.0) ==> Held(Handle(cfg, w.agg, e), e.key) == None
  {
    assert KeyOK(cfg, w, e.key);
    if key != e.key && Source(key) == Source(e.key) {
      SourceInjective(key, e.key);
    }
  }

  lemma QueueGrows(cfg: Config, w: World, e: Event, store: map<Key, ConfigMap>, key: Key)
    requires KeyOK(cfg, w, key)
    requires key == e.key ==> e == EventFor(store, key)
    requires key != e.key ==> EventFor(store, key) == EventFor(w.store, key)
    ensures KeyOK(cfg, World(store, w.queue + [e], w.agg), key)
  {
    LastConcat(w.queue, [e], key);
    assert Last([e], key) == if e.key == key then Some(e) else Last([e][..0], key);
  }

  lemma DeliverKey(cfg: Config, w: World, key: Key)
    requires Inv(cfg, w) && w.queue != [] && NoSlash(key.0)
    ensures KeyOK(cfg, Do(cfg, w, Deliver), key)
  {
    var e := w.queue[0];
    assert e in w.queue && KeyOK(cfg, w, key);
    HandleOne(cfg, w, e, key);
    assert w.queue == [e] + w.queue[1..];
    LastConcat([e], w.queue[1..], key);
    assert Last([e], key) == if e.key == key then Some(e) else Last([e][..0], key);
  }

  lemma CompressKey(cfg: Config, w: World, at: nat, key: Key)
    requires Enabled(w, Compress(at)) && KeyOK(cfg, w, key)
    ensures KeyOK(cfg, Do(cfg, w, Compress(at)), key)
  {
    var a, e, b := w.queue[..at], w.queue[at], w.queue[at + 1..];
    var later :| at < later < |w.queue| && w.queue[later].key == e.key;
    assert b[later - at - 1] == w.queue[later];
    LastMentions(b, later - at - 1);
    assert w.queue == a + ([e] + b);
    LastConcat(a, [e] + b, key);
    LastConcat([e], b, key);
    LastConcat(a, b, key);
    assert Last([e], key) == if e.key == key then Some(e) else Last([e][..0], key);
  }

  lemma {:induction false} LastUnmentioned(queue: seq<Event>, key: Key)
    requires forall e :: e in queue ==> e.key != key
    ensures Last(queue, key).None?
  {
    if queue != [] {
      LastUnmentioned(queue[..|queue| - 1], key);
    }
  }

  lemma DropKey(cfg: Config, w: World, at: nat, key: Key)
    requires Enabled(w, DropUnknown(at)) && KeyOK(cfg, w, key)
    ensures KeyOK(cfg, Do(cfg, w, DropUnknown(at)), key)
  {
    var a, e, b := w.queue[..at], w.queue[at], w.queue[at + 1..];
    assert w.queue == a + ([e] + b);
    LastConcat(a, [e] + b, key);
    LastConcat([e], b, key);
    LastConcat(a, b, key);
    assert Last([e], key) == if e.key == key then Some(e) else Last([e][..0], key);
    if key == e.key {
      LastUnmentioned(a, key);
      LastUnmentioned(b, key);
    }
  }

  lemma KeyStep(cfg: Config, w: World, step: Step, key: Key)
    requires Inv(cfg, w) && Enabled(w, step) && NoSlash(key.0)
    ensures KeyOK(cfg, Do(cfg, w, step), key)
  {
    assert KeyOK(cfg, w, key);
    match step
    case Put(k, cm) => QueueGrows(cfg, w, Upsert(k, cm), Do(cfg, w, step).store, key);
    case Remove(k) => QueueGrows(cfg, w, Deleted(k), Do(cfg, w, step).store, key);
    case Deliver => DeliverKey(cfg, w, key);
    case Compress(at) => CompressKey(cfg, w, at, key);
    case DropUnknown(at) => DropKey(cfg, w, at, key);
    case Other(op) =>
  }

  lemma InvStep(cfg: Config, w: World, step: Step)
    requires Inv(cfg, w) && Enabled(w, step)
    ensures Inv(cfg, Do(cfg, w, step))
  {
    var w' := Do(cfg, w, step);
    forall key: Key | NoSlash(key.0) ensures KeyOK(cfg, w', key) {
      KeyStep(cfg, w, step, key);
    }
    NamesStep(cfg, w, step);
    SourcesStep(cfg, w, step);
  }

  lemma NamesStep(cfg: Config, w: World, step: Step)
    requires Inv(cfg, w) && Enabled(w, step)
    ensures var w' := Do(cfg, w, step);
            && (forall key :: key in w'.store ==> NoSlash(key.0))
            && (forall e :: e in w'.queue ==> NoSlash(e.key.0))
  {
    var w' := Do(cfg, w, step);
    forall e | e in w'.queue && e !in w.queue ensures NoSlash(e.key.0) {
      assert w'.queue[|w'.queue| - 1] == e;
    }
  }

  lemma SourcesStep(cfg: Config, w: World, step: Step)
    requires Inv(cfg, w) && Enabled(w, step)
    ensures forall source :: source in Do(cfg, w, step).agg.externals ==>
              exists key: Key :: NoSlash(key.0) && source == Source(key)
  {
    if step.Deliver? {
      assert w.queue[0] in w.queue;
    }
  }

  lemma {:induction false} InvAlways(cfg: Config, run: seq<World>, steps: seq<Step>, i: nat)
    requires IsRun(cfg, run, steps) && i < |run|
    ensures Inv(cfg, run[i])
  {
    if i > 0 {
      InvAlways(cfg, run, steps, i - 1);
      InvStep(cfg, run[i - 1], steps[i - 1]);
    }
  }

  /** Once the events are drained, the fragments are exactly those of the labelled ConfigMaps
      in allowed namespaces that carry a Caddyfile, whatever happened before. */
  lemma DrainedViewIsExact(cfg: Config, run: seq<World>, steps: seq<Step>, i: nat)
    requires IsRun(cfg, run, steps) && i < |run| && run[i].queue == []
    ensures var w := run[i];
            forall source, fragment ::
              source in w.agg.externals && w.agg.externals[source] == fragment <==>
              exists key :: key in w.store && key.0 != cfg.namespace && key.0 !in cfg.deny &&
                            (cfg.allow == [] || key.0 in cfg.allow) &&
                            w.store[key].caddyfile == Some(fragment) && Source(key) == source
  {
    InvAlways(cfg, run, steps, i);
    var w := run[i];
    forall key: Key | NoSlash(key.0) ensures Held(w.agg, key) == Wanted(cfg, w.store, key) {
      assert KeyOK(cfg, w, key);
    }
    forall source, fragment | source in w.agg.externals && w.agg.externals[source] == fragment
      ensures exists key :: key in w.store && NamespaceAllowed(cfg, key.0) &&
                            w.store[key].caddyfile == Some(fragment) && Source(key) == source
    {
      var key: Key :| NoSlash(key.0) && source == Source(key);
      assert Held(w.agg, key) == Some(fragment);
    }
    forall source, fragment, key | key in w.store && NamespaceAllowed(cfg, key.0) &&
                                   w.store[key].caddyfile == Some(fragment) && Source(key) == source
      ensures source in w.agg.externals && w.agg.externals[source] == fragment
    {
      assert Held(w.agg, key) == Some(fragment);
    }
  }
}
