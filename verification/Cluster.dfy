/** The objects one reconcile leaves behind: the pre-pull pod, the node's Deployment and Service
    if the rollout is not held, and no stale ones. */
module Cluster {
  import opened Containers
  import opened GoText
  import opened Naming
  import opened Rollout
  import P = RolloutProtocol

  datatype Object = Object(labels: map<string, string>, spec: string)

  type Objects = map<string, Object>  // by name

  datatype Options = Options(isCilium: bool, deploymentSpec: string, serviceSpec: string, digest: seq<Byte>)

  function ManagedLabels(node: string): map<string, string> {
    map["app" := "caddy", "instance" := node, "ckic.cmld.ru/caddy-managed" := "true"]
  }

  /** The label selector of `managedListOptions`. */
  predicate IsOwned(node: string, o: Object) {
    forall k :: k in ManagedLabels(node) ==> k in o.labels && o.labels[k] == ManagedLabels(node)[k]
  }

  /** Owned means: all three labels, with these values. */
  lemma OwnedExactly(node: string, o: Object)
    ensures IsOwned(node, o) <==>
              && "app" in o.labels && o.labels["app"] == "caddy"
              && "instance" in o.labels && o.labels["instance"] == node
              && "ckic.cmld.ru/caddy-managed" in o.labels && o.labels["ckic.cmld.ru/caddy-managed"] == "true"
  {
    var labels := ManagedLabels(node);
    assert "app" in labels && "instance" in labels && "ckic.cmld.ru/caddy-managed" in labels;
  }

  /** A label value: at most 63 characters, alphanumeric ends, also '-', '_' and '.' inside. */
  predicate IsLabelValue(s: string) {
    |s| <= LABEL_MAX &&
    (s != "" ==> IsValueEnd(s[0]) && IsValueEnd(s[|s| - 1])) &&
    forall i :: 0 <= i < |s| ==> IsValueEnd(s[i]) || s[i] in {'-', '_', '.'}
  }

  predicate IsValueEnd(c: char) { IsAlnum(c) || 'A' <= c <= 'Z' }

  /** A node name: a DNS subdomain, section 2.1 of RFC 1123. */
  predicate IsSubdomain(node: string) {
    node != "" && IsNodeName(node) && IsAlnum(node[0]) && IsAlnum(node[|node| - 1])
  }

  /** The only node names refused are those longer than a label value can be. */
  lemma RefusedExactly(node: string)
    requires IsSubdomain(node)
    ensures !IsLabelValue(node) <==> |node| > 63
  {
  }

  // ----- Effects on one kind of object -----

  /** Server-side apply: our spec and labels win, foreign labels stay. */
  function Applied(objects: Objects, name: string, node: string, spec: string): Objects {
    var labels := if name in objects then objects[name].labels else map[];
    objects[name := Object(labels + ManagedLabels(node), spec)]
  }

  function Owned(objects: Objects, node: string): set<string> {
    set k | k in objects && IsOwned(node, objects[k])
  }

  function Without(names: set<string>, keep: Option<string>): set<string> {
    if keep.Some? then names - {keep.value} else names
  }

  /** Everything but the objects owned for the node, one name excepted. */
  function Kept(objects: Objects, node: string, keep: Option<string>): Objects {
    objects - Without(Owned(objects, node), keep)
  }

  function PrePullPodName(node: string): string {
    "caddy-prepull-" + node
  }

  function PrePullOf(prePulls: map<string, Pod>, node: string): Option<Pod> {
    if PrePullPodName(node) in prePulls then Some(prePulls[PrePullPodName(node)]) else None
  }

  /** The pods after the step of the rollout protocol that synchronizes the node's pre-pull pod. */
  function SyncedPods(cfg: Config, prePulls: map<string, Pod>, uid: nat, node: string, self: NodeRollout, now: int)
    : map<string, Pod>
  {
    var pod := P.PodAfter(cfg, PrePullOf(prePulls, node), uid, P.PlanPod(cfg, self, now), now);
    if pod.Some? then prePulls[PrePullPodName(node) := pod.value] else prePulls - {PrePullPodName(node)}
  }

  /** `syncRollout` holds the Deployment back. */
  ghost predicate IsHeldBack(cfg: Config, node: string, self: NodeRollout, fleet: seq<NodeRollout>) {
    self.isPending && (!self.isInService || !Admits(Members(fleet), node, cfg.image))
  }

  datatype State = State(deployments: Objects, services: Objects)

  /** What `applyCaddy` is meant to leave: nothing but the desired objects for the node. */
  function Reconciled(s: State, opts: Options, node: string): State
    requires |opts.digest| == 6
  {
    State(
      Kept(Applied(s.deployments, DeploymentName(node), node, opts.deploymentSpec), node, Some(DeploymentName(node))),
      ReconciledServices(s.services, opts, node))
  }

  function ReconciledServices(services: Objects, opts: Options, node: string): Objects
    requires |opts.digest| == 6
  {
    var name := ServiceName(node, opts.digest);
    if opts.isCilium then Kept(Applied(services, name, node, opts.serviceSpec), node, Some(name))
    else Kept(services, node, None)
  }

  ghost function Names(names: seq<string>): set<string> {
    set k | k in names
  }

  lemma DeleteNext(objects: Objects, names: seq<string>, i: nat, keep: Option<string>)
    requires i < |names|
    ensures var before := objects - Without(Names(names[..i]), keep);
            objects - Without(Names(names[..i + 1]), keep) ==
            if Some(names[i]) == keep then before else before - {names[i]}
  {
    assert names[..i + 1] == names[..i] + [names[i]];
    assert Names(names[..i + 1]) == Names(names[..i]) + {names[i]};
  }

  lemma DeleteAll(objects: Objects, node: string, keep: Option<string>)
    ensures var owned := Sorted(Owned(objects, node));
            objects - Without(Names(owned[..|owned|]), keep) == Kept(objects, node, keep)
  {
    var owned := Sorted(Owned(objects, node));
    assert owned[..|owned|] == owned;
    assert Names(owned) == Owned(objects, node);
  }

  // ----- The API object and the sequential code -----

  class Api {
    var deployments: Objects
    var services: Objects
    var prePulls: map<string, Pod>
    var nextUid: nat

    constructor (s: State, pods: map<string, Pod>, uid: nat)
      ensures View() == s && prePulls == pods && nextUid == uid
    {
      deployments, services, prePulls, nextUid := s.deployments, s.services, pods, uid;
    }

    function View(): State
      reads this
    {
      State(deployments, services)
    }

    method DeleteServicesExcept(node: string, keep: Option<string>)
      modifies this`services
      ensures services == Kept(old(services), node, keep)
    {
      var owned := Sorted(Owned(services, node));
      for i := 0 to |owned|
        invariant services == old(services) - Without(Names(owned[..i]), keep)
      {
        DeleteNext(old(services), owned, i, keep);
        if Some(owned[i]) == keep {
          continue;
        }
        services := services - {owned[i]};
      }
      DeleteAll(old(services), node, keep);
    }

    method DeleteDeploymentsExcept(node: string, keep: Option<string>)
      modifies this`deployments
      ensures deployments == Kept(old(deployments), node, keep)
    {
      var owned := Sorted(Owned(deployments, node));
      for i := 0 to |owned|
        invariant deployments == old(deployments) - Without(Names(owned[..i]), keep)
      {
        DeleteNext(old(deployments), owned, i, keep);
        if Some(owned[i]) == keep {
          continue;
        }
        deployments := deployments - {owned[i]};
      }
      DeleteAll(old(deployments), node, keep);
    }

    method ApplyLoadBalancerService(opts: Options, node: string)
      requires |opts.digest| == 6 && opts.isCilium
      modifies this`services
      ensures View() == old(View()).(services := ReconciledServices(old(services), opts, node))
    {
      var name := ServiceName(node, opts.digest);
      services := Applied(services, name, node, opts.serviceSpec);
      DeleteServicesExcept(node, Some(name));
    }

    method EnsureLoadBalancerService(opts: Options, node: string)
      requires |opts.digest| == 6
      modifies this`services
      ensures View() == old(View()).(services := ReconciledServices(old(services), opts, node))
    {
      if !opts.isCilium {
        DeleteServicesExcept(node, None);
      } else {
        ApplyLoadBalancerService(opts, node);
      }
    }

    /** A delete carries the UID of the pod that was read, or none. */
    method DeletePrePullPod(node: string, uid: Option<nat>)
      modifies this`prePulls
      ensures var pod := PrePullOf(old(prePulls), node);
              prePulls == if uid.None? || (pod.Some? && pod.value.uid == uid.value)
                          then old(prePulls) - {PrePullPodName(node)} else old(prePulls)
    {
      var name := PrePullPodName(node);
      if name in prePulls && (uid.None? || prePulls[name].uid == uid.value) {
        prePulls := prePulls - {name};
      }
    }

    method CreatePrePullPod(cfg: Config, node: string, now: int)
      modifies this`prePulls, this`nextUid
      ensures PrePullOf(prePulls, node) == P.PodAfter(cfg, PrePullOf(old(prePulls), node), old(nextUid), P.MakePod, now)
      ensures prePulls - {PrePullPodName(node)} == old(prePulls) - {PrePullPodName(node)}
    {
      var name := PrePullPodName(node);
      if name !in prePulls {
        prePulls, nextUid := prePulls[name := P.NewPod(cfg, nextUid, now)], nextUid + 1;
      } else if PrePullPodImage(prePulls[name]) != cfg.image {
        prePulls := prePulls[name := prePulls[name].(containers := [Container(PRE_PULL_CONTAINER, cfg.image)])];
      }
    }

    /** `syncPrePullPod` is the rollout protocol's step on this node's pod and leaves all others. */
    method SyncPrePullPod(cfg: Config, node: string, self: NodeRollout, now: int)
      modifies this`prePulls, this`nextUid
      ensures prePulls == SyncedPods(cfg, old(prePulls), old(nextUid), node, self, now)
    {
      var pod := self.prePull;
      var isKept := pod.Some? && self.needsPrePull && PrePullPodImage(pod.value) == cfg.image &&
                    !IsRetryablePrePull(pod.value, now);
      if pod.Some? && !isKept {
        DeletePrePullPod(node, Some(pod.value.uid));
      } else if pod.None? && self.needsPrePull {
        CreatePrePullPod(cfg, node, now);
        assert prePulls == (prePulls - {PrePullPodName(node)})[PrePullPodName(node) := PrePullOf(prePulls, node).value];
        assert (old(prePulls) - {PrePullPodName(node)})[PrePullPodName(node) := PrePullOf(prePulls, node).value] ==
               old(prePulls)[PrePullPodName(node) := PrePullOf(prePulls, node).value];
      }
    }

    /** The decision of `syncRollout`, with the fleet that `admitRollout` would list. */
    method SyncRollout(cfg: Config, node: string, self: NodeRollout, now: int, fleet: seq<NodeRollout>)
      returns (isHeld: bool)
      requires WellNamed(Members(fleet))
      modifies this`prePulls, this`nextUid
      ensures prePulls == SyncedPods(cfg, old(prePulls), old(nextUid), node, self, now)
      ensures isHeld <==> IsHeldBack(cfg, node, self, fleet)
    {
      SyncPrePullPod(cfg, node, self, now);
      if !self.isPending {
        return false;
      }
      if !self.isInService {
        return true;
      }
      var hold := RolloutHold(fleet, node, cfg.image);
      return hold != Admit;
    }

    /** `applyCaddy`.  The pre-pull pod is synchronized first; a held run then leaves every
        Deployment alone; a name that cannot be a label value is refused before anything else is
        written. */
    method ApplyCaddy(opts: Options, cfg: Config, node: string, self: NodeRollout, now: int, fleet: seq<NodeRollout>)
      returns (isOk: bool)
      requires |opts.digest| == 6 && WellNamed(Members(fleet))
      modifies this
      ensures prePulls == SyncedPods(cfg, old(prePulls), old(nextUid), node, self, now)
      ensures IsHeldBack(cfg, node, self, fleet) ==>
                && isOk && deployments == old(deployments)
                && services == if opts.isCilium then ReconciledServices(old(services), opts, node) else old(services)
      ensures !IsHeldBack(cfg, node, self, fleet) ==>
                && isOk == IsLabelValue(node)
                && View() == if isOk then Reconciled(old(View()), opts, node) else old(View())
    {
      var isHeld := SyncRollout(cfg, node, self, now, fleet);
      if isHeld {
        if opts.isCilium {
          ApplyLoadBalancerService(opts, node);
        }
        return true;
      }
      if !IsLabelValue(node) {
        return false;
      }
      deployments := Applied(deployments, DeploymentName(node), node, opts.deploymentSpec);
      EnsureLoadBalancerService(opts, node);
      DeleteDeploymentsExcept(node, Some(DeploymentName(node)));
      return true;
    }

    method Teardown(node: string)
      modifies this
      ensures View() == if IsLabelValue(node)
                        then State(Kept(old(deployments), node, None), Kept(old(services), node, None))
                        else old(View())
      ensures prePulls == if IsLabelValue(node) then old(prePulls) - {PrePullPodName(node)} else old(prePulls)
    {
      if !IsLabelValue(node) {
        return;
      }
      DeleteServicesExcept(node, None);
      DeleteDeploymentsExcept(node, None);
      DeletePrePullPod(node, None);
    }
  }

  /** No other node's pre-pull pod is touched by a synchronization or a teardown. */
  lemma OtherPrePullsKept(
    cfg: Config, prePulls: map<string, Pod>, uid: nat, node: string, self: NodeRollout, now: int, m: string)
    requires m != node
    ensures PrePullOf(SyncedPods(cfg, prePulls, uid, node, self, now), m) == PrePullOf(prePulls, m)
    ensures PrePullOf(prePulls - {PrePullPodName(node)}, m) == PrePullOf(prePulls, m)
  {
    assert PrePullPodName(node)[14..] == node && PrePullPodName(m)[14..] == m;
  }

  // ----- What that state is -----

  /** Exactly the desired managed objects exist for the node. */
  predicate IsConverged(s: State, opts: Options, node: string)
    requires |opts.digest| == 6
  {
    var d, v := DeploymentName(node), ServiceName(node, opts.digest);
    && Owned(s.deployments, node) == {d} && s.deployments[d].spec == opts.deploymentSpec
    && Owned(s.services, node) == (if opts.isCilium then {v} else {})
    && (opts.isCilium ==> s.services[v].spec == opts.serviceSpec)
  }

  /** Applying and pruning leaves exactly one owned object, touches no other owner's object
      under another name, and is idempotent. */
  lemma ApplyAndPrune(objects: Objects, name: string, node: string, spec: string)
    ensures var after := Kept(Applied(objects, name, node, spec), node, Some(name));
            && Owned(after, node) == {name} && after[name].spec == spec
            && Kept(Applied(after, name, node, spec), node, Some(name)) == after
  {
    var applied := Applied(objects, name, node, spec);
    var after := Kept(applied, node, Some(name));
    assert IsOwned(node, applied[name]);
    assert Owned(after, node) == {name};
    assert Applied(after, name, node, spec) == after by {
      assert after[name].labels + ManagedLabels(node) == after[name].labels;
    }
    assert Without({name}, Some(name)) == {};
  }

  lemma PruneAll(objects: Objects, node: string)
    ensures Owned(Kept(objects, node, None), node) == {}
    ensures Kept(Kept(objects, node, None), node, None) == Kept(objects, node, None)
  {
    assert Owned(Kept(objects, node, None), node) == {};
  }

  /** From any state, an un-held reconcile converges, and doing it again changes nothing. */
  lemma ReconcileConverges(s: State, opts: Options, node: string)
    requires |opts.digest| == 6
    ensures IsConverged(Reconciled(s, opts, node), opts, node)
    ensures Reconciled(Reconciled(s, opts, node), opts, node) == Reconciled(s, opts, node)
  {
    ApplyAndPrune(s.deployments, DeploymentName(node), node, opts.deploymentSpec);
    if opts.isCilium {
      ApplyAndPrune(s.services, ServiceName(node, opts.digest), node, opts.serviceSpec);
    } else {
      PruneAll(s.services, node);
    }
  }

  /** An object that is not the node's own is left exactly as it was, if and only if it does
      not sit under the name the node's object takes. */
  lemma ForeignObjectsUntouched(objects: Objects, name: string, node: string, spec: string, k: string)
    requires k in objects && !IsOwned(node, objects[k])
    ensures var after := Kept(Applied(objects, name, node, spec), node, Some(name));
            (k in after && after[k] == objects[k]) <==> k != name
    ensures k in Kept(objects, node, None) && Kept(objects, node, None)[k] == objects[k]
  {
    var applied := Applied(objects, name, node, spec);
    assert IsOwned(node, applied[name]);
  }

  lemma OneOwner(m: string, n: string, o: Object)
    requires m != n && IsOwned(m, o)
    ensures !IsOwned(n, o)
  {
    assert "instance" in ManagedLabels(m) && "instance" in ManagedLabels(n);
  }

  /** What one node owns under its own name survives the other node's apply and prune. */
  lemma PruneKeepsOthers(objects: Objects, name: string, n: string, spec: string, m: string)
    requires m != n && (name in objects ==> !IsOwned(m, objects[name]))
    ensures var after := Kept(Applied(objects, name, n, spec), n, Some(name));
            Owned(after, m) == Owned(objects, m) && forall k :: k in Owned(objects, m) ==> after[k] == objects[k]
  {
    var applied := Applied(objects, name, n, spec);
    assert IsOwned(n, applied[name]);
    forall k | k in objects && IsOwned(m, objects[k]) ensures !IsOwned(n, objects[k]) {
      OneOwner(m, n, objects[k]);
    }
    OneOwner(n, m, applied[name]);
  }

  /** The two nodes' Services want the same name. */
  predicate ServicesCollide(optsM: Options, m: string, optsN: Options, n: string)
    requires |optsM.digest| == 6 && |optsN.digest| == 6
  {
    optsM.isCilium && optsN.isCilium && ServiceName(m, optsM.digest) == ServiceName(n, optsN.digest)
  }

  /** Reconciling one node keeps every other converged node converged, if and only if their
      Services do not want the same name; that takes two hashed names with equal digests. */
  lemma ReconcilesDoNotInterfere(s: State, optsM: Options, m: string, optsN: Options, n: string)
    requires m != n && |optsM.digest| == 6 && |optsN.digest| == 6
    requires IsConverged(s, optsM, m)
    ensures IsConverged(Reconciled(s, optsN, n), optsM, m) <==> !ServicesCollide(optsM, m, optsN, n)
    ensures ServicesCollide(optsM, m, optsN, n) ==>
              optsM.digest == optsN.digest && !IsLabel(PlainName(m)) && !IsLabel(PlainName(n))
  {
    DeploymentsKept(s, optsM, m, optsN, n);
    if ServicesCollide(optsM, m, optsN, n) {
      ServiceNamesDistinct(m, optsM.digest, n, optsN.digest);
      TakenOver(s.services, ServiceName(n, optsN.digest), m, n, optsN.serviceSpec);
    } else {
      ServicesKept(s, optsM, m, optsN, n);
    }
  }

  lemma DeploymentsKept(s: State, optsM: Options, m: string, optsN: Options, n: string)
    requires m != n && |optsM.digest| == 6 && |optsN.digest| == 6 && IsConverged(s, optsM, m)
    ensures var after, d := Reconciled(s, optsN, n).deployments, DeploymentName(m);
            Owned(after, m) == {d} && after[d].spec == optsM.deploymentSpec
  {
    var d := DeploymentName(n);
    assert d[6..] == n && DeploymentName(m)[6..] == m;
    assert d in s.deployments && IsOwned(m, s.deployments[d]) ==> d in Owned(s.deployments, m);
    PruneKeepsOthers(s.deployments, d, n, optsN.deploymentSpec, m);
  }

  lemma ServicesKept(s: State, optsM: Options, m: string, optsN: Options, n: string)
    requires m != n && |optsM.digest| == 6 && |optsN.digest| == 6 && IsConverged(s, optsM, m)
    requires !ServicesCollide(optsM, m, optsN, n)
    ensures var after := Reconciled(s, optsN, n).services;
            Owned(after, m) == Owned(s.services, m) && forall k :: k in Owned(after, m) ==> after[k] == s.services[k]
  {
    var v := ServiceName(n, optsN.digest);
    if optsN.isCilium {
      assert v in s.services && IsOwned(m, s.services[v]) ==> v in Owned(s.services, m);
      PruneKeepsOthers(s.services, v, n, optsN.serviceSpec, m);
    } else {
      PruneLeavesOthers(s.services, n, m);
    }
  }

  /** An object under the name another node applies belongs to that node afterwards. */
  lemma TakenOver(objects: Objects, name: string, m: string, n: string, spec: string)
    requires m != n
    ensures name !in Owned(Kept(Applied(objects, name, n, spec), n, Some(name)), m)
  {
    var applied := Applied(objects, name, n, spec);
    assert IsOwned(n, applied[name]);
    OneOwner(n, m, applied[name]);
  }

  lemma PruneLeavesOthers(objects: Objects, n: string, m: string)
    requires m != n
    ensures var after := Kept(objects, n, None);
            Owned(after, m) == Owned(objects, m) && forall k :: k in Owned(objects, m) ==> after[k] == objects[k]
  {
    forall k | k in objects && IsOwned(m, objects[k]) ensures !IsOwned(n, objects[k]) {
      OneOwner(m, n, objects[k]);
    }
  }

  /** Such a pair: with equal digests, two names that differ in a dot and a dash collide. */
  lemma CollidingPair(opts: Options)
    requires |opts.digest| == 6 && opts.isCilium
    ensures ServicesCollide(opts, "a.b.c", opts, "a.b-c")
  {
    CollidingNames(opts.digest);
  }
}
