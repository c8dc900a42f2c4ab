/** What one reconcile knows about a node (`nodeRollout`) and the admission decision taken
    over the whole fleet (`rolloutHold`). */
module Rollout {
  import opened Containers
  import opened GoText

  // ----- Cluster objects, as far as the rollout reads them -----

  /** The pod template of one node.  Its hash is represented by the template itself. */
  datatype Template = Template(node: string, image: string, options: string)

  datatype Config = Config(image: string, options: string, prePullImage: bool)

  function Target(cfg: Config, node: string): Template {
    Template(node, cfg.image, cfg.options)
  }

  datatype DeploymentStatus = DeploymentStatus(observedGeneration: int, replicas: int, updated: int, available: int)

  /** `stamp` is the template-hash annotation (None when the annotation is missing). */
  datatype Deployment = Deployment(
    stamp: Option<Template>, template: Template, replicas: Option<int>, generation: int, status: DeploymentStatus)

  function Replicas(d: Deployment): int {
    if d.replicas.Some? then d.replicas.value else 1
  }

  predicate IsRolledOut(d: Deployment) {
    var replicas := Replicas(d);
    d.status.observedGeneration >= d.generation &&
    d.status.replicas == replicas && d.status.updated == replicas && d.status.available == replicas
  }

  /** A pod of the Deployment, as the cluster knows it. */
  datatype Replica = Replica(template: Template, isAvailable: bool)

  /** A status that has caught up with the spec counts the Deployment's pods: all, those with the
      current template, and the available ones. */
  ghost predicate Reports(d: Deployment, pods: map<nat, Replica>) {
    d.status.observedGeneration >= d.generation ==>
      && d.status.replicas == |pods|
      && d.status.updated == |Updated(d, pods)|
      && d.status.available == |Available(pods)|
  }

  function Updated(d: Deployment, pods: map<nat, Replica>): set<nat> {
    set p | p in pods && pods[p].template == d.template
  }

  function Available(pods: map<nat, Replica>): set<nat> {
    set p | p in pods && pods[p].isAvailable
  }

  lemma FullSubset<T>(a: set<T>, b: set<T>)
    requires a <= b && |a| == |b|
    ensures a == b
  {
    if a != b {
      var x :| x in b && x !in a;
      SubsetCard(a, b - {x});
    }
  }

  lemma {:induction false} SubsetCard<T>(a: set<T>, b: set<T>)
    requires a <= b
    ensures |a| <= |b|
  {
    if a != {} {
      var x :| x in a;
      SubsetCard(a - {x}, b - {x});
    }
  }

  /** `isRolledOut` means what it should: the status is current, the number of pods is the wanted
      one, and every single pod has the current template and is available. */
  lemma RolledOutExactly(d: Deployment, pods: map<nat, Replica>)
    requires Reports(d, pods)
    ensures IsRolledOut(d) <==>
              && d.status.observedGeneration >= d.generation
              && |pods| == (if d.replicas.Some? then d.replicas.value else 1)
              && forall p :: p in pods ==> pods[p].template == d.template && pods[p].isAvailable
  {
    var updated, available := Updated(d, pods), Available(pods);
    assert |pods| == |pods.Keys|;
    if |updated| == |pods.Keys| && |available| == |pods.Keys| {
      FullSubset(updated, pods.Keys);
      FullSubset(available, pods.Keys);
      assert forall p :: p in pods ==> p in updated && p in available;
    }
    if forall p :: p in pods ==> pods[p].template == d.template && pods[p].isAvailable {
      assert updated == pods.Keys && available == pods.Keys;
    }
  }

  datatype ContainerState = Unset | Waiting(reason: string) | Running | Terminated
  datatype ContainerStatus = ContainerStatus(name: string, containerID: string, state: ContainerState)
  datatype Container = Container(name: string, image: string)
  datatype PodPhase = PodPending | PodRunning | PodSucceeded | PodFailed

  datatype Pod = Pod(
    uid: nat, created: int, containers: seq<Container>, phase: PodPhase, statuses: seq<ContainerStatus>)

  const PRE_PULL_CONTAINER := "prepull"
  const PRE_PULL_RETRY_INTERVAL := 60

  function ImageOf(containers: seq<Container>): string {
    if containers == [] then "" else
    if containers[0].name == PRE_PULL_CONTAINER then containers[0].image else ImageOf(containers[1..])
  }

  /** `PrePullPodImage`: the image of the first container named "prepull". */
  function PrePullPodImage(pod: Pod): string {
    ImageOf(pod.containers)
  }

  const PULLED_REASONS := {
    "CreateContainerConfigError", "CreateContainerError", "PreCreateHookError", "PreStartHookError",
    "PostStartHookError", "RunContainerError", "CrashLoopBackOff" }

  /** This status of the pre-pull container can only be reached after the image was pulled. */
  predicate ShowsPull(status: ContainerStatus) {
    status.name == PRE_PULL_CONTAINER &&
    ((status.containerID != "" && (status.state.Running? || status.state.Terminated?)) ||
     (status.state.Waiting? && status.state.reason in PULLED_REASONS))
  }

  predicate IsImagePrePulled(pod: Pod) {
    exists status :: status in pod.statuses && ShowsPull(status)
  }

  /** The image is that of the first container named "prepull", or missing. */
  lemma {:induction false} PrePullPodImageExactly(containers: seq<Container>)
    ensures (forall i :: 0 <= i < |containers| ==> containers[i].name != "prepull") ==> ImageOf(containers) == ""
    ensures forall i :: 0 <= i < |containers| && containers[i].name == "prepull" &&
                        (forall j :: 0 <= j < i ==> containers[j].name != "prepull") ==>
              ImageOf(containers) == containers[i].image
  {
    if containers != [] && containers[0].name != "prepull" {
      PrePullPodImageExactly(containers[1..]);
      forall i | 0 <= i < |containers| && containers[i].name == "prepull" &&
                 (forall j :: 0 <= j < i ==> containers[j].name != "prepull")
        ensures ImageOf(containers) == containers[i].image
      {
        assert containers[1..][i - 1] == containers[i];
        assert forall j :: 0 <= j < i - 1 ==> containers[1..][j] == containers[j + 1];
      }
    }
  }

  // ----- What the kubelet reports of the pre-pull container -----

  datatype PullTrouble =
    | NoReason | ContainerCreating | PodInitializing | ErrImagePull | ImagePullBackOff | ErrImageNeverPull
    | InvalidImageName | ImageInspectError | RegistryUnavailable | SignatureValidationFailed

  datatype StartTrouble =
    | ConfigError | CreateError | PreCreateHook | PreStartHook | PostStartHook | RunError | CrashLoop

  /** The container's life: waiting for its image, given up before it was created, unable to
      start although the image is there, running, or ended. */
  datatype Life =
    | Unreported
    | Pulling(pullTrouble: PullTrouble)
    | GivenUp
    | Starting(startTrouble: StartTrouble)
    | Started(id: string)
    | Ended(id: string)

  predicate HasPulled(life: Life) {
    life.Starting? || life.Started? || life.Ended?
  }

  /** Waiting reasons by the kubelet's own names. */
  function PullReason(trouble: PullTrouble): string {
    match trouble
    case NoReason => ""
    case ContainerCreating => "ContainerCreating"
    case PodInitializing => "PodInitializing"
    case ErrImagePull => "ErrImagePull"
    case ImagePullBackOff => "ImagePullBackOff"
    case ErrImageNeverPull => "ErrImageNeverPull"
    case InvalidImageName => "InvalidImageName"
    case ImageInspectError => "ImageInspectError"
    case RegistryUnavailable => "RegistryUnavailable"
    case SignatureValidationFailed => "SignatureValidationFailed"
  }

  function StartReason(trouble: StartTrouble): string {
    match trouble
    case ConfigError => "CreateContainerConfigError"
    case CreateError => "CreateContainerError"
    case PreCreateHook => "PreCreateHookError"
    case PreStartHook => "PreStartHookError"
    case PostStartHook => "PostStartHookError"
    case RunError => "RunContainerError"
    case CrashLoop => "CrashLoopBackOff"
  }

  /** The status shows this point of a container's life; a container that never was created has
      no ID, one that was started has. */
  predicate IsShown(status: ContainerStatus, life: Life) {
    match life
    case Unreported => status.state.Unset? && status.containerID == ""
    case Pulling(trouble) => status.state == Waiting(PullReason(trouble)) && status.containerID == ""
    case GivenUp => status.state.Terminated? && status.containerID == ""
    case Starting(trouble) => status.state == Waiting(StartReason(trouble))
    case Started(id) => status.state.Running? && status.containerID == id != ""
    case Ended(id) => status.state.Terminated? && status.containerID == id != ""
  }

  /** `IsImagePrePulled` recognizes exactly the lives that got past the pull. */
  lemma ShowsPullExactly(status: ContainerStatus, life: Life)
    requires IsShown(status, life)
    ensures ShowsPull(status) <==> status.name == "prepull" && HasPulled(life)
  {
  }

  /** The pod's status is honest: without the image, its pre-pull container shows a life without
      a pull. */
  ghost predicate IsHonest(pod: Pod, hasImage: bool) {
    hasImage || forall status :: status in pod.statuses && status.name == PRE_PULL_CONTAINER ==>
                  exists life :: IsShown(status, life) && !HasPulled(life)
  }

  lemma HonestPull(pod: Pod, hasImage: bool)
    requires IsHonest(pod, hasImage) && IsImagePrePulled(pod)
    ensures hasImage
  {
    if !hasImage {
      var status :| status in pod.statuses && ShowsPull(status);
      var life :| IsShown(status, life) && !HasPulled(life);
      ShowsPullExactly(status, life);
    }
  }

  predicate IsRetryablePrePull(pod: Pod, now: int) {
    pod.phase == PodFailed && !IsImagePrePulled(pod) && now - pod.created >= PRE_PULL_RETRY_INTERVAL
  }

  datatype NodeCondition = NodeCondition(isReadyType: bool, isTrue: bool)
  datatype Node = Node(unschedulable: bool, conditions: seq<NodeCondition>)

  predicate FirstReadyIsTrue(conditions: seq<NodeCondition>) {
    conditions != [] &&
    if conditions[0].isReadyType then conditions[0].isTrue else FirstReadyIsTrue(conditions[1..])
  }

  predicate IsInService(node: Node) {
    !node.unschedulable && FirstReadyIsTrue(node.conditions)
  }

  /** In service means: not cordoned, and the first Ready condition says so. */
  lemma {:induction false} FirstReadyExactly(conditions: seq<NodeCondition>)
    ensures FirstReadyIsTrue(conditions) <==>
              exists i :: 0 <= i < |conditions| && conditions[i] == NodeCondition(true, true) &&
                          forall j :: 0 <= j < i ==> !conditions[j].isReadyType
  {
    if conditions != [] && !conditions[0].isReadyType {
      var rest := conditions[1..];
      FirstReadyExactly(rest);
      if FirstReadyIsTrue(rest) {
        var i :| 0 <= i < |rest| && rest[i] == NodeCondition(true, true) &&
                 forall j :: 0 <= j < i ==> !rest[j].isReadyType;
        assert conditions[i + 1] == rest[i];
        assert forall j :: 0 < j < i + 1 ==> conditions[j] == rest[j - 1];
      }
      forall i | 0 <= i < |conditions| && conditions[i] == NodeCondition(true, true) &&
                 (forall j :: 0 <= j < i ==> !conditions[j].isReadyType)
        ensures FirstReadyIsTrue(rest)
      {
        assert rest[i - 1] == conditions[i];
        assert forall j :: 0 <= j < i - 1 ==> rest[j] == conditions[j + 1];
      }
    }
  }

  lemma InServiceExactly(node: Node)
    ensures IsInService(node) <==>
              && !node.unschedulable
              && exists i :: 0 <= i < |node.conditions| && node.conditions[i] == NodeCondition(true, true) &&
                             forall j :: 0 <= j < i ==> !node.conditions[j].isReadyType
  {
    FirstReadyExactly(node.conditions);
  }

  // ----- The per-node record -----

  datatype NodeRollout = NodeRollout(
    name: string, isInService: bool, isPending: bool, isAvailable: bool, needsPrePull: bool, prePull: Option<Pod>)
  {
    predicate HasPrePulled(image: string) {
      prePull.Some? && PrePullPodImage(prePull.value) == image && IsImagePrePulled(prePull.value)
    }

    predicate LacksPrePull(image: string) {
      needsPrePull && !HasPrePulled(image)
    }
  }

  function MakeRollout(cfg: Config, name: string, inService: bool, pod: Option<Pod>, deployment: Option<Deployment>)
    : NodeRollout
  {
    match deployment
    case None => NodeRollout(name, inService, false, true, false, pod)
    case Some(d) =>
      var isPending := d.stamp != Some(Target(cfg, name));
      NodeRollout(name, inService, isPending, IsRolledOut(d),
                  isPending && inService && cfg.prePullImage && d.template.image != cfg.image, pod)
  }

  // ----- The admission decision -----

  datatype Hold =
    | Admit
    | WaitForPrePull(node: string)
    | NotInService
    | WaitForAvailable(node: string)
    | WaitForTurn(first: string)

  /** Distinct, non-empty names: what the node lister guarantees. */
  ghost predicate WellNamed(fleet: set<NodeRollout>) {
    && (forall a, b :: a in fleet && b in fleet && a.name == b.name ==> a == b)
    && (forall a :: a in fleet ==> a.name != "")
  }

  ghost function Members(fleet: seq<NodeRollout>): set<NodeRollout> {
    set r | r in fleet
  }

  ghost function PendingNames(fleet: set<NodeRollout>): set<string> {
    set r | r in fleet && r.isPending :: r.name
  }

  /** The admission rule, independent of the order in which the fleet is listed. */
  ghost predicate Admits(fleet: set<NodeRollout>, selfName: string, image: string) {
    && (forall r :: r in fleet ==> !r.LacksPrePull(image))
    && exists self :: self in fleet && self.name == selfName &&
         (self.isPending && self.isAvailable ==>
            && (forall r :: r in fleet && r.name != selfName ==> r.isAvailable)
            && IsLeast(selfName, PendingNames(fleet)))
  }

  /** Why a hold has its reason and names the node it names. */
  ghost predicate Justified(fleet: set<NodeRollout>, selfName: string, image: string, hold: Hold) {
    && (!hold.WaitForPrePull? ==> forall r :: r in fleet ==> !r.LacksPrePull(image))
    && match hold
       case Admit => Admits(fleet, selfName, image)
       case WaitForPrePull(n) => exists r :: r in fleet && r.name == n && r.LacksPrePull(image)
       case NotInService => forall r :: r in fleet ==> r.name != selfName
       case WaitForAvailable(n) =>
         && n != selfName
         && (exists r :: r in fleet && r.name == n && !r.isAvailable)
         && (exists self :: self in fleet && self.name == selfName && self.isPending && self.isAvailable)
       case WaitForTurn(first) =>
         && IsLeast(first, PendingNames(fleet)) && Less(first, selfName)
         && (forall r :: r in fleet ==> r.isAvailable)
         && (exists self :: self in fleet && self.name == selfName && self.isPending)
  }

  /** The least name among the pending nodes seen so far, "" for none. */
  ghost predicate IsFirstPending(seen: seq<NodeRollout>, first: string) {
    if first == "" then forall r :: r in seen ==> !r.isPending
    else IsLeast(first, PendingNames(Members(seen)))
  }

  /** What the scan knows after the nodes seen so far. */
  ghost predicate Scanned(
    seen: seq<NodeRollout>, selfName: string, image: string, self: Option<NodeRollout>,
    unavailable: Option<NodeRollout>)
  {
    && (forall r :: r in seen ==> !r.LacksPrePull(image))
    && (if self.Some? then self.value in seen && self.value.name == selfName
        else forall r :: r in seen ==> r.name != selfName)
    && (if unavailable.Some?
        then unavailable.value in seen && unavailable.value.name != selfName && !unavailable.value.isAvailable
        else forall r :: r in seen && r.name != selfName ==> r.isAvailable)
  }

  lemma FirstPendingNext(seen: seq<NodeRollout>, first: string, node: NodeRollout)
    requires IsFirstPending(seen, first) && node.name != ""
    ensures IsFirstPending(
              seen + [node], if node.isPending && (first == "" || Less(node.name, first)) then node.name else first)
  {
    var names, names' := PendingNames(Members(seen)), PendingNames(Members(seen + [node]));
    assert names' == names + (if node.isPending then {node.name} else {}) by {
      assert forall r :: r in seen + [node] <==> r in seen || r == node;
      if node.isPending {
        assert node in Members(seen + [node]);
      }
      forall r | r in seen && r.isPending ensures r.name in names' {
        assert r in Members(seen + [node]);
      }
    }
    if first == "" {
      assert names == {};
    } else if node.isPending {
      LessTotal(node.name, first);
      forall y | y in names && y != first && Less(node.name, first) ensures Less(node.name, y) {
        LessTransitive(node.name, first, y);
      }
    }
  }

  /** The one-pass scan of `rolloutHold`.  Its answer is the order-free rule `Admits`, and a
      hold always names a real blocker. */
  method RolloutHold(fleet: seq<NodeRollout>, selfName: string, image: string) returns (hold: Hold)
    requires WellNamed(Members(fleet))
    ensures hold == Admit <==> Admits(Members(fleet), selfName, image)
    ensures Justified(Members(fleet), selfName, image, hold)
  {
    var self: Option<NodeRollout> := None;
    var unavailable: Option<NodeRollout> := None;
    var firstPending := "";
    for i := 0 to |fleet|
      invariant Scanned(fleet[..i], selfName, image, self, unavailable)
      invariant IsFirstPending(fleet[..i], firstPending)
    {
      var node := fleet[i];
      assert fleet[..i + 1] == fleet[..i] + [node];
      assert node in Members(fleet);
      if node.LacksPrePull(image) {
        return WaitForPrePull(node.name);
      }
      if node.name == selfName {
        self := Some(node);
      } else if !node.isAvailable {
        unavailable := Some(node);
      }
      FirstPendingNext(fleet[..i], firstPending, node);
      if node.isPending && (firstPending == "" || Less(node.name, firstPending)) {
        firstPending := node.name;
      }
    }
    assert fleet[..|fleet|] == fleet;
    if self.None? {
      return NotInService;
    }
    var me := self.value;
    assert me in Members(fleet);
    if !me.isPending || !me.isAvailable {
      return Admit;
    }
    AvailableSelf(Members(fleet), me, image);
    if unavailable.Some? {
      assert unavailable.value in Members(fleet);
      return WaitForAvailable(unavailable.value.name);
    }
    assert selfName in PendingNames(Members(fleet));
    if firstPending != me.name {
      LeastIsFirst(Members(fleet), selfName, firstPending);
      return WaitForTurn(firstPending);
    }
    return Admit;
  }

  /** For a node that is pending and available the rule needs all others up and its turn. */
  lemma AvailableSelf(fleet: set<NodeRollout>, me: NodeRollout, image: string)
    requires WellNamed(fleet) && me in fleet && me.isPending && me.isAvailable
    ensures Admits(fleet, me.name, image) <==>
              && (forall r :: r in fleet ==> !r.LacksPrePull(image))
              && (forall r :: r in fleet && r.name != me.name ==> r.isAvailable)
              && IsLeast(me.name, PendingNames(fleet))
    ensures forall r :: r in fleet && r.name == me.name ==> r == me
  {
  }

  lemma LeastIsFirst(fleet: set<NodeRollout>, selfName: string, first: string)
    requires selfName in PendingNames(fleet) && IsLeast(first, PendingNames(fleet)) && first != selfName
    ensures Less(first, selfName) && !IsLeast(selfName, PendingNames(fleet))
  {
    if IsLeast(selfName, PendingNames(fleet)) {
      LeastUnique(PendingNames(fleet), selfName, first);
    }
  }

  /** Two answers give the same reason; only the named pre-pull or unavailable node may differ. */
  predicate SameReason(a: Hold, b: Hold) {
    && (a.Admit? <==> b.Admit?) && (a.WaitForPrePull? <==> b.WaitForPrePull?)
    && (a.NotInService? <==> b.NotInService?) && (a.WaitForAvailable? <==> b.WaitForAvailable?)
    && (a.WaitForTurn? || b.WaitForTurn? ==> a == b)
  }

  /** The lister's order does not matter: whatever two calls of `RolloutHold` on two listings of
      one fleet answer, they decide alike and for the same reason. */
  lemma OrderIrrelevant(
    fleet: seq<NodeRollout>, other: seq<NodeRollout>, selfName: string, image: string, a: Hold, b: Hold)
    requires multiset(fleet) == multiset(other) && WellNamed(Members(fleet))
    requires Justified(Members(fleet), selfName, image, a) && Justified(Members(other), selfName, image, b)
    ensures SameReason(a, b)
  {
    forall r ensures r in fleet <==> r in other {
      assert r in fleet <==> r in multiset(fleet);
      assert r in other <==> r in multiset(other);
    }
    assert Members(fleet) == Members(other);
    OneReason(Members(fleet), selfName, image, a, b);
    OneReason(Members(fleet), selfName, image, b, a);
  }

  lemma OneReason(fleet: set<NodeRollout>, selfName: string, image: string, a: Hold, b: Hold)
    requires WellNamed(fleet) && Justified(fleet, selfName, image, a) && Justified(fleet, selfName, image, b)
    ensures a.Admit? ==> b.Admit?
    ensures a.WaitForPrePull? ==> b.WaitForPrePull?
    ensures a.NotInService? ==> b.NotInService?
    ensures a.WaitForAvailable? ==> b.WaitForAvailable?
    ensures a.WaitForTurn? ==> a == b
  {
    if a.WaitForTurn? && b.WaitForTurn? {
      LeastUnique(PendingNames(fleet), a.first, b.first);
    }
    if a.WaitForTurn? || b.WaitForTurn? {
      var first := if a.WaitForTurn? then a.first else b.first;
      LessAsymmetric(first, selfName);
      if IsLeast(selfName, PendingNames(fleet)) {
        LeastUnique(PendingNames(fleet), first, selfName);
      }
    }
  }

  /** Exactly which pending nodes a fleet admits: nobody while a needed pre-pull is missing;
      otherwise every broken pending node, and an available one only when the whole fleet is
      available and it has the least pending name. */
  lemma AdmittedExactly(fleet: set<NodeRollout>, r: NodeRollout, image: string)
    requires WellNamed(fleet) && r in fleet && r.isPending
    ensures Admits(fleet, r.name, image) <==>
              && (forall x :: x in fleet ==> !x.LacksPrePull(image))
              && (!r.isAvailable ||
                  ((forall x :: x in fleet ==> x.isAvailable) && IsLeast(r.name, PendingNames(fleet))))
  {
    assert r.name in PendingNames(fleet);
    assert forall x :: x in fleet && x.name == r.name ==> x == r;
  }

  ghost predicate AllHeld(fleet: set<NodeRollout>, image: string) {
    forall r :: r in fleet && r.isPending ==> !Admits(fleet, r.name, image)
  }

  /** A fleet with pending nodes is stuck exactly when a needed pre-pull is missing, or some
      node is down and none of the down ones is itself pending. */
  lemma DeadlockExactly(fleet: set<NodeRollout>, image: string)
    requires WellNamed(fleet)
    requires exists r :: r in fleet && r.isPending
    ensures AllHeld(fleet, image) <==>
              || (exists r :: r in fleet && r.LacksPrePull(image))
              || ((exists r :: r in fleet && !r.isAvailable) &&
                  (forall r :: r in fleet && !r.isAvailable ==> !r.isPending))
  {
    var p :| p in fleet && p.isPending;
    assert p.name in PendingNames(fleet);
    var first := Least(PendingNames(fleet));
    var f :| f in fleet && f.isPending && f.name == first;
    AdmittedExactly(fleet, f, image);
    forall r | r in fleet && r.isPending {
      AdmittedExactly(fleet, r, image);
    }
  }
}
