# CKIC, modelled and proved in Dafny

CKIC is a Kubernetes operator that keeps one Caddy Deployment on every selected node and keeps
each Caddy's configuration in sync. This project models its two concurrent protocols and the
algorithms they rest on, and proves what they guarantee for every run.

- **Rollout** (`Rollout`, `RolloutProtocol`, `RolloutTheorems`, `RolloutListing`, `RolloutPrePull`,
  `RolloutProgress`, `RolloutScenes`): how a new pod template spreads over the fleet. One worker
  per node, interleaved step by step with the cluster. Every cached read (nodes, Deployments and
  pre-pull pods) returns "any point of the object's history", so the results hold for arbitrarily
  lagging informers, or state exactly which lag breaks them. The node list, the live Deployment
  list, the cached pods and the final write of one admission are separate steps.
- **Config delivery** (`Aggregator`, `AggregatorTheorems`, `Externals`, `Delivery`,
  `DeliveryTheorems`, `DeliveryAccepted`, `DeliveryResync`, `DeliveryProgress`, `MirrorTheorems`,
  `DeliveryScenes`): informer events, the merge and its revision, the work queue with its
  dirty/processing/delayed states, the workers with their push cache, each node's pods and
  containers (restarted in place, retired, selected again), and the boot mirror ConfigMap with its
  informer's store, relists and resyncs. Every gap in the code (between a revision bump and its
  enqueue, between finding a pod, reading a snapshot, pushing, recording, accepting and queueing
  the mirror, between reading the accepted text and writing the mirror) is a place where any other
  step may happen.
- **Boot snapshot** (`Admin`, `BootstrapText`, `Boot`, `BootRefinement`): where the text a container
  boots with comes from, over any sequence of manager processes with changing origin keys, and a proof that a
  delivery process is a run of that model.
- **Supporting algorithms** (`GoText`, `Utf8`, `Splitting`, `Naming`, `Pods`, `Cluster`): Go's string
  order, Service names, pod selection, and the convergence of the managed objects.

Objects whose fields the program updates in place are classes with loops and `modifies` clauses
(`Aggregator.Store`, `Delivery.PushState`, `Cluster.Api`), proved against value-level functions.
The protocols use those same functions, but are transition systems on values: a sequential method
could not express the interleaving that the results are about.

## Results that differ from what one might expect

- *One node at a time, in name order, after pre-pull everywhere* is a property of a quiet cluster
  whose admissions list the nodes that matter (`OneAtATime`, `RollsOutInNameOrder`,
  `PrePullEverywhereFirst`). The node list comes from an informer cache: a node that has just
  entered service may be missing from it. `MissedDownExactly`, `MissedTurnExactly` and
  `MissedPrePullExactly` say exactly when such a list breaks the three promises, and
  `MissedDownRun`, `MissedTurnRun` and `MissedPrePullRun` are runs in which it does.
- *Cordoned and NotReady nodes wait* only as far as the cache knows (`OutOfServiceWaits`): a node
  that has just been cordoned is rolled out all the same while the cache still shows it ready.
  `CordonedRun` is such a run, `OutOfServiceExactly` the exact condition. It is also the second way
  out of turn in `MissedTurnExactly`; the order of the in-service nodes does not suffer from it.
- The lock does not cover the cluster either: if another node breaks between the Deployment list and
  the write of an admission, two nodes are down. `AdmissionOvertaken` is such a run,
  `WriteRaisesExactly` the exact condition. The repository's own summary (one node at a time) also
  leaves out that every node that is both broken and pending may be rolled out at any time, several
  at once; `AdmittedExactly` states the rule.
- *A finished pre-pull is kept* unless the sync read its node as out of service
  (`SatisfiedPodSurvives`, with the exact condition); `LostPodRun` is a run in which a node in
  service loses the pod it still needs.
- *The mirror always converges* if and only if every list of the ConfigMap informer sees: it finds a
  mirror, or its store held one, or it skips no change, or mirror work is queued anyway
  (`MirrorConverges`). A mirror deleted between its initialization and the first list
  (`DeletedBeforeFirstList`), or restored and deleted again before a relist (`DeletedBeforeRelist`),
  is never reported and nothing is queued to restore it, until the next accepted snapshot
  (`AcceptanceHeals`).
- *A push record tells what its container loaded* if and only if the latest push reached that
  container with the recorded text, or reached another one and that container had loaded the text
  last before (`RecordTruthfulExactly`, for every state). Two things go wrong. A container restarted
  in place behind the same pod address between the lookup and the push receives the text, while the
  record names the old container (`RecordOfReplacedContainer`); that one is gone for good
  (`UntruthfulIsGone`). And between a load and its recording the record still names the previous text
  (`UnrecordedLoadRun`); this is harmless because only the same worker reads the record, and it
  records first. A record that suppresses a push for a container that still exists is right
  (`SkippedPushIsSafe`).

## Assumptions

- One manager leads at a time, with one target per process. Only it writes Deployment specs; others
  may delete Deployments and pods. History starts when its leadership starts.
- An API write takes effect before its call returns, or never. Applying an equal spec changes
  nothing; replacing a template raises the generation; the status never claims a later generation
  than the spec has.
- A failed pre-pull pod is final, a visible image pull stays visible in the pod's status, and the
  kubelet reports no pull that has not happened.
- A container answers an admin request if it listens on the request's port and, when it enforces
  origins, the request names one of them.
- The work queue follows client-go: one worker per key; an add during processing re-queues the key
  when it is done. An informer's relist replaces its store and reports what it found, and a deletion
  only of what the store held. Every change of a node's pods or labels is followed by an event with
  the node's key, of which several may be merged into one; the status of the node's Deployment
  changes with its pods and is watched too.
- A started container's pod has an address. An address reaches at most one container, and never
  one of another node: while a push is under way, no other node's pod takes over the address of a
  deleted pod. Without that, `SkippedPushIsSafe` and `DeliveredAtRest` would not hold.
- A push that returns an error left the container's configuration unchanged. Adaptation of a
  Caddyfile is a function of its text.
- Digests are represented by what they digest, except in Service names, where equal digests are an
  explicit case. Node names are non-empty and distinct; namespaces contain no slash; origin keys
  contain no NUL. The revision counter does not overflow.

## Model

| member | source | states |
|---|---|---|
| `Rollout.RolloutHold` | pkg/controller/rollout.go:96-124 | the one-pass scan admits exactly when the order-free rule `Admits` holds, and every hold names a real blocker: a missing pre-pull, a down node, or the least pending name |
| `Rollout.OrderIrrelevant` | pkg/controller/rollout.go:165-181 | whatever two calls of the scan on two listings of one fleet answer, they decide alike and for the same reason, and name the same node whose turn it is |
| `Rollout.AdmittedExactly` | pkg/controller/rollout.go:113-123 | which pending nodes are admitted: none while a needed pre-pull is missing, else every down one, and an up one only if all are up and it has the least pending name |
| `Rollout.DeadlockExactly` | pkg/controller/rollout.go:96-124 | a fleet with pending nodes is stuck if and only if a needed pre-pull is missing, or something is down and nothing down is pending |
| `Rollout.RolledOutExactly` | pkg/controller/rollout.go:236-244 | for a status that counts the Deployment's pods, rolled out means: the status is current, the number of pods is the wanted one, and every single pod has the current template and is available |
| `Rollout.InServiceExactly` | pkg/controller/rollout.go:206-216 | in service means: not cordoned, and the first Ready condition is true |
| `Rollout.ShowsPullExactly` | pkg/caddy/prepull.go:73-95 | the check recognizes exactly the points of a container's life, as the kubelet reports them, that lie after the pull |
| `Rollout.PrePullPodImageExactly` | pkg/caddy/prepull.go:30-37 | the image of the first container named prepull, or none |
| `RolloutProtocol.InvStep` | pkg/controller/rollout.go:53-84 | every step of every worker and of the cluster keeps: once absent or on target always so, an unsettled Deployment was never touched, pods with one UID only progress, the lock has one holder, fetched Deployments were live, an admitted node has its pre-pull gate satisfied |
| `RolloutProtocol.InvAlways` | pkg/controller/rollout.go:53-84 | that invariant holds in every state of every run |
| `RolloutTheorems.StaleCacheSafety` | pkg/controller/rollout.go:53-84 | in every run, replacing an existing Deployment's template happens only in an admitted write with the lock held; the unlocked write creates or changes nothing, however stale its cache |
| `RolloutTheorems.OneAtATime` | pkg/controller/rollout.go:68-124 | from any state with the lock free on, while the in-service set is fixed, nothing is created or deleted, rollouts only complete, and no list from the node cache misses a down node, at most max(1, initial) in-service Deployments are unavailable |
| `RolloutListing.MissedDownExactly` | pkg/controller/rollout.go:165-181 | between list and write, a quiet admission raises the down count above max(1, count at the list) if and only if its node was in service and up, its template changes, nobody recovered, and the cached list missed a down node |
| `RolloutScenes.MissedDownRun` | pkg/controller/rollout.go:165-181 | a quiet run in which a stale node list takes a second node down |
| `RolloutTheorems.WriteRaisesExactly` | pkg/controller/rollout.go:236-244 | an admitted write raises the down count above max(1, before) if and only if its node is in service and up, its template changes, and another in-service node is down at the write |
| `RolloutScenes.AdmissionOvertaken` | pkg/controller/rollout.go:71-83 | a run in which that happens with fresh caches, because a node breaks between the list and the write |
| `RolloutTheorems.RollsOutInNameOrder` | pkg/controller/rollout.go:109-122 | from an all-available fleet, the rollouts of in-service nodes in a quiet stretch whose lists miss no down or pending node are a prefix of the name-sorted pending nodes, and each lowers the pending count by one |
| `RolloutTheorems.EachRolloutWaitsForTheLast` | pkg/controller/rollout.go:116-122 | each of them starts with the whole fleet available and is the least pending node |
| `RolloutListing.MissedTurnExactly` | pkg/controller/rollout.go:109-122 | a quiet admission of a Deployment that was pending and up is the turn of the least pending in-service node if and only if its node was in service at the list and the cached list missed no smaller pending node |
| `RolloutScenes.MissedTurnRun` | pkg/controller/rollout.go:165-181 | a quiet run in which a stale node list breaks the name order |
| `RolloutListing.OutOfServiceWaits` | pkg/controller/rollout.go:59-66 | in every run, a template is replaced only after the worker read its node in service, and in a stay in the lock whose list had the node itself in service |
| `RolloutListing.OutOfServiceExactly` | pkg/controller/rollout.go:206-216 | in a quiet stay it is replaced on a node out of service if and only if that node was out of service at the list while the cached view was not |
| `RolloutScenes.CordonedRun` | pkg/controller/rollout.go:165-181 | a quiet run, with every down and pending node listed, in which a cordoned node is rolled out |
| `RolloutPrePull.PrePullGate` | pkg/controller/rollout.go:100-102 | in every run a template is replaced only in a stay in the lock whose list, taken from the node cache, names no node lacking the image, even with stale pod caches |
| `RolloutPrePull.MissedPrePullExactly` | pkg/controller/rollout.go:96-102 | who lacks the image at the write of a quiet stay: exactly the in-service nodes that lacked it at the list, were missed by the list and have not pulled it since |
| `RolloutPrePull.PrePullEverywhereFirst` | pkg/controller/rollout.go:96-102 | in a quiet stretch whose lists miss no node lacking the image, no template is replaced while any in-service node lacks it |
| `RolloutScenes.MissedPrePullRun` | pkg/controller/rollout.go:165-181 | a run in which a node that entered service unlisted lacks the image at a rollout |
| `RolloutPrePull.SatisfiedPodSurvives` | pkg/controller/rollout.go:218-229 | no step of `syncRollout` alters or removes a pre-pull pod that is still needed and has pulled or may still pull, except, if and only if, a sync of that pod that read its node out of service |
| `RolloutPrePull.FailedPodRetried` | pkg/controller/rollout.go:231-234 | a needed pod that failed without a pull is removed exactly by a sync that read this pod and saw its failure sixty seconds after its creation or later, or read its node out of service |
| `RolloutScenes.LostPodRun` | pkg/controller/rollout.go:218-229 | a run in which a node now in service loses such a pod that way |
| `RolloutProgress.LeastIsAdmitted` | pkg/controller/rollout.go:68-84 | in a healthy, pre-pulled fleet the least pending node is admitted when it asks |
| `RolloutProgress.CanFinish` | pkg/controller/rollout.go:53-84 | from every healthy, pre-pulled state some quiet run brings the whole in-service fleet onto the target with nothing down |
| `RolloutProgress.CanAlwaysFinish` | pkg/controller/rollout.go:53-84 | from every state of every run, with workers anywhere, Deployments missing, nodes down and images not pulled, a run without failures in which the cluster completes what it was asked for ends with every in-service node having a Deployment with its target template and stamp, fully rolled out, every other node having one too, and no pre-pull pod left |
| `Pods.SelectNewestActivePod` | pkg/caddy/deployment.go:352-375 | the result is an active pod that no active pod is newer than (creation time, then name), and is missing only if no pod is active |
| `Pods.NewestIsUnique` | pkg/caddy/deployment.go:363-368 | with distinct names that description has one answer, so the listing order does not matter |
| `Aggregator.Store.UpdateBase` | pkg/aggregator/aggregator.go:80-87 | the new state is the value-level update, and the enqueue is requested exactly when the revision rose |
| `Aggregator.Store.SetExternal` | pkg/aggregator/aggregator.go:89-95 | likewise, with a missing source reading as the empty fragment |
| `Aggregator.Store.RemoveExternal` | pkg/aggregator/aggregator.go:97-103 | likewise |
| `Aggregator.Store.Accept` | pkg/aggregator/aggregator.go:180-189 | a snapshot replaces the accepted one exactly when its revision is higher, and the result says so |
| `Aggregator.Store.BuildText` | pkg/aggregator/aggregator.go:111-125 | the loop over all sorted sources, skipping blank fragments, builds the canonical text of the base and the counting fragments |
| `Aggregator.Store.CurrentMerged` | pkg/aggregator/aggregator.go:105-130 | the result is a function of newline-terminated base, counting fragments and revision alone, with both error cases |
| `Aggregator.BlockInPlace` | pkg/aggregator/aggregator.go:116-124 | each counting fragment stands once, after all smaller and before all larger sources |
| `Aggregator.MergedSize` | pkg/aggregator/aggregator.go:125-129 | success if and only if there is a base and the exact byte sum of the pieces is within the limit; a snapshot has that size and is never empty |
| `GoText.TrimSpaceExact` | pkg/aggregator/aggregator.go:117-117 | trimming removes exactly the white space at both ends |
| `Aggregator.UpdateStep` | pkg/aggregator/aggregator.go:68-103 | every update raises the revision or leaves the merge unchanged, although it may insert an empty fragment; revisions never fall |
| `Aggregator.RevisionDeterminesContent` | pkg/aggregator/aggregator.go:68-130 | two merge results of one process with the same revision are identical |
| `Aggregator.FirstLoadAccepted` | pkg/aggregator/aggregator.go:180-189 | a loadable snapshot has revision at least one, so the first loaded one is accepted |
| `AggregatorTheorems.MergeMeans` | pkg/aggregator/aggregator.go:111-125 | apart from blank and comment lines, the merged text has exactly the lines of the base and then of each fragment in source order: the markers add and swallow nothing |
| `AggregatorTheorems.FragmentsExactly` | pkg/aggregator/aggregator.go:116-120 | a fragment counts if and only if it is not all white space, and without the white space at its ends |
| `AggregatorTheorems.LatestUpdatesHold` | pkg/aggregator/aggregator.go:80-103 | after any updates the state holds the latest base and the latest fragment of every source |
| `AggregatorTheorems.MergeIgnoresHistory` | pkg/aggregator/aggregator.go:105-130 | histories with the same latest base and fragments merge to the same text or the same error |
| `AggregatorTheorems.RevisionCountsChanges` | pkg/aggregator/aggregator.go:68-103 | an update raises the revision by one or leaves it; if it stays, no base or fragment reads differently; if it rises, something differs |
| `AggregatorTheorems.AcceptedIsNewest` | pkg/aggregator/aggregator.go:180-189 | in whatever order snapshots are offered, the accepted one is the first of the highest revision |
| `Utf8.LessIsBytewise` | pkg/controller/rollout.go:109-111 | the models' string order is the order of the UTF-8 bytes, which Go uses |
| `Utf8.ByteLenExactly` | pkg/aggregator/aggregator.go:126-128 | the models' length is the number of UTF-8 bytes |
| `Externals.SourceInjective` | pkg/controller/controller.go:260-260 | the source key names one ConfigMap |
| `Externals.InvStep` | pkg/controller/controller.go:254-277 | every create, change, label change, deletion, delivery, skipped event and unreported deletion keeps: the newest undelivered event about a ConfigMap is its present state, and a ConfigMap without one is already reflected |
| `Externals.DrainedViewIsExact` | pkg/controller/controller.go:254-302 | once the events are drained, the fragments are exactly those of the labelled ConfigMaps that carry a Caddyfile in a namespace that is not the own one, not denied, and allowed if there is an allow list, after any history |
| `Delivery.PushState.RecordPush` | pkg/controller/reconcile.go:120-124 | a map that holds the transition system's records holds them after its record step, for every node |
| `Delivery.PushState.ClearPushState` | pkg/controller/reconcile.go:126-130 | likewise for the end of a successful teardown |
| `Delivery.PushState.ForceConfigResync` | pkg/controller/reconcile.go:132-137 | likewise for a forced resync |
| `Delivery.PushState.EnsureLoaded` | pkg/controller/reconcile.go:79-118 | run without interleaving, the code is the transition system's steps in a row: same outcome, same records |
| `DeliveryTheorems.InvStep` | pkg/controller/reconcile.go:16-137 | every step keeps, for every node, outstanding work or current findings (managed) or a finished teardown (not managed), and a push cache that agrees with every container that still exists, also when an older pod is selected again |
| `DeliveryTheorems.NoLostUpdate` | pkg/controller/reconcile.go:16-77 | in every reachable interleaving a managed node's key is dirty, delayed or owed an enqueue or event, or what its worker or last reconcile saw is current |
| `DeliveryTheorems.DeliveredAtRest` | pkg/controller/reconcile.go:52-100 | at rest, a managed node has its objects, and the started container of its newest active pod runs the current merge or has refused it, unless no merge is loadable |
| `DeliveryTheorems.TornDownAtRest` | pkg/controller/reconcile.go:52-58 | at rest, a node that is not managed has no managed objects and no push on record |
| `DeliveryAccepted.AcceptedAtRest` | pkg/controller/reconcile.go:69-76 | once a managed node is at rest and its serving container has not refused the current merge, that merge is the accepted boot snapshot |
| `DeliveryTheorems.FoundExactly` | pkg/caddy/deployment.go:340-350 | the pod found is the newest active one, and it counts only with a started container |
| `DeliveryProgress.CanAlwaysDeliver` | pkg/controller/reconcile.go:16-77 | from every state of every run, a continuation without outside changes or failures comes to rest: nothing queued or owed, every managed node delivered, every other torn down, and a converging mirror holding the accepted snapshot with its stamp |
| `DeliveryResync.SkipsExactly` | pkg/controller/reconcile.go:79-83 | after a recorded push, until the record is written or cleared, a reconcile skips its push if and only if it found the same container and read the same text |
| `DeliveryResync.ResyncForcesPush` | pkg/controller/reconcile.go:132-137 | after a forced resync, until a push is recorded again, every reconcile that finds a started container pushes |
| `DeliveryResync.ResyncRepushes` | pkg/controller/controller.go:339-351 | once a managed node is at rest after a forced resync, its serving container has answered a push since, or the resync came between a push to it and the recording |
| `DeliveryTheorems.RecordTruthfulExactly` | pkg/controller/reconcile.go:79-124 | in every state of every run, also between a load and its recording, a record names its container's last successful load if and only if the latest push reached that container with that text, or reached another one and that container had loaded the text last before |
| `DeliveryScenes.RecordOfReplacedContainer` | pkg/controller/reconcile.go:88-98 | a run with an untruthful record: the container is replaced between the lookup and the push |
| `DeliveryScenes.UnrecordedLoadRun` | pkg/controller/reconcile.go:88-98 | a run in that window: the container has loaded the next text, the record still names the previous one |
| `DeliveryTheorems.UntruthfulIsGone` | pkg/controller/reconcile.go:110-124 | the container of an untruthful record is gone from every pod for the rest of the run, unless it has just loaded a text that the same worker records next |
| `DeliveryTheorems.SkippedPushIsSafe` | pkg/controller/reconcile.go:80-83 | when a push is skipped for a container that still exists, that container runs exactly the snapshot |
| `DeliveryTheorems.AcceptedWasLoaded` | pkg/controller/reconcile.go:64-76 | a snapshot is accepted only after a container confirmed loading its text; the accepted text is the initial one or a confirmed one |
| `MirrorTheorems.MirrorStep` | pkg/aggregator/aggregator.go:169-212 | every step keeps convergence of the mirror, through foreign edits, deletions, failed and half-failed writes, except exactly a list that does not see |
| `MirrorTheorems.MirrorConverges` | pkg/controller/controller.go:214-252 | after the informer's first list, the mirror holds the accepted text with the stamp of bootstrap and text, or mirror work is outstanding, in every state, if and only if that list found a mirror and every later list sees |
| `DeliveryScenes.DeletedBeforeFirstList` | pkg/controller/controller.go:307-317 | from every start, a mirror deleted before the first list is lost with nothing queued |
| `DeliveryScenes.DeletedBeforeRelist` | pkg/controller/controller.go:238-252 | from every start with a mirror, a restored mirror deleted before a relist is lost with nothing queued |
| `MirrorTheorems.AcceptanceHeals` | pkg/controller/reconcile.go:73-75 | the next newly accepted snapshot restores convergence, and it lasts if and only if every later list sees |
| `MirrorTheorems.RevisionsNeverFall` | pkg/aggregator/aggregator.go:180-189 | the accepted revision never falls |
| `MirrorTheorems.PublishedInOrder` | pkg/aggregator/aggregator.go:191-197 | the revisions written to the mirror never fall and never pass the accepted one |
| `Admin.BootstrapInjective` | pkg/caddy/admin.go:44-53 | different origin keys give different bootstrap Caddyfiles |
| `Admin.PairedInjective` | pkg/aggregator/aggregator.go:153-156 | the stamped pair determines bootstrap and text when the bootstrap has no NUL |
| `Admin.MirrorCurrentExactly` | pkg/aggregator/aggregator.go:169-172 | a mirror is current if and only if it is the accepted text with the stamp of bootstrap and text |
| `Admin.LoadExactly` | pkg/caddy/admin.go:55-83 | loaded, rejected or failed for now, exactly by the two replies and the reachability check |
| `Admin.ReachableExactly` | pkg/caddy/admin.go:85-107 | the check passes exactly the configurations that answer this client's requests and, with a key, list its origin |
| `Admin.LoadedIsAnswered` | pkg/caddy/admin.go:109-119 | after a successful load the same client's next request is answered |
| `BootstrapText.BootstrapMeans` | pkg/caddy/admin.go:48-53 | read line by line, the bootstrap listens on port 2019 and, with a key, enforces exactly its origin |
| `BootstrapText.BootstrapAnswersItsClient` | pkg/caddy/admin.go:44-53 | a container booted from it answers its own client, and with a key no other |
| `Boot.MatchedStampIsHonest` | pkg/aggregator/aggregator.go:139-146 | a stamp that matches the current bootstrap was issued for exactly this text |
| `Boot.Provenance` | pkg/aggregator/aggregator.go:132-212 | over any sequence of manager processes, key rotations and foreign edits that cannot compute a stamp, the accepted text is the current bootstrap or was confirmed by a container under that bootstrap |
| `Boot.NoSelfLockout` | pkg/caddy/admin.go:55-119 | if a container booted from the current key's bootstrap answers that key's client, one booted from the accepted text always does |
| `Boot.KeepsMirrorExactly` | pkg/aggregator/aggregator.go:132-151 | a starting manager goes on with the mirror's text, writing nothing, if and only if the mirror is stamped for the current bootstrap and that text |
| `Boot.ResetsToBootstrap` | pkg/aggregator/aggregator.go:140-146 | otherwise it publishes and accepts the bootstrap before anything else |
| `Boot.SurvivesRestartExactly` | pkg/aggregator/aggregator.go:132-151 | a published text that nobody overwrites is what the next manager goes on with if and only if its key is the same |
| `BootRefinement.Simulates` | pkg/controller/reconcile.go:43-77 | every delivery step is one step of the boot model or invisible to it |
| `BootRefinement.ProvenanceInDelivery` | pkg/aggregator/aggregator.go:180-212 | so in every interleaving of a delivery process that continues any boot run in a faithful environment, the accepted text is the bootstrap or was confirmed under it |
| `BootRefinement.NoSelfLockoutInDelivery` | pkg/caddy/admin.go:55-119 | and a container booted from it answers the current key's client in every state, if one booted from the bootstrap does |
| `Naming.ServiceNameIsLabel` | pkg/caddy/naming.go:30-40 | for every DNS-subdomain node name the Service name is a label under section 2.3.1 of RFC 1035 |
| `Naming.ServiceNamesDistinct` | pkg/caddy/naming.go:30-40 | two nodes share a Service name only if both take the hashed form with equal digests |
| `Naming.ServiceNameShape` | pkg/caddy/naming.go:30-40 | the plain form where it is a label, otherwise as much of the Deployment name as fits before the digest, less dashes at the cut |
| `Cluster.Api.DeleteServicesExcept` | pkg/caddy/cleanup.go:49-71 | the loop removes exactly the node's owned Services but the kept one |
| `Cluster.Api.DeleteDeploymentsExcept` | pkg/caddy/cleanup.go:25-47 | the loop removes exactly the node's owned Deployments but the kept one |
| `Cluster.Api.ApplyLoadBalancerService` | pkg/caddy/deployment.go:157-164 | the node's Services become exactly the desired one |
| `Cluster.Api.EnsureLoadBalancerService` | pkg/caddy/deployment.go:150-155 | the same in Cilium mode, and no owned Service otherwise |
| `Cluster.Api.SyncPrePullPod` | pkg/controller/rollout.go:218-229 | the code's branches are the rollout protocol's step on the node's pre-pull pod, UID precondition included |
| `Cluster.Api.SyncRollout` | pkg/controller/rollout.go:53-84 | the Deployment is held back exactly when the node is pending and out of service or not admitted by the order-free rule |
| `Cluster.Api.ApplyCaddy` | pkg/controller/rollout.go:35-84 | the pre-pull pod is synchronized; a held run touches no Deployment; an un-held one leaves the reconciled state, or nothing else changed when the name cannot be a label value |
| `Cluster.Api.Teardown` | pkg/caddy/cleanup.go:14-23 | no owned object and no pre-pull pod is left, the rest untouched, and nothing happens for a name that cannot be a label value |
| `Cluster.OwnedExactly` | pkg/caddy/naming.go:46-54 | an object is owned for a node if and only if it has the three labels with the node's values |
| `Cluster.RefusedExactly` | pkg/caddy/deployment.go:135-138 | of all node names exactly those longer than 63 characters are refused |
| `Cluster.OtherPrePullsKept` | pkg/caddy/naming.go:42-44 | no other node's pre-pull pod is touched by either |
| `Cluster.ReconcileConverges` | pkg/controller/rollout.go:35-51 | from any state and any earlier mode, exactly the desired managed objects remain for the node, and a second reconcile changes nothing |
| `Cluster.ForeignObjectsUntouched` | pkg/caddy/deployment.go:135-164 | an object not owned by the node is left as it was if and only if it does not sit under the name the node's object takes |
| `Cluster.ReconcilesDoNotInterfere` | pkg/caddy/cleanup.go:25-71 | reconciling one node keeps another converged node converged if and only if their Services do not want the same name in Cilium mode, which takes two hashed names with equal digests |
| `Cluster.CollidingPair` | pkg/caddy/naming.go:30-40 | with equal digests, two different node names that do want the same |

## Left out

- Flags, logging, health server, leader election and endpoint parsing of the manager command: outside the two protocols, or easy.
- Pod, container, probe, volume and Service spec builders: straight-line construction; a template is an abstract value with its image.
- HTTP and JSON transport and real Caddyfile adaptation: a load is a three-way outcome, adaptation an abstract function; only the bootstrap's admin option is read, by a small reference reader.
- Problem reporting (`PodProblem`, `DeploymentProblem`, `blockerProblem`, log sampling): feeds log messages only.
- Timeouts, back-off lengths and fairness: delayed keys return at some time; liveness is stated as the existence of a finishing run from every state (`CanAlwaysFinish`, `CanAlwaysDeliver`) and as states at rest.
- `Validate` and `validateConfig`: their results are taken as given.
- Teardown of an unmanaged node is, in the rollout model, a deletion of its Deployment and its pre-pull pod by others; `Cluster.Api.Teardown` states what it leaves.
- `Cluster.Api` runs without failing API calls other than a refused name, and without other writers; interleaving is the subject of the protocol modules.
- Foreign writers of Deployment specs (scaling, template edits): excluded by assumption.
