/** Which pod of a node gets the configuration. */
module Pods {
  import opened Containers
  import opened GoText
  import opened Rollout

  datatype CaddyPod = CaddyPod(name: string, created: int, isDeleting: bool, phase: PodPhase)

  predicate IsActive(pod: CaddyPod) {
    !pod.isDeleting && pod.phase != PodFailed && pod.phase != PodSucceeded
  }

  /** Created later, or at the same time under the greater name. */
  predicate IsNewer(a: CaddyPod, b: CaddyPod) {
    a.created > b.created || (a.created == b.created && Less(b.name, a.name))
  }

  lemma NewerChain(p: CaddyPod, selected: CaddyPod, q: CaddyPod)
    requires IsNewer(q, selected) && !IsNewer(p, selected)
    ensures !IsNewer(p, q)
  {
    if IsNewer(p, q) && p.created == selected.created {
      LessTransitive(selected.name, q.name, p.name);
    }
  }

  method SelectNewestActivePod(pods: seq<CaddyPod>) returns (selected: Option<CaddyPod>)
    ensures selected.None? <==> forall p :: p in pods ==> !IsActive(p)
    ensures selected.Some? ==> selected.value in pods && IsActive(selected.value)
    ensures selected.Some? ==> forall p :: p in pods && IsActive(p) ==> !IsNewer(p, selected.value)
    ensures selected.Some? ==> !selected.value.isDeleting && selected.value.phase !in {PodFailed, PodSucceeded}
    ensures selected.Some? ==>
              forall p :: p in pods && !p.isDeleting && p.phase !in {PodFailed, PodSucceeded} ==>
                p.created <= selected.value.created &&
                (p.created == selected.value.created ==> !Less(selected.value.name, p.name))
    ensures selected.None? ==> forall p :: p in pods ==> p.isDeleting || p.phase in {PodFailed, PodSucceeded}
  {
    selected := None;
    for i := 0 to |pods|
      invariant selected.None? <==> forall k :: 0 <= k < i ==> !IsActive(pods[k])
      invariant selected.Some? ==> selected.value in pods && IsActive(selected.value)
      invariant selected.Some? ==> forall k :: 0 <= k < i && IsActive(pods[k]) ==> !IsNewer(pods[k], selected.value)
    {
      var pod := pods[i];
      LessIrreflexive(pod.name);
      if !IsActive(pod) {
        continue;
      }
      if selected.None? {
        selected := Some(pod);
      } else if pod.created > selected.value.created {
        forall k | 0 <= k < i && IsActive(pods[k]) ensures !IsNewer(pods[k], pod) {
          NewerChain(pods[k], selected.value, pod);
        }
        selected := Some(pod);
      } else if pod.created == selected.value.created && Less(selected.value.name, pod.name) {
        forall k | 0 <= k < i && IsActive(pods[k]) ensures !IsNewer(pods[k], pod) {
          NewerChain(pods[k], selected.value, pod);
        }
        selected := Some(pod);
      }
    }
  }

  /** Pods have distinct names, so that description leaves no choice: the listing order cannot
      change which pod is configured. */
  lemma NewestIsUnique(a: CaddyPod, b: CaddyPod)
    requires a.name == b.name ==> a == b
    requires !IsNewer(a, b) && !IsNewer(b, a)
    ensures a == b
  {
    LessTotal(a.name, b.name);
  }
}
