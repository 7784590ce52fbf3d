/**
 * The slice of the Kubernetes object model that the controller reads:
 * object metadata, the controlling owner reference, the pod phase and the
 * per-container statuses, plus the pod cache (the informer's lister).
 */
module Pods {
  import opened Wrappers

  /** A pod's identity: the (namespace, name) pair the lister is keyed by. */
  datatype PodRef = PodRef(namespace: string, name: string)

  /** An owner reference; only its kind and name are consulted. */
  datatype OwnerRef = OwnerRef(kind: string, name: string)

  /**
   * Object metadata. `controller` is what metav1.GetControllerOf returns for
   * the object: its controlling owner reference, if it has one.
   */
  datatype ObjectMeta = ObjectMeta(
    namespace: string,
    name: string,
    resourceVersion: string,
    controller: Option<OwnerRef>)
  {
    function Ref(): PodRef { PodRef(namespace, name) }
  }

  /**
   * One entry of pod.Status.ContainerStatuses: the container's name, its
   * readiness flag and, when State.Terminated is set, the termination reason.
   */
  datatype ContainerStatus = ContainerStatus(name: string, ready: bool, terminated: Option<string>)

  datatype Pod = Pod(meta: ObjectMeta, phase: string, statuses: seq<ContainerStatus>)

  /** The pod cache the lister reads from. */
  type Lister = map<PodRef, Pod>

  /** The only error a cache-backed lister returns. */
  datatype LookupError = NotFound(ref: PodRef)

  datatype LookupResult = Found(pod: Pod) | Failed(err: LookupError)

  /** podsLister.Pods(namespace).Get(name). */
  function Lookup(cache: Lister, ref: PodRef): (r: LookupResult)
    ensures r.Found? <==> ref in cache
    ensures r.Found? ==> r.pod == cache[ref]
    ensures r.Failed? ==> r.err == NotFound(ref)
  {
    if ref in cache then Found(cache[ref]) else Failed(NotFound(ref))
  }

  /** A cache as the informer keeps it: every pod is filed under its own identity. */
  ghost predicate Consistent(cache: Lister)
  {
    forall ref | ref in cache :: cache[ref].meta.Ref() == ref
  }
}
