/**
 * Event admission: whether a change notification from the pod informer puts
 * a key on the work queue. Adds go to handleObject; updates whose resource
 * version is unchanged (periodic resyncs) are dropped and the rest go to
 * handleObject with the new object; deletes do nothing. handleObject
 * enqueues the pod's key only when the object's controlling owner is a Job,
 * the pod cache has the pod, and the cached pod's phase is "Running".
 */
module Admission {
  import opened Wrappers
  import opened Pods
  import opened Keys

  const JobKind: string := "Job"
  const RunningPhase: string := "Running"

  /**
   * What handleObject receives: an object with metadata, a
   * DeletedFinalStateUnknown tombstone whose last known object may or may
   * not have metadata, or a value of some other type.
   */
  datatype Payload = Object(meta: ObjectMeta) | Tombstone(last: Option<ObjectMeta>) | Undecodable

  /** The informer's notifications; updates carry the old and the new pod. */
  datatype Event = Added(obj: Payload) | Updated(oldPod: Pod, newPod: Pod) | Deleted(obj: Payload)

  /** The object handleObject works on, recovered from a tombstone if need be. */
  function Decode(obj: Payload): (r: Option<ObjectMeta>)
    ensures obj.Object? ==> r == Some(obj.meta)
    ensures obj.Tombstone? ==> r == obj.last
    ensures obj.Undecodable? ==> r.None?
  {
    match obj
    case Object(m) => Some(m)
    case Tombstone(last) => last
    case Undecodable => None
  }

  /** The object is controlled by a Job. */
  predicate OwnedByJob(m: ObjectMeta)
  {
    m.controller.Some? && m.controller.value.kind == JobKind
  }

  /** handleObject followed by enqueuePod: the key put on the queue, if any. */
  function HandleObject(obj: Payload, cache: Lister): (r: Option<string>)
    ensures r.Some? <==>
      Decode(obj).Some? && OwnedByJob(Decode(obj).value)
      && Decode(obj).value.Ref() in cache && cache[Decode(obj).value.Ref()].phase == RunningPhase
    ensures r.Some? ==> r.value == MetaNamespaceKey(cache[Decode(obj).value.Ref()].meta.Ref())
  {
    match Decode(obj)
    case None => None
    case Some(m) =>
      match m.controller
      case None => None
      case Some(ownerRef) =>
        if ownerRef.kind != JobKind then None
        else
          match Lookup(cache, m.Ref())
          case Failed(_) => None
          case Found(pod) =>
            if pod.phase != RunningPhase then None
            else Some(MetaNamespaceKey(pod.meta.Ref()))
  }

  /** The event handlers registered with the pod informer. */
  function Admit(ev: Event, cache: Lister): (r: Option<string>)
    ensures ev.Deleted? ==> r.None?
    ensures ev.Updated? && ev.newPod.meta.resourceVersion == ev.oldPod.meta.resourceVersion ==> r.None?
    ensures ev.Updated? && ev.newPod.meta.resourceVersion != ev.oldPod.meta.resourceVersion
            ==> r == HandleObject(Object(ev.newPod.meta), cache)
    ensures ev.Added? ==> r == HandleObject(ev.obj, cache)
  {
    match ev
    case Added(obj) => HandleObject(obj, cache)
    case Updated(oldPod, newPod) =>
      if newPod.meta.resourceVersion == oldPod.meta.resourceVersion then None
      else HandleObject(Object(newPod.meta), cache)
    case Deleted(_) => None
  }

  /** The object an admissible event is about: none for deletes and resyncs. */
  function Subject(ev: Event): Option<ObjectMeta>
  {
    match ev
    case Added(obj) => Decode(obj)
    case Updated(oldPod, newPod) =>
      if newPod.meta.resourceVersion == oldPod.meta.resourceVersion then None else Some(newPod.meta)
    case Deleted(_) => None
  }

  /**
   * A key is enqueued exactly when the event is an add or a real update
   * about an object controlled by a Job whose pod is cached and Running;
   * then the key is that cached pod's key.
   */
  lemma AdmitIff(ev: Event, cache: Lister)
    ensures Admit(ev, cache).Some? <==>
      Subject(ev).Some? && OwnedByJob(Subject(ev).value)
      && Subject(ev).value.Ref() in cache && cache[Subject(ev).value.Ref()].phase == RunningPhase
    ensures Admit(ev, cache).Some? ==>
      Admit(ev, cache).value == MetaNamespaceKey(cache[Subject(ev).value.Ref()].meta.Ref())
  {
  }

  /** An object without a Job controller is never enqueued, whatever the cache holds. */
  lemma NonJobNeverEnqueued(m: ObjectMeta, cache: Lister)
    requires !OwnedByJob(m)
    ensures Admit(Added(Object(m)), cache).None?
    ensures forall p: Pod | p.meta == m :: forall q: Pod :: Admit(Updated(q, p), cache).None?
  {
  }

  /**
   * Every key the handlers enqueue names a pod that is in the cache: in a
   * consistent cache of well-formed names, splitting the key gives back the
   * identity of the object the event was about, and the cache has it.
   */
  lemma AdmittedKeySplits(ev: Event, cache: Lister)
    requires Consistent(cache)
    requires forall ref | ref in cache :: WellFormed(ref.namespace) && WellFormed(ref.name)
    requires Admit(ev, cache).Some?
    ensures Subject(ev).Some?
    ensures SplitMetaNamespaceKey(Admit(ev, cache).value) == Some(Subject(ev).value.Ref())
    ensures Subject(ev).value.Ref() in cache
  {
    AdmitIff(ev, cache);
    var ref := Subject(ev).value.Ref();
    assert cache[ref].meta.Ref() == ref;
    SplitInvertsKey(ref);
  }
}
