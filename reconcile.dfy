/**
 * The reconciler: syncHandler (split the key, look the pod up, classify its
 * containers, decide, signal the sidecars), processNextWorkItem (what the
 * worker tells the work queue about each item it takes) and the container
 * loop of sendShutdownSignal. The work queue is modelled by the calls the
 * controller makes on it; remote exec by the requests the controller issues.
 */
module Reconcile {
  import opened Wrappers
  import opened Pods
  import opened Keys
  import opened Classification
  import opened Decision
  import opened Admission

  /** What one run of syncHandler amounts to. */
  datatype SyncOutcome =
    | InvalidKey                          // the key does not split: reported, nil returned
    | LookupFailed(err: LookupError)      // the lister's error, returned unchanged
    | Synced(pod: Pod, signalled: bool)   // pod found; sidecars signalled or not

  /** syncHandler as a function of the key and the pod cache. */
  function Sync(key: string, cache: Lister): (r: SyncOutcome)
    ensures r.InvalidKey? <==> SplitMetaNamespaceKey(key).None?
    ensures r.LookupFailed? <==> SplitMetaNamespaceKey(key).Some? && SplitMetaNamespaceKey(key).value !in cache
    ensures r.LookupFailed? ==> r.err == NotFound(SplitMetaNamespaceKey(key).value)
    ensures r.Synced? ==> r.pod == cache[SplitMetaNamespaceKey(key).value]
    ensures r.Synced? ==> (r.signalled <==> ShutdownDue(Classify(r.pod.statuses), Sidecars))
  {
    match SplitMetaNamespaceKey(key)
    case None => InvalidKey
    case Some(ref) =>
      match Lookup(cache, ref)
      case Failed(err) => LookupFailed(err)
      case Found(pod) =>
        Synced(pod, ShutdownDue(Classify(pod.statuses), Sidecars))
  }

  /** The error syncHandler returns: only a failed lookup is an error. */
  function SyncError(o: SyncOutcome): (e: Option<LookupError>)
    ensures e.Some? <==> o.LookupFailed?
    ensures e.Some? ==> e.value == o.err
  {
    if o.LookupFailed? then Some(o.err) else None
  }

  /** A work-queue item: the key strings the handlers add, or any other value. */
  datatype Item = Key(key: string) | Opaque(id: int)

  /** The calls the controller makes on the rate-limiting work queue. */
  datatype QueueAction = Add(key: string) | Forget(item: Item) | AddRateLimited(key: string) | Done(item: Item)

  /**
   * processNextWorkItem's calls on the queue for the result of Get: nothing
   * once the queue has shut down (None); otherwise Forget for a non-string
   * item or a successful sync, AddRateLimited for a sync error, and Done
   * last, in every case.
   */
  function WorkItemActions(got: Option<Item>, cache: Lister): (r: seq<QueueAction>)
    ensures got.None? ==> r == []
    ensures got.Some? ==> |r| == 2 && r[1] == Done(got.value) && !r[0].Done?
    ensures got.Some? ==>
      (r[0] == Forget(got.value) <==> !(got.value.Key? && Sync(got.value.key, cache).LookupFailed?))
    ensures got.Some? ==>
      (r[0].AddRateLimited? <==> got.value.Key? && Sync(got.value.key, cache).LookupFailed?)
    ensures got.Some? && r[0].AddRateLimited? ==> r[0].key == got.value.key
  {
    match got
    case None => []
    case Some(item) =>
      match item
      case Opaque(_) => [Forget(item), Done(item)]
      case Key(key) =>
        if SyncError(Sync(key, cache)).Some? then [AddRateLimited(key), Done(item)]
        else [Forget(item), Done(item)]
  }

  /** A key whose pod is not in the cache is requeued like any other error, never dropped. */
  lemma NotFoundRequeued(key: string, cache: Lister)
    requires SplitMetaNamespaceKey(key).Some? && SplitMetaNamespaceKey(key).value !in cache
    ensures WorkItemActions(Some(Key(key)), cache) == [AddRateLimited(key), Done(Key(key))]
  {
  }

  /** An invalid key is forgotten, never requeued. */
  lemma InvalidKeyForgotten(key: string, cache: Lister)
    requires SplitMetaNamespaceKey(key).None?
    ensures WorkItemActions(Some(Key(key)), cache) == [Forget(Key(key)), Done(Key(key))]
  {
  }

  /**
   * A key the event handlers admitted, processed against the same consistent
   * cache, syncs without error and is forgotten; the sidecars are signalled
   * exactly when the pod's containers call for it.
   */
  lemma AdmittedKeySyncs(ev: Event, cache: Lister)
    requires Consistent(cache)
    requires forall ref | ref in cache :: WellFormed(ref.namespace) && WellFormed(ref.name)
    requires Admit(ev, cache).Some?
    ensures var key := Admit(ev, cache).value;
            var pod := cache[Subject(ev).value.Ref()];
            Sync(key, cache) == Synced(pod, ShutdownDue(Classify(pod.statuses), Sidecars))
            && WorkItemActions(Some(Key(key)), cache) == [Forget(Key(key)), Done(Key(key))]
  {
    AdmittedKeySplits(ev, cache);
  }

  /** The command run in each sidecar: SIGTERM to the container's process 1. */
  const KillCommand: seq<string> := ["sh", "-c", "kill -s TERM 1"]

  /** The exec subresource request for one container (PodExecOptions). */
  datatype ExecRequest = ExecRequest(
    namespace: string, pod: string, container: string,
    command: seq<string>, stdin: bool, stdout: bool, stderr: bool, tty: bool)

  function KillRequest(pod: Pod, container: string): (r: ExecRequest)
    ensures r.namespace == pod.meta.namespace && r.pod == pod.meta.name && r.container == container
    ensures r.command == ["sh", "-c", "kill -s TERM 1"]
    ensures !r.stdin && r.stdout && r.stderr && !r.tty
  {
    ExecRequest(pod.meta.namespace, pod.meta.name, container, KillCommand, false, true, true, false)
  }

  /**
   * The environment the exec calls run in: whether the client configuration
   * loaded, whether the API types registered in the scheme, and the
   * containers whose executor or stream returns an error.
   */
  datatype ExecEnv = ExecEnv(configLoaded: bool, schemeRegistered: bool, failing: set<string>)

  /** One exec attempt and whether it failed (the failure is only logged). */
  datatype ExecAttempt = ExecAttempt(request: ExecRequest, failed: bool)

  function Attempt(pod: Pod, container: string, env: ExecEnv): ExecAttempt
  {
    ExecAttempt(KillRequest(pod, container), container in env.failing)
  }

  /**
   * The attempts one sendShutdownSignal call makes: none when the client
   * configuration or the scheme could not be set up; otherwise exactly one
   * kill request per container of the set, in some order, each attempted
   * whether or not the others failed.
   */
  ghost predicate SignalsAll(pod: Pod, containers: set<string>, env: ExecEnv, sent: seq<ExecAttempt>)
  {
    if !env.configLoaded || !env.schemeRegistered then sent == []
    else
      && (forall i | 0 <= i < |sent| :: sent[i].request.container in containers)
      && (forall i | 0 <= i < |sent| :: sent[i] == Attempt(pod, sent[i].request.container, env))
      && (forall i, j | 0 <= i < j < |sent| :: sent[i].request.container != sent[j].request.container)
      && (forall c | c in containers :: exists i | 0 <= i < |sent| :: sent[i].request.container == c)
  }

  /** The rate-limiting work queue, recorded as the calls made on it. */
  class WorkQueue {
    var actions: seq<QueueAction>

    constructor ()
      ensures actions == []
    {
      actions := [];
    }

    method Add(key: string)
      modifies this
      ensures actions == old(actions) + [QueueAction.Add(key)]
    {
      actions := actions + [QueueAction.Add(key)];
    }

    method Forget(item: Item)
      modifies this
      ensures actions == old(actions) + [QueueAction.Forget(item)]
    {
      actions := actions + [QueueAction.Forget(item)];
    }

    method AddRateLimited(key: string)
      modifies this
      ensures actions == old(actions) + [QueueAction.AddRateLimited(key)]
    {
      actions := actions + [QueueAction.AddRateLimited(key)];
    }

    method Done(item: Item)
      modifies this
      ensures actions == old(actions) + [QueueAction.Done(item)]
    {
      actions := actions + [QueueAction.Done(item)];
    }
  }

  class Controller {
    const queue: WorkQueue
    /** Every exec attempt made so far, oldest first. */
    var attempts: seq<ExecAttempt>

    constructor (queue: WorkQueue)
      ensures this.queue == queue && attempts == []
    {
      this.queue := queue;
      attempts := [];
    }

    /** The informer's add, update and delete handlers. */
    method HandleEvent(ev: Event, cache: Lister)
      modifies queue
      ensures queue.actions == old(queue.actions) + (if Admit(ev, cache).Some? then [Add(Admit(ev, cache).value)] else [])
    {
      match ev
      case Added(obj) =>
        HandleObject(obj, cache);
      case Updated(oldPod, newPod) =>
        if newPod.meta.resourceVersion == oldPod.meta.resourceVersion {
          return;
        }
        HandleObject(Object(newPod.meta), cache);
      case Deleted(_) =>
    }

    /** handleObject and enqueuePod. */
    method HandleObject(obj: Payload, cache: Lister)
      modifies queue
      ensures queue.actions == old(queue.actions)
        + (if Admission.HandleObject(obj, cache).Some? then [Add(Admission.HandleObject(obj, cache).value)] else [])
    {
      var decoded := Decode(obj);
      if decoded.None? {
        return;
      }
      var ownerRef := decoded.value.controller;
      if ownerRef.Some? {
        if ownerRef.value.kind != JobKind {
          return;
        }
        var found := Lookup(cache, decoded.value.Ref());
        if found.Failed? {
          return;
        }
        if found.pod.phase != RunningPhase {
          return;
        }
        queue.Add(MetaNamespaceKey(found.pod.meta.Ref()));
      }
    }

    /** The container loop of sendShutdownSignal; exec errors never stop it. */
    method SendShutdownSignal(pod: Pod, containers: set<string>, env: ExecEnv)
      modifies this
      ensures old(attempts) <= attempts
      ensures SignalsAll(pod, containers, env, attempts[|old(attempts)|..])
    {
      if !env.configLoaded {
        return;
      }
      if !env.schemeRegistered {
        return;
      }
      var remaining := containers;
      ghost var sent: seq<ExecAttempt> := [];
      while remaining != {}
        invariant remaining <= containers
        invariant attempts == old(attempts) + sent
        invariant forall i | 0 <= i < |sent| :: sent[i].request.container in containers - remaining
        invariant forall i | 0 <= i < |sent| :: sent[i] == Attempt(pod, sent[i].request.container, env)
        invariant forall i, j | 0 <= i < j < |sent| :: sent[i].request.container != sent[j].request.container
        invariant forall c | c in containers - remaining :: exists i | 0 <= i < |sent| :: sent[i].request.container == c
        decreases remaining
      {
        var c :| c in remaining;
        var request := KillRequest(pod, c);
        // A failed executor or stream is logged; the loop carries on.
        var failed := c in env.failing;
        attempts := attempts + [ExecAttempt(request, failed)];
        ghost var before := sent;
        sent := sent + [ExecAttempt(request, failed)];
        assert forall i | 0 <= i < |before| :: sent[i] == before[i];
        assert sent[|before|].request.container == c;
        forall d | d in containers - (remaining - {c})
          ensures exists i | 0 <= i < |sent| :: sent[i].request.container == d
        {
          if d != c {
            assert d in containers - remaining;
            var i :| 0 <= i < |before| && before[i].request.container == d;
            assert sent[i].request.container == d;
          }
        }
        remaining := remaining - {c};
      }
      assert containers - remaining == containers;
      assert attempts[|old(attempts)|..] == sent;
    }

    /** syncHandler; its error does not depend on how the exec calls went. */
    method SyncHandler(key: string, cache: Lister, env: ExecEnv) returns (err: Option<LookupError>)
      modifies this
      ensures err == SyncError(Sync(key, cache))
      ensures Sync(key, cache).Synced? && Sync(key, cache).signalled ==>
        old(attempts) <= attempts && SignalsAll(Sync(key, cache).pod, Sidecars, env, attempts[|old(attempts)|..])
      ensures !(Sync(key, cache).Synced? && Sync(key, cache).signalled) ==> attempts == old(attempts)
    {
      var ref := SplitMetaNamespaceKey(key);
      if ref.None? {
        return None;
      }
      var found := Lookup(cache, ref.value);
      if found.Failed? {
        return Some(found.err);
      }
      var pod := found.pod;
      var all, running, completed := ClassifyStatuses(pod.statuses);
      if running + completed == all {
        if running == Sidecars {
          SendShutdownSignal(pod, Sidecars, env);
        }
      }
      return None;
    }

    /** processNextWorkItem for the result of the queue's Get (None: the queue shut down). */
    method ProcessNextWorkItem(got: Option<Item>, cache: Lister, env: ExecEnv) returns (more: bool)
      modifies this, queue
      ensures more <==> got.Some?
      ensures queue.actions == old(queue.actions) + WorkItemActions(got, cache)
      ensures got.Some? && got.value.Key? && Sync(got.value.key, cache).Synced? && Sync(got.value.key, cache).signalled ==>
        old(attempts) <= attempts && SignalsAll(Sync(got.value.key, cache).pod, Sidecars, env, attempts[|old(attempts)|..])
      ensures !(got.Some? && got.value.Key? && Sync(got.value.key, cache).Synced? && Sync(got.value.key, cache).signalled) ==>
        attempts == old(attempts)
    {
      if got.None? {
        return false;
      }
      var obj := got.value;
      if !obj.Key? {
        queue.Forget(obj);
        queue.Done(obj);
        return true;
      }
      var key := obj.key;
      var err := SyncHandler(key, cache, env);
      if err.Some? {
        queue.AddRateLimited(key);
      } else {
        queue.Forget(obj);
      }
      queue.Done(obj);
      return true;
    }
  }
}
