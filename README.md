# Terminate-sidecar job controller: a Dafny model of the reconciliation core

The controller watches pods that belong to Kubernetes Jobs. A Job pod that runs
an Istio proxy beside its main containers never completes on its own, because
the proxy keeps running. When every main container has finished, the controller
execs `sh -c "kill -s TERM 1"` in the `istio-proxy` container so the pod can
complete.

This project models the decision logic of `controller.go` and proves what it
guarantees:

- **Classification** (`Classification`). The loop of `syncHandler` sorts the
  container statuses into three name sets: `all`, `running` (ready) and
  `completed` (not ready, terminated with reason `Completed` or `Error`).
  `ClassifyStatuses` is that loop. It is proved equal to `Classify`, which
  defines each set by the statuses that contribute to it.
- **Decision** (`Decision`). The sidecars are signalled exactly when
  `running ∪ completed == all` and `running == {"istio-proxy"}`. The lemmas
  cover the edge cases: an unaccounted container, a ready main container, a
  proxy that is not ready, and the empty pod. `ShutdownDueIff` characterises
  the decision in terms of the container statuses themselves.
- **Admission** (`Admission`). The informer handlers turn a notification into
  a queue key or nothing. An update with an unchanged resource version is a
  resync and is dropped. A delete does nothing. Otherwise the key is enqueued
  only for a Job-controlled object whose cached pod is `Running`.
- **Reconciliation** (`Reconcile`). `Sync` is `syncHandler` as a function of
  the key and the pod cache. `WorkItemActions` lists the calls
  `processNextWorkItem` makes on the work queue. The `Controller` class holds
  the imperative versions. `HandleEvent` and `HandleObject` add to the queue.
  `SyncHandler` runs the classification loop and the shutdown loop.
  `ProcessNextWorkItem` issues `Forget`/`AddRateLimited` and `Done`.
  `SendShutdownSignal` makes one kill attempt per sidecar container.
  Each method is proved against the pure functions above.

The work queue is modelled only by the calls the controller makes on it. The
`WorkQueue` class records `Add`, `Forget`, `AddRateLimited` and `Done` in
order. The pod cache (the informer's lister) is a `map<PodRef, Pod>` that is
passed to each handler, because the informer updates it and the controller
never does. Remote exec is modelled by the requests it issues. An `ExecEnv`
parameter says whether the client configuration loaded, whether the scheme
registered, and which containers' exec fails. client-go's
`MetaNamespaceKeyFunc` and `SplitMetaNamespaceKey` are modelled after their
documented behaviour. A key is `namespace/name`, or just `name` in the empty
namespace. A key with two or more `/` is invalid. `metav1.GetControllerOf` is
the `controller` field of `ObjectMeta`.

Behaviour worth noting; the model follows the code:

- A pod that is missing from the cache is retried, not dropped.
  `syncHandler` returns every lister error unchanged (controller.go:232-233),
  and `processNextWorkItem` requeues every sync error with `AddRateLimited`
  (controller.go:197-199). `NotFoundRequeued` states this.
- Exec failures never reach the caller. `sendShutdownSignal` has no return
  value (controller.go:339). A stream error is only logged, and the loop
  moves on to the next container (controller.go:389-391). `syncHandler` then
  returns nil (controller.go:271). So `SyncHandler`'s error depends only on
  the key and the cache, never on the `ExecEnv`. A failed executor creation
  is not modelled (see the `SendShutdownSignal` line under "## Left out").
- Tombstones (`DeletedFinalStateUnknown`) are decoded inside `handleObject`
  (controller.go:296-308), which the add and update handlers call. The
  delete handler does nothing (controller.go:334-336), so a deleted object
  never reaches `handleObject`.
- The empty pod: the sidecar set is `{"istio-proxy"}` (controller.go:236-237),
  and an empty pod has `running = ∅`, so the equality at controller.go:264
  fails and the pod is never signalled (`EmptyPodNeverShutsDown`).

## Model

| member | source | states |
|---|---|---|
| `Pods.Lookup` | controller.go:230 | the lister's `Get`: the cached pod when the identity is in the cache, otherwise a NotFound error for that identity (also used at controller.go:317) |
| `Keys.MetaNamespaceKey` | controller.go:280 | the key is the name alone in the empty namespace; otherwise it is the namespace, one separator, then the name |
| `Keys.SplitMetaNamespaceKey` | controller.go:223-227 | a key with no `/` is a name in the empty namespace; a valid result has no `/` in either part and, when the namespace is non-empty, rejoins to the key |
| `Keys.SplitInvertsKey` | controller.go:223-227 | splitting the queue key of a pod with well-formed namespace and name returns that pod's identity |
| `Keys.SplitOneSeparator` | controller.go:223-227 | any key with exactly one separator splits there, including an empty namespace part ("/b" gives namespace "" and name "b") |
| `Keys.TwoSeparatorsInvalid` | controller.go:223-227 | a key with two separators is rejected as invalid |
| `Classification.Classify` | controller.go:238-253 | `running` and `completed` are subsets of `all`; every status's name is in `all`, every ready status's name in `running`, every finished status's name in `completed` |
| `Classification.ClassifyStatuses` | controller.go:238-253 | the loop builds exactly the sets `Classify` defines |
| `Classification.PrefixStep` | controller.go:243-252 | one more status adds its name to `all`, to `running` iff ready, to `completed` iff not ready and terminated with Completed or Error |
| `Classification.NamePartition` | controller.go:242-253 | with unique names, each name of `all` lies in exactly one of `running`, `completed` and the unaccounted rest `all - (running + completed)` |
| `Classification.ClassifyDistinct` | controller.go:242-253 | with unique names, a name is running iff its status is ready, completed iff finished, and an unaccounted container is in neither set |
| `Classification.DisjointWhenDistinct` | controller.go:245-252 | with unique names, `running` and `completed` are disjoint |
| `Classification.DuplicateNamesOverlap` | controller.go:242-253 | without unique names the sets can overlap: a ready "a" and a completed "a" put "a" in both |
| `Decision.ShutdownDue` | controller.go:262-264 | the two-set test; when it holds, every sidecar is among the pod's containers and every container that did not complete is a sidecar; an unaccounted container makes it false |
| `Decision.EmptyPodNeverShutsDown` | controller.go:236-237 | a pod with no container statuses is never signalled |
| `Decision.RunningMainBlocks` | controller.go:264 | a ready container other than istio-proxy prevents the shutdown (equality, not subset) |
| `Decision.SidecarNotReadyBlocks` | controller.go:264 | if no istio-proxy status is ready, no shutdown is sent |
| `Decision.UnaccountedBlocks` | controller.go:262 | with unique names, a not-ready container without reason Completed/Error prevents the shutdown for any sidecar set |
| `Decision.ShutdownDueIff` | controller.go:236-267 | with unique names, shutdown is due iff an istio-proxy container exists, it is ready, and every other container is finished |
| `Decision.DecisionExamples` | controller.go:262-264 | all={A,B,proxy}, running={proxy}, completed={A,B} is due; proxy and A running is not; B unaccounted is not |
| `Decision.MainCompletedScenario` | controller.go:242-267 | main Completed plus a ready proxy classifies as all={main,proxy}, running={proxy}, completed={main}, and the shutdown is due |
| `Admission.Decode` | controller.go:296-308 | an object with metadata is used as is; a tombstone yields its last known object, or nothing when that object has no metadata; a value of any other type yields nothing |
| `Admission.HandleObject` | controller.go:310-331 | a key is produced iff the object decodes, its controller owner is a Job, the cache has the pod, and the cached pod is Running; the key is that pod's key |
| `Admission.Admit` | controller.go:104-117 | deletes never enqueue; updates with equal resource versions never enqueue; other updates handle the new object; adds handle the object |
| `Admission.AdmitIff` | controller.go:104-117 | over all events: a key is enqueued iff the event's subject is Job-controlled and its cached pod is Running, and the key is that pod's key |
| `Admission.NonJobNeverEnqueued` | controller.go:310-315 | an object with no controller or a non-Job controller is never enqueued, by add or update |
| `Admission.AdmittedKeySplits` | controller.go:277-285 | in a consistent cache with well-formed names, every enqueued key splits back into the identity of a pod the cache holds |
| `Reconcile.Sync` | controller.go:219-272 | invalid key iff the key does not split; lookup failure iff the pod is not cached, with a NotFound error for that identity; otherwise the cached pod, signalled iff the shutdown decision holds |
| `Reconcile.SyncError` | controller.go:226-234 | syncHandler returns an error exactly for a failed lookup, and that error is the lister's error unchanged |
| `Reconcile.WorkItemActions` | controller.go:164-215 | no calls after shutdown; otherwise two calls ending in Done; Forget unless a string key's sync failed, in which case AddRateLimited of that key instead |
| `Reconcile.NotFoundRequeued` | controller.go:230-234 | a key whose pod is missing is rate-limited back onto the queue, not dropped |
| `Reconcile.InvalidKeyForgotten` | controller.go:223-227 | an invalid key is forgotten and never requeued |
| `Reconcile.AdmittedKeySyncs` | controller.go:197-206 | a key the handlers admitted, processed against the same consistent cache, syncs without error, is forgotten, and signals iff the pod's containers call for it |
| `Reconcile.KillRequest` | controller.go:366-373 | the exec options for one container: that pod's namespace and name, the container, argv `sh -c "kill -s TERM 1"`, stdin off, stdout and stderr on, no TTY |
| `Reconcile.WorkQueue.Add` | controller.go:284 | the queue records one `Add(key)` after the earlier calls |
| `Reconcile.WorkQueue.Forget` | controller.go:192 | the queue records one `Forget(item)` after the earlier calls (also at controller.go:204) |
| `Reconcile.WorkQueue.AddRateLimited` | controller.go:199 | the queue records one `AddRateLimited(key)` after the earlier calls |
| `Reconcile.WorkQueue.Done` | controller.go:180 | the queue records one `Done(item)` after the earlier calls |
| `Reconcile.Controller.constructor` | controller.go:94-100 | a new controller has the given queue and has made no exec attempts |
| `Reconcile.Controller.HandleEvent` | controller.go:104-117 | the queue gains `Add(key)` exactly when `Admit` yields a key, and nothing otherwise |
| `Reconcile.Controller.HandleObject` | controller.go:277-332 | the queue gains `Add(key)` exactly when `HandleObject` yields a key |
| `Reconcile.Controller.SendShutdownSignal` | controller.go:339-392 | no attempt if config or scheme setup fails; otherwise exactly one kill request per container, all with argv `sh -c "kill -s TERM 1"`, stdin off, stdout/stderr on, no TTY; earlier attempts are kept |
| `Reconcile.Controller.SyncHandler` | controller.go:219-272 | returns the error `Sync` gives, whatever the exec outcomes; makes the kill attempts for the sidecar set exactly when `Sync` says signalled |
| `Reconcile.Controller.ProcessNextWorkItem` | controller.go:164-215 | returns false iff the queue shut down; the queue's calls are `WorkItemActions`; exec attempts as in `SyncHandler` for a string key |

## Left out

- Event broadcaster, event recorder and klog logging (controller.go:85-92, 255-258, 270): output only, with no effect on decisions.
- `Run`, `runWorker`, the worker goroutines and the cache-sync wait (controller.go:126-160): concurrency and lifecycle. The result of the queue's `Get` is a parameter of `ProcessNextWorkItem`.
- Work-queue internals: deduplication of pending keys, backoff timing, and one-worker-per-key. The queue is modelled as the sequence of calls made on it.
- `Reconcile.Controller.SendShutdownSignal`: it does not model the REST and SPDY machinery (controller.go:345-359, 376-387), which is network I/O. It also does not model the nil executor used after a failed `NewSPDYExecutor` (controller.go:376-382). Executor and stream errors appear only as the `failed` flag of an attempt.
- `Reconcile.Controller.SendShutdownSignal`: the source reuses one request builder for every container and calls `VersionedParams` on it each time. `VersionedParams` adds to the request's parameters, so from the second container on the reused request also carries the earlier containers' parameters. The model gives each attempt only its own parameters. This cannot happen with the one-element sidecar set that `syncHandler` passes.
- The order in which containers are attempted: the set's `ToSlice` order is unspecified, so the model allows any order.
- `enqueuePod`'s key-function error path (controller.go:280-283): it cannot happen for a pod object, so the model always produces a key.
- The unused constants `ErrResourceExists` and `MessageResourceExists` (controller.go:51, 55). `SuccessSynced` and `MessageResourceSynced` are used only in the event-recorder call at controller.go:270, which is left out with the recorder.
