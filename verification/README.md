# k8s-metacollector: a verified model of the metadata stream

The collector watches cluster objects and, for every connected subscriber (a node name plus a fresh UID), sends the
Create, Update and Delete events that keep the subscriber's copy equal to the objects related to its node. This project
models that path, from the informers' requests to the gRPC stream, and proves what holds in every run of it.

## How it is organised

| files | part of the system |
|---|---|
| `types`, `fields`, `events`, `subscriber` | subscriber sets, references, resources and their three audiences, the cache with entries edited in place, the registry |
| `engine`, `attempts`, `collectors` | one reconcile: the specification as a function (`Engine.Decide`), the reads and error paths in front of it (`Attempts`), and the `Reconcile` methods proved to compute exactly that |
| `relations`, `servicerefs`, `dispatcher`, `onboarding` | the four encodings of "which objects concern which node", the dispatcher that uses one of them, and the lemmas that make them agree |
| `collectorsteps`, `undisturbed`, `streams`, `replicas`, `convergence` | one collector as a step system, its agreement with `Attempts`, the stream of one subscriber about one key, replica correctness, pod convergence |
| `system`, `subscriptions`, `delivery`, `owners`, `theorems`, `stranding` | all goroutines together: Watch handlers, seven collectors, queue, broker loop, streams, with the cluster changing underneath; the main results |
| `runs`, `counterexamples` | complete runs in which something one would expect fails |
| `broker`, `endpointslices`, `shutdown` | queue, connections and send loop as methods; the EndpointSlice diff; termination after cancellation |

A run (`System.IsRun`) is any interleaving of the atomic steps of all goroutines and of the cluster. One reconcile is
many steps: taking the key, each read, each registry look-up of `getSubscribers`, the commit to the cache, each trigger
and each push. The dispatcher's registry write, list and sends are separate steps too. `home`, `gone`, `log`,
`adrift`, `relapsed`, `pushed`, `popped`, `attempts` and `received` are histories that no step looks at.

The function `Engine.Decide` is what the imperative `Reconcile` methods are proved to compute and what the `Commit` step
applies. What comes before it is tied in the same way: a worker that is not interfered with arrives at the decision
`Attempts` makes of the same reads (`Undisturbed.Decides`).

## What was found

Six properties one would expect do not hold of the code as it is. Each has a concrete counterexample, and a condition
under which it holds.

* **The silent drop can lose a live subscriber.** When a pod's node has no subscriber, the pod collector forgets the
  entry without events (collectors/pod.go:130-137). If the pod was last reconciled on another node, a holder there is
  never told: `Counterexamples.PodMoveStrands` is a complete run. `Theorems.StrandingExact` says when a reconcile
  strands someone: the node changed since the last reconcile and a holder is still registered for the old one. From then
  until the next Create the subscriber's copy is wrong, and only then (`Theorems.ReplicaCorrect`); its stream is a
  prefix of (Create Update* Delete)* until that Create, and not after it (`Theorems.ReceivedStreamExact`). As long as a
  pod stays where it is cached, nobody is ever stranded (`Stranding.NobodyStranded`), and streams and replicas are right
  without further condition.
* **An entry can outlive its pod.** A Watch may name no node (metadata/server.go:84-110), and an EndpointSlice may
  trigger a pod that is not scheduled (collectors/pod.go:429-432). Such a pod is cached, but its deletion is filtered
  out (collectors/pod.go:410-423), so the entry stays although the collector has nothing left to do:
  `Counterexamples.EntryOutlivesPod`. Only Watches that name no node hold such entries, and if there are none, the cache
  of a drained pod collector equals recomputation from scratch (`Theorems.PodUpToDate`).
* **A pod can hide its owners.** Owners are triggered for Create and Delete events only (collectors/pod.go:223-225), so
  what changes while a subscriber holds the pod is noticed by nobody. A pod that is deleted and created again under its
  name on the same node before its collector notices is an Update: if the trigger of the first one was handled in
  between, the subscriber has the pod and never gets its namespace (`Counterexamples.RecreatedPodHidesNamespace`). A pod
  controlled by a Namespace triggers a wrong key, because the handlers write to the same place
  (`Owners.NamespaceControllerHides`). `Owners.ServedExact` says, for namespaces and all workloads, exactly which steps
  hide an owner: a pod that comes back or is handed over, or a ReplicaSet that is handed over, while nothing brings the
  owner to a holder; and a pod reconcile that adds a holder with a content that does not refer to the owner. A
  subscriber is served all through a run if and only if there is no such step (`Theorems.ServedThroughout`), and then it
  misses nothing (`Theorems.NoMissingOwner`).
* **An entry keeps the UID it was first cached with** (collectors/partialObjectMetadata.go:163-173), so after an object
  was recreated under its name a Delete names an object the subscriber no longer knows: `Engine.StaleDelete`. Streams
  are therefore stated by cache key; by UID they are right exactly if no key changes UID while cached
  (`Engine.UidAgreement`, for a hash without collisions).
* **The index by generateName ignores the owner's kind** (collectors/indexes.go:53-67): `Relations.NameClash` shows a
  DaemonSet counting the pods of a ReplicationController of the same name. `Relations.LookupExact` says exactly which
  pods each look-up finds.
* **The index knows only pods that their controller named.** For a pod that a ReplicaSet adopted, dispatch asks for the
  ReplicaSet, which does not count the pod: `Relations.AdoptedPodMissed`. What dispatch reaches finds the pod again
  exactly under `Relations.DispatchedIsRelatedExact`.

## Assumptions

* The hash is an arbitrary function of the content, `h: Content -> int`; only the lemmas that ask for `Injective` assume
  it has no collisions.
* One worker per collector; a key that becomes due while it is reconciled stays queued; a failed reconcile keeps its key.
* An object changes and its key becomes due in one step. Updates of unscheduled pods are filtered as in the source, and
  an update never unschedules a pod (`Convergence.Possible`). A run starts with no pods: the informers' first list is a
  series of creations.
* `lossy` records that a list or get of the dispatcher failed; convergence is claimed while none did. Streams, replicas
  and delivery are claimed regardless.
* Stream and delivery properties are about runs before cancellation. Termination (`shutdown.dfy`) starts from any state
  whatever and assumes that stopping the gRPC server cancels the stream contexts and lets no new call in, that the
  informers are stopped, and that the work queues are drained.

## Model

| member | source | states |
|---|---|---|
| Fields.Intersect | pkg/fields/fields.go:69-81 | the loop over the smaller set yields the intersection |
| Fields.Difference | pkg/fields/fields.go:84-92 | the loop yields the difference |
| Fields.ToFlatMap | pkg/fields/fields.go:35-50 | every kind keeps its UIDs, in order |
| Fields.FlattenExact | pkg/fields/fields.go:35-50 | the flat references have the same kinds and, place by place, the UIDs of the references |
| Events.Resource.GenerateSubscribers | pkg/events/types.go:97-111 | Create for new, Delete for lost, Update for kept subscribers only when the hash changed; the content is untouched |
| Events.Resource.ToEvents | pkg/events/types.go:137-198 | three slots, Create, Update and Delete, each empty exactly if nobody is in its audience; the first two say uid, kind, meta, spec, status and references of the resource, field by field and without empty texts, the last one only uid and kind; the audiences are cleared |
| Events.Resource.GrpcRefs | pkg/events/types.go:200-212 | only pods carry references over the wire |
| Events.Resource.AddReferencesForKind | pkg/events/types.go:129-134 | a later handler replaces the references of its kind and no other |
| Events.Cache.Add | pkg/events/cache.go:56-63 | adds if absent; entries stay unshared |
| Events.Cache.Update | pkg/events/cache.go:66-70 | replaces one key and no other; entries stay unshared |
| Events.Cache.Delete | pkg/events/cache.go:73-77 | removes one key; the values of the others are unchanged |
| Events.Cache.Has | pkg/events/cache.go:88-93 | true exactly for a cached key |
| Subscriber.Subscribers.AddSubscriberPerNode | pkg/subscriber/types.go:39-51 | adds one UID to one node and keeps the registry free of empty nodes |
| Subscriber.Subscribers.GetSubscribersPerNode | pkg/subscriber/types.go:54-66 | copies out the whole set, None for a node without subscribers |
| Subscriber.Subscribers.DeleteSubscriberPerNode | pkg/subscriber/types.go:69-82 | removes one UID, and the node with its last one |
| Subscriber.Subscribers.HasNode | pkg/subscriber/types.go:85-90 | true exactly if somebody is registered for the node |
| Subscriber.RemovedAfterAdded | pkg/subscriber/types.go:39-82 | unsubscribing restores the registry as it was before subscribing |
| Subscriber.ChangesExact | pkg/subscriber/types.go:39-82 | adding and removing concern one subscriber of one node, and no node is left empty |
| Engine.DeltaConservation | pkg/events/types.go:97-198 | per reconcile: audiences disjoint and non-empty, Create = new minus old, Delete = old minus new, Update = kept exactly if the hash changed; replaying them turns the old holders into the new |
| Engine.HistoryConservation | pkg/events/types.go:97-198 | folding the deltas of any sequence of reconciles from the empty set gives the cached holders |
| Engine.Idempotent | collectors/partialObjectMetadata.go:148-186 | reconciling again with the same findings emits nothing and changes nothing |
| Engine.EntryExact | collectors/pod.go:159-191 | what an entry keeps of a reconcile (the hash, references and subscribers of now, the UID of when it was first cached) and which references its events trigger: those of the content, or the cached ones when the object is gone |
| Engine.EventsExact | pkg/events/types.go:153-195 | every Create or Update of a reconcile renders its content, every Delete only names the object |
| Engine.FullRenders | pkg/events/types.go:153-181 | a full message says what the content is, field by field |
| Engine.OnlyFullRenders | pkg/events/types.go:153-181 | and is the only message that does |
| Engine.UidAgreement | collectors/partialObjectMetadata.go:160-186 | every Update and Delete of a history names the object its receivers hold if and only if no key changes UID while cached |
| Engine.StaleDelete | collectors/pod.go:172-211 | the counterexample: a recreated pod is deleted under its old UID |
| Attempts.PodIdempotent | collectors/pod.go:290-309 | an unchanged pod emits nothing, in whatever order the services are listed the second time |
| Attempts.ObjectIdempotent | collectors/services.go:106-180 | the same for owners and services, whatever the order of the pod list |
| Attempts.PodFails | collectors/pod.go:105-157 | when a pod reconcile fails, in terms of its reads: the pod cannot be read, or it runs on a node with subscribers and another read, the rendering or the hashing fails; a missing ReplicaSet is no failure |
| Attempts.PodDecides | collectors/pod.go:111-137 | what it decides otherwise: a missing pod is taken away, a pod on a node without subscribers is dropped silently, any other is sent to the subscribers of its node |
| Attempts.ObjectFails | collectors/partialObjectMetadata.go:115-158 | when the other reconciles fail: the object cannot be read, its pods cannot be listed, or somebody is to get it and rendering or hashing fails |
| Attempts.ObjectDecides | collectors/partialObjectMetadata.go:121-146 | what they decide otherwise, and for whom: those registered for the node of a listed pod that is scheduled and, for services, has an IP |
| Attempts.ContentsExact | collectors/pod.go:315-347 | which text and which UID land where in a content |
| Attempts.ReferencesExact | collectors/pod.go:235-312 | the references of a pod, kind by kind: services, controller of the ReplicaSet, controller, namespace; the first of these that is of the kind |
| Attempts.OwnerTriggersExact | collectors/pod.go:383-399 | the owners triggered are exactly the references of the five kinds that have a source |
| Collectors.UpsertEntry | collectors/pod.go:159-191 | edits the entry in place, leaves every other entry alone, and leaves exactly the pending events of the specification |
| Collectors.RemoveEntry | collectors/pod.go:192-211 | drops the entry and prepares Deletes for exactly its holders, under the cached UID and references |
| Collectors.PodCollector.OwnerRefsHandler | collectors/pod.go:235-275 | the controller, then the controller of a ReplicaSet; a missing ReplicaSet is tolerated, a failed read is not |
| Collectors.PodCollector.ServiceRefsHandler | collectors/pod.go:278-312 | the references are those of the services selecting the pod, sorted by UID |
| Collectors.PodCollector.TriggerOwners | collectors/pod.go:383-399 | one launch with every owner of a kind that has a source, and nothing else |
| Collectors.PodCollector.PushOne | collectors/pod.go:219-228 | owners are triggered directly before a Create or Delete is pushed, and not for an Update |
| Collectors.ActsExact | collectors/pod.go:216-228 | over all the events of a reconcile: they are pushed in order, every Create and Delete directly after its owners were triggered, no Update, and owners are triggered for nothing else |
| Collectors.DoneExact | collectors/pod.go:159-228 | what a completed pod reconcile adds to the acts: everybody is told Create, Update or Delete exactly as the change of the entry calls for, nobody by the silent drop, and the owners triggered are those of the content, or of the cached entry when the pod is gone |
| Collectors.ServedExact | collectors/partialObjectMetadata.go:148-216 | the same of the other collectors, which trigger nobody |
| Collectors.PodCollector.Reconcile | collectors/pod.go:96-231 | fails exactly if the pod cannot be read, or runs on a node with subscribers and another read, the rendering or the hashing fails, and then changes nothing; otherwise an entry is left exactly for a pod on a node with subscribers, and cache, pushes and triggers, in order, are those of the specification |
| Collectors.CollectSubscribers | collectors/services.go:247-262 | the loop over pods yields the union of the registered subscribers of their nodes |
| Collectors.ObjectCollector.GetSubscribers | collectors/partialObjectMetadata.go:264-299 | None if the list fails; nobody for a service without selector; otherwise everyone on a node of a listed pod |
| Collectors.ObjectCollector.Reconcile | collectors/partialObjectMetadata.go:107-221 | for owners and services: fails exactly if the object cannot be read, its pods cannot be listed, or somebody is to get it and rendering or hashing fails, and then changes nothing; otherwise an entry is left exactly if somebody is to get it, and the deltas are those of the specification |
| Relations.ManagingOwnerExact | pkg/events/owner.go:23-30 | the managing owner is the first one whose controller flag is set |
| Relations.MatchesExact | collectors/dispatch.go:143-156 | a selector matches if all its labels are among the pod's |
| Relations.RelatedExact | collectors/partialObjectMetadata.go:264-299 | which pods count: for a namespace those in it, for a service those of its namespace with an IP and all labels of its selector, which is not empty, for a workload those generated under its name |
| Relations.SubscribersExact | collectors/services.go:234-263 | the subscribers are those registered for the node of a scheduled pod that counts |
| Relations.DispatchedExact | collectors/dispatch.go:77-156 | what dispatch asks for because of a pod: the pod, its namespace, the services of its namespace that select it, its controller if of the kind |
| Relations.DispatchedDeployments | collectors/dispatch.go:111-142 | and for deployments the controller of the pod's ReplicaSet, which has to be there |
| Relations.LookupExact | collectors/indexes.go:53-67 | exactly which pods count for a workload: those of its namespace generated under the name looked up, with or without the hash in their label; their owner does not matter |
| Relations.RolloutFound | collectors/indexes.go:53-67 | an example with the literal label: which deployments and ReplicaSets find the pod of a rollout |
| Relations.DispatchedIsRelatedExact | collectors/dispatch.go:92-156 | exactly when what dispatch reaches from a pod finds that pod again: always for namespaces, for services if it has an IP, for workloads if it was generated for them |
| Relations.DispatchedIsRelated | collectors/indexes.go:53-67 | under the controllers' naming, which only the workloads need, it always does |
| Relations.AdoptedPodMissed | collectors/indexes.go:53-67 | the counterexample: a ReplicaSet does not count a pod it adopted, although dispatch asks for it |
| Relations.NameClash | collectors/indexes.go:53-67 | the counterexample: a DaemonSet counts another controller's pods |
| ServiceRefs.SortSorted | collectors/pod.go:303-307 | the sorted list is in order of UIDs |
| ServiceRefs.SortedUnique | collectors/pod.go:303-307 | with distinct UIDs there is only one sorted order, so any sort gives it |
| ServiceRefs.OrderIrrelevant | collectors/pod.go:290-309 | the references of a pod do not depend on the order of the service list |
| ServiceRefs.LessExact | collectors/pod.go:303-307 | UIDs are compared at the first place where they differ or where one ends |
| ServiceRefs.ReferencesMember | collectors/pod.go:290-301 | a pod refers to exactly the listed services with a selector whose labels it all has |
| ServiceRefs.ServiceReferredExact | collectors/dispatch.go:143-156 | which are exactly those that dispatch asks for because of it |
| ServiceRefs.ServicePodDuality | collectors/services.go:234-263 | a UID is a subscriber of a service exactly if a pod with an IP on its node refers to that service |
| Dispatch.Dispatcher.SendBatch | collectors/dispatch.go:77-156 | for one pod, the keys of the collector's kind, all of them or a prefix if the controller stopped |
| Dispatch.Dispatcher.Handle | collectors/dispatch.go:58-162 | registry written first and in any case; nothing sent if the list fails; otherwise all keys of all listed pods, in order, or a prefix |
| Dispatch.BatchExact | collectors/dispatch.go:77-156 | a batch enumerates exactly the keys of the relation, and nothing if the ReplicaSet cannot be read |
| Dispatch.BatchesExact | collectors/dispatch.go:74-160 | the keys sent for a list of pods are those of the batches of its pods, and no others |
| Onboarding.ReconcileFinds | collectors/partialObjectMetadata.go:264-299 | a reconcile sends an object to exactly those registered for a node where a related pod runs |
| Onboarding.SubscribeExact | collectors/dispatch.go:58-161 | in a cluster that stands still, a new subscriber holds of what was reconciled exactly the pods of its node and the objects related to one |
| Onboarding.NamespaceHeldExact | collectors/partialObjectMetadata.go:264-299 | of the namespaces that were reconciled, a new subscriber holds exactly those with a pod on its node |
| Onboarding.SubscribeComplete | collectors/dispatch.go:58-161 | whatever was registered before, each reconciled key that dispatch reaches through a pod on the node lists the subscriber: pods and namespaces always, services if the pod has an IP, workloads if it was generated for them |
| Onboarding.DispatchServes | collectors/dispatch.go:58-161 | handling the message with faithful lists and reconciling everything it sends does that for every pod on the node |
| Undisturbed.StaysOnTrack | collectors/pod.go:103-156 | every step of a worker that nobody interferes with leads towards the decision of faithful reads |
| Undisturbed.Decides | collectors/partialObjectMetadata.go:113-158 | and such a worker arrives at a decision that Attempts makes of faithful reads, for pods, owners and services |
| CollectorSteps.RegistryKept | pkg/subscriber/types.go:39-82 | in every state the registry holds exactly who subscribed and has not left, under the node it named |
| CollectorSteps.HoldersKept | collectors/partialObjectMetadata.go:264-299 | every step keeps: entries have known holders, of the pod's own node for pods, the cached hash is that of the last content, and interleaved registry reads stay sandwiched |
| Streams.ReplayAlternates | collectors/partialObjectMetadata.go:148-216 | a stream is a prefix of (Create Update* Delete)* exactly if replaying it meets every event in its place; the copy is empty exactly before the first event and after a Delete |
| Streams.ReplicaDecide | pkg/events/types.go:97-198 | what one reconcile does to one subscriber's replica, case by case |
| Replicas.ReplicasKept | collectors/pod.go:126-228 | every step keeps cache and replicas in agreement, up to stranding |
| Replicas.StreamLegal | collectors/pod.go:126-228 | the stream generated for a subscriber is legal if and only if it was not sent a second Create after a silent drop |
| Replicas.ReplicaExact | collectors/pod.go:126-228 | the copy of a subscriber that has not left agrees with the cache if and only if no silent drop stranded it since its last Create |
| Replicas.SilentDropExact | collectors/pod.go:130-137 | when a silent drop is safe, both ways |
| Replicas.ConcludeSandwiched | collectors/partialObjectMetadata.go:285-298 | the result has everyone registered throughout for a related node and only people registered there at some moment |
| Convergence.StepConverges | collectors/dispatch.go:58-91 | every step keeps: a pod key is up to date, queued, still to be dispatched, or in the worker's hands with fresh readings |
| Convergence.ChangeConverges | collectors/pod.go:409-425 | so does every change of the cluster, with the informer's filter |
| Convergence.RestingUpToDate | collectors/pod.go:126-191 | at rest, a key equals recomputation from scratch for a scheduled pod, and for every pod if everyone named a node; other entries are held only by those who named none |
| Stranding.NobodyStranded | collectors/pod.go:130-137 | over whole runs in which pods stay where they are cached, and do not move between the read and the commit that caches them, no collector ever strands anyone |
| Stranding.PinnedStreamLegal | collectors/pod.go:96-231 | in such runs every received stream is a prefix of (Create Update* Delete)* |
| Stranding.PinnedReplica | collectors/pod.go:96-231 | in such runs every replica agrees with the cache once everything is sent |
| Counterexamples.PodMoveStrands | collectors/pod.go:130-137 | a run in which a connected, registered subscriber is forgotten without an event |
| Counterexamples.EntryOutlivesPod | collectors/pod.go:410-432 | a run after which a drained pod collector still lists a subscriber for a pod that is gone |
| Counterexamples.RecreatedPodHidesNamespace | collectors/pod.go:218-228 | a run after which, everything settled, a subscriber of pods and namespaces misses the namespace of a pod on its node |
| Subscriptions.WatchesKept | metadata/server.go:84-120 | every step keeps: a collector knows a UID exactly as far as its Watch has told it, and the connection is stored meanwhile |
| Delivery.QueueKept | broker/blockingChannel.go:41-59 | every step keeps: pushes are pops plus the queue, in order, within capacity, and each collector's pushes are its log |
| Delivery.BrokerKept | broker/broker.go:108-135 | every step keeps the accounts of attempts, receipts and counters |
| Theorems.RunInv | broker/broker.go:108-135 | all invariants hold in every state of every run |
| Theorems.ReceivedStreamLegal | collectors/pod.go:96-231 | whatever the interleaving, the events received about one key of one collector are a prefix of (Create Update* Delete)*, unless a second Create followed a silent drop |
| Theorems.ReceivedStreamExact | collectors/pod.go:96-231 | once everything is sent, if and only if |
| Theorems.ReplicaCorrect | collectors/partialObjectMetadata.go:148-186 | once everything is sent, the replayed copy of a connected subscriber is there exactly if the entry lists it, with the cached hash, if and only if no silent drop stranded it since its last Create |
| Theorems.ReplicaLatest | collectors/partialObjectMetadata.go:148-186 | with an injective hash the replica says, field by field, what was reconciled last |
| Theorems.StrandingExact | collectors/pod.go:130-137 | exactly which reconciles strand someone; owners and services never do |
| Theorems.OwnersNeverStrand | collectors/partialObjectMetadata.go:107-221 | in no run does a collector other than the pods' strand anyone |
| Theorems.HoldersSelected | metadata/server.go:67-79 | every entry has holders, and each was registered by a Watch that selected the kind |
| Theorems.NoLiveLoss | metadata/server.go:105-120 | whenever an event names a UID, its connection is stored, or its Watch is past the removal |
| Theorems.DeliveryExact | broker/broker.go:108-135 | pushes = pops + queue; a connected subscriber's attempts are the popped events naming it, in order, save the current one while it is still to be tried; receipts are a prefix, and all of them while no send failed; the counters total the attempts |
| Theorems.SubscribersSandwiched | collectors/partialObjectMetadata.go:285-298 | the sandwich, for every getSubscribers call of every run |
| Theorems.PodUpToDate | collectors/pod.go:126-191 | in every state of every run and for every key that is not queued, read or about to be dispatched: a scheduled pod is cached for exactly the subscribers registered for its node; an entry without a scheduled pod is held only by Watches that named no node; if no Watch of pods does that, the entry is what recomputation from scratch gives |
| Theorems.PodsUpToDate | collectors/pod.go:126-191 | so a drained pod collector is right about all keys at once |
| Theorems.ServedThroughout | collectors/pod.go:218-228 | a subscriber is served all through a run if and only if no step of it hides the owner |
| Theorems.ServedSince | collectors/pod.go:218-228 | once served, whatever happened before, it stays served until a step hides the owner |
| Theorems.HiddenComesBack | collectors/pod.go:172-191 | a changed pod that hides an owner came back to the node where it is still cached |
| Theorems.NoMissingOwner | collectors/dispatch.go:77-142 | across two collectors and their registries, for namespaces and all workloads: with nothing left to do about the pod and the owner, a subscriber of both holds every owner of a pod on its node, if no step hid it since the subscriber was last served |
| Theorems.OwnerHeldExact | collectors/dispatch.go:77-142 | and it holds the owner if and only if it was served at some moment and no step hid the owner since |
| Theorems.NoMissingNamespace | collectors/pod.go:383-399 | once the two collectors are settled, a subscriber of pods and namespaces holds every namespace with a pod on its node, if no step hid it |
| Theorems.OwnerReceived | collectors/partialObjectMetadata.go:264-299 | a holder of an owner has received it, if its stream works and everything was sent |
| Theorems.NamespaceReceived | collectors/partialObjectMetadata.go:264-299 | so has the subscriber that misses no namespace |
| Owners.ServedExact | collectors/pod.go:218-228 | exactly which steps keep a holder of a pod served with an owner of it (held, queued, triggered, about to be triggered or dispatched, or about to be found): all but those that hide the owner |
| Owners.NamespaceHidden | collectors/pod.go:383-399 | when a changed pod hides its namespace: it appears on a node where the subscriber holds it and is registered, the namespace is there, and nothing brings it |
| Owners.NamespaceReferred | collectors/pod.go:235-275 | a pod refers to its namespace if and only if the controller written last is not a Namespace |
| Owners.NamespaceControllerHides | collectors/pod.go:353-375 | the counterexample: a pod controlled by a Namespace triggers that name in its own namespace, and not its namespace |
| Owners.WorkloadReferred | collectors/pod.go:235-275 | exactly which workload of a kind a pod refers to |
| Owners.FreshContentRefers | collectors/pod.go:235-275 | a pod read together with the owners it has now refers to all that dispatch reaches from it |
| Owners.FreshReferredExact | collectors/dispatch.go:92-142 | and, controlled the usual way, to nothing else: references and dispatch are the same relation |
| Owners.RemovalTriggers | collectors/pod.go:192-225 | whoever a commit takes out of a pod's holders with an event leaves triggers due for exactly the owners in the references: of the content while the pod is there, and of the cached entry when it is gone |
| Broker.BlockingChannel.Push | broker/blockingChannel.go:41-48 | hands over to a waiting receiver or appends, gives up only when canceled, blocks exactly when full, without a receiver and not canceled; with or without a buffer |
| Broker.BlockingChannel.Pop | broker/blockingChannel.go:51-59 | takes the oldest, the event of a waiting sender coming last, gives up only when canceled, blocks exactly when there is nothing to take and not canceled; with or without a buffer |
| Broker.Connection.Close | metadata/server.go:38-42 | the first error is kept, later ones are ignored |
| Broker.Sender.Route | broker/broker.go:118-134 | one send is tried for each connected subscriber the event names and for nobody else, failures close that connection only, and the counter grows by the number of tries |
| Broker.ServedExact | broker/broker.go:128-133 | what one event does to one connection, field by field: who is named is sent it, a failed send closes, the first error stays |
| Broker.RaisedExact | broker/broker.go:154-158 | only the counter of the event's kind and reason grows, by the number of tries |
| Broker.Server.NotifyCollectors | metadata/server.go:67-79 | each selected kind with a collector is told once; all of them unless the server stops |
| Broker.Server.Watch | metadata/server.go:84-124 | everyone selected hears of the arrival before anyone hears of the departure, and the connection is gone by then |
| EndpointSlices.Dispatcher.GetPods | collectors/endpointslices.go:131-165 | the stored set becomes the pods of the slice, with duplicates and missing targets; added and deleted are the two differences |
| EndpointSlices.PodNamesExact | collectors/endpointslices.go:131-150 | the pods of a slice are the targets that are there |
| EndpointSlices.KeysExact | collectors/endpointslices.go:105-112 | a pod is triggered under its name in the namespace of the slice |
| EndpointSlices.TrimRightExact | collectors/endpointslices.go:82 | the service name is the generated name without its trailing hyphens |
| EndpointSlices.Dispatcher.Forget | collectors/endpointslices.go:62-79 | deletion triggers exactly the stored pods, and the service only if the slice and its name are known |
| EndpointSlices.Dispatcher.Observe | collectors/endpointslices.go:81-98 | triggers each pod that came or went once, and the service |
| EndpointSlices.Dispatcher.Reconcile | collectors/endpointslices.go:50-101 | a failed read changes nothing; otherwise store and triggers follow what was seen |
| EndpointSlices.SliceDiff | collectors/endpointslices.go:131-165 | over any history the store is the last slice seen and the triggers are the symmetric difference |
| EndpointSlices.EveryChangeTriggered | collectors/endpointslices.go:62-91 | a pod that joined or left between two moments was triggered in between |
| Shutdown.NobodyIsBlocked | metadata/server.go:67-79 | after cancellation everyone unfinished has a step that nobody else can take away |
| Shutdown.EveryMoveLowers | collectors/dispatch.go:48-55 | every step, own or joint, lowers a lexicographic measure over notifications, dispatches, pods, triggers, owners and events |
| Shutdown.StuckIsOver | broker/broker.go:137-146 | if nothing can move, every Watch, dispatcher, worker, trigger and the broker loop have finished |
| Shutdown.OverIsStuck | broker/broker.go:137-146 | and the other way round |
| Shutdown.EveryShutdownEnds | collectors/endpointslices.go:105-129 | there is no infinite shutdown, whatever the schedule and the starting state |
| Shutdown.EveryoneFinishes | collectors/dispatch.go:150-181 | a shutdown that moves whenever it can reaches a state where everyone has finished |

## Left out

- Theorems.NoMissingOwner: services are not followed across collectors, since pods do not trigger them. Only "nothing missing" could hold of owners: a pod created and deleted between two reconciles leaves no entry and triggers nobody (collectors/pod.go:113-121), so an owner may keep a holder too many.
- Theorems.PodsUpToDate: exact convergence is stated for pods only, for the same reason.
- Delivery.QueueKept: the queue of `System` hands nothing over without a buffer; the program builds it with a buffer of one (cmd/collector/run/run.go:218), and the runs of `Counterexamples` use that.
- Broker.Server.Watch: the method runs without interference; the interleaved form is the Connect, Store, Notify, Skip, AllNotified, Leave, RemoveConn and Return steps of `System`.
- Events.Resource.GenerateSubscribers: subscriber sets are values, so the sharing of one Go map between the registry copy, the entry and the resource is not modelled; cache entries are objects and their sharing is.
- Collectors.ObjectCollector.Reconcile: stands for the owner collectors and the service collector, with the kind as a field; the `resource` object the owner collector reuses between reconciles is a value here.
- ServiceRefs.SortSorted: the library sort is represented by an insertion sort; `ServiceRefs.SortedUnique` makes the choice irrelevant.
- EndpointSlices.Dispatcher.GetPods: the returned set is a copy, whereas the source returns the stored map itself for a slice seen the first time.
- EndpointSlices.Dispatcher.Reconcile: the service name is keyed by the bare slice name (collectors/endpointslices.go:82), as in the source; nothing is claimed about slices of equal names in two namespaces.
- EndpointSlices.Dispatcher.Observe: the sends of triggers always succeed here, as before cancellation; giving them up is part of `Shutdown`.
- Collectors.PodCollector.Reconcile: pushes always succeed here, as before cancellation; a push that blocks or is given up is a step of `System` or `Shutdown`.
- Shutdown.EveryoneFinishes: the lists, queues and reconciles of the shutdown are counted, not related to the cluster; their contents are arbitrary.
- Stream properties after cancellation: a select may then drop one event and still send a later one.
- The gRPC transport, TLS, the listener, protobuf code, idle timeouts, JSON rendering, the hash function, transformers, logs and metrics other than the dispatch counter: library calls and wiring; rendering and hashing appear as steps that may fail.
- controller-runtime, informers and the API server: a cluster map, a set of due keys per collector, and requests that may also appear for no reason.
