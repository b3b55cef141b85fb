/**
 A reconcile as a function of what it read: which error paths leave everything untouched, what content it renders,
 and what the engine then does. The methods in collectors.dfy are proved to compute exactly this.
 */
module Attempts {
  import opened Types
  import opened Relations
  import Engine
  import ServiceRefs

  /** Everything a pod reconcile found besides the registry; the reads happen one after the other. */
  datatype PodReads = PodReads(pod: Lookup<PodObj>, namespace: Lookup<ObjUid>, replicaSet: Lookup<seq<OwnerRef>>,
                               services: Lookup<seq<(Key, Object)>>, rendered: bool, hashed: bool)

  /** What the other collectors read: the object, and the nodes of its pods in list order (empty if unscheduled). */
  datatype ObjectReads = ObjectReads(target: Lookup<Object>, pods: Lookup<seq<PodObj>>, rendered: bool, hashed: bool)

  function WithOwner(refs: Refs, ns: string, owner: Option<OwnerRef>): Refs {
    if owner.None? then refs
    else refs[owner.value.kind := [Ref(Key(ns, owner.value.name), owner.value.uid)]]
  }

  predicate NeedsReplicaSet(pod: PodObj) {
    var owner := ManagingOwner(pod.owners);
    owner.Some? && owner.value.kind == ReplicaSet
  }

  /** Namespace, controller, controller of the ReplicaSet, services; a later handler overwrites an earlier one. */
  function PodRefs(key: Key, pod: PodObj, nsUid: ObjUid, rsOwners: seq<OwnerRef>, services: seq<(Key, Object)>): Refs {
    var start: Refs := map[Namespace := [Ref(Key("", key.ns), nsUid)]];
    var owned := WithOwner(start, key.ns, ManagingOwner(pod.owners));
    var all := if NeedsReplicaSet(pod) then WithOwner(owned, key.ns, ManagingOwner(rsOwners)) else owned;
    all[Service := ServiceRefs.References(pod, services)]
  }

  function PodContent(key: Key, pod: PodObj, nsUid: ObjUid, rsOwners: seq<OwnerRef>, services: seq<(Key, Object)>): Content {
    Content(Pod, pod.uid, pod.meta, "", pod.status, Some(PodRefs(key, pod, nsUid, rsOwners, services)))
  }

  function ObjectContent(kind: Kind, obj: Object): Content {
    Content(kind, obj.uid, obj.meta, "", "", None)
  }

  /** The owners a pod reconcile triggers for one Create or Delete event. */
  function OwnerTriggers(refs: Option<Refs>): set<(Kind, Key)> {
    if refs.None? then {}
    else set kind, r | kind in refs.value && HasOwnerSource(kind) && r in refs.value[kind] :: (kind, r.key)
  }

  predicate Triggers(e: Event) { !e.msg.reason.Update? }

  function Assembled(req: Key, pod: PodObj, found: PodReads): Option<Content> {
    if !found.namespace.Found? then None
    else if NeedsReplicaSet(pod) && found.replicaSet.Failed? then None
    else if !found.services.Found? || !found.rendered || !found.hashed then None
    else Some(PodContent(req, pod, found.namespace.value,
                         if found.replicaSet.Found? then found.replicaSet.value else [], found.services.value))
  }

  /** None when the reconcile fails and its key stays queued. */
  function PodDecision(req: Key, registry: Registry, found: PodReads): Option<Engine.Decision> {
    match found.pod
    case Failed => None
    case Missing => Some(Engine.Absent)
    case Found(pod) =>
      if pod.node !in registry then Some(Engine.NoSubscribers(pod.node))
      else
        var content := Assembled(req, pod, found);
        if content.None? then None else Some(Engine.Send(content.value, pod.node, registry[pod.node]))
  }

  /** The nodes of the pods that count for an object, from a pod list. */
  function NodesOf(kind: Kind, pods: seq<PodObj>): set<Node> {
    set i | 0 <= i < |pods| && pods[i].node != "" && (kind.Service? ==> pods[i].ip != "") :: pods[i].node
  }

  function ObjectDecision(kind: Kind, registry: Registry, found: ObjectReads): Option<Engine.Decision> {
    match found.target
    case Failed => None
    case Missing => Some(Engine.Absent)
    case Found(obj) =>
      if kind.Service? && obj.selector == map[] then Some(Engine.Absent)
      else if !found.pods.Found? then None
      else
        var subs := SubscribersOf(registry, NodesOf(kind, found.pods.value));
        if subs == {} then Some(Engine.Absent)
        else if !found.rendered || !found.hashed then None
        else Some(Engine.Send(ObjectContent(kind, obj), "", subs))
  }

  // ----- What was read, and what it leads to -----

  ghost predicate HasReplicaSet(pod: PodObj) {
    exists o :: Controls(o, pod.owners) && o.kind == ReplicaSet
  }

  /** A pod reconcile fails exactly if the pod cannot be read, or if it runs on a node with subscribers and one of the
      other reads, the rendering or the hashing fails; a ReplicaSet may be missing. */
  lemma PodFails(req: Key, registry: Registry, found: PodReads)
    ensures PodDecision(req, registry, found).None? <==>
            || found.pod.Failed?
            || (found.pod.Found? && found.pod.value.node in registry
                && !(found.namespace.Found? && !(HasReplicaSet(found.pod.value) && found.replicaSet.Failed?)
                     && found.services.Found? && found.rendered && found.hashed))
  {
    if found.pod.Found? {
      ManagingOwnerExact(found.pod.value.owners);
    }
  }

  /** What it decides otherwise. */
  lemma PodDecides(req: Key, registry: Registry, found: PodReads, d: Engine.Decision)
    requires PodDecision(req, registry, found) == Some(d)
    ensures d.Absent? <==> found.pod.Missing?
    ensures d.NoSubscribers? <==> found.pod.Found? && found.pod.value.node !in registry
    ensures d.NoSubscribers? ==> d.node == found.pod.value.node
    ensures d.Send? ==> d.node == found.pod.value.node && d.node in registry && d.subs == registry[d.node]
    ensures d.Send? ==> d.content == PodContent(req, found.pod.value, found.namespace.value,
                                                if found.replicaSet.Found? then found.replicaSet.value else [],
                                                found.services.value)
  {
  }

  /** Somebody is registered for the node of a listed pod that counts. */
  ghost predicate SomebodyAt(kind: Kind, registry: Registry, pods: seq<PodObj>) {
    exists i, u :: 0 <= i < |pods| && Counts(kind, pods[i]) && pods[i].node in registry && u in registry[pods[i].node]
  }

  predicate Counts(kind: Kind, pod: PodObj) {
    pod.node != "" && (kind == Service ==> pod.ip != "")
  }

  lemma NodesExact(kind: Kind, pods: seq<PodObj>, node: Node)
    ensures node in NodesOf(kind, pods) <==> exists i | 0 <= i < |pods| :: Counts(kind, pods[i]) && pods[i].node == node
  {
  }

  lemma SomebodyExact(kind: Kind, registry: Registry, pods: seq<PodObj>)
    ensures SubscribersOf(registry, NodesOf(kind, pods)) != {} <==> SomebodyAt(kind, registry, pods)
  {
    if u :| u in SubscribersOf(registry, NodesOf(kind, pods)) {
      var n :| n in NodesOf(kind, pods) && n in registry && u in registry[n];
      NodesExact(kind, pods, n);
      var i :| 0 <= i < |pods| && Counts(kind, pods[i]) && pods[i].node == n;
      assert u in registry[pods[i].node];
    }
    if i, u :| 0 <= i < |pods| && Counts(kind, pods[i]) && pods[i].node in registry && u in registry[pods[i].node] {
      NodesExact(kind, pods, pods[i].node);
      assert u in SubscribersOf(registry, NodesOf(kind, pods));
    }
  }

  /** The other reconciles fail exactly if the object cannot be read, if its pods cannot be listed, or if somebody is to
      get it and the rendering or the hashing fails. A service without selector lists no pods. */
  lemma ObjectFails(kind: Kind, registry: Registry, found: ObjectReads)
    ensures ObjectDecision(kind, registry, found).None? <==>
            || found.target.Failed?
            || (found.target.Found? && !(kind == Service && found.target.value.selector == map[])
                && (!found.pods.Found?
                    || (SomebodyAt(kind, registry, found.pods.value) && !(found.rendered && found.hashed))))
  {
    if found.pods.Found? {
      SomebodyExact(kind, registry, found.pods.value);
    }
  }

  /** What they decide otherwise: the object is taken away if it is missing or nobody is to get it. */
  lemma ObjectDecides(kind: Kind, registry: Registry, found: ObjectReads, d: Engine.Decision)
    requires ObjectDecision(kind, registry, found) == Some(d)
    ensures !d.NoSubscribers? && (d.Send? ==> d.content == ObjectContent(kind, found.target.value))
    ensures d.Absent? <==>
            || found.target.Missing?
            || (kind == Service && found.target.value.selector == map[])
            || !SomebodyAt(kind, registry, found.pods.value)
    ensures d.Send? ==> found.pods.Found? && forall u :: u in d.subs <==>
              exists i | 0 <= i < |found.pods.value| ::
                Counts(kind, found.pods.value[i]) && found.pods.value[i].node in registry
                && u in registry[found.pods.value[i].node]
  {
    if found.pods.Found? {
      SomebodyExact(kind, registry, found.pods.value);
    }
    if d.Send? {
      forall u
        ensures u in d.subs <==>
                exists i | 0 <= i < |found.pods.value| ::
                  Counts(kind, found.pods.value[i]) && found.pods.value[i].node in registry
                  && u in registry[found.pods.value[i].node]
      {
        FoundExact(kind, registry, found.pods.value, u);
      }
    }
  }

  lemma FoundExact(kind: Kind, registry: Registry, pods: seq<PodObj>, u: Uid)
    ensures u in SubscribersOf(registry, NodesOf(kind, pods)) <==>
            exists i | 0 <= i < |pods| :: Counts(kind, pods[i]) && pods[i].node in registry && u in registry[pods[i].node]
  {
    if u in SubscribersOf(registry, NodesOf(kind, pods)) {
      var n :| n in NodesOf(kind, pods) && n in registry && u in registry[n];
      NodesExact(kind, pods, n);
    }
    if i :| 0 <= i < |pods| && Counts(kind, pods[i]) && pods[i].node in registry && u in registry[pods[i].node] {
      NodesExact(kind, pods, pods[i].node);
    }
  }

  /** Which text and which UID land where. */
  lemma ContentsExact(key: Key, pod: PodObj, nsUid: ObjUid, rsOwners: seq<OwnerRef>, services: seq<(Key, Object)>,
                      kind: Kind, obj: Object)
    ensures var c := PodContent(key, pod, nsUid, rsOwners, services);
            c.kind == Pod && c.uid == pod.uid && c.meta == pod.meta && c.spec == "" && c.status == pod.status
            && c.refs == Some(PodRefs(key, pod, nsUid, rsOwners, services))
    ensures var c := ObjectContent(kind, obj);
            c.kind == kind && c.uid == obj.uid && c.meta == obj.meta && c.spec == "" && c.status == "" && c.refs.None?
  {
  }

  lemma ReferencesOf(key: Key, pod: PodObj, nsUid: ObjUid, rsOwners: seq<OwnerRef>, services: seq<(Key, Object)>, kind: Kind)
    requires kind != Service
    ensures var refs, first, top := PodRefs(key, pod, nsUid, rsOwners, services), ManagingOwner(pod.owners), ManagingOwner(rsOwners);
            if NeedsReplicaSet(pod) && top.Some? && top.value.kind == kind then
              kind in refs && refs[kind] == [Ref(Key(key.ns, top.value.name), top.value.uid)]
            else if first.Some? && first.value.kind == kind then
              kind in refs && refs[kind] == [Ref(Key(key.ns, first.value.name), first.value.uid)]
            else (kind in refs <==> kind == Namespace) && (kind == Namespace ==> refs[kind] == [Ref(Key("", key.ns), nsUid)])
  {
  }

  /** The references of a pod, kind by kind: its services; the controller of its ReplicaSet; its own controller; its
      namespace; the first of these that is of the kind. */
  lemma ReferencesExact(key: Key, pod: PodObj, nsUid: ObjUid, rsOwners: seq<OwnerRef>, services: seq<(Key, Object)>, kind: Kind)
    ensures var refs := PodRefs(key, pod, nsUid, rsOwners, services);
            && Service in refs && refs[Service] == ServiceRefs.References(pod, services)
            && (kind != Service ==>
                  if top :| Controls(top, rsOwners) && HasReplicaSet(pod) && top.kind == kind then
                    kind in refs && refs[kind] == [Ref(Key(key.ns, top.name), top.uid)]
                  else if o :| Controls(o, pod.owners) && o.kind == kind then
                    kind in refs && refs[kind] == [Ref(Key(key.ns, o.name), o.uid)]
                  else
                    (kind in refs <==> kind == Namespace)
                    && (kind == Namespace ==> refs[kind] == [Ref(Key("", key.ns), nsUid)]))
  {
    ManagingOwnerExact(pod.owners);
    ManagingOwnerExact(rsOwners);
    if kind != Service {
      ReferencesOf(key, pod, nsUid, rsOwners, services, kind);
    }
  }

  /** The owners to trigger are the references of the five kinds of owner. */
  lemma OwnerTriggersExact(refs: Option<Refs>, kind: Kind, key: Key)
    ensures (kind, key) in OwnerTriggers(refs) <==>
            && kind in {Deployment, ReplicaSet, Namespace, DaemonSet, ReplicationController}
            && refs.Some? && kind in refs.value && exists i | 0 <= i < |refs.value[kind]| :: refs.value[kind][i].key == key
  {
    if refs.Some? && kind in refs.value {
      if i :| 0 <= i < |refs.value[kind]| && refs.value[kind][i].key == key {
        assert refs.value[kind][i] in refs.value[kind];
      }
    }
  }

  // ----- Reconciling twice -----

  function After(h: Hasher, kind: Kind, cache: map<Key, Entry>, req: Key, d: Engine.Decision): map<Key, Entry> {
    Put(cache, req, Engine.Decide(h, kind, ValueAt(cache, req), d).entry)
  }

  function Emitted(h: Hasher, kind: Kind, cache: map<Key, Entry>, req: Key, d: Engine.Decision): seq<Event> {
    Engine.Decide(h, kind, ValueAt(cache, req), d).events
  }

  lemma SecondTime(h: Hasher, kind: Kind, cache: map<Key, Entry>, req: Key, d: Engine.Decision)
    ensures var once := After(h, kind, cache, req, d);
            Emitted(h, kind, once, req, d) == [] && After(h, kind, once, req, d) == once
  {
    var once := After(h, kind, cache, req, d);
    Engine.Idempotent(h, kind, ValueAt(cache, req), d);
    assert ValueAt(once, req) == Engine.Decide(h, kind, ValueAt(cache, req), d).entry;
  }

  /** Nothing changed between two pod reconciles, except the order in which the services were listed. */
  lemma PodIdempotent(h: Hasher, cache: map<Key, Entry>, registry: Registry, req: Key, first: PodReads,
                      services: seq<(Key, Object)>)
    requires first.services.Found? && multiset(first.services.value) == multiset(services)
    requires ServiceRefs.IdentifiedServices(first.services.value)
    requires PodDecision(req, registry, first).Some?
    ensures var d := PodDecision(req, registry, first).value;
            var once := After(h, Pod, cache, req, d);
            && PodDecision(req, registry, first.(services := Found(services))) == Some(d)
            && Emitted(h, Pod, once, req, d) == [] && After(h, Pod, once, req, d) == once
  {
    if first.pod.Found? {
      ServiceRefs.OrderIrrelevant(first.pod.value, first.services.value, services);
    }
    SecondTime(h, Pod, cache, req, PodDecision(req, registry, first).value);
  }

  /** The same for a collector of owners or services, whose pod list may come back in another order. */
  lemma ObjectIdempotent(h: Hasher, kind: Kind, cache: map<Key, Entry>, registry: Registry, req: Key, first: ObjectReads,
                         pods: seq<PodObj>)
    requires first.pods.Found? && multiset(first.pods.value) == multiset(pods)
    requires ObjectDecision(kind, registry, first).Some?
    ensures var d := ObjectDecision(kind, registry, first).value;
            var once := After(h, kind, cache, req, d);
            && ObjectDecision(kind, registry, first.(pods := Found(pods))) == Some(d)
            && Emitted(h, kind, once, req, d) == [] && After(h, kind, once, req, d) == once
  {
    SameNodes(kind, first.pods.value, pods);
    SameNodes(kind, pods, first.pods.value);
    assert NodesOf(kind, first.pods.value) == NodesOf(kind, pods);
    SecondTime(h, kind, cache, req, ObjectDecision(kind, registry, first).value);
  }

  lemma SameNodes(kind: Kind, a: seq<PodObj>, b: seq<PodObj>)
    requires multiset(a) == multiset(b)
    ensures NodesOf(kind, a) <= NodesOf(kind, b)
  {
    forall n | n in NodesOf(kind, a)
      ensures n in NodesOf(kind, b)
    {
      var i :| 0 <= i < |a| && a[i].node != "" && (kind.Service? ==> a[i].ip != "") && a[i].node == n;
      assert a[i] in multiset(b);
      var j :| 0 <= j < |b| && b[j] == a[i];
    }
  }
}
