/**
 What a subscriber is promised at subscribe time: in a cluster that stands still, handling its message and reconciling
 every key that was enqueued makes it a holder of everything related to its node.
 */
module Onboarding {
  import opened Types
  import opened Relations
  import opened Attempts
  import CollectorSteps
  import Dispatch
  import Engine
  import ServiceRefs
  import Subscriber

  /** The keys are reconciled one after the other, in any order and any number of times. */
  function ReconcileAll(h: Hasher, kind: Kind, cache: map<Key, Entry>, keys: seq<Key>, d: map<Key, Engine.Decision>)
    : map<Key, Entry>
    requires forall k | k in keys :: k in d
  {
    if keys == [] then cache
    else
      var n := |keys| - 1;
      After(h, kind, ReconcileAll(h, kind, cache, keys[..n], d), keys[n], d[keys[n]])
  }

  /** The last reconcile of a key decides whether it is cached, and for whom. */
  lemma {:induction false} Reconciled(h: Hasher, kind: Kind, cache: map<Key, Entry>, keys: seq<Key>,
                                      d: map<Key, Engine.Decision>, key: Key)
    requires forall k | k in keys :: k in d
    requires key in keys
    ensures var done := ReconcileAll(h, kind, cache, keys, d);
            if d[key].Send? then key in done && done[key].subs == d[key].subs else key !in done
  {
    var n := |keys| - 1;
    var before := ReconcileAll(h, kind, cache, keys[..n], d);
    AfterExact(h, kind, before, keys[n], d[keys[n]]);
    if keys[n] != key {
      assert key in keys[..n];
      Reconciled(h, kind, cache, keys[..n], d, key);
      assert ValueAt(before, key) == ValueAt(ReconcileAll(h, kind, cache, keys, d), key);
    }
  }

  lemma AfterExact(h: Hasher, kind: Kind, cache: map<Key, Entry>, req: Key, d: Engine.Decision)
    ensures var done := After(h, kind, cache, req, d);
            && (forall k | k != req :: ValueAt(done, k) == ValueAt(cache, k))
            && (if d.Send? then req in done && done[req].subs == d.subs else req !in done)
  {
  }

  /** The list the API returns for an object. */
  ghost predicate ListsQueried(kind: Kind, key: Key, obj: Object, cl: Cluster, list: seq<PodObj>) {
    && (forall p | p in list :: exists k | k in cl.pods :: cl.pods[k] == p && Queried(kind, key, obj, k, p))
    && (forall k | k in cl.pods && Queried(kind, key, obj, k, cl.pods[k]) :: cl.pods[k] in list)
  }

  /** Reads of a cluster that stands still, none of which fails. */
  ghost predicate FaithfulPod(cl: Cluster, key: Key, f: PodReads) {
    if key in cl.pods then
      f.pod == Found(cl.pods[key]) && f.namespace.Found? && !f.replicaSet.Failed? && f.services.Found?
      && f.rendered && f.hashed
    else f.pod.Missing?
  }

  ghost predicate FaithfulObject(kind: Kind, cl: Cluster, key: Key, f: ObjectReads) {
    if (kind, key) in cl.objects then
      f.target == Found(cl.objects[(kind, key)]) && f.pods.Found? && f.rendered && f.hashed
      && ListsQueried(kind, key, cl.objects[(kind, key)], cl, f.pods.value)
    else f.target.Missing?
  }

  ghost predicate Faithful(kind: Kind, cl: Cluster, r: Registry, key: Key, d: Engine.Decision) {
    if kind.Pod? then exists f :: FaithfulPod(cl, key, f) && PodDecision(key, r, f) == Some(d)
    else exists f :: FaithfulObject(kind, cl, key, f) && ObjectDecision(kind, r, f) == Some(d)
  }

  lemma ListedNodes(kind: Kind, key: Key, obj: Object, cl: Cluster, list: seq<PodObj>)
    requires ListsQueried(kind, key, obj, cl, list)
    ensures NodesOf(kind, list) == RelatedNodes(kind, key, obj, cl.pods)
  {
    forall n | n in NodesOf(kind, list)
      ensures n in RelatedNodes(kind, key, obj, cl.pods)
    {
      var i :| 0 <= i < |list| && list[i].node != "" && (kind.Service? ==> list[i].ip != "") && list[i].node == n;
      assert list[i] in list;
    }
    forall n | n in RelatedNodes(kind, key, obj, cl.pods)
      ensures n in NodesOf(kind, list)
    {
      var k :| k in cl.pods && Related(kind, key, obj, k, cl.pods[k]) && cl.pods[k].node != "" && cl.pods[k].node == n;
      assert cl.pods[k] in list;
      var i :| 0 <= i < |list| && list[i] == cl.pods[k];
    }
  }

  ghost predicate DueThrough(pods: map<Key, PodObj>, r: Registry, related: Key -> bool, k: Key, u: Uid)
    requires k in pods
  {
    related(k) && pods[k].node != "" && u in Subscriber.At(r, pods[k].node)
  }

  /** Somebody is to hold an object: a related pod runs on a node they are registered for. */
  ghost predicate Due(kind: Kind, cl: Cluster, r: Registry, key: Key, u: Uid) {
    && (kind, key) in cl.objects
    && exists k | k in cl.pods :: DueThrough(cl.pods, r, RelatedIn(kind, cl, key), k, u)
  }

  /** Which keys of pods count for an object. */
  function RelatedIn(kind: Kind, cl: Cluster, key: Key): Key -> bool
    requires (kind, key) in cl.objects
  {
    k => k in cl.pods && Related(kind, key, cl.objects[(kind, key)], k, cl.pods[k])
  }

  /** The subscribers of a set of nodes are those of the pods that make it up. */
  lemma SubscribersThroughPods(pods: map<Key, PodObj>, r: Registry, related: Key -> bool, nodes: set<Node>, u: Uid)
    requires nodes == set k | k in pods && related(k) && pods[k].node != "" :: pods[k].node
    ensures u in SubscribersOf(r, nodes) <==> exists k | k in pods :: DueThrough(pods, r, related, k, u)
  {
    if u in SubscribersOf(r, nodes) {
      var n :| n in nodes && n in r && u in r[n];
      var k :| k in pods && related(k) && pods[k].node == n;
      assert DueThrough(pods, r, related, k, u);
    }
    if k :| k in pods && DueThrough(pods, r, related, k, u) {
      assert pods[k].node in nodes;
    }
  }

  /** A reconcile sends an object to exactly those it is due to. */
  lemma ReconcileFinds(kind: Kind, cl: Cluster, r: Registry, key: Key, d: Engine.Decision, u: Uid)
    requires Collected(kind) && !kind.Pod? && Faithful(kind, cl, r, key, d)
    ensures d.Send? && u in d.subs <==> Due(kind, cl, r, key, u)
  {
    var f :| FaithfulObject(kind, cl, key, f) && ObjectDecision(kind, r, f) == Some(d);
    if (kind, key) in cl.objects {
      ListedNodes(kind, key, cl.objects[(kind, key)], cl, f.pods.value);
      SubscribersThroughPods(cl.pods, r, RelatedIn(kind, cl, key), NodesOf(kind, f.pods.value), u);
      if kind.Service? && cl.objects[(kind, key)].selector == map[] {
        assert !Due(kind, cl, r, key, u);
      }
    }
  }

  /** Subscribe-time completeness, exactly. Of what was reconciled, the subscriber holds the pods of its node, and the
      other objects for which a pod on its node counts. */
  lemma SubscribeExact(h: Hasher, kind: Kind, cl: Cluster, registry: Registry, cache: map<Key, Entry>, u: Uid, node: Node,
                       keys: seq<Key>, d: map<Key, Engine.Decision>, key: Key)
    requires Collected(kind) && forall n | n in registry :: u !in registry[n]
    requires var r := Subscriber.Added(registry, node, u);
             forall k | k in keys :: k in d && Faithful(kind, cl, r, k, d[k])
    requires key in keys
    ensures var done := ReconcileAll(h, kind, cache, keys, d);
            var r := Subscriber.Added(registry, node, u);
            key in done && u in done[key].subs <==>
            if kind.Pod? then key in cl.pods && cl.pods[key].node == node else Due(kind, cl, r, key, u)
  {
    var r := Subscriber.Added(registry, node, u);
    assert Faithful(kind, cl, r, key, d[key]);
    Reconciled(h, kind, cache, keys, d, key);
    if kind.Pod? {
      var f :| FaithfulPod(cl, key, f) && PodDecision(key, r, f) == Some(d[key]);
    } else {
      ReconcileFinds(kind, cl, r, key, d[key], u);
    }
  }

  /** Whatever was registered before, the subscriber holds each key that its dispatch reached through a pod on its
      node and that counts this pod. */
  lemma SubscribeComplete(h: Hasher, kind: Kind, cl: Cluster, registry: Registry, cache: map<Key, Entry>, u: Uid, node: Node,
                          keys: seq<Key>, d: map<Key, Engine.Decision>, podKey: Key, key: Key)
    requires Collected(kind) && node != ""
    requires var r := Subscriber.Added(registry, node, u);
             forall k | k in keys :: k in d && Faithful(kind, cl, r, k, d[k])
    requires podKey in cl.pods && cl.pods[podKey].node == node
    requires DispatchKeys(kind, cl, podKey, cl.pods[podKey]).Some? && key in DispatchKeys(kind, cl, podKey, cl.pods[podKey]).value
    requires key in keys
    requires !kind.Pod? ==> (kind, key) in cl.objects
    requires Workload(kind) ==> GeneratedFor(kind, key.name, cl.pods[podKey])
    requires kind.Service? ==> cl.pods[podKey].ip != ""
    ensures var done := ReconcileAll(h, kind, cache, keys, d); key in done && u in done[key].subs
  {
    var r := Subscriber.Added(registry, node, u);
    assert Faithful(kind, cl, r, key, d[key]);
    Reconciled(h, kind, cache, keys, d, key);
    if kind.Pod? {
      var f :| FaithfulPod(cl, key, f) && PodDecision(key, r, f) == Some(d[key]);
    } else {
      DispatchedIsRelatedExact(kind, cl, podKey, cl.pods[podKey], key);
      assert DueThrough(cl.pods, r, RelatedIn(kind, cl, key), podKey, u);
      ReconcileFinds(kind, cl, r, key, d[key], u);
    }
  }

  lemma NamespaceDue(cl: Cluster, r: Registry, key: Key, u: Uid)
    requires (Namespace, key) in cl.objects
    ensures Due(Namespace, cl, r, key, u) <==>
            exists k | k in cl.pods :: k.ns == key.name && cl.pods[k].node != "" && u in Subscriber.At(r, cl.pods[k].node)
  {
    forall k | k in cl.pods
      ensures DueThrough(cl.pods, r, RelatedIn(Namespace, cl, key), k, u) <==>
              k.ns == key.name && cl.pods[k].node != "" && u in Subscriber.At(r, cl.pods[k].node)
    {
      RelatedExact(key, cl.objects[(Namespace, key)], k, cl.pods[k]);
    }
  }

  /** For namespaces that means: the subscriber holds the namespace exactly if some pod in it runs on its node. */
  lemma NamespaceHeldExact(h: Hasher, cl: Cluster, registry: Registry, cache: map<Key, Entry>, u: Uid, node: Node,
                           keys: seq<Key>, d: map<Key, Engine.Decision>, key: Key)
    requires node != "" && forall n | n in registry :: u !in registry[n]
    requires var r := Subscriber.Added(registry, node, u);
             forall k | k in keys :: k in d && Faithful(Namespace, cl, r, k, d[k])
    requires key in keys && (Namespace, key) in cl.objects
    ensures var done := ReconcileAll(h, Namespace, cache, keys, d);
            key in done && u in done[key].subs <==> exists k | k in cl.pods :: k.ns == key.name && cl.pods[k].node == node
  {
    var r := Subscriber.Added(registry, node, u);
    SubscribeExact(h, Namespace, cl, registry, cache, u, node, keys, d, key);
    NamespaceDue(cl, r, key, u);
    assert forall n :: u in Subscriber.At(r, n) <==> n == node;
  }

  /** The whole way: one message is handled with faithful lists, everything it sends is reconciled, possibly among
      other keys, and the subscriber holds the pods of its node, their namespaces, the workloads that generated them
      under their own name, and the services that select one with an IP. */
  lemma DispatchServes(h: Hasher, kind: Kind, cl: Cluster, registry: Registry, cache: map<Key, Entry>, u: Uid, node: Node,
                       listed: seq<(Key, PodObj)>, lists: map<string, seq<(Key, Object)>>,
                       keys: seq<Key>, d: map<Key, Engine.Decision>, podKey: Key, key: Key)
    requires Collected(kind) && node != ""
    requires CollectorSteps.ListsNode(listed, cl.pods, node)
    requires forall k | k in cl.pods :: k.ns in lists && ServiceRefs.ListsNamespace(lists[k.ns], cl, k.ns)
    requires forall k | k in Dispatch.Batches(kind, cl, lists, listed) :: k in keys
    requires var r := Subscriber.Added(registry, node, u);
             forall k | k in keys :: k in d && Faithful(kind, cl, r, k, d[k])
    requires podKey in cl.pods && cl.pods[podKey].node == node
    requires DispatchKeys(kind, cl, podKey, cl.pods[podKey]).Some? && key in DispatchKeys(kind, cl, podKey, cl.pods[podKey]).value
    requires !kind.Pod? ==> (kind, key) in cl.objects
    requires Workload(kind) ==> GeneratedFor(kind, key.name, cl.pods[podKey])
    requires kind.Service? ==> cl.pods[podKey].ip != ""
    ensures var done := ReconcileAll(h, kind, cache, keys, d); key in done && u in done[key].subs
  {
    var pod := cl.pods[podKey];
    assert (podKey, pod) in listed;
    var i :| 0 <= i < |listed| && listed[i] == (podKey, pod);
    Dispatch.BatchExact(kind, cl, lists, podKey, pod);
    Dispatch.BatchesExact(kind, cl, lists, listed, key);
    SubscribeComplete(h, kind, cl, registry, cache, u, node, keys, d, podKey, key);
  }
}
