/** collectors/dispatch.go: what the dispatcher does with one subscriber message. */
module Dispatch {
  import opened Types
  import opened Relations
  import ServiceRefs
  import Subscriber

  /** The keys one pod is worth to a collector, in the order they are sent. A read that fails is worth none. */
  function Batch(kind: Kind, cl: Cluster, lists: map<string, seq<(Key, Object)>>, podKey: Key, pod: PodObj): seq<Key> {
    var owner := ManagingOwner(pod.owners);
    match kind
    case Pod => [podKey]
    case Namespace => [Key("", podKey.ns)]
    case Service => if podKey.ns in lists then SelectingKeys(pod, podKey.ns, lists[podKey.ns]) else []
    case Deployment =>
      if owner.None? || owner.value.kind != ReplicaSet || (ReplicaSet, Key(podKey.ns, owner.value.name)) !in cl.objects then []
      else
        var top := ManagingOwner(cl.objects[(ReplicaSet, Key(podKey.ns, owner.value.name))].owners);
        if top.Some? && top.value.kind == Deployment then [Key(podKey.ns, top.value.name)] else []
    case Other(_) => []
    case _ => if owner.Some? && owner.value.kind == kind then [Key(podKey.ns, owner.value.name)] else []
  }

  function SelectingKeys(pod: PodObj, ns: string, services: seq<(Key, Object)>): seq<Key> {
    if services == [] then []
    else
      var n := |services| - 1;
      SelectingKeys(pod, ns, services[..n])
      + (if Selects(services[n].1, pod) then [Key(ns, services[n].0.name)] else [])
  }

  function Batches(kind: Kind, cl: Cluster, lists: map<string, seq<(Key, Object)>>, pods: seq<(Key, PodObj)>): seq<Key> {
    if pods == [] then []
    else
      var n := |pods| - 1;
      Batches(kind, cl, lists, pods[..n]) + Batch(kind, cl, lists, pods[n].0, pods[n].1)
  }

  lemma {:induction false} SelectingKeysMember(pod: PodObj, ns: string, services: seq<(Key, Object)>, key: Key)
    ensures key in SelectingKeys(pod, ns, services) <==>
            exists s | s in services :: Selects(s.1, pod) && key == Key(ns, s.0.name)
  {
    if services != [] {
      var n := |services| - 1;
      SelectingKeysMember(pod, ns, services[..n], key);
      if s :| s in services && Selects(s.1, pod) && key == Key(ns, s.0.name) {
        assert s in services[..n] || s == services[n];
      }
      if s :| s in services[..n] && Selects(s.1, pod) && key == Key(ns, s.0.name) {
        assert s in services;
      }
      assert services[n] in services;
    }
  }

  /** With lists that are those of the cluster, a batch enumerates exactly the keys of the relation, or nothing if the
      ReplicaSet cannot be read. */
  lemma BatchExact(kind: Kind, cl: Cluster, lists: map<string, seq<(Key, Object)>>, podKey: Key, pod: PodObj)
    requires kind.Service? ==> podKey.ns in lists && ServiceRefs.ListsNamespace(lists[podKey.ns], cl, podKey.ns)
    ensures DispatchKeys(kind, cl, podKey, pod).Some? ==>
              forall key :: key in Batch(kind, cl, lists, podKey, pod) <==> key in DispatchKeys(kind, cl, podKey, pod).value
    ensures DispatchKeys(kind, cl, podKey, pod).None? ==> Batch(kind, cl, lists, podKey, pod) == []
  {
    if kind.Service? {
      var list := lists[podKey.ns];
      forall key
        ensures key in Batch(kind, cl, lists, podKey, pod) <==> key in DispatchKeys(kind, cl, podKey, pod).value
      {
        SelectingKeysMember(pod, podKey.ns, list, key);
        if key in DispatchKeys(kind, cl, podKey, pod).value {
          assert (key, cl.objects[(Service, key)]) in list;
        }
        if s :| s in list && Selects(s.1, pod) && key == Key(podKey.ns, s.0.name) {
          assert (s.0, s.1) in list;
        }
      }
    }
  }

  /** The batches of all the listed pods, and nothing else. */
  lemma {:induction false} BatchesExact(kind: Kind, cl: Cluster, lists: map<string, seq<(Key, Object)>>,
                                        pods: seq<(Key, PodObj)>, key: Key)
    ensures key in Batches(kind, cl, lists, pods) <==>
            exists i | 0 <= i < |pods| :: key in Batch(kind, cl, lists, pods[i].0, pods[i].1)
  {
    if pods != [] {
      var n := |pods| - 1;
      BatchesExact(kind, cl, lists, pods[..n], key);
      if i :| 0 <= i < n && key in Batch(kind, cl, lists, pods[..n][i].0, pods[..n][i].1) {
        assert pods[..n][i] == pods[i];
      }
      if i :| 0 <= i < |pods| && key in Batch(kind, cl, lists, pods[i].0, pods[i].1) {
        if i < n {
          assert pods[..n][i] == pods[i];
        }
      }
    }
  }

  /** All keys were sent, or as many as the controller accepts before it is stopped. */
  ghost predicate Delivered(sent: seq<Key>, accepts: nat, all: seq<Key>, ok: bool, sent': seq<Key>, accepts': nat) {
    && (ok <==> |all| <= accepts)
    && sent' == sent + (if ok then all else all[..accepts])
    && accepts' == if ok then accepts - |all| else 0
  }

  /** What comes after keys that were all sent. */
  lemma DeliveredNext(sent: seq<Key>, accepts: nat, some: seq<Key>, sent1: seq<Key>, accepts1: nat,
                      more: seq<Key>, ok: bool, sent2: seq<Key>, accepts2: nat)
    requires Delivered(sent, accepts, some, true, sent1, accepts1) && Delivered(sent1, accepts1, more, ok, sent2, accepts2)
    ensures Delivered(sent, accepts, some + more, ok, sent2, accepts2)
  {
    if ok {
      assert sent + some + more == sent + (some + more);
    } else {
      assert (some + more)[..accepts] == some + more[..accepts1];
      assert sent + some + more[..accepts1] == sent + (some + more[..accepts1]);
    }
  }

  /** A controller that stopped stays stopped. */
  lemma DeliveredCut(sent: seq<Key>, accepts: nat, some: seq<Key>, all: seq<Key>, sent': seq<Key>, accepts': nat)
    requires some <= all && Delivered(sent, accepts, some, false, sent', accepts')
    ensures Delivered(sent, accepts, all, false, sent', accepts')
  {
    assert all[..accepts] == some[..accepts];
  }

  class Dispatcher {
    const kind: Kind
    const subscribers: Subscriber.Subscribers
    var sent: seq<Key>        // the requests the controller has accepted
    var accepts: nat          // how many more it will accept before it is stopped

    constructor (kind: Kind, subscribers: Subscriber.Subscribers, accepts: nat)
      ensures this.kind == kind && this.subscribers == subscribers && sent == [] && this.accepts == accepts
    {
      this.kind, this.subscribers, this.accepts := kind, subscribers, accepts;
      sent := [];
    }

    /** Sends a request, unless the controller no longer reads. */
    method Send(key: Key) returns (ok: bool)
      modifies this`sent, this`accepts
      ensures Delivered(old(sent), old(accepts), [key], ok, sent, accepts)
    {
      ok := accepts > 0;
      if ok {
        sent := sent + [key];
        accepts := accepts - 1;
      }
    }

    /** Sends the keys of one pod; false when the controller stopped reading on the way. */
    method SendBatch(cl: Cluster, lists: map<string, seq<(Key, Object)>>, podKey: Key, pod: PodObj) returns (ok: bool)
      modifies this`sent, this`accepts
      ensures Delivered(old(sent), old(accepts), Batch(kind, cl, lists, podKey, pod), ok, sent, accepts)
    {
      ok := true;
      var owner := ManagingOwner(pod.owners);
      match kind {
        case Pod =>
          ok := Send(podKey);
        case Namespace =>
          ok := Send(Key("", podKey.ns));
        case Service =>
          if podKey.ns in lists {
            ok := SendSelecting(pod, podKey.ns, lists[podKey.ns]);
          }
        case Deployment =>
          if owner.Some? && owner.value.kind == ReplicaSet {
            var rs := (ReplicaSet, Key(podKey.ns, owner.value.name));
            if rs in cl.objects {
              owner := ManagingOwner(cl.objects[rs].owners);
              if owner.Some? && owner.value.kind == Deployment {
                ok := Send(Key(podKey.ns, owner.value.name));
              }
            }
          }
        case Other(_) =>
        case _ =>
          if owner.Some? && owner.value.kind == kind {
            ok := Send(Key(podKey.ns, owner.value.name));
          }
      }
    }

    method SendSelecting(pod: PodObj, ns: string, services: seq<(Key, Object)>) returns (ok: bool)
      modifies this`sent, this`accepts
      ensures Delivered(old(sent), old(accepts), SelectingKeys(pod, ns, services), ok, sent, accepts)
    {
      ok := true;
      for i := 0 to |services|
        invariant Delivered(old(sent), old(accepts), SelectingKeys(pod, ns, services[..i]), true, sent, accepts)
      {
        ghost var some, sent1, accepts1 := SelectingKeys(pod, ns, services[..i]), sent, accepts;
        SelectingNext(pod, ns, services, i);
        if Selects(services[i].1, pod) {
          var key := Key(ns, services[i].0.name);
          ok := Send(key);
          DeliveredNext(old(sent), old(accepts), some, sent1, accepts1, [key], ok, sent, accepts);
          if !ok {
            SelectingPrefix(pod, ns, services, i + 1);
            DeliveredCut(old(sent), old(accepts), some + [key], SelectingKeys(pod, ns, services), sent, accepts);
            return;
          }
        }
      }
      assert services[..|services|] == services;
      ok := true;
    }

    /** Sends the keys of all the listed pods; false when the controller stopped reading on the way. */
    method SendAll(cl: Cluster, lists: map<string, seq<(Key, Object)>>, pods: seq<(Key, PodObj)>) returns (ok: bool)
      modifies this`sent, this`accepts
      ensures Delivered(old(sent), old(accepts), Batches(kind, cl, lists, pods), ok, sent, accepts)
    {
      ok := true;
      for i := 0 to |pods|
        invariant Delivered(old(sent), old(accepts), Batches(kind, cl, lists, pods[..i]), true, sent, accepts)
      {
        ghost var some, sent1, accepts1 := Batches(kind, cl, lists, pods[..i]), sent, accepts;
        ghost var more := Batch(kind, cl, lists, pods[i].0, pods[i].1);
        BatchesNext(kind, cl, lists, pods, i);
        ok := SendBatch(cl, lists, pods[i].0, pods[i].1);
        DeliveredNext(old(sent), old(accepts), some, sent1, accepts1, more, ok, sent, accepts);
        if !ok {
          BatchesPrefix(kind, cl, lists, pods, i + 1);
          DeliveredCut(old(sent), old(accepts), some + more, Batches(kind, cl, lists, pods), sent, accepts);
          return;
        }
      }
      assert pods[..|pods|] == pods;
      ok := true;
    }

    /** One message: the registry is written first, then the node's pods are listed, then every key is enqueued. */
    method Handle(sub: bool, uid: Uid, node: Node, listed: Lookup<seq<(Key, PodObj)>>, cl: Cluster,
                  lists: map<string, seq<(Key, Object)>>) returns (stopped: bool)
      requires subscribers.Valid()
      modifies this`sent, this`accepts, subscribers
      ensures subscribers.Valid()
      ensures subscribers.items == if sub then Subscriber.Added(old(subscribers.items), node, uid)
                                   else Subscriber.Removed(old(subscribers.items), node, uid)
      ensures !listed.Found? ==> sent == old(sent) && accepts == old(accepts) && !stopped
      ensures listed.Found? ==>
                Delivered(old(sent), old(accepts), Batches(kind, cl, lists, listed.value), !stopped, sent, accepts)
    {
      if sub {
        subscribers.AddSubscriberPerNode(node, uid);
      } else {
        subscribers.DeleteSubscriberPerNode(node, uid);
      }
      if !listed.Found? {
        return false;
      }
      var ok := SendAll(cl, lists, listed.value);
      return !ok;
    }
  }

  lemma SelectingNext(pod: PodObj, ns: string, services: seq<(Key, Object)>, i: nat)
    requires i < |services|
    ensures SelectingKeys(pod, ns, services[..i + 1]) ==
            SelectingKeys(pod, ns, services[..i])
            + (if Selects(services[i].1, pod) then [Key(ns, services[i].0.name)] else [])
  {
    assert services[..i + 1][..i] == services[..i];
  }

  lemma BatchesNext(kind: Kind, cl: Cluster, lists: map<string, seq<(Key, Object)>>, pods: seq<(Key, PodObj)>, i: nat)
    requires i < |pods|
    ensures Batches(kind, cl, lists, pods[..i + 1]) ==
            Batches(kind, cl, lists, pods[..i]) + Batch(kind, cl, lists, pods[i].0, pods[i].1)
  {
    assert pods[..i + 1][..i] == pods[..i];
  }

  lemma {:induction false} SelectingPrefix(pod: PodObj, ns: string, services: seq<(Key, Object)>, i: nat)
    requires i <= |services|
    ensures SelectingKeys(pod, ns, services[..i]) <= SelectingKeys(pod, ns, services)
    decreases |services|
  {
    if i < |services| {
      SelectingPrefix(pod, ns, services[..|services| - 1], i);
      assert services[..|services| - 1][..i] == services[..i];
    } else {
      assert services[..i] == services;
    }
  }

  lemma {:induction false} BatchesPrefix(kind: Kind, cl: Cluster, lists: map<string, seq<(Key, Object)>>,
                                         pods: seq<(Key, PodObj)>, i: nat)
    requires i <= |pods|
    ensures Batches(kind, cl, lists, pods[..i]) <= Batches(kind, cl, lists, pods)
    decreases |pods|
  {
    if i < |pods| {
      BatchesPrefix(kind, cl, lists, pods[..|pods| - 1], i);
      assert pods[..|pods| - 1][..i] == pods[..i];
    } else {
      assert pods[..i] == pods;
    }
  }
}
