/**
 Which objects a node is related to. Four places of the program encode that relation: the pods listed for an object
 (getSubscribers), the objects enqueued for a subscriber (dispatch), the references a pod event carries
 (ownerRefsHandler, serviceRefsHandler) and the index by generateName.
 */
module Relations {
  import opened Types

  datatype OwnerRef = OwnerRef(kind: Kind, name: string, uid: ObjUid, controller: Option<bool>)

  datatype PodObj = PodObj(uid: ObjUid, node: Node, ip: string, labels: map<string, string>, owners: seq<OwnerRef>,
                           generateName: string, meta: string, status: string)

  /** Every other object; only services have a selector. */
  datatype Object = Object(uid: ObjUid, meta: string, owners: seq<OwnerRef>, selector: map<string, string>)

  datatype Cluster = Cluster(pods: map<Key, PodObj>, objects: map<(Kind, Key), Object>)

  // ----- Owners -----

  /** The first owner that is the controller. */
  function ManagingOwner(owners: seq<OwnerRef>): Option<OwnerRef> {
    if owners == [] then None
    else if owners[0].controller == Some(true) then Some(owners[0])
    else ManagingOwner(owners[1..])
  }

  // ----- Index by generateName -----

  function TrimSuffix(s: string, suffix: string): string {
    if |suffix| <= |s| && s[|s| - |suffix|..] == suffix then s[..|s| - |suffix|] else s
  }

  const TEMPLATE_HASH := "pod-template-hash"

  function PodByNode(pod: PodObj): seq<string> {
    if pod.node != "" then [pod.node] else []
  }

  function PodByPrefixName(pod: PodObj): seq<string> {
    if pod.generateName == "" then []
    else if TEMPLATE_HASH in pod.labels then
      [TrimSuffix(pod.generateName, "-" + pod.labels[TEMPLATE_HASH] + "-"), pod.generateName]
    else [pod.generateName]
  }

  /** The index value under which a collector looks up the pods of its object. */
  function PrefixKey(kind: Kind, name: string): string {
    if kind.Deployment? then name else name + "-"
  }

  // ----- From an object to its pods -----

  predicate Matches(selector: map<string, string>, labels: map<string, string>) {
    forall k | k in selector :: k in labels && labels[k] == selector[k]
  }

  predicate Selects(svc: Object, pod: PodObj) {
    svc.selector != map[] && Matches(svc.selector, pod.labels)
  }

  /** The pods the API lists for an object: by namespace, by selector or by the index. */
  predicate Queried(kind: Kind, key: Key, obj: Object, podKey: Key, pod: PodObj) {
    match kind
    case Namespace => podKey.ns == key.name
    case Service => podKey.ns == key.ns && Selects(obj, pod)
    case _ => podKey.ns == key.ns && PrefixKey(kind, key.name) in PodByPrefixName(pod)
  }

  /** The pods that count for an object, whatever their node: a service asks for an IP as well. */
  predicate Related(kind: Kind, key: Key, obj: Object, podKey: Key, pod: PodObj) {
    Queried(kind, key, obj, podKey, pod) && (kind.Service? ==> pod.ip != "")
  }

  function RelatedNodes(kind: Kind, key: Key, obj: Object, pods: map<Key, PodObj>): set<Node> {
    set k | k in pods && Related(kind, key, obj, k, pods[k]) && pods[k].node != "" :: pods[k].node
  }

  /** The subscribers of an object: those registered for a node where a related pod runs. */
  function SubscribersOf(r: Registry, nodes: set<Node>): set<Uid> {
    set n, u | n in nodes && n in r && u in r[n] :: u
  }

  // ----- From a subscriber to its objects -----

  /** The keys dispatch enqueues in one collector because of one pod; None when the ReplicaSet cannot be read. */
  function DispatchKeys(kind: Kind, cl: Cluster, podKey: Key, pod: PodObj): Option<set<Key>> {
    var owner := ManagingOwner(pod.owners);
    match kind
    case Pod => Some({podKey})
    case Namespace => Some({Key("", podKey.ns)})
    case Service =>
      Some(set k | k in cl.objects && k.0 == Service && k.1.ns == podKey.ns && Selects(cl.objects[k], pod) :: k.1)
    case Deployment =>
      if owner.None? || owner.value.kind != ReplicaSet then Some({})
      else
        var rs := (ReplicaSet, Key(podKey.ns, owner.value.name));
        if rs !in cl.objects then None
        else
          var top := ManagingOwner(cl.objects[rs].owners);
          if top.Some? && top.value.kind == Deployment then Some({Key(podKey.ns, top.value.name)}) else Some({})
    case Other(_) => Some({})
    case _ =>
      if owner.Some? && owner.value.kind == kind then Some({Key(podKey.ns, owner.value.name)}) else Some({})
  }

  /** How the workload controllers name the pods they generate. */
  ghost predicate NamedByController(cl: Cluster, podKey: Key, pod: PodObj) {
    var owner := ManagingOwner(pod.owners);
    owner.Some? ==>
      && (owner.value.kind in {ReplicaSet, DaemonSet, ReplicationController} ==>
            pod.generateName == owner.value.name + "-")
      && (owner.value.kind == ReplicaSet ==>
            var rs := (ReplicaSet, Key(podKey.ns, owner.value.name));
            rs in cl.objects ==>
              var top := ManagingOwner(cl.objects[rs].owners);
              top.Some? && top.value.kind == Deployment ==>
                TEMPLATE_HASH in pod.labels && owner.value.name == top.value.name + "-" + pod.labels[TEMPLATE_HASH])
  }

  lemma TrimmedSuffix(prefix: string, suffix: string)
    ensures TrimSuffix(prefix + suffix, suffix) == prefix
  {
    assert (prefix + suffix)[|prefix|..] == suffix;
    assert (prefix + suffix)[..|prefix|] == prefix;
  }

  lemma TrimmedTo(s: string, prefix: string, suffix: string)
    ensures TrimSuffix(s, suffix) == prefix <==>
            s == prefix + suffix || (s == prefix && !(|suffix| <= |s| && s[|s| - |suffix|..] == suffix))
  {
    TrimmedSuffix(prefix, suffix);
    if |suffix| <= |s| && s[|s| - |suffix|..] == suffix {
      assert s == s[..|s| - |suffix|] + suffix;
    }
  }

  predicate Workload(kind: Kind) {
    kind in {ReplicaSet, Deployment, DaemonSet, ReplicationController}
  }

  /** The name the pod was generated under, followed by the hash in its label or not, is the one looked up. */
  predicate GeneratedFor(kind: Kind, name: string, pod: PodObj) {
    var looked := if kind.Deployment? then name else name + "-";
    && pod.generateName != ""
    && (pod.generateName == looked
        || (TEMPLATE_HASH in pod.labels && pod.generateName == looked + ("-" + pod.labels[TEMPLATE_HASH] + "-")))
  }

  /** Exactly which pods count for a workload, whoever owns them. */
  lemma LookupExact(kind: Kind, key: Key, obj: Object, podKey: Key, pod: PodObj)
    requires Workload(kind)
    ensures Related(kind, key, obj, podKey, pod) <==> podKey.ns == key.ns && GeneratedFor(kind, key.name, pod)
  {
    if TEMPLATE_HASH in pod.labels {
      TrimmedTo(pod.generateName, PrefixKey(kind, key.name), "-" + pod.labels[TEMPLATE_HASH] + "-");
    }
  }

  /** Exactly when what dispatch reaches from a pod finds that pod again. */
  lemma DispatchedIsRelatedExact(kind: Kind, cl: Cluster, podKey: Key, pod: PodObj, key: Key)
    requires Collected(kind) && !kind.Pod? && (kind, key) in cl.objects
    requires DispatchKeys(kind, cl, podKey, pod).Some? && key in DispatchKeys(kind, cl, podKey, pod).value
    ensures Related(kind, key, cl.objects[(kind, key)], podKey, pod) <==>
            (Workload(kind) ==> GeneratedFor(kind, key.name, pod)) && (kind.Service? ==> pod.ip != "")
  {
    if Workload(kind) {
      LookupExact(kind, key, cl.objects[(kind, key)], podKey, pod);
    }
  }

  lemma GeneratedByController(kind: Kind, cl: Cluster, podKey: Key, pod: PodObj, key: Key)
    requires Workload(kind) && NamedByController(cl, podKey, pod)
    requires DispatchKeys(kind, cl, podKey, pod).Some? && key in DispatchKeys(kind, cl, podKey, pod).value
    ensures GeneratedFor(kind, key.name, pod)
  {
    if kind.Deployment? {
      assert pod.generateName == key.name + ("-" + pod.labels[TEMPLATE_HASH] + "-");
    }
  }

  /** A pod reached along its owner chain is found again, by all the owner collectors; only the workloads' rely on how
      their controllers name pods. */
  lemma DispatchedIsRelated(kind: Kind, cl: Cluster, podKey: Key, pod: PodObj, key: Key)
    requires Collected(kind) && !kind.Pod? && (kind, key) in cl.objects
    requires Workload(kind) ==> NamedByController(cl, podKey, pod)
    requires DispatchKeys(kind, cl, podKey, pod).Some? && key in DispatchKeys(kind, cl, podKey, pod).value
    requires kind.Service? ==> pod.ip != ""
    ensures Related(kind, key, cl.objects[(kind, key)], podKey, pod)
  {
    DispatchedIsRelatedExact(kind, cl, podKey, pod, key);
    if Workload(kind) {
      GeneratedByController(kind, cl, podKey, pod, key);
    }
  }

  /** For example: the pod of a rollout is found by its deployment and by its ReplicaSet, and by no other of them. */
  lemma RolloutFound(node: Node, obj: Object, name: string)
    ensures var pod := PodObj("p", node, "", map["pod-template-hash" := "5d4"], [], "web-5d4-", "", "");
            && (Related(Deployment, Key("ns", name), obj, Key("ns", "web-5d4-x"), pod) <==> name == "web" || name == "web-5d4-")
            && (Related(ReplicaSet, Key("ns", name), obj, Key("ns", "web-5d4-x"), pod) <==> name == "web-5d4")
  {
    var pod := PodObj("p", node, "", map["pod-template-hash" := "5d4"], [], "web-5d4-", "", "");
    LookupExact(Deployment, Key("ns", name), obj, Key("ns", "web-5d4-x"), pod);
    LookupExact(ReplicaSet, Key("ns", name), obj, Key("ns", "web-5d4-x"), pod);
    SameBefore("web-5d4-", name, "web", "-5d4-");
    SameBefore("web-5d4-", name, "web-5d4", "-");
    NotBefore("web-5d4-", name + "-", "-5d4-");
  }

  lemma SameBefore(whole: string, a: string, b: string, suffix: string)
    requires whole == b + suffix
    ensures whole == a + suffix <==> a == b
  {
    if whole == a + suffix {
      assert a == whole[..|whole| - |suffix|] == b;
    }
  }

  lemma NotBefore(whole: string, a: string, suffix: string)
    requires a != "" && a[|a| - 1] == '-'
    requires |suffix| < |whole| && whole[|whole| - |suffix| - 1] != '-'
    ensures whole != a + suffix
  {
    assert (a + suffix)[|a| - 1] == '-';
    if |a| + |suffix| == |whole| {
      assert |a| - 1 == |whole| - |suffix| - 1;
    }
  }

  /** A pod that a ReplicaSet adopted: dispatch asks for the ReplicaSet, which does not count the pod. */
  lemma AdoptedPodMissed(uid: ObjUid, node: Node, obj: Object)
    ensures var pod := PodObj("p", node, "", map[], [OwnerRef(ReplicaSet, "web", uid, Some(true))], "", "", "");
            && !Related(ReplicaSet, Key("ns", "web"), obj, Key("ns", "bare"), pod)
            && forall cl :: DispatchKeys(ReplicaSet, cl, Key("ns", "bare"), pod) == Some({Key("ns", "web")})
  {
    var pod := PodObj("p", node, "", map[], [OwnerRef(ReplicaSet, "web", uid, Some(true))], "", "", "");
    LookupExact(ReplicaSet, Key("ns", "web"), obj, Key("ns", "bare"), pod);
  }

  /** The lookups only compare generated names, so the owner's kind plays no part in them: a DaemonSet counts the pods
      of a ReplicationController that has its name, although dispatch never reaches it from them. */
  lemma NameClash(uid: ObjUid, node: Node, obj: Object)
    ensures var owner := OwnerRef(ReplicationController, "web", uid, Some(true));
            var pod := PodObj("p", node, "", map[], [owner], "web-", "", "");
            Related(DaemonSet, Key("ns", "web"), obj, Key("ns", "web-1"), pod)
            && forall cl :: DispatchKeys(DaemonSet, cl, Key("ns", "web-1"), pod) == Some({})
  {
    var owner := OwnerRef(ReplicationController, "web", uid, Some(true));
    var pod := PodObj("p", node, "", map[], [owner], "web-", "", "");
    assert pod.generateName == "web" + "-";
    LookupExact(DaemonSet, Key("ns", "web"), obj, Key("ns", "web-1"), pod);
  }

  // ----- The relation, element by element -----

  /** The first owner whose controller flag is set. */
  ghost predicate Controls(o: OwnerRef, owners: seq<OwnerRef>) {
    exists i | 0 <= i < |owners| :: owners[i] == o && FirstController(owners, i)
  }

  ghost predicate FirstController(owners: seq<OwnerRef>, i: nat)
    requires i < |owners|
  {
    owners[i].controller == Some(true) && forall j | 0 <= j < i :: owners[j].controller != Some(true)
  }

  lemma {:induction false} ManagingOwnerExact(owners: seq<OwnerRef>)
    ensures forall o :: ManagingOwner(owners) == Some(o) <==> Controls(o, owners)
    ensures ManagingOwner(owners).None? <==> forall i | 0 <= i < |owners| :: owners[i].controller != Some(true)
  {
    if owners != [] {
      var rest := owners[1..];
      ManagingOwnerExact(rest);
      if owners[0].controller == Some(true) {
        assert FirstController(owners, 0);
      } else {
        forall o
          ensures Controls(o, rest) <==> Controls(o, owners)
        {
          ControlsRest(o, owners);
        }
        forall i | 0 <= i < |owners|
          ensures i > 0 ==> owners[i] == rest[i - 1]
        {}
      }
    }
  }

  lemma ControlsRest(o: OwnerRef, owners: seq<OwnerRef>)
    requires owners != [] && owners[0].controller != Some(true)
    ensures Controls(o, owners[1..]) <==> Controls(o, owners)
  {
    var rest := owners[1..];
    if i :| 0 <= i < |rest| && rest[i] == o && FirstController(rest, i) {
      assert forall j | 0 < j < i + 1 :: owners[j] == rest[j - 1];
      assert FirstController(owners, i + 1);
    }
    if i :| 0 <= i < |owners| && owners[i] == o && FirstController(owners, i) {
      assert forall j | 0 <= j < i - 1 :: rest[j] == owners[j + 1];
      assert FirstController(rest, i - 1);
    }
  }

  lemma MatchesExact(selector: map<string, string>, labels: map<string, string>)
    ensures Matches(selector, labels) <==> selector.Items <= labels.Items
  {
    if selector.Items <= labels.Items {
      forall k | k in selector
        ensures k in labels && labels[k] == selector[k]
      {
        assert (k, selector[k]) in selector.Items;
      }
    }
  }

  /** The pods that count for a namespace are those in it, for a service those of its namespace that have an IP and all
      the labels of its selector, which is not empty, and for a workload those generated under its name. */
  lemma RelatedExact(key: Key, obj: Object, podKey: Key, pod: PodObj)
    ensures Related(Namespace, key, obj, podKey, pod) <==> podKey.ns == key.name
    ensures Related(Service, key, obj, podKey, pod) <==>
            podKey.ns == key.ns && pod.ip != "" && obj.selector != map[] && obj.selector.Items <= pod.labels.Items
    ensures forall kind | kind in {ReplicaSet, Deployment, DaemonSet, ReplicationController} ::
              Related(kind, key, obj, podKey, pod) <==> podKey.ns == key.ns && GeneratedFor(kind, key.name, pod)
  {
    MatchesExact(obj.selector, pod.labels);
    forall kind | kind in {ReplicaSet, Deployment, DaemonSet, ReplicationController}
      ensures Related(kind, key, obj, podKey, pod) <==> podKey.ns == key.ns && GeneratedFor(kind, key.name, pod)
    {
      LookupExact(kind, key, obj, podKey, pod);
    }
  }

  /** The subscribers of an object are those registered for the node of a scheduled pod that counts for it. */
  lemma SubscribersExact(kind: Kind, key: Key, obj: Object, pods: map<Key, PodObj>, r: Registry, u: Uid)
    ensures u in SubscribersOf(r, RelatedNodes(kind, key, obj, pods)) <==>
            exists k | k in pods :: Related(kind, key, obj, k, pods[k]) && pods[k].node != ""
                                    && pods[k].node in r && u in r[pods[k].node]
  {
    if u in SubscribersOf(r, RelatedNodes(kind, key, obj, pods)) {
      var n :| n in RelatedNodes(kind, key, obj, pods) && n in r && u in r[n];
      var k :| k in pods && Related(kind, key, obj, k, pods[k]) && pods[k].node != "" && pods[k].node == n;
    }
    if k :| k in pods && Related(kind, key, obj, k, pods[k]) && pods[k].node != "" && pods[k].node in r && u in r[pods[k].node] {
      assert pods[k].node in RelatedNodes(kind, key, obj, pods);
    }
  }

  /** Dispatch asks for the pod and its namespace, for the services of its namespace that select it, and for the
      controller of the kind. */
  lemma DispatchedExact(kind: Kind, cl: Cluster, podKey: Key, pod: PodObj, key: Key)
    requires Collected(kind) && !kind.Deployment?
    ensures DispatchKeys(kind, cl, podKey, pod).Some?
    ensures key in DispatchKeys(kind, cl, podKey, pod).value <==>
            match kind
            case Pod => key == podKey
            case Namespace => key.ns == "" && key.name == podKey.ns
            case Service =>
              && (Service, key) in cl.objects && key.ns == podKey.ns
              && cl.objects[(Service, key)].selector != map[] && cl.objects[(Service, key)].selector.Items <= pod.labels.Items
            case _ => exists o :: Controls(o, pod.owners) && o.kind == kind && key.ns == podKey.ns && key.name == o.name
  {
    if kind.Service? {
      if (Service, key) in cl.objects {
        MatchesExact(cl.objects[(Service, key)].selector, pod.labels);
      }
    } else if !kind.Pod? && !kind.Namespace? {
      ManagingOwnerExact(pod.owners);
    }
  }

  /** The pod's controller is a ReplicaSet in the cluster that the other one controls. */
  ghost predicate Above(cl: Cluster, podKey: Key, pod: PodObj, o: OwnerRef, top: OwnerRef) {
    && Controls(o, pod.owners) && o.kind == ReplicaSet
    && (ReplicaSet, Key(podKey.ns, o.name)) in cl.objects
    && Controls(top, cl.objects[(ReplicaSet, Key(podKey.ns, o.name))].owners)
  }

  /** For deployments it follows the pod's ReplicaSet, which has to be there. */
  lemma DispatchedDeployments(cl: Cluster, podKey: Key, pod: PodObj, key: Key)
    ensures DispatchKeys(Deployment, cl, podKey, pod).None? <==>
            exists o :: Controls(o, pod.owners) && o.kind == ReplicaSet && (ReplicaSet, Key(podKey.ns, o.name)) !in cl.objects
    ensures DispatchKeys(Deployment, cl, podKey, pod).Some? ==>
              (key in DispatchKeys(Deployment, cl, podKey, pod).value <==>
               exists o, top :: Above(cl, podKey, pod, o, top) && top.kind == Deployment && key.ns == podKey.ns && key.name == top.name)
  {
    ManagingOwnerExact(pod.owners);
    var owner := ManagingOwner(pod.owners);
    if owner.Some? && owner.value.kind == ReplicaSet && (ReplicaSet, Key(podKey.ns, owner.value.name)) in cl.objects {
      ManagingOwnerExact(cl.objects[(ReplicaSet, Key(podKey.ns, owner.value.name))].owners);
      var top := ManagingOwner(cl.objects[(ReplicaSet, Key(podKey.ns, owner.value.name))].owners);
      if top.Some? {
        assert Above(cl, podKey, pod, owner.value, top.value);
      }
    }
  }
}
