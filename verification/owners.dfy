/**
 No owner is missing. Two collectors with two registries, written at different times, have to agree: a subscriber of
 pods and of a kind of owner gets every owner of a pod on its node, through its own dispatch or through the trigger a
 pod reconcile sends. The owners of a pod are here its namespace and the workloads above it.
 */
module Owners {
  import opened Types
  import opened Relations
  import opened CollectorSteps
  import opened System
  import Attempts
  import Convergence
  import Engine
  import Subscriber

  /** The object is an owner of the pod: dispatch reaches it from the pod, and its collector counts the pod. */
  ghost predicate Concerns(kind: Kind, cl: Cluster, pod: Key, key: Key) {
    && pod in cl.pods && cl.pods[pod].node != "" && (kind, key) in cl.objects
    && Reaches(kind, cl, pod, cl.pods[pod], key)
    && Related(kind, key, cl.objects[(kind, key)], pod, cl.pods[pod])
  }

  predicate Reaches(kind: Kind, cl: Cluster, pod: Key, obj: PodObj, key: Key) {
    var keys := DispatchKeys(kind, cl, pod, obj);
    keys.Some? && key in keys.value
  }

  /** A pod reconcile will still trigger the owner: it has a Create or Delete event whose owners were not triggered. */
  ghost predicate TriggerDue(w: Worker, pod: Key, kind: Kind, key: Key) {
    && w.Pushing? && w.key == pod
    && (kind, key) in Attempts.OwnerTriggers(w.refs)
    && exists i | 0 <= i < |w.events| :: w.events[i].msg.reason != Update && (i > 0 || !w.triggered)
  }

  /** The dispatch under way in the owner's collector will enqueue the owner because of the pod. */
  ghost predicate DispatchDue(kind: Kind, cl: Cluster, d: Dispatcher, pod: Key, key: Key) {
    match d
    case Written(n) => n == Convergence.Where(cl.pods, pod)
    case Sending(listed, keys) =>
      key in keys || exists i | 0 <= i < |listed| :: listed[i].0 == pod && Reaches(kind, cl, pod, listed[i].1, key)
    case _ => false
  }

  predicate Reading(w: Worker, key: Key) {
    (w.Taken? || w.GotObject? || w.Collecting? || w.Decided?) && w.key == key
  }

  /** The reconcile under way will find the subscriber. */
  ghost predicate WillFind(w: Worker, node: Node, u: Uid) {
    match w
    case Collecting(_, _, _, todo, _, acc, _, _) => node in todo || u in acc
    case Decided(_, what) => what.Send? && u in what.subs
    case _ => true
  }

  /** Something is still going to be done about the owner because of the pod. */
  ghost predicate Due(kind: Kind, cl: Cluster, pods: Collector, own: Collector, triggers: set<(Kind, Key)>, pod: Key, key: Key) {
    || key in own.pending
    || (kind, key) in triggers
    || TriggerDue(pods.worker, pod, kind, key)
    || DispatchDue(kind, cl, own.disp, pod, key)
  }

  /** The subscriber is told about the owner, or is about to be. */
  ghost predicate Provided(kind: Kind, cl: Cluster, pods: Collector, own: Collector, triggers: set<(Kind, Key)>,
                           pod: Key, key: Key, u: Uid) {
    || Due(kind, cl, pods, own, triggers, pod, key)
    || if Reading(own.worker, key) then WillFind(own.worker, Convergence.Where(cl.pods, pod), u)
       else u in HoldersAt(own.cache, key)
  }

  /** The subscriber is registered for owners on the pod's node, and holds the pod. */
  ghost predicate Entitled(cl: Cluster, pods: Collector, own: Collector, pod: Key, u: Uid) {
    u in Subscriber.At(own.registry, Convergence.Where(cl.pods, pod)) && u in HoldersAt(pods.cache, pod)
  }

  ghost predicate ServedBy(kind: Kind, cl: Cluster, pods: Collector, own: Collector, triggers: set<(Kind, Key)>,
                           pod: Key, key: Key, u: Uid) {
    Concerns(kind, cl, pod, key) && Entitled(cl, pods, own, pod, u) ==> Provided(kind, cl, pods, own, triggers, pod, key, u)
  }

  ghost predicate Served(s: Sys, kind: Kind, pod: Key, key: Key, u: Uid)
    requires Pod in s.coll && kind in s.coll
  {
    ServedBy(kind, s.cluster, s.coll[Pod], s.coll[kind], s.triggers, pod, key, u)
  }

  // ----- What goes wrong -----

  /** The pod reconcile about to commit adds the subscriber to the pod's holders, does not refer to the owner, and
      nothing else brings it. */
  ghost predicate Forgets(kind: Kind, cl: Cluster, pods: Collector, own: Collector, triggers: set<(Kind, Key)>,
                          pod: Key, key: Key, u: Uid) {
    var w := pods.worker;
    && w.Decided? && w.key == pod && w.what.Send? && u in w.what.subs && u !in HoldersAt(pods.cache, pod)
    && (kind, key) !in Attempts.OwnerTriggers(w.what.content.refs)
    && Concerns(kind, cl, pod, key) && u in Subscriber.At(own.registry, Convergence.Where(cl.pods, pod))
    && !Provided(kind, cl, pods, own, triggers, pod, key, u)
  }

  /** In a changed cluster, a holder of the pod comes to be entitled to an owner that nothing brings. */
  ghost predicate Loses(kind: Kind, cl: Cluster, pods: Collector, own: Collector, triggers: set<(Kind, Key)>,
                        pod: Key, key: Key, u: Uid) {
    && Concerns(kind, cl, pod, key) && Entitled(cl, pods, own, pod, u)
    && !Provided(kind, cl, pods, own, triggers, pod, key, u)
  }

  /** The steps that hide an owner: the pod comes back, or is handed over, while the subscriber holds it; a ReplicaSet
      is handed over; a pod is reconciled on what was read of its owners before they changed. */
  ghost predicate Hides(s: Sys, st: SysStep, kind: Kind, pod: Key, key: Key, u: Uid)
    requires Pod in s.coll && kind in s.coll
  {
    match st
    case ChangePod(at, now) =>
      at == pod && Loses(kind, ClusterAfter(s.cluster, st), s.coll[Pod], s.coll[kind], s.triggers, pod, key, u)
    case ChangeObject(k, at, now) =>
      k.ReplicaSet? && kind.Deployment?
      && Loses(kind, ClusterAfter(s.cluster, st), s.coll[Pod], s.coll[kind], s.triggers, pod, key, u)
    case Local(k, lst) =>
      k.Pod? && lst.Commit? && Forgets(kind, s.cluster, s.coll[Pod], s.coll[kind], s.triggers, pod, key, u)
    case _ => false
  }

  // ----- Steps of the pod collector -----

  lemma PodStep(h: Hasher, kind: Kind, cl: Cluster, pods: Collector, own: Collector, triggers: set<(Kind, Key)>,
                st: Step, pod: Key, key: Key, u: Uid)
    requires Enabled(Pod, cl, pods, st) && !st.TriggerOwners? && ServedBy(kind, cl, pods, own, triggers, pod, key, u)
    ensures ServedBy(kind, cl, Do(h, Pod, cl, pods, st), own, triggers, pod, key, u) <==>
            !(st.Commit? && Forgets(kind, cl, pods, own, triggers, pod, key, u))
  {
    if st.Commit? {
      CommitStep(h, kind, cl, pods, own, triggers, pod, key, u);
    } else {
      TriggersStayDue(h, cl, pods, st, pod, kind, key);
      SamePods(kind, cl, pods, Do(h, Pod, cl, pods, st), own, triggers, pod, key, u);
    }
  }

  lemma SamePods(kind: Kind, cl: Cluster, pods: Collector, pods': Collector, own: Collector, triggers: set<(Kind, Key)>,
                 pod: Key, key: Key, u: Uid)
    requires pods'.cache == pods.cache && (TriggerDue(pods.worker, pod, kind, key) ==> TriggerDue(pods'.worker, pod, kind, key))
    requires ServedBy(kind, cl, pods, own, triggers, pod, key, u)
    ensures ServedBy(kind, cl, pods', own, triggers, pod, key, u)
  {
  }

  lemma TriggersStayDue(h: Hasher, cl: Cluster, pods: Collector, st: Step, pod: Key, kind: Kind, key: Key)
    requires Enabled(Pod, cl, pods, st) && !st.TriggerOwners? && !st.Commit?
    ensures var pods' := Do(h, Pod, cl, pods, st);
            pods'.cache == pods.cache && (TriggerDue(pods.worker, pod, kind, key) ==> TriggerDue(pods'.worker, pod, kind, key))
  {
    if !st.WriteRegistry? {
      Framed(h, Pod, cl, pods, st);
      if st.Push? && TriggerDue(pods.worker, pod, kind, key) {
        PushKeepsDue(pods.worker, pod, kind, key);
      }
    }
  }

  lemma CommitStep(h: Hasher, kind: Kind, cl: Cluster, pods: Collector, own: Collector, triggers: set<(Kind, Key)>,
                   pod: Key, key: Key, u: Uid)
    requires pods.worker.Decided? && ServedBy(kind, cl, pods, own, triggers, pod, key, u)
    ensures ServedBy(kind, cl, Committed(h, Pod, pods), own, triggers, pod, key, u) <==>
            !Forgets(kind, cl, pods, own, triggers, pod, key, u)
  {
    CommitTriggers(h, pods, pod, kind, key, u);
  }

  /** Whoever a pod reconcile adds is sent a Create event, which comes with triggers for what the content refers to. */
  lemma CommitTriggers(h: Hasher, pods: Collector, pod: Key, kind: Kind, key: Key, u: Uid)
    requires pods.worker.Decided?
    ensures var w, c := pods.worker, Committed(h, Pod, pods);
            && (u in HoldersAt(c.cache, pod) <==>
                  if w.key == pod then w.what.Send? && u in w.what.subs else u in HoldersAt(pods.cache, pod))
            && (u in HoldersAt(c.cache, pod) && u !in HoldersAt(pods.cache, pod) ==>
                  (TriggerDue(c.worker, pod, kind, key) <==> (kind, key) in Attempts.OwnerTriggers(w.what.content.refs)))
  {
    var w, w' := pods.worker, Committed(h, Pod, pods).worker;
    var held := Engine.Holders(EntryIn(pods.cache, w.key));
    if w.key == pod && w.what.Send? && u in w.what.subs - held {
      assert w'.events[0] == Event(Engine.FullMessage(Create, w.what.content), w.what.subs - held);
      assert w'.events[0].msg.reason == Create;
    }
  }

  /** Whoever a pod reconcile takes out, other than silently, is sent a Delete event, which comes with triggers too: for
      what the content refers to while the pod is there, and for what was cached of it when it is gone. */
  lemma RemovalTriggers(h: Hasher, pods: Collector, pod: Key, kind: Kind, key: Key, u: Uid)
    requires pods.worker.Decided? && !pods.worker.what.NoSubscribers?
    requires u in HoldersAt(pods.cache, pod) && u !in HoldersAt(Committed(h, Pod, pods).cache, pod)
    ensures pod in pods.cache && pods.worker.key == pod
    ensures TriggerDue(Committed(h, Pod, pods).worker, pod, kind, key) <==>
            (kind, key) in Attempts.OwnerTriggers(if pods.worker.what.Send? then pods.worker.what.content.refs
                                                  else pods.cache[pod].entry.refs)
  {
    var w, w' := pods.worker, Committed(h, Pod, pods).worker;
    var prev := EntryIn(pods.cache, w.key);
    var held := Engine.Holders(prev);
    if w.what.Send? {
      assert u in held - w.what.subs;
      assert w'.events[|w'.events| - 1].subs == held - w.what.subs;
      assert w'.events[|w'.events| - 1].msg.reason == Delete;
    } else {
      assert w'.events == [Event(Engine.DeleteMessage(Pod, prev.value.uid), held)];
      assert w'.events[0].msg.reason == Delete && w'.refs == pods.cache[pod].entry.refs;
    }
  }

  lemma PushKeepsDue(w: Worker, pod: Key, kind: Kind, key: Key)
    requires TriggerDue(w, pod, kind, key) && (MustTrigger(Pod, w) ==> w.triggered)
    ensures TriggerDue(w.(events := w.events[1..], triggered := false), pod, kind, key)
  {
    var i :| 0 <= i < |w.events| && w.events[i].msg.reason != Update && (i > 0 || !w.triggered);
    assert w.events[1..][i - 1] == w.events[i];
  }

  lemma LaunchStep(kind: Kind, cl: Cluster, pods: Collector, own: Collector, triggers: set<(Kind, Key)>, pod: Key, key: Key, u: Uid)
    requires MustTrigger(Pod, pods.worker) && ServedBy(kind, cl, pods, own, triggers, pod, key, u)
    ensures ServedBy(kind, cl, pods.(worker := pods.worker.(triggered := true)), own,
                     triggers + Attempts.OwnerTriggers(pods.worker.refs), pod, key, u)
  {
  }

  // ----- Steps of the owner's collector -----

  lemma OwnStep(h: Hasher, kind: Kind, cl: Cluster, pods: Collector, own: Collector, triggers: set<(Kind, Key)>,
                st: Step, pod: Key, key: Key, u: Uid)
    requires HasOwnerSource(kind) && Enabled(kind, cl, own, st) && WorkerOk(kind, own, own.worker)
    requires !Do(h, kind, cl, own, st).lossy && ServedBy(kind, cl, pods, own, triggers, pod, key, u)
    ensures ServedBy(kind, cl, pods, Do(h, kind, cl, own, st), triggers, pod, key, u)
  {
    if st.WriteRegistry? {
      WriteStep(kind, cl, pods, own, triggers, pod, key, u);
    } else if st.Commit? {
      OwnCommitStep(h, kind, cl, pods, own, triggers, pod, key, u);
    } else if Dispatches(st) {
      DispatchStep(kind, cl, pods, own, triggers, st, pod, key, u);
    } else if Queues(st) {
      RequeueStep(kind, cl, pods, own, triggers, st, pod, key, u);
    } else {
      WorkStep(kind, cl, pods, own, triggers, st, pod, key, u);
    }
  }

  lemma DispatchStep(kind: Kind, cl: Cluster, pods: Collector, own: Collector, triggers: set<(Kind, Key)>,
                     st: Step, pod: Key, key: Key, u: Uid)
    requires Enabled(kind, cl, own, st) && Dispatches(st) && !Dispatched(own, st).lossy
    requires ServedBy(kind, cl, pods, own, triggers, pod, key, u)
    ensures ServedBy(kind, cl, pods, Dispatched(own, st), triggers, pod, key, u)
  {
    if Concerns(kind, cl, pod, key) {
      DispatchKept(kind, cl, own, st, pod, key);
    }
  }

  lemma RequeueStep(kind: Kind, cl: Cluster, pods: Collector, own: Collector, triggers: set<(Kind, Key)>,
                    st: Step, pod: Key, key: Key, u: Uid)
    requires Queues(st) && (st.Take? ==> own.worker.Idle?)
    requires st.Fail? ==> !own.worker.Idle? && !own.worker.Pushing?
    requires ServedBy(kind, cl, pods, own, triggers, pod, key, u)
    ensures ServedBy(kind, cl, pods, Requeued(own, st), triggers, pod, key, u)
  {
  }

  lemma WorkStep(kind: Kind, cl: Cluster, pods: Collector, own: Collector, triggers: set<(Kind, Key)>,
                 st: Step, pod: Key, key: Key, u: Uid)
    requires HasOwnerSource(kind) && Enabled(kind, cl, own, st) && Works(st) && WorkerOk(kind, own, own.worker)
    requires ServedBy(kind, cl, pods, own, triggers, pod, key, u)
    ensures ServedBy(kind, cl, pods, own.(worker := Work(kind, cl, own, st)), triggers, pod, key, u)
  {
    if Concerns(kind, cl, pod, key) && Entitled(cl, pods, own, pod, u) {
      FindKept(kind, cl, own, st, pod, key, u);
    }
  }

  lemma WriteStep(kind: Kind, cl: Cluster, pods: Collector, own: Collector, triggers: set<(Kind, Key)>, pod: Key, key: Key, u: Uid)
    requires own.disp.Received? && ServedBy(kind, cl, pods, own, triggers, pod, key, u)
    ensures ServedBy(kind, cl, pods, RegistryWrite(own), triggers, pod, key, u)
  {
  }

  lemma OwnCommitStep(h: Hasher, kind: Kind, cl: Cluster, pods: Collector, own: Collector, triggers: set<(Kind, Key)>,
                      pod: Key, key: Key, u: Uid)
    requires own.worker.Decided? && ServedBy(kind, cl, pods, own, triggers, pod, key, u)
    ensures ServedBy(kind, cl, pods, Committed(h, kind, own), triggers, pod, key, u)
  {
  }

  lemma DispatchKept(kind: Kind, cl: Cluster, own: Collector, st: Step, pod: Key, key: Key)
    requires Enabled(kind, cl, own, st) && Dispatches(st) && !Dispatched(own, st).lossy && Concerns(kind, cl, pod, key)
    ensures var own' := Dispatched(own, st);
            && own.pending <= own'.pending
            && (DispatchDue(kind, cl, own.disp, pod, key) ==> DispatchDue(kind, cl, own'.disp, pod, key) || key in own'.pending)
  {
    var own' := Dispatched(own, st);
    if DispatchDue(kind, cl, own.disp, pod, key) {
      if st.ListNode? {
        assert (pod, cl.pods[pod]) in st.listed;
        var i :| 0 <= i < |st.listed| && st.listed[i] == (pod, cl.pods[pod]);
        assert own'.disp.pods[i] == (pod, cl.pods[pod]);
      } else if st.NextPod? {
        var listed := own.disp.pods;
        var i :| 0 <= i < |listed| && listed[i].0 == pod && Reaches(kind, cl, pod, listed[i].1, key);
        if i == 0 {
          assert key in Elements(st.batch);
        } else {
          assert own'.disp.pods[i - 1] == listed[i];
        }
      } else if st.SendKey? {
        assert own.disp.keys == [own.disp.keys[0]] + own.disp.keys[1..];
      }
    }
  }

  lemma FindKept(kind: Kind, cl: Cluster, own: Collector, st: Step, pod: Key, key: Key, u: Uid)
    requires HasOwnerSource(kind) && Enabled(kind, cl, own, st) && Works(st) && WorkerOk(kind, own, own.worker)
    requires Concerns(kind, cl, pod, key) && u in Subscriber.At(own.registry, cl.pods[pod].node)
    ensures var w', node := Work(kind, cl, own, st), cl.pods[pod].node;
            && (Reading(own.worker, key) <==> Reading(w', key))
            && (Reading(own.worker, key) && WillFind(own.worker, node, u) ==> WillFind(w', node, u))
  {
    var w := own.worker;
    if st.ListRelated? {
      if w.key == key {
        ListFinds(kind, cl, w.obj, pod, key);
      }
    } else if st.CheckNode? || st.Fetch? {
      assert w.todo == [w.todo[0]] + w.todo[1..];
    }
  }

  lemma ListFinds(kind: Kind, cl: Cluster, obj: Object, pod: Key, key: Key)
    requires HasOwnerSource(kind) && Concerns(kind, cl, pod, key)
    ensures cl.pods[pod].node in RelatedNodes(kind, key, obj, cl.pods)
  {
    RelatedWhatever(kind, key, obj, cl.objects[(kind, key)], pod, cl.pods[pod]);
  }

  /** Which pods count for an owner depends on its name only. */
  lemma RelatedWhatever(kind: Kind, key: Key, a: Object, b: Object, podKey: Key, pod: PodObj)
    requires HasOwnerSource(kind)
    ensures Related(kind, key, a, podKey, pod) <==> Related(kind, key, b, podKey, pod)
  {
  }

  // ----- Steps of the whole system -----

  /** Queues grow, and triggers are delivered into them. */
  lemma QueueStep(kind: Kind, cl: Cluster, pods: Collector, own: Collector, triggers: set<(Kind, Key)>,
                  pods': Collector, own': Collector, triggers': set<(Kind, Key)>, pod: Key, key: Key, u: Uid)
    requires ServedBy(kind, cl, pods, own, triggers, pod, key, u)
    requires pods' == pods.(pending := pods'.pending) && own' == own.(pending := own'.pending) && own.pending <= own'.pending
    requires (kind, key) in triggers ==> (kind, key) in triggers' || key in own'.pending
    ensures ServedBy(kind, cl, pods', own', triggers', pod, key, u)
  {
  }

  /** A change of the cluster queues keys, and otherwise leaves the collectors alone. */
  lemma ChangeStep(kind: Kind, cl: Cluster, cl': Cluster, pods: Collector, own: Collector, triggers: set<(Kind, Key)>,
                   pods': Collector, own': Collector, pod: Key, key: Key, u: Uid)
    requires ServedBy(kind, cl, pods, own, triggers, pod, key, u)
    requires pods' == pods.(pending := pods'.pending) && own' == own.(pending := own'.pending) && own.pending <= own'.pending
    ensures own'.pending == own.pending ==>
              (ServedBy(kind, cl', pods', own', triggers, pod, key, u) <==> !Loses(kind, cl', pods, own, triggers, pod, key, u))
    ensures key in own'.pending ==> ServedBy(kind, cl', pods', own', triggers, pod, key, u)
    ensures key !in own'.pending ==>
              (ServedBy(kind, cl', pods', own', triggers, pod, key, u) <==> !Loses(kind, cl', pods, own, triggers, pod, key, u))
  {
  }

  ghost predicate SameReplicaSets(cl: Cluster, cl': Cluster) {
    forall key: Key ::
      && ((ReplicaSet, key) in cl'.objects <==> (ReplicaSet, key) in cl.objects)
      && ((ReplicaSet, key) in cl.objects ==> cl'.objects[(ReplicaSet, key)] == cl.objects[(ReplicaSet, key)])
  }

  /** Nothing changes for a pod and an owner if neither they nor a ReplicaSet between them do. */
  lemma UnrelatedChange(kind: Kind, cl: Cluster, cl': Cluster, pods: Collector, own: Collector, triggers: set<(Kind, Key)>,
                        pod: Key, key: Key, u: Uid)
    requires HasOwnerSource(kind) && ServedBy(kind, cl, pods, own, triggers, pod, key, u)
    requires Convergence.Where(cl'.pods, pod) == Convergence.Where(cl.pods, pod) && ValueAt(cl'.pods, pod) == ValueAt(cl.pods, pod)
    requires (kind, key) in cl'.objects ==> (kind, key) in cl.objects
    requires kind.Deployment? ==> SameReplicaSets(cl, cl')
    ensures !Loses(kind, cl', pods, own, triggers, pod, key, u)
  {
    forall obj
      ensures Reaches(kind, cl', pod, obj, key) == Reaches(kind, cl, pod, obj, key)
    {
      SameKeys(kind, cl, cl', pod, obj);
    }
    if Concerns(kind, cl', pod, key) {
      RelatedWhatever(kind, key, cl.objects[(kind, key)], cl'.objects[(kind, key)], pod, cl.pods[pod]);
    }
  }

  lemma SameKeys(kind: Kind, cl: Cluster, cl': Cluster, pod: Key, obj: PodObj)
    requires HasOwnerSource(kind)
    requires kind.Deployment? ==> SameReplicaSets(cl, cl')
    ensures DispatchKeys(kind, cl', pod, obj) == DispatchKeys(kind, cl, pod, obj)
  {
  }

  lemma PodPart(h: Hasher, s: Sys, st: SysStep, kind: Kind, pod: Key, key: Key, u: Uid)
    requires Allowed(s, st) && HasOwnerSource(kind) && Pod in s.coll && kind in s.coll && LocalPart(s, st, Pod).Some?
    requires Served(s, kind, pod, key, u)
    ensures var s' := Next(h, s, st);
            Pod in s'.coll && kind in s'.coll && (Served(s', kind, pod, key, u) <==> !Hides(s, st, kind, pod, key, u))
  {
    if st.LaunchTriggers? {
      LaunchPart(h, s, kind, pod, key, u);
    } else {
      LocalEffect(h, s, st, Pod);
      TriggersEffect(h, s, st);
      PodStep(h, kind, s.cluster, s.coll[Pod], s.coll[kind], s.triggers, LocalPart(s, st, Pod).value, pod, key, u);
    }
  }

  lemma LaunchPart(h: Hasher, s: Sys, kind: Kind, pod: Key, key: Key, u: Uid)
    requires Allowed(s, LaunchTriggers) && HasOwnerSource(kind) && kind in s.coll && Served(s, kind, pod, key, u)
    ensures var s' := Next(h, s, LaunchTriggers); Pod in s'.coll && kind in s'.coll && Served(s', kind, pod, key, u)
  {
    LocalEffect(h, s, LaunchTriggers, Pod);
    TriggersEffect(h, s, LaunchTriggers);
    LaunchStep(kind, s.cluster, s.coll[Pod], s.coll[kind], s.triggers, pod, key, u);
  }

  lemma OwnPart(h: Hasher, s: Sys, st: SysStep, kind: Kind, pod: Key, key: Key, u: Uid)
    requires Allowed(s, st) && HasOwnerSource(kind) && Pod in s.coll && kind in s.coll && LocalPart(s, st, kind).Some?
    requires WorkerOk(kind, s.coll[kind], s.coll[kind].worker) && Served(s, kind, pod, key, u)
    ensures var s' := Next(h, s, st);
            Pod in s'.coll && kind in s'.coll && (!s'.coll[kind].lossy ==> Served(s', kind, pod, key, u))
  {
    LocalEffect(h, s, st, kind);
    TriggersEffect(h, s, st);
    if !Next(h, s, st).coll[kind].lossy {
      OwnStep(h, kind, s.cluster, s.coll[Pod], s.coll[kind], s.triggers, LocalPart(s, st, kind).value, pod, key, u);
    }
  }

  lemma OtherPart(h: Hasher, s: Sys, st: SysStep, kind: Kind, pod: Key, key: Key, u: Uid)
    requires Allowed(s, st) && HasOwnerSource(kind) && Pod in s.coll && kind in s.coll
    requires LocalPart(s, st, Pod).None? && LocalPart(s, st, kind).None? && Served(s, kind, pod, key, u)
    ensures var s' := Next(h, s, st);
            Pod in s'.coll && kind in s'.coll && (Served(s', kind, pod, key, u) <==> !Hides(s, st, kind, pod, key, u))
  {
    var s' := Next(h, s, st);
    OtherEffect(h, s, st, Pod);
    OtherEffect(h, s, st, kind);
    ClusterEffect(h, s, st);
    TriggersEffect(h, s, st);
    if st.ChangePod? || st.ChangeObject? {
      ChangePart(s, s', st, kind, pod, key, u);
    } else {
      QueueStep(kind, s.cluster, s.coll[Pod], s.coll[kind], s.triggers, s'.coll[Pod], s'.coll[kind], s'.triggers, pod, key, u);
    }
  }

  lemma ChangePart(s: Sys, s': Sys, st: SysStep, kind: Kind, pod: Key, key: Key, u: Uid)
    requires st.ChangePod? || st.ChangeObject?
    requires HasOwnerSource(kind) && Pod in s.coll && kind in s.coll && Pod in s'.coll && kind in s'.coll
    requires Served(s, kind, pod, key, u) && s'.cluster == ClusterAfter(s.cluster, st) && s'.triggers == s.triggers
    requires s'.coll[Pod] == s.coll[Pod].(pending := s'.coll[Pod].pending)
    requires s'.coll[kind] == s.coll[kind].(pending := s.coll[kind].pending + QueuedPart(s, st, kind))
    ensures Served(s', kind, pod, key, u) <==> !Hides(s, st, kind, pod, key, u)
  {
    ChangeStep(kind, s.cluster, s'.cluster, s.coll[Pod], s.coll[kind], s.triggers, s'.coll[Pod], s'.coll[kind], pod, key, u);
    if !(st.ChangePod? && st.key == pod) && !(st.ChangeObject? && st.kind.ReplicaSet? && kind.Deployment?)
       && !(st.ChangeObject? && st.kind == kind && st.key == key) {
      UnrelatedChange(kind, s.cluster, s'.cluster, s.coll[Pod], s.coll[kind], s.triggers, pod, key, u);
    }
  }

  /** Exactly which steps keep the subscriber served: as long as no list of the owner's collector failed, all but those
      that hide the owner. */
  lemma ServedExact(h: Hasher, s: Sys, st: SysStep, kind: Kind, pod: Key, key: Key, u: Uid)
    requires Allowed(s, st) && HasOwnerSource(kind) && Pod in s.coll && kind in s.coll
    requires WorkerOk(kind, s.coll[kind], s.coll[kind].worker) && Served(s, kind, pod, key, u)
    ensures var s' := Next(h, s, st);
            && Pod in s'.coll && kind in s'.coll
            && (!s'.coll[kind].lossy ==> (Served(s', kind, pod, key, u) <==> !Hides(s, st, kind, pod, key, u)))
  {
    if LocalPart(s, st, Pod).Some? {
      PodPart(h, s, st, kind, pod, key, u);
    } else if LocalPart(s, st, kind).Some? {
      OwnPart(h, s, st, kind, pod, key, u);
    } else {
      OtherPart(h, s, st, kind, pod, key, u);
    }
  }

  // ----- What a pod's content refers to -----

  /** The controller written last into the references of a pod: a later handler overwrites an earlier one. */
  function LastController(pod: PodObj, rsOwners: seq<OwnerRef>): Option<OwnerRef> {
    if Attempts.NeedsReplicaSet(pod) then ManagingOwner(rsOwners) else ManagingOwner(pod.owners)
  }

  function Referred(key: Key, pod: PodObj, nsUid: ObjUid, rsOwners: seq<OwnerRef>, services: seq<(Key, Object)>): set<(Kind, Key)> {
    Attempts.OwnerTriggers(Attempts.PodContent(key, pod, nsUid, rsOwners, services).refs)
  }

  function NsKey(pod: Key): Key { Key("", pod.ns) }

  /** A pod refers to its namespace exactly if its last controller is not a Namespace. */
  lemma NamespaceReferred(key: Key, pod: PodObj, nsUid: ObjUid, rsOwners: seq<OwnerRef>, services: seq<(Key, Object)>)
    requires key.ns != ""
    ensures (Namespace, NsKey(key)) in Referred(key, pod, nsUid, rsOwners, services) <==>
            !(LastController(pod, rsOwners).Some? && LastController(pod, rsOwners).value.kind.Namespace?)
  {
    var refs := Attempts.PodRefs(key, pod, nsUid, rsOwners, services);
    var last := LastController(pod, rsOwners);
    if last.Some? && last.value.kind.Namespace? {
      assert refs[Namespace] == [Ref(Key(key.ns, last.value.name), last.value.uid)];
    } else {
      assert refs[Namespace] == [Ref(NsKey(key), nsUid)];
      assert refs[Namespace][0] in refs[Namespace];
    }
  }

  /** A pod controlled by a Namespace triggers that name in its own namespace, and not its namespace. */
  lemma NamespaceControllerHides(uid: ObjUid, node: Node, nsUid: ObjUid)
    ensures var pod := PodObj("p", node, "", map[], [OwnerRef(Namespace, "other", uid, Some(true))], "", "", "");
            Referred(Key("ns", "pod"), pod, nsUid, [], []) == {(Namespace, Key("ns", "other"))}
  {
    var pod := PodObj("p", node, "", map[], [OwnerRef(Namespace, "other", uid, Some(true))], "", "", "");
    var refs := Attempts.PodRefs(Key("ns", "pod"), pod, nsUid, [], []);
    assert refs == map[Namespace := [Ref(Key("ns", "other"), uid)], Service := []];
    assert refs[Namespace][0] in refs[Namespace];
  }

  /** A pod refers to a workload exactly if that is the last controller of its kind. */
  lemma WorkloadReferred(kind: Kind, key: Key, pod: PodObj, nsUid: ObjUid, rsOwners: seq<OwnerRef>,
                         services: seq<(Key, Object)>, owner: Key)
    requires Workload(kind)
    ensures var first, last := ManagingOwner(pod.owners), LastController(pod, rsOwners);
            (kind, owner) in Referred(key, pod, nsUid, rsOwners, services) <==>
            if last.Some? && last.value.kind == kind then owner == Key(key.ns, last.value.name)
            else first.Some? && first.value.kind == kind && owner == Key(key.ns, first.value.name)
  {
    var refs := Attempts.PodRefs(key, pod, nsUid, rsOwners, services);
    var first, last := ManagingOwner(pod.owners), LastController(pod, rsOwners);
    if last.Some? && last.value.kind == kind {
      assert refs[kind] == [Ref(Key(key.ns, last.value.name), last.value.uid)];
      assert refs[kind][0] in refs[kind];
    } else if first.Some? && first.value.kind == kind {
      assert refs[kind] == [Ref(Key(key.ns, first.value.name), first.value.uid)];
      assert refs[kind][0] in refs[kind];
    } else {
      assert kind !in refs;
    }
  }

  /** So a pod read together with the owners it has now refers to all that dispatch reaches from it, unless a Namespace
      controls it or a ReplicaSet controls its ReplicaSet. */
  lemma FreshContentRefers(kind: Kind, cl: Cluster, key: Key, pod: PodObj, nsUid: ObjUid, rsOwners: seq<OwnerRef>,
                           services: seq<(Key, Object)>, owner: Key)
    requires HasOwnerSource(kind) && Reaches(kind, cl, key, pod, owner) && key.ns != ""
    requires var rs := ManagingOwner(pod.owners);
             Attempts.NeedsReplicaSet(pod) && (ReplicaSet, Key(key.ns, rs.value.name)) in cl.objects ==>
               rsOwners == cl.objects[(ReplicaSet, Key(key.ns, rs.value.name))].owners
    requires var last := LastController(pod, rsOwners);
             last.Some? ==> !last.value.kind.Namespace? && !(Attempts.NeedsReplicaSet(pod) && last.value.kind.ReplicaSet?)
    ensures (kind, owner) in Referred(key, pod, nsUid, rsOwners, services)
  {
    if kind.Namespace? {
      NamespaceReferred(key, pod, nsUid, rsOwners, services);
    } else {
      WorkloadReferred(kind, key, pod, nsUid, rsOwners, services, owner);
    }
  }

  /** And to nothing else, if it is controlled the usual way: pods by a ReplicaSet, a DaemonSet, a ReplicationController
      or something that is not followed, and ReplicaSets by a Deployment or something that is not followed. */
  lemma FreshReferredExact(kind: Kind, cl: Cluster, key: Key, pod: PodObj, nsUid: ObjUid, rsOwners: seq<OwnerRef>,
                           services: seq<(Key, Object)>, owner: Key)
    requires HasOwnerSource(kind) && key.ns != ""
    requires forall o | Controls(o, pod.owners) :: o.kind != Deployment && o.kind != Namespace
    requires forall o | Controls(o, pod.owners) && o.kind == ReplicaSet ::
               var rs := (ReplicaSet, Key(key.ns, o.name));
               rsOwners == (if rs in cl.objects then cl.objects[rs].owners else [])
    requires forall top | Controls(top, rsOwners) :: top.kind == Deployment || !HasOwnerSource(top.kind)
    ensures (kind, owner) in Referred(key, pod, nsUid, rsOwners, services) <==> Reaches(kind, cl, key, pod, owner)
  {
    ManagingOwnerExact(pod.owners);
    ManagingOwnerExact(rsOwners);
    if kind.Namespace? {
      NamespaceReferred(key, pod, nsUid, rsOwners, services);
      OnlyNamespace(key, pod, nsUid, rsOwners, services, owner);
    } else {
      assert ManagingOwner(pod.owners).Some? ==> Controls(ManagingOwner(pod.owners).value, pod.owners);
      assert ManagingOwner(rsOwners).Some? ==> Controls(ManagingOwner(rsOwners).value, rsOwners);
      FreshWorkload(kind, cl, key, pod, nsUid, rsOwners, services, owner);
    }
  }

  lemma FreshWorkload(kind: Kind, cl: Cluster, key: Key, pod: PodObj, nsUid: ObjUid, rsOwners: seq<OwnerRef>,
                      services: seq<(Key, Object)>, owner: Key)
    requires Workload(kind)
    requires var first := ManagingOwner(pod.owners);
             && (first.Some? ==> first.value.kind != Deployment)
             && (first.Some? && first.value.kind == ReplicaSet ==>
                   var rs := (ReplicaSet, Key(key.ns, first.value.name));
                   rsOwners == (if rs in cl.objects then cl.objects[rs].owners else []))
    requires var top := ManagingOwner(rsOwners); top.Some? ==> top.value.kind == Deployment || !Workload(top.value.kind)
    ensures (kind, owner) in Referred(key, pod, nsUid, rsOwners, services) <==> Reaches(kind, cl, key, pod, owner)
  {
    WorkloadReferred(kind, key, pod, nsUid, rsOwners, services, owner);
  }

  lemma OnlyNamespace(key: Key, pod: PodObj, nsUid: ObjUid, rsOwners: seq<OwnerRef>, services: seq<(Key, Object)>, owner: Key)
    requires forall o | Controls(o, pod.owners) :: o.kind != Namespace
    requires forall top | Controls(top, rsOwners) :: top.kind != Namespace
    ensures (Namespace, owner) in Referred(key, pod, nsUid, rsOwners, services) ==> owner == NsKey(key)
  {
    ManagingOwnerExact(pod.owners);
    ManagingOwnerExact(rsOwners);
    var refs := Attempts.PodRefs(key, pod, nsUid, rsOwners, services);
    assert refs[Namespace] == [Ref(NsKey(key), nsUid)];
  }

  // ----- Namespaces -----

  lemma NamespaceConcerns(cl: Cluster, pod: Key, key: Key)
    ensures Concerns(Namespace, cl, pod, key) <==>
            pod in cl.pods && cl.pods[pod].node != "" && key == NsKey(pod) && (Namespace, key) in cl.objects
  {
  }

  /** When a change of a pod hides its namespace: the pod appears on a node from which the subscriber still holds it,
      nothing will look at the namespace, and the subscriber does not have it. */
  lemma NamespaceHidden(s: Sys, pod: Key, p: PodObj, u: Uid)
    requires Pod in s.coll && Namespace in s.coll && Served(s, Namespace, pod, NsKey(pod), u)
    ensures Hides(s, ChangePod(pod, Some(p)), Namespace, pod, NsKey(pod), u) <==>
            && p.node != "" && Convergence.Where(s.cluster.pods, pod) != p.node
            && u in HoldersAt(s.coll[Pod].cache, pod) && u in Subscriber.At(s.coll[Namespace].registry, p.node)
            && (Namespace, NsKey(pod)) in s.cluster.objects
            && !Provided(Namespace, s.cluster.(pods := s.cluster.pods[pod := p]), s.coll[Pod], s.coll[Namespace], s.triggers,
                         pod, NsKey(pod), u)
  {
    var cl' := s.cluster.(pods := s.cluster.pods[pod := p]);
    NamespaceConcerns(s.cluster, pod, NsKey(pod));
    NamespaceConcerns(cl', pod, NsKey(pod));
    if Convergence.Where(s.cluster.pods, pod) == p.node && p.node != "" {
      SamePlace(s.cluster, cl', s.coll[Pod], s.coll[Namespace], s.triggers, pod, u);
    }
  }

  lemma SamePlace(cl: Cluster, cl': Cluster, pods: Collector, own: Collector, triggers: set<(Kind, Key)>, pod: Key, u: Uid)
    requires Convergence.Where(cl'.pods, pod) == Convergence.Where(cl.pods, pod)
    ensures Provided(Namespace, cl, pods, own, triggers, pod, NsKey(pod), u) ==>
              Provided(Namespace, cl', pods, own, triggers, pod, NsKey(pod), u)
  {
  }
}
