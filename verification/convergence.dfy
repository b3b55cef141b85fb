/**
 Pod convergence: as long as no list of the dispatcher failed, every pod key whose cached holders are out of date is
 still queued, still to be enqueued by the dispatch under way, or in the hands of the worker with fresh readings.
 */
module Convergence {
  import opened Types
  import opened Relations
  import opened CollectorSteps
  import Subscriber

  /** The node of a pod; empty when the pod is not scheduled or not there. */
  function Where(pods: map<Key, PodObj>, key: Key): Node {
    if key in pods then pods[key].node else ""
  }

  /** The cache is what a computation from scratch would give. */
  ghost predicate UpToDate(pods: map<Key, PodObj>, s: Collector, key: Key) {
    if key in pods then
      HoldersAt(s.cache, key) == Subscriber.At(s.registry, pods[key].node) && (key in s.cache <==> pods[key].node in s.registry)
    else key !in s.cache
  }

  /** The informers say nothing about unscheduled pods, so an entry cached without a node may be left. */
  ghost predicate Tracked(pods: map<Key, PodObj>, s: Collector, key: Key) {
    if Where(pods, key) == "" then key in s.cache ==> s.cache[key].node == "" else UpToDate(pods, s, key)
  }

  /** The dispatch under way will enqueue the key. */
  ghost predicate Covered(pods: map<Key, PodObj>, s: Collector, key: Key) {
    match s.disp
    case Written(node) => node != "" && Where(pods, key) == node
    case Sending(listed, keys) => key in keys || exists i | 0 <= i < |listed| :: listed[i].0 == key
    case _ => false
  }

  predicate Reading(w: Worker, key: Key) {
    (w.Taken? || w.GotPod? || w.PodSubs? || w.Decided?) && w.key == key
  }

  /** What the worker read of its key is still so. */
  ghost predicate Current(pods: map<Key, PodObj>, s: Collector, w: Worker, key: Key) {
    var n := Where(pods, key);
    match w
    case GotPod(_, pod) => pod.node == n
    case PodSubs(_, pod, subs) => pod.node == n && (n != "" ==> n in s.registry && subs == s.registry[n])
    case Decided(_, what) =>
      (match what
       case Absent => n == ""
       case NoSubscribers(m) => n == "" || (m == n && n !in s.registry)
       case Send(_, m, subs) => m == n && (n != "" ==> n in s.registry && subs == s.registry[n]))
    case _ => true
  }

  ghost predicate Settling(pods: map<Key, PodObj>, s: Collector, key: Key) {
    key in s.pending || Covered(pods, s, key)
    || if Reading(s.worker, key) then Current(pods, s, s.worker, key) else Tracked(pods, s, key)
  }

  ghost predicate Converging(pods: map<Key, PodObj>, s: Collector) {
    !s.lossy ==> forall key :: Settling(pods, s, key)
  }

  lemma StepConverges(h: Hasher, cl: Cluster, s: Collector, st: Step)
    requires Enabled(Pod, cl, s, st) && WorkerOk(Pod, s, s.worker) && Converging(cl.pods, s)
    ensures Converging(cl.pods, Do(h, Pod, cl, s, st))
  {
    var s' := Do(h, Pod, cl, s, st);
    if !s'.lossy {
      forall key
        ensures Settling(cl.pods, s', key)
      {
        assert Settling(cl.pods, s, key);
        StepSettles(h, cl, s, st, key);
      }
    }
  }

  lemma StepSettles(h: Hasher, cl: Cluster, s: Collector, st: Step, key: Key)
    requires Enabled(Pod, cl, s, st) && WorkerOk(Pod, s, s.worker) && Settling(cl.pods, s, key)
    requires !Do(h, Pod, cl, s, st).lossy
    ensures Settling(cl.pods, Do(h, Pod, cl, s, st), key)
  {
    if st.WriteRegistry? {
      WriteSettles(cl.pods, s, key);
    } else if st.Commit? {
      CommitSettles(h, cl.pods, s, key);
    } else if Dispatches(st) {
      DispatchSettles(cl, s, st, key);
    } else if Queues(st) {
      QueueSettles(cl.pods, s, st, key);
    } else {
      WorkSettles(cl, s, st, key);
    }
  }

  lemma WriteSettles(pods: map<Key, PodObj>, s: Collector, key: Key)
    requires s.disp.Received? && Settling(pods, s, key)
    ensures Settling(pods, RegistryWrite(s), key)
  {
    var n := Where(pods, key);
    if n != "" && n != s.disp.node {
      assert Subscriber.At(RegistryWrite(s).registry, n) == Subscriber.At(s.registry, n);
    }
  }

  lemma CommitSettles(h: Hasher, pods: map<Key, PodObj>, s: Collector, key: Key)
    requires s.worker.Decided? && Settling(pods, s, key)
    ensures Settling(pods, Committed(h, Pod, s), key)
  {
  }

  lemma QueueSettles(pods: map<Key, PodObj>, s: Collector, st: Step, key: Key)
    requires Queues(st) && (st.Take? ==> s.worker.Idle?) && (st.Fail? ==> !s.worker.Idle?) && Settling(pods, s, key)
    ensures Settling(pods, Requeued(s, st), key)
  {
  }

  lemma WorkSettles(cl: Cluster, s: Collector, st: Step, key: Key)
    requires Enabled(Pod, cl, s, st) && Works(st) && WorkerOk(Pod, s, s.worker) && Settling(cl.pods, s, key)
    ensures Settling(cl.pods, s.(worker := Work(Pod, cl, s, st)), key)
  {
  }

  lemma DispatchSettles(cl: Cluster, s: Collector, st: Step, key: Key)
    requires Enabled(Pod, cl, s, st) && Dispatches(st) && Settling(cl.pods, s, key) && !Dispatched(s, st).lossy
    ensures Settling(cl.pods, Dispatched(s, st), key)
  {
    if Covered(cl.pods, s, key) {
      CoverKept(cl, s, st, key);
    }
  }

  lemma CoverKept(cl: Cluster, s: Collector, st: Step, key: Key)
    requires Enabled(Pod, cl, s, st) && Dispatches(st) && Covered(cl.pods, s, key) && !Dispatched(s, st).lossy
    ensures var s' := Dispatched(s, st); Covered(cl.pods, s', key) || key in s'.pending
  {
    var s' := Dispatched(s, st);
    if st.ListNode? {
      assert (key, cl.pods[key]) in st.listed;
      var i :| 0 <= i < |st.listed| && st.listed[i] == (key, cl.pods[key]);
      assert s'.disp.pods[i].0 == key;
    } else if st.NextPod? {
      var listed := s.disp.pods;
      var i :| 0 <= i < |listed| && listed[i].0 == key;
      if i == 0 {
        assert key in Elements(st.batch);
      } else {
        assert s'.disp.pods[i - 1].0 == key;
      }
    } else if st.SendKey? {
      assert s.disp.keys == [s.disp.keys[0]] + s.disp.keys[1..];
    }
  }

  // ----- The cluster moves -----

  /** An informer event passes the filter when the pod it carries is scheduled. */
  predicate Announced(was: Option<PodObj>, now: Option<PodObj>) {
    if now.Some? then now.value.node != "" else was.Some? && was.value.node != ""
  }

  /** A scheduled pod is never unscheduled by an update. */
  predicate Possible(was: Option<PodObj>, now: Option<PodObj>) {
    was.Some? && now.Some? && now.value.node == "" ==> was.value.node == ""
  }

  lemma ChangeConverges(pods: map<Key, PodObj>, s: Collector, at: Key, now: Option<PodObj>)
    requires Possible(ValueAt(pods, at), now) && Converging(pods, s)
    ensures Converging(Put(pods, at, now),
                       s.(pending := s.pending + if Announced(ValueAt(pods, at), now) then {at} else {}))
  {
    var pods' := Put(pods, at, now);
    var s' := s.(pending := s.pending + if Announced(ValueAt(pods, at), now) then {at} else {});
    if !s.lossy {
      forall key
        ensures Settling(pods', s', key)
      {
        assert Settling(pods, s, key);
        if key == at && !Announced(ValueAt(pods, at), now) {
          assert Where(pods, at) == Where(pods', at) == "";
        } else if key != at {
          assert Where(pods', key) == Where(pods, key);
        }
      }
    }
  }

  /** Nothing queued, nothing being read, no dispatch past its registry write. */
  ghost predicate Drained(s: Collector) {
    s.pending == {} && (s.worker.Idle? || s.worker.Pushing?) && (s.disp.Waiting? || s.disp.Received?)
  }

  /** The same for one key: not queued, not being read, and not about to be dispatched. */
  ghost predicate AtRest(pods: map<Key, PodObj>, s: Collector, key: Key) {
    key !in s.pending && !Covered(pods, s, key) && !Reading(s.worker, key)
  }

  lemma DrainedRests(pods: map<Key, PodObj>, s: Collector, key: Key)
    requires Drained(s)
    ensures AtRest(pods, s, key)
  {
  }

  /** Nobody ever registered without naming a node. */
  ghost predicate NodesNamed(s: Collector) {
    forall u | u in s.home :: s.home[u] != ""
  }

  /** At rest, a key of a scheduled pod is cached as a computation from scratch gives it; an entry for a pod that is
      not scheduled, or gone, has only holders that named no node; and if there are none of those, every key at rest is
      cached as a computation from scratch gives it. */
  lemma RestingUpToDate(h: Hasher, pods: map<Key, PodObj>, s: Collector, key: Key)
    requires InvRegistry(s) && InvHolders(h, Pod, s)
    requires Converging(pods, s) && !s.lossy && AtRest(pods, s, key)
    ensures Where(pods, key) != "" ==> UpToDate(pods, s, key)
    ensures Where(pods, key) == "" && key in s.cache ==>
              s.cache[key].entry.subs != {} && AllAt(s, s.cache[key].entry.subs, "")
    ensures NodesNamed(s) ==> UpToDate(pods, s, key)
  {
    assert Settling(pods, s, key);
    if "" in s.registry {
      RegisteredSomebody(s, "");
    }
    if key in s.cache {
      CachedForSomebody(h, s, key);
    }
  }

  lemma RegisteredSomebody(s: Collector, node: Node)
    requires InvRegistry(s) && node in s.registry
    ensures exists u :: u in s.home && s.home[u] == node
  {
    var u :| u in s.registry[node];
    assert u in s.home && s.home[u] == node;
  }

  lemma CachedForSomebody(h: Hasher, s: Collector, key: Key)
    requires InvHolders(h, Pod, s) && key in s.cache
    ensures var slot := s.cache[key];
            slot.entry.subs != {} && AllAt(s, slot.entry.subs, slot.node) && exists u :: u in s.home && s.home[u] == slot.node
  {
    var slot := s.cache[key];
    assert SlotOk(h, Pod, s, slot);
    var u :| u in slot.entry.subs;
    assert u in s.home && s.home[u] == slot.node;
  }
}
