/**
 The silent drop: a pod reconcile that finds nobody registered for the pod's node forgets the cached holders without an
 event. That loses nobody as long as a pod stays on its node while it is cached.
 */
module Stranding {
  import opened Types
  import opened Relations
  import opened CollectorSteps
  import opened System
  import Delivery
  import Replicas
  import Streams
  import Subscriptions
  import Theorems

  predicate CachedAt(cache: map<Key, Slot>, key: Key, node: Node) {
    key in cache ==> cache[key].node == node
  }

  predicate RunsAt(pods: map<Key, PodObj>, key: Key, node: Node) {
    key in pods ==> pods[key].node == node
  }

  /** A pod stays on its node while it is cached, and between the read and the commit of the reconcile that caches it. */
  predicate Pinned(s: Sys, st: SysStep) {
    Pod in s.coll ==>
      var c := s.coll[Pod];
      && (st.ChangePod? && st.pod.Some? ==> CachedAt(c.cache, st.key, st.pod.value.node))
      && (st == Local(Pod, Commit) && c.worker.Decided? && c.worker.what.Send? ==>
            RunsAt(s.cluster.pods, c.worker.key, c.worker.what.node))
  }

  ghost predicate PinnedRun(states: seq<Sys>, steps: seq<SysStep>) {
    |states| == |steps| + 1 && forall i | 0 <= i < |steps| :: Pinned(states[i], steps[i])
  }

  ghost predicate CacheFits(pods: map<Key, PodObj>, cache: map<Key, Slot>) {
    forall key | key in cache :: RunsAt(pods, key, cache[key].node)
  }

  predicate WorkerFits(cache: map<Key, Slot>, w: Worker) {
    match w
    case GotPod(key, pod) => CachedAt(cache, key, pod.node)
    case Decided(key, what) => what.NoSubscribers? ==> CachedAt(cache, key, what.node)
    case _ => true
  }

  ghost predicate Fits(pods: map<Key, PodObj>, c: Collector) {
    CacheFits(pods, c.cache) && WorkerFits(c.cache, c.worker) && Stranded(c) == {}
  }

  lemma CommitFits(h: Hasher, pods: map<Key, PodObj>, c: Collector)
    requires c.worker.Decided? && Subscriptions.CollectorOk(h, Pod, c) && Fits(pods, c)
    requires c.worker.what.Send? ==> RunsAt(pods, c.worker.key, c.worker.what.node)
    ensures Fits(pods, Committed(h, Pod, c))
  {
    Replicas.CommitStrands(h, Pod, c);
    assert Strands(c) == {} && ToldAgain(c) == {};
  }

  lemma StepFits(h: Hasher, cl: Cluster, c: Collector, st: Step)
    requires Enabled(Pod, cl, c, st) && Subscriptions.CollectorOk(h, Pod, c) && Fits(cl.pods, c)
    requires st.Commit? && c.worker.what.Send? ==> RunsAt(cl.pods, c.worker.key, c.worker.what.node)
    ensures Fits(cl.pods, Do(h, Pod, cl, c, st))
  {
    if st.Commit? {
      CommitFits(h, cl.pods, c);
    } else if !st.WriteRegistry? {
      Framed(h, Pod, cl, c, st);
      WorkerStaysFit(cl, c, st);
    }
  }

  lemma WorkerStaysFit(cl: Cluster, c: Collector, st: Step)
    requires Enabled(Pod, cl, c, st) && CacheFits(cl.pods, c.cache) && WorkerFits(c.cache, c.worker)
    ensures Works(st) ==> WorkerFits(c.cache, Work(Pod, cl, c, st))
  {
  }

  lemma ChangeFits(pods: map<Key, PodObj>, c: Collector, key: Key, now: Option<PodObj>, pending: set<Key>)
    requires now.Some? ==> CachedAt(c.cache, key, now.value.node)
    requires Fits(pods, c)
    ensures Fits(Put(pods, key, now), c.(pending := pending))
  {
  }

  ghost predicate InvPinned(s: Sys) {
    Pod in s.coll && Fits(s.cluster.pods, s.coll[Pod])
  }

  lemma PinnedKept(h: Hasher, s: Sys, st: SysStep)
    requires Allowed(s, st) && Pinned(s, st) && InvPinned(s) && Subscriptions.CollectorOk(h, Pod, s.coll[Pod])
    ensures InvPinned(Next(h, s, st))
  {
    if LocalPart(s, st, Pod).Some? {
      LocalEffect(h, s, st, Pod);
      StepFits(h, s.cluster, s.coll[Pod], LocalPart(s, st, Pod).value);
    } else {
      OtherEffect(h, s, st, Pod);
      ClusterEffect(h, s, st);
      if st.ChangePod? {
        ChangeFits(s.cluster.pods, s.coll[Pod], st.key, st.pod, Next(h, s, st).coll[Pod].pending);
      }
    }
  }

  lemma {:induction false} PinnedInRun(h: Hasher, states: seq<Sys>, steps: seq<SysStep>, i: nat)
    requires IsRun(h, states, steps) && PinnedRun(states, steps) && i < |states|
    ensures InvPinned(states[i])
  {
    if i > 0 {
      PinnedInRun(h, states, steps, i - 1);
      Theorems.CollectorInRun(h, states, steps, i - 1, Pod);
      PinnedKept(h, states[i - 1], steps[i - 1]);
    }
  }

  /** The silent drop is safe over whole runs: while pods stay where they are cached, nobody is ever stranded, so
      every subscriber's stream is legal and its replica right for every key of every collector. */
  lemma NobodyStranded(h: Hasher, states: seq<Sys>, steps: seq<SysStep>, i: nat, kind: Kind)
    requires IsRun(h, states, steps) && PinnedRun(states, steps) && i < |states| && Collected(kind)
    ensures kind in states[i].coll && Stranded(states[i].coll[kind]) == {}
  {
    if kind.Pod? {
      PinnedInRun(h, states, steps, i);
    } else {
      Theorems.OwnersNeverStrand(h, states, steps, i, kind);
    }
  }

  lemma PinnedStreamLegal(h: Hasher, states: seq<Sys>, steps: seq<SysStep>, i: nat, kind: Kind, key: Key, u: Uid)
    requires IsRun(h, states, steps) && PinnedRun(states, steps) && i < |states| && Collected(kind)
    ensures Streams.Alternates(Theorems.Inbox(Delivery.To(states[i].received, u), kind, key))
  {
    NobodyStranded(h, states, steps, i, kind);
    Theorems.ReceivedStreamLegal(h, states, steps, i, kind, key, u);
  }

  lemma PinnedReplica(h: Hasher, states: seq<Sys>, steps: seq<SysStep>, i: nat, kind: Kind, key: Key, u: Uid)
    requires IsRun(h, states, steps) && PinnedRun(states, steps) && i < |states| && Collected(kind)
    requires var s := states[i]; Theorems.AllSent(s) && u in s.conns && u !in s.failing
    ensures kind in states[i].coll
            && Replicas.Agrees(h, states[i].coll[kind], key, u,
                               Streams.Replay(Theorems.Inbox(Delivery.To(states[i].received, u), kind, key)).held)
  {
    NobodyStranded(h, states, steps, i, kind);
    Theorems.ReplicaCorrect(h, states, steps, i, kind, key, u);
  }
}
