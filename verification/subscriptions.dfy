/**
 Invariants that tie the Watch handlers to the collectors and to the broker's connections: a collector knows a UID
 only between the handler's two notifications, and a connection is stored before the first of them.
 */
module Subscriptions {
  import opened Types
  import opened CollectorSteps
  import opened System
  import Convergence
  import Replicas
  import Relations

  ghost predicate CollectorOk(h: Hasher, kind: Kind, c: Collector) {
    InvRegistry(c) && InvHolders(h, kind, c) && Replicas.InvReplicas(h, c)
  }

  ghost predicate InvCollectors(h: Hasher, s: Sys) {
    && (forall kind :: kind in s.coll <==> Collected(kind))
    && (forall kind | kind in s.coll :: CollectorOk(h, kind, s.coll[kind]))
    && Convergence.Converging(s.cluster.pods, s.coll[Pod])
  }

  /** The handler has delivered its Subscribed message to the collector. */
  predicate Told(p: Phase, kind: Kind) {
    match p
    case New => false
    case Subscribing(todo) => kind !in todo
    case _ => true
  }

  /** The handler has delivered its Unsubscribed message to the collector. */
  predicate Untold(p: Phase, kind: Kind) {
    match p
    case Unsubscribing(todo) => kind !in todo
    case Finished => true
    case _ => false
  }

  predicate Hearing(c: Collector, sub: bool, u: Uid) {
    c.disp.Received? && c.disp.sub == sub && c.disp.uid == u
  }

  /** The collector knows the UID, or is about to. */
  predicate Knows(c: Collector, u: Uid) {
    u in c.home || Hearing(c, true, u)
  }

  ghost predicate WatchOk(s: Sys, kind: Kind, u: Uid)
    requires kind in s.coll
  {
    var c := s.coll[kind];
    && (Knows(c, u) <==> u in s.watch && kind in s.watch[u].kinds && Told(s.watch[u].phase, kind))
    && (u in c.gone || Hearing(c, false, u) ==> u in s.watch && Untold(s.watch[u].phase, kind))
    && (u in c.home && u in s.watch ==> c.home[u] == s.watch[u].node)
    && (Hearing(c, true, u) && u in s.watch ==> c.disp.node == s.watch[u].node)
  }

  predicate Connected(p: Phase) {
    p.Subscribing? || p.Watching? || p.Closing?
  }

  ghost predicate InvWatches(s: Sys) {
    && (forall kind, u | kind in s.coll :: WatchOk(s, kind, u))
    && (forall u :: ConnOk(s, u))
  }

  /** A collector is told about a UID once when it subscribes and once when it leaves. */
  lemma NotifyOrderly(s: Sys, u: Uid, kind: Kind)
    requires Allowed(s, Notify(u, kind)) && InvWatches(s)
    ensures Orderly(s.coll[kind], Receive(s.watch[u].phase.Subscribing?, u, s.watch[u].node))
  {
    assert WatchOk(s, kind, u) && ConnOk(s, u);
    assert Todo(s, u, kind);
  }

  lemma LocalOrderly(s: Sys, st: SysStep, kind: Kind)
    requires Allowed(s, st) && InvWatches(s) && kind in s.coll && LocalPart(s, st, kind).Some?
    ensures Orderly(s.coll[kind], LocalPart(s, st, kind).value)
  {
    if st.Notify? {
      NotifyOrderly(s, st.uid, kind);
    }
  }

  lemma CollectorKept(h: Hasher, s: Sys, st: SysStep, kind: Kind)
    requires Allowed(s, st) && InvCollectors(h, s) && InvWatches(s) && kind in s.coll
    ensures kind in Next(h, s, st).coll && CollectorOk(h, kind, Next(h, s, st).coll[kind])
  {
    var c, c' := s.coll[kind], Next(h, s, st).coll[kind];
    if LocalPart(s, st, kind).Some? {
      LocalOrderly(s, st, kind);
      LocalEffect(h, s, st, kind);
      var lst := LocalPart(s, st, kind).value;
      RegistryKept(h, kind, s.cluster, c, lst);
      HoldersKept(h, kind, s.cluster, c, lst);
      Replicas.ReplicasKept(h, kind, s.cluster, c, lst);
    } else {
      OtherEffect(h, s, st, kind);
      QueueIrrelevant(h, kind, c, c'.pending);
    }
  }

  lemma QueueIrrelevant(h: Hasher, kind: Kind, c: Collector, pending: set<Key>)
    requires CollectorOk(h, kind, c)
    ensures CollectorOk(h, kind, c.(pending := pending))
  {
    var c' := c.(pending := pending);
    SameHolders(h, kind, c, c');
    forall key, u
      ensures Replicas.ReplicaOk(h, c', key, u)
    {
      assert Replicas.ReplicaOk(h, c, key, u);
    }
  }

  lemma PodsConverge(h: Hasher, s: Sys, st: SysStep)
    requires Allowed(s, st) && Pod in s.coll && WorkerOk(Pod, s.coll[Pod], s.coll[Pod].worker)
    requires Convergence.Converging(s.cluster.pods, s.coll[Pod])
    ensures Pod in Next(h, s, st).coll && Convergence.Converging(Next(h, s, st).cluster.pods, Next(h, s, st).coll[Pod])
  {
    var c := s.coll[Pod];
    if LocalPart(s, st, Pod).Some? {
      LocalEffect(h, s, st, Pod);
      Convergence.StepConverges(h, s.cluster, c, LocalPart(s, st, Pod).value);
    } else {
      OtherEffect(h, s, st, Pod);
      if st.ChangePod? {
        Convergence.ChangeConverges(s.cluster.pods, c, st.key, st.pod);
      } else {
        PodsStay(h, s, st);
        MoreQueued(s.cluster.pods, c, QueuedPart(s, st, Pod));
      }
    }
  }

  lemma PodsStay(h: Hasher, s: Sys, st: SysStep)
    requires Allowed(s, st) && !st.ChangePod?
    ensures Next(h, s, st).cluster.pods == s.cluster.pods
  {
  }

  lemma MoreQueued(pods: map<Key, Relations.PodObj>, c: Collector, keys: set<Key>)
    requires Convergence.Converging(pods, c)
    ensures Convergence.Converging(pods, c.(pending := c.pending + keys))
  {
    var c' := c.(pending := c.pending + keys);
    if !c.lossy {
      forall key
        ensures Convergence.Settling(pods, c', key)
      {
        assert Convergence.Settling(pods, c, key);
      }
    }
  }

  lemma CollectorsKept(h: Hasher, s: Sys, st: SysStep)
    requires Allowed(s, st) && InvCollectors(h, s) && InvWatches(s)
    ensures InvCollectors(h, Next(h, s, st))
  {
    var s' := Next(h, s, st);
    forall kind
      ensures kind in s'.coll <==> kind in s.coll
    {
      KindsKept(h, s, st);
    }
    forall kind | kind in s'.coll
      ensures CollectorOk(h, kind, s'.coll[kind])
    {
      CollectorKept(h, s, st, kind);
    }
    assert CollectorOk(h, Pod, s.coll[Pod]);
    PodsConverge(h, s, st);
  }

  lemma KindsKept(h: Hasher, s: Sys, st: SysStep)
    requires Allowed(s, st)
    ensures Next(h, s, st).coll.Keys == s.coll.Keys
  {
  }

  // ----- Watch handlers -----

  /** Who a collector knows and who it saw leave is the same in both states, up to a message being written down. */
  ghost predicate SameKnowledge(c: Collector, c': Collector, u: Uid) {
    && (Knows(c', u) <==> Knows(c, u))
    && (u in c'.gone || Hearing(c', false, u) <==> u in c.gone || Hearing(c, false, u))
    && (u in c'.home ==> u in c.home || Hearing(c, true, u))
    && (u in c'.home ==> c'.home[u] == if u in c.home then c.home[u] else c.disp.node)
    && (Hearing(c', true, u) ==> Hearing(c, true, u) && c'.disp.node == c.disp.node)
  }

  /** The handler of a UID may move, but not across its notifications of this collector. */
  ghost predicate SameHandler(s: Sys, s': Sys, kind: Kind, u: Uid) {
    && (u in s.watch ==> u in s'.watch && s'.watch[u].kinds == s.watch[u].kinds && s'.watch[u].node == s.watch[u].node
                         && (kind in s.watch[u].kinds ==>
                               && Told(s'.watch[u].phase, kind) == Told(s.watch[u].phase, kind)
                               && Untold(s'.watch[u].phase, kind) == Untold(s.watch[u].phase, kind)))
    && (u !in s.watch && u in s'.watch ==> s'.watch[u].phase == New)
  }

  lemma KnowledgeKept(h: Hasher, kind: Kind, cl: Relations.Cluster, c: Collector, st: Step, u: Uid)
    requires Enabled(kind, cl, c, st) && !st.Receive? && InvRegistry(c)
    ensures SameKnowledge(c, Do(h, kind, cl, c, st), u)
  {
    if st.WriteRegistry? {
      WriteKnowledge(c, u);
    } else if !st.Commit? {
      Framed(h, kind, cl, c, st);
    }
  }

  lemma WriteKnowledge(c: Collector, u: Uid)
    requires c.disp.Received? && InvRegistry(c)
    ensures SameKnowledge(c, RegistryWrite(c), u)
  {
  }

  lemma HandlerMoves(h: Hasher, s: Sys, st: SysStep, kind: Kind, u: Uid)
    requires Allowed(s, st) && kind in s.coll && !(st.Notify? && st.kind == kind)
    ensures SameHandler(s, Next(h, s, st), kind, u)
  {
    WatchEffect(h, s, st);
    if Moves(st) && st.uid == u && kind in s.watch[u].kinds {
      PhaseMoves(s.watch[u], st, kind);
    }
  }

  lemma PhaseMoves(w: Watch, st: SysStep, kind: Kind)
    requires MayMove(w, st) && kind in w.kinds && !((st.Notify? || st.Skip?) && st.kind == kind)
    ensures Told(Moved(w, st), kind) == Told(w.phase, kind) && Untold(Moved(w, st), kind) == Untold(w.phase, kind)
  {
  }

  lemma WatchFollows(s: Sys, s': Sys, kind: Kind, u: Uid)
    requires kind in s.coll && kind in s'.coll && WatchOk(s, kind, u)
    requires SameKnowledge(s.coll[kind], s'.coll[kind], u) && SameHandler(s, s', kind, u)
    requires u in s.coll[kind].gone ==> u in s.coll[kind].home
    requires Hearing(s.coll[kind], false, u) ==> u in s.coll[kind].home
    ensures WatchOk(s', kind, u)
  {
  }

  lemma KnowledgeFollows(h: Hasher, s: Sys, st: SysStep, kind: Kind, u: Uid)
    requires Allowed(s, st) && kind in s.coll && InvRegistry(s.coll[kind]) && !(st.Notify? && st.kind == kind)
    ensures kind in Next(h, s, st).coll && SameKnowledge(s.coll[kind], Next(h, s, st).coll[kind], u)
  {
    if LocalPart(s, st, kind).Some? {
      LocalEffect(h, s, st, kind);
      KnowledgeKept(h, kind, s.cluster, s.coll[kind], LocalPart(s, st, kind).value, u);
    } else {
      OtherEffect(h, s, st, kind);
    }
  }

  lemma WatchKept(h: Hasher, s: Sys, st: SysStep, kind: Kind, u: Uid)
    requires Allowed(s, st) && InvWatches(s) && kind in s.coll && InvRegistry(s.coll[kind])
    ensures kind in Next(h, s, st).coll && WatchOk(Next(h, s, st), kind, u)
  {
    assert WatchOk(s, kind, u);
    if st.Notify? && st.kind == kind {
      NotifyKeepsWatch(h, s, st.uid, kind, u);
    } else {
      HandlerMoves(h, s, st, kind, u);
      KnowledgeFollows(h, s, st, kind, u);
      WatchFollows(s, Next(h, s, st), kind, u);
    }
  }

  lemma NotifyKeepsWatch(h: Hasher, s: Sys, uid: Uid, kind: Kind, u: Uid)
    requires Allowed(s, Notify(uid, kind)) && InvWatches(s)
    ensures WatchOk(Next(h, s, Notify(uid, kind)), kind, u)
  {
    assert WatchOk(s, kind, u) && ConnOk(s, uid);
    assert Todo(s, uid, kind);
  }

  lemma WatchesKept(h: Hasher, s: Sys, st: SysStep)
    requires Allowed(s, st) && InvCollectors(h, s) && InvWatches(s)
    ensures InvWatches(Next(h, s, st))
  {
    var s' := Next(h, s, st);
    KindsKept(h, s, st);
    forall kind, u | kind in s'.coll
      ensures WatchOk(s', kind, u)
    {
      assert CollectorOk(h, kind, s.coll[kind]);
      WatchKept(h, s, st, kind, u);
    }
    forall u
      ensures ConnOk(s', u)
    {
      assert ConnOk(s, u);
      ConnKept(h, s, st, u);
    }
  }

  ghost predicate ConnOk(s: Sys, u: Uid) {
    && (u in s.conns <==> u in s.watch && Connected(s.watch[u].phase))
    && (forall kind | Todo(s, u, kind) :: kind in s.watch[u].kinds)
  }

  lemma ConnKept(h: Hasher, s: Sys, st: SysStep, u: Uid)
    requires Allowed(s, st) && ConnOk(s, u)
    ensures ConnOk(Next(h, s, st), u)
  {
    WatchEffect(h, s, st);
    ConnsEffect(h, s, st);
  }
}
