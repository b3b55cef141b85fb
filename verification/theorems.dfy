/** What holds in every state of every run, whatever the interleaving. */
module Theorems {
  import opened Types
  import opened Streams
  import opened CollectorSteps
  import opened System
  import opened Subscriptions
  import opened Delivery
  import Convergence
  import Engine
  import Owners
  import Relations
  import Replicas
  import Subscriber

  ghost predicate Inv(h: Hasher, s: Sys) {
    InvCollectors(h, s) && InvWatches(s) && InvQueue(s) && InvBroker(s)
  }

  lemma InitInv(h: Hasher, s: Sys)
    requires Init(s)
    ensures Inv(h, s)
  {
    FreshOk(h, s.cluster.pods);
    forall kind | kind in s.coll
      ensures CollectorOk(h, kind, s.coll[kind])
    {
      FreshCollectorOk(h, kind);
    }
    assert s.pushed == s.popped + s.chan;
  }

  lemma FreshCollectorOk(h: Hasher, kind: Kind)
    ensures CollectorOk(h, kind, FRESH)
  {
  }

  lemma FreshOk(h: Hasher, pods: map<Key, Relations.PodObj>)
    requires pods == map[]
    ensures Convergence.Converging(pods, FRESH)
  {
  }

  lemma StepInv(h: Hasher, s: Sys, st: SysStep)
    requires Allowed(s, st) && Inv(h, s)
    ensures Inv(h, Next(h, s, st))
  {
    CollectorsKept(h, s, st);
    WatchesKept(h, s, st);
    QueueKept(h, s, st);
    BrokerKept(h, s, st);
  }

  lemma {:induction false} RunInv(h: Hasher, states: seq<Sys>, steps: seq<SysStep>, i: nat)
    requires IsRun(h, states, steps) && i < |states|
    ensures Inv(h, states[i])
  {
    if i == 0 {
      InitInv(h, states[0]);
    } else {
      RunInv(h, states, steps, i - 1);
      StepInv(h, states[i - 1], steps[i - 1]);
    }
  }

  // ----- Streams end to end -----

  /** The messages about one key of one collector, among those sent to a subscriber. */
  function Inbox(sends: seq<Tagged>, kind: Kind, key: Key): seq<Message> {
    if sends == [] then []
    else
      var n := |sends| - 1;
      Inbox(sends[..n], kind, key)
      + (if sends[n].kind == kind && sends[n].logged.key == key then [sends[n].logged.ev.msg] else [])
  }

  lemma {:induction false} InboxStream(ts: seq<Tagged>, kind: Kind, key: Key, u: Uid)
    ensures Inbox(Naming(ts, u), kind, key) == StreamOf(Of(ts, kind), key, u)
  {
    if ts != [] {
      var n := |ts| - 1;
      var t := ts[n];
      InboxStream(ts[..n], kind, key, u);
      InboxNext(Naming(ts[..n], u), t, kind, key);
      StreamNext(Of(ts[..n], kind), t.logged, key, u);
      assert Naming(ts[..n], u) + [] == Naming(ts[..n], u) && Of(ts[..n], kind) + [] == Of(ts[..n], kind);
      var stream := StreamOf(Of(ts[..n], kind), key, u);
      assert stream + [] == stream;
    }
  }

  lemma InboxNext(sends: seq<Tagged>, t: Tagged, kind: Kind, key: Key)
    ensures Inbox(sends + [t], kind, key) ==
            Inbox(sends, kind, key) + (if t.kind == kind && t.logged.key == key then [t.logged.ev.msg] else [])
  {
    assert (sends + [t])[..|sends|] == sends;
  }

  lemma StreamNext(log: seq<Logged>, l: Logged, key: Key, u: Uid)
    ensures StreamOf(log + [l], key, u) ==
            StreamOf(log, key, u) + (if l.key == key && u in l.ev.subs then [l.ev.msg] else [])
  {
    assert (log + [l])[..|log|] == log;
  }

  lemma {:induction false} InboxPrefix(a: seq<Tagged>, b: seq<Tagged>, kind: Kind, key: Key)
    requires a <= b
    ensures Inbox(a, kind, key) <= Inbox(b, kind, key)
    decreases |b|
  {
    if a == b {
    } else {
      InboxPrefix(a, b[..|b| - 1], kind, key);
    }
  }

  lemma {:induction false} NamingPrefix(a: seq<Tagged>, b: seq<Tagged>, u: Uid)
    requires a <= b
    ensures Naming(a, u) <= Naming(b, u)
    decreases |b|
  {
    if a == b {
    } else {
      NamingPrefix(a, b[..|b| - 1], u);
    }
  }

  lemma {:induction false} StreamPrefix(a: seq<Logged>, b: seq<Logged>, key: Key, u: Uid)
    requires a <= b
    ensures StreamOf(a, key, u) <= StreamOf(b, key, u)
    decreases |b|
  {
    if a == b {
    } else {
      StreamPrefix(a, b[..|b| - 1], key, u);
    }
  }

  lemma AlternatesPrefix(a: seq<Message>, b: seq<Message>)
    requires a <= b && Alternates(b)
    ensures Alternates(a)
  {
    forall i | 0 <= i < |a|
      ensures Legal(a, i)
    {
      assert Legal(b, i);
      assert a[i] == b[i];
      if i > 0 {
        assert a[i - 1] == b[i - 1];
      }
    }
  }

  /** What a subscriber received is a prefix of what was generated for it. */
  lemma ReceivedIsPrefix(h: Hasher, s: Sys, kind: Kind, key: Key, u: Uid)
    requires Inv(h, s) && kind in s.coll
    ensures Inbox(To(s.received, u), kind, key) <= StreamOf(s.coll[kind].log, key, u)
  {
    assert ReceivedOk(s, u) && AttemptsOk(s, u) && LogOk(s.pushed, kind, s.coll[kind]);
    InboxPrefix(To(s.received, u), Naming(s.popped, u), kind, key);
    NamingPrefix(s.popped, s.pushed, u);
    InboxPrefix(Naming(s.popped, u), Naming(s.pushed, u), kind, key);
    InboxStream(s.pushed, kind, key, u);
    StreamPrefix(Of(s.pushed, kind), s.coll[kind].log, key, u);
  }

  /** In every run, what a subscriber receives about one key of one collector is a prefix of
      (Create Update* Delete)*, unless it was sent a second Create after a silent drop. */
  lemma ReceivedStreamLegal(h: Hasher, states: seq<Sys>, steps: seq<SysStep>, i: nat, kind: Kind, key: Key, u: Uid)
    requires IsRun(h, states, steps) && i < |states| && kind in states[i].coll
    requires (key, u) !in states[i].coll[kind].relapsed
    ensures Alternates(Inbox(To(states[i].received, u), kind, key))
  {
    RunInv(h, states, steps, i);
    var s := states[i];
    ReceivedIsPrefix(h, s, kind, key, u);
    assert CollectorOk(h, kind, s.coll[kind]);
    Replicas.StreamLegal(h, s.coll[kind], key, u);
    AlternatesPrefix(Inbox(To(s.received, u), kind, key), StreamOf(s.coll[kind].log, key, u));
  }

  ghost predicate AllSent(s: Sys) {
    s.chan == [] && s.cur.None? && forall kind | kind in s.coll :: Remaining(s.coll[kind].worker) == []
  }

  lemma {:induction false} ReceivedAll(h: Hasher, s: Sys, kind: Kind, key: Key, u: Uid)
    requires Inv(h, s) && kind in s.coll && u in s.conns && u !in s.failing && AllSent(s)
    ensures Inbox(To(s.received, u), kind, key) == StreamOf(s.coll[kind].log, key, u)
  {
    assert ReceivedOk(s, u) && AttemptsOk(s, u) && LogOk(s.pushed, kind, s.coll[kind]);
    assert s.popped == s.pushed && Of(s.pushed, kind) == s.coll[kind].log;
    InboxStream(s.pushed, kind, key, u);
  }

  /** Once everything is sent that is the only exception. */
  lemma ReceivedStreamExact(h: Hasher, states: seq<Sys>, steps: seq<SysStep>, i: nat, kind: Kind, key: Key, u: Uid)
    requires IsRun(h, states, steps) && i < |states| && kind in states[i].coll
    requires var s := states[i]; AllSent(s) && u in s.conns && u !in s.failing
    ensures Alternates(Inbox(To(states[i].received, u), kind, key)) <==> (key, u) !in states[i].coll[kind].relapsed
  {
    RunInv(h, states, steps, i);
    ReceivedAll(h, states[i], kind, key, u);
    assert CollectorOk(h, kind, states[i].coll[kind]);
    Replicas.StreamLegal(h, states[i].coll[kind], key, u);
  }

  lemma ConnectedIsNotGone(h: Hasher, s: Sys, kind: Kind, u: Uid)
    requires Inv(h, s) && kind in s.coll && u in s.conns
    ensures u !in s.coll[kind].gone
  {
    assert WatchOk(s, kind, u) && ConnOk(s, u);
  }

  /** Replica correctness: once everything generated has been sent, what a connected subscriber with a working stream
      holds agrees with the cache, key by key, if and only if no silent drop stranded it there since its last Create. */
  lemma ReplicaCorrect(h: Hasher, states: seq<Sys>, steps: seq<SysStep>, i: nat, kind: Kind, key: Key, u: Uid)
    requires IsRun(h, states, steps) && i < |states| && kind in states[i].coll
    requires var s := states[i]; AllSent(s) && u in s.conns && u !in s.failing
    ensures Replicas.Agrees(h, states[i].coll[kind], key, u, Replay(Inbox(To(states[i].received, u), kind, key)).held)
            <==> (key, u) !in states[i].coll[kind].adrift
  {
    RunInv(h, states, steps, i);
    ReceivedAll(h, states[i], kind, key, u);
    assert CollectorOk(h, kind, states[i].coll[kind]);
    ConnectedIsNotGone(h, states[i], kind, u);
    Replicas.ReplicaExact(h, states[i].coll[kind], key, u);
  }

  /** With a hash that tells contents apart, the replica is the content reconciled last. */
  lemma ReplicaLatest(h: Hasher, states: seq<Sys>, steps: seq<SysStep>, i: nat, kind: Kind, key: Key, u: Uid)
    requires Engine.Injective(h)
    requires IsRun(h, states, steps) && i < |states| && kind in states[i].coll
    requires var s := states[i]; AllSent(s) && u in s.conns && u !in s.failing
    requires Replicas.Holds(states[i].coll[kind], key, u)
    ensures var held := Replay(Inbox(To(states[i].received, u), kind, key)).held;
            held.Some? && held.value.reason != Delete
            && Engine.Renders(held.value, held.value.reason, states[i].coll[kind].cache[key].seen)
  {
    RunInv(h, states, steps, i);
    ReceivedAll(h, states[i], kind, key, u);
    assert CollectorOk(h, kind, states[i].coll[kind]);
    Replicas.ReplicaContent(h, kind, states[i].coll[kind], key, u);
  }

  /** A reconcile strands someone exactly if it drops a pod that left the node it was last reconciled on, while a
      holder is still registered for that node. The owner and service collectors never do. */
  lemma StrandingExact(h: Hasher, states: seq<Sys>, steps: seq<SysStep>, i: nat, kind: Kind)
    requires IsRun(h, states, steps) && i < |steps| && steps[i] == Local(kind, Commit)
    ensures var c, c' := states[i].coll[kind], states[i + 1].coll[kind];
            var w := c.worker;
            && Stranded(c') == Stranded(c) + Strands(c)
            && (Strands(c) != {} <==>
                  && w.what.NoSubscribers? && w.key in c.cache && c.cache[w.key].node != w.what.node
                  && !(c.cache[w.key].entry.subs !! Subscriber.At(c.registry, c.cache[w.key].node)))
            && (Strands(c) != {} ==> kind.Pod?)
  {
    CommittedInRun(h, states, steps, i, kind);
    CollectorInRun(h, states, steps, i, kind);
    Replicas.CommitStrands(h, kind, states[i].coll[kind]);
  }

  lemma CommittedInRun(h: Hasher, states: seq<Sys>, steps: seq<SysStep>, i: nat, kind: Kind)
    requires IsRun(h, states, steps) && i < |steps| && steps[i] == Local(kind, Commit)
    ensures kind in states[i].coll && states[i].coll[kind].worker.Decided? && kind in states[i + 1].coll
    ensures states[i + 1].coll[kind] == Committed(h, kind, states[i].coll[kind])
  {
    LocalEffect(h, states[i], steps[i], kind);
  }

  // ----- Membership, order, loss -----

  /** Every cached holder was registered by a Watch that selected the collector's kind; no entry is without holders. */
  lemma HoldersSelected(h: Hasher, states: seq<Sys>, steps: seq<SysStep>, i: nat, kind: Kind, key: Key)
    requires IsRun(h, states, steps) && i < |states| && kind in states[i].coll && key in states[i].coll[kind].cache
    ensures var s := states[i];
            && s.coll[kind].cache[key].entry.subs != {}
            && forall u | u in s.coll[kind].cache[key].entry.subs :: u in s.watch && kind in s.watch[u].kinds
  {
    RunInv(h, states, steps, i);
    var s := states[i];
    assert CollectorOk(h, kind, s.coll[kind]);
    assert SlotOk(h, kind, s.coll[kind], s.coll[kind].cache[key]);
    forall u | u in s.coll[kind].cache[key].entry.subs
      ensures u in s.watch && kind in s.watch[u].kinds
    {
      assert WatchOk(s, kind, u);
    }
  }

  /** No event that names a subscriber meets a missing connection, unless its Watch is past the removal. */
  lemma NoLiveLoss(h: Hasher, states: seq<Sys>, steps: seq<SysStep>, i: nat, t: Tagged, u: Uid)
    requires IsRun(h, states, steps) && i < |states|
    requires t in states[i].pushed && u in t.logged.ev.subs
    ensures var s := states[i];
            u in s.watch && (u in s.conns <==> !(s.watch[u].phase.Unsubscribing? || s.watch[u].phase.Finished?))
  {
    RunInv(h, states, steps, i);
    NamedIsNotNew(h, states[i], t, u);
    assert ConnOk(states[i], u);
  }

  /** First in first out, for every subscriber and every counter. */
  lemma DeliveryExact(h: Hasher, states: seq<Sys>, steps: seq<SysStep>, i: nat, u: Uid, kind: Kind, reason: Reason)
    requires IsRun(h, states, steps) && i < |states|
    ensures var s := states[i];
            && s.pushed == s.popped + s.chan && |s.chan| <= s.capacity
            && (u in s.conns ==>
                  Naming(s.popped, u) == To(s.attempts, u) + if s.cur.Some? && u in s.left then [s.cur.value] else [])
            && (u !in s.conns ==> To(s.attempts, u) <= Naming(s.popped, u))
            && To(s.received, u) <= To(s.attempts, u)
            && (u !in s.failing ==> To(s.received, u) == To(s.attempts, u))
            && CountOf(s.counts, kind, reason) == Tally(s.attempts, kind, reason)
  {
    BrokerInRun(h, states, steps, i, u, kind, reason);
  }

  lemma BrokerInRun(h: Hasher, states: seq<Sys>, steps: seq<SysStep>, i: nat, u: Uid, kind: Kind, reason: Reason)
    requires IsRun(h, states, steps) && i < |states|
    ensures AttemptsOk(states[i], u) && ReceivedOk(states[i], u) && CountOk(states[i], kind, reason)
    ensures states[i].pushed == states[i].popped + states[i].chan && |states[i].chan| <= states[i].capacity
    ensures states[i].cur.None? ==> states[i].left == {}
  {
    RunInv(h, states, steps, i);
  }

  // ----- Reads -----

  /** A getSubscribers call that ends: everyone registered throughout for a related node is in its result, and
      everyone in it was registered for a related node at some moment of the call. */
  lemma SubscribersSandwiched(h: Hasher, states: seq<Sys>, steps: seq<SysStep>, i: nat, kind: Kind)
    requires IsRun(h, states, steps) && i < |steps| && steps[i] == Local(kind, Conclude)
    ensures var c, c' := states[i].coll[kind], states[i + 1].coll[kind];
            var w := c.worker;
            var found := if c'.worker.what.Send? then c'.worker.what.subs else {};
            && w.atStart - c.gone <= found
            && forall u | u in found :: u in c.home && c.home[u] in w.nodes && u !in w.leftBefore
  {
    CollectorInRun(h, states, steps, i, kind);
    LocalEffect(h, states[i], steps[i], kind);
    Replicas.ConcludeSandwiched(kind, states[i].coll[kind]);
  }

  /** Pod convergence, key by key: if no list failed, a key that is not queued, not being read and not about to be
      dispatched is cached, for a scheduled pod, with exactly the subscribers registered for its node. An entry left for
      a pod that is gone, or was never scheduled, is held only by Watches that named no node; if there are none of
      those, the entry is what recomputation from scratch gives for every key. */
  lemma PodUpToDate(h: Hasher, states: seq<Sys>, steps: seq<SysStep>, i: nat, key: Key)
    requires IsRun(h, states, steps) && i < |states|
    requires PodRests(states[i], key)
    ensures var s := states[i];
            var c, node := s.coll[Pod], Convergence.Where(s.cluster.pods, key);
            && (node != "" ==> Convergence.UpToDate(s.cluster.pods, c, key))
            && (node == "" && key in c.cache ==>
                  c.cache[key].entry.subs != {}
                  && forall u | u in c.cache[key].entry.subs :: u in s.watch && s.watch[u].node == "")
            && ((forall u | u in s.watch && Pod in s.watch[u].kinds :: s.watch[u].node != "") ==>
                  Convergence.UpToDate(s.cluster.pods, c, key))
  {
    RunInv(h, states, steps, i);
    var s := states[i];
    var c := s.coll[Pod];
    assert CollectorOk(h, Pod, c);
    Convergence.RestingUpToDate(h, s.cluster.pods, c, key);
    forall u | u in c.home
      ensures u in s.watch && Pod in s.watch[u].kinds && s.watch[u].node == c.home[u]
    {
      assert WatchOk(s, Pod, u);
    }
  }

  ghost predicate PodRests(s: Sys, key: Key) {
    Pod in s.coll && !s.coll[Pod].lossy && Convergence.AtRest(s.cluster.pods, s.coll[Pod], key)
  }

  /** So a pod collector with nothing to do is right about every key at once. */
  lemma PodsUpToDate(h: Hasher, states: seq<Sys>, steps: seq<SysStep>, i: nat)
    requires IsRun(h, states, steps) && i < |states|
    requires Pod in states[i].coll && !states[i].coll[Pod].lossy && Convergence.Drained(states[i].coll[Pod])
    ensures var s := states[i];
            && (forall key | Convergence.Where(s.cluster.pods, key) != "" :: Convergence.UpToDate(s.cluster.pods, s.coll[Pod], key))
            && ((forall u | u in s.watch && Pod in s.watch[u].kinds :: s.watch[u].node != "") ==>
                  forall key :: Convergence.UpToDate(s.cluster.pods, s.coll[Pod], key))
  {
    var s := states[i];
    forall key
      ensures Convergence.Where(s.cluster.pods, key) != "" ==> Convergence.UpToDate(s.cluster.pods, s.coll[Pod], key)
      ensures (forall u | u in s.watch && Pod in s.watch[u].kinds :: s.watch[u].node != "") ==>
                Convergence.UpToDate(s.cluster.pods, s.coll[Pod], key)
    {
      Convergence.DrainedRests(s.cluster.pods, s.coll[Pod], key);
      PodUpToDate(h, states, steps, i, key);
    }
  }

  // ----- Owners -----

  ghost predicate Served(s: Sys, kind: Kind, pod: Key, key: Key, u: Uid) {
    Pod in s.coll && kind in s.coll && Owners.Served(s, kind, pod, key, u)
  }

  ghost predicate Hides(s: Sys, st: SysStep, kind: Kind, pod: Key, key: Key, u: Uid) {
    Pod in s.coll && kind in s.coll && Owners.Hides(s, st, kind, pod, key, u)
  }

  ghost predicate NothingHidden(states: seq<Sys>, steps: seq<SysStep>, start: nat, end: nat,
                                kind: Kind, pod: Key, key: Key, u: Uid)
    requires |states| == |steps| + 1 && end < |states|
  {
    forall i | start <= i < end :: !Hides(states[i], steps[i], kind, pod, key, u)
  }

  lemma ServedNext(h: Hasher, states: seq<Sys>, steps: seq<SysStep>, i: nat, kind: Kind, pod: Key, key: Key, u: Uid)
    requires IsRun(h, states, steps) && i < |steps| && HasOwnerSource(kind) && Served(states[i], kind, pod, key, u)
    ensures kind in states[i + 1].coll
    ensures !states[i + 1].coll[kind].lossy ==>
              !states[i].coll[kind].lossy
              && (Served(states[i + 1], kind, pod, key, u) <==> !Hides(states[i], steps[i], kind, pod, key, u))
  {
    CollectorInRun(h, states, steps, i, kind);
    Owners.ServedExact(h, states[i], steps[i], kind, pod, key, u);
    if states[i].coll[kind].lossy {
      LossyStays(h, states[i], steps[i], kind);
    }
  }

  lemma LossyStays(h: Hasher, s: Sys, st: SysStep, kind: Kind)
    requires Allowed(s, st) && kind in s.coll && s.coll[kind].lossy
    ensures kind in Next(h, s, st).coll && Next(h, s, st).coll[kind].lossy
  {
    if LocalPart(s, st, kind).Some? {
      LocalEffect(h, s, st, kind);
      LocalLossyStays(h, kind, s.cluster, s.coll[kind], LocalPart(s, st, kind).value);
    } else {
      OtherEffect(h, s, st, kind);
    }
  }

  lemma LocalLossyStays(h: Hasher, kind: Kind, cl: Relations.Cluster, c: Collector, st: Step)
    requires Enabled(kind, cl, c, st) && c.lossy
    ensures Do(h, kind, cl, c, st).lossy
  {
  }

  lemma {:induction false} Along(ok: nat -> bool, start: nat, end: nat)
    requires start <= end && ok(start) && forall i | start <= i < end && ok(i) :: ok(i + 1)
    ensures ok(end)
    decreases end
  {
    if start < end {
      Along(ok, start, end - 1);
    }
  }

  ghost predicate ServedIfLossless(s: Sys, kind: Kind, pod: Key, key: Key, u: Uid) {
    kind in s.coll && (!s.coll[kind].lossy ==> Served(s, kind, pod, key, u))
  }

  lemma StaysServed(h: Hasher, states: seq<Sys>, steps: seq<SysStep>, i: nat, kind: Kind, pod: Key, key: Key, u: Uid)
    requires IsRun(h, states, steps) && i < |steps| && HasOwnerSource(kind)
    requires ServedIfLossless(states[i], kind, pod, key, u) && !Hides(states[i], steps[i], kind, pod, key, u)
    ensures ServedIfLossless(states[i + 1], kind, pod, key, u)
  {
    if states[i].coll[kind].lossy {
      LossyStays(h, states[i], steps[i], kind);
    } else {
      ServedNext(h, states, steps, i, kind, pod, key, u);
    }
  }

  /** Whatever happened before: once served, a subscriber stays served until a step hides the owner. */
  lemma ServedSince(h: Hasher, states: seq<Sys>, steps: seq<SysStep>, start: nat, end: nat,
                    kind: Kind, pod: Key, key: Key, u: Uid)
    requires IsRun(h, states, steps) && start <= end < |states| && HasOwnerSource(kind)
    requires Served(states[start], kind, pod, key, u) && NothingHidden(states, steps, start, end, kind, pod, key, u)
    ensures ServedIfLossless(states[end], kind, pod, key, u)
  {
    var ok := (i: nat) => i < |states| && ServedIfLossless(states[i], kind, pod, key, u);
    forall i: nat | start <= i < end && ok(i)
      ensures ok(i + 1)
    {
      StaysServed(h, states, steps, i, kind, pod, key, u);
    }
    Along(ok, start, end);
  }

  lemma KindInRun(h: Hasher, states: seq<Sys>, steps: seq<SysStep>, i: nat, kind: Kind)
    requires IsRun(h, states, steps) && i < |states| && Collected(kind)
    ensures kind in states[i].coll
  {
    RunInv(h, states, steps, i);
  }

  lemma ServedAtStart(s: Sys, kind: Kind, pod: Key, key: Key, u: Uid)
    requires Init(s) && HasOwnerSource(kind)
    ensures Served(s, kind, pod, key, u)
  {
    assert s.coll[Pod] == FRESH;
  }

  /** Exactly when a subscriber is served all through a run: when no step hides the owner. */
  lemma ServedThroughout(h: Hasher, states: seq<Sys>, steps: seq<SysStep>, n: nat, kind: Kind, pod: Key, key: Key, u: Uid)
    requires IsRun(h, states, steps) && n < |states| && HasOwnerSource(kind)
    requires kind in states[n].coll && !states[n].coll[kind].lossy
    ensures (forall j: nat | j <= n :: Served(states[j], kind, pod, key, u)) <==>
            NothingHidden(states, steps, 0, n, kind, pod, key, u)
  {
    ServedAtStart(states[0], kind, pod, key, u);
    if NothingHidden(states, steps, 0, n, kind, pod, key, u) {
      forall j: nat | j <= n
        ensures Served(states[j], kind, pod, key, u)
      {
        NeverLossy(h, states, steps, j, n, kind);
        ServedSince(h, states, steps, 0, j, kind, pod, key, u);
      }
    }
    if forall j: nat | j <= n :: Served(states[j], kind, pod, key, u) {
      forall j: nat | j < n
        ensures !Hides(states[j], steps[j], kind, pod, key, u)
      {
        NeverLossy(h, states, steps, j + 1, n, kind);
        assert Served(states[j], kind, pod, key, u) && Served(states[j + 1], kind, pod, key, u);
        ServedNext(h, states, steps, j, kind, pod, key, u);
      }
    }
  }

  lemma NeverLossy(h: Hasher, states: seq<Sys>, steps: seq<SysStep>, j: nat, n: nat, kind: Kind)
    requires IsRun(h, states, steps) && j <= n < |states| && Collected(kind)
    requires kind in states[n].coll && !states[n].coll[kind].lossy
    ensures kind in states[j].coll && !states[j].coll[kind].lossy
  {
    KindInRun(h, states, steps, j, kind);
    if states[j].coll[kind].lossy {
      var ok := (i: nat) => i < |states| && kind in states[i].coll && states[i].coll[kind].lossy;
      forall i: nat | j <= i < n && ok(i)
        ensures ok(i + 1)
      {
        LossyStays(h, states[i], steps[i], kind);
      }
      Along(ok, j, n);
      assert false;
    }
  }

  /** The owner's collector has nothing left to do about the owner because of the pod. */
  ghost predicate OwnerRests(s: Sys, kind: Kind, pod: Key, key: Key) {
    && Pod in s.coll && kind in s.coll && !s.coll[kind].lossy
    && !Owners.Due(kind, s.cluster, s.coll[Pod], s.coll[kind], s.triggers, pod, key) && !Owners.Reading(s.coll[kind].worker, key)
  }

  /** The subscriber watches pods and the kind on the pod's node, and both collectors have written it down. */
  ghost predicate Interested(s: Sys, kind: Kind, pod: Key, u: Uid) {
    && PhaseIs(s, u, Watching) && {Pod, kind} <= s.watch[u].kinds
    && pod in s.cluster.pods && s.cluster.pods[pod].node == s.watch[u].node
    && Pod in s.coll && kind in s.coll && !Hearing(s.coll[Pod], true, u) && !Hearing(s.coll[kind], true, u)
  }

  lemma WatchingIsRegistered(h: Hasher, s: Sys, kind: Kind, u: Uid)
    requires Inv(h, s) && kind in s.coll && !Hearing(s.coll[kind], true, u)
    requires PhaseIs(s, u, Watching) && kind in s.watch[u].kinds
    ensures u in Subscriber.At(s.coll[kind].registry, s.watch[u].node)
  {
    assert WatchOk(s, kind, u);
    assert CollectorOk(h, kind, s.coll[kind]);
  }

  lemma EntitledInRun(h: Hasher, states: seq<Sys>, steps: seq<SysStep>, i: nat, kind: Kind, pod: Key, key: Key, u: Uid)
    requires IsRun(h, states, steps) && i < |states| && Interested(states[i], kind, pod, u)
    requires Owners.Concerns(kind, states[i].cluster, pod, key) && PodRests(states[i], pod)
    ensures var s := states[i]; Owners.Entitled(s.cluster, s.coll[Pod], s.coll[kind], pod, u)
  {
    var s := states[i];
    RunInv(h, states, steps, i);
    WatchingIsRegistered(h, s, Pod, u);
    WatchingIsRegistered(h, s, kind, u);
    PodUpToDate(h, states, steps, i, pod);
  }

  /** No missing owners, for namespaces and all kinds of workloads: across two collectors and their registries, once
      nothing is left to do about the pod and the owner, a subscriber of both is a holder of the owner, if no step hid
      it since the subscriber was last served, or since the start. */
  lemma NoMissingOwner(h: Hasher, states: seq<Sys>, steps: seq<SysStep>, start: nat, i: nat, kind: Kind, pod: Key, key: Key, u: Uid)
    requires IsRun(h, states, steps) && start <= i < |states| && HasOwnerSource(kind)
    requires start == 0 || Served(states[start], kind, pod, key, u)
    requires NothingHidden(states, steps, start, i, kind, pod, key, u)
    requires Owners.Concerns(kind, states[i].cluster, pod, key) && Interested(states[i], kind, pod, u)
    requires PodRests(states[i], pod) && OwnerRests(states[i], kind, pod, key)
    ensures Replicas.Holds(states[i].coll[kind], key, u)
  {
    if start == 0 {
      ServedAtStart(states[0], kind, pod, key, u);
    }
    ServedSince(h, states, steps, start, i, kind, pod, key, u);
    EntitledInRun(h, states, steps, i, kind, pod, key, u);
  }

  /** Exactly when it is a holder: if it was served at some moment and no step hid the owner since. */
  lemma OwnerHeldExact(h: Hasher, states: seq<Sys>, steps: seq<SysStep>, i: nat, kind: Kind, pod: Key, key: Key, u: Uid)
    requires IsRun(h, states, steps) && i < |states| && HasOwnerSource(kind)
    requires Owners.Concerns(kind, states[i].cluster, pod, key) && Interested(states[i], kind, pod, u)
    requires PodRests(states[i], pod) && OwnerRests(states[i], kind, pod, key)
    ensures Replicas.Holds(states[i].coll[kind], key, u) <==>
            exists start: nat | start <= i ::
              Served(states[start], kind, pod, key, u) && NothingHidden(states, steps, start, i, kind, pod, key, u)
  {
    if start: nat :| start <= i && Served(states[start], kind, pod, key, u)
                     && NothingHidden(states, steps, start, i, kind, pod, key, u) {
      NoMissingOwner(h, states, steps, start, i, kind, pod, key, u);
    }
    if Replicas.Holds(states[i].coll[kind], key, u) {
      assert Served(states[i], kind, pod, key, u) && NothingHidden(states, steps, i, i, kind, pod, key, u);
    }
  }

  /** Everything that was queued, triggered or dispatched in some collectors is done, and no list failed. */
  ghost predicate Settled(s: Sys, kinds: set<Kind>) {
    && (forall t | t in s.triggers :: t.0 !in kinds)
    && (forall kind | kind in kinds ::
          && kind in s.coll
          && var c := s.coll[kind]; c.pending == {} && c.worker.Idle? && c.disp.Waiting? && !c.lossy)
  }

  lemma SettledRests(s: Sys, kind: Kind, pod: Key, key: Key)
    requires Settled(s, {Pod, kind})
    ensures PodRests(s, pod) && OwnerRests(s, kind, pod, key)
  {
  }

  /** No missing namespaces: once both collectors are settled, a subscriber of pods and namespaces is a holder of every
      namespace that has a pod on its node, if no step hid it. */
  lemma NoMissingNamespace(h: Hasher, states: seq<Sys>, steps: seq<SysStep>, i: nat, u: Uid, pod: Key)
    requires IsRun(h, states, steps) && i < |states| && Settled(states[i], {Pod, Namespace})
    requires NothingHidden(states, steps, 0, i, Namespace, pod, Owners.NsKey(pod), u)
    requires var s := states[i];
             && PhaseIs(s, u, Watching) && {Pod, Namespace} <= s.watch[u].kinds && s.watch[u].node != ""
             && pod in s.cluster.pods && s.cluster.pods[pod].node == s.watch[u].node
             && (Namespace, Owners.NsKey(pod)) in s.cluster.objects
    ensures Replicas.Holds(states[i].coll[Namespace], Owners.NsKey(pod), u)
  {
    var s := states[i];
    Owners.NamespaceConcerns(s.cluster, pod, Owners.NsKey(pod));
    SettledRests(s, Namespace, pod, Owners.NsKey(pod));
    NoMissingOwner(h, states, steps, 0, i, Namespace, pod, Owners.NsKey(pod), u);
  }

  /** And a holder has received the owner, if its stream works and everything was sent. */
  lemma OwnerReceived(h: Hasher, states: seq<Sys>, steps: seq<SysStep>, i: nat, kind: Kind, key: Key, u: Uid)
    requires IsRun(h, states, steps) && i < |states| && HasOwnerSource(kind) && kind in states[i].coll
    requires Replicas.Holds(states[i].coll[kind], key, u)
    requires var s := states[i]; AllSent(s) && u in s.conns && u !in s.failing
    ensures Replay(Inbox(To(states[i].received, u), kind, key)).held.Some?
  {
    OwnersNeverStrand(h, states, steps, i, kind);
    ReplicaCorrect(h, states, steps, i, kind, key, u);
  }

  lemma NamespaceReceived(h: Hasher, states: seq<Sys>, steps: seq<SysStep>, i: nat, u: Uid, pod: Key)
    requires IsRun(h, states, steps) && i < |states| && Settled(states[i], {Pod, Namespace})
    requires NothingHidden(states, steps, 0, i, Namespace, pod, Owners.NsKey(pod), u)
    requires var s := states[i];
             && PhaseIs(s, u, Watching) && {Pod, Namespace} <= s.watch[u].kinds && s.watch[u].node != ""
             && pod in s.cluster.pods && s.cluster.pods[pod].node == s.watch[u].node
             && (Namespace, Owners.NsKey(pod)) in s.cluster.objects
             && AllSent(s) && u !in s.failing
    ensures Replay(Inbox(To(states[i].received, u), Namespace, Owners.NsKey(pod))).held.Some?
  {
    NoMissingNamespace(h, states, steps, i, u, pod);
    WatchingIsConnected(h, states, steps, i, u);
    OwnerReceived(h, states, steps, i, Namespace, Owners.NsKey(pod), u);
  }

  lemma WatchingIsConnected(h: Hasher, states: seq<Sys>, steps: seq<SysStep>, i: nat, u: Uid)
    requires IsRun(h, states, steps) && i < |states| && PhaseIs(states[i], u, Watching)
    ensures u in states[i].conns
  {
    RunInv(h, states, steps, i);
    assert ConnOk(states[i], u);
  }

  /** A changed pod that hides an owner came back to the node where it is still cached. */
  lemma HiddenComesBack(h: Hasher, states: seq<Sys>, steps: seq<SysStep>, i: nat, kind: Kind, pod: Key, key: Key, u: Uid)
    requires IsRun(h, states, steps) && i < |steps| && HasOwnerSource(kind)
    requires steps[i].ChangePod? && Hides(states[i], steps[i], kind, pod, key, u)
    ensures steps[i].key == pod && steps[i].pod.Some? && pod in states[i].coll[Pod].cache
    ensures states[i].coll[Pod].cache[pod].node == steps[i].pod.value.node
  {
    OneHome(h, states, steps, i, kind, pod, u);
  }

  lemma WatchInRun(h: Hasher, states: seq<Sys>, steps: seq<SysStep>, i: nat, kind: Kind, u: Uid)
    requires IsRun(h, states, steps) && i < |states| && Collected(kind)
    ensures kind in states[i].coll && WatchOk(states[i], kind, u)
  {
    RunInv(h, states, steps, i);
  }

  lemma OneHome(h: Hasher, states: seq<Sys>, steps: seq<SysStep>, i: nat, kind: Kind, pod: Key, u: Uid)
    requires IsRun(h, states, steps) && i < |states| && Collected(kind)
    ensures Pod in states[i].coll && kind in states[i].coll
    ensures var pods, own := states[i].coll[Pod], states[i].coll[kind];
            forall node | u in HoldersAt(pods.cache, pod) && u in Subscriber.At(own.registry, node) :: pods.cache[pod].node == node
  {
    WatchInRun(h, states, steps, i, Pod, u);
    WatchInRun(h, states, steps, i, kind, u);
    CollectorInRun(h, states, steps, i, Pod);
    CollectorInRun(h, states, steps, i, kind);
    var pods := states[i].coll[Pod];
    if u in HoldersAt(pods.cache, pod) {
      assert SlotOk(h, Pod, pods, pods.cache[pod]);
    }
  }

  lemma {:induction false} OwnersNeverStrand(h: Hasher, states: seq<Sys>, steps: seq<SysStep>, i: nat, kind: Kind)
    requires IsRun(h, states, steps) && i < |states| && Collected(kind) && !kind.Pod?
    ensures kind in states[i].coll && Stranded(states[i].coll[kind]) == {}
  {
    if i == 0 {
    } else {
      OwnersNeverStrand(h, states, steps, i - 1, kind);
      CollectorInRun(h, states, steps, i - 1, kind);
      StrandsNobody(h, states[i - 1], steps[i - 1], kind);
    }
  }

  lemma CollectorInRun(h: Hasher, states: seq<Sys>, steps: seq<SysStep>, i: nat, kind: Kind)
    requires IsRun(h, states, steps) && i < |states| && kind in states[i].coll
    ensures CollectorOk(h, kind, states[i].coll[kind])
  {
    RunInv(h, states, steps, i);
  }

  lemma LocalStrandsNobody(h: Hasher, kind: Kind, cl: Relations.Cluster, c: Collector, st: Step)
    requires Enabled(kind, cl, c, st) && !kind.Pod? && CollectorOk(h, kind, c)
    ensures Stranded(Do(h, kind, cl, c, st)) == Stranded(c)
  {
    if st.Commit? {
      Replicas.CommitStrands(h, kind, c);
    } else if !st.WriteRegistry? {
      Framed(h, kind, cl, c, st);
    }
  }

  lemma StrandsNobody(h: Hasher, s: Sys, st: SysStep, kind: Kind)
    requires Allowed(s, st) && kind in s.coll && !kind.Pod? && CollectorOk(h, kind, s.coll[kind])
    ensures kind in Next(h, s, st).coll && Stranded(Next(h, s, st).coll[kind]) == Stranded(s.coll[kind])
  {
    if LocalPart(s, st, kind).Some? {
      LocalEffect(h, s, st, kind);
      LocalStrandsNobody(h, kind, s.cluster, s.coll[kind], LocalPart(s, st, kind).value);
    } else {
      OtherEffect(h, s, st, kind);
    }
  }
}
