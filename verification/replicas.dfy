/**
 What the subscribers of one collector hold. In every run the events generated for one key and one subscriber are a
 legal stream, and its replay agrees with the cache, unless a silent drop stranded the subscriber: then the replay is
 wrong exactly until the next Create, and the stream is illegal from that Create on.
 */
module Replicas {
  import opened Types
  import opened Streams
  import opened CollectorSteps
  import Engine
  import Relations
  import Subscriber

  /** A message with a content of the given hash. */
  ghost predicate Reflects(h: Hasher, m: Message, hash: int) {
    exists c :: h(c) == hash && m == Engine.FullMessage(m.reason, c)
  }

  /** The subscribers a reconcile of this key has read so far. */
  function ReadSoFar(w: Worker, key: Key): set<Uid> {
    match w
    case PodSubs(k, _, subs) => if k == key then subs else {}
    case Collecting(k, _, _, _, _, acc, _, _) => if k == key then acc else {}
    case Decided(k, what) => if k == key && what.Send? then what.subs else {}
    case _ => {}
  }

  ghost predicate Holds(s: Collector, key: Key, u: Uid) {
    u in HoldersAt(s.cache, key)
  }

  /** The replica is there exactly while the cache lists the holder, with the cached hash. A holder that left may keep
      a last replica, but will never be told about the key again. A stranded one keeps a replica it should not. */
  ghost predicate ReplicaOk(h: Hasher, s: Collector, key: Key, u: Uid) {
    var r := ReplicaOf(s.log, key, u);
    && (r.legal <==> (key, u) !in s.relapsed)
    && (if (key, u) in s.adrift then r.held.Some? && !Holds(s, key, u)
        else if Holds(s, key, u) then r.held.Some? && Reflects(h, r.held.value, s.cache[key].entry.hash)
        else r.held.Some? ==> u in s.gone && u !in ReadSoFar(s.worker, key))
  }

  ghost predicate InvReplicas(h: Hasher, s: Collector) {
    forall key, u :: ReplicaOk(h, s, key, u)
  }

  lemma ReplicasKept(h: Hasher, kind: Kind, cl: Relations.Cluster, s: Collector, st: Step)
    requires Enabled(kind, cl, s, st) && InvRegistry(s) && InvHolders(h, kind, s) && InvReplicas(h, s)
    ensures InvReplicas(h, Do(h, kind, cl, s, st))
  {
    forall key, u
      ensures ReplicaOk(h, Do(h, kind, cl, s, st), key, u)
    {
      assert ReplicaOk(h, s, key, u);
      StepKeepsReplica(h, kind, cl, s, st, key, u);
    }
  }

  lemma StepKeepsReplica(h: Hasher, kind: Kind, cl: Relations.Cluster, s: Collector, st: Step, key: Key, u: Uid)
    requires Enabled(kind, cl, s, st) && InvRegistry(s) && ReplicaOk(h, s, key, u)
    ensures ReplicaOk(h, Do(h, kind, cl, s, st), key, u)
  {
    if st.Commit? {
      CommitKeepsReplica(h, kind, s, key, u);
    } else if st.WriteRegistry? {
      SameReplica(h, s, RegistryWrite(s), key, u);
    } else {
      Framed(h, kind, cl, s, st);
      if Works(st) {
        ReadsRegistered(kind, cl, s, st, key, u);
      }
      SameReplica(h, s, Do(h, kind, cl, s, st), key, u);
    }
  }

  lemma SameReplica(h: Hasher, s: Collector, s': Collector, key: Key, u: Uid)
    requires ReplicaOk(h, s, key, u)
    requires s'.log == s.log && s'.cache == s.cache && s'.adrift == s.adrift && s'.relapsed == s.relapsed && s.gone <= s'.gone
    requires u in ReadSoFar(s'.worker, key) ==> u in ReadSoFar(s.worker, key) || u !in s.gone
    ensures ReplicaOk(h, s', key, u)
  {
  }

  /** Whoever left is read by no later step. */
  lemma ReadsRegistered(kind: Kind, cl: Relations.Cluster, s: Collector, st: Step, key: Key, u: Uid)
    requires Enabled(kind, cl, s, st) && Works(st) && InvRegistry(s)
    ensures u in ReadSoFar(Work(kind, cl, s, st), key) ==> u in ReadSoFar(s.worker, key) || u !in s.gone
  {
    var w := s.worker;
    if st.Fetch? {
      assert u in Subscriber.At(s.registry, w.todo[0]) ==> u !in s.gone;
    } else if st.ReadSubs? {
      assert w.pod.node in s.registry && u in s.registry[w.pod.node] ==> u !in s.gone;
    }
  }

  lemma CommitKeepsReplica(h: Hasher, kind: Kind, s: Collector, key: Key, u: Uid)
    requires s.worker.Decided? && ReplicaOk(h, s, key, u)
    ensures ReplicaOk(h, Committed(h, kind, s), key, u)
  {
    var w := s.worker;
    if key == w.key && w.what.Send? {
      SendKeepsReplica(h, kind, s, u);
    } else if key == w.key {
      DropKeepsReplica(h, kind, s, u);
    } else {
      ReplicaDecide(h, kind, s.log, w.key, EntryIn(s.cache, w.key), w.what, key, u);
      CommitEffect(h, kind, s, key, u);
    }
  }

  /** The replica of the key that is sent. */
  lemma SendKeepsReplica(h: Hasher, kind: Kind, s: Collector, u: Uid)
    requires s.worker.Decided? && s.worker.what.Send? && ReplicaOk(h, s, s.worker.key, u)
    ensures ReplicaOk(h, Committed(h, kind, s), s.worker.key, u)
  {
    var w := s.worker;
    var c := w.what.content;
    ReplicaDecide(h, kind, s.log, w.key, EntryIn(s.cache, w.key), w.what, w.key, u);
    CommitEffect(h, kind, s, w.key, u);
    assert Reflects(h, Engine.FullMessage(Create, c), h(c));
    assert Reflects(h, Engine.FullMessage(Update, c), h(c));
  }

  /** The replica of the key that is dropped, with a Delete or silently. */
  lemma DropKeepsReplica(h: Hasher, kind: Kind, s: Collector, u: Uid)
    requires s.worker.Decided? && !s.worker.what.Send? && ReplicaOk(h, s, s.worker.key, u)
    ensures ReplicaOk(h, Committed(h, kind, s), s.worker.key, u)
  {
    var w := s.worker;
    ReplicaDecide(h, kind, s.log, w.key, EntryIn(s.cache, w.key), w.what, w.key, u);
    CommitEffect(h, kind, s, w.key, u);
  }

  /** What a commit changes of the things ReplicaOk speaks about. */
  lemma CommitEffect(h: Hasher, kind: Kind, s: Collector, key: Key, u: Uid)
    requires s.worker.Decided?
    ensures var w, s' := s.worker, Committed(h, kind, s);
            var out := Engine.Decide(h, kind, EntryIn(s.cache, w.key), w.what);
            && s'.log == s.log + Tag(w.key, out.events) && s'.gone == s.gone && ReadSoFar(s'.worker, key) == {}
            && (Holds(s', key, u) <==> if key == w.key then w.what.Send? && u in w.what.subs else Holds(s, key, u))
            && (Holds(s', key, u) ==>
                  s'.cache[key].entry.hash == if key == w.key then h(w.what.content) else s.cache[key].entry.hash)
            && ((key, u) in s'.adrift <==>
                  || ((key, u) in s.adrift && !(key == w.key && w.what.Send? && u in w.what.subs))
                  || (key == w.key && w.what.NoSubscribers? && Holds(s, key, u) && u !in s.gone))
            && ((key, u) in s'.relapsed <==>
                  (key, u) in s.relapsed || ((key, u) in s.adrift && key == w.key && w.what.Send? && u in w.what.subs))
  {
  }

  // ----- What a subscriber can rely on -----

  lemma StreamLegal(h: Hasher, s: Collector, key: Key, u: Uid)
    requires InvReplicas(h, s)
    ensures Alternates(StreamOf(s.log, key, u)) <==> (key, u) !in s.relapsed
  {
    assert ReplicaOk(h, s, key, u);
    ReplayAlternates(StreamOf(s.log, key, u));
  }

  /** A replica agrees with the cache: held exactly if the entry lists the holder, and then with the cached hash. */
  ghost predicate Agrees(h: Hasher, s: Collector, key: Key, u: Uid, held: Option<Message>) {
    && (held.Some? <==> Holds(s, key, u))
    && (held.Some? ==> Reflects(h, held.value, s.cache[key].entry.hash))
  }

  /** A subscriber that did not leave agrees with the cache if and only if it was not stranded since its last Create. */
  lemma ReplicaExact(h: Hasher, s: Collector, key: Key, u: Uid)
    requires InvReplicas(h, s) && u !in s.gone
    ensures Agrees(h, s, key, u, ReplicaOf(s.log, key, u).held) <==> (key, u) !in s.adrift
  {
    assert ReplicaOk(h, s, key, u);
  }

  lemma {:induction false} HeldIsNoDelete(stream: seq<Message>)
    ensures Replay(stream).held.Some? ==> Replay(stream).held.value.reason != Delete
  {
    if stream != [] {
      HeldIsNoDelete(stream[..|stream| - 1]);
    }
  }

  /** With a hash that tells contents apart, the replica is the content that was reconciled last. */
  lemma ReplicaContent(h: Hasher, kind: Kind, s: Collector, key: Key, u: Uid)
    requires Engine.Injective(h)
    requires InvReplicas(h, s) && InvHolders(h, kind, s) && Holds(s, key, u)
    ensures var held := ReplicaOf(s.log, key, u).held;
            held.Some? && held.value.reason != Delete && Engine.Renders(held.value, held.value.reason, s.cache[key].seen)
  {
    assert ReplicaOk(h, s, key, u);
    assert SlotOk(h, kind, s, s.cache[key]);
    var held := ReplicaOf(s.log, key, u).held.value;
    HeldIsNoDelete(StreamOf(s.log, key, u));
    Engine.FullRenders(held.reason, s.cache[key].seen);
  }

  /** A silent drop is safe exactly when the pod still runs on the node it was last reconciled on, or nobody who holds
      it is still registered for that node. */
  lemma SilentDropExact(h: Hasher, kind: Kind, s: Collector)
    requires InvRegistry(s) && InvHolders(h, kind, s)
    requires s.worker.Decided? && s.worker.what.NoSubscribers? && s.worker.key in s.cache
    ensures var slot := s.cache[s.worker.key];
            Strands(s) == {} <==>
            slot.node == s.worker.what.node || slot.entry.subs !! Subscriber.At(s.registry, slot.node)
  {
    var slot := s.cache[s.worker.key];
    assert SlotOk(h, kind, s, slot);
    forall u | u in slot.entry.subs
      ensures u !in s.gone <==> u in Subscriber.At(s.registry, slot.node)
    {
      assert u in s.home && s.home[u] == slot.node;
    }
    if u :| u in slot.entry.subs && u !in s.gone {
      assert (s.worker.key, u) in Strands(s);
    }
    if slot.node == s.worker.what.node {
      assert forall u | u in slot.entry.subs :: u in s.gone;
    }
  }

  /** A getSubscribers call that ends has everyone who was registered throughout for a listed node, and only people who
      were registered for a listed node at some moment of it. */
  lemma ConcludeSandwiched(kind: Kind, s: Collector)
    requires s.worker.Collecting? && s.worker.todo == [] && WorkerOk(kind, s, s.worker)
    ensures var w, what := s.worker, Concluded(kind, s.worker).what;
            var found := if what.Send? then what.subs else {};
            && w.atStart - s.gone <= found
            && forall u | u in found :: u in s.home && s.home[u] in w.nodes && u !in w.leftBefore
  {
  }

  lemma CommitStrands(h: Hasher, kind: Kind, s: Collector)
    requires s.worker.Decided? && InvRegistry(s) && InvHolders(h, kind, s)
    ensures var w := s.worker;
            && (Strands(s) != {} <==>
                  && w.what.NoSubscribers? && w.key in s.cache && s.cache[w.key].node != w.what.node
                  && !(s.cache[w.key].entry.subs !! Subscriber.At(s.registry, s.cache[w.key].node)))
            && (Strands(s) != {} ==> kind.Pod?)
  {
    if s.worker.what.NoSubscribers? && s.worker.key in s.cache {
      SilentDropExact(h, kind, s);
    }
  }
}
