/**
 One collector as a step system: its registry, cache and queue of keys, the dispatcher that handles one subscriber
 message at a time, and the single worker that reconciles one key at a time. Every read, write and push is a step of
 its own, so steps of the dispatcher, of the cluster and of other collectors fall between any two of them.
 `home`, `gone`, `log`, `adrift` and `relapsed` are history: no step looks at them.
 */
module CollectorSteps {
  import opened Types
  import opened Relations
  import opened Attempts
  import opened Streams
  import Engine
  import Subscriber

  /** A cache entry with, as history, the node and the content of the last reconcile. */
  datatype Slot = Slot(entry: Entry, node: Node, seen: Content)

  datatype Worker =
    | Idle
    | Taken(key: Key)
    | GotPod(key: Key, pod: PodObj)
    | PodSubs(key: Key, pod: PodObj, subs: set<Uid>)
    | GotObject(key: Key, obj: Object)
    // getSubscribers under way; `atStart` and `leftBefore` are history: who was registered for a listed node when
    // the call began, and who had left by then.
    | Collecting(key: Key, obj: Object, nodes: set<Node>, todo: seq<Node>, checked: bool, acc: set<Uid>,
                 atStart: set<Uid>, leftBefore: set<Uid>)
    | Decided(key: Key, what: Engine.Decision)
    | Pushing(key: Key, refs: Option<Refs>, events: seq<Event>, triggered: bool)

  datatype Dispatcher =
    | Waiting
    | Received(sub: bool, uid: Uid, node: Node)
    | Written(node: Node)
    | Sending(pods: seq<(Key, PodObj)>, keys: seq<Key>)

  datatype Collector = Collector(
    registry: Registry,
    cache: map<Key, Slot>,
    pending: set<Key>,          // queued, or on its way to the queue
    worker: Worker,
    disp: Dispatcher,
    home: map<Uid, Node>,       // everyone ever registered
    gone: set<Uid>,             // everyone unregistered again
    log: seq<Logged>,           // every event generated
    adrift: set<(Key, Uid)>,    // holders forgotten without an event while registered, and not told since
    relapsed: set<(Key, Uid)>,  // those that were sent a second Create after that
    lossy: bool)                // a list of the dispatcher failed

  const FRESH := Collector(map[], map[], {}, Idle, Waiting, map[], {}, [], {}, {}, false)

  datatype Step =
    // dispatcher
    | Receive(sub: bool, uid: Uid, node: Node)
    | WriteRegistry
    | ListNode(listed: seq<(Key, PodObj)>)
    | ListFailed
    | NextPod(batch: seq<Key>)
    | NextPodFailed
    | SendKey
    | DispatchDone
    // queue: informers, triggers, resyncs
    | Enqueue(key: Key)
    // worker
    | Take(key: Key)
    | Fail
    | Get
    | ReadSubs
    | Build(nsUid: ObjUid, rsOwners: seq<OwnerRef>, services: seq<(Key, Object)>)
    | ListRelated(order: seq<Node>)
    | CheckNode
    | Fetch
    | Conclude
    | Commit
    | TriggerOwners
    | Push
    | Finish

  function Elements<T>(s: seq<T>): set<T> {
    set x | x in s
  }

  ghost predicate ListsNode(listed: seq<(Key, PodObj)>, pods: map<Key, PodObj>, node: Node) {
    forall k, pod :: (k, pod) in listed <==> k in pods && pods[k] == pod && node in PodByNode(pod)
  }

  function HoldersAt(cache: map<Key, Slot>, key: Key): set<Uid> {
    if key in cache then cache[key].entry.subs else {}
  }

  function EntryIn(cache: map<Key, Slot>, key: Key): Option<Entry> {
    var slot := ValueAt(cache, key);
    if slot.Some? then Some(slot.value.entry) else None
  }

  predicate MustTrigger(kind: Kind, w: Worker) {
    kind.Pod? && w.Pushing? && w.events != [] && Triggers(w.events[0])
  }

  ghost predicate Enabled(kind: Kind, cl: Cluster, s: Collector, st: Step) {
    match st
    case Receive(_, _, _) => s.disp.Waiting?
    case WriteRegistry => s.disp.Received?
    case ListNode(listed) => s.disp.Written? && ListsNode(listed, cl.pods, s.disp.node)
    case ListFailed => s.disp.Written?
    case NextPod(batch) => s.disp.Sending? && s.disp.keys == [] && s.disp.pods != []
                           && DispatchKeys(kind, cl, s.disp.pods[0].0, s.disp.pods[0].1) == Some(Elements(batch))
    case NextPodFailed => s.disp.Sending? && s.disp.keys == [] && s.disp.pods != [] && kind in {Deployment, Service}
    case SendKey => s.disp.Sending? && s.disp.keys != []
    case DispatchDone => s.disp.Sending? && s.disp.keys == [] && s.disp.pods == []
    case Enqueue(_) => true
    case Take(key) => s.worker.Idle? && key in s.pending
    case Fail => s.worker.Taken? || s.worker.GotPod? || s.worker.PodSubs? || s.worker.GotObject? || s.worker.Collecting?
    case Get => s.worker.Taken?
    case ReadSubs => s.worker.GotPod?
    case Build(_, _, _) => s.worker.PodSubs?
    case ListRelated(order) => s.worker.GotObject?
                               && Elements(order) == RelatedNodes(kind, s.worker.key, s.worker.obj, cl.pods)
    case CheckNode => s.worker.Collecting? && !s.worker.checked && s.worker.todo != []
    case Fetch => s.worker.Collecting? && s.worker.checked && s.worker.todo != []
    case Conclude => s.worker.Collecting? && s.worker.todo == []
    case Commit => s.worker.Decided?
    case TriggerOwners => MustTrigger(kind, s.worker) && !s.worker.triggered
    case Push => s.worker.Pushing? && s.worker.events != [] && (MustTrigger(kind, s.worker) ==> s.worker.triggered)
    case Finish => s.worker.Pushing? && s.worker.events == []
  }

  /** The holders a silent drop forgets although they are still registered. */
  function Strands(s: Collector): set<(Key, Uid)>
    requires s.worker.Decided?
  {
    if s.worker.what.NoSubscribers? then
      set u | u in HoldersAt(s.cache, s.worker.key) && u !in s.gone :: (s.worker.key, u)
    else {}
  }

  /** The stranded holders that a commit sends a Create again. */
  function ToldAgain(s: Collector): set<(Key, Uid)>
    requires s.worker.Decided?
  {
    set p | p in s.adrift && s.worker.what.Send? && p.0 == s.worker.key && p.1 in s.worker.what.subs
  }

  /** Everyone a silent drop ever stranded. */
  function Stranded(s: Collector): set<(Key, Uid)> {
    s.adrift + s.relapsed
  }

  function SlotOf(entry: Option<Entry>, d: Engine.Decision): Option<Slot> {
    if entry.Some? && d.Send? then Some(Slot(entry.value, d.node, d.content)) else None
  }

  function RegistryWrite(s: Collector): Collector
    requires s.disp.Received?
  {
    var u, node := s.disp.uid, s.disp.node;
    if s.disp.sub then
      s.(registry := Subscriber.Added(s.registry, node, u), home := s.home[u := node], disp := Written(node))
    else
      s.(registry := Subscriber.Removed(s.registry, node, u), gone := s.gone + {u}, disp := Written(node))
  }

  function Got(kind: Kind, cl: Cluster, key: Key): Worker {
    if kind.Pod? then if key in cl.pods then GotPod(key, cl.pods[key]) else Decided(key, Engine.Absent)
    else if (kind, key) in cl.objects then GotObject(key, cl.objects[(kind, key)])
    else Decided(key, Engine.Absent)
  }

  function SubsRead(r: Registry, w: Worker): Worker
    requires w.GotPod?
  {
    if w.pod.node in r then PodSubs(w.key, w.pod, r[w.pod.node])
    else Decided(w.key, Engine.NoSubscribers(w.pod.node))
  }

  function Built(w: Worker, nsUid: ObjUid, rsOwners: seq<OwnerRef>, services: seq<(Key, Object)>): Worker
    requires w.PodSubs?
  {
    Decided(w.key, Engine.Send(PodContent(w.key, w.pod, nsUid, rsOwners, services), w.pod.node, w.subs))
  }

  function Listed(s: Collector, order: seq<Node>): Worker
    requires s.worker.GotObject?
  {
    Collecting(s.worker.key, s.worker.obj, Elements(order), order, false, {},
               SubscribersOf(s.registry, Elements(order)), s.gone)
  }

  function Checked(r: Registry, w: Worker): Worker
    requires w.Collecting? && w.todo != []
  {
    if w.todo[0] in r then w.(checked := true) else w.(todo := w.todo[1..])
  }

  function Fetched(r: Registry, w: Worker): Worker
    requires w.Collecting? && w.todo != []
  {
    w.(acc := w.acc + Subscriber.At(r, w.todo[0]), todo := w.todo[1..], checked := false)
  }

  function Concluded(kind: Kind, w: Worker): Worker
    requires w.Collecting?
  {
    Decided(w.key, if w.acc == {} then Engine.Absent else Engine.Send(ObjectContent(kind, w.obj), "", w.acc))
  }

  function Committed(h: Hasher, kind: Kind, s: Collector): Collector
    requires s.worker.Decided?
  {
    var w := s.worker;
    var out := Engine.Decide(h, kind, EntryIn(s.cache, w.key), w.what);
    s.(cache := Put(s.cache, w.key, SlotOf(out.entry, w.what)), log := s.log + Tag(w.key, out.events),
       adrift := s.adrift - ToldAgain(s) + Strands(s), relapsed := s.relapsed + ToldAgain(s),
       worker := Pushing(w.key, out.refs, out.events, false))
  }

  /** The steps of the dispatcher besides the registry write. */
  predicate Dispatches(st: Step) {
    st.Receive? || st.ListNode? || st.ListFailed? || st.NextPod? || st.NextPodFailed? || st.SendKey? || st.DispatchDone?
  }

  function Dispatched(s: Collector, st: Step): Collector
    requires Dispatches(st)
    requires st.NextPod? || st.NextPodFailed? ==> s.disp.Sending? && s.disp.pods != []
    requires st.SendKey? ==> s.disp.Sending? && s.disp.keys != []
  {
    match st
    case Receive(sub, uid, node) => s.(disp := Received(sub, uid, node))
    case ListNode(listed) => s.(disp := Sending(listed, []))
    case ListFailed => s.(disp := Waiting, lossy := true)
    case NextPod(batch) => s.(disp := Sending(s.disp.pods[1..], batch))
    case NextPodFailed => s.(disp := Sending(s.disp.pods[1..], []), lossy := true)
    case SendKey => s.(pending := s.pending + {s.disp.keys[0]}, disp := s.disp.(keys := s.disp.keys[1..]))
    case _ => s.(disp := Waiting)
  }

  /** The steps of the queue. */
  predicate Queues(st: Step) { st.Enqueue? || st.Take? || st.Fail? }

  function Requeued(s: Collector, st: Step): Collector
    requires Queues(st) && (st.Fail? ==> !s.worker.Idle?)
  {
    match st
    case Enqueue(key) => s.(pending := s.pending + {key})
    case Take(key) => s.(pending := s.pending - {key}, worker := Taken(key))
    case _ => s.(pending := s.pending + {s.worker.key}, worker := Idle)
  }

  ghost function Do(h: Hasher, kind: Kind, cl: Cluster, s: Collector, st: Step): Collector
    requires Enabled(kind, cl, s, st)
  {
    if st.WriteRegistry? then RegistryWrite(s)
    else if st.Commit? then Committed(h, kind, s)
    else if Dispatches(st) then Dispatched(s, st)
    else if Queues(st) then Requeued(s, st)
    else s.(worker := Work(kind, cl, s, st))
  }

  /** The steps that only move the worker. */
  predicate Works(st: Step) { !st.WriteRegistry? && !st.Commit? && !Dispatches(st) && !Queues(st) }

  ghost function Work(kind: Kind, cl: Cluster, s: Collector, st: Step): Worker
    requires Enabled(kind, cl, s, st)
  {
    match st
    case Get => Got(kind, cl, s.worker.key)
    case ReadSubs => SubsRead(s.registry, s.worker)
    case Build(nsUid, rsOwners, services) => Built(s.worker, nsUid, rsOwners, services)
    case ListRelated(order) => Listed(s, order)
    case CheckNode => Checked(s.registry, s.worker)
    case Fetch => Fetched(s.registry, s.worker)
    case Conclude => Concluded(kind, s.worker)
    case TriggerOwners => s.worker.(triggered := true)
    case Push => s.worker.(events := s.worker.events[1..], triggered := false)
    case Finish => Idle
    case _ => s.worker
  }

  /** What the servers promise a dispatcher: a UID subscribes once, and unsubscribes once after that. */
  ghost predicate Orderly(s: Collector, st: Step) {
    st.Receive? ==>
      if st.sub then st.uid !in s.home else st.uid in s.home && st.uid !in s.gone && s.home[st.uid] == st.node
  }

  // ----- The registry -----

  ghost predicate InvRegistry(s: Collector) {
    && Subscriber.Tidy(s.registry)
    && s.gone <= s.home.Keys
    && (forall n, u :: n in s.registry && u in s.registry[n] <==> u in s.home && s.home[u] == n && u !in s.gone && n in s.registry)
    && (forall u | u in s.home && u !in s.gone :: s.home[u] in s.registry)
    && (s.disp.Received? ==>
          if s.disp.sub then s.disp.uid !in s.home
          else s.disp.uid in s.home && s.disp.uid !in s.gone && s.home[s.disp.uid] == s.disp.node)
  }

  lemma RegistryKept(h: Hasher, kind: Kind, cl: Cluster, s: Collector, st: Step)
    requires Enabled(kind, cl, s, st) && Orderly(s, st) && InvRegistry(s)
    ensures InvRegistry(Do(h, kind, cl, s, st))
  {
    if st.WriteRegistry? {
      WriteKeepsRegistry(s);
    } else if !st.Commit? {
      Framed(h, kind, cl, s, st);
    }
  }

  lemma WriteKeepsRegistry(s: Collector)
    requires s.disp.Received? && InvRegistry(s)
    ensures InvRegistry(RegistryWrite(s))
  {
    var s' := RegistryWrite(s);
    var u, n := s.disp.uid, s.disp.node;
    if s.disp.sub {
      assert u in s'.registry[n];
    } else {
      assert u in s.registry[n];
      forall v | v in s'.home && v !in s'.gone
        ensures s'.home[v] in s'.registry
      {
        if s.home[v] == n {
          assert v in s.registry[n] - {u};
        }
      }
    }
  }

  // ----- Who may be a holder -----

  ghost predicate Known(s: Collector, subs: set<Uid>) {
    subs != {} && subs <= s.home.Keys
  }

  ghost predicate AllAt(s: Collector, subs: set<Uid>, node: Node) {
    forall u | u in subs :: u in s.home && s.home[u] == node
  }

  ghost predicate SlotOk(h: Hasher, kind: Kind, s: Collector, slot: Slot) {
    && Known(s, slot.entry.subs)
    && slot.entry.hash == h(slot.seen) && slot.entry.refs == slot.seen.refs
    && (kind.Pod? ==> AllAt(s, slot.entry.subs, slot.node))
  }

  /** A UID registered throughout a getSubscribers call is found or still to be found; a UID found was registered for a
      listed node at some moment of the call. */
  ghost predicate Sandwiched(s: Collector, w: Worker)
    requires w.Collecting?
  {
    && Elements(w.todo) <= w.nodes
    && w.leftBefore <= s.gone
    && (forall u | u in w.atStart :: u in s.home && s.home[u] in w.nodes && u !in w.leftBefore)
    && (forall u | u in w.atStart :: u in s.gone || u in w.acc || s.home[u] in w.todo)
    && (forall u | u in w.acc :: u in s.home && s.home[u] in w.nodes && u !in w.leftBefore)
  }

  ghost predicate WorkerOk(kind: Kind, s: Collector, w: Worker) {
    match w
    case GotPod(_, _) => kind.Pod?
    case PodSubs(_, pod, subs) => kind.Pod? && subs != {} && AllAt(s, subs, pod.node)
    case GotObject(_, _) => !kind.Pod?
    case Collecting(_, _, _, _, _, _, _, _) => !kind.Pod? && Sandwiched(s, w)
    case Decided(key, what) =>
      (match what
       case Send(_, node, subs) => Known(s, subs) && (kind.Pod? ==> AllAt(s, subs, node))
       case NoSubscribers(node) =>
         kind.Pod? && forall u | u in HoldersAt(s.cache, key) && u in s.home && s.home[u] == node :: u in s.gone
       case Absent => true)
    case _ => true
  }

  ghost predicate InvHolders(h: Hasher, kind: Kind, s: Collector) {
    && (forall k | k in s.cache :: SlotOk(h, kind, s, s.cache[k]))
    && WorkerOk(kind, s, s.worker)
    && (forall l | l in s.log :: Known(s, l.ev.subs))
  }

  lemma HoldersKept(h: Hasher, kind: Kind, cl: Cluster, s: Collector, st: Step)
    requires Enabled(kind, cl, s, st) && InvRegistry(s) && InvHolders(h, kind, s)
    ensures InvHolders(h, kind, Do(h, kind, cl, s, st))
  {
    if st.WriteRegistry? {
      WriteKeepsHolders(h, kind, s);
    } else if st.Commit? {
      CommitKeepsHolders(h, kind, s);
    } else {
      OthersKeepHolders(h, kind, cl, s, st);
    }
  }

  lemma OthersKeepHolders(h: Hasher, kind: Kind, cl: Cluster, s: Collector, st: Step)
    requires Enabled(kind, cl, s, st) && !st.WriteRegistry? && !st.Commit? && InvRegistry(s) && InvHolders(h, kind, s)
    ensures InvHolders(h, kind, Do(h, kind, cl, s, st))
  {
    Framed(h, kind, cl, s, st);
    if Works(st) {
      WorkKept(kind, cl, s, st);
    }
    SameHolders(h, kind, s, Do(h, kind, cl, s, st));
  }

  /** Only two steps touch what the invariants about holders and streams are about. */
  lemma Framed(h: Hasher, kind: Kind, cl: Cluster, s: Collector, st: Step)
    requires Enabled(kind, cl, s, st) && !st.WriteRegistry? && !st.Commit?
    ensures var s' := Do(h, kind, cl, s, st);
            && s'.registry == s.registry && s'.cache == s.cache && s'.home == s.home && s'.gone == s.gone
            && s'.log == s.log && s'.adrift == s.adrift && s'.relapsed == s.relapsed
            && (Works(st) ==> s' == s.(worker := Work(kind, cl, s, st)))
            && (Dispatches(st) ==> s'.worker == s.worker && (s'.disp.Received? ==> st.Receive?))
            && (Queues(st) ==> s'.disp == s.disp && (s'.worker == s.worker || s'.worker.Idle? || s'.worker.Taken?))
  {
  }

  lemma SameHolders(h: Hasher, kind: Kind, s: Collector, s': Collector)
    requires InvHolders(h, kind, s)
    requires s'.cache == s.cache && s'.home == s.home && s'.gone == s.gone && s'.log == s.log
    requires WorkerOk(kind, s, s'.worker)
    ensures InvHolders(h, kind, s')
  {
    forall k | k in s'.cache
      ensures SlotOk(h, kind, s', s'.cache[k])
    {
      assert SlotOk(h, kind, s, s.cache[k]);
    }
    assert forall l | l in s.log :: Known(s, l.ev.subs);
    WorkerSame(kind, s, s');
  }

  lemma WorkerSame(kind: Kind, s: Collector, s': Collector)
    requires s'.cache == s.cache && s'.home == s.home && s'.gone == s.gone && WorkerOk(kind, s, s'.worker)
    ensures WorkerOk(kind, s', s'.worker)
  {
  }

  lemma WorkKept(kind: Kind, cl: Cluster, s: Collector, st: Step)
    requires Enabled(kind, cl, s, st) && Works(st) && InvRegistry(s) && WorkerOk(kind, s, s.worker)
    ensures WorkerOk(kind, s, Work(kind, cl, s, st))
  {
    var w := s.worker;
    if st.CheckNode? {
      CheckedKept(kind, s);
    } else if st.Fetch? {
      FetchedKept(kind, s);
    } else if st.ListRelated? {
      ListedKept(kind, s, st.order);
    } else if st.ReadSubs? {
      var node := w.pod.node;
      assert node in s.registry ==> s.registry[node] != {};
      assert forall u | u in s.home && u !in s.gone :: s.home[u] in s.registry;
    }
  }

  lemma ListedKept(kind: Kind, s: Collector, order: seq<Node>)
    requires s.worker.GotObject? && InvRegistry(s) && WorkerOk(kind, s, s.worker)
    ensures WorkerOk(kind, s, Listed(s, order))
  {
    var w' := Listed(s, order);
    forall u | u in w'.atStart
      ensures u in s.home && s.home[u] in w'.nodes && u !in s.gone
    {
      var n :| n in w'.nodes && n in s.registry && u in s.registry[n];
    }
  }

  lemma CheckedKept(kind: Kind, s: Collector)
    requires s.worker.Collecting? && s.worker.todo != [] && InvRegistry(s) && WorkerOk(kind, s, s.worker)
    ensures WorkerOk(kind, s, Checked(s.registry, s.worker))
  {
    var w := s.worker;
    assert w.todo == [w.todo[0]] + w.todo[1..];
    assert forall u | u in s.home && u !in s.gone :: s.home[u] in s.registry;
  }

  lemma FetchedKept(kind: Kind, s: Collector)
    requires s.worker.Collecting? && s.worker.todo != [] && InvRegistry(s) && WorkerOk(kind, s, s.worker)
    ensures WorkerOk(kind, s, Fetched(s.registry, s.worker))
  {
    var w := s.worker;
    var n := w.todo[0];
    assert w.todo == [n] + w.todo[1..];
    assert n in w.nodes;
    assert forall u | u in Subscriber.At(s.registry, n) :: u in s.home && s.home[u] == n && u !in s.gone;
    assert forall u | u in s.home && u !in s.gone && s.home[u] == n :: u in Subscriber.At(s.registry, n);
  }

  lemma WriteKeepsHolders(h: Hasher, kind: Kind, s: Collector)
    requires s.disp.Received? && InvRegistry(s) && InvHolders(h, kind, s)
    ensures InvHolders(h, kind, RegistryWrite(s))
  {
    var s' := RegistryWrite(s);
    assert Grown(s, s');
    SlotsGrown(h, kind, s, s');
    WorkerGrown(kind, s, s');
  }

  lemma SlotsGrown(h: Hasher, kind: Kind, s: Collector, s': Collector)
    requires Grown(s, s') && s'.cache == s.cache && s'.log == s.log && InvHolders(h, kind, s)
    ensures forall k | k in s'.cache :: SlotOk(h, kind, s', s'.cache[k])
    ensures forall l | l in s'.log :: Known(s', l.ev.subs)
    ensures s.worker.Decided? ==> HoldersAt(s.cache, s.worker.key) <= s.home.Keys
  {
    forall k | k in s'.cache
      ensures SlotOk(h, kind, s', s'.cache[k])
    {
      assert SlotOk(h, kind, s, s.cache[k]);
    }
    if s.worker.Decided? && s.worker.key in s.cache {
      assert SlotOk(h, kind, s, s.cache[s.worker.key]);
    }
    assert forall l | l in s.log :: Known(s, l.ev.subs);
  }

  /** UIDs only ever join and leave. */
  ghost predicate Grown(s: Collector, s': Collector) {
    s.home.Keys <= s'.home.Keys && s.gone <= s'.gone && forall u | u in s.home :: s'.home[u] == s.home[u]
  }

  lemma WorkerGrown(kind: Kind, s: Collector, s': Collector)
    requires Grown(s, s') && s'.cache == s.cache && s'.worker == s.worker && WorkerOk(kind, s, s.worker)
    requires s.worker.Decided? ==> HoldersAt(s.cache, s.worker.key) <= s.home.Keys
    ensures WorkerOk(kind, s', s'.worker)
  {
  }

  lemma CommitKeepsHolders(h: Hasher, kind: Kind, s: Collector)
    requires s.worker.Decided? && InvHolders(h, kind, s)
    ensures InvHolders(h, kind, Committed(h, kind, s))
  {
    var s' := Committed(h, kind, s);
    var w := s.worker;
    var prev := EntryIn(s.cache, w.key);
    var out := Engine.Decide(h, kind, prev, w.what);
    if prev.Some? {
      assert SlotOk(h, kind, s, s.cache[w.key]);
    }
    AudiencesKnown(h, kind, prev, w.what, s.home.Keys);
    forall l | l in s'.log
      ensures Known(s', l.ev.subs)
    {
      if l !in s.log {
        assert l in Tag(w.key, out.events);
        assert l.ev in out.events;
      }
    }
    forall k | k in s'.cache
      ensures SlotOk(h, kind, s', s'.cache[k])
    {
      if k != w.key {
        assert SlotOk(h, kind, s, s.cache[k]);
      }
    }
  }

  lemma AudiencesKnown(h: Hasher, kind: Kind, prev: Option<Entry>, d: Engine.Decision, known: set<Uid>)
    requires Engine.Holders(prev) <= known && (d.Send? ==> d.subs <= known)
    ensures forall e | e in Engine.Decide(h, kind, prev, d).events :: e.subs != {} && e.subs <= known
  {
  }
}
