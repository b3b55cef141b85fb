/** Runs in which something one would expect fails. The pods have no owners, and u is the only subscriber. */
module Counterexamples {
  import opened Types
  import opened Relations
  import opened CollectorSteps
  import opened System
  import opened Runs
  import Attempts
  import Convergence
  import Engine
  import Replicas
  import Subscriber
  import Theorems

  const POD_KEY := Key("ns", "pod")
  const NS_KEY := Key("", "ns")

  function PodOn(uid: ObjUid, node: Node): PodObj {
    PodObj(uid, node, "", map[], [], "", "", "")
  }

  /** A collector that u registered with, naming a node. */
  function Registered(node: Node): Collector {
    FRESH.(registry := map[node := {"u"}], home := map["u" := node])
  }

  lemma RegistersU(h: Hasher, s: Sys, kind: Kind, node: Node)
    requires Reachable(h, s) && kind in s.coll && s.coll[kind] == FRESH.(disp := Received(true, "u", node))
    requires s.cluster.pods == map[]
    ensures Reachable(h, With(s, kind, Registered(node)))
  {
    var c := FRESH.(disp := Received(true, "u", node));
    WithOwn(s, kind);
    Listens(h, s, kind, c, "u", node);
    assert {} + {"u"} == {"u"};
    assert RegistryWrite(c).(disp := Waiting) == Registered(node);
  }

  /** What stays the same while a pod is reconciled. */
  predicate SameBesidesPods(s: Sys, s': Sys) {
    && s'.cluster == s.cluster && s'.watch == s.watch && s'.conns == s.conns && s'.capacity == s.capacity
    && s'.cur == s.cur && s'.failing == s.failing
    && s'.coll.Keys == s.coll.Keys && forall kind | kind in s.coll && kind != Pod :: s'.coll[kind] == s.coll[kind]
  }

  /** A worker that has read its pod and the subscribers. */
  lemma ReadsPod(h: Hasher, s: Sys, c: Collector)
    requires Reachable(h, With(s, Pod, c)) && c.worker.Idle? && POD_KEY in c.pending && POD_KEY in s.cluster.pods
    ensures Reachable(h, With(s, Pod, c.(pending := c.pending - {POD_KEY},
                                         worker := SubsRead(c.registry, GotPod(POD_KEY, s.cluster.pods[POD_KEY])))))
  {
    Takes(h, s, Pod, c, POD_KEY);
    ReadsSubs(h, s, c.(pending := c.pending - {POD_KEY}, worker := GotPod(POD_KEY, s.cluster.pods[POD_KEY])));
  }

  function ContentOf(uid: ObjUid, node: Node): Content {
    Attempts.PodContent(POD_KEY, PodOn(uid, node), "ns-uid", [], [])
  }

  function Sent(h: Hasher, c: Collector, uid: ObjUid, node: Node): Collector
    requires node in c.registry
  {
    Committed(h, Pod, c.(worker := Decided(POD_KEY, Engine.Send(ContentOf(uid, node), node, c.registry[node]))))
  }

  lemma SendsPod(h: Hasher, s: Sys, c: Collector, uid: ObjUid, node: Node)
    requires Reachable(h, With(s, Pod, c)) && c.worker.Idle? && POD_KEY in c.pending && node in c.registry
    requires POD_KEY in s.cluster.pods && s.cluster.pods[POD_KEY] == PodOn(uid, node)
    ensures Reachable(h, With(s, Pod, Sent(h, c.(pending := c.pending - {POD_KEY}), uid, node)))
  {
    ReadsPod(h, s, c);
    var read := c.(pending := c.pending - {POD_KEY}, worker := PodSubs(POD_KEY, PodOn(uid, node), c.registry[node]));
    Builds(h, s, read, "ns-uid");
    Commits(h, s, Pod, read.(worker := Built(read.worker, "ns-uid", [], [])));
  }

  /** A pod collector at rest that has sent the pod to u. */
  predicate HoldsIdly(c: Collector, node: Node) {
    && c.worker.Idle? && c.disp.Waiting? && !c.lossy && c.pending == {}
    && c.registry == Registered(node).registry && c.gone == {}
    && POD_KEY in c.cache && c.cache[POD_KEY].entry.subs == {"u"} && c.cache[POD_KEY].node == node
  }

  /** About to push the one event of the first reconcile, a Create that triggers the namespace. */
  predicate SendsCreate(c: Collector, uid: ObjUid, node: Node) {
    && HoldsIdly(c.(worker := Idle), node)
    && c.worker.Pushing? && |c.worker.events| == 1 && MustTrigger(Pod, c.worker) && !c.worker.triggered
    && c.worker.refs == ContentOf(uid, node).refs
  }

  lemma FirstSent(h: Hasher, uid: ObjUid, node: Node)
    ensures SendsCreate(Sent(h, Registered(node), uid, node), uid, node)
  {
    assert {"u"} - {} == {"u"};
  }

  lemma OneTrigger(uid: ObjUid, node: Node)
    ensures Attempts.OwnerTriggers(ContentOf(uid, node).refs) == {(Namespace, NS_KEY)}
  {
    var refs := ContentOf(uid, node).refs.value;
    assert refs == map[Namespace := [Ref(NS_KEY, "ns-uid")], Service := []];
    assert refs[Namespace][0] in refs[Namespace];
  }

  lemma PushesOne(h: Hasher, s: Sys, c: Collector) returns (s': Sys)
    requires Reachable(h, With(s, Pod, c)) && |s.chan| < s.capacity
    requires c.worker.Pushing? && |c.worker.events| == 1 && (MustTrigger(Pod, c.worker) ==> c.worker.triggered)
    ensures Reachable(h, s') && s'.coll == s.coll[Pod := c.(worker := Idle)] && s'.triggers == s.triggers
    ensures s'.cluster == s.cluster && s'.watch == s.watch && s'.conns == s.conns && s'.capacity == s.capacity
            && |s'.chan| == |s.chan| + 1 && s'.cur == s.cur && s'.failing == s.failing
  {
    var w := c.worker;
    Pushes(h, With(s, Pod, c));
    var pushed := c.(worker := w.(events := [], triggered := false));
    assert w.events[1..] == [];
    WithTwice(s, Pod, c, pushed);
    var s1 := s.(chan := s.chan + [Head(Pod, w)], pushed := s.pushed + [Head(Pod, w)]);
    Finishes(h, s1, Pod, pushed);
    s' := With(s1, Pod, pushed.(worker := Idle));
  }

  lemma TriggersNamespace(h: Hasher, s: Sys, c: Collector, uid: ObjUid, node: Node)
    requires Reachable(h, With(s, Pod, c)) && MustTrigger(Pod, c.worker) && !c.worker.triggered
    requires c.worker.refs == ContentOf(uid, node).refs
    ensures Reachable(h, With(s.(triggers := s.triggers + {(Namespace, NS_KEY)}), Pod,
                              c.(worker := c.worker.(triggered := true))))
  {
    Triggers(h, With(s, Pod, c));
    OneTrigger(uid, node);
    WithTwice(s, Pod, c, c.(worker := c.worker.(triggered := true)));
  }

  lemma SendsFirst(h: Hasher, s: Sys, uid: ObjUid, node: Node) returns (sent: Collector)
    requires Reachable(h, s) && Pod in s.coll && s.coll[Pod] == Registered(node).(pending := {POD_KEY})
    requires POD_KEY in s.cluster.pods && s.cluster.pods[POD_KEY] == PodOn(uid, node)
    ensures Reachable(h, With(s, Pod, sent)) && SendsCreate(sent, uid, node)
  {
    WithOwn(s, Pod);
    SendsPod(h, s, s.coll[Pod], uid, node);
    assert {POD_KEY} - {POD_KEY} == {};
    assert s.coll[Pod].(pending := {}) == Registered(node);
    FirstSent(h, uid, node);
    sent := Sent(h, Registered(node), uid, node);
  }

  /** The pod is reconciled for the first time, pushed, and its namespace is triggered. */
  lemma FirstPod(h: Hasher, s: Sys, uid: ObjUid, node: Node) returns (s': Sys)
    requires Reachable(h, s) && Pod in s.coll && |s.chan| < s.capacity
    requires s.coll[Pod] == Registered(node).(pending := {POD_KEY})
    requires POD_KEY in s.cluster.pods && s.cluster.pods[POD_KEY] == PodOn(uid, node)
    ensures Reachable(h, s') && SameBesidesPods(s, s') && s'.triggers == s.triggers + {(Namespace, NS_KEY)}
    ensures |s'.chan| == |s.chan| + 1 && Pod in s'.coll && HoldsIdly(s'.coll[Pod], node)
  {
    var sent := SendsFirst(h, s, uid, node);
    TriggersNamespace(h, s, sent, uid, node);
    var launched := sent.(worker := sent.worker.(triggered := true));
    s' := PushesOne(h, s.(triggers := s.triggers + {(Namespace, NS_KEY)}), launched);
    assert launched.(worker := Idle) == sent.(worker := Idle);
  }

  lemma PodWatched(h: Hasher, node: Node) returns (s: Sys)
    ensures Reachable(h, s) && Pod in s.coll && s.coll[Pod] == Registered(node)
    ensures s.cluster.pods == map[] && s.chan == [] && s.capacity == 1 && s.conns == {"u"}
  {
    Joins(h, node, {Pod});
    var s0 := Joining(node, {Pod});
    Hears(h, s0, Pod);
    var s1 := With(InPhase(s0, "u", System.Subscribing({Pod} - {Pod})), Pod, FRESH.(disp := Received(true, "u", node)));
    RegistersU(h, s1, Pod, node);
    s := With(s1, Pod, Registered(node));
  }

  /** The state with the pod in the cluster and its key due. */
  function Due(s: Sys, pod: PodObj): Sys
    requires Pod in s.coll
  {
    Queued(s, Pod, {POD_KEY}).(cluster := s.cluster.(pods := s.cluster.pods[POD_KEY := pod]))
  }

  /** An informer announces a pod that is scheduled. */
  lemma PodAnnounced(h: Hasher, s: Sys, pod: PodObj)
    requires Reachable(h, s) && Pod in s.coll && pod.node != ""
    ensures Reachable(h, Due(s, pod))
  {
    Changes(h, s, POD_KEY, Some(pod));
  }

  lemma Requested(h: Hasher, s: Sys, key: Key)
    requires Reachable(h, s) && Pod in s.coll
    ensures Reachable(h, Queued(s, Pod, {key}))
  {
    WithOwn(s, Pod);
    ReachedLocally(h, s, Pod, s.coll[Pod], Enqueue(key));
  }

  /** A slice asks for one that is not. */
  lemma PodRequested(h: Hasher, s: Sys, pod: PodObj)
    requires Reachable(h, s) && Pod in s.coll && pod.node == "" && POD_KEY !in s.cluster.pods
    ensures Reachable(h, Due(s, pod))
  {
    Changes(h, s, POD_KEY, Some(pod));
    var s1 := Queued(s, Pod, {}).(cluster := s.cluster.(pods := s.cluster.pods[POD_KEY := pod]));
    Requested(h, s1, POD_KEY);
    QueuedTwice(s1, s, pod);
  }

  lemma QueuedTwice(s1: Sys, s: Sys, pod: PodObj)
    requires Pod in s.coll
    requires s1 == Queued(s, Pod, {}).(cluster := s.cluster.(pods := s.cluster.pods[POD_KEY := pod]))
    ensures Queued(s1, Pod, {POD_KEY}) == Due(s, pod)
  {
    assert s.coll[Pod].pending + {} + {POD_KEY} == s.coll[Pod].pending + {POD_KEY};
    assert Queued(s1, Pod, {POD_KEY}).coll == Due(s, pod).coll;
  }

  lemma PodHeld(h: Hasher, node: Node) returns (s: Sys)
    ensures Reachable(h, s) && Pod in s.coll && HoldsIdly(s.coll[Pod], node) && s.conns == {"u"}
    ensures POD_KEY in s.cluster.pods && s.cluster.pods[POD_KEY] == PodOn("a", node)
  {
    var s0 := PodWatched(h, node);
    if node == "" {
      PodRequested(h, s0, PodOn("a", node));
    } else {
      PodAnnounced(h, s0, PodOn("a", node));
    }
    assert {} + {POD_KEY} == {POD_KEY};
    s := FirstPod(h, Due(s0, PodOn("a", node)), "a", node);
  }

  // ----- The silent drop -----

  predicate StrandedThere(s: Sys) {
    && Pod in s.coll && (POD_KEY, "u") in s.coll[Pod].adrift
    && "u" in s.conns && "u" in Subscriber.At(s.coll[Pod].registry, "n1")
  }

  /** A pod is replaced by one of the same name on a node where nobody watches: u is still connected and registered for
      the first node, is forgotten, and is never told that the pod it holds is gone. */
  lemma PodMoveStrands(h: Hasher)
    ensures exists s :: Reachable(h, s) && StrandedThere(s)
  {
    var s0 := PodHeld(h, "n1");
    PodAnnounced(h, s0, PodOn("b", "n2"));
    var s1 := Due(s0, PodOn("b", "n2"));
    var c := s1.coll[Pod];
    WithOwn(s1, Pod);
    ReadsPod(h, s1, c);
    var read := c.(pending := c.pending - {POD_KEY}, worker := Decided(POD_KEY, Engine.NoSubscribers("n2")));
    Commits(h, s1, Pod, read);
    assert "u" in HoldersAt(read.cache, POD_KEY);
    assert StrandedThere(With(s1, Pod, Committed(h, Pod, read)));
  }

  // ----- A Watch that names no node -----

  ghost predicate Outlived(s: Sys) {
    && Pod in s.coll && !s.coll[Pod].lossy && Convergence.Drained(s.coll[Pod])
    && POD_KEY !in s.cluster.pods && Replicas.Holds(s.coll[Pod], POD_KEY, "u")
    && !Convergence.UpToDate(s.cluster.pods, s.coll[Pod], POD_KEY)
  }

  /** A pod that was never scheduled is sent to a Watch that names no node, when a slice triggers it; nobody hears of
      its deletion, and the entry stays although the collector has nothing left to do. */
  lemma EntryOutlivesPod(h: Hasher)
    ensures exists s :: Reachable(h, s) && Outlived(s)
  {
    var s0 := PodHeld(h, "");
    Changes(h, s0, POD_KEY, None);
    var s1 := Queued(s0, Pod, {}).(cluster := s0.cluster.(pods := s0.cluster.pods - {POD_KEY}));
    assert Outlived(s1);
  }

  // ----- A pod recreated under its name -----

  const NAMESPACE := Object("ns-uid", "", [], map[])

  /** u is joining; the other collectors have nothing to do. */
  predicate Quiet(s: Sys, phase: Phase) {
    && s.coll.Keys == Empty().coll.Keys
    && (forall kind | kind in s.coll && kind != Pod && kind != Namespace :: s.coll[kind] == FRESH)
    && "u" in s.watch && s.watch["u"] == Watch("n1", {Pod, Namespace}, phase)
    && s.capacity == 1 && s.cur.None? && s.failing == {}
  }

  predicate Unused(s: Sys) {
    s.chan == [] && s.triggers == {} && s.cluster == Cluster(map[], map[])
  }

  lemma StaysQuiet(s: Sys, phase: Phase, kind: Kind, c: Collector, next: Phase)
    requires Quiet(s, phase) && kind in {Pod, Namespace}
    ensures Quiet(With(InPhase(s, "u", next), kind, c), next) && Quiet(With(s, kind, c), phase)
  {
  }

  lemma Hearing(h: Hasher, s: Sys, kind: Kind, todo: set<Kind>) returns (s': Sys)
    requires Reachable(h, s) && Quiet(s, System.Subscribing(todo)) && Unused(s)
    requires kind in todo && kind in {Pod, Namespace} && s.coll[kind] == FRESH
    ensures Reachable(h, s') && Quiet(s', System.Subscribing(todo - {kind})) && Unused(s')
    ensures s'.coll == s.coll[kind := FRESH.(disp := Received(true, "u", "n1"))]
  {
    Hears(h, s, kind);
    var told := FRESH.(disp := Received(true, "u", "n1"));
    StaysQuiet(s, System.Subscribing(todo), kind, told, System.Subscribing(todo - {kind}));
    s' := With(InPhase(s, "u", System.Subscribing(todo - {kind})), kind, told);
  }

  lemma Registering(h: Hasher, s: Sys, kind: Kind, todo: set<Kind>) returns (s': Sys)
    requires Reachable(h, s) && Quiet(s, System.Subscribing(todo)) && Unused(s)
    requires kind in todo && kind in {Pod, Namespace} && s.coll[kind] == FRESH
    ensures Reachable(h, s') && Quiet(s', System.Subscribing(todo - {kind})) && Unused(s')
    ensures s'.coll == s.coll[kind := Registered("n1")]
  {
    var s1 := Hearing(h, s, kind, todo);
    RegistersU(h, s1, kind, "n1");
    var left := System.Subscribing(todo - {kind});
    StaysQuiet(s1, left, kind, Registered("n1"), left);
    SameUpdate(s.coll, kind, s1.coll[kind], Registered("n1"));
    s' := With(s1, kind, Registered("n1"));
  }

  lemma SameUpdate(coll: map<Kind, Collector>, kind: Kind, c: Collector, c': Collector)
    ensures coll[kind := c][kind := c'] == coll[kind := c']
  {
  }

  lemma NowWatching(h: Hasher, s: Sys) returns (s': Sys)
    requires Reachable(h, s) && Quiet(s, System.Subscribing({})) && Unused(s)
    ensures Reachable(h, s') && Quiet(s', Watching) && Unused(s') && s'.coll == s.coll
  {
    Settles(h, s, "u");
    s' := InPhase(s, "u", Watching);
  }

  lemma StartsJoining(h: Hasher) returns (s: Sys)
    ensures Reachable(h, s) && Quiet(s, System.Subscribing({Pod, Namespace})) && Unused(s)
    ensures s.coll[Pod] == s.coll[Namespace] == FRESH
  {
    Joins(h, "n1", {Pod, Namespace});
    s := Joining("n1", {Pod, Namespace});
  }

  lemma BothJoin(h: Hasher) returns (s: Sys)
    ensures Reachable(h, s) && Quiet(s, Watching) && Unused(s)
    ensures s.coll[Pod] == s.coll[Namespace] == Registered("n1")
  {
    var s0 := StartsJoining(h);
    var s1 := Registering(h, s0, Pod, {Pod, Namespace});
    assert {Pod, Namespace} - {Pod} == {Namespace} && {Namespace} - {Namespace} == {};
    var s2 := Registering(h, s1, Namespace, {Namespace});
    s := NowWatching(h, s2);
  }

  /** The namespace exists and its collector has not looked at it yet. */
  predicate Stage(s: Sys, pods: map<Key, PodObj>, triggers: set<(Kind, Key)>) {
    && Quiet(s, Watching) && s.triggers == triggers && s.coll[Namespace] == Registered("n1").(pending := {NS_KEY})
    && s.cluster == Cluster(pods, map[(Namespace, NS_KEY) := NAMESPACE])
  }

  lemma NamespaceCreated(h: Hasher, s: Sys) returns (s': Sys)
    requires Reachable(h, s) && Quiet(s, Watching) && Unused(s) && s.coll[Pod] == s.coll[Namespace] == Registered("n1")
    ensures Reachable(h, s') && Stage(s', map[], {}) && s'.chan == [] && s'.coll[Pod] == Registered("n1")
  {
    Creates(h, s, Namespace, NS_KEY, NAMESPACE);
    assert {} + {NS_KEY} == {NS_KEY};
    StaysQuiet(s, Watching, Namespace, Registered("n1").(pending := {NS_KEY}), Watching);
    s' := Queued(s, Namespace, {NS_KEY}).(cluster := s.cluster.(objects := s.cluster.objects[(Namespace, NS_KEY) := NAMESPACE]));
  }

  lemma SameIsQuiet(s: Sys, s': Sys)
    requires Quiet(s, Watching) && SameBesidesPods(s, s')
    ensures Quiet(s', Watching) && s'.coll[Namespace] == s.coll[Namespace]
  {
  }

  lemma DueIsQuiet(s: Sys, pod: PodObj)
    requires Quiet(s, Watching)
    ensures var s' := Due(s, pod);
            && Quiet(s', Watching) && s'.coll[Namespace] == s.coll[Namespace]
            && s'.coll[Pod] == s.coll[Pod].(pending := s.coll[Pod].pending + {POD_KEY})
            && s'.triggers == s.triggers && s'.chan == s.chan
            && s'.cluster == s.cluster.(pods := s.cluster.pods[POD_KEY := pod])
  {
    StaysQuiet(s, Watching, Pod, Due(s, pod).coll[Pod], Watching);
  }

  lemma PodCreated(h: Hasher, s: Sys) returns (s': Sys)
    requires Reachable(h, s) && Stage(s, map[], {}) && s.coll[Pod] == Registered("n1") && s.chan == []
    ensures Reachable(h, s') && Stage(s', map[POD_KEY := PodOn("a", "n1")], {}) && s'.chan == []
    ensures s'.coll[Pod] == Registered("n1").(pending := {POD_KEY})
  {
    PodAnnounced(h, s, PodOn("a", "n1"));
    assert {} + {POD_KEY} == {POD_KEY};
    DueIsQuiet(s, PodOn("a", "n1"));
    s' := Due(s, PodOn("a", "n1"));
  }

  lemma PodSent(h: Hasher, s: Sys) returns (s': Sys)
    requires Reachable(h, s) && Stage(s, map[POD_KEY := PodOn("a", "n1")], {}) && s.chan == []
    requires s.coll[Pod] == Registered("n1").(pending := {POD_KEY})
    ensures Reachable(h, s') && Stage(s', map[POD_KEY := PodOn("a", "n1")], {(Namespace, NS_KEY)})
    ensures |s'.chan| == 1 && HoldsIdly(s'.coll[Pod], "n1")
  {
    s' := FirstPod(h, s, "a", "n1");
    SameIsQuiet(s, s');
  }

  lemma Emptied(h: Hasher, s: Sys, pods: map<Key, PodObj>, triggers: set<(Kind, Key)>) returns (s': Sys)
    requires Reachable(h, s) && Stage(s, pods, triggers) && |s.chan| == 1
    ensures Reachable(h, s') && Stage(s', pods, triggers) && s'.chan == [] && s'.coll == s.coll
  {
    s' := Drains(h, s);
  }

  lemma PodDeleted(h: Hasher, s: Sys) returns (s': Sys)
    requires Reachable(h, s) && Stage(s, map[POD_KEY := PodOn("a", "n1")], {(Namespace, NS_KEY)})
    requires s.chan == [] && HoldsIdly(s.coll[Pod], "n1")
    ensures Reachable(h, s') && Stage(s', map[], {(Namespace, NS_KEY)}) && s'.chan == []
    ensures s'.coll[Pod] == s.coll[Pod].(pending := {POD_KEY})
  {
    Changes(h, s, POD_KEY, None);
    assert {} + {POD_KEY} == {POD_KEY};
    StaysQuiet(s, Watching, Pod, s.coll[Pod].(pending := {POD_KEY}), Watching);
    assert Put(s.cluster.pods, POD_KEY, None) == map[];
    s' := Queued(s, Pod, {POD_KEY}).(cluster := s.cluster.(pods := Put(s.cluster.pods, POD_KEY, None)));
  }

  lemma NothingSent(h: Hasher, c: Collector)
    requires c.worker == Decided(NS_KEY, Engine.Absent) && c.cache == map[]
    ensures var c' := Committed(h, Namespace, c);
            && c'.worker == Pushing(NS_KEY, None, [], false) && c'.cache == map[]
            && c'.pending == c.pending && c'.disp == c.disp && c'.lossy == c.lossy
  {
  }

  /** A collector at rest that has sent nothing. */
  predicate Unsent(c: Collector) {
    c.worker.Idle? && c.disp.Waiting? && !c.lossy && c.cache == map[]
  }

  /** The namespace collector looks at the namespace while there is no pod in it. */
  lemma NamespaceSkipped(h: Hasher, s: Sys, c: Collector) returns (c': Collector)
    requires Reachable(h, With(s, Namespace, c)) && Unsent(c) && c.pending == {NS_KEY}
    requires s.cluster == Cluster(map[], map[(Namespace, NS_KEY) := NAMESPACE])
    ensures Reachable(h, With(s, Namespace, c')) && Unsent(c') && c'.pending == {}
  {
    Takes(h, s, Namespace, c, NS_KEY);
    assert {NS_KEY} - {NS_KEY} == {};
    var got := c.(pending := {}, worker := GotObject(NS_KEY, NAMESPACE));
    FindsNobody(h, s, Namespace, got);
    var none := got.(worker := Decided(NS_KEY, Engine.Absent));
    Commits(h, s, Namespace, none);
    NothingSent(h, none);
    Finishes(h, s, Namespace, Committed(h, Namespace, none));
    c' := Committed(h, Namespace, none).(worker := Idle);
  }

  /** The second reconcile of a pod that u holds already has no Create or Delete to push. */
  lemma SentAgain(h: Hasher, c: Collector, uid: ObjUid, node: Node)
    requires HoldsIdly(c, node)
    ensures var c' := Sent(h, c, uid, node);
            && HoldsIdly(c'.(worker := Idle), node)
            && c'.worker.Pushing? && |c'.worker.events| <= 1 && !MustTrigger(Pod, c'.worker)
  {
    assert {"u"} - {"u"} == {};
  }

  lemma PushesNone(h: Hasher, s: Sys, c: Collector) returns (s': Sys)
    requires Reachable(h, With(s, Pod, c)) && c.worker.Pushing? && c.worker.events == []
    ensures Reachable(h, s') && s'.coll == s.coll[Pod := c.(worker := Idle)]
    ensures s'.triggers == s.triggers && s'.cluster == s.cluster && s'.watch == s.watch && s'.conns == s.conns
            && s'.capacity == s.capacity && s'.cur == s.cur && s'.failing == s.failing
  {
    Finishes(h, s, Pod, c);
    s' := With(s, Pod, c.(worker := Idle));
  }

  lemma PushesAtMostOne(h: Hasher, s: Sys, c: Collector) returns (s': Sys)
    requires Reachable(h, With(s, Pod, c)) && |s.chan| < s.capacity
    requires c.worker.Pushing? && |c.worker.events| <= 1 && !MustTrigger(Pod, c.worker)
    ensures Reachable(h, s') && Pod in s'.coll && s'.coll[Pod] == c.(worker := Idle) && s'.triggers == s.triggers
    ensures Pod in s.coll ==> SameBesidesPods(s, s')
  {
    if c.worker.events == [] {
      s' := PushesNone(h, s, c);
    } else {
      s' := PushesOne(h, s, c);
    }
  }

  lemma SecondPod(h: Hasher, s: Sys, c: Collector, uid: ObjUid, node: Node) returns (s': Sys, c': Collector)
    requires Reachable(h, With(s, Pod, c)) && |s.chan| < s.capacity
    requires HoldsIdly(c.(pending := {}), node) && c.pending == {POD_KEY}
    requires POD_KEY in s.cluster.pods && s.cluster.pods[POD_KEY] == PodOn(uid, node)
    ensures Reachable(h, s') && Pod in s'.coll && s'.coll[Pod] == c' && HoldsIdly(c', node) && s'.triggers == s.triggers
    ensures Pod in s.coll ==> SameBesidesPods(s, s')
  {
    SendsPod(h, s, c, uid, node);
    assert {POD_KEY} - {POD_KEY} == {};
    SentAgain(h, c.(pending := {}), uid, node);
    var sent := Sent(h, c.(pending := {}), uid, node);
    s' := PushesAtMostOne(h, s, sent);
    c' := sent.(worker := Idle);
  }

  /** The trigger has come, and was handled while the pod was away. */
  predicate Wasted(s: Sys, pods: map<Key, PodObj>) {
    && Quiet(s, Watching) && s.triggers == {} && Unsent(s.coll[Namespace]) && s.coll[Namespace].pending == {}
    && s.cluster == Cluster(pods, map[(Namespace, NS_KEY) := NAMESPACE])
  }

  lemma TriggerArrives(h: Hasher, s: Sys) returns (s': Sys)
    requires Reachable(h, s) && Stage(s, map[], {(Namespace, NS_KEY)})
    ensures Reachable(h, s') && Stage(s', map[], {}) && s'.chan == s.chan && s'.coll[Pod] == s.coll[Pod]
  {
    Delivers(h, s, Namespace, NS_KEY);
    assert {NS_KEY} + {NS_KEY} == {NS_KEY};
    s' := Queued(s, Namespace, {NS_KEY}).(triggers := s.triggers - {(Namespace, NS_KEY)});
    StaysQuiet(s, Watching, Namespace, s'.coll[Namespace], Watching);
  }

  lemma TriggerWasted(h: Hasher, s: Sys) returns (s': Sys)
    requires Reachable(h, s) && Stage(s, map[], {})
    ensures Reachable(h, s') && Wasted(s', map[]) && s'.chan == s.chan && s'.coll[Pod] == s.coll[Pod]
  {
    WithOwn(s, Namespace);
    var c := NamespaceSkipped(h, s, s.coll[Namespace]);
    StaysQuiet(s, Watching, Namespace, c, Watching);
    s' := With(s, Namespace, c);
  }

  lemma PodBack(h: Hasher, s: Sys) returns (s': Sys)
    requires Reachable(h, s) && Wasted(s, map[]) && s.chan == []
    requires s.coll[Pod].pending == {POD_KEY} && HoldsIdly(s.coll[Pod].(pending := {}), "n1")
    ensures Reachable(h, s') && Wasted(s', map[POD_KEY := PodOn("b", "n1")]) && HoldsIdly(s'.coll[Pod], "n1")
  {
    PodAnnounced(h, s, PodOn("b", "n1"));
    assert {POD_KEY} + {POD_KEY} == {POD_KEY};
    DueIsQuiet(s, PodOn("b", "n1"));
    var s1 := Due(s, PodOn("b", "n1"));
    WithOwn(s1, Pod);
    var c;
    s', c := SecondPod(h, s1, s1.coll[Pod], "b", "n1");
    SameIsQuiet(s1, s');
  }

  ghost predicate NamespaceMissing(s: Sys) {
    && Theorems.Settled(s, s.coll.Keys) && s.failing == {} && PhaseIs(s, "u", Watching) && s.watch["u"].kinds == {Pod, Namespace} && s.watch["u"].node == "n1"
    && POD_KEY in s.cluster.pods && s.cluster.pods[POD_KEY].node == "n1" && (Namespace, NS_KEY) in s.cluster.objects
    && Namespace in s.coll && !Replicas.Holds(s.coll[Namespace], NS_KEY, "u")
  }

  lemma MissingThere(s: Sys)
    requires Wasted(s, map[POD_KEY := PodOn("b", "n1")]) && HoldsIdly(s.coll[Pod], "n1")
    ensures NamespaceMissing(s)
  {
    forall kind | kind in s.coll
      ensures var c := s.coll[kind]; c.pending == {} && c.worker.Idle? && c.disp.Waiting? && !c.lossy
    {
    }
  }

  lemma UntilDeleted(h: Hasher) returns (s: Sys)
    ensures Reachable(h, s) && Stage(s, map[], {(Namespace, NS_KEY)}) && s.chan == []
    ensures s.coll[Pod].pending == {POD_KEY} && HoldsIdly(s.coll[Pod].(pending := {}), "n1")
  {
    var joined := BothJoin(h);
    var created := NamespaceCreated(h, joined);
    var there := PodCreated(h, created);
    var sent := PodSent(h, there);
    var emptied := Emptied(h, sent, map[POD_KEY := PodOn("a", "n1")], {(Namespace, NS_KEY)});
    s := PodDeleted(h, emptied);
    assert s.coll[Pod].(pending := {}) == emptied.coll[Pod];
  }

  /** A pod is deleted and recreated under its name on the same node before its collector notices: that is an Update,
      which triggers nobody. The only trigger was handled in between, so u has the pod and never gets its namespace. */
  lemma RecreatedPodHidesNamespace(h: Hasher)
    ensures exists s :: Reachable(h, s) && NamespaceMissing(s)
  {
    var deleted := UntilDeleted(h);
    var due := TriggerArrives(h, deleted);
    var wasted := TriggerWasted(h, due);
    var back := PodBack(h, wasted);
    MissingThere(back);
  }
}
