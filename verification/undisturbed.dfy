/**
 The two descriptions of a reconcile agree. A worker whose steps nobody comes between decides what Attempts says of
 faithful reads, so what is proved of one reconcile at a time is about the step system as well.
 */
module Undisturbed {
  import opened Types
  import opened Relations
  import opened CollectorSteps
  import Attempts
  import Engine
  import Onboarding

  /** The steps from taking a key to the decision. */
  predicate Reads(st: Step) {
    st.Get? || st.ReadSubs? || st.Build? || st.ListRelated? || st.CheckNode? || st.Fetch? || st.Conclude?
  }

  /** What a worker has so far, in a cluster and with a registry that stand still. */
  ghost predicate OnTrack(kind: Kind, cl: Cluster, r: Registry, w: Worker) {
    match w
    case Taken(_) => true
    case GotPod(key, pod) => kind.Pod? && key in cl.pods && pod == cl.pods[key]
    case PodSubs(key, pod, subs) =>
      kind.Pod? && key in cl.pods && pod == cl.pods[key] && pod.node in r && subs == r[pod.node]
    case GotObject(key, obj) => !kind.Pod? && (kind, key) in cl.objects && obj == cl.objects[(kind, key)]
    case Collecting(key, obj, nodes, todo, checked, acc, _, _) =>
      && !kind.Pod? && (kind, key) in cl.objects && obj == cl.objects[(kind, key)]
      && Collects(r, RelatedNodes(kind, key, obj, cl.pods), todo, checked, acc)
    case Decided(key, what) => Onboarding.Faithful(kind, cl, r, key, what)
    case _ => false
  }

  /** The loop of getSubscribers: what was found and what is to come make up the result. */
  ghost predicate Collects(r: Registry, nodes: set<Node>, todo: seq<Node>, checked: bool, acc: set<Uid>) {
    && acc + SubscribersOf(r, Elements(todo)) == SubscribersOf(r, nodes)
    && (checked ==> todo != [] && todo[0] in r)
  }

  lemma HeadTaken(r: Registry, todo: seq<Node>)
    requires todo != []
    ensures SubscribersOf(r, Elements(todo)) ==
            (if todo[0] in r then r[todo[0]] else {}) + SubscribersOf(r, Elements(todo[1..]))
  {
    assert todo == [todo[0]] + todo[1..];
    assert Elements(todo) == {todo[0]} + Elements(todo[1..]);
  }

  lemma CollectsOn(r: Registry, nodes: set<Node>, todo: seq<Node>, checked: bool, acc: set<Uid>)
    requires Collects(r, nodes, todo, checked, acc) && todo != []
    ensures if todo[0] in r then Collects(r, nodes, todo, true, acc)
                                 && Collects(r, nodes, todo[1..], false, acc + r[todo[0]])
            else Collects(r, nodes, todo[1..], false, acc)
  {
    HeadTaken(r, todo);
    var rest := SubscribersOf(r, Elements(todo[1..]));
    if todo[0] in r {
      assert acc + r[todo[0]] + rest == acc + (r[todo[0]] + rest);
    } else {
      assert {} + rest == rest;
    }
  }

  lemma {:induction false} Enumerated<T>(all: set<T>) returns (list: seq<T>)
    ensures forall x :: x in list <==> x in all
  {
    if all == {} {
      list := [];
    } else {
      var x :| x in all;
      list := Enumerated(all - {x});
      list := list + [x];
    }
  }

  lemma PodDecided(cl: Cluster, r: Registry, key: Key, nsUid: ObjUid, rsOwners: seq<OwnerRef>,
                   services: seq<(Key, Object)>, d: Engine.Decision)
    requires d == if key !in cl.pods then Engine.Absent
                  else if cl.pods[key].node !in r then Engine.NoSubscribers(cl.pods[key].node)
                  else Engine.Send(Attempts.PodContent(key, cl.pods[key], nsUid, rsOwners, services),
                                   cl.pods[key].node, r[cl.pods[key].node])
    ensures Onboarding.Faithful(Pod, cl, r, key, d)
  {
    var f := Attempts.PodReads(if key in cl.pods then Found(cl.pods[key]) else Missing,
                               Found(nsUid), Found(rsOwners), Found(services), true, true);
    assert Onboarding.FaithfulPod(cl, key, f) && Attempts.PodDecision(key, r, f) == Some(d);
  }

  lemma ObjectDecided(kind: Kind, cl: Cluster, r: Registry, key: Key)
    requires !kind.Pod? && (kind, key) in cl.objects
    ensures var obj := cl.objects[(kind, key)];
            var subs := SubscribersOf(r, RelatedNodes(kind, key, obj, cl.pods));
            Onboarding.Faithful(kind, cl, r, key,
                                if subs == {} then Engine.Absent else Engine.Send(Attempts.ObjectContent(kind, obj), "", subs))
  {
    var obj := cl.objects[(kind, key)];
    var list := Enumerated(set k | k in cl.pods && Queried(kind, key, obj, k, cl.pods[k]) :: cl.pods[k]);
    var f := Attempts.ObjectReads(Found(obj), Found(list), true, true);
    Onboarding.ListedNodes(kind, key, obj, cl, list);
    assert Onboarding.FaithfulObject(kind, cl, key, f);
    if kind.Service? && obj.selector == map[] {
      assert RelatedNodes(kind, key, obj, cl.pods) == {};
    }
    assert Attempts.ObjectDecision(kind, r, f).Some?;
  }

  lemma GetOnTrack(kind: Kind, cl: Cluster, r: Registry, key: Key)
    ensures OnTrack(kind, cl, r, Got(kind, cl, key))
  {
    if kind.Pod? && key !in cl.pods {
      PodDecided(cl, r, key, "", [], [], Engine.Absent);
    } else if !kind.Pod? && (kind, key) !in cl.objects {
      var f := Attempts.ObjectReads(Missing, Missing, true, true);
      assert Onboarding.FaithfulObject(kind, cl, key, f) && Attempts.ObjectDecision(kind, r, f) == Some(Engine.Absent);
    }
  }

  lemma PodOnTrack(h: Hasher, cl: Cluster, s: Collector, st: Step)
    requires Enabled(Pod, cl, s, st) && (st.ReadSubs? || st.Build?) && OnTrack(Pod, cl, s.registry, s.worker)
    ensures OnTrack(Pod, cl, s.registry, Work(Pod, cl, s, st))
  {
    var w := s.worker;
    if st.Build? {
      PodDecided(cl, s.registry, w.key, st.nsUid, st.rsOwners, st.services,
                 Built(w, st.nsUid, st.rsOwners, st.services).what);
    } else if w.pod.node !in s.registry {
      PodDecided(cl, s.registry, w.key, "", [], [], Engine.NoSubscribers(w.pod.node));
    }
  }

  lemma LoopOnTrack(kind: Kind, cl: Cluster, s: Collector, st: Step)
    requires Enabled(kind, cl, s, st) && OnTrack(kind, cl, s.registry, s.worker)
    requires st.CheckNode? || st.Fetch? || st.Conclude?
    ensures OnTrack(kind, cl, s.registry, Work(kind, cl, s, st))
  {
    var w := s.worker;
    if st.Conclude? {
      assert Elements(w.todo) == {} && SubscribersOf(s.registry, {}) == {};
      assert w.acc + {} == w.acc;
      ObjectDecided(kind, cl, s.registry, w.key);
    } else {
      CollectsOn(s.registry, RelatedNodes(kind, w.key, w.obj, cl.pods), w.todo, w.checked, w.acc);
    }
  }

  /** However an undisturbed worker proceeds, it stays on the track of a faithful decision. */
  lemma StaysOnTrack(h: Hasher, kind: Kind, cl: Cluster, s: Collector, st: Step)
    requires Enabled(kind, cl, s, st) && Reads(st) && OnTrack(kind, cl, s.registry, s.worker)
    ensures var s' := Do(h, kind, cl, s, st);
            && s' == s.(worker := Work(kind, cl, s, st))
            && OnTrack(kind, cl, s.registry, s'.worker) && s'.worker.key == s.worker.key
  {
    if st.Get? {
      GetOnTrack(kind, cl, s.registry, s.worker.key);
    } else if st.ReadSubs? || st.Build? {
      PodOnTrack(h, cl, s, st);
    } else if !st.ListRelated? {
      LoopOnTrack(kind, cl, s, st);
    }
  }

  // ----- It gets there -----

  function Rank(w: Worker): nat {
    if w.Taken? then 3 else if w.GotPod? || w.GotObject? then 2 else if w.PodSubs? || w.Collecting? then 1 else 0
  }

  function Ahead(w: Worker): nat {
    if w.Collecting? then 2 * |w.todo| + (if w.checked then 0 else 1) else 0
  }

  ghost predicate Reaches(h: Hasher, kind: Kind, cl: Cluster, s: Collector, n: nat, t: Collector)
    decreases n
  {
    if n == 0 then s == t
    else exists st :: Reads(st) && Enabled(kind, cl, s, st) && Reaches(h, kind, cl, Do(h, kind, cl, s, st), n - 1, t)
  }

  /** Some step is possible until the decision is made. */
  lemma NextRead(kind: Kind, cl: Cluster, r: Registry, w: Worker) returns (st: Step)
    requires OnTrack(kind, cl, r, w) && !w.Decided?
    ensures Reads(st) && forall s: Collector | s.worker == w :: Enabled(kind, cl, s, st)
  {
    if w.Taken? {
      st := Get;
    } else if w.GotPod? {
      st := ReadSubs;
    } else if w.PodSubs? {
      st := Build("", [], []);
    } else if w.GotObject? {
      var order := Enumerated(RelatedNodes(kind, w.key, w.obj, cl.pods));
      assert Elements(order) == RelatedNodes(kind, w.key, w.obj, cl.pods);
      st := ListRelated(order);
    } else {
      st := if w.todo == [] then Conclude else if w.checked then Fetch else CheckNode;
    }
  }

  lemma Nearer(kind: Kind, cl: Cluster, s: Collector, st: Step)
    requires Enabled(kind, cl, s, st) && Reads(st) && OnTrack(kind, cl, s.registry, s.worker)
    ensures var w' := Work(kind, cl, s, st);
            Rank(w') < Rank(s.worker) || (Rank(w') == Rank(s.worker) && Ahead(w') < Ahead(s.worker))
  {
  }

  /** An undisturbed worker gets to a decision, the one Attempts makes of faithful reads. */
  lemma {:induction false} Decides(h: Hasher, kind: Kind, cl: Cluster, s: Collector)
    requires OnTrack(kind, cl, s.registry, s.worker)
    ensures exists n: nat, d :: Reaches(h, kind, cl, s, n, s.(worker := Decided(s.worker.key, d)))
                           && Onboarding.Faithful(kind, cl, s.registry, s.worker.key, d)
    decreases Rank(s.worker), Ahead(s.worker)
  {
    if s.worker.Decided? {
      assert Reaches(h, kind, cl, s, 0, s.(worker := Decided(s.worker.key, s.worker.what)));
    } else {
      var st := NextRead(kind, cl, s.registry, s.worker);
      StaysOnTrack(h, kind, cl, s, st);
      Nearer(kind, cl, s, st);
      var s' := Do(h, kind, cl, s, st);
      Decides(h, kind, cl, s');
      var n: nat, d :| Reaches(h, kind, cl, s', n, s'.(worker := Decided(s'.worker.key, d)))
                  && Onboarding.Faithful(kind, cl, s'.registry, s'.worker.key, d);
      assert s'.(worker := Decided(s'.worker.key, d)) == s.(worker := Decided(s.worker.key, d));
      assert Reaches(h, kind, cl, s, n + 1, s.(worker := Decided(s.worker.key, d)));
    }
  }
}
