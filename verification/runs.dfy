/** How to exhibit a run: each lemma takes a reachable state a few steps further. */
module Runs {
  import opened Types
  import opened Relations
  import opened CollectorSteps
  import opened System
  import Attempts
  import Convergence
  import Engine

  ghost predicate Reachable(h: Hasher, s: Sys) {
    exists states, steps :: IsRun(h, states, steps) && states[|steps|] == s
  }

  lemma Extended<S, A>(ok: (S, A, S) -> bool, states: seq<S>, steps: seq<A>, a: A, t: S)
    requires |states| == |steps| + 1 && ok(states[|steps|], a, t)
    requires forall i | 0 <= i < |steps| :: ok(states[i], steps[i], states[i + 1])
    ensures forall i | 0 <= i < |steps| + 1 :: ok((states + [t])[i], (steps + [a])[i], (states + [t])[i + 1])
  {
  }

  lemma RunExtended(h: Hasher, states: seq<Sys>, steps: seq<SysStep>, st: SysStep)
    requires IsRun(h, states, steps) && Allowed(states[|steps|], st)
    ensures IsRun(h, states + [Next(h, states[|steps|], st)], steps + [st])
  {
    var t := Next(h, states[|steps|], st);
    var ok := (a, x, b) => Allowed(a, x) && b == Next(h, a, x);
    Extended(ok, states, steps, st, t);
    assert (states + [t])[0] == states[0];
  }

  lemma Reached(h: Hasher, s: Sys, st: SysStep)
    requires Reachable(h, s) && Allowed(s, st)
    ensures Reachable(h, Next(h, s, st))
  {
    var states, steps :| IsRun(h, states, steps) && states[|steps|] == s;
    RunExtended(h, states, steps, st);
    Witnessed(h, states + [Next(h, s, st)], steps + [st], Next(h, s, st));
  }

  lemma Witnessed(h: Hasher, states: seq<Sys>, steps: seq<SysStep>, s: Sys)
    requires IsRun(h, states, steps) && states[|steps|] == s
    ensures Reachable(h, s)
  {
  }

  // ----- One collector at a time -----

  function With(s: Sys, kind: Kind, c: Collector): Sys {
    s.(coll := s.coll[kind := c])
  }

  lemma WithOwn(s: Sys, kind: Kind)
    requires kind in s.coll
    ensures With(s, kind, s.coll[kind]) == s
  {
    assert s.coll[kind := s.coll[kind]] == s.coll;
  }

  lemma WithTwice(s: Sys, kind: Kind, c: Collector, c': Collector)
    ensures With(With(s, kind, c), kind, c') == With(s, kind, c')
  {
    assert s.coll[kind := c][kind := c'] == s.coll[kind := c'];
  }

  lemma LocalNext(h: Hasher, s: Sys, kind: Kind, st: Step)
    requires Allowed(s, Local(kind, st))
    ensures Next(h, s, Local(kind, st)) == With(s, kind, Do(h, kind, s.cluster, s.coll[kind], st))
  {
  }

  lemma ReachedLocally(h: Hasher, s: Sys, kind: Kind, c: Collector, st: Step)
    requires Reachable(h, With(s, kind, c)) && Enabled(kind, s.cluster, c, st)
    requires !st.Receive? && !st.Push? && !st.TriggerOwners?
    ensures Reachable(h, With(s, kind, Do(h, kind, s.cluster, c, st)))
  {
    var s0 := With(s, kind, c);
    Reached(h, s0, Local(kind, st));
    LocalNext(h, s0, kind, st);
    WithTwice(s, kind, c, Do(h, kind, s.cluster, c, st));
  }

  lemma ReachedWorking(h: Hasher, s: Sys, kind: Kind, c: Collector, st: Step)
    requires Reachable(h, With(s, kind, c)) && Enabled(kind, s.cluster, c, st)
    requires Works(st) && !st.Push? && !st.TriggerOwners?
    ensures Reachable(h, With(s, kind, c.(worker := Work(kind, s.cluster, c, st))))
  {
    ReachedLocally(h, s, kind, c, st);
  }

  lemma ReachedDispatching(h: Hasher, s: Sys, kind: Kind, c: Collector, st: Step)
    requires Reachable(h, With(s, kind, c)) && Enabled(kind, s.cluster, c, st)
    requires Dispatches(st) && !st.Receive?
    ensures Reachable(h, With(s, kind, Dispatched(c, st)))
  {
    ReachedLocally(h, s, kind, c, st);
  }

  lemma Writes(h: Hasher, s: Sys, kind: Kind, c: Collector)
    requires Reachable(h, With(s, kind, c)) && c.disp.Received?
    ensures Reachable(h, With(s, kind, RegistryWrite(c)))
  {
    ReachedLocally(h, s, kind, c, WriteRegistry);
  }

  /** A new subscriber of a node without pods is registered. */
  lemma Listens(h: Hasher, s: Sys, kind: Kind, c: Collector, u: Uid, node: Node)
    requires Reachable(h, With(s, kind, c)) && c.disp == Received(true, u, node)
    requires s.cluster.pods == map[]
    ensures Reachable(h, With(s, kind, RegistryWrite(c).(disp := Waiting)))
  {
    Writes(h, s, kind, c);
    ReachedDispatching(h, s, kind, RegistryWrite(c), ListNode([]));
    ReachedDispatching(h, s, kind, RegistryWrite(c).(disp := CollectorSteps.Sending([], [])), DispatchDone);
  }

  lemma Takes(h: Hasher, s: Sys, kind: Kind, c: Collector, key: Key)
    requires Reachable(h, With(s, kind, c)) && c.worker.Idle? && key in c.pending
    ensures Reachable(h, With(s, kind, c.(pending := c.pending - {key}, worker := Got(kind, s.cluster, key))))
  {
    ReachedLocally(h, s, kind, c, Take(key));
    ReachedWorking(h, s, kind, c.(pending := c.pending - {key}, worker := Taken(key)), Get);
  }

  lemma ReadsSubs(h: Hasher, s: Sys, c: Collector)
    requires Reachable(h, With(s, Pod, c)) && c.worker.GotPod?
    ensures Reachable(h, With(s, Pod, c.(worker := SubsRead(c.registry, c.worker))))
  {
    ReachedWorking(h, s, Pod, c, ReadSubs);
  }

  lemma Builds(h: Hasher, s: Sys, c: Collector, nsUid: ObjUid)
    requires Reachable(h, With(s, Pod, c)) && c.worker.PodSubs?
    ensures Reachable(h, With(s, Pod, c.(worker := Built(c.worker, nsUid, [], []))))
  {
    ReachedWorking(h, s, Pod, c, Build(nsUid, [], []));
  }

  lemma Concludes(h: Hasher, s: Sys, kind: Kind, c: Collector)
    requires Reachable(h, With(s, kind, c)) && c.worker.Collecting? && c.worker.todo == []
    ensures Reachable(h, With(s, kind, c.(worker := Concluded(kind, c.worker))))
  {
    ReachedWorking(h, s, kind, c, Conclude);
  }

  /** An object that has no pods gets no subscribers. */
  lemma FindsNobody(h: Hasher, s: Sys, kind: Kind, c: Collector)
    requires Reachable(h, With(s, kind, c)) && c.worker.GotObject? && s.cluster.pods == map[]
    ensures Reachable(h, With(s, kind, c.(worker := Decided(c.worker.key, Engine.Absent))))
  {
    assert Elements<Node>([]) == {} && RelatedNodes(kind, c.worker.key, c.worker.obj, map[]) == {};
    ReachedWorking(h, s, kind, c, ListRelated([]));
    Concludes(h, s, kind, c.(worker := Listed(c, [])));
  }

  lemma Commits(h: Hasher, s: Sys, kind: Kind, c: Collector)
    requires Reachable(h, With(s, kind, c)) && c.worker.Decided?
    ensures Reachable(h, With(s, kind, Committed(h, kind, c)))
  {
    ReachedLocally(h, s, kind, c, Commit);
  }

  lemma Finishes(h: Hasher, s: Sys, kind: Kind, c: Collector)
    requires Reachable(h, With(s, kind, c)) && c.worker.Pushing? && c.worker.events == []
    ensures Reachable(h, With(s, kind, c.(worker := Idle)))
  {
    ReachedWorking(h, s, kind, c, Finish);
  }

  // ----- Steps of the whole system -----

  lemma Changes(h: Hasher, s: Sys, key: Key, now: Option<PodObj>)
    requires Reachable(h, s) && Pod in s.coll && Convergence.Possible(ValueAt(s.cluster.pods, key), now)
    ensures var due := if Convergence.Announced(ValueAt(s.cluster.pods, key), now) then {key} else {};
            Reachable(h, Queued(s, Pod, due).(cluster := s.cluster.(pods := Put(s.cluster.pods, key, now))))
  {
    Reached(h, s, ChangePod(key, now));
  }

  lemma TriggerEffect(h: Hasher, cl: Cluster, c: Collector)
    requires Enabled(Pod, cl, c, TriggerOwners)
    ensures Do(h, Pod, cl, c, TriggerOwners) == c.(worker := c.worker.(triggered := true))
  {
  }

  lemma LaunchNext(h: Hasher, s: Sys)
    requires Allowed(s, LaunchTriggers)
    ensures Next(h, s, LaunchTriggers) ==
            With(s, Pod, Do(h, Pod, s.cluster, s.coll[Pod], TriggerOwners))
              .(triggers := s.triggers + Attempts.OwnerTriggers(s.coll[Pod].worker.refs))
  {
  }

  lemma Triggers(h: Hasher, s: Sys)
    requires Reachable(h, s) && Pod in s.coll && MustTrigger(Pod, s.coll[Pod].worker) && !s.coll[Pod].worker.triggered
    ensures Reachable(h, With(s, Pod, s.coll[Pod].(worker := s.coll[Pod].worker.(triggered := true)))
                           .(triggers := s.triggers + Attempts.OwnerTriggers(s.coll[Pod].worker.refs)))
  {
    Reached(h, s, LaunchTriggers);
    LaunchNext(h, s);
    TriggerEffect(h, s.cluster, s.coll[Pod]);
  }

  lemma Pushes(h: Hasher, s: Sys)
    requires Reachable(h, s) && Pod in s.coll && |s.chan| < s.capacity
    requires var w := s.coll[Pod].worker;
             w.Pushing? && w.events != [] && (MustTrigger(Pod, w) ==> w.triggered)
    ensures var w := s.coll[Pod].worker;
            Reachable(h, With(s, Pod, s.coll[Pod].(worker := w.(events := w.events[1..], triggered := false)))
                           .(chan := s.chan + [Head(Pod, w)], pushed := s.pushed + [Head(Pod, w)]))
  {
    Reached(h, s, PushEvent(Pod));
  }

  /** Nothing there yet; the queue has room for one event. */
  function Empty(): Sys {
    Sys(Cluster(map[], map[]),
        map[Pod := FRESH, Namespace := FRESH, Service := FRESH, ReplicaSet := FRESH, Deployment := FRESH,
            DaemonSet := FRESH, ReplicationController := FRESH],
        map[], {}, {}, 1, [], None, {}, {}, [], [], [], [], map[])
  }

  function Joining(node: Node, kinds: set<Kind>): Sys {
    Empty().(watch := map["u" := Watch(node, kinds, System.Subscribing(kinds))], conns := {"u"})
  }

  lemma Connects(h: Hasher, node: Node, kinds: set<Kind>)
    ensures Reachable(h, Empty().(watch := map["u" := Watch(node, kinds, New)]))
  {
    var s := Empty();
    assert IsRun(h, [s], []);
    Reached(h, s, Connect("u", node, kinds));
  }

  lemma Joins(h: Hasher, node: Node, kinds: set<Kind>)
    ensures Reachable(h, Joining(node, kinds))
  {
    Connects(h, node, kinds);
    var s := Empty().(watch := map["u" := Watch(node, kinds, New)]);
    Reached(h, s, Store("u"));
    assert {} + {"u"} == {"u"};
    assert Next(h, s, Store("u")) == Joining(node, kinds);
  }

  lemma Hears(h: Hasher, s: Sys, kind: Kind)
    requires Reachable(h, s) && Todo(s, "u", kind) && s.watch["u"].phase.Subscribing?
    requires kind in s.coll && s.coll[kind].disp.Waiting?
    ensures var w := s.watch["u"];
            Reachable(h, With(InPhase(s, "u", System.Subscribing(w.phase.todo - {kind})), kind,
                              s.coll[kind].(disp := Received(true, "u", w.node))))
  {
    Reached(h, s, Notify("u", kind));
  }

  lemma Settles(h: Hasher, s: Sys, u: Uid)
    requires Reachable(h, s) && PhaseIs(s, u, System.Subscribing({}))
    ensures Reachable(h, InPhase(s, u, Watching))
  {
    Reached(h, s, AllNotified(u));
  }

  lemma Creates(h: Hasher, s: Sys, kind: Kind, key: Key, obj: Object)
    requires Reachable(h, s) && kind in s.coll && !kind.Pod?
    ensures Reachable(h, Queued(s, kind, {key}).(cluster := s.cluster.(objects := s.cluster.objects[(kind, key) := obj])))
  {
    Reached(h, s, ChangeObject(kind, key, Some(obj)));
  }

  lemma Delivers(h: Hasher, s: Sys, kind: Kind, key: Key)
    requires Reachable(h, s) && kind in s.coll && (kind, key) in s.triggers
    ensures Reachable(h, Queued(s, kind, {key}).(triggers := s.triggers - {(kind, key)}))
  {
    Reached(h, s, DeliverTrigger(kind, key));
  }

  // ----- The broker empties the queue -----

  /** Everything besides the queue, the broker and the histories. */
  predicate SameBesidesBroker(s: Sys, s': Sys) {
    && s'.cluster == s.cluster && s'.coll == s.coll && s'.watch == s.watch && s'.conns == s.conns
    && s'.triggers == s.triggers && s'.capacity == s.capacity
  }

  lemma Pops(h: Hasher, s: Sys)
    requires Reachable(h, s) && s.cur.None? && s.chan != []
    ensures Reachable(h, Popped(s))
  {
    Reached(h, s, PopEvent);
  }

  lemma Tries(h: Hasher, s: Sys, u: Uid)
    requires Reachable(h, s) && s.cur.Some? && u in s.left
    ensures Reachable(h, Sent(s, u, u !in s.failing))
  {
    Reached(h, s, TrySend(u, u !in s.failing));
  }

  lemma Ends(h: Hasher, s: Sys)
    requires Reachable(h, s) && s.cur.Some? && s.left == {}
    ensures Reachable(h, s.(cur := None))
  {
    Reached(h, s, EventDone);
  }

  lemma TriedOnce(s: Sys, u: Uid)
    requires s.cur.Some? && u in s.left
    ensures var s' := Sent(s, u, u !in s.failing);
            SameBesidesBroker(s, s') && s'.cur == s.cur && s'.chan == s.chan && s'.failing == s.failing && s'.left == s.left - {u}
  {
  }

  /** No send fails that did not fail before. */
  lemma {:induction false} TriesAll(h: Hasher, s: Sys) returns (s': Sys)
    requires Reachable(h, s) && s.cur.Some?
    ensures s'.failing == s.failing
    ensures Reachable(h, s') && SameBesidesBroker(s, s') && s'.cur == s.cur && s'.chan == s.chan && s'.left == {}
    decreases s.left
  {
    if s.left == {} {
      s' := s;
    } else {
      var u :| u in s.left;
      Tries(h, s, u);
      TriedOnce(s, u);
      s' := TriesAll(h, Sent(s, u, u !in s.failing));
    }
  }

  lemma Drains(h: Hasher, s: Sys) returns (s': Sys)
    requires Reachable(h, s) && s.cur.None? && |s.chan| == 1
    ensures Reachable(h, s') && SameBesidesBroker(s, s') && s'.cur.None? && s'.chan == [] && s'.failing == s.failing
  {
    Pops(h, s);
    var tried := TriesAll(h, Popped(s));
    Ends(h, tried);
    s' := tried.(cur := None);
  }
}
