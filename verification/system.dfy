/**
 The whole delivery path before cancellation: Watch handlers, one collector per kind, the bounded queue, the broker
 loop and the streams, with the cluster changing underneath. Each step is one atomic action of one goroutine.
 */
module System {
  import opened Types
  import opened Relations
  import opened Streams
  import opened CollectorSteps
  import Attempts
  import Convergence

  /** Where a Watch handler is. `todo` are the selected kinds not yet notified. */
  datatype Phase =
    | New
    | Subscribing(todo: set<Kind>)
    | Watching
    | Closing
    | Unsubscribing(todo: set<Kind>)
    | Finished

  datatype Watch = Watch(node: Node, kinds: set<Kind>, phase: Phase)

  datatype Tagged = Tagged(kind: Kind, logged: Logged)

  datatype Sys = Sys(
    cluster: Cluster,
    coll: map<Kind, Collector>,
    watch: map<Uid, Watch>,
    conns: set<Uid>,                 // the broker's map of connections
    triggers: set<(Kind, Key)>,      // trigger goroutines not yet delivered
    capacity: nat,
    chan: seq<Tagged>,               // the queue
    cur: Option<Tagged>,             // the event the broker is sending
    left: set<Uid>,                  // the subscribers it still has to try
    failing: set<Uid>,               // streams on which a send has failed
    pushed: seq<Tagged>,             // history: all pushes, all pops, all send attempts, all successful sends
    popped: seq<Tagged>,
    attempts: seq<(Uid, Tagged)>,
    received: seq<(Uid, Tagged)>,
    counts: Counts)

  datatype SysStep =
    | Local(kind: Kind, st: Step)
    | Connect(uid: Uid, node: Node, kinds: set<Kind>)
    | Store(uid: Uid)
    | Notify(uid: Uid, kind: Kind)
    | Skip(uid: Uid, kind: Kind)
    | AllNotified(uid: Uid)
    | Leave(uid: Uid)
    | RemoveConn(uid: Uid)
    | Return(uid: Uid)
    | ChangePod(key: Key, pod: Option<PodObj>)
    | ChangeObject(kind: Kind, key: Key, obj: Option<Object>)
    | LaunchTriggers
    | DeliverTrigger(kind: Kind, key: Key)
    | PushEvent(kind: Kind)
    | PopEvent
    | TrySend(uid: Uid, ok: bool)
    | EventDone

  predicate PhaseIs(s: Sys, u: Uid, p: Phase) {
    u in s.watch && s.watch[u].phase == p
  }

  predicate Todo(s: Sys, u: Uid, kind: Kind) {
    u in s.watch && (s.watch[u].phase.Subscribing? || s.watch[u].phase.Unsubscribing?) && kind in s.watch[u].phase.todo
  }

  ghost predicate Allowed(s: Sys, st: SysStep) {
    match st
    case Local(kind, lst) =>
      kind in s.coll && !lst.Receive? && !lst.Push? && !lst.TriggerOwners? && Enabled(kind, s.cluster, s.coll[kind], lst)
    case Connect(uid, _, _) => uid !in s.watch
    case Store(uid) => PhaseIs(s, uid, New)
    case Notify(uid, kind) => Todo(s, uid, kind) && kind in s.coll && s.coll[kind].disp.Waiting?
    case Skip(uid, kind) => Todo(s, uid, kind) && kind !in s.coll
    case AllNotified(uid) => PhaseIs(s, uid, Subscribing({}))
    case Leave(uid) => PhaseIs(s, uid, Watching)
    case RemoveConn(uid) => PhaseIs(s, uid, Closing)
    case Return(uid) => PhaseIs(s, uid, Unsubscribing({}))
    case ChangePod(key, pod) => Pod in s.coll && Convergence.Possible(ValueAt(s.cluster.pods, key), pod)
    case ChangeObject(kind, key, obj) => kind in s.coll && !kind.Pod?
    case LaunchTriggers => Pod in s.coll && MustTrigger(Pod, s.coll[Pod].worker) && !s.coll[Pod].worker.triggered
    case DeliverTrigger(kind, key) => (kind, key) in s.triggers && kind in s.coll
    case PushEvent(kind) => kind in s.coll && Enabled(kind, s.cluster, s.coll[kind], Push) && |s.chan| < s.capacity
    case PopEvent => s.cur.None? && s.chan != []
    case TrySend(uid, ok) => s.cur.Some? && uid in s.left && (ok ==> uid !in s.failing)
    case EventDone => s.cur.Some? && s.left == {}
  }

  function InPhase(s: Sys, u: Uid, p: Phase): Sys
    requires u in s.watch
  {
    s.(watch := s.watch[u := s.watch[u].(phase := p)])
  }

  function Without(p: Phase, kind: Kind): Phase
    requires p.Subscribing? || p.Unsubscribing?
  {
    if p.Subscribing? then Subscribing(p.todo - {kind}) else Unsubscribing(p.todo - {kind})
  }

  function Queued(s: Sys, kind: Kind, keys: set<Key>): Sys
    requires kind in s.coll
  {
    s.(coll := s.coll[kind := s.coll[kind].(pending := s.coll[kind].pending + keys)])
  }

  function WithObject(cl: Cluster, kind: Kind, key: Key, obj: Option<Object>): Cluster {
    cl.(objects := if obj.Some? then cl.objects[(kind, key) := obj.value] else cl.objects - {(kind, key)})
  }

  function Sent(s: Sys, u: Uid, ok: bool): Sys
    requires s.cur.Some?
  {
    if u !in s.conns then s.(left := s.left - {u})
    else
      var t := s.cur.value;
      var m := t.logged.ev.msg;
      s.(left := s.left - {u}, attempts := s.attempts + [(u, t)],
         received := if ok then s.received + [(u, t)] else s.received,
         failing := if ok then s.failing else s.failing + {u},
         counts := s.counts[(m.kind, m.reason) := CountOf(s.counts, m.kind, m.reason) + 1])
  }

  function Popped(s: Sys): Sys
    requires s.chan != []
  {
    s.(chan := s.chan[1..], cur := Some(s.chan[0]), left := s.chan[0].logged.ev.subs, popped := s.popped + [s.chan[0]])
  }

  /** The event a worker is about to push. */
  function Head(kind: Kind, w: Worker): Tagged
    requires w.Pushing? && w.events != []
  {
    Tagged(kind, Logged(w.key, w.events[0]))
  }

  ghost function Next(h: Hasher, s: Sys, st: SysStep): Sys
    requires Allowed(s, st)
  {
    match st
    case Local(kind, lst) => s.(coll := s.coll[kind := Do(h, kind, s.cluster, s.coll[kind], lst)])
    case Connect(uid, node, kinds) => s.(watch := s.watch[uid := Watch(node, kinds, New)])
    case Store(uid) => InPhase(s, uid, Subscribing(s.watch[uid].kinds)).(conns := s.conns + {uid})
    case Notify(uid, kind) =>
      var told := Receive(s.watch[uid].phase.Subscribing?, uid, s.watch[uid].node);
      InPhase(s, uid, Without(s.watch[uid].phase, kind))
        .(coll := s.coll[kind := Do(h, kind, s.cluster, s.coll[kind], told)])
    case Skip(uid, kind) => InPhase(s, uid, Without(s.watch[uid].phase, kind))
    case AllNotified(uid) => InPhase(s, uid, Watching)
    case Leave(uid) => InPhase(s, uid, Closing)
    case RemoveConn(uid) => InPhase(s, uid, Unsubscribing(s.watch[uid].kinds)).(conns := s.conns - {uid})
    case Return(uid) => InPhase(s, uid, Finished)
    case ChangePod(key, pod) =>
      Queued(s, Pod, if Convergence.Announced(ValueAt(s.cluster.pods, key), pod) then {key} else {})
        .(cluster := s.cluster.(pods := Put(s.cluster.pods, key, pod)))
    case ChangeObject(kind, key, obj) =>
      Queued(s, kind, {key})
        .(cluster := WithObject(s.cluster, kind, key, obj))
    case LaunchTriggers =>
      s.(triggers := s.triggers + Attempts.OwnerTriggers(s.coll[Pod].worker.refs),
         coll := s.coll[Pod := Do(h, Pod, s.cluster, s.coll[Pod], TriggerOwners)])
    case DeliverTrigger(kind, key) => Queued(s, kind, {key}).(triggers := s.triggers - {(kind, key)})
    case PushEvent(kind) =>
      var t := Head(kind, s.coll[kind].worker);
      s.(coll := s.coll[kind := Do(h, kind, s.cluster, s.coll[kind], Push)], chan := s.chan + [t], pushed := s.pushed + [t])
    case PopEvent => Popped(s)
    case TrySend(uid, ok) => Sent(s, uid, ok)
    case EventDone => s.(cur := None)
  }

  ghost predicate Init(s: Sys) {
    && (forall kind :: kind in s.coll <==> Collected(kind))
    && (forall kind | kind in s.coll :: s.coll[kind] == FRESH)
    && s.cluster.pods == map[]
    && s.watch == map[] && s.conns == {} && s.triggers == {} && s.chan == [] && s.cur == None && s.left == {}
    && s.failing == {} && s.pushed == [] && s.popped == [] && s.attempts == [] && s.received == [] && s.counts == map[]
  }

  /** A run: every state comes from the one before by an allowed step. */
  ghost predicate IsRun(h: Hasher, states: seq<Sys>, steps: seq<SysStep>) {
    && |states| == |steps| + 1
    && Init(states[0])
    && forall i | 0 <= i < |steps| :: Allowed(states[i], steps[i]) && states[i + 1] == Next(h, states[i], steps[i])
  }

  /** Which local step a system step takes in a collector. */
  function LocalPart(s: Sys, st: SysStep, kind: Kind): Option<Step> {
    match st
    case Local(k, lst) => if k == kind then Some(lst) else None
    case Notify(uid, k) =>
      if k == kind && uid in s.watch then
        Some(Receive(s.watch[uid].phase.Subscribing?, uid, s.watch[uid].node)) else None
    case LaunchTriggers => if kind == Pod then Some(TriggerOwners) else None
    case PushEvent(k) => if k == kind then Some(Push) else None
    case _ => None
  }

  /** What a system step puts into the queue of a collector. */
  function QueuedPart(s: Sys, st: SysStep, kind: Kind): set<Key> {
    match st
    case ChangePod(key, pod) =>
      if kind == Pod && Convergence.Announced(ValueAt(s.cluster.pods, key), pod) then {key} else {}
    case ChangeObject(k, key, _) => if k == kind then {key} else {}
    case DeliverTrigger(k, key) => if k == kind then {key} else {}
    case _ => {}
  }

  lemma LocalEffect(h: Hasher, s: Sys, st: SysStep, kind: Kind)
    requires Allowed(s, st) && kind in s.coll && LocalPart(s, st, kind).Some?
    ensures var s', lst := Next(h, s, st), LocalPart(s, st, kind).value;
            && Enabled(kind, s.cluster, s.coll[kind], lst)
            && s'.cluster == s.cluster && s'.coll == s.coll[kind := Do(h, kind, s.cluster, s.coll[kind], lst)]
  {
  }

  lemma OtherEffect(h: Hasher, s: Sys, st: SysStep, kind: Kind)
    requires Allowed(s, st) && kind in s.coll && LocalPart(s, st, kind).None?
    ensures var s' := Next(h, s, st);
            && s'.coll.Keys == s.coll.Keys
            && s'.coll[kind] == s.coll[kind].(pending := s.coll[kind].pending + QueuedPart(s, st, kind))
  {
    assert s.coll[kind].pending + {} == s.coll[kind].pending;
    if st.ChangePod? || st.ChangeObject? || st.DeliverTrigger? {
      QueueEffect(h, s, st, kind);
    }
  }

  lemma QueueEffect(h: Hasher, s: Sys, st: SysStep, kind: Kind)
    requires Allowed(s, st) && kind in s.coll
    requires st.ChangePod? || st.ChangeObject? || st.DeliverTrigger?
    ensures var s' := Next(h, s, st);
            && s'.coll.Keys == s.coll.Keys
            && s'.coll[kind] == s.coll[kind].(pending := s.coll[kind].pending + QueuedPart(s, st, kind))
  {
    assert s.coll[kind].pending + {} == s.coll[kind].pending;
  }

  /** The steps a Watch handler takes, and what they make of its phase. */
  predicate Moves(st: SysStep) {
    st.Store? || st.Notify? || st.Skip? || st.AllNotified? || st.Leave? || st.RemoveConn? || st.Return?
  }

  predicate MayMove(w: Watch, st: SysStep) {
    match st
    case Store(_) => w.phase.New?
    case Notify(_, kind) => (w.phase.Subscribing? || w.phase.Unsubscribing?) && kind in w.phase.todo
    case Skip(_, kind) => (w.phase.Subscribing? || w.phase.Unsubscribing?) && kind in w.phase.todo
    case AllNotified(_) => w.phase == Subscribing({})
    case Leave(_) => w.phase.Watching?
    case RemoveConn(_) => w.phase.Closing?
    case Return(_) => w.phase == Unsubscribing({})
    case _ => false
  }

  function Moved(w: Watch, st: SysStep): Phase
    requires MayMove(w, st)
  {
    match st
    case Store(_) => Subscribing(w.kinds)
    case Notify(_, kind) => Without(w.phase, kind)
    case Skip(_, kind) => Without(w.phase, kind)
    case AllNotified(_) => Watching
    case Leave(_) => Closing
    case RemoveConn(_) => Unsubscribing(w.kinds)
    case _ => Finished
  }

  lemma WatchEffect(h: Hasher, s: Sys, st: SysStep)
    requires Allowed(s, st)
    ensures Moves(st) ==> st.uid in s.watch && MayMove(s.watch[st.uid], st)
    ensures Next(h, s, st).watch ==
            if Moves(st) then s.watch[st.uid := s.watch[st.uid].(phase := Moved(s.watch[st.uid], st))]
            else if st.Connect? then s.watch[st.uid := Watch(st.node, st.kinds, New)]
            else s.watch
  {
  }

  lemma ConnsEffect(h: Hasher, s: Sys, st: SysStep)
    requires Allowed(s, st)
    ensures Next(h, s, st).conns ==
            if st.Store? then s.conns + {st.uid} else if st.RemoveConn? then s.conns - {st.uid} else s.conns
  {
  }

  function ClusterAfter(cl: Cluster, st: SysStep): Cluster {
    match st
    case ChangePod(key, pod) => cl.(pods := Put(cl.pods, key, pod))
    case ChangeObject(kind, key, obj) => WithObject(cl, kind, key, obj)
    case _ => cl
  }

  lemma ClusterEffect(h: Hasher, s: Sys, st: SysStep)
    requires Allowed(s, st)
    ensures Next(h, s, st).cluster == ClusterAfter(s.cluster, st)
  {
  }

  lemma TriggersEffect(h: Hasher, s: Sys, st: SysStep)
    requires Allowed(s, st)
    ensures Next(h, s, st).triggers ==
            if st.LaunchTriggers? then s.triggers + Attempts.OwnerTriggers(s.coll[Pod].worker.refs)
            else if st.DeliverTrigger? then s.triggers - {(st.kind, st.key)}
            else s.triggers
  {
  }

  /** Only the broker's own steps touch what the broker works on. */
  lemma BrokerFrame(h: Hasher, s: Sys, st: SysStep)
    requires Allowed(s, st)
    requires !st.PopEvent? && !st.TrySend? && !st.EventDone?
    ensures var s' := Next(h, s, st);
            && s'.cur == s.cur && s'.left == s.left && s'.failing == s.failing && s'.popped == s.popped
            && s'.attempts == s.attempts && s'.received == s.received && s'.counts == s.counts
            && s'.capacity == s.capacity
            && (!st.PushEvent? ==> s'.chan == s.chan && s'.pushed == s.pushed)
            && (!st.Store? && !st.RemoveConn? ==> s'.conns == s.conns)
            && (st.Store? ==> s'.conns == s.conns + {st.uid})
            && (st.RemoveConn? ==> s'.conns == s.conns - {st.uid})
  {
  }
}
