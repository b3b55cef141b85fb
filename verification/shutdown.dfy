/**
 What happens after the context is canceled and the server is stopping: who may still be blocked, and that everyone
 gets to the end. Deliveries that were possible before still are; in addition every send may be given up.
 */
module Shutdown {
  import opened Types
  import System

  datatype Stage = Selecting | Received | Dispatching(items: nat) | Gone
  datatype Job = Idle | Reading | Sending(items: nat)

  /** The work queues: of the EndpointSlice dispatcher, or of a collector. */
  datatype Role = Slices | Of(kind: Kind)

  datatype Actor =
    | Handler(kinds: set<Kind>, phase: System.Phase)         // a Watch call
    | Dispatcher(kind: Kind, stage: Stage)                   // the goroutine of dispatch
    | Worker(role: Role, pending: set<Key>, job: Job)        // a controller's reconcile loop and its queue
    | Trigger(kind: Kind, key: Key, landed: bool)            // a goroutine of triggerOwners

  datatype Sender = Popping | Trying(left: nat) | Exited

  datatype Down = Down(actors: seq<Actor>, chan: nat, capacity: nat, sender: Sender)

  datatype Move =
    | Proceed(i: nat, to: Actor)                             // on its own, touching nobody else
    | Tell(i: nat, j: nat, kind: Kind)                       // a Watch call tells a dispatcher
    | Request(i: nat, j: nat, key: Key)                      // a reconcile request reaches a queue
    | PushEvent(i: nat, pushed: bool, launched: seq<Actor>)  // a worker pushes, or gives up, after launching triggers
    | Pop(left: nat)
    | Broker(next: Sender)

  predicate IsIn(s: Down, i: nat) { i < |s.actors| }

  /** What the end of a phase or a give-up leads to. */
  predicate HandlerMoves(p: System.Phase, q: System.Phase, kinds: set<Kind>) {
    match p
    case New => q == System.Subscribing(kinds)
    case Subscribing(todo) => q.Watching? || (q.Subscribing? && exists k | k in todo :: q.todo == todo - {k} && !Collected(k))
    case Watching => q.Closing?
    case Closing => q == System.Unsubscribing(kinds)
    case Unsubscribing(todo) => q.Finished? || (q.Unsubscribing? && exists k | k in todo :: q.todo == todo - {k} && !Collected(k))
    case Finished => false
  }

  predicate DispatcherMoves(p: Stage, q: Stage) {
    match p
    case Selecting => q.Gone?
    case Received => q.Selecting? || q.Dispatching?
    case Dispatching(n) => q.Gone? || (if n == 0 then q.Selecting? else q == Dispatching(n - 1))
    case Gone => false
  }

  /** A collector gives up one event at a time; the slices worker drops the rest of a list at once. */
  predicate WorkerMoves(role: Role, p: Job, q: Job) {
    match p
    case Idle => false
    case Reading => q.Idle? || q.Sending?
    case Sending(n) => if n == 0 then q.Idle? else q.Sending? && if role.Slices? then q.items < n else q.items == n - 1
  }

  /** The steps an actor can take whatever the others do: none of them waits for anything. */
  predicate OwnStep(a: Actor, b: Actor) {
    match a
    case Handler(kinds, p) => b.Handler? && b.kinds == kinds && HandlerMoves(p, b.phase, kinds)
    case Dispatcher(kind, p) => b.Dispatcher? && b.kind == kind && DispatcherMoves(p, b.stage)
    case Worker(role, pending, p) =>
      b.Worker? && b.role == role
      && ((b.pending == pending && WorkerMoves(role, p, b.job))
          || (p.Idle? && b.job.Reading? && exists key | key in pending :: b.pending == pending - {key}))
    case Trigger(kind, key, landed) => !landed && b == Trigger(kind, key, true)
  }

  /** Who sends reconcile requests, and to which queue. */
  predicate Requests(a: Actor, queue: Role, key: Key) {
    match a
    case Handler(_, _) => false
    case Dispatcher(kind, p) => p.Dispatching? && p.items > 0 && queue == Of(kind)
    case Worker(role, _, p) => role.Slices? && p.Sending? && p.items > 0 && queue in {Of(Pod), Of(Service)}
    case Trigger(kind, k, landed) => !landed && HasOwnerSource(kind) && queue == Of(kind) && key == k
  }

  function Requested(a: Actor): Actor {
    match a
    case Handler(_, _) => a
    case Dispatcher(_, p) => if p.Dispatching? && p.items > 0 then a.(stage := Dispatching(p.items - 1)) else a
    case Worker(_, _, p) => if p.Sending? && p.items > 0 then a.(job := Sending(p.items - 1)) else a
    case Trigger(_, _, _) => a.(landed := true)
  }

  function Told(a: Actor, kind: Kind): Actor {
    if !a.Handler? then a
    else if a.phase.Subscribing? then a.(phase := System.Subscribing(a.phase.todo - {kind}))
    else if a.phase.Unsubscribing? then a.(phase := System.Unsubscribing(a.phase.todo - {kind}))
    else a
  }

  predicate MayLaunch(a: Actor, launched: seq<Actor>) {
    && (launched != [] ==> a.Worker? && a.role == Of(Pod))
    && forall t | t in launched :: t.Trigger? && HasOwnerSource(t.kind)
  }

  predicate Can(s: Down, m: Move) {
    match m
    case Proceed(i, to) => IsIn(s, i) && OwnStep(s.actors[i], to)
    case Tell(i, j, kind) =>
      && IsIn(s, i) && IsIn(s, j) && i != j && s.actors[i].Handler?
      && (s.actors[i].phase.Subscribing? || s.actors[i].phase.Unsubscribing?) && kind in s.actors[i].phase.todo
      && s.actors[j] == Dispatcher(kind, Selecting)
    case Request(i, j, key) =>
      && IsIn(s, i) && IsIn(s, j) && i != j && s.actors[j].Worker?
      && Requests(s.actors[i], s.actors[j].role, key)
    case PushEvent(i, pushed, launched) =>
      && IsIn(s, i) && s.actors[i].Worker? && s.actors[i].role.Of? && s.actors[i].job.Sending? && s.actors[i].job.items > 0
      && MayLaunch(s.actors[i], launched) && (pushed ==> s.chan < s.capacity)
    case Pop(_) => s.sender.Popping? && s.chan > 0
    case Broker(next) =>
      if s.sender.Trying? then next == if s.sender.left == 0 then Popping else Trying(s.sender.left - 1)
      else s.sender.Popping? && next.Exited?
  }

  function Do(s: Down, m: Move): Down
    requires Can(s, m)
  {
    match m
    case Proceed(i, to) => s.(actors := s.actors[i := to])
    case Tell(i, j, kind) => s.(actors := s.actors[i := Told(s.actors[i], kind)][j := Dispatcher(kind, Received)])
    case Request(i, j, key) =>
      s.(actors := s.actors[i := Requested(s.actors[i])][j := s.actors[j].(pending := s.actors[j].pending + {key})])
    case PushEvent(i, pushed, launched) =>
      s.(actors := s.actors[i := s.actors[i].(job := Sending(s.actors[i].job.items - 1))] + launched,
         chan := if pushed then s.chan + 1 else s.chan)
    case Pop(left) => s.(chan := s.chan - 1, sender := Trying(left))
    case Broker(next) => s.(sender := next)
  }

  predicate Over(a: Actor) {
    match a
    case Handler(_, p) => p.Finished?
    case Dispatcher(_, p) => p.Gone?
    case Worker(_, pending, p) => p.Idle? && pending == {}
    case Trigger(_, _, landed) => landed
  }

  predicate AllOver(s: Down) {
    (forall i | 0 <= i < |s.actors| :: Over(s.actors[i])) && s.sender.Exited?
  }

  // ---------------------------------------------------------------- nobody waits for anybody

  ghost function WayOut(a: Actor): (b: Actor)
    requires !Over(a)
    ensures OwnStep(a, b)
  {
    match a
    case Handler(kinds, p) =>
      if p.New? then a.(phase := System.Subscribing(kinds))
      else if p.Subscribing? then a.(phase := System.Watching)
      else if p.Watching? then a.(phase := System.Closing)
      else if p.Closing? then a.(phase := System.Unsubscribing(kinds))
      else a.(phase := System.Finished)
    case Dispatcher(_, p) =>
      a.(stage := if p.Received? || p == Dispatching(0) then Selecting else Gone)
    case Worker(_, pending, p) =>
      if p.Idle? then
        var key :| key in pending;
        a.(pending := pending - {key}, job := Reading)
      else if p.Reading? || p.items == 0 then a.(job := Idle)
      else a.(job := Sending(p.items - 1))
    case Trigger(_, _, _) => a.(landed := true)
  }

  /** Whoever is not through can go on by itself: the step is possible in every state that shows the actor as it is,
      so nothing the others do, or fail to do, takes it away. */
  lemma NobodyIsBlocked(s: Down, i: nat)
    requires i < |s.actors| && !Over(s.actors[i])
    ensures exists m :: (forall t: Down | i < |t.actors| && t.actors[i] == s.actors[i] :: Can(t, m)) && Do(s, m) != s
  {
    var m := Proceed(i, WayOut(s.actors[i]));
    assert Can(s, m) && Do(s, m).actors[i] == WayOut(s.actors[i]);
  }

  /** Only when everyone is through is there nothing left to do. */
  lemma StuckIsOver(s: Down)
    requires forall m :: !Can(s, m)
    ensures AllOver(s)
  {
    forall i | 0 <= i < |s.actors| ensures Over(s.actors[i]) {
      if !Over(s.actors[i]) {
        assert Can(s, Proceed(i, WayOut(s.actors[i])));
      }
    }
    if s.sender.Popping? {
      assert Can(s, Broker(Exited));
    } else if s.sender.Trying? {
      assert Can(s, Broker(if s.sender.left == 0 then Popping else Trying(s.sender.left - 1)));
    }
  }

  lemma OverIsStuck(s: Down, m: Move)
    requires AllOver(s)
    ensures !Can(s, m)
  {
  }

  // ---------------------------------------------------------------- and it ends

  /** Requests flow down: from watches to dispatchers and slices, from there to pods, from pods through triggers to
      the other kinds, and from every collector to the broker. A step counts at the level of the one who takes it. */
  function HandlerWeight(kinds: set<Kind>, p: System.Phase): nat {
    match p
    case New => 2 * |kinds| + 5
    case Subscribing(todo) => |kinds| + |todo| + 4
    case Watching => |kinds| + 3
    case Closing => |kinds| + 2
    case Unsubscribing(todo) => |todo| + 1
    case Finished => 0
  }

  /** A dispatcher and a worker weigh on two levels: the first for where it is, the next for what is in its hands. */
  function Base(a: Actor): nat {
    match a
    case Handler(_, _) => 0
    case Dispatcher(_, _) => 1
    case Worker(role, _, _) => if role.Slices? then 1 else if role == Of(Pod) then 3 else 6
    case Trigger(_, _, _) => 5
  }

  function Rank(a: Actor): nat {
    match a
    case Handler(kinds, p) => HandlerWeight(kinds, p)
    case Dispatcher(_, p) => if p.Received? then 3 else if p.Dispatching? then 2 else if p.Selecting? then 1 else 0
    case Worker(_, pending, p) => 3 * |pending| + (if p.Reading? then 2 else if p.Sending? then 1 else 0)
    case Trigger(_, _, landed) => if landed then 0 else 1
  }

  function Load(a: Actor): nat {
    if a.Dispatcher? && a.stage.Dispatching? then a.stage.items
    else if a.Worker? && a.job.Sending? then a.job.items
    else 0
  }

  function Weight(a: Actor, level: nat): nat {
    if level == Base(a) then Rank(a) else if level == Base(a) + 1 then Load(a) else 0
  }

  function Sum(actors: seq<Actor>, level: nat): nat {
    if actors == [] then 0 else Weight(actors[0], level) + Sum(actors[1..], level)
  }

  function SenderRank(s: Down): nat {
    2 * s.chan + if s.sender.Exited? then 0 else if s.sender.Popping? then 1 else 2
  }

  /** The measure, most significant level first. */
  function Measure(s: Down, level: nat): nat {
    if level < 8 then Sum(s.actors, level)
    else if level == 8 then SenderRank(s)
    else if s.sender.Trying? then s.sender.left else 0
  }

  predicate Less(s: Down, t: Down, level: nat) {
    Measure(s, level) < Measure(t, level) && forall l: nat | l < level :: Measure(s, l) == Measure(t, l)
  }

  lemma {:induction false} SumUpdated(actors: seq<Actor>, i: nat, a: Actor, level: nat)
    requires i < |actors|
    ensures Sum(actors[i := a], level) + Weight(actors[i], level) == Sum(actors, level) + Weight(a, level)
  {
    if i == 0 {
      assert actors[i := a][1..] == actors[1..];
    } else {
      assert actors[i := a][1..] == actors[1..][i - 1 := a];
      SumUpdated(actors[1..], i - 1, a, level);
    }
  }

  lemma {:induction false} SumJoined(actors: seq<Actor>, more: seq<Actor>, level: nat)
    ensures Sum(actors + more, level) == Sum(actors, level) + Sum(more, level)
  {
    if actors == [] {
      assert actors + more == more;
    } else {
      assert (actors + more)[1..] == actors[1..] + more;
      SumJoined(actors[1..], more, level);
    }
  }

  lemma {:induction false} TriggersAreLow(launched: seq<Actor>, level: nat)
    requires forall t | t in launched :: t.Trigger?
    requires level < 5
    ensures Sum(launched, level) == 0
  {
    if launched != [] {
      assert launched[0] in launched;
      TriggersAreLow(launched[1..], level);
    }
  }

  predicate Lighter(b: Actor, a: Actor, level: nat) {
    Weight(b, level) < Weight(a, level) && forall l: nat | l < level :: Weight(b, l) == Weight(a, l)
  }

  /** The level at which an actor gets lighter: its own, or the one of the things in its hands. */
  function LevelOf(a: Actor, b: Actor): nat {
    if Rank(b) < Rank(a) then Base(a) else Base(a) + 1
  }

  lemma Shrinks<T>(all: set<T>, x: T)
    requires x in all
    ensures |all - {x}| == |all| - 1
  {
  }

  lemma HandlerGetsLighter(kinds: set<Kind>, p: System.Phase, q: System.Phase)
    requires HandlerMoves(p, q, kinds)
    ensures HandlerWeight(kinds, q) < HandlerWeight(kinds, p)
  {
    if p.Subscribing? && q.Subscribing? {
      var k :| k in p.todo && q.todo == p.todo - {k};
      Shrinks(p.todo, k);
    } else if p.Unsubscribing? && q.Unsubscribing? {
      var k :| k in p.todo && q.todo == p.todo - {k};
      Shrinks(p.todo, k);
    }
  }

  lemma WorkerGetsLighter(a: Actor, b: Actor)
    requires a.Worker? && OwnStep(a, b)
    ensures Rank(b) < Rank(a) || (Rank(b) == Rank(a) && Load(b) < Load(a))
  {
    if a.job.Idle? {
      var key :| key in a.pending && b.pending == a.pending - {key};
      Shrinks(a.pending, key);
    }
  }

  lemma RankOrLoadFalls(a: Actor, b: Actor)
    requires OwnStep(a, b)
    ensures Base(b) == Base(a) && (Rank(b) < Rank(a) || (Rank(b) == Rank(a) && Load(b) < Load(a)))
  {
    if a.Handler? {
      HandlerGetsLighter(a.kinds, a.phase, b.phase);
    } else if a.Worker? {
      WorkerGetsLighter(a, b);
    }
  }

  lemma OwnStepIsLighter(a: Actor, b: Actor)
    requires OwnStep(a, b)
    ensures Lighter(b, a, LevelOf(a, b))
  {
    RankOrLoadFalls(a, b);
  }

  /** One actor getting lighter at some level, while nobody gains there or above, lowers the measure. */
  lemma OneLighter(s: Down, i: nat, b: Actor, level: nat)
    requires i < |s.actors| && Lighter(b, s.actors[i], level) && level < 8
    ensures Less(s.(actors := s.actors[i := b]), s, level)
  {
    forall l: nat | l <= level
      ensures Sum(s.actors[i := b], l) + Weight(s.actors[i], l) == Sum(s.actors, l) + Weight(b, l)
    {
      SumUpdated(s.actors, i, b, l);
    }
  }

  lemma OneHeavier(s: Down, j: nat, b: Actor, level: nat)
    requires j < |s.actors| && forall l: nat | l <= level :: Weight(b, l) == Weight(s.actors[j], l)
    requires level < 8
    ensures forall l: nat | l <= level :: Measure(s.(actors := s.actors[j := b]), l) == Measure(s, l)
  {
    forall l: nat | l <= level
      ensures Sum(s.actors[j := b], l) == Sum(s.actors, l)
    {
      SumUpdated(s.actors, j, b, l);
    }
  }

  /** Handing something over: the giver gets lighter at a level where, and above which, the taker does not change. */
  lemma Handover(s: Down, i: nat, a: Actor, j: nat, b: Actor, level: nat)
    requires i < |s.actors| && j < |s.actors| && i != j
    requires Lighter(a, s.actors[i], level) && level < 8
    requires forall l: nat | l <= level :: Weight(b, l) == Weight(s.actors[j], l)
    ensures Less(s.(actors := s.actors[i := a][j := b]), s, level)
  {
    OneLighter(s, i, a, level);
    OneHeavier(s.(actors := s.actors[i := a]), j, b, level);
  }

  lemma TellLowers(s: Down, i: nat, j: nat, kind: Kind)
    requires Can(s, Tell(i, j, kind))
    ensures Less(Do(s, Tell(i, j, kind)), s, 0)
  {
    Shrinks(s.actors[i].phase.todo, kind);
    Handover(s, i, Told(s.actors[i], kind), j, Dispatcher(kind, Received), 0);
  }

  lemma RequestLowers(s: Down, i: nat, j: nat, key: Key)
    requires Can(s, Request(i, j, key))
    ensures exists level: nat | level < 8 :: Less(Do(s, Request(i, j, key)), s, level)
  {
    var a := s.actors[i];
    var b := s.actors[j];
    var level := if a.Trigger? then 5 else 2;
    Handover(s, i, Requested(a), j, b.(pending := b.pending + {key}), level);
    assert Less(Do(s, Request(i, j, key)), s, level);
  }

  lemma PushLowers(s: Down, i: nat, pushed: bool, launched: seq<Actor>)
    requires Can(s, PushEvent(i, pushed, launched))
    ensures exists level: nat | level < 8 :: Less(Do(s, PushEvent(i, pushed, launched)), s, level)
  {
    var a := s.actors[i];
    var b := a.(job := Sending(a.job.items - 1));
    var level := Base(a) + 1;
    OneLighter(s, i, b, level);
    var rest := s.actors[i := b];
    var all := rest + launched;
    forall l: nat | l <= level
      ensures Sum(all, l) == Sum(rest, l)
    {
      SumJoined(rest, launched, l);
      if launched == [] {
        assert Sum(launched, l) == 0;
      } else {
        TriggersAreLow(launched, l);
      }
    }
    assert Less(Do(s, PushEvent(i, pushed, launched)), s, level);
  }

  lemma EveryMoveLowers(s: Down, m: Move)
    requires Can(s, m)
    ensures exists level: nat | level < 10 :: Less(Do(s, m), s, level)
  {
    match m
    case Proceed(i, to) =>
      OwnStepIsLighter(s.actors[i], to);
      OneLighter(s, i, to, LevelOf(s.actors[i], to));
      assert Less(Do(s, m), s, LevelOf(s.actors[i], to));
    case Tell(i, j, kind) =>
      TellLowers(s, i, j, kind);
      assert Less(Do(s, m), s, 0);
    case Request(i, j, key) => RequestLowers(s, i, j, key);
    case PushEvent(i, pushed, launched) => PushLowers(s, i, pushed, launched);
    case Pop(_) => assert Less(Do(s, m), s, 8);
    case Broker(next) =>
      if s.sender.Trying? && s.sender.left > 0 {
        assert Less(Do(s, m), s, 9);
      } else {
        assert Less(Do(s, m), s, 8);
      }
  }

  predicate Follows(t: Down, s: Down, m: Move) {
    Can(s, m) && t == Do(s, m)
  }

  ghost predicate Moved(s: Down, t: Down) {
    exists m :: Follows(t, s, m)
  }

  /** However the moves are chosen, and from whatever state the shutdown starts, they run out. */
  lemma {:induction false} EveryShutdownEnds(run: nat -> Down, start: nat)
    ensures exists n: nat | start <= n :: !Moved(run(n), run(n + 1))
    decreases Measure(run(start), 0), Measure(run(start), 1), Measure(run(start), 2), Measure(run(start), 3),
      Measure(run(start), 4), Measure(run(start), 5), Measure(run(start), 6), Measure(run(start), 7),
      Measure(run(start), 8), Measure(run(start), 9)
  {
    if Moved(run(start), run(start + 1)) {
      var m :| Follows(run(start + 1), run(start), m);
      EveryMoveLowers(run(start), m);
      EveryShutdownEnds(run, start + 1);
    }
  }

  /** So a shutdown that moves whenever it can reaches a state where every Watch, dispatcher, worker and trigger has
      finished and the broker loop has exited. */
  lemma EveryoneFinishes(run: nat -> Down)
    requires forall n: nat :: (exists m :: Can(run(n), m)) ==> Moved(run(n), run(n + 1))
    ensures exists n: nat :: AllOver(run(n))
  {
    EveryShutdownEnds(run, 0);
    var n: nat :| !Moved(run(n), run(n + 1));
    StuckIsOver(run(n));
  }
}
