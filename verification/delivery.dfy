/**
 The queue, the broker loop and the streams: first in first out, nothing invented, nothing lost before a connection
 is removed, and counters that count.
 */
module Delivery {
  import opened Types
  import opened Streams
  import opened CollectorSteps
  import opened System
  import opened Subscriptions
  import Relations

  /** The events one collector pushed. */
  function Of(ts: seq<Tagged>, kind: Kind): seq<Logged> {
    if ts == [] then []
    else
      var n := |ts| - 1;
      Of(ts[..n], kind) + (if ts[n].kind == kind then [ts[n].logged] else [])
  }

  /** The events that name a subscriber. */
  function Naming(ts: seq<Tagged>, u: Uid): seq<Tagged> {
    if ts == [] then []
    else
      var n := |ts| - 1;
      Naming(ts[..n], u) + (if u in ts[n].logged.ev.subs then [ts[n]] else [])
  }

  /** The sends to one subscriber. */
  function To(sends: seq<(Uid, Tagged)>, u: Uid): seq<Tagged> {
    if sends == [] then []
    else
      var n := |sends| - 1;
      To(sends[..n], u) + (if sends[n].0 == u then [sends[n].1] else [])
  }

  function Tally(sends: seq<(Uid, Tagged)>, kind: Kind, reason: Reason): nat {
    if sends == [] then 0
    else
      var n := |sends| - 1;
      var m := sends[n].1.logged.ev.msg;
      Tally(sends[..n], kind, reason) + if m.kind == kind && m.reason == reason then 1 else 0
  }

  lemma OfAppended(ts: seq<Tagged>, t: Tagged, kind: Kind)
    ensures Of(ts + [t], kind) == Of(ts, kind) + (if t.kind == kind then [t.logged] else [])
  {
    assert (ts + [t])[..|ts|] == ts;
  }

  lemma NamingAppended(ts: seq<Tagged>, t: Tagged, u: Uid)
    ensures Naming(ts + [t], u) == Naming(ts, u) + (if u in t.logged.ev.subs then [t] else [])
  {
    assert (ts + [t])[..|ts|] == ts;
  }

  lemma AppendedTo(sends: seq<(Uid, Tagged)>, send: (Uid, Tagged), u: Uid)
    ensures To(sends + [send], u) == To(sends, u) + (if send.0 == u then [send.1] else [])
  {
    assert (sends + [send])[..|sends|] == sends;
  }

  lemma AppendedTally(sends: seq<(Uid, Tagged)>, send: (Uid, Tagged), kind: Kind, reason: Reason)
    ensures var m := send.1.logged.ev.msg;
            Tally(sends + [send], kind, reason) ==
            Tally(sends, kind, reason) + if m.kind == kind && m.reason == reason then 1 else 0
  {
    assert (sends + [send])[..|sends|] == sends;
  }

  function Remaining(w: Worker): seq<Logged> {
    if w.Pushing? then Tag(w.key, w.events) else []
  }

  ghost predicate InvQueue(s: Sys) {
    && s.pushed == s.popped + s.chan
    && |s.chan| <= s.capacity
    && (forall t | t in s.pushed :: t.kind in s.coll)
    && (forall kind | kind in s.coll :: LogOk(s.pushed, kind, s.coll[kind]))
  }

  /** While a connection is stored, its sends are exactly the popped events naming it, save the one still to be tried. */
  ghost predicate AttemptsOk(s: Sys, u: Uid) {
    var named, tried := Naming(s.popped, u), To(s.attempts, u);
    if u !in s.conns then tried <= named
    else if u in s.left && s.cur.Some? then tried + [s.cur.value] == named
    else tried == named
  }

  ghost predicate ReceivedOk(s: Sys, u: Uid) {
    && To(s.received, u) <= To(s.attempts, u)
    && (u !in s.failing ==> To(s.received, u) == To(s.attempts, u))
  }

  ghost predicate InvBroker(s: Sys) {
    && CurOk(s)
    && (forall u :: AttemptsOk(s, u))
    && (forall u :: ReceivedOk(s, u))
    && (forall kind, reason :: CountOk(s, kind, reason))
  }

  // ----- The queue -----

  lemma WorkerLog(h: Hasher, kind: Kind, cl: Relations.Cluster, c: Collector, st: Step)
    requires Enabled(kind, cl, c, st) && !st.Push?
    ensures var c' := Do(h, kind, cl, c, st);
            exists more :: c'.log == c.log + more && Remaining(c'.worker) == Remaining(c.worker) + more
  {
    var c' := Do(h, kind, cl, c, st);
    if st.Commit? {
      var more := Remaining(c'.worker);
      assert Remaining(c.worker) + more == more;
    } else {
      assert c.log + [] == c.log && Remaining(c.worker) + [] == Remaining(c.worker);
      if !st.WriteRegistry? {
        Framed(h, kind, cl, c, st);
      }
      assert Remaining(c'.worker) == Remaining(c.worker);
      assert c'.log == c.log + [];
    }
  }

  lemma PushLog(c: Collector, seen: seq<Logged>)
    requires c.worker.Pushing? && c.worker.events != []
    requires seen + Remaining(c.worker) == c.log
    ensures var w := c.worker;
            seen + [Logged(w.key, w.events[0])] + Tag(w.key, w.events[1..]) == c.log
  {
    var w := c.worker;
    assert Tag(w.key, w.events) == [Logged(w.key, w.events[0])] + Tag(w.key, w.events[1..]);
  }

  lemma LogFollows(h: Hasher, s: Sys, st: SysStep, kind: Kind)
    requires Allowed(s, st) && kind in s.coll && !(st.PushEvent? && st.kind == kind)
    ensures kind in Next(h, s, st).coll
    ensures var c, c' := s.coll[kind], Next(h, s, st).coll[kind];
            exists more :: c'.log == c.log + more && Remaining(c'.worker) == Remaining(c.worker) + more
  {
    if LocalPart(s, st, kind).Some? {
      LocalEffect(h, s, st, kind);
      WorkerLog(h, kind, s.cluster, s.coll[kind], LocalPart(s, st, kind).value);
    } else {
      OtherEffect(h, s, st, kind);
      var c := s.coll[kind];
      assert c.log == c.log + [] && Remaining(c.worker) == Remaining(c.worker) + [];
    }
  }

  ghost predicate LogOk(pushed: seq<Tagged>, kind: Kind, c: Collector) {
    Of(pushed, kind) + Remaining(c.worker) == c.log
  }

  lemma LogKept(h: Hasher, s: Sys, st: SysStep, kind: Kind)
    requires Allowed(s, st) && kind in s.coll && LogOk(s.pushed, kind, s.coll[kind])
    ensures kind in Next(h, s, st).coll
    ensures LogOk(if st.PushEvent? then s.pushed + [Head(st.kind, s.coll[st.kind].worker)] else s.pushed, kind,
                  Next(h, s, st).coll[kind])
  {
    if st.PushEvent? && st.kind == kind {
      LocalEffect(h, s, st, kind);
      PushKeepsLog(s.pushed, kind, s.coll[kind]);
    } else {
      LogFollows(h, s, st, kind);
      OthersKeepLog(s.pushed, kind, s.coll[kind], Next(h, s, st).coll[kind]);
      if st.PushEvent? {
        OfAppended(s.pushed, Head(st.kind, s.coll[st.kind].worker), kind);
        assert Of(s.pushed, kind) + [] == Of(s.pushed, kind);
      }
    }
  }

  lemma PushKeepsLog(pushed: seq<Tagged>, kind: Kind, c: Collector)
    requires c.worker.Pushing? && c.worker.events != [] && LogOk(pushed, kind, c)
    ensures LogOk(pushed + [Head(kind, c.worker)], kind, c.(worker := c.worker.(events := c.worker.events[1..], triggered := false)))
  {
    OfAppended(pushed, Head(kind, c.worker), kind);
    PushLog(c, Of(pushed, kind));
  }

  lemma OthersKeepLog(pushed: seq<Tagged>, kind: Kind, c: Collector, c': Collector)
    requires LogOk(pushed, kind, c)
    requires exists more :: c'.log == c.log + more && Remaining(c'.worker) == Remaining(c.worker) + more
    ensures LogOk(pushed, kind, c')
  {
    var more :| c'.log == c.log + more && Remaining(c'.worker) == Remaining(c.worker) + more;
    LogExtends(Of(pushed, kind), c, c', more);
  }

  lemma LogExtends(seen: seq<Logged>, c: Collector, c': Collector, more: seq<Logged>)
    requires seen + Remaining(c.worker) == c.log
    requires c'.log == c.log + more && Remaining(c'.worker) == Remaining(c.worker) + more
    ensures seen + Remaining(c'.worker) == c'.log
  {
  }

  lemma QueueKept(h: Hasher, s: Sys, st: SysStep)
    requires Allowed(s, st) && InvQueue(s)
    ensures InvQueue(Next(h, s, st))
  {
    var s' := Next(h, s, st);
    KindsKept(h, s, st);
    QueueMoves(h, s, st);
    forall kind | kind in s'.coll
      ensures LogOk(s'.pushed, kind, s'.coll[kind])
    {
      assert LogOk(s.pushed, kind, s.coll[kind]);
      LogKept(h, s, st, kind);
    }
  }

  lemma QueueMoves(h: Hasher, s: Sys, st: SysStep)
    requires Allowed(s, st) && s.pushed == s.popped + s.chan && |s.chan| <= s.capacity
    ensures var s' := Next(h, s, st);
            && s'.pushed == s'.popped + s'.chan && |s'.chan| <= s'.capacity
            && s'.pushed == if st.PushEvent? then s.pushed + [Head(st.kind, s.coll[st.kind].worker)] else s.pushed
  {
    if st.PopEvent? {
      assert s.chan == [s.chan[0]] + s.chan[1..];
    } else if !st.TrySend? && !st.EventDone? {
      BrokerFrame(h, s, st);
    }
  }

  // ----- Who is named -----

  lemma {:induction false} OfMember(ts: seq<Tagged>, t: Tagged)
    requires t in ts
    ensures t.logged in Of(ts, t.kind)
  {
    var n := |ts| - 1;
    if ts[n] != t {
      assert t in ts[..n];
      OfMember(ts[..n], t);
    }
  }

  /** Whoever an event names is known to the collector it came from. */
  lemma NamedIsKnown(h: Hasher, s: Sys, t: Tagged, u: Uid)
    requires InvCollectors(h, s) && InvQueue(s) && t in s.pushed && u in t.logged.ev.subs
    ensures t.kind in s.coll && u in s.coll[t.kind].home
  {
    OfMember(s.pushed, t);
    var c := s.coll[t.kind];
    assert LogOk(s.pushed, t.kind, c);
    assert t.logged in c.log;
    assert CollectorOk(h, t.kind, c);
    assert Known(c, t.logged.ev.subs);
  }

  lemma {:induction false} NamingNobody(ts: seq<Tagged>, u: Uid)
    requires forall t | t in ts :: u !in t.logged.ev.subs
    ensures Naming(ts, u) == []
  {
    if ts != [] {
      NamingNobody(ts[..|ts| - 1], u);
    }
  }

  /** No event names a subscriber before its connection is stored. */
  lemma NamedIsNotNew(h: Hasher, s: Sys, t: Tagged, u: Uid)
    requires InvCollectors(h, s) && InvWatches(s) && InvQueue(s) && t in s.pushed && u in t.logged.ev.subs
    ensures u in s.watch && !s.watch[u].phase.New?
  {
    NamedIsKnown(h, s, t, u);
    assert WatchOk(s, t.kind, u);
  }

  lemma NewIsUnnamed(h: Hasher, s: Sys, u: Uid)
    requires InvCollectors(h, s) && InvWatches(s) && InvQueue(s) && PhaseIs(s, u, New)
    ensures Naming(s.popped, u) == []
  {
    forall t | t in s.popped
      ensures u !in t.logged.ev.subs
    {
      assert t in s.pushed;
      if u in t.logged.ev.subs {
        NamedIsNotNew(h, s, t, u);
      }
    }
    NamingNobody(s.popped, u);
  }

  // ----- The broker -----

  ghost predicate CurOk(s: Sys) {
    if s.cur.None? then s.left == {}
    else s.popped != [] && s.cur.value == s.popped[|s.popped| - 1] && s.left <= s.cur.value.logged.ev.subs
  }

  lemma CurKept(h: Hasher, s: Sys, st: SysStep)
    requires Allowed(s, st) && CurOk(s)
    ensures CurOk(Next(h, s, st))
  {
    if !st.PopEvent? && !st.TrySend? && !st.EventDone? {
      BrokerFrame(h, s, st);
    }
  }

  lemma BrokerKept(h: Hasher, s: Sys, st: SysStep)
    requires Allowed(s, st) && InvCollectors(h, s) && InvWatches(s) && InvQueue(s) && InvBroker(s)
    ensures InvBroker(Next(h, s, st))
  {
    CurKept(h, s, st);
    AllAttemptsKept(h, s, st);
    AllReceivedKept(h, s, st);
    AllCountsKept(h, s, st);
  }

  lemma AllAttemptsKept(h: Hasher, s: Sys, st: SysStep)
    requires Allowed(s, st) && InvCollectors(h, s) && InvWatches(s) && InvQueue(s) && InvBroker(s)
    ensures forall u :: AttemptsOk(Next(h, s, st), u)
  {
    forall u
      ensures AttemptsOk(Next(h, s, st), u)
    {
      AttemptsKept(h, s, st, u);
    }
  }

  lemma AllReceivedKept(h: Hasher, s: Sys, st: SysStep)
    requires Allowed(s, st) && forall u :: ReceivedOk(s, u)
    ensures forall u :: ReceivedOk(Next(h, s, st), u)
  {
    forall u
      ensures ReceivedOk(Next(h, s, st), u)
    {
      assert ReceivedOk(s, u);
      ReceivedKept(h, s, st, u);
    }
  }

  ghost predicate CountOk(s: Sys, kind: Kind, reason: Reason) {
    CountOf(s.counts, kind, reason) == Tally(s.attempts, kind, reason)
  }

  lemma AllCountsKept(h: Hasher, s: Sys, st: SysStep)
    requires Allowed(s, st) && forall kind, reason :: CountOk(s, kind, reason)
    ensures forall kind, reason :: CountOk(Next(h, s, st), kind, reason)
  {
    forall kind, reason
      ensures CountOk(Next(h, s, st), kind, reason)
    {
      assert CountOk(s, kind, reason);
      CountsKept(h, s, st, kind, reason);
    }
  }

  lemma AttemptsKept(h: Hasher, s: Sys, st: SysStep, u: Uid)
    requires Allowed(s, st) && InvCollectors(h, s) && InvWatches(s) && InvQueue(s) && InvBroker(s)
    ensures AttemptsOk(Next(h, s, st), u)
  {
    assert AttemptsOk(s, u);
    if st.PopEvent? {
      PopKeepsAttempts(s, u);
    } else if st.TrySend? {
      SendKeepsAttempts(s, st.uid, st.ok, u);
    } else if !st.EventDone? {
      BrokerFrame(h, s, st);
      if st.Store? && st.uid == u {
        ConnsFollow(h, s, st, u);
      }
      ConnsKeepAttempts(s, Next(h, s, st), u);
    }
  }

  lemma PopKeepsAttempts(s: Sys, u: Uid)
    requires s.cur.None? && s.chan != [] && AttemptsOk(s, u)
    ensures AttemptsOk(Popped(s), u)
  {
    NamingAppended(s.popped, s.chan[0], u);
  }

  /** Whoever gets connected is named by no event yet. */
  lemma ConnsFollow(h: Hasher, s: Sys, st: SysStep, u: Uid)
    requires Allowed(s, st) && InvCollectors(h, s) && InvWatches(s) && InvQueue(s)
    requires st.Store? && st.uid == u
    ensures u !in s.conns && Naming(s.popped, u) == []
  {
    NewIsUnnamed(h, s, u);
    NewIsNotConnected(s, u);
  }

  lemma NewIsNotConnected(s: Sys, u: Uid)
    requires InvWatches(s) && PhaseIs(s, u, New)
    ensures u !in s.conns
  {
    assert ConnOk(s, u);
  }

  lemma ConnsKeepAttempts(s: Sys, s': Sys, u: Uid)
    requires AttemptsOk(s, u)
    requires s'.cur == s.cur && s'.left == s.left && s'.popped == s.popped && s'.attempts == s.attempts
    requires u in s'.conns && u !in s.conns ==> Naming(s.popped, u) == []
    requires u in s.left && s.cur.Some? ==> s.popped != [] && s.cur.value == s.popped[|s.popped| - 1]
                                            && u in s.cur.value.logged.ev.subs
    ensures AttemptsOk(s', u)
  {
  }

  lemma SendKeepsAttempts(s: Sys, uid: Uid, ok: bool, u: Uid)
    requires s.cur.Some? && uid in s.left && AttemptsOk(s, u)
    ensures AttemptsOk(Sent(s, uid, ok), u)
  {
    var s' := Sent(s, uid, ok);
    if uid in s.conns {
      AppendedTo(s.attempts, (uid, s.cur.value), u);
    }
    TriedKeepsAttempts(s, s', u, uid == u && uid in s.conns);
  }

  /** The current event was tried for u, or u does not notice. */
  lemma TriedKeepsAttempts(s: Sys, s': Sys, u: Uid, tried: bool)
    requires s.cur.Some? && AttemptsOk(s, u)
    requires s'.cur == s.cur && s'.popped == s.popped && s'.conns == s.conns
    requires To(s'.attempts, u) == To(s.attempts, u) + (if tried then [s.cur.value] else [])
    requires if tried then u in s.left && u in s.conns && u !in s'.left
             else u !in s.conns || (u in s'.left <==> u in s.left)
    ensures AttemptsOk(s', u)
  {
    assert To(s.attempts, u) + [] == To(s.attempts, u);
  }

  lemma ReceivedKept(h: Hasher, s: Sys, st: SysStep, u: Uid)
    requires Allowed(s, st) && ReceivedOk(s, u)
    ensures ReceivedOk(Next(h, s, st), u)
  {
    if st.TrySend? {
      SendKeepsReceived(s, st.uid, st.ok, u);
    } else if !st.PopEvent? && !st.EventDone? {
      BrokerFrame(h, s, st);
    }
  }

  lemma SendKeepsReceived(s: Sys, uid: Uid, ok: bool, u: Uid)
    requires s.cur.Some? && uid in s.left && (ok ==> uid !in s.failing) && ReceivedOk(s, u)
    ensures ReceivedOk(Sent(s, uid, ok), u)
  {
    AppendedTo(s.attempts, (uid, s.cur.value), u);
    AppendedTo(s.received, (uid, s.cur.value), u);
  }

  lemma CountsKept(h: Hasher, s: Sys, st: SysStep, kind: Kind, reason: Reason)
    requires Allowed(s, st) && CountOk(s, kind, reason)
    ensures CountOk(Next(h, s, st), kind, reason)
  {
    if st.TrySend? {
      SendKeepsCount(s, st.uid, st.ok, kind, reason);
    } else if !st.PopEvent? && !st.EventDone? {
      BrokerFrame(h, s, st);
    }
  }

  lemma SendKeepsCount(s: Sys, uid: Uid, ok: bool, kind: Kind, reason: Reason)
    requires s.cur.Some? && CountOk(s, kind, reason)
    ensures CountOk(Sent(s, uid, ok), kind, reason)
  {
    AppendedTally(s.attempts, (uid, s.cur.value), kind, reason);
  }
}
