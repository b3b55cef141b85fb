/**
 What one reconcile does to one cache entry, as a function: the specification of the three Reconcile methods.
 A reconcile compares fresh subscribers and a fresh hash with the cached entry and yields up to three events.
 */
module Engine {
  import opened Types
  import Fields

  function Text(s: string): Option<string> {
    if s == "" then None else Some(s)
  }

  /** A Create or Update message carries everything, a Delete message only the identity. */
  function FullMessage(reason: Reason, c: Content): Message {
    Message(reason, c.uid, c.kind, Text(c.meta), Text(c.spec), Text(c.status),
            if c.refs.Some? && c.kind.Pod? then Some(Fields.Flatten(c.refs.value)) else None)
  }

  ghost predicate SameUids(uids: seq<ObjUid>, refs: seq<Ref>) {
    |uids| == |refs| && forall i | 0 <= i < |refs| :: uids[i] == refs[i].uid
  }

  /** The message says what the content is, field by field, without its empty texts; only pods have references. */
  ghost predicate Renders(msg: Message, reason: Reason, c: Content) {
    && msg.reason == reason && msg.uid == c.uid && msg.kind == c.kind
    && msg.meta == (if c.meta == "" then None else Some(c.meta))
    && msg.spec == (if c.spec == "" then None else Some(c.spec))
    && msg.status == (if c.status == "" then None else Some(c.status))
    && (msg.refs.Some? <==> c.refs.Some? && c.kind == Pod)
    && (msg.refs.Some? ==>
          && msg.refs.value.Keys == c.refs.value.Keys
          && forall k | k in c.refs.value :: SameUids(msg.refs.value[k], c.refs.value[k]))
  }

  lemma FullRenders(reason: Reason, c: Content)
    ensures Renders(FullMessage(reason, c), reason, c)
  {
    if c.refs.Some? {
      Fields.FlattenExact(c.refs.value);
    }
  }

  /** And nothing else does. */
  lemma OnlyFullRenders(msg: Message, reason: Reason, c: Content)
    requires Renders(msg, reason, c)
    ensures msg == FullMessage(reason, c)
  {
    if c.refs.Some? && c.kind == Pod {
      var flat := Fields.Flatten(c.refs.value);
      Fields.FlattenExact(c.refs.value);
      forall k | k in flat
        ensures msg.refs.value[k] == flat[k]
      {
        assert SameUids(msg.refs.value[k], c.refs.value[k]);
      }
      assert msg.refs.value == flat;
    }
  }

  function DeleteMessage(kind: Kind, uid: ObjUid): Message {
    Message(Delete, uid, kind, None, None, None, None)
  }

  function Audience(msg: Message, subs: set<Uid>): seq<Event> {
    if subs == {} then [] else [Event(msg, subs)]
  }

  function Batch(c: Content, created: set<Uid>, updated: set<Uid>, deleted: set<Uid>): seq<Event> {
    Audience(FullMessage(Create, c), created)
    + Audience(FullMessage(Update, c), updated)
    + Audience(DeleteMessage(c.kind, c.uid), deleted)
  }

  /** `refs` are the references whose owners a pod reconcile triggers. */
  datatype Outcome = Outcome(entry: Option<Entry>, refs: Option<Refs>, events: seq<Event>)

  function Holders(entry: Option<Entry>): set<Uid> {
    if entry.Some? then entry.value.subs else {}
  }

  function Changed(h: Hasher, prev: Option<Entry>, c: Content): bool {
    prev.Some? && prev.value.hash != h(c)
  }

  /** The object is there and has subscribers. The UID of an entry is the one seen when it was first cached. */
  function Upsert(h: Hasher, prev: Option<Entry>, c: Content, subs: set<Uid>): Outcome {
    var held := Holders(prev);
    Outcome(Some(Entry(h(c), if prev.Some? then prev.value.uid else c.uid, c.refs, subs)), c.refs,
            Batch(c, subs - held, if Changed(h, prev, c) then subs * held else {}, held - subs))
  }

  /** The object left, or nobody is related to it any more: every holder is told to delete it. */
  function Remove(kind: Kind, prev: Option<Entry>): Outcome {
    if prev.None? then Outcome(None, None, [])
    else Outcome(None, prev.value.refs, Audience(DeleteMessage(kind, prev.value.uid), prev.value.subs))
  }

  /** What a reconcile found out before it touches the cache. */
  datatype Decision =
    | Absent
    | NoSubscribers(node: Node)                             // pods only: the node has no registered subscriber
    | Send(content: Content, node: Node, subs: set<Uid>)

  function Decide(h: Hasher, kind: Kind, prev: Option<Entry>, d: Decision): Outcome {
    match d
    case Absent => Remove(kind, prev)
    case NoSubscribers(_) => Outcome(None, None, [])
    case Send(c, _, subs) => Upsert(h, prev, c, subs)
  }

  /** What an entry keeps of a reconcile, and which references its events trigger. */
  lemma EntryExact(h: Hasher, kind: Kind, prev: Option<Entry>, d: Decision)
    ensures var out := Decide(h, kind, prev, d);
            if d.Send? then
              && out.entry.Some? && out.refs == d.content.refs
              && out.entry.value.hash == h(d.content) && out.entry.value.refs == d.content.refs && out.entry.value.subs == d.subs
              && out.entry.value.uid == (if prev.Some? then prev.value.uid else d.content.uid)
            else
              out.entry.None? && (d.Absent? && prev.Some? ==> out.refs == prev.value.refs)
  {
  }

  /** What the events say: a Create or Update renders the content, a Delete only names the object. */
  lemma EventsExact(h: Hasher, kind: Kind, prev: Option<Entry>, d: Decision, e: Event)
    requires e in Decide(h, kind, prev, d).events
    ensures if e.msg.reason == Delete then
              e.msg == Message(Delete, if d.Send? then d.content.uid else prev.value.uid, if d.Send? then d.content.kind else kind,
                               None, None, None, None)
            else d.Send? && Renders(e.msg, e.msg.reason, d.content)
  {
    if d.Send? {
      FullRenders(Create, d.content);
      FullRenders(Update, d.content);
    }
  }

  // ----- Who receives what -----

  predicate Receives(events: seq<Event>, u: Uid, reason: Reason) {
    exists e | e in events :: e.msg.reason == reason && u in e.subs
  }

  /** The holders after a batch of events, as a subscriber-side observer would compute them. */
  function Replayed(held: set<Uid>, events: seq<Event>): set<Uid>
    decreases |events|
  {
    if events == [] then held
    else
      var e := events[0];
      Replayed(match e.msg.reason
               case Create => held + e.subs
               case Update => held
               case Delete => held - e.subs, events[1..])
  }

  function ToldAs(r: Reason, created: set<Uid>, updated: set<Uid>, deleted: set<Uid>): set<Uid> {
    match r case Create => created case Update => updated case Delete => deleted
  }

  /** Three audiences are addressed: nobody twice, and nobody else. */
  ghost predicate Addressed(events: seq<Event>, created: set<Uid>, updated: set<Uid>, deleted: set<Uid>) {
    && (forall i | 0 <= i < |events| :: events[i].subs != {})
    && (forall i, j | 0 <= i < j < |events| :: events[i].subs !! events[j].subs)
    && (forall u, r :: Receives(events, u, r) <==> u in ToldAs(r, created, updated, deleted))
  }

  function Kept(prev: Option<Entry>, next: Option<Entry>): set<Uid> {
    if prev.Some? && next.Some? && prev.value.hash != next.value.hash then prev.value.subs * next.value.subs else {}
  }

  lemma DecisionAddresses(h: Hasher, kind: Kind, prev: Option<Entry>, d: Decision)
    ensures var out := Decide(h, kind, prev, d);
            Addressed(out.events, Holders(out.entry) - Holders(prev), Kept(prev, out.entry),
                      if d.NoSubscribers? then {} else Holders(prev) - Holders(out.entry))
  {
    match d
    case Absent =>
      if prev.Some? {
        AudienceAddressed(DeleteMessage(kind, prev.value.uid), prev.value.subs);
        assert prev.value.subs - {} == prev.value.subs && {} - prev.value.subs == {};
      }
    case NoSubscribers(_) =>
      assert {} - Holders(prev) == {};
    case Send(c, _, subs) =>
      var held := Holders(prev);
      assert Kept(prev, Upsert(h, prev, c, subs).entry) == if Changed(h, prev, c) then subs * held else {};
      BatchAddressed(c, subs - held, if Changed(h, prev, c) then subs * held else {}, held - subs);
  }

  lemma DecisionReplays(h: Hasher, kind: Kind, prev: Option<Entry>, d: Decision)
    ensures var out := Decide(h, kind, prev, d);
            Replayed(Holders(prev), out.events) == if d.NoSubscribers? then Holders(prev) else Holders(out.entry)
  {
    match d
    case Absent =>
      if prev.Some? {
        var msg := DeleteMessage(kind, prev.value.uid);
        ReplayedAudience(Holders(prev), msg, prev.value.subs, []);
        assert Audience(msg, prev.value.subs) + [] == Audience(msg, prev.value.subs);
      }
    case NoSubscribers(_) =>
    case Send(c, _, subs) =>
      var held := Holders(prev);
      BatchReplayed(c, held, subs - held, if Changed(h, prev, c) then subs * held else {}, held - subs);
      assert held + (subs - held) - (held - subs) == subs;
  }

  /** Conservation for one reconcile: audiences are disjoint and non-empty, and they account for the whole change of
      holders, except for the silent drop, which tells nobody. */
  lemma DeltaConservation(h: Hasher, kind: Kind, prev: Option<Entry>, d: Decision)
    ensures var out := Decide(h, kind, prev, d);
            && (forall i | 0 <= i < |out.events| :: out.events[i].subs != {})
            && (forall i, j | 0 <= i < j < |out.events| :: out.events[i].subs !! out.events[j].subs)
            && (forall u :: Receives(out.events, u, Create) <==> u in Holders(out.entry) - Holders(prev))
            && (forall u :: Receives(out.events, u, Delete) <==>
                            u in Holders(prev) - Holders(out.entry) && !d.NoSubscribers?)
            && (forall u :: Receives(out.events, u, Update) <==>
                            u in Holders(prev) * Holders(out.entry) && prev.value.hash != out.entry.value.hash)
            && Replayed(Holders(prev), out.events) == if d.NoSubscribers? then Holders(prev) else Holders(out.entry)
  {
    DecisionAddresses(h, kind, prev, d);
    DecisionReplays(h, kind, prev, d);
    var out := Decide(h, kind, prev, d);
    SplitByReason(out.events, prev, out.entry, if d.NoSubscribers? then {} else Holders(prev) - Holders(out.entry));
  }

  lemma SplitByReason(events: seq<Event>, prev: Option<Entry>, next: Option<Entry>, deleted: set<Uid>)
    requires Addressed(events, Holders(next) - Holders(prev), Kept(prev, next), deleted)
    ensures forall u :: Receives(events, u, Create) <==> u in Holders(next) - Holders(prev)
    ensures forall u :: Receives(events, u, Delete) <==> u in deleted
    ensures forall u :: Receives(events, u, Update) <==>
                        u in Holders(prev) * Holders(next) && prev.value.hash != next.value.hash
  {
  }

  lemma AudienceAddressed(msg: Message, subs: set<Uid>)
    requires msg.reason.Delete?
    ensures Addressed(Audience(msg, subs), {}, {}, subs)
  {
    ReceivedAudience(msg, subs, []);
    assert Audience(msg, subs) + [] == Audience(msg, subs);
  }

  lemma BatchAddressed(c: Content, created: set<Uid>, updated: set<Uid>, deleted: set<Uid>)
    requires created !! updated && created !! deleted && updated !! deleted
    ensures Addressed(Batch(c, created, updated, deleted), created, updated, deleted)
  {
    var last := Audience(DeleteMessage(c.kind, c.uid), deleted);
    var mid := Audience(FullMessage(Update, c), updated) + last;
    assert last == last + [];
    assert Batch(c, created, updated, deleted) == Audience(FullMessage(Create, c), created) + mid;
    ReceivedAudience(FullMessage(Create, c), created, mid);
    ReceivedAudience(FullMessage(Update, c), updated, last);
    ReceivedAudience(DeleteMessage(c.kind, c.uid), deleted, []);
  }

  lemma BatchReplayed(c: Content, held: set<Uid>, created: set<Uid>, updated: set<Uid>, deleted: set<Uid>)
    ensures Replayed(held, Batch(c, created, updated, deleted)) == held + created - deleted
  {
    var last := Audience(DeleteMessage(c.kind, c.uid), deleted);
    var mid := Audience(FullMessage(Update, c), updated) + last;
    assert last == last + [];
    assert Batch(c, created, updated, deleted) == Audience(FullMessage(Create, c), created) + mid;
    ReplayedAudience(held, FullMessage(Create, c), created, mid);
    ReplayedAudience(held + created, FullMessage(Update, c), updated, last);
    ReplayedAudience(held + created, DeleteMessage(c.kind, c.uid), deleted, []);
  }

  lemma ReceivedAudience(msg: Message, subs: set<Uid>, rest: seq<Event>)
    ensures forall u, r :: Receives(Audience(msg, subs) + rest, u, r) <==>
                           (u in subs && r == msg.reason) || Receives(rest, u, r)
  {
    if subs == {} {
      assert Audience(msg, subs) + rest == rest;
    } else {
      var all := [Event(msg, subs)] + rest;
      assert Audience(msg, subs) + rest == all;
      assert all[0] == Event(msg, subs);
      assert forall e :: e in all <==> e == Event(msg, subs) || e in rest;
      forall u, r | u in subs && r == msg.reason
        ensures Receives(all, u, r)
      {
        assert all[0] in all;
      }
    }
  }

  lemma ReplayedAudience(held: set<Uid>, msg: Message, subs: set<Uid>, rest: seq<Event>)
    ensures Replayed(held, Audience(msg, subs) + rest) ==
            Replayed(match msg.reason case Create => held + subs case Update => held case Delete => held - subs, rest)
  {
    if subs == {} {
      assert Audience(msg, subs) + rest == rest;
      assert held + subs == held == held - subs;
    } else {
      assert (Audience(msg, subs) + rest)[1..] == rest;
    }
  }

  // ----- Whole histories of one key -----

  function Fold(h: Hasher, kind: Kind, history: seq<Decision>): Option<Entry> {
    if history == [] then None
    else
      var n := |history| - 1;
      Decide(h, kind, Fold(h, kind, history[..n]), history[n]).entry
  }

  /** Everything told to subscribers, with the holders that a silent drop forgets taken out at the drop. */
  function Told(h: Hasher, kind: Kind, history: seq<Decision>): set<Uid> {
    if history == [] then {}
    else
      var n := |history| - 1;
      if history[n].NoSubscribers? then {}
      else Replayed(Told(h, kind, history[..n]), Decide(h, kind, Fold(h, kind, history[..n]), history[n]).events)
  }

  /** Folding all the deltas of any history from the empty set gives the cached holders. */
  lemma {:induction false} HistoryConservation(h: Hasher, kind: Kind, history: seq<Decision>)
    ensures Told(h, kind, history) == Holders(Fold(h, kind, history))
  {
    if history != [] {
      var n := |history| - 1;
      HistoryConservation(h, kind, history[..n]);
      DeltaConservation(h, kind, Fold(h, kind, history[..n]), history[n]);
    }
  }

  /** Reconciling again with the same findings changes nothing and tells nobody. */
  lemma Idempotent(h: Hasher, kind: Kind, prev: Option<Entry>, d: Decision)
    ensures var once := Decide(h, kind, prev, d).entry;
            Decide(h, kind, once, d).entry == once && Decide(h, kind, once, d).events == []
  {
    if d.Send? {
      var once := Decide(h, kind, prev, d).entry;
      assert Holders(once) == d.subs;
      assert d.subs - d.subs == {};
    }
  }

  // ----- Object UIDs over a history -----

  ghost predicate Injective(h: Hasher) {
    forall a, b :: h(a) == h(b) ==> a == b
  }

  /** The content reconciled last since the key was cached: what the holders hold. */
  function Shown(history: seq<Decision>): Option<Content> {
    if history == [] then None
    else match history[|history| - 1] case Send(c, _, _) => Some(c) case _ => None
  }

  function EventsAt(h: Hasher, kind: Kind, history: seq<Decision>, n: nat): seq<Event>
    requires n < |history|
  {
    Decide(h, kind, Fold(h, kind, history[..n]), history[n]).events
  }

  /** Every Update and Delete names the object its receivers know. */
  ghost predicate UidsAgree(h: Hasher, kind: Kind, history: seq<Decision>) {
    forall n, e | 0 <= n < |history| && e in EventsAt(h, kind, history, n) && !e.msg.reason.Create? ::
      Shown(history[..n]).Some? && e.msg.uid == Shown(history[..n]).value.uid
  }

  /** The key never comes back under another UID while it is cached. */
  ghost predicate UidsStable(history: seq<Decision>) {
    forall n | 0 <= n < |history| && history[n].Send? && Shown(history[..n]).Some? ::
      history[n].content.uid == Shown(history[..n]).value.uid
  }

  lemma {:induction false} FoldShown(h: Hasher, kind: Kind, history: seq<Decision>)
    ensures var entry := Fold(h, kind, history);
            && entry.Some? == Shown(history).Some?
            && (entry.Some? ==> entry.value.hash == h(Shown(history).value)
                                && entry.value.subs == history[|history| - 1].subs
                                && (UidsStable(history) ==> entry.value.uid == Shown(history).value.uid))
  {
    if history != [] {
      var n := |history| - 1;
      FoldShown(h, kind, history[..n]);
      if UidsStable(history) {
        forall m | 0 <= m < n
          ensures history[..n][m] == history[m] && history[..n][..m] == history[..m]
        {}
        assert UidsStable(history[..n]);
      }
    }
  }

  /** The UID of an entry is never refreshed, so a subscriber that files objects by UID is served correctly exactly
      when no key changes UID while it is cached. */
  lemma UidAgreement(h: Hasher, kind: Kind, history: seq<Decision>)
    requires Injective(h)
    requires forall d | d in history && d.Send? :: d.subs != {}
    ensures UidsAgree(h, kind, history) <==> UidsStable(history)
  {
    if UidsStable(history) {
      forall n, e | 0 <= n < |history| && e in EventsAt(h, kind, history, n) && !e.msg.reason.Create?
        ensures Shown(history[..n]).Some? && e.msg.uid == Shown(history[..n]).value.uid
      {
        StablePrefix(history, n);
        FoldShown(h, kind, history[..n]);
        AgreeingEvents(h, kind, Fold(h, kind, history[..n]), history[n], Shown(history[..n]));
      }
    } else {
      var n :| 0 <= n < |history| && history[n].Send? && Shown(history[..n]).Some?
               && history[n].content.uid != Shown(history[..n]).value.uid;
      FoldShown(h, kind, history[..n]);
      assert history[..n][n - 1] == history[n - 1] && history[n - 1] in history;
      var e := DisagreeingEvent(h, kind, Fold(h, kind, history[..n]), history[n], Shown(history[..n]).value);
      assert e in EventsAt(h, kind, history, n);
    }
  }

  lemma StablePrefix(history: seq<Decision>, n: nat)
    requires n <= |history| && UidsStable(history)
    ensures UidsStable(history[..n])
  {
    forall m | 0 <= m < n
      ensures history[..n][m] == history[m] && history[..n][..m] == history[..m]
    {}
  }

  lemma AgreeingEvents(h: Hasher, kind: Kind, prev: Option<Entry>, d: Decision, shown: Option<Content>)
    requires prev.Some? == shown.Some?
    requires prev.Some? ==> prev.value.uid == shown.value.uid
    requires d.Send? && prev.Some? ==> d.content.uid == shown.value.uid
    ensures forall e | e in Decide(h, kind, prev, d).events && !e.msg.reason.Create? ::
              shown.Some? && e.msg.uid == shown.value.uid
  {
    if d.Send? && prev.None? {
      assert d.subs * {} == {} && {} - d.subs == {};
    }
  }

  /** A changed UID changes the hash, so each holder is sent either an Update or a Delete under the new UID. */
  lemma DisagreeingEvent(h: Hasher, kind: Kind, prev: Option<Entry>, d: Decision, shown: Content) returns (e: Event)
    requires Injective(h) && prev.Some? && d.Send?
    requires prev.value.hash == h(shown) && prev.value.subs != {} && d.content.uid != shown.uid
    ensures e in Decide(h, kind, prev, d).events && !e.msg.reason.Create? && e.msg.uid != shown.uid
  {
    var c, held := d.content, prev.value.subs;
    assert Changed(h, prev, c);
    var u :| u in held;
    InBatch(c, d.subs - held, d.subs * held, held - d.subs);
    if u in d.subs {
      assert u in d.subs * held;
      e := Event(FullMessage(Update, c), d.subs * held);
    } else {
      assert u in held - d.subs;
      e := Event(DeleteMessage(c.kind, c.uid), held - d.subs);
    }
  }

  lemma InBatch(c: Content, created: set<Uid>, updated: set<Uid>, deleted: set<Uid>)
    ensures var events := Batch(c, created, updated, deleted);
            && (created != {} ==> Event(FullMessage(Create, c), created) in events)
            && (updated != {} ==> Event(FullMessage(Update, c), updated) in events)
            && (deleted != {} ==> Event(DeleteMessage(c.kind, c.uid), deleted) in events)
  {
    var one, two, three := Audience(FullMessage(Create, c), created), Audience(FullMessage(Update, c), updated),
                           Audience(DeleteMessage(c.kind, c.uid), deleted);
    assert forall e :: e in one || e in two || e in three ==> e in one + two + three;
    assert created != {} ==> one[0] in one;
    assert updated != {} ==> two[0] in two;
    assert deleted != {} ==> three[0] in three;
  }

  /** A pod recreated under its old name: its Delete names an object the subscriber no longer knows. */
  lemma StaleDelete(h: Hasher, first: Content, second: Content, node: Node, u: Uid)
    requires first.uid != second.uid && h(first) != h(second)
    ensures var history := [Send(first, node, {u}), Send(second, node, {u}), Absent];
            EventsAt(h, Pod, history, 1) == [Event(FullMessage(Update, second), {u})]
            && EventsAt(h, Pod, history, 2) == [Event(DeleteMessage(Pod, first.uid), {u})]
  {
    var history := [Send(first, node, {u}), Send(second, node, {u}), Absent];
    assert history[..1] == [history[0]] && history[..2] == [history[0], history[1]];
    assert history[..1][..0] == [] && history[..2][..1] == history[..1];
    var one := Fold(h, Pod, history[..1]);
    assert Fold(h, Pod, history[..0]) == None;
    assert one == Some(Entry(h(first), first.uid, first.refs, {u}));
    var two := Fold(h, Pod, history[..2]);
    assert two == Some(Entry(h(second), first.uid, second.refs, {u}));
    assert {u} - {u} == {} && {u} * {u} == {u};
  }
}
