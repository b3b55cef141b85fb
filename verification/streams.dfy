/** What a log of events means to one subscriber and one cache key. */
module Streams {
  import opened Types
  import Engine

  datatype Logged = Logged(key: Key, ev: Event)

  /** The messages of a log that name a subscriber, for one key. */
  function StreamOf(log: seq<Logged>, key: Key, u: Uid): seq<Message> {
    if log == [] then []
    else
      var n := |log| - 1;
      StreamOf(log[..n], key, u) + (if log[n].key == key && u in log[n].ev.subs then [log[n].ev.msg] else [])
  }

  /** A prefix of (Create Update* Delete)*: a Create comes first and right after each Delete, and nowhere else. */
  ghost predicate Alternates(stream: seq<Message>) {
    forall i | 0 <= i < |stream| :: Legal(stream, i)
  }

  ghost predicate Legal(stream: seq<Message>, i: nat)
    requires i < |stream|
  {
    stream[i].reason.Create? <==> (i == 0 || stream[i - 1].reason.Delete?)
  }

  /** The copy a subscriber keeps of one key, by replaying its stream into a map, and whether every event so far came
      in its place: a Create for something not held, an Update or Delete for something held. */
  datatype Replica = Replica(held: Option<Message>, legal: bool)

  function Applied(r: Replica, m: Message): Replica {
    Replica(if m.reason.Delete? then None else Some(m), r.legal && (m.reason.Create? <==> r.held.None?))
  }

  function Replay(stream: seq<Message>): Replica {
    if stream == [] then Replica(None, true)
    else Applied(Replay(stream[..|stream| - 1]), stream[|stream| - 1])
  }

  function ReplicaOf(log: seq<Logged>, key: Key, u: Uid): Replica {
    Replay(StreamOf(log, key, u))
  }

  function Tag(key: Key, events: seq<Event>): seq<Logged> {
    seq(|events|, i requires 0 <= i < |events| => Logged(key, events[i]))
  }

  /** Every event comes in its place exactly on the legal streams. */
  lemma {:induction false} ReplayAlternates(stream: seq<Message>)
    ensures Alternates(stream) <==> Replay(stream).legal
    ensures Replay(stream).held.None? <==> stream == [] || stream[|stream| - 1].reason.Delete?
  {
    if stream != [] {
      var n := |stream| - 1;
      ReplayAlternates(stream[..n]);
      AlternatesNext(stream);
    }
  }

  lemma AlternatesNext(stream: seq<Message>)
    requires stream != []
    ensures var n := |stream| - 1;
            && (n > 0 ==> stream[..n][n - 1] == stream[n - 1])
            && (Alternates(stream) <==>
                Alternates(stream[..n]) && Legal(stream, n))
  {
    var n := |stream| - 1;
    var init := stream[..n];
    forall i | 0 <= i < n
      ensures Legal(init, i) <==> Legal(stream, i)
    {
      assert stream[i] == init[i];
      if i > 0 {
        assert stream[i - 1] == init[i - 1];
      }
    }
  }

  lemma ReplicaNext(log: seq<Logged>, l: Logged, key: Key, u: Uid)
    ensures ReplicaOf(log + [l], key, u) ==
            if l.key == key && u in l.ev.subs then Applied(ReplicaOf(log, key, u), l.ev.msg) else ReplicaOf(log, key, u)
  {
    assert (log + [l])[..|log|] == log && (log + [l])[|log|] == l;
    var s := StreamOf(log, key, u);
    assert s + [] == s;
    if l.key == key && u in l.ev.subs {
      assert (s + [l.ev.msg])[..|s|] == s;
    }
  }

  lemma ReplicaAudience(log: seq<Logged>, at: Key, msg: Message, subs: set<Uid>, rest: seq<Event>, key: Key, u: Uid)
    ensures var more := Tag(at, Engine.Audience(msg, subs));
            && log + Tag(at, Engine.Audience(msg, subs) + rest) == (log + more) + Tag(at, rest)
            && ReplicaOf(log + more, key, u) ==
               if at == key && u in subs then Applied(ReplicaOf(log, key, u), msg) else ReplicaOf(log, key, u)
  {
    if subs == {} {
      assert log + Tag(at, []) == log;
    } else {
      assert Tag(at, Engine.Audience(msg, subs)) == [Logged(at, Event(msg, subs))];
      ReplicaNext(log, Logged(at, Event(msg, subs)), key, u);
    }
  }

  lemma ReplicaBatch(log: seq<Logged>, at: Key, c: Content, created: set<Uid>, updated: set<Uid>, deleted: set<Uid>,
                     key: Key, u: Uid)
    requires created !! updated && created !! deleted && updated !! deleted
    ensures var r := ReplicaOf(log, key, u);
            ReplicaOf(log + Tag(at, Engine.Batch(c, created, updated, deleted)), key, u) ==
            if at != key then r
            else if u in created then Applied(r, Engine.FullMessage(Create, c))
            else if u in updated then Applied(r, Engine.FullMessage(Update, c))
            else if u in deleted then Applied(r, Engine.DeleteMessage(c.kind, c.uid))
            else r
  {
    var one, two, three := Engine.FullMessage(Create, c), Engine.FullMessage(Update, c), Engine.DeleteMessage(c.kind, c.uid);
    var last := Engine.Audience(three, deleted);
    var mid := Engine.Audience(two, updated) + last;
    assert Engine.Batch(c, created, updated, deleted) == Engine.Audience(one, created) + mid;
    assert last == last + [];
    ReplicaAudience(log, at, one, created, mid, key, u);
    var log1 := log + Tag(at, Engine.Audience(one, created));
    ReplicaAudience(log1, at, two, updated, last, key, u);
    var log2 := log1 + Tag(at, Engine.Audience(two, updated));
    ReplicaAudience(log2, at, three, deleted, [], key, u);
    assert Tag(at, []) == [];
  }

  /** What one reconcile does to one subscriber's replica. */
  lemma ReplicaDecide(h: Hasher, kind: Kind, log: seq<Logged>, at: Key, prev: Option<Entry>, d: Engine.Decision,
                      key: Key, u: Uid)
    ensures var out := Engine.Decide(h, kind, prev, d);
            var r, r' := ReplicaOf(log, key, u), ReplicaOf(log + Tag(at, out.events), key, u);
            var had, has := u in Engine.Holders(prev), u in Engine.Holders(out.entry);
            if at != key || d.NoSubscribers? || (!had && !has) then r' == r
            else if !had then d.Send? && r' == Applied(r, Engine.FullMessage(Create, d.content))
            else if !has then exists m: Message :: m.reason == Delete && r' == Applied(r, m)
            else r' == if Engine.Changed(h, prev, d.content) then Applied(r, Engine.FullMessage(Update, d.content)) else r
  {
    match d
    case NoSubscribers(_) =>
      assert log + Tag(at, []) == log;
    case Absent =>
      if prev.Some? {
        var m := Engine.DeleteMessage(kind, prev.value.uid);
        ReplicaAudience(log, at, m, prev.value.subs, [], key, u);
        assert m.reason == Delete;
      } else {
        assert log + Tag(at, []) == log;
      }
    case Send(c, _, subs) =>
      var held := Engine.Holders(prev);
      ReplicaBatch(log, at, c, subs - held, if Engine.Changed(h, prev, c) then subs * held else {}, held - subs, key, u);
      assert Engine.DeleteMessage(c.kind, c.uid).reason == Delete;
  }
}
