/** broker/ and metadata/server.go: the queue, the send loop, connections and the notification of collectors. */
module Broker {
  import opened Types

  datatype PushResult = Pushed | HandedOver | PushGaveUp | PushBlocked
  datatype PopResult = Popped(event: Event) | PopGaveUp | PopBlocked

  /** One attempt of a select: among the ready cases any may be taken; with none ready the caller blocks. A receiver
      waits only at an empty buffer, and is then handed the event; a sender waits only at a full one, and its event
      moves up when something is taken. Without a buffer every event is handed over. */
  class BlockingChannel {
    const capacity: nat
    var items: seq<Event>

    ghost predicate Valid()
      reads this
    {
      |items| <= capacity
    }

    constructor (bufferLen: nat)
      ensures Valid() && items == [] && capacity == bufferLen
    {
      capacity := bufferLen;
      items := [];
    }

    method Push(canceled: bool, receiver: bool, evt: Event) returns (r: PushResult)
      requires Valid() && (receiver ==> items == [])
      modifies this
      ensures Valid()
      ensures r.PushBlocked? <==> !canceled && !receiver && |old(items)| == capacity
      ensures r.PushGaveUp? ==> canceled
      ensures r.HandedOver? ==> receiver
      ensures r.Pushed? ==> !receiver && |old(items)| < capacity
      ensures items == old(items) + (if r.Pushed? then [evt] else [])
    {
      if
      case receiver =>
        r := HandedOver;
      case !receiver && |items| < capacity =>
        items := items + [evt];
        r := Pushed;
      case canceled =>
        r := PushGaveUp;
      case |items| == capacity && !receiver && !canceled =>
        r := PushBlocked;
    }

    /** Whatever waits outside comes after everything in the buffer. */
    method Pop(canceled: bool, sender: Option<Event>) returns (r: PopResult)
      requires Valid() && (sender.Some? ==> |items| == capacity)
      modifies this
      ensures Valid()
      ensures r.PopBlocked? <==> !canceled && old(items) == [] && sender.None?
      ensures r.PopGaveUp? ==> canceled
      ensures if r.Popped? then old(items) + (if sender.Some? then [sender.value] else []) == [r.event] + items
              else items == old(items)
    {
      if
      case items != [] =>
        r := Popped(items[0]);
        items := items[1..] + (if sender.Some? then [sender.value] else []);
      case items == [] && sender.Some? =>
        r := Popped(sender.value);
      case canceled =>
        r := PopGaveUp;
      case items == [] && sender.None? && !canceled =>
        r := PopBlocked;
    }
  }

  /** What there is to see of a connection: every send that was tried, and the error its Watch handler will read. */
  datatype Conn = Conn(sent: seq<Message>, closed: bool, error: Option<string>)

  /** What one event does to one connection. */
  function Served(con: Conn, msg: Message, named: bool, fails: bool): Conn {
    if !named then con
    else Conn(con.sent + [msg], con.closed || fails,
              if fails && !con.closed then Some("send failed") else con.error)
  }

  /** Only who is named is sent the event; only a failed send closes, and the first error stays. */
  lemma ServedExact(con: Conn, msg: Message, named: bool, fails: bool)
    ensures var c := Served(con, msg, named, fails);
            && c.sent == con.sent + (if named then [msg] else [])
            && (c.closed <==> con.closed || (named && fails))
            && (con.closed || !c.closed ==> c.error == con.error)
            && (!con.closed && c.closed ==> c.error == Some("send failed"))
  {
    assert con.sent + [] == con.sent;
  }

  /** Closing a connection hands one error to the Watch handler, and only the first. */
  class Connection {
    ghost const owner: Uid
    var sent: seq<Message>
    var closed: bool
    var error: Option<string>

    function View(): Conn
      reads this
    {
      Conn(sent, closed, error)
    }

    constructor (uid: Uid)
      ensures owner == uid && View() == Conn([], false, None)
    {
      owner := uid;
      sent, closed, error := [], false, None;
    }

    method Close(err: string)
      modifies this`closed, this`error
      ensures closed && error == if old(closed) then old(error) else Some(err)
    {
      if !closed {
        closed := true;
        error := Some(err);
      }
    }

    method Send(msg: Message, fails: bool) returns (ok: bool)
      modifies this`sent
      ensures ok == !fails && sent == old(sent) + [msg]
    {
      sent := sent + [msg];
      ok := !fails;
    }
  }

  function Raised(counts: Counts, kind: Kind, reason: Reason, n: nat): Counts {
    if n == 0 then counts else counts[(kind, reason) := CountOf(counts, kind, reason) + n]
  }

  lemma RaisedExact(counts: Counts, kind: Kind, reason: Reason, n: nat, k: Kind, r: Reason)
    ensures CountOf(Raised(counts, kind, reason, n), k, r) ==
            CountOf(counts, k, r) + if k == kind && r == reason then n else 0
  {
  }

  class Sender {
    var subscribers: map<Uid, Connection>
    var counts: Counts
    ghost var repr: set<Connection>

    /** No two subscribers share a connection. */
    ghost predicate Valid()
      reads this
    {
      forall u | u in subscribers :: subscribers[u] in repr && subscribers[u].owner == u
    }

    constructor ()
      ensures Valid() && subscribers == map[] && counts == map[]
    {
      subscribers, counts, repr := map[], map[], {};
    }

    method Store(uid: Uid, con: Connection)
      requires Valid() && con.owner == uid
      modifies this`subscribers, this`repr
      ensures Valid() && subscribers == old(subscribers)[uid := con]
    {
      subscribers, repr := subscribers[uid := con], repr + {con};
    }

    method Delete(uid: Uid)
      requires Valid()
      modifies this`subscribers
      ensures Valid() && subscribers == old(subscribers) - {uid}
    {
      subscribers := subscribers - {uid};
    }

    /** The connections after the subscribers in tried had their send, starting from the views in start. */
    ghost predicate Progress(start: map<Uid, Conn>, msg: Message, tried: set<Uid>, fails: set<Uid>)
      reads this, repr
      requires Valid()
    {
      && start.Keys == subscribers.Keys
      && forall u | u in subscribers :: subscribers[u].View() == Served(start[u], msg, u in tried, u in fails)
    }

    method SendTo(sub: Uid, msg: Message, fails: set<Uid>, ghost start: map<Uid, Conn>, ghost tried: set<Uid>)
      requires Valid() && sub !in tried && Progress(start, msg, tried, fails)
      modifies this`counts, repr
      ensures subscribers == old(subscribers) && repr == old(repr) && Valid()
      ensures Progress(start, msg, tried + {sub}, fails)
      ensures counts == Raised(old(counts), msg.kind, msg.reason, if sub in subscribers then 1 else 0)
    {
      if sub in subscribers {
        var con := subscribers[sub];
        var ok := con.Send(msg, sub in fails);
        if !ok {
          con.Close("send failed");
        }
        counts := Raised(counts, msg.kind, msg.reason, 1);
      }
    }

    /** One event: a send is tried once for each subscriber it names that is connected, and for nobody else; a failed
        send closes the connection; every try is counted. */
    method Route(evt: Event, fails: set<Uid>)
      requires Valid()
      modifies this`counts, repr
      ensures Valid() && subscribers == old(subscribers) && repr == old(repr)
      ensures forall u | u in subscribers ::
                subscribers[u].View() == Served(old(subscribers[u].View()), evt.msg, u in evt.subs, u in fails)
      ensures counts == Raised(old(counts), evt.msg.kind, evt.msg.reason, |evt.subs * subscribers.Keys|)
    {
      var todo := evt.subs;
      ghost var tried: set<Uid> := {};
      ghost var start := map u | u in subscribers :: subscribers[u].View();
      while todo != {}
        invariant todo <= evt.subs && tried == evt.subs - todo
        invariant subscribers == old(subscribers) && repr == old(repr) && Valid()
        invariant Progress(start, evt.msg, tried, fails)
        invariant counts == Raised(old(counts), evt.msg.kind, evt.msg.reason, |tried * subscribers.Keys|)
        decreases todo
      {
        var sub :| sub in todo;
        OneMore(evt.subs, todo, tried, sub, subscribers.Keys);
        RaisedTwice(old(counts), evt.msg.kind, evt.msg.reason, |tried * subscribers.Keys|,
                    if sub in subscribers then 1 else 0);
        SendTo(sub, evt.msg, fails, start, tried);
        todo := todo - {sub};
        tried := tried + {sub};
      }
      assert tried == evt.subs;
    }
  }

  lemma RaisedTwice(counts: Counts, kind: Kind, reason: Reason, n: nat, m: nat)
    ensures Raised(Raised(counts, kind, reason, n), kind, reason, m) == Raised(counts, kind, reason, n + m)
  {
  }

  lemma OneMore(named: set<Uid>, todo: set<Uid>, tried: set<Uid>, sub: Uid, all: set<Uid>)
    requires sub in todo && todo <= named && tried == named - todo
    ensures sub !in tried && tried + {sub} == named - (todo - {sub})
    ensures |(tried + {sub}) * all| == |tried * all| + if sub in all then 1 else 0
  {
    if sub in all {
      assert (tried + {sub}) * all == tried * all + {sub};
    } else {
      assert (tried + {sub}) * all == tried * all;
    }
  }

  datatype Notice = Notice(kind: Kind, sub: bool, uid: Uid, node: Node)

  /** The notices that tell the kinds about a subscriber: each once, only selected and collected ones, and all of
      them unless the server stopped. */
  ghost predicate Tells(notices: seq<Notice>, kinds: set<Kind>, sub: bool, uid: Uid, node: Node, all: bool) {
    && (forall i, j | 0 <= i < j < |notices| :: notices[i] != notices[j])
    && (forall n | n in notices :: n.kind in kinds && n == Notice(n.kind, sub, uid, node))
    && (all ==> forall kind | kind in kinds :: Notice(kind, sub, uid, node) in notices)
  }

  class Server {
    const collectors: set<Kind>
    var subscribers: set<Uid>
    var delivered: seq<Notice>     // the notices collectors have taken
    var accepts: nat               // how many more they take before the shutdown

    constructor (collectors: set<Kind>, accepts: nat)
      ensures this.collectors == collectors && delivered == [] && this.accepts == accepts && subscribers == {}
    {
      this.collectors, this.accepts := collectors, accepts;
      delivered, subscribers := [], {};
    }

    method NotifyCollectors(kinds: set<Kind>, sub: bool, uid: Uid, node: Node) returns (ghost told: seq<Notice>)
      modifies this`delivered, this`accepts
      ensures delivered == old(delivered) + told && accepts == old(accepts) - |told|
      ensures Tells(told, kinds * collectors, sub, uid, node, accepts > 0)
    {
      told := [];
      var todo := kinds;
      while todo != {}
        invariant todo <= kinds
        invariant delivered == old(delivered) + told && accepts == old(accepts) - |told|
        invariant Tells(told, (kinds - todo) * collectors, sub, uid, node, true)
        decreases todo
      {
        var kind :| kind in todo;
        var notice := Notice(kind, sub, uid, node);
        assert notice !in told;
        todo := todo - {kind};
        if kind in collectors {
          if accepts == 0 {
            return;
          }
          delivered := delivered + [notice];
          accepts := accepts - 1;
          told := told + [notice];
        }
      }
    }

    /** A watch from its connection to its end: every selected collector hears of the subscriber once, and, after all
        of them did, once more that it left, when the connection is already gone; at a shutdown some hear nothing. */
    method Watch(uid: Uid, node: Node, kinds: set<Kind>, ended: Option<string>)
        returns (err: Option<string>, ghost arrival: seq<Notice>, ghost departure: seq<Notice>)
      requires uid !in subscribers
      modifies this
      ensures err == ended && subscribers == old(subscribers)
      ensures delivered == old(delivered) + arrival + departure && accepts == old(accepts) - |arrival| - |departure|
      ensures Tells(arrival, kinds * collectors, true, uid, node, accepts > 0)
      ensures Tells(departure, kinds * collectors, false, uid, node, accepts > 0)
      ensures departure != [] ==> Tells(arrival, kinds * collectors, true, uid, node, true)
    {
      subscribers := subscribers + {uid};
      arrival := NotifyCollectors(kinds, true, uid, node);
      err := ended;
      subscribers := subscribers - {uid};
      departure := NotifyCollectors(kinds, false, uid, node);
    }
  }
}
