/** pkg/subscriber/types.go: which subscribers registered for which node, one registry per collector. */
module Subscriber {
  import opened Types

  function At(r: Registry, node: Node): set<Uid> {
    if node in r then r[node] else {}
  }

  function Added(r: Registry, node: Node, sub: Uid): Registry {
    r[node := At(r, node) + {sub}]
  }

  function Removed(r: Registry, node: Node, sub: Uid): Registry {
    if At(r, node) - {sub} == {} then r - {node} else r[node := At(r, node) - {sub}]
  }

  /** A node is listed only while it has a subscriber: HasNode and Len count on it. */
  ghost predicate Tidy(r: Registry) {
    forall node | node in r :: r[node] != {}
  }

  /** Adding and removing concern one subscriber of one node. */
  lemma ChangesExact(r: Registry, node: Node, sub: Uid, n: Node, u: Uid)
    ensures u in At(Added(r, node, sub), n) <==> u in At(r, n) || (n == node && u == sub)
    ensures u in At(Removed(r, node, sub), n) <==> u in At(r, n) && !(n == node && u == sub)
    ensures Tidy(r) ==> Tidy(Added(r, node, sub)) && Tidy(Removed(r, node, sub))
  {
    assert sub in At(r, node) + {sub};
    assert At(r, node) <= (At(r, node) - {sub}) + {sub};
  }

  /** Removing undoes adding, whatever was there before. */
  lemma RemovedAfterAdded(r: Registry, node: Node, sub: Uid)
    requires Tidy(r) && sub !in At(r, node)
    ensures Tidy(Added(r, node, sub)) && Removed(Added(r, node, sub), node, sub) == r
  {
    assert At(r, node) + {sub} - {sub} == At(r, node);
    assert sub in Added(r, node, sub)[node];
  }

  class Subscribers {
    var items: Registry

    ghost predicate Valid()
      reads this
    {
      Tidy(items)
    }

    constructor ()
      ensures Valid() && items == map[]
    {
      items := map[];
    }

    method AddSubscriberPerNode(node: Node, sub: Uid)
      requires Valid()
      modifies this
      ensures Valid()
      ensures items == Added(old(items), node, sub)
    {
      var subs: set<Uid> := {};
      if node in items {
        subs := items[node];
      }
      subs := subs + {sub};
      assert sub in subs;
      items := items[node := subs];
    }

    /** The subscribers of a node, copied; None when the node has none. */
    method GetSubscribersPerNode(node: Node) returns (copied: Option<set<Uid>>)
      ensures copied == if node in items then Some(items[node]) else None
    {
      copied := None;
      if node in items {
        var subs: set<Uid> := {};
        var todo := items[node];
        while todo != {}
          invariant todo <= items[node] && subs == items[node] - todo
          decreases todo
        {
          var sub :| sub in todo;
          subs := subs + {sub};
          todo := todo - {sub};
        }
        assert subs == items[node];
        copied := Some(subs);
      }
    }

    method DeleteSubscriberPerNode(node: Node, sub: Uid)
      requires Valid()
      modifies this
      ensures Valid()
      ensures items == Removed(old(items), node, sub)
    {
      if node in items {
        var subs := items[node] - {sub};
        if subs == {} {
          items := items - {node};
        } else {
          items := items[node := subs];
        }
      }
    }

    method HasNode(node: Node) returns (has: bool)
      requires Valid()
      ensures has <==> At(items, node) != {}
    {
      has := node in items;
    }

    method Len() returns (n: nat)
      requires Valid()
      ensures n == |items.Keys| && forall node :: node in items.Keys <==> At(items, node) != {}
    {
      n := |items|;
    }
  }
}
