/** pkg/fields/fields.go: set operations on subscribers and the flat view of references. */
module Fields {
  import opened Types

  method Intersect(s: set<Uid>, subs: set<Uid>) returns (intersection: set<Uid>)
    ensures intersection == s * subs
  {
    intersection := {};
    var s1, s2 := s, subs;
    if |s1| > |s2| {
      s1, s2 := s2, s1;
    }
    var todo := s1;
    while todo != {}
      invariant todo <= s1
      invariant intersection == (s1 - todo) * s2
      decreases todo
    {
      var sub :| sub in todo;
      if sub in s2 {
        intersection := intersection + {sub};
      }
      todo := todo - {sub};
    }
  }

  method Difference(s: set<Uid>, subs: set<Uid>) returns (difference: set<Uid>)
    ensures difference == s - subs
  {
    difference := {};
    var todo := s;
    while todo != {}
      invariant todo <= s
      invariant difference == (s - todo) - subs
      decreases todo
    {
      var sub :| sub in todo;
      if sub !in subs {
        difference := difference + {sub};
      }
      todo := todo - {sub};
    }
  }

  /** The UIDs of a list of references, in order. */
  function Uids(refs: seq<Ref>): seq<ObjUid> {
    seq(|refs|, i requires 0 <= i < |refs| => refs[i].uid)
  }

  function Flatten(refs: Refs): map<Kind, seq<ObjUid>> {
    map kind | kind in refs :: Uids(refs[kind])
  }

  lemma FlattenExact(refs: Refs)
    ensures Flatten(refs).Keys == refs.Keys
    ensures forall kind | kind in refs :: |Flatten(refs)[kind]| == |refs[kind]|
    ensures forall kind, i | kind in refs && 0 <= i < |refs[kind]| :: Flatten(refs)[kind][i] == refs[kind][i].uid
  {
  }

  method ToFlatMap(refs: Refs) returns (flat: map<Kind, seq<ObjUid>>)
    ensures flat == Flatten(refs)
    ensures flat.Keys == refs.Keys && forall kind | kind in refs :: |flat[kind]| == |refs[kind]|
    ensures forall kind, i | kind in refs && 0 <= i < |refs[kind]| :: flat[kind][i] == refs[kind][i].uid
  {
    flat := map[];
    var todo := refs.Keys;
    while todo != {}
      invariant todo <= refs.Keys
      invariant flat.Keys == refs.Keys - todo
      invariant forall kind | kind in flat :: flat[kind] == Uids(refs[kind])
      decreases todo
    {
      var kind :| kind in todo;
      var uids: seq<ObjUid> := [];
      for i := 0 to |refs[kind]|
        invariant uids == Uids(refs[kind])[..i]
      {
        uids := uids + [refs[kind][i].uid];
      }
      flat := flat[kind := uids];
      todo := todo - {kind};
    }
  }
}
