/**
 The references of a pod to the services that select it (collectors/pod.go, serviceRefsHandler). The list comes back
 from the API in any order; sorting it by UID makes the hash of the pod independent of that order.
 */
module ServiceRefs {
  import opened Types
  import opened Relations
  import Subscriber

  // ----- Byte order on UIDs -----

  predicate Less(a: string, b: string) {
    if b == "" then false
    else a == "" || a[0] < b[0] || (a[0] == b[0] && Less(a[1..], b[1..]))
  }

  lemma {:induction false} LessTotal(a: string, b: string)
    ensures a == b || Less(a, b) || Less(b, a)
    ensures !(Less(a, b) && Less(b, a))
    ensures Less(a, b) ==> a != b
  {
    if a != "" && b != "" && a[0] == b[0] {
      LessTotal(a[1..], b[1..]);
      assert a == [a[0]] + a[1..] && b == [b[0]] + b[1..];
    }
  }

  lemma {:induction false} LessTransitive(a: string, b: string, c: string)
    requires Less(a, b) && Less(b, c)
    ensures Less(a, c)
  {
    if a != "" && a[0] == b[0] == c[0] {
      LessTransitive(a[1..], b[1..], c[1..]);
    }
  }

  /** At the first place where they differ, or where one of them ends. */
  ghost predicate DifferAt(a: string, b: string, i: nat) {
    && i <= |a| && i < |b| && a[..i] == b[..i]
    && (i == |a| || a[i] < b[i])
  }

  lemma SameStart(a: string, b: string, i: nat)
    requires DifferAt(a, b, i) && i > 0
    ensures a != "" && a[0] == b[0]
  {
    assert a[..i][0] == b[..i][0];
  }

  lemma {:induction false} LessExact(a: string, b: string)
    ensures Less(a, b) <==> exists i: nat :: DifferAt(a, b, i)
  {
    if a != "" && b != "" && a[0] == b[0] {
      LessExact(a[1..], b[1..]);
      assert a == [a[0]] + a[1..] && b == [b[0]] + b[1..];
      if i: nat :| DifferAt(a[1..], b[1..], i) {
        assert a[..i + 1] == [a[0]] + a[1..][..i] && b[..i + 1] == [b[0]] + b[1..][..i];
        assert DifferAt(a, b, i + 1);
      }
      if i: nat :| DifferAt(a, b, i) {
        assert i > 0;
        assert a[1..][..i - 1] == a[..i][1..] && b[1..][..i - 1] == b[..i][1..];
        assert DifferAt(a[1..], b[1..], i - 1);
      }
    } else if b != "" {
      assert a == "" || a[0] < b[0] ==> DifferAt(a, b, 0);
      if i: nat :| DifferAt(a, b, i) && i > 0 {
        SameStart(a, b, i);
      }
    }
  }

  // ----- Sorting -----

  /** No later reference is smaller than an earlier one: what sort.Slice promises. */
  ghost predicate Sorted(refs: seq<Ref>) {
    forall i, j | 0 <= i < j < |refs| :: !Less(refs[j].uid, refs[i].uid)
  }

  /** A UID names one object. */
  ghost predicate Identified(refs: multiset<Ref>) {
    forall r, q | r in refs && q in refs && r.uid == q.uid :: r == q
  }

  function Insert(r: Ref, refs: seq<Ref>): (out: seq<Ref>)
    ensures multiset(out) == multiset(refs) + multiset{r}
  {
    if refs == [] then [r]
    else if Less(refs[0].uid, r.uid) then
      assert refs == [refs[0]] + refs[1..];
      [refs[0]] + Insert(r, refs[1..])
    else [r] + refs
  }

  function SortByUid(refs: seq<Ref>): (out: seq<Ref>)
    ensures multiset(out) == multiset(refs)
  {
    if refs == [] then []
    else
      assert refs == [refs[0]] + refs[1..];
      Insert(refs[0], SortByUid(refs[1..]))
  }

  lemma {:induction false} InsertSorted(r: Ref, refs: seq<Ref>)
    requires Sorted(refs)
    ensures Sorted(Insert(r, refs))
  {
    if refs != [] {
      if Less(refs[0].uid, r.uid) {
        InsertSorted(r, refs[1..]);
        var rest := Insert(r, refs[1..]);
        forall j | 0 <= j < |rest|
          ensures !Less(rest[j].uid, refs[0].uid)
        {
          assert rest[j] in multiset(rest);
          LessTotal(refs[0].uid, r.uid);
          if rest[j] != r {
            assert rest[j] in refs[1..];
          }
        }
      } else {
        forall j | 0 <= j < |refs|
          ensures !Less(refs[j].uid, r.uid)
        {
          LessTotal(refs[0].uid, r.uid);
          LessTotal(refs[j].uid, r.uid);
          LessTotal(refs[0].uid, refs[j].uid);
          if Less(refs[j].uid, r.uid) {
            if r.uid == refs[0].uid {
              assert false;
            }
            LessTransitive(refs[j].uid, r.uid, refs[0].uid);
          }
        }
      }
    }
  }

  lemma {:induction false} SortSorted(refs: seq<Ref>)
    ensures Sorted(SortByUid(refs))
  {
    if refs != [] {
      SortSorted(refs[1..]);
      InsertSorted(refs[0], SortByUid(refs[1..]));
    }
  }

  lemma SortedHead(a: seq<Ref>, b: seq<Ref>)
    requires a != [] && Sorted(a) && b != [] && Sorted(b) && multiset(a) == multiset(b) && Identified(multiset(a))
    ensures a[0] == b[0]
  {
    assert a[0] in multiset(b) && b[0] in multiset(a);
    LessTotal(a[0].uid, b[0].uid);
  }

  lemma SortedTails(a: seq<Ref>, b: seq<Ref>)
    requires a != [] && Sorted(a) && Sorted(b) && multiset(a) == multiset(b) && Identified(multiset(a))
    ensures b != [] && a[0] == b[0] && multiset(a[1..]) == multiset(b[1..])
    ensures Sorted(a[1..]) && Sorted(b[1..]) && Identified(multiset(a[1..]))
  {
    PermutedLength(a, b);
    SortedHead(a, b);
    TailMultiset(a);
    TailMultiset(b);
    IdentifiedTail(a);
    IdentifiedTail(b);
  }

  lemma TailMultiset<T>(s: seq<T>)
    requires s != []
    ensures multiset(s[1..]) == multiset(s) - multiset{s[0]}
  {
    assert s == [s[0]] + s[1..];
  }

  /** As a UID names one object there is one sorted order, whatever algorithm finds it. */
  lemma {:induction false} SortedUnique(a: seq<Ref>, b: seq<Ref>)
    requires Sorted(a) && Sorted(b) && multiset(a) == multiset(b) && Identified(multiset(a))
    ensures a == b
    decreases |a|
  {
    if a == [] {
      PermutedLength(a, b);
    } else {
      SortedTails(a, b);
      SortedUnique(a[1..], b[1..]);
      assert a == [a[0]] + a[1..];
      assert b == [b[0]] + b[1..];
    }
  }

  lemma PermutedLength<T>(a: seq<T>, b: seq<T>)
    requires multiset(a) == multiset(b)
    ensures |a| == |b|
  {
    assert |multiset(a)| == |a| && |multiset(b)| == |b|;
  }

  lemma PermutedTail<T>(a: seq<T>, b: seq<T>, i: nat)
    requires multiset(a) == multiset(b) && a != [] && i < |b| && b[i] == a[0]
    ensures multiset(a[1..]) == multiset(b[..i] + b[i + 1..])
  {
    assert a == [a[0]] + a[1..];
    assert b == b[..i] + [b[i]] + b[i + 1..];
    assert multiset(a[1..]) == multiset(a) - multiset{a[0]};
    assert multiset(b[..i] + b[i + 1..]) == multiset(b) - multiset{b[i]};
  }

  lemma IdentifiedTail(a: seq<Ref>)
    requires a != [] && Sorted(a) && Identified(multiset(a))
    ensures Sorted(a[1..]) && Identified(multiset(a[1..]))
  {
    assert a == [a[0]] + a[1..];
  }

  // ----- References of a pod -----

  /** The services of a pod's namespace that select it, in the order they were listed. */
  function Selecting(pod: PodObj, services: seq<(Key, Object)>): seq<Ref> {
    if services == [] then []
    else
      var n := |services| - 1;
      Selecting(pod, services[..n])
      + (if Selects(services[n].1, pod) then [Ref(services[n].0, services[n].1.uid)] else [])
  }

  function References(pod: PodObj, services: seq<(Key, Object)>): seq<Ref> {
    SortByUid(Selecting(pod, services))
  }

  /** The references are those of the services with a selector whose labels the pod all has. */
  lemma ReferencesMember(pod: PodObj, services: seq<(Key, Object)>, r: Ref)
    ensures r in References(pod, services) <==>
            exists s | s in services :: s.1.selector != map[] && s.1.selector.Items <= pod.labels.Items && r == Ref(s.0, s.1.uid)
  {
    SelectingMember(pod, services, r);
    assert r in References(pod, services) <==> r in multiset(Selecting(pod, services));
    forall s | s in services
      ensures Selects(s.1, pod) <==> s.1.selector != map[] && s.1.selector.Items <= pod.labels.Items
    {
      MatchesExact(s.1.selector, pod.labels);
    }
  }

  ghost predicate IdentifiedServices(services: seq<(Key, Object)>) {
    forall s, t | s in services && t in services && s.1.uid == t.1.uid :: s == t
  }

  lemma {:induction false} SelectingMember(pod: PodObj, services: seq<(Key, Object)>, r: Ref)
    ensures r in Selecting(pod, services) <==>
            exists s | s in services :: Selects(s.1, pod) && r == Ref(s.0, s.1.uid)
  {
    if services != [] {
      var n := |services| - 1;
      SelectingMember(pod, services[..n], r);
      assert services == services[..n] + [services[n]];
      assert forall s :: s in services <==> s in services[..n] || s == services[n];
    }
  }

  lemma {:induction false} SelectingSplit(pod: PodObj, a: seq<(Key, Object)>, b: seq<(Key, Object)>)
    ensures Selecting(pod, a + b) == Selecting(pod, a) + Selecting(pod, b)
  {
    if b == [] {
      assert a + b == a;
    } else {
      var n := |b| - 1;
      assert (a + b)[..|a + b| - 1] == a + b[..n];
      SelectingSplit(pod, a, b[..n]);
    }
  }

  lemma SelectingRemove(pod: PodObj, s: seq<(Key, Object)>, i: nat)
    requires i < |s|
    ensures multiset(Selecting(pod, s)) ==
            multiset(Selecting(pod, s[..i] + s[i + 1..])) + multiset(Selecting(pod, [s[i]]))
  {
    assert s == s[..i] + ([s[i]] + s[i + 1..]);
    SelectingSplit(pod, s[..i], [s[i]] + s[i + 1..]);
    SelectingSplit(pod, [s[i]], s[i + 1..]);
    SelectingSplit(pod, s[..i], s[i + 1..]);
  }

  lemma {:induction false} SelectingPermuted(pod: PodObj, a: seq<(Key, Object)>, b: seq<(Key, Object)>)
    requires multiset(a) == multiset(b)
    ensures multiset(Selecting(pod, a)) == multiset(Selecting(pod, b))
    decreases |a|
  {
    if a == [] {
      PermutedLength(a, b);
    } else {
      var i := PermutedIndex(a, b);
      SelectingPermuted(pod, a[1..], b[..i] + b[i + 1..]);
      SelectingHead(pod, a);
      SelectingRemove(pod, b, i);
    }
  }

  lemma SelectingHead(pod: PodObj, s: seq<(Key, Object)>)
    requires s != []
    ensures multiset(Selecting(pod, s)) == multiset(Selecting(pod, s[1..])) + multiset(Selecting(pod, [s[0]]))
  {
    assert s == [s[0]] + s[1..];
    SelectingSplit(pod, [s[0]], s[1..]);
  }

  lemma PermutedIndex<T>(a: seq<T>, b: seq<T>) returns (i: nat)
    requires multiset(a) == multiset(b) && a != []
    ensures i < |b| && b[i] == a[0] && multiset(a[1..]) == multiset(b[..i] + b[i + 1..])
  {
    assert a[0] in multiset(b);
    i :| 0 <= i < |b| && b[i] == a[0];
    PermutedTail(a, b, i);
  }

  /** However the service list is ordered, the pod carries the same references. */
  lemma OrderIrrelevant(pod: PodObj, a: seq<(Key, Object)>, b: seq<(Key, Object)>)
    requires multiset(a) == multiset(b) && IdentifiedServices(a)
    ensures References(pod, a) == References(pod, b)
  {
    SelectingPermuted(pod, a, b);
    SortSorted(Selecting(pod, a));
    SortSorted(Selecting(pod, b));
    forall r, q | r in multiset(References(pod, a)) && q in multiset(References(pod, a)) && r.uid == q.uid
      ensures r == q
    {
      assert r in Selecting(pod, a) && q in Selecting(pod, a);
      SelectingMember(pod, a, r);
      SelectingMember(pod, a, q);
    }
    SortedUnique(References(pod, a), References(pod, b));
  }

  // ----- Services and pods see the same relation -----

  ghost predicate ListsNamespace(services: seq<(Key, Object)>, cl: Cluster, ns: string) {
    forall k, svc :: (k, svc) in services <==> k.ns == ns && (Service, k) in cl.objects && cl.objects[(Service, k)] == svc
  }

  /** A UID is among the subscribers of a service exactly when a pod that has an IP, on a node of that UID, refers to
      the service. `lists` is whatever service list each pod reconcile got for its namespace. */
  lemma ServicePodDuality(cl: Cluster, r: Registry, key: Key, u: Uid, lists: map<string, seq<(Key, Object)>>)
    requires (Service, key) in cl.objects
    requires forall k | k in cl.pods :: k.ns in lists && ListsNamespace(lists[k.ns], cl, k.ns)
    ensures var svc := cl.objects[(Service, key)];
            u in ServiceSubscribers(r, key, svc, cl) <==>
            exists k | k in cl.pods :: cl.pods[k].ip != "" && cl.pods[k].node != ""
                                       && u in Subscriber.At(r, cl.pods[k].node)
                                       && Ref(key, svc.uid) in References(cl.pods[k], lists[k.ns])
  {
    var svc := cl.objects[(Service, key)];
    forall k | k in cl.pods
      ensures Ref(key, svc.uid) in References(cl.pods[k], lists[k.ns]) <==> k.ns == key.ns && Selects(svc, cl.pods[k])
    {
      var pod, list := cl.pods[k], lists[k.ns];
      assert Ref(key, svc.uid) in References(pod, list) <==> Ref(key, svc.uid) in multiset(Selecting(pod, list));
      SelectingMember(pod, list, Ref(key, svc.uid));
      if k.ns == key.ns {
        assert (key, svc) in list;
      }
      if s :| s in list && Selects(s.1, pod) && Ref(key, svc.uid) == Ref(s.0, s.1.uid) {
        assert (s.0, s.1) in list;
      }
    }
    if u in ServiceSubscribers(r, key, svc, cl) {
      var n :| n in RelatedNodes(Service, key, svc, cl.pods) && n in r && u in r[n];
      var k :| k in cl.pods && Related(Service, key, svc, k, cl.pods[k]) && cl.pods[k].node == n;
    }
    if k :| k in cl.pods && cl.pods[k].ip != "" && cl.pods[k].node != "" && u in Subscriber.At(r, cl.pods[k].node)
            && Ref(key, svc.uid) in References(cl.pods[k], lists[k.ns]) {
      assert cl.pods[k].node in RelatedNodes(Service, key, svc, cl.pods);
    }
  }

  function ServiceSubscribers(r: Registry, key: Key, svc: Object, cl: Cluster): set<Uid> {
    SubscribersOf(r, RelatedNodes(Service, key, svc, cl.pods))
  }

  /** A pod refers to exactly the services that dispatch asks for because of it. */
  lemma ServiceReferredExact(cl: Cluster, podKey: Key, pod: PodObj, list: seq<(Key, Object)>, key: Key)
    requires ListsNamespace(list, cl, podKey.ns) && (Service, key) in cl.objects
    ensures Ref(key, cl.objects[(Service, key)].uid) in References(pod, list) <==>
            key in DispatchKeys(Service, cl, podKey, pod).value
  {
    var svc := cl.objects[(Service, key)];
    ReferencesMember(pod, list, Ref(key, svc.uid));
    MatchesExact(svc.selector, pod.labels);
    if key.ns == podKey.ns {
      assert (key, svc) in list;
    }
  }
}
