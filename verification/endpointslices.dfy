/** collectors/endpointslices.go: which pods and services an EndpointSlice triggers when it changes. */
module EndpointSlices {
  import opened Types

  /** The slice as far as it matters: its generated name and, per endpoint, the pod it targets, if any. */
  datatype Slice = Slice(generateName: string, targets: seq<Option<string>>)

  function PodNames(targets: seq<Option<string>>): set<string> {
    set i | 0 <= i < |targets| && targets[i].Some? :: targets[i].value
  }

  lemma PodNamesNext(targets: seq<Option<string>>, i: nat)
    requires i < |targets|
    ensures PodNames(targets[..i + 1]) == PodNames(targets[..i]) + if targets[i].Some? then {targets[i].value} else {}
  {
    var more, some := targets[..i + 1], targets[..i];
    assert forall j | 0 <= j < i :: more[j] == some[j];
    assert more[i] == targets[i];
    forall n | n in PodNames(some)
      ensures n in PodNames(more)
    {
      var j :| 0 <= j < |some| && some[j].Some? && some[j].value == n;
      assert more[j] == some[j];
    }
  }

  /** Without its trailing hyphens. */
  function TrimRight(s: string): string {
    if s != "" && s[|s| - 1] == '-' then TrimRight(s[..|s| - 1]) else s
  }

  /** What is cut off is all hyphens, and what is left does not end in one. */
  lemma {:induction false} TrimRightExact(s: string)
    ensures TrimRight(s) <= s && (forall i | |TrimRight(s)| <= i < |s| :: s[i] == '-')
    ensures TrimRight(s) != "" ==> TrimRight(s)[|TrimRight(s)| - 1] != '-'
  {
    if s != "" && s[|s| - 1] == '-' {
      TrimRightExact(s[..|s| - 1]);
      assert forall i | 0 <= i < |s| - 1 :: s[..|s| - 1][i] == s[i];
    }
  }

  lemma KeysExact(ns: string, names: set<string>, key: Key)
    ensures key in Keys(ns, names) <==> key.ns == ns && key.name in names
  {
  }

  lemma PodNamesExact(targets: seq<Option<string>>, name: string)
    ensures name in PodNames(targets) <==> exists i | 0 <= i < |targets| :: targets[i] == Some(name)
  {
    if i :| 0 <= i < |targets| && targets[i] == Some(name) {
      assert targets[i].value == name;
    }
  }

  function StoredAt(pods: map<Key, set<string>>, key: Key): set<string> {
    if key in pods then pods[key] else {}
  }

  function Keys(ns: string, names: set<string>): set<Key> {
    set n | n in names :: Key(ns, n)
  }

  class Dispatcher {
    var pods: map<Key, set<string>>
    var servicesName: map<string, string>
    var podTriggers: multiset<Key>       // the pods triggered so far
    var serviceTriggers: seq<Key>        // the services triggered so far, in order

    constructor ()
      ensures pods == map[] && servicesName == map[] && podTriggers == multiset{} && serviceTriggers == []
    {
      pods, servicesName, podTriggers, serviceTriggers := map[], map[], multiset{}, [];
    }

    method TriggerPods(ns: string, names: set<string>)
      modifies this`podTriggers
      ensures podTriggers == old(podTriggers) + multiset(Keys(ns, names))
    {
      var todo := names;
      while todo != {}
        invariant todo <= names && podTriggers == old(podTriggers) + multiset(Keys(ns, names - todo))
        decreases todo
      {
        var p :| p in todo;
        podTriggers := podTriggers + multiset{Key(ns, p)};
        assert Keys(ns, names - (todo - {p})) == Keys(ns, names - todo) + {Key(ns, p)};
        todo := todo - {p};
      }
    }

    /** Replaces the stored pods of a slice and tells which ones came and went. */
    method GetPods(key: Key, targets: seq<Option<string>>) returns (added: set<string>, deleted: set<string>)
      modifies this`pods
      ensures pods == old(pods)[key := PodNames(targets)]
      ensures added == PodNames(targets) - StoredAt(old(pods), key)
      ensures deleted == StoredAt(old(pods), key) - PodNames(targets)
    {
      added, deleted := {}, {};
      if key !in pods {
        var existing: set<string> := {};
        for i := 0 to |targets|
          invariant pods == old(pods) && existing == PodNames(targets[..i])
        {
          PodNamesNext(targets, i);
          if targets[i].Some? {
            existing := existing + {targets[i].value};
          }
        }
        assert targets[..|targets|] == targets;
        assert existing == PodNames(targets);
        pods := pods[key := existing];
        added := existing;
        return;
      }
      ghost var stored := pods[key];
      var existing := pods[key];
      var current: set<string> := {};
      for i := 0 to |targets|
        invariant pods == old(pods) && current == PodNames(targets[..i])
        invariant existing == stored + current && added == current - stored
      {
        PodNamesNext(targets, i);
        if targets[i].Some? {
          var name := targets[i].value;
          current := current + {name};
          if name !in existing {
            added := added + {name};
            existing := existing + {name};
          }
        }
      }
      assert targets[..|targets|] == targets;
      var todo := existing;
      while todo != {}
        invariant pods == old(pods) && todo <= existing && deleted == (existing - todo) - current
        decreases todo
      {
        var pod :| pod in todo;
        if pod !in current {
          deleted := deleted + {pod};
        }
        todo := todo - {pod};
      }
      pods := pods[key := current];
    }

    method Reconcile(req: Key, found: Lookup<Slice>) returns (ok: bool)
      modifies this
      ensures ok <==> !found.Failed?
      ensures found.Found? ==> pods == old(pods)[req := PodNames(found.value.targets)]
      ensures found.Missing? ==> pods == old(pods) - {req}
      ensures !ok ==> pods == old(pods) && podTriggers == old(podTriggers) && serviceTriggers == old(serviceTriggers)
                      && servicesName == old(servicesName)
      ensures ok ==>
        var seen := Observed(found);
        && pods == Store(old(pods), req, seen)
        && podTriggers == old(podTriggers) + multiset(Keys(req.ns, Touched(StoredAt(old(pods), req), seen)))
        && servicesName == (if found.Found? then old(servicesName)[req.name := TrimRight(found.value.generateName)]
                            else old(servicesName))
        && serviceTriggers == old(serviceTriggers)
                              + if req.name in servicesName && (found.Found? || req in old(pods))
                                then [Key(req.ns, servicesName[req.name])] else []
    {
      if found.Failed? {
        return false;
      }
      if found.Missing? {
        Forget(req);
      } else {
        Observe(req, found.value);
      }
      return true;
    }

    method Forget(req: Key)
      modifies this`pods, this`podTriggers, this`serviceTriggers
      ensures pods == old(pods) - {req}
      ensures podTriggers == old(podTriggers) + multiset(Keys(req.ns, StoredAt(old(pods), req)))
      ensures serviceTriggers == old(serviceTriggers)
                                 + if req in old(pods) && req.name in servicesName
                                   then [Key(req.ns, servicesName[req.name])] else []
    {
      if req in pods {
        TriggerPods(req.ns, pods[req]);
        if req.name in servicesName {
          serviceTriggers := serviceTriggers + [Key(req.ns, servicesName[req.name])];
        }
      }
      pods := pods - {req};
    }

    method Observe(req: Key, slice: Slice)
      modifies this
      ensures pods == old(pods)[req := PodNames(slice.targets)]
      ensures servicesName == old(servicesName)[req.name := TrimRight(slice.generateName)]
      ensures podTriggers == old(podTriggers)
                             + multiset(Keys(req.ns, Touched(StoredAt(old(pods), req), Some(PodNames(slice.targets)))))
      ensures serviceTriggers == old(serviceTriggers) + [Key(req.ns, servicesName[req.name])]
    {
      servicesName := servicesName[req.name := TrimRight(slice.generateName)];
      var added, deleted := GetPods(req, slice.targets);
      TriggerPods(req.ns, added);
      TriggerPods(req.ns, deleted);
      KeysJoined(req.ns, added, deleted);
      serviceTriggers := serviceTriggers + [Key(req.ns, servicesName[req.name])];
    }
  }

  lemma KeysJoined(ns: string, a: set<string>, b: set<string>)
    requires a !! b
    ensures multiset(Keys(ns, a + b)) == multiset(Keys(ns, a)) + multiset(Keys(ns, b))
  {
    assert Keys(ns, a + b) == Keys(ns, a) + Keys(ns, b);
    assert Keys(ns, a) !! Keys(ns, b);
  }

  // ----- Histories of one slice -----

  /** What a reconcile saw: the pod names of the slice, or that it is gone. */
  function Observed(found: Lookup<Slice>): Option<set<string>> {
    if found.Found? then Some(PodNames(found.value.targets)) else None
  }

  function Store(pods: map<Key, set<string>>, key: Key, seen: Option<set<string>>): map<Key, set<string>> {
    if seen.Some? then pods[key := seen.value] else pods - {key}
  }

  /** The pods a reconcile triggers: those that came and those that went. */
  function Touched(stored: set<string>, seen: Option<set<string>>): set<string> {
    var now := if seen.Some? then seen.value else {};
    (now - stored) + (stored - now)
  }

  /** The store after a whole history of one slice. */
  function StoredAfter(key: Key, history: seq<Option<set<string>>>): map<Key, set<string>> {
    if history == [] then map[]
    else Store(StoredAfter(key, history[..|history| - 1]), key, history[|history| - 1])
  }

  function NamesAt(history: seq<Option<set<string>>>, n: nat): set<string>
    requires n <= |history|
  {
    if n == 0 || history[n - 1].None? then {} else history[n - 1].value
  }

  /** The pods triggered by the n-th reconcile of a history. */
  function TouchedAt(key: Key, history: seq<Option<set<string>>>, n: nat): set<string>
    requires n < |history|
  {
    Touched(StoredAt(StoredAfter(key, history[..n]), key), history[n])
  }

  /** The store is always the pods of the last slice seen, and a reconcile triggers exactly the symmetric difference
      with the slice seen before; when the slice is deleted that is everything stored. */
  lemma SliceDiff(key: Key, history: seq<Option<set<string>>>, n: nat)
    requires n < |history|
    ensures StoredAt(StoredAfter(key, history[..n]), key) == NamesAt(history, n)
    ensures TouchedAt(key, history, n) ==
            (NamesAt(history, n + 1) - NamesAt(history, n)) + (NamesAt(history, n) - NamesAt(history, n + 1))
    ensures history[n].None? ==> TouchedAt(key, history, n) == NamesAt(history, n)
  {
    if n > 0 {
      assert history[..n][|history[..n]| - 1] == history[n - 1];
    }
  }

  /** No change is missed: a pod that joined or left a slice between two moments was triggered in between. */
  lemma {:induction false} EveryChangeTriggered(key: Key, history: seq<Option<set<string>>>, i: nat, j: nat, pod: string)
    requires i <= j <= |history|
    requires pod in NamesAt(history, i) <==> pod !in NamesAt(history, j)
    ensures exists n | i <= n < j :: pod in TouchedAt(key, history, n)
    decreases j - i
  {
    assert i < j;
    SliceDiff(key, history, j - 1);
    if pod !in TouchedAt(key, history, j - 1) {
      EveryChangeTriggered(key, history, i, j - 1, pod);
      var n :| i <= n < j - 1 && pod in TouchedAt(key, history, n);
    }
  }
}
