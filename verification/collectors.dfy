/** The three Reconcile methods, proved against Attempts and Engine. */
module Collectors {
  import opened Types
  import opened Relations
  import opened Events
  import opened Attempts
  import Engine
  import ServiceRefs
  import Subscriber

  /** What a pod reconcile does to the outside, in order: the goroutines it starts for owners, and its pushes. */
  datatype Act = Launch(owners: set<(Kind, Key)>) | Push(event: Event)

  /** The owners are triggered once for each Create and Delete event, before it is pushed. */
  function Acts(events: seq<Event>, owners: set<(Kind, Key)>): seq<Act> {
    if events == [] then []
    else
      var n := |events| - 1;
      Acts(events[..n], owners) + EventActs(events[n], owners)
  }

  function EventActs(e: Event, owners: set<(Kind, Key)>): seq<Act> {
    (if Triggers(e) then [Launch(owners)] else []) + [Push(e)]
  }

  /** The events pushed, in order. */
  function PushedIn(acts: seq<Act>): seq<Event> {
    if acts == [] then []
    else
      var n := |acts| - 1;
      PushedIn(acts[..n]) + if acts[n].Push? then [acts[n].event] else []
  }

  /** Whatever happens at a place: a Create or Delete is pushed directly after its owners were triggered, an Update is
      not, and owners are triggered for nothing else. */
  ghost predicate InItsPlace(acts: seq<Act>, i: nat, owners: set<(Kind, Key)>)
    requires i < |acts|
  {
    match acts[i]
    case Launch(launched) => launched == owners && i + 1 < |acts| && acts[i + 1].Push? && acts[i + 1].event.msg.reason != Update
    case Push(e) => if e.msg.reason == Update then i == 0 || acts[i - 1].Push? else i > 0 && acts[i - 1] == Launch(owners)
  }

  lemma {:induction false} ActsExact(events: seq<Event>, owners: set<(Kind, Key)>)
    ensures PushedIn(Acts(events, owners)) == events
    ensures forall i | 0 <= i < |Acts(events, owners)| :: InItsPlace(Acts(events, owners), i, owners)
    ensures Acts(events, owners) != [] ==> Acts(events, owners)[|Acts(events, owners)| - 1].Push?
  {
    if events != [] {
      var n := |events| - 1;
      ActsExact(events[..n], owners);
      var some := Acts(events[..n], owners);
      MoreActs(some, events[n], owners);
      assert Acts(events, owners) == some + EventActs(events[n], owners);
      assert events == events[..n] + [events[n]];
    }
  }

  lemma MoreActs(acts: seq<Act>, e: Event, owners: set<(Kind, Key)>)
    requires forall i | 0 <= i < |acts| :: InItsPlace(acts, i, owners)
    requires acts != [] ==> acts[|acts| - 1].Push?
    ensures var all := acts + EventActs(e, owners);
            && (forall i | 0 <= i < |all| :: InItsPlace(all, i, owners))
            && PushedIn(all) == PushedIn(acts) + [e] && all[|all| - 1] == Push(e)
  {
    if e.msg.reason == Update {
      UpdateInPlace(acts, e, owners);
      UpdatePushed(acts, e);
    } else {
      OtherInPlace(acts, e, owners);
      OtherPushed(acts, e, owners);
    }
  }

  lemma UpdatePushed(acts: seq<Act>, e: Event)
    ensures PushedIn(acts + [Push(e)]) == PushedIn(acts) + [e]
  {
    PushedOneMore(acts, Push(e));
  }

  lemma OtherPushed(acts: seq<Act>, e: Event, owners: set<(Kind, Key)>)
    ensures PushedIn(acts + [Launch(owners), Push(e)]) == PushedIn(acts) + [e]
  {
    PushedOneMore(acts, Launch(owners));
    PushedOneMore(acts + [Launch(owners)], Push(e));
    assert acts + [Launch(owners)] + [Push(e)] == acts + [Launch(owners), Push(e)];
    assert PushedIn(acts) + [] == PushedIn(acts);
  }

  lemma UpdateInPlace(acts: seq<Act>, e: Event, owners: set<(Kind, Key)>)
    requires (forall i | 0 <= i < |acts| :: InItsPlace(acts, i, owners)) && (acts != [] ==> acts[|acts| - 1].Push?)
    requires e.msg.reason == Update
    ensures EventActs(e, owners) == [Push(e)]
    ensures forall i | 0 <= i < |acts| + 1 :: InItsPlace(acts + [Push(e)], i, owners)
  {
    forall i | 0 <= i < |acts| + 1
      ensures InItsPlace(acts + [Push(e)], i, owners)
    {
      if i < |acts| {
        assert InItsPlace(acts, i, owners);
      }
    }
  }

  lemma OtherInPlace(acts: seq<Act>, e: Event, owners: set<(Kind, Key)>)
    requires (forall i | 0 <= i < |acts| :: InItsPlace(acts, i, owners)) && (acts != [] ==> acts[|acts| - 1].Push?)
    requires e.msg.reason != Update
    ensures EventActs(e, owners) == [Launch(owners), Push(e)]
    ensures forall i | 0 <= i < |acts| + 2 :: InItsPlace(acts + [Launch(owners), Push(e)], i, owners)
  {
    forall i | 0 <= i < |acts| + 2
      ensures InItsPlace(acts + [Launch(owners), Push(e)], i, owners)
    {
      if i < |acts| {
        assert InItsPlace(acts, i, owners);
      }
    }
  }

  lemma PushedOneMore(acts: seq<Act>, act: Act)
    ensures PushedIn(acts + [act]) == PushedIn(acts) + if act.Push? then [act.event] else []
  {
    assert (acts + [act])[..|acts|] == acts;
  }

  /** Finds the entry of a key, or adds one; notes whether the hash changed and who holds the object. */
  method CachedEntry(cache: Cache, req: Key, res: Resource, hash: int) returns (entry: CacheEntry)
    requires cache.Valid() && res.subs == {} && !res.updated
    modifies cache, cache.repr, res`updated, res`subs
    ensures cache.Valid() && req in cache.items && cache.items[req] == entry
    ensures fresh(cache.repr - old(cache.repr)) && old(cache.repr) <= cache.repr
    ensures cache.Contents() == old(cache.Contents())[req := entry.Value()]
    ensures res.Content() == old(res.Content())
    ensures var prev := ValueAt(old(cache.Contents()), req);
            && entry.hash == hash && entry.uid == (if prev.Some? then prev.value.uid else res.uid)
            && res.subs == Engine.Holders(prev) && res.updated == (prev.Some? && prev.value.hash != hash)
  {
    ghost var before := cache.Contents();
    var cached := cache.Get(req);
    if cached.Some? {
      entry := cached.value;
      if entry.hash != hash {
        res.updated := true;
        entry.hash := hash;
      }
      res.subs := entry.subs;
    } else {
      entry := new CacheEntry(hash, res.uid, req);
      cache.Add(req, entry);
    }
    Edited(before, cache.Contents(), req, entry.Value());
  }

  /** Computes the audiences and notes the new holders and references in the entry. */
  method FillEntry(cache: Cache, req: Key, entry: CacheEntry, res: Resource, subs: set<Uid>)
    requires cache.Valid() && req in cache.items && cache.items[req] == entry && res.updatedFor == {}
    modifies entry`subs, entry`refs, res`createdFor, res`updatedFor, res`deletedFor
    ensures cache.Valid() && res.Content() == old(res.Content())
    ensures cache.Contents() == old(cache.Contents())[req := old(entry.Value()).(subs := subs, refs := res.refs)]
    ensures res.Pending() == Engine.Batch(res.Content(), subs - res.subs, if res.updated then subs * res.subs else {},
                                          res.subs - subs)
  {
    ghost var before := cache.Contents();
    var holders := res.GenerateSubscribers(subs);
    entry.Fill(holders, res.refs);
    Edited(before, cache.Contents(), req, entry.Value());
  }

  /** The object is there and has subscribers: the entry is edited in place and the audiences are computed. */
  method UpsertEntry(cache: Cache, h: Hasher, req: Key, res: Resource, subs: set<Uid>)
    requires cache.Valid() && res.subs == res.updatedFor == {} && !res.updated
    modifies cache, cache.repr, res
    ensures cache.Valid()
    ensures res.Content() == old(res.Content())
    ensures var out := Engine.Upsert(h, ValueAt(old(cache.Contents()), req), old(res.Content()), subs);
            && cache.Contents() == old(cache.Contents())[req := out.entry.value]
            && res.Pending() == out.events
  {
    ghost var before, content := cache.Contents(), res.Content();
    var hash := h(Content(res.kind, res.uid, res.meta, res.spec, res.status, res.refs));
    var entry := CachedEntry(cache, req, res, hash);
    ghost var found := entry.Value();
    FillEntry(cache, req, entry, res, subs);
    assert before[req := found][req := found.(subs := subs, refs := res.refs)] == before[req := found.(subs := subs, refs := res.refs)];
    Upserted(h, ValueAt(before, req), content, subs, found.(subs := subs, refs := content.refs), res.updated);
  }

  lemma Edited(before: map<Key, Entry>, after: map<Key, Entry>, req: Key, entry: Entry)
    requires after.Keys == before.Keys + {req} && after[req] == entry
    requires forall k | k in before && k != req :: after[k] == before[k]
    ensures after == before[req := entry]
  {
  }

  lemma Upserted(h: Hasher, prev: Option<Entry>, c: Content, subs: set<Uid>, entry: Entry, updated: bool)
    requires entry == Entry(h(c), if prev.Some? then prev.value.uid else c.uid, c.refs, subs)
    requires updated == Engine.Changed(h, prev, c)
    ensures var out := Engine.Upsert(h, prev, c, subs);
            && out.entry == Some(entry)
            && out.events == Engine.Batch(c, subs - Engine.Holders(prev), if updated then subs * Engine.Holders(prev) else {},
                                          Engine.Holders(prev) - subs)
  {
  }

  /** The object left or lost its subscribers: every holder is to get a Delete event. None if it was never sent. */
  method RemoveEntry(cache: Cache, kind: Kind, req: Key) returns (res: Option<Resource>)
    requires cache.Valid()
    modifies cache
    ensures cache.Valid()
    ensures cache.Contents() == old(cache.Contents()) - {req}
    ensures res.Some? ==> fresh(res.value)
    ensures var out := Engine.Remove(kind, ValueAt(old(cache.Contents()), req));
            out.events == (if res.Some? then res.value.Pending() else []) && (res.Some? ==> res.value.refs == out.refs)
  {
    var cached := cache.Get(req);
    if cached.None? {
      NotThere(cache.Contents(), req);
      return None;
    }
    ghost var entry := cached.value.Value();
    var r := Deletion(kind, cached.value);
    RemovalBatch(r.Content(), entry.subs);
    cache.Delete(req);
    return Some(r);
  }

  /** A resource that tells every holder of an entry to delete it. */
  method Deletion(kind: Kind, entry: CacheEntry) returns (r: Resource)
    ensures fresh(r) && r.kind == kind && r.uid == entry.uid && r.refs == entry.refs
    ensures r.createdFor == r.updatedFor == {} && r.deletedFor == entry.subs
  {
    r := new Resource(kind, entry.uid);
    r.subs := entry.subs;
    r.refs := entry.refs;
    var none := r.GenerateSubscribers({});
  }

  lemma NotThere(m: map<Key, Entry>, key: Key)
    requires key !in m
    ensures m - {key} == m
  {
  }

  lemma RemovalBatch(c: Content, subs: set<Uid>)
    ensures Engine.Batch(c, {}, {}, subs) == Engine.Audience(Engine.DeleteMessage(c.kind, c.uid), subs)
  {
  }

  class PodCollector {
    const cache: Cache
    const subscribers: Subscriber.Subscribers
    var acts: seq<Act>                    // everything sent or started so far

    ghost predicate Valid()
      reads this, cache, subscribers
    {
      cache.Valid() && subscribers.Valid()
    }

    constructor ()
      ensures Valid() && fresh(cache) && fresh(subscribers)
      ensures cache.Contents() == map[] && subscribers.items == map[] && acts == []
    {
      cache := new Cache();
      subscribers := new Subscriber.Subscribers();
      acts := [];
    }

    /** Adds the managing owner and, for a ReplicaSet, the owner above it. */
    method OwnerRefsHandler(res: Resource, key: Key, pod: PodObj, replicaSet: Lookup<seq<OwnerRef>>) returns (ok: bool)
      requires res.refs.Some?
      modifies res`refs
      ensures ok <==> !(NeedsReplicaSet(pod) && replicaSet.Failed?)
      ensures ok ==>
        var owned := WithOwner(old(res.refs.value), key.ns, ManagingOwner(pod.owners));
        res.refs == Some(if NeedsReplicaSet(pod) && replicaSet.Found?
                         then WithOwner(owned, key.ns, ManagingOwner(replicaSet.value)) else owned)
    {
      var owner := ManagingOwner(pod.owners);
      if owner.Some? {
        res.AddReferencesForKind(owner.value.kind, [Ref(Key(key.ns, owner.value.name), owner.value.uid)]);
        if owner.value.kind == ReplicaSet {
          if replicaSet.Failed? {
            return false;
          }
          owner := ManagingOwner(if replicaSet.Found? then replicaSet.value else []);
          if owner.Some? {
            res.AddReferencesForKind(owner.value.kind, [Ref(Key(key.ns, owner.value.name), owner.value.uid)]);
          }
        }
      }
      return true;
    }

    method ServiceRefsHandler(res: Resource, pod: PodObj, services: Lookup<seq<(Key, Object)>>) returns (ok: bool)
      requires res.refs.Some?
      modifies res`refs
      ensures ok <==> services.Found?
      ensures ok ==> res.refs == Some(old(res.refs.value)[Service := ServiceRefs.References(pod, services.value)])
    {
      if !services.Found? {
        return false;
      }
      var items := services.value;
      var svcRefs: seq<Ref> := [];
      for i := 0 to |items|
        invariant svcRefs == ServiceRefs.Selecting(pod, items[..i])
      {
        if Selects(items[i].1, pod) {
          svcRefs := svcRefs + [Ref(items[i].0, items[i].1.uid)];
        }
        assert items[..i + 1][..i] == items[..i];
      }
      assert items[..|items|] == items;
      svcRefs := ServiceRefs.SortByUid(svcRefs);
      res.AddReferencesForKind(Service, svcRefs);
      return true;
    }

    /** Starts a goroutine for each reference to an owner with a source. */
    method TriggerOwners(refs: Option<Refs>)
      modifies this`acts
      ensures acts == old(acts) + [Launch(OwnerTriggers(refs))]
    {
      var launched: set<(Kind, Key)> := {};
      var kinds := if refs.Some? then refs.value.Keys else {};
      while kinds != {}
        invariant refs.Some? ==> kinds <= refs.value.Keys
        invariant refs.None? ==> kinds == {}
        invariant launched == set kind, r | refs.Some? && kind in refs.value && kind !in kinds && HasOwnerSource(kind)
                                            && r in refs.value[kind] :: (kind, r.key)
        decreases kinds
      {
        var kind :| kind in kinds;
        if HasOwnerSource(kind) {
          ghost var before := launched;
          for i := 0 to |refs.value[kind]|
            invariant launched == before + (set j | 0 <= j < i :: (kind, refs.value[kind][j].key))
          {
            launched := launched + {(kind, refs.value[kind][i].key)};
          }
        }
        kinds := kinds - {kind};
      }
      assert launched == OwnerTriggers(refs);
      acts := acts + [Launch(launched)];
    }

    /** Triggers the owners of a Create or Delete event, and pushes it. */
    method PushOne(event: Event, refs: Option<Refs>)
      modifies this`acts
      ensures acts == old(acts) + (if event.msg.reason == Update then [Push(event)] else [Launch(OwnerTriggers(refs)), Push(event)])
    {
      if event.msg.reason.Create? || event.msg.reason.Delete? {
        TriggerOwners(refs);
      }
      acts := acts + [Push(event)];
    }

    method PushAll(res: Resource)
      requires Valid()
      modifies this`acts, res`createdFor, res`updatedFor, res`deletedFor
      ensures Valid() && cache.Contents() == old(cache.Contents())
      ensures acts == old(acts) + Acts(old(res.Pending()), OwnerTriggers(res.refs))
    {
      PushEvents(res);
    }

    method PushEvents(res: Resource)
      modifies this`acts, res`createdFor, res`updatedFor, res`deletedFor
      ensures acts == old(acts) + Acts(old(res.Pending()), OwnerTriggers(res.refs))
    {
      var evts := res.ToEvents();
      PushSlots(evts, res.refs);
    }

    method PushSlots(evts: seq<Option<Event>>, refs: Option<Refs>)
      modifies this`acts
      ensures acts == old(acts) + Acts(Present(evts), OwnerTriggers(refs))
    {
      ghost var start, owners := acts, OwnerTriggers(refs);
      for i := 0 to |evts|
        invariant acts == start + Acts(Present(evts[..i]), owners)
      {
        PresentNext(evts, i);
        if evts[i].Some? {
          ActsNext(start, Present(evts[..i]), evts[i].value, owners);
          PushOne(evts[i].value, refs);
        } else {
          assert Present(evts[..i + 1]) == Present(evts[..i]);
        }
      }
      assert evts[..|evts|] == evts;
    }

    method Finish(h: Hasher, req: Key, res: Resource, node: Node, subs: set<Uid>)
      requires Valid() && res.subs == res.updatedFor == {} && !res.updated
      modifies this, cache, cache.repr, res
      ensures Valid()
      ensures Done(h, req, Engine.Send(old(res.Content()), node, subs), old(cache.Contents()), cache.Contents(),
                   old(acts), acts)
    {
      ghost var before, content := cache.Contents(), res.Content();
      CacheResource(h, req, res, subs);
      PushAll(res);
      DoneSend(h, req, content, node, subs, before, cache.Contents(), old(acts), acts);
    }

    method CacheResource(h: Hasher, req: Key, res: Resource, subs: set<Uid>)
      requires Valid() && res.subs == res.updatedFor == {} && !res.updated
      modifies cache, cache.repr, res
      ensures Valid() && acts == old(acts) && res.refs == old(res.refs)
      ensures var out := Engine.Upsert(h, ValueAt(old(cache.Contents()), req), old(res.Content()), subs);
              cache.Contents() == old(cache.Contents())[req := out.entry.value] && res.Pending() == out.events
    {
      UpsertEntry(cache, h, req, res, subs);
      assert res.Content().refs == old(res.Content()).refs;
    }

    method FinishAbsent(req: Key)
      requires Valid()
      modifies this, cache
      ensures Valid()
      ensures cache.Contents() == old(cache.Contents()) - {req}
      ensures var out := Engine.Remove(Pod, ValueAt(old(cache.Contents()), req));
              acts == old(acts) + Acts(out.events, OwnerTriggers(out.refs))
    {
      var gone := RemoveEntry(cache, Pod, req);
      assert acts == old(acts);
      if gone.Some? {
        PushAll(gone.value);
      }
    }

    /** A failed read changes nothing and leaves the key to be tried again; an entry goes only if the pod is gone or
        nobody is registered for its node. */
    method Reconcile(h: Hasher, req: Key, found: PodReads) returns (ok: bool)
      requires Valid()
      modifies this, cache, cache.repr
      ensures Valid()
      ensures !ok <==> found.pod.Failed?
                       || (found.pod.Found? && found.pod.value.node in subscribers.items
                           && !(found.namespace.Found? && !(HasReplicaSet(found.pod.value) && found.replicaSet.Failed?)
                                && found.services.Found? && found.rendered && found.hashed))
      ensures !ok ==> cache.Contents() == old(cache.Contents()) && acts == old(acts)
      ensures ok ==> (req in cache.Contents() <==> found.pod.Found? && found.pod.value.node in subscribers.items)
      ensures ok ==> PodDecision(req, subscribers.items, found).Some?
                     && Done(h, req, PodDecision(req, subscribers.items, found).value, old(cache.Contents()), cache.Contents(),
                             old(acts), acts)
    {
      PodFails(req, subscribers.items, found);
      match found.pod {
        case Failed =>
          ok := false;
        case Missing =>
          FinishAbsent(req);
          ok := true;
        case Found(pod) =>
          ok := ReconcileFound(h, req, pod, found);
      }
      if ok {
        DoneKeeps(h, req, PodDecision(req, subscribers.items, found).value, old(cache.Contents()), cache.Contents(), old(acts), acts);
      }
    }

    method ReconcileFound(h: Hasher, req: Key, pod: PodObj, found: PodReads) returns (ok: bool)
      requires Valid() && found.pod == Found(pod)
      modifies this, cache, cache.repr
      ensures Valid()
      ensures ok <==> PodDecision(req, subscribers.items, found).Some?
      ensures !ok ==> cache.Contents() == old(cache.Contents()) && acts == old(acts)
      ensures ok ==> Done(h, req, PodDecision(req, subscribers.items, found).value, old(cache.Contents()), cache.Contents(),
                          old(acts), acts)
    {
      var subs := subscribers.GetSubscribersPerNode(pod.node);
      if subs.None? {
        FinishSilently(h, req, pod.node);
        return true;
      }
      var res := Assemble(req, pod, found);
      if res.None? {
        return false;
      }
      Finish(h, req, res.value, pod.node, subs.value);
      return true;
    }

    method FinishSilently(h: Hasher, req: Key, node: Node)
      requires Valid()
      modifies cache
      ensures Valid()
      ensures Done(h, req, Engine.NoSubscribers(node), old(cache.Contents()), cache.Contents(),
                   acts, acts)
    {
      cache.Delete(req);
    }

    /** Runs the handlers; None when one of them fails. */
    method Assemble(req: Key, pod: PodObj, found: PodReads) returns (res: Option<Resource>)
      ensures res.Some? ==> fresh(res.value)
      ensures Assembled(req, pod, found) == if res.None? then None else Some(res.value.Content())
      ensures res.Some? ==> res.value.subs == res.value.updatedFor == {} && !res.value.updated
    {
      var r := new Resource(Pod, pod.uid);
      if !found.namespace.Found? {
        return None;
      }
      r.AddReferencesForKind(Namespace, [Ref(Key("", req.ns), found.namespace.value)]);
      var done := OwnerRefsHandler(r, req, pod, found.replicaSet);
      if !done {
        return None;
      }
      done := ServiceRefsHandler(r, pod, found.services);
      if !done || !found.rendered {
        return None;
      }
      r.meta, r.status := pod.meta, pod.status;
      if !found.hashed {
        return None;
      }
      return Some(r);
    }
  }

  /** The effect of a completed pod reconcile on the cache, the queue and the owner sources. */
  ghost predicate Done(h: Hasher, req: Key, d: Engine.Decision, cache: map<Key, Entry>, cache': map<Key, Entry>,
                       acts: seq<Act>, acts': seq<Act>) {
    var out := Engine.Decide(h, Pod, ValueAt(cache, req), d);
    && cache' == Put(cache, req, out.entry)
    && acts' == acts + Acts(out.events, OwnerTriggers(out.refs))
  }

  lemma DoneSend(h: Hasher, req: Key, c: Content, node: Node, subs: set<Uid>, cache: map<Key, Entry>, cache': map<Key, Entry>,
                 acts: seq<Act>, acts': seq<Act>)
    requires var out := Engine.Upsert(h, ValueAt(cache, req), c, subs);
             cache' == cache[req := out.entry.value] && acts' == acts + Acts(out.events, OwnerTriggers(c.refs))
    ensures Done(h, req, Engine.Send(c, node, subs), cache, cache', acts, acts')
  {
  }

  /** Afterwards the entry is there exactly if there was something to send. */
  lemma DoneKeeps(h: Hasher, req: Key, d: Engine.Decision, cache: map<Key, Entry>, cache': map<Key, Entry>,
                  acts: seq<Act>, acts': seq<Act>)
    requires Done(h, req, d, cache, cache', acts, acts')
    ensures req in cache' <==> d.Send?
    ensures forall k | k != req :: ValueAt(cache', k) == ValueAt(cache, k)
  {
  }

  /** Who is told what by the events of one reconcile, given the entry before and after. */
  ghost predicate TellsExactly(events: seq<Event>, prev: Option<Entry>, next: Option<Entry>, silent: bool) {
    forall u ::
      && (Engine.Receives(events, u, Create) <==> (next.Some? && u in next.value.subs) && !(prev.Some? && u in prev.value.subs))
      && (Engine.Receives(events, u, Delete) <==>
            (prev.Some? && u in prev.value.subs) && !(next.Some? && u in next.value.subs) && !silent)
      && (Engine.Receives(events, u, Update) <==>
            prev.Some? && next.Some? && u in prev.value.subs && u in next.value.subs && prev.value.hash != next.value.hash)
  }

  /** What a completed pod reconcile adds to the acts: triggers and pushes in their places, and everybody is told what
      the change of the entry calls for, except by the silent drop. */
  lemma DoneExact(h: Hasher, req: Key, d: Engine.Decision, cache: map<Key, Entry>, cache': map<Key, Entry>,
                  acts: seq<Act>, acts': seq<Act>)
    requires Done(h, req, d, cache, cache', acts, acts')
    ensures acts <= acts'
    ensures TellsExactly(PushedIn(acts'[|acts|..]), ValueAt(cache, req), ValueAt(cache', req), d.NoSubscribers?)
    ensures var owners := OwnerTriggers(if d.Send? then d.content.refs else if req in cache then cache[req].refs else None);
            forall i | 0 <= i < |acts'| - |acts| :: InItsPlace(acts'[|acts|..], i, owners)
  {
    var out := Engine.Decide(h, Pod, ValueAt(cache, req), d);
    var owners := OwnerTriggers(if d.Send? then d.content.refs else if req in cache then cache[req].refs else None);
    Engine.EntryExact(h, Pod, ValueAt(cache, req), d);
    assert acts'[|acts|..] == Acts(out.events, OwnerTriggers(out.refs));
    ActsExact(out.events, OwnerTriggers(out.refs));
    DecisionTells(h, Pod, ValueAt(cache, req), d);
    assert ValueAt(cache', req) == out.entry;
    if out.events == [] {
      assert Acts(out.events, OwnerTriggers(out.refs)) == [];
    } else {
      assert OwnerTriggers(out.refs) == owners;
    }
  }

  lemma DecisionTells(h: Hasher, kind: Kind, prev: Option<Entry>, d: Engine.Decision)
    ensures var out := Engine.Decide(h, kind, prev, d); TellsExactly(out.events, prev, out.entry, d.NoSubscribers?)
  {
    Engine.DeltaConservation(h, kind, prev, d);
  }

  /** The same for the other collectors. */
  lemma ServedExact(h: Hasher, kind: Kind, req: Key, d: Engine.Decision, cache: map<Key, Entry>, cache': map<Key, Entry>,
                    pushed: seq<Event>, pushed': seq<Event>)
    requires Served(h, kind, req, d, cache, cache', pushed, pushed')
    ensures pushed <= pushed'
    ensures TellsExactly(pushed'[|pushed|..], ValueAt(cache, req), ValueAt(cache', req), d.NoSubscribers?)
  {
    var out := Engine.Decide(h, kind, ValueAt(cache, req), d);
    assert pushed'[|pushed|..] == out.events;
    DecisionTells(h, kind, ValueAt(cache, req), d);
    assert ValueAt(cache', req) == out.entry;
  }

  lemma ServedKeeps(h: Hasher, kind: Kind, req: Key, d: Engine.Decision, cache: map<Key, Entry>, cache': map<Key, Entry>,
                    pushed: seq<Event>, pushed': seq<Event>)
    requires Served(h, kind, req, d, cache, cache', pushed, pushed')
    ensures req in cache' <==> d.Send?
    ensures forall k | k != req :: ValueAt(cache', k) == ValueAt(cache, k)
  {
  }

  lemma ActsNext(start: seq<Act>, events: seq<Event>, e: Event, owners: set<(Kind, Key)>)
    ensures start + Acts(events + [e], owners) ==
            start + Acts(events, owners) + (if e.msg.reason == Update then [Push(e)] else [Launch(owners), Push(e)])
  {
    assert (events + [e])[..|events|] == events;
    assert start + (Acts(events, owners) + EventActs(e, owners)) == start + Acts(events, owners) + EventActs(e, owners);
  }

  lemma {:induction false} PresentNext(slots: seq<Option<Event>>, i: nat)
    requires i < |slots|
    ensures Present(slots[..i + 1]) == Present(slots[..i]) + (if slots[i].Some? then [slots[i].value] else [])
  {
    if i == 0 {
      assert slots[..1][1..] == [];
    } else {
      PresentNext(slots[1..], i - 1);
      assert slots[1..][..i] == slots[..i + 1][1..] && slots[1..][..i - 1] == slots[..i][1..];
    }
  }

  /** Collects the subscribers of the nodes where the listed pods run. A service asks for an IP as well. */
  method CollectSubscribers(kind: Kind, subscribers: Subscriber.Subscribers, pods: seq<PodObj>) returns (subs: set<Uid>)
    requires subscribers.Valid()
    ensures subs == SubscribersOf(subscribers.items, NodesOf(kind, pods))
  {
    subs := {};
    for i := 0 to |pods|
      invariant subs == SubscribersOf(subscribers.items, NodesOf(kind, pods[..i]))
    {
      CollectedNext(subscribers.items, kind, pods, i);
      if pods[i].node != "" && (!kind.Service? || pods[i].ip != "") {
        subs := AddSubscribersOf(subscribers, pods[i].node, subs);
      }
    }
    assert pods[..|pods|] == pods;
  }

  method AddSubscribersOf(subscribers: Subscriber.Subscribers, node: Node, known: set<Uid>) returns (subs: set<Uid>)
    requires subscribers.Valid()
    ensures subs == known + Subscriber.At(subscribers.items, node)
  {
    subs := known;
    var has := subscribers.HasNode(node);
    if has {
      var s := subscribers.GetSubscribersPerNode(node);
      var todo := s.value;
      while todo != {}
        invariant todo <= s.value && subs == known + (s.value - todo)
        decreases todo
      {
        var s1 :| s1 in todo;
        subs := subs + {s1};
        todo := todo - {s1};
      }
    }
  }

  lemma CollectedNext(r: Registry, kind: Kind, pods: seq<PodObj>, i: nat)
    requires i < |pods|
    ensures SubscribersOf(r, NodesOf(kind, pods[..i + 1])) ==
            SubscribersOf(r, NodesOf(kind, pods[..i]))
            + if pods[i].node != "" && (kind.Service? ==> pods[i].ip != "") then Subscriber.At(r, pods[i].node) else {}
  {
    NodesOfNext(kind, pods, i);
    var nodes := NodesOf(kind, pods[..i]);
    if pods[i].node != "" && (kind.Service? ==> pods[i].ip != "") {
      SubscribersOfNext(r, nodes, pods[i].node);
    } else {
      assert nodes + {} == nodes;
      assert SubscribersOf(r, nodes) + {} == SubscribersOf(r, nodes);
    }
  }

  lemma NodesOfNext(kind: Kind, pods: seq<PodObj>, i: nat)
    requires i < |pods|
    ensures NodesOf(kind, pods[..i + 1]) ==
            NodesOf(kind, pods[..i])
            + if pods[i].node != "" && (kind.Service? ==> pods[i].ip != "") then {pods[i].node} else {}
  {
    var all, some := pods[..i + 1], pods[..i];
    forall n | n in NodesOf(kind, some)
      ensures n in NodesOf(kind, all)
    {
      var j :| 0 <= j < |some| && some[j].node != "" && (kind.Service? ==> some[j].ip != "") && some[j].node == n;
      assert all[j] == some[j];
    }
    assert all[i] == pods[i];
  }

  lemma SubscribersOfNext(r: Registry, nodes: set<Node>, node: Node)
    ensures SubscribersOf(r, nodes + {node}) == SubscribersOf(r, nodes) + Subscriber.At(r, node)
  {
  }

  /** The same for the other collectors, which trigger nobody. */
  ghost predicate Served(h: Hasher, kind: Kind, req: Key, d: Engine.Decision, cache: map<Key, Entry>,
                         cache': map<Key, Entry>, pushed: seq<Event>, pushed': seq<Event>) {
    cache' == After(h, kind, cache, req, d) && pushed' == pushed + Emitted(h, kind, cache, req, d)
  }

  /** The collectors of namespaces, workloads and services. */
  class ObjectCollector {
    const kind: Kind
    const cache: Cache
    const subscribers: Subscriber.Subscribers
    var pushed: seq<Event>

    ghost predicate Valid()
      reads this, cache, subscribers
    {
      cache.Valid() && subscribers.Valid()
    }

    constructor (kind: Kind)
      ensures Valid() && fresh(cache) && fresh(subscribers) && this.kind == kind
      ensures cache.Contents() == map[] && subscribers.items == map[] && pushed == []
    {
      this.kind := kind;
      cache := new Cache();
      subscribers := new Subscriber.Subscribers();
      pushed := [];
    }

    method PushAll(res: Resource)
      requires Valid()
      modifies this`pushed, res`createdFor, res`updatedFor, res`deletedFor
      ensures Valid() && cache.Contents() == old(cache.Contents())
      ensures pushed == old(pushed) + old(res.Pending())
    {
      PushEvents(res);
    }

    method PushEvents(res: Resource)
      modifies this`pushed, res`createdFor, res`updatedFor, res`deletedFor
      ensures pushed == old(pushed) + old(res.Pending())
    {
      var evts := res.ToEvents();
      PushSlots(evts);
    }

    method PushSlots(evts: seq<Option<Event>>)
      modifies this`pushed
      ensures pushed == old(pushed) + Present(evts)
    {
      for i := 0 to |evts|
        invariant pushed == old(pushed) + Present(evts[..i])
      {
        PresentNext(evts, i);
        if evts[i].Some? {
          pushed := pushed + [evts[i].value];
        }
      }
      assert evts[..|evts|] == evts;
    }

    /** None when the pods cannot be listed. A service without selector has no subscribers and lists nothing. */
    method GetSubscribers(obj: Object, pods: Lookup<seq<PodObj>>) returns (subs: Option<set<Uid>>)
      requires Valid()
      ensures subs == if kind.Service? && obj.selector == map[] then Some({})
                      else if !pods.Found? then None
                      else Some(SubscribersOf(subscribers.items, NodesOf(kind, pods.value)))
    {
      if kind.Service? && obj.selector == map[] {
        return Some({});
      }
      if !pods.Found? {
        return None;
      }
      var collected := CollectSubscribers(kind, subscribers, pods.value);
      return Some(collected);
    }

    method Finish(h: Hasher, req: Key, res: Resource, subs: set<Uid>)
      requires Valid() && res.subs == res.updatedFor == {} && !res.updated
      modifies this, cache, cache.repr, res
      ensures Valid()
      ensures Served(h, kind, req, Engine.Send(old(res.Content()), "", subs), old(cache.Contents()), cache.Contents(),
                     old(pushed), pushed)
    {
      CacheResource(h, req, res, subs);
      PushAll(res);
    }

    method CacheResource(h: Hasher, req: Key, res: Resource, subs: set<Uid>)
      requires Valid() && res.subs == res.updatedFor == {} && !res.updated
      modifies cache, cache.repr, res
      ensures Valid() && pushed == old(pushed)
      ensures var out := Engine.Upsert(h, ValueAt(old(cache.Contents()), req), old(res.Content()), subs);
              cache.Contents() == old(cache.Contents())[req := out.entry.value] && res.Pending() == out.events
    {
      UpsertEntry(cache, h, req, res, subs);
    }

    method FinishAbsent(req: Key)
      requires Valid()
      modifies this, cache
      ensures Valid()
      ensures cache.Contents() == old(cache.Contents()) - {req}
      ensures pushed == old(pushed) + Engine.Remove(kind, ValueAt(old(cache.Contents()), req)).events
    {
      var gone := RemoveEntry(cache, kind, req);
      assert pushed == old(pushed);
      if gone.Some? {
        PushAll(gone.value);
      }
    }

    /** The object is gone: its holders, if it was ever sent, are to delete it. */
    method FinishMissing(req: Key)
      requires Valid()
      modifies this, cache
      ensures Valid()
      ensures cache.Contents() == old(cache.Contents()) - {req}
      ensures pushed == old(pushed) + Engine.Remove(kind, ValueAt(old(cache.Contents()), req)).events
    {
      var known := cache.Has(req);
      if known {
        FinishAbsent(req);
      } else {
        NotThere(cache.Contents(), req);
      }
    }

    /** A failed read changes nothing and leaves the key to be tried again; an entry goes only if the object is gone or
        nobody is registered for a node where a pod counts for it. */
    method Reconcile(h: Hasher, req: Key, found: ObjectReads) returns (ok: bool)
      requires Valid()
      modifies this, cache, cache.repr
      ensures Valid()
      ensures !ok <==> found.target.Failed?
                       || (found.target.Found? && !(kind == Service && found.target.value.selector == map[])
                           && (!found.pods.Found? || (SomebodyAt(kind, subscribers.items, found.pods.value)
                                                      && !(found.rendered && found.hashed))))
      ensures !ok ==> cache.Contents() == old(cache.Contents()) && pushed == old(pushed)
      ensures ok ==> (req in cache.Contents() <==>
                        found.target.Found? && !(kind == Service && found.target.value.selector == map[])
                        && SomebodyAt(kind, subscribers.items, found.pods.value))
      ensures ok ==> ObjectDecision(kind, subscribers.items, found).Some?
                     && Served(h, kind, req, ObjectDecision(kind, subscribers.items, found).value,
                               old(cache.Contents()), cache.Contents(), old(pushed), pushed)
    {
      ObjectFails(kind, subscribers.items, found);
      match found.target {
        case Failed =>
          ok := false;
        case Missing =>
          FinishMissing(req);
          ok := true;
        case Found(obj) =>
          ok := ReconcileFound(h, req, obj, found);
      }
      if ok {
        ghost var d := ObjectDecision(kind, subscribers.items, found).value;
        ObjectDecides(kind, subscribers.items, found, d);
        ServedKeeps(h, kind, req, d, old(cache.Contents()), cache.Contents(), old(pushed), pushed);
      }
    }

    method ReconcileFound(h: Hasher, req: Key, obj: Object, found: ObjectReads) returns (ok: bool)
      requires Valid() && found.target == Found(obj)
      modifies this, cache, cache.repr
      ensures Valid()
      ensures ok <==> ObjectDecision(kind, subscribers.items, found).Some?
      ensures !ok ==> cache.Contents() == old(cache.Contents()) && pushed == old(pushed)
      ensures ok ==> Served(h, kind, req, ObjectDecision(kind, subscribers.items, found).value,
                            old(cache.Contents()), cache.Contents(), old(pushed), pushed)
    {
      var subs := GetSubscribers(obj, found.pods);
      if subs.None? {
        return false;
      }
      if subs.value == {} {
        FinishAbsent(req);
        return true;
      }
      var res := Assemble(obj, found.rendered && found.hashed);
      if res.None? {
        return false;
      }
      Finish(h, req, res.value, subs.value);
      return true;
    }

    /** Renders and hashes the object; None when that fails. */
    method Assemble(obj: Object, done: bool) returns (res: Option<Resource>)
      ensures res.Some? <==> done
      ensures res.Some? ==> fresh(res.value) && res.value.Content() == ObjectContent(kind, obj)
      ensures res.Some? ==> res.value.subs == res.value.updatedFor == {} && !res.value.updated
    {
      if !done {
        return None;
      }
      var r := new Resource(kind, obj.uid);
      r.meta := obj.meta;
      return Some(r);
    }
  }
}
