/** pkg/events: the resource that computes audiences and turns them into events, and the per-collector cache. */
module Events {
  import opened Types
  import Fields
  import Engine

  /** The events of a ToEvents result, without the holes. */
  function Present(slots: seq<Option<Event>>): seq<Event> {
    if slots == [] then []
    else (if slots[0].Some? then [slots[0].value] else []) + Present(slots[1..])
  }

  function InSlot(msg: Message, audience: set<Uid>): Option<Event> {
    if audience == {} then None else Some(Event(msg, audience))
  }

  class Resource {
    var kind: Kind
    var uid: ObjUid
    var meta: string
    var spec: string
    var status: string
    var refs: Option<Refs>
    var subs: set<Uid>
    var createdFor: set<Uid>
    var updatedFor: set<Uid>
    var deletedFor: set<Uid>
    var updated: bool

    ghost function Content(): Content
      reads this
    {
      Types.Content.Content(kind, uid, meta, spec, status, refs)
    }

    /** The events the audiences stand for. */
    ghost function Pending(): seq<Event>
      reads this
    {
      Engine.Batch(Content(), createdFor, updatedFor, deletedFor)
    }

    constructor (kind: Kind, uid: ObjUid)
      ensures Content() == Types.Content.Content(kind, uid, "", "", "", None)
      ensures subs == createdFor == updatedFor == deletedFor == {} && !updated
    {
      this.kind, this.uid := kind, uid;
      meta, spec, status, refs := "", "", "", None;
      subs, createdFor, updatedFor, deletedFor := {}, {}, {}, {};
      updated := false;
    }

    method AddReferencesForKind(kind: Kind, references: seq<Ref>)
      modifies this`refs
      ensures refs == Some((if old(refs).Some? then old(refs).value else map[])[kind := references])
    {
      if refs.None? {
        refs := Some(map[]);
      }
      refs := Some(refs.value[kind := references]);
    }

    method GenerateSubscribers(next: set<Uid>) returns (holders: set<Uid>)
      modifies this`createdFor, this`updatedFor, this`deletedFor
      ensures holders == next && Content() == old(Content())
      ensures createdFor == next - subs && deletedFor == subs - next
      ensures updatedFor == if updated then next * subs else old(updatedFor)
    {
      createdFor := Fields.Difference(next, subs);
      if updated {
        updatedFor := Fields.Intersect(next, subs);
      }
      deletedFor := Fields.Difference(subs, next);
      holders := next;
    }

    method GrpcRefs() returns (flat: Option<map<Kind, seq<ObjUid>>>)
      ensures flat == if refs.Some? && kind.Pod? then Some(Fields.Flatten(refs.value)) else None
    {
      flat := None;
      if refs.Some? && kind.Pod? {
        var m := Fields.ToFlatMap(refs.value);
        flat := Some(m);
      }
    }

    /** Three slots, for a Create, an Update and a Delete event; an empty audience leaves a hole. */
    method ToEvents() returns (evts: seq<Option<Event>>)
      modifies this`createdFor, this`updatedFor, this`deletedFor
      ensures |evts| == 3
      ensures evts[0] == InSlot(Engine.FullMessage(Create, old(Content())), old(createdFor))
      ensures evts[1] == InSlot(Engine.FullMessage(Update, old(Content())), old(updatedFor))
      ensures evts[2] == InSlot(Engine.DeleteMessage(kind, uid), old(deletedFor))
      ensures Present(evts) == old(Pending())
      ensures evts[0].Some? ==> Engine.Renders(evts[0].value.msg, Create, old(Content()))
      ensures evts[1].Some? ==> Engine.Renders(evts[1].value.msg, Update, old(Content()))
      ensures evts[2].Some? ==> evts[2].value.msg == Message(Delete, uid, kind, None, None, None, None)
      ensures createdFor == updatedFor == deletedFor == {}
    {
      Engine.FullRenders(Create, Content());
      Engine.FullRenders(Update, Content());
      ghost var content, audiences := Content(), (createdFor, updatedFor, deletedFor);
      var created, updated, deleted: Option<Event> := None, None, None;
      var metaText, specText, statusText := Engine.Text(meta), Engine.Text(spec), Engine.Text(status);
      if createdFor != {} {
        var flat := GrpcRefs();
        created := Some(Event(Message(Create, uid, kind, metaText, specText, statusText, flat), createdFor));
        createdFor := {};
      }
      if updatedFor != {} {
        var flat := GrpcRefs();
        updated := Some(Event(Message(Update, uid, kind, metaText, specText, statusText, flat), updatedFor));
        updatedFor := {};
      }
      if deletedFor != {} {
        deleted := Some(Event(Message(Delete, uid, kind, None, None, None, None), deletedFor));
        deletedFor := {};
      }
      evts := [created, updated, deleted];
      PresentOfThree(Engine.FullMessage(Create, content), audiences.0, Engine.FullMessage(Update, content), audiences.1,
                     Engine.DeleteMessage(kind, uid), audiences.2);
    }
  }

  lemma PresentOfThree(one: Message, a: set<Uid>, two: Message, b: set<Uid>, three: Message, c: set<Uid>)
    ensures Present([InSlot(one, a), InSlot(two, b), InSlot(three, c)]) ==
            Engine.Audience(one, a) + Engine.Audience(two, b) + Engine.Audience(three, c)
  {
    var x, y, z := InSlot(one, a), InSlot(two, b), InSlot(three, c);
    assert [x, y, z][1..] == [y, z] && [y, z][1..] == [z] && [z][1..] == [];
    assert Present([z]) == Engine.Audience(three, c) + [];
    assert Present([y, z]) == Engine.Audience(two, b) + Present([z]);
    assert Present([x, y, z]) == Engine.Audience(one, a) + Present([y, z]);
  }

  class CacheEntry {
    ghost const key: Key
    var hash: int
    var uid: ObjUid
    var refs: Option<Refs>
    var subs: set<Uid>

    constructor (hash: int, uid: ObjUid, ghost key: Key)
      ensures Value() == Entry(hash, uid, None, {}) && this.key == key
    {
      this.hash, this.uid, this.refs, this.subs, this.key := hash, uid, None, {}, key;
    }

    method Fill(subs: set<Uid>, refs: Option<Refs>)
      modifies this`subs, this`refs
      ensures Value() == old(Value()).(subs := subs, refs := refs)
    {
      this.subs := subs;
      this.refs := refs;
    }

    ghost function Value(): Entry
      reads this
    {
      Entry(hash, uid, refs, subs)
    }
  }

  /** Entries are shared by reference: a reconcile edits the entry it got in place. */
  class Cache {
    var items: map<Key, CacheEntry>
    ghost var repr: set<CacheEntry>

    /** An entry belongs to one key, so editing one leaves the others alone. */
    ghost predicate Valid()
      reads this
    {
      forall k | k in items :: items[k] in repr && items[k].key == k
    }

    ghost function Contents(): map<Key, Entry>
      requires Valid()
      reads this, repr
    {
      map k | k in items :: items[k].Value()
    }

    constructor ()
      ensures Valid() && Contents() == map[] && items == map[] && repr == {}
    {
      items, repr := map[], {};
    }

    /** Adds an item if the key is not there yet. */
    method Add(key: Key, value: CacheEntry)
      requires Valid() && value.key == key
      modifies this
      ensures Valid() && repr == old(repr) + {value}
      ensures items == if key in old(items) then old(items) else old(items)[key := value]
    {
      repr := repr + {value};
      if key !in items {
        items := items[key := value];
      }
    }

    method Update(key: Key, value: CacheEntry)
      requires Valid() && value.key == key
      modifies this
      ensures Valid() && repr == old(repr) + {value}
      ensures items == old(items)[key := value]
    {
      items, repr := items[key := value], repr + {value};
    }

    method Delete(key: Key)
      requires Valid()
      modifies this
      ensures Valid() && repr == old(repr)
      ensures items == old(items) - {key}
      ensures Contents() == old(Contents()) - {key}
    {
      items := items - {key};
    }

    method Get(key: Key) returns (value: Option<CacheEntry>)
      ensures value == if key in items then Some(items[key]) else None
    {
      value := if key in items then Some(items[key]) else None;
    }

    method Has(key: Key) returns (present: bool)
      requires Valid()
      ensures present <==> key in Contents()
    {
      present := key in items;
    }
  }
}
