/** The vocabulary shared by every part of the collector: names, references, events. */
module Types {

  datatype Option<+T> = None | Some(value: T)

  /** The result of reading the Kubernetes API. */
  datatype Lookup<+T> = Found(value: T) | Missing | Failed

  type Uid = string      // a subscriber, named once by its Watch call
  type ObjUid = string   // a Kubernetes object
  type Node = string

  datatype Kind = Pod | Namespace | Service | ReplicaSet | Deployment | DaemonSet | ReplicationController | Other(name: string)

  /** The kinds for which a collector runs. */
  predicate Collected(kind: Kind) { !kind.Other? }

  /** The kinds with a source the pod collector can trigger. */
  predicate HasOwnerSource(kind: Kind) {
    kind in {Deployment, ReplicaSet, Namespace, DaemonSet, ReplicationController}
  }

  datatype Key = Key(ns: string, name: string)

  datatype Ref = Ref(key: Key, uid: ObjUid)
  type Refs = map<Kind, seq<Ref>>

  datatype Reason = Create | Update | Delete

  /** What a collector renders of an object: exactly the hashed fields of events.Resource. */
  datatype Content = Content(kind: Kind, uid: ObjUid, meta: string, spec: string, status: string, refs: Option<Refs>)

  /** What goes over the wire. */
  datatype Message = Message(reason: Reason, uid: ObjUid, kind: Kind, meta: Option<string>, spec: Option<string>,
                             status: Option<string>, refs: Option<map<Kind, seq<ObjUid>>>)

  datatype Event = Event(msg: Message, subs: set<Uid>)

  /** The value of a cache entry. */
  datatype Entry = Entry(hash: int, uid: ObjUid, refs: Option<Refs>, subs: set<Uid>)

  function ValueAt<V>(items: map<Key, V>, key: Key): Option<V> {
    if key in items then Some(items[key]) else None
  }

  function Put<V>(items: map<Key, V>, key: Key, value: Option<V>): map<Key, V> {
    if value.Some? then items[key := value.value] else items - {key}
  }

  /** How many sends were tried, per kind and reason. */
  type Counts = map<(Kind, Reason), nat>

  function CountOf(counts: Counts, kind: Kind, reason: Reason): nat {
    if (kind, reason) in counts then counts[(kind, reason)] else 0
  }

  type Registry = map<Node, set<Uid>>
  type Hasher = Content -> int
}
