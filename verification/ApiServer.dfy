/**
 * An API server as its clients see it: named objects per kind and namespace, and one counter
 * that numbers every change of any kind. This is the environment of the client, not its code.
 */
module ApiServer {
  import opened Basics

  datatype Kind = Pod | Deployment | Job | Other(name: string)

  datatype Key = Key(kind: Kind, ns: string, name: string)

  datatype Change =
    | Added(version: nat, key: Key, body: string)
    | Modified(version: nat, key: Key, body: string)
    | Deleted(version: nat, key: Key)

  datatype Op = Post(key: Key, body: string) | Put(key: Key, body: string) | Delete(key: Key)

  function Applied(objects: map<Key, string>, c: Change): map<Key, string> {
    if c.Deleted? then objects - {c.key} else objects[c.key := c.body]
  }

  function Replay(history: seq<Change>): map<Key, string> {
    if history == [] then map[] else Applied(Replay(history[..|history| - 1]), history[|history| - 1])
  }

  datatype Store = Store(version: nat, history: seq<Change>) {

    function Objects(): map<Key, string> {
      Replay(history)
    }

    /** Versions grow along the history and stay below the counter. */
    predicate Valid() {
      && (forall i, j | 0 <= i < j < |history| :: history[i].version < history[j].version)
      && (forall i | 0 <= i < |history| :: history[i].version <= version)
    }

    /** POST needs a new name; PUT and DELETE need an existing one. */
    predicate Accepts(op: Op) {
      if op.Post? then op.key !in Objects() else op.key in Objects()
    }

    function ChangeOf(op: Op): Change {
      match op
      case Post(key, body) => Added(version + 1, key, body)
      case Put(key, body) => Modified(version + 1, key, body)
      case Delete(key) => Deleted(version + 1, key)
    }

    function Perform(op: Op): Store {
      if Accepts(op) then Store(version + 1, history + [ChangeOf(op)]) else this
    }

    function PerformAll(ops: seq<Op>): Store
      decreases |ops|
    {
      if ops == [] then this else Perform(ops[0]).PerformAll(ops[1..])
    }
  }

  lemma {:induction false} ReplayAppend(history: seq<Change>, c: Change)
    ensures Replay(history + [c]) == Applied(Replay(history), c)
  {
    assert (history + [c])[..|history|] == history;
  }

  lemma {:induction false} PerformObjects(s: Store, op: Op)
    ensures s.Perform(op).Objects() ==
            if !s.Accepts(op) then s.Objects()
            else if op.Delete? then s.Objects() - {op.key} else s.Objects()[op.key := op.body]
  {
    if s.Accepts(op) {
      ReplayAppend(s.history, s.ChangeOf(op));
    }
  }

  /** Whatever clients do, the history only grows, by changes with versions above the old counter. */
  lemma {:induction false} HistoryGrows(s: Store, ops: seq<Op>)
    requires s.Valid()
    ensures var t := s.PerformAll(ops);
            && t.Valid() && s.history <= t.history
            && s.version <= t.version
            && forall i | |s.history| <= i < |t.history| :: t.history[i].version > s.version
    decreases |ops|
  {
    if ops != [] {
      HistoryGrows(s.Perform(ops[0]), ops[1..]);
    }
  }

  lemma {:induction false} PerformAllConcat(s: Store, a: seq<Op>, b: seq<Op>)
    ensures s.PerformAll(a + b) == s.PerformAll(a).PerformAll(b)
    decreases |a|
  {
    if a == [] {
      assert a + b == b;
    } else {
      PerformAllConcat(s.Perform(a[0]), a[1..], b);
      assert (a + b)[1..] == a[1..] + b;
    }
  }

  /** The server as an object that all its clients share. */
  class Server {
    var store: Store

    constructor (store: Store)
      ensures this.store == store
    {
      this.store := store;
    }

    /** The requests of other clients, in the order in which they take effect. */
    method OtherClients(ops: seq<Op>)
      modifies this
      ensures store == old(store).PerformAll(ops)
    {
      store := store.PerformAll(ops);
    }

    /** A write of this client; the server may turn down an acceptable one for reasons of its own. */
    method Write(op: Op, refused: bool) returns (ok: bool)
      modifies this
      ensures ok == (old(store).Accepts(op) && !refused)
      ensures store == if ok then old(store).Perform(op) else old(store)
    {
      ok := store.Accepts(op) && !refused;
      if ok {
        store := store.Perform(op);
      }
    }
  }
}
