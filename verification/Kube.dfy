/** What the modules of this project share: objects, watch events, and the history of one watched
    collection as the API server keeps it. */
module Kube {

  datatype Option<+T> = None | Some(value: T)

  /** A `resourceVersion`: a token the client copies and compares for equality, and never orders. */
  type Version = string

  /** The pair a table of objects is keyed by. */
  datatype Key = Key(namespace: Option<string>, name: string)

  datatype Object = Object(key: Key, uid: string, version: Option<Version>, body: string)

  datatype ChangeClass = Added | Modified | Deleted

  /** One entry of a collection's history. */
  datatype Change = Change(what: ChangeClass, item: Object)

  /** Why a watch stopped delivering. */
  datatype Failure = Expired | Interrupted | Refused

  /** One decoded frame of a watch response. */
  datatype Event =
    | Mutation(change: Change)
    | Bookmark(version: Version)
    | InitialEventsEnd(version: Version)
    | Error(failure: Failure)

  type Table = map<Key, Object>

  /** What one change does to a table of objects. */
  function Apply(table: Table, change: Change): Table {
    match change.what
    case Deleted => table - {change.item.key}
    case _ => table[change.item.key := change.item]
  }

  /** The table a history leads to from `table`. */
  function Fold(table: Table, log: seq<Change>): Table
    decreases |log|
  {
    if log == [] then table else Apply(Fold(table, log[..|log| - 1]), log[|log| - 1])
  }

  /** The table a list of objects collects into; the last object under a key wins. */
  function Collect(objects: seq<Object>): Table
    decreases |objects|
  {
    if objects == [] then map[]
    else Collect(objects[..|objects| - 1])[objects[|objects| - 1].key := objects[|objects| - 1]]
  }

  /** Every entry sits under its own key. */
  ghost predicate Keyed(table: Table) {
    forall k :: k in table ==> table[k].key == k
  }

  /** `order` lists the objects of `table`, each of them once. */
  ghost predicate Enumerates(order: seq<Object>, table: Table) {
    && (forall o :: o in order ==> o.key in table && table[o.key] == o)
    && (forall k :: k in table ==> table[k] in order)
    && (forall i, j :: 0 <= i < j < |order| ==> order[i].key != order[j].key)
  }

  lemma {:induction false} CollectKeyed(objects: seq<Object>)
    ensures Keyed(Collect(objects))
  {
    if objects != [] { CollectKeyed(objects[..|objects| - 1]); }
  }

  lemma {:induction false} CollectMembers(objects: seq<Object>)
    ensures forall k :: k in Collect(objects) ==> Collect(objects)[k] in objects
    ensures forall o :: o in objects ==> o.key in Collect(objects)
  {
    if objects != [] {
      var init := objects[..|objects| - 1];
      CollectMembers(init);
      assert objects == init + [objects[|objects| - 1]];
    }
  }

  /** Collecting an enumeration of a table gives the table back. */
  lemma {:induction false} CollectDistinct(objects: seq<Object>)
    requires forall i, j :: 0 <= i < j < |objects| ==> objects[i].key != objects[j].key
    ensures forall o :: o in objects ==> o.key in Collect(objects) && Collect(objects)[o.key] == o
  {
    if objects != [] {
      var init, last := objects[..|objects| - 1], objects[|objects| - 1];
      CollectDistinct(init);
      forall o | o in objects ensures o.key in Collect(objects) && Collect(objects)[o.key] == o {
        var i :| 0 <= i < |objects| && objects[i] == o;
        if i < |init| {
          assert init[i] == o && objects[i].key != objects[|init|].key;
        }
      }
    }
  }

  lemma CollectEnumeration(order: seq<Object>, table: Table)
    requires Enumerates(order, table) && Keyed(table)
    ensures Collect(order) == table
  {
    CollectDistinct(order);
    CollectMembers(order);
    forall k | k in table ensures k in Collect(order) && Collect(order)[k] == table[k] {
      assert table[k] in order && table[k].key == k;
    }
    forall k | k in Collect(order) ensures k in table {
      CollectKeyed(order);
      assert Collect(order)[k] in order;
    }
  }

  lemma {:induction false} FoldConcat(table: Table, a: seq<Change>, b: seq<Change>)
    ensures Fold(table, a + b) == Fold(Fold(table, a), b)
    decreases |b|
  {
    if b == [] {
      assert a + b == a;
    } else {
      var init, last := b[..|b| - 1], b[|b| - 1];
      assert (a + b)[..|a + b| - 1] == a + init;
      FoldConcat(table, a, init);
    }
  }

  lemma {:induction false} FoldKeyed(table: Table, log: seq<Change>)
    requires Keyed(table)
    ensures Keyed(Fold(table, log))
    decreases |log|
  {
    if log != [] { FoldKeyed(table, log[..|log| - 1]); }
  }

  /** The API server's side of one collection: its history so far, and the position in that history
      each token it handed out stands for. Several tokens may stand for one position. */
  datatype Cluster = Cluster(log: seq<Change>, names: map<Version, nat>) {

    /** The server's contract: a token names a position the history has reached, and every change is
        stamped with the position just after it. */
    ghost predicate Valid() {
      && (forall v :: v in names ==> names[v] <= |log|)
      && (forall i :: 0 <= i < |log| ==>
            log[i].item.version.Some? && log[i].item.version.value in names
            && names[log[i].item.version.value] == i + 1)
    }

    /** The collection after the first `at` changes. */
    function Snapshot(at: nat): Table
      requires at <= |log|
    {
      Fold(map[], log[..at])
    }

    /** `later` is this cluster with more history and more tokens. */
    ghost predicate Extends(later: Cluster) {
      && |log| <= |later.log| && later.log[..|log|] == log
      && forall v :: v in names ==> v in later.names && later.names[v] == names[v]
    }

    /** What the server does between two steps of its client: any number of stamped changes, and of further
        tokens for positions of its history. */
    ghost predicate Grows(later: Cluster) {
      Extends(later) && later.Valid()
    }
  }

  lemma SnapshotStable(c: Cluster, later: Cluster, at: nat)
    requires c.Extends(later) && at <= |c.log|
    ensures later.Snapshot(at) == c.Snapshot(at)
  {
    assert later.log[..at] == later.log[..|c.log|][..at];
  }

  lemma SnapshotNext(c: Cluster, at: nat)
    requires at < |c.log|
    ensures c.Snapshot(at + 1) == Apply(c.Snapshot(at), c.log[at])
  {
    assert c.log[..at + 1][..at] == c.log[..at];
  }
}
