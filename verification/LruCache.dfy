/**
  The least-recently-used cache of components/lru_cache/lru_cache.h: a list of nodes, newest
  first, and a table from keys to nodes of the list. `Cached` is what a run of calls leaves in
  the cache; `Recent` is the same run without a capacity. The source demands a capacity of one at
  least, since a full cache has a last node.
*/
module LruCache {
  import opened Wrappers

  datatype Entry<K, V> = Entry(key: K, value: V)

  datatype Op<K, V> = Add(key: K, value: V) | Get(key: K)

  ghost predicate Has<K, V>(es: seq<Entry<K, V>>, k: K) { exists i :: 0 <= i < |es| && es[i].key == k }

  ghost function IndexOf<K, V>(es: seq<Entry<K, V>>, k: K): (i: nat)
    requires Has(es, k)
    ensures i < |es| && es[i].key == k
  {
    var i :| 0 <= i < |es| && es[i].key == k;
    i
  }

  /** The entries with the one for `k`, if there is one, taken out. */
  ghost function Without<K, V>(es: seq<Entry<K, V>>, k: K): seq<Entry<K, V>> {
    if Has(es, k) then es[..IndexOf(es, k)] + es[IndexOf(es, k) + 1..] else es
  }

  ghost predicate DistinctKeys<K, V>(es: seq<Entry<K, V>>) {
    forall i, j :: 0 <= i < j < |es| ==> es[i].key != es[j].key
  }

  ghost function Front<T>(s: seq<T>, n: nat): seq<T> { if |s| <= n then s else s[..n] }

  /** `Add`: the entry goes to the front; a new key pushes the last one out of a full cache. */
  ghost function Added<K, V>(es: seq<Entry<K, V>>, k: K, v: V, capacity: nat): seq<Entry<K, V>>
    requires capacity > 0
  {
    [Entry(k, v)] + if Has(es, k) then Without(es, k) else Front(es, capacity - 1)
  }

  /** `Get`: an entry that is found goes to the front. */
  ghost function Gotten<K, V>(es: seq<Entry<K, V>>, k: K): seq<Entry<K, V>> {
    if Has(es, k) then [es[IndexOf(es, k)]] + Without(es, k) else es
  }

  ghost function Cached<K, V>(ops: seq<Op<K, V>>, capacity: nat): seq<Entry<K, V>>
    requires capacity > 0
  {
    if ops == [] then [] else
      var es, op := Cached(ops[..|ops| - 1], capacity), ops[|ops| - 1];
      match op
      case Add(k, v) => Added(es, k, v, capacity)
      case Get(k) => Gotten(es, k)
  }

  /** The call touches key `k`: it adds it, or it finds it among the `capacity` newest. */
  ghost predicate Touches<K, V>(es: seq<Entry<K, V>>, op: Op<K, V>, k: K, capacity: nat) {
    op.key == k && (op.Add? || Has(Front(es, capacity), k))
  }

  /** Every key ever added, newest touch first, with the value it was last added with. */
  ghost function Recent<K, V>(ops: seq<Op<K, V>>, capacity: nat): seq<Entry<K, V>> {
    if ops == [] then [] else
      var es, op := Recent(ops[..|ops| - 1], capacity), ops[|ops| - 1];
      match op
      case Add(k, v) => [Entry(k, v)] + Without(es, k)
      case Get(k) => if Has(Front(es, capacity), k) then Gotten(es, k) else es
  }

  /** When `k` was last touched, counting calls from one; zero if it never was. */
  ghost function LastTouch<K, V>(ops: seq<Op<K, V>>, k: K, capacity: nat): nat {
    if ops == [] then 0
    else if Touches(Recent(ops[..|ops| - 1], capacity), ops[|ops| - 1], k, capacity) then |ops|
    else LastTouch(ops[..|ops| - 1], k, capacity)
  }

  ghost function LastValue<K, V>(ops: seq<Op<K, V>>, k: K): Option<V> {
    if ops == [] then None
    else if ops[|ops| - 1].Add? && ops[|ops| - 1].key == k then Some(ops[|ops| - 1].value)
    else LastValue(ops[..|ops| - 1], k)
  }

  /** Later entries were touched earlier. */
  ghost predicate Sorted<K, V>(es: seq<Entry<K, V>>, touch: K -> nat) {
    forall i, j :: 0 <= i < j < |es| ==> touch(es[i].key) > touch(es[j].key)
  }

  /** The entries are exactly the keys that have a value, with that value. */
  ghost predicate Holds<K(!new), V>(es: seq<Entry<K, V>>, value: K -> Option<V>) {
    && (forall i :: 0 <= i < |es| ==> value(es[i].key) == Some(es[i].value))
    && (forall k :: value(k).Some? ==> Has(es, k))
  }

  /** The entries are ordered by last touch, newest first, and hold the last values of all added keys. */
  ghost predicate ByLastTouch<K(!new), V>(es: seq<Entry<K, V>>, ops: seq<Op<K, V>>, capacity: nat) {
    Sorted(es, k => LastTouch(ops, k, capacity)) && Holds(es, k => LastValue(ops, k))
  }

  lemma WithoutIs<K, V>(es: seq<Entry<K, V>>, i: nat)
    requires DistinctKeys(es) && i < |es|
    ensures Has(es, es[i].key) && IndexOf(es, es[i].key) == i
    ensures Without(es, es[i].key) == es[..i] + es[i + 1..] && !Has(Without(es, es[i].key), es[i].key)
  {
  }

  lemma FrontHas<K, V>(es: seq<Entry<K, V>>, k: K, n: nat)
    requires DistinctKeys(es)
    ensures Has(Front(es, n), k) <==> Has(es, k) && IndexOf(es, k) < n
  {
    if Has(es, k) {
      var i := IndexOf(es, k);
      if i < n { assert Front(es, n)[i].key == k; }
    }
  }

  /** Moving an entry of the front to the very front commutes with cutting. */
  lemma FrontMoves<K, V>(es: seq<Entry<K, V>>, e: Entry<K, V>, n: nat)
    requires DistinctKeys(es) && n > 0
    ensures var c := Front(es, n);
      Front([e] + Without(es, e.key), n) == [e] + if Has(c, e.key) then Without(c, e.key) else Front(c, n - 1)
  {
    var c := Front(es, n);
    FrontHas(es, e.key, n);
    FrontOfCons(e, Without(es, e.key), n);
    if Has(es, e.key) {
      var i := IndexOf(es, e.key);
      WithoutIs(es, i);
      FrontWithoutIndex(es, i, n);
      if i < n {
        WithoutIs(c, i);
      }
    }
  }

  lemma FrontOfCons<T>(e: T, s: seq<T>, n: nat)
    requires n > 0
    ensures Front([e] + s, n) == [e] + Front(s, n - 1)
  {
  }

  lemma FrontWithoutIndex<T>(s: seq<T>, i: nat, n: nat)
    requires i < |s| && n > 0
    ensures var c := Front(s, n);
      && Front(s[..i] + s[i + 1..], n - 1) == (if i < n then c[..i] + c[i + 1..] else Front(c, n - 1))
      && (i < n ==> c[i] == s[i])
  {
  }

  lemma WithoutKeepsDistinct<K, V>(es: seq<Entry<K, V>>, e: Entry<K, V>)
    requires DistinctKeys(es)
    ensures DistinctKeys([e] + Without(es, e.key))
  {
    if Has(es, e.key) { WithoutIs(es, IndexOf(es, e.key)); }
  }

  /** After every run of calls the cache holds exactly the `capacity` most recently touched keys. */
  lemma {:induction false} CachedIsRecent<K, V>(ops: seq<Op<K, V>>, capacity: nat)
    requires capacity > 0
    ensures DistinctKeys(Recent(ops, capacity))
    ensures Cached(ops, capacity) == Front(Recent(ops, capacity), capacity)
  {
    if ops != [] {
      var before, op := ops[..|ops| - 1], ops[|ops| - 1];
      CachedIsRecent(before, capacity);
      var es := Recent(before, capacity);
      match op
      case Add(k, v) =>
        FrontMoves(es, Entry(k, v), capacity);
        WithoutKeepsDistinct(es, Entry(k, v));
      case Get(k) =>
        FrontHas(es, k, capacity);
        if Has(Front(es, capacity), k) {
          var i := IndexOf(es, k);
          assert Front(es, capacity)[i] == es[i];
          WithoutIs(Front(es, capacity), i);
          FrontMoves(es, es[i], capacity);
          WithoutKeepsDistinct(es, es[i]);
        }
    }
  }

  lemma {:induction false} LastTouchBound<K, V>(ops: seq<Op<K, V>>, k: K, capacity: nat)
    ensures LastTouch(ops, k, capacity) <= |ops|
  {
    if ops != [] { LastTouchBound(ops[..|ops| - 1], k, capacity); }
  }

  /** What is left when the entry of `k` is taken out: the others, in the same order. */
  lemma WithoutAt<K, V>(es: seq<Entry<K, V>>, k: K, i: nat)
    requires DistinctKeys(es) && i < |Without(es, k)|
    ensures var j := if Has(es, k) && i >= IndexOf(es, k) then i + 1 else i;
      j < |es| && Without(es, k)[i] == es[j] && es[j].key != k
  {
    if Has(es, k) { WithoutIs(es, IndexOf(es, k)); }
  }

  lemma WithoutHas<K, V>(es: seq<Entry<K, V>>, k: K, other: K)
    requires DistinctKeys(es) && Has(es, other) && other != k
    ensures Has(Without(es, k), other)
  {
    var j := IndexOf(es, other);
    if Has(es, k) {
      WithoutIs(es, IndexOf(es, k));
      assert Without(es, k)[if j < IndexOf(es, k) then j else j - 1] == es[j];
    }
  }

  /** A touched entry that moves to the front keeps the order by last touch. */
  lemma FrontKeepsSorted<K(!new), V>(es: seq<Entry<K, V>>, e: Entry<K, V>, was: K -> nat, now: K -> nat)
    requires DistinctKeys(es) && Sorted(es, was)
    requires forall k :: if k == e.key then was(k) < now(k) else now(k) == was(k) < now(e.key)
    ensures Sorted([e] + Without(es, e.key), now)
  {
    var t := [e] + Without(es, e.key);
    forall i, j | 0 <= i < j < |t| ensures now(t[i].key) > now(t[j].key) {
      WithoutAt(es, e.key, j - 1);
      if i > 0 { WithoutAt(es, e.key, i - 1); }
    }
  }

  lemma FrontKeepsHolds<K(!new), V>(es: seq<Entry<K, V>>, e: Entry<K, V>, was: K -> Option<V>, now: K -> Option<V>)
    requires DistinctKeys(es) && Holds(es, was) && now(e.key) == Some(e.value)
    requires forall k :: k != e.key ==> now(k) == was(k)
    ensures Holds([e] + Without(es, e.key), now)
  {
    var t := [e] + Without(es, e.key);
    forall i | 0 <= i < |t| ensures now(t[i].key) == Some(t[i].value) {
      if i > 0 { WithoutAt(es, e.key, i - 1); }
    }
    forall k | now(k).Some? ensures Has(t, k) {
      if k == e.key {
        assert t[0].key == k;
      } else {
        assert was(k).Some?;
        WithoutHas(es, e.key, k);
        assert t[1 + IndexOf(Without(es, e.key), k)].key == k;
      }
    }
  }

  lemma FrontIsNewest<K(!new), V>(ops: seq<Op<K, V>>, es: seq<Entry<K, V>>, e: Entry<K, V>, capacity: nat)
    requires ops != [] && es == Recent(ops[..|ops| - 1], capacity) && DistinctKeys(es)
    requires ByLastTouch(es, ops[..|ops| - 1], capacity)
    requires Touches(es, ops[|ops| - 1], e.key, capacity) && LastValue(ops, e.key) == Some(e.value)
    ensures ByLastTouch([e] + Without(es, e.key), ops, capacity)
  {
    var before := ops[..|ops| - 1];
    forall k ensures LastTouch(before, k, capacity) <= |before| { LastTouchBound(before, k, capacity); }
    FrontKeepsSorted(es, e, k => LastTouch(before, k, capacity), k => LastTouch(ops, k, capacity));
    FrontKeepsHolds(es, e, k => LastValue(before, k), k => LastValue(ops, k));
  }

  /** `Recent` is what its name says: ordered by last touch, each key with the value it was last added with. */
  lemma {:induction false} RecentIsByLastTouch<K(!new), V>(ops: seq<Op<K, V>>, capacity: nat)
    requires capacity > 0
    ensures ByLastTouch(Recent(ops, capacity), ops, capacity)
  {
    if ops != [] {
      var before, op := ops[..|ops| - 1], ops[|ops| - 1];
      var es := Recent(before, capacity);
      RecentIsByLastTouch(before, capacity);
      CachedIsRecent(before, capacity);
      FrontHas(es, op.key, capacity);
      if op.Add? {
        FrontIsNewest(ops, es, Entry(op.key, op.value), capacity);
      } else if Has(Front(es, capacity), op.key) {
        FrontIsNewest(ops, es, es[IndexOf(es, op.key)], capacity);
      }
    }
  }

  /** A node of the list is known by its address, which is also what an iterator holds. */
  type Address = nat

  datatype Lists<K, V> = Lists(list: seq<Address>, nodes: map<Address, Entry<K, V>>, table: map<K, Address>) {
    /** Node `i` of the list exists and stands in the table under its key. */
    ghost predicate Listed(i: nat)
      requires i < |list|
    {
      list[i] in nodes && nodes[list[i]].key in table && table[nodes[list[i]].key] == list[i]
    }

    ghost predicate Stored() { forall a :: a in list ==> a in nodes }

    /** List and table hold the same nodes, each under its own key. */
    ghost predicate Linked() {
      && Stored()
      && (forall i :: 0 <= i < |list| ==> Listed(i))
      && (forall i, j :: 0 <= i < j < |list| ==> list[i] != list[j])
      && (forall k :: k in table ==> table[k] in list && table[k] in nodes && nodes[table[k]].key == k)
    }

    ghost function Entries(): (es: seq<Entry<K, V>>)
      requires Stored()
      ensures |es| == |list| && (forall i :: 0 <= i < |es| ==> es[i] == nodes[list[i]])
    {
      seq(|list|, i requires 0 <= i < |list| => nodes[list[i]])
    }
  }

  lemma LinkedDistinct<K, V>(s: Lists<K, V>)
    requires s.Linked()
    ensures DistinctKeys(s.Entries())
  {
    forall i, j | 0 <= i < j < |s.list| ensures s.Entries()[i].key != s.Entries()[j].key {
      assert s.Listed(i) && s.Listed(j);
    }
  }

  function Cut<T>(list: seq<T>, i: nat): seq<T>
    requires i < |list|
  {
    list[..i] + list[i + 1..]
  }

  /** A node that leaves both the list and the table. */
  function Removed<K, V>(s: Lists<K, V>, i: nat): Lists<K, V>
    requires i < |s.list| && s.list[i] in s.nodes
  {
    Lists(Cut(s.list, i), s.nodes, s.table - {s.nodes[s.list[i]].key})
  }

  lemma RemovedIsLinked<K, V>(s: Lists<K, V>, i: nat)
    requires s.Linked() && i < |s.list|
    ensures s.Listed(i) && s.list[i] !in Removed(s, i).list
    ensures Removed(s, i).Linked() && Removed(s, i).Entries() == Cut(s.Entries(), i)
  {
    assert s.Listed(i);
    RemovedListed(s, i);
    CutKeepsRest(s.list, i);
    var t := Removed(s, i);
    forall k | k in t.table ensures t.table[k] in t.list {
      assert s.table[k] in s.list && s.table[k] != s.list[i];
    }
    RemovedEntries(s, i);
  }

  lemma RemovedEntries<K, V>(s: Lists<K, V>, i: nat)
    requires s.Stored() && i < |s.list| && s.list[i] in s.nodes
    ensures Removed(s, i).Stored() && Removed(s, i).Entries() == Cut(s.Entries(), i)
  {
    var t := Removed(s, i);
    assert forall a :: a in t.list ==> a in s.list;
    assert forall j :: 0 <= j < |t.list| ==> t.list[j] == s.list[if j < i then j else j + 1];
  }

  lemma CutKeepsRest<T>(list: seq<T>, i: nat)
    requires i < |list| && (forall j, k :: 0 <= j < k < |list| ==> list[j] != list[k])
    ensures var c := Cut(list, i); forall j, k :: 0 <= j < k < |c| ==> c[j] != c[k]
    ensures forall x :: x in Cut(list, i) <==> x in list && x != list[i]
  {
    var c := Cut(list, i);
    forall x | x in list && x != list[i] ensures x in c {
      var o :| 0 <= o < |list| && list[o] == x;
      assert c[if o < i then o else o - 1] == x;
    }
  }

  lemma RemovedListed<K, V>(s: Lists<K, V>, i: nat)
    requires s.Linked() && i < |s.list| && s.Listed(i)
    ensures var t := Removed(s, i);
      forall j :: 0 <= j < |t.list| ==> t.Listed(j) && t.list[j] != s.list[i] && t.list[j] in s.list
  {
    LinkedDistinct(s);
    var t := Removed(s, i);
    forall j | 0 <= j < |t.list| ensures t.Listed(j) && t.list[j] != s.list[i] && t.list[j] in s.list {
      var o := if j < i then j else j + 1;
      assert t.list[j] == s.list[o];
      assert s.Listed(o) && s.Entries()[o].key != s.Entries()[i].key;
    }
  }

  /** A node with entry `e` at address `a`, at the front of the list. */
  function Pushed<K, V>(s: Lists<K, V>, a: Address, e: Entry<K, V>): Lists<K, V> {
    Lists([a] + s.list, s.nodes[a := e], s.table[e.key := a])
  }

  lemma PushedIsLinked<K, V>(s: Lists<K, V>, a: Address, e: Entry<K, V>)
    requires s.Linked() && a !in s.list && e.key !in s.table
    ensures Pushed(s, a, e).Linked() && Pushed(s, a, e).Entries() == [e] + s.Entries()
  {
    var t := Pushed(s, a, e);
    forall j | 0 <= j < |t.list| ensures t.Listed(j) {
      if j > 0 { assert s.Listed(j - 1); }
    }
  }

  /** Node `i` gets the entry `e` and moves to the front. */
  function Spliced<K, V>(s: Lists<K, V>, i: nat, e: Entry<K, V>): Lists<K, V>
    requires i < |s.list|
  {
    Lists([s.list[i]] + Cut(s.list, i), s.nodes[s.list[i] := e], s.table)
  }

  lemma SplicedIsLinked<K, V>(s: Lists<K, V>, i: nat, e: Entry<K, V>)
    requires s.Linked() && i < |s.list| && s.Entries()[i].key == e.key
    ensures Spliced(s, i, e).Linked() && Spliced(s, i, e).Entries() == [e] + Without(s.Entries(), e.key)
    ensures forall a :: a in Spliced(s, i, e).list ==> a in s.list
  {
    CutKeepsRest(s.list, i);
    LinkedDistinct(s);
    WithoutIs(s.Entries(), i);
    RemovedIsLinked(s, i);
    PushedIsLinked(Removed(s, i), s.list[i], e);
    assert (s.table - {e.key})[e.key := s.list[i]] == s.table;
  }

  /** The last node is popped. */
  lemma PoppedIsLinked<K, V>(s: Lists<K, V>)
    requires s.Linked() && s.list != []
    ensures forall a :: a in s.list[..|s.list| - 1] ==> a in s.list
    ensures var n := |s.list| - 1; s.Listed(n) && Removed(s, n).list == s.list[..n] && s.list[n] !in s.list[..n]
    ensures var n := |s.list| - 1; Removed(s, n).Linked() && Removed(s, n).Entries() == s.Entries()[..n]
  {
    var n := |s.list| - 1;
    RemovedIsLinked(s, n);
    assert Cut(s.list, n) == s.list[..n] && Cut(s.Entries(), n) == s.Entries()[..n];
  }

  lemma FoundIffListed<K, V>(s: Lists<K, V>, k: K)
    requires s.Linked()
    ensures k in s.table <==> Has(s.Entries(), k)
    ensures k in s.table ==> s.list[IndexOf(s.Entries(), k)] == s.table[k]
  {
    if k in s.table {
      var i :| 0 <= i < |s.list| && s.list[i] == s.table[k];
      assert s.Entries()[i].key == k;
    }
    if Has(s.Entries(), k) { assert s.Listed(IndexOf(s.Entries(), k)); }
  }

  lemma {:induction false} LinkedSize<K, V>(s: Lists<K, V>)
    requires s.Linked()
    ensures |s.table| == |s.list|
    decreases |s.list|
  {
    if s.list == [] {
      assert s.table == map[];
    } else {
      RemovedIsLinked(s, 0);
      LinkedSize(Removed(s, 0));
      assert s.table.Keys == Removed(s, 0).table.Keys + {s.nodes[s.list[0]].key};
    }
  }

  class Cache<K(==), V> {
    const capacity: nat
    /** Whether the library offers node extraction, which picks the branch that reuses the last node. */
    const extracts: bool
    var list: seq<Address>
    var nodes: map<Address, Entry<K, V>>
    var table: map<K, Address>
    /** The next address the allocator gives out. */
    var next: Address

    ghost function Value(): Lists<K, V>
      reads this
    {
      Lists(list, nodes, table)
    }

    ghost predicate Valid()
      reads this
    {
      0 < capacity && |list| <= capacity && Value().Linked() && (forall a :: a in list ==> a < next)
    }

    ghost function Entries(): seq<Entry<K, V>>
      requires Valid()
      reads this
    {
      Value().Entries()
    }

    constructor (capacity: nat, extracts: bool)
      requires capacity > 0
      ensures Valid() && this.capacity == capacity && Entries() == []
    {
      this.capacity, this.extracts := capacity, extracts;
      list, nodes, table, next := [], map[], map[], 0;
    }

    function Size(): nat
      reads this
    {
      |table|
    }

    /** Writes the entry of a node of the list and splices the node to the front. */
    method MoveToFront(a: Address, e: Entry<K, V>)
      requires Valid() && a in list && nodes[a].key == e.key
      modifies this
      ensures Valid() && Entries() == [e] + Without(old(Entries()), e.key)
      ensures nodes == old(nodes)[a := e] && table == old(table)
    {
      var i :| 0 <= i < |list| && list[i] == a;
      ghost var s := Value();
      SplicedIsLinked(s, i, e);
      nodes := nodes[a := e];
      list := [a] + Cut(list, i);
      assert Value() == Spliced(s, i, e);
    }

    method Get(k: K) returns (v: Option<V>)
      requires Valid()
      modifies this
      ensures Valid() && Entries() == Gotten(old(Entries()), k)
      ensures v == if Has(old(Entries()), k) then Some(old(Entries())[IndexOf(old(Entries()), k)].value) else None
    {
      FoundIffListed(Value(), k);
      if k !in table {
        return None;
      }
      MoveToFront(table[k], nodes[table[k]]);
      v := Some(nodes[table[k]].value);
    }

    method Add(k: K, v: V)
      requires Valid()
      modifies this
      ensures Valid() && Entries() == Added(old(Entries()), k, v, capacity)
    {
      FoundIffListed(Value(), k);
      if k !in table {
        LinkedSize(Value());
        if Size() >= capacity {
          var last := DropLast();
          if extracts {
            PushFront(last, Entry(k, v));
            return;
          }
        }
        next := next + 1;
        PushFront(next - 1, Entry(k, v));
      } else {
        MoveToFront(table[k], Entry(k, v));
      }
    }

    method PushFront(a: Address, e: Entry<K, V>)
      requires Valid() && |list| < capacity && a !in list && a < next && e.key !in table
      modifies this
      ensures Valid() && Entries() == [e] + old(Entries())
    {
      PushedIsLinked(Value(), a, e);
      nodes := nodes[a := e];
      list := [a] + list;
      table := table[e.key := a];
    }

    method DropLast() returns (last: Address)
      requires Valid() && list != []
      modifies this
      ensures Valid() && Entries() == old(Entries())[..|old(list)| - 1]
      ensures list == old(list)[..|old(list)| - 1] && last !in list && last < next && table.Keys <= old(table).Keys
      ensures next == old(next)
    {
      ghost var s := Value();
      PoppedIsLinked(s);
      last := list[|list| - 1];
      table := table - {nodes[last].key};
      list := list[..|list| - 1];
      assert forall a :: a in list ==> a in s.list;
    }
  }
}
