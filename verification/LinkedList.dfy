/**
  The intrusive circular list of base/queue/linked_list.h, with its pointer surgery. The list
  object owns a root node; the ghost `ring` lists the nodes of the circle in order, root first.
  Every call also says what it does to the list's `Tally`, its size field and its length, which is
  not the same thing, since `PopAndRemove` takes a node off without counting it.
*/
module LinkedList {
  import opened Sequences

  class Node {
    var pre: Node?
    var next: Node?

    constructor ()
      ensures pre == null && next == null
    {
      pre, next := null, null;
    }

    predicate Attatched()
      reads this
    {
      pre != null && next != null
    }
  }

  /** Neighbours point at each other, the last and the first included, and no node occurs twice. */
  ghost predicate IsRing(ring: seq<Node>)
    reads ring
  {
    && ring != []
    && NoRepeats(ring)
    && (forall i :: 0 <= i < |ring| ==> Linked(ring, i))
  }

  ghost predicate Linked(ring: seq<Node>, i: nat)
    requires i < |ring|
    reads ring
  {
    ring[i].next == After(ring, i) && ring[i].pre == Before(ring, i)
  }

  ghost function After(ring: seq<Node>, i: nat): Node
    requires i < |ring|
  {
    if i + 1 == |ring| then ring[0] else ring[i + 1]
  }

  ghost function Before(ring: seq<Node>, i: nat): Node
    requires i < |ring|
  {
    if i == 0 then ring[|ring| - 1] else ring[i - 1]
  }

  ghost predicate TakenOut(before: seq<Node>, k: int, e: Node, after: seq<Node>) {
    0 < k < |before| && before[k] == e && after == Without(before, k)
  }

  /** Taking out the k-th node changes only the neighbours of that node. */
  lemma WithoutNeighbours(ring: seq<Node>, k: nat, i: nat)
    requires NoRepeats(ring) && 0 < k < |ring| && i < |ring| - 1
    ensures var j := if i < k then i else i + 1;
      && Without(ring, k)[i] == ring[j] && ring[j] != ring[k]
      && After(Without(ring, k), i) == (if After(ring, j) == ring[k] then After(ring, k) else After(ring, j))
      && Before(Without(ring, k), i) == (if Before(ring, j) == ring[k] then Before(ring, k) else Before(ring, j))
      && (After(ring, j) == ring[k] <==> ring[j] == Before(ring, k))
      && (Before(ring, j) == ring[k] <==> ring[j] == After(ring, k))
  {
  }

  lemma WithoutNoRepeats(ring: seq<Node>, k: nat)
    requires NoRepeats(ring) && k < |ring|
    ensures NoRepeats(Without(ring, k)) && ring[k] !in Without(ring, k)
  {
  }

  datatype Call = Appended | Removed | Popped | PoppedNothing

  datatype Tally = Tally(size: int, length: nat)

  /** What a call does to size and length. */
  predicate Takes(a: Tally, call: Call, b: Tally) {
    match call
    case Appended => b == Tally(a.size + 1, a.length + 1)
    case Removed => a.length > 0 && b == Tally(a.size - 1, a.length - 1)
    case Popped => a.length > 0 && b == Tally(a.size, a.length - 1)
    case PoppedNothing => a.length == 0 && b == a
  }

  ghost predicate TakesAt(run: seq<Tally>, calls: seq<Call>, i: nat)
    requires |run| == |calls| + 1 && i < |calls|
  {
    Takes(run[i], calls[i], run[i + 1])
  }

  /** The tallies of a list, from the empty one on, through a sequence of calls. */
  ghost predicate IsRun(run: seq<Tally>, calls: seq<Call>) {
    && |run| == |calls| + 1 && run[0] == Tally(0, 0)
    && (forall i :: 0 <= i < |calls| ==> TakesAt(run, calls, i))
  }

  /** After every run of calls the size is the length if and only if none of them popped a node. */
  lemma {:induction false} RunSizeIsLengthIff(run: seq<Tally>, calls: seq<Call>, n: nat)
    requires IsRun(run, calls) && n < |run|
    ensures run[n].size >= run[n].length
    ensures run[n].size == run[n].length <==> Popped !in calls[..n]
  {
    if n > 0 {
      RunSizeIsLengthIff(run, calls, n - 1);
      assert TakesAt(run, calls, n - 1);
      assert calls[..n] == calls[..n - 1] + [calls[n - 1]];
    }
  }

  /** It happens: one append and one pop leave an empty list of size one. */
  lemma PopOutgrows()
    ensures exists run :: IsRun(run, [Appended, Popped]) && run[2] == Tally(1, 0)
  {
    var run, calls := [Tally(0, 0), Tally(1, 1), Tally(1, 0)], [Appended, Popped];
    assert TakesAt(run, calls, 0) && TakesAt(run, calls, 1);
    assert IsRun(run, calls);
  }

  class List {
    const root: Node
    var size: int
    /** The circle: the root, then the elements in order. */
    ghost var ring: seq<Node>

    ghost predicate Valid()
      reads this, ring
    {
      IsRing(ring) && ring[0] == root
    }

    ghost function Count(): Tally
      reads this, ring
      requires Valid()
    {
      Tally(size, |Contents()|)
    }

    ghost function Contents(): seq<Node>
      reads this, ring
      requires Valid()
    {
      ring[1..]
    }

    /** The size is the length. */
    ghost predicate Counts()
      reads this
    {
      size == |ring| - 1
    }

    constructor ()
      ensures Valid() && Contents() == [] && Count() == Tally(0, 0) && fresh(ring)
    {
      root := new Node();
      size := 0;
      new;
      ring := [root];
      root.pre, root.next := root, root;
    }

    method First() returns (e: Node?)
      requires Valid()
      ensures e == if Contents() == [] then null else Contents()[0]
    {
      assert Linked(ring, 0);
      if root.next == root {
        return null;
      }
      e := root.next;
    }

    method Append(e: Node)
      requires Valid() && e !in ring
      modifies this, ring, e
      ensures Valid() && ring == old(ring) + [e] && Takes(old(Count()), Appended, Count())
    {
      assert Linked(ring, 0) && Linked(ring, |ring| - 1);
      size := size + 1;
      e.next := root;
      e.pre := root.pre;
      root.pre.next := e;
      root.pre := e;
      ghost var before := ring;
      ring := ring + [e];
      forall i | 0 <= i < |ring| ensures Linked(ring, i) {
        if i < |before| { assert ring[i] == before[i] && old(Linked(ring, i)); }
      }
    }

    /** `RemoveFromList` on the k-th element; the count is left to the caller. */
    method Unlink(e: Node, ghost k: nat)
      requires IsRing(ring) && ring[0] == root && 0 < k < |ring| && ring[k] == e
      modifies this`ring, ring
      ensures IsRing(ring) && ring[0] == root && ring == Without(old(ring), k) && e !in ring
      ensures !e.Attatched()
    {
      ghost var before := ring;
      assert Linked(before, k);
      e.pre.next := e.next;
      e.next.pre := e.pre;
      e.next := null;
      e.pre := null;
      ring := Without(before, k);
      WithoutNoRepeats(before, k);
      forall i | 0 <= i < |ring| ensures Linked(ring, i) {
        assert old(Linked(ring, if i < k then i else i + 1));
        WithoutNeighbours(before, k, i);
      }
    }

    method Remove(e: Node)
      requires Valid() && e in Contents()
      modifies this, ring
      ensures Valid() && e !in ring && !e.Attatched() && Takes(old(Count()), Removed, Count())
      ensures exists k :: TakenOut(old(ring), k, e, ring)
    {
      ghost var k :| 0 < k < |ring| && ring[k] == e;
      size := size - 1;
      Unlink(e, k);
      assert TakenOut(old(ring), k, e, ring);
    }

    method PopAndRemove() returns (e: Node?)
      requires Valid()
      modifies this, ring
      ensures Valid() && (old(Contents()) == [] <==> e == null)
      ensures Takes(old(Count()), if e == null then PoppedNothing else Popped, Count())
      ensures e == null ==> ring == old(ring)
      ensures e != null ==> old(Contents()) == [e] + Contents() && !e.Attatched()
    {
      e := First();
      if e != null {
        assert ring[1..] == [e] + ring[2..];
        Unlink(e, 1);
        assert Contents() == old(ring)[2..];
      }
    }

    /** Whatever is in the ring is attached; `CoroLists` has the converse, which takes all lists there are. */
    lemma MembersAreAttatched(e: Node)
      requires Valid() && e in ring
      ensures e.Attatched()
    {
      var i :| 0 <= i < |ring| && ring[i] == e;
      assert Linked(ring, i);
    }
  }
}
