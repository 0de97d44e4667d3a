/**
  The ready, free and gc lists of the coroutine runner down to the pointers: three intrusive
  lists over the nodes of the coroutines. The runner never asks which list a coroutine is on; it
  tests two pointers (`Attatched`). `Lists` keeps the rings apart, so that the test is true of
  exactly the coroutines on a list, and its operations are the list operations of `CoRunner`.
*/
module CoroLists {
  import opened LinkedList
  import opened Sequences
  import CoRunner
  import opened Resumers

  class Lists {
    const ready: List
    const free: List
    const gc: List
    /** The node of each coroutine. */
    ghost var nodes: seq<Node>

    ghost predicate Apart()
      reads this, ready, free, gc
    {
      && ready != free && ready != gc && free != gc
      && (forall n :: n in ready.ring ==> n !in free.ring && n !in gc.ring)
      && (forall n :: n in free.ring ==> n !in gc.ring)
    }

    ghost predicate OnAList(n: Node)
      reads this, ready, free, gc
    {
      n in ready.ring || n in free.ring || n in gc.ring
    }

    /** No ring shares a node with another, and a coroutine's pointers are set exactly if it is in one. */
    ghost predicate Valid()
      reads this, ready, free, gc, ready.ring, free.ring, gc.ring, nodes
    {
      && ready.Valid() && free.Valid() && gc.Valid() && Apart() && NoRepeats(nodes)
      && ready.root !in nodes && free.root !in nodes && gc.root !in nodes
      && (forall n :: n in nodes ==> (n.Attatched() <==> OnAList(n)))
    }

    /** Three empty lists, and the main coroutine, which is on none. */
    constructor ()
      ensures Valid() && Shows(CoRunner.START)
      ensures fresh(ready) && fresh(free) && fresh(gc)
    {
      ready := new List();
      free := new List();
      gc := new List();
      var main := new Node();
      nodes := [main];
    }

    /** A new coroutine, on no list. */
    method Create() returns (n: Node)
      requires Valid()
      modifies this
      ensures Valid() && fresh(n) && nodes == old(nodes) + [n] && !n.Attatched()
    {
      n := new Node();
      nodes := nodes + [n];
    }

    method Append(list: List, n: Node)
      requires Valid() && list in {ready, free, gc} && n in nodes && !n.Attatched()
      modifies list, list.ring, n
      ensures Valid() && list.ring == old(list.ring) + [n] && list.size == old(list.size) + 1
      ensures forall other: List :: other in {ready, free, gc} && other != list ==>
        other.ring == old(other.ring) && other.size == old(other.size)
    {
      list.Append(n);
      forall other: List | other in {ready, free, gc} && other != list ensures other.Valid() {
        forall i | 0 <= i < |other.ring| ensures Linked(other.ring, i) {
          assert old(Linked(other.ring, i)) && other.ring[i] !in old(list.ring);
        }
      }
      forall m | m in nodes ensures m.Attatched() <==> OnAList(m) {
        if m in list.ring { list.MembersAreAttatched(m); }
      }
    }

    method Remove(list: List, n: Node)
      requires Valid() && list in {ready, free, gc} && n in nodes && n in list.Contents()
      modifies list, list.ring
      ensures Valid() && !n.Attatched() && list.size == old(list.size) - 1
      ensures exists k :: TakenOut(old(list.ring), k, n, list.ring)
      ensures forall other: List :: other in {ready, free, gc} && other != list ==>
        other.ring == old(other.ring) && other.size == old(other.size)
    {
      list.Remove(n);
      forall other: List | other in {ready, free, gc} && other != list ensures other.Valid() {
        forall i | 0 <= i < |other.ring| ensures Linked(other.ring, i) {
          assert old(Linked(other.ring, i)) && other.ring[i] !in old(list.ring);
        }
      }
      forall m | m in nodes ensures m.Attatched() <==> OnAList(m) {
        if m in list.ring { list.MembersAreAttatched(m); }
      }
    }

    /** Takes the first element off a list, if there is one. */
    method TakeFirst(list: List) returns (n: Node?)
      requires Valid() && list in {ready, free, gc} && (forall m :: m in list.Contents() ==> m in nodes)
      modifies list, list.ring
      ensures Valid() && (old(list.Counts()) ==> list.Counts())
      ensures if old(list.Contents()) == [] then n == null && list.ring == old(list.ring)
              else n == old(list.Contents())[0] && list.Contents() == old(list.Contents())[1..] && !n.Attatched()
      ensures forall other: List :: other in {ready, free, gc} && other != list ==>
        other.ring == old(other.ring) && other.size == old(other.size)
    {
      n := list.First();
      if n != null {
        ghost var ring := list.ring;
        assert ring[1] == n && ring[1..][0] == n;
        Remove(list, n);
        ghost var k :| TakenOut(ring, k, n, list.ring);
        assert k == 1;
        assert list.ring[1..] == ring[1..][1..];
      }
    }

    /** The lists are those of the runner in state `s`, by number of coroutine, and their sizes are right. */
    ghost predicate Shows(s: CoRunner.State)
      reads this, ready, free, gc, ready.ring, free.ring, gc.ring, nodes
    {
      && Valid() && |nodes| == |s.resumeId|
      && ready.Counts() && free.Counts() && gc.Counts()
      && Picks(ready.Contents(), s.ready) && Picks(free.Contents(), s.free) && Picks(gc.Contents(), s.gc)
    }

    ghost predicate Picks(list: seq<Node>, ids: seq<nat>)
      reads this
    {
      |list| == |ids| && forall i :: 0 <= i < |ids| ==> ids[i] < |nodes| && list[i] == nodes[ids[i]]
    }

    lemma PicksMember(list: seq<Node>, ids: seq<nat>, k: nat)
      requires Picks(list, ids) && NoRepeats(nodes) && k < |nodes|
      ensures nodes[k] in list <==> k in ids
    {
      if nodes[k] in list {
        var i :| 0 <= i < |list| && list[i] == nodes[k];
        assert ids[i] == k;
      }
      if k in ids {
        var i :| 0 <= i < |ids| && ids[i] == k;
        assert list[i] == nodes[k];
      }
    }

    /** The pointer test of the source is the runner model's membership of one of the three lists. */
    lemma AttatchedIsAttached(s: CoRunner.State, k: nat)
      requires Shows(s) && k < |nodes|
      ensures nodes[k].Attatched() <==> CoRunner.Attached(s, k)
    {
      PicksMember(ready.Contents(), s.ready, k);
      PicksMember(free.Contents(), s.free, k);
      PicksMember(gc.Contents(), s.gc, k);
      assert OnAList(nodes[k]) <==>
        nodes[k] in ready.Contents() || nodes[k] in free.Contents() || nodes[k] in gc.Contents();
    }

    /** The body of a resumer: `isCurrent` says that the coroutine's resume id is the resumer's. */
    method Resume(n: Node, isCurrent: bool, ghost s: CoRunner.State, ghost k: Ticket)
      requires Shows(s) && k.co < |nodes| == |s.alive| && n == nodes[k.co] && s.alive[k.co]
      requires isCurrent <==> s.resumeId[k.co] == k.period
      modifies ready, ready.ring, n
      ensures Shows(CoRunner.DoResume(s, k))
    {
      AttatchedIsAttached(s, k.co);
      if isCurrent && !n.Attatched() {
        Append(ready, n);
        assert ready.Contents() == old(ready.Contents()) + [n];
      }
    }

    /** `GC` of the running coroutine; the result says that the check at its top passed. */
    method Collect(n: Node, maxReuse: nat, ghost s: CoRunner.State) returns (ok: bool)
      requires Shows(s) && CoRunner.Enabled(s, CoRunner.Exit) && n == nodes[s.current] && maxReuse == s.maxReuse
      modifies free, free.ring, gc, gc.ring, n
      ensures Shows(CoRunner.Apply(s, CoRunner.Exit)) && (ok <==> !CoRunner.Apply(s, CoRunner.Exit).aborted)
    {
      AttatchedIsAttached(s, s.current);
      ok := !n.Attatched();
      if !ok {
        return;
      }
      if free.size < maxReuse {
        Append(free, n);
        assert free.Contents() == old(free.Contents()) + [n];
      } else {
        Append(gc, n);
        assert gc.Contents() == old(gc.Contents()) + [n];
      }
    }

    /** A turn of the loop over the ready list. */
    method NextReady(ghost s: CoRunner.State) returns (n: Node)
      requires Shows(s) && CoRunner.Enabled(s, CoRunner.ResumeReady)
      modifies ready, ready.ring
      ensures Shows(CoRunner.Apply(s, CoRunner.ResumeReady)) && n == nodes[s.ready[0]]
    {
      var first := TakeFirst(ready);
      n := first;
    }

    /** `Spawn`: a coroutine of the free list, or a new one. */
    method Spawn(ghost s: CoRunner.State) returns (n: Node)
      requires Shows(s) && CoRunner.Enabled(s, CoRunner.Spawn)
      modifies this, free, free.ring
      ensures Shows(CoRunner.Apply(s, CoRunner.Spawn)) && n == nodes[CoRunner.Apply(s, CoRunner.Spawn).current]
    {
      var reused := TakeFirst(free);
      if reused == null {
        n := Create();
      } else {
        n := reused;
      }
    }

    /** A turn of `FreeCoros`. */
    method FreeOne(ghost s: CoRunner.State) returns (n: Node)
      requires Shows(s) && CoRunner.Enabled(s, CoRunner.FreeOne)
      modifies gc, gc.ring
      ensures Shows(CoRunner.Apply(s, CoRunner.FreeOne)) && n == nodes[s.gc[0]]
    {
      var first := TakeFirst(gc);
      n := first;
    }
  }
}
