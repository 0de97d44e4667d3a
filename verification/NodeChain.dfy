/** Singly linked chains through a table of `next` pointers, as both free lists keep them. */
module NodeChain {
  datatype Ptr = Null | At(node: nat)

  /** `list` is what a walk from `head` along `next` meets: every node once, then null. */
  ghost predicate Chain(head: Ptr, next: seq<Ptr>, list: seq<nat>) {
    && (forall i :: 0 <= i < |list| ==> list[i] < |next|)
    && (forall i, j :: 0 <= i < j < |list| ==> list[i] != list[j])
    && head == PtrTo(list, 0)
    && (forall i :: 0 <= i < |list| ==> LinkedAt(next, list, i))
  }

  ghost predicate LinkedAt(next: seq<Ptr>, list: seq<nat>, i: nat)
    requires i < |list|
  {
    list[i] < |next| && next[list[i]] == PtrTo(list, i + 1)
  }

  function PtrTo(list: seq<nat>, i: nat): Ptr { if i < |list| then At(list[i]) else Null }

  lemma PushChain(head: Ptr, next: seq<Ptr>, list: seq<nat>, n: nat)
    requires Chain(head, next, list) && n < |next| && n !in list && next[n] == head
    ensures Chain(At(n), next, [n] + list)
  {
    var longer := [n] + list;
    forall i | 0 <= i < |longer| ensures LinkedAt(next, longer, i) {
      if i > 0 { assert LinkedAt(next, list, i - 1); }
    }
  }

  lemma RelinkOutside(head: Ptr, next: seq<Ptr>, list: seq<nat>, n: nat, h: Ptr)
    requires Chain(head, next, list) && n < |next| && n !in list
    ensures Chain(head, next[n := h], list)
  {
    var changed := next[n := h];
    forall i | 0 <= i < |list| ensures LinkedAt(changed, list, i) {
      assert LinkedAt(next, list, i);
    }
  }

  lemma PopChain(head: Ptr, next: seq<Ptr>, list: seq<nat>)
    requires Chain(head, next, list) && head != Null
    ensures list != [] && head == At(list[0]) && Chain(next[list[0]], next, list[1..])
  {
    assert LinkedAt(next, list, 0);
    forall i | 0 <= i < |list[1..]| ensures LinkedAt(next, list[1..], i) {
      assert LinkedAt(next, list, i + 1);
    }
  }

  lemma ChainUnique(head: Ptr, next: seq<Ptr>, a: seq<nat>, b: seq<nat>)
    requires Chain(head, next, a) && Chain(head, next, b)
    ensures a == b
    decreases |a|
  {
    if head != Null {
      PopChain(head, next, a);
      PopChain(head, next, b);
      ChainUnique(next[a[0]], next, a[1..], b[1..]);
      assert a == [a[0]] + a[1..] && b == [b[0]] + b[1..];
    }
  }
}
