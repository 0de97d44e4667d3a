/**
  The reference-counted lock-free free list of base/lockfree/freelist.hpp, as a
  transition system: any number of threads, one transition per atomic operation,
  sequentially consistent memory.

  A node's `freeListRefs` is the source's 32-bit word: a 31-bit count of references
  below the SHOULD_BE_ON_FREELIST bit. Nothing here assumes that count and bit stay
  apart; that they do is part of the invariant, for fewer than 2^31 - 1 threads.
*/
module FreeList {
  import opened NodeChain
  import opened Wrappers

  const FLAG: nat := 0x8000_0000
  const WORD: nat := 0x1_0000_0000

  /** Where `add_knowing_refcount_is_zero` returns to: `add`, or the `try_get` loop with its local head. */
  datatype Back = ToAdd | ToGet(head: Ptr)

  /** The atomic operation a thread performs next, with the locals that are still live. */
  datatype Pc =
    | Idle
    | AddSet(n: nat)                          // add: set the bit
    | LinkLoad(n: nat, back: Back)            // load the list head
    | LinkNext(n: nat, h: Ptr, back: Back)    // node->next = h
    | LinkRefs(n: nat, h: Ptr, back: Back)    // node->refs = 1
    | LinkCas(n: nat, h: Ptr, back: Back)     // CAS list head h -> node
    | LinkUndo(n: nat, h: Ptr, back: Back)    // give the list's reference back, set the bit
    | GetLoad                                 // load the list head
    | GetRefs(n: nat)                         // load head->refs
    | GetRef(n: nat, refs: nat)               // CAS refs -> refs + 1
    | GetNext(n: nat)                         // load head->next
    | GetCas(n: nat, next: Ptr)               // CAS list head n -> next
    | GetCheck(n: nat)                        // the assert that the bit is clear
    | GetDrop2(n: nat)                        // refs -= 2, return the node
    | GetDrop(n: nat, head: Ptr)              // refs -= 1, maybe re-add, loop with head

  /** `owner` is history: the thread that a node outside the list belongs to. */
  datatype State = State(head: Ptr, next: seq<Ptr>, refs: seq<nat>, pc: seq<Pc>, owner: seq<Option<nat>>)

  /** What an idle thread does next; `Run` lets a busy thread take its pending step. */
  datatype Action = Add(n: nat) | TryGet | Give(n: nat, to: nat) | Run

  /** `fetch_add` on a 32-bit word. */
  function FetchAdd(w: nat, delta: int): (r: nat) { (w + delta) % WORD }

  function RefCount(w: nat): nat { w % FLAG }

  predicate Flagged(w: nat) { w / FLAG % 2 == 1 }

  /** The head of the `try_get` loop: leave with null, or look at the node. */
  function Loop(head: Ptr): Pc {
    match head
    case Null => Idle
    case At(n) => GetRefs(n)
  }

  function Resume(back: Back): Pc {
    match back
    case ToAdd => Idle
    case ToGet(head) => Loop(head)
  }

  /** Inside `add_knowing_refcount_is_zero`. */
  predicate Linking(p: Pc) { p.LinkLoad? || p.LinkNext? || p.LinkRefs? || p.LinkCas? || p.LinkUndo? }

  predicate PtrOk(s: State, p: Ptr) { p.At? ==> p.node < |s.next| }

  predicate BackOk(s: State, b: Back) { b.ToGet? ==> PtrOk(s, b.head) }

  predicate PcOk(s: State, p: Pc) {
    match p
    case Idle => true
    case GetLoad => true
    case AddSet(n) => n < |s.next|
    case LinkLoad(n, b) => n < |s.next| && BackOk(s, b)
    case LinkNext(n, h, b) => n < |s.next| && PtrOk(s, h) && BackOk(s, b)
    case LinkRefs(n, h, b) => n < |s.next| && PtrOk(s, h) && BackOk(s, b)
    case LinkCas(n, h, b) => n < |s.next| && PtrOk(s, h) && BackOk(s, b)
    case LinkUndo(n, h, b) => n < |s.next| && PtrOk(s, h) && BackOk(s, b)
    case GetRefs(n) => n < |s.next|
    case GetRef(n, r) => n < |s.next|
    case GetNext(n) => n < |s.next|
    case GetCas(n, x) => n < |s.next| && PtrOk(s, x)
    case GetCheck(n) => n < |s.next|
    case GetDrop2(n) => n < |s.next|
    case GetDrop(n, h) => n < |s.next| && PtrOk(s, h)
  }

  /** Types: every node number in the state names a node. */
  predicate Typed(s: State) {
    && |s.refs| == |s.next| == |s.owner|
    && PtrOk(s, s.head)
    && (forall i :: 0 <= i < |s.next| ==> PtrOk(s, s.next[i]))
    && (forall t :: 0 <= t < |s.pc| ==> PcOk(s, s.pc[t]))
  }

  /** An idle thread may add or give away a node only while it owns it. */
  predicate Enabled(s: State, t: nat, a: Action) {
    t < |s.pc| &&
    match a
    case Add(n) => s.pc[t].Idle? && n < |s.owner| && s.owner[n] == Some(t)
    case TryGet => s.pc[t].Idle?
    case Give(n, to) => s.pc[t].Idle? && n < |s.owner| && s.owner[n] == Some(t) && to < |s.pc|
    case Run => !s.pc[t].Idle?
  }

  /** One transition of thread t. */
  function Apply(s: State, t: nat, a: Action): (s': State)
    requires Typed(s) && Enabled(s, t, a)
    ensures Typed(s') && |s'.pc| == |s.pc| && |s'.next| == |s.next|
  {
    match a
    case Add(n) => s.(pc := s.pc[t := AddSet(n)], owner := s.owner[n := None])
    case TryGet => s.(pc := s.pc[t := GetLoad])
    case Give(n, to) => s.(owner := s.owner[n := Some(to)])
    case Run => Advance(s, t)
  }

  function Advance(s: State, t: nat): (s': State)
    requires Typed(s) && t < |s.pc| && !s.pc[t].Idle?
    ensures Typed(s') && |s'.pc| == |s.pc| && |s'.next| == |s.next|
  {
    if s.pc[t].AddSet? || Linking(s.pc[t]) then AdvanceAdd(s, t) else AdvanceGet(s, t)
  }

  /** Thread t goes on at p. */
  function Goto(s: State, t: nat, p: Pc): (s': State)
    requires Typed(s) && t < |s.pc| && PcOk(s, p)
    ensures Typed(s') && |s'.pc| == |s.pc| && |s'.next| == |s.next|
  {
    s.(pc := s.pc[t := p])
  }

  /** `add` and `add_knowing_refcount_is_zero`. */
  function AdvanceAdd(s: State, t: nat): (s': State)
    requires Typed(s) && t < |s.pc| && (s.pc[t].AddSet? || Linking(s.pc[t]))
    ensures Typed(s') && |s'.pc| == |s.pc| && |s'.next| == |s.next|
  {
    match s.pc[t]
    case AddSet(n) =>
      Goto(s.(refs := s.refs[n := FetchAdd(s.refs[n], FLAG)]), t, if s.refs[n] == 0 then LinkLoad(n, ToAdd) else Idle)
    case LinkLoad(n, b) => Goto(s, t, LinkNext(n, s.head, b))
    case LinkNext(n, h, b) => Goto(s.(next := s.next[n := h]), t, LinkRefs(n, h, b))
    case LinkRefs(n, h, b) => Goto(s.(refs := s.refs[n := 1]), t, LinkCas(n, h, b))
    case LinkCas(n, h, b) =>
      if s.head == h then Goto(s.(head := At(n)), t, Resume(b)) else Goto(s, t, LinkUndo(n, s.head, b))
    case LinkUndo(n, h, b) =>
      Goto(s.(refs := s.refs[n := FetchAdd(s.refs[n], FLAG - 1)]), t,
           if s.refs[n] == 1 then LinkNext(n, h, b) else Resume(b))
  }

  /** `try_get`. */
  function AdvanceGet(s: State, t: nat): (s': State)
    requires Typed(s) && t < |s.pc| && !s.pc[t].Idle? && !s.pc[t].AddSet? && !Linking(s.pc[t])
    ensures Typed(s') && |s'.pc| == |s.pc| && |s'.next| == |s.next|
  {
    match s.pc[t]
    case GetLoad => Goto(s, t, Loop(s.head))
    case GetRefs(n) => Goto(s, t, if RefCount(s.refs[n]) == 0 then GetLoad else GetRef(n, s.refs[n]))
    case GetRef(n, r) =>
      if s.refs[n] == r then Goto(s.(refs := s.refs[n := FetchAdd(r, 1)]), t, GetNext(n)) else Goto(s, t, GetLoad)
    case GetNext(n) => Goto(s, t, GetCas(n, s.next[n]))
    case GetCas(n, x) =>
      if s.head == At(n) then Goto(s.(head := x), t, GetCheck(n)) else Goto(s, t, GetDrop(n, s.head))
    case GetCheck(n) => Goto(s, t, GetDrop2(n))
    case GetDrop2(n) =>
      Goto(s.(refs := s.refs[n := FetchAdd(s.refs[n], -2)], owner := s.owner[n := Some(t)]), t, Idle)
    case GetDrop(n, h) =>
      Goto(s.(refs := s.refs[n := FetchAdd(s.refs[n], -1)]), t,
           if s.refs[n] == FLAG + 1 then LinkLoad(n, ToGet(h)) else Loop(h))
  }

  /** Before any operation: an empty list, every node in the hands of some thread. */
  predicate Init(s: State) {
    && |s.refs| == |s.next| == |s.owner|
    && s.head == Null
    && (forall n :: 0 <= n < |s.next| ==> s.next[n] == Null && s.refs[n] == 0)
    && (forall n :: 0 <= n < |s.owner| ==> s.owner[n].Some? && s.owner[n].value < |s.pc|)
    && (forall t :: 0 <= t < |s.pc| ==> s.pc[t] == Idle)
  }

  ghost predicate Step(s: State, s': State) {
    Typed(s) && exists t: nat, a :: Enabled(s, t, a) && s' == Apply(s, t, a)
  }

  ghost predicate IsRun(trace: seq<State>) {
    |trace| > 0 && Init(trace[0]) && forall i :: 0 <= i < |trace| - 1 ==> StepAt(trace, i)
  }

  ghost predicate StepAt(trace: seq<State>, i: nat)
    requires i < |trace| - 1
  {
    Step(trace[i], trace[i + 1])
  }

  // ---------------------------------------------------------------------------
  // What the words in the state mean
  // ---------------------------------------------------------------------------

  /** Thread holds a temporary reference to n: it raised the count and has not lowered it yet. */
  predicate Holds(p: Pc, n: nat) {
    (p.GetNext? || p.GetCas? || p.GetCheck? || p.GetDrop2? || p.GetDrop?) && p.n == n
  }

  /** Thread has the node in its hands: it is linking it or has just unlinked it. */
  predicate Working(p: Pc, n: nat) {
    (p.AddSet? || Linking(p) || p.GetCheck? || p.GetDrop2?) && p.n == n
  }

  /** Linking, and the node's count is still zero. */
  predicate Preparing(p: Pc) { p.LinkLoad? || p.LinkNext? || p.LinkRefs? }

  ghost function Holders(pc: seq<Pc>, n: nat): set<nat> {
    set t | 0 <= t < |pc| && Holds(pc[t], n)
  }

  /** The number of threads holding a temporary reference to n. */
  ghost function TempRefs(pc: seq<Pc>, n: nat): nat { |Holders(pc, n)| }

  /** Who answers for a node; `Deferred` means: the next thread that brings the count to zero. */
  datatype Phase = Outside | InHand(t: nat) | Deferred | Linked

  /** The witness of the invariant: the list, and one phase per node. */
  datatype View = View(list: seq<nat>, phase: seq<Phase>)

  /** The list's own reference, counted for a linked, tentatively linked or just unlinked node. */
  ghost function ListRef(s: State, v: View, n: nat): nat
    requires n < |v.phase|
  {
    match v.phase[n]
    case Outside => 0
    case Deferred => 0
    case Linked => 1
    case InHand(t) => if t < |s.pc| && (s.pc[t].AddSet? || Preparing(s.pc[t])) then 0 else 1
  }

  /** The bit says that the node still has to be put on the list. */
  ghost function Bit(s: State, v: View, n: nat): nat
    requires n < |v.phase|
  {
    match v.phase[n]
    case Outside => 0
    case Deferred => FLAG
    case Linked => 0
    case InHand(t) => if t < |s.pc| && Preparing(s.pc[t]) then FLAG else 0
  }

  ghost predicate NodeInv(s: State, v: View, n: nat)
    requires n < |s.refs| == |s.owner| == |v.phase|
  {
    && s.refs[n] == Bit(s, v, n) + ListRef(s, v, n) + TempRefs(s.pc, n)
    && (v.phase[n].Outside? <==> s.owner[n].Some?)
    && (v.phase[n].Linked? <==> n in v.list)
    && (v.phase[n].InHand? ==> v.phase[n].t < |s.pc| && Working(s.pc[v.phase[n].t], n))
    && (v.phase[n].Deferred? ==> TempRefs(s.pc, n) > 0)
  }

  ghost predicate ThreadInv(s: State, v: View, t: nat)
    requires Typed(s) && t < |s.pc| && |v.phase| == |s.next|
  {
    var p := s.pc[t];
    && (forall n: nat :: n < |v.phase| && Working(p, n) ==> v.phase[n] == InHand(t))
    && (Preparing(p) ==> TempRefs(s.pc, p.n) == 0)
    && (p.GetRef? ==> RefCount(p.refs) > 0)
    && (p.GetCas? ==> s.next[p.n] == p.next)
    && ((p.LinkRefs? || p.LinkCas?) ==> s.next[p.n] == p.h)
  }

  ghost predicate Inv(s: State, v: View) {
    && Typed(s)
    && |s.pc| + 1 < FLAG
    && |v.phase| == |s.next|
    && Chain(s.head, s.next, v.list)
    && (forall n :: 0 <= n < |s.next| ==> NodeInv(s, v, n))
    && (forall t :: 0 <= t < |s.pc| ==> ThreadInv(s, v, t))
  }

  // ---------------------------------------------------------------------------
  // The invariant is kept
  // ---------------------------------------------------------------------------

  lemma SubsetSize(a: set<nat>, k: nat)
    requires forall x :: x in a ==> x < k
    ensures |a| <= k
  {
    if k == 0 {
      assert a == {};
    } else {
      SubsetSize(a - {k - 1}, k - 1);
    }
  }

  lemma TempRefsBound(s: State, n: nat)
    ensures TempRefs(s.pc, n) <= |s.pc|
  {
    SubsetSize(Holders(s.pc, n), |s.pc|);
  }

  /** Moving one thread changes the number of holders by at most one. */
  lemma TempRefsMove(pc: seq<Pc>, t: nat, p: Pc, n: nat)
    requires t < |pc|
    ensures TempRefs(pc[t := p], n) + (if Holds(pc[t], n) then 1 else 0)
         == TempRefs(pc, n) + (if Holds(p, n) then 1 else 0)
    ensures Holds(pc[t], n) ==> TempRefs(pc, n) > 0
  {
    var before, after := Holders(pc, n), Holders(pc[t := p], n);
    var others := before - {t};
    assert after - {t} == others;
    assert before == if t in before then others + {t} else others;
    assert after == if t in after then others + {t} else others;
  }

  function NextView(s: State, v: View, t: nat, a: Action): (v': View)
    requires Typed(s) && Enabled(s, t, a) && |v.phase| == |s.next|
    ensures |v'.phase| == |v.phase|
  {
    if a.Add? then v.(phase := v.phase[a.n := InHand(t)])
    else if !a.Run? then v
    else match s.pc[t]
      case AddSet(n) => if s.refs[n] == 0 then v else v.(phase := v.phase[n := Deferred])
      case LinkCas(n, h, b) =>
        if s.head == h then View([n] + v.list, v.phase[n := Linked]) else v
      case LinkUndo(n, h, b) => if s.refs[n] == 1 then v else v.(phase := v.phase[n := Deferred])
      case GetCas(n, x) =>
        if s.head == At(n) && v.list != [] then View(v.list[1..], v.phase[n := InHand(t)]) else v
      case GetDrop2(n) => v.(phase := v.phase[n := Outside])
      case GetDrop(n, h) => if s.refs[n] == FLAG + 1 then v.(phase := v.phase[n := InHand(t)]) else v
      case _ => v
  }

  /** A step of t leaves alone every node but the one its pc or its call names. */
  predicate Names(s: State, t: nat, a: Action, n: nat)
    requires t < |s.pc|
  {
    match a
    case Add(m) => m == n
    case Give(m, _) => m == n
    case TryGet => false
    case Run => !s.pc[t].Idle? && !s.pc[t].GetLoad? && s.pc[t].n == n
  }

  ghost predicate Untouched(s: State, v: View, s': State, v': View, n: nat)
    requires n < |s.next| == |s.refs| == |s.owner| == |v.phase| == |s'.next| == |s'.refs| == |s'.owner| == |v'.phase|
  {
    && s'.refs[n] == s.refs[n] && s'.owner[n] == s.owner[n] && s'.next[n] == s.next[n]
    && v'.phase[n] == v.phase[n] && (n in v'.list <==> n in v.list)
    && TempRefs(s'.pc, n) == TempRefs(s.pc, n)
  }

  lemma OtherNodeKept(s: State, v: View, t: nat, a: Action, n: nat)
    requires Inv(s, v) && Enabled(s, t, a) && n < |s.next| && !Names(s, t, a, n)
    ensures Untouched(s, v, Apply(s, t, a), NextView(s, v, t, a), n)
    ensures v.phase[n] == InHand(t) ==> !Working(s.pc[t], n)
  {
    OtherNodeFields(s, v, t, a, n);
    OtherNodeRefs(s, t, a, n);
    assert ThreadInv(s, v, t);
  }

  lemma OtherNodeFields(s: State, v: View, t: nat, a: Action, n: nat)
    requires Typed(s) && Enabled(s, t, a) && |v.phase| == |s.next| && n < |s.next| && !Names(s, t, a, n)
    requires s.head.At? && v.list != [] ==> v.list[0] == s.head.node
    ensures var s' := Apply(s, t, a); s'.refs[n] == s.refs[n] && s'.owner[n] == s.owner[n] && s'.next[n] == s.next[n]
    ensures var v' := NextView(s, v, t, a); v'.phase[n] == v.phase[n] && (n in v'.list <==> n in v.list)
  {
    if v.list != [] { assert v.list == [v.list[0]] + v.list[1..]; }
  }

  lemma OtherNodeRefs(s: State, t: nat, a: Action, n: nat)
    requires Typed(s) && Enabled(s, t, a) && n < |s.next| && !Names(s, t, a, n)
    ensures TempRefs(Apply(s, t, a).pc, n) == TempRefs(s.pc, n)
  {
    var s' := Apply(s, t, a);
    TempRefsMove(s.pc, t, s'.pc[t], n);
    assert s'.pc == s.pc[t := s'.pc[t]];
  }

  lemma StepKeepsOtherNode(s: State, v: View, t: nat, a: Action, n: nat)
    requires Inv(s, v) && Enabled(s, t, a) && n < |s.next| && !Names(s, t, a, n)
    ensures NodeInv(Apply(s, t, a), NextView(s, v, t, a), n)
  {
    assert NodeInv(s, v, n);
    OtherNodeKept(s, v, t, a, n);
    if v.phase[n].InHand? {
      assert v.phase[n].t != t;
    }
  }

  /** All a step of t on node n depends on. */
  ghost predicate Around(s: State, v: View, t: nat, n: nat) {
    && Typed(s) && |v.phase| == |s.next| && n < |s.next| && t < |s.pc|
    && NodeInv(s, v, n)
    && ThreadInv(s, v, t)
    && (s.head == At(n) ==> v.list != [] && v.list[0] == n && n !in v.list[1..])
    && TempRefs(s.pc, n) + 1 < FLAG
  }

  lemma InvAround(s: State, v: View, t: nat, n: nat)
    requires Inv(s, v) && n < |s.next| && t < |s.pc|
    ensures Around(s, v, t, n)
  {
    TempRefsBound(s, n);
  }

  lemma LinkKeepsChain(s: State, v: View, t: nat, n: nat)
    requires Around(s, v, t, n) && Names(s, t, Run, n) && Chain(s.head, s.next, v.list) && Linking(s.pc[t])
    ensures var s' := AdvanceAdd(s, t); Chain(s'.head, s'.next, NextView(s, v, t, Run).list)
  {
    var p := s.pc[t];
    assert Working(p, n) && n !in v.list;
    if p.LinkNext? {
      RelinkOutside(s.head, s.next, v.list, n, p.h);
    } else if p.LinkCas? {
      if s.head == p.h { PushChain(s.head, s.next, v.list, n); }
    }
  }

  lemma GetKeepsChain(s: State, v: View, t: nat, n: nat)
    requires Around(s, v, t, n) && s.pc[t].GetCas? && s.pc[t].n == n && Chain(s.head, s.next, v.list)
    ensures var s' := AdvanceGet(s, t); Chain(s'.head, s'.next, NextView(s, v, t, Run).list)
  {
    if s.head == At(n) { PopChain(s.head, s.next, v.list); }
  }

  lemma StepKeepsChain(s: State, v: View, t: nat, a: Action)
    requires Inv(s, v) && Enabled(s, t, a)
    ensures var s' := Apply(s, t, a); Chain(s'.head, s'.next, NextView(s, v, t, a).list)
  {
    if a.Run? && Linking(s.pc[t]) {
      InvAround(s, v, t, s.pc[t].n);
      LinkKeepsChain(s, v, t, s.pc[t].n);
    } else if a.Run? && s.pc[t].GetCas? {
      InvAround(s, v, t, s.pc[t].n);
      GetKeepsChain(s, v, t, s.pc[t].n);
    }
  }

  lemma CallKeepsNamedNode(s: State, v: View, t: nat, a: Action, n: nat)
    requires Around(s, v, t, n) && Enabled(s, t, a) && Names(s, t, a, n) && !a.Run?
    ensures NodeInv(Apply(s, t, a), NextView(s, v, t, a), n)
  {
    var s' := Apply(s, t, a);
    TempRefsMove(s.pc, t, s'.pc[t], n);
    assert s'.pc == s.pc[t := s'.pc[t]];
  }

  lemma AddKeepsNamedNode(s: State, v: View, t: nat, n: nat)
    requires Around(s, v, t, n) && Names(s, t, Run, n) && (s.pc[t].AddSet? || Linking(s.pc[t]))
    ensures NodeInv(AdvanceAdd(s, t), NextView(s, v, t, Run), n)
  {
    var s' := AdvanceAdd(s, t);
    assert Working(s.pc[t], n);
    TempRefsMove(s.pc, t, s'.pc[t], n);
    assert s'.pc == s.pc[t := s'.pc[t]];
  }

  lemma RefKeepsNamedNode(s: State, v: View, t: nat, n: nat)
    requires Around(s, v, t, n) && Names(s, t, Run, n)
    requires s.pc[t].GetRef?
    ensures NodeInv(AdvanceGet(s, t), NextView(s, v, t, Run), n)
  {
    var s' := AdvanceGet(s, t);
    TempRefsMove(s.pc, t, s'.pc[t], n);
    assert s'.pc == s.pc[t := s'.pc[t]];
  }

  lemma LookKeepsNamedNode(s: State, v: View, t: nat, n: nat)
    requires Around(s, v, t, n) && Names(s, t, Run, n) && (s.pc[t].GetRefs? || s.pc[t].GetNext?)
    ensures NodeInv(AdvanceGet(s, t), NextView(s, v, t, Run), n)
  {
    var s' := AdvanceGet(s, t);
    TempRefsMove(s.pc, t, s'.pc[t], n);
    assert s'.pc == s.pc[t := s'.pc[t]];
  }

  lemma DropKeepsNamedNode(s: State, v: View, t: nat, n: nat)
    requires Around(s, v, t, n) && Names(s, t, Run, n) && s.pc[t].GetDrop?
    ensures NodeInv(AdvanceGet(s, t), NextView(s, v, t, Run), n)
  {
    var s' := AdvanceGet(s, t);
    TempRefsMove(s.pc, t, s'.pc[t], n);
    assert s'.pc == s.pc[t := s'.pc[t]];
  }

  lemma PopKeepsNamedNode(s: State, v: View, t: nat, n: nat)
    requires Around(s, v, t, n) && Names(s, t, Run, n)
    requires s.pc[t].GetCas? || s.pc[t].GetCheck? || s.pc[t].GetDrop2?
    ensures NodeInv(AdvanceGet(s, t), NextView(s, v, t, Run), n)
  {
    var s' := AdvanceGet(s, t);
    if !s.pc[t].GetCas? { assert Working(s.pc[t], n); }
    TempRefsMove(s.pc, t, s'.pc[t], n);
    assert s'.pc == s.pc[t := s'.pc[t]];
  }

  lemma StepKeepsNode(s: State, v: View, t: nat, a: Action, n: nat)
    requires Inv(s, v) && Enabled(s, t, a) && n < |s.next|
    ensures NodeInv(Apply(s, t, a), NextView(s, v, t, a), n)
  {
    InvAround(s, v, t, n);
    if !Names(s, t, a, n) {
      StepKeepsOtherNode(s, v, t, a, n);
    } else if !a.Run? {
      CallKeepsNamedNode(s, v, t, a, n);
    } else if s.pc[t].AddSet? || Linking(s.pc[t]) {
      AddKeepsNamedNode(s, v, t, n);
    } else if s.pc[t].GetCas? || s.pc[t].GetCheck? || s.pc[t].GetDrop2? {
      PopKeepsNamedNode(s, v, t, n);
    } else if s.pc[t].GetDrop? {
      DropKeepsNamedNode(s, v, t, n);
    } else if s.pc[t].GetRef? {
      RefKeepsNamedNode(s, v, t, n);
    } else {
      LookKeepsNamedNode(s, v, t, n);
    }
  }

  /** The thread that moves. */
  lemma AddKeepsMover(s: State, v: View, t: nat, n: nat)
    requires Around(s, v, t, n) && Names(s, t, Run, n) && (s.pc[t].AddSet? || Linking(s.pc[t]))
    ensures ThreadInv(AdvanceAdd(s, t), NextView(s, v, t, Run), t)
  {
    var s' := AdvanceAdd(s, t);
    assert Working(s.pc[t], n) && v.phase[n] == InHand(t);
    TempRefsMove(s.pc, t, s'.pc[t], n);
    assert s'.pc == s.pc[t := s'.pc[t]];
  }

  lemma GetKeepsMover(s: State, v: View, t: nat, n: nat)
    requires Around(s, v, t, n) && Names(s, t, Run, n) && !s.pc[t].AddSet? && !Linking(s.pc[t])
    ensures ThreadInv(AdvanceGet(s, t), NextView(s, v, t, Run), t)
  {
    var s' := AdvanceGet(s, t);
    assert Working(s.pc[t], n) ==> v.phase[n] == InHand(t);
    if s.pc[t].GetDrop? {
      TempRefsMove(s.pc, t, s'.pc[t], n);
      assert s'.pc == s.pc[t := s'.pc[t]];
    }
  }

  lemma StepKeepsMover(s: State, v: View, t: nat, a: Action)
    requires Inv(s, v) && Enabled(s, t, a)
    ensures ThreadInv(Apply(s, t, a), NextView(s, v, t, a), t)
  {
    assert ThreadInv(s, v, t);
    if a.Run? && !s.pc[t].GetLoad? {
      InvAround(s, v, t, s.pc[t].n);
      if s.pc[t].AddSet? || Linking(s.pc[t]) {
        AddKeepsMover(s, v, t, s.pc[t].n);
      } else {
        GetKeepsMover(s, v, t, s.pc[t].n);
      }
    }
  }

  /** A thread that does not move keeps what it knows about its node. */
  lemma BystanderAtNamedNode(s: State, v: View, t: nat, a: Action, u: nat, n: nat)
    requires Around(s, v, t, n) && Around(s, v, u, n) && Enabled(s, t, a) && Names(s, t, a, n)
    requires u != t && !s.pc[u].Idle? && !s.pc[u].GetLoad? && s.pc[u].n == n
    ensures ThreadInv(Apply(s, t, a), NextView(s, v, t, a), u)
  {
    var s' := Apply(s, t, a);
    assert s'.pc == s.pc[t := s'.pc[t]];
    TempRefsMove(s.pc, t, s'.pc[t], n);
    TempRefsMove(s.pc, u, Idle, n);
    assert Working(s.pc[u], n) ==> v.phase[n] == InHand(u);
  }

  lemma BystanderElsewhere(s: State, v: View, s': State, v': View, u: nat)
    requires Typed(s) && Typed(s') && |v.phase| == |s.next| == |s'.next| == |v'.phase| && u < |s.pc| == |s'.pc|
    requires ThreadInv(s, v, u) && s'.pc[u] == s.pc[u] && !s.pc[u].Idle? && !s.pc[u].GetLoad?
    requires Untouched(s, v, s', v', s.pc[u].n)
    ensures ThreadInv(s', v', u)
  {
  }

  lemma StepKeepsBystander(s: State, v: View, t: nat, a: Action, u: nat)
    requires Inv(s, v) && Enabled(s, t, a) && u < |s.pc| && u != t
    ensures ThreadInv(Apply(s, t, a), NextView(s, v, t, a), u)
  {
    var p := s.pc[u];
    if p.Idle? || p.GetLoad? {
      BystanderAtRest(s, v, t, a, u);
    } else if Names(s, t, a, p.n) {
      InvAround(s, v, t, p.n);
      InvAround(s, v, u, p.n);
      BystanderAtNamedNode(s, v, t, a, u, p.n);
    } else {
      OtherNodeKept(s, v, t, a, p.n);
      OthersStay(s, t, a, u);
      BystanderElsewhere(s, v, Apply(s, t, a), NextView(s, v, t, a), u);
    }
  }

  lemma OthersStay(s: State, t: nat, a: Action, u: nat)
    requires Typed(s) && Enabled(s, t, a) && u < |s.pc| && u != t
    ensures Apply(s, t, a).pc[u] == s.pc[u]
  {
  }

  lemma BystanderAtRest(s: State, v: View, t: nat, a: Action, u: nat)
    requires Typed(s) && Enabled(s, t, a) && |v.phase| == |s.next| && u < |s.pc| && u != t
    requires s.pc[u].Idle? || s.pc[u].GetLoad?
    ensures ThreadInv(Apply(s, t, a), NextView(s, v, t, a), u)
  {
    OthersStay(s, t, a, u);
  }

  lemma StepKeepsInv(s: State, v: View, t: nat, a: Action)
    requires Inv(s, v) && Enabled(s, t, a)
    ensures Inv(Apply(s, t, a), NextView(s, v, t, a))
  {
    StepKeepsChain(s, v, t, a);
    forall n | 0 <= n < |s.next| ensures NodeInv(Apply(s, t, a), NextView(s, v, t, a), n) {
      StepKeepsNode(s, v, t, a, n);
    }
    forall u | 0 <= u < |s.pc| ensures ThreadInv(Apply(s, t, a), NextView(s, v, t, a), u) {
      if u == t { StepKeepsMover(s, v, t, a); } else { StepKeepsBystander(s, v, t, a, u); }
    }
  }

  // ---------------------------------------------------------------------------
  // What every run guarantees, in the source's own terms
  // ---------------------------------------------------------------------------

  ghost predicate OnList(s: State, n: nat) {
    exists list :: Chain(s.head, s.next, list) && n in list
  }

  /** A node is owned, or on the list, or in one thread's hands: never two of these. */
  ghost predicate Exclusive(s: State, n: nat)
    requires n < |s.owner|
  {
    && (s.owner[n].Some? ==> !OnList(s, n))
    && (s.owner[n].Some? || OnList(s, n) ==> forall t :: 0 <= t < |s.pc| ==> !Working(s.pc[t], n))
    && (forall t, u :: 0 <= t < |s.pc| && 0 <= u < |s.pc| && Working(s.pc[t], n) && Working(s.pc[u], n) ==> t == u)
  }

  /** Some thread is about to put the node on the list, and its count is still zero. */
  ghost predicate BeingPrepared(s: State, n: nat) {
    exists t :: 0 <= t < |s.pc| && Working(s.pc[t], n) && Preparing(s.pc[t])
  }

  /** The list holds a reference: the node is linked, tentatively linked, or unlinked and not released. */
  ghost predicate ListHolds(s: State, n: nat) {
    OnList(s, n) || exists t :: 0 <= t < |s.pc| && Working(s.pc[t], n) && !s.pc[t].AddSet? && !Preparing(s.pc[t])
  }

  /** Nobody has the node, so somebody has to re-add it. */
  ghost predicate Orphan(s: State, n: nat)
    requires n < |s.owner|
  {
    s.owner[n].None? && !OnList(s, n) && forall t :: 0 <= t < |s.pc| ==> !Working(s.pc[t], n)
  }

  /** The two halves of the reference word. */
  ghost predicate CountExact(s: State, n: nat)
    requires n < |s.refs| == |s.owner|
  {
    && RefCount(s.refs[n]) == TempRefs(s.pc, n) + (if ListHolds(s, n) then 1 else 0)
    && (Flagged(s.refs[n]) <==> BeingPrepared(s, n) || Orphan(s, n))
    && (Orphan(s, n) ==> TempRefs(s.pc, n) > 0)
  }

  ghost predicate Safe(s: State) {
    && Typed(s)
    && (exists list :: Chain(s.head, s.next, list))
    && (forall n :: 0 <= n < |s.next| ==> Exclusive(s, n) && CountExact(s, n))
    // the assertion in try_get holds
    && (forall t :: 0 <= t < |s.pc| && s.pc[t].GetCheck? ==> !Flagged(s.refs[s.pc[t].n]))
    // the successor a thread is about to install is the node's successor now
    && (forall t :: 0 <= t < |s.pc| && s.pc[t].GetCas? ==> s.next[s.pc[t].n] == s.pc[t].next)
  }

  ghost predicate Quiet(s: State) { forall t :: 0 <= t < |s.pc| ==> s.pc[t].Idle? }

  lemma OnListIsInView(s: State, v: View, n: nat)
    requires Inv(s, v)
    ensures OnList(s, n) <==> n in v.list
  {
    forall list | Chain(s.head, s.next, list) ensures list == v.list {
      ChainUnique(s.head, s.next, list, v.list);
    }
  }

  lemma WorkingIsInHand(s: State, v: View, n: nat)
    requires Inv(s, v) && n < |s.next|
    ensures forall t :: 0 <= t < |s.pc| ==> (Working(s.pc[t], n) <==> v.phase[n] == InHand(t))
  {
    assert NodeInv(s, v, n);
    forall t | 0 <= t < |s.pc| ensures Working(s.pc[t], n) <==> v.phase[n] == InHand(t) {
      assert ThreadInv(s, v, t);
    }
  }

  lemma InvExclusive(s: State, v: View, n: nat)
    requires Inv(s, v) && n < |s.next|
    ensures Exclusive(s, n)
  {
    OnListIsInView(s, v, n);
    WorkingIsInHand(s, v, n);
    assert NodeInv(s, v, n);
  }

  lemma WordParts(w: nat, bit: nat, count: nat)
    requires w == bit + count && count < FLAG && (bit == 0 || bit == FLAG)
    ensures RefCount(w) == count && (Flagged(w) <==> bit == FLAG)
  {
  }

  lemma InvCountExact(s: State, v: View, n: nat)
    requires Inv(s, v) && n < |s.next|
    ensures CountExact(s, n)
  {
    OnListIsInView(s, v, n);
    WorkingIsInHand(s, v, n);
    TempRefsBound(s, n);
    assert NodeInv(s, v, n);
    WordParts(s.refs[n], Bit(s, v, n), ListRef(s, v, n) + TempRefs(s.pc, n));
    if v.phase[n].InHand? {
      assert Working(s.pc[v.phase[n].t], n);
    }
  }

  lemma InvIsSafe(s: State, v: View)
    requires Inv(s, v)
    ensures Safe(s)
    ensures Quiet(s) ==> forall n :: 0 <= n < |s.next| ==> (OnList(s, n) <==> s.owner[n].None?)
  {
    forall n | 0 <= n < |s.next| ensures Exclusive(s, n) && CountExact(s, n) {
      InvExclusive(s, v, n);
      InvCountExact(s, v, n);
    }
    forall t | 0 <= t < |s.pc|
      ensures s.pc[t].GetCheck? ==> !Flagged(s.refs[s.pc[t].n])
      ensures s.pc[t].GetCas? ==> s.next[s.pc[t].n] == s.pc[t].next
    {
      assert ThreadInv(s, v, t);
      if s.pc[t].GetCheck? {
        var n := s.pc[t].n;
        InvAround(s, v, t, n);
        assert Working(s.pc[t], n);
      }
    }
    if Quiet(s) {
      forall n | 0 <= n < |s.next| ensures OnList(s, n) <==> s.owner[n].None? {
        OnListIsInView(s, v, n);
        assert NodeInv(s, v, n);
        assert Holders(s.pc, n) == {};
      }
    }
  }

  lemma InitInv(s: State)
    requires Init(s) && |s.pc| + 1 < FLAG
    ensures Inv(s, View([], seq(|s.next|, i => Outside)))
  {
    forall n: nat ensures Holders(s.pc, n) == {} {
    }
  }

  /** How the list may change in one step of thread t. */
  ghost predicate ListStep(s: State, list: seq<nat>, s': State, list': seq<nat>) {
    || list' == list
    || (exists t: nat, n: nat :: t < |s.pc| && n < |s.owner| && s.pc[t].LinkCas? && s.pc[t].n == n
          && s.owner[n].None? && n !in list && list' == [n] + list)
    || (exists t: nat, n: nat :: t < |s'.pc| && n < |s.owner| && s'.pc[t] == GetCheck(n)
          && s.owner[n].None? && list == [n] + list')
  }

  /** A node changes hands only from its owner, or out of try_get when nobody owned it. */
  ghost predicate OwnerStep(s: State, s': State, n: nat)
    requires n < |s.owner| && n < |s'.owner|
  {
    || s'.owner[n] == s.owner[n]
    || (s.owner[n].Some? && s.owner[n].value < |s.pc| == |s'.pc| && s.pc[s.owner[n].value].Idle?
        && (s'.owner[n].None? ==> s'.pc[s.owner[n].value] == AddSet(n)))
    || (s.owner[n].None? && s'.owner[n].Some? && s'.owner[n].value < |s.pc| && s.pc[s'.owner[n].value] == GetDrop2(n))
  }

  ghost predicate OwnersStep(s: State, s': State) {
    |s'.owner| == |s.owner| && forall n :: 0 <= n < |s.owner| ==> OwnerStep(s, s', n)
  }

  ghost predicate StackStep(s: State, s': State) {
    exists list, list' :: Chain(s.head, s.next, list) && Chain(s'.head, s'.next, list') && ListStep(s, list, s', list')
  }

  lemma StepIsListStep(s: State, v: View, t: nat, a: Action)
    requires Inv(s, v) && Enabled(s, t, a)
    ensures ListStep(s, v.list, Apply(s, t, a), NextView(s, v, t, a).list)
  {
    assert ThreadInv(s, v, t);
    var p := s.pc[t];
    if a.Run? && (p.LinkCas? || p.GetCas?) {
      assert NodeInv(s, v, p.n);
      if p.LinkCas? && s.head == p.h {
        assert Working(p, p.n);
      } else if p.GetCas? && s.head == At(p.n) {
        PopChain(s.head, s.next, v.list);
        assert v.list == [p.n] + v.list[1..];
        assert Apply(s, t, a).pc[t] == GetCheck(p.n);
      }
    }
  }

  lemma StepIsOwnersStep(s: State, v: View, t: nat, a: Action)
    requires Inv(s, v) && Enabled(s, t, a)
    ensures OwnersStep(s, Apply(s, t, a))
  {
    assert ThreadInv(s, v, t);
    if a.Run? && s.pc[t].GetDrop2? {
      assert NodeInv(s, v, s.pc[t].n) && Working(s.pc[t], s.pc[t].n);
    }
  }

  /** One step of a run, with the witness of the invariant carried along. */
  ghost predicate ViewStep(s: State, v: View, s': State, v': View) {
    Inv(s, v) && Inv(s', v') && ListStep(s, v.list, s', v'.list) && OwnersStep(s, s')
  }

  lemma StepHasView(s: State, v: View, s': State) returns (v': View)
    requires Inv(s, v) && Step(s, s')
    ensures ViewStep(s, v, s', v')
  {
    var t: nat, a :| Enabled(s, t, a) && s' == Apply(s, t, a);
    v' := NextView(s, v, t, a);
    StepKeepsInv(s, v, t, a);
    StepIsListStep(s, v, t, a);
    StepIsOwnersStep(s, v, t, a);
  }

  ghost predicate ViewStepAt(trace: seq<State>, views: seq<View>, i: nat)
    requires i + 1 < |views| <= |trace|
  {
    ViewStep(trace[i], views[i], trace[i + 1], views[i + 1])
  }

  /** Witnesses for the run up to its n-th state. */
  lemma {:induction false} RunViews(trace: seq<State>, n: nat) returns (views: seq<View>)
    requires IsRun(trace) && |trace[0].pc| + 1 < FLAG && n < |trace|
    ensures |views| == n + 1 && Inv(trace[n], views[n])
    ensures forall i :: 0 <= i < n ==> ViewStepAt(trace, views, i)
  {
    if n == 0 {
      InitInv(trace[0]);
      views := [View([], seq(|trace[0].next|, i => Outside))];
    } else {
      var most := RunViews(trace, n - 1);
      assert StepAt(trace, n - 1);
      var v := StepHasView(trace[n - 1], most[n - 1], trace[n]);
      views := most + [v];
      forall i | 0 <= i < n ensures ViewStepAt(trace, views, i) {
        if i < n - 1 { assert ViewStepAt(trace, most, i); }
      }
    }
  }

  /**
    In every interleaving of every number of threads below 2^31 - 1: the list is intact, a node
    has one owner or is on the list or in one thread's hands, the word counts exactly the
    references there are, and the assertion in try_get never fails. When no operation is in
    progress the list holds exactly the nodes nobody owns.
  */
  lemma RunIsSafe(trace: seq<State>, i: nat)
    requires IsRun(trace) && |trace[0].pc| + 1 < FLAG && i < |trace|
    ensures Safe(trace[i])
    ensures Quiet(trace[i]) ==> forall n :: 0 <= n < |trace[i].next| ==>
      (OnList(trace[i], n) <==> trace[i].owner[n].None?)
  {
    var views := RunViews(trace, i);
    InvIsSafe(trace[i], views[i]);
  }

  /**
    Every step of every run pushes one node nobody has, pops the first node, or leaves the list
    alone, so no compare-and-swap on the head ever falls for a recycled pointer; and try_get
    hands out only a node that nobody owned.
  */
  lemma RunStepsAreStackSteps(trace: seq<State>, i: nat)
    requires IsRun(trace) && |trace[0].pc| + 1 < FLAG && i < |trace| - 1
    ensures StackStep(trace[i], trace[i + 1]) && OwnersStep(trace[i], trace[i + 1])
  {
    var views := RunViews(trace, i + 1);
    assert ViewStepAt(trace, views, i);
  }

  // ---------------------------------------------------------------------------
  // What a call does that nobody disturbs
  // ---------------------------------------------------------------------------

  /** Thread t performs action a and then `steps` more atomic operations. */
  function Many(s: State, t: nat, a: Action, steps: nat): (s': State)
    requires Typed(s) && Enabled(s, t, a)
    ensures Typed(s') && |s'.pc| == |s.pc|
    decreases steps
  {
    var s1 := Apply(s, t, a);
    if steps == 0 || s1.pc[t].Idle? then s1 else Many(s1, t, Run, steps - 1)
  }

  /** `add` alone: call, set the bit, load head, set next, set refs, swap head. */
  lemma AddAlone(s: State, t: nat, n: nat)
    requires Typed(s) && Enabled(s, t, Add(n)) && s.refs[n] == 0
    ensures Many(s, t, Add(n), 5) ==
      State(At(n), s.next[n := s.head], s.refs[n := 1], s.pc, s.owner[n := None])
  {
    var s1 := Apply(s, t, Add(n));
    var s2 := Apply(s1, t, Run);
    var s3 := Apply(s2, t, Run);
    var s4 := Apply(s3, t, Run);
    var s5 := Apply(s4, t, Run);
    var s6 := Apply(s5, t, Run);
    assert s2.pc[t] == LinkLoad(n, ToAdd) && s6.pc == s.pc;
    assert Many(s5, t, Run, 0) == s6;
    assert Many(s4, t, Run, 1) == s6;
    assert Many(s3, t, Run, 2) == s6;
    assert Many(s2, t, Run, 3) == s6;
    assert Many(s1, t, Run, 4) == s6;
  }

  lemma ManyGoesOn(s: State, t: nat, a: Action, steps: nat)
    requires Typed(s) && Enabled(s, t, a) && !Apply(s, t, a).pc[t].Idle?
    ensures Many(s, t, a, steps + 1) == Many(Apply(s, t, a), t, Run, steps)
  {
  }

  /** Thread t has taken the first node n off the list, given back k references to it, and returned. */
  function Taken(s: State, t: nat, n: nat, k: nat): State
    requires t < |s.pc| && n < |s.next| == |s.refs| == |s.owner| && k <= s.refs[n]
  {
    State(s.next[n], s.next, s.refs[n := s.refs[n] - k], s.pc[t := Idle], s.owner[n := Some(t)])
  }

  lemma TakenAnyway(s: State, t: nat, n: nat, p: Pc)
    requires t < |s.pc| && n < |s.next| == |s.refs| == |s.owner| && 1 <= s.refs[n]
    ensures Taken(s.(pc := s.pc[t := p]), t, n, 1) == Taken(s, t, n, 1)
    ensures Taken(s.(pc := s.pc[t := p], refs := s.refs[n := s.refs[n] + 1]), t, n, 2) == Taken(s, t, n, 1)
  {
    assert s.pc[t := p][t := Idle] == s.pc[t := Idle];
  }

  /** The end of `try_get` alone: check, lower refs. */
  lemma GetAloneReturns(s: State, t: nat, n: nat, steps: nat)
    requires Typed(s) && t < |s.pc| && s.pc[t] == GetCheck(n) && 2 <= s.refs[n] < FLAG
    ensures Many(s, t, Run, steps + 1) ==
      s.(refs := s.refs[n := s.refs[n] - 2], pc := s.pc[t := Idle], owner := s.owner[n := Some(t)])
  {
    var s1 := Apply(s, t, Run);
    var s2 := Apply(s1, t, Run);
    assert s2.pc == s.pc[t := Idle];
    ManyGoesOn(s, t, Run, steps);
    assert Many(s1, t, Run, steps) == s2;
  }

  /** Before that it loads next and swaps the head. */
  lemma GetAloneTakes(s: State, t: nat, n: nat, steps: nat)
    requires Typed(s) && t < |s.pc| && s.pc[t] == GetNext(n) && s.head == At(n) && 2 <= s.refs[n] < FLAG
    ensures Many(s, t, Run, steps + 3) == Taken(s, t, n, 2)
  {
    var s1 := Apply(s, t, Run);
    var s2 := Apply(s1, t, Run);
    assert s2 == s.(head := s.next[n], pc := s.pc[t := GetCheck(n)]);
    GetAloneReturns(s2, t, n, steps);
    ManyGoesOn(s1, t, Run, steps + 1);
    ManyGoesOn(s, t, Run, steps + 2);
    assert s2.pc[t := Idle] == s.pc[t := Idle];
  }

  /** Before that it raises refs. */
  lemma GetAloneRefs(s: State, t: nat, n: nat, steps: nat)
    requires Typed(s) && t < |s.pc| && s.head == At(n) && 0 < s.refs[n] < FLAG - 1 && s.pc[t] == GetRef(n, s.refs[n])
    ensures Many(s, t, Run, steps + 4) == Taken(s, t, n, 1)
  {
    var s1 := Apply(s, t, Run);
    assert s1 == s.(pc := s.pc[t := GetNext(n)], refs := s.refs[n := s.refs[n] + 1]);
    ManyGoesOn(s, t, Run, steps + 3);
    GetAloneTakes(s1, t, n, steps);
    TakenAnyway(s, t, n, GetNext(n));
  }

  /** Before that it is called and loads head and refs; so it takes the first node, given the steps it needs. */
  lemma GetAlone(s: State, t: nat, n: nat, steps: nat)
    requires Typed(s) && Enabled(s, t, TryGet) && s.head == At(n) && 0 < s.refs[n] < FLAG - 1
    ensures Many(s, t, TryGet, steps + 7) == Taken(s, t, n, 1)
  {
    var s1 := Apply(s, t, TryGet);
    var s2 := Apply(s1, t, Run);
    var s3 := Apply(s2, t, Run);
    assert s3 == s.(pc := s.pc[t := GetRef(n, s.refs[n])]);
    ManyGoesOn(s2, t, Run, steps + 4);
    ManyGoesOn(s1, t, Run, steps + 5);
    ManyGoesOn(s, t, TryGet, steps + 6);
    GetAloneRefs(s3, t, n, steps);
    TakenAnyway(s, t, n, GetRef(n, s.refs[n]));
  }

  /**
    In every run, when no operation is in progress: an `add` of an owned node puts it in front of
    the list, and a `try_get` of any thread, right after it and given the seven steps it needs or
    more, hands out that very node and leaves the list as it was.
  */
  lemma RunGetUndoesAdd(trace: seq<State>, i: nat, t: nat, n: nat, u: nat, steps: nat)
    requires IsRun(trace) && |trace[0].pc| + 1 < FLAG && i < |trace| && Quiet(trace[i])
    requires t < |trace[i].pc| && n < |trace[i].owner| && trace[i].owner[n] == Some(t) && u < |trace[i].pc|
    ensures Typed(trace[i])
    ensures var s := trace[i]; var added := Many(s, t, Add(n), 5); var gotten := Many(added, u, TryGet, steps + 7);
      && Quiet(added) && added.head == At(n) && added.next[n] == s.head && added.owner[n].None?
      && Quiet(gotten) && gotten.head == s.head && gotten.refs == s.refs && gotten.owner == s.owner[n := Some(u)]
  {
    var s := trace[i];
    RunIsSafe(trace, i);
    var views := RunViews(trace, i);
    OwnedIsUnreferenced(s, views[i], n);
    AddAlone(s, t, n);
    GetAlone(Many(s, t, Add(n), 5), u, n, steps);
  }

  lemma OwnedIsUnreferenced(s: State, v: View, n: nat)
    requires Inv(s, v) && Quiet(s) && n < |s.owner| && s.owner[n].Some?
    ensures s.refs[n] == 0
  {
    assert NodeInv(s, v, n);
    assert Holders(s.pc, n) == {};
  }

  /** `add` alone, while others hold a reference: it leaves the node to the last of them. */
  lemma AddDefers(s: State, t: nat, n: nat)
    requires Typed(s) && Enabled(s, t, Add(n)) && 0 < s.refs[n] < FLAG
    ensures Many(s, t, Add(n), 5) == s.(refs := s.refs[n := s.refs[n] + FLAG], owner := s.owner[n := None])
  {
    var s1 := Apply(s, t, Add(n));
    var s2 := Apply(s1, t, Run);
    assert s2.pc == s.pc;
    assert Many(s1, t, Run, 4) == s2;
  }

  /**
    In every run, whatever the other threads are doing: an undisturbed `add` puts the node in front
    of the list if and only if nobody holds a reference to it from an earlier `try_get`; otherwise
    it returns with the list as it was and the node nobody's.
  */
  lemma RunAddLinksIff(trace: seq<State>, i: nat, t: nat, n: nat)
    requires IsRun(trace) && |trace[0].pc| + 1 < FLAG && i < |trace|
    requires t < |trace[i].pc| && trace[i].pc[t].Idle? && n < |trace[i].owner| && trace[i].owner[n] == Some(t)
    ensures Typed(trace[i])
    ensures var s := trace[i]; var added := Many(s, t, Add(n), 5);
      && added.pc == s.pc && added.owner == s.owner[n := None]
      && (if TempRefs(s.pc, n) == 0 then added.head == At(n) && added.next == s.next[n := s.head]
          else added.head == s.head && added.next == s.next && Orphan(added, n))
  {
    var s := trace[i];
    var views := RunViews(trace, i);
    assert NodeInv(s, views[i], n);
    TempRefsBound(s, n);
    if TempRefs(s.pc, n) == 0 {
      AddAlone(s, t, n);
    } else {
      AddDefers(s, t, n);
      OnListIsInView(s, views[i], n);
      WorkingIsInHand(s, views[i], n);
    }
  }

  // ---------------------------------------------------------------------------
  // What a null from try_get means
  // ---------------------------------------------------------------------------

  /** Inside `try_get`, a re-add on the way included. */
  predicate Getting(p: Pc) {
    if Linking(p) then p.back.ToGet? else !p.Idle? && !p.AddSet?
  }

  /** Inside `try_get`, with null as its local head. */
  predicate SawNull(p: Pc) {
    if Linking(p) then p.back == ToGet(Null) else p.GetDrop? && p.head == Null
  }

  /** A local null, and a null returned, was read off the list just now or is an older one. */
  predicate NullIsRead(p: Pc, p': Pc, head: Ptr) {
    && (SawNull(p') ==> SawNull(p) || head == Null)
    && (Getting(p) && !p'.Idle? ==> Getting(p'))
    && (Getting(p) && p'.Idle? && !p.GetDrop2? ==> SawNull(p) || head == Null)
  }

  lemma AddSeesNull(s: State, t: nat)
    requires Typed(s) && t < |s.pc| && (s.pc[t].AddSet? || Linking(s.pc[t]))
    ensures NullIsRead(s.pc[t], AdvanceAdd(s, t).pc[t], s.head)
  {
  }

  lemma GetSeesNull(s: State, t: nat)
    requires Typed(s) && t < |s.pc| && !s.pc[t].Idle? && !s.pc[t].AddSet? && !Linking(s.pc[t])
    ensures NullIsRead(s.pc[t], AdvanceGet(s, t).pc[t], s.head)
  {
  }

  lemma StepSeesNull(s: State, s': State, t: nat)
    requires Step(s, s') && t < |s.pc|
    ensures t < |s'.pc| && NullIsRead(s.pc[t], s'.pc[t], s.head)
  {
    var u: nat, a :| Enabled(s, u, a) && s' == Apply(s, u, a);
    if u != t {
      OthersStay(s, u, a, t);
    } else if a.Run? {
      if s.pc[t].AddSet? || Linking(s.pc[t]) { AddSeesNull(s, t); } else { GetSeesNull(s, t); }
    }
  }

  /** The list was empty at some instant from i on, up to j. */
  ghost predicate EmptyBetween(trace: seq<State>, i: nat, j: nat)
    requires j < |trace|
  {
    exists k :: i <= k <= j && trace[k].head == Null
  }

  /** Thread t is inside one call from instant i to instant j, and that call is `try_get`. */
  ghost predicate IsGetCall(trace: seq<State>, t: nat, i: nat, j: nat) {
    && i <= j < |trace| && t < |trace[i].pc| && trace[i].pc[t] == GetLoad
    && (forall k :: i <= k <= j ==> t < |trace[k].pc| && !trace[k].pc[t].Idle?)
  }

  lemma {:induction false} CallSeesNull(trace: seq<State>, t: nat, i: nat, j: nat)
    requires IsRun(trace) && IsGetCall(trace, t, i, j)
    ensures Getting(trace[j].pc[t])
    ensures SawNull(trace[j].pc[t]) ==> EmptyBetween(trace, i, j)
  {
    if j > i {
      CallSeesNull(trace, t, i, j - 1);
      assert StepAt(trace, j - 1);
      StepSeesNull(trace[j - 1], trace[j], t);
      if SawNull(trace[j].pc[t]) && !SawNull(trace[j - 1].pc[t]) { assert trace[j - 1].head == Null; }
    }
  }

  /** The step from s to s' makes no node thread t's. */
  ghost predicate HandsNothing(s: State, s': State, t: nat) {
    forall n :: 0 <= n < |s.owner| && n < |s'.owner| && s'.owner[n] == Some(t) ==> s.owner[n] == Some(t)
  }

  lemma ReturnHandsNode(s: State, v: View, s': State, t: nat)
    requires Inv(s, v) && Step(s, s') && t < |s.pc| && s.pc[t].GetDrop2? && s'.pc[t].Idle?
    ensures !HandsNothing(s, s', t)
  {
    var n := s.pc[t].n;
    assert Working(s.pc[t], n);
    InvAround(s, v, t, n);
    var u: nat, a :| Enabled(s, u, a) && s' == Apply(s, u, a);
    if u != t { OthersStay(s, u, a, t); }
  }

  /**
    In every run: a `try_get` that loads the head first at instant i and returns right after instant
    j without a node met an empty list at some instant in between. That it returns without a node is
    said by the owners or, which does for any number of threads, by the step it returns with.
  */
  lemma RunNullMeansEmpty(trace: seq<State>, t: nat, i: nat, j: nat)
    requires IsRun(trace) && IsGetCall(trace, t, i, j) && j + 1 < |trace|
    requires t < |trace[j + 1].pc| && trace[j + 1].pc[t].Idle?
    ensures |trace[0].pc| + 1 < FLAG && HandsNothing(trace[j], trace[j + 1], t) ==> EmptyBetween(trace, i, j)
    ensures !trace[j].pc[t].GetDrop2? ==> EmptyBetween(trace, i, j)
  {
    assert StepAt(trace, j);
    CallSeesNull(trace, t, i, j);
    StepSeesNull(trace[j], trace[j + 1], t);
    if |trace[0].pc| + 1 < FLAG && trace[j].pc[t].GetDrop2? {
      var views := RunViews(trace, j);
      ReturnHandsNode(trace[j], views[j], trace[j + 1], t);
    }
  }

  // ---------------------------------------------------------------------------
  // A thread that nobody disturbs returns
  // ---------------------------------------------------------------------------

  /** No call needs more steps than this, from wherever it is. */
  const MAX_RANK: nat := 19

  /** How many steps thread t is away from its return, if it is left alone. */
  function Rank(s: State, p: Pc): (r: nat)
    requires Typed(s) && PcOk(s, p)
    ensures r <= MAX_RANK && (r == 0 <==> p.Idle?)
  {
    match p
    case Idle => 0
    case AddSet(_) => 16
    case LinkLoad(_, _) => 15
    case LinkNext(_, h, _) => if h == s.head then 14 else 18
    case LinkRefs(_, h, _) => if h == s.head then 13 else 17
    case LinkCas(_, h, _) => if h == s.head then 12 else 16
    case LinkUndo(_, h, _) => if h == s.head then 15 else 19
    case GetLoad => 7
    case GetRefs(n) => if s.head == At(n) then 6 else 11
    case GetRef(n, r) =>
      if s.refs[n] != r then 8 else if s.head == At(n) then 5 else if FetchAdd(r, 1) == FLAG + 1 then 19 else 10
    case GetNext(n) => if s.head == At(n) then 4 else if s.refs[n] == FLAG + 1 then 18 else 9
    case GetCas(n, _) => if s.head == At(n) then 3 else if s.refs[n] == FLAG + 1 then 17 else 8
    case GetCheck(_) => 2
    case GetDrop2(_) => 1
    case GetDrop(n, h) => if s.refs[n] == FLAG + 1 then 16 else if h == s.head then 7 else 12
  }

  lemma AddAloneAdvances(s: State, t: nat)
    requires Typed(s) && t < |s.pc| && (s.pc[t].AddSet? || Linking(s.pc[t]))
    ensures Rank(AdvanceAdd(s, t), AdvanceAdd(s, t).pc[t]) < Rank(s, s.pc[t])
  {
  }

  lemma RaisedTwice(w: nat)
    ensures RefCount(w) != 0 ==> FetchAdd(w, 1) != FLAG + 1
  {
    if FetchAdd(w, 1) == FLAG + 1 {
      var q := (w + 1) / WORD;
      assert w == (2 * q + 1) * FLAG;
    }
  }

  lemma GetAloneAdvances(s: State, t: nat)
    requires Typed(s) && t < |s.pc| && !s.pc[t].Idle? && !s.pc[t].AddSet? && !Linking(s.pc[t])
    requires s.head.At? ==> RefCount(s.refs[s.head.node]) > 0
    ensures Rank(AdvanceGet(s, t), AdvanceGet(s, t).pc[t]) < Rank(s, s.pc[t])
  {
    if s.pc[t].GetRefs? { RaisedTwice(s.refs[s.pc[t].n]); }
  }

  lemma HeadIsReferenced(s: State, v: View)
    requires Inv(s, v) && s.head.At?
    ensures RefCount(s.refs[s.head.node]) > 0
  {
    var n := s.head.node;
    InvCountExact(s, v, n);
    PopChain(s.head, s.next, v.list);
    OnListIsInView(s, v, n);
  }

  lemma AloneAdvances(s: State, v: View, t: nat) returns (s1: State, v1: View)
    requires Inv(s, v) && t < |s.pc| && !s.pc[t].Idle?
    ensures s1 == Apply(s, t, Run) && Inv(s1, v1) && |s1.pc| == |s.pc|
    ensures Rank(s1, s1.pc[t]) < Rank(s, s.pc[t])
  {
    s1, v1 := Apply(s, t, Run), NextView(s, v, t, Run);
    StepKeepsInv(s, v, t, Run);
    if s.head.At? { HeadIsReferenced(s, v); }
    if s.pc[t].AddSet? || Linking(s.pc[t]) { AddAloneAdvances(s, t); } else { GetAloneAdvances(s, t); }
  }

  lemma ManyStops(s: State, t: nat, a: Action, steps: nat)
    requires Typed(s) && Enabled(s, t, a) && Apply(s, t, a).pc[t].Idle?
    ensures Many(s, t, a, steps) == Apply(s, t, a)
  {
  }

  lemma {:induction false} ReturnsAlone(s: State, v: View, t: nat, steps: nat)
    requires Inv(s, v) && t < |s.pc| && !s.pc[t].Idle? && Rank(s, s.pc[t]) <= steps + 1
    ensures Many(s, t, Run, steps).pc[t].Idle?
    decreases steps
  {
    var s1, v1 := AloneAdvances(s, v, t);
    if s1.pc[t].Idle? {
      ManyStops(s, t, Run, steps);
    } else {
      ManyGoesOn(s, t, Run, steps - 1);
      ReturnsAlone(s1, v1, t, steps - 1);
    }
  }

  /** From every state of every run, a thread that is inside a call and left alone returns within 19 steps. */
  lemma RunReturnsAlone(trace: seq<State>, i: nat, t: nat, steps: nat)
    requires IsRun(trace) && |trace[0].pc| + 1 < FLAG && i < |trace|
    requires t < |trace[i].pc| && !trace[i].pc[t].Idle? && steps + 1 >= MAX_RANK
    ensures Typed(trace[i]) && Many(trace[i], t, Run, steps).pc[t].Idle?
  {
    var views := RunViews(trace, i);
    ReturnsAlone(trace[i], views[i], t, steps);
  }

  // ---------------------------------------------------------------------------
  // The bound on the number of threads cannot be relaxed
  // ---------------------------------------------------------------------------

  lemma LongerRun(trace: seq<State>, s: State)
    requires IsRun(trace) && Step(trace[|trace| - 1], s)
    ensures IsRun(trace + [s])
  {
    var longer := trace + [s];
    forall i | 0 <= i < |longer| - 1 ensures StepAt(longer, i) {
      if i < |trace| - 1 { assert StepAt(trace, i); }
    }
  }

  lemma ActRun(trace: seq<State>, t: nat, a: Action) returns (longer: seq<State>, s1: State)
    requires IsRun(trace) && Typed(trace[|trace| - 1]) && Enabled(trace[|trace| - 1], t, a)
    ensures s1 == Apply(trace[|trace| - 1], t, a) && IsRun(longer)
    ensures |longer| > 0 && longer[0] == trace[0] && longer[|longer| - 1] == s1
  {
    var s := trace[|trace| - 1];
    s1 := Apply(s, t, a);
    assert Step(s, s1);
    LongerRun(trace, s1);
    longer := trace + [s1];
  }

  lemma {:induction false} ExtendRun(trace: seq<State>, t: nat, a: Action, steps: nat) returns (longer: seq<State>)
    requires IsRun(trace) && Typed(trace[|trace| - 1]) && Enabled(trace[|trace| - 1], t, a)
    ensures IsRun(longer) && longer[0] == trace[0]
    ensures longer[|longer| - 1] == Many(trace[|trace| - 1], t, a, steps)
    decreases steps
  {
    var s1;
    longer, s1 := ActRun(trace, t, a);
    if steps != 0 && !s1.pc[t].Idle? {
      longer := ExtendRun(longer, t, Run, steps - 1);
    }
  }

  /** One linked node; the first k threads hold a temporary reference to it. */
  function Crowd(threads: nat, k: nat): State {
    State(At(0), [Null], [1 + k], seq(threads, i => if i < k then GetNext(0) else Idle), [None])
  }

  /** Thread k takes its reference: call, load head, load refs, raise refs. */
  lemma CrowdGrows(threads: nat, k: nat)
    requires k < threads && 2 + k <= FLAG
    ensures Enabled(Crowd(threads, k), k, TryGet)
    ensures Many(Crowd(threads, k), k, TryGet, 3) == Crowd(threads, k + 1)
  {
    var s0 := Crowd(threads, k);
    var s1 := Apply(s0, k, TryGet);
    var s2 := Apply(s1, k, Run);
    var s3 := Apply(s2, k, Run);
    var s4 := Apply(s3, k, Run);
    assert s2.pc[k] == GetRefs(0) && s3.pc[k] == GetRef(0, 1 + k);
    assert s4.pc == Crowd(threads, k + 1).pc;
    assert Many(s3, k, Run, 0) == s4;
    assert Many(s2, k, Run, 1) == s4;
    assert Many(s1, k, Run, 2) == s4;
  }

  function Lone(threads: nat): State { State(Null, [Null], [0], seq(threads, i => Idle), [Some(0)]) }

  lemma LoneRun(threads: nat) returns (trace: seq<State>)
    requires 0 < threads
    ensures IsRun(trace) && |trace[0].pc| == threads && trace[|trace| - 1] == Crowd(threads, 0)
  {
    AddAlone(Lone(threads), 0, 0);
    assert Lone(threads).pc == Crowd(threads, 0).pc;
    trace := ExtendRun([Lone(threads)], 0, Add(0), 5);
  }

  lemma {:induction false} CrowdRun(threads: nat, k: nat) returns (trace: seq<State>)
    requires 0 < threads && k <= threads && 1 + k <= FLAG
    ensures IsRun(trace) && |trace[0].pc| == threads && trace[|trace| - 1] == Crowd(threads, k)
  {
    if k == 0 {
      trace := LoneRun(threads);
    } else {
      trace := CrowdRun(threads, k - 1);
      CrowdGrows(threads, k - 1);
      trace := ExtendRun(trace, k - 1, TryGet, 3);
    }
  }

  /** One node, which thread 1 owns while thread 0 still holds a reference to it. */
  const LINGERING := State(Null, [Null], [1], [GetNext(0), Idle], [Some(1)])

  lemma LingeringRun(steps: nat) returns (trace: seq<State>)
    ensures IsRun(trace) && |trace[0].pc| == 2 && trace[|trace| - 1] == LINGERING
  {
    trace := CrowdRun(2, 1);
    var s := Crowd(2, 1);
    assert s.pc == [GetNext(0), Idle];
    GetAlone(s, 1, 0, steps);
    trace := ExtendRun(trace, 1, TryGet, steps + 7);
  }

  /**
    The list is no linearizable bag: from the end of this run thread 1 adds the only node, and its
    own next `try_get` returns null although nobody else has called anything since.
  */
  lemma GetMissesOwnAdd() returns (trace: seq<State>, added: State)
    ensures IsRun(trace) && |trace[0].pc| == 2 && trace[|trace| - 1] == LINGERING
    ensures Typed(LINGERING) && added == Many(LINGERING, 1, Add(0), 5) && added.pc[1].Idle? && Orphan(added, 0)
    ensures Typed(added) && Many(added, 1, TryGet, 1) == added
  {
    trace := LingeringRun(0);
    AddDefers(LINGERING, 1, 0);
    added := Many(LINGERING, 1, Add(0), 5);
    RunAddLinksIff(trace, |trace| - 1, 1, 0);
    assert TempRefs(LINGERING.pc, 0) != 0 by { assert 0 in Holders(LINGERING.pc, 0); }
    var s1 := Apply(added, 1, TryGet);
    assert Apply(s1, 1, Run).pc == added.pc;
  }

  ghost predicate AssertionFails(s: State) {
    Typed(s) && exists t :: 0 <= t < |s.pc| && s.pc[t].GetCheck? && Flagged(s.refs[s.pc[t].n])
  }

  ghost predicate CanFail(threads: nat) {
    exists trace: seq<State> :: IsRun(trace) && |trace[0].pc| == threads && AssertionFails(trace[|trace| - 1])
  }

  /** With 2^31 - 1 references the count is in the bit, and the first thread takes the node. */
  lemma CrowdFails(threads: nat)
    requires threads + 1 >= FLAG
    ensures var s0 := Crowd(threads, FLAG - 1);
      Typed(s0) && Enabled(s0, 0, Run) && AssertionFails(Many(s0, 0, Run, 1))
  {
    var s0 := Crowd(threads, FLAG - 1);
    var s1 := Apply(s0, 0, Run);
    var s2 := Apply(s1, 0, Run);
    assert Many(s1, 0, Run, 0) == s2;
    assert s2.pc[0] == GetCheck(0);
  }

  /**
    The assertion in try_get can fail exactly when there are 2^31 - 1 threads or more: then the
    reference count can run into the bit.
  */
  lemma ThreadBoundIsExact(threads: nat)
    ensures CanFail(threads) <==> threads + 1 >= FLAG
  {
    if threads + 1 >= FLAG {
      var trace := CrowdRun(threads, FLAG - 1);
      CrowdFails(threads);
      trace := ExtendRun(trace, 0, Run, 1);
    } else if CanFail(threads) {
      var trace: seq<State> :| IsRun(trace) && |trace[0].pc| == threads && AssertionFails(trace[|trace| - 1]);
      RunIsSafe(trace, |trace| - 1);
    }
  }
}
