/**
  The double-word compare-and-swap free list of base/lockfree/freelist_dcas.hpp: a stack whose
  head carries a tag that grows with every change. Any number of threads, one transition per
  atomic operation, sequentially consistent memory, weak compare-and-swap that may fail for no
  reason, and a tag that does not wrap around.
*/
module TaggedList {
  import opened NodeChain
  import opened Wrappers

  datatype Head = Head(ptr: Ptr, tag: nat)

  datatype Pc =
    | Idle
    | AddLoad(n: nat)                 // load head
    | AddNext(n: nat, cur: Head)      // node->next = cur.ptr
    | AddCas(n: nat, cur: Head)       // CAS head cur -> (node, cur.tag + 1)
    | AddDone                         // return
    | GetLoad                         // load head
    | GetNext(cur: Head)              // load cur.ptr->next
    | GetCas(cur: Head, next: Ptr)    // CAS head cur -> (next, cur.tag + 1)
    | GetDone(res: Ptr)               // return res

  /** `owner` is history: the thread a node outside the list belongs to. */
  datatype State = State(head: Head, next: seq<Ptr>, pc: seq<Pc>, owner: seq<Option<nat>>)

  /** Calls of an idle thread, or the pending step; a pending compare-and-swap may fail spuriously. */
  datatype Action = Add(n: nat) | TryGet | Run(spurious: bool)

  predicate PtrOk(s: State, p: Ptr) { p.At? ==> p.node < |s.next| }

  predicate PcOk(s: State, p: Pc) {
    match p
    case AddLoad(n) => n < |s.next|
    case AddNext(n, cur) => n < |s.next| && PtrOk(s, cur.ptr)
    case AddCas(n, cur) => n < |s.next| && PtrOk(s, cur.ptr)
    case GetNext(cur) => cur.ptr.At? && PtrOk(s, cur.ptr)
    case GetCas(cur, x) => cur.ptr.At? && PtrOk(s, cur.ptr) && PtrOk(s, x)
    case GetDone(res) => PtrOk(s, res)
    case _ => true
  }

  predicate Typed(s: State) {
    && |s.owner| == |s.next|
    && PtrOk(s, s.head.ptr)
    && (forall i :: 0 <= i < |s.next| ==> PtrOk(s, s.next[i]))
    && (forall t :: 0 <= t < |s.pc| ==> PcOk(s, s.pc[t]))
  }

  predicate Enabled(s: State, t: nat, a: Action) {
    t < |s.pc| &&
    match a
    case Add(n) => s.pc[t].Idle? && n < |s.owner| && s.owner[n] == Some(t)
    case TryGet => s.pc[t].Idle?
    case Run(_) => !s.pc[t].Idle?
  }

  /** The head of the `try_get` loop. */
  function Loop(cur: Head): Pc { if cur.ptr.Null? then GetDone(Null) else GetNext(cur) }

  /** Thread t goes on at p. */
  function Goto(s: State, t: nat, p: Pc): (s': State)
    requires Typed(s) && t < |s.pc| && PcOk(s, p)
    ensures Typed(s') && |s'.pc| == |s.pc| && |s'.next| == |s.next|
  {
    s.(pc := s.pc[t := p])
  }

  function Apply(s: State, t: nat, a: Action): (s': State)
    requires Typed(s) && Enabled(s, t, a)
    ensures Typed(s') && |s'.pc| == |s.pc| && |s'.next| == |s.next|
  {
    match a
    case Add(n) => Goto(s.(owner := s.owner[n := None]), t, AddLoad(n))
    case TryGet => Goto(s, t, GetLoad)
    case Run(spurious) =>
      match s.pc[t]
      case AddLoad(n) => Goto(s, t, AddNext(n, s.head))
      case AddNext(n, cur) => Goto(s.(next := s.next[n := cur.ptr]), t, AddCas(n, cur))
      case AddCas(n, cur) =>
        if s.head == cur && !spurious then Goto(s.(head := Head(At(n), cur.tag + 1)), t, AddDone)
        else Goto(s, t, AddNext(n, s.head))
      case AddDone => Goto(s, t, Idle)
      case GetLoad => Goto(s, t, Loop(s.head))
      case GetNext(cur) => Goto(s, t, GetCas(cur, s.next[cur.ptr.node]))
      case GetCas(cur, x) =>
        if s.head == cur && !spurious then Goto(s.(head := Head(x, cur.tag + 1)), t, GetDone(cur.ptr))
        else Goto(s, t, Loop(s.head))
      case GetDone(res) => Goto(s.(owner := if res.At? then s.owner[res.node := Some(t)] else s.owner), t, Idle)
  }

  predicate Init(s: State) {
    && |s.owner| == |s.next|
    && s.head == Head(Null, 0)
    && (forall n :: 0 <= n < |s.next| ==> s.next[n] == Null)
    && (forall n :: 0 <= n < |s.owner| ==> s.owner[n].Some? && s.owner[n].value < |s.pc|)
    && (forall t :: 0 <= t < |s.pc| ==> s.pc[t] == Idle)
  }

  ghost predicate Step(s: State, s': State) {
    Typed(s) && exists t: nat, a :: Enabled(s, t, a) && s' == Apply(s, t, a)
  }

  ghost predicate IsRun(trace: seq<State>) {
    |trace| > 0 && Init(trace[0]) && forall i :: 0 <= i < |trace| - 1 ==> StepAt(trace, i)
  }

  ghost predicate StepAt(trace: seq<State>, i: nat)
    requires i < |trace| - 1
  {
    Step(trace[i], trace[i + 1])
  }

  // ---------------------------------------------------------------------------
  // The specification: an atomic stack
  // ---------------------------------------------------------------------------

  /** A call is pending, then takes effect at one instant, then returns. */
  datatype Call = NoCall | Pushing(n: nat) | Pushed | Popping | Popped(res: Ptr)

  datatype Atomic = Atomic(stack: seq<nat>, calls: seq<Call>)

  /** The transitions of the atomic stack; the last two are the instants where calls take effect. */
  ghost predicate AtomicStep(a: Atomic, a': Atomic) {
    |a'.calls| == |a.calls| && exists t: nat :: t < |a.calls| && AtomicStepOf(a, a', t)
  }

  ghost predicate AtomicStepOf(a: Atomic, a': Atomic, t: nat)
    requires t < |a.calls| == |a'.calls|
  {
    && a'.calls == a.calls[t := a'.calls[t]]
    && match a.calls[t]
       case NoCall => a'.stack == a.stack && (a'.calls[t].Pushing? || a'.calls[t].Popping?)
       case Pushed => a'.stack == a.stack && a'.calls[t] == NoCall
       case Popped(_) => a'.stack == a.stack && a'.calls[t] == NoCall
       case Pushing(n) => a'.stack == [n] + a.stack && a'.calls[t] == Pushed
       case Popping =>
         if a.stack == [] then a'.stack == [] && a'.calls[t] == Popped(Null)
         else a'.stack == a.stack[1..] && a'.calls[t] == Popped(At(a.stack[0]))
  }

  /** What the atomic stack knows of a call in progress. */
  function CallOf(p: Pc): Call {
    match p
    case Idle => NoCall
    case AddLoad(n) => Pushing(n)
    case AddNext(n, _) => Pushing(n)
    case AddCas(n, _) => Pushing(n)
    case AddDone => Pushed
    case GetDone(res) => Popped(res)
    case _ => Popping
  }

  function View(s: State, list: seq<nat>): Atomic {
    Atomic(list, seq(|s.pc|, t requires 0 <= t < |s.pc| => CallOf(s.pc[t])))
  }

  // ---------------------------------------------------------------------------
  // The invariant
  // ---------------------------------------------------------------------------

  /** The thread has the node in its hands: it is adding it or has just taken it. */
  predicate Working(p: Pc, n: nat) {
    ((p.AddLoad? || p.AddNext? || p.AddCas?) && p.n == n) || p == GetDone(At(n))
  }

  /** A node is owned, or on the list, or in the hands of one thread. */
  ghost predicate NodeInv(s: State, list: seq<nat>, n: nat)
    requires n < |s.owner|
  {
    && (s.owner[n].Some? ==> n !in list)
    && (s.owner[n].Some? || n in list ==> forall t :: 0 <= t < |s.pc| ==> !Working(s.pc[t], n))
    && (forall t, u :: 0 <= t < u < |s.pc| ==> !(Working(s.pc[t], n) && Working(s.pc[u], n)))
    && (s.owner[n].None? && n !in list ==> exists t :: 0 <= t < |s.pc| && Working(s.pc[t], n))
  }

  /** A snapshot with the current tag is the current head, and its successor is still right. */
  ghost predicate ThreadInv(s: State, p: Pc)
    requires Typed(s) && PcOk(s, p)
  {
    && (p.AddNext? || p.AddCas? || p.GetNext? || p.GetCas? ==>
          p.cur.tag <= s.head.tag && (p.cur.tag == s.head.tag ==> p.cur == s.head))
    && (p.GetCas? && p.cur.tag == s.head.tag ==> s.next[p.cur.ptr.node] == p.next)
    && (p.AddCas? ==> s.next[p.n] == p.cur.ptr)
  }

  ghost predicate Inv(s: State, list: seq<nat>) {
    && Typed(s)
    && Chain(s.head.ptr, s.next, list)
    && (forall n :: 0 <= n < |s.owner| ==> NodeInv(s, list, n))
    && (forall t :: 0 <= t < |s.pc| ==> ThreadInv(s, s.pc[t]))
  }

  function NextList(s: State, list: seq<nat>, t: nat, a: Action): seq<nat>
    requires Enabled(s, t, a)
  {
    if !a.Run? || a.spurious then list
    else if s.pc[t].AddCas? && s.head == s.pc[t].cur then [s.pc[t].n] + list
    else if s.pc[t].GetCas? && s.head == s.pc[t].cur && list != [] then list[1..]
    else list
  }

  lemma StepKeepsChain(s: State, list: seq<nat>, t: nat, a: Action)
    requires Inv(s, list) && Enabled(s, t, a)
    ensures var s' := Apply(s, t, a); Chain(s'.head.ptr, s'.next, NextList(s, list, t, a))
  {
    var p := s.pc[t];
    assert ThreadInv(s, p);
    if a.Run? {
      if p.AddNext? {
        assert Working(p, p.n) && NodeInv(s, list, p.n);
        RelinkOutside(s.head.ptr, s.next, list, p.n, p.cur.ptr);
      } else if p.AddCas? {
        assert Working(p, p.n) && NodeInv(s, list, p.n);
        if s.head == p.cur { PushChain(s.head.ptr, s.next, list, p.n); }
      } else if p.GetCas? && s.head == p.cur {
        PopChain(s.head.ptr, s.next, list);
      }
    }
  }

  /** All a step of t does to node n depends on. */
  ghost predicate Around(s: State, list: seq<nat>, t: nat, n: nat) {
    && Typed(s) && t < |s.pc| && n < |s.owner|
    && NodeInv(s, list, n) && ThreadInv(s, s.pc[t])
    && (if s.head.ptr.Null? then list == [] else list != [] && list[0] == s.head.ptr.node && list[0] !in list[1..])
  }

  lemma OnlyMoves(s: State, t: nat, a: Action)
    requires Typed(s) && Enabled(s, t, a)
    ensures Apply(s, t, a).pc == s.pc[t := Apply(s, t, a).pc[t]]
  {
  }

  lemma StepKeepsNode(s: State, list: seq<nat>, t: nat, a: Action, n: nat)
    requires Around(s, list, t, n) && Enabled(s, t, a)
    ensures NodeInv(Apply(s, t, a), NextList(s, list, t, a), n)
  {
    var s', p := Apply(s, t, a), s.pc[t];
    OnlyMoves(s, t, a);
    if list != [] { assert list == [list[0]] + list[1..]; }
    if u :| 0 <= u < |s.pc| && Working(s.pc[u], n) {
      if u != t { assert Working(s'.pc[u], n); }
    }
    if Working(s'.pc[t], n) {
      assert s'.owner[n].None?;
    }
  }

  lemma StepKeepsThread(s: State, list: seq<nat>, t: nat, a: Action, u: nat)
    requires Inv(s, list) && Enabled(s, t, a) && u < |s.pc|
    ensures ThreadInv(Apply(s, t, a), Apply(s, t, a).pc[u])
  {
    var p, q := s.pc[t], s.pc[u];
    assert ThreadInv(s, p) && ThreadInv(s, q);
    if u == t {
      StepKeepsMover(s, t, a);
    } else {
      if a.Run? && p.AddNext? {
        // the node being written is neither the first of the list nor in another thread's hands
        assert Working(p, p.n) && NodeInv(s, list, p.n);
        assert q.AddCas? ==> Working(q, q.n);
        assert s.head.ptr.At? ==> list[0] == s.head.ptr.node;
      }
      StepKeepsBystander(s, t, a, u);
    }
  }

  lemma StepKeepsMover(s: State, t: nat, a: Action)
    requires Typed(s) && Enabled(s, t, a) && ThreadInv(s, s.pc[t])
    ensures ThreadInv(Apply(s, t, a), Apply(s, t, a).pc[t])
  {
  }

  lemma StepKeepsBystander(s: State, t: nat, a: Action, u: nat)
    requires Typed(s) && Enabled(s, t, a) && u < |s.pc| && u != t && ThreadInv(s, s.pc[u])
    requires a.Run? && s.pc[t].AddNext? ==>
      s.head.ptr != At(s.pc[t].n) && (s.pc[u].AddCas? ==> s.pc[u].n != s.pc[t].n)
    ensures ThreadInv(Apply(s, t, a), Apply(s, t, a).pc[u])
  {
  }

  lemma StepKeepsInv(s: State, list: seq<nat>, t: nat, a: Action)
    requires Inv(s, list) && Enabled(s, t, a)
    ensures Inv(Apply(s, t, a), NextList(s, list, t, a))
  {
    StepKeepsChain(s, list, t, a);
    forall n | 0 <= n < |s.owner| ensures NodeInv(Apply(s, t, a), NextList(s, list, t, a), n) {
      assert NodeInv(s, list, n) && ThreadInv(s, s.pc[t]);
      StepKeepsNode(s, list, t, a, n);
    }
    forall u | 0 <= u < |s.pc| ensures ThreadInv(Apply(s, t, a), Apply(s, t, a).pc[u]) {
      StepKeepsThread(s, list, t, a, u);
    }
  }

  /** One step of the list is one step of the atomic stack, or invisible to it. */
  lemma StepSimulates(s: State, list: seq<nat>, t: nat, a: Action)
    requires Inv(s, list) && Enabled(s, t, a)
    ensures var before, after := View(s, list), View(Apply(s, t, a), NextList(s, list, t, a));
      after == before || AtomicStep(before, after)
  {
    var s' := Apply(s, t, a);
    var before, after := View(s, list), View(s', NextList(s, list, t, a));
    assert ThreadInv(s, s.pc[t]);
    assert forall u :: 0 <= u < |s.pc| && u != t ==> s'.pc[u] == s.pc[u];
    if s.head.ptr.At? { PopChain(s.head.ptr, s.next, list); }
    if CallOf(s'.pc[t]) == CallOf(s.pc[t]) {
      assert after.calls == before.calls;
    } else {
      assert after.calls == before.calls[t := after.calls[t]];
      assert AtomicStepOf(before, after, t);
    }
  }

  ghost predicate IsAtomicRun(views: seq<Atomic>) {
    && |views| > 0
    && views[0].stack == [] && (forall t :: 0 <= t < |views[0].calls| ==> views[0].calls[t] == NoCall)
    && forall i :: 0 <= i < |views| - 1 ==> views[i + 1] == views[i] || AtomicStep(views[i], views[i + 1])
  }

  lemma ExtendAtomicRun(views: seq<Atomic>, a: Atomic)
    requires IsAtomicRun(views)
    requires a == views[|views| - 1] || AtomicStep(views[|views| - 1], a)
    ensures IsAtomicRun(views + [a])
  {
    var longer := views + [a];
    assert forall i :: 0 <= i < |views| ==> longer[i] == views[i];
  }

  lemma ShorterRun(trace: seq<State>)
    requires IsRun(trace) && |trace| > 1
    ensures IsRun(trace[..|trace| - 1]) && Step(trace[|trace| - 2], trace[|trace| - 1])
  {
    var before := trace[..|trace| - 1];
    forall i | 0 <= i < |before| - 1 ensures StepAt(before, i) { assert StepAt(trace, i); }
    assert StepAt(trace, |trace| - 2);
  }

  lemma {:induction false} RunViews(trace: seq<State>) returns (views: seq<Atomic>)
    requires IsRun(trace)
    ensures |views| == |trace| && IsAtomicRun(views)
    ensures forall i :: 0 <= i < |trace| ==> Inv(trace[i], views[i].stack) && views[i] == View(trace[i], views[i].stack)
  {
    var k := |trace| - 1;
    if k == 0 {
      views := [View(trace[0], [])];
    } else {
      ShorterRun(trace);
      views := RunViews(trace[..k]);
      var s, list := trace[k - 1], views[k - 1].stack;
      var t: nat, a :| Enabled(s, t, a) && trace[k] == Apply(s, t, a);
      StepKeepsInv(s, list, t, a);
      StepSimulates(s, list, t, a);
      var next := View(trace[k], NextList(s, list, t, a));
      ExtendAtomicRun(views, next);
      views := views + [next];
    }
  }

  // ---------------------------------------------------------------------------
  // What every run guarantees
  // ---------------------------------------------------------------------------

  /** The atomic stack has the list's contents and the threads' calls and results. */
  ghost predicate Shows(s: State, a: Atomic) {
    && Chain(s.head.ptr, s.next, a.stack)
    && |a.calls| == |s.pc|
    && forall t :: 0 <= t < |s.pc| ==> a.calls[t] == CallOf(s.pc[t])
  }

  /**
    Linearizability: every run of the tagged list shows, state by state, a run of an atomic
    stack in which each call takes effect at one instant between its call and its return.
  */
  lemma RunIsLinearizable(trace: seq<State>)
    requires IsRun(trace)
    ensures exists views ::
      IsAtomicRun(views) && |views| == |trace| && forall i :: 0 <= i < |trace| ==> Shows(trace[i], views[i])
  {
    var views := RunViews(trace);
    assert forall i :: 0 <= i < |trace| ==> Shows(trace[i], views[i]);
  }

  /** A snapshot whose tag is current is the current head, and the successor read from it is current. */
  ghost predicate TagTells(s: State, p: Pc)
    requires Typed(s) && PcOk(s, p)
  {
    && (p.AddNext? || p.AddCas? || p.GetNext? || p.GetCas? ==> (p.cur.tag == s.head.tag ==> p.cur == s.head))
    && (p.GetCas? && p.cur.tag == s.head.tag ==> s.next[p.cur.ptr.node] == p.next)
  }

  /** No node is ever in two places, or nowhere. */
  ghost predicate Intact(s: State) {
    exists list :: Chain(s.head.ptr, s.next, list) && forall n :: 0 <= n < |s.owner| ==> NodeInv(s, list, n)
  }

  /** `t` performs an action and then `steps` more atomic operations, none of which fails spuriously. */
  function Alone(s: State, t: nat, a: Action, steps: nat): (s': State)
    requires Typed(s) && Enabled(s, t, a)
    ensures Typed(s') && |s'.pc| == |s.pc|
    decreases steps
  {
    var s1 := Apply(s, t, a);
    if steps == 0 || s1.pc[t].Idle? then s1 else Alone(s1, t, Run(false), steps - 1)
  }

  /** `add` alone: call, load head, set next, swap head, return. */
  lemma AddAlone(s: State, t: nat, n: nat)
    requires Typed(s) && Enabled(s, t, Add(n))
    ensures Alone(s, t, Add(n), 4) ==
      State(Head(At(n), s.head.tag + 1), s.next[n := s.head.ptr], s.pc, s.owner[n := None])
  {
    var s1 := Apply(s, t, Add(n));
    var s2 := Apply(s1, t, Run(false));
    var s3 := Apply(s2, t, Run(false));
    var s4 := Apply(s3, t, Run(false));
    var s5 := Apply(s4, t, Run(false));
    assert s5.pc == s.pc;
    assert Alone(s4, t, Run(false), 0) == s5;
    assert Alone(s3, t, Run(false), 1) == s5;
    assert Alone(s2, t, Run(false), 2) == s5;
    assert Alone(s1, t, Run(false), 3) == s5;
  }

  /** `try_get` alone on a list that is not empty: call, load head, load next, swap head, return. */
  lemma GetAlone(s: State, t: nat)
    requires Typed(s) && Enabled(s, t, TryGet) && s.head.ptr.At?
    ensures var n := s.head.ptr.node;
      Alone(s, t, TryGet, 4) == State(Head(s.next[n], s.head.tag + 1), s.next, s.pc, s.owner[n := Some(t)])
  {
    var s1 := Apply(s, t, TryGet);
    var s2 := Apply(s1, t, Run(false));
    var s3 := Apply(s2, t, Run(false));
    var s4 := Apply(s3, t, Run(false));
    var s5 := Apply(s4, t, Run(false));
    assert s5.pc == s.pc;
    assert Alone(s4, t, Run(false), 0) == s5;
    assert Alone(s3, t, Run(false), 1) == s5;
    assert Alone(s2, t, Run(false), 2) == s5;
    assert Alone(s1, t, Run(false), 3) == s5;
  }

  /** A `try_get` right after an `add` hands out the same node and leaves the list as it was. */
  lemma GetUndoesAdd(s: State, t: nat, n: nat, u: nat)
    requires Typed(s) && Enabled(s, t, Add(n)) && u < |s.pc| && s.pc[u].Idle?
    ensures var gotten := Alone(Alone(s, t, Add(n), 4), u, TryGet, 4);
      gotten.head == Head(s.head.ptr, s.head.tag + 2) && gotten.owner == s.owner[n := Some(u)] && gotten.pc == s.pc
  {
    AddAlone(s, t, n);
    GetAlone(Alone(s, t, Add(n), 4), u);
  }

  /** No call needs more steps than this, from wherever it is. */
  const MAX_RANK: nat := 5

  /** How many steps a thread is away from its return, if it is left alone and no swap fails spuriously. */
  function Rank(s: State, p: Pc): (r: nat)
    ensures r <= MAX_RANK && (r == 0 <==> p.Idle?)
  {
    match p
    case Idle => 0
    case AddLoad(_) => 4
    case AddNext(_, cur) => if cur == s.head then 3 else 5
    case AddCas(_, cur) => if cur == s.head then 2 else 4
    case AddDone => 1
    case GetLoad => 4
    case GetNext(cur) => if cur == s.head then 3 else 5
    case GetCas(cur, _) => if cur == s.head then 2 else 4
    case GetDone(_) => 1
  }

  lemma AloneAdvances(s: State, t: nat)
    requires Typed(s) && t < |s.pc| && !s.pc[t].Idle?
    ensures Rank(Apply(s, t, Run(false)), Apply(s, t, Run(false)).pc[t]) < Rank(s, s.pc[t])
  {
  }

  lemma {:induction false} ReturnsAlone(s: State, t: nat, steps: nat)
    requires Typed(s) && t < |s.pc| && !s.pc[t].Idle? && Rank(s, s.pc[t]) <= steps + 1
    ensures Alone(s, t, Run(false), steps).pc[t].Idle?
    decreases steps
  {
    AloneAdvances(s, t);
    if !Apply(s, t, Run(false)).pc[t].Idle? { ReturnsAlone(Apply(s, t, Run(false)), t, steps - 1); }
  }

  /** From every state of every run, a thread that is inside a call and left alone returns within five steps. */
  lemma RunReturnsAlone(trace: seq<State>, i: nat, t: nat, steps: nat)
    requires IsRun(trace) && i < |trace| && t < |trace[i].pc| && !trace[i].pc[t].Idle? && steps + 1 >= MAX_RANK
    ensures Typed(trace[i]) && Alone(trace[i], t, Run(false), steps).pc[t].Idle?
  {
    RunIsSafe(trace, i);
    ReturnsAlone(trace[i], t, steps);
  }

  /** No ABA in any run: equal tags mean an unchanged head and successor. */
  lemma RunIsSafe(trace: seq<State>, i: nat)
    requires IsRun(trace) && i < |trace|
    ensures Typed(trace[i]) && Intact(trace[i])
    ensures forall t :: 0 <= t < |trace[i].pc| ==> TagTells(trace[i], trace[i].pc[t])
  {
    var views := RunViews(trace);
    var s := trace[i];
    assert Inv(s, views[i].stack);
    forall t | 0 <= t < |s.pc| ensures TagTells(s, s.pc[t]) {
      assert ThreadInv(s, s.pc[t]);
    }
  }
}
