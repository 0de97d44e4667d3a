/**
  How `CoroRunnerImpl::Run` hands its tasks to coroutines (base/coroutine/co_runner.cc): a run
  context over a task list and a bounded number of dequeues, and dispatch loops that give a
  coroutine the context and go on with another one when a task yields midway.
*/
module RunContext {
  type Task = int

  /** A slot of a task list; the source skips null tasks. */
  datatype Slot = Null | Has(task: Task)

  /** What a task does until it returns or yields: list appends, and enqueues of any thread meanwhile. */
  datatype Effect = Effect(suspends: bool, appends: seq<Slot>, enqueues: seq<Task>)

  /** What all threads do to the queue the runners share before a runner looks at it again. */
  datatype Meddling = Meddling(taken: nat, given: seq<Task>)

  /**
    Everything outside the runner: what the n-th started task does, what the n-th resumed task
    goes on to do, and what happens to the shared queue before the n-th attempt to pop a task.
  */
  datatype World = World(starts: nat -> Effect, resumes: nat -> Effect, others: nat -> Meddling)

  function NonNull(slots: seq<Slot>): seq<Task> {
    if slots == [] then []
    else (if slots[0].Null? then [] else [slots[0].task]) + NonNull(slots[1..])
  }

  /** All the effects of the tasks started as number `lo` up to `hi`. */
  function Appends(env: nat -> Effect, lo: nat, hi: nat): seq<Slot>
    requires lo <= hi
  {
    if lo == hi then [] else Appends(env, lo, hi - 1) + env(hi - 1).appends
  }

  function Enqueues(env: nat -> Effect, lo: nat, hi: nat): seq<Task>
    requires lo <= hi
  {
    if lo == hi then [] else Enqueues(env, lo, hi - 1) + env(hi - 1).enqueues
  }

  function Given(others: nat -> Meddling, lo: nat, hi: nat): seq<Task>
    requires lo <= hi
  {
    if lo == hi then [] else Given(others, lo, hi - 1) + others(hi - 1).given
  }

  /** One task leaving the shared queue: to this runner or to another. */
  datatype Draw = Draw(task: Task, mine: bool)

  function Drawn(log: seq<Draw>): (tasks: seq<Task>)
    ensures |tasks| == |log|
  {
    seq(|log|, i requires 0 <= i < |log| => log[i].task)
  }

  function Mine(log: seq<Draw>): seq<Task> {
    if log == [] then []
    else Mine(log[..|log| - 1]) + if log[|log| - 1].mine then [log[|log| - 1].task] else []
  }

  function Theirs(tasks: seq<Task>): (log: seq<Draw>)
    ensures |log| == |tasks|
  {
    seq(|tasks|, i requires 0 <= i < |tasks| => Draw(tasks[i], false))
  }

  lemma DrawnAppend(a: seq<Draw>, b: seq<Draw>)
    ensures Drawn(a + b) == Drawn(a) + Drawn(b)
  {
  }

  lemma {:induction false} TheirsAreNotMine(log: seq<Draw>, tasks: seq<Task>)
    ensures Mine(log + Theirs(tasks)) == Mine(log) && Drawn(log + Theirs(tasks)) == Drawn(log) + tasks
  {
    DrawnAppend(log, Theirs(tasks));
    assert Drawn(Theirs(tasks)) == tasks;
    if tasks == [] {
      assert log + Theirs(tasks) == log;
    } else {
      var k := |tasks| - 1;
      TheirsAreNotMine(log, tasks[..k]);
      assert (log + Theirs(tasks))[..|log| + k] == log + Theirs(tasks[..k]);
    }
  }

  /** A task queue. Any thread enqueues at the end. */
  class TaskQueue {
    var items: seq<Task>

    method TryDequeue() returns (ok: bool, task: Task)
      modifies this
      ensures ok <==> old(items) != []
      ensures ok ==> old(items) == [task] + items
      ensures !ok ==> items == old(items)
    {
      ok, task := items != [], 0;
      if ok {
        task := items[0];
        items := items[1..];
      }
    }
  }

  /** What a run context draws from: slots of a list, then at most `quota` items of a queue. */
  datatype Source = Source(slots: seq<Slot>, items: seq<Task>, quota: nat) {
    function Pending(): seq<Task> { NonNull(slots) + items[..Min(quota, |items|)] }

    /** The items behind the quota. */
    function Behind(): seq<Task> { items[Min(quota, |items|)..] }
  }

  predicate PopsListed(a: Source, b: Source, ok: bool, task: Task) {
    && b == a.(slots := b.slots) && NonNull(a.slots) == (if ok then [task] else []) + NonNull(b.slots)
    && (if ok then |b.slots| < |a.slots| else b.slots == [])
  }

  predicate PopsQueued(a: Source, b: Source, ok: bool, task: Task) {
    && b == a.(items := b.items, quota := b.quota) && (ok <==> a.quota > 0 && a.items != [])
    && a.items == (if ok then [task] else []) + b.items && b.quota == if ok then a.quota - 1 else 0
  }

  /** The next task comes off the list or, with no task on the list, off the queue; or there is none. */
  predicate PopsTo(a: Source, b: Source, ok: bool, task: Task) {
    || (ok && PopsListed(a, b, true, task))
    || (NonNull(a.slots) == [] && PopsQueued(a.(slots := []), b, ok, task))
  }

  lemma PopsQueuedIsPop(a: Source, b: Source, c: Source, ok: bool, task: Task)
    requires PopsListed(a, b, false, task) && PopsQueued(b, c, ok, task)
    ensures PopsTo(a, c, ok, task)
  {
    assert b == a.(slots := []) && NonNull(b.slots) == [];
  }

  /** The first pending task, if there is any, is handed out, and nothing behind the quota is touched. */
  predicate HandsOut(a: Source, b: Source, ok: bool, task: Task) {
    && a.Pending() == (if ok then [task] else []) + b.Pending() && b.Behind() == a.Behind()
    && (if ok then |b.slots| + b.quota < |a.slots| + a.quota else |b.slots| + b.quota == 0)
  }

  lemma PopsPending(a: Source, b: Source, ok: bool, task: Task)
    requires PopsTo(a, b, ok, task)
    ensures HandsOut(a, b, ok, task)
  {
    if ok && PopsListed(a, b, true, task) {
      var queued := a.items[..Min(a.quota, |a.items|)];
      assert ([task] + NonNull(b.slots)) + queued == [task] + (NonNull(b.slots) + queued);
    } else if ok {
      QuotaShrinks(b.items, task, b.quota);
    }
  }

  class OneRunContext {
    var taskIdx: nat
    var tasks: seq<Slot>
    var maxDequeue: nat
    var queue: TaskQueue?

    predicate Valid()
      reads this
    {
      taskIdx <= |tasks| && (maxDequeue > 0 ==> queue != null)
    }

    /** The queue as it is now. */
    function Items(): seq<Task>
      reads this, queue
    {
      if queue == null then [] else queue.items
    }

    ghost function State(): Source
      reads this, queue
      requires Valid()
    {
      Source(tasks[taskIdx..], Items(), maxDequeue)
    }

    /** The tasks this context will hand out, if nobody else dequeues. */
    ghost function Pending(): seq<Task>
      reads this, queue
      requires Valid()
    {
      State().Pending()
    }

    function Remain(): nat
      reads this
    {
      (if taskIdx <= |tasks| then |tasks| - taskIdx else 0) + maxDequeue
    }

    constructor ()
      ensures Valid() && Remain() == 0 && queue == null
    {
      taskIdx, tasks, maxDequeue, queue := 0, [], 0, null;
    }

    /** The precondition makes "Reset drops no task" a proof obligation of every caller. */
    method Reset()
      requires Valid() && Pending() == []
      modifies this
      ensures Valid() && Remain() == 0 && queue == null && tasks == [] && taskIdx == 0
    {
      taskIdx, tasks, maxDequeue, queue := 0, [], 0, null;
    }

    /** Swaps the whole list in; the caller's list is left empty. */
    method SwapFromTaskList(list: seq<Slot>) returns (left: seq<Slot>)
      requires Valid() && Remain() == 0 && queue == null
      modifies this
      ensures Valid() && Pending() == NonNull(list) && left == [] && maxDequeue == 0 && queue == null
    {
      taskIdx, tasks, left := 0, list, [];
      assert tasks[0..] == list;
    }

    method WithQueueTillNow(q: TaskQueue)
      requires Valid() && Remain() == 0
      modifies this
      ensures Valid() && queue == q && maxDequeue == |q.items| && Pending() == q.items
      ensures taskIdx == |tasks|
    {
      queue, maxDequeue := q, |q.items|;
      assert q.items[..maxDequeue] == q.items;
    }

    /** Skips null slots; hands out the next task of the list, if there is one. */
    method PopListed() returns (ok: bool, task: Task)
      requires Valid()
      modifies this
      ensures Valid() && queue == old(queue) && PopsListed(old(State()), State(), ok, task)
    {
      task := 0;
      while taskIdx < |tasks|
        invariant Valid() && tasks == old(tasks) && queue == old(queue) && maxDequeue == old(maxDequeue)
        invariant taskIdx >= old(taskIdx)
        invariant NonNull(tasks[taskIdx..]) == NonNull(old(State()).slots)
        decreases |tasks| - taskIdx
      {
        var slot := tasks[taskIdx];
        assert tasks[taskIdx..] == [slot] + tasks[taskIdx + 1..];
        taskIdx := taskIdx + 1;
        if slot.Has? {
          ok, task := true, slot.task;
          return;
        }
      }
      ok := false;
    }

    /** Dequeues within the quota; a queue that is found empty ends the quota. */
    method PopQueued() returns (ok: bool, task: Task)
      requires Valid()
      modifies this`maxDequeue, queue
      ensures Valid() && PopsQueued(old(State()), State(), ok, task)
    {
      ok, task := false, 0;
      while maxDequeue > 0
        invariant Valid() && Items() == old(Items()) && (maxDequeue == old(maxDequeue) || maxDequeue == 0 == |Items()|)
        decreases maxDequeue
      {
        ok, task := queue.TryDequeue();
        if ok {
          maxDequeue := maxDequeue - 1;
          return;
        }
        maxDequeue := 0;
      }
    }

    /** Hands out the next task, listed ones first; when there is none the context is used up. */
    method PopTask() returns (ok: bool, task: Task)
      requires Valid()
      modifies this, queue
      ensures Valid() && queue == old(queue) && PopsTo(old(State()), State(), ok, task)
      ensures HandsOut(old(State()), State(), ok, task)
    {
      ghost var a := State();
      ok, task := PopListed();
      if !ok {
        ghost var b := State();
        ok, task := PopQueued();
        PopsQueuedIsPop(a, b, State(), ok, task);
      }
      PopsPending(a, State(), ok, task);
    }
  }

  function Min(a: nat, b: nat): nat { if a <= b then a else b }

  lemma QuotaShrinks(rest: seq<Task>, task: Task, quota: nat)
    ensures var items := [task] + rest;
      && items[..Min(quota + 1, |items|)] == [task] + rest[..Min(quota, |rest|)]
      && items[Min(quota + 1, |items|)..] == rest[Min(quota, |rest|)..]
  {
  }

  lemma AppendsStep(env: nat -> Effect, lo: nat, hi: nat)
    requires lo <= hi
    ensures Appends(env, lo, hi + 1) == Appends(env, lo, hi) + env(hi).appends
    ensures Enqueues(env, lo, hi + 1) == Enqueues(env, lo, hi) + env(hi).enqueues
  {
  }

  lemma AppendsOne(starts: nat -> Effect, n: nat)
    ensures Appends(starts, n, n + 1) == starts(n).appends && Enqueues(starts, n, n + 1) == starts(n).enqueues
  {
    AppendsStep(starts, n, n);
  }

  lemma {:induction false} AppendsSplit(env: nat -> Effect, lo: nat, mid: nat, hi: nat)
    requires lo <= mid <= hi
    ensures Appends(env, lo, hi) == Appends(env, lo, mid) + Appends(env, mid, hi)
    ensures Enqueues(env, lo, hi) == Enqueues(env, lo, mid) + Enqueues(env, mid, hi)
    decreases hi
  {
    if mid < hi {
      AppendsSplit(env, lo, mid, hi - 1);
    }
  }

  lemma GivenStep(others: nat -> Meddling, lo: nat, hi: nat)
    requires lo <= hi
    ensures Given(others, lo, hi + 1) == Given(others, lo, hi) + others(hi).given
  {
  }

  lemma GivenOne(others: nat -> Meddling, n: nat)
    ensures Given(others, n, n + 1) == others(n).given
  {
    GivenStep(others, n, n);
  }

  lemma {:induction false} GivenSplit(others: nat -> Meddling, lo: nat, mid: nat, hi: nat)
    requires lo <= mid <= hi
    ensures Given(others, lo, hi) == Given(others, lo, mid) + Given(others, mid, hi)
    decreases hi
  {
    if mid < hi {
      GivenSplit(others, lo, mid, hi - 1);
    }
  }

  /** The shared queue as a value: who drew what so far, and what is still there. */
  datatype Shared = Shared(log: seq<Draw>, items: seq<Task>) {
    /** Every task that ever was on the queue, in order. */
    function Stream(): seq<Task> { Drawn(log) + items }

    function Meddled(m: Meddling): Shared {
      var k := Min(m.taken, |items|);
      Shared(log + Theirs(items[..k]), items[k..] + m.given)
    }

    function Popped(): Shared
      requires items != []
    {
      Shared(log + [Draw(items[0], true)], items[1..])
    }
  }

  lemma MeddledStream(q: Shared, m: Meddling)
    ensures q.Meddled(m).Stream() == q.Stream() + m.given && Mine(q.Meddled(m).log) == Mine(q.log)
  {
    var k := Min(m.taken, |q.items|);
    TheirsAreNotMine(q.log, q.items[..k]);
    Regroup(Drawn(q.log), q.items, k, m.given);
  }

  lemma Regroup(a: seq<Task>, b: seq<Task>, k: nat, c: seq<Task>)
    requires k <= |b|
    ensures (a + b[..k]) + (b[k..] + c) == (a + b) + c
  {
    assert b == b[..k] + b[k..];
  }

  lemma PoppedStream(q: Shared)
    requires q.items != []
    ensures q.Popped().Stream() == q.Stream() && Mine(q.Popped().log) == Mine(q.log) + [q.items[0]]
  {
    var d := Draw(q.items[0], true);
    DrawnAppend(q.log, [d]);
    assert Drawn([d]) == [d.task] && (q.log + [d])[..|q.log|] == q.log;
    assert q.items == [q.items[0]] + q.items[1..];
  }

  datatype Which = NoQueue | Own | Common

  /** The state of a runner as a value: the queue its context is on, the context, both queues, histories. */
  datatype State = State(on: Which, slots: seq<Slot>, quota: nat, own: seq<Task>, common: Shared,
                         sched: seq<Slot>, started: seq<Task>, pops: nat) {
    function Items(): seq<Task> { if on == Own then own else if on == Common then common.items else [] }

    function Feed(): Source { Source(slots, Items(), quota) }

    /** Only this runner dequeues from its own queue; a context on the shared queue has no list. */
    predicate Ok() {
      (on == Own ==> quota <= |own|) && (on == Common ==> slots == []) && (on == NoQueue ==> quota == 0)
    }

    /** What there is to see: started tasks, and what is to come as far as nobody else can take it. */
    function Seen(): View
      requires Ok()
    {
      View(on == Common, started, if on == Common then [] else Feed().Pending(), |slots| + quota, sched,
           if on == Own then own[quota..] else own, common, pops)
    }

    function Meddled(m: Meddling): State { this.(common := common.Meddled(m), pops := pops + 1) }

    /** The context has popped a task, or found none. */
    function Popped(b: Source, ok: bool): State
      requires on == Common && ok ==> common.items != []
    {
      this.(slots := b.slots, quota := b.quota, own := if on == Own then b.items else own,
            common := if on == Common && ok then common.Popped() else common)
    }

    function Started(w: World, task: Task): State {
      var effect := w.starts(|started|);
      this.(started := started + [task], sched := sched + effect.appends, own := own + effect.enqueues)
    }
  }

  /**
    What there is to see of a runner: whether its context is on the shared queue, what was
    started, what it will hand out as far as nobody else can take it, and the rest of its state.
  */
  datatype View = View(onShared: bool, started: seq<Task>, sure: seq<Task>, remain: nat, sched: seq<Slot>,
                       later: seq<Task>, line: Shared, pops: nat)

  /**
    Between the two views tasks were started from the context and nothing else happened: the sure
    ones in order, or the ones drawn from the shared queue in order; each used up some of the
    context; and all that the tasks and the other threads left behind is there, in order.
  */
  predicate Ran(w: World, a: View, b: View) {
    && b.onShared == a.onShared && a.started <= b.started && a.pops <= b.pops
    && (!a.onShared ==> b.started + b.sure == a.started + a.sure)
    && |b.started| - |a.started| + b.remain <= a.remain
    && b.sched == a.sched + Appends(w.starts, |a.started|, |b.started|)
    && b.later == a.later + Enqueues(w.starts, |a.started|, |b.started|)
    && b.line.Stream() == a.line.Stream() + Given(w.others, a.pops, b.pops)
    && Mine(b.line.log) == Mine(a.line.log) + (if a.onShared then b.started[|a.started|..] else [])
    && Draws(a, b)
  }

  /**
    Draws from the shared queue are never taken back; and what a context on it has not used up yet is
    all that may be missing of the tasks that were there.
  */
  predicate Draws(a: View, b: View) {
    && a.line.log <= b.line.log
    && (a.onShared ==>
          |a.line.log| + a.remain <= |b.line.log| + b.remain || |a.line.Stream()| <= |b.line.log|)
  }

  /** Between the two views there was one attempt to pop a task, which nobody has started yet. */
  predicate PoppedOne(w: World, a: View, b: View, ok: bool, task: Task) {
    var got := if ok then [task] else [];
    && b.onShared == a.onShared && b.started == a.started && b.pops == a.pops + 1
    && (!a.onShared ==> a.sure == got + b.sure)
    && (if ok then b.remain < a.remain else b.remain == 0)
    && b.sched == a.sched && b.later == a.later
    && b.line.Stream() == a.line.Stream() + w.others(a.pops).given
    && Mine(b.line.log) == Mine(a.line.log) + (if a.onShared then got else [])
    && Draws(a, b)
  }

  /** What popping changes of what is seen, the shared queue aside. */
  predicate Popping(a: View, b: View, ok: bool, task: Task) {
    && b == a.(sure := b.sure, remain := b.remain, line := b.line)
    && (!a.onShared ==> a.sure == (if ok then [task] else []) + b.sure)
    && (if ok then b.remain < a.remain else b.remain == 0)
  }

  lemma PoppedIsOk(s: State, b: Source, ok: bool, task: Task)
    requires s.Ok() && PopsTo(s.Feed(), b, ok, task)
    ensures s.on == Common && ok ==> s.common.items != [] && s.common.items[0] == task
    ensures s.Popped(b, ok).Ok() && s.Popped(b, ok).Items() == b.items
  {
  }

  lemma PoppedIsPopping(s: State, b: Source, ok: bool, task: Task)
    requires s.Ok() && PopsTo(s.Feed(), b, ok, task)
    requires (s.on == Common && ok ==> s.common.items != []) && s.Popped(b, ok).Ok()
    ensures Popping(s.Seen(), s.Popped(b, ok).Seen(), ok, task)
  {
    PopsPending(s.Feed(), b, ok, task);
  }

  lemma MeddledIsSeen(s: State, m: Meddling)
    requires s.Ok()
    ensures s.Meddled(m).Ok()
    ensures s.Meddled(m).Seen() == s.Seen().(line := s.common.Meddled(m), pops := s.pops + 1)
  {
  }

  lemma PopNextPops(w: World, s: State, b: Source, ok: bool, task: Task)
    requires s.Ok() && PopsTo(s.Meddled(w.others(s.pops)).Feed(), b, ok, task)
    ensures var t := s.Meddled(w.others(s.pops)).Popped(b, ok);
      t.Ok() && t.Items() == b.items && PoppedOne(w, s.Seen(), t.Seen(), ok, task)
  {
    var m := s.Meddled(w.others(s.pops));
    MeddledIsSeen(s, w.others(s.pops));
    PoppedIsOk(m, b, ok, task);
    PoppedIsPopping(m, b, ok, task);
    MeddledStream(s.common, w.others(s.pops));
    if s.on == Common && ok { PoppedStream(m.common); }
    PopNextDraws(w, s, b, ok, task);
  }

  lemma PopNextDraws(w: World, s: State, b: Source, ok: bool, task: Task)
    requires s.Ok() && PopsTo(s.Meddled(w.others(s.pops)).Feed(), b, ok, task)
    requires s.on == Common && ok ==> s.Meddled(w.others(s.pops)).common.items != []
    requires s.Meddled(w.others(s.pops)).Popped(b, ok).Ok()
    ensures Draws(s.Seen(), s.Meddled(w.others(s.pops)).Popped(b, ok).Seen())
  {
    var m := s.Meddled(w.others(s.pops));
    MeddledStream(s.common, w.others(s.pops));
    if s.on == Common {
      assert m.Feed().slots == [];
      assert !ok && s.quota > 0 ==> m.common.items == [];
    }
  }

  /** The popped task runs: it is in the history, and so are its effects. */
  function Continued(w: World, b: View, task: Task): View {
    var effect := w.starts(|b.started|);
    b.(started := b.started + [task], sched := b.sched + effect.appends, later := b.later + effect.enqueues)
  }

  lemma StartedIsContinued(w: World, s: State, task: Task)
    requires s.Ok()
    ensures s.Started(w, task).Ok() && s.Started(w, task).Seen() == Continued(w, s.Seen(), task)
  {
    var own := s.own + w.starts(|s.started|).enqueues;
    if s.on == Own {
      assert own[..s.quota] == s.own[..s.quota] && own[s.quota..] == s.own[s.quota..] + w.starts(|s.started|).enqueues;
    }
  }

  lemma ContinuedIsRan(w: World, a: View, b: View, task: Task)
    requires PoppedOne(w, a, b, true, task)
    ensures Ran(w, a, Continued(w, b, task))
  {
    AppendsOne(w.starts, |a.started|);
    GivenOne(w.others, a.pops);
    assert (a.started + [task]) + b.sure == a.started + ([task] + b.sure);
    assert (a.started + [task])[|a.started|..] == [task];
  }

  lemma NothingIsRan(w: World, a: View, b: View, task: Task)
    requires PoppedOne(w, a, b, false, task)
    ensures Ran(w, a, b)
  {
    GivenOne(w.others, a.pops);
  }

  lemma NoneIsRan(w: World, a: View)
    ensures Ran(w, a, a)
  {
  }

  lemma RanAgain(w: World, a: View, b: View, c: View)
    requires Ran(w, a, b) && Ran(w, b, c)
    ensures Ran(w, a, c)
  {
    AppendsSplit(w.starts, |a.started|, |b.started|, |c.started|);
    GivenSplit(w.others, a.pops, b.pops, c.pops);
    assert c.started[|a.started|..] == b.started[|a.started|..] + c.started[|b.started|..];
  }

  /** The context has nothing left to hand out, as it is between two loops of `Run`. */
  predicate UsedUp(s: State) { s.Ok() && s.slots == [] && s.quota == 0 }

  /** A phase of `Run` that began with this list and this queue of its own leaves all that came later. */
  predicate Leaves(w: World, a: State, sched: seq<Slot>, own: seq<Task>, b: State) {
    && UsedUp(b) && a.started <= b.started && a.pops <= b.pops
    && b.sched == sched + Appends(w.starts, |a.started|, |b.started|)
    && b.own == own + Enqueues(w.starts, |a.started|, |b.started|)
    && b.common.Stream() == a.common.Stream() + Given(w.others, a.pops, b.pops)
    && a.common.log <= b.common.log
  }

  /** A dispatch loop from `a`, set up as `s`, to the end of the context. */
  lemma DispatchLeaves(w: World, a: State, s: State, b: State)
    requires s.Ok() && UsedUp(b) && Ran(w, s.Seen(), b.Seen())
    requires s.started == a.started && s.pops == a.pops && s.common == a.common
    ensures Leaves(w, a, s.sched, s.Seen().later, b)
    ensures s.on != Common ==> b.started == a.started + s.Seen().sure && Mine(b.common.log) == Mine(a.common.log)
    ensures s.on == Common ==>
      && Mine(b.common.log) == Mine(a.common.log) + b.started[|a.started|..]
      && |b.started| - |a.started| <= |s.slots| + s.quota
      && (|a.common.log| + |s.slots| + s.quota <= |b.common.log| || |a.common.Stream()| <= |b.common.log|)
  {
    assert b.Seen().sure == [] && b.Seen().later == b.own;
    assert b.started + [] == b.started && Mine(a.common.log) + [] == Mine(a.common.log);
  }

  /** `n` suspended tasks went on, from the r-th resumption on; nothing was started. */
  predicate WentOn(w: World, a: State, b: State, r: nat, n: nat) {
    && UsedUp(b) && b.started == a.started && a.pops <= b.pops
    && b.sched == a.sched + Appends(w.resumes, r, r + n)
    && b.own == a.own + Enqueues(w.resumes, r, r + n)
    && b.common.Stream() == a.common.Stream() + Given(w.others, a.pops, b.pops)
    && Mine(b.common.log) == Mine(a.common.log) && a.common.log <= b.common.log
  }

  /** A coroutine that finds the context used up starts nothing. */
  lemma UsedUpStartsNothing(w: World, a: State, b: State)
    requires UsedUp(a) && UsedUp(b) && Ran(w, a.Seen(), b.Seen())
    ensures WentOn(w, a, b, 0, 0)
  {
    assert b.started == a.started && b.started[|a.started|..] == [];
    assert a.Seen().later == a.own && b.Seen().later == b.own;
  }

  /** One more resumption, and a coroutine that may have looked for tasks after it. */
  lemma WentOnStep(w: World, a: State, b: State, c: State, d: State, r: nat, n: nat)
    requires WentOn(w, a, b, r, n) && WentOn(w, c, d, 0, 0)
    requires c == b.(sched := b.sched + w.resumes(r + n).appends, own := b.own + w.resumes(r + n).enqueues)
    ensures WentOn(w, a, d, r, n + 1)
  {
    AppendsStep(w.resumes, r, r + n);
    GivenSplit(w.others, a.pops, b.pops, d.pops);
    assert (a.sched + Appends(w.resumes, r, r + n)) + w.resumes(r + n).appends
        == a.sched + (Appends(w.resumes, r, r + n) + w.resumes(r + n).appends);
    assert (a.own + Enqueues(w.resumes, r, r + n)) + w.resumes(r + n).enqueues
        == a.own + (Enqueues(w.resumes, r, r + n) + w.resumes(r + n).enqueues);
  }

  /** The queue and the list that the first two dispatch loops of a run find. */
  function QueueFound(w: World, a: State, r: nat, n: nat): seq<Task> { a.own + Enqueues(w.resumes, r, r + n) }

  function ListFound(w: World, a: State, r: nat, n: nat): seq<Slot> {
    a.sched + Appends(w.resumes, r, r + n)
    + Appends(w.starts, |a.started|, |a.started| + |QueueFound(w, a, r, n)|)
  }

  /** How many tasks have been started when the first two dispatch loops are through. */
  function FirstLoops(w: World, a: State, r: nat, n: nat): nat { |a.started| + |QueueFound(w, a, r, n)| }

  function TwoLoops(w: World, a: State, r: nat, n: nat): nat {
    FirstLoops(w, a, r, n) + |NonNull(ListFound(w, a, r, n))|
  }

  /** The tasks found on the own queue and on the list were started first, in order. */
  predicate StartedFound(w: World, a: State, b: State, r: nat, n: nat) {
    && TwoLoops(w, a, r, n) <= |b.started|
    && b.started[..TwoLoops(w, a, r, n)] == a.started + QueueFound(w, a, r, n) + NonNull(ListFound(w, a, r, n))
  }

  /** The others were drawn from the shared queue, which lost nothing and has been gone through. */
  predicate DrewOthers(w: World, a: State, b: State, r: nat, n: nat) {
    && TwoLoops(w, a, r, n) <= |b.started| && a.pops <= b.pops
    && Mine(b.common.log) == Mine(a.common.log) + b.started[TwoLoops(w, a, r, n)..]
    && b.common.Stream() == a.common.Stream() + Given(w.others, a.pops, b.pops)
    && |a.common.Stream()| <= |b.common.log|
  }

  /** What came too late for its loop is there, in order. */
  predicate LeftLate(w: World, a: State, b: State, r: nat, n: nat, m: nat) {
    && FirstLoops(w, a, r, n) <= |b.started|
    && b.sched == Appends(w.starts, FirstLoops(w, a, r, n), |b.started|) + Appends(w.resumes, r + n, r + n + m)
    && b.own == Enqueues(w.starts, |a.started|, |b.started|) + Enqueues(w.resumes, r + n, r + n + m)
  }

  /** What a whole run does, from the r-th resumption on. */
  predicate RunDid(w: World, a: State, b: State, r: nat, n: nat, m: nat) {
    UsedUp(b) && StartedFound(w, a, b, r, n) && DrewOthers(w, a, b, r, n) && LeftLate(w, a, b, r, n, m)
  }

  /** The three dispatch loops: over the own queue, the list, and the shared queue. */
  predicate QueuePhase(w: World, a: State, b: State) {
    Leaves(w, a, a.sched, [], b) && b.started == a.started + a.own && Mine(b.common.log) == Mine(a.common.log)
  }

  predicate ListPhase(w: World, a: State, b: State) {
    && Leaves(w, a, [], a.own, b) && b.started == a.started + NonNull(a.sched)
    && Mine(b.common.log) == Mine(a.common.log)
  }

  predicate SharedPhase(w: World, a: State, b: State) {
    && Leaves(w, a, a.sched, a.own, b) && Mine(b.common.log) == Mine(a.common.log) + b.started[|a.started|..]
    && |b.started| - |a.started| <= |a.common.items| && |a.common.Stream()| <= |b.common.log|
  }

  predicate Phases(w: World, a: State, b: State, c: State, d: State, e: State, f: State, r: nat, n: nat, m: nat) {
    && WentOn(w, a, b, r, n) && QueuePhase(w, b, c) && ListPhase(w, c, d) && SharedPhase(w, d, e)
    && WentOn(w, e, f, r + n, m)
  }

  lemma StreamsAdd(others: nat -> Meddling, s: seq<Task>, p: nat, q: nat, r: nat)
    requires p <= q <= r
    ensures (s + Given(others, p, q)) + Given(others, q, r) == s + Given(others, p, r)
  {
    GivenSplit(others, p, q, r);
  }

  lemma EffectsAdd(starts: nat -> Effect, p: nat, q: nat, r: nat, t: nat)
    requires p <= q <= r <= t
    ensures ([] + Appends(starts, q, r)) + Appends(starts, r, t) == Appends(starts, q, t)
    ensures (([] + Enqueues(starts, p, q)) + Enqueues(starts, q, r)) + Enqueues(starts, r, t) == Enqueues(starts, p, t)
  {
    AppendsSplit(starts, q, r, t);
    AppendsSplit(starts, p, q, r);
    AppendsSplit(starts, p, r, t);
  }

  lemma PhasesStart(w: World, a: State, b: State, c: State, d: State, e: State, f: State, r: nat, n: nat, m: nat)
    requires Phases(w, a, b, c, d, e, f, r, n, m)
    ensures b.own == QueueFound(w, a, r, n) && c.sched == ListFound(w, a, r, n)
    ensures |c.started| == |a.started| + |b.own| && |d.started| == |c.started| + |NonNull(c.sched)| <= |f.started|
    ensures f.started[..|d.started|] == a.started + b.own + NonNull(c.sched)
  {
  }

  lemma PhasesLeave(w: World, a: State, b: State, c: State, d: State, e: State, f: State, r: nat, n: nat, m: nat)
    requires Phases(w, a, b, c, d, e, f, r, n, m) && |a.started| <= |c.started| <= |f.started|
    ensures f.sched == Appends(w.starts, |c.started|, |f.started|) + Appends(w.resumes, r + n, r + n + m)
    ensures f.own == Enqueues(w.starts, |a.started|, |f.started|) + Enqueues(w.resumes, r + n, r + n + m)
  {
    EffectsAdd(w.starts, |a.started|, |c.started|, |d.started|, |e.started|);
  }

  lemma PhasesDraw(w: World, a: State, b: State, c: State, d: State, e: State, f: State, r: nat, n: nat, m: nat)
    requires Phases(w, a, b, c, d, e, f, r, n, m)
    ensures a.pops <= f.pops && f.common.Stream() == a.common.Stream() + Given(w.others, a.pops, f.pops)
    ensures |d.started| <= |f.started| && Mine(f.common.log) == Mine(a.common.log) + f.started[|d.started|..]
    ensures |a.common.Stream()| <= |f.common.log|
  {
    StreamsAdd(w.others, a.common.Stream(), a.pops, b.pops, c.pops);
    StreamsAdd(w.others, a.common.Stream(), a.pops, c.pops, d.pops);
    StreamsAdd(w.others, a.common.Stream(), a.pops, d.pops, e.pops);
    StreamsAdd(w.others, a.common.Stream(), a.pops, e.pops, f.pops);
  }

  lemma PhasesAreRun(w: World, a: State, b: State, c: State, d: State, e: State, f: State, r: nat, n: nat, m: nat)
    requires Phases(w, a, b, c, d, e, f, r, n, m)
    ensures RunDid(w, a, f, r, n, m)
  {
    PhasesStart(w, a, b, c, d, e, f, r, n, m);
    assert |c.started| == FirstLoops(w, a, r, n) && |d.started| == TwoLoops(w, a, r, n);
    assert StartedFound(w, a, f, r, n);
    assert LeftLate(w, a, f, r, n, m) by { PhasesLeave(w, a, b, c, d, e, f, r, n, m); }
    assert DrewOthers(w, a, f, r, n) by { PhasesDraw(w, a, b, c, d, e, f, r, n, m); }
  }

  /** One coroutine started these tasks: all but the last ran to their end, and the last suspended or not. */
  predicate OneCoroutine(w: World, lo: nat, hi: nat, suspended: bool) {
    && lo <= hi && (suspended ==> lo < hi)
    && forall i :: lo <= i < hi ==> (w.starts(i).suspends <==> suspended && i == hi - 1)
  }

  lemma OneMore(w: World, lo: nat, mid: nat, hi: nat, suspended: bool)
    requires OneCoroutine(w, lo, mid, false) && mid <= hi <= mid + 1
    requires suspended <==> mid < hi && w.starts(mid).suspends
    ensures OneCoroutine(w, lo, hi, suspended)
  {
  }

  class Runner {
    const ctx: OneRunContext
    /** `remote_sched_`, which only this runner dequeues from, and `g_remote`, which all do. */
    const own: TaskQueue
    const shared: TaskQueue
    var sched: seq<Slot>
    /** Histories: tasks in the order they were started, resumptions, pop attempts, draws from the shared queue. */
    var started: seq<Task>
    var resumed: nat
    var pops: nat
    ghost var log: seq<Draw>

    constructor (own: TaskQueue, shared: TaskQueue)
      requires own != shared
      ensures Valid() && ctx.Remain() == 0 && fresh(ctx) && this.own == own && this.shared == shared
      ensures sched == [] && started == [] && log == []
    {
      ctx := new OneRunContext();
      this.own, this.shared := own, shared;
      sched, started, resumed, pops, log := [], [], 0, 0, [];
    }

    ghost predicate Valid()
      reads this, ctx, own
    {
      && ctx.Valid() && own != shared && (ctx.queue == null || ctx.queue == own || ctx.queue == shared)
      && (ctx.queue == own ==> ctx.maxDequeue <= |own.items|)
      && (ctx.queue == shared ==> ctx.taskIdx == |ctx.tasks|)
    }

    ghost function Value(): (s: State)
      reads this, ctx, own, shared
      requires Valid()
      ensures s.Ok()
    {
      State(if ctx.queue == null then NoQueue else if ctx.queue == own then Own else Common,
            ctx.tasks[ctx.taskIdx..], ctx.maxDequeue, own.items, Shared(log, shared.items), sched, started, pops)
    }

    ghost function Seen(): View
      reads this, ctx, own, shared
      requires Valid()
    {
      Value().Seen()
    }

    /** The other threads' turn at the shared queue. */
    method Meddle(w: World)
      requires Valid()
      modifies this`log, this`pops, shared
      ensures Valid() && Value() == old(Value()).Meddled(w.others(old(pops)))
    {
      ghost var line := Shared(log, shared.items).Meddled(w.others(pops));
      var m := w.others(pops);
      shared.items := shared.items[Min(m.taken, |shared.items|)..] + m.given;
      pops, log := pops + 1, line.log;
    }

    /** The context pops a task; one from the shared queue is a draw. */
    method PopFrom() returns (ok: bool, task: Task, ghost b: Source)
      requires Valid()
      modifies this`log, ctx, own, shared
      ensures Valid() && PopsTo(old(Value()).Feed(), b, ok, task)
      ensures ctx.queue == shared && ok ==> old(shared.items) != []
      ensures Value() == old(Value()).Popped(b, ok)
    {
      ghost var s := Value();
      assert s.Feed() == ctx.State();
      ok, task := ctx.PopTask();
      b := ctx.State();
      PoppedIsOk(s, b, ok, task);
      if ok && ctx.queue == shared {
        log := log + [Draw(task, true)];
      }
    }

    /** One attempt to pop a task, after the other threads' turn. */
    method PopNext(w: World) returns (ok: bool, task: Task)
      requires Valid()
      modifies this`log, this`pops, ctx, own, shared
      ensures Valid() && PoppedOne(w, old(Seen()), Seen(), ok, task)
    {
      ghost var s := Value();
      Meddle(w);
      ghost var b;
      ok, task, b := PopFrom();
      PopNextPops(w, s, b, ok, task);
    }

    /** The task runs until it returns or suspends. */
    method Start(w: World, task: Task) returns (suspended: bool)
      requires Valid()
      modifies this`started, this`sched, own
      ensures Valid() && Value() == old(Value()).Started(w, task)
      ensures suspended <==> w.starts(|old(started)|).suspends
    {
      var effect := w.starts(|started|);
      started := started + [task];
      sched := sched + effect.appends;
      own.items := own.items + effect.enqueues;
      suspended := effect.suspends;
    }

    /** Pops one task and runs it until it returns or suspends. */
    method StartNext(w: World) returns (ok: bool, suspended: bool)
      requires Valid()
      modifies this, ctx, own, shared
      ensures Valid() && Ran(w, old(Seen()), Seen()) && resumed == old(resumed)
      ensures if ok then |started| == |old(started)| + 1 else started == old(started)
      ensures suspended <==> ok && w.starts(|old(started)|).suspends
      ensures if ok then ctx.Remain() < old(ctx.Remain()) else ctx.Remain() == 0
    {
      ghost var a := Seen();
      var task;
      ok, task := PopNext(w);
      ghost var s := Value();
      suspended := false;
      if ok {
        StartedIsContinued(w, s, task);
        ContinuedIsRan(w, a, s.Seen(), task);
        suspended := Start(w, task);
      } else {
        NothingIsRan(w, a, Seen(), task);
      }
    }

    /** One coroutine: run tasks until there is none left or one of them suspends. */
    method CoroMain(w: World)
      requires Valid()
      modifies this, ctx, own, shared
      ensures Valid() && Ran(w, old(Seen()), Seen()) && resumed == old(resumed)
      ensures OneCoroutine(w, |old(started)|, |started|, true) || ctx.Remain() == 0
      ensures OneCoroutine(w, |old(started)|, |started|, true) || OneCoroutine(w, |old(started)|, |started|, false)
      ensures ctx.Remain() == 0 || ctx.Remain() < old(ctx.Remain())
    {
      ghost var a := Seen();
      NoneIsRan(w, a);
      var more, suspended := true, false;
      while more && !suspended
        invariant Valid() && Ran(w, a, Seen()) && resumed == old(resumed)
        invariant ctx.Remain() <= old(ctx.Remain())
        invariant !more ==> ctx.Remain() == 0
        invariant suspended ==> ctx.Remain() < old(ctx.Remain())
        invariant OneCoroutine(w, |old(started)|, |started|, suspended)
        decreases ctx.Remain(), more
      {
        ghost var b := Seen();
        more, suspended := StartNext(w);
        RanAgain(w, a, b, Seen());
        OneMore(w, |a.started|, |b.started|, |started|, suspended);
      }
    }

    /** A dispatch loop of Run: one coroutine after another until the context is used up. */
    method Dispatch(w: World)
      requires Valid()
      modifies this, ctx, own, shared
      ensures Valid() && Ran(w, old(Seen()), Seen()) && ctx.Remain() == 0 && resumed == old(resumed)
    {
      ghost var a := Seen();
      NoneIsRan(w, a);
      while ctx.Remain() > 0
        invariant Valid() && Ran(w, a, Seen()) && resumed == old(resumed)
        decreases ctx.Remain()
      {
        ghost var b := Seen();
        CoroMain(w);
        RanAgain(w, a, b, Seen());
      }
    }

    /** The loop over the runner's own queue, as long as the queue was at the start. */
    method RunQueue(w: World)
      requires Valid() && UsedUp(Value())
      modifies this, ctx, own, shared
      ensures Valid() && QueuePhase(w, old(Value()), Value()) && resumed == old(resumed)
    {
      ghost var a := Value();
      ctx.Reset();
      ctx.WithQueueTillNow(own);
      ghost var s := Value();
      assert s.Seen().sure == own.items && s.Seen().later == [];
      Dispatch(w);
      DispatchLeaves(w, a, s, Value());
    }

    /** The loop over the task list, as it is when it is swapped out. */
    method RunList(w: World)
      requires Valid() && UsedUp(Value())
      modifies this, ctx, own, shared
      ensures Valid() && ListPhase(w, old(Value()), Value()) && resumed == old(resumed)
    {
      ghost var a := Value();
      ctx.Reset();
      sched := ctx.SwapFromTaskList(sched);
      ghost var s := Value();
      Dispatch(w);
      DispatchLeaves(w, a, s, Value());
    }

    /** The loop over the queue all runners share: what it starts it drew from there, in order. */
    method RunShared(w: World)
      requires Valid() && UsedUp(Value())
      modifies this, ctx, own, shared
      ensures Valid() && SharedPhase(w, old(Value()), Value()) && resumed == old(resumed)
    {
      ghost var a := Value();
      ctx.Reset();
      ctx.WithQueueTillNow(shared);
      ghost var s := Value();
      Dispatch(w);
      DispatchLeaves(w, a, s, Value());
    }

    /** The coroutine on top of the ready list goes on with its task, and after it looks for others. */
    method ResumeOne(w: World)
      requires Valid() && UsedUp(Value())
      modifies this, ctx, own, shared
      ensures Valid() && resumed == old(resumed) + 1
      ensures var b, effect := old(Value()), w.resumes(old(resumed));
        WentOn(w, b.(sched := b.sched + effect.appends, own := b.own + effect.enqueues), Value(), 0, 0)
    {
      var effect := w.resumes(resumed);
      resumed := resumed + 1;
      sched := sched + effect.appends;
      own.items := own.items + effect.enqueues;
      ghost var c := Value();
      NoneIsRan(w, c.Seen());
      if !effect.suspends {
        CoroMain(w);
      }
      UsedUpStartsNothing(w, c, Value());
    }

    /** A loop over the ready list that resumes n coroutines. */
    method ResumeReady(w: World, n: nat)
      requires Valid() && UsedUp(Value())
      modifies this, ctx, own, shared
      ensures Valid() && WentOn(w, old(Value()), Value(), old(resumed), n) && resumed == old(resumed) + n
    {
      ghost var a := Value();
      for i := 0 to n
        invariant Valid() && WentOn(w, a, Value(), old(resumed), i) && resumed == old(resumed) + i
      {
        ghost var b := Value();
        ghost var effect := w.resumes(resumed);
        ghost var c := b.(sched := b.sched + effect.appends, own := b.own + effect.enqueues);
        ResumeOne(w);
        WentOnStep(w, a, b, c, Value(), old(resumed), i);
      }
    }

    /**
      `Run` with n coroutines ready at the beginning and m at the end. Every task on the own queue
      when that loop starts, and every non-null task on the list when it is swapped out, is started
      exactly once and in order, whichever tasks suspend; then tasks of the shared queue are, as
      they are drawn, until all that were there when the run began have been drawn, by this runner or
      another. Resumed coroutines start nothing. Whatever is appended or queued too late is
      still there, in order, and no task of the shared queue is lost or given out twice.
    */
    method Run(w: World, n: nat, m: nat)
      requires Valid() && UsedUp(Value())
      modifies this, ctx, own, shared
      ensures Valid() && RunDid(w, old(Value()), Value(), old(resumed), n, m) && resumed == old(resumed) + n + m
    {
      ghost var a := Value();
      ResumeReady(w, n);
      ghost var b := Value();
      ghost var c, d := RunLoops(w);
      ghost var e := Value();
      ResumeReady(w, m);
      PhasesAreRun(w, a, b, c, d, e, Value(), old(resumed), n, m);
    }

    /** The three dispatch loops, one after the other. */
    method RunLoops(w: World) returns (ghost c: State, ghost d: State)
      requires Valid() && UsedUp(Value())
      modifies this, ctx, own, shared
      ensures Valid() && resumed == old(resumed)
      ensures QueuePhase(w, old(Value()), c) && ListPhase(w, c, d) && SharedPhase(w, d, Value())
    {
      RunQueue(w);
      c := Value();
      RunList(w);
      d := Value();
      RunShared(w);
    }
  }
}
