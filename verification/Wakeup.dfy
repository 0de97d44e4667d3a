/**
  Posting a task to a message loop from other threads (base/message_loop/message_loop.cc): a
  concurrent task queue, the `notify_flag_` and an eventfd counter. Any number of posting
  threads, one transition per atomic operation; the queue is a linearizable FIFO and writes to
  the eventfd succeed. A coroutine's resumer wakes the loop without posting; so may the loop's
  own tasks, which are posters like the others here.
*/
module Wakeup {
  type Task = int

  /** Poster: nothing to do; WakeUpIfNeeded is due; the flag is won and the eventfd is to be written. */
  datatype Poster = Away | MustWake | MustWrite

  /** Loop: waiting for the eventfd; read it, flag to be cleared; running the queue until it is empty. */
  datatype Loop = Waiting | MustClear | Draining

  /** `ran` is history: what the loop has run, in order. */
  datatype State = State(queue: seq<Task>, flag: bool, counter: nat, posters: seq<Poster>, loop: Loop,
                         ran: seq<Task>)

  datatype Event = Post(p: nat, task: Task) | Poke(p: nat) | TestAndSet(p: nat) | Write(p: nat)
                 | Read | Clear | RunOne | DrainEnd

  predicate Enabled(s: State, e: Event) {
    match e
    case Post(p, _) => p < |s.posters| && s.posters[p] == Away
    case Poke(p) => p < |s.posters| && s.posters[p] == Away
    case TestAndSet(p) => p < |s.posters| && s.posters[p] == MustWake
    case Write(p) => p < |s.posters| && s.posters[p] == MustWrite
    case Read => s.loop == Waiting && s.counter > 0
    case Clear => s.loop == MustClear
    case RunOne => s.loop == Draining && s.queue != []
    case DrainEnd => s.loop == Draining && s.queue == []
  }

  function Apply(s: State, e: Event): State
    requires Enabled(s, e)
  {
    match e
    case Post(p, task) => s.(queue := s.queue + [task], posters := s.posters[p := MustWake])
    case Poke(p) => s.(posters := s.posters[p := MustWake])
    case TestAndSet(p) => s.(flag := true, posters := s.posters[p := if s.flag then Away else MustWrite])
    case Write(p) => s.(counter := s.counter + 1, posters := s.posters[p := Away])
    case Read => s.(counter := 0, loop := MustClear)
    case Clear => s.(flag := false, loop := Draining)
    case RunOne => s.(queue := s.queue[1..], ran := s.ran + [s.queue[0]])
    case DrainEnd => s.(loop := Waiting)
  }

  predicate Init(s: State) {
    && s.queue == s.ran == [] && !s.flag && s.counter == 0 && s.loop == Waiting
    && forall p :: 0 <= p < |s.posters| ==> s.posters[p] == Away
  }

  /** The state after a sequence of events, each possible where it happens. */
  ghost predicate Reaches(s: State, events: seq<Event>, s': State)
    decreases |events|
  {
    if events == [] then s' == s
    else Enabled(s, events[0]) && Reaches(Apply(s, events[0]), events[1..], s')
  }

  function Posting(e: Event): seq<Task> { if e.Post? then [e.task] else [] }

  /** The tasks that a sequence of events posts, in order. */
  function Posts(events: seq<Event>): seq<Task> {
    if events == [] then [] else Posting(events[0]) + Posts(events[1..])
  }

  lemma Regroup(a: seq<Task>, b: seq<Task>, c: seq<Task>)
    ensures (a + b) + c == a + (b + c) && [] + a == a + [] == a
  {
  }

  function Count(s: State, x: Poster): nat { multiset(s.posters)[x] }

  /** The flag is one token: with the poster that writes, in the eventfd, or with the loop that clears. */
  predicate OneToken(s: State) {
    Count(s, MustWrite) + s.counter + (if s.loop == MustClear then 1 else 0) == (if s.flag then 1 else 0)
  }

  /** Someone will make the loop look at a non-empty queue. */
  predicate NoLostWakeup(s: State) {
    s.queue != [] ==> s.counter > 0 || Count(s, MustWake) > 0 || Count(s, MustWrite) > 0 || s.loop != Waiting
  }

  /** `posts` is what has been posted so far. */
  predicate Inv(s: State, posts: seq<Task>) {
    && OneToken(s)
    && (s.queue != [] ==> WakeupIsDue(s))
    && s.ran + s.queue == posts
  }

  /** Until the loop next finds its queue empty, something keeps it going. */
  predicate WakeupIsDue(s: State) { s.flag || Count(s, MustWake) > 0 || s.loop == Draining }

  lemma StepKeepsInv(s: State, posts: seq<Task>, e: Event)
    requires Inv(s, posts) && Enabled(s, e)
    ensures Inv(Apply(s, e), posts + Posting(e))
  {
    assert posts + [] == posts;
    match e
    case Read =>
    case Clear =>
    case RunOne => assert s.queue == [s.queue[0]] + s.queue[1..];
    case DrainEnd =>
    case _ => PosterKeepsInv(s, posts, e);
  }

  /** A poster that moves from one point to another changes two counts. */
  lemma CountMoves(posters: seq<Poster>, p: nat, x: Poster, y: Poster)
    requires p < |posters|
    ensures multiset(posters[p := x])[y] + (if posters[p] == y then 1 else 0)
         == multiset(posters)[y] + (if x == y then 1 else 0)
  {
  }

  lemma PosterKeepsInv(s: State, posts: seq<Task>, e: Event)
    requires Inv(s, posts) && Enabled(s, e) && (e.Post? || e.Poke? || e.TestAndSet? || e.Write?)
    ensures Inv(Apply(s, e), posts + Posting(e))
  {
    var s' := Apply(s, e);
    CountMoves(s.posters, e.p, s'.posters[e.p], MustWrite);
    CountMoves(s.posters, e.p, s'.posters[e.p], MustWake);
    assert posts + [] == posts;
    if e.Post? { assert s'.ran + s'.queue == (s.ran + s.queue) + [e.task]; }
  }

  lemma InitInv(s: State)
    requires Init(s)
    ensures Inv(s, [])
  {
    assert forall x :: x in multiset(s.posters) ==> x in s.posters;
  }

  lemma {:induction false} ReachesKeepsInv(s: State, posts: seq<Task>, events: seq<Event>, s': State)
    requires Inv(s, posts) && Reaches(s, events, s')
    ensures Inv(s', posts + Posts(events))
    decreases |events|
  {
    if events == [] {
      Regroup(posts, [], []);
    } else {
      StepKeepsInv(s, posts, events[0]);
      ReachesKeepsInv(Apply(s, events[0]), posts + Posting(events[0]), events[1..], s');
      Regroup(posts, Posting(events[0]), Posts(events[1..]));
    }
  }

  lemma ReachableInv(s0: State, events: seq<Event>, s: State)
    requires Init(s0) && Reaches(s0, events, s)
    ensures Inv(s, Posts(events))
  {
    InitInv(s0);
    ReachesKeepsInv(s0, [], events, s);
    Regroup(Posts(events), [], []);
  }

  /** Everything is at rest: no poster is inside a call and the loop has nothing to read. */
  predicate Quiet(s: State) {
    s.loop == Waiting && s.counter == 0 && forall p :: 0 <= p < |s.posters| ==> s.posters[p] == Away
  }

  /**
    In every interleaving a queued task has a wakeup under way, there is never more than one
    notification outstanding, what has run and what is queued are the posted tasks, once each and
    in the order of the calls, and when all is at rest every posted task has run.
  */
  lemma RunLosesNoWakeup(s0: State, events: seq<Event>, s: State)
    requires Init(s0) && Reaches(s0, events, s)
    ensures OneToken(s) && s.counter <= 1 && NoLostWakeup(s)
    ensures s.ran + s.queue == Posts(events)
    ensures Quiet(s) ==> s.ran == Posts(events)
  {
    ReachableInv(s0, events, s);
    if Quiet(s) {
      assert forall x :: x in multiset(s.posters) ==> x in s.posters;
      assert s.ran + [] == s.ran;
    }
  }

  /** New work, as opposed to carrying out what is under way. */
  predicate IsCall(e: Event) { e.Post? || e.Poke? }

  /** How many transitions can follow without a new call. */
  function Pending(s: State): nat {
    5 * Count(s, MustWake) + 4 * Count(s, MustWrite) + 3 * s.counter + |s.queue|
    + (match s.loop case Waiting => 0 case MustClear => 2 case Draining => 1)
  }

  lemma ProgressShrinksPending(s: State, e: Event)
    requires OneToken(s) && Enabled(s, e) && !IsCall(e)
    ensures Pending(Apply(s, e)) < Pending(s)
  {
  }

  lemma ProgressIsPossible(s: State)
    requires !Quiet(s)
    ensures exists e :: Enabled(s, e) && !IsCall(e)
  {
    if p :| 0 <= p < |s.posters| && s.posters[p] != Away {
      assert Enabled(s, if s.posters[p] == MustWake then TestAndSet(p) else Write(p));
    } else {
      assert Enabled(s, match s.loop
        case Waiting => Read
        case MustClear => Clear
        case Draining => if s.queue == [] then DrainEnd else RunOne);
    }
  }

  /** No new call among these. */
  predicate NoCalls(events: seq<Event>) { forall i :: 0 <= i < |events| ==> !IsCall(events[i]) }

  lemma {:induction false} ProgressEnds(s: State, posts: seq<Task>, events: seq<Event>, s': State)
    requires Inv(s, posts) && Reaches(s, events, s') && NoCalls(events)
    ensures Inv(s', posts) && |events| + Pending(s') <= Pending(s)
    decreases |events|
  {
    if events != [] {
      StepKeepsInv(s, posts, events[0]);
      assert posts + [] == posts;
      ProgressShrinksPending(s, events[0]);
      ProgressEnds(Apply(s, events[0]), posts, events[1..], s');
    }
  }

  /**
    Delivery under every scheduler: after any run, transitions that are not new calls come to an
    end after at most Pending(s) of them, and where none is left every posted task has run.
  */
  lemma PostedTasksRun(s0: State, past: seq<Event>, s: State, events: seq<Event>, s': State)
    requires Init(s0) && Reaches(s0, past, s) && Reaches(s, events, s') && NoCalls(events)
    ensures |events| <= Pending(s)
    ensures (forall e :: Enabled(s', e) ==> IsCall(e)) ==> s'.ran == Posts(past)
  {
    ReachableInv(s0, past, s);
    ProgressEnds(s, Posts(past), events, s');
    if forall e :: Enabled(s', e) ==> IsCall(e) { StuckHasRunAll(s', Posts(past)); }
  }

  lemma StuckHasRunAll(s: State, posts: seq<Task>)
    requires Inv(s, posts) && (forall e :: Enabled(s, e) ==> IsCall(e))
    ensures Quiet(s) && s.ran == posts && !WakeupIsDue(s)
  {
    if !Quiet(s) { ProgressIsPossible(s); }
    assert forall x :: x in multiset(s.posters) ==> x in s.posters;
    assert s.ran + [] == s.ran;
  }

  lemma StepKeepsDue(s: State, e: Event)
    requires Enabled(s, e) && WakeupIsDue(s) && e != DrainEnd
    ensures WakeupIsDue(Apply(s, e))
  {
    if e.Post? || e.Poke? || e.TestAndSet? || e.Write? {
      CountMoves(s.posters, e.p, Apply(s, e).posters[e.p], MustWake);
    }
  }

  lemma {:induction false} DueUntilDrained(s: State, events: seq<Event>, s': State)
    requires WakeupIsDue(s) && Reaches(s, events, s') && DrainEnd !in events
    ensures WakeupIsDue(s')
    decreases |events|
  {
    if events != [] {
      StepKeepsDue(s, events[0]);
      DueUntilDrained(Apply(s, events[0]), events[1..], s');
    }
  }

  /**
    A call that only wakes the loop, as a resumer's does, or posts a task does wake it: before all is
    at rest again the loop has gone through its queue up to the end.
  */
  lemma CallsWakeTheLoop(s0: State, past: seq<Event>, s: State, call: Event, events: seq<Event>, s': State)
    requires Init(s0) && Reaches(s0, past, s) && IsCall(call) && Enabled(s, call)
    requires Reaches(Apply(s, call), events, s') && NoCalls(events) && forall e :: Enabled(s', e) ==> IsCall(e)
    ensures DrainEnd in events
  {
    var s1 := Apply(s, call);
    CountMoves(s.posters, call.p, s1.posters[call.p], MustWake);
    ReachableInv(s0, past, s);
    var posts := Posts(past) + Posting(call);
    StepKeepsInv(s, Posts(past), call);
    ProgressEnds(s1, posts, events, s');
    StuckHasRunAll(s', posts);
    if DrainEnd !in events { DueUntilDrained(s1, events, s'); }
  }
}
