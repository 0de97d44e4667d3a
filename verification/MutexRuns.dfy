/** Runs of the mutex told by their events: who gets the lock at once, who queues, and in which order they get in. */
module MutexRuns {
  import opened CoMutex
  import opened Resumers

  /** A call of lock that meets a locked mutex queues the caller. */
  function Queues(s: State, e: Event): seq<Ticket>
    requires Enabled(s, e)
  {
    if e.Lock? && s.locked then [Ticket(e.c, s.resumeId[e.c])] else []
  }

  function Queued(s: State, events: seq<Event>): seq<Ticket>
    decreases |events|
  {
    if events == [] || !Enabled(s, events[0]) then []
    else Queues(s, events[0]) + Queued(Apply(s, events[0]), events[1..])
  }

  /** A coroutine that is woken inside lock gets in. */
  function Enters(s: State, e: Event): seq<Ticket>
    requires Enabled(s, e)
  {
    if e.Wake? then [Ticket(e.c, s.resumeId[e.c])] else []
  }

  function Entered(s: State, events: seq<Event>): seq<Ticket>
    decreases |events|
  {
    if events == [] || !Enabled(s, events[0]) then []
    else Enters(s, events[0]) + Entered(Apply(s, events[0]), events[1..])
  }

  lemma StepRecords(s: State, e: Event)
    requires Enabled(s, e)
    ensures Apply(s, e).queued == s.queued + Queues(s, e) && Apply(s, e).entered == s.entered + Enters(s, e)
  {
  }

  lemma Regroup(a: seq<Ticket>, b: seq<Ticket>, c: seq<Ticket>)
    ensures (a + b) + c == a + (b + c) && [] + a == a
  {
  }

  lemma {:induction false} ReachesRecords(s: State, events: seq<Event>, s': State)
    requires Reaches(s, events, s')
    ensures s'.queued == s.queued + Queued(s, events) && s'.entered == s.entered + Entered(s, events)
    decreases |events|
  {
    if events != [] {
      var s1, rest := Apply(s, events[0]), events[1..];
      StepRecords(s, events[0]);
      ReachesRecords(s1, rest, s');
      Regroup(s.queued, Queues(s, events[0]), Queued(s1, rest));
      Regroup(s.entered, Enters(s, events[0]), Entered(s1, rest));
    }
  }

  lemma RunRecords(s0: State, events: seq<Event>, s: State)
    requires Init(s0) && Reaches(s0, events, s)
    ensures s.queued == Queued(s0, events) && s.entered == Entered(s0, events)
  {
    ReachesRecords(s0, events, s);
    Regroup(Queued(s0, events), [], []);
    Regroup(Entered(s0, events), [], []);
  }

  /** In every harmless run the waiters get in in the order of the calls of lock that found the mutex locked. */
  lemma RunIsFirstComeFirstServed(s0: State, events: seq<Event>, s: State)
    requires Init(s0) && Reaches(s0, events, s) && Harmless(s0, events)
    ensures Entered(s0, events) <= Queued(s0, events)
  {
    RunIsFairMutex(s0, events, s);
    RunRecords(s0, events, s);
  }

  /** The lock is with its holder, or on its way to a coroutine that waits for it. */
  ghost predicate LockIsSomewhere(s: State) {
    || (exists c :: 0 <= c < |s.phase| && (s.phase[c].Holding? || s.phase[c].Ready?))
    || (exists c :: 0 <= c < |s.phase| && s.phase[c].Handing? && Waits(s.phase, s.resumeId, s.phase[c].k))
    || (exists k :: k in s.sent && Waits(s.phase, s.resumeId, k))
  }

  lemma LockedIsSomewhere(s: State, b: Baton)
    requires Inv(s, b) && s.locked
    ensures LockIsSomewhere(s)
  {
    if b.Passing? || b.InMail? { CarriedWaits(s, b); }
    if b.Held? {
      assert s.phase[b.c].Holding?;
    } else if b.Arrived? {
      assert s.phase[b.k.co].Ready?;
    } else if b.Passing? {
      assert s.phase[b.c] == Handing(b.k);
    } else {
      assert b.k in s.sent;
    }
  }

  /** What the caller finds after a call. */
  ghost predicate CallDoes(s: State, e: Event, s': State)
    requires Enabled(s, e)
  {
    match e
    case TryLock(c) => if s.locked then s' == s else s'.locked && c < |s'.phase| && s'.phase[c] == Holding
    case Lock(c) =>
      && s'.locked && c < |s'.phase|
      && (if s.locked then IsWaiting(s'.phase[c]) && s'.waiters == s.waiters + [Ticket(c, s.resumeId[c])]
          else s'.phase[c] == Holding && s'.waiters == s.waiters)
    case Unlock(c) =>
      && c < |s'.phase| && !s'.phase[c].Holding? && (s'.locked <==> s.waiters != [])
      && (s.waiters != [] ==> s.waiters == [s.waiters[0]] + s'.waiters)
    case _ => true
  }

  /**
    After every harmless run: a free mutex is taken by whoever calls lock or try_lock; a locked one is
    left as it is by try_lock and makes the caller of lock wait, last in line; unlocking frees it if
    nobody is in line and takes the first out of the line otherwise. And a locked mutex is held, or
    on its way to somebody who waits for it.
  */
  lemma RunAnswersCalls(s0: State, events: seq<Event>, s: State, e: Event)
    requires Init(s0) && Reaches(s0, events, s) && Harmless(s0, events)
    ensures s.locked ==> LockIsSomewhere(s)
    ensures Enabled(s, e) ==> CallDoes(s, e, Apply(s, e))
  {
    var b := ReachableInv(s0, events, s);
    if s.locked { LockedIsSomewhere(s, b); }
    if Enabled(s, e) { StepDoes(s, e); }
  }

  lemma StepDoes(s: State, e: Event)
    requires Enabled(s, e) && (s.waiters != [] ==> s.locked) && (e.Unlock? ==> s.locked)
    ensures CallDoes(s, e, Apply(s, e))
  {
    if e.Unlock? && s.waiters != [] { assert s.waiters == [s.waiters[0]] + s.waiters[1..]; }
  }
}
