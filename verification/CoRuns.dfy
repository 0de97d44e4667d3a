/**
  Runs of the coroutine runner told by their events: who was woken, who was resumed and in which
  order, which coroutines wait, and how many may be kept for reuse. Nothing here rests on the
  histories that the states of `CoRunner` carry along.
*/
module CoRuns {
  import opened CoRunner
  import opened Resumers

  /** The tickets called on other threads, in order. */
  function RemoteCalls(events: seq<Event>): seq<Ticket> {
    if events == [] then [] else RemoteCall(events[0]) + RemoteCalls(events[1..])
  }

  function RemoteCall(e: Event): seq<Ticket> { if e.CallRemote? then [e.ticket] else [] }

  /** The tickets called on other threads that the loop has got to, in order. */
  function RemoteTaken(s: State, events: seq<Event>): seq<Ticket>
    decreases |events|
  {
    if events == [] || !Enabled(s, events[0]) then []
    else Takes(s, events[0]) + RemoteTaken(Apply(s, events[0]), events[1..])
  }

  function Takes(s: State, e: Event): seq<Ticket>
    requires Enabled(s, e)
  {
    if e.RunRemote? then [s.remote[0]] else []
  }

  /** Whom an event wakes: the coroutine of a called ticket that has not expired, unless it is ready. */
  function Wakes(s: State, e: Event): seq<nat>
    requires Enabled(s, e)
  {
    if e.CallLocal? then WokenBy(s, e.ticket) else if e.RunRemote? then WokenBy(s, s.remote[0]) else []
  }

  function WokenBy(s: State, k: Ticket): seq<nat> { if Expired(s, k) || k.co in s.ready then [] else [k.co] }

  function Woken(s: State, events: seq<Event>): seq<nat>
    decreases |events|
  {
    if events == [] || !Enabled(s, events[0]) then []
    else Wakes(s, events[0]) + Woken(Apply(s, events[0]), events[1..])
  }

  /** Who gets to run by way of the ready list. */
  function Resumes(s: State, e: Event): seq<nat>
    requires Enabled(s, e)
  {
    if e.ResumeReady? then [Apply(s, e).current] else []
  }

  function Resumed(s: State, events: seq<Event>): seq<nat>
    decreases |events|
  {
    if events == [] || !Enabled(s, events[0]) then []
    else Resumes(s, events[0]) + Resumed(Apply(s, events[0]), events[1..])
  }

  lemma StepServes(s: State, e: Event)
    requires Inv(s) && Enabled(s, e)
    ensures s.ready + Wakes(s, e) == Resumes(s, e) + Apply(s, e).ready
  {
    if e.CallLocal? {
      CallLocalIs(s, e.ticket);
    } else if e.RunRemote? {
      RunRemoteIs(s);
    } else {
      OtherStepServes(s, e);
    }
  }

  lemma OtherStepServes(s: State, e: Event)
    requires Enabled(s, e) && !e.CallLocal? && !e.RunRemote?
    ensures s.ready + [] == Resumes(s, e) + Apply(s, e).ready
  {
    if e.ResumeReady? { assert s.ready == [s.ready[0]] + s.ready[1..]; }
  }

  lemma StepQueues(s: State, e: Event)
    requires Enabled(s, e)
    ensures s.remote + RemoteCall(e) == Takes(s, e) + Apply(s, e).remote
  {
  }

  lemma Regroup<T>(a: seq<T>, b: seq<T>, c: seq<T>, d: seq<T>, e: seq<T>, f: seq<T>, g: seq<T>)
    requires a + b == d + e && e + c == f + g
    ensures a + (b + c) == (d + f) + g
  {
    assert a + (b + c) == (a + b) + c == (d + e) + c == d + (e + c) == d + (f + g);
  }

  lemma {:induction false} ReachesServes(s: State, events: seq<Event>, s': State)
    requires Inv(s) && Reaches(s, events, s')
    ensures s.ready + Woken(s, events) == Resumed(s, events) + s'.ready
    decreases |events|
  {
    if events != [] {
      var e, s1, rest := events[0], Apply(s, events[0]), events[1..];
      StepServes(s, e);
      StepKeepsInv(s, e);
      ReachesServes(s1, rest, s');
      Regroup(s.ready, Wakes(s, e), Woken(s1, rest), Resumes(s, e), s1.ready, Resumed(s1, rest), s'.ready);
    }
  }

  lemma {:induction false} ReachesQueues(s: State, events: seq<Event>, s': State)
    requires Reaches(s, events, s')
    ensures s.remote + RemoteCalls(events) == RemoteTaken(s, events) + s'.remote
    decreases |events|
  {
    if events != [] {
      var e, s1, rest := events[0], Apply(s, events[0]), events[1..];
      StepQueues(s, e);
      ReachesQueues(s1, rest, s');
      Regroup(s.remote, RemoteCall(e), RemoteCalls(rest), Takes(s, e), s1.remote, RemoteTaken(s1, rest), s'.remote);
    }
  }

  /**
    In every run: the coroutines that ran by way of the ready list, and then those on it, are the
    ones whose live tickets were called, in the order of the calls; and calls on other threads are
    got to in the order in which they were made, none dropped.
  */
  lemma RunServesInOrder(s0: State, events: seq<Event>, s: State)
    requires Init(s0) && Reaches(s0, events, s)
    ensures Resumed(s0, events) + s.ready == Woken(s0, events)
    ensures RemoteTaken(s0, events) + s.remote == RemoteCalls(events)
  {
    ReachesServes(s0, events, s);
    ReachesQueues(s0, events, s);
    assert [] + Woken(s0, events) == Woken(s0, events);
    assert [] + RemoteCalls(events) == RemoteCalls(events);
  }

  // ---------------------------------------------------------------------------
  // Ready means called
  // ---------------------------------------------------------------------------

  /** The tickets whose call has got to the loop. */
  function Calls(s: State, e: Event): set<Ticket>
    requires Enabled(s, e)
  {
    if e.CallLocal? then {e.ticket} else if e.RunRemote? then {s.remote[0]} else {}
  }

  function Called(s: State, called: set<Ticket>, events: seq<Event>): set<Ticket>
    decreases |events|
  {
    if events == [] || !Enabled(s, events[0]) then called
    else Called(Apply(s, events[0]), called + Calls(s, events[0]), events[1..])
  }

  /** A ready coroutine has had its ticket called, and one whose ticket was called is ready, or done. */
  ghost predicate ReadyOk(s: State, called: set<Ticket>, co: nat)
    requires |s.alive| == |s.resumeId|
  {
    co < |s.resumeId| ==> var k := Ticket(co, s.resumeId[co]);
      (co in s.ready ==> k in called) && (k in called ==> co in s.ready || Expired(s, k))
  }

  ghost predicate CalledOk(s: State, called: set<Ticket>) {
    && |s.alive| == |s.resumeId|
    && (forall k :: k in called ==> Issued(s, k))
    && (forall co: nat :: ReadyOk(s, called, co))
  }

  lemma CallKeepsReady(s: State, called: set<Ticket>, e: Event, co: nat)
    requires Inv(s) && Enabled(s, e) && CalledOk(s, called) && (e.CallLocal? || e.RunRemote?)
    ensures ReadyOk(Apply(s, e), called + Calls(s, e), co)
  {
    assert ReadyOk(s, called, co);
    if e.CallLocal? { CallLocalIs(s, e.ticket); } else { RunRemoteIs(s); }
  }

  lemma StepKeepsReady(s: State, called: set<Ticket>, e: Event, co: nat)
    requires Inv(s) && Enabled(s, e) && Inv(Apply(s, e)) && CalledOk(s, called) && !e.CallLocal? && !e.RunRemote?
    ensures ReadyOk(Apply(s, e), called + Calls(s, e), co)
  {
    assert ReadyOk(s, called, co);
    if e.ResumeReady? {
      assert s.ready == [s.ready[0]] + s.ready[1..];
    } else if e.Spawn? && s.free != [] {
      assert s.free == [s.free[0]] + s.free[1..];
    } else if e.FreeOne? {
      assert s.gc == [s.gc[0]] + s.gc[1..];
    }
  }

  lemma StepKeepsIssued(s: State, called: set<Ticket>, e: Event)
    requires Inv(s) && Enabled(s, e) && CalledOk(s, called)
    ensures forall k :: k in called + Calls(s, e) ==> Issued(Apply(s, e), k)
  {
    if e.RunRemote? { assert Issued(s, s.remote[0]); }
  }

  lemma {:induction false} ReachesCalls(s: State, called: set<Ticket>, events: seq<Event>, s': State)
    requires Inv(s) && CalledOk(s, called) && Reaches(s, events, s')
    ensures CalledOk(s', Called(s, called, events))
    decreases |events|
  {
    if events != [] {
      var e := events[0];
      StepKeepsInv(s, e);
      StepKeepsIssued(s, called, e);
      forall co: nat ensures ReadyOk(Apply(s, e), called + Calls(s, e), co) {
        if e.CallLocal? || e.RunRemote? { CallKeepsReady(s, called, e, co); } else { StepKeepsReady(s, called, e, co); }
      }
      ReachesCalls(Apply(s, e), called + Calls(s, e), events[1..], s');
    }
  }

  /**
    In every run: a coroutine that lives and is neither kept for reuse nor to be freed is ready if
    and only if a ticket of its present period was called, on this thread or another.
  */
  lemma RunReadyIffCalled(s0: State, events: seq<Event>, s: State, co: nat)
    requires Init(s0) && Reaches(s0, events, s)
    ensures |s.alive| == |s.resumeId|
    ensures co < |s.alive| && s.alive[co] && co !in s.free && co !in s.gc ==>
      (co in s.ready <==> Ticket(co, s.resumeId[co]) in Called(s0, {}, events))
  {
    ReachesCalls(s0, {}, events, s);
    assert ReadyOk(s, Called(s0, {}, events), co);
  }

  // ---------------------------------------------------------------------------
  // No coroutine is lost
  // ---------------------------------------------------------------------------

  /** Who waits after an event: whoever yields, unless it is ready again already, until it is woken. */
  function NextWaiting(s: State, waiting: set<nat>, e: Event): set<nat>
    requires Enabled(s, e)
  {
    if e.Yield? then if s.current in s.ready then waiting else waiting + {s.current}
    else set co | co in waiting && co !in Wakes(s, e)
  }

  function Waiting(s: State, waiting: set<nat>, events: seq<Event>): set<nat>
    decreases |events|
  {
    if events == [] || !Enabled(s, events[0]) then waiting
    else Waiting(Apply(s, events[0]), NextWaiting(s, waiting, events[0]), events[1..])
  }

  /** A coroutine that lives is running, waiting, or on one of the lists, and a waiting one nothing else. */
  ghost predicate PlaceOk(s: State, waiting: set<nat>, co: nat) {
    && (0 < co < |s.alive| && s.alive[co] ==> co == s.current || Attached(s, co) || co in waiting)
    && (co in waiting ==> 0 < co < |s.alive| && s.alive[co] && co != s.current && !Attached(s, co))
  }

  ghost predicate Located(s: State, waiting: set<nat>) { forall co: nat :: PlaceOk(s, waiting, co) }

  lemma ResumeKeepsPlace(s: State, waiting: set<nat>, co: nat)
    requires Inv(s) && Enabled(s, ResumeReady) && PlaceOk(s, waiting, co)
    ensures PlaceOk(Apply(s, ResumeReady), NextWaiting(s, waiting, ResumeReady), co)
  {
    PopFirst(s, s.ready);
    AttachedPlaces(s, s.ready[0]);
    assert s.ready == [s.ready[0]] + s.ready[1..];
  }

  lemma SpawnKeepsPlace(s: State, waiting: set<nat>, co: nat)
    requires Inv(s) && Enabled(s, Spawn) && PlaceOk(s, waiting, co)
    ensures PlaceOk(Apply(s, Spawn), NextWaiting(s, waiting, Spawn), co)
  {
    if s.free != [] {
      PopFirst(s, s.free);
      AttachedPlaces(s, s.free[0]);
      assert s.free == [s.free[0]] + s.free[1..];
    }
  }

  lemma FreeKeepsPlace(s: State, waiting: set<nat>, co: nat)
    requires Inv(s) && Enabled(s, FreeOne) && PlaceOk(s, waiting, co)
    ensures PlaceOk(Apply(s, FreeOne), NextWaiting(s, waiting, FreeOne), co)
  {
    PopFirst(s, s.gc);
    AttachedPlaces(s, s.gc[0]);
    assert s.gc == [s.gc[0]] + s.gc[1..];
  }

  lemma ExitKeepsPlace(s: State, waiting: set<nat>, co: nat)
    requires Inv(s) && Enabled(s, Exit) && PlaceOk(s, waiting, co)
    ensures PlaceOk(Apply(s, Exit), NextWaiting(s, waiting, Exit), co)
  {
  }

  lemma CallKeepsPlace(s: State, waiting: set<nat>, e: Event, co: nat)
    requires Inv(s) && Enabled(s, e) && PlaceOk(s, waiting, co) && (e.CallLocal? || e.RunRemote?)
    ensures PlaceOk(Apply(s, e), NextWaiting(s, waiting, e), co)
  {
    if e.CallLocal? { CallLocalIs(s, e.ticket); } else { RunRemoteIs(s); }
  }

  lemma StepKeepsPlace(s: State, waiting: set<nat>, e: Event, co: nat)
    requires Inv(s) && Enabled(s, e) && PlaceOk(s, waiting, co)
    ensures PlaceOk(Apply(s, e), NextWaiting(s, waiting, e), co)
  {
    match e
    case ResumeReady => ResumeKeepsPlace(s, waiting, co);
    case Spawn => SpawnKeepsPlace(s, waiting, co);
    case FreeOne => FreeKeepsPlace(s, waiting, co);
    case Exit => ExitKeepsPlace(s, waiting, co);
    case CallLocal(_) => CallKeepsPlace(s, waiting, e, co);
    case RunRemote => CallKeepsPlace(s, waiting, e, co);
    case _ =>
  }

  lemma {:induction false} ReachesLocates(s: State, waiting: set<nat>, events: seq<Event>, s': State)
    requires Inv(s) && Located(s, waiting) && Reaches(s, events, s')
    ensures Located(s', Waiting(s, waiting, events))
    decreases |events|
  {
    if events != [] {
      var e := events[0];
      forall co: nat ensures PlaceOk(Apply(s, e), NextWaiting(s, waiting, e), co) {
        assert PlaceOk(s, waiting, co);
        StepKeepsPlace(s, waiting, e, co);
      }
      StepKeepsInv(s, e);
      ReachesLocates(Apply(s, e), NextWaiting(s, waiting, e), events[1..], s');
    }
  }

  /**
    In every run no coroutine is lost: each that lives is running, on one of the three lists, or has
    yielded and not been woken since; and the ones that wait are on no list.
  */
  lemma RunLosesNoCoroutine(s0: State, events: seq<Event>, s: State)
    requires Init(s0) && Reaches(s0, events, s)
    ensures Located(s, Waiting(s0, {}, events))
  {
    ReachesLocates(s0, {}, events, s);
  }

  // ---------------------------------------------------------------------------
  // Who runs, and how many are kept
  // ---------------------------------------------------------------------------

  /**
    In every run: a spawned coroutine is the one longest free, or else a new one, on no list, and no
    ticket made before can act on it; one that yields or runs out of tasks gives way to main, and
    then is kept while there is room; a ticket is made for the running coroutine and can act.
  */
  lemma RunSwitches(s0: State, events: seq<Event>, s: State)
    requires Init(s0) && Reaches(s0, events, s)
    ensures Enabled(s, Spawn) ==> var s' := Apply(s, Spawn);
      && s'.current == (if s.free == [] then |s.alive| else s.free[0])
      && s'.current != MAIN && !Attached(s', s'.current)
      && forall k :: k in s.resumers && k.co == s'.current ==> Expired(s', k)
    ensures Enabled(s, Yield) ==> Apply(s, Yield).current == MAIN
    ensures Enabled(s, Exit) && s.current !in s.ready ==> var s' := Apply(s, Exit);
      && s'.current == MAIN
      && (if |s.free| < s.maxReuse then s'.free == s.free + [s.current] else s'.gc == s.gc + [s.current])
    ensures Enabled(s, MakeResumer) ==> var s' := Apply(s, MakeResumer);
      exists k :: s'.resumers == s.resumers + {k} && k.co == s.current && !Expired(s', k)
  {
    ReachesKeepsInv(s0, events, s);
    if Enabled(s, Spawn) { SpawnIsFresh(s); }
    if Enabled(s, MakeResumer) {
      var k := Ticket(s.current, s.resumeId[s.current]);
      assert Apply(s, MakeResumer).resumers == s.resumers + {k};
    }
  }

  lemma SpawnIsFresh(s: State)
    requires Inv(s) && Enabled(s, Spawn)
    ensures var s' := Apply(s, Spawn);
      && s'.current == (if s.free == [] then |s.alive| else s.free[0])
      && s'.current != MAIN && !Attached(s', s'.current)
      && forall k :: k in s.resumers && k.co == s'.current ==> Expired(s', k)
  {
    if s.free != [] {
      PopFirst(s, s.free);
      AttachedPlaces(s, s.free[0]);
    }
  }

  /** The most coroutines a turn of the loop used, and the bound that a second's turns set. */
  ghost predicate Tuned(s: State, past: set<nat>) {
    && (forall usage :: usage in past ==> usage <= s.peak)
    && (s.peak == 0 || s.peak in past)
    && MIN_REUSE <= s.maxReuse <= Max(MIN_REUSE, s.peak)
  }

  function Usages(events: seq<Event>): set<nat> {
    if events == [] then {} else (if events[0].Retune? then {events[0].usage} else {}) + Usages(events[1..])
  }

  lemma {:induction false} ReachesTunes(s: State, past: set<nat>, events: seq<Event>, s': State)
    requires Tuned(s, past) && Reaches(s, events, s')
    ensures Tuned(s', past + Usages(events))
    decreases |events|
  {
    if events == [] {
      assert past + {} == past;
    } else {
      var here := if events[0].Retune? then {events[0].usage} else {};
      ReachesTunes(Apply(s, events[0]), past + here, events[1..], s');
      assert (past + here) + Usages(events[1..]) == past + Usages(events);
    }
  }

  /**
    In every run: the peak is the greatest usage reported so far, and the bound on the free list is
    never below its minimum nor above that peak, and is raised to it when a second has passed.
  */
  lemma RunTunes(s0: State, events: seq<Event>, s: State, usage: nat)
    requires Init(s0) && Reaches(s0, events, s)
    ensures Tuned(s, Usages(events))
    ensures Enabled(s, Retune(usage, true)) ==>
      var s' := Apply(s, Retune(usage, true)); s'.maxReuse == Max(MIN_REUSE, s'.peak)
  {
    ReachesTunes(s0, {}, events, s);
    assert {} + Usages(events) == Usages(events);
  }
}
