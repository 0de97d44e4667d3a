/**
  The coroutine runner of one message loop (base/coroutine/co_runner.cc and bstctx_impl.hpp): the
  ready, free and gc lists, the resume ids, and the resumers that other code keeps. Everything
  below happens on the loop's thread, one transition per operation, except `CallRemote`: a
  resumer called on another thread queues its work for the loop. A context switch is a
  transition; what a coroutine does between two switches is arbitrary.
*/
module CoRunner {
  import opened Resumers

  const MAIN: nat := 0
  const MIN_REUSE: nat := 64

  /** Coroutines are numbered in order of creation. `resumers`, and `woken`, are histories. */
  datatype State = State(
    resumeId: seq<nat>, alive: seq<bool>,
    ready: seq<nat>, free: seq<nat>, gc: seq<nat>,
    current: nat, maxReuse: nat, peak: nat,
    remote: seq<Ticket>,
    resumers: set<Ticket>, woken: seq<Ticket>,
    aborted: bool)

  datatype Event =
    | ResumeReady                              // Run: take the first ready coroutine
    | Spawn                                    // Run: reuse a free coroutine, or create one
    | FreeOne                                  // FreeCoros: destroy one collected coroutine
    | Retune(usage: nat, elapsed: bool)        // Run: adapt max_reuse_co_
    | MakeResumer                              // the running coroutine takes a ticket
    | CallLocal(ticket: Ticket)                // a resumer is called on the loop's thread
    | CallRemote(ticket: Ticket)               // a resumer is called on another thread
    | RunRemote                                // the loop runs a queued resume
    | Yield                                    // the running coroutine waits
    | Exit                                     // the running coroutine is out of tasks

  predicate Attached(s: State, co: nat) { co in s.ready || co in s.free || co in s.gc }

  function Max(a: nat, b: nat): nat { if a < b then b else a }

  predicate Enabled(s: State, e: Event) {
    !s.aborted && s.current < |s.resumeId| &&
    match e
    case ResumeReady => s.current == MAIN && s.ready != [] && s.ready[0] < |s.resumeId|
    case Spawn => s.current == MAIN && (s.free != [] ==> s.free[0] < |s.resumeId|)
    case FreeOne => s.current == MAIN && s.gc != [] && s.gc[0] < |s.alive|
    case Retune(_, _) => s.current == MAIN
    case MakeResumer => s.current != MAIN
    case CallLocal(ticket) => ticket in s.resumers
    case CallRemote(ticket) => ticket in s.resumers
    case RunRemote => s.remote != []
    case Yield => s.current != MAIN
    case Exit => s.current != MAIN
  }

  /** SwitchContext: the next coroutine becomes current and starts a new run period. */
  function SwitchTo(s: State, co: nat): State
    requires co < |s.resumeId|
  {
    s.(current := co, resumeId := s.resumeId[co := s.resumeId[co] + 1])
  }

  /** The body of a resumer, on the loop's thread. */
  function DoResume(s: State, ticket: Ticket): State {
    if ticket.co < |s.alive| == |s.resumeId| && s.alive[ticket.co]
       && s.resumeId[ticket.co] == ticket.period && !Attached(s, ticket.co)
    then s.(ready := s.ready + [ticket.co], woken := s.woken + [ticket])
    else s
  }

  function Apply(s: State, e: Event): State
    requires Enabled(s, e)
  {
    match e
    case ResumeReady => SwitchTo(s.(ready := s.ready[1..]), s.ready[0])
    case Spawn =>
      if s.free != [] then SwitchTo(s.(free := s.free[1..]), s.free[0])
      else SwitchTo(s.(resumeId := s.resumeId + [0], alive := s.alive + [true]), |s.resumeId|)
    case FreeOne => s.(gc := s.gc[1..], alive := s.alive[s.gc[0] := false])
    case Retune(usage, elapsed) =>
      var peak := Max(s.peak, usage);
      s.(peak := peak, maxReuse := if elapsed then Max(MIN_REUSE, peak) else s.maxReuse)
    case MakeResumer => s.(resumers := s.resumers + {Ticket(s.current, s.resumeId[s.current])})
    case CallLocal(ticket) => DoResume(s, ticket)
    case CallRemote(ticket) => s.(remote := s.remote + [ticket])
    case RunRemote => DoResume(s.(remote := s.remote[1..]), s.remote[0])
    case Yield => SwitchTo(s, MAIN)
    case Exit =>
      if Attached(s, s.current) then s.(aborted := true)
      else if |s.free| < s.maxReuse then SwitchTo(s.(free := s.free + [s.current]), MAIN)
      else SwitchTo(s.(gc := s.gc + [s.current]), MAIN)
  }

  /** The main coroutine alone. */
  const START := State([0], [true], [], [], [], MAIN, MIN_REUSE, 0, [], {}, [], false)

  predicate Init(s: State) { s == START }

  ghost predicate Reaches(s: State, events: seq<Event>, s': State)
    decreases |events|
  {
    if events == [] then s' == s
    else Enabled(s, events[0]) && Reaches(Apply(s, events[0]), events[1..], s')
  }

  // ---------------------------------------------------------------------------
  // The invariant
  // ---------------------------------------------------------------------------

  /** How often a coroutine occurs on the three lists together. */
  function Places(ready: seq<nat>, free: seq<nat>, gc: seq<nat>, co: nat): nat {
    multiset(ready)[co] + multiset(free)[co] + multiset(gc)[co]
  }

  ghost predicate NoneTwice(ready: seq<nat>, free: seq<nat>, gc: seq<nat>) {
    forall co: nat :: Places(ready, free, gc, co) <= 1
  }

  /** Every coroutine on a list is a live coroutine other than main, and on no list twice. */
  ghost predicate ListsOk(s: State) {
    && |s.alive| == |s.resumeId| > 0 && s.current < |s.resumeId|
    && NoneTwice(s.ready, s.free, s.gc)
    && (forall co :: co in s.ready ==> 0 < co < |s.alive| && s.alive[co])
    && (forall co :: co in s.free ==> 0 < co < |s.alive| && s.alive[co])
    && (forall co :: co in s.gc ==> 0 < co < |s.alive| && s.alive[co])
    && s.current !in s.free && s.current !in s.gc
    && s.alive[MAIN] && s.alive[s.current]
  }

  /** A ticket that put its coroutine on the ready list is spent for good once that is resumed. */
  predicate TicketsOk(s: State) {
    && (forall i :: 0 <= i < |s.woken| ==> Spent(s, s.woken[i]))
    && (forall i, j :: 0 <= i < j < |s.woken| ==> s.woken[i] != s.woken[j])
    && (forall co :: co in s.ready && co < |s.resumeId| ==> Ticket(co, s.resumeId[co]) in s.woken)
    && (forall k :: k in s.resumers ==> Issued(s, k))
    && (forall i :: 0 <= i < |s.remote| ==> Issued(s, s.remote[i]))
  }

  predicate Issued(s: State, k: Ticket) { 0 < k.co < |s.resumeId| && k.period <= s.resumeId[k.co] }

  predicate Spent(s: State, k: Ticket) {
    Issued(s, k) && (k.period < s.resumeId[k.co] || k.co in s.ready)
  }

  ghost predicate Inv(s: State) {
    ListsOk(s) && TicketsOk(s) && |s.free| <= s.maxReuse <= Max(MIN_REUSE, s.peak)
  }

  lemma AttachedPlaces(s: State, co: nat)
    ensures Attached(s, co) <==> Places(s.ready, s.free, s.gc, co) > 0
    ensures NoneTwice(s.ready, s.free, s.gc) ==>
      !(co in s.ready && co in s.free) && !(co in s.ready && co in s.gc) && !(co in s.free && co in s.gc)
  {
    assert co in multiset(s.ready) <==> co in s.ready;
    assert co in multiset(s.free) <==> co in s.free;
    assert co in multiset(s.gc) <==> co in s.gc;
  }

  /** Taking the first element off a list that shares nothing leaves nothing of it behind. */
  lemma PopFirst(s: State, list: seq<nat>)
    requires NoneTwice(s.ready, s.free, s.gc) && list != []
    requires list == s.ready || list == s.free || list == s.gc
    ensures multiset(list) == multiset(list[1..]) + multiset{list[0]}
    ensures list[0] !in list[1..] && forall co :: co in list[1..] ==> co in list
  {
    assert list == [list[0]] + list[1..];
    assert Places(s.ready, s.free, s.gc, list[0]) <= 1;
    assert list[0] in multiset(list[1..]) <==> list[0] in list[1..];
  }

  lemma DoResumeKeepsInv(s: State, k: Ticket)
    requires Inv(s) && Issued(s, k)
    ensures Inv(DoResume(s, k))
  {
    AttachedPlaces(s, k.co);
    var s' := DoResume(s, k);
    forall co: nat ensures Places(s'.ready, s'.free, s'.gc, co) <= 1 {
      assert Places(s.ready, s.free, s.gc, co) <= 1;
    }
  }

  lemma ResumeReadyKeepsInv(s: State)
    requires Inv(s) && Enabled(s, ResumeReady)
    ensures Inv(Apply(s, ResumeReady))
  {
    var s' := Apply(s, ResumeReady);
    PopFirst(s, s.ready);
    AttachedPlaces(s, s.ready[0]);
    forall co: nat ensures Places(s'.ready, s'.free, s'.gc, co) <= 1 {
      assert Places(s.ready, s.free, s.gc, co) <= 1;
    }
  }

  /** A coroutine of the free list is reused. */
  lemma ReuseKeepsInv(s: State)
    requires Inv(s) && Enabled(s, Spawn) && s.free != []
    ensures Inv(Apply(s, Spawn))
  {
    var s' := Apply(s, Spawn);
    PopFirst(s, s.free);
    AttachedPlaces(s, s.free[0]);
    forall co: nat ensures Places(s'.ready, s'.free, s'.gc, co) <= 1 {
      assert Places(s.ready, s.free, s.gc, co) <= 1;
    }
    SwitchKeepsTickets(s.(free := s.free[1..]), s.free[0]);
  }

  lemma SpawnKeepsInv(s: State)
    requires Inv(s) && Enabled(s, Spawn)
    ensures Inv(Apply(s, Spawn))
  {
    if s.free != [] { ReuseKeepsInv(s); }
  }

  lemma FreeOneKeepsInv(s: State)
    requires Inv(s) && Enabled(s, FreeOne)
    ensures Inv(Apply(s, FreeOne))
  {
    var s' := Apply(s, FreeOne);
    PopFirst(s, s.gc);
    AttachedPlaces(s, s.gc[0]);
    forall co: nat ensures Places(s'.ready, s'.free, s'.gc, co) <= 1 {
      assert Places(s.ready, s.free, s.gc, co) <= 1;
    }
  }

  lemma ParkKeepsLists(s: State, list: seq<nat>, list': seq<nat>)
    requires NoneTwice(s.ready, s.free, s.gc) && !Attached(s, s.current) && list' == list + [s.current]
    ensures list == s.free ==> NoneTwice(s.ready, list', s.gc)
    ensures list == s.gc ==> NoneTwice(s.ready, s.free, list')
  {
    AttachedPlaces(s, s.current);
    forall co: nat
      ensures list == s.free ==> Places(s.ready, list', s.gc, co) <= 1
      ensures list == s.gc ==> Places(s.ready, s.free, list', co) <= 1
    {
      assert Places(s.ready, s.free, s.gc, co) <= 1;
    }
  }

  lemma SwitchKeepsTickets(s: State, co: nat)
    requires TicketsOk(s) && co < |s.resumeId| && co !in s.ready
    ensures TicketsOk(SwitchTo(s, co))
  {
  }

  lemma ExitKeepsInv(s: State)
    requires Inv(s) && Enabled(s, Exit)
    ensures Inv(Apply(s, Exit))
  {
    if !Attached(s, s.current) {
      ParkKeepsLists(s, s.free, s.free + [s.current]);
      ParkKeepsLists(s, s.gc, s.gc + [s.current]);
      if |s.free| < s.maxReuse {
        ParkedKeepsTickets(s, s.(free := s.free + [s.current]));
      } else {
        ParkedKeepsTickets(s, s.(gc := s.gc + [s.current]));
      }
    }
  }

  lemma ParkedKeepsTickets(s: State, parked: State)
    requires Inv(s) && !Attached(s, s.current) && parked == s.(free := parked.free, gc := parked.gc)
    ensures TicketsOk(SwitchTo(parked, MAIN))
  {
    assert TicketsOk(parked);
    SwitchKeepsTickets(parked, MAIN);
  }

  lemma StepKeepsInv(s: State, e: Event)
    requires Inv(s) && Enabled(s, e)
    ensures Inv(Apply(s, e))
  {
    match e
    case ResumeReady => ResumeReadyKeepsInv(s);
    case Spawn => SpawnKeepsInv(s);
    case FreeOne => FreeOneKeepsInv(s);
    case CallLocal(k) => DoResumeKeepsInv(s, k);
    case RunRemote => DoResumeKeepsInv(s.(remote := s.remote[1..]), s.remote[0]);
    case Exit => ExitKeepsInv(s);
    case _ => QuietKeepsInv(s, e);
  }

  /** The events that touch no list. */
  lemma QuietKeepsInv(s: State, e: Event)
    requires Inv(s) && Enabled(s, e) && (e.Retune? || e.MakeResumer? || e.CallRemote? || e.Yield?)
    ensures Inv(Apply(s, e))
  {
    if e.Yield? { SwitchKeepsTickets(s, MAIN); }
  }

  lemma {:induction false} ReachesKeepsInv(s: State, events: seq<Event>, s': State)
    requires Inv(s) && Reaches(s, events, s')
    ensures Inv(s')
    decreases |events|
  {
    if events != [] {
      StepKeepsInv(s, events[0]);
      ReachesKeepsInv(Apply(s, events[0]), events[1..], s');
    }
  }

  // ---------------------------------------------------------------------------
  // What every run guarantees
  // ---------------------------------------------------------------------------

  /**
    A ticket can no longer act: its coroutine has been resumed since, or is parked on the free or
    the gc list, or is gone.
  */
  predicate Expired(s: State, k: Ticket) {
    k.co < |s.alive| == |s.resumeId|
    && (!s.alive[k.co] || k.period < s.resumeId[k.co] || k.co in s.free || k.co in s.gc)
  }

  lemma StepKeepsExpired(s: State, e: Event, k: Ticket)
    requires Inv(s) && Enabled(s, e) && Expired(s, k) && k.period <= s.resumeId[k.co]
    ensures Expired(Apply(s, e), k) && k.period <= Apply(s, e).resumeId[k.co]
  {
    if e == Spawn && s.free != [] {
      assert s.free == [s.free[0]] + s.free[1..];
    } else if e == FreeOne {
      assert s.gc == [s.gc[0]] + s.gc[1..];
    }
  }

  lemma {:induction false} ExpiredForGood(s: State, events: seq<Event>, s': State, k: Ticket)
    requires Inv(s) && Reaches(s, events, s') && Expired(s, k) && k.period <= s.resumeId[k.co]
    ensures Expired(s', k) && DoResume(s', k) == s'
    decreases |events|
  {
    if events != [] {
      StepKeepsInv(s, events[0]);
      StepKeepsExpired(s, events[0], k);
      ExpiredForGood(Apply(s, events[0]), events[1..], s', k);
    }
  }

  /** A coroutine is on no list, or on exactly one, once; and the free list keeps to its limit. */
  ghost predicate ListsExclusive(s: State) {
    && NoneTwice(s.ready, s.free, s.gc)
    && (forall co :: 0 <= co < |s.resumeId| ==>
          (Attached(s, co) <==> Places(s.ready, s.free, s.gc, co) == 1))
    && |s.free| <= s.maxReuse
  }

  /**
    In every run: each ticket puts its coroutine on the ready list at most once, over all copies
    and all calls on any thread; and the three lists stay disjoint.
  */
  lemma RunWakesOncePerPeriod(s0: State, events: seq<Event>, s: State)
    requires Init(s0) && Reaches(s0, events, s)
    ensures forall i, j :: 0 <= i < j < |s.woken| ==> s.woken[i] != s.woken[j]
    ensures ListsExclusive(s)
  {
    ReachesKeepsInv(s0, events, s);
    forall co | 0 <= co < |s.resumeId|
      ensures Attached(s, co) <==> Places(s.ready, s.free, s.gc, co) == 1
    {
      AttachedPlaces(s, co);
      assert Places(s.ready, s.free, s.gc, co) <= 1;
    }
  }

  /**
    In every run: once the coroutine of a ticket was resumed again, recycled or freed, calling
    that ticket changes nothing, then and forever.
  */
  lemma RunNeverWakesLate(s0: State, past: seq<Event>, s: State, k: Ticket, future: seq<Event>, s': State)
    requires Init(s0) && Reaches(s0, past, s) && k in s.resumers && Expired(s, k)
    requires Reaches(s, future, s')
    ensures DoResume(s', k) == s'
  {
    ReachesKeepsInv(s0, past, s);
    ExpiredForGood(s, future, s', k);
  }

  /** The ready list after the call of a resumer. */
  function ReadyAfter(s: State, k: Ticket): seq<nat> {
    if Expired(s, k) || k.co in s.ready then s.ready else s.ready + [k.co]
  }

  lemma ResumeIs(s: State, k: Ticket)
    requires |s.alive| == |s.resumeId| && Issued(s, k)
    ensures DoResume(s, k).ready == ReadyAfter(s, k)
    ensures DoResume(s, k) == s.(ready := ReadyAfter(s, k), woken := DoResume(s, k).woken)
    ensures DoResume(s, k).woken == if ReadyAfter(s, k) == s.ready then s.woken else s.woken + [k]
  {
  }

  lemma CallLocalIs(s: State, k: Ticket)
    requires Inv(s) && Enabled(s, CallLocal(k))
    ensures var s' := Apply(s, CallLocal(k)); s' == s.(ready := ReadyAfter(s, k), woken := s'.woken)
  {
    ResumeIs(s, k);
  }

  lemma RunRemoteIs(s: State)
    requires Inv(s) && Enabled(s, RunRemote)
    ensures var s' := Apply(s, RunRemote);
      s' == s.(ready := ReadyAfter(s, s.remote[0]), remote := s.remote[1..], woken := s'.woken)
  {
    assert Issued(s, s.remote[0]);
    ResumeIs(s.(remote := s.remote[1..]), s.remote[0]);
  }

  /**
    In every run: a ticket that has not expired puts its coroutine at the end of the ready list,
    unless it is there already, and any other leaves everything as it is; when it is called on the
    loop's thread at once, and when it was called on another thread as soon as the loop gets to it.
  */
  lemma RunWakesExactly(s0: State, events: seq<Event>, s: State, k: Ticket)
    requires Init(s0) && Reaches(s0, events, s)
    ensures k in s.resumers ==>
      DoResume(s, k) == s.(ready := ReadyAfter(s, k), woken := DoResume(s, k).woken)
    ensures k in s.resumers ==>
      DoResume(s, k).woken == if Expired(s, k) || k.co in s.ready then s.woken else s.woken + [k]
    ensures Enabled(s, CallLocal(k)) ==>
      var s' := Apply(s, CallLocal(k)); s' == s.(ready := ReadyAfter(s, k), woken := s'.woken)
    ensures Enabled(s, CallRemote(k)) ==> Apply(s, CallRemote(k)) == s.(remote := s.remote + [k])
    ensures Enabled(s, RunRemote) ==>
      var s' := Apply(s, RunRemote);
      s' == s.(ready := ReadyAfter(s, s.remote[0]), remote := s.remote[1..], woken := s'.woken)
  {
    ReachesKeepsInv(s0, events, s);
    if k in s.resumers { ResumeIs(s, k); }
    if Enabled(s, CallLocal(k)) { CallLocalIs(s, k); }
    if Enabled(s, RunRemote) { RunRemoteIs(s); }
  }

  /** Such a run: a coroutine that has called its own resumer and then runs out of tasks aborts. */
  lemma ExitCanAbort() returns (s0: State, s: State)
    ensures Init(s0) && Reaches(s0, [Spawn, MakeResumer, CallLocal(Ticket(1, 1)), Exit], s) && s.aborted
  {
    s0 := START;
    var k := Ticket(1, 1);
    var s1 := Apply(s0, Spawn);
    var s2 := Apply(s1, MakeResumer);
    var s3 := Apply(s2, CallLocal(k));
    s := Apply(s3, Exit);
    assert s2.resumers == {k} && s3.ready == [1];
    Prepend(s3, Exit, [], s);
    Prepend(s2, CallLocal(k), [Exit], s);
    Prepend(s1, MakeResumer, [CallLocal(k)] + [Exit], s);
    Prepend(s0, Spawn, [MakeResumer] + ([CallLocal(k)] + [Exit]), s);
    assert [Spawn, MakeResumer, CallLocal(k), Exit] == [Spawn] + ([MakeResumer] + ([CallLocal(k)] + [Exit]));
  }

  lemma Prepend(s: State, e: Event, rest: seq<Event>, s': State)
    requires Enabled(s, e) && Reaches(Apply(s, e), rest, s')
    ensures Reaches(s, [e] + rest, s')
  {
    assert ([e] + rest)[1..] == rest;
  }

  /**
    In every run: a coroutine is ready exactly when a ticket of its present period was called, it
    stays ready until it is resumed, and running out of tasks while it is ready aborts.
  */
  lemma RunKeepsWakeups(s0: State, events: seq<Event>, s: State, co: nat, e: Event)
    requires Init(s0) && Reaches(s0, events, s) && co < |s.resumeId|
    ensures co in s.ready <==> Ticket(co, s.resumeId[co]) in s.woken
    ensures Enabled(s, e) && co in s.ready ==>
      co in Apply(s, e).ready || (Apply(s, e).current == co && Apply(s, e).resumeId[co] == s.resumeId[co] + 1)
    ensures Enabled(s, Exit) ==> (Apply(s, Exit).aborted <==> s.current in s.ready)
  {
    ReachesKeepsInv(s0, events, s);
    if Enabled(s, e) && e == ResumeReady {
      assert s.ready == [s.ready[0]] + s.ready[1..];
    }
  }
}
