/**
  The hand-off mutex for coroutines (base/coroutine/co_mutex.cc) over the resume protocol of
  base/coroutine/co_runner.cc. Its spin lock makes the bodies of lock, unlock and try_lock atomic
  up to the points where they give it up, and those are the transitions here: registering and
  waiting are two steps, popping a waiter and calling its resumer are two steps, and a call is
  delivered later, when the waiter's loop gets to it. Only the holder unlocks.
*/
module CoMutex {
  import opened Resumers
  import opened Sequences

  /** What a coroutine is doing with the mutex. */
  datatype Phase =
    | Out
    | Registered           // in lock: its resumer is queued, it has not yielded yet
    | Parked               // in lock: it has yielded
    | Ready                // in lock: on its loop's ready list
    | Holding
    | Handing(k: Ticket)   // in unlock: waiter popped, resumer not called yet

  /** `queued` and `entered` are histories: waiters in the order they queued, and got in. */
  datatype State = State(locked: bool, waiters: seq<Ticket>, phase: seq<Phase>, resumeId: seq<nat>,
                         sent: seq<Ticket>, queued: seq<Ticket>, entered: seq<Ticket>)

  datatype Event =
    | Lock(c: nat) | TryLock(c: nat) | Park(c: nat) | Unlock(c: nat) | Call(c: nat)
    | Deliver(i: nat)  // the waiter's loop runs a called resumer; loops do not wait for each other
    | Wake(c: nat)     // the loop resumes a ready coroutine, which returns from lock
    | Foreign(c: nat)  // some other resumer of the same run period fires

  predicate Enabled(s: State, e: Event) {
    |s.resumeId| == |s.phase| &&
    match e
    case Lock(c) => c < |s.phase| && s.phase[c].Out?
    case TryLock(c) => c < |s.phase| && s.phase[c].Out?
    case Park(c) => c < |s.phase| && s.phase[c].Registered?
    case Unlock(c) => c < |s.phase| && s.phase[c].Holding?
    case Call(c) => c < |s.phase| && s.phase[c].Handing?
    // the loop can run the resumer only while it is not running that coroutine
    case Deliver(i) =>
      i < |s.sent| && var c := s.sent[i].co; c < |s.phase| && !s.phase[c].Registered? && !s.phase[c].Handing?
    case Wake(c) => c < |s.phase| && s.phase[c].Ready?
    case Foreign(c) => c < |s.phase| && s.phase[c].Parked?
  }

  function Apply(s: State, e: Event): State
    requires Enabled(s, e)
  {
    match e
    case Lock(c) =>
      if !s.locked then s.(locked := true, phase := s.phase[c := Holding])
      else
        var k := Ticket(c, s.resumeId[c]);
        s.(waiters := s.waiters + [k], queued := s.queued + [k], phase := s.phase[c := Registered])
    case TryLock(c) => if s.locked then s else s.(locked := true, phase := s.phase[c := Holding])
    case Park(c) => s.(phase := s.phase[c := Parked])
    case Unlock(c) =>
      if s.waiters == [] then s.(locked := false, phase := s.phase[c := Out])
      else s.(waiters := s.waiters[1..], phase := s.phase[c := Handing(s.waiters[0])])
    case Call(c) => s.(sent := s.sent + [s.phase[c].k], phase := s.phase[c := Out])
    case Deliver(i) =>
      var k, rest := s.sent[i], Without(s.sent, i);
      if s.phase[k.co].Parked? && s.resumeId[k.co] == k.period
      then s.(sent := rest, phase := s.phase[k.co := Ready])
      else s.(sent := rest)
    case Wake(c) =>
      s.(phase := s.phase[c := Holding], resumeId := s.resumeId[c := s.resumeId[c] + 1],
         entered := s.entered + [Ticket(c, s.resumeId[c])])
    case Foreign(c) => s.(phase := s.phase[c := Ready])
  }

  predicate Init(s: State) {
    && !s.locked && s.waiters == s.sent == s.queued == s.entered == []
    && |s.resumeId| == |s.phase| && forall c :: 0 <= c < |s.phase| ==> s.phase[c] == Out
  }

  ghost predicate Reaches(s: State, events: seq<Event>, s': State)
    decreases |events|
  {
    if events == [] then s' == s
    else Enabled(s, events[0]) && Reaches(Apply(s, events[0]), events[1..], s')
  }

  predicate NoForeign(events: seq<Event>) { forall e :: e in events ==> !e.Foreign? }

  /** The ticket of c's present period has been popped by an unlock. */
  predicate IsPopped(s: State, c: nat) {
    c < |s.resumeId| && Ticket(c, s.resumeId[c]) !in s.waiters
  }

  /** A step under which the mutex stays one. */
  predicate Proper(s: State, e: Event) {
    Enabled(s, e) && (e.Foreign? ==> IsPopped(s, e.c))
  }

  /** Foreign resumptions along the run meet only waiters whose ticket an unlock has popped. */
  ghost predicate Harmless(s: State, events: seq<Event>)
    decreases |events|
  {
    events != [] && Enabled(s, events[0]) ==>
      Proper(s, events[0]) && Harmless(Apply(s, events[0]), events[1..])
  }

  lemma {:induction false} NoForeignIsHarmless(s: State, events: seq<Event>)
    requires NoForeign(events)
    ensures Harmless(s, events)
    decreases |events|
  {
    if events != [] && Enabled(s, events[0]) {
      assert events[0] in events;
      NoForeignIsHarmless(Apply(s, events[0]), events[1..]);
    }
  }

  /** Where the right to the mutex is. */
  datatype Baton = Nowhere | Held(c: nat) | Passing(c: nat, k: Ticket) | InMail(k: Ticket) | Arrived(k: Ticket)

  function OnTheWay(b: Baton): seq<Ticket> {
    match b
    case Passing(_, k) => [k]
    case InMail(k) => [k]
    case _ => []
  }

  predicate IsWaiting(p: Phase) { p.Registered? || p.Parked? }

  predicate Waits(phase: seq<Phase>, resumeId: seq<nat>, k: Ticket) {
    k.co < |phase| == |resumeId| && IsWaiting(phase[k.co]) && k.period == resumeId[k.co]
  }

  /** The line holds the tickets of exactly the waiting coroutines, each once. */
  predicate IsLine(phase: seq<Phase>, resumeId: seq<nat>, line: seq<Ticket>) {
    && |resumeId| == |phase|
    && (forall i :: 0 <= i < |line| ==> Waits(phase, resumeId, line[i]))
    && (forall i, j :: 0 <= i < j < |line| ==> line[i].co != line[j].co)
    && (forall c :: 0 <= c < |phase| && IsWaiting(phase[c]) ==> Ticket(c, resumeId[c]) in line)
  }

  /** A resumer of k does nothing any more: its coroutine was resumed since, or is ready. */
  predicate Stale(s: State, b: Baton, k: Ticket) {
    k.co < |s.resumeId| && (k.period < s.resumeId[k.co] || b == Arrived(k))
  }

  /** The one coroutine that holds the mutex, or is ready to, is where the baton says. */
  predicate HolderOk(s: State, b: Baton) {
    && |s.resumeId| == |s.phase|
    && (s.locked <==> !b.Nowhere?)
    && (forall c :: 0 <= c < |s.phase| ==>
          && (s.phase[c].Holding? <==> b == Held(c))
          && (s.phase[c].Ready? <==> b == Arrived(Ticket(c, s.resumeId[c]))))
    && (b.Held? ==> b.c < |s.phase|)
    && (b.Arrived? ==> b.k.co < |s.phase| && s.resumeId[b.k.co] == b.k.period)
  }

  predicate CarrierOk(s: State, b: Baton) {
    && (b.Passing? ==> b.c < |s.phase| && s.phase[b.c] == Handing(b.k))
    && (b.InMail? ==> b.k in s.sent)
  }

  predicate CallOk(s: State, b: Baton, c: nat)
    requires c < |s.phase| && s.phase[c].Handing?
  {
    b == Passing(c, s.phase[c].k) || Stale(s, b, s.phase[c].k)
  }

  predicate LetterOk(s: State, b: Baton, k: Ticket) { b == InMail(k) || Stale(s, b, k) }

  /** Popped tickets are stale, but for the one that carries the baton. */
  predicate MailOk(s: State, b: Baton) {
    && CarrierOk(s, b)
    && (forall c :: 0 <= c < |s.phase| && s.phase[c].Handing? ==> CallOk(s, b, c))
    && (forall k :: k in s.sent ==> LetterOk(s, b, k))
  }

  predicate BatonOk(s: State, b: Baton) { HolderOk(s, b) && MailOk(s, b) }

  predicate LineOk(s: State, b: Baton) {
    var line := OnTheWay(b) + s.waiters;
    && (s.waiters != [] ==> s.locked)
    && IsLine(s.phase, s.resumeId, line)
    && s.queued == s.entered + Arrival(b) + line
  }

  function Arrival(b: Baton): seq<Ticket> { if b.Arrived? then [b.k] else [] }

  predicate Inv(s: State, b: Baton) { BatonOk(s, b) && LineOk(s, b) }

  function NextBaton(s: State, b: Baton, e: Event): Baton
    requires Enabled(s, e)
  {
    match e
    case Lock(c) => if s.locked then b else Held(c)
    case TryLock(c) => if s.locked then b else Held(c)
    case Park(_) => b
    case Unlock(c) => if s.waiters == [] then Nowhere else Passing(c, s.waiters[0])
    case Call(c) => if b.Passing? && b.c == c then InMail(b.k) else b
    case Deliver(i) => if b == InMail(s.sent[i]) then Arrived(s.sent[i]) else b
    case Wake(c) => Held(c)
    case Foreign(c) => Arrived(Ticket(c, s.resumeId[c]))
  }

  lemma CarriedWaits(s: State, b: Baton)
    requires LineOk(s, b) && (b.Passing? || b.InMail?)
    ensures Waits(s.phase, s.resumeId, b.k)
  {
    assert (OnTheWay(b) + s.waiters)[0] == b.k;
  }

  /** A waiter whose ticket was popped is the one the baton is on its way to. */
  lemma PoppedIsCarried(s: State, b: Baton, c: nat)
    requires LineOk(s, b) && c < |s.phase| && IsWaiting(s.phase[c]) && IsPopped(s, c)
    ensures (b.Passing? || b.InMail?) && b.k == Ticket(c, s.resumeId[c])
  {
    assert Ticket(c, s.resumeId[c]) in OnTheWay(b) + s.waiters;
  }

  lemma ForeignKeepsHolder(s: State, b: Baton, c: nat)
    requires Inv(s, b) && Proper(s, Foreign(c))
    ensures HolderOk(Apply(s, Foreign(c)), NextBaton(s, b, Foreign(c)))
  {
    PoppedIsCarried(s, b, c);
  }

  lemma DeliverKeepsHolder(s: State, b: Baton, i: nat)
    requires Inv(s, b) && Enabled(s, Deliver(i))
    ensures HolderOk(Apply(s, Deliver(i)), NextBaton(s, b, Deliver(i)))
  {
    assert s.sent[i] in s.sent && LetterOk(s, b, s.sent[i]);
    if b == InMail(s.sent[i]) { CarriedWaits(s, b); }
  }

  lemma MoveKeepsHolder(s: State, b: Baton, e: Event)
    requires HolderOk(s, b) && CarrierOk(s, b) && Enabled(s, e) && !e.Foreign? && !e.Deliver?
    ensures HolderOk(Apply(s, e), NextBaton(s, b, e))
  {
  }

  lemma StepKeepsHolder(s: State, b: Baton, e: Event)
    requires Inv(s, b) && Proper(s, e)
    ensures HolderOk(Apply(s, e), NextBaton(s, b, e))
  {
    if e.Foreign? {
      ForeignKeepsHolder(s, b, e.c);
    } else if e.Deliver? {
      DeliverKeepsHolder(s, b, e.i);
    } else {
      MoveKeepsHolder(s, b, e);
    }
  }

  /** What was stale stays so, and the ticket that has arrived becomes so. */
  lemma StepKeepsStale(s: State, b: Baton, e: Event, k: Ticket)
    requires BatonOk(s, b) && Enabled(s, e) && (e.Foreign? ==> !b.Arrived?) && Stale(s, b, k)
    ensures Stale(Apply(s, e), NextBaton(s, b, e), k)
  {
  }

  lemma WithoutKeeps(sent: seq<Ticket>, i: nat, k: Ticket)
    requires i < |sent|
    ensures k in Without(sent, i) ==> k in sent
    ensures k in sent && k != sent[i] ==> k in Without(sent, i)
  {
  }

  lemma StepKeepsCarrier(s: State, b: Baton, e: Event)
    requires BatonOk(s, b) && Enabled(s, e)
    ensures CarrierOk(Apply(s, e), NextBaton(s, b, e))
  {
    if e.Deliver? && b.InMail? { WithoutKeeps(s.sent, e.i, b.k); }
  }

  lemma ForeignKeepsCall(s: State, b: Baton, d: nat, c: nat)
    requires Inv(s, b) && Proper(s, Foreign(d)) && c < |s.phase| && Apply(s, Foreign(d)).phase[c].Handing?
    ensures CallOk(Apply(s, Foreign(d)), NextBaton(s, b, Foreign(d)), c)
  {
    PoppedIsCarried(s, b, d);
  }

  lemma MoveKeepsCall(s: State, b: Baton, e: Event, c: nat)
    requires BatonOk(s, b) && Enabled(s, e) && !e.Foreign? && c < |s.phase| && Apply(s, e).phase[c].Handing?
    ensures CallOk(Apply(s, e), NextBaton(s, b, e), c)
  {
    if e != Unlock(c) && Stale(s, b, s.phase[c].k) { StepKeepsStale(s, b, e, s.phase[c].k); }
  }

  lemma StepKeepsCall(s: State, b: Baton, e: Event, c: nat)
    requires Inv(s, b) && Proper(s, e) && c < |s.phase| && Apply(s, e).phase[c].Handing?
    ensures CallOk(Apply(s, e), NextBaton(s, b, e), c)
  {
    if e.Foreign? { ForeignKeepsCall(s, b, e.c, c); } else { MoveKeepsCall(s, b, e, c); }
  }

  lemma OldLetter(s: State, b: Baton, e: Event, k: Ticket)
    requires Inv(s, b) && Proper(s, e) && LetterOk(s, b, k)
    ensures LetterOk(Apply(s, e), NextBaton(s, b, e), k)
  {
    if e.Foreign? { PoppedIsCarried(s, b, e.c); }
    if Stale(s, b, k) { StepKeepsStale(s, b, e, k); }
  }

  lemma NewLetter(s: State, b: Baton, c: nat)
    requires BatonOk(s, b) && Enabled(s, Call(c))
    ensures LetterOk(Apply(s, Call(c)), NextBaton(s, b, Call(c)), s.phase[c].k)
  {
    assert CallOk(s, b, c);
  }

  lemma StepKeepsLetter(s: State, b: Baton, e: Event, k: Ticket)
    requires Inv(s, b) && Proper(s, e) && k in Apply(s, e).sent
    ensures LetterOk(Apply(s, e), NextBaton(s, b, e), k)
  {
    if e.Deliver? { WithoutKeeps(s.sent, e.i, k); }
    if k in s.sent { OldLetter(s, b, e, k); } else { NewLetter(s, b, e.c); }
  }

  lemma StepKeepsMail(s: State, b: Baton, e: Event)
    requires Inv(s, b) && Proper(s, e)
    ensures MailOk(Apply(s, e), NextBaton(s, b, e))
  {
    var s', b' := Apply(s, e), NextBaton(s, b, e);
    StepKeepsCarrier(s, b, e);
    forall c | 0 <= c < |s'.phase| && s'.phase[c].Handing? ensures CallOk(s', b', c) { StepKeepsCall(s, b, e, c); }
    forall k | k in s'.sent ensures LetterOk(s', b', k) { StepKeepsLetter(s, b, e, k); }
  }

  lemma StepKeepsBaton(s: State, b: Baton, e: Event)
    requires Inv(s, b) && Proper(s, e)
    ensures BatonOk(Apply(s, e), NextBaton(s, b, e))
  {
    StepKeepsHolder(s, b, e);
    StepKeepsMail(s, b, e);
  }

  lemma LineGrows(phase: seq<Phase>, resumeId: seq<nat>, line: seq<Ticket>, c: nat)
    requires IsLine(phase, resumeId, line) && c < |phase| && phase[c].Out?
    ensures IsLine(phase[c := Registered], resumeId, line + [Ticket(c, resumeId[c])])
  {
    var line' := line + [Ticket(c, resumeId[c])];
    assert line'[|line|] == Ticket(c, resumeId[c]);
    assert forall k :: k in line ==> k in line';
  }

  lemma LineStays(phase: seq<Phase>, resumeId: seq<nat>, line: seq<Ticket>, c: nat, p: Phase, id: nat)
    requires IsLine(phase, resumeId, line) && c < |phase|
    requires IsWaiting(phase[c]) <==> IsWaiting(p)
    requires IsWaiting(p) ==> id == resumeId[c]
    ensures IsLine(phase[c := p], resumeId[c := id], line)
  {
  }

  lemma LineShrinks(phase: seq<Phase>, resumeId: seq<nat>, line: seq<Ticket>)
    requires IsLine(phase, resumeId, line) && line != []
    ensures line[0].co < |phase| && IsLine(phase[line[0].co := Ready], resumeId, line[1..])
  {
    assert Waits(phase, resumeId, line[0]);
    var rest, phase' := line[1..], phase[line[0].co := Ready];
    forall i | 0 <= i < |rest| ensures Waits(phase', resumeId, rest[i]) {
      assert rest[i] == line[i + 1];
    }
    assert line == [line[0]] + rest;
  }

  lemma QueueKeepsLine(s: State, b: Baton, c: nat)
    requires Inv(s, b) && Enabled(s, Lock(c)) && s.locked
    ensures LineOk(Apply(s, Lock(c)), b)
  {
    var k, line := Ticket(c, s.resumeId[c]), OnTheWay(b) + s.waiters;
    LineGrows(s.phase, s.resumeId, line, c);
    assert OnTheWay(b) + (s.waiters + [k]) == line + [k];
  }

  lemma QueueShifts(entered: seq<Ticket>, k: Ticket, waiters: seq<Ticket>)
    ensures entered + [] + ([k] + waiters) == entered + [k] + ([] + waiters)
  {
  }

  /** Readying the coroutine the baton is on its way to moves it from the line to the door. */
  lemma ArrivalKeepsLine(s: State, b: Baton, sent: seq<Ticket>)
    requires LineOk(s, b) && (b.Passing? || b.InMail?)
    ensures b.k.co < |s.phase| && LineOk(s.(sent := sent, phase := s.phase[b.k.co := Ready]), Arrived(b.k))
  {
    var line := [b.k] + s.waiters;
    assert OnTheWay(b) + s.waiters == line;
    LineShrinks(s.phase, s.resumeId, line);
    assert line[1..] == s.waiters == [] + s.waiters;
    QueueShifts(s.entered, b.k, s.waiters);
  }

  lemma DeliverKeepsLine(s: State, b: Baton, i: nat)
    requires Inv(s, b) && Enabled(s, Deliver(i))
    ensures LineOk(Apply(s, Deliver(i)), NextBaton(s, b, Deliver(i)))
  {
    var k := s.sent[i];
    assert k in s.sent;
    if b == InMail(k) {
      CarriedWaits(s, b);
      ArrivalKeepsLine(s, b, Without(s.sent, i));
    }
  }

  lemma ForeignKeepsLine(s: State, b: Baton, c: nat)
    requires Inv(s, b) && Proper(s, Foreign(c))
    ensures LineOk(Apply(s, Foreign(c)), NextBaton(s, b, Foreign(c)))
  {
    PoppedIsCarried(s, b, c);
    ArrivalKeepsLine(s, b, s.sent);
  }

  /** Every other step moves one coroutine and keeps the line. */
  predicate IsOtherStep(s: State, e: Event) {
    !e.Foreign? && !e.Deliver? && !(e.Lock? && s.locked) && !(e.TryLock? && s.locked)
  }

  lemma OtherStepLine(s: State, b: Baton, e: Event)
    requires BatonOk(s, b) && Enabled(s, e) && IsOtherStep(s, e)
    requires s.waiters != [] ==> s.locked
    ensures OnTheWay(NextBaton(s, b, e)) + Apply(s, e).waiters == OnTheWay(b) + s.waiters
    ensures Apply(s, e).waiters != [] ==> Apply(s, e).locked
  {
  }

  lemma OtherStepKeepsLine(s: State, b: Baton, e: Event)
    requires Inv(s, b) && Enabled(s, e) && IsOtherStep(s, e)
    ensures LineOk(Apply(s, e), NextBaton(s, b, e))
  {
    OtherStepLine(s, b, e);
    OtherStepMoves(s, b, e);
    var phase, resumeId := Apply(s, e).phase, Apply(s, e).resumeId;
    LineStays(s.phase, s.resumeId, OnTheWay(b) + s.waiters, e.c, phase[e.c], resumeId[e.c]);
  }

  lemma OtherStepMoves(s: State, b: Baton, e: Event)
    requires BatonOk(s, b) && Enabled(s, e) && IsOtherStep(s, e)
    ensures var s' := Apply(s, e);
      && s'.phase == s.phase[e.c := s'.phase[e.c]] && s'.resumeId == s.resumeId[e.c := s'.resumeId[e.c]]
      && (IsWaiting(s.phase[e.c]) <==> IsWaiting(s'.phase[e.c]))
      && (IsWaiting(s'.phase[e.c]) ==> s'.resumeId[e.c] == s.resumeId[e.c])
      && s'.queued == s.queued
      && s'.entered + Arrival(NextBaton(s, b, e)) == s.entered + Arrival(b)
  {
  }

  lemma StepKeepsInv(s: State, b: Baton, e: Event)
    requires Inv(s, b) && Proper(s, e)
    ensures Inv(Apply(s, e), NextBaton(s, b, e))
  {
    StepKeepsBaton(s, b, e);
    if e.Lock? && s.locked {
      QueueKeepsLine(s, b, e.c);
    } else if e.Deliver? {
      DeliverKeepsLine(s, b, e.i);
    } else if e.Foreign? {
      ForeignKeepsLine(s, b, e.c);
    } else if IsOtherStep(s, e) {
      OtherStepKeepsLine(s, b, e);
    }
  }

  /** Without foreign resumptions the baton never overtakes an unlock that is about to pass it. */
  predicate NoneOvertaken(s: State, b: Baton) {
    forall c :: 0 <= c < |s.phase| && s.phase[c].Handing? ==> b.Passing? && b.c == c
  }

  lemma StepOvertakesNone(s: State, b: Baton, e: Event)
    requires BatonOk(s, b) && Enabled(s, e) && !e.Foreign? && NoneOvertaken(s, b)
    ensures NoneOvertaken(Apply(s, e), NextBaton(s, b, e))
  {
  }

  lemma {:induction false} ReachesKeepsInv(s: State, b: Baton, events: seq<Event>, s': State) returns (b': Baton)
    requires Inv(s, b) && Reaches(s, events, s') && Harmless(s, events)
    ensures Inv(s', b')
    ensures NoForeign(events) && NoneOvertaken(s, b) ==> NoneOvertaken(s', b')
    decreases |events|
  {
    if events == [] {
      b' := b;
    } else {
      assert events[0] in events;
      StepKeepsInv(s, b, events[0]);
      if !events[0].Foreign? && NoneOvertaken(s, b) { StepOvertakesNone(s, b, events[0]); }
      b' := ReachesKeepsInv(Apply(s, events[0]), NextBaton(s, b, events[0]), events[1..], s');
    }
  }

  lemma ReachableInv(s0: State, events: seq<Event>, s: State) returns (b: Baton)
    requires Init(s0) && Reaches(s0, events, s) && Harmless(s0, events)
    ensures Inv(s, b)
    ensures NoForeign(events) ==> NoneOvertaken(s, b)
  {
    b := ReachesKeepsInv(s0, Nowhere, events, s);
  }

  // ---------------------------------------------------------------------------
  // What every run guarantees
  // ---------------------------------------------------------------------------

  predicate MutualExclusion(s: State) {
    forall c, d :: 0 <= c < d < |s.phase| ==> !(s.phase[c].Holding? && s.phase[d].Holding?)
  }

  /** A ticket that will get its coroutine in: still in line, or popped and on its way. */
  predicate Remembered(s: State, k: Ticket) {
    k in s.waiters || k in s.sent || Handing(k) in s.phase
  }

  /** Every coroutine waiting in lock has its ticket remembered, so a later unlock or delivery finds it. */
  predicate NobodyForgotten(s: State) {
    |s.resumeId| == |s.phase| && forall c :: 0 <= c < |s.phase| && IsWaiting(s.phase[c]) ==>
      Remembered(s, Ticket(c, s.resumeId[c]))
  }

  lemma InvForgetsNobody(s: State, b: Baton)
    requires Inv(s, b)
    ensures NobodyForgotten(s)
  {
    var line := OnTheWay(b) + s.waiters;
    forall c | 0 <= c < |s.phase| && IsWaiting(s.phase[c]) ensures Remembered(s, Ticket(c, s.resumeId[c])) {
      var k := Ticket(c, s.resumeId[c]);
      assert k in line;
      if k !in s.waiters && b.Passing? {
        assert b.k == k && s.phase[b.c] == Handing(k);
      }
    }
  }

  lemma InvExcludes(s: State, b: Baton)
    requires Inv(s, b)
    ensures MutualExclusion(s)
    ensures !s.locked ==> forall c :: 0 <= c < |s.phase| ==> s.phase[c].Out? || s.phase[c].Handing?
  {
    if !s.locked {
      assert OnTheWay(b) + s.waiters == [];
    }
  }

  lemma InvOrders(s: State, b: Baton)
    requires Inv(s, b)
    ensures s.waiters != [] ==> s.locked
    ensures s.entered <= s.queued
  {
  }

  /**
    In every run whose foreign resumptions meet only waiters an unlock has popped: one holder at a
    time, waiters only while locked, waiters get in in the order they queued, and none is forgotten,
    also when its resumer is called before it has yielded. With the mutex unlocked nobody waits,
    and without foreign resumptions nobody is inside unlock either.
  */
  lemma RunIsFairMutex(s0: State, events: seq<Event>, s: State)
    requires Init(s0) && Reaches(s0, events, s) && Harmless(s0, events)
    ensures MutualExclusion(s)
    ensures s.waiters != [] ==> s.locked
    ensures s.entered <= s.queued
    ensures NobodyForgotten(s)
    ensures !s.locked ==> forall c :: 0 <= c < |s.phase| ==> s.phase[c].Out? || s.phase[c].Handing?
    ensures !s.locked && NoForeign(events) ==> forall c :: 0 <= c < |s.phase| ==> s.phase[c].Out?
  {
    var b := ReachableInv(s0, events, s);
    InvForgetsNobody(s, b);
    InvExcludes(s, b);
    InvOrders(s, b);
  }

  // ---------------------------------------------------------------------------
  // Handing the lock on, under every scheduler
  // ---------------------------------------------------------------------------

  /** A step of code that is under way, as opposed to a new call. */
  predicate IsStep(e: Event) { e.Park? || e.Call? || e.Deliver? || e.Wake? }

  predicate IsTry(e: Event) { e.Lock? || e.TryLock? }

  /** Steps under way and calls that try to get the lock, in any order. */
  predicate Meanwhile(events: seq<Event>) { forall e :: e in events ==> IsStep(e) || IsTry(e) }

  function Weight(p: Phase): nat {
    match p
    case Registered => 1
    case Handing(_) => 3
    case Ready => 1
    case _ => 0
  }

  function Weights(phase: seq<Phase>): nat {
    if phase == [] then 0 else Weights(phase[..|phase| - 1]) + Weight(phase[|phase| - 1])
  }

  /** The steps that are under way. */
  function Work(s: State): nat { Weights(s.phase) + 2 * |s.sent| }

  function Steps(events: seq<Event>): nat {
    if events == [] then 0 else (if IsStep(events[0]) then 1 else 0) + Steps(events[1..])
  }

  function Locks(events: seq<Event>): nat {
    if events == [] then 0 else (if events[0].Lock? then 1 else 0) + Locks(events[1..])
  }

  lemma {:induction false} WeightsMove(phase: seq<Phase>, c: nat, p: Phase)
    requires c < |phase|
    ensures Weights(phase[c := p]) + Weight(phase[c]) == Weights(phase) + Weight(p)
  {
    var k := |phase| - 1;
    if c == k {
      assert phase[c := p][..k] == phase[..k];
    } else {
      assert phase[c := p][..k] == phase[..k][c := p];
      WeightsMove(phase[..k], c, p);
    }
  }

  /** Each step uses up work, and only a call of lock adds some. */
  lemma StepUsesWork(s: State, b: Baton, e: Event)
    requires Inv(s, b) && Enabled(s, e) && s.locked && (IsStep(e) || IsTry(e))
    ensures Work(Apply(s, e)) + (if IsStep(e) then 1 else 0) <= Work(s) + if e.Lock? then 1 else 0
  {
    if e.Deliver? {
      WeightsMove(s.phase, s.sent[e.i].co, Ready);
    } else if !e.TryLock? {
      WeightsMove(s.phase, e.c, Apply(s, e).phase[e.c]);
    }
  }

  /** The lock is on its way to the holder of ticket k, or has got there; `before` got in before. */
  predicate Headed(s: State, b: Baton, k: Ticket, before: seq<Ticket>) {
    && s.locked && k.co < |s.phase|
    && (if b == Held(k.co) then s.entered == before + [k]
        else s.entered == before && ((b.Passing? || b.InMail? || b.Arrived?) && b.k == k))
  }

  lemma StepKeepsHeaded(s: State, b: Baton, e: Event, k: Ticket, before: seq<Ticket>)
    requires Inv(s, b) && Enabled(s, e) && (IsStep(e) || IsTry(e)) && Headed(s, b, k, before)
    ensures Headed(Apply(s, e), NextBaton(s, b, e), k, before) && s.waiters <= Apply(s, e).waiters
  {
  }

  /** How far the baton is from a holder. */
  function Distance(s: State, b: Baton): nat {
    match b
    case Passing(_, _) => 4
    case InMail(k) => if k.co < |s.phase| && s.phase[k.co].Registered? then 3 else 2
    case Arrived(_) => 1
    case _ => 0
  }

  /** Until somebody holds the lock, some step brings the baton nearer. */
  lemma BatonMoves(s: State, b: Baton) returns (e: Event)
    requires Inv(s, b) && s.locked && !b.Held?
    ensures Enabled(s, e) && IsStep(e) && (e.Deliver? ==> b == InMail(s.sent[e.i]))
    ensures Distance(Apply(s, e), NextBaton(s, b, e)) < Distance(s, b)
  {
    if b.Passing? {
      e := Call(b.c);
    } else if b.Arrived? {
      e := Wake(b.k.co);
    } else {
      CarriedWaits(s, b);
      var i: nat :| i < |s.sent| && s.sent[i] == b.k;
      e := if s.phase[b.k.co].Registered? then Park(b.k.co) else Deliver(i);
    }
  }

  lemma {:induction false} HeadedGetsThere(s: State, b: Baton, events: seq<Event>, s': State, k: Ticket,
                                           before: seq<Ticket>)
    requires Inv(s, b) && Headed(s, b, k, before) && Reaches(s, events, s')
    requires Meanwhile(events)
    ensures Steps(events) + Work(s') <= Work(s) + Locks(events) && s.waiters <= s'.waiters
    ensures (forall e :: Enabled(s', e) ==> !IsStep(e)) ==>
      k.co < |s'.phase| && s'.phase[k.co].Holding? && s'.entered == before + [k]
    decreases |events|
  {
    if events == [] {
      if b != Held(k.co) { var e := BatonMoves(s, b); }
    } else {
      assert events[0] in events;
      StepKeepsInv(s, b, events[0]);
      StepUsesWork(s, b, events[0]);
      StepKeepsHeaded(s, b, events[0], k, before);
      HeadedGetsThere(Apply(s, events[0]), NextBaton(s, b, events[0]), events[1..], s', k, before);
    }
  }

  /**
    Hand-off under every scheduler, in every such run: after an unlock with somebody waiting, and
    whatever other coroutines call lock or try_lock meanwhile, the steps under way come to an end
    after at most `Work` of them and one for each such call of lock; where none is left, the
    coroutine that queued first holds the lock, nobody else got in, and the others keep their order.
  */
  lemma RunHandsOff(s0: State, past: seq<Event>, s: State, c: nat, s1: State, events: seq<Event>, s': State)
    requires Init(s0) && Reaches(s0, past, s) && Harmless(s0, past)
    requires Enabled(s, Unlock(c)) && s.waiters != [] && s1 == Apply(s, Unlock(c)) && Reaches(s1, events, s')
    requires Meanwhile(events)
    ensures HandedOff(s, s1, events, s')
  {
    var b := ReachableInv(s0, past, s);
    HandsOff(s, b, c, s1, events, s');
  }

  /** The steps after an unlock come to an end, and then the first waiter holds the lock. */
  ghost predicate HandedOff(s: State, s1: State, events: seq<Event>, s': State)
    requires s.waiters != []
  {
    var first := s.waiters[0];
    && Steps(events) <= Work(s1) + Locks(events)
    && s.waiters[1..] <= s'.waiters
    && ((forall e :: Enabled(s', e) ==> !IsStep(e)) ==>
          first.co < |s'.phase| && s'.phase[first.co].Holding? && s'.entered == s.entered + [first])
  }

  lemma HandsOff(s: State, b: Baton, c: nat, s1: State, events: seq<Event>, s': State)
    requires Inv(s, b) && Enabled(s, Unlock(c)) && s.waiters != [] && s1 == Apply(s, Unlock(c))
    requires Reaches(s1, events, s') && Meanwhile(events)
    ensures HandedOff(s, s1, events, s')
  {
    var b1 := UnlockHeads(s, b, c, s1);
    HeadedGetsThere(s1, b1, events, s', s.waiters[0], s.entered);
  }

  lemma UnlockHeads(s: State, b: Baton, c: nat, s1: State) returns (b1: Baton)
    requires Inv(s, b) && Enabled(s, Unlock(c)) && s.waiters != [] && s1 == Apply(s, Unlock(c))
    ensures Inv(s1, b1) && Headed(s1, b1, s.waiters[0], s.entered) && s1.waiters == s.waiters[1..]
  {
    b1 := NextBaton(s, b, Unlock(c));
    StepKeepsInv(s, b, Unlock(c));
    assert Waits(s.phase, s.resumeId, (OnTheWay(b) + s.waiters)[0]);
  }

  // ---------------------------------------------------------------------------
  // Which foreign resumptions break the mutex
  // ---------------------------------------------------------------------------

  /** Steps of the mutex alone can let two coroutines in. */
  ghost predicate Breakable(s: State) {
    exists events, s' :: Reaches(s, events, s') && NoForeign(events) && !MutualExclusion(s')
  }

  lemma BreakableBefore(s: State, e: Event)
    requires Enabled(s, e) && !e.Foreign? && Breakable(Apply(s, e))
    ensures Breakable(s)
  {
    var rest, s' :| Reaches(Apply(s, e), rest, s') && NoForeign(rest) && !MutualExclusion(s');
    var events := [e] + rest;
    assert events[1..] == rest;
    assert Reaches(s, events, s');
  }

  /** The state with c made ready out of turn. */
  function Readied(s: State, c: nat): State
    requires c < |s.phase|
  {
    s.(phase := s.phase[c := Ready])
  }

  lemma InLineIsNotCarried(s: State, b: Baton, c: nat)
    requires LineOk(s, b) && b.InMail? && c < |s.resumeId| && !IsPopped(s, c)
    ensures c != b.k.co && b.k.co < |s.phase|
  {
    CarriedWaits(s, b);
    var line := OnTheWay(b) + s.waiters;
    var j :| 0 <= j < |s.waiters| && s.waiters[j] == Ticket(c, s.resumeId[c]);
    assert line[0] == b.k && line[j + 1] == s.waiters[j];
  }

  /** The baton's next step does not touch a waiter in line, so it may come after c is readied. */
  lemma StepsCommute(s: State, b: Baton, e: Event, c: nat)
    requires Inv(s, b) && Enabled(s, e) && IsStep(e) && (e.Deliver? ==> b == InMail(s.sent[e.i]))
    requires c < |s.phase| && s.phase[c].Parked? && !IsPopped(s, c)
    ensures Enabled(Readied(s, c), e) && Apply(Readied(s, c), e) == Readied(Apply(s, e), c)
    ensures Apply(s, e).phase[c].Parked? && !IsPopped(Apply(s, e), c)
  {
    if e.Deliver? {
      InLineIsNotCarried(s, b, c);
      assert s.phase[c := Ready][b.k.co := Ready] == s.phase[b.k.co := Ready][c := Ready];
    } else {
      assert s.phase[c := Ready][e.c := Apply(s, e).phase[e.c]] == Apply(s, e).phase[c := Ready];
    }
  }

  /** A waiter readied while it is in line gets in beside the holder. */
  lemma {:induction false} BatonBringsSecond(s: State, b: Baton, c: nat)
    requires Inv(s, b) && c < |s.phase| && s.phase[c].Parked? && !IsPopped(s, c)
    ensures Breakable(Readied(s, c))
    decreases Distance(s, b)
  {
    if b.Held? {
      var s' := Apply(Readied(s, c), Wake(c));
      assert s'.phase[b.c].Holding? && s'.phase[c].Holding?;
      assert Reaches(s', [], s') && NoForeign([]);
      BreakableBefore(Readied(s, c), Wake(c));
    } else {
      var e := BatonMoves(s, b);
      StepKeepsInv(s, b, e);
      StepsCommute(s, b, e, c);
      BatonBringsSecond(Apply(s, e), NextBaton(s, b, e), c);
      BreakableBefore(Readied(s, c), e);
    }
  }

  /**
    The exact condition on a foreign resumption, after any run in which all earlier ones met popped
    tickets: the mutex alone can then let two coroutines in if and only if the waiter is in line.
  */
  lemma ForeignBreaksMutexIff(s0: State, past: seq<Event>, s: State, c: nat)
    requires Init(s0) && Reaches(s0, past, s) && Harmless(s0, past) && Enabled(s, Foreign(c))
    ensures Breakable(Apply(s, Foreign(c))) <==> Ticket(c, s.resumeId[c]) in s.waiters
  {
    var b := ReachableInv(s0, past, s);
    if IsPopped(s, c) {
      StepKeepsInv(s, b, Foreign(c));
      InvIsUnbreakable(Apply(s, Foreign(c)), NextBaton(s, b, Foreign(c)));
    } else {
      BatonBringsSecond(s, b, c);
    }
  }

  lemma InvIsUnbreakable(s: State, b: Baton)
    requires Inv(s, b)
    ensures !Breakable(s)
  {
    forall events, s' | Reaches(s, events, s') && NoForeign(events) ensures MutualExclusion(s') {
      NoForeignIsHarmless(s, events);
      var b' := ReachesKeepsInv(s, b, events, s');
      InvExcludes(s', b');
    }
  }

  lemma SecondParks(s0: State, s3: State)
    requires s0 == State(false, [], [Out, Out], [1, 1], [], [], [])
    requires s3 == State(true, [Ticket(1, 1)], [Holding, Parked], [1, 1], [], [Ticket(1, 1)], [])
    ensures forall rest, s :: Reaches(s3, rest, s) ==> Reaches(s0, [Lock(0), Lock(1), Park(1)] + rest, s)
  {
    var s1 := State(true, [], [Holding, Out], [1, 1], [], [], []);
    var s2 := s3.(phase := [Holding, Registered]);
    assert Apply(s0, Lock(0)) == s1 && Apply(s1, Lock(1)) == s2 && Apply(s2, Park(1)) == s3;
    forall rest, s | Reaches(s3, rest, s) ensures Reaches(s0, [Lock(0), Lock(1), Park(1)] + rest, s) {
      assert ([Park(1)] + rest)[1..] == rest;
      assert ([Lock(1), Park(1)] + rest)[1..] == [Park(1)] + rest;
      assert ([Lock(0), Lock(1), Park(1)] + rest)[1..] == [Lock(1), Park(1)] + rest;
    }
  }

  /** Such a resumption happens: two coroutines hold the mutex. */
  lemma ForeignResumerBreaksMutex()
    ensures exists s0, events, s :: Init(s0) && Reaches(s0, events, s) && !MutualExclusion(s)
  {
    var s0 := State(false, [], [Out, Out], [1, 1], [], [], []);
    var s3 := State(true, [Ticket(1, 1)], [Holding, Parked], [1, 1], [], [Ticket(1, 1)], []);
    var s5 := Apply(Apply(s3, Foreign(1)), Wake(1));
    var rest := [Foreign(1), Wake(1)];
    assert Reaches(s3, rest, s5) by { assert rest[1..] == [Wake(1)]; }
    SecondParks(s0, s3);
    assert s5.phase[0].Holding? && s5.phase[1].Holding?;
  }
}
