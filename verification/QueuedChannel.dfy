/**
  The one-in-flight client channel (net_io/clients/queued_channel.cc): requests wait in a queue,
  the head goes to the codec, and the next one only follows when the head has been answered.

  `Step` says what each event does to the channel as a value; `Queue` is the object whose
  methods do it in place. The codec's answer to the n-th send attempt is `accepts(n)`, for an
  arbitrary `accepts`, so every pattern of send failures is covered. `wire` lists the requests
  the codec took, `timers` the timeouts that were posted and have not fired.
*/
module QueuedChannel {
  import opened Wrappers
  import opened ClientChannel

  datatype State = State(
    desk: Desk, ing: Option<Request>, waiting: seq<Request>,
    wire: seq<Request>, timers: multiset<Request>, attempts: nat)

  datatype Event =
    | Send(request: Request)
    | Beat(request: Request)
    | Message(message: nat)
    | Timeout(request: Request)
    | CodecClosed
    | Close

  const START := State(Desk([], true, None), None, [], [], multiset{}, 0)

  function InFlight(s: State): seq<Request> { if s.ing.Some? then [s.ing.value] else [] }

  function Pending(s: State): seq<Request> { InFlight(s) + s.waiting }

  /** How many of the next `n` send attempts fail before one succeeds. */
  function Refused(accepts: nat -> bool, first: nat, n: nat): (k: nat)
    ensures k <= n && (k < n ==> accepts(first + k))
    ensures forall i :: first <= i < first + k ==> !accepts(i)
    decreases n
  {
    if n == 0 || accepts(first) then 0 else 1 + Refused(accepts, first + 1, n - 1)
  }

  lemma {:induction false} RefusedIs(accepts: nat -> bool, first: nat, n: nat, k: nat)
    requires k <= n && (k < n ==> accepts(first + k))
    requires forall i :: first <= i < first + k ==> !accepts(i)
    ensures Refused(accepts, first, n) == k
    decreases n
  {
    if k > 0 { RefusedIs(accepts, first + 1, n - 1, k - 1); }
  }

  /** The first `k` waiting requests were refused by the codec and are answered. */
  function Refuse(s: State, k: nat): State
    requires k <= |s.waiting|
  {
    s.(desk := HandledAll(s.desk, s.waiting[..k], Broken), waiting := s.waiting[k..], attempts := s.attempts + k)
  }

  /** The codec takes the first waiting request. */
  function Take(s: State): State
    requires s.waiting != []
  {
    var r := s.waiting[0];
    State(s.desk, Some(r), s.waiting[1..], s.wire + [r], s.timers + multiset{r}, s.attempts + 1)
  }

  /** The waiting requests the codec refuses are answered; the first one it takes is in flight. */
  function Next(s: State, accepts: nat -> bool): State {
    if s.ing.Some? then s else
      var t := Refuse(s, Refused(accepts, s.attempts, |s.waiting|));
      if t.waiting == [] then t else Take(t)
  }

  /** Everything pending is answered as broken, the request in flight first. */
  function Drained(s: State): State {
    s.(desk := HandledAll(s.desk, Pending(s), Broken), ing := None, waiting := [])
  }

  lemma RefuseOne(s: State, k: nat)
    requires k < |s.waiting|
    ensures var t := Refuse(s, k);
      && Refuse(s, k + 1) == Refuse(t, 1)
      && Refuse(t, 1) == t.(
        desk := Handled(t.desk, t.waiting[0], Broken), waiting := t.waiting[1..], attempts := t.attempts + 1)
  {
    var t, r := Refuse(s, k), s.waiting[k];
    assert s.waiting[..k + 1][..k] == s.waiting[..k];
    assert HandledAll(s.desk, s.waiting[..k + 1], Broken) == Handled(t.desk, r, Broken);
    assert t.waiting[..1] == [r] && t.waiting[1..] == s.waiting[k + 1..];
    assert HandledAll(t.desk, [r], Broken) == Handled(HandledAll(t.desk, [r][..0], Broken), r, Broken);
  }

  lemma {:induction false} HandledAllSplits(d: Desk, a: seq<Request>, b: seq<Request>, o: Outcome)
    ensures HandledAll(d, a + b, o) == HandledAll(HandledAll(d, a, o), b, o)
  {
    if b == [] {
      assert a + b == a;
    } else {
      HandledAllSplits(d, a, b[..|b| - 1], o);
      assert (a + b)[..|a + b| - 1] == a + b[..|b| - 1];
    }
  }

  lemma RefuseAllDrains(s: State, t: State)
    requires t == if s.ing.Some? then Answered(s, Broken) else s
    ensures Drained(s) == Refuse(t, |t.waiting|).(attempts := s.attempts)
  {
    HandledAllSplits(s.desk, InFlight(s), s.waiting, Broken);
    assert t.waiting[..|t.waiting|] == t.waiting;
    assert s.ing.Some? ==> HandledAll(s.desk, InFlight(s), Broken) == t.desk;
  }

  /** The request in flight is answered with `o`. */
  function Answered(s: State, o: Outcome): State
    requires s.ing.Some?
  {
    s.(desk := Handled(s.desk, s.ing.value, o), ing := None)
  }

  function Queued(s: State, r: Request): State { s.(waiting := s.waiting + [r]) }

  function Step(s: State, e: Event, accepts: nat -> bool): State {
    match e
    case Send(r) => Next(Queued(s, r), accepts)
    case Beat(r) =>
      if s.desk.heartbeat.Some? then s else Next(Queued(s.(desk := s.desk.(heartbeat := Some(r))), r), accepts)
    case Message(m) => if s.ing.None? then s else Next(Answered(s, Response(m)), accepts)
    case Timeout(r) =>
      var t := s.(timers := s.timers - multiset{r});
      if s.ing == Some(r) then Drained(Answered(t, TimedOut)) else t
    case CodecClosed => Drained(s)
    case Close => var t := Drained(s); t.(desk := t.desk.(attached := false))
  }

  function Submits(s: State, e: Event): seq<Request> {
    match e
    case Send(r) => [r]
    case Beat(r) => if s.desk.heartbeat.Some? then [] else [r]
    case _ => []
  }

  /** A moment of a run: the channel, and every request handed to it so far, in order. */
  datatype Moment = Moment(state: State, submitted: seq<Request>)

  ghost predicate Follows(before: Moment, e: Event, accepts: nat -> bool, after: Moment) {
    after == Moment(Step(before.state, e, accepts), before.submitted + Submits(before.state, e))
  }

  ghost predicate FollowsAt(run: seq<Moment>, events: seq<Event>, accepts: nat -> bool, i: nat)
    requires |run| == |events| + 1 && i < |events|
  {
    Follows(run[i], events[i], accepts, run[i + 1])
  }

  /** `run` is what the channel goes through when `events` happen to it, one after the other. */
  ghost predicate IsRun(run: seq<Moment>, events: seq<Event>, accepts: nat -> bool) {
    && |run| == |events| + 1 && run[0] == Moment(START, [])
    && (forall i :: 0 <= i < |events| ==> FollowsAt(run, events, accepts, i))
  }

  /**
    Answered requests, then the one in flight, then the waiting ones are the submitted requests in
    order; nothing waits while the codec is free; the request in flight has a timer; the heartbeat
    that is out is still pending; and no answer is dropped before the channel is closed.
  */
  ghost predicate Inv(s: State, submitted: seq<Request>) {
    && Requests(s.desk.log) + Pending(s) == submitted
    && (s.ing.None? ==> s.waiting == [])
    && (s.ing.Some? ==> s.ing.value in s.timers)
    && BeatPending(s.desk, Pending(s))
    && (s.desk.attached ==> AllReceived(s.desk.log))
  }

  /** `Inv` without the promise that nothing waits, as it holds in the middle of an event. */
  ghost predicate Midway(s: State, submitted: seq<Request>) {
    && Requests(s.desk.log) + Pending(s) == submitted
    && (s.ing.Some? ==> s.ing.value in s.timers)
    && BeatPending(s.desk, Pending(s))
    && (s.desk.attached ==> AllReceived(s.desk.log))
  }

  lemma Regroup<T>(a: seq<T>, b: seq<T>, k: nat)
    requires k <= |b|
    ensures (a + b[..k]) + b[k..] == a + b
    ensures forall x :: x in b ==> x in b[..k] || x in b[k..]
  {
    assert b == b[..k] + b[k..];
  }

  lemma RefuseKeepsMidway(s: State, submitted: seq<Request>, k: nat)
    requires Midway(s, submitted) && s.ing.None? && k <= |s.waiting|
    ensures Midway(Refuse(s, k), submitted)
  {
    HandledAllAnswers(s.desk, s.waiting[..k], Broken);
    Regroup(Requests(s.desk.log), s.waiting, k);
    assert Pending(s) == s.waiting && Pending(Refuse(s, k)) == s.waiting[k..];
  }

  lemma TakeKeepsInv(s: State, submitted: seq<Request>)
    requires Midway(s, submitted) && s.ing.None? && s.waiting != []
    ensures Inv(Take(s), submitted)
  {
    assert Pending(Take(s)) == s.waiting == Pending(s);
  }

  lemma NextKeepsInv(s: State, submitted: seq<Request>, accepts: nat -> bool)
    requires Midway(s, submitted)
    ensures Inv(Next(s, accepts), submitted)
  {
    if s.ing.None? {
      var t := Refuse(s, Refused(accepts, s.attempts, |s.waiting|));
      RefuseKeepsMidway(s, submitted, Refused(accepts, s.attempts, |s.waiting|));
      if t.waiting != [] { TakeKeepsInv(t, submitted); }
    }
  }

  lemma DrainedKeepsInv(s: State, submitted: seq<Request>)
    requires Midway(s, submitted)
    ensures Inv(Drained(s), submitted) && Pending(Drained(s)) == [] && Requests(Drained(s).desk.log) == submitted
  {
    HandledAllAnswers(s.desk, Pending(s), Broken);
  }

  lemma AnsweredKeepsMidway(s: State, submitted: seq<Request>, o: Outcome)
    requires Midway(s, submitted) && s.ing.Some?
    ensures Midway(Answered(s, o), submitted)
  {
    RequestsAppend(s.desk.log, Answer(s.ing.value, o, ReceiverOf(s.desk, s.ing.value)));
    assert Requests(Answered(s, o).desk.log) == Requests(s.desk.log) + InFlight(s);
  }

  lemma QueuedKeepsMidway(s: State, submitted: seq<Request>, r: Request, beat: Option<Request>)
    requires Midway(s, submitted) && beat in {s.desk.heartbeat, Some(r)}
    ensures Midway(Queued(s.(desk := s.desk.(heartbeat := beat)), r), submitted + [r])
  {
    var t := Queued(s.(desk := s.desk.(heartbeat := beat)), r);
    assert Pending(t) == Pending(s) + [r];
    assert Requests(t.desk.log) + Pending(t) == (Requests(s.desk.log) + Pending(s)) + [r];
  }

  lemma StepKeepsInv(s: State, submitted: seq<Request>, e: Event, accepts: nat -> bool)
    requires Inv(s, submitted)
    ensures Inv(Step(s, e, accepts), submitted + Submits(s, e))
    ensures ClosesWith(s, e) ==> Pending(Step(s, e, accepts)) == []
  {
    assert submitted + [] == submitted;
    if e.Send? || e.Beat? || e.Message? {
      SendingKeepsInv(s, submitted, e, accepts);
    } else {
      ClosingKeepsInv(s, submitted, e, accepts);
    }
  }

  lemma SendingKeepsInv(s: State, submitted: seq<Request>, e: Event, accepts: nat -> bool)
    requires Inv(s, submitted) && (e.Send? || e.Beat? || e.Message?)
    ensures Inv(Step(s, e, accepts), submitted + Submits(s, e))
  {
    assert submitted + [] == submitted;
    match e
    case Send(r) =>
      QueuedKeepsMidway(s, submitted, r, s.desk.heartbeat);
      NextKeepsInv(Queued(s, r), submitted + [r], accepts);
    case Beat(r) =>
      if s.desk.heartbeat.None? {
        QueuedKeepsMidway(s, submitted, r, Some(r));
        NextKeepsInv(Queued(s.(desk := s.desk.(heartbeat := Some(r))), r), submitted + [r], accepts);
      }
    case Message(m) =>
      if s.ing.Some? {
        AnsweredKeepsMidway(s, submitted, Response(m));
        NextKeepsInv(Answered(s, Response(m)), submitted, accepts);
      }
  }

  lemma ClosingKeepsInv(s: State, submitted: seq<Request>, e: Event, accepts: nat -> bool)
    requires Inv(s, submitted) && (e.Timeout? || e.CodecClosed? || e.Close?)
    ensures Inv(Step(s, e, accepts), submitted)
    ensures ClosesWith(s, e) ==> Pending(Step(s, e, accepts)) == []
  {
    if e.Timeout? {
      if s.ing == Some(e.request) {
        AnsweredKeepsMidway(s, submitted, TimedOut);
        var t := Answered(s.(timers := s.timers - multiset{e.request}), TimedOut);
        assert t.desk == Answered(s, TimedOut).desk;
        DrainedKeepsInv(t, submitted);
      }
    } else {
      DrainedKeepsInv(s, submitted);
    }
  }

  /** The events after which nothing is pending: a close, or the timeout of the request in flight. */
  predicate ClosesWith(s: State, e: Event) {
    e.CodecClosed? || e.Close? || (e.Timeout? && s.ing == Some(e.request))
  }

  /** In every run the k-th answer goes to the k-th submitted request, and the rest is pending in order. */
  lemma {:induction false} RunAnswersInOrder(run: seq<Moment>, events: seq<Event>, accepts: nat -> bool, n: nat)
    requires IsRun(run, events, accepts) && n < |run|
    ensures Inv(run[n].state, run[n].submitted)
  {
    if n > 0 {
      RunAnswersInOrder(run, events, accepts, n - 1);
      assert FollowsAt(run, events, accepts, n - 1);
      StepKeepsInv(run[n - 1].state, run[n - 1].submitted, events[n - 1], accepts);
    }
  }

  lemma NextAnswers(s: State, accepts: nat -> bool)
    ensures var d := Next(s, accepts).desk;
      && Extends(s.desk, d) && d.attached == s.desk.attached
      && (forall i :: |s.desk.log| <= i < |d.log| ==> d.log[i].outcome == Broken && ReceiverOk(s.desk, d.log[i]))
  {
    HandledAllAnswers(s.desk, s.waiting[..Refused(accepts, s.attempts, |s.waiting|)], Broken);
  }

  lemma DrainedExtends(s: State)
    ensures var d := Drained(s).desk; Extends(s.desk, d) && d.attached == s.desk.attached
  {
    HandledAllAnswers(s.desk, Pending(s), Broken);
  }

  /** Answers are never taken back, and only `Close` detaches the channel from its client. */
  lemma StepExtends(s: State, e: Event, accepts: nat -> bool)
    ensures var d := Step(s, e, accepts).desk; Extends(s.desk, d) && d.attached == (s.desk.attached && e != Close)
  {
    if e.Send? || e.Beat? || e.Message? {
      SendingExtends(s, e, accepts);
    } else {
      ClosingExtends(s, e, accepts);
    }
  }

  lemma SendingExtends(s: State, e: Event, accepts: nat -> bool)
    requires e.Send? || e.Beat? || e.Message?
    ensures var d := Step(s, e, accepts).desk; Extends(s.desk, d) && d.attached == s.desk.attached
  {
    match e
    case Send(r) => NextAnswers(Queued(s, r), accepts);
    case Beat(r) => NextAnswers(Queued(s.(desk := s.desk.(heartbeat := Some(r))), r), accepts);
    case Message(m) => if s.ing.Some? { NextAnswers(Answered(s, Response(m)), accepts); }
  }

  lemma ClosingExtends(s: State, e: Event, accepts: nat -> bool)
    requires e.Timeout? || e.CodecClosed? || e.Close?
    ensures var d := Step(s, e, accepts).desk; Extends(s.desk, d) && d.attached == (s.desk.attached && e != Close)
  {
    if e.Timeout? {
      if s.ing == Some(e.request) {
        DrainedExtends(Answered(s.(timers := s.timers - multiset{e.request}), TimedOut));
      }
    } else {
      DrainedExtends(s);
    }
  }

  lemma {:induction false} AttachedUntilClosed(run: seq<Moment>, events: seq<Event>, accepts: nat -> bool, n: nat)
    requires IsRun(run, events, accepts) && n < |run|
    ensures run[n].state.desk.attached <==> Close !in events[..n]
  {
    if n > 0 {
      AttachedUntilClosed(run, events, accepts, n - 1);
      assert FollowsAt(run, events, accepts, n - 1);
      StepExtends(run[n - 1].state, events[n - 1], accepts);
      assert events[..n] == events[..n - 1] + [events[n - 1]];
    }
  }

  /** After a closing event every request ever submitted has its answer, and the first close drops none. */
  lemma ClosingAnswersEverything(run: seq<Moment>, events: seq<Event>, accepts: nat -> bool, n: nat)
    requires IsRun(run, events, accepts) && n < |events| && ClosesWith(run[n].state, events[n])
    ensures var m := run[n + 1];
      && m.state.ing.None? && m.state.waiting == [] && m.state.desk.heartbeat.None?
      && Requests(m.state.desk.log) == m.submitted
      && (Close !in events[..n] ==> AllReceived(m.state.desk.log))
  {
    assert FollowsAt(run, events, accepts, n);
    RunAnswersInOrder(run, events, accepts, n);
    AttachedUntilClosed(run, events, accepts, n);
    ClosingAnswersAll(run[n].state, run[n].submitted, events[n], accepts);
  }

  lemma ClosingAnswersAll(s: State, submitted: seq<Request>, e: Event, accepts: nat -> bool)
    requires Inv(s, submitted) && ClosesWith(s, e)
    ensures var t := Step(s, e, accepts);
      && t.ing.None? && t.waiting == [] && t.desk.heartbeat.None? && Submits(s, e) == []
      && Requests(t.desk.log) == submitted && (s.desk.attached ==> AllReceived(t.desk.log))
  {
    var t := Step(s, e, accepts);
    StepKeepsInv(s, submitted, e, accepts);
    assert submitted + [] == submitted;
    assert t.ing.None? && t.waiting == [] by { assert Pending(t) == []; }
    assert Requests(t.desk.log) + [] == Requests(t.desk.log);
    if s.desk.attached { ClosingDropsNothing(s, submitted, e, accepts); }
  }

  lemma ClosingDropsNothing(s: State, submitted: seq<Request>, e: Event, accepts: nat -> bool)
    requires Inv(s, submitted) && ClosesWith(s, e) && s.desk.attached
    ensures AllReceived(Step(s, e, accepts).desk.log)
  {
    var t := if e.Timeout? then Answered(s, TimedOut) else s;
    HandledAllAnswers(t.desk, Pending(t), Broken);
  }

  /** Nothing is stranded: whenever a request is pending, a posted timer will answer all that is. */
  lemma PendingHasATimer(run: seq<Moment>, events: seq<Event>, accepts: nat -> bool, n: nat)
    requires IsRun(run, events, accepts) && n < |run|
    ensures var s := run[n].state; Pending(s) != [] ==>
      && s.ing.Some? && s.ing.value in s.timers
      && Pending(Step(s, Timeout(s.ing.value), accepts)) == []
  {
    RunAnswersInOrder(run, events, accepts, n);
  }

  /** The requests that were answered by a message of the peer. */
  function Responded(log: seq<Answer>): seq<Request> {
    if log == [] then [] else
      var a := log[|log| - 1];
      Responded(log[..|log| - 1]) + (if a.outcome.Response? then [a.request] else [])
  }

  ghost predicate NoTimeout(log: seq<Answer>) { forall i :: 0 <= i < |log| ==> log[i].outcome != TimedOut }

  /** The codec took exactly the requests that were responded to and the one in flight. */
  ghost predicate Paired(s: State) { s.wire == Responded(s.desk.log) + InFlight(s) }

  lemma {:induction false} BrokenIsNoResponse(d: Desk, rs: seq<Request>)
    ensures Responded(HandledAll(d, rs, Broken).log) == Responded(d.log)
  {
    if rs != [] {
      BrokenIsNoResponse(d, rs[..|rs| - 1]);
    }
  }

  lemma NextKeepsPaired(s: State, accepts: nat -> bool)
    requires Paired(s)
    ensures Paired(Next(s, accepts))
  {
    var k := Refused(accepts, s.attempts, |s.waiting|);
    BrokenIsNoResponse(s.desk, s.waiting[..k]);
  }

  /**
    While the connection is neither closed nor timed out, the j-th response is the answer to the
    j-th request on the wire, and at most one request on the wire is unanswered.
  */
  lemma {:induction false} RunPairsResponses(run: seq<Moment>, events: seq<Event>, accepts: nat -> bool, n: nat)
    requires IsRun(run, events, accepts) && n < |run|
    requires Close !in events[..n] && CodecClosed !in events[..n] && NoTimeout(run[n].state.desk.log)
    ensures Paired(run[n].state)
  {
    if n > 0 {
      var s, e := run[n - 1].state, events[n - 1];
      assert events[..n] == events[..n - 1] + [e];
      assert FollowsAt(run, events, accepts, n - 1);
      StepExtends(s, e, accepts);
      RunPairsResponses(run, events, accepts, n - 1);
      StepKeepsPaired(s, e, accepts);
    }
  }

  lemma StepKeepsPaired(s: State, e: Event, accepts: nat -> bool)
    requires Paired(s) && e != Close && e != CodecClosed && NoTimeout(Step(s, e, accepts).desk.log)
    ensures Paired(Step(s, e, accepts))
  {
    match e
    case Send(r) => NextKeepsPaired(Queued(s, r), accepts);
    case Beat(r) =>
      if s.desk.heartbeat.None? {
        NextKeepsPaired(Queued(s.(desk := s.desk.(heartbeat := Some(r))), r), accepts);
      }
    case Message(m) =>
      if s.ing.Some? {
        NextKeepsPaired(Answered(s, Response(m)), accepts);
      }
    case Timeout(r) =>
      if s.ing == Some(r) {
        TimeoutIsLogged(s, accepts);
      }
  }

  lemma TimeoutIsLogged(s: State, accepts: nat -> bool)
    requires s.ing.Some?
    ensures !NoTimeout(Step(s, Timeout(s.ing.value), accepts).desk.log)
  {
    var t := Answered(s.(timers := s.timers - multiset{s.ing.value}), TimedOut);
    HandledAllAnswers(t.desk, Pending(t), Broken);
    assert Drained(t).desk.log[|s.desk.log|] == t.desk.log[|s.desk.log|];
  }

  class Queue {
    const client: Channel
    const accepts: nat -> bool
    var ing: Option<Request>
    var waiting: seq<Request>
    var wire: seq<Request>
    var timers: multiset<Request>
    var attempts: nat

    constructor (accepts: nat -> bool)
      ensures this.accepts == accepts && Value() == START && fresh(client)
    {
      client := new Channel();
      this.accepts := accepts;
      ing, waiting, wire, timers, attempts := None, [], [], multiset{}, 0;
    }

    function Value(): State
      reads this, client
    {
      State(client.State(), ing, waiting, wire, timers, attempts)
    }

    method SendRequest(r: Request)
      modifies this, client
      ensures Value() == Step(old(Value()), Send(r), accepts)
    {
      waiting := waiting + [r];
      var _ := TrySendNext();
    }

    method OnHeartbeatTimer(r: Request)
      modifies this, client
      ensures Value() == Step(old(Value()), Beat(r), accepts)
    {
      if client.heartbeat.Some? {
        return;
      }
      client.heartbeat := Some(r);
      SendRequest(r);
    }

    method TrySendNext() returns (success: bool)
      modifies this, client
      ensures Value() == Next(old(Value()), accepts)
      ensures success <==> ing.Some?
    {
      if ing.Some? {
        return true;
      }
      success := false;
      ghost var k, s := 0, Value();
      while !success && |waiting| > 0
        invariant k <= |s.waiting|
        invariant forall i :: s.attempts <= i < s.attempts + k ==> !accepts(i)
        invariant !success ==> Value() == Refuse(s, k)
        invariant success ==> k < |s.waiting| && accepts(s.attempts + k)
        invariant success ==> Value() == Take(Refuse(s, k)).(timers := s.timers)
        decreases |waiting|
      {
        RefuseOne(s, k);
        success := SendFront();
        if !success {
          k := k + 1;
        }
      }
      RefusedIs(accepts, s.attempts, |s.waiting|, k);
      if success {
        timers := timers + multiset{ing.value};
      }
    }

    /** One round of the loop of `TrySendNext`. */
    method SendFront() returns (success: bool)
      requires ing.None? && waiting != []
      modifies this, client
      ensures success == accepts(old(attempts))
      ensures var s := old(Value()); Value() == if success then Take(s).(timers := s.timers) else Refuse(s, 1)
    {
      var next := waiting[0];
      RefuseOne(Value(), 0);
      success := accepts(attempts);
      attempts := attempts + 1;
      waiting := waiting[1..];
      if success {
        wire := wire + [next];
        ing := Some(next);
      } else {
        var _ := client.HandleResponse(next, Broken);
      }
    }

    /** `BeforeCloseChannel`, and the first half of `OnCodecClosed`. */
    method Drain()
      modifies this, client
      ensures Value() == Drained(old(Value()))
    {
      if ing.Some? {
        var _ := client.HandleResponse(ing.value, Broken);
        ing := None;
      }
      ghost var s, k := Value(), 0;
      while |waiting| > 0
        invariant k <= |s.waiting| && Value() == Refuse(s, k).(attempts := s.attempts)
        decreases |waiting|
      {
        RefuseOne(s, k);
        var _ := client.HandleResponse(waiting[0], Broken);
        waiting := waiting[1..];
        k := k + 1;
      }
      RefuseAllDrains(old(Value()), s);
    }

    method OnRequestTimeout(r: Request)
      modifies this, client
      ensures Value() == Step(old(Value()), Timeout(r), accepts)
    {
      timers := timers - multiset{r};
      if ing != Some(r) {
        return;
      }
      ghost var t := Value();
      var _ := client.HandleResponse(r, TimedOut);
      ing := None;
      assert Value() == Answered(t, TimedOut);
      OnCodecClosed();
    }

    method OnCodecMessage(m: nat)
      modifies this, client
      ensures Value() == Step(old(Value()), Message(m), accepts)
    {
      if ing.None? {
        return;
      }
      var request := ing.value;
      ing := None;
      var _ := client.HandleResponse(request, Response(m));
      var _ := TrySendNext();
    }

    method OnCodecClosed()
      modifies this, client
      ensures Value() == Step(old(Value()), CodecClosed, accepts)
    {
      Drain();
    }

    method CloseClientChannel()
      modifies this, client
      ensures Value() == Step(old(Value()), Close, accepts)
    {
      Drain();
      client.attached := false;
      OnCodecClosed();
    }
  }
}
