/** What the one-in-flight channel answers its requests with, whom it answers, and what it sends. */
module QueuedRuns {
  import opened Wrappers
  import opened ClientChannel
  import opened QueuedChannel
  import opened Sequences

  /** What an event answers the request in flight with, if it is about that request. */
  function Verdict(s: State, e: Event): Option<Outcome> {
    match e
    case Message(m) => if s.ing.Some? then Some(Response(m)) else None
    case Timeout(r) => if s.ing == Some(r) then Some(TimedOut) else None
    case _ => None
  }

  /** The first new answer gives the verdict to the request in flight, and all others say: broken. */
  ghost predicate AnswersAre(s: State, e: Event, t: State) {
    var n, v := |s.desk.log|, Verdict(s, e);
    && s.desk.log <= t.desk.log
    && (v.Some? ==> n < |t.desk.log| && t.desk.log[n].request == s.ing.value && t.desk.log[n].outcome == v.value)
    && (forall i :: n <= i < |t.desk.log| ==> (i > n || v.None?) ==> t.desk.log[i].outcome == Broken)
    && (forall i :: n <= i < |t.desk.log| ==> ReceiverOk(s.desk, t.desk.log[i]))
  }

  lemma StepAnswers(s: State, e: Event, accepts: nat -> bool)
    ensures AnswersAre(s, e, Step(s, e, accepts))
  {
    if e.Send? || e.Beat? || e.Message? {
      SendingAnswers(s, e, accepts);
    } else {
      ClosingAnswers(s, e, accepts);
    }
  }

  lemma SendingAnswers(s: State, e: Event, accepts: nat -> bool)
    requires e.Send? || e.Beat? || e.Message?
    ensures AnswersAre(s, e, Step(s, e, accepts))
  {
    match e
    case Send(r) => NextAnswers(Queued(s, r), accepts);
    case Beat(r) => NextAnswers(Queued(s.(desk := s.desk.(heartbeat := Some(r))), r), accepts);
    case Message(m) => if s.ing.Some? { NextAnswers(Answered(s, Response(m)), accepts); }
  }

  lemma ClosingAnswers(s: State, e: Event, accepts: nat -> bool)
    requires e.Timeout? || e.CodecClosed? || e.Close?
    ensures AnswersAre(s, e, Step(s, e, accepts))
  {
    if e.Timeout? {
      if s.ing == Some(e.request) {
        var t := Answered(s.(timers := s.timers - multiset{e.request}), TimedOut);
        HandledAllAnswers(t.desk, Pending(t), Broken);
      }
    } else {
      HandledAllAnswers(s.desk, Pending(s), Broken);
    }
  }

  /** The messages that met a request in flight, each with that request, in order. */
  ghost function Met(run: seq<Moment>, events: seq<Event>, n: nat): seq<(Request, nat)>
    requires |run| == |events| + 1 && n <= |events|
  {
    if n == 0 then [] else
      var s, e := run[n - 1].state, events[n - 1];
      Met(run, events, n - 1) + if e.Message? && s.ing.Some? then [(s.ing.value, e.message)] else []
  }

  lemma StepResponds(s: State, e: Event, t: State)
    requires AnswersAre(s, e, t)
    ensures Responses(t.desk.log) ==
      Responses(s.desk.log) + if e.Message? && s.ing.Some? then [(s.ing.value, e.message)] else []
  {
    var log, v := s.desk.log, Verdict(s, e);
    if v.Some? {
      var first := t.desk.log[..|log| + 1];
      assert first[..|log|] == log && first[|log|] == t.desk.log[|log|];
      ResponsesStay(first, t.desk.log);
    } else {
      ResponsesStay(log, t.desk.log);
    }
  }

  /**
    In every run: the responses handed out, in order, are the messages of the peer that met a request
    in flight, each to that request and unaltered. What every other answer says is in `AnswersAre`.
  */
  lemma {:induction false} RunHandsOutResponses(run: seq<Moment>, events: seq<Event>, accepts: nat -> bool, n: nat)
    requires IsRun(run, events, accepts) && n < |run|
    ensures Responses(run[n].state.desk.log) == Met(run, events, n)
    ensures n < |events| ==> AnswersAre(run[n].state, events[n], run[n + 1].state)
  {
    if n < |events| {
      assert FollowsAt(run, events, accepts, n);
      StepAnswers(run[n].state, events[n], accepts);
    }
    if n > 0 {
      RunHandsOutResponses(run, events, accepts, n - 1);
      StepResponds(run[n - 1].state, events[n - 1], run[n].state);
    }
  }

  /** The heartbeats handed in. */
  ghost function Beats(run: seq<Moment>, events: seq<Event>, n: nat): set<Request>
    requires |run| == |events| + 1 && n <= |events|
  {
    if n == 0 then {} else Beats(run, events, n - 1) + BeatOf(run[n - 1].state, events[n - 1])
  }

  function BeatOf(s: State, e: Event): set<Request> {
    if e.Beat? && s.desk.heartbeat.None? then {e.request} else {}
  }

  /** `BeatsOk` for what is pending, and nothing is pending twice. */
  ghost predicate BeatsKnown(s: State, beats: set<Request>) {
    BeatsOk(s.desk, AsSet(Pending(s)), beats) && NoRepeats(Pending(s))
  }

  lemma AnsweredKeepsBeats(s: State, beats: set<Request>, o: Outcome)
    requires BeatsKnown(s, beats) && s.ing.Some?
    ensures BeatsKnown(Answered(s, o), beats)
  {
    FirstKeepBeats(s.desk, Pending(s), 1, beats, o);
    assert Pending(s)[..1] == [s.ing.value] && Pending(s)[1..] == s.waiting == Pending(Answered(s, o));
    HandledOne(s.desk, s.ing.value, o);
  }

  lemma HandledOne(d: Desk, r: Request, o: Outcome)
    ensures HandledAll(d, [r], o) == Handled(d, r, o)
  {
    assert HandledAll(d, [r][..0], o) == d;
  }

  lemma RefuseKeepsBeats(s: State, beats: set<Request>, k: nat)
    requires BeatsKnown(s, beats) && s.ing.None? && k <= |s.waiting|
    ensures BeatsKnown(Refuse(s, k), beats)
  {
    assert Pending(s) == s.waiting && Pending(Refuse(s, k)) == s.waiting[k..];
    FirstKeepBeats(s.desk, s.waiting, k, beats, Broken);
  }

  lemma NextKeepsBeats(s: State, beats: set<Request>, accepts: nat -> bool)
    requires BeatsKnown(s, beats)
    ensures BeatsKnown(Next(s, accepts), beats)
  {
    if s.ing.None? {
      var k := Refused(accepts, s.attempts, |s.waiting|);
      RefuseKeepsBeats(s, beats, k);
      if k < |s.waiting| { TakeKeepsBeats(Refuse(s, k), beats); }
    }
  }

  lemma TakeKeepsBeats(s: State, beats: set<Request>)
    requires BeatsKnown(s, beats) && s.ing.None? && s.waiting != []
    ensures BeatsKnown(Take(s), beats)
  {
    assert Pending(Take(s)) == s.waiting == Pending(s);
  }

  lemma DrainedKeepsBeats(s: State, beats: set<Request>)
    requires BeatsKnown(s, beats)
    ensures BeatsKnown(Drained(s), beats)
  {
    var all := Pending(s);
    FirstKeepBeats(s.desk, all, |all|, beats, Broken);
    assert all[..|all|] == all && all[|all|..] == [] == Pending(Drained(s));
  }

  /** What is new is neither answered nor pending, and what is pending is there once. */
  lemma NewIsNew(s: State, submitted: seq<Request>, r: Request)
    requires Inv(s, submitted) && NoRepeats(submitted + [r])
    ensures r !in submitted && r !in Pending(s) && r !in Requests(s.desk.log) && NoRepeats(Pending(s) + [r])
  {
    var requests := Requests(s.desk.log);
    assert submitted + [r] == requests + (Pending(s) + [r]);
    PartsNoRepeats(submitted, [r]);
    PartsNoRepeats(requests, Pending(s) + [r]);
    assert r in [r] && r in Pending(s) + [r];
  }

  /** The state with the event's request queued. */
  function Handed(s: State, e: Event): State
    requires e.Send? || e.Beat?
  {
    Queued(s.(desk := WithBeat(s.desk, e.request, e.Beat?)), e.request)
  }

  lemma QueuedKeepsBeats(s: State, submitted: seq<Request>, beats: set<Request>, e: Event)
    requires BeatsKnown(s, beats) && Inv(s, submitted) && NoRepeats(submitted + Submits(s, e))
    requires (forall r :: r in beats ==> r in submitted) && (e.Send? || e.Beat?) && Submits(s, e) != []
    ensures BeatsKnown(Handed(s, e), beats + BeatOf(s, e))
  {
    var pending := AsSet(Pending(s));
    NewIsNew(s, submitted, e.request);
    NewKeepsBeats(s.desk, pending, beats, e.request, e.Beat?);
    assert Pending(Handed(s, e)) == Pending(s) + [e.request];
    assert AsSet(Pending(Handed(s, e))) == pending + {e.request};
    assert beats + {} == beats;
  }

  lemma StepKeepsBeats(s: State, submitted: seq<Request>, beats: set<Request>, e: Event, accepts: nat -> bool)
    requires BeatsKnown(s, beats) && Inv(s, submitted) && NoRepeats(submitted + Submits(s, e))
    requires forall r :: r in beats ==> r in submitted
    ensures BeatsKnown(Step(s, e, accepts), beats + BeatOf(s, e))
  {
    assert beats + {} == beats;
    if e.Send? || e.Beat? {
      if Submits(s, e) != [] {
        QueuedKeepsBeats(s, submitted, beats, e);
        NextKeepsBeats(Handed(s, e), beats + BeatOf(s, e), accepts);
      }
    } else if e.Message? {
      if s.ing.Some? { MessageKeepsBeats(s, beats, e.message, accepts); }
    } else if e.Timeout? {
      if s.ing == Some(e.request) { TimeoutKeepsBeats(s, beats); }
    } else {
      DrainedKeepsBeats(s, beats);
    }
  }

  lemma MessageKeepsBeats(s: State, beats: set<Request>, m: nat, accepts: nat -> bool)
    requires BeatsKnown(s, beats) && s.ing.Some?
    ensures BeatsKnown(Step(s, Message(m), accepts), beats)
  {
    AnsweredKeepsBeats(s, beats, Response(m));
    NextKeepsBeats(Answered(s, Response(m)), beats, accepts);
  }

  lemma TimeoutKeepsBeats(s: State, beats: set<Request>)
    requires BeatsKnown(s, beats) && s.ing.Some?
    ensures BeatsKnown(Drained(Answered(s.(timers := s.timers - multiset{s.ing.value}), TimedOut)), beats)
  {
    AnsweredKeepsBeats(s, beats, TimedOut);
    DrainedKeepsBeats(Answered(s, TimedOut), beats);
  }

  ghost predicate BeatsTold(m: Moment, beats: set<Request>) {
    BeatsKnown(m.state, beats) && forall r :: r in beats ==> r in m.submitted
  }

  lemma FollowsKeepsBeats(before: Moment, e: Event, accepts: nat -> bool, after: Moment, beats: set<Request>)
    requires Follows(before, e, accepts, after) && NoRepeats(after.submitted)
    requires Inv(before.state, before.submitted) && BeatsTold(before, beats)
    ensures BeatsTold(after, beats + BeatOf(before.state, e))
  {
    StepKeepsBeats(before.state, before.submitted, beats, e, accepts);
  }

  /** In every run in which no request is handed in twice, exactly the answers to heartbeats go to the heartbeat. */
  lemma {:induction false} RunTellsBeats(run: seq<Moment>, events: seq<Event>, accepts: nat -> bool, n: nat)
    requires IsRun(run, events, accepts) && n < |run| && NoRepeats(run[n].submitted)
    ensures BeatsTold(run[n], Beats(run, events, n))
  {
    if n > 0 {
      assert FollowsAt(run, events, accepts, n - 1);
      PartsNoRepeats(run[n - 1].submitted, Submits(run[n - 1].state, events[n - 1]));
      RunTellsBeats(run, events, accepts, n - 1);
      RunAnswersInOrder(run, events, accepts, n - 1);
      FollowsKeepsBeats(run[n - 1], events[n - 1], accepts, run[n], Beats(run, events, n - 1));
    }
  }

  /** How many of the first n send attempts the codec took. */
  function Accepted(accepts: nat -> bool, n: nat): nat {
    if n == 0 then 0 else Accepted(accepts, n - 1) + if accepts(n - 1) then 1 else 0
  }

  lemma {:induction false} RefusedAreNotAccepted(accepts: nat -> bool, n: nat, k: nat)
    requires forall i :: n <= i < n + k ==> !accepts(i)
    ensures Accepted(accepts, n + k) == Accepted(accepts, n)
  {
    if k > 0 { RefusedAreNotAccepted(accepts, n, k - 1); }
  }

  lemma NextKeepsWire(s: State, accepts: nat -> bool)
    requires |s.wire| == Accepted(accepts, s.attempts)
    ensures |Next(s, accepts).wire| == Accepted(accepts, Next(s, accepts).attempts)
  {
    if s.ing.None? { RefusedAreNotAccepted(accepts, s.attempts, Refused(accepts, s.attempts, |s.waiting|)); }
  }

  /** In every run the requests on the wire are as many as the codec took, and no attempt is repeated. */
  lemma {:induction false} RunSendsWhatIsAccepted(run: seq<Moment>, events: seq<Event>, accepts: nat -> bool, n: nat)
    requires IsRun(run, events, accepts) && n < |run|
    ensures |run[n].state.wire| == Accepted(accepts, run[n].state.attempts)
  {
    if n > 0 {
      RunSendsWhatIsAccepted(run, events, accepts, n - 1);
      assert FollowsAt(run, events, accepts, n - 1);
      var s := run[n - 1].state;
      match events[n - 1]
      case Send(r) => NextKeepsWire(Queued(s, r), accepts);
      case Beat(r) => NextKeepsWire(Queued(s.(desk := s.desk.(heartbeat := Some(r))), r), accepts);
      case Message(m) => if s.ing.Some? { NextKeepsWire(Answered(s, Response(m)), accepts); }
      case _ =>
    }
  }
}
