/** What the channel of `AsyncChannel` answers its requests with, and whom it answers. */
module AsyncRuns {
  import opened Wrappers
  import opened ClientChannel
  import opened AsyncChannel
  import opened Sequences

  datatype Verdict = Verdict(request: Request, outcome: Outcome)

  /** The requests that an event answers, and what with. */
  function Verdicts(s: State, e: Event): seq<Verdict> {
    match e
    case Send(r, accepted) => if accepted then [] else [Verdict(r, Broken)]
    case Beat(r, accepted) => if accepted || s.desk.heartbeat.Some? then [] else [Verdict(r, Broken)]
    case Message(id, m) => if id in s.inProgress then [Verdict(s.inProgress[id], Response(m))] else []
    case Timeout(r, alive) => if alive && r.asyncId in s.inProgress then [Verdict(r, TimedOut)] else []
    case CodecClosed(order) => AllBroken(order)
    case Close(order) => AllBroken(order)
  }

  function AllBroken(order: seq<Request>): seq<Verdict> {
    seq(|order|, i requires 0 <= i < |order| => Verdict(order[i], Broken))
  }

  /** The i-th new answer says this, and goes to the client if there is one. */
  ghost predicate Gives(d: Desk, log: seq<Answer>, i: nat, v: Verdict) {
    var k := |d.log| + i;
    k < |log| && log[k].request == v.request && log[k].outcome == v.outcome && ReceiverOk(d, log[k])
  }

  /** The new answers are those of the event, in order. */
  ghost predicate AnswersAre(s: State, e: Event, t: State) {
    var vs := Verdicts(s, e);
    && s.desk.log <= t.desk.log && |t.desk.log| == |s.desk.log| + |vs|
    && (forall i :: 0 <= i < |vs| ==> Gives(s.desk, t.desk.log, i, vs[i]))
  }

  lemma DrainedAnswers(d: Desk, order: seq<Request>)
    ensures var e := HandledAll(d, order, Broken);
      && d.log <= e.log && |e.log| == |d.log| + |order|
      && forall i :: 0 <= i < |order| ==> Gives(d, e.log, i, AllBroken(order)[i])
  {
    var e := HandledAll(d, order, Broken);
    HandledAllAnswers(d, order, Broken);
    assert |Requests(e.log)| == |d.log| + |order|;
    forall i | 0 <= i < |order| ensures Gives(d, e.log, i, AllBroken(order)[i]) {
      assert Requests(e.log)[|d.log| + i] == order[i];
    }
  }

  lemma OneAnswers(s: State, e: Event, t: State, d: Desk, v: Verdict)
    requires Verdicts(s, e) == [v] && t.desk == Handled(d, v.request, v.outcome)
    requires d.log == s.desk.log && d.attached == s.desk.attached
    ensures AnswersAre(s, e, t)
  {
    assert t.desk.log == s.desk.log + [Answer(v.request, v.outcome, ReceiverOf(d, v.request))];
    assert Gives(s.desk, t.desk.log, 0, v);
  }

  lemma StepAnswers(s: State, e: Event)
    ensures AnswersAre(s, e, Step(s, e))
  {
    var vs := Verdicts(s, e);
    if e.CodecClosed? || e.Close? {
      DrainedAnswers(s.desk, e.order);
    } else if vs != [] {
      OneAnswers(s, e, Step(s, e), if e.Beat? then s.desk.(heartbeat := Some(e.request)) else s.desk, vs[0]);
    }
  }

  /** The messages that met a request under their id, each with that request, in order. */
  ghost function Met(run: seq<Moment>, events: seq<Event>, n: nat): seq<(Request, nat)>
    requires |run| == |events| + 1 && n <= |events|
  {
    if n == 0 then [] else Met(run, events, n - 1) + Meets(run[n - 1].state, events[n - 1])
  }

  function Meets(s: State, e: Event): seq<(Request, nat)> {
    if e.Message? && e.id in s.inProgress then [(s.inProgress[e.id], e.message)] else []
  }

  lemma StepResponds(s: State, e: Event, t: State)
    requires AnswersAre(s, e, t)
    ensures Responses(t.desk.log) == Responses(s.desk.log) + Meets(s, e)
  {
    var log, more, vs := s.desk.log, t.desk.log, Verdicts(s, e);
    if e.Message? && e.id in s.inProgress {
      assert Gives(s.desk, more, 0, vs[0]);
      assert more[..|more| - 1] == log;
    } else {
      forall i | |log| <= i < |more| ensures !more[i].outcome.Response? {
        assert Gives(s.desk, more, i - |log|, vs[i - |log|]);
      }
      ResponsesStay(log, more);
    }
  }

  /**
    In every run: each event gives exactly the answers it is about, to the requests it is about, and
    the responses handed out, in order, are the messages of the peer that met a request under their
    id, each to that request and unaltered.
  */
  lemma {:induction false} RunHandsOutResponses(run: seq<Moment>, events: seq<Event>, n: nat)
    requires IsRun(run, events) && n < |run|
    ensures Responses(run[n].state.desk.log) == Met(run, events, n)
    ensures n < |events| ==> AnswersAre(run[n].state, events[n], run[n + 1].state)
  {
    if n < |events| {
      assert FollowsAt(run, events, n);
      StepAnswers(run[n].state, events[n]);
    }
    if n > 0 {
      RunHandsOutResponses(run, events, n - 1);
      StepResponds(run[n - 1].state, events[n - 1], run[n].state);
    }
  }

  lemma StepDetaches(s: State, e: Event)
    ensures Step(s, e).desk.attached <==> s.desk.attached && !e.Close?
  {
    if e.CodecClosed? || e.Close? { HandledAllAnswers(s.desk, e.order, Broken); }
  }

  /** In every run the client is attached exactly until `CloseClientChannel`. */
  lemma {:induction false} AttachedUntilClosed(run: seq<Moment>, events: seq<Event>, n: nat)
    requires IsRun(run, events) && n < |run|
    ensures run[n].state.desk.attached <==> forall i :: 0 <= i < n ==> !events[i].Close?
  {
    if n > 0 {
      AttachedUntilClosed(run, events, n - 1);
      assert FollowsAt(run, events, n - 1);
      StepDetaches(run[n - 1].state, events[n - 1]);
    }
  }

  /** The heartbeats handed in. */
  ghost function Beats(run: seq<Moment>, events: seq<Event>, n: nat): set<Request>
    requires |run| == |events| + 1 && n <= |events|
  {
    if n == 0 then {} else Beats(run, events, n - 1) + BeatOf(run[n - 1].state, events[n - 1])
  }

  function BeatOf(s: State, e: Event): set<Request> {
    if e.Beat? && s.desk.heartbeat.None? then {e.request} else {}
  }

  ghost predicate BeatsKnown(s: State, beats: set<Request>) { BeatsOk(s.desk, s.inProgress.Values, beats) }

  lemma NewIsNew(s: State, submitted: seq<Request>, r: Request)
    requires Inv(s, submitted) && DistinctIds(submitted + [r])
    ensures r !in submitted && r !in s.inProgress.Values && r !in Requests(s.desk.log) && r.asyncId !in s.inProgress
    ensures s.desk.heartbeat != Some(r)
  {
    var all := submitted + [r];
    NewIdIsFree(s, submitted, r);
    assert all[|submitted|] == r && forall i :: 0 <= i < |submitted| ==> all[i] == submitted[i];
    if r in s.inProgress.Values || r in Requests(s.desk.log) { InProgressOrAnswered(s, submitted, r); }
  }

  lemma InProgressOrAnswered(s: State, submitted: seq<Request>, r: Request)
    requires Balanced(s, submitted) && (r in s.inProgress.Values || r in Requests(s.desk.log))
    ensures r in submitted
  {
    assert r in multiset(Requests(s.desk.log)) + multiset(s.inProgress.Values);
    assert r in multiset(submitted);
  }

  lemma SentKeepsBeats(s: State, beats: set<Request>, r: Request, accepted: bool, beat: bool)
    requires BeatsKnown(s, beats) && r !in beats && r !in s.inProgress.Values && r !in Requests(s.desk.log)
    requires r.asyncId !in s.inProgress && s.desk.heartbeat != Some(r) && (beat ==> s.desk.heartbeat.None?)
    ensures BeatsKnown(Sent(s.(desk := WithBeat(s.desk, r, beat)), r, accepted), if beat then beats + {r} else beats)
  {
    var after, values := if beat then beats + {r} else beats, s.inProgress.Values;
    var d := WithBeat(s.desk, r, beat);
    NewKeepsBeats(s.desk, values, beats, r, beat);
    if accepted {
      assert s.inProgress[r.asyncId := r].Values <= values + {r};
      BeatsOfFewer(d, values + {r}, s.inProgress[r.asyncId := r].Values, after);
    } else {
      AnswerKeepsBeats(d, values + {r}, after, r, Broken);
      BeatsOfFewer(Handled(d, r, Broken), (values + {r}) - {r}, values, after);
    }
  }

  lemma TakenKeepsBeats(s: State, submitted: seq<Request>, beats: set<Request>, id: nat, o: Outcome)
    requires BeatsKnown(s, beats) && Keyed(s) && id in s.inProgress
    ensures BeatsKnown(Taken(s, id, s.inProgress[id], o), beats)
  {
    var r, rest := s.inProgress[id], s.inProgress - {id};
    AnswerKeepsBeats(s.desk, s.inProgress.Values, beats, r, o);
    assert rest.Values <= s.inProgress.Values - {r};
    BeatsOfFewer(Handled(s.desk, r, o), s.inProgress.Values - {r}, rest.Values, beats);
  }

  lemma OrderNoRepeats(order: seq<Request>, values: set<Request>)
    requires multiset(order) == multiset(values)
    ensures NoRepeats(order) && AsSet(order) == values
  {
    forall i, j | 0 <= i < j < |order| ensures order[i] != order[j] {
      assert order == order[..j] + order[j..];
      assert order[i] in order[..j] && order[j] in order[j..];
      assert multiset(order)[order[i]] <= 1;
    }
    forall r ensures r in order <==> r in values { assert r in multiset(order) <==> r in order; }
  }

  lemma DrainedKeepsBeats(s: State, beats: set<Request>, order: seq<Request>)
    requires BeatsKnown(s, beats) && IsOrder(order, s.inProgress)
    ensures BeatsKnown(Drained(s, order), beats)
  {
    var values := s.inProgress.Values;
    OrderNoRepeats(order, values);
    assert forall i :: 0 <= i < |order| ==> order[i] in AsSet(order);
    AnswersKeepBeats(s.desk, values, beats, order, Broken);
    assert Drained(s, order).inProgress.Values == {};
  }

  lemma StepKeepsBeats(s: State, submitted: seq<Request>, beats: set<Request>, e: Event)
    requires BeatsKnown(s, beats) && Inv(s, submitted) && Enabled(s, submitted, e)
    requires DistinctIds(submitted + Submits(s, e)) && forall r :: r in beats ==> r in submitted
    ensures BeatsKnown(Step(s, e), beats + BeatOf(s, e))
  {
    assert beats + {} == beats && submitted + [] == submitted;
    match e
    case Send(r, accepted) =>
      NewIsNew(s, submitted, r);
      SentKeepsBeats(s, beats, r, accepted, false);
    case Beat(r, accepted) =>
      if s.desk.heartbeat.None? {
        NewIsNew(s, submitted, r);
        SentKeepsBeats(s, beats, r, accepted, true);
      }
    case Message(id, m) => if id in s.inProgress { TakenKeepsBeats(s, submitted, beats, id, Response(m)); }
    case Timeout(r, alive) =>
      if alive && r.asyncId in s.inProgress {
        OldIdIsOwn(s, submitted, r);
        TakenKeepsBeats(s, submitted, beats, r.asyncId, TimedOut);
      }
    case CodecClosed(order) => DrainedKeepsBeats(s, beats, order);
    case Close(order) => DrainedKeepsBeats(s, beats, order);
  }

  ghost predicate BeatsTold(m: Moment, beats: set<Request>) {
    BeatsKnown(m.state, beats) && forall r :: r in beats ==> r in m.submitted
  }

  lemma FollowsKeepsBeats(before: Moment, e: Event, after: Moment, beats: set<Request>)
    requires Follows(before, e, after) && DistinctIds(after.submitted)
    requires Inv(before.state, before.submitted) && BeatsTold(before, beats)
    ensures BeatsTold(after, beats + BeatOf(before.state, e))
  {
    StepKeepsBeats(before.state, before.submitted, beats, e);
  }

  /** In every run that uses no id twice, the heartbeat gets the answers to heartbeats and no others. */
  lemma {:induction false} RunTellsBeats(run: seq<Moment>, events: seq<Event>, n: nat)
    requires IsRun(run, events) && n < |run| && DistinctIds(run[n].submitted)
    ensures BeatsTold(run[n], Beats(run, events, n))
  {
    if n == 0 {
      assert START.inProgress.Values == {};
    } else {
      var before := run[n - 1];
      assert FollowsAt(run, events, n - 1);
      assert forall i :: 0 <= i < |before.submitted| ==> run[n].submitted[i] == before.submitted[i];
      RunTellsBeats(run, events, n - 1);
      RunKeepsInv(run, events, n - 1);
      FollowsKeepsBeats(before, events[n - 1], run[n], Beats(run, events, n - 1));
    }
  }
}
