/**
  The client channel that keeps its requests in a table under their ids
  (net_io/clients/async_channel.cc). `Step` says what an event does to the channel as a value;
  `Table` is the object whose methods do it in place. The order in which a close walks the hash
  table is part of the event, and any order is allowed.

  The table does not replace an entry whose id is taken, so a request sent under such an id is not
  in it, and a timeout looks only at the id. A timer keeps a weak reference; whether that still
  locks when it fires is part of the event. `RepeatedIdAnsweredIff` says when such a request is
  answered nevertheless, `RunBalancedIff` exactly which runs account for every request, and
  `RunAnswersOnce` that the runs without a repeated id do.
*/
module AsyncChannel {
  import opened Wrappers
  import opened ClientChannel

  datatype State = State(desk: Desk, inProgress: map<nat, Request>)

  datatype Event =
    | Send(request: Request, accepted: bool)
    | Beat(request: Request, accepted: bool)
    | Message(id: nat, message: nat)
    | Timeout(request: Request, alive: bool)
    | CodecClosed(order: seq<Request>)
    | Close(order: seq<Request>)

  const START := State(Desk([], true, None), map[])

  /** `order` lists the requests of the table, each once. */
  ghost predicate IsOrder(order: seq<Request>, table: map<nat, Request>) {
    multiset(order) == multiset(table.Values)
  }

  function Sent(s: State, r: Request, accepted: bool): State {
    if !accepted then s.(desk := Handled(s.desk, r, Broken))
    else if r.asyncId in s.inProgress then s
    else s.(inProgress := s.inProgress[r.asyncId := r])
  }

  function Taken(s: State, id: nat, r: Request, o: Outcome): State {
    State(Handled(s.desk, r, o), s.inProgress - {id})
  }

  function Drained(s: State, order: seq<Request>): State { State(HandledAll(s.desk, order, Broken), map[]) }

  function Step(s: State, e: Event): State {
    match e
    case Send(r, accepted) => Sent(s, r, accepted)
    case Beat(r, accepted) =>
      if s.desk.heartbeat.Some? then s else Sent(s.(desk := s.desk.(heartbeat := Some(r))), r, accepted)
    case Message(id, m) => if id in s.inProgress then Taken(s, id, s.inProgress[id], Response(m)) else s
    case Timeout(r, alive) => if alive && r.asyncId in s.inProgress then Taken(s, r.asyncId, r, TimedOut) else s
    case CodecClosed(order) => Drained(s, order)
    case Close(order) => var t := Drained(s, order); t.(desk := t.desk.(attached := false))
  }

  function Submits(s: State, e: Event): seq<Request> {
    match e
    case Send(r, _) => [r]
    case Beat(r, _) => if s.desk.heartbeat.Some? then [] else [r]
    case _ => []
  }

  /** The channel itself keeps the request alive. */
  predicate Keeps(s: State, r: Request) { r in s.inProgress.Values || s.desk.heartbeat == Some(r) }

  /**
    What can happen: a close meets each entry once, a timer belongs to a request that was sent, and
    that request is gone only if the channel does not keep it.
  */
  ghost predicate Enabled(s: State, submitted: seq<Request>, e: Event) {
    match e
    case Timeout(r, alive) => r in submitted && (Keeps(s, r) ==> alive)
    case CodecClosed(order) => IsOrder(order, s.inProgress)
    case Close(order) => IsOrder(order, s.inProgress)
    case _ => true
  }

  /** A moment of a run: the channel, and every request handed to it so far, in order. */
  datatype Moment = Moment(state: State, submitted: seq<Request>)

  ghost predicate Follows(before: Moment, e: Event, after: Moment) {
    && Enabled(before.state, before.submitted, e)
    && after == Moment(Step(before.state, e), before.submitted + Submits(before.state, e))
  }

  ghost predicate FollowsAt(run: seq<Moment>, events: seq<Event>, i: nat)
    requires |run| == |events| + 1 && i < |events|
  {
    Follows(run[i], events[i], run[i + 1])
  }

  /** `run` is what the channel goes through when `events` happen to it, one after the other. */
  ghost predicate IsRun(run: seq<Moment>, events: seq<Event>) {
    && |run| == |events| + 1 && run[0] == Moment(START, [])
    && (forall i :: 0 <= i < |events| ==> FollowsAt(run, events, i))
  }

  ghost predicate Keyed(s: State) { forall id :: id in s.inProgress ==> s.inProgress[id].asyncId == id }

  /** Submitted requests are the disjoint union of the answered ones and those in progress. */
  ghost predicate Balanced(s: State, submitted: seq<Request>) {
    multiset(Requests(s.desk.log)) + multiset(s.inProgress.Values) == multiset(submitted)
  }

  /** The event meets no foreign request under its id. */
  predicate Unmixed(s: State, e: Event) {
    match e
    case Send(r, accepted) => accepted ==> r.asyncId !in s.inProgress
    case Beat(r, accepted) => s.desk.heartbeat.None? && accepted ==> r.asyncId !in s.inProgress
    case Timeout(r, alive) => alive && r.asyncId in s.inProgress ==> s.inProgress[r.asyncId] == r
    case _ => true
  }

  ghost predicate AllUnmixed(run: seq<Moment>, events: seq<Event>, n: nat)
    requires |run| == |events| + 1 && n <= |events|
  {
    forall i :: 0 <= i < n ==> Unmixed(run[i].state, events[i])
  }

  ghost predicate AllBalanced(run: seq<Moment>, n: nat)
    requires n < |run|
  {
    forall i :: 0 <= i <= n ==> Balanced(run[i].state, run[i].submitted)
  }

  lemma ValuesInsert(table: map<nat, Request>, r: Request)
    requires r.asyncId !in table && (forall id :: id in table ==> table[id].asyncId == id)
    ensures multiset(table[r.asyncId := r].Values) == multiset(table.Values) + multiset{r}
  {
    var after := table[r.asyncId := r];
    assert after.Values == table.Values + {r} by {
      forall v | v in table.Values ensures v in after.Values {
        var id :| id in table && table[id] == v;
        assert after[id] == v;
      }
      assert after[r.asyncId] == r;
    }
    assert r !in table.Values;
  }

  lemma ValuesRemove(table: map<nat, Request>, id: nat)
    requires id in table && (forall i :: i in table ==> table[i].asyncId == i)
    ensures multiset(table.Values) == multiset((table - {id}).Values) + multiset{table[id]}
  {
    var rest := table - {id};
    assert rest[id := table[id]] == table;
    ValuesInsert(rest, table[id]);
  }

  lemma AnswerAdds(d: Desk, r: Request, o: Outcome)
    ensures multiset(Requests(Handled(d, r, o).log)) == multiset(Requests(d.log)) + multiset{r}
  {
    RequestsAppend(d.log, Answer(r, o, ReceiverOf(d, r)));
  }

  lemma SentBalancedIff(s: State, submitted: seq<Request>, r: Request, accepted: bool)
    requires Keyed(s) && Balanced(s, submitted)
    ensures Keyed(Sent(s, r, accepted))
    ensures Balanced(Sent(s, r, accepted), submitted + [r]) <==> (accepted ==> r.asyncId !in s.inProgress)
  {
    assert multiset(submitted + [r]) == multiset(submitted) + multiset{r};
    if !accepted {
      AnswerAdds(s.desk, r, Broken);
    } else if r.asyncId !in s.inProgress {
      ValuesInsert(s.inProgress, r);
    } else {
      assert multiset(submitted)[r] < multiset(submitted + [r])[r];
    }
  }

  lemma TakenBalancedIff(s: State, submitted: seq<Request>, id: nat, r: Request, o: Outcome)
    requires Keyed(s) && Balanced(s, submitted) && id in s.inProgress
    ensures Keyed(Taken(s, id, r, o))
    ensures Balanced(Taken(s, id, r, o), submitted) <==> s.inProgress[id] == r
  {
    AnswerAdds(s.desk, r, o);
    ValuesRemove(s.inProgress, id);
    var t, kept := Taken(s, id, r, o), multiset((s.inProgress - {id}).Values);
    var answered := multiset(Requests(s.desk.log));
    assert multiset(submitted)[r] == answered[r] + kept[r] + multiset{s.inProgress[id]}[r];
    assert (multiset(Requests(t.desk.log)) + kept)[r] == answered[r] + 1 + kept[r];
  }

  lemma DrainedBalanced(s: State, submitted: seq<Request>, order: seq<Request>)
    requires Balanced(s, submitted) && IsOrder(order, s.inProgress)
    ensures Balanced(Drained(s, order), submitted) && Keyed(Drained(s, order))
  {
    HandledAllAnswers(s.desk, order, Broken);
  }

  /** One event keeps the balance if and only if it meets no foreign request under its id. */
  lemma StepBalancedIff(s: State, submitted: seq<Request>, e: Event)
    requires Keyed(s) && Balanced(s, submitted) && Enabled(s, submitted, e)
    ensures Keyed(Step(s, e))
    ensures Balanced(Step(s, e), submitted + Submits(s, e)) <==> Unmixed(s, e)
  {
    assert submitted + [] == submitted;
    match e
    case Send(r, accepted) => SentBalancedIff(s, submitted, r, accepted);
    case Beat(r, accepted) =>
      if s.desk.heartbeat.None? {
        SentBalancedIff(s.(desk := s.desk.(heartbeat := Some(r))), submitted, r, accepted);
      }
    case Message(id, m) =>
      if id in s.inProgress { TakenBalancedIff(s, submitted, id, s.inProgress[id], Response(m)); }
    case Timeout(r, alive) =>
      if alive && r.asyncId in s.inProgress { TakenBalancedIff(s, submitted, r.asyncId, r, TimedOut); }
    case CodecClosed(order) => DrainedBalanced(s, submitted, order);
    case Close(order) => DrainedBalanced(s, submitted, order);
  }

  /** A run accounts for all its requests up to event n if and only if no event so far met a foreign one. */
  lemma {:induction false} RunBalancedIff(run: seq<Moment>, events: seq<Event>, n: nat)
    requires IsRun(run, events) && n <= |events|
    ensures AllBalanced(run, n) <==> AllUnmixed(run, events, n)
    ensures AllUnmixed(run, events, n) ==> Keyed(run[n].state)
  {
    if n == 0 {
      assert START.inProgress.Values == {};
    } else {
      RunBalancedIff(run, events, n - 1);
      assert FollowsAt(run, events, n - 1);
      if AllUnmixed(run, events, n - 1) {
        StepBalancedIff(run[n - 1].state, run[n - 1].submitted, events[n - 1]);
      }
    }
  }

  /** Of two requests in flight under one id, a close answers the first and not the second. */
  lemma RepeatedIdIsLost(a: Request, b: Request) returns (run: seq<Moment>)
    requires a != b && a.asyncId == b.asyncId
    ensures IsRun(run, [Send(a, true), Send(b, true), Close([a])])
    ensures run[3].submitted == [a, b] && run[3].state.inProgress == map[]
    ensures Requests(run[3].state.desk.log) == [a]
  {
    var events := [Send(a, true), Send(b, true), Close([a])];
    var s := State(START.desk, map[a.asyncId := a]);
    assert s.inProgress[a.asyncId] == a && s.inProgress.Values == {a};
    run := [Moment(START, []), Moment(s, [a]), Moment(s, [a, b]), Moment(Step(s, Close([a])), [a, b])];
    assert FollowsAt(run, events, 0) && FollowsAt(run, events, 1) && FollowsAt(run, events, 2);
    HandledAllAnswers(s.desk, [a], Broken);
    assert Requests(s.desk.log) + [a] == [a];
  }

  /** The timeout of the second, if it is alive, takes the entry of the first, which then has no answer. */
  lemma RepeatedIdTakesOver(a: Request, b: Request) returns (run: seq<Moment>)
    requires a != b && a.asyncId == b.asyncId
    ensures IsRun(run, [Send(a, true), Send(b, true), Timeout(b, true)])
    ensures run[3].submitted == [a, b] && run[3].state.inProgress == map[]
    ensures Requests(run[3].state.desk.log) == [b]
  {
    var events := [Send(a, true), Send(b, true), Timeout(b, true)];
    var s := State(START.desk, map[a.asyncId := a]);
    run := [Moment(START, []), Moment(s, [a]), Moment(s, [a, b]), Moment(Step(s, Timeout(b, true)), [a, b])];
    assert FollowsAt(run, events, 0) && FollowsAt(run, events, 1) && FollowsAt(run, events, 2);
    RequestsAppend(s.desk.log, Answer(b, TimedOut, ReceiverOf(s.desk, b)));
  }

  /** Every request the channel knows of was handed to it. */
  ghost predicate Known(s: State, submitted: seq<Request>) {
    && (forall r :: r in Requests(s.desk.log) ==> r in submitted)
    && (forall id :: id in s.inProgress ==> s.inProgress[id] in submitted)
  }

  lemma OrderIsTable(order: seq<Request>, table: map<nat, Request>, r: Request)
    requires IsOrder(order, table) && r in order
    ensures exists id :: id in table && table[id] == r
  {
    assert r in multiset(order) && r in multiset(table.Values);
  }

  /** What one event adds to the log and to the table. */
  lemma StepAdds(s: State, submitted: seq<Request>, e: Event, r: Request)
    requires Enabled(s, submitted, e)
    ensures r in Requests(Step(s, e).desk.log) ==>
      || r in Requests(s.desk.log) || r in Submits(s, e) || e == Timeout(r, true)
      || exists id :: id in s.inProgress && s.inProgress[id] == r
    ensures var table := Step(s, e).inProgress;
      forall id :: id in table ==> table[id] in Submits(s, e) || (id in s.inProgress && table[id] == s.inProgress[id])
  {
    match e
    case Send(q, _) => AnswerIs(s.desk, q, Broken);
    case Beat(q, _) => AnswerIs(s.desk.(heartbeat := Some(q)), q, Broken);
    case Message(id, m) => if id in s.inProgress { AnswerIs(s.desk, s.inProgress[id], Response(m)); }
    case Timeout(q, _) => AnswerIs(s.desk, q, TimedOut);
    case CodecClosed(order) =>
      HandledAllAnswers(s.desk, order, Broken);
      if r in order { OrderIsTable(order, s.inProgress, r); }
    case Close(order) =>
      HandledAllAnswers(s.desk, order, Broken);
      if r in order { OrderIsTable(order, s.inProgress, r); }
  }

  lemma AnswerIs(d: Desk, r: Request, o: Outcome)
    ensures Requests(Handled(d, r, o).log) == Requests(d.log) + [r]
  {
    RequestsAppend(d.log, Answer(r, o, ReceiverOf(d, r)));
  }

  lemma {:induction false} RunKnows(run: seq<Moment>, events: seq<Event>, n: nat)
    requires IsRun(run, events) && n < |run|
    ensures Known(run[n].state, run[n].submitted)
  {
    if n > 0 {
      RunKnows(run, events, n - 1);
      var before, e := run[n - 1], events[n - 1];
      assert FollowsAt(run, events, n - 1);
      forall r | r in Requests(run[n].state.desk.log) ensures r in run[n].submitted {
        StepAdds(before.state, before.submitted, e, r);
      }
      StepAdds(before.state, before.submitted, e, Request(0, 0));
    }
  }

  /** The timer of the request fires, and finds it alive, while some request is in the table under its id. */
  ghost predicate TimesOutAt(run: seq<Moment>, events: seq<Event>, b: Request, j: nat)
    requires |run| == |events| + 1
  {
    j < |events| && events[j] == Timeout(b, true) && b.asyncId in run[j].state.inProgress
  }

  ghost predicate HandedInAt(run: seq<Moment>, events: seq<Event>, b: Request, j: nat)
    requires |run| == |events| + 1
  {
    j < |events| && b in Submits(run[j].state, events[j])
  }

  /** One event answers a request the table does not hold only by its own timeout, and keeps it out of the table. */
  lemma StepAnswersUnseenIff(s: State, submitted: seq<Request>, e: Event, b: Request)
    requires Enabled(s, submitted, e) && b !in Submits(s, e)
    requires forall id :: id in s.inProgress ==> s.inProgress[id] != b
    ensures forall id :: id in Step(s, e).inProgress ==> Step(s, e).inProgress[id] != b
    ensures b in Requests(Step(s, e).desk.log) <==>
      b in Requests(s.desk.log) || (e == Timeout(b, true) && b.asyncId in s.inProgress)
  {
    StepAdds(s, submitted, e, b);
    if b in Requests(s.desk.log) { StepKeepsAnswers(s, e, b); }
    if e == Timeout(b, true) { AnswerIs(s.desk, b, TimedOut); }
  }

  lemma StepKeepsAnswers(s: State, e: Event, r: Request)
    requires r in Requests(s.desk.log)
    ensures r in Requests(Step(s, e).desk.log)
  {
    match e
    case Send(q, _) => AnswerIs(s.desk, q, Broken);
    case Beat(q, _) => AnswerIs(s.desk.(heartbeat := Some(q)), q, Broken);
    case Message(id, m) => if id in s.inProgress { AnswerIs(s.desk, s.inProgress[id], Response(m)); }
    case Timeout(q, _) => AnswerIs(s.desk, q, TimedOut);
    case CodecClosed(order) => HandledAllAnswers(s.desk, order, Broken);
    case Close(order) => HandledAllAnswers(s.desk, order, Broken);
  }

  /**
    In every run, a request that is sent, once, while its id is taken is answered if and only if
    its timer fires, and finds it alive, while its id is in the table.
  */
  lemma {:induction false} RepeatedIdAnsweredIff(run: seq<Moment>, events: seq<Event>, i: nat, b: Request, n: nat)
    requires IsRun(run, events) && i < n <= |events| && events[i] == Send(b, true)
    requires b.asyncId in run[i].state.inProgress && b !in run[i].submitted
    requires forall j :: i < j < n ==> !HandedInAt(run, events, b, j)
    ensures forall id :: id in run[n].state.inProgress ==> run[n].state.inProgress[id] != b
    ensures b in Requests(run[n].state.desk.log) <==> exists j :: i < j < n && TimesOutAt(run, events, b, j)
  {
    assert FollowsAt(run, events, n - 1);
    if n == i + 1 {
      RunKnows(run, events, i);
    } else {
      RepeatedIdAnsweredIff(run, events, i, b, n - 1);
      assert !HandedInAt(run, events, b, n - 1);
      StepAnswersUnseenIff(run[n - 1].state, run[n - 1].submitted, events[n - 1], b);
      assert TimesOutAt(run, events, b, n - 1) <==>
        events[n - 1] == Timeout(b, true) && b.asyncId in run[n - 1].state.inProgress;
    }
  }

  ghost predicate DistinctIds(rs: seq<Request>) { forall i, j :: 0 <= i < j < |rs| ==> rs[i].asyncId != rs[j].asyncId }

  /** What holds throughout a run that uses no id twice. */
  ghost predicate Inv(s: State, submitted: seq<Request>) {
    && Keyed(s) && Balanced(s, submitted)
    && (s.desk.heartbeat.Some? ==> s.desk.heartbeat.value in s.inProgress.Values)
    && (s.desk.attached ==> AllReceived(s.desk.log))
  }

  lemma InProgressWasSubmitted(s: State, submitted: seq<Request>, id: nat)
    requires Balanced(s, submitted) && id in s.inProgress
    ensures s.inProgress[id] in submitted
  {
    assert s.inProgress[id] in multiset(s.inProgress.Values);
    assert s.inProgress[id] in multiset(submitted);
  }

  lemma NewIdIsFree(s: State, submitted: seq<Request>, r: Request)
    requires Keyed(s) && Balanced(s, submitted) && DistinctIds(submitted + [r])
    ensures r.asyncId !in s.inProgress
  {
    var all := submitted + [r];
    assert all[|submitted|] == r && (forall i :: 0 <= i < |submitted| ==> all[i] == submitted[i]);
    assert forall v :: v in submitted ==> v.asyncId != r.asyncId;
    if r.asyncId in s.inProgress {
      InProgressWasSubmitted(s, submitted, r.asyncId);
    }
  }

  lemma OldIdIsOwn(s: State, submitted: seq<Request>, r: Request)
    requires Keyed(s) && Balanced(s, submitted) && DistinctIds(submitted) && r in submitted && r.asyncId in s.inProgress
    ensures s.inProgress[r.asyncId] == r
  {
    InProgressWasSubmitted(s, submitted, r.asyncId);
    var i :| 0 <= i < |submitted| && submitted[i] == s.inProgress[r.asyncId];
    var j :| 0 <= j < |submitted| && submitted[j] == r;
  }

  lemma DistinctIdsUnmixed(s: State, submitted: seq<Request>, e: Event)
    requires Inv(s, submitted) && Enabled(s, submitted, e) && DistinctIds(submitted + Submits(s, e))
    ensures Unmixed(s, e)
  {
    assert submitted + [] == submitted;
    match e
    case Send(r, _) => NewIdIsFree(s, submitted, r);
    case Beat(r, _) => if s.desk.heartbeat.None? { NewIdIsFree(s, submitted, r); }
    case Timeout(r, _) => if r.asyncId in s.inProgress { OldIdIsOwn(s, submitted, r); }
    case _ =>
  }

  lemma SentKeepsBeat(s: State, r: Request, accepted: bool)
    requires s.desk.heartbeat.Some? ==> s.desk.heartbeat.value == r || s.desk.heartbeat.value in s.inProgress.Values
    requires accepted ==> r.asyncId !in s.inProgress
    requires s.desk.attached ==> AllReceived(s.desk.log)
    ensures var t := Sent(s, r, accepted);
      && (t.desk.heartbeat.Some? ==> t.desk.heartbeat.value in t.inProgress.Values)
      && (t.desk.attached ==> AllReceived(t.desk.log))
  {
    if accepted {
      var table := s.inProgress[r.asyncId := r];
      assert table[r.asyncId] == r;
      forall v | v in s.inProgress.Values ensures v in table.Values {
        var id :| id in s.inProgress && s.inProgress[id] == v;
        assert table[id] == v;
      }
    }
  }

  lemma TakenKeepsBeat(s: State, submitted: seq<Request>, id: nat, o: Outcome)
    requires Inv(s, submitted) && id in s.inProgress
    ensures var t := Taken(s, id, s.inProgress[id], o);
      && (t.desk.heartbeat.Some? ==> t.desk.heartbeat.value in t.inProgress.Values)
      && (t.desk.attached ==> AllReceived(t.desk.log))
  {
    var t := Taken(s, id, s.inProgress[id], o);
    if t.desk.heartbeat.Some? {
      var i :| i in s.inProgress && s.inProgress[i] == t.desk.heartbeat.value;
      assert t.inProgress[i] == t.desk.heartbeat.value;
    }
  }

  lemma DrainedKeepsBeat(s: State, submitted: seq<Request>, order: seq<Request>)
    requires Inv(s, submitted) && IsOrder(order, s.inProgress)
    ensures var t := Drained(s, order); t.desk.heartbeat.None? && (t.desk.attached ==> AllReceived(t.desk.log))
  {
    HandledAllAnswers(s.desk, order, Broken);
    if s.desk.heartbeat.Some? {
      assert s.desk.heartbeat.value in multiset(order);
    }
  }

  lemma StepKeepsInv(s: State, submitted: seq<Request>, e: Event)
    requires Inv(s, submitted) && Enabled(s, submitted, e) && DistinctIds(submitted + Submits(s, e))
    ensures Inv(Step(s, e), submitted + Submits(s, e))
  {
    DistinctIdsUnmixed(s, submitted, e);
    StepBalancedIff(s, submitted, e);
    match e
    case Send(r, accepted) => SentKeepsBeat(s, r, accepted);
    case Beat(r, accepted) =>
      if s.desk.heartbeat.None? { SentKeepsBeat(s.(desk := s.desk.(heartbeat := Some(r))), r, accepted); }
    case Message(id, m) => if id in s.inProgress { TakenKeepsBeat(s, submitted, id, Response(m)); }
    case Timeout(r, alive) =>
      if alive && r.asyncId in s.inProgress { TakenKeepsBeat(s, submitted, r.asyncId, TimedOut); }
    case CodecClosed(order) => DrainedKeepsBeat(s, submitted, order);
    case Close(order) => DrainedKeepsBeat(s, submitted, order);
  }

  lemma {:induction false} RunKeepsInv(run: seq<Moment>, events: seq<Event>, n: nat)
    requires IsRun(run, events) && n < |run| && DistinctIds(run[n].submitted)
    ensures Inv(run[n].state, run[n].submitted)
  {
    if n == 0 {
      assert START.inProgress.Values == {};
    } else {
      var before, after, e := run[n - 1], run[n], events[n - 1];
      assert FollowsAt(run, events, n - 1);
      assert forall i :: 0 <= i < |before.submitted| ==> after.submitted[i] == before.submitted[i];
      RunKeepsInv(run, events, n - 1);
      StepKeepsInv(before.state, before.submitted, e);
    }
  }

  /** Each submitted request is either in progress or has exactly one answer, and there are no others. */
  ghost predicate AnsweredOnce(s: State, submitted: seq<Request>, r: Request) {
    if r in submitted then multiset(Requests(s.desk.log))[r] == (if r in s.inProgress.Values then 0 else 1)
    else r !in Requests(s.desk.log) && r !in s.inProgress.Values
  }

  lemma InvAnswersOnce(s: State, submitted: seq<Request>, r: Request)
    requires Balanced(s, submitted) && DistinctIds(submitted)
    ensures AnsweredOnce(s, submitted, r)
  {
    OnceEach(submitted, r);
    var answered, values := multiset(Requests(s.desk.log)), multiset(s.inProgress.Values);
    assert (answered + values)[r] == answered[r] + values[r];
    assert r in Requests(s.desk.log) <==> answered[r] > 0;
  }

  /**
    On a run that uses no id twice, each submitted request is either in progress or has exactly
    one answer; a heartbeat that is out is in progress; and no answer is dropped before a close.
  */
  lemma RunAnswersOnce(run: seq<Moment>, events: seq<Event>, n: nat, r: Request)
    requires IsRun(run, events) && n < |run| && DistinctIds(run[n].submitted)
    ensures Inv(run[n].state, run[n].submitted) && AnsweredOnce(run[n].state, run[n].submitted, r)
  {
    RunKeepsInv(run, events, n);
    InvAnswersOnce(run[n].state, run[n].submitted, r);
  }

  /** After a close nothing is in progress, so on a run that uses no id twice all have been answered. */
  lemma ClosingAnswersEverything(run: seq<Moment>, events: seq<Event>, n: nat)
    requires IsRun(run, events) && n < |events| && DistinctIds(run[n + 1].submitted)
    requires events[n].Close? || events[n].CodecClosed?
    ensures var m := run[n + 1];
      && m.state.inProgress == map[] && m.state.desk.heartbeat.None?
      && multiset(Requests(m.state.desk.log)) == multiset(m.submitted)
  {
    RunKeepsInv(run, events, n + 1);
    assert FollowsAt(run, events, n);
    assert run[n + 1].state.inProgress.Values == {};
  }

  lemma {:induction false} OnceEach(rs: seq<Request>, r: Request)
    requires DistinctIds(rs)
    ensures multiset(rs)[r] == if r in rs then 1 else 0
  {
    if rs != [] {
      var k := |rs| - 1;
      assert rs == rs[..k] + [rs[k]];
      OnceEach(rs[..k], r);
    }
  }

  class Table {
    const client: Channel
    var inProgress: map<nat, Request>

    constructor ()
      ensures Value() == START && Keyed(Value()) && fresh(client)
    {
      client := new Channel();
      inProgress := map[];
    }

    function Value(): State
      reads this, client
    {
      State(client.State(), inProgress)
    }

    /** `accepted` is what the codec's `SendRequest` returns. */
    method SendRequest(r: Request, accepted: bool)
      requires Keyed(Value())
      modifies this, client
      ensures Keyed(Value())
      ensures Value() == Step(old(Value()), Send(r, accepted))
    {
      if !accepted {
        var _ := client.HandleResponse(r, Broken);
        return;
      }
      if r.asyncId !in inProgress {
        inProgress := inProgress[r.asyncId := r];
      }
    }

    method OnHeartbeatTimer(r: Request, accepted: bool)
      requires Keyed(Value())
      modifies this, client
      ensures Keyed(Value())
      ensures Value() == Step(old(Value()), Beat(r, accepted))
    {
      if client.heartbeat.Some? {
        return;
      }
      client.heartbeat := Some(r);
      SendRequest(r, accepted);
    }

    /** `alive` is whether the timer's weak reference locks. */
    method OnRequestTimeout(r: Request, alive: bool)
      requires Keyed(Value())
      modifies this, client
      ensures Keyed(Value())
      ensures Value() == Step(old(Value()), Timeout(r, alive))
    {
      if !alive {
        return;
      }
      if r.asyncId !in inProgress {
        return;
      }
      inProgress := inProgress - {r.asyncId};
      var _ := client.HandleResponse(r, TimedOut);
    }

    method OnCodecMessage(id: nat, m: nat)
      requires Keyed(Value())
      modifies this, client
      ensures Keyed(Value())
      ensures Value() == Step(old(Value()), Message(id, m))
    {
      if id !in inProgress {
        return;
      }
      var request := inProgress[id];
      inProgress := inProgress - {id};
      assert request.asyncId == id;
      var _ := client.HandleResponse(request, Response(m));
    }

    method BeforeCloseChannel() returns (ghost order: seq<Request>)
      requires Keyed(Value())
      modifies this, client
      ensures Keyed(Value())
      ensures IsOrder(order, old(inProgress))
      ensures Value() == Drained(old(Value()), order)
    {
      order := [];
      var rest := inProgress;
      while rest != map[]
        invariant forall id :: id in rest ==> rest[id].asyncId == id
        invariant multiset(order) + multiset(rest.Values) == multiset(inProgress.Values)
        invariant inProgress == old(inProgress)
        invariant client.State() == HandledAll(old(client.State()), order, Broken)
        decreases |rest|
      {
        var id :| id in rest;
        var r := rest[id];
        ValuesRemove(rest, id);
        var _ := client.HandleResponse(r, Broken);
        assert (order + [r])[..|order|] == order;
        order := order + [r];
        rest := rest - {id};
      }
      assert rest.Values == {};
      inProgress := map[];
    }

    method OnCodecClosed() returns (ghost order: seq<Request>)
      requires Keyed(Value())
      modifies this, client
      ensures Keyed(Value())
      ensures IsOrder(order, old(inProgress))
      ensures Value() == Step(old(Value()), CodecClosed(order))
    {
      order := BeforeCloseChannel();
    }

    method CloseClientChannel() returns (ghost order: seq<Request>)
      requires Keyed(Value())
      modifies this, client
      ensures Keyed(Value())
      ensures IsOrder(order, old(inProgress))
      ensures Value() == Step(old(Value()), Close(order))
    {
      order := BeforeCloseChannel();
      client.attached := false;
      ghost var none := OnCodecClosed();
    }
  }
}
