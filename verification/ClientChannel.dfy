/**
  The part both client channels share (net_io/clients/client_channel.cc): where an answer goes.
  `Desk` is the value of a channel's answering state; `Channel` is the object that updates it.
*/
module ClientChannel {
  import opened Sequences
  import opened Wrappers

  /** `handle` stands for the identity of the message object, `asyncId` for its `AsyncId()`. */
  datatype Request = Request(handle: nat, asyncId: nat)

  datatype Outcome = Response(message: nat) | TimedOut | Broken

  datatype Receiver = Heartbeat | Client | Nobody

  datatype Answer = Answer(request: Request, outcome: Outcome, receiver: Receiver)

  /** `attached` says that the delegate pointer is not null. */
  datatype Desk = Desk(log: seq<Answer>, attached: bool, heartbeat: Option<Request>)

  function ReceiverOf(d: Desk, r: Request): Receiver {
    if d.heartbeat == Some(r) then Heartbeat else if d.attached then Client else Nobody
  }

  function Handled(d: Desk, r: Request, o: Outcome): Desk {
    d.(log := d.log + [Answer(r, o, ReceiverOf(d, r))],
       heartbeat := if d.heartbeat == Some(r) then None else d.heartbeat)
  }

  function HandledAll(d: Desk, rs: seq<Request>, o: Outcome): Desk {
    if rs == [] then d else Handled(HandledAll(d, rs[..|rs| - 1], o), rs[|rs| - 1], o)
  }

  function Requests(log: seq<Answer>): (rs: seq<Request>)
    ensures |rs| == |log|
  {
    seq(|log|, i requires 0 <= i < |log| => log[i].request)
  }

  /** No answer was dropped. */
  ghost predicate AllReceived(log: seq<Answer>) { forall i :: 0 <= i < |log| ==> log[i].receiver != Nobody }

  /** Unless it answers a heartbeat, an answer goes to the client if and only if there is one. */
  predicate ReceiverOk(d: Desk, a: Answer) { a.receiver == Heartbeat || (a.receiver == Client <==> d.attached) }

  /** A desk that only grew: the answers given before are still there. */
  ghost predicate Extends(d: Desk, e: Desk) { d.log <= e.log }

  /** The heartbeat that is out, if any, is one of these requests. */
  ghost predicate BeatPending(d: Desk, pending: seq<Request>) { d.heartbeat.Some? ==> d.heartbeat.value in pending }

  lemma RequestsAppend(log: seq<Answer>, a: Answer)
    ensures Requests(log + [a]) == Requests(log) + [a.request]
  {
  }

  /** Answering a batch appends exactly one answer for each request, in the order of the batch. */
  lemma {:induction false} HandledAllAnswers(d: Desk, rs: seq<Request>, o: Outcome)
    ensures var e := HandledAll(d, rs, o);
      && Requests(e.log) == Requests(d.log) + rs && Extends(d, e) && e.attached == d.attached
      && (forall i :: |d.log| <= i < |e.log| ==> e.log[i].outcome == o)
      && (forall i :: |d.log| <= i < |e.log| ==> ReceiverOk(d, e.log[i]))
      && (d.attached && AllReceived(d.log) ==> AllReceived(e.log))
      && e.heartbeat == (if d.heartbeat.Some? && d.heartbeat.value in rs then None else d.heartbeat)
  {
    if rs == [] {
      assert Requests(d.log) + rs == Requests(d.log);
    } else {
      var k := |rs| - 1;
      HandledAllAnswers(d, rs[..k], o);
      var m := HandledAll(d, rs[..k], o);
      RequestsAppend(m.log, Answer(rs[k], o, ReceiverOf(m, rs[k])));
      assert rs == rs[..k] + [rs[k]];
      assert Requests(d.log) + rs == (Requests(d.log) + rs[..k]) + [rs[k]];
    }
  }

  /** The requests that were answered by a message of the peer, each with that message. */
  function Responses(log: seq<Answer>): seq<(Request, nat)> {
    if log == [] then [] else Responses(log[..|log| - 1]) + Responding(log[|log| - 1])
  }

  function Responding(a: Answer): seq<(Request, nat)> {
    if a.outcome.Response? then [(a.request, a.outcome.message)] else []
  }

  /** Answers that are no responses leave these as they are. */
  lemma {:induction false} ResponsesStay(log: seq<Answer>, more: seq<Answer>)
    requires log <= more && forall i :: |log| <= i < |more| ==> !more[i].outcome.Response?
    ensures Responses(more) == Responses(log)
    decreases |more|
  {
    if |more| == |log| {
      assert more == log;
    } else {
      ResponsesStay(log, more[..|more| - 1]);
    }
  }

  /**
    The answers to heartbeats, and only those, went to the heartbeat; and of the pending requests the
    one that is a heartbeat, and only that, is known as such.
  */
  ghost predicate BeatsOk(d: Desk, pending: set<Request>, beats: set<Request>) {
    && (forall i :: 0 <= i < |d.log| ==> (d.log[i].receiver == Heartbeat <==> d.log[i].request in beats))
    && (forall r :: r in pending ==> (r in beats <==> d.heartbeat == Some(r)))
  }

  lemma AnswerKeepsBeats(d: Desk, pending: set<Request>, beats: set<Request>, r: Request, o: Outcome)
    requires BeatsOk(d, pending, beats) && r in pending
    ensures BeatsOk(Handled(d, r, o), pending - {r}, beats)
  {
  }

  lemma {:induction false} AnswersKeepBeats(d: Desk, pending: set<Request>, beats: set<Request>,
                                            rs: seq<Request>, o: Outcome)
    requires BeatsOk(d, pending, beats) && NoRepeats(rs) && forall i :: 0 <= i < |rs| ==> rs[i] in pending
    ensures BeatsOk(HandledAll(d, rs, o), pending - AsSet(rs), beats)
  {
    if rs == [] {
      assert pending - AsSet(rs) == pending;
    } else {
      var k := |rs| - 1;
      AnswersKeepBeats(d, pending, beats, rs[..k], o);
      AnswerKeepsBeats(HandledAll(d, rs[..k], o), pending - AsSet(rs[..k]), beats, rs[k], o);
      assert pending - AsSet(rs[..k]) - {rs[k]} == pending - AsSet(rs);
    }
  }

  /** Of fewer pending requests less is promised. */
  lemma BeatsOfFewer(d: Desk, pending: set<Request>, fewer: set<Request>, beats: set<Request>)
    requires BeatsOk(d, pending, beats) && fewer <= pending
    ensures BeatsOk(d, fewer, beats)
  {
  }

  lemma FirstKeepBeats(d: Desk, pending: seq<Request>, k: nat, beats: set<Request>, o: Outcome)
    requires BeatsOk(d, AsSet(pending), beats) && NoRepeats(pending) && k <= |pending|
    ensures BeatsOk(HandledAll(d, pending[..k], o), AsSet(pending[k..]), beats) && NoRepeats(pending[k..])
  {
    RestIsOther(pending, k);
    assert forall i :: 0 <= i < k ==> pending[..k][i] == pending[i];
    AnswersKeepBeats(d, AsSet(pending), beats, pending[..k], o);
    BeatsOfFewer(HandledAll(d, pending[..k], o), AsSet(pending) - AsSet(pending[..k]), AsSet(pending[k..]), beats);
  }

  /** The desk with a heartbeat sent out, where there is to be one. */
  function WithBeat(d: Desk, r: Request, beat: bool): Desk { if beat then d.(heartbeat := Some(r)) else d }

  lemma NewKeepsBeats(d: Desk, pending: set<Request>, beats: set<Request>, r: Request, beat: bool)
    requires BeatsOk(d, pending, beats) && r !in pending && r !in beats && r !in Requests(d.log)
    requires d.heartbeat != Some(r) && (beat ==> d.heartbeat.None?)
    ensures BeatsOk(WithBeat(d, r, beat), pending + {r}, if beat then beats + {r} else beats)
  {
    forall i | 0 <= i < |d.log| ensures d.log[i].request != r { assert Requests(d.log)[i] == d.log[i].request; }
  }

  class Channel {
    var log: seq<Answer>
    var attached: bool
    var heartbeat: Option<Request>

    constructor ()
      ensures State() == Desk([], true, None)
    {
      log, attached, heartbeat := [], true, None;
    }

    function State(): Desk
      reads this
    {
      Desk(log, attached, heartbeat)
    }

    /** Every call records one answer; the result says whether somebody took it. */
    method HandleResponse(r: Request, o: Outcome) returns (handled: bool)
      modifies this
      ensures State() == Handled(old(State()), r, o)
      ensures handled <==> log[|log| - 1].receiver != Nobody
    {
      if heartbeat == Some(r) {
        heartbeat := None;
        log := log + [Answer(r, o, Heartbeat)];
        return true;
      }
      if attached {
        log := log + [Answer(r, o, Client)];
        return true;
      }
      log := log + [Answer(r, o, Nobody)];
      return false;
    }
  }
}
