/**
  The stream channel of net_io/tcp_channel.cc over a nondeterministic socket.

  What the socket will answer is a finite script, and after its end every call would block; any
  script is allowed, so every pattern of short writes, EAGAIN, EINTR and errors is covered. A
  call that moves no byte ends up in the errno checks, so it is one of the other outcomes.

  `Step` says what a call does to the sending side as a value, through `Push`, the fate of a
  write loop; `Channel` is the object whose loops do it in place.
*/
module TcpChannel {
  import opened IoBuffer

  datatype Outcome = Moved(count: nat) | Again | Interrupted | Failed

  datatype End = Done | Blocked | Error

  /** What a call for `n` bytes returns when the script says `o`. */
  function Clamp(o: Outcome, n: nat): (r: Outcome)
    ensures r.Moved? ==> 0 < r.count <= n
  {
    if o.Moved? then if o.count == 0 || n == 0 then Again else Moved(if o.count < n then o.count else n) else o
  }

  function NextOutcome(script: seq<Outcome>, n: nat): Outcome { if script == [] then Again else Clamp(script[0], n) }

  function Tail<T>(s: seq<T>): seq<T> { if s == [] then [] else s[1..] }

  /** `wire` is what the socket took, `out` what is still to be sent, `writing` the write interest. */
  datatype State = State(script: seq<Outcome>, wire: seq<byte>, out: seq<byte>, writing: bool)

  /** One write call for all of `out`. */
  function Written(s: State): State {
    var o := NextOutcome(s.script, |s.out|);
    var k := if o.Moved? then o.count else 0;
    State(Tail(s.script), s.wire + s.out[..k], s.out[k..], s.writing)
  }

  datatype Fate = Fate(state: State, end: End)

  /** A write loop: it goes on until everything is out, the socket would block, or it fails. */
  function Flush(s: State): Fate
    decreases |s.script|
  {
    if s.out == [] then Fate(s, Done)
    else
      match NextOutcome(s.script, |s.out|)
      case Moved(_) => Flush(Written(s))
      case Interrupted => Flush(Written(s))
      case Again => Fate(Written(s), Blocked)
      case Failed => Fate(Written(s), Error)
  }

  /** The loop of `Send` tries once even when there is nothing to send, and then does not repeat. */
  function FlushOnce(s: State): Fate {
    if s.out != [] then Flush(s) else
      var o := NextOutcome(s.script, 0);
      Fate(Written(s), if o.Failed? then Error else if o.Again? then Blocked else Done)
  }

  datatype Op = Send(data: seq<byte>) | Writable

  datatype Result = Result(state: State, code: int)

  function Code(s: State, f: Fate): int { if f.end == Error then -1 else |f.state.wire| - |s.wire| }

  function HandledWrite(s: State): Result {
    if s.out == [] then Result(s, 0) else
      var f := Flush(s);
      Result(f.state.(writing := if f.end == Error then s.writing else f.end != Done), Code(s, f))
  }

  /** On an empty buffer the data goes to the socket first; what would block is buffered. */
  function DirectSend(s: State, data: seq<byte>): Result {
    var f := FlushOnce(s.(out := data));
    Result(if f.end == Blocked then f.state.(writing := true) else f.state.(out := []), Code(s, f))
  }

  function Step(s: State, op: Op): Result {
    match op
    case Writable => HandledWrite(s)
    case Send(data) => if s.out != [] then HandledWrite(s.(out := s.out + data)) else DirectSend(s, data)
  }

  function Payload(op: Op): seq<byte> { if op.Send? then op.data else [] }

  /** Everything accepted so far: on the wire or waiting for it. */
  function Stream(s: State): seq<byte> { s.wire + s.out }

  /** Buffered bytes have somebody to send them. */
  predicate Armed(s: State) { s.out != [] ==> s.writing }

  /** The loop moves bytes from the buffer to the wire and loses none, and it is done when all are out. */
  lemma {:induction false} FlushKeepsStream(s: State)
    ensures var f := Flush(s);
      && Stream(f.state) == Stream(s) && s.wire <= f.state.wire && f.state.writing == s.writing
      && (f.end == Done <==> f.state.out == [])
    decreases |s.script|
  {
    if s.out != [] {
      WrittenKeepsStream(s);
      var o := NextOutcome(s.script, |s.out|);
      if o.Moved? || o.Interrupted? { FlushKeepsStream(Written(s)); }
    }
  }

  lemma WrittenKeepsStream(s: State)
    ensures Stream(Written(s)) == Stream(s) && s.wire <= Written(s).wire && Written(s).writing == s.writing
    ensures !NextOutcome(s.script, |s.out|).Moved? ==> Written(s).out == s.out && Written(s).wire == s.wire
  {
    var o := NextOutcome(s.script, |s.out|);
    Regroup(s.wire, s.out, if o.Moved? then o.count else 0);
  }

  lemma Regroup(a: seq<byte>, b: seq<byte>, k: nat)
    requires k <= |b|
    ensures (a + b[..k]) + b[k..] == a + b && b[0..] == b && a + b[..0] == a
  {
  }

  /** The bytes these outcomes offer to move. */
  function Bytes(script: seq<Outcome>): nat {
    if script == [] then 0 else (if script[0].Moved? then script[0].count else 0) + Bytes(script[1..])
  }

  /** The i-th outcome is an error, and a loop for `n` bytes comes that far and is not done by then. */
  ghost predicate FailsAt(script: seq<Outcome>, n: nat, i: nat) {
    && i < |script| && script[i].Failed? && Bytes(script[..i]) < n
    && (forall j :: 0 <= j < i ==> script[j].Interrupted? || (script[j].Moved? && script[j].count > 0))
  }

  ghost predicate Fails(script: seq<Outcome>, n: nat) { exists i: nat :: FailsAt(script, n, i) }

  lemma FailsHere(script: seq<Outcome>, n: nat)
    requires n > 0 && script != [] && script[0].Failed?
    ensures Fails(script, n)
  {
    assert FailsAt(script, n, 0);
  }

  /** An outcome after which a write loop goes on, having moved `k` bytes. */
  predicate Moves(o: Outcome, k: nat) { if o.Moved? then 0 < o.count == k else o.Interrupted? && k == 0 }

  lemma FailsAtLater(script: seq<Outcome>, n: nat, k: nat, i: nat)
    requires script != [] && Moves(script[0], k)
    ensures FailsAt(script, n, i + 1) <==> k < n && FailsAt(script[1..], n - k, i)
  {
    var rest := script[1..];
    if i < |rest| {
      assert script[..i + 1][1..] == rest[..i];
      assert forall j :: 0 <= j < i ==> rest[j] == script[j + 1];
      assert forall j :: 0 < j < i + 1 ==> script[j] == rest[j - 1];
    }
  }

  /** Past such an outcome it is the rest of the script that decides. */
  lemma FailsLater(script: seq<Outcome>, n: nat, k: nat)
    requires script != [] && n > 0 && Moves(script[0], k)
    ensures Fails(script, n) <==> k < n && Fails(script[1..], n - k)
  {
    if Fails(script, n) {
      var i: nat :| FailsAt(script, n, i);
      FailsAtLater(script, n, k, i - 1);
    }
    if k < n && Fails(script[1..], n - k) {
      var rest, m := script[1..], n - k;
      var i: nat :| FailsAt(rest, m, i);
      FailsAtLater(script, n, k, i);
    }
  }

  /** A write loop fails if and only if the socket's script says so. */
  lemma {:induction false} FlushFailsIff(s: State)
    ensures Flush(s).end == Error <==> Fails(s.script, |s.out|)
    decreases |s.script|
  {
    if s.out != [] && s.script != [] {
      match s.script[0]
      case Moved(k) =>
        if k > 0 {
          FailsLater(s.script, |s.out|, k);
          if k < |s.out| {
            FlushFailsIff(Written(s));
          } else {
            assert Written(s).out == [];
          }
        }
      case Interrupted =>
        FailsLater(s.script, |s.out|, 0);
        FlushFailsIff(Written(s));
      case Again =>
      case Failed => FailsHere(s.script, |s.out|);
    }
  }

  /** A call that is going to lose data: it sends on an empty buffer, and the socket fails first. */
  ghost predicate Loses(s: State, op: Op) { s.out == [] && Payload(op) != [] && Fails(s.script, |Payload(op)|) }

  /** A call that is going to fail: the socket fails before it took all there is, or at a send of nothing. */
  ghost predicate Breaks(s: State, op: Op) {
    if s.out + Payload(op) != [] then Fails(s.script, |s.out + Payload(op)|)
    else op.Send? && s.script != [] && s.script[0].Failed?
  }

  /** The code is -1 if and only if the socket fails, and the number of bytes it took otherwise. */
  lemma StepCodeIff(s: State, op: Op)
    ensures var r := Step(s, op);
      && (r.code == -1 <==> Breaks(s, op))
      && (r.code != -1 ==> r.code == |r.state.wire| - |s.wire|)
  {
    var all := s.(out := s.out + Payload(op));
    assert op.Writable? ==> all.out == s.out;
    assert s.out == [] ==> all.out == Payload(op);
    FlushKeepsStream(all);
    FlushFailsIff(all);
    WrittenKeepsStream(all);
  }

  /** Write interest after a call: kept by a failing one, and otherwise there for what is left to send. */
  lemma StepInterest(s: State, op: Op)
    requires s.out + Payload(op) != []
    ensures var r := Step(s, op);
      && (r.code == -1 ==> r.state.writing == s.writing)
      && (r.code != -1 ==> (r.state.writing <==> r.state.out != [] || (s.out == [] && s.writing)))
  {
    var all := s.(out := s.out + Payload(op));
    assert op.Writable? ==> all.out == s.out;
    assert s.out == [] ==> all.out == Payload(op);
    FlushKeepsStream(all);
  }

  /**
    A call appends its payload to the stream unless it sends on an empty buffer and the socket
    fails before it took all; in that one case the stream keeps a proper prefix of the payload.
    What the socket took is never changed, and buffered bytes keep their write interest.
  */
  lemma StepStreamIff(s: State, op: Op)
    requires Armed(s)
    ensures var r := Step(s, op);
      && Armed(r.state) && s.wire <= r.state.wire
      && (Stream(r.state) == Stream(s) + Payload(op) <==> !Loses(s, op))
      && (Loses(s, op) ==>
            r.code == -1 && exists k :: 0 <= k < |Payload(op)| && Stream(r.state) == Stream(s) + Payload(op)[..k])
      && (r.code == -1 <==> Breaks(s, op))
      && (r.code != -1 ==> r.code == |r.state.wire| - |s.wire|)
  {
    var r := Step(s, op);
    var data := Payload(op);
    StepCodeIff(s, op);
    if op.Writable? {
      FlushKeepsStream(s);
      assert Stream(s) + data == Stream(s);
    } else if s.out != [] {
      FlushKeepsStream(s.(out := s.out + data));
      assert Stream(s) + data == s.wire + (s.out + data);
    } else {
      FlushFailsIff(s.(out := data));
      DirectSendStream(s, data);
      assert Stream(s) + [] == Stream(s);
    }
  }

  lemma DirectSendStream(s: State, data: seq<byte>)
    requires s.out == []
    ensures var r := DirectSend(s, data);
      && Armed(r.state) && s.wire <= r.state.wire
      && (r.code >= 0 ==> Stream(r.state) == Stream(s) + data && r.code == |r.state.wire| - |s.wire|)
      && (r.code < 0 ==>
            exists k :: 0 <= k <= |data| && (data != [] ==> k < |data|) && Stream(r.state) == Stream(s) + data[..k])
  {
    var r, f := DirectSend(s, data), FlushOnce(s.(out := data));
    FlushKeepsStream(s.(out := data));
    WrittenKeepsStream(s.(out := data));
    assert Stream(s) + data == s.wire + data;
    var k := |f.state.wire| - |s.wire|;
    assert f.state.wire == (s.wire + data)[..|f.state.wire|] == s.wire + data[..k];
    if r.code < 0 {
      assert Stream(r.state) == Stream(s) + data[..k];
    }
  }

  function Payloads(ops: seq<Op>): seq<byte> {
    if ops == [] then [] else Payloads(ops[..|ops| - 1]) + Payload(ops[|ops| - 1])
  }

  ghost predicate StepAt(run: seq<Result>, ops: seq<Op>, i: nat)
    requires |run| == |ops| + 1 && i < |ops|
  {
    run[i + 1] == Step(run[i].state, ops[i])
  }

  /** The channel starts with an empty buffer; `run[i]` is its state and the last code after i calls. */
  ghost predicate IsRun(run: seq<Result>, ops: seq<Op>) {
    && |run| == |ops| + 1
    && run[0].state.wire == [] && run[0].state.out == []
    && (forall i :: 0 <= i < |ops| ==> StepAt(run, ops, i))
  }

  /**
    In every run, the bytes on the wire and then the buffered bytes are the payloads in order if and
    only if no call lost data, and fewer bytes otherwise; and buffered bytes have write interest.
  */
  lemma {:induction false} RunKeepsStream(run: seq<Result>, ops: seq<Op>, n: nat)
    requires IsRun(run, ops) && n <= |ops|
    ensures Armed(run[n].state) && |Stream(run[n].state)| <= |Payloads(ops[..n])|
    ensures Stream(run[n].state) == Payloads(ops[..n]) <==> NoneLost(run, ops, n)
    ensures !NoneLost(run, ops, n) ==> |Stream(run[n].state)| < |Payloads(ops[..n])|
  {
    if n == 0 {
      assert ops[..0] == [];
    } else {
      RunKeepsStream(run, ops, n - 1);
      assert StepAt(run, ops, n - 1);
      StepStreamIff(run[n - 1].state, ops[n - 1]);
      assert ops[..n][..n - 1] == ops[..n - 1];
      assert NoneLost(run, ops, n) <==> NoneLost(run, ops, n - 1) && !Loses(run[n - 1].state, ops[n - 1]);
    }
  }

  ghost predicate NoneLost(run: seq<Result>, ops: seq<Op>, n: nat)
    requires |run| == |ops| + 1 && n <= |ops|
  {
    forall i :: 0 <= i < n ==> !Loses(run[i].state, ops[i])
  }

  /** It happens: the socket takes one of three bytes and then fails, and the other two are gone. */
  lemma SendCanLose(s: State)
    requires s == State([Moved(1), Failed], [], [], false)
    ensures Loses(s, Send([1, 2, 3]))
    ensures Step(s, Send([1, 2, 3])) == Result(State([], [1], [], false), -1)
  {
    var data: seq<byte> := [1, 2, 3];
    var s1 := Written(s.(out := data));
    assert s1 == State([Failed], [1], [2, 3], false);
    assert Written(s1) == State([], [1], [2, 3], false);
    assert Flush(s1) == Fate(Written(s1), Error);
    assert Flush(s.(out := data)) == Flush(s1);
    FlushFailsIff(s.(out := data));
  }

  /** When the buffer is empty after a run, the peer was sent exactly the payloads unless a call lost data. */
  lemma FlushedRunSendsAll(run: seq<Result>, ops: seq<Op>)
    requires IsRun(run, ops) && run[|ops|].state.out == []
    ensures run[|ops|].state.wire == Payloads(ops) <==> NoneLost(run, ops, |ops|)
  {
    RunKeepsStream(run, ops, |ops|);
    assert ops[..|ops|] == ops;
  }

  /** A write loop over a socket that keeps taking bytes empties the buffer. */
  lemma {:induction false} FlushEmpties(s: State)
    requires |s.script| >= |s.out|
    requires forall i :: 0 <= i < |s.script| ==> s.script[i].Moved? && s.script[i].count > 0
    ensures Flush(s).end == Done
    decreases |s.script|
  {
    if s.out != [] { FlushEmpties(Written(s)); }
  }

  /** The receiving side: reading ends with the peer's end of stream as well. */
  datatype Incoming = Incoming(script: seq<ReadOutcome>, unread: seq<byte>)

  datatype ReadOutcome = Arrived(outcome: Outcome) | EndOfStream

  /** What a read returns when there is room for `room` bytes. */
  function NextRead(i: Incoming, room: nat): ReadOutcome {
    if i.script == [] then Arrived(Again)
    else if i.script[0].EndOfStream? then EndOfStream
    else Arrived(Clamp(i.script[0].outcome, if room < |i.unread| then room else |i.unread|))
  }

  function Received(buffered: seq<byte>, unread: seq<byte>): seq<byte> { buffered + unread }

  /** A read after which the loop reads again. */
  predicate GoesOn(o: ReadOutcome) {
    o.Arrived? && (o.outcome.Interrupted? || (o.outcome.Moved? && o.outcome.count > 0))
  }

  predicate Stops(o: ReadOutcome, failing: bool, drained: bool) {
    if failing then o.EndOfStream? || o.outcome.Failed?
    else o.Arrived? && (o.outcome.Again? || o.outcome == Moved(0) || (o.outcome.Moved? && drained))
  }

  /** The loop took the script up to the first outcome that stops it, and no further. */
  ghost predicate ReadUntil(before: Incoming, after: Incoming, failing: bool) {
    exists n: nat :: n <= |before.script| && StopsAt(before, after, failing, n)
  }

  ghost predicate StopsAt(before: Incoming, after: Incoming, failing: bool, n: nat)
    requires n <= |before.script|
  {
    && (forall i :: 0 <= i < n ==> GoesOn(before.script[i]))
    && (if n == |before.script| then after.script == [] && !failing
        else after.script == before.script[n + 1..] && Stops(before.script[n], failing, after.unread == []))
  }

  const BLOCK_SIZE := 2 * 1024

  class Socket {
    var script: seq<Outcome>
    var wire: seq<byte>
    var incoming: Incoming

    constructor (script: seq<Outcome>, incoming: Incoming)
      ensures this.script == script && wire == [] && this.incoming == incoming
    {
      this.script, wire, this.incoming := script, [], incoming;
    }

    method Write(bytes: seq<byte>) returns (o: Outcome)
      modifies this
      ensures o == NextOutcome(old(script), |bytes|) && script == Tail(old(script))
      ensures wire == if o.Moved? then old(wire) + bytes[..o.count] else old(wire)
      ensures incoming == old(incoming)
    {
      o := NextOutcome(script, |bytes|);
      script := Tail(script);
      if o.Moved? {
        wire := wire + bytes[..o.count];
      }
    }

    /** Up to `room` bytes of the peer's stream. */
    method Read(room: nat) returns (o: ReadOutcome, bytes: seq<byte>)
      modifies this
      ensures script == old(script) && wire == old(wire)
      ensures bytes + incoming.unread == old(incoming.unread) && |bytes| <= room
      ensures incoming.script == Tail(old(incoming.script))
      ensures o == NextRead(old(incoming), room)
      ensures bytes != [] <==> o.Arrived? && o.outcome.Moved?
    {
      o := NextRead(incoming, room);
      bytes := if o.Arrived? && o.outcome.Moved? then incoming.unread[..o.outcome.count] else [];
      incoming := Incoming(Tail(incoming.script), incoming.unread[|bytes|..]);
    }
  }

  class Channel {
    const socket: Socket
    const in_: Buffer
    const out: Buffer
    var writing: bool

    ghost predicate Valid()
      reads this, in_, out
    {
      in_.Valid() && out.Valid() && in_ != out && in_.data != out.data
    }

    ghost function Value(): State
      reads this, socket, out, out.data
      requires out.Valid()
    {
      State(socket.script, socket.wire, out.Contents(), writing)
    }

    constructor (socket: Socket)
      ensures Valid() && this.socket == socket && Value() == State(socket.script, socket.wire, [], false)
    {
      this.socket := socket;
      in_ := new Buffer();
      out := new Buffer();
      writing := false;
    }

    /** One round of the loop of `HandleWrite`: a write of what is buffered, and its `Consume`. */
    method WriteBuffered() returns (o: Outcome)
      requires Valid()
      modifies socket, out
      ensures Valid() && out.data == old(out.data) && socket.incoming == old(socket.incoming)
      ensures o == NextOutcome(old(socket.script), |old(out.Contents())|)
      ensures Value() == Written(old(Value()))
    {
      o := socket.Write(out.data[out.readIndex..out.writeIndex]);
      if o.Moved? {
        out.Consume(o.count);
      }
    }

    method HandleWrite() returns (code: int)
      requires Valid()
      modifies this, socket, out
      ensures Valid() && out.data == old(out.data) && socket.incoming == old(socket.incoming)
      ensures Result(Value(), code) == HandledWrite(old(Value()))
    {
      if out.CanReadSize() == 0 {
        return 0;
      }
      ghost var s := Value();
      var total := 0;
      while out.CanReadSize() > 0
        invariant Valid() && out.data == old(out.data) && socket.incoming == old(socket.incoming)
        invariant Flush(Value()) == Flush(s) && total == |socket.wire| - |s.wire| && writing == s.writing
        decreases |socket.script|
      {
        var o := WriteBuffered();
        if o.Moved? {
          total := total + o.count;
          continue;
        }
        if o.Again? {
          break;
        }
        if o.Interrupted? {
          continue;
        }
        return -1;
      }
      FlushKeepsStream(s);
      writing := out.CanReadSize() > 0;
      return total;
    }

    /** The loop of `Send`, up to the point where it knows how it ends. */
    method WriteAll(data: seq<byte>, ghost s: State) returns (written: nat, end: End)
      requires s.script == socket.script && s.wire == socket.wire && s.out == data
      modifies socket
      ensures socket.incoming == old(socket.incoming) && written <= |data|
      ensures FlushOnce(s) == Fate(State(socket.script, socket.wire, data[written..], s.writing), end)
      ensures written == |socket.wire| - |s.wire|
    {
      written, end := 0, Done;
      if data == [] {
        // the body of the do-while runs once before its condition ends it
        var o;
        ghost var t;
        o, t := WriteSlice(data, s);
        end := if o.Again? then Blocked else if o.Failed? then Error else Done;
        return;
      }
      ghost var cur := s;
      while written < |data|
        invariant socket.incoming == old(socket.incoming)
        invariant 0 <= written <= |data| && written == |cur.wire| - |s.wire|
        invariant cur == State(socket.script, socket.wire, data[written..], s.writing)
        invariant Flush(cur) == Flush(s)
        decreases |socket.script|
      {
        var o;
        o, cur := WriteSlice(data[written..], cur);
        if o.Moved? {
          assert data[written..][o.count..] == data[written + o.count..];
          written := written + o.count;
          continue;
        }
        if o.Interrupted? {
          continue;
        }
        end := if o.Again? then Blocked else Error;
        return;
      }
    }

    method SendDirectly(data: seq<byte>) returns (code: int)
      requires Valid() && out.Contents() == []
      modifies this, socket, out, out.data
      ensures Valid() && socket.incoming == old(socket.incoming)
      ensures out.data == old(out.data) || fresh(out.data)
      ensures Result(Value(), code) == DirectSend(old(Value()), data)
    {
      var written, end := WriteAll(data, Value().(out := data));
      if end == Blocked {
        writing := true;
        out.WriteRawData(data[written..]);
      }
      return if end == Error then -1 else written;
    }

    /** One write of the loop in `Send`. */
    method WriteSlice(bytes: seq<byte>, ghost s: State) returns (o: Outcome, ghost t: State)
      requires s.script == socket.script && s.wire == socket.wire && s.out == bytes
      modifies socket
      ensures o == NextOutcome(s.script, |bytes|) && t == Written(s)
      ensures socket.script == t.script && socket.wire == t.wire && socket.incoming == old(socket.incoming)
      ensures !o.Moved? ==> t.out == bytes && t.wire == s.wire
      ensures o.Moved? ==> |t.wire| == |s.wire| + o.count && t.out == bytes[o.count..]
    {
      o := socket.Write(bytes);
      t := Written(s);
      WrittenKeepsStream(s);
    }

    method Send(data: seq<byte>) returns (code: int)
      requires Valid()
      modifies this, socket, out, out.data
      ensures Valid() && socket.incoming == old(socket.incoming)
      ensures out.data == old(out.data) || fresh(out.data)
      ensures Result(Value(), code) == Step(old(Value()), Op.Send(data))
    {
      if out.CanReadSize() > 0 {
        out.WriteRawData(data);
        code := HandleWrite();
      } else {
        code := SendDirectly(data);
      }
    }

    /** One round of the loop of `HandleRead`; the socket is asked for a block at least. */
    method ReadBlock() returns (o: ReadOutcome)
      requires Valid()
      modifies socket, in_, in_.data
      ensures Valid() && Value() == old(Value())
      ensures in_.data == old(in_.data) || fresh(in_.data)
      ensures Received(in_.Contents(), socket.incoming.unread) == old(Received(in_.Contents(), socket.incoming.unread))
      ensures old(in_.Contents()) <= in_.Contents()
      ensures socket.incoming.script == Tail(old(socket.incoming.script))
      ensures o.Arrived? && o.outcome.Moved? <==> |in_.Contents()| > |old(in_.Contents())|
      ensures exists room :: room >= BLOCK_SIZE && o == NextRead(old(socket.incoming), room)
    {
      in_.EnsureWritableSize(BLOCK_SIZE);
      var bytes;
      o, bytes := socket.Read(in_.CanWriteSize());
      in_.Fill(bytes);
    }

    /**
      Bytes of the peer pass from the socket to the buffer in order, and the loop goes on until the
      socket would block, the stream ends or a read fails. The code is -1, or all that is buffered.
    */
    method HandleRead() returns (code: int)
      requires Valid()
      modifies socket, in_, in_.data
      ensures Valid() && Value() == old(Value())
      ensures in_.data == old(in_.data) || fresh(in_.data)
      ensures Received(in_.Contents(), socket.incoming.unread) == old(Received(in_.Contents(), socket.incoming.unread))
      ensures old(in_.Contents()) <= in_.Contents()
      ensures ReadUntil(old(socket.incoming), socket.incoming, code < 0)
      ensures code == -1 || code == |in_.Contents()|
    {
      ghost var start, n := socket.incoming, 0;
      while true
        invariant Valid() && Value() == old(Value())
        invariant in_.data == old(in_.data) || fresh(in_.data)
        invariant Received(in_.Contents(), socket.incoming.unread)
          == old(Received(in_.Contents(), socket.incoming.unread))
        invariant old(in_.Contents()) <= in_.Contents()
        invariant n <= |start.script| && socket.incoming.script == start.script[n..]
        invariant forall i :: 0 <= i < n ==> GoesOn(start.script[i])
        decreases |socket.incoming.script|
      {
        var o := ReadBlock();
        if o.EndOfStream? {
          assert StopsAt(start, socket.incoming, true, n);
          return -1;
        }
        if o.outcome.Again? {
          assert StopsAt(start, socket.incoming, false, n);
          break;
        }
        if o.outcome.Failed? {
          assert StopsAt(start, socket.incoming, true, n);
          return -1;
        }
        n := n + 1;
      }
      return in_.CanReadSize();
    }
  }
}
