/** The client's transport over a socket that delivers bytes in pieces of any size. */
module WsTransport {
  import opened Wrappers
  import opened Framing
  import opened FramingProofs
  import opened Sequences

  /** `incoming` is everything that will arrive before the stream ends. */
  class Socket {
    var incoming: seq<Byte>
    var sent: seq<Byte>

    constructor (bytes: seq<Byte>)
      ensures incoming == bytes && sent == []
    {
      incoming, sent := bytes, [];
    }

    /** Between one and `n` bytes, however many are there, or none at the end of the stream. */
    method Recv(n: nat) returns (chunk: seq<Byte>)
      requires n > 0
      modifies this`incoming
      ensures |chunk| <= n && chunk + incoming == old(incoming)
      ensures chunk == [] <==> old(incoming) == []
    {
      if incoming == [] { return []; }
      var k :| 1 <= k <= n && k <= |incoming|;
      chunk := incoming[..k];
      incoming := incoming[k..];
    }

    method SendAll(bytes: seq<Byte>)
      modifies this`sent
      ensures sent == old(sent) + bytes
    {
      sent := sent + bytes;
    }
  }

  /** A pong: the payload it echoes and the key that masks it. */
  datatype Pong = Pong(payload: seq<Byte>, key: Mask)

  function Echo(p: Pong): seq<seq<Byte>> {
    [p.payload]
  }

  function PongBytes(p: Pong): seq<Byte> {
    match SendBytes(PONG, p.payload, p.key) case Ok(bytes) => bytes case Err(_) => []
  }

  lemma {:induction false} FromBigBounded(bytes: seq<Byte>)
    ensures FromBig(bytes) < Power(256, |bytes|)
  {
    if bytes != [] { FromBigBounded(bytes[..|bytes| - 1]); }
  }

  /** No received payload is too long to send back. */
  lemma ReceivedFits(input: seq<Byte>)
    requires RecvFrame(input).Ok?
    ensures |RecvFrame(input).value.0.payload| < 0x1_0000_0000_0000_0000
  {
    WordSizes();
    var short := input[1] % 128;
    if short >= 126 { FromBigBounded(input[2..2 + Extended(short)]); }
  }

  /** The pings answered so far are what `whole` answers before `line`, and nothing else was written. */
  predicate Answered(whole: Line, start: seq<Byte>, sent: seq<Byte>, pongs: seq<Pong>, line: Line) {
    whole == Answering(Join(Echo, pongs), line) && sent == start + Join(PongBytes, pongs)
  }

  lemma NoneAnswered(whole: Line, start: seq<Byte>)
    ensures Answered(whole, start, start, [], whole)
  {
  }

  lemma OneAnswered(whole: Line, start: seq<Byte>, sent: seq<Byte>, pongs: seq<Pong>, p: Pong, next: Line)
    requires Answered(whole, start, sent, pongs, next.(pings := [p.payload] + next.pings))
    ensures Answered(whole, start, sent + PongBytes(p), pongs + [p], next)
  {
    JoinAppend(Echo, pongs, p);
    JoinAppend(PongBytes, pongs, p);
    var echoed := Join(Echo, pongs);
    assert echoed + ([p.payload] + next.pings) == (echoed + [p.payload]) + next.pings;
  }

  class Transport {
    const socket: Socket

    constructor (socket: Socket)
      ensures this.socket == socket
    {
      this.socket := socket;
    }

    method ReceiveExact(n: nat) returns (r: Result<seq<Byte>, RecvError>)
      modifies socket`incoming
      ensures r == RecvExact(old(socket.incoming), n)
      ensures socket.incoming == if r.Ok? then old(socket.incoming)[n..] else []
    {
      var buf: seq<Byte> := [];
      while |buf| < n
        invariant |buf| <= n && buf + socket.incoming == old(socket.incoming)
        decreases n - |buf|
      {
        var chunk := socket.Recv(n - |buf|);
        if chunk == [] { return Err(ConnectionClosed); }
        buf := buf + chunk;
      }
      r := Ok(buf);
    }

    method ReceiveFrame() returns (r: Result<Frame, RecvError>)
      modifies socket`incoming
      ensures var frame := RecvFrame(old(socket.incoming));
        if frame.Ok? then r == Ok(frame.value.0) && socket.incoming == old(socket.incoming)[frame.value.1..]
        else r == Err(frame.error)
    {
      var start := ReceiveExact(2);
      if start.Err? { return Err(start.error); }
      var (b0, b1) := (start.value[0], start.value[1]);
      var length := b1 % 128;
      var head := 2;
      if length == 126 {
        var two := ReceiveExact(2);
        if two.Err? { return Err(two.error); }
        length, head := FromBig(two.value), 4;
        assert two.value == old(socket.incoming)[2..4];
      } else if length == 127 {
        var eight := ReceiveExact(8);
        if eight.Err? { return Err(eight.error); }
        length, head := FromBig(eight.value), 10;
        assert eight.value == old(socket.incoming)[2..10];
      }
      var payload: Result<seq<Byte>, RecvError> := Ok([]);
      if length > 0 { payload := ReceiveExact(length); }
      if payload.Err? { return Err(payload.error); }
      assert payload.value == old(socket.incoming)[head..head + length];
      r := Ok(Frame(b0 / 128 == 1, b0 % 16, payload.value));
    }

    /** `send_line`: the text, as one text frame. */
    method SendLine(line: seq<Byte>, mask: Mask) returns (r: Result<(), SendError>)
      modifies socket`sent
      ensures var bytes := SendBytes(0x1, line, mask);
        if bytes.Ok? then r == Ok(()) && socket.sent == old(socket.sent) + bytes.value
        else r == Err(bytes.error) && socket.sent == old(socket.sent)
    {
      r := SendFrame(TEXT, line, mask);
    }

    method SendFrame(opcode: nat, payload: seq<Byte>, mask: Mask) returns (r: Result<(), SendError>)
      requires opcode < 16
      modifies socket`sent
      ensures var bytes := SendBytes(opcode, payload, mask);
        if bytes.Ok? then r == Ok(()) && socket.sent == old(socket.sent) + bytes.value
        else r == Err(bytes.error) && socket.sent == old(socket.sent)
    {
      var header: seq<Byte> := [128 + opcode];
      var n := |payload|;
      if n < 126 {
        header := header + [128 + n];
      } else if n < 65536 {
        header := header + [128 + 126] + BigEndian(n, 2);
      } else if n < 0x1_0000_0000_0000_0000 {
        header := header + [128 + 127] + BigEndian(n, 8);
      } else {
        return Err(Overflow);
      }
      assert header == [128 + opcode] + LengthField(n, 128);
      header := header + mask;
      var masked: seq<Byte> := [];
      for i := 0 to n
        invariant masked == Masked(payload, mask)[..i]
      {
        masked := masked + [Xor(payload[i], mask[i % 4])];
      }
      socket.SendAll(header + masked);
      r := Ok(());
    }

    /** Reads one frame and does what it asks for; `done` tells whether that settles the line. */
    method ReceivePart(data: seq<Byte>, ghost whole: Line, ghost start: seq<Byte>, ghost before: seq<Pong>)
      returns (done: Option<Result<seq<Byte>, RecvError>>, more: seq<Byte>, ghost pongs: seq<Pong>)
      requires Answered(whole, start, socket.sent, before, RecvLine(data, socket.incoming))
      modifies socket
      ensures done.None? ==> |socket.incoming| < |old(socket.incoming)|
      ensures done.None? ==> Answered(whole, start, socket.sent, pongs, RecvLine(more, socket.incoming))
      ensures done.Some? ==> whole.pings == Join(Echo, pongs) && socket.sent == start + Join(PongBytes, pongs)
      ensures done.Some? ==> done.value == whole.result && (done.value.Ok? ==> socket.incoming == whole.rest)
    {
      done, more, pongs := None, data, before;
      ghost var input := socket.incoming;
      var frame := ReceiveFrame();
      if frame.Err? { return Some(Err(frame.error)), data, before; }
      var f := frame.value;
      if f.opcode == CLOSE { return Some(Err(ClosedByServer)), data, before; }
      if f.opcode == PING {
        var mask: Mask := *;
        ReceivedFits(input);
        ghost var sent := socket.sent;
        var _ := SendFrame(PONG, f.payload, mask);
        OneAnswered(whole, start, sent, before, Pong(f.payload, mask), RecvLine(data, socket.incoming));
        pongs := before + [Pong(f.payload, mask)];
      } else if f.opcode != PONG {
        more := data + f.payload;
        if f.fin { return Some(Ok(more)), more, before; }
      }
    }

    /** Reads one message, answering each ping with a pong under some key. */
    method ReceiveLine() returns (r: Result<seq<Byte>, RecvError>, ghost pongs: seq<Pong>)
      modifies socket
      ensures var line := RecvLine([], old(socket.incoming));
        && r == line.result && (r.Ok? ==> socket.incoming == line.rest)
        && line.pings == Join(Echo, pongs) && socket.sent == old(socket.sent) + Join(PongBytes, pongs)
    {
      var data: seq<Byte> := [];
      ghost var whole, start := RecvLine([], socket.incoming), socket.sent;
      pongs := [];
      NoneAnswered(whole, start);
      while true
        invariant Answered(whole, start, socket.sent, pongs, RecvLine(data, socket.incoming))
        decreases |socket.incoming|
      {
        var done, more, told := ReceivePart(data, whole, start, pongs);
        data, pongs := more, told;
        if done.Some? { return done.value, pongs; }
      }
    }
  }
}
