/**
The framing against RFC 6455: an independent decoder of its section 5.2 and 5.3, and
messages fragmented as in its section 5.4.
*/
module FramingProofs {
  import opened Wrappers
  import opened Framing
  import opened Sequences

  // --- Section 5.2 and 5.3: the base frame and client-to-server masking ---

  /** What a decoder written from the standard sees: `key` is the masking key, if any. */
  datatype Decoded = Decoded(frame: Frame, key: Option<Mask>, rest: seq<Byte>)

  /** Reserved bits are zero, a longer length form is used only when needed, and a 64-bit
      length has its top bit clear; anything else is not a frame. */
  function Decode(bytes: seq<Byte>): Option<Decoded> {
    if |bytes| < 2 || (bytes[0] / 16) % 8 != 0 then None
    else
      var short := bytes[1] % 128;
      var size := if short == 126 then 2 else if short == 127 then 8 else 0;
      if |bytes| < 2 + size then None
      else
        var length := if size == 0 then short else FromBig(bytes[2..2 + size]);
        if (size == 2 && length < 126) || (size == 8 && !(65536 <= length < 0x8000_0000_0000_0000)) then None
        else DecodeBody(bytes[0] / 128 == 1, bytes[0] % 16, bytes[1] >= 128, length, bytes[2 + size..])
  }

  /** The bit of value `bit` is set in exactly one of the two. */
  function Either(x: nat, key: nat, bit: nat): nat
    requires bit > 0
  {
    (x / bit + key / bit) % 2
  }

  /** The payload octet behind a masked one: each of its bits is set exactly if one of the two
      has it. */
  function Unmask(x: Byte, key: Byte): Byte {
    Either(x, key, 1) + 2 * Either(x, key, 2) + 4 * Either(x, key, 4) + 8 * Either(x, key, 8)
    + 16 * Either(x, key, 16) + 32 * Either(x, key, 32) + 64 * Either(x, key, 64) + 128 * Either(x, key, 128)
  }

  lemma LowBit(a: nat, b: nat, bits: nat)
    requires bits > 0
    ensures XorBits(a, b, bits) == Either(a, b, 1) + 2 * XorBits(a / 2, b / 2, bits - 1)
  {
  }

  lemma FourBits(a: nat, b: nat, bits: nat)
    requires bits >= 4
    ensures XorBits(a, b, bits) == Either(a, b, 1) + 2 * Either(a, b, 2) + 4 * Either(a, b, 4) + 8 * Either(a, b, 8)
      + 16 * XorBits(a / 16, b / 16, bits - 4)
  {
    LowBit(a, b, bits);
    LowBit(a / 2, b / 2, bits - 1);
    LowBit(a / 4, b / 4, bits - 2);
    LowBit(a / 8, b / 8, bits - 3);
    Halves(a);
    Halves(b);
    HigherBit(a, b, 2, 1);
    HigherBit(a, b, 4, 1);
    HigherBit(a, b, 8, 1);
  }

  lemma Halves(n: nat)
    ensures n / 2 / 2 == n / 4 && n / 4 / 2 == n / 8 && n / 8 / 2 == n / 16
  {
  }

  /** A bit of the upper part. */
  lemma HigherBit(a: nat, b: nat, part: nat, bit: nat)
    requires part > 0 && bit > 0
    ensures part * bit > 0 && Either(a / part, b / part, bit) == Either(a, b, part * bit)
  {
    Quotients(a, part, bit);
    Quotients(b, part, bit);
  }

  lemma UnmaskIsXor(x: Byte, key: Byte)
    ensures Xor(x, key) == Unmask(x, key)
  {
    FourBits(x, key, 8);
    FourBits(x / 16, key / 16, 4);
    HigherBit(x, key, 16, 1);
    HigherBit(x, key, 16, 2);
    HigherBit(x, key, 16, 4);
    HigherBit(x, key, 16, 8);
  }

  function DecodeBody(fin: bool, opcode: nat, masked: bool, length: nat, bytes: seq<Byte>): Option<Decoded> {
    if !masked then
      if |bytes| < length then None else Some(Decoded(Frame(fin, opcode, bytes[..length]), None, bytes[length..]))
    else if |bytes| < 4 + length then None
    else
      var key: Mask := bytes[..4];
      var data := seq(length, i requires 0 <= i < length => Unmask(bytes[4 + i], key[i % 4]));
      Some(Decoded(Frame(fin, opcode, data), Some(key), bytes[4 + length..]))
  }

  ghost predicate ReadsAs(all: seq<Byte>, n: nat, maskBit: Byte, size: nat, rest: seq<Byte>) {
    && |all| >= 1 + size && all[0] / 128 == maskBit / 128 && Extended(all[0] % 128) == size && all[1 + size..] == rest
    && (if size == 0 then all[0] % 128 == n else FromBig(all[1..1 + size]) == n)
  }

  lemma ShortLength(n: nat, maskBit: Byte, rest: seq<Byte>)
    requires (maskBit == 0 || maskBit == 128) && n < 126
    ensures ReadsAs([maskBit + n] + rest, n, maskBit, 0, rest)
  {
  }

  lemma LongLength(first: Byte, n: nat, maskBit: Byte, size: nat, rest: seq<Byte>)
    requires (maskBit == 0 || maskBit == 128) && n < Power(256, size)
    requires (size == 2 && first == maskBit + 126) || (size == 8 && first == maskBit + 127)
    ensures ReadsAs([first] + BigEndian(n, size) + rest, n, maskBit, size, rest)
  {
    var all := [first] + BigEndian(n, size) + rest;
    BigEndianExact(n, size);
    assert all[1..1 + size] == BigEndian(n, size) && all[1 + size..] == rest;
  }

  /** The length field reads back, whatever follows it. */
  lemma LengthReadsBack(n: nat, maskBit: Byte, rest: seq<Byte>)
    requires (maskBit == 0 || maskBit == 128) && n < 0x1_0000_0000_0000_0000
    ensures var size := if n < 126 then 0 else if n < 65536 then 2 else 8;
      |LengthField(n, maskBit)| == 1 + size && ReadsAs(LengthField(n, maskBit) + rest, n, maskBit, size, rest)
  {
    WordSizes();
    if n < 126 {
      ShortLength(n, maskBit, rest);
    } else if n < 65536 {
      LongLength(maskBit + 126, n, maskBit, 2, rest);
    } else {
      LongLength(maskBit + 127, n, maskBit, 8, rest);
    }
  }

  /** Whatever the mask and whatever follows, a frame the client writes decodes by the
      standard to the same opcode and payload, final, masked with that key. */
  lemma SentFrameDecodes(opcode: nat, payload: seq<Byte>, mask: Mask, rest: seq<Byte>)
    requires opcode < 16 && |payload| < 0x8000_0000_0000_0000
    ensures SendBytes(opcode, payload, mask).Ok?
    ensures Decode(SendBytes(opcode, payload, mask).value + rest) == Some(Decoded(Frame(true, opcode, payload), Some(mask), rest))
  {
    var field, body := LengthField(|payload|, 128), mask + Masked(payload, mask) + rest;
    var bytes := SendBytes(opcode, payload, mask).value + rest;
    assert bytes == [128 + opcode] + (field + body);
    HeaderDecodes(opcode, |payload|, body);
    BodyDecodes(opcode, payload, mask, rest);
  }

  lemma HeaderDecodes(opcode: nat, n: nat, body: seq<Byte>)
    requires opcode < 16 && n < 0x8000_0000_0000_0000
    ensures Decode([128 + opcode] + (LengthField(n, 128) + body)) == DecodeBody(true, opcode, true, n, body)
  {
    var rest := LengthField(n, 128) + body;
    var bytes := [128 + opcode] + rest;
    LengthReadsBack(n, 128, body);
    var size := Extended(bytes[1] % 128);
    assert bytes[1..] == rest;
    assert bytes[2..2 + size] == rest[1..1 + size];
    assert bytes[2 + size..] == rest[1 + size..] == body;
  }

  lemma Unmasks(payload: seq<Byte>, mask: Mask, bytes: seq<Byte>)
    requires |bytes| >= 4 + |payload| && bytes[4..4 + |payload|] == Masked(payload, mask)
    ensures seq(|payload|, i requires 0 <= i < |payload| => Unmask(bytes[4 + i], mask[i % 4])) == payload
  {
    MaskedTwice(payload, mask);
    var data := seq(|payload|, i requires 0 <= i < |payload| => Unmask(bytes[4 + i], mask[i % 4]));
    forall i | 0 <= i < |payload| ensures data[i] == payload[i] {
      UnmaskIsXor(bytes[4 + i], mask[i % 4]);
      assert bytes[4 + i] == bytes[4..4 + |payload|][i];
      assert Masked(Masked(payload, mask), mask)[i] == Xor(Masked(payload, mask)[i], mask[i % 4]);
    }
  }

  lemma BodyDecodes(opcode: nat, payload: seq<Byte>, mask: Mask, rest: seq<Byte>)
    ensures DecodeBody(true, opcode, true, |payload|, mask + Masked(payload, mask) + rest)
         == Some(Decoded(Frame(true, opcode, payload), Some(mask), rest))
  {
    var bytes := mask + Masked(payload, mask) + rest;
    assert bytes[..4] == mask && bytes[4 + |payload|..] == rest;
    assert bytes[4..4 + |payload|] == Masked(payload, mask);
    Unmasks(payload, mask, bytes);
  }

  // --- Frames from the server ---

  predicate WellSized(f: Frame) {
    f.opcode < 16 && |f.payload| < 0x8000_0000_0000_0000
  }

  /** A frame as the server sends it, unmasked. */
  function Wire(f: Frame): seq<Byte> {
    [(if f.fin then 128 else 0) + f.opcode % 16] + LengthField(|f.payload|, 0) + f.payload
  }

  /** Where the parts of a server frame lie in the stream. */
  lemma WireLayout(f: Frame, rest: seq<Byte>)
    requires WellSized(f)
    ensures var input, n := Wire(f) + rest, |f.payload|;
      var size := Extended(input[1] % 128);
      && input[0] == (if f.fin then 128 else 0) + f.opcode && input[1] < 128
      && |Wire(f)| == 2 + size + n && input[2 + size..] == f.payload + rest
      && (if size == 0 then input[1] % 128 == n else FromBig(input[2..2 + size]) == n)
      && size == (if n < 126 then 0 else if n < 65536 then 2 else 8)
  {
    var field, body := LengthField(|f.payload|, 0), f.payload + rest;
    assert Wire(f) + rest == [(if f.fin then 128 else 0) + f.opcode] + (field + body);
    LengthReadsBack(|f.payload|, 0, body);
    Shifted((if f.fin then 128 else 0) + f.opcode, field + body, Extended((field + body)[0] % 128));
  }

  lemma Shifted(first: Byte, bytes: seq<Byte>, size: nat)
    requires 1 + size <= |bytes|
    ensures ([first] + bytes)[2..2 + size] == bytes[1..1 + size] && ([first] + bytes)[2 + size..] == bytes[1 + size..]
  {
  }

  /** The client reads a server frame back, and nothing beyond it. */
  lemma ReadsBack(f: Frame, rest: seq<Byte>)
    requires WellSized(f)
    ensures RecvFrame(Wire(f) + rest) == Ok((f, |Wire(f)|))
  {
    WireLayout(f, rest);
    var input := Wire(f) + rest;
    var head := 2 + Extended(input[1] % 128);
    assert input[head..head + |f.payload|] == input[head..][..|f.payload|] == f.payload;
  }

  /** The standard's decoder reads server frames as the client does. */
  lemma WireDecodes(f: Frame, rest: seq<Byte>)
    requires WellSized(f)
    ensures Decode(Wire(f) + rest) == Some(Decoded(f, None, rest))
  {
    WireLayout(f, rest);
    var body := f.payload + rest;
    assert body[..|f.payload|] == f.payload && body[|f.payload|..] == rest;
    assert DecodeBody(f.fin, f.opcode, false, |f.payload|, body) == Some(Decoded(f, None, rest));
  }

  /** A frame cut short anywhere is an error. */
  lemma CutFrameFails(f: Frame, k: nat)
    requires WellSized(f) && k < |Wire(f)|
    ensures RecvFrame(Wire(f)[..k]) == Err(ConnectionClosed)
  {
    var all, cut := Wire(f), Wire(f)[..k];
    ReadsBack(f, []);
    assert all + [] == all;
    if k >= 2 {
      var size := Extended(all[1] % 128);
      assert cut[0] == all[0] && cut[1] == all[1];
      if k >= 2 + size {
        assert cut[2..2 + size] == all[2..2 + size];
      }
    }
  }

  // --- Section 5.4: fragmentation ---

  function WireAll(frames: seq<Frame>): seq<Byte> {
    Join(Wire, frames)
  }

  /** Opcodes by section 5.2: 0 continuation, 1 text, 2 binary, 8 close, 9 ping, A pong. */
  predicate IsControl(f: Frame) {
    f.opcode == 0x9 || f.opcode == 0xA
  }

  function DataFrames(frames: seq<Frame>): seq<Frame> {
    if frames == [] then []
    else (if IsControl(frames[0]) then [] else [frames[0]]) + DataFrames(frames[1..])
  }

  function DataOf(f: Frame): seq<Byte> {
    if IsControl(f) then [] else f.payload
  }

  /** The payloads of the data frames, joined. */
  function Data(frames: seq<Frame>): seq<Byte> {
    Join(DataOf, frames)
  }

  function PingOf(f: Frame): seq<seq<Byte>> {
    if f.opcode == 0x9 then [f.payload] else []
  }

  function Pings(frames: seq<Frame>): seq<seq<Byte>> {
    Join(PingOf, frames)
  }

  /** One message: its data frames start with a text or binary frame and go on with
      continuations, only the last is final, and pings and pongs, which are never
      fragmented, come anywhere before it. */
  ghost predicate IsMessage(frames: seq<Frame>) {
    var data := DataFrames(frames);
    && (forall f :: f in frames ==> WellSized(f))
    && data != [] && (data[0].opcode == 0x1 || data[0].opcode == 0x2)
    && (forall i :: 1 <= i < |data| ==> data[i].opcode == 0x0)
    && (forall i :: 0 <= i < |data| ==> (data[i].fin <==> i == |data| - 1))
    && (forall f :: f in frames && IsControl(f) ==> f.fin && |f.payload| <= 125)
    && !IsControl(frames[|frames| - 1])
  }

  /** Frames of a message before its final one. */
  ghost predicate Unfinished(frames: seq<Frame>) {
    forall f :: f in frames ==> WellSized(f) && f.opcode != 0x8 && (f.fin ==> IsControl(f))
  }

  predicate Finishes(f: Frame) {
    WellSized(f) && f.fin && f.opcode != 0x8 && !IsControl(f)
  }

  lemma {:induction false} DataAt(frames: seq<Frame>, i: nat) returns (j: nat)
    requires i < |frames| && !IsControl(frames[i])
    ensures j < |DataFrames(frames)| && DataFrames(frames)[j] == frames[i]
    ensures (j == |DataFrames(frames)| - 1) <==> forall k :: i < k < |frames| ==> IsControl(frames[k])
    ensures j == 0 <==> forall k :: 0 <= k < i ==> IsControl(frames[k])
    decreases i
  {
    var skip := if IsControl(frames[0]) then 0 else 1;
    if i == 0 {
      j := 0;
      NoMoreData(frames[1..]);
    } else {
      var r := DataAt(frames[1..], i - 1);
      j := r + skip;
      assert forall k :: 1 <= k < |frames| ==> frames[k] == frames[1..][k - 1];
      assert (forall k :: i < k < |frames| ==> IsControl(frames[k])) <==>
             (forall k :: i - 1 < k < |frames[1..]| ==> IsControl(frames[1..][k]));
    }
  }

  lemma {:induction false} NoMoreData(frames: seq<Frame>)
    ensures DataFrames(frames) == [] <==> forall k :: 0 <= k < |frames| ==> IsControl(frames[k])
  {
    if frames != [] { NoMoreData(frames[1..]); }
  }

  /** A message is unfinished up to its last frame, which finishes it. */
  lemma MessageSplits(frames: seq<Frame>)
    requires IsMessage(frames)
    ensures frames != [] && Unfinished(frames[..|frames| - 1]) && Finishes(frames[|frames| - 1])
  {
    assert frames != [];
    var n := |frames| - 1;
    forall f | f in frames[..n] ensures WellSized(f) && f.opcode != 0x8 && (f.fin ==> IsControl(f)) {
      var i :| 0 <= i < n && frames[i] == f;
      if !IsControl(f) {
        var j := DataAt(frames, i);
        assert !IsControl(frames[n]);
      }
    }
    var j := DataAt(frames, n);
  }

  function Answering(pings: seq<seq<Byte>>, line: Line): Line {
    line.(pings := pings + line.pings)
  }

  /** Reading gathers the frame's data, answers it if it is a ping, and goes on. */
  ghost predicate GoesOver(read: (seq<Byte>, seq<Byte>) -> Line, wire: Frame -> seq<Byte>, f: Frame) {
    forall data, tail :: read(data, wire(f) + tail) == Answering(PingOf(f), read(data + DataOf(f), tail))
  }

  lemma GoesOverUnfinished(f: Frame)
    requires WellSized(f) && f.opcode != 0x8 && (f.fin ==> IsControl(f))
    ensures GoesOver(RecvLine, Wire, f)
  {
    forall data, tail ensures RecvLine(data, Wire(f) + tail) == Answering(PingOf(f), RecvLine(data + DataOf(f), tail)) {
      ReadsBack(f, tail);
      assert (Wire(f) + tail)[|Wire(f)|..] == tail;
      assert IsControl(f) ==> data + DataOf(f) == data;
    }
  }

  lemma {:induction false} GoesOverAll(
    read: (seq<Byte>, seq<Byte>) -> Line, wire: Frame -> seq<Byte>, data: seq<Byte>, frames: seq<Frame>, tail: seq<Byte>)
    requires forall f :: f in frames ==> GoesOver(read, wire, f)
    ensures read(data, Join(wire, frames) + tail) == Answering(Join(PingOf, frames), read(data + Join(DataOf, frames), tail))
    decreases frames
  {
    if frames == [] {
      assert Join(wire, frames) + tail == tail && data + Join(DataOf, frames) == data;
    } else {
      var f, later := frames[0], frames[1..];
      assert f in frames && GoesOver(read, wire, f);
      assert Join(wire, frames) + tail == wire(f) + (Join(wire, later) + tail);
      GoesOverAll(read, wire, data + DataOf(f), later, tail);
      assert (data + DataOf(f)) + Join(DataOf, later) == data + Join(DataOf, frames);
      AnsweringTwice(PingOf(f), Join(PingOf, later), read(data + Join(DataOf, frames), tail));
    }
  }

  lemma AnsweringTwice(a: seq<seq<Byte>>, b: seq<seq<Byte>>, line: Line)
    ensures Answering(a, Answering(b, line)) == Answering(a + b, line)
  {
  }

  /** Reading through unfinished frames gathers their data and answers their pings. */
  lemma ReadsThrough(frames: seq<Frame>, tail: seq<Byte>)
    requires Unfinished(frames)
    ensures RecvLine([], WireAll(frames) + tail) == Answering(Pings(frames), RecvLine(Data(frames), tail))
  {
    forall f | f in frames ensures GoesOver(RecvLine, Wire, f) { GoesOverUnfinished(f); }
    GoesOverAll(RecvLine, Wire, [], frames, tail);
    assert [] + Data(frames) == Data(frames);
  }

  /** Reading any fragmentation of a message returns the whole message, answers every ping
      in it, and takes nothing beyond it. */
  lemma ReadsMessage(frames: seq<Frame>, rest: seq<Byte>)
    requires IsMessage(frames)
    ensures RecvLine([], WireAll(frames) + rest) == Line(Ok(Data(frames)), Pings(frames), rest)
  {
    MessageSplits(frames);
    var front, last := frames[..|frames| - 1], frames[|frames| - 1];
    assert frames == front + [last];
    JoinAppend(Wire, front, last);
    JoinAppend(DataOf, front, last);
    JoinAppend(PingOf, front, last);
    var tail := Wire(last) + rest;
    assert WireAll(frames) + rest == WireAll(front) + tail;
    ReadsThrough(front, tail);
    ReadsBack(last, rest);
    assert tail[|Wire(last)|..] == rest;
  }

  /** Two fragmentations of the same text, wherever the pings are, read the same. */
  lemma FragmentationIsInvisible(a: seq<Frame>, b: seq<Frame>, restA: seq<Byte>, restB: seq<Byte>)
    requires IsMessage(a) && IsMessage(b) && Data(a) == Data(b)
    ensures RecvLine([], WireAll(a) + restA).result == RecvLine([], WireAll(b) + restB).result
  {
    ReadsMessage(a, restA);
    ReadsMessage(b, restB);
  }

  /** A stream that ends anywhere before the last frame is complete is a connection error. */
  lemma {:induction false} CutFails(data: seq<Byte>, front: seq<Frame>, last: Frame, k: nat)
    requires Unfinished(front) && Finishes(last) && k < |WireAll(front) + Wire(last)|
    ensures RecvLine(data, (WireAll(front) + Wire(last))[..k]).result == Err(ConnectionClosed)
    decreases front
  {
    var cut := (WireAll(front) + Wire(last))[..k];
    var f := if front == [] then last else front[0];
    if k < |Wire(f)| {
      assert cut == Wire(f)[..k];
      CutFrameFails(f, k);
    } else {
      var tail := (WireAll(front[1..]) + Wire(last))[..k - |Wire(f)|];
      assert cut == Wire(f) + tail;
      ReadsBack(f, tail);
      assert cut[|Wire(f)|..] == tail;
      assert IsControl(f) ==> data + DataOf(f) == data;
      CutFails(data + DataOf(f), front[1..], last, k - |Wire(f)|);
    }
  }

  lemma CutMessageFails(frames: seq<Frame>, k: nat)
    requires IsMessage(frames) && k < |WireAll(frames)|
    ensures RecvLine([], WireAll(frames)[..k]).result == Err(ConnectionClosed)
  {
    MessageSplits(frames);
    var front, last := frames[..|frames| - 1], frames[|frames| - 1];
    assert frames == front + [last];
    JoinAppend(Wire, front, last);
    CutFails([], front, last, k);
  }

  /** A close frame in the middle of a message ends it with an error. */
  lemma CloseEndsMessage(frames: seq<Frame>, close: Frame, rest: seq<Byte>)
    requires Unfinished(frames) && WellSized(close) && close.opcode == 0x8
    ensures RecvLine([], WireAll(frames) + (Wire(close) + rest)) == Line(Err(ClosedByServer), Pings(frames), rest)
  {
    ReadsThrough(frames, Wire(close) + rest);
    ReadsBack(close, rest);
    assert (Wire(close) + rest)[|Wire(close)|..] == rest;
  }

  /** The pong that answers a ping decodes, by the standard, to a pong with the ping's payload. */
  lemma PongEchoes(ping: Frame, mask: Mask)
    requires WellSized(ping) && ping.opcode == 0x9
    ensures SendBytes(PONG, ping.payload, mask).Ok?
    ensures Decode(SendBytes(PONG, ping.payload, mask).value) == Some(Decoded(Frame(true, 0xA, ping.payload), Some(mask), []))
  {
    SentFrameDecodes(PONG, ping.payload, mask, []);
    assert SendBytes(PONG, ping.payload, mask).value + [] == SendBytes(PONG, ping.payload, mask).value;
  }
}
