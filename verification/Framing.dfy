/**
WebSocket framing as the Python client does it: what it writes, and how it reads frames and
messages from a byte stream that may end anywhere.
*/
module Framing {
  import opened Wrappers

  type Byte = b: int | 0 <= b < 256

  type Mask = m: seq<Byte> | |m| == 4 witness [0, 0, 0, 0]

  datatype Frame = Frame(fin: bool, opcode: nat, payload: seq<Byte>)

  const TEXT: nat := 1
  const CLOSE: nat := 8
  const PING: nat := 9
  const PONG: nat := 10

  // --- Bytes ---

  function XorBits(a: nat, b: nat, bits: nat): nat {
    if bits == 0 then 0 else (if a % 2 == b % 2 then 0 else 1) + 2 * XorBits(a / 2, b / 2, bits - 1)
  }

  function Power(base: nat, k: nat): (p: nat)
    ensures base > 0 ==> p > 0
  {
    if k == 0 then 1 else base * Power(base, k - 1)
  }

  lemma {:induction false} XorBounded(a: nat, b: nat, bits: nat)
    ensures XorBits(a, b, bits) < Power(2, bits)
  {
    if bits > 0 { XorBounded(a / 2, b / 2, bits - 1); }
  }

  lemma {:induction false} XorTwice(a: nat, b: nat, bits: nat)
    requires a < Power(2, bits)
    ensures XorBits(XorBits(a, b, bits), b, bits) == a
  {
    if bits > 0 {
      var x := XorBits(a, b, bits);
      var low := if a % 2 == b % 2 then 0 else 1;
      var high := XorBits(a / 2, b / 2, bits - 1);
      assert x == low + 2 * high && x % 2 == low && x / 2 == high;
      XorTwice(a / 2, b / 2, bits - 1);
    }
  }

  /** Bit i of a number. */
  function Bit(n: nat, i: nat): nat {
    if i == 0 then n % 2 else Bit(n / 2, i - 1)
  }

  lemma {:induction false} BitIsDigit(n: nat, i: nat)
    ensures Bit(n, i) == n / Power(2, i) % 2
  {
    if i > 0 {
      BitIsDigit(n / 2, i - 1);
      Quotients(n, 2, Power(2, i - 1));
    }
  }

  /** Exclusive or, bit by bit: a bit is set exactly if it is set in one of the two. */
  lemma {:induction false} XorBit(a: nat, b: nat, bits: nat, i: nat)
    requires i < bits
    ensures Bit(XorBits(a, b, bits), i) == (Bit(a, i) + Bit(b, i)) % 2
  {
    LowAndHigh(a, b, bits);
    if i > 0 { XorBit(a / 2, b / 2, bits - 1, i - 1); }
  }

  lemma LowAndHigh(a: nat, b: nat, bits: nat)
    requires bits > 0
    ensures XorBits(a, b, bits) % 2 == (a % 2 + b % 2) % 2 && XorBits(a, b, bits) / 2 == XorBits(a / 2, b / 2, bits - 1)
  {
    Doubled(if a % 2 == b % 2 then 0 else 1, XorBits(a / 2, b / 2, bits - 1));
    Parity(a % 2, b % 2);
  }

  lemma Doubled(low: nat, high: nat)
    requires low < 2
    ensures (low + 2 * high) % 2 == low && (low + 2 * high) / 2 == high
  {
  }

  lemma Parity(x: nat, y: nat)
    requires x < 2 && y < 2
    ensures (x + y) % 2 == if x == y then 0 else 1
  {
  }

  lemma Quotients(n: nat, part: nat, bit: nat)
    requires part > 0 && bit > 0
    ensures part * bit > 0 && n / part / bit == n / (part * bit)
  {
    var q, r, t := n / part / bit, n / part % bit, n % part;
    Remainders(n, part);
    Remainders(n / part, bit);
    Rearranged(q, bit, r, part);
    Apart(r, bit, part);
    QuotientIs(n, part * bit, q, r * part + t);
  }

  lemma Remainders(n: nat, d: nat)
    requires d > 0
    ensures n == n / d * d + n % d && n % d < d
  {
  }

  lemma Rearranged(q: nat, bit: nat, r: nat, part: nat)
    ensures (q * bit + r) * part == q * (part * bit) + r * part
  {
    assert q * bit * part == q * (bit * part) && bit * part == part * bit;
  }

  lemma QuotientIs(n: nat, d: nat, q: nat, r: nat)
    requires n == q * d + r && r < d
    ensures n / d == q
  {
    var x := n / d;
    assert n == x * d + n % d;
    if x < q { Apart(x, q, d); }
    if x > q { Apart(q, x, d); }
  }

  lemma Apart(x: nat, q: nat, d: nat)
    requires x < q
    ensures x * d + d <= q * d
  {
    assert q * d - x * d == (q - x) * d;
    assert (q - x - 1) * d >= 0;
  }

  lemma PowersOfTwo()
    ensures Power(2, 8) == 256
  {
    assert Power(2, 4) == 16;
  }

  function Xor(a: Byte, b: Byte): Byte {
    PowersOfTwo();
    XorBounded(a, b, 8);
    XorBits(a, b, 8)
  }

  /** Octet i is combined with octet i mod 4 of the key. */
  function Masked(payload: seq<Byte>, mask: Mask): (r: seq<Byte>)
    ensures |r| == |payload|
  {
    seq(|payload|, i requires 0 <= i < |payload| => Xor(payload[i], mask[i % 4]))
  }

  /** Masking twice with the same key is the identity. */
  lemma MaskedTwice(payload: seq<Byte>, mask: Mask)
    ensures Masked(Masked(payload, mask), mask) == payload
  {
    forall i | 0 <= i < |payload| ensures Xor(Xor(payload[i], mask[i % 4]), mask[i % 4]) == payload[i] {
      PowersOfTwo();
      XorTwice(payload[i], mask[i % 4], 8);
    }
  }

  /** An octet of masked data has each bit set exactly if one of the payload and the key has it. */
  lemma MaskedBits(payload: seq<Byte>, mask: Mask, n: nat, i: nat)
    requires n < |payload| && i < 8
    ensures Bit(Masked(payload, mask)[n], i) == (Bit(payload[n], i) + Bit(mask[n % 4], i)) % 2
  {
    XorBit(payload[n], mask[n % 4], 8, i);
  }

  /** The low `k` base-256 digits of `n`, most significant first. */
  function BigEndian(n: nat, k: nat): (bytes: seq<Byte>)
    ensures |bytes| == k
  {
    if k == 0 then [] else BigEndian(n / 256, k - 1) + [n % 256]
  }

  function FromBig(bytes: seq<Byte>): nat {
    if bytes == [] then 0 else FromBig(bytes[..|bytes| - 1]) * 256 + bytes[|bytes| - 1]
  }

  lemma {:induction false} BigEndianExact(n: nat, k: nat)
    requires n < Power(256, k)
    ensures FromBig(BigEndian(n, k)) == n
  {
    if k > 0 {
      BigEndianExact(n / 256, k - 1);
      assert BigEndian(n, k)[..k - 1] == BigEndian(n / 256, k - 1);
    }
  }

  /** The first octet is the most significant digit. */
  lemma {:induction false} BigEndianDigits(n: nat, k: nat, i: nat)
    requires i < k
    ensures BigEndian(n, k)[i] == n / Power(256, k - 1 - i) % 256
  {
    if i < k - 1 {
      BigEndianDigits(n / 256, k - 1, i);
      Quotients(n, 256, Power(256, k - 2 - i));
    }
  }

  lemma WordSizes()
    ensures Power(256, 2) == 0x1_0000
    ensures Power(256, 8) == 0x1_0000_0000_0000_0000
  {
    assert Power(256, 4) == 0x1_0000_0000;
    assert Power(256, 6) == 0x1_0000_0000_0000;
  }

  // --- Writing ---

  datatype SendError = Overflow

  /** The length as the header carries it, with the mask bit in the first of its octets. */
  function LengthField(n: nat, maskBit: Byte): (field: seq<Byte>)
    requires maskBit == 0 || maskBit == 128
  {
    if n < 126 then [maskBit + n]
    else if n < 65536 then [maskBit + 126] + BigEndian(n, 2)
    else [maskBit + 127] + BigEndian(n, 8)
  }

  /** The bytes `_send_frame` writes. A length that does not fit in eight octets raises. */
  function SendBytes(opcode: nat, payload: seq<Byte>, mask: Mask): Result<seq<Byte>, SendError>
    requires opcode < 16
  {
    if |payload| >= 0x1_0000_0000_0000_0000 then Err(Overflow)
    else Ok([128 + opcode] + LengthField(|payload|, 128) + mask + Masked(payload, mask))
  }

  // --- Reading ---

  datatype RecvError = ConnectionClosed | ClosedByServer

  /** `_recv_exact`: n octets, or an error when the stream ends first. */
  function RecvExact(input: seq<Byte>, n: nat): Result<seq<Byte>, RecvError> {
    if |input| < n then Err(ConnectionClosed) else Ok(input[..n])
  }

  /** How many more octets the length takes, for the seven bits of the first one. */
  function Extended(length: nat): nat {
    if length == 126 then 2 else if length == 127 then 8 else 0
  }

  /** `_recv_frame`: the frame at the head of the stream and how long it was. The flag and
      mask operations `& 0x80`, `& 0x0F` and `& 0x7F` are the quotient and remainders here. */
  function RecvFrame(input: seq<Byte>): (r: Result<(Frame, nat), RecvError>)
    ensures r.Ok? ==> 2 <= r.value.1 <= |input|
  {
    if |input| < 2 then Err(ConnectionClosed)
    else
      var fin, opcode, short := input[0] / 128 == 1, input[0] % 16, input[1] % 128;
      var head := 2 + Extended(short);
      if |input| < head then Err(ConnectionClosed)
      else
        var length := if short < 126 then short else FromBig(input[2..head]);
        if |input| < head + length then Err(ConnectionClosed)
        else Ok((Frame(fin, opcode, input[head..head + length]), head + length))
  }

  /** What `recv_line` makes of a stream: its result, the pings it answers, and the stream left over. */
  datatype Line = Line(result: Result<seq<Byte>, RecvError>, pings: seq<seq<Byte>>, rest: seq<Byte>)

  function RecvLine(data: seq<Byte>, input: seq<Byte>): Line
    decreases |input|
  {
    var r := RecvFrame(input);
    if r.Err? then Line(Err(r.error), [], input)
    else
      var (f, used) := r.value;
      var rest := input[used..];
      if f.opcode == CLOSE then Line(Err(ClosedByServer), [], rest)
      else if f.opcode == PING then
        var line := RecvLine(data, rest);
        line.(pings := [f.payload] + line.pings)
      else if f.opcode == PONG then RecvLine(data, rest)
      else if f.fin then Line(Ok(data + f.payload), [], rest)
      else RecvLine(data + f.payload, rest)
  }
}
