/** WebSocket frames as bytes (RFC 6455, section 5.2): what the parser reads off the front of
    its buffer, and the encodings a peer may send. */
module WebSocketFrames {
  import opened Wrappers
  import opened Octets

  // size_t wraps at this many bytes.
  const SIZE_LIMIT: nat := 0x1_0000_0000_0000_0000

  datatype Frame = Frame(fin: bool, mask: bool, opcode: byte, payloadLen: nat, maskingKey: Bytes, payload: Bytes)

  const Blank := Frame(false, false, 0, 0, [0, 0, 0, 0], [])

  predicate Reserved(opcode: byte) {
    (3 <= opcode <= 7) || opcode == 0xb
  }

  function FromBigEndian(bytes: Bytes): nat {
    if bytes == [] then 0 else FromBigEndian(bytes[..|bytes| - 1]) * 256 + bytes[|bytes| - 1]
  }

  function Xor(a: byte, b: byte): byte {
    ((a as bv8) ^ (b as bv8)) as int
  }

  lemma BitsOfValue(x: bv8)
    ensures (x as int) as bv8 == x
  {
  }

  lemma ValueOfNext(x: bv8)
    requires x < 255
    ensures (x + 1) as int == x as int + 1
  {
  }

  lemma {:induction false} ValueOfBits(n: byte)
    ensures (n as bv8) as int == n
  {
    if n > 0 {
      ValueOfBits(n - 1);
      ValueOfNext((n - 1) as bv8);
      BitsOfValue((n - 1) as bv8 + 1);
    }
  }

  lemma Undone(x: bv8, y: bv8)
    ensures (x ^ y) ^ y == x
  {
  }

  lemma XorTwice(a: byte, k: byte)
    ensures Xor(Xor(a, k), k) == a
  {
    BitsOfValue((a as bv8) ^ (k as bv8));
    Undone(a as bv8, k as bv8);
    ValueOfBits(a);
  }

  // Bit k of a number, the lowest being bit 0.
  function Bit(n: nat, k: nat): nat {
    if k == 0 then n % 2 else Bit(n / 2, k - 1)
  }

  lemma LowBit(x: bv8)
    ensures (x as int) % 2 == (x & 1) as int
  {
  }

  lemma Half(x: bv8)
    ensures (x as int) / 2 == (x >> 1) as int
  {
  }

  lemma XorSplits(x: bv8, y: bv8)
    ensures (x ^ y) >> 1 == (x >> 1) ^ (y >> 1)
    ensures (x ^ y) & 1 == (x & 1) ^ (y & 1)
  {
  }

  lemma OneBit(x: bv8, y: bv8)
    requires x < 2 && y < 2
    ensures (x ^ y) as int == (x as int + y as int) % 2
  {
  }

  lemma LowOnes(x: bv8, y: bv8)
    ensures ((x & 1) ^ (y & 1)) as int == ((x & 1) as int + (y & 1) as int) % 2
  {
    OneBit(x & 1, y & 1);
  }

  lemma Lowest(x: bv8, y: bv8)
    ensures (x ^ y) as int % 2 == (x as int % 2 + y as int % 2) % 2
  {
    XorSplits(x, y);
    LowBit(x);
    LowBit(y);
    LowBit(x ^ y);
    LowOnes(x, y);
  }

  lemma Halves(x: bv8, y: bv8)
    ensures (x ^ y) as int / 2 == ((x >> 1) ^ (y >> 1)) as int
  {
    XorSplits(x, y);
    Half(x ^ y);
  }

  lemma NextBit(x: bv8, k: nat)
    requires k > 0
    ensures Bit(x as int, k) == Bit((x >> 1) as int, k - 1)
  {
    Half(x);
  }

  lemma NextBitOfXor(x: bv8, y: bv8, k: nat)
    requires k > 0
    ensures Bit((x ^ y) as int, k) == Bit(((x >> 1) ^ (y >> 1)) as int, k - 1)
  {
    Halves(x, y);
  }

  lemma {:induction false} BitAt(x: bv8, y: bv8, k: nat)
    ensures Bit((x ^ y) as int, k) == (Bit(x as int, k) + Bit(y as int, k)) % 2
  {
    if k == 0 {
      Lowest(x, y);
    } else {
      NextBit(x, k);
      NextBit(y, k);
      NextBitOfXor(x, y, k);
      BitAt(x >> 1, y >> 1, k - 1);
    }
  }

  /** Every bit is set just when one of the two is and the other is not. */
  lemma XorIsBitwise(a: byte, b: byte, k: nat)
    ensures Bit(Xor(a, b), k) == (Bit(a, k) + Bit(b, k)) % 2
  {
    ValueOfBits(a);
    ValueOfBits(b);
    BitAt(a as bv8, b as bv8, k);
  }

  /** XOR with the repeated four-byte key: masking and unmasking alike. */
  function Masked(key: Bytes, bytes: Bytes): (r: Bytes)
    requires |key| == 4
    ensures |r| == |bytes|
  {
    seq(|bytes|, i requires 0 <= i < |bytes| => Xor(bytes[i], key[i % 4]))
  }

  // Bytes of extended length announced by the 7-bit length.
  function MoreOf(len7: nat): nat {
    if len7 == 126 then 2 else if len7 == 127 then 8 else 0
  }

  function Len7(b: Bytes): nat
    requires |b| >= 2
  {
    b[1] % 0x80
  }

  predicate FinBit(b: Bytes)
    requires |b| >= 2
  {
    b[0] >= 0x80
  }

  function OpcodeOf(b: Bytes): byte
    requires |b| >= 2
  {
    b[0] % 0x10
  }

  predicate MaskBit(b: Bytes)
    requires |b| >= 2
  {
    b[1] >= 0x80
  }

  function HeaderSize(b: Bytes): nat
    requires |b| >= 2
  {
    2 + (if MaskBit(b) then 4 else 0) + MoreOf(Len7(b))
  }

  function PayloadLen(b: Bytes): nat
    requires |b| >= 2 && |b| >= HeaderSize(b)
  {
    var more := MoreOf(Len7(b));
    if more == 0 then Len7(b) else FromBigEndian(b[2..2 + more])
  }

  function KeyOf(b: Bytes): Bytes
    requires |b| >= 2 && |b| >= HeaderSize(b)
  {
    if MaskBit(b) then b[HeaderSize(b) - 4..HeaderSize(b)] else []
  }

  function SizeT(n: nat): nat {
    if n < SIZE_LIMIT then n else n % SIZE_LIMIT
  }

  function FrameSize(b: Bytes): nat
    requires |b| >= 2 && |b| >= HeaderSize(b)
  {
    HeaderSize(b) + PayloadLen(b)
  }

  function DataOf(b: Bytes): Bytes
    requires |b| >= 2 && |b| >= HeaderSize(b)
    requires |b| >= FrameSize(b)
  {
    var data := b[HeaderSize(b)..FrameSize(b)];
    if MaskBit(b) then Masked(KeyOf(b), data) else data
  }

  /** What the front of the buffer holds. */
  datatype Outcome =
    | Nothing                                             // less than two bytes
    | BadOpcode(fin: bool, opcode: byte)
    | Partial(fin: bool, opcode: byte, mask: bool, len: nat)
    | TooLong(fin: bool, opcode: byte, mask: bool, len: nat, key: Bytes)
    | Whole(fin: bool, opcode: byte, mask: bool, len: nat, key: Bytes, data: Bytes, used: nat)

  /** The parser's reading of its buffer.  The sum of header and payload length is taken in
      size_t; when it wraps, the size test passes and reserving the payload throws. */
  function Decode(b: Bytes): Outcome {
    if |b| < 2 then Nothing
    else
      var fin, opcode := FinBit(b), OpcodeOf(b);
      if Reserved(opcode) then BadOpcode(fin, opcode)
      else
        var mask := MaskBit(b);
        if |b| < HeaderSize(b) then Partial(fin, opcode, mask, Len7(b))
        else if |b| < SizeT(FrameSize(b)) then Partial(fin, opcode, mask, PayloadLen(b))
        else if FrameSize(b) >= SIZE_LIMIT then TooLong(fin, opcode, mask, PayloadLen(b), KeyOf(b))
        else Whole(fin, opcode, mask, PayloadLen(b), KeyOf(b), DataOf(b), FrameSize(b))
  }

  /** The fields of the current frame that a parse attempt writes. */
  function Touch(f: Frame, o: Outcome): Frame {
    match o
    case Nothing => f
    case BadOpcode(fin, opcode) => f.(fin := fin, opcode := opcode)
    case Partial(fin, opcode, mask, len) => f.(fin := fin, opcode := opcode, mask := mask, payloadLen := len)
    case TooLong(fin, opcode, mask, len, key) =>
      f.(fin := fin, opcode := opcode, mask := mask, payloadLen := len, maskingKey := if mask then key else f.maskingKey)
    case Whole(fin, opcode, mask, len, key, data, _) =>
      Frame(fin, mask, opcode, len, if mask then key else f.maskingKey, f.payload + data)
  }

  function Power256(n: nat): (r: nat)
    ensures r > 0
  {
    if n == 0 then 1 else 256 * Power256(n - 1)
  }

  /** The verdict once the header is there. */
  lemma DecodeBody(b: Bytes)
    requires |b| >= 2 && !Reserved(OpcodeOf(b)) && |b| >= HeaderSize(b)
    ensures |b| < SizeT(FrameSize(b)) ==>
              Decode(b) == Partial(FinBit(b), OpcodeOf(b), MaskBit(b), PayloadLen(b))
    ensures |b| >= SizeT(FrameSize(b)) && FrameSize(b) >= SIZE_LIMIT ==>
              Decode(b) == TooLong(FinBit(b), OpcodeOf(b), MaskBit(b), PayloadLen(b), KeyOf(b))
    ensures |b| >= SizeT(FrameSize(b)) && FrameSize(b) < SIZE_LIMIT ==>
              Decode(b) == Whole(FinBit(b), OpcodeOf(b), MaskBit(b), PayloadLen(b), KeyOf(b), DataOf(b), FrameSize(b))
  {
  }

  lemma SliceOfPrefix(b: Bytes, more: Bytes, i: nat, j: nat)
    requires i <= j <= |b|
    ensures (b + more)[i..j] == b[i..j]
  {
  }

  lemma HeadStands(b: Bytes, more: Bytes)
    requires |b| >= 2
    ensures var c := b + more;
            && |c| >= 2 && FinBit(c) == FinBit(b) && OpcodeOf(c) == OpcodeOf(b)
            && MaskBit(c) == MaskBit(b) && Len7(c) == Len7(b)
    ensures |b| >= HeaderSize(b) ==> PayloadLen(b + more) == PayloadLen(b)
  {
    var c := b + more;
    assert c[0] == b[0] && c[1] == b[1];
    if |b| >= HeaderSize(b) {
      SliceOfPrefix(b, more, 2, 2 + MoreOf(Len7(b)));
    }
  }

  lemma PartsStand(b: Bytes, more: Bytes)
    requires |b| >= 2 && |b| >= HeaderSize(b)
    ensures var c := b + more;
            && HeaderSize(c) == HeaderSize(b) && PayloadLen(c) == PayloadLen(b)
            && KeyOf(c) == KeyOf(b)
    ensures |b| >= FrameSize(b) ==> DataOf(b + more) == DataOf(b)
  {
    HeadStands(b, more);
    var header, len := HeaderSize(b), PayloadLen(b);
    if MaskBit(b) {
      SliceOfPrefix(b, more, header - 4, header);
    }
    if |b| >= header + len {
      SliceOfPrefix(b, more, header, header + len);
    }
  }

  /** More bytes behind a verdict do not change it ... */
  lemma VerdictStands(b: Bytes, more: Bytes)
    requires !Decode(b).Nothing? && !Decode(b).Partial?
    ensures Decode(b + more) == Decode(b)
    ensures Decode(b).Whole? ==> 2 <= Decode(b).used <= |b|
  {
    HeadStands(b, more);
    if !Reserved(OpcodeOf(b)) {
      PartsStand(b, more);
    }
  }

  lemma PartialGoesOn(b: Bytes, more: Bytes)
    requires Decode(b).Partial?
    ensures !Decode(b + more).Nothing? && !Decode(b + more).BadOpcode?
  {
    HeadStands(b, more);
  }

  /** ... and what an unfinished attempt wrote is written over by the next one. */
  lemma PartialIsForgotten(f: Frame, b: Bytes, more: Bytes)
    requires Decode(b).Nothing? || Decode(b).Partial?
    ensures Touch(Touch(f, Decode(b)), Decode(b + more)) == Touch(f, Decode(b + more))
  {
    if Decode(b).Partial? {
      PartialGoesOn(b, more);
    }
  }

  // ----- Encodings -----

  function BigEndian(n: nat, size: nat): (r: Bytes)
    ensures |r| == size
  {
    if size == 0 then [] else BigEndian(n / 256, size - 1) + [n % 256]
  }

  lemma {:induction false} BigEndianRoundTrip(n: nat, size: nat)
    requires n < Power256(size)
    ensures FromBigEndian(BigEndian(n, size)) == n
  {
    if size == 0 {
    } else {
      BigEndianRoundTrip(n / 256, size - 1);
      var r := BigEndian(n, size);
      assert r[..|r| - 1] == BigEndian(n / 256, size - 1);
    }
  }

  /** The most significant byte comes first. */
  lemma {:induction false} BigEndianByte(n: nat, size: nat, i: nat)
    requires i < size
    ensures BigEndian(n, size)[i] == n / Power256(size - 1 - i) % 256
    decreases size
  {
    if i < size - 1 {
      BigEndianByte(n / 256, size - 1, i);
      QuotientOf256(n, Power256(size - 2 - i));
    } else {
      assert Power256(0) == 1;
    }
  }

  lemma QuotientOf256(a: nat, p: nat)
    requires p > 0
    ensures a / (256 * p) == a / 256 / p
  {
    var q, r := a / 256 / p, a / 256 % p;
    assert a / 256 == q * p + r && a == 256 * (a / 256) + a % 256;
    assert a == q * (256 * p) + (256 * r + a % 256) && 256 * r + a % 256 < 256 * p;
    QuotientIs(a, 256 * p, q, 256 * r + a % 256);
  }

  lemma QuotientIs(a: nat, d: nat, q: nat, r: nat)
    requires d > 0 && a == q * d + r && r < d
    ensures a / d == q
  {
    var k := q - a / d;
    assert k * d == a % d - r;
    Multiples(k, d);
  }

  lemma Multiples(k: int, d: int)
    requires d >= 0
    ensures k >= 1 ==> k * d >= d
    ensures k <= -1 ==> k * d <= -d
  {
  }

  // The three length forms of section 5.2; a sender may use one longer than needed.
  datatype Form = Short | Medium | Long

  predicate Fits(form: Form, n: nat) {
    match form
    case Short => n < 126
    case Medium => n < 0x1_0000
    case Long => n < 0x8000_0000_0000_0000
  }

  predicate ValidKey(key: Option<Bytes>) {
    key.Some? ==> |key.value| == 4
  }

  function FormLen7(form: Form, n: nat): nat
    requires Fits(form, n)
  {
    match form case Short => n case Medium => 126 case Long => 127
  }

  function LengthBytes(form: Form, n: nat): Bytes {
    match form case Short => [] case Medium => BigEndian(n, 2) case Long => BigEndian(n, 8)
  }

  function Head(fin: bool, opcode: byte, form: Form, key: Option<Bytes>, n: nat): (r: Bytes)
    requires opcode < 0x10 && Fits(form, n)
    ensures |r| == 2
  {
    [(if fin then 0x80 else 0) + opcode, (if key.Some? then 0x80 else 0) + FormLen7(form, n)]
  }

  /** A frame as a peer sends it: FIN and opcode, mask bit and length, key, payload. */
  function Encode(fin: bool, opcode: byte, form: Form, key: Option<Bytes>, payload: Bytes): Bytes
    requires ValidKey(key) && Fits(form, |payload|) && opcode < 0x10
  {
    Head(fin, opcode, form, key, |payload|) + LengthBytes(form, |payload|)
    + Body(key, payload)
  }

  lemma HeadDecodes(fin: bool, opcode: byte, form: Form, key: Option<Bytes>, n: nat, rest: Bytes)
    requires opcode < 0x10 && Fits(form, n)
    ensures var b := Head(fin, opcode, form, key, n) + rest;
            && FinBit(b) == fin && OpcodeOf(b) == opcode
            && MaskBit(b) == key.Some? && Len7(b) == FormLen7(form, n)
  {
    var head := Head(fin, opcode, form, key, n);
    assert (head + rest)[0] == head[0] && (head + rest)[1] == head[1];
  }

  lemma MaskTwice(key: Bytes, bytes: Bytes)
    requires |key| == 4
    ensures Masked(key, Masked(key, bytes)) == bytes
  {
    forall i | 0 <= i < |bytes| ensures Xor(Xor(bytes[i], key[i % 4]), key[i % 4]) == bytes[i] {
      XorTwice(bytes[i], key[i % 4]);
    }
  }

  lemma LengthDecodes(form: Form, n: nat)
    requires Fits(form, n)
    ensures MoreOf(FormLen7(form, n)) == |LengthBytes(form, n)|
    ensures form.Short? || FromBigEndian(LengthBytes(form, n)) == n
  {
    match form
    case Short =>
    case Medium => assert Power256(2) == 0x1_0000; BigEndianRoundTrip(n, 2);
    case Long =>
      assert Power256(4) == 0x1_0000_0000;
      assert Power256(8) == SIZE_LIMIT;
      BigEndianRoundTrip(n, 8);
  }

  function Body(key: Option<Bytes>, payload: Bytes): (r: Bytes)
    requires ValidKey(key)
    ensures |r| == |payload| + (if key.Some? then 4 else 0)
  {
    if key.Some? then key.value + Masked(key.value, payload) else payload
  }

  lemma EncodingHeader(fin: bool, opcode: byte, form: Form, key: Option<Bytes>, n: nat, tail: Bytes)
    requires ValidKey(key) && Fits(form, n) && opcode < 0x10
    requires key.Some? ==> |tail| >= 4
    ensures var b := Head(fin, opcode, form, key, n) + (LengthBytes(form, n) + tail);
            && FinBit(b) == fin && OpcodeOf(b) == opcode && MaskBit(b) == key.Some?
            && HeaderSize(b) == 2 + |LengthBytes(form, n)| + (if key.Some? then 4 else 0)
            && PayloadLen(b) == n
  {
    var len := LengthBytes(form, n);
    var b := Head(fin, opcode, form, key, n) + (len + tail);
    HeadDecodes(fin, opcode, form, key, n, len + tail);
    LengthDecodes(form, n);
    assert b[2..2 + |len|] == len;
  }

  lemma Slices(front: Bytes, a: Bytes, b: Bytes, rest: Bytes)
    ensures var all := front + ((a + b) + rest);
            all[|front|..|front| + |a|] == a && all[|front| + |a|..|front| + |a| + |b|] == b
  {
  }

  lemma MaskedBody(front: Bytes, key: Bytes, payload: Bytes, rest: Bytes, b: Bytes)
    requires |key| == 4 && |front| >= 2 && b == front + ((key + Masked(key, payload)) + rest)
    requires MaskBit(b) && HeaderSize(b) == |front| + 4 && PayloadLen(b) == |payload|
    ensures KeyOf(b) == key && DataOf(b) == payload
  {
    Slices(front, key, Masked(key, payload), rest);
    MaskTwice(key, payload);
  }

  lemma PlainBody(front: Bytes, payload: Bytes, rest: Bytes, b: Bytes)
    requires |front| >= 2 && b == front + (payload + rest)
    requires !MaskBit(b) && HeaderSize(b) == |front| && PayloadLen(b) == |payload|
    ensures KeyOf(b) == [] && DataOf(b) == payload
  {
    assert b[|front|..|front| + |payload|] == payload;
  }

  lemma EncodingBody(front: Bytes, key: Option<Bytes>, payload: Bytes, rest: Bytes, b: Bytes)
    requires ValidKey(key) && |front| >= 2
    requires b == front + (Body(key, payload) + rest)
    requires MaskBit(b) == key.Some?
    requires HeaderSize(b) == |front| + (if key.Some? then 4 else 0) && PayloadLen(b) == |payload|
    ensures KeyOf(b) == (if key.Some? then key.value else [])
    ensures DataOf(b) == payload
  {
    if key.Some? {
      MaskedBody(front, key.value, payload, rest, b);
    } else {
      PlainBody(front, payload, rest, b);
    }
  }

  lemma EncodingSplits(fin: bool, opcode: byte, form: Form, key: Option<Bytes>, payload: Bytes, rest: Bytes)
    requires ValidKey(key) && Fits(form, |payload|) && opcode < 0x10
    ensures var n := |payload|;
            var head, len := Head(fin, opcode, form, key, n), LengthBytes(form, n);
            var e := Encode(fin, opcode, form, key, payload);
            && e + rest == head + (len + (Body(key, payload) + rest))
            && e + rest == (head + len) + (Body(key, payload) + rest)
            && |e| == 2 + |len| + |Body(key, payload)|
  {
  }

  /** Every encoding, in any of the three length forms and masked or not, is read back whole,
      whatever follows it. */
  lemma EncodingDecodes(fin: bool, opcode: byte, form: Form, key: Option<Bytes>, payload: Bytes, rest: Bytes)
    requires ValidKey(key) && Fits(form, |payload|) && opcode < 0x10 && !Reserved(opcode)
    ensures var e := Encode(fin, opcode, form, key, payload);
            Decode(e + rest) == Whole(fin, opcode, key.Some?, |payload|, if key.Some? then key.value else [], payload, |e|)
  {
    var n := |payload|;
    var b := Encode(fin, opcode, form, key, payload) + rest;
    EncodingSplits(fin, opcode, form, key, payload, rest);
    EncodingHeader(fin, opcode, form, key, n, Body(key, payload) + rest);
    EncodingBody(Head(fin, opcode, form, key, n) + LengthBytes(form, n), key, payload, rest, b);
    FitsSizeT(form, n);
  }

  lemma FitsSizeT(form: Form, n: nat)
    requires Fits(form, n)
    ensures n + 14 < SIZE_LIMIT
    ensures |LengthBytes(form, n)| <= 8
  {
  }

  // ----- The examples of section 5.7, and errors -----

  const HELLO: Bytes := [0x48, 0x65, 0x6c, 0x6c, 0x6f]

  lemma FiveMasked(key: Bytes, data: Bytes, plain: Bytes)
    requires |key| == 4 && |data| == 5 && |plain| == 5
    requires Xor(data[0], key[0]) == plain[0] && Xor(data[1], key[1]) == plain[1]
    requires Xor(data[2], key[2]) == plain[2] && Xor(data[3], key[3]) == plain[3]
    requires Xor(data[4], key[0]) == plain[4]
    ensures Masked(key, data) == plain
  {
  }

  lemma HelloUnmasked(key: Bytes, data: Bytes)
    requires key == [0x37, 0xfa, 0x21, 0x3d] && data == [0x7f, 0x9f, 0x4d, 0x51, 0x58]
    ensures Masked(key, data) == HELLO
  {
    assert Xor(0x7f, 0x37) == 0x48;
    assert Xor(0x9f, 0xfa) == 0x65;
    assert Xor(0x4d, 0x21) == 0x6c;
    assert Xor(0x51, 0x3d) == 0x6c;
    assert Xor(0x58, 0x37) == 0x6f;
    FiveMasked(key, data, HELLO);
  }

  /** The masked "Hello". */
  lemma MaskedHello()
    ensures Decode([0x81, 0x85, 0x37, 0xfa, 0x21, 0x3d, 0x7f, 0x9f, 0x4d, 0x51, 0x58])
         == Whole(true, 1, true, 5, [0x37, 0xfa, 0x21, 0x3d], HELLO, 11)
  {
    var key: Bytes := [0x37, 0xfa, 0x21, 0x3d];
    var data: Bytes := [0x7f, 0x9f, 0x4d, 0x51, 0x58];
    HelloUnmasked(key, data);
    var b: Bytes := [0x81, 0x85, 0x37, 0xfa, 0x21, 0x3d, 0x7f, 0x9f, 0x4d, 0x51, 0x58];
    assert b[2..6] == key && b[6..11] == data;
  }

  /** A masked text frame of one byte: 0x60 under the key byte 0x01 is 0x61. */
  lemma MaskedLetter()
    ensures Decode([0x81, 0x81, 0x01, 0, 0, 0, 0x60]) == Whole(true, 1, true, 1, [0x01, 0, 0, 0], [0x61], 7)
  {
    var b: Bytes := [0x81, 0x81, 0x01, 0, 0, 0, 0x60];
    assert b[2..6] == [0x01, 0, 0, 0] && b[6..7] == [0x60];
    assert Xor(0x60, 0x01) == 0x61;
  }

  /** The unmasked "Hello". */
  lemma PlainHello()
    ensures Decode([0x81, 0x05] + HELLO) == Whole(true, 1, false, 5, [], HELLO, 7)
  {
    var b := [0x81, 0x05] + HELLO;
    assert b[2..7] == HELLO;
  }

  /** The two bytes of a header: FIN, three bits that are ignored, opcode; mask bit, length. */
  lemma HeaderFields(fin: bool, rsv: nat, opcode: nat, mask: bool, len: nat, rest: Bytes)
    requires rsv < 8 && opcode < 16 && len < 128
    ensures var b := [(if fin then 128 else 0) + 16 * rsv + opcode, (if mask then 128 else 0) + len] + rest;
            FinBit(b) == fin && OpcodeOf(b) == opcode && MaskBit(b) == mask && Len7(b) == len
  {
  }

  /** A header announces 256 bytes, and one 65536. */
  lemma LongerLengths(rest: Bytes)
    ensures PayloadLen([0x82, 0x7e, 0x01, 0x00] + rest) == 256
    ensures PayloadLen([0x82, 0x7f, 0, 0, 0, 0, 0, 1, 0, 0] + rest) == 65536
  {
    var a := [0x82, 0x7e, 0x01, 0x00] + rest;
    var b := [0x82, 0x7f, 0, 0, 0, 0, 0, 1, 0, 0] + rest;
    assert a[2..4] == [0x01, 0x00] && b[2..10] == [0, 0, 0, 0, 0, 1, 0, 0];
    FromTwo(0x01, 0x00);
    FromEight(0, 0, 0, 0, 0, 1, 0, 0);
  }

  lemma FromLast(s: Bytes, x: byte)
    ensures FromBigEndian(s + [x]) == FromBigEndian(s) * 256 + x
  {
    assert (s + [x])[..|s|] == s;
  }

  lemma FromTwo(a: byte, b: byte)
    ensures FromBigEndian([a, b]) == a * 256 + b
  {
    FromLast([], a);
    FromLast([a], b);
    assert [] + [a] == [a] && [a] + [b] == [a, b];
  }

  lemma FromEight(a: byte, b: byte, c: byte, d: byte, e: byte, f: byte, g: byte, h: byte)
    requires a == b == c == d == e == 0
    ensures FromBigEndian([a, b, c, d, e, f, g, h]) == (f * 256 + g) * 256 + h
  {
    var zeros := [a, b, c, d, e];
    FromZeros(zeros);
    FromLast(zeros, f);
    FromLast(zeros + [f], g);
    FromLast(zeros + [f] + [g], h);
    assert zeros + [f] + [g] + [h] == [a, b, c, d, e, f, g, h];
  }

  lemma FromZeros(s: Bytes)
    requires forall i :: 0 <= i < |s| ==> s[i] == 0
    ensures FromBigEndian(s) == 0
  {
  }

  lemma {:induction false} FromOnes(s: Bytes)
    requires forall i :: 0 <= i < |s| ==> s[i] == 255
    ensures FromBigEndian(s) == Power256(|s|) - 1
    decreases |s|
  {
    if s != [] {
      FromOnes(s[..|s| - 1]);
    }
  }

  /** The greatest length there is makes the size wrap: with the header alone it is taken for
      whole. */
  lemma GreatestLengthWraps(rest: Bytes)
    ensures Decode([0x82, 0x7f] + seq(8, _ => 255) + rest) == TooLong(true, 2, false, 0xffff_ffff_ffff_ffff, [])
  {
    var ones: Bytes := seq(8, _ => 255);
    var b := [0x82, 0x7f] + ones + rest;
    assert b[2..10] == ones;
    FromOnes(ones);
    PowerOfEight();
  }

  lemma PowerOfEight()
    ensures Power256(8) == 0x1_0000_0000_0000_0000
  {
    assert Power256(4) == 0x1_0000_0000;
  }

  /** An error is exactly a header whose opcode is 3 to 7 or 11. */
  lemma ErrorIff(b: Bytes)
    ensures Decode(b).BadOpcode? <==> |b| >= 2 && b[0] % 16 in {3, 4, 5, 6, 7, 11}
  {
  }
}
