/**
 * The 5-byte instruction record shared by the assembler and the
 * interpreter.  Bytes 0..3 hold the little-endian 32-bit word
 * `(A << 29) | B`, with the 3-bit opcode `A` in bits 29..31 and the 24-bit
 * argument `B` in bits 0..23; byte 4 is the fifth byte of the same
 * computation and is therefore always 0.
 *
 * The source computes on unbounded Python integers.  For those, `x & 0x7`
 * is `x % 8` and `x & 0xFFFFFF` is `x % 0x100_0000` (Euclidean remainders,
 * negative operands included), `x >> k` is `x / 2^k` and `x << k` is
 * `x * 2^k`; `(A << 29) | B` is `A * 2^29 + B` because `B < 2^24` leaves
 * the low 29 bits of `A << 29` untouched (lemma `OrIsAdd`).
 */
module Format {

  type Byte = b: int | 0 <= b < 256

  /** `(opcode, argument)` as decoded from one record. */
  datatype Instr = Instr(opcode: nat, arg: nat)


  /** `A & 0x7`. */
  function MaskOpcode(a: int): (r: nat)
    ensures r < 8
    ensures (a - r) % 8 == 0
  {
    a % 8
  }

  /** `B & 0xFFFFFF`. */
  function MaskArg(b: int): (r: nat)
    ensures r < 0x100_0000
    ensures (b - r) % 0x100_0000 == 0
  {
    b % 0x100_0000
  }

  /** `command = (A << 29) | B` over the masked fields. */
  function Command(a: int, b: int): (c: nat)
    ensures c < 0x1_0000_0000
  {
    MaskOpcode(a) * 0x2000_0000 + MaskArg(b)
  }

  /** `[(command >> (8 * i)) & 0xFF for i in range(5)]`. */
  function Encode(a: int, b: int): (bytes: seq<Byte>)
    ensures |bytes| == 5
  {
    var c := Command(a, b);
    [c % 0x100, (c / 0x100) % 0x100, (c / 0x1_0000) % 0x100,
     (c / 0x100_0000) % 0x100, (c / 0x1_0000_0000) % 0x100]
  }

  /** `struct.unpack("<I", chunk[:4])[0]`. */
  function Word(chunk: seq<Byte>): (w: nat)
    requires |chunk| >= 4
    ensures w < 0x1_0000_0000
  {
    chunk[0] as int + 0x100 * chunk[1] as int + 0x1_0000 * chunk[2] as int
      + 0x100_0000 * chunk[3] as int
  }

  /** `(command >> 29) & 0x7`. */
  function Opcode(w: nat): (op: nat)
    ensures op < 8
  {
    (w / 0x2000_0000) % 8
  }

  /** `command & 0xFFFFFF`. */
  function Arg(w: nat): (arg: nat)
    ensures arg < 0x100_0000
  {
    w % 0x100_0000
  }

  /** One record decoded the way the interpreter does: only bytes 0..3 are
      read. */
  function DecodeChunk(chunk: seq<Byte>): (instr: Instr)
    requires |chunk| >= 4
    ensures instr.opcode < 8 && instr.arg < 0x100_0000
  {
    var w := Word(chunk);
    Instr(Opcode(w), Arg(w))
  }

  // Bit-level justification of modelling `|` as `+` in `Command`.
  lemma OrIsAdd(x: bv32, y: bv32)
    requires x < 8 && y < 0x100_0000
    ensures ((x << 29) | y) as int == (x as int) * 0x2000_0000 + y as int
  {
  }

  lemma CommandFields(a: int, b: int)
    ensures Command(a, b) / 0x2000_0000 == MaskOpcode(a)
    ensures Command(a, b) % 0x2000_0000 == MaskArg(b)
  {
  }

  /** Bits 24..28 of every command are 0. */
  lemma CommandUnusedBits(a: int, b: int)
    ensures (Command(a, b) / 0x100_0000) % 32 == 0
  {
    var c := Command(a, b);
    var x, y := MaskOpcode(a), MaskArg(b);
    assert c / 0x100_0000 == 32 * x;
  }

  lemma Byte0(c: int, x: nat, y: nat)
    requires x < 8 && y < 0x100_0000 && c == x * 0x2000_0000 + y
    ensures c % 0x100 == y % 0x100
  {
  }

  lemma Byte1(c: int, x: nat, y: nat)
    requires x < 8 && y < 0x100_0000 && c == x * 0x2000_0000 + y
    ensures (c / 0x100) % 0x100 == (y / 0x100) % 0x100
  {
    assert c / 0x100 == x * 0x20_0000 + y / 0x100;
  }

  lemma Byte2(c: int, x: nat, y: nat)
    requires x < 8 && y < 0x100_0000 && c == x * 0x2000_0000 + y
    ensures (c / 0x1_0000) % 0x100 == y / 0x1_0000
  {
  }

  lemma Byte3(c: int, x: nat, y: nat)
    requires x < 8 && y < 0x100_0000 && c == x * 0x2000_0000 + y
    ensures (c / 0x100_0000) % 0x100 == 32 * x && (c / 0x1_0000_0000) % 0x100 == 0
  {
  }

  /** The five bytes of a record, written in terms of the masked fields. */
  lemma EncodeBytes(a: int, b: int)
    ensures var x, y := MaskOpcode(a), MaskArg(b);
      Encode(a, b) == [y % 0x100, (y / 0x100) % 0x100, y / 0x1_0000, 32 * x, 0]
  {
    var c, x, y := Command(a, b), MaskOpcode(a), MaskArg(b);
    Byte0(c, x, y);
    Byte1(c, x, y);
    Byte2(c, x, y);
    Byte3(c, x, y);
  }

  /** The fifth byte of every record is 0. */
  lemma PaddingIsZero(a: int, b: int)
    ensures Encode(a, b)[4] == 0
  {
    EncodeBytes(a, b);
  }

  lemma WordOfFields(x: nat, y: nat)
    requires x < 8 && y < 0x100_0000
    ensures var chunk: seq<Byte> := [y % 0x100, (y / 0x100) % 0x100, y / 0x1_0000, 32 * x, 0];
      Word(chunk) == x * 0x2000_0000 + y
  {
    assert y == y % 0x100 + 0x100 * ((y / 0x100) % 0x100) + 0x1_0000 * (y / 0x1_0000);
  }

  lemma FieldsOfWord(x: nat, y: nat)
    requires x < 8 && y < 0x100_0000
    ensures Opcode(x * 0x2000_0000 + y) == x && Arg(x * 0x2000_0000 + y) == y
  {
  }

  /** Decoding a record gives back the masked fields: the round trip for
      in-range fields, truncation for the rest. */
  lemma DecodeEncode(a: int, b: int)
    ensures DecodeChunk(Encode(a, b)) == Instr(MaskOpcode(a), MaskArg(b))
  {
    EncodeBytes(a, b);
    var x, y := MaskOpcode(a), MaskArg(b);
    WordOfFields(x, y);
    FieldsOfWord(x, y);
  }

  /** Encoding sees only the masked fields. */
  lemma EncodeMasked(a: int, b: int)
    ensures Encode(a, b) == Encode(MaskOpcode(a), MaskArg(b))
  {
    assert MaskOpcode(MaskOpcode(a)) == MaskOpcode(a) && MaskArg(MaskArg(b)) == MaskArg(b);
    assert Command(a, b) == Command(MaskOpcode(a), MaskArg(b));
  }

  /** For `0 <= a <= 7` and `0 <= b <= 0xFFFFFF` decoding inverts encoding. */
  lemma RoundTrip(a: int, b: int)
    requires 0 <= a < 8 && 0 <= b < 0x100_0000
    ensures DecodeChunk(Encode(a, b)) == Instr(a, b)
  {
    var x, y := MaskOpcode(a), MaskArg(b);
    assert x == a && y == b;
    DecodeEncode(a, b);
  }

  /** Two field pairs encode alike exactly when they agree after masking;
      `A=9` therefore encodes like `A=1`. */
  lemma EncodeEqualIff(a: int, b: int, a': int, b': int)
    ensures Encode(a, b) == Encode(a', b') <==>
      MaskOpcode(a) == MaskOpcode(a') && MaskArg(b) == MaskArg(b')
  {
    DecodeEncode(a, b);
    DecodeEncode(a', b');
    EncodeBytes(a, b);
    EncodeBytes(a', b');
  }

  lemma LowBytes(b0: Byte, b1: Byte, b2: Byte)
    ensures var y := b0 as int + 0x100 * b1 as int + 0x1_0000 * b2 as int;
      y < 0x100_0000 && y % 0x100 == b0 && (y / 0x100) % 0x100 == b1 && y / 0x1_0000 == b2
  {
  }

  lemma WordFields(chunk: seq<Byte>)
    requires |chunk| >= 4 && chunk[3] % 32 == 0
    ensures var y := chunk[0] as int + 0x100 * chunk[1] as int + 0x1_0000 * chunk[2] as int;
      Opcode(Word(chunk)) == chunk[3] / 32 && Arg(Word(chunk)) == y
  {
    var y := chunk[0] as int + 0x100 * chunk[1] as int + 0x1_0000 * chunk[2] as int;
    LowBytes(chunk[0], chunk[1], chunk[2]);
    assert Word(chunk) == (chunk[3] / 32) * 0x2000_0000 + y;
  }

  /** A record whose padding byte is 0 and whose bits 24..28 are 0 is the
      encoding of the fields decoded from it: decode then encode is the
      identity on well-formed records. */
  lemma EncodeDecode(chunk: seq<Byte>)
    requires |chunk| == 5 && chunk[4] == 0 && chunk[3] % 32 == 0
    ensures var i := DecodeChunk(chunk); Encode(i.opcode, i.arg) == chunk
  {
    var x, y := chunk[3] / 32, chunk[0] as int + 0x100 * chunk[1] as int + 0x1_0000 * chunk[2] as int;
    WordFields(chunk);
    LowBytes(chunk[0], chunk[1], chunk[2]);
    assert x < 8 && 32 * x == chunk[3];
    assert MaskOpcode(x) == x && MaskArg(y) == y;
    EncodeBytes(x, y);
    assert chunk == [chunk[0], chunk[1], chunk[2], chunk[3], chunk[4]];
  }

  /** The instructions of a byte stream, one per complete 5-byte record,
      in stream order; a trailing piece shorter than a record is not an
      instruction. */
  function DecodeProgram(data: seq<Byte>): (prog: seq<Instr>)
    ensures |prog| == |data| / 5
    decreases |data|
  {
    if |data| < 5 then []
    else [DecodeChunk(data[..5])] + DecodeProgram(data[5..])
  }

  /** Instruction `k` is decoded from bytes `5k .. 5k + 4`. */
  lemma {:induction false} DecodeProgramAt(data: seq<Byte>, k: nat)
    requires k < |data| / 5
    ensures 5 * k + 5 <= |data|
    ensures DecodeProgram(data)[k] == DecodeChunk(data[5 * k..5 * k + 5])
    decreases k
  {
    if k > 0 {
      DecodeProgramAt(data[5..], k - 1);
      assert data[5..][5 * (k - 1)..5 * (k - 1) + 5] == data[5 * k..5 * k + 5];
    }
  }

  /** A stream of whole records followed by more bytes decodes to the
      records' instructions followed by those of the rest. */
  lemma {:induction false} DecodeProgramAppend(front: seq<Byte>, back: seq<Byte>)
    requires |front| % 5 == 0
    ensures DecodeProgram(front + back) == DecodeProgram(front) + DecodeProgram(back)
    decreases |front|
  {
    if |front| > 0 {
      assert |front| >= 5;
      assert (front + back)[..5] == front[..5];
      assert (front + back)[5..] == front[5..] + back;
      DecodeProgramAppend(front[5..], back);
      var head := DecodeChunk(front[..5]);
      assert DecodeProgram(front + back) == [head] + DecodeProgram(front[5..] + back);
      assert DecodeProgram(front) == [head] + DecodeProgram(front[5..]);
    } else {
      assert front + back == back;
    }
  }

  /** Streams that agree on bytes 0..3 of every complete record. */
  ghost predicate SameFields(data: seq<Byte>, other: seq<Byte>) {
    |data| / 5 == |other| / 5 &&
    forall i :: 0 <= i < 5 * (|data| / 5) && i % 5 != 4 ==> data[i] == other[i]
  }

  lemma SameRecordFields(data: seq<Byte>, other: seq<Byte>, k: nat)
    requires SameFields(data, other) && k < |data| / 5
    ensures DecodeChunk(data[5 * k..5 * k + 5]) == DecodeChunk(other[5 * k..5 * k + 5])
  {
    var c, d := data[5 * k..5 * k + 5], other[5 * k..5 * k + 5];
    assert (5 * k + 1) % 5 == 1 && (5 * k + 2) % 5 == 2 && (5 * k + 3) % 5 == 3;
    assert c[0] == data[5 * k] == other[5 * k] == d[0];
    assert c[1] == data[5 * k + 1] == other[5 * k + 1] == d[1];
    assert c[2] == data[5 * k + 2] == other[5 * k + 2] == d[2];
    assert c[3] == data[5 * k + 3] == other[5 * k + 3] == d[3];
  }

  /** The decoder never looks at a padding byte nor at a trailing piece
      shorter than a record: streams that agree on bytes 0..3 of every
      complete record decode alike. */
  lemma DecodeIgnoresPadding(data: seq<Byte>, other: seq<Byte>)
    requires SameFields(data, other)
    ensures DecodeProgram(data) == DecodeProgram(other)
  {
    forall k | 0 <= k < |data| / 5 ensures DecodeProgram(data)[k] == DecodeProgram(other)[k] {
      DecodeProgramAt(data, k);
      DecodeProgramAt(other, k);
      SameRecordFields(data, other, k);
    }
  }
}
