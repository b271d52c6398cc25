/** Serial framing: STX, a 2-byte length, the payload, its CRC-16, ETX. */
module Serial {
  import opened Wrappers

  /** A byte by its bits, least significant first. */
  datatype Octet = Octet(b0: bool, b1: bool, b2: bool, b3: bool, b4: bool, b5: bool, b6: bool, b7: bool)
  type Octets = seq<Octet>

  const STX := Octet(false, true, false, false, false, false, false, false)
  const ETX := Octet(true, true, false, false, false, false, false, false)

  datatype FrameError = TooShort | NoStx | NoEtx | IncompleteFrame | CrcMismatch
  datatype Parsed = Payload(payload: Octets) | Failed(error: FrameError)

  // ---------------------------------------------------------------- bytes as numbers

  function Digit(b: bool, weight: nat): nat { if b then weight else 0 }
  function Rest(n: nat, weight: nat): nat { if n >= weight then n - weight else n }

  /** The byte of a number below 256, digit by digit from the top. */
  function OctetOf(n: nat): Octet {
    var r7 := Rest(n, 128);
    var r6 := Rest(r7, 64);
    var r5 := Rest(r6, 32);
    var r4 := Rest(r5, 16);
    var r3 := Rest(r4, 8);
    var r2 := Rest(r3, 4);
    Octet(Rest(r2, 2) >= 1, r2 >= 2, r3 >= 4, r4 >= 8, r5 >= 16, r6 >= 32, r7 >= 64, n >= 128)
  }

  function ValueOf(o: Octet): nat {
    Digit(o.b0, 1) + Digit(o.b1, 2) + Digit(o.b2, 4) + Digit(o.b3, 8)
    + Digit(o.b4, 16) + Digit(o.b5, 32) + Digit(o.b6, 64) + Digit(o.b7, 128)
  }

  lemma OctetValue(n: nat)
    requires n < 256
    ensures ValueOf(OctetOf(n)) == n
  {
  }

  // ---------------------------------------------------------------- bytes as words

  function Flag(b: bool, mask: bv16): bv16 { if b then mask else 0 }

  function Widen(o: Octet): bv16 {
    Flag(o.b0, 1) | Flag(o.b1, 2) | Flag(o.b2, 4) | Flag(o.b3, 8)
    | Flag(o.b4, 16) | Flag(o.b5, 32) | Flag(o.b6, 64) | Flag(o.b7, 128)
  }

  /** The low eight bits of a word. */
  function Narrow(x: bv16): Octet {
    Octet(x & 1 != 0, x & 2 != 0, x & 4 != 0, x & 8 != 0, x & 16 != 0, x & 32 != 0, x & 64 != 0, x & 128 != 0)
  }

  lemma WidenBelow(o: Octet)
    ensures Widen(o) < 256
  {
  }

  lemma NarrowWiden(o: Octet)
    ensures Narrow(Widen(o)) == o
  {
  }

  lemma WidenNarrow(x: bv16)
    ensures Widen(Narrow(x)) == x & 0xFF
  {
  }

  lemma WidenInjective(o: Octet, p: Octet)
    requires Widen(o) == Widen(p)
    ensures o == p
  {
    NarrowWiden(o);
    NarrowWiden(p);
  }

  // ---------------------------------------------------------------- CRC-16

  const SHIFTS: nat := 8

  function Bit(x: bv16): bv16 { if x & 1 != 0 then (x >> 1) ^ 0xA001 else x >> 1 }

  function Bits(x: bv16, n: nat): bv16 { if n == 0 then x else Bit(Bits(x, n - 1)) }

  function Absorb(crc: bv16, m: bv16): bv16 { Bits(crc ^ m, SHIFTS) }

  function CrcFrom(crc: bv16, words: seq<bv16>): bv16
    decreases |words|
  {
    if words == [] then crc else CrcFrom(Absorb(crc, words[0]), words[1..])
  }

  function Words(data: Octets): seq<bv16> { seq(|data|, i requires 0 <= i < |data| => Widen(data[i])) }

  function Crc(data: Octets): bv16 { CrcFrom(0xFFFF, Words(data)) }

  lemma BitInjective(x: bv16, y: bv16)
    requires Bit(x) == Bit(y)
    ensures x == y
  {
  }

  /** Shifting loses nothing: each CRC step is a bijection on 16-bit words. */
  lemma {:induction false} BitsInjective(x: bv16, y: bv16, n: nat)
    requires Bits(x, n) == Bits(y, n)
    ensures x == y
  {
    if n > 0 {
      BitInjective(Bits(x, n - 1), Bits(y, n - 1));
      BitsInjective(x, y, n - 1);
    }
  }

  function Eight(x: bv16): bv16 { Bit(Bit(Bit(Bit(Bit(Bit(Bit(Bit(x)))))))) }

  lemma EightBits(x: bv16)
    ensures Bits(x, SHIFTS) == Eight(x)
  {
    assert Bits(x, 0) == x;
    assert Bits(x, 1) == Bit(x);
    assert Bits(x, 2) == Bit(Bits(x, 1));
    assert Bits(x, 3) == Bit(Bits(x, 2));
    assert Bits(x, 4) == Bit(Bits(x, 3));
    assert Bits(x, 5) == Bit(Bits(x, 4));
    assert Bits(x, 6) == Bit(Bits(x, 5));
    assert Bits(x, 7) == Bit(Bits(x, 6));
  }

  lemma EightSpreads(x: bv16, y: bv16)
    requires x ^ y < 256 && Eight(x) ^ Eight(y) < 256
    ensures x == y
  {
  }

  /** Two words that differ in their low byte only still differ in the high byte eight shifts later. */
  lemma LowDifferenceSpreads(x: bv16, y: bv16, u: bv16, v: bv16, k: nat)
    requires k == SHIFTS && u == Bits(x, k) && v == Bits(y, k)
    requires x ^ y < 256 && u ^ v < 256
    ensures x == y
  {
    EightBits(x);
    EightBits(y);
    EightSpreads(x, y);
  }

  lemma XorCancels(x: bv16, y: bv16, m: bv16)
    requires x ^ m == y ^ m
    ensures x == y
  {
  }

  lemma XorShift(x: bv16, y: bv16, m: bv16, n: bv16)
    requires x ^ m == y ^ n
    ensures x ^ y == m ^ n
  {
  }

  lemma LowXor(m: bv16, n: bv16)
    requires m < 256 && n < 256
    ensures m ^ n < 256
  {
  }

  /** States that have just absorbed a byte differ in the low byte only. */
  lemma LowState(s: bv16, m: bv16, n: bv16)
    requires m < 256 && n < 256
    ensures (s ^ m) ^ (s ^ n) < 256
  {
  }

  lemma SameByte(s: bv16, m: bv16, n: bv16)
    requires s ^ m == s ^ n
    ensures m == n
  {
  }

  lemma ShiftedInjective(s: bv16, t: bv16, m: bv16, n: nat)
    requires Bits(s ^ m, n) == Bits(t ^ m, n)
    ensures s == t
  {
    BitsInjective(s ^ m, t ^ m, n);
    XorCancels(s, t, m);
  }

  lemma AbsorbInjective(s: bv16, t: bv16, m: bv16)
    requires Absorb(s, m) == Absorb(t, m)
    ensures s == t
  {
    ShiftedInjective(s, t, m, SHIFTS);
  }

  /** `x` and `y` hold the first byte, `u` and `v` are the states after it, `m` and `n` the next bytes. */
  lemma ShiftedFirst(x: bv16, y: bv16, u: bv16, v: bv16, m: bv16, n: bv16, k: nat)
    requires k == SHIFTS && u == Bits(x, k) && v == Bits(y, k)
    requires x ^ y < 256 && m ^ n < 256 && u ^ m == v ^ n
    ensures x == y
  {
    XorShift(u, v, m, n);
    LowDifferenceSpreads(x, y, u, v, k);
  }

  lemma ShiftedSecond(u: bv16, v: bv16, m: bv16, n: bv16)
    requires u == v && u ^ m == v ^ n
    ensures m == n
  {
    SameByte(u, m, n);
  }

  lemma ShiftedPair(x: bv16, y: bv16, u: bv16, v: bv16, m: bv16, n: bv16, k: nat)
    requires k == SHIFTS && u == Bits(x, k) && v == Bits(y, k)
    requires x ^ y < 256 && m ^ n < 256 && Bits(u ^ m, k) == Bits(v ^ n, k)
    ensures x == y && m == n
  {
    BitsInjective(u ^ m, v ^ n, k);
    ShiftedFirst(x, y, u, v, m, n, k);
    ShiftedSecond(u, v, m, n);
  }

  lemma AbsorbedPair(s: bv16, b1: bv16, b2: bv16, c1: bv16, c2: bv16, u: bv16, v: bv16, k: nat)
    requires k == SHIFTS && b1 < 256 && b2 < 256 && c1 < 256 && c2 < 256
    requires u == Bits(s ^ b1, k) && v == Bits(s ^ c1, k) && Bits(u ^ b2, k) == Bits(v ^ c2, k)
    ensures s ^ b1 == s ^ c1 && b2 == c2
  {
    LowState(s, b1, c1);
    LowXor(b2, c2);
    ShiftedPair(s ^ b1, s ^ c1, u, v, b2, c2, k);
  }

  /** From one state, different pairs of bytes lead to different states. */
  lemma PairInjective(s: bv16, b1: bv16, b2: bv16, c1: bv16, c2: bv16)
    requires b1 < 256 && b2 < 256 && c1 < 256 && c2 < 256
    requires Absorb(Absorb(s, b1), b2) == Absorb(Absorb(s, c1), c2)
    ensures b1 == c1 && b2 == c2
  {
    AbsorbedPair(s, b1, b2, c1, c2, Absorb(s, b1), Absorb(s, c1), SHIFTS);
    SameByte(s, b1, c1);
  }

  /** A common tail keeps different states apart. */
  lemma {:induction false} TailInjective(s: bv16, t: bv16, tail: seq<bv16>)
    requires CrcFrom(s, tail) == CrcFrom(t, tail)
    ensures s == t
    decreases |tail|
  {
    if tail != [] {
      TailInjective(Absorb(s, tail[0]), Absorb(t, tail[0]), tail[1..]);
      AbsorbInjective(s, t, tail[0]);
    }
  }

  lemma {:induction false} CrcSplits(s: bv16, a: seq<bv16>, b: seq<bv16>)
    ensures CrcFrom(s, a + b) == CrcFrom(CrcFrom(s, a), b)
    decreases |a|
  {
    if a == [] {
      assert a + b == b;
    } else {
      assert (a + b)[1..] == a[1..] + b;
      CrcSplits(Absorb(s, a[0]), a[1..], b);
    }
  }

  lemma PairCrc(s: bv16, b1: bv16, b2: bv16)
    ensures CrcFrom(s, [b1, b2]) == Absorb(Absorb(s, b1), b2)
  {
    assert [b1, b2][1..] == [b2] && [b2][1..] == [];
    assert CrcFrom(Absorb(s, b1), [b2]) == CrcFrom(Absorb(Absorb(s, b1), b2), []);
  }

  /** A change confined to two adjacent bytes always changes the CRC, at any place in any payload. */
  lemma PairDetected(s: bv16, head: seq<bv16>, b1: bv16, b2: bv16, c1: bv16, c2: bv16, tail: seq<bv16>)
    requires b1 < 256 && b2 < 256 && c1 < 256 && c2 < 256 && (b1 != c1 || b2 != c2)
    ensures CrcFrom(s, head + [b1, b2] + tail) != CrcFrom(s, head + [c1, c2] + tail)
  {
    CrcSplits(s, head + [b1, b2], tail);
    CrcSplits(s, head, [b1, b2]);
    CrcSplits(s, head + [c1, c2], tail);
    CrcSplits(s, head, [c1, c2]);
    var t := CrcFrom(s, head);
    PairCrc(t, b1, b2);
    PairCrc(t, c1, c2);
    if CrcFrom(s, head + [b1, b2] + tail) == CrcFrom(s, head + [c1, c2] + tail) {
      TailInjective(CrcFrom(t, [b1, b2]), CrcFrom(t, [c1, c2]), tail);
      PairInjective(t, b1, b2, c1, c2);
    }
  }

  /** So does a change of the last byte alone. */
  lemma LastDetected(s: bv16, head: seq<bv16>, b: bv16, c: bv16)
    requires b < 256 && c < 256 && b != c
    ensures CrcFrom(s, head + [b]) != CrcFrom(s, head + [c])
  {
    CrcSplits(s, head, [b]);
    CrcSplits(s, head, [c]);
    var t := CrcFrom(s, head);
    assert CrcFrom(t, [b]) == Absorb(t, b) && CrcFrom(t, [c]) == Absorb(t, c);
    if Absorb(t, b) == Absorb(t, c) {
      PairInjective(t, b, 0, c, 0);
    }
  }

  // ---------------------------------------------------------------- a known value

  lemma AbsorbIs(crc: bv16, m: bv16)
    ensures Absorb(crc, m) == Eight(crc ^ m)
  {
    EightBits(crc ^ m);
  }

  lemma CrcStep(crc: bv16, words: seq<bv16>, next: bv16)
    requires words != [] && Eight(crc ^ words[0]) == next
    ensures CrcFrom(crc, words) == CrcFrom(next, words[1..])
  {
    AbsorbIs(crc, words[0]);
  }

  /** The digits 1 to 9 as ASCII. */
  const DIGITS: seq<bv16> := [0x31, 0x32, 0x33, 0x34, 0x35, 0x36, 0x37, 0x38, 0x39]

  /** The check value of CRC-16/MODBUS. */
  lemma CrcCheckValue()
    ensures CrcFrom(0xFFFF, DIGITS) == 0x4B37
  {
    CrcStep(0xFFFF, DIGITS[0..], 0x947E);
    CrcStep(0x947E, DIGITS[1..], 0xF595);
    CrcStep(0xF595, DIGITS[2..], 0x7A75);
    CrcStep(0x7A75, DIGITS[3..], 0x30BA);
    CrcStep(0x30BA, DIGITS[4..], 0xA471);
    CrcStep(0xA471, DIGITS[5..], 0x32E4);
    CrcStep(0x32E4, DIGITS[6..], 0x9D73);
    CrcStep(0x9D73, DIGITS[7..], 0x37DD);
    CrcStep(0x37DD, DIGITS[8..], 0x4B37);
    assert DIGITS[0..] == DIGITS && DIGITS[9..] == [];
  }

  // ---------------------------------------------------------------- frames

  function High(x: bv16): Octet { Narrow(x >> 8) }
  function Low(x: bv16): Octet { Narrow(x) }
  function Word(h: Octet, l: Octet): bv16 { (Widen(h) << 8) | Widen(l) }

  lemma WordBytes(x: bv16)
    ensures (((x >> 8) & 0xFF) << 8) | (x & 0xFF) == x
  {
  }

  lemma WordRoundTrip(x: bv16)
    ensures Word(High(x), Low(x)) == x
  {
    WidenNarrow(x >> 8);
    WidenNarrow(x);
    WordBytes(x);
  }

  /** The length, cut to 16 bits, high byte first. */
  function LengthField(n: nat): Octets { [OctetOf(n % 65536 / 256), OctetOf(n % 256)] }

  function ReadLength(h: Octet, l: Octet): nat { ValueOf(h) * 256 + ValueOf(l) }

  lemma SplitLength(n: nat)
    ensures n % 65536 / 256 < 256 && n % 65536 / 256 * 256 + n % 256 == n % 65536
  {
  }

  lemma LengthRoundTrip(n: nat)
    ensures ReadLength(LengthField(n)[0], LengthField(n)[1]) == n % 65536
  {
    SplitLength(n);
    OctetValue(n % 65536 / 256);
    OctetValue(n % 256);
  }

  lemma FittingLength(n: nat)
    requires n <= 65535
    ensures ReadLength(LengthField(n)[0], LengthField(n)[1]) == n
  {
    LengthRoundTrip(n);
  }

  /** A frame with this length field, payload and CRC. */
  function Assemble(field: Octets, carried: Octets, crc: bv16): Octets {
    [STX] + field + carried + [High(crc), Low(crc), ETX]
  }

  function Frame(payload: Octets): Octets { Assemble(LengthField(|payload|), payload, Crc(payload)) }

  /** The payload of `length` bytes, if the CRC that follows it is `crc`. */
  function Accept(data: Octets, length: nat, crc: bv16): Parsed
    requires |data| >= length + 6
  {
    if Word(data[3 + length], data[3 + length + 1]) != crc then Failed(CrcMismatch) else Payload(data[3..3 + length])
  }

  function Parse(data: Octets): Parsed {
    if |data| < 6 then Failed(TooShort)
    else if data[0] != STX then Failed(NoStx)
    else if data[|data| - 1] != ETX then Failed(NoEtx)
    else
      var length := ReadLength(data[1], data[2]);
      if |data| < 3 + length + 3 then Failed(IncompleteFrame)
      else Accept(data, length, Crc(data[3..3 + length]))
  }

  lemma ValueInjective(o: Octet, p: Octet)
    requires ValueOf(o) == ValueOf(p)
    ensures o == p
  {
  }

  lemma AcceptExactly(data: Octets, length: nat, crc: bv16)
    requires |data| >= length + 6
    ensures Accept(data, length, crc).Payload? <==> Word(data[3 + length], data[4 + length]) == crc
    ensures Accept(data, length, crc).Payload? ==> Accept(data, length, crc).payload == data[3..3 + length]
  {
  }

  /** 0x02 first, 0x03 last, and room for the length announced high byte first. */
  predicate Delimited(data: Octets) {
    && |data| >= 6 && ValueOf(data[0]) == 0x02 && ValueOf(data[|data| - 1]) == 0x03
    && |data| >= 256 * ValueOf(data[1]) + ValueOf(data[2]) + 6
  }

  lemma ParseDelimited(data: Octets)
    ensures !Delimited(data) ==> Parse(data).Failed?
    ensures Delimited(data) ==>
              var length := 256 * ValueOf(data[1]) + ValueOf(data[2]); Parse(data) == Accept(data, length, Crc(data[3..3 + length]))
  {
    if |data| >= 6 {
      MarkersExactly(data[0], data[|data| - 1]);
    }
  }

  /**
    Which frames are accepted: delimited ones whose payload, of the announced length, is
    followed by its CRC started at 0xFFFF; and the payload is what they carry.
    */
  lemma ParseExactly(data: Octets)
    ensures Parse(data).Payload? <==>
              && Delimited(data)
              && var length := 256 * ValueOf(data[1]) + ValueOf(data[2]);
                 Word(data[3 + length], data[4 + length]) == CrcFrom(0xFFFF, Words(data[3..3 + length]))
    ensures Parse(data).Payload? ==> Parse(data).payload == data[3..3 + (256 * ValueOf(data[1]) + ValueOf(data[2]))]
  {
    ParseDelimited(data);
    if Delimited(data) {
      var length := 256 * ValueOf(data[1]) + ValueOf(data[2]);
      AcceptExactly(data, length, Crc(data[3..3 + length]));
    }
  }

  lemma MarkersExactly(first: Octet, last: Octet)
    ensures first == STX <==> ValueOf(first) == 0x02
    ensures last == ETX <==> ValueOf(last) == 0x03
  {
    assert ValueOf(STX) == 2 && ValueOf(ETX) == 3;
    if ValueOf(first) == 2 {
      ValueInjective(first, STX);
    }
    if ValueOf(last) == 3 {
      ValueInjective(last, ETX);
    }
  }

  lemma WordParts(h: bv16, l: bv16, x: bv16)
    requires h < 256 && l < 256 && (h << 8) | l == x
    ensures (x >> 8) & 0xFF == h && x & 0xFF == l
  {
  }

  lemma ByteOf(o: Octet, y: bv16)
    requires Widen(o) == y & 0xFF
    ensures o == Narrow(y)
  {
    WidenNarrow(y);
    WidenInjective(o, Narrow(y));
  }

  lemma BytesOfWord(h: Octet, l: Octet, x: bv16, wh: bv16, wl: bv16)
    requires wh == Widen(h) && wl == Widen(l) && (wh << 8) | wl == x
    ensures h == High(x) && l == Low(x)
  {
    WidenBelow(h);
    WidenBelow(l);
    WordParts(wh, wl, x);
    ByteOf(h, x >> 8);
    ByteOf(l, x);
  }

  /** Two bytes make a word exactly when they are its high and its low byte. */
  lemma WordExactly(h: Octet, l: Octet, x: bv16)
    ensures Word(h, l) == x <==> h == High(x) && l == Low(x)
  {
    if Word(h, l) == x {
      BytesOfWord(h, l, x, Widen(h), Widen(l));
    } else {
      WordRoundTrip(x);
    }
  }

  lemma AssembledParts(field: Octets, carried: Octets, crc: bv16)
    requires |field| == 2
    ensures var data, n := Assemble(field, carried, crc), |carried|;
            && |data| == n + 6 && data[0] == STX && data[n + 5] == ETX
            && data[1] == field[0] && data[2] == field[1]
            && data[3..3 + n] == carried && data[3 + n] == High(crc) && data[3 + n + 1] == Low(crc)
  {
  }

  lemma ParseFields(data: Octets, carried: Octets, crc: bv16)
    requires |data| == |carried| + 6 && data[0] == STX && data[|carried| + 5] == ETX
    requires ReadLength(data[1], data[2]) == |carried| && data[3..3 + |carried|] == carried
    requires Word(data[3 + |carried|], data[3 + |carried| + 1]) == crc
    ensures Parse(data) == if crc == Crc(carried) then Payload(carried) else Failed(CrcMismatch)
  {
  }

  /** A frame of true length parses exactly when its CRC is that of what it carries. */
  lemma ParseAssembled(field: Octets, carried: Octets, crc: bv16)
    requires |field| == 2 && ReadLength(field[0], field[1]) == |carried|
    ensures Parse(Assemble(field, carried, crc)) == if crc == Crc(carried) then Payload(carried) else Failed(CrcMismatch)
  {
    AssembledParts(field, carried, crc);
    WordRoundTrip(crc);
    ParseFields(Assemble(field, carried, crc), carried, crc);
  }

  /** What parses has the length the field announces. */
  lemma ParsedLength(field: Octets, carried: Octets, crc: bv16)
    requires |field| == 2 && Parse(Assemble(field, carried, crc)).Payload?
    ensures |Parse(Assemble(field, carried, crc)).payload| == ReadLength(field[0], field[1])
  {
    AssembledParts(field, carried, crc);
  }

  lemma FittingRoundTrip(payload: Octets)
    requires |payload| <= 65535
    ensures Parse(Frame(payload)) == Payload(payload)
  {
    FittingLength(|payload|);
    ParseAssembled(LengthField(|payload|), payload, Crc(payload));
  }

  lemma MisannouncedLost(field: Octets, payload: Octets, crc: bv16)
    requires |field| == 2 && ReadLength(field[0], field[1]) != |payload|
    ensures Parse(Assemble(field, payload, crc)) != Payload(payload)
  {
    if Parse(Assemble(field, payload, crc)).Payload? {
      ParsedLength(field, payload, crc);
    }
  }

  lemma OverlongLost(payload: Octets)
    requires |payload| > 65535
    ensures Parse(Frame(payload)) != Payload(payload)
  {
    LengthRoundTrip(|payload|);
    MisannouncedLost(LengthField(|payload|), payload, Crc(payload));
  }

  /** A payload comes back from its frame if and only if its length fits the field. */
  lemma RoundTripExactly(payload: Octets)
    ensures Parse(Frame(payload)) == Payload(payload) <==> |payload| <= 65535
  {
    if |payload| <= 65535 {
      FittingRoundTrip(payload);
    } else {
      OverlongLost(payload);
    }
  }

  /** Two payloads of one length that differ in one place, or in two adjacent places. */
  ghost predicate NearMiss(p: Octets, q: Octets) { |p| == |q| && p != q && exists i: nat :: SameBut(p, q, i) }

  predicate SameBut(p: Octets, q: Octets, i: nat)
    requires |p| == |q|
  {
    i < |p| && forall j :: 0 <= j < |p| && j != i && j != i + 1 ==> p[j] == q[j]
  }

  lemma WordsDiffer(p: Octets, q: Octets, i: nat)
    requires |p| == |q| && i < |p|
    ensures Words(p)[i] < 256 && Words(q)[i] < 256 && (Words(p)[i] == Words(q)[i] <==> p[i] == q[i])
  {
    WidenBelow(p[i]);
    WidenBelow(q[i]);
    if Words(p)[i] == Words(q)[i] {
      WidenInjective(p[i], q[i]);
    }
  }

  lemma WordsAround(p: Octets, q: Octets, i: nat)
    requires |p| == |q| && i + 1 < |p| && SameBut(p, q, i)
    ensures var a, b := Words(p), Words(q);
            && a == a[..i] + [a[i], a[i + 1]] + a[i + 2..]
            && b == a[..i] + [b[i], b[i + 1]] + a[i + 2..]
  {
  }

  lemma PairMiss(p: Octets, q: Octets, i: nat)
    requires |p| == |q| && p != q && i + 1 < |p| && SameBut(p, q, i)
    ensures Crc(p) != Crc(q)
  {
    var a, b := Words(p), Words(q);
    WordsDiffer(p, q, i);
    WordsDiffer(p, q, i + 1);
    assert p[i] != q[i] || p[i + 1] != q[i + 1];
    WordsAround(p, q, i);
    PairDetected(0xFFFF, a[..i], a[i], a[i + 1], b[i], b[i + 1], a[i + 2..]);
  }

  lemma LastMiss(p: Octets, q: Octets, i: nat)
    requires |p| == |q| && p != q && i + 1 == |p| && SameBut(p, q, i)
    ensures Crc(p) != Crc(q)
  {
    var a, b := Words(p), Words(q);
    WordsDiffer(p, q, i);
    assert p[i] != q[i];
    assert a == a[..i] + [a[i]] && b == a[..i] + [b[i]];
    LastDetected(0xFFFF, a[..i], a[i], b[i]);
  }

  lemma NearMissDetected(p: Octets, q: Octets)
    requires NearMiss(p, q)
    ensures Crc(p) != Crc(q)
  {
    var i: nat :| SameBut(p, q, i);
    if i + 1 < |p| {
      PairMiss(p, q, i);
    } else {
      LastMiss(p, q, i);
    }
  }

  lemma Replaced(field: Octets, p: Octets, q: Octets, crc: bv16)
    requires |field| == 2
    ensures var data := Assemble(field, p, crc);
            |data| == |p| + 6 && data[..3] + q + data[3 + |p|..] == Assemble(field, q, crc)
  {
    var data := Assemble(field, p, crc);
    assert data[..3] == [STX] + field && data[3 + |p|..] == [High(crc), Low(crc), ETX];
  }

  lemma CorruptionWith(field: Octets, p: Octets, q: Octets)
    requires |field| == 2 && ReadLength(field[0], field[1]) == |p| && NearMiss(p, q)
    ensures var data := Assemble(field, p, Crc(p));
            |data| == |p| + 6 && Parse(data[..3] + q + data[3 + |p|..]) == Failed(CrcMismatch)
  {
    Replaced(field, p, q, Crc(p));
    NearMissDetected(p, q);
    ParseAssembled(field, q, Crc(p));
  }

  /** Changing one byte or two adjacent bytes of the payload of any frame makes parsing fail. */
  lemma CorruptionDetected(p: Octets, q: Octets)
    requires |p| <= 65535 && NearMiss(p, q)
    ensures var data := Frame(p);
            |data| == |p| + 6 && Parse(data[..3] + q + data[3 + |p|..]) == Failed(CrcMismatch)
  {
    FittingLength(|p|);
    CorruptionWith(LengthField(|p|), p, q);
  }

  // ---------------------------------------------------------------- the loops

  method Crc16(data: Octets) returns (crc: bv16)
    ensures crc == Crc(data)
  {
    crc := 0xFFFF;
    for i := 0 to |data|
      invariant CrcFrom(crc, Words(data)[i..]) == Crc(data)
    {
      ghost var was := crc;
      crc := crc ^ Widen(data[i]);
      ghost var start := crc;
      for k := 0 to SHIFTS
        invariant crc == Bits(start, k)
      {
        if crc & 1 != 0 {
          crc := (crc >> 1) ^ 0xA001;
        } else {
          crc := crc >> 1;
        }
      }
      assert crc == Absorb(was, Words(data)[i]);
      assert Words(data)[i..][1..] == Words(data)[i + 1..];
    }
  }

  method FrameSerial(payload: Octets) returns (frame: Octets)
    ensures frame == Frame(payload)
    ensures |payload| <= 65535 ==> Parse(frame) == Payload(payload)
  {
    var crc := Crc16(payload);
    frame := [STX];
    frame := frame + LengthField(|payload|);
    frame := frame + payload;
    frame := frame + [High(crc)];
    frame := frame + [Low(crc)];
    frame := frame + [ETX];
    assert frame == Assemble(LengthField(|payload|), payload, crc);
    RoundTripExactly(payload);
  }

  method ParseSerialFrame(data: Octets) returns (r: Parsed)
    ensures r == Parse(data)
  {
    if |data| < 6 {
      return Failed(TooShort);
    }
    if data[0] != STX {
      return Failed(NoStx);
    }
    if data[|data| - 1] != ETX {
      return Failed(NoEtx);
    }
    var length := ReadLength(data[1], data[2]);
    if |data| < 3 + length + 3 {
      return Failed(IncompleteFrame);
    }
    var expected := Crc16(data[3..3 + length]);
    r := Accept(data, length, expected);
  }
}
