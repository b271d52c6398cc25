/** Byte layouts of the ratchet: little-endian integers, the header, the message and the AEAD input. */
module Codec {
  import opened Wrappers

  const INNER_SIZE: nat := 24
  const MIN_CIPHERTEXT: nat := 29

  // ---------------------------------------------------------------- little-endian integers

  function Pow256(width: nat): (r: nat)
    ensures r > 0
  {
    if width == 0 then 1 else 256 * Pow256(width - 1)
  }

  function ToLe(n: nat, width: nat): (b: Bytes)
    ensures |b| == width
  {
    if width == 0 then [] else [n % 256] + ToLe(n / 256, width - 1)
  }

  function FromLe(b: Bytes): (n: nat)
    ensures n < Pow256(|b|)
  {
    if b == [] then 0 else b[0] + 256 * FromLe(b[1..])
  }

  lemma {:induction false} FromToLe(n: nat, width: nat)
    requires n < Pow256(width)
    ensures FromLe(ToLe(n, width)) == n
  {
    if width > 0 {
      assert ToLe(n, width)[1..] == ToLe(n / 256, width - 1);
      FromToLe(n / 256, width - 1);
    }
  }

  lemma {:induction false} ToFromLe(b: Bytes)
    ensures ToLe(FromLe(b), |b|) == b
  {
    if b != [] {
      ToFromLe(b[1..]);
      assert FromLe(b) % 256 == b[0] && FromLe(b) / 256 == FromLe(b[1..]);
      assert b == [b[0]] + b[1..];
    }
  }

  lemma Pow256Words()
    ensures Pow256(2) == 65536 && Pow256(4) == U32 && Pow256(8) == U64
  {
    assert Pow256(4) == 256 * (256 * Pow256(2));
    assert Pow256(8) == 256 * (256 * Pow256(6)) && Pow256(6) == 256 * (256 * Pow256(4));
  }

  /** Digit `i` to base 256. */
  function Digit(n: nat, i: nat): nat
    decreases i
  {
    if i == 0 then n % 256 else Digit(n / 256, i - 1)
  }

  lemma {:induction false} LeDigit(n: nat, width: nat, i: nat)
    requires i < width
    ensures ToLe(n, width)[i] == Digit(n, i)
    decreases width
  {
    if i > 0 {
      LeDigit(n / 256, width - 1, i - 1);
    }
  }

  // ---------------------------------------------------------------- header

  /** The header fields as they travel; `dh` is the 32-byte encoding of a public key. */
  datatype RatchetHeader = RatchetHeader(dh: Bytes, number: nat, previous: nat, timestamp: nat)

  predicate Fits(h: RatchetHeader) {
    |h.dh| == 32 && h.number < U64 && h.previous < U64 && h.timestamp < U64
  }

  function EncodeHeader(h: RatchetHeader): Bytes {
    h.dh + ToLe(h.number, 8) + ToLe(h.previous, 8) + ToLe(h.timestamp, 8)
  }

  function DecodeHeader(data: Bytes): Result<RatchetHeader> {
    if |data| < HEADER_SIZE then Err(InvalidMessage)
    else Ok(RatchetHeader(data[0..32], FromLe(data[32..40]), FromLe(data[40..48]), FromLe(data[48..56])))
  }

  lemma HeaderRoundTrip(h: RatchetHeader)
    requires Fits(h)
    ensures |EncodeHeader(h)| == HEADER_SIZE && DecodeHeader(EncodeHeader(h)) == Ok(h)
  {
    Pow256Words();
    FromToLe(h.number, 8);
    FromToLe(h.previous, 8);
    FromToLe(h.timestamp, 8);
    FourParts(h.dh, ToLe(h.number, 8), ToLe(h.previous, 8), ToLe(h.timestamp, 8));
  }

  /** The byte at every offset: key, number, previous count and time stamp, each integer little-endian. */
  lemma HeaderLayout(h: RatchetHeader, i: nat)
    requires Fits(h) && i < 56
    ensures var b := EncodeHeader(h);
            && |b| == 56
            && b[i] == if i < 32 then h.dh[i]
                       else if i < 40 then Digit(h.number, i - 32)
                       else if i < 48 then Digit(h.previous, i - 40)
                       else Digit(h.timestamp, i - 48)
  {
    if 32 <= i < 40 {
      LeDigit(h.number, 8, i - 32);
    } else if 40 <= i < 48 {
      LeDigit(h.previous, 8, i - 40);
    } else if 48 <= i {
      LeDigit(h.timestamp, 8, i - 48);
    }
  }

  lemma FourParts(a: Bytes, b: Bytes, c: Bytes, d: Bytes)
    requires |a| == 32 && |b| == 8 && |c| == 8 && |d| == 8
    ensures var data := a + b + c + d;
            |data| == 56 && data[0..32] == a && data[32..40] == b && data[40..48] == c && data[48..56] == d
  {
  }

  /** Decoding loses nothing: it fails exactly on short input, and its result re-encodes to the bytes read. */
  lemma HeaderExact(data: Bytes)
    ensures DecodeHeader(data).Ok? <==> |data| >= HEADER_SIZE
    ensures DecodeHeader(data).Ok? ==>
              Fits(DecodeHeader(data).value) && EncodeHeader(DecodeHeader(data).value) == data[..HEADER_SIZE]
  {
    if |data| >= HEADER_SIZE {
      Pow256Words();
      ToFromLe(data[32..40]);
      ToFromLe(data[40..48]);
      ToFromLe(data[48..56]);
      assert data[..HEADER_SIZE] == data[0..32] + data[32..40] + data[40..48] + data[48..56];
    }
  }

  // ---------------------------------------------------------------- message

  datatype RatchetMessage = RatchetMessage(header: RatchetHeader, ciphertext: Bytes)

  function EncodeMessage(m: RatchetMessage): Bytes { EncodeHeader(m.header) + m.ciphertext }

  function DecodeMessage(data: Bytes): Result<RatchetMessage> {
    if |data| < HEADER_SIZE + MIN_CIPHERTEXT then Err(InvalidMessage)
    else
      match DecodeHeader(data[..HEADER_SIZE])
      case Err(error) => Err(error)
      case Ok(header) => Ok(RatchetMessage(header, data[HEADER_SIZE..]))
  }

  /** A message comes back from the wire if and only if its ciphertext reaches the minimum length. */
  lemma MessageRoundTrip(m: RatchetMessage)
    requires Fits(m.header)
    ensures DecodeMessage(EncodeMessage(m)) == Ok(m) <==> |m.ciphertext| >= MIN_CIPHERTEXT
  {
    HeaderRoundTrip(m.header);
    var data := EncodeMessage(m);
    assert data[..HEADER_SIZE] == EncodeHeader(m.header) && data[HEADER_SIZE..] == m.ciphertext;
  }

  lemma MessageExact(data: Bytes)
    ensures DecodeMessage(data).Ok? <==> |data| >= HEADER_SIZE + MIN_CIPHERTEXT
    ensures DecodeMessage(data).Ok? ==> EncodeMessage(DecodeMessage(data).value) == data
  {
    if |data| >= HEADER_SIZE + MIN_CIPHERTEXT {
      HeaderExact(data[..HEADER_SIZE]);
      assert data == data[..HEADER_SIZE] + data[HEADER_SIZE..];
      assert data[..HEADER_SIZE][..HEADER_SIZE] == data[..HEADER_SIZE];
    }
  }

  // ---------------------------------------------------------------- associated data

  /** The inner header `Encryptor` writes in front of the nonce. */
  function EncodeInner(number: nat, timestamp: nat, padding: nat): (b: Bytes)
    ensures |b| == INNER_SIZE
  {
    ToLe(number, 8) + ToLe(timestamp, 8) + ToLe(padding, 8)
  }

  lemma InnerRoundTrip(number: nat, timestamp: nat, padding: nat)
    requires number < U64 && timestamp < U64 && padding < U64
    ensures var b := EncodeInner(number, timestamp, padding);
            FromLe(b[0..8]) == number && FromLe(b[8..16]) == timestamp && FromLe(b[16..24]) == padding
  {
    var b := EncodeInner(number, timestamp, padding);
    Pow256Words();
    FromToLe(number, 8);
    FromToLe(timestamp, 8);
    FromToLe(padding, 8);
    assert b[0..8] == ToLe(number, 8) && b[8..16] == ToLe(timestamp, 8) && b[16..24] == ToLe(padding, 8);
  }

  /** What the AEAD authenticates for a ratchet message. */
  function BoundBytes(ad: Bytes, h: RatchetHeader, number: nat, timestamp: nat, padding: nat): Bytes {
    ad + EncodeHeader(h) + EncodeInner(number, timestamp, padding)
  }

  lemma Suffix(a: Bytes, b: Bytes, c: Bytes, d: Bytes)
    requires |b| == |d| && a + b == c + d
    ensures a == c && b == d
  {
    assert |a| == |c|;
    assert (a + b)[..|a|] == a && (c + d)[..|c|] == c && (a + b)[|a|..] == b && (c + d)[|c|..] == d;
  }

  /**
    Though its parts are concatenated without lengths, the authenticated string determines
    every one of them: associated data cannot be confused with header bytes.
    */
  lemma BoundInjective(ad: Bytes, h: RatchetHeader, n: nat, t: nat, p: nat,
                       ad': Bytes, h': RatchetHeader, n': nat, t': nat, p': nat)
    requires Fits(h) && n < U64 && t < U64 && p < U64
    requires Fits(h') && n' < U64 && t' < U64 && p' < U64
    ensures BoundBytes(ad, h, n, t, p) == BoundBytes(ad', h', n', t', p') <==>
              ad == ad' && h == h' && n == n' && t == t' && p == p'
  {
    if BoundBytes(ad, h, n, t, p) == BoundBytes(ad', h', n', t', p') {
      HeaderRoundTrip(h);
      HeaderRoundTrip(h');
      Suffix(ad + EncodeHeader(h), EncodeInner(n, t, p), ad' + EncodeHeader(h'), EncodeInner(n', t', p'));
      Suffix(ad, EncodeHeader(h), ad', EncodeHeader(h'));
      InnerRoundTrip(n, t, p);
      InnerRoundTrip(n', t', p');
    }
  }
}
