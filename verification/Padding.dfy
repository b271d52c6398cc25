/** Length-hiding padding. The random draws of one call are an argument. */
module Padding {
  import opened Wrappers

  const MAX_PADDING: nat := 65535
  const MAX_EXTRA_BLOCKS: nat := 7
  const MIN_OVERHEAD: nat := 4

  datatype Mode = Unpadded | Small | Standard | Large | Maximum | Quantum | Custom(size: nat)

  function BlockSize(mode: Mode): nat {
    match mode
    case Unpadded => 1
    case Small => 256
    case Standard => 1024
    case Large => 4096
    case Maximum => 16384
    case Quantum => 65536
    case Custom(n) => n
  }

  /** Two 32-bit draws for the lengths and two streams of random bytes. */
  datatype Draw = Draw(prefix: nat, extra: nat, noise: nat -> Byte, fill: nat -> Byte)

  predicate PowerOfTwo(n: nat) { n == 1 || (n > 1 && n % 2 == 0 && PowerOfTwo(n / 2)) }

  // ---------------------------------------------------------------- lengths

  function PrefixLength(d: Draw): nat { d.prefix % 8 + 1 }

  function MinTotal(length: nat, d: Draw): nat { 1 + PrefixLength(d) + length + 2 }

  function MinPad(length: nat, block: nat, d: Draw): nat
    requires block > 0
  {
    var remainder := MinTotal(length, d) % block;
    if remainder == 0 then 0 else block - remainder
  }

  function Cap(minPad: nat, block: nat): nat
    requires block > 0
  {
    Min((if minPad <= MAX_PADDING then MAX_PADDING - minPad else 0) / block, MAX_EXTRA_BLOCKS)
  }

  function ExtraBlocks(minPad: nat, block: nat, d: Draw): nat
    requires block > 0
  {
    d.extra % (Cap(minPad, block) + 1)
  }

  function PadLength(length: nat, block: nat, d: Draw): nat
    requires block > 0
  {
    MinPad(length, block, d) + ExtraBlocks(MinPad(length, block, d), block, d) * block
  }

  // ---------------------------------------------------------------- padding and its inverse

  function Layout(noise: Bytes, plaintext: Bytes, fill: Bytes): Bytes
    requires |noise| < 256 && |fill| <= MAX_PADDING
  {
    [|noise|] + noise + plaintext + fill + [|fill| % 256, |fill| / 256]
  }

  predicate Usable(mode: Mode) { mode.Custom? ==> mode.size >= 64 && PowerOfTwo(mode.size) }

  function Pad(plaintext: Bytes, mode: Mode, d: Draw): Result<Bytes> {
    if mode.Unpadded? then Ok(plaintext)
    else if !Usable(mode) then Err(InvalidArgument)
    else
      var pad := PadLength(|plaintext|, BlockSize(mode), d);
      if pad > MAX_PADDING then Err(InvalidArgument)
      else Ok(Layout(seq(PrefixLength(d), i requires 0 <= i => d.noise(i)), plaintext, seq(pad, i requires 0 <= i => d.fill(i))))
  }

  function PadField(padded: Bytes): nat
    requires |padded| >= 2
  {
    (padded[|padded| - 2] as int) + 256 * (padded[|padded| - 1] as int)
  }

  function Unpad(padded: Bytes): Result<Bytes> {
    if |padded| < MIN_OVERHEAD then Err(InvalidMessage)
    else
      var prefix := padded[0];
      if !(1 <= prefix <= 8) || 1 + prefix + 2 > |padded| then Err(InvalidMessage)
      else
        var pad := PadField(padded);
        if 1 + prefix + pad + 2 > |padded| then Err(InvalidMessage)
        else Ok(padded[1 + prefix..|padded| - 2 - pad])
  }

  lemma UnpadLayout(noise: Bytes, plaintext: Bytes, fill: Bytes)
    requires 1 <= |noise| <= 8 && |fill| <= MAX_PADDING
    ensures Unpad(Layout(noise, plaintext, fill)) == Ok(plaintext)
  {
    var x := Layout(noise, plaintext, fill);
    assert x[|x| - 2] == |fill| % 256 && x[|x| - 1] == |fill| / 256;
    assert x[1 + |noise|..|x| - 2 - |fill|] == plaintext;
  }

  lemma LayoutOf(x: Bytes)
    requires Unpad(x).Ok?
    ensures var pad := PadField(x);
            var noise, fill := x[1..1 + x[0]], x[|x| - 2 - pad..|x| - 2];
            1 <= |noise| <= 8 && |fill| == pad <= MAX_PADDING && x == Layout(noise, Unpad(x).value, fill)
  {
    var pad := PadField(x);
    var noise, fill := x[1..1 + x[0]], x[|x| - 2 - pad..|x| - 2];
    assert |fill| % 256 == x[|x| - 2] && |fill| / 256 == x[|x| - 1];
    assert x == [x[0]] + noise + x[1 + x[0]..|x| - 2 - pad] + fill + [x[|x| - 2], x[|x| - 1]];
  }

  /** What `Unpad` accepts, and what it returns, is exactly the padded layout. */
  lemma UnpadExactly(x: Bytes, plaintext: Bytes)
    ensures Unpad(x) == Ok(plaintext) <==>
              exists noise, fill :: 1 <= |noise| <= 8 && |fill| <= MAX_PADDING && x == Layout(noise, plaintext, fill)
  {
    if Unpad(x) == Ok(plaintext) {
      LayoutOf(x);
    }
    if noise, fill :| 1 <= |noise| <= 8 && |fill| <= MAX_PADDING && x == Layout(noise, plaintext, fill) {
      UnpadLayout(noise, plaintext, fill);
    }
  }

  // ---------------------------------------------------------------- how much is padded

  lemma Aligned(total: nat, block: nat, extra: nat)
    requires block > 0
    ensures var remainder := total % block;
            var minPad := if remainder == 0 then 0 else block - remainder;
            (total + minPad + extra * block) % block == 0
  {
    var remainder := total % block;
    var minPad := if remainder == 0 then 0 else block - remainder;
    var q := total / block;
    var up := if remainder == 0 then q else q + 1;
    assert total == q * block + remainder;
    assert total + minPad == up * block;
    assert total + minPad + extra * block == (up + extra) * block;
    MultipleIsAligned(up + extra, block);
  }

  lemma MultipleIsAligned(k: nat, block: nat)
    requires block > 0
    ensures (k * block) % block == 0
  {
    var q, r := (k * block) / block, (k * block) % block;
    assert k * block == q * block + r;
    assert (k - q) * block == r;
    NoSmallMultiple(k - q, block);
  }

  lemma NoSmallMultiple(k: int, block: nat)
    requires block > 0
    ensures k == 0 || k * block >= block || k * block <= 0 - block
  {
    if k > 0 {
      assert (k - 1) * block >= 0;
    } else if k < 0 {
      assert (-k - 1) * block >= 0;
    }
  }

  /** The extra blocks never push a representable pad over the field. */
  lemma ExtraFits(minPad: nat, block: nat, d: Draw)
    requires block > 0
    ensures ExtraBlocks(minPad, block, d) <= MAX_EXTRA_BLOCKS
    ensures minPad + ExtraBlocks(minPad, block, d) * block <= MAX_PADDING <==> minPad <= MAX_PADDING
  {
    var extra := ExtraBlocks(minPad, block, d);
    if minPad <= MAX_PADDING {
      var blocks := (MAX_PADDING - minPad) / block;
      assert extra <= blocks;
      assert blocks * block <= MAX_PADDING - minPad;
      ProductMonotone(extra, blocks, block);
    } else {
      assert extra * block >= 0;
    }
  }

  lemma ProductMonotone(a: nat, b: nat, k: nat)
    requires a <= b
    ensures a * k <= b * k
  {
  }

  /** Padding fails exactly for an unusable block size or a pad that the 2-byte field cannot hold. */
  lemma PadSucceedsExactly(plaintext: Bytes, mode: Mode, d: Draw)
    ensures Pad(plaintext, mode, d).Ok? <==>
              mode.Unpadded? || (Usable(mode) && MinPad(|plaintext|, BlockSize(mode), d) <= MAX_PADDING)
  {
    if !mode.Unpadded? && Usable(mode) {
      ExtraFits(MinPad(|plaintext|, BlockSize(mode), d), BlockSize(mode), d);
    }
  }

  /** The smallest padded size: the next block boundary. */
  function Boundary(length: nat, block: nat, d: Draw): nat
    requires block > 0
  {
    MinTotal(length, d) + MinPad(length, block, d)
  }

  lemma PaddedShape(plaintext: Bytes, mode: Mode, d: Draw)
    requires !mode.Unpadded? && Pad(plaintext, mode, d).Ok?
    ensures var out, block := Pad(plaintext, mode, d).value, BlockSize(mode);
            && |out| == Boundary(|plaintext|, block, d) + ExtraBlocks(MinPad(|plaintext|, block, d), block, d) * block
            && |out| % block == 0 && Unpad(out) == Ok(plaintext)
  {
    var block := BlockSize(mode);
    var pad := PadLength(|plaintext|, block, d);
    var noise := seq(PrefixLength(d), i requires 0 <= i => d.noise(i));
    var fill := seq(pad, i requires 0 <= i => d.fill(i));
    UnpadLayout(noise, plaintext, fill);
    Aligned(MinTotal(|plaintext|, d), block, ExtraBlocks(MinPad(|plaintext|, block, d), block, d));
  }

  /** The boundary is the least multiple of the block that holds the message. */
  lemma BoundaryIsLeast(length: nat, block: nat, d: Draw)
    requires block > 0
    ensures Boundary(length, block, d) % block == 0 && MinTotal(length, d) <= Boundary(length, block, d) < MinTotal(length, d) + block
  {
    Aligned(MinTotal(length, d), block, 0);
  }

  /**
    Every plaintext pads in every built-in mode on every draw; the result is block-aligned,
    at most seven blocks over the boundary, its pad fits the field, and it unpads to the
    plaintext.
    */
  lemma PadRoundTrip(plaintext: Bytes, mode: Mode, d: Draw)
    requires !mode.Unpadded? && !mode.Custom?
    ensures var r, block := Pad(plaintext, mode, d), BlockSize(mode);
            && r.Ok? && Unpad(r.value) == Ok(plaintext)
            && |r.value| % block == 0
            && Boundary(|plaintext|, block, d) <= |r.value| <= Boundary(|plaintext|, block, d) + MAX_EXTRA_BLOCKS * block
            && PadLength(|plaintext|, block, d) <= MAX_PADDING
  {
    var block := BlockSize(mode);
    PadSucceedsExactly(plaintext, mode, d);
    PaddedShape(plaintext, mode, d);
    ExtraFits(MinPad(|plaintext|, block, d), block, d);
    ProductMonotone(ExtraBlocks(MinPad(|plaintext|, block, d), block, d), MAX_EXTRA_BLOCKS, block);
  }

  /** An unpadded message never survives `Unpad`: callers that always unpad must always pad. */
  lemma UnpaddedNeverUnpads(plaintext: Bytes, d: Draw)
    ensures Pad(plaintext, Unpadded, d) == Ok(plaintext) && Unpad(plaintext) != Ok(plaintext)
  {
  }

  // ---------------------------------------------------------------- the buffer

  method PadMessage(plaintext: Bytes, mode: Mode, d: Draw) returns (r: Result<Bytes>)
    ensures r == Pad(plaintext, mode, d)
    ensures r.Ok? && !mode.Unpadded? ==> |r.value| % BlockSize(mode) == 0 && Unpad(r.value) == Ok(plaintext)
  {
    if mode.Unpadded? {
      return Ok(plaintext);
    }
    var prefix := d.prefix % 8 + 1;
    if mode.Custom? && (mode.size == 0 || !PowerOfTwo(mode.size) || mode.size < 64) {
      return Err(InvalidArgument);
    }
    var pad := PadLength(|plaintext|, BlockSize(mode), d);
    if pad > MAX_PADDING {
      return Err(InvalidArgument);
    }
    var output: Bytes := [prefix];
    output := output + seq(prefix, i requires 0 <= i => d.noise(i));
    output := output + plaintext;
    output := output + seq(pad, i requires 0 <= i => d.fill(i));
    output := output + [pad % 256];
    output := output + [pad / 256];
    r := Ok(output);
    var noise := seq(PrefixLength(d), i requires 0 <= i => d.noise(i));
    var fill := seq(pad, i requires 0 <= i => d.fill(i));
    assert output == Layout(noise, plaintext, fill);
    PaddedShape(plaintext, mode, d);
  }
}
