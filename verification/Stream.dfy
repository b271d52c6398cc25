/**
  Chunked streams: an 8-byte chunk count, then one length-prefixed sealed message per
  megabyte, each bound to a running chunk counter. Nonces and clock readings are given by
  chunk index.
  */
module Stream {
  import opened Wrappers
  import opened Codec
  import opened Encryptor

  const CHUNK: nat := 1024 * 1024

  /** What one sealed chunk draws from the outside, and one opened chunk. */
  datatype Draw = Draw(nonce: Nonce, now: nat)
  datatype Tick = Tick(now: nat, later: nat)

  datatype Sender = Sender(number: nat, counter: nat)
  datatype Receiver = Receiver(window: Window, counter: nat)

  datatype Sealed = Sealed(sender: Sender, bytes: Bytes)
  datatype Opening = Opening(receiver: Receiver, result: Result<Bytes>)

  function NumChunks(length: nat): nat { (length + CHUNK - 1) / CHUNK }

  lemma CountBounds(length: nat, i: nat)
    ensures i < NumChunks(length) <==> i * CHUNK < length
  {
  }

  function Head(data: Bytes): Bytes { if |data| <= CHUNK then data else data[..CHUNK] }
  function Tail(data: Bytes): Bytes { if |data| <= CHUNK then [] else data[CHUNK..] }

  lemma HeadTail(data: Bytes)
    requires data != []
    ensures data == Head(data) + Tail(data) && |Tail(data)| < |data| && 0 < |Head(data)| <= CHUNK
  {
  }

  /** The number of chunks, counted off one by one. */
  function ChunkCount(data: Bytes): nat
    decreases |data|
  {
    if data == [] then 0 else HeadTail(data); 1 + ChunkCount(Tail(data))
  }

  lemma {:induction false} ChunkCountExact(data: Bytes)
    ensures ChunkCount(data) == NumChunks(|data|)
    decreases |data|
  {
    if |data| > CHUNK {
      ChunkCountExact(Tail(data));
      assert |data| + CHUNK - 1 == (|data| - CHUNK) + CHUNK - 1 + CHUNK;
    }
  }

  // ---------------------------------------------------------------- sealing

  function SealChunk(aead: Aead, s: Sender, chunk: Bytes, d: Draw): Bytes
    requires 0 < |chunk| <= CHUNK
  {
    var c := SealMessage(aead, s.number, chunk, ToLe(s.counter, 8), d.nonce, d.now).value;
    ToLe(|c| % U32, 4) + c
  }

  function Advance(s: Sender): Sender { Sender(Next(s.number), Next(s.counter)) }

  function SealChunks(aead: Aead, s: Sender, data: Bytes, draws: nat -> Draw, i: nat): Sealed
    decreases |data|
  {
    if data == [] then Sealed(s, [])
    else
      HeadTail(data);
      var rest := SealChunks(aead, Advance(s), Tail(data), draws, i + 1);
      Sealed(rest.sender, SealChunk(aead, s, Head(data), draws(i)) + rest.bytes)
  }

  function SealStream(aead: Aead, s: Sender, data: Bytes, draws: nat -> Draw): Sealed {
    var chunks := SealChunks(aead, s, data, draws, 0);
    Sealed(chunks.sender, ToLe(NumChunks(|data|) % U64, 8) + chunks.bytes)
  }

  // ---------------------------------------------------------------- opening

  /** An opened chunk and the number of bytes it took up. */
  datatype Piece = Piece(chunk: Bytes, used: nat)
  datatype PieceOpening = PieceOpening(receiver: Receiver, result: Result<Piece>)

  /** Opens the chunk at the front of `rest`. */
  function OpenChunk(aead: Aead, r: Receiver, rest: Bytes, t: Tick): (o: PieceOpening)
    ensures o.result.Ok? ==> 4 <= o.result.value.used <= |rest|
  {
    if |rest| < 4 then PieceOpening(r, Err(InvalidCiphertext))
    else
      var length := FromLe(rest[..4]);
      if |rest| < 4 + length then PieceOpening(r, Err(InvalidCiphertext))
      else
        match OpenMessage(aead, r.window, rest[4..4 + length], ToLe(r.counter, 8), t.now, t.later)
        case Opened(_, Err(error)) => PieceOpening(r, Err(error))
        case Opened(w, Ok(chunk)) => PieceOpening(Receiver(w, Next(r.counter)), Ok(Piece(chunk, 4 + length)))
  }

  function Prefixed(chunk: Bytes, o: Opening): Opening {
    match o.result
    case Err(_) => o
    case Ok(data) => Opening(o.receiver, Ok(chunk + data))
  }

  /** Opens `remaining` chunks from the front of `rest`; trailing bytes are not looked at. */
  function OpenChunks(aead: Aead, r: Receiver, rest: Bytes, remaining: nat, clock: nat -> Tick, i: nat): Opening
    decreases remaining
  {
    if remaining == 0 then Opening(r, Ok([]))
    else
      match OpenChunk(aead, r, rest, clock(i))
      case PieceOpening(r', Err(error)) => Opening(r', Err(error))
      case PieceOpening(r', Ok(Piece(chunk, used))) =>
        Prefixed(chunk, OpenChunks(aead, r', rest[used..], remaining - 1, clock, i + 1))
  }

  function OpenStream(aead: Aead, r: Receiver, data: Bytes, clock: nat -> Tick): Opening {
    if |data| < 8 then Opening(r, Err(InvalidCiphertext))
    else OpenChunks(aead, r, data[8..], FromLe(data[0..8]), clock, 0)
  }

  // ---------------------------------------------------------------- round trip

  /** Same chunk counter on both sides, and the sender's next `count` numbers not seen. */
  predicate InStep(s: Sender, r: Receiver, count: nat) {
    s.counter == r.counter && forall n :: s.number <= n < s.number + count ==> n !in r.window.seen
  }

  ghost predicate ClocksAgree(draws: nat -> Draw, clock: nat -> Tick) {
    forall i: nat :: draws(i).now < U64 && InTime(draws(i).now, clock(i).now)
  }

  lemma Slices(header: Bytes, c: Bytes, tail: Bytes)
    ensures var rest := header + c + tail;
            && rest[..|header|] == header && rest[|header|..|header| + |c|] == c && rest[|header| + |c|..] == tail
  {
  }

  lemma FourBytes(length: nat)
    requires length < U32
    ensures FromLe(ToLe(length, 4)) == length
  {
    Pow256Words();
    FromToLe(length, 4);
  }

  lemma LengthField(length: nat)
    requires length < U32
    ensures FromLe(ToLe(length % U32, 4)) == length
  {
    assert length % U32 == length;
    FourBytes(length);
  }

  /** The front chunk of a sealed stream opens, and leaves the rest. */
  lemma FrontOpens(aead: Aead, s: Sender, chunk: Bytes, d: Draw, r: Receiver, tail: Bytes, t: Tick)
    requires Lawful(aead) && 0 < |chunk| <= CHUNK && s.number < U64
    requires InStep(s, r, 1) && d.now < U64 && InTime(d.now, t.now)
    ensures var rest := SealChunk(aead, s, chunk, d) + tail;
            var o := OpenChunk(aead, r, rest, t);
            && o.receiver == Receiver(Remember(r.window, s.number, d.now, t.later), Next(r.counter))
            && o.result.Ok? && o.result.value.chunk == chunk && rest[o.result.value.used..] == tail
  {
    var c := SealMessage(aead, s.number, chunk, ToLe(s.counter, 8), d.nonce, d.now).value;
    SealedOpens(aead, s.number, chunk, ToLe(s.counter, 8), d.nonce, d.now, r.window, t.now, t.later);
    LengthField(|c|);
    Slices(ToLe(|c| % U32, 4), c, tail);
  }

  lemma StepInStep(s: Sender, r: Receiver, count: nat, stamp: nat, later: nat)
    requires InStep(s, r, count + 1) && s.number + 1 < U64
    ensures InStep(s, r, 1)
    ensures InStep(Advance(s), Receiver(Remember(r.window, s.number, stamp, later), Next(r.counter)), count)
  {
  }

  /** Opening what `s` seals gives the data back and keeps the two sides in step for `more` chunks. */
  ghost predicate ComesBack(sealed: Sealed, reading: Opening, s: Sender, data: Bytes, more: nat) {
    && reading.result == Ok(data) && InStep(sealed.sender, reading.receiver, more)
    && sealed.sender.number == s.number + ChunkCount(data)
  }

  lemma Prepend(aead: Aead, s: Sender, data: Bytes, tail: Sealed, r: Receiver, remaining: nat, clock: nat -> Tick, i: nat,
                more: nat)
    requires data != [] && s.number + 1 < U64 && remaining == ChunkCount(Tail(data))
    requires ComesBack(tail, OpenChunks(aead, r, tail.bytes, remaining, clock, i), Advance(s), Tail(data), more)
    ensures forall bytes :: ComesBack(Sealed(tail.sender, bytes),
                                      Prefixed(Head(data), OpenChunks(aead, r, tail.bytes, remaining, clock, i)), s, data, more)
  {
    HeadTail(data);
  }

  lemma {:induction false} ChunksRoundTrip(aead: Aead, s: Sender, data: Bytes, draws: nat -> Draw,
                                           r: Receiver, clock: nat -> Tick, i: nat, more: nat)
    requires Lawful(aead) && ClocksAgree(draws, clock) && s.number + ChunkCount(data) < U64
    requires InStep(s, r, ChunkCount(data) + more)
    ensures var sealed := SealChunks(aead, s, data, draws, i);
            ComesBack(sealed, OpenChunks(aead, r, sealed.bytes, ChunkCount(data), clock, i), s, data, more)
    decreases |data|
  {
    if data != [] {
      HeadTail(data);
      var tail := SealChunks(aead, Advance(s), Tail(data), draws, i + 1);
      var r' := Receiver(Remember(r.window, s.number, draws(i).now, clock(i).later), Next(r.counter));
      StepInStep(s, r, ChunkCount(Tail(data)) + more, draws(i).now, clock(i).later);
      FrontOpens(aead, s, Head(data), draws(i), r, tail.bytes, clock(i));
      ChunksRoundTrip(aead, Advance(s), Tail(data), draws, r', clock, i + 1, more);
      Prepend(aead, s, data, tail, r', ChunkCount(Tail(data)), clock, i + 1, more);
    }
  }

  lemma EightBytes(count: nat)
    requires count < U64
    ensures FromLe(ToLe(count, 8)) == count && |ToLe(count, 8)| == 8
  {
    Pow256Words();
    FromToLe(count, 8);
  }

  lemma StreamHeader(count: nat, chunks: Bytes)
    requires count < U64
    ensures var bytes := ToLe(count % U64, 8) + chunks;
            |bytes| >= 8 && FromLe(bytes[0..8]) == count && bytes[8..] == chunks
  {
    assert count % U64 == count;
    EightBytes(count);
    assert (ToLe(count, 8) + chunks)[0..8] == ToLe(count, 8);
  }

  /** A stream comes back whole, and leaves both sides in step for what follows. */
  lemma StreamRoundTrip(aead: Aead, s: Sender, data: Bytes, draws: nat -> Draw, r: Receiver, clock: nat -> Tick, more: nat)
    requires Lawful(aead) && ClocksAgree(draws, clock) && s.number + NumChunks(|data|) < U64
    requires InStep(s, r, NumChunks(|data|) + more)
    ensures var sealed := SealStream(aead, s, data, draws);
            ComesBack(sealed, OpenStream(aead, r, sealed.bytes, clock), s, data, more)
  {
    ChunkCountExact(data);
    StreamHeader(NumChunks(|data|), SealChunks(aead, s, data, draws, 0).bytes);
    ChunksRoundTrip(aead, s, data, draws, r, clock, 0, more);
  }

  // ---------------------------------------------------------------- chunks out of place

  /** The box of this chunk opens only where it was sealed. */
  ghost predicate Bound(aead: Aead, s: Sender, chunk: Bytes, d: Draw) {
    var ad := ToLe(s.counter, 8) + EncodeInner(s.number, d.now, 0);
    OpensOnlyUnder(aead, d.nonce, aead.seal(d.nonce, chunk, ad), ad)
  }

  lemma CounterBytes(a: nat, b: nat)
    requires a < U64 && b < U64
    ensures ToLe(a, 8) == ToLe(b, 8) <==> a == b
  {
    EightBytes(a);
    EightBytes(b);
  }

  lemma FrontParts(aead: Aead, s: Sender, chunk: Bytes, d: Draw, tail: Bytes)
    requires Lawful(aead) && 0 < |chunk| <= CHUNK && s.number < U64 && d.now < U64
    ensures var c := SealMessage(aead, s.number, chunk, ToLe(s.counter, 8), d.nonce, d.now).value;
            var rest := SealChunk(aead, s, chunk, d) + tail;
            |rest| >= 4 + |c| && FromLe(rest[..4]) == |c| && rest[4..4 + |c|] == c
  {
    var c := SealMessage(aead, s.number, chunk, ToLe(s.counter, 8), d.nonce, d.now).value;
    LengthField(|c|);
    Slices(ToLe(|c| % U32, 4), c, tail);
  }

  /** A sealed chunk, at an unseen number and in time, opens exactly at its own place in the stream. */
  lemma ChunkInPlaceExactly(aead: Aead, s: Sender, chunk: Bytes, d: Draw, r: Receiver, tail: Bytes, t: Tick)
    requires Lawful(aead) && Bound(aead, s, chunk, d) && 0 < |chunk| <= CHUNK && s.number < U64 && s.counter < U64
    requires r.counter < U64 && s.number !in r.window.seen && d.now < U64 && InTime(d.now, t.now)
    ensures OpenChunk(aead, r, SealChunk(aead, s, chunk, d) + tail, t).result.Ok? <==> r.counter == s.counter
  {
    FrontParts(aead, s, chunk, d, tail);
    CounterBytes(r.counter, s.counter);
    AdExactly(aead, s.number, chunk, ToLe(s.counter, 8), d.nonce, d.now, r.window, ToLe(r.counter, 8), t.now, t.later);
  }

  /** So a stream whose next chunk is not the one sealed for that place is refused, whatever follows. */
  lemma MisplacedRefused(aead: Aead, s: Sender, chunk: Bytes, d: Draw, r: Receiver, tail: Bytes, remaining: nat,
                         clock: nat -> Tick, i: nat)
    requires Lawful(aead) && Bound(aead, s, chunk, d) && 0 < |chunk| <= CHUNK && s.number < U64 && s.counter < U64
    requires r.counter < U64 && s.number !in r.window.seen && d.now < U64 && InTime(d.now, clock(i).now)
    requires remaining > 0 && r.counter != s.counter
    ensures OpenChunks(aead, r, SealChunk(aead, s, chunk, d) + tail, remaining, clock, i).result.Err?
  {
    ChunkInPlaceExactly(aead, s, chunk, d, r, tail, clock(i));
  }

  // ---------------------------------------------------------------- any sequence of streams

  datatype Transfer = Transfer(data: Bytes, draws: nat -> Draw, clock: nat -> Tick)

  function TotalChunks(ts: seq<Transfer>): nat {
    if ts == [] then 0 else NumChunks(|ts[0].data|) + TotalChunks(ts[1..])
  }

  /** What the receiver gets from each stream in turn. */
  function Received(aead: Aead, s: Sender, r: Receiver, ts: seq<Transfer>): seq<Result<Bytes>>
    decreases |ts|
  {
    if ts == [] then []
    else
      var sealed := SealStream(aead, s, ts[0].data, ts[0].draws);
      var reading := OpenStream(aead, r, sealed.bytes, ts[0].clock);
      [reading.result] + Received(aead, sealed.sender, reading.receiver, ts[1..])
  }

  lemma {:induction false} StreamsRoundTrip(aead: Aead, s: Sender, r: Receiver, ts: seq<Transfer>)
    requires Lawful(aead) && InStep(s, r, TotalChunks(ts)) && s.number + TotalChunks(ts) < U64
    requires forall k :: 0 <= k < |ts| ==> ClocksAgree(ts[k].draws, ts[k].clock)
    ensures |Received(aead, s, r, ts)| == |ts|
    ensures forall k :: 0 <= k < |ts| ==> Received(aead, s, r, ts)[k] == Ok(ts[k].data)
    decreases |ts|
  {
    if ts != [] {
      var sealed := SealStream(aead, s, ts[0].data, ts[0].draws);
      var reading := OpenStream(aead, r, sealed.bytes, ts[0].clock);
      StreamRoundTrip(aead, s, ts[0].data, ts[0].draws, r, ts[0].clock, TotalChunks(ts[1..]));
      ChunkCountExact(ts[0].data);
      StreamsRoundTrip(aead, sealed.sender, reading.receiver, ts[1..]);
      forall k | 0 <= k < |ts| ensures Received(aead, s, r, ts)[k] == Ok(ts[k].data) {
        if k > 0 {
          assert ts[k] == ts[1..][k - 1];
        }
      }
    }
  }

  // ---------------------------------------------------------------- the object

  class StreamingEncryptor {
    const encryptor: MessageEncryptor
    var chunkCounter: nat

    function AsSender(): Sender
      reads this, encryptor
    {
      Sender(encryptor.messageNumber, chunkCounter)
    }

    function AsReceiver(): Receiver
      reads this, encryptor
    {
      Receiver(encryptor.Value(), chunkCounter)
    }

    constructor (aead: Aead)
      ensures fresh(encryptor) && encryptor.aead == aead
      ensures AsSender() == Sender(0, 0) && AsReceiver() == Receiver(Window(map[], 0), 0)
      ensures forall count :: InStep(AsSender(), AsReceiver(), count)
    {
      encryptor := new MessageEncryptor(aead, 0);
      chunkCounter := 0;
    }

    method EncryptChunk(chunk: Bytes, d: Draw) returns (bytes: Bytes)
      requires 0 < |chunk| <= CHUNK
      modifies this, encryptor
      ensures bytes == SealChunk(encryptor.aead, old(AsSender()), chunk, d)
      ensures AsSender() == Advance(old(AsSender()))
    {
      var encrypted := encryptor.EncryptMessage(chunk, ToLe(chunkCounter, 8), d.nonce, d.now);
      bytes := ToLe(|encrypted.value| % U32, 4) + encrypted.value;
      chunkCounter := Next(chunkCounter);
    }

    /** The loop over chunks, appending to `written`. */
    method EncryptChunks(data: Bytes, draws: nat -> Draw, written: Bytes) returns (bytes: Bytes)
      modifies this, encryptor
      ensures Appended(Sealed(AsSender(), bytes), written, SealChunks(encryptor.aead, old(AsSender()), data, draws, 0))
    {
      var chunks := (|data| + CHUNK - 1) / CHUNK;
      ghost var all := SealChunks(encryptor.aead, AsSender(), data, draws, 0);
      ghost var whole := Sealed(all.sender, written + all.bytes);
      ghost var s := AsSender();
      bytes := written;
      assert Remaining(data, 0) == data;
      for i := 0 to chunks
        invariant s == AsSender()
        invariant Appended(whole, bytes, SealChunks(encryptor.aead, s, Remaining(data, i), draws, i))
      {
        CountBounds(|data|, i);
        AppendChunk(encryptor.aead, s, data, draws, i, whole, bytes);
        var chunk := EncryptChunk(ChunkOf(data, i), draws(i));
        bytes := bytes + chunk;
        s := Advance(s);
      }
      CountBounds(|data|, chunks);
      assert bytes + [] == bytes;
    }

    method EncryptStream(data: Bytes, draws: nat -> Draw) returns (bytes: Bytes)
      modifies this, encryptor
      ensures Sealed(AsSender(), bytes) == SealStream(encryptor.aead, old(AsSender()), data, draws)
    {
      bytes := EncryptChunks(data, draws, ToLe(((|data| + CHUNK - 1) / CHUNK) % U64, 8));
    }

    method DecryptChunk(data: Bytes, offset: nat, t: Tick) returns (r: Result<Piece>)
      requires offset <= |data|
      modifies this, encryptor
      ensures PieceOpening(AsReceiver(), r) == OpenChunk(encryptor.aead, old(AsReceiver()), data[offset..], t)
    {
      if offset + 4 > |data| {
        return Err(InvalidCiphertext);
      }
      var length := FromLe(data[offset..offset + 4]);
      assert data[offset..][..4] == data[offset..offset + 4];
      if offset + 4 + length > |data| {
        return Err(InvalidCiphertext);
      }
      assert data[offset..][4..4 + length] == data[offset + 4..offset + 4 + length];
      var chunk := encryptor.DecryptMessage(data[offset + 4..offset + 4 + length], ToLe(chunkCounter, 8), t.now, t.later);
      if chunk.Err? {
        return Err(chunk.error);
      }
      chunkCounter := Next(chunkCounter);
      r := Ok(Piece(chunk.value, 4 + length));
    }

    /** One round: what is read so far grows by one chunk, or the whole outcome is this error. */
    method DecryptRound(data: Bytes, offset: nat, clock: nat -> Tick, i: nat, ghost all: Opening, ghost at: Position)
      returns (piece: Result<Piece>)
      requires at.remaining > 0 && at.receiver == AsReceiver() && at.offset == offset && at.round == i
      requires ReadSoFar(encryptor.aead, data, clock, all, at)
      modifies this, encryptor
      ensures piece.Err? ==> all == Opening(AsReceiver(), Err(piece.error))
      ensures piece.Ok? ==>
                && 4 <= piece.value.used && offset + piece.value.used <= |data|
                && ReadSoFar(encryptor.aead, data, clock, all, Moved(at, AsReceiver(), piece.value))
    {
      NextPiece(encryptor.aead, data, clock, all, at);
      piece := DecryptChunk(data, offset, clock(i));
    }

    /** The loop over at most `chunks` chunks after the header. */
    method DecryptChunks(data: Bytes, chunks: nat, clock: nat -> Tick) returns (r: Result<Bytes>, rounds: nat)
      requires |data| >= 8
      modifies this, encryptor
      ensures Opening(AsReceiver(), r) == OpenChunks(encryptor.aead, old(AsReceiver()), data[8..], chunks, clock, 0)
      ensures 4 * rounds <= |data|
    {
      ghost var all := OpenChunks(encryptor.aead, AsReceiver(), data[8..], chunks, clock, 0);
      ghost var at := Position(AsReceiver(), 8, chunks, 0, []);
      StartAt(encryptor.aead, data, clock, all, at);
      var result: Bytes := [];
      var offset := 8;
      rounds := 0;
      while rounds < chunks
        invariant rounds <= chunks && 8 + 4 * rounds <= offset <= |data|
        invariant at == Position(AsReceiver(), offset, chunks - rounds, rounds, result)
        invariant ReadSoFar(encryptor.aead, data, clock, all, at)
      {
        var piece := DecryptRound(data, offset, clock, rounds, all, at);
        rounds := rounds + 1;
        if piece.Err? {
          return Err(piece.error), rounds;
        }
        at := Moved(at, AsReceiver(), piece.value);
        offset := offset + piece.value.used;
        result := result + piece.value.chunk;
      }
      EndAt(encryptor.aead, data, clock, all, at);
      r := Ok(result);
    }

    /**
      Reads only inside `data`, whatever count the header claims, and starts at most
      |data| / 4 rounds: each completed round consumes a length field.
      */
    method DecryptStream(data: Bytes, clock: nat -> Tick) returns (r: Result<Bytes>, rounds: nat)
      modifies this, encryptor
      ensures Opening(AsReceiver(), r) == OpenStream(encryptor.aead, old(AsReceiver()), data, clock)
      ensures 4 * rounds <= |data|
    {
      if |data| < 8 {
        return Err(InvalidCiphertext), 0;
      }
      r, rounds := DecryptChunks(data, FromLe(data[0..8]), clock);
    }
  }

  /** `data` from chunk `i` on. */
  function Remaining(data: Bytes, i: nat): Bytes { if i * CHUNK < |data| then data[i * CHUNK..] else [] }

  /** The `i`-th megabyte of `data`, or what is left of it. */
  function ChunkOf(data: Bytes, i: nat): (chunk: Bytes)
    requires i * CHUNK < |data|
    ensures 0 < |chunk| <= CHUNK
  {
    data[i * CHUNK..if (i + 1) * CHUNK < |data| then (i + 1) * CHUNK else |data|]
  }

  lemma ChunkAt(data: Bytes, i: nat)
    requires i * CHUNK < |data|
    ensures Head(Remaining(data, i)) == ChunkOf(data, i) && Tail(Remaining(data, i)) == Remaining(data, i + 1)
  {
  }

  lemma SealStep(aead: Aead, s: Sender, data: Bytes, draws: nat -> Draw, i: nat)
    requires i * CHUNK < |data|
    ensures var rest := SealChunks(aead, Advance(s), Remaining(data, i + 1), draws, i + 1);
            SealChunks(aead, s, Remaining(data, i), draws, i) ==
              Sealed(rest.sender, SealChunk(aead, s, ChunkOf(data, i), draws(i)) + rest.bytes)
  {
    ChunkAt(data, i);
  }

  /** The whole outcome is what is read so far followed by the outcome of the rest. */
  ghost predicate Joined(all: Opening, read: Bytes, rest: Opening) {
    && all.receiver == rest.receiver
    && all.result == match rest.result case Err(error) => Err(error) case Ok(data) => Ok(read + data)
  }

  lemma JoinedStart(all: Opening)
    ensures Joined(all, [], all)
  {
    if all.result.Ok? {
      assert [] + all.result.value == all.result.value;
    }
  }

  lemma JoinedStep(all: Opening, read: Bytes, chunk: Bytes, rest: Opening)
    requires Joined(all, read, Prefixed(chunk, rest))
    ensures Joined(all, read + chunk, rest)
  {
    if rest.result.Ok? {
      assert read + (chunk + rest.result.value) == read + chunk + rest.result.value;
    }
  }

  /** Where an opening stands: what it has read, and where it goes on. */
  datatype Position = Position(receiver: Receiver, offset: nat, remaining: nat, round: nat, read: Bytes)

  ghost function Moved(at: Position, r: Receiver, piece: Piece): Position
    requires at.remaining > 0
  {
    Position(r, at.offset + piece.used, at.remaining - 1, at.round + 1, at.read + piece.chunk)
  }

  ghost function Rest(aead: Aead, data: Bytes, clock: nat -> Tick, at: Position): Opening
    requires at.offset <= |data|
  {
    OpenChunks(aead, at.receiver, data[at.offset..], at.remaining, clock, at.round)
  }

  /** `all` is what is read so far followed by what opening the rest of `data` gives. */
  ghost predicate ReadSoFar(aead: Aead, data: Bytes, clock: nat -> Tick, all: Opening, at: Position) {
    at.offset <= |data| && Joined(all, at.read, Rest(aead, data, clock, at))
  }

  lemma StartAt(aead: Aead, data: Bytes, clock: nat -> Tick, all: Opening, at: Position)
    requires |data| >= 8 && at == Position(at.receiver, 8, at.remaining, 0, []) && all == Rest(aead, data, clock, at)
    ensures ReadSoFar(aead, data, clock, all, at)
  {
    JoinedStart(all);
  }

  lemma RestUnfolds(aead: Aead, data: Bytes, clock: nat -> Tick, at: Position, o: PieceOpening)
    requires at.remaining > 0 && at.offset <= |data| && o == OpenChunk(aead, at.receiver, data[at.offset..], clock(at.round))
    ensures o.result.Err? ==> Rest(aead, data, clock, at) == Opening(o.receiver, Err(o.result.error))
    ensures o.result.Ok? ==>
              && at.offset + o.result.value.used <= |data|
              && Rest(aead, data, clock, at) ==
                   Prefixed(o.result.value.chunk, Rest(aead, data, clock, Moved(at, o.receiver, o.result.value)))
  {
    if o.result.Ok? {
      assert data[at.offset..][o.result.value.used..] == data[at.offset + o.result.value.used..];
    }
  }

  lemma NextPiece(aead: Aead, data: Bytes, clock: nat -> Tick, all: Opening, at: Position)
    requires at.remaining > 0 && ReadSoFar(aead, data, clock, all, at)
    ensures var o := OpenChunk(aead, at.receiver, data[at.offset..], clock(at.round));
            && (o.result.Err? ==> all == Opening(o.receiver, Err(o.result.error)))
            && (o.result.Ok? ==> ReadSoFar(aead, data, clock, all, Moved(at, o.receiver, o.result.value)))
  {
    var o := OpenChunk(aead, at.receiver, data[at.offset..], clock(at.round));
    RestUnfolds(aead, data, clock, at, o);
    if o.result.Ok? {
      JoinedStep(all, at.read, o.result.value.chunk, Rest(aead, data, clock, Moved(at, o.receiver, o.result.value)));
    }
  }

  lemma EndAt(aead: Aead, data: Bytes, clock: nat -> Tick, all: Opening, at: Position)
    requires at.remaining == 0 && ReadSoFar(aead, data, clock, all, at)
    ensures all == Opening(at.receiver, Ok(at.read))
  {
    assert at.read + [] == at.read;
  }

  /** The whole output is what is written so far followed by the rest. */
  ghost predicate Appended(whole: Sealed, written: Bytes, rest: Sealed) {
    whole == Sealed(rest.sender, written + rest.bytes)
  }

  lemma AppendedStep(whole: Sealed, written: Bytes, chunk: Bytes, rest: Sealed)
    requires Appended(whole, written, Sealed(rest.sender, chunk + rest.bytes))
    ensures Appended(whole, written + chunk, rest)
  {
    assert written + (chunk + rest.bytes) == written + chunk + rest.bytes;
  }

  lemma AppendChunk(aead: Aead, s: Sender, data: Bytes, draws: nat -> Draw, i: nat, whole: Sealed, written: Bytes)
    requires i * CHUNK < |data| && Appended(whole, written, SealChunks(aead, s, Remaining(data, i), draws, i))
    ensures Appended(whole, written + SealChunk(aead, s, ChunkOf(data, i), draws(i)),
                     SealChunks(aead, Advance(s), Remaining(data, i + 1), draws, i + 1))
  {
    SealStep(aead, s, data, draws, i);
    AppendedStep(whole, written, SealChunk(aead, s, ChunkOf(data, i), draws(i)),
                 SealChunks(aead, Advance(s), Remaining(data, i + 1), draws, i + 1));
  }
}
