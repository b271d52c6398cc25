/**
  Authenticated messages with a replay window. The AEAD is a parameter: nothing about it
  is assumed except, where a message must come back, that `open` undoes `seal`. The two
  clock readings of one decryption are arguments.
  */
module Encryptor {
  import opened Wrappers
  import opened Codec

  const NONCE_SIZE: nat := 12
  const TAG_SIZE: nat := 16
  const MAX_MESSAGE: nat := 10 * 1024 * 1024
  const SKEW: nat := 30

  type Nonce = n: Bytes | |n| == NONCE_SIZE witness seq(NONCE_SIZE, _ => 0)

  /** `seal(nonce, message, ad)` and `open(nonce, ciphertext, ad)` under one fixed key. */
  datatype Aead = Aead(seal: (Bytes, Bytes, Bytes) -> Bytes, open: (Bytes, Bytes, Bytes) -> Option<Bytes>)

  ghost predicate Lawful(aead: Aead) {
    forall nonce: Bytes, message: Bytes, ad: Bytes ::
      var c := aead.seal(nonce, message, ad);
      |c| == |message| + TAG_SIZE && aead.open(nonce, c, ad) == Some(message)
  }

  /** Accepted numbers with the stamp of the message that carried each, and the largest ever. */
  datatype Window = Window(seen: map<nat, nat>, top: nat)

  datatype Opened = Opened(window: Window, result: Result<Bytes>)

  function Next(n: nat): nat { if n + 1 < U64 then n + 1 else U64 - 1 }

  function Cutoff(now: nat): nat { if now < MAX_AGE then 0 else now - MAX_AGE }

  function Remember(w: Window, number: nat, stamp: nat, now: nat): Window {
    var seen := w.seen[number := stamp];
    Window(map n | n in seen && seen[n] >= Cutoff(now) :: seen[n], if number > w.top then number else w.top)
  }

  function SealMessage(aead: Aead, number: nat, message: Bytes, ad: Bytes, nonce: Nonce, now: nat): Result<Bytes> {
    if |message| == 0 || |message| > MAX_MESSAGE || |ad| > MAX_AD then Err(InvalidCiphertext)
    else
      var header := EncodeInner(number, now, 0);
      Ok(header + nonce + aead.seal(nonce, message, ad + header))
  }

  function NumberOf(c: Bytes): nat
    requires |c| >= INNER_SIZE
  {
    FromLe(c[0..8])
  }

  function StampOf(c: Bytes): nat
    requires |c| >= INNER_SIZE
  {
    FromLe(c[8..16])
  }

  predicate InTime(stamp: nat, now: nat) { stamp <= now + SKEW && now <= stamp + MAX_AGE }

  /** The AEAD's verdict on a ciphertext that is long enough. */
  function Unsealed(aead: Aead, c: Bytes, ad: Bytes): Option<Bytes>
    requires |c| >= INNER_SIZE + NONCE_SIZE
  {
    aead.open(c[INNER_SIZE..INNER_SIZE + NONCE_SIZE], c[INNER_SIZE + NONCE_SIZE..],
              ad + EncodeInner(NumberOf(c), StampOf(c), FromLe(c[16..24])))
  }

  function OpenMessage(aead: Aead, w: Window, c: Bytes, ad: Bytes, now: nat, later: nat): Opened {
    if |c| < INNER_SIZE + NONCE_SIZE + TAG_SIZE then Opened(w, Err(InvalidCiphertext))
    else if !InTime(StampOf(c), now) then Opened(w, Err(InvalidCiphertext))
    else if NumberOf(c) in w.seen then Opened(w, Err(AuthenticationFailed))
    else
      match Unsealed(aead, c, ad)
      case None => Opened(w, Err(AuthenticationFailed))
      case Some(message) => Opened(Remember(w, NumberOf(c), StampOf(c), later), Ok(message))
  }

  lemma SealedSlices(header: Bytes, nonce: Bytes, box: Bytes)
    requires |header| == INNER_SIZE && |nonce| == NONCE_SIZE
    ensures var c := header + nonce + box;
            && c[0..8] == header[0..8] && c[8..16] == header[8..16] && c[16..24] == header[16..24]
            && c[INNER_SIZE..INNER_SIZE + NONCE_SIZE] == nonce && c[INNER_SIZE + NONCE_SIZE..] == box
  {
  }

  /** Sealing fails exactly on an empty message, one over 10 MiB, or more than 256 bytes of associated data. */
  lemma SealExactly(aead: Aead, number: nat, message: Bytes, ad: Bytes, nonce: Nonce, now: nat)
    ensures SealMessage(aead, number, message, ad, nonce, now).Ok? <==> 0 < |message| <= 10_485_760 && |ad| <= 256
  {
  }

  /** A sealed message opens to its plaintext wherever its number is unseen and the clocks agree. */
  lemma SealedOpens(aead: Aead, number: nat, message: Bytes, ad: Bytes, nonce: Nonce, sealed: nat,
                    w: Window, now: nat, later: nat)
    requires Lawful(aead) && number < U64 && sealed < U64
    requires SealMessage(aead, number, message, ad, nonce, sealed).Ok?
    requires InTime(sealed, now) && number !in w.seen
    ensures var c := SealMessage(aead, number, message, ad, nonce, sealed).value;
            && |c| == INNER_SIZE + NONCE_SIZE + |message| + TAG_SIZE
            && OpenMessage(aead, w, c, ad, now, later) == Opened(Remember(w, number, sealed, later), Ok(message))
  {
    var header := EncodeInner(number, sealed, 0);
    var body := aead.seal(nonce, message, ad + header);
    var c := header + nonce + body;
    InnerRoundTrip(number, sealed, 0);
    SealedSlices(header, nonce, body);
  }

  // ---------------------------------------------------------------- associated data

  /** The AEAD opens this box under the associated data it was sealed with and no other. */
  ghost predicate OpensOnlyUnder(aead: Aead, nonce: Bytes, box: Bytes, ad: Bytes) {
    forall ad' :: aead.open(nonce, box, ad').Some? ==> ad' == ad
  }

  /** The box inside a sealed message. */
  function BoxOf(c: Bytes): Bytes
    requires |c| >= INNER_SIZE + NONCE_SIZE
  {
    c[INNER_SIZE + NONCE_SIZE..]
  }

  lemma SealedParts(aead: Aead, number: nat, message: Bytes, ad: Bytes, nonce: Nonce, sealed: nat)
    requires Lawful(aead) && number < U64 && sealed < U64 && SealMessage(aead, number, message, ad, nonce, sealed).Ok?
    ensures var c := SealMessage(aead, number, message, ad, nonce, sealed).value;
            && |c| >= INNER_SIZE + NONCE_SIZE + TAG_SIZE && NumberOf(c) == number && StampOf(c) == sealed
            && c[INNER_SIZE..INNER_SIZE + NONCE_SIZE] == nonce && FromLe(c[16..24]) == 0
            && BoxOf(c) == aead.seal(nonce, message, ad + EncodeInner(number, sealed, 0))
  {
    var header := EncodeInner(number, sealed, 0);
    var c := header + nonce + aead.seal(nonce, message, ad + header);
    InnerRoundTrip(number, sealed, 0);
    SealedSlices(header, nonce, aead.seal(nonce, message, ad + header));
  }

  /** A sealed message, at an unseen number and in time, opens exactly under its own associated data. */
  lemma AdExactly(aead: Aead, number: nat, message: Bytes, ad: Bytes, nonce: Nonce, sealed: nat,
                  w: Window, ad': Bytes, now: nat, later: nat)
    requires Lawful(aead) && number < U64 && sealed < U64 && SealMessage(aead, number, message, ad, nonce, sealed).Ok?
    requires var header := EncodeInner(number, sealed, 0);
             OpensOnlyUnder(aead, nonce, aead.seal(nonce, message, ad + header), ad + header)
    requires InTime(sealed, now) && number !in w.seen
    ensures var c := SealMessage(aead, number, message, ad, nonce, sealed).value;
            OpenMessage(aead, w, c, ad', now, later).result.Ok? <==> ad' == ad
  {
    SealedParts(aead, number, message, ad, nonce, sealed);
    var c, header := SealMessage(aead, number, message, ad, nonce, sealed).value, EncodeInner(number, sealed, 0);
    assert Unsealed(aead, c, ad') == aead.open(nonce, BoxOf(c), ad' + header);
    if ad' == ad {
      SealedOpens(aead, number, message, ad, nonce, sealed, w, now, later);
    } else if ad' + header == ad + header {
      Suffix(ad', header, ad, header);
    }
  }

  // ---------------------------------------------------------------- runs of one receiver

  datatype Call = Call(ciphertext: Bytes, ad: Bytes, now: nat, later: nat)

  function WindowAfter(aead: Aead, calls: seq<Call>): Window
    decreases |calls|
  {
    if calls == [] then Window(map[], 0)
    else
      var call := calls[|calls| - 1];
      OpenMessage(aead, WindowAfter(aead, calls[..|calls| - 1]), call.ciphertext, call.ad, call.now, call.later).window
  }

  predicate Accepted(aead: Aead, calls: seq<Call>, i: nat)
    requires i < |calls|
  {
    var call := calls[i];
    OpenMessage(aead, WindowAfter(aead, calls[..i]), call.ciphertext, call.ad, call.now, call.later).result.Ok?
  }

  predicate ClockRuns(calls: seq<Call>) {
    && (forall i :: 0 <= i < |calls| ==> calls[i].now <= calls[i].later)
    && (forall i, j :: 0 <= i < j < |calls| ==> calls[i].later <= calls[j].now)
  }

  lemma WindowUnfolds(aead: Aead, calls: seq<Call>, k: nat)
    requires 0 < k <= |calls|
    ensures var call := calls[k - 1];
            WindowAfter(aead, calls[..k]) ==
              OpenMessage(aead, WindowAfter(aead, calls[..k - 1]), call.ciphertext, call.ad, call.now, call.later).window
  {
    assert calls[..k][..k - 1] == calls[..k - 1];
  }

  /** One call keeps a remembered number unless it ages it out. */
  lemma OpenKeeps(aead: Aead, w: Window, call: Call, number: nat)
    requires number in w.seen
    ensures var w' := OpenMessage(aead, w, call.ciphertext, call.ad, call.now, call.later).window;
            (number in w'.seen && w'.seen[number] == w.seen[number]) || w.seen[number] + MAX_AGE < call.later
  {
  }

  /** One call adds no number but that of an accepted message. */
  lemma OpenAdds(aead: Aead, w: Window, call: Call, number: nat)
    requires number in OpenMessage(aead, w, call.ciphertext, call.ad, call.now, call.later).window.seen
    ensures var r := OpenMessage(aead, w, call.ciphertext, call.ad, call.now, call.later);
            || (&& number in w.seen && w.seen[number] == r.window.seen[number]
                && (r.result.Ok? ==> w.seen[number] >= Cutoff(call.later)))
            || (&& r.result.Ok? && NumberOf(call.ciphertext) == number
                && r.window.seen[number] == StampOf(call.ciphertext) >= Cutoff(call.later))
  {
  }

  /** The number is remembered with its stamp, or that stamp is out of age. */
  predicate RememberedBy(seen: map<nat, nat>, number: nat, stamp: nat, clock: nat) {
    (number in seen && seen[number] == stamp) || stamp + MAX_AGE < clock
  }

  lemma RememberedStep(aead: Aead, w: Window, call: Call, number: nat, stamp: nat, clock: nat)
    requires RememberedBy(w.seen, number, stamp, clock) && clock <= call.later
    ensures RememberedBy(OpenMessage(aead, w, call.ciphertext, call.ad, call.now, call.later).window.seen,
                         number, stamp, call.later)
  {
    if number in w.seen {
      OpenKeeps(aead, w, call, number);
    }
  }

  lemma RememberedFirst(aead: Aead, w: Window, call: Call)
    requires OpenMessage(aead, w, call.ciphertext, call.ad, call.now, call.later).result.Ok?
    ensures RememberedBy(OpenMessage(aead, w, call.ciphertext, call.ad, call.now, call.later).window.seen,
                         NumberOf(call.ciphertext), StampOf(call.ciphertext), call.later)
  {
  }

  /** After message `i` is accepted, its number is remembered until its stamp is out of age. */
  lemma {:induction false} RememberedOrOld(aead: Aead, calls: seq<Call>, i: nat, k: nat)
    requires ClockRuns(calls) && i < k <= |calls| && Accepted(aead, calls, i)
    ensures RememberedBy(WindowAfter(aead, calls[..k]).seen, NumberOf(calls[i].ciphertext), StampOf(calls[i].ciphertext),
                         calls[k - 1].later)
    decreases k
  {
    WindowUnfolds(aead, calls, k);
    if i < k - 1 {
      RememberedOrOld(aead, calls, i, k - 1);
      RememberedStep(aead, WindowAfter(aead, calls[..k - 1]), calls[k - 1], NumberOf(calls[i].ciphertext),
                     StampOf(calls[i].ciphertext), calls[k - 2].later);
    } else {
      RememberedFirst(aead, WindowAfter(aead, calls[..i]), calls[i]);
    }
  }

  /**
    Age eviction never re-opens a replay: two accepted ciphertexts always differ in number
    or stamp, so no ciphertext is accepted twice over any run, whatever the AEAD does.
    */
  lemma NeverTwice(aead: Aead, calls: seq<Call>, i: nat, j: nat)
    requires ClockRuns(calls) && i < j < |calls| && Accepted(aead, calls, i) && Accepted(aead, calls, j)
    ensures NumberOf(calls[i].ciphertext) != NumberOf(calls[j].ciphertext)
         || StampOf(calls[i].ciphertext) != StampOf(calls[j].ciphertext)
    ensures calls[i].ciphertext != calls[j].ciphertext
  {
    RememberedOrOld(aead, calls, i, j);
  }

  /** Message `i` was accepted before `k` and no accepted call since has aged it out. */
  predicate Retained(aead: Aead, calls: seq<Call>, i: nat, k: nat)
    requires i < k <= |calls|
  {
    && Accepted(aead, calls, i)
    && forall m :: i <= m < k && Accepted(aead, calls, m) ==> calls[m].later <= StampOf(calls[i].ciphertext) + 86400
  }

  lemma RetainedStep(aead: Aead, calls: seq<Call>, i: nat, k: nat)
    requires i < k < |calls|
    ensures Retained(aead, calls, i, k + 1) <==>
              && Retained(aead, calls, i, k)
              && (Accepted(aead, calls, k) ==> calls[k].later <= StampOf(calls[i].ciphertext) + 86400)
  {
  }

  lemma RetainedSelf(aead: Aead, calls: seq<Call>, k: nat)
    requires k < |calls| && Accepted(aead, calls, k) && calls[k].later <= StampOf(calls[k].ciphertext) + 86400
    ensures Retained(aead, calls, k, k + 1)
  {
  }

  /** The entry for `number` in the window at `k` is that of the retained message `i`. */
  ghost predicate EntryOf(aead: Aead, calls: seq<Call>, k: nat, number: nat, i: nat)
    requires k <= |calls|
  {
    && i < k && Retained(aead, calls, i, k) && NumberOf(calls[i].ciphertext) == number
    && number in WindowAfter(aead, calls[..k]).seen
    && WindowAfter(aead, calls[..k]).seen[number] == StampOf(calls[i].ciphertext)
  }

  lemma EntryCarries(aead: Aead, calls: seq<Call>, k: nat, number: nat, i: nat)
    requires k < |calls| && EntryOf(aead, calls, k, number, i) && number in WindowAfter(aead, calls[..k + 1]).seen
    ensures EntryOf(aead, calls, k + 1, number, i)
  {
    WindowUnfolds(aead, calls, k + 1);
    OpenAdds(aead, WindowAfter(aead, calls[..k]), calls[k], number);
    RetainedStep(aead, calls, i, k);
  }

  lemma EntryStarts(aead: Aead, calls: seq<Call>, k: nat, number: nat)
    requires k < |calls| && number !in WindowAfter(aead, calls[..k]).seen && number in WindowAfter(aead, calls[..k + 1]).seen
    ensures EntryOf(aead, calls, k + 1, number, k)
  {
    WindowUnfolds(aead, calls, k + 1);
    OpenAdds(aead, WindowAfter(aead, calls[..k]), calls[k], number);
    RetainedSelf(aead, calls, k);
  }

  lemma SeenNotAtStart(aead: Aead, calls: seq<Call>, k: nat, number: nat)
    requires k <= |calls| && number in WindowAfter(aead, calls[..k]).seen
    ensures k > 0
  {
  }

  /** The window is exactly the retained messages. */
  lemma {:induction false} SeenOnlyRetained(aead: Aead, calls: seq<Call>, k: nat, number: nat) returns (i: nat)
    requires k <= |calls| && number in WindowAfter(aead, calls[..k]).seen
    ensures EntryOf(aead, calls, k, number, i)
    decreases k
  {
    SeenNotAtStart(aead, calls, k, number);
    if number in WindowAfter(aead, calls[..k - 1]).seen {
      i := SeenOnlyRetained(aead, calls, k - 1, number);
      EntryCarries(aead, calls, k - 1, number, i);
    } else {
      i := k - 1;
      EntryStarts(aead, calls, k - 1, number);
    }
  }

  lemma {:induction false} RetainedIsSeen(aead: Aead, calls: seq<Call>, i: nat, k: nat)
    requires i < k <= |calls| && Retained(aead, calls, i, k)
    ensures var seen := WindowAfter(aead, calls[..k]).seen;
            NumberOf(calls[i].ciphertext) in seen && seen[NumberOf(calls[i].ciphertext)] == StampOf(calls[i].ciphertext)
    decreases k
  {
    WindowUnfolds(aead, calls, k);
    if i < k - 1 {
      RetainedStep(aead, calls, i, k - 1);
      RetainedIsSeen(aead, calls, i, k - 1);
    }
  }

  /** Call `k` is rejected as a replay exactly when a retained message carried its number. */
  lemma AcceptExact(aead: Aead, calls: seq<Call>, k: nat)
    requires k < |calls|
    ensures var c := calls[k].ciphertext;
            Accepted(aead, calls, k) <==>
              && |c| >= 52 && StampOf(c) <= calls[k].now + 30 && calls[k].now <= StampOf(c) + 86400
              && Unsealed(aead, c, calls[k].ad).Some?
              && !exists i: nat :: i < k && Retained(aead, calls, i, k) && NumberOf(calls[i].ciphertext) == NumberOf(c)
  {
    var c := calls[k].ciphertext;
    if |c| >= INNER_SIZE {
      forall i: nat | i < k && Retained(aead, calls, i, k) && NumberOf(calls[i].ciphertext) == NumberOf(c)
        ensures NumberOf(c) in WindowAfter(aead, calls[..k]).seen
      {
        RetainedIsSeen(aead, calls, i, k);
      }
      if NumberOf(c) in WindowAfter(aead, calls[..k]).seen {
        var i := SeenOnlyRetained(aead, calls, k, NumberOf(c));
      }
    }
  }

  /** `top` is the number of an accepted message before `k`, or 0, and none of those is larger. */
  ghost predicate LargestBefore(aead: Aead, calls: seq<Call>, k: nat, top: nat)
    requires k <= |calls|
  {
    && (forall i: nat :: i < k && Accepted(aead, calls, i) ==> NumberOf(calls[i].ciphertext) <= top)
    && (top == 0 || exists i: nat :: i < k && CarriedBy(aead, calls, i, top))
  }

  ghost predicate CarriedBy(aead: Aead, calls: seq<Call>, i: nat, number: nat)
    requires i < |calls|
  {
    Accepted(aead, calls, i) && NumberOf(calls[i].ciphertext) == number
  }

  lemma TopStep(aead: Aead, w: Window, call: Call)
    ensures var r := OpenMessage(aead, w, call.ciphertext, call.ad, call.now, call.later);
            r.window.top == if r.result.Ok? && NumberOf(call.ciphertext) > w.top then NumberOf(call.ciphertext) else w.top
  {
  }

  lemma LargestKept(aead: Aead, calls: seq<Call>, k: nat, top: nat)
    requires k < |calls| && LargestBefore(aead, calls, k, top)
    requires Accepted(aead, calls, k) ==> NumberOf(calls[k].ciphertext) <= top
    ensures LargestBefore(aead, calls, k + 1, top)
  {
    if top != 0 {
      var i: nat :| i < k && CarriedBy(aead, calls, i, top);
      assert i < k + 1 && CarriedBy(aead, calls, i, top);
    }
  }

  lemma LargestTaken(aead: Aead, calls: seq<Call>, k: nat, top: nat)
    requires k < |calls| && LargestBefore(aead, calls, k, top)
    requires Accepted(aead, calls, k) && NumberOf(calls[k].ciphertext) > top
    ensures LargestBefore(aead, calls, k + 1, NumberOf(calls[k].ciphertext))
  {
    assert CarriedBy(aead, calls, k, NumberOf(calls[k].ciphertext));
  }

  /** The largest number the receiver has recorded is that of an accepted message, and no accepted one is larger. */
  lemma {:induction false} TopIsLargest(aead: Aead, calls: seq<Call>, k: nat)
    requires k <= |calls|
    ensures LargestBefore(aead, calls, k, WindowAfter(aead, calls[..k]).top)
    decreases k
  {
    if k > 0 {
      TopIsLargest(aead, calls, k - 1);
      WindowUnfolds(aead, calls, k);
      var top := WindowAfter(aead, calls[..k - 1]).top;
      TopStep(aead, WindowAfter(aead, calls[..k - 1]), calls[k - 1]);
      if Accepted(aead, calls, k - 1) && NumberOf(calls[k - 1].ciphertext) > top {
        LargestTaken(aead, calls, k - 1, top);
      } else {
        LargestKept(aead, calls, k - 1, top);
      }
    }
  }

  // ---------------------------------------------------------------- the object

  class MessageEncryptor {
    const aead: Aead
    var messageNumber: nat
    var maxMessageNumber: nat
    var seenNumbers: map<nat, nat>

    function Value(): Window
      reads this
    {
      Window(seenNumbers, maxMessageNumber)
    }

    constructor (aead: Aead, initial: nat)
      ensures this.aead == aead && messageNumber == initial && Value() == Window(map[], initial)
    {
      this.aead := aead;
      messageNumber := initial;
      maxMessageNumber := initial;
      seenNumbers := map[];
    }

    method EncryptMessage(message: Bytes, ad: Bytes, nonce: Nonce, now: nat) returns (r: Result<Bytes>)
      modifies this`messageNumber
      ensures r == SealMessage(aead, old(messageNumber), message, ad, nonce, now)
      ensures messageNumber == if r.Ok? then Next(old(messageNumber)) else old(messageNumber)
    {
      if |message| == 0 || |message| > MAX_MESSAGE || |ad| > MAX_AD {
        return Err(InvalidCiphertext);
      }
      var header := EncodeInner(messageNumber, now, 0);
      var ciphertext := aead.seal(nonce, message, ad + header);
      r := Ok(header + nonce + ciphertext);
      messageNumber := Next(messageNumber);
    }

    method UpdateSeenNumbers(number: nat, stamp: nat, now: nat)
      modifies this`maxMessageNumber, this`seenNumbers
      ensures Value() == Remember(old(Value()), number, stamp, now)
    {
      if number > maxMessageNumber {
        maxMessageNumber := number;
      }
      seenNumbers := seenNumbers[number := stamp];
      seenNumbers := map n | n in seenNumbers && seenNumbers[n] >= Cutoff(now) :: seenNumbers[n];
    }

    method DecryptMessage(c: Bytes, ad: Bytes, now: nat, later: nat) returns (r: Result<Bytes>)
      modifies this`maxMessageNumber, this`seenNumbers
      ensures Opened(Value(), r) == OpenMessage(aead, old(Value()), c, ad, now, later)
    {
      if |c| < INNER_SIZE + NONCE_SIZE + TAG_SIZE {
        return Err(InvalidCiphertext);
      }
      var number, stamp, padding := FromLe(c[0..8]), FromLe(c[8..16]), FromLe(c[16..24]);
      if stamp > now + SKEW || now > stamp + MAX_AGE {
        return Err(InvalidCiphertext);
      }
      if number in seenNumbers {
        return Err(AuthenticationFailed);
      }
      var nonce, encrypted := c[INNER_SIZE..INNER_SIZE + NONCE_SIZE], c[INNER_SIZE + NONCE_SIZE..];
      var message := aead.open(nonce, encrypted, ad + EncodeInner(number, stamp, padding));
      if message.None? {
        return Err(AuthenticationFailed);
      }
      UpdateSeenNumbers(number, stamp, later);
      r := Ok(message.value);
    }
  }
}
