/** What a send does: which message it produces, when it fails, and the number it spends. */
module RatchetSending {
  import opened Wrappers
  import opened Crypto
  import opened Ratchet
  import opened RatchetLedger
  import opened RatchetSteps
  import opened RatchetMoves
  import opened RatchetDelivery

  /** The session's own size limits, checked before anything changes. */
  predicate InLimits(plaintext: Bytes, ad: Bytes) { |plaintext| <= MAX_PLAINTEXT && |ad| <= MAX_AD }

  /** The limits of the sealed box, checked after the key is drawn. */
  predicate Sealable(plaintext: Bytes, ad: Bytes) {
    0 < |plaintext| <= MAX_PLAINTEXT && |ad| <= MAX_AD - HEADER_SIZE
  }

  ghost predicate ReadyToSend(s: State) {
    && s.dhLocal.Some? && s.sending.Some?
    && s.sending.value.maxMessages == MAX_CHAIN_MESSAGES && s.sending.value.reservedUntil == MAX_CHAIN_MESSAGES
    && s.sending.value.index < MAX_CHAIN_MESSAGES
  }

  function Spent(s: State): State
    requires s.sending.Some? && Draw(s.sending.value).Some?
  {
    s.(sending := Some(Draw(s.sending.value).value.chain))
  }

  function NextHeader(s: State, now: nat): Header
    requires s.dhLocal.Some? && s.sending.Some?
  {
    Header(PublicOf(s.dhLocal.value), s.sending.value.index, s.previousCounter, now)
  }

  /** The exact outcome of a send, once its chain is ready. */
  lemma EncryptIs(s: State, plaintext: Bytes, ad: Bytes, seed: Scalar, now: nat)
    requires InLimits(plaintext, ad) && ReadyToSend(RatchetForSend(s, seed, now))
    ensures var s1 := RatchetForSend(s, seed, now);
            var r := Encrypt(s, plaintext, ad, seed, now);
            && (r.result.Ok? <==> Sealable(plaintext, ad))
            && (r.result.Err? ==> r.state == Spent(s1))
            && (r.result.Ok? ==>
                  && r.state == Spent(s1).(lastActivity := now, messagesSent := s1.messagesSent + 1)
                  && r.result.value.header == NextHeader(s1, now)
                  && r.result.value.inner == Inner(0, now, 0)
                  && r.result.value.box == Box(MessageKey(s1.sending.value.key),
                                               Bound(ad, NextHeader(s1, now), Inner(0, now, 0)), plaintext))
  {
    var s1 := RatchetForSend(s, seed, now);
    assert Draw(s1.sending.value).Some?;
  }

  lemma ReadyState(l: Ledger, p: Role, s: State)
    requires Shape(l) && SendingOk(l, p, s) && ReceivingOk(l, p, s) && Live(l, p) && Recv(l, p) + 1 < |l.scalars|
    requires l.sent[Recv(l, p) + 1] < MAX_CHAIN_MESSAGES
    ensures ReadyToSend(s) && s.sending.value.index == l.sent[Recv(l, p) + 1]
    ensures MessageKey(s.sending.value.key) == KeyAt(l, Recv(l, p) + 1, l.sent[Recv(l, p) + 1])
    ensures s.dhLocal == Some(l.scalars[Recv(l, p) + 1])
    ensures s.previousCounter == if Recv(l, p) >= 1 then l.sent[Recv(l, p) - 1] else 0
  {
  }

  lemma SpentState(l: Ledger, p: Role, s: State)
    requires Consistent(l) && StateOk(l, p, s) && Live(l, p) && Recv(l, p) + 1 < |l.scalars|
    requires l.sent[Recv(l, p) + 1] < MAX_CHAIN_MESSAGES && ReadyToSend(s)
    ensures StateOk(DrewToSend(l, Recv(l, p) + 1), p, Spent(s))
    ensures Consistent(DrewToSend(l, Recv(l, p) + 1))
  {
    SentKeepsState(l, p, s, Spent(s));
    SentConsistent(l, p);
  }

  /** Apart from its bookkeeping fields, a send leaves the state with one key drawn. */
  lemma EncryptSpends(s: State, plaintext: Bytes, ad: Bytes, seed: Scalar, now: nat)
    requires InLimits(plaintext, ad) && ReadyToSend(RatchetForSend(s, seed, now))
    ensures var r := Encrypt(s, plaintext, ad, seed, now).state;
            r == Booked(Spent(RatchetForSend(s, seed, now)), r)
  {
    EncryptIs(s, plaintext, ad, seed, now);
  }

  lemma SpentBooked(l: Ledger, p: Role, s: State, t: State)
    requires Consistent(l) && StateOk(l, p, s) && Live(l, p) && Recv(l, p) + 1 < |l.scalars|
    requires l.sent[Recv(l, p) + 1] < MAX_CHAIN_MESSAGES && ReadyToSend(s) && t == Booked(Spent(s), t)
    ensures Consistent(DrewToSend(l, Recv(l, p) + 1)) && StateOk(DrewToSend(l, Recv(l, p) + 1), p, t)
  {
    SpentState(l, p, s);
    BookedOk(DrewToSend(l, Recv(l, p) + 1), p, Spent(s), t);
  }

  /** Ledger `o` and state `t` are what a send of `p` draws from, once its chain is open. */
  ghost predicate ReadyAt(o: Ledger, p: Role, t: State) {
    && Consistent(o) && StateOk(o, p, t) && Live(o, p) && Recv(o, p) + 1 < |o.scalars|
    && o.sent[Recv(o, p) + 1] < MAX_CHAIN_MESSAGES && ReadyToSend(t)
  }

  lemma ReadyFrom(o: Ledger, p: Role, t: State)
    requires Consistent(o) && StateOk(o, p, t) && Live(o, p) && Recv(o, p) + 1 < |o.scalars|
    requires o.sent[Recv(o, p) + 1] < MAX_CHAIN_MESSAGES
    ensures ReadyAt(o, p, t)
  {
    ReadyState(o, p, t);
  }

  lemma LiveReady(l: Ledger, p: Role, s: State, now: nat)
    requires Consistent(l) && StateOk(l, p, s) && Live(l, p)
    requires s.sending.Some? ==> !NeedsRotation(s.sending.value, now)
    ensures ReadyAt(l, p, s)
  {
    EpochsOf(l, p);
    ReadyFrom(l, p, s);
  }

  lemma FirstReady(l: Ledger, p: Role, s: State, seed: Scalar, now: nat)
    requires Consistent(l) && StateOk(l, p, s) && !Live(l, p) && Fresh(l, seed)
    ensures Recv(WentLive(l, seed), p) == Recv(l, p) && ReadyAt(WentLive(l, seed), p, PerformDhRatchet(s, seed, now))
  {
    OpenerFacts(l, p, seed);
    OpenerKeepsState(l, p, s, seed, now);
    ReadyFrom(WentLive(l, seed), p, PerformDhRatchet(s, seed, now));
  }

  /** Before the key is drawn: the responder's first send opens epoch 1, any other send stays put. */
  lemma SentReach(l: Ledger, p: Role, s: State, seed: Scalar, now: nat)
    requires Consistent(l) && StateOk(l, p, s) && Fresh(l, seed)
    requires s.sending.Some? ==> !NeedsRotation(s.sending.value, now)
    ensures Recv(Opener(l, p, seed), p) == Recv(l, p) && ReadyAt(Opener(l, p, seed), p, RatchetForSend(s, seed, now))
  {
    if Live(l, p) {
      LiveReady(l, p, s, now);
    } else {
      FirstReady(l, p, s, seed, now);
    }
  }

  lemma SpentAt(o: Ledger, p: Role, s: State, t: State)
    requires ReadyAt(o, p, s) && t == Booked(Spent(s), t)
    ensures Consistent(DrewToSend(o, Recv(o, p) + 1)) && StateOk(DrewToSend(o, Recv(o, p) + 1), p, t)
  {
    SpentBooked(o, p, s, t);
  }

  lemma SentOneFrom(l: Ledger, p: Role, x: Scalar, o: Ledger)
    requires Shape(o) && o == Opener(l, p, x) && Recv(o, p) == Recv(l, p) && Recv(o, p) + 1 < |o.scalars|
    ensures Recv(l, p) + 1 < |Opener(l, p, x).sent| && SentOne(l, p, x) == DrewToSend(o, Recv(o, p) + 1)
  {
  }

  lemma SentState(l: Ledger, p: Role, s: State, plaintext: Bytes, ad: Bytes, seed: Scalar, now: nat)
    requires Consistent(l) && StateOk(l, p, s) && Fresh(l, seed) && InLimits(plaintext, ad)
    requires s.sending.Some? ==> !NeedsRotation(s.sending.value, now)
    ensures Recv(l, p) + 1 < |Opener(l, p, seed).sent| && Consistent(SentOne(l, p, seed))
    ensures StateOk(SentOne(l, p, seed), p, Encrypt(s, plaintext, ad, seed, now).state)
  {
    var o := Opener(l, p, seed);
    SentReach(l, p, s, seed, now);
    EncryptSpends(s, plaintext, ad, seed, now);
    SpentAt(o, p, RatchetForSend(s, seed, now), Encrypt(s, plaintext, ad, seed, now).state);
    SentOneFrom(l, p, seed, o);
  }

  /** A header and key drawn from a ready state are those of the next message. */
  lemma NextPost(l: Ledger, p: Role, s: State, ad: Bytes, now: nat, m: Message)
    requires Shape(l) && SendingOk(l, p, s) && ReceivingOk(l, p, s) && Live(l, p)
    requires Recv(l, p) + 1 < |l.scalars| && l.sent[Recv(l, p) + 1] < MAX_CHAIN_MESSAGES && ReadyToSend(s)
    requires m.header == NextHeader(s, now) && m.box.key == MessageKey(s.sending.value.key)
    requires m.box.bound == Bound(ad, m.header, m.inner)
    ensures Shape(DrewToSend(l, Recv(l, p) + 1))
    ensures PostOk(DrewToSend(l, Recv(l, p) + 1), Post(p, ad, m), Recv(l, p) + 1)
    ensures m.header.number == l.sent[Recv(l, p) + 1]
  {
    ReadyState(l, p, s);
    EpochsOf(l, p);
  }

  lemma SentPostFrom(l: Ledger, p: Role, x: Scalar, o: Ledger, t: State, ad: Bytes, now: nat, m: Message)
    requires o == Opener(l, p, x) && Recv(o, p) == Recv(l, p) && ReadyAt(o, p, t)
    requires m.header == NextHeader(t, now) && m.box.key == MessageKey(t.sending.value.key)
    requires m.box.bound == Bound(ad, m.header, m.inner)
    ensures Recv(l, p) + 1 < |Opener(l, p, x).sent| && Shape(SentOne(l, p, x))
    ensures PostOk(SentOne(l, p, x), Post(p, ad, m), Recv(l, p) + 1)
    ensures m.header.number == Opener(l, p, x).sent[Recv(l, p) + 1]
  {
    SentOneFrom(l, p, x, o);
    NextPost(o, p, t, ad, now, m);
  }

  /** A send succeeds exactly within the limits of the box, and its message is the epoch's next one. */
  lemma SentPost(l: Ledger, p: Role, s: State, plaintext: Bytes, ad: Bytes, seed: Scalar, now: nat)
    requires Consistent(l) && StateOk(l, p, s) && Fresh(l, seed) && InLimits(plaintext, ad)
    requires s.sending.Some? ==> !NeedsRotation(s.sending.value, now)
    requires Encrypt(s, plaintext, ad, seed, now).result.Ok?
    ensures Recv(l, p) + 1 < |Opener(l, p, seed).sent| && Shape(SentOne(l, p, seed))
    ensures var m := Encrypt(s, plaintext, ad, seed, now).result.value;
            && PostOk(SentOne(l, p, seed), Post(p, ad, m), Recv(l, p) + 1)
            && m.header.number == Opener(l, p, seed).sent[Recv(l, p) + 1]
  {
    SentReach(l, p, s, seed, now);
    EncryptIs(s, plaintext, ad, seed, now);
    SentPostFrom(l, p, seed, Opener(l, p, seed), RatchetForSend(s, seed, now), ad, now,
                 Encrypt(s, plaintext, ad, seed, now).result.value);
  }
}
