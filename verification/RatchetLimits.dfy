/** Where the session's promises end: sends that fail late, and rotation of a live chain. */
module RatchetLimits {
  import opened Wrappers
  import opened Crypto
  import opened Ratchet
  import opened RatchetLedger
  import opened RatchetSteps
  import opened RatchetMoves
  import opened RatchetDelivery
  import opened RatchetSending
  import opened RatchetProtocol
  import opened RatchetTheorems

  /** The number the next message of a state would carry; a first send starts a chain at 0. */
  function NextNumber(s: State): nat { if s.sending.Some? then s.sending.value.index else 0 }

  lemma SendReady(secret: Key, sys: System, ev: Event)
    requires Matched(secret, sys) && ev.Send? && Admissible(secret, sys, ev) && InLimits(ev.plaintext, ev.ad)
    ensures ReadyToSend(RatchetForSend(StateOf(sys, ev.from), ev.seed, ev.now))
  {
    var v :| Inv(sys, v) && v.ledger.secret == secret;
    PartiesFromInv(sys, v, ev.from);
    FreshSeed(sys, v, ev.seed);
    SentReach(v.ledger, ev.from, StateOf(sys, ev.from), ev.seed, ev.now);
  }

  lemma ReadyNumber(s: State, seed: Scalar, now: nat)
    requires ReadyToSend(RatchetForSend(s, seed, now))
    requires s.sending.Some? ==> !NeedsRotation(s.sending.value, now)
    ensures RatchetForSend(s, seed, now).sending.value.index == NextNumber(s)
    ensures NextNumber(Spent(RatchetForSend(s, seed, now))) == NextNumber(s) + 1
  {
  }

  /**
    In every matched state a send succeeds if and only if the plaintext is non-empty and
    the associated data leaves room for the header. Every call within the session's own
    limits spends a number, also when it fails; beyond them nothing changes.
    */
  lemma SendExact(secret: Key, sys: System, ev: Event)
    requires Matched(secret, sys) && ev.Send? && Admissible(secret, sys, ev)
    ensures Sent(sys, ev).result.Ok? <==> Sealable(ev.plaintext, ev.ad)
    ensures InLimits(ev.plaintext, ev.ad) ==>
              NextNumber(Sent(sys, ev).state) == NextNumber(StateOf(sys, ev.from)) + 1
    ensures !InLimits(ev.plaintext, ev.ad) ==> Sent(sys, ev).state == StateOf(sys, ev.from)
    ensures Sent(sys, ev).result.Ok? ==>
              Sent(sys, ev).result.value.header.number == NextNumber(StateOf(sys, ev.from))
  {
    if InLimits(ev.plaintext, ev.ad) {
      SendReady(secret, sys, ev);
      ReadyNumber(StateOf(sys, ev.from), ev.seed, ev.now);
      EncryptIs(StateOf(sys, ev.from), ev.plaintext, ev.ad, ev.seed, ev.now);
    }
  }

  /** The gap between the two limits is not empty: a send that fails and still spends a number. */
  lemma EmptySendSpends(secret: Key, sys: System, ev: Event)
    requires Matched(secret, sys) && ev.Send? && Admissible(secret, sys, ev) && ev.plaintext == [] && ev.ad == []
    ensures Sent(sys, ev).result.Err? && NextNumber(Sent(sys, ev).state) == NextNumber(StateOf(sys, ev.from)) + 1
  {
    SendExact(secret, sys, ev);
  }

  /** The statistics of a session: a receipt is counted and stamped unless its key came from the store. */
  lemma ReadCounts(s: State, m: Message, ad: Bytes, seed: Scalar, now: nat)
    requires Decrypt(s, Wire(m), ad, seed, now).result.Ok?
    ensures var t, stored := Decrypt(s, Wire(m), ad, seed, now).state, KeyId(m.header.dh, m.header.number) in s.skipped;
            && t.messagesSent == s.messagesSent
            && t.messagesReceived == (if stored then s.messagesReceived else s.messagesReceived + 1)
            && t.lastActivity == (if stored then s.lastActivity else now)
  {
    if KeyId(m.header.dh, m.header.number) !in s.skipped {
      AdvanceKeepsCounts(s, m.header, seed, now);
    }
  }

  lemma {:induction false} SkipKeepsCounts(s: State, until: nat)
    requires s.receiving.Some? && SkipLoop(s, until).Ok?
    ensures var t := SkipLoop(s, until).value; t.messagesSent == s.messagesSent && t.messagesReceived == s.messagesReceived
    decreases until - s.receiving.value.index
  {
    if s.receiving.value.index < until {
      var Drawn(key, chain) := Draw(s.receiving.value).value;
      SkipKeepsCounts(s.(receiving := Some(chain), skipped := s.skipped[KeyId(s.dhRemote.value, chain.index - 1) := key]),
                      until);
    }
  }

  lemma SkipsKeepCounts(s: State, until: nat)
    requires SkipMessageKeys(s, until).Ok?
    ensures var t := SkipMessageKeys(s, until).value;
            t.messagesSent == s.messagesSent && t.messagesReceived == s.messagesReceived
  {
    if s.receiving.Some? {
      SkipKeepsCounts(s, until);
    }
  }

  lemma AdvanceKeepsCounts(s: State, h: Header, seed: Scalar, now: nat)
    requires Advance(s, h, seed, now).Ok?
    ensures var t := Advance(s, h, seed, now).value.state;
            t.messagesSent == s.messagesSent && t.messagesReceived == s.messagesReceived
  {
    if s.dhRemote != Some(h.dh) {
      SkipsKeepCounts(CountedPrevious(s), h.previous);
    }
    SkipsKeepCounts(RatchetIfNeeded(s, h, seed, now).value, h.number);
  }

  // ---------------------------------------------------------------- a first message

  lemma FirstSend(secret: Key, local: Scalar, peer: Scalar, a: State, b: State, send: Event)
    requires MatchedPair(secret, local, peer, a, b) && send.Send? && send.from == Initiator
    requires send.seed !in {local, peer} && send.now <= a.lastActivity + MAX_CHAIN_AGE
    ensures Admissible(secret, Started(local, peer, a, b), send)
  {
  }

  lemma FirstDelivery(secret: Key, local: Scalar, peer: Scalar, a: State, b: State, send: Event, deliver: Event)
    requires MatchedPair(secret, local, peer, a, b) && send.Send? && send.from == Initiator && deliver.Deliver?
    requires send.now <= a.lastActivity + MAX_CHAIN_AGE && Sent(Started(local, peer, a, b), send).result.Ok?
    requires deliver.dest == Responder && deliver.wire == Wire(Sent(Started(local, peer, a, b), send).result.value)
    requires deliver.ad == send.ad && deliver.now == send.now && deliver.seed !in {local, peer, send.seed}
    ensures var sys := Step(Started(local, peer, a, b), send); Admissible(secret, sys, deliver) && Deliverable(sys, deliver)
  {
    var start := Started(local, peer, a, b);
    StepSend(start, send);
    EncryptIs(a, send.plaintext, send.ad, send.seed, send.now);
    assert Step(start, send).log == [Post(Initiator, send.ad, deliver.wire.message)];
    assert Step(start, send).log[0].message.box == deliver.wire.message.box;
  }

  /**
    The assumptions of the run theorems can be met: from any matched start the initiator's
    first message is an admissible run of two events and comes out at the responder.
    */
  lemma FirstMessageArrives(secret: Key, local: Scalar, peer: Scalar, a: State, b: State,
                            plaintext: Bytes, ad: Bytes, x: Scalar, y: Scalar, now: nat)
    requires MatchedPair(secret, local, peer, a, b) && Sealable(plaintext, ad)
    requires x !in {local, peer} && y !in {local, peer, x} && now <= a.lastActivity + MAX_CHAIN_AGE
    ensures var sys, send := Started(local, peer, a, b), Send(Initiator, plaintext, ad, x, now);
            && FromStart(secret, sys) && Sent(sys, send).result.Ok?
            && var deliver := Deliver(Responder, Wire(Sent(sys, send).result.value), ad, y, now);
               AdmissibleRun(secret, sys, [send, deliver]) && Read(Step(sys, send), deliver).result == Ok(plaintext)
  {
    var sys, send := Started(local, peer, a, b), Send(Initiator, plaintext, ad, x, now);
    MatchedStart(secret, local, peer, a, b);
    FirstSend(secret, local, peer, a, b, send);
    SendExact(secret, sys, send);
    var deliver := Deliver(Responder, Wire(Sent(sys, send).result.value), ad, y, now);
    FirstDelivery(secret, local, peer, a, b, send, deliver);
    StepKeeps(secret, sys, send);
    DeliverableOpens(secret, Step(sys, send), deliver);
    SealedPlaintext(a, plaintext, ad, x, now);
    TwoEvents(secret, sys, send, deliver);
  }

  lemma TwoEvents(secret: Key, sys: System, first: Event, second: Event)
    requires Admissible(secret, sys, first) && Admissible(secret, Step(sys, first), second)
    ensures AdmissibleRun(secret, sys, [first, second])
  {
    assert [first, second][..1] == [first] && [first][..0] == [];
    assert Run(sys, [first]) == Step(Run(sys, []), first);
    assert AdmissibleRun(secret, sys, [first]);
  }

  // ---------------------------------------------------------------- rotation

  /** The send that replaces a live chain, with the header and key it leaves on the wire. */
  lemma RotatedMessage(s: State, plaintext: Bytes, ad: Bytes, seed: Scalar, now: nat)
    requires s.sending.Some? && NeedsRotation(s.sending.value, now) && s.dhRemote.Some? && Sealable(plaintext, ad)
    ensures var r := Encrypt(s, plaintext, ad, seed, now).result;
            && r.Ok?
            && r.value.header == Header(PublicOf(seed), 0, s.previousCounter, now)
            && r.value.inner == Inner(0, now, 0)
            && r.value.box == Box(MessageKey(RatchetChain(s.root, DiffieHellman(seed, s.dhRemote.value))),
                                  Bound(ad, r.value.header, r.value.inner), plaintext)
  {
    EncryptIs(s, plaintext, ad, seed, now);
  }

  lemma {:induction false} SkipKeepsRoots(s: State, until: nat)
    requires s.receiving.Some? && SkipLoop(s, until).Ok?
    ensures SkipLoop(s, until).value.root == s.root && SkipLoop(s, until).value.dhLocal == s.dhLocal
    decreases until - s.receiving.value.index
  {
    if s.receiving.value.index < until {
      var chain := Draw(s.receiving.value).value.chain;
      SkipKeepsRoots(s.(receiving := Some(chain),
                        skipped := s.skipped[KeyId(s.dhRemote.value, chain.index - 1) := Draw(s.receiving.value).value.key]),
                     until);
    }
  }

  lemma TurnKeepsRoots(q: State, h: Header, seed: Scalar, now: nat)
    requires q.dhRemote != Some(h.dh) && RatchetIfNeeded(q, h, seed, now).Ok?
    ensures var r := RatchetIfNeeded(q, h, seed, now).value;
            && q.dhLocal.Some? && r.dhRemote == Some(h.dh)
            && r.receiving == Some(NewChain(RatchetChain(q.root, DiffieHellman(q.dhLocal.value, h.dh)), now))
  {
    var q0 := if q.sending.Some? then q.(previousCounter := q.sending.value.index) else q;
    if q0.receiving.Some? {
      SkipKeepsRoots(q0, h.previous);
    }
  }

  lemma FirstKey(q: State, h: Header, seed: Scalar, now: nat)
    requires q.dhRemote != Some(h.dh) && h.number == 0 && Advance(q, h, seed, now).Ok?
    ensures q.dhLocal.Some?
    ensures Advance(q, h, seed, now).value.key == MessageKey(RatchetChain(q.root, DiffieHellman(q.dhLocal.value, h.dh)))
  {
    TurnKeepsRoots(q, h, seed, now);
    var r := RatchetIfNeeded(q, h, seed, now).value;
    assert SkipMessageKeys(r, 0) == Ok(r);
  }

  lemma OpenedUnder(q: State, m: Message, ad: Bytes, seed: Scalar, now: nat)
    requires KeyId(m.header.dh, m.header.number) !in q.skipped && Decrypt(q, Wire(m), ad, seed, now).result.Ok?
    ensures Advance(q, m.header, seed, now).Ok? && Advance(q, m.header, seed, now).value.key == m.box.key
  {
  }

  /** Message 0 of a chain that `q` has not seen can only be opened from `q`'s own root. */
  lemma FirstOfNewChain(q: State, m: Message, ad: Bytes, seed: Scalar, now: nat)
    requires q.dhRemote != Some(m.header.dh) && KeyId(m.header.dh, 0) !in q.skipped && m.header.number == 0
    requires Decrypt(q, Wire(m), ad, seed, now).result.Ok?
    ensures q.dhLocal.Some? && m.box.key == MessageKey(RatchetChain(q.root, DiffieHellman(q.dhLocal.value, m.header.dh)))
  {
    OpenedUnder(q, m, ad, seed, now);
    FirstKey(q, m.header, seed, now);
  }

  lemma FirstOfNewChainOpens(q: State, m: Message, ad: Bytes, seed: Scalar, now: nat)
    requires q.dhRemote != Some(m.header.dh) && KeyId(m.header.dh, 0) !in q.skipped && m.header.number == 0
    requires m.header.previous == 0 && m.header.dh != ZeroPoint && Timely(m, now)
    requires q.dhLocal.Some? && m.box.key == MessageKey(RatchetChain(q.root, DiffieHellman(q.dhLocal.value, m.header.dh)))
    requires m.box.bound == Bound(ad, m.header, m.inner)
    ensures Decrypt(q, Wire(m), ad, seed, now).result == Ok(m.box.plaintext)
  {
    var q0 := if q.sending.Some? then q.(previousCounter := q.sending.value.index) else q;
    assert SkipMessageKeys(q0, 0) == Ok(q0);
    var q2 := DhRatchet(q0, m.header.dh, seed, now).value;
    assert SkipMessageKeys(q2, 0) == Ok(q2);
  }

  lemma FreshUnknown(l: Ledger, p: Role, q: State, x: Scalar)
    requires Consistent(l) && StateOk(l, p, q) && Fresh(l, x)
    ensures q.dhRemote != Some(Point(x)) && KeyId(Point(x), 0) !in q.skipped
  {
  }

  /** The roots of a live conversation are never equal. */
  lemma RootsDiffer(l: Ledger, p: Role, s: State, q: State)
    requires Shape(l) && SendingOk(l, p, s) && SendingOk(l, Peer(p), q)
    requires s.sending.Some? && q.sending.Some?
    ensures s.root != q.root
  {
    if s.root == q.root {
      RootInjective(l.secret, l.scalars, Recv(l, p) + 1, Recv(l, Peer(p)) + 1);
    }
  }

  lemma StartRoots(l: Ledger, p: Role, s: State, q: State)
    requires Consistent(l) && StateOk(l, p, s) && StateOk(l, Peer(p), q)
    requires s.sending.Some? && q.sending.None?
    ensures s.root == q.root && q.dhLocal == Some(l.spare) && s.dhRemote == Some(Point(l.spare)) && s.previousCounter == 0
  {
  }

  lemma RotationLost(l: Ledger, p: Role, s: State, q: State, m: Message, ad: Bytes, x: Scalar, y: Scalar, later: nat)
    requires Consistent(l) && StateOk(l, p, s) && StateOk(l, Peer(p), q) && Fresh(l, x)
    requires s.sending.Some? && q.sending.Some? && s.dhRemote.Some? && m.header.dh == Point(x) && m.header.number == 0
    requires m.box.key == MessageKey(RatchetChain(s.root, DiffieHellman(x, s.dhRemote.value)))
    ensures Decrypt(q, Wire(m), ad, y, later).result.Err?
  {
    FreshUnknown(l, Peer(p), q, x);
    RootsDiffer(l, p, s, q);
    if Decrypt(q, Wire(m), ad, y, later).result.Ok? {
      FirstOfNewChain(q, m, ad, y, later);
    }
  }

  lemma RotationRead(l: Ledger, p: Role, s: State, q: State, m: Message, ad: Bytes, x: Scalar, y: Scalar, later: nat)
    requires Consistent(l) && StateOk(l, p, s) && StateOk(l, Peer(p), q) && Fresh(l, x)
    requires s.sending.Some? && q.sending.None? && s.dhRemote.Some?
    requires m.header.dh == Point(x) && m.header.number == 0 && m.header.previous == s.previousCounter && Timely(m, later)
    requires m.box.key == MessageKey(RatchetChain(s.root, DiffieHellman(x, s.dhRemote.value)))
    requires m.box.bound == Bound(ad, m.header, m.inner)
    ensures Decrypt(q, Wire(m), ad, y, later).result.Ok?
  {
    FreshUnknown(l, Peer(p), q, x);
    StartRoots(l, p, s, q);
    FirstOfNewChainOpens(q, m, ad, y, later);
  }

  lemma KnowsPeer(l: Ledger, p: Role, s: State)
    requires Shape(l) && ReceivingOk(l, p, s)
    ensures s.dhRemote.Some?
  {
  }

  /**
    When a live sending chain is replaced because it is full or a day old, the peer opens
    the next message if and only if the peer has never sent: the replacement derives from
    the sender's newest root, which a peer that has sent has not reached or has left.
    */
  lemma RotationExact(secret: Key, sys: System, p: Role, plaintext: Bytes, ad: Bytes, x: Scalar, now: nat,
                      y: Scalar, later: nat)
    requires Matched(secret, sys) && x !in sys.used && Sealable(plaintext, ad)
    requires StateOf(sys, p).sending.Some? && NeedsRotation(StateOf(sys, p).sending.value, now)
    requires Encrypt(StateOf(sys, p), plaintext, ad, x, now).result.Ok? ==>
               Timely(Encrypt(StateOf(sys, p), plaintext, ad, x, now).result.value, later)
    ensures var sent := Encrypt(StateOf(sys, p), plaintext, ad, x, now).result;
            && sent.Ok?
            && (Decrypt(StateOf(sys, Peer(p)), Wire(sent.value), ad, y, later).result.Ok?
                <==> StateOf(sys, Peer(p)).sending.None?)
  {
    var v :| Inv(sys, v) && v.ledger.secret == secret;
    var l, s, q := v.ledger, StateOf(sys, p), StateOf(sys, Peer(p));
    PartiesFromInv(sys, v, p);
    PartiesFromInv(sys, v, Peer(p));
    FreshSeed(sys, v, x);
    KnowsPeer(l, p, s);
    RotatedMessage(s, plaintext, ad, x, now);
    var m := Encrypt(s, plaintext, ad, x, now).result.value;
    if q.sending.None? {
      RotationRead(l, p, s, q, m, ad, x, y, later);
    } else {
      RotationLost(l, p, s, q, m, ad, x, y, later);
    }
  }
}
