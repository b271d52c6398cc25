/**
  Which trial keys are honest keys, and exactly when a delivery to one party succeeds.
  */
module RatchetDelivery {
  import opened Wrappers
  import opened Crypto
  import opened Ratchet
  import opened RatchetLedger
  import opened RatchetSteps
  import opened RatchetMoves

  /** A message as its sender produced it. */
  datatype Post = Post(from: Role, ad: Bytes, message: Message)

  function Number(e: Post): nat { e.message.header.number }

  // ---------------------------------------------------------------- the log of produced messages

  ghost predicate PostOk(l: Ledger, e: Post, k: nat)
    requires Shape(l)
  {
    var h := e.message.header;
    && k < |l.scalars| && e.from == Sender(k)
    && h.dh == Point(l.scalars[k])
    && h.number < l.sent[k]
    && h.previous == (if k >= 2 then l.sent[k - 2] else 0)
    && e.message.box.key == KeyAt(l, k, h.number)
    && e.message.box.bound == Bound(e.ad, h, e.message.inner)
  }

  ghost predicate LogOk(l: Ledger, epochs: seq<nat>, log: seq<Post>)
    requires Shape(l)
  {
    && |epochs| == |log|
    && (forall i :: 0 <= i < |log| ==> PostOk(l, log[i], epochs[i]))
    && (forall i, j :: 0 <= i < j < |log| && epochs[i] == epochs[j] ==> Number(log[i]) != Number(log[j]))
  }

  /** The network may redirect and rewrap boxes it has seen; it seals under no session key. */
  predicate NetworkBox(secret: Key, log: seq<Post>, box: Box) {
    (exists i :: 0 <= i < |log| && log[i].message.box == box) || !RootedAt(box.key, secret)
  }

  /** Whatever opens under a session key is a produced message, bit for bit. */
  lemma OpenedIsLogged(l: Ledger, epochs: seq<nat>, log: seq<Post>, m: Message, ad: Bytes, key: Key, now: nat)
    returns (i: nat)
    requires Shape(l) && LogOk(l, epochs, log) && NetworkBox(l.secret, log, m.box)
    requires Open(key, m, ad, now).Ok? && RootedAt(key, l.secret)
    ensures i < |log| && log[i].message == m && log[i].ad == ad
    ensures key == KeyAt(l, epochs[i], m.header.number)
  {
    i :| 0 <= i < |log| && log[i].message.box == m.box;
    assert PostOk(l, log[i], epochs[i]);
  }

  // ---------------------------------------------------------------- trial keys

  lemma KeyRooted(l: Ledger, k: nat, n: nat)
    requires k < |l.scalars|
    ensures RootedAt(KeyAt(l, k, n), l.secret)
  {
    RootRooted(l.secret, l.scalars, k);
    ChainAtRooted(Start(l.secret, l.scalars, k), n, l.secret);
  }

  function StartOrZero(l: Ledger, r: int): Key {
    if 0 <= r < |l.scalars| then Start(l.secret, l.scalars, r) else ZeroKey
  }

  /** A trial never leaves the session's own key space. */
  lemma TrialRooted(l: Ledger, p: Role, s: State, h: Header, seed: Scalar, now: nat)
    requires Shape(l) && SendingOk(l, p, s) && ReceivingOk(l, p, s)
    requires Advance(s, h, seed, now).Ok?
    ensures RootedAt(Advance(s, h, seed, now).value.key, l.secret)
  {
    var r := Recv(l, p);
    AdvanceKey(s, h, seed, now, StartOrZero(l, r));
    if s.dhRemote == Some(h.dh) {
      if 0 <= r {
        KeyRooted(l, r, h.number);
      }
    } else {
      RootRooted(l.secret, l.scalars, if Live(l, p) then r + 1 else 0);
      ChainAtRooted(RatchetChain(s.root, DiffieHellman(s.dhLocal.value, h.dh)), h.number, l.secret);
    }
  }

  /** A trial yields an honest key only on the current epoch or on the peer's newest one. */
  lemma TrialEpoch(l: Ledger, p: Role, s: State, h: Header, seed: Scalar, now: nat, k: nat)
    requires Consistent(l) && SendingOk(l, p, s) && ReceivingOk(l, p, s)
    requires Advance(s, h, seed, now).Ok? && k < |l.scalars| && h.dh == Point(l.scalars[k])
    requires Advance(s, h, seed, now).value.key == KeyAt(l, k, h.number)
    ensures k == Recv(l, p) || (k == Recv(l, p) + 2 && Behind(l, p))
  {
    var r := Recv(l, p);
    AdvanceKey(s, h, seed, now, StartOrZero(l, r));
    if s.dhRemote != Some(h.dh) {
      var first := RatchetChain(s.root, DiffieHellman(s.dhLocal.value, h.dh));
      ChainAtInjective(first, Start(l.secret, l.scalars, k), h.number, h.number);
      assert k > 0 && s.root == Root(l.secret, l.scalars, k - 1);
      RootInjective(l.secret, l.scalars, k - 1, if Live(l, p) then r + 1 else 0);
    }
  }

  // ---------------------------------------------------------------- the window

  predicate Timely(m: Message, now: nat) {
    && m.header.timestamp <= now + HEADER_SKEW && now <= m.header.timestamp + MAX_AGE
    && m.inner.timestamp <= now + SEAL_SKEW && now <= m.inner.timestamp + MAX_AGE
  }

  /** The store has room for every key the header makes the receiver skip. */
  predicate Room(s: State, h: Header) {
    || KeyId(h.dh, h.number) in s.skipped
    || if s.dhRemote == Some(h.dh)
       then s.receiving.Some? && |s.skipped| + h.number - s.receiving.value.index <= s.maxSkip
       else TurnFits(s, h)
  }

  // ---------------------------------------------------------------- delivery to one party

  /** What a delivery did: the number came from the store, the current epoch or the next one. */
  ghost predicate Took(l: Ledger, p: Role, k: nat, n: nat, x: Scalar, l': Ledger)
    requires Shape(l)
  {
    || (Stored(l, p, k, n) && l' == Accepted(l, k, n))
    || (k == Recv(l, p) && l.read[k] <= n < l.sent[k] && l' == StayedTo(l, p, n))
    || (k == Recv(l, p) + 2 && Behind(l, p) && k < |l.sent| && n < l.sent[k] && l' == TurnedTo(l, p, x, n))
  }

  /** `s` with the bookkeeping fields a successful receive touches set as in `t`. */
  function Booked(s: State, t: State): State {
    s.(lastActivity := t.lastActivity, messagesReceived := t.messagesReceived, messagesSent := t.messagesSent)
  }

  lemma BookedOk(l: Ledger, p: Role, s: State, t: State)
    requires Shape(l) && StateOk(l, p, s)
    ensures StateOk(l, p, Booked(s, t))
  {
    assert SendingOk(l, p, Booked(s, t));
    assert ReceivingOk(l, p, Booked(s, t));
  }

  /** Delivering `e` to `p` opens it and leaves the state that ledger `l'` dictates. */
  ghost predicate Delivers(l': Ledger, p: Role, s: State, e: Post, seed: Scalar, now: nat) {
    var r := Decrypt(s, Wire(e.message), e.ad, seed, now);
    r.result == Ok(e.message.box.plaintext) && Shape(l') && StateOk(l', p, r.state)
  }

  lemma DeliversFrom(l': Ledger, p: Role, s: State, e: Post, seed: Scalar, now: nat, t: State)
    requires Decrypt(s, Wire(e.message), e.ad, seed, now) == Reading(t, Ok(e.message.box.plaintext))
    requires Shape(l') && StateOk(l', p, t)
    ensures Delivers(l', p, s, e, seed, now)
  {
  }

  lemma StoredOpens(s: State, m: Message, ad: Bytes, seed: Scalar, now: nat, id: KeyId)
    requires HeaderCheck(m.header, now).None? && id == KeyId(m.header.dh, m.header.number) && id in s.skipped
    requires Open(s.skipped[id], m, ad, now).Ok?
    ensures Decrypt(s, Wire(m), ad, seed, now) == Reading(s.(skipped := s.skipped - {id}), Ok(m.box.plaintext))
  {
  }

  lemma StoredKey(l: Ledger, p: Role, store: map<KeyId, Key>, e: Post, k: nat)
    requires Shape(l) && Holds(l, p, store) && PostOk(l, e, k) && Stored(l, p, k, Number(e))
    ensures var id := KeyId(e.message.header.dh, Number(e));
            id == KeyId(Point(l.scalars[k]), Number(e)) && id in store && store[id] == KeyAt(l, k, Number(e))
  {
  }

  /** From the store: the message opens, and its key is gone. */
  lemma DeliverStored(l: Ledger, p: Role, s: State, e: Post, k: nat, seed: Scalar, now: nat)
    requires Consistent(l) && StateOk(l, p, s) && PostOk(l, e, k) && Stored(l, p, k, Number(e))
    requires Timely(e.message, now)
    ensures Delivers(Accepted(l, k, Number(e)), p, s, e, seed, now)
  {
    var id := KeyId(Point(l.scalars[k]), Number(e));
    StoredKey(l, p, s.skipped, e, k);
    HonestOpens(l, e, k, now);
    StoredOpens(s, e.message, e.ad, seed, now, id);
    UseKeepsState(l, p, s, s.(skipped := s.skipped - {id}), k, Number(e));
    DeliversFrom(Accepted(l, k, Number(e)), p, s, e, seed, now, s.(skipped := s.skipped - {id}));
  }

  function Received(t: State, now: nat): State {
    t.(lastActivity := now, messagesReceived := t.messagesReceived + 1)
  }

  lemma RemoveAbsent(store: map<KeyId, Key>, id: KeyId)
    requires id !in store
    ensures store - {id} == store
  {
  }

  /** A trial whose box opens is committed. */
  lemma Commit(s: State, m: Message, ad: Bytes, seed: Scalar, now: nat, t: State, key: Key)
    requires HeaderCheck(m.header, now).None?
    requires KeyId(m.header.dh, m.header.number) !in s.skipped
    requires KeyId(m.header.dh, m.header.number) !in t.skipped
    requires Advance(s, m.header, seed, now) == Ok(Trial(t, key)) && Open(key, m, ad, now).Ok?
    ensures Decrypt(s, Wire(m), ad, seed, now) == Reading(Received(t, now), Ok(m.box.plaintext))
  {
    RemoveAbsent(t.skipped, KeyId(m.header.dh, m.header.number));
    assert DecryptWithKey(t, key, m, ad, now) == Reading(t, Ok(m.box.plaintext));
  }

  lemma AcceptedNotStored(l: Ledger, p: Role, t: State, k: nat, n: nat)
    requires Consistent(l) && StateOk(l, p, t) && k < |l.scalars| && n in l.accepted[k]
    ensures KeyId(Point(l.scalars[k]), n) !in t.skipped
  {
    StoreLookup(l, p, t.skipped, k, n);
  }

  lemma NotStored(l: Ledger, p: Role, store: map<KeyId, Key>, e: Post, k: nat)
    requires Consistent(l) && StoreOk(l, p, store) && PostOk(l, e, k) && !Stored(l, p, k, Number(e))
    ensures KeyId(e.message.header.dh, Number(e)) !in store
  {
    StoreLookup(l, p, store, k, Number(e));
  }

  /** A produced message passes the header check and opens under its own key while it is timely. */
  lemma HonestOpens(l: Ledger, e: Post, k: nat, now: nat)
    requires Consistent(l) && PostOk(l, e, k) && Timely(e.message, now)
    ensures HeaderCheck(e.message.header, now).None?
    ensures Open(KeyAt(l, k, Number(e)), e.message, e.ad, now) == Ok(e.message.box.plaintext)
  {
    assert l.sent[k] <= MAX_CHAIN_MESSAGES;
  }

  /** The trial reaches a state that `l'` dictates and opens the message, which is not in the store. */
  ghost predicate TrialOpens(l': Ledger, p: Role, s: State, e: Post, seed: Scalar, now: nat) {
    var r := Advance(s, e.message.header, seed, now);
    && HeaderCheck(e.message.header, now).None? && KeyId(e.message.header.dh, Number(e)) !in s.skipped
    && r.Ok? && Shape(l') && StateOk(l', p, r.value.state) && Open(r.value.key, e.message, e.ad, now).Ok?
  }

  lemma TrialOpensWith(l': Ledger, p: Role, s: State, e: Post, seed: Scalar, now: nat, key: Key)
    requires HeaderCheck(e.message.header, now).None? && KeyId(e.message.header.dh, Number(e)) !in s.skipped
    requires Advance(s, e.message.header, seed, now).Ok? && Advance(s, e.message.header, seed, now).value.key == key
    requires Shape(l') && StateOk(l', p, Advance(s, e.message.header, seed, now).value.state)
    requires Open(key, e.message, e.ad, now) == Ok(e.message.box.plaintext)
    ensures TrialOpens(l', p, s, e, seed, now)
  {
  }

  /** Committing a trial that the ledger describes. */
  lemma CommitKeeps(l: Ledger, p: Role, s: State, e: Post, seed: Scalar, now: nat, k: nat)
    requires Consistent(l) && k < |l.scalars| && e.message.header.dh == Point(l.scalars[k]) && Number(e) in l.accepted[k]
    requires TrialOpens(l, p, s, e, seed, now)
    ensures Delivers(l, p, s, e, seed, now)
  {
    var Trial(t, key) := Advance(s, e.message.header, seed, now).value;
    AcceptedNotStored(l, p, t, k, Number(e));
    Commit(s, e.message, e.ad, seed, now, t, key);
    BookedOk(l, p, t, Received(t, now));
    assert Booked(t, Received(t, now)) == Received(t, now);
  }

  lemma ReceivingFacts(l: Ledger, p: Role, s: State)
    requires Consistent(l) && StateOk(l, p, s) && 0 <= Recv(l, p)
    ensures s.dhRemote == Some(Point(l.scalars[Recv(l, p)])) && s.receiving.Some?
    ensures s.receiving.value.index == l.read[Recv(l, p)]
    ensures s.receiving.value.key == ChainAt(Start(l.secret, l.scalars, Recv(l, p)), l.read[Recv(l, p)])
    ensures s.receiving.value.maxMessages == MAX_CHAIN_MESSAGES
    ensures Unread(s, Point(l.scalars[Recv(l, p)]))
  {
    StoreUnread(l, p, s);
  }

  lemma StayTrialReaches(l: Ledger, p: Role, s: State, h: Header, seed: Scalar, now: nat)
    requires Shape(l) && 0 <= Recv(l, p) && h.dh == Point(l.scalars[Recv(l, p)])
    requires s.dhRemote == Some(h.dh) && s.receiving.Some? && Unread(s, h.dh)
    requires s.receiving.value.index == l.read[Recv(l, p)]
    requires s.receiving.value.key == ChainAt(Start(l.secret, l.scalars, Recv(l, p)), l.read[Recv(l, p)])
    requires l.read[Recv(l, p)] <= h.number < s.receiving.value.maxMessages
    requires |s.skipped| + h.number - l.read[Recv(l, p)] <= s.maxSkip
    ensures Advance(s, h, seed, now).Ok?
    ensures Advance(s, h, seed, now).value.key == KeyAt(l, Recv(l, p), h.number)
    ensures StayReached(l, p, s, Advance(s, h, seed, now).value.state, h.number)
  {
    AdvanceStay(s, h, seed, now, Start(l.secret, l.scalars, Recv(l, p)));
  }

  lemma StayTrial(l: Ledger, p: Role, s: State, h: Header, seed: Scalar, now: nat)
    requires Consistent(l) && StateOk(l, p, s) && 0 <= Recv(l, p) && h.dh == Point(l.scalars[Recv(l, p)])
    requires l.read[Recv(l, p)] <= h.number < l.sent[Recv(l, p)]
    requires |s.skipped| + h.number - l.read[Recv(l, p)] <= s.maxSkip
    ensures Advance(s, h, seed, now).Ok?
    ensures Advance(s, h, seed, now).value.key == KeyAt(l, Recv(l, p), h.number)
    ensures StateOk(StayedTo(l, p, h.number), p, Advance(s, h, seed, now).value.state)
  {
    ReceivingFacts(l, p, s);
    StayTrialReaches(l, p, s, h, seed, now);
    StayKeepsState(l, p, s, Advance(s, h, seed, now).value.state, h.number);
  }

  /** On the current epoch: everything up to the number is drawn, the number itself is used. */
  lemma DeliverStay(l: Ledger, p: Role, s: State, e: Post, seed: Scalar, now: nat)
    requires Consistent(l) && StateOk(l, p, s) && 0 <= Recv(l, p) && PostOk(l, e, Recv(l, p))
    requires l.read[Recv(l, p)] <= Number(e) && |s.skipped| + Number(e) - l.read[Recv(l, p)] <= s.maxSkip
    requires Timely(e.message, now)
    ensures Delivers(StayedTo(l, p, Number(e)), p, s, e, seed, now)
  {
    StayTrial(l, p, s, e.message.header, seed, now);
    NotStored(l, p, s.skipped, e, Recv(l, p));
    StayedConsistent(l, p, Number(e));
    HonestOpens(l, e, Recv(l, p), now);
    TrialOpensWith(StayedTo(l, p, Number(e)), p, s, e, seed, now, KeyAt(l, Recv(l, p), Number(e)));
    CommitKeeps(StayedTo(l, p, Number(e)), p, s, e, seed, now, Recv(l, p));
  }

  function Known(l: Ledger, p: Role): PublicKey
    requires Shape(l)
  {
    if Recv(l, p) < 0 then Point(l.spare) else Point(l.scalars[Recv(l, p)])
  }

  lemma TurnFacts(l: Ledger, p: Role, s: State, h: Header)
    requires Consistent(l) && StateOk(l, p, s) && Behind(l, p)
    requires Recv(l, p) + 2 < |l.scalars| && h.dh == Point(l.scalars[Recv(l, p) + 2])
    requires 0 <= Recv(l, p) ==> h.previous == l.sent[Recv(l, p)]
    ensures NewPeerKey(s, h, StartOrZero(l, Recv(l, p)), Known(l, p))
  {
    var r := Recv(l, p);
    forall i: nat ensures KeyId(h.dh, i) !in s.skipped {
      StoreLookup(l, p, s.skipped, r + 2, i);
    }
    if 0 <= r {
      ReceivingFacts(l, p, s);
      assert l.sent[r] <= MAX_CHAIN_MESSAGES;
    }
  }

  lemma TurnTrialReaches(l: Ledger, p: Role, s: State, h: Header, seed: Scalar, now: nat)
    requires Shape(l) && Behind(l, p) && SendingOk(l, p, s) && ReceivingOk(l, p, s)
    requires Recv(l, p) + 2 < |l.scalars| && h.dh == Point(l.scalars[Recv(l, p) + 2])
    requires 0 <= Recv(l, p) ==> h.previous == l.sent[Recv(l, p)]
    requires NewPeerKey(s, h, StartOrZero(l, Recv(l, p)), Known(l, p))
    requires h.number < MAX_CHAIN_MESSAGES && TurnFits(s, h)
    ensures Advance(s, h, seed, now).Ok? && SkipMessageKeys(CountedPrevious(s), h.previous).Ok?
    ensures Advance(s, h, seed, now).value.key == KeyAt(l, Recv(l, p) + 2, h.number)
    ensures var t := Advance(s, h, seed, now).value.state;
            && |t.skipped| <= t.maxSkip
            && TurnReached(l, p, s, h, seed, now, Between(s, h.previous), t, h.number)
            && TurnFilled(l, p, s.skipped, Between(s, h.previous), t.skipped, h.number)
  {
    AdvanceTurn(s, h, seed, now, StartOrZero(l, Recv(l, p)), Known(l, p));
    TurnSkip(s, h.previous, StartOrZero(l, Recv(l, p)), Known(l, p));
    TurnAgrees(l, p, s, seed);
    RootStable(l.secret, l.scalars, seed, Recv(l, p) + 2);
  }

  lemma TurnTrial(l: Ledger, p: Role, s: State, h: Header, seed: Scalar, now: nat)
    requires Consistent(l) && StateOk(l, p, s) && Behind(l, p) && Fresh(l, seed)
    requires Recv(l, p) + 2 < |l.scalars| && h.dh == Point(l.scalars[Recv(l, p) + 2])
    requires 0 <= Recv(l, p) ==> h.previous == l.sent[Recv(l, p)]
    requires h.number < MAX_CHAIN_MESSAGES && TurnFits(s, h)
    ensures Advance(s, h, seed, now).Ok? && Shape(TurnedTo(l, p, seed, h.number))
    ensures Advance(s, h, seed, now).value.key == KeyAt(l, Recv(l, p) + 2, h.number)
    ensures StateOk(TurnedTo(l, p, seed, h.number), p, Advance(s, h, seed, now).value.state)
  {
    TurnFacts(l, p, s, h);
    TurnTrialReaches(l, p, s, h, seed, now);
    TurnKeepsState(l, p, s, h, seed, now, Between(s, h.previous), Advance(s, h, seed, now).value.state, h.number);
  }

  lemma PostFacts(l: Ledger, e: Post, k: nat)
    requires Consistent(l) && PostOk(l, e, k)
    ensures e.message.header.dh == Point(l.scalars[k]) && Number(e) < l.sent[k] && Number(e) < MAX_CHAIN_MESSAGES
    ensures k >= 2 ==> e.message.header.previous == l.sent[k - 2]
  {
    assert l.sent[k] <= MAX_CHAIN_MESSAGES;
  }

  lemma TurnOpens(l: Ledger, p: Role, s: State, e: Post, seed: Scalar, now: nat)
    requires Consistent(l) && StateOk(l, p, s) && Behind(l, p) && Fresh(l, seed)
    requires PostOk(l, e, Recv(l, p) + 2) && TurnFits(s, e.message.header) && Timely(e.message, now)
    ensures TrialOpens(TurnedTo(l, p, seed, Number(e)), p, s, e, seed, now)
  {
    var k := Recv(l, p) + 2;
    PostFacts(l, e, k);
    TurnTrial(l, p, s, e.message.header, seed, now);
    HonestOpens(l, e, k, now);
    NotStored(l, p, s.skipped, e, k);
    TrialOpensWith(TurnedTo(l, p, seed, Number(e)), p, s, e, seed, now, KeyAt(l, k, Number(e)));
  }

  /** On the peer's newest epoch: the old epoch is settled, the root moves, the number is used. */
  lemma DeliverTurn(l: Ledger, p: Role, s: State, e: Post, seed: Scalar, now: nat)
    requires Consistent(l) && StateOk(l, p, s) && Behind(l, p) && Fresh(l, seed)
    requires PostOk(l, e, Recv(l, p) + 2) && TurnFits(s, e.message.header) && Timely(e.message, now)
    ensures Delivers(TurnedTo(l, p, seed, Number(e)), p, s, e, seed, now)
  {
    var k := Recv(l, p) + 2;
    PostFacts(l, e, k);
    TurnOpens(l, p, s, e, seed, now);
    TurnedToConsistent(l, p, seed, Number(e));
    CommitKeeps(TurnedTo(l, p, seed, Number(e)), p, s, e, seed, now, k);
  }

  // ---------------------------------------------------------------- only produced messages succeed

  lemma DecryptOk(s: State, w: Wire, ad: Bytes, seed: Scalar, now: nat)
    requires Decrypt(s, w, ad, seed, now).result.Ok?
    ensures w.Wire? && HeaderCheck(w.message.header, now).None? && Timely(w.message, now)
    ensures var m := w.message; var id := KeyId(m.header.dh, m.header.number);
            if id in s.skipped then Open(s.skipped[id], m, ad, now).Ok?
            else Advance(s, m.header, seed, now).Ok? && Open(Advance(s, m.header, seed, now).value.key, m, ad, now).Ok?
  {
  }

  lemma StoredSound(l: Ledger, p: Role, s: State, epochs: seq<nat>, log: seq<Post>, m: Message, ad: Bytes, now: nat)
    returns (i: nat)
    requires Consistent(l) && StateOk(l, p, s) && LogOk(l, epochs, log) && NetworkBox(l.secret, log, m.box)
    requires KeyId(m.header.dh, m.header.number) in s.skipped
    requires Open(s.skipped[KeyId(m.header.dh, m.header.number)], m, ad, now).Ok?
    ensures i < |log| && log[i].message == m && log[i].ad == ad
    ensures Stored(l, p, epochs[i], m.header.number)
  {
    var id := KeyId(m.header.dh, m.header.number);
    var j: nat :| Stored(l, p, j, id.number) && id == KeyId(Point(l.scalars[j]), id.number);
    KeyRooted(l, j, id.number);
    i := OpenedIsLogged(l, epochs, log, m, ad, s.skipped[id], now);
    KeyAtInjective(l, j, id.number, epochs[i], id.number);
  }

  lemma StayOnly(l: Ledger, p: Role, s: State, h: Header, seed: Scalar, now: nat)
    requires Consistent(l) && StateOk(l, p, s) && 0 <= Recv(l, p) && h.dh == Point(l.scalars[Recv(l, p)])
    requires Advance(s, h, seed, now).Ok?
    ensures l.read[Recv(l, p)] <= h.number && Room(s, h)
  {
    ReceivingFacts(l, p, s);
    AdvanceStayOnly(s, h, seed, now, Start(l.secret, l.scalars, Recv(l, p)));
  }

  lemma TurnOnly(l: Ledger, p: Role, s: State, h: Header, seed: Scalar, now: nat)
    requires Consistent(l) && StateOk(l, p, s) && Behind(l, p)
    requires Recv(l, p) + 2 < |l.scalars| && h.dh == Point(l.scalars[Recv(l, p) + 2])
    requires 0 <= Recv(l, p) ==> h.previous == l.sent[Recv(l, p)]
    requires Advance(s, h, seed, now).Ok?
    ensures Room(s, h)
  {
    TurnFacts(l, p, s, h);
    AdvanceTurnOnly(s, h, seed, now, StartOrZero(l, Recv(l, p)), Known(l, p));
  }

  /** `k`, `n` is a position whose key `p` may still use. */
  ghost predicate Usable(l: Ledger, p: Role, k: nat, n: nat)
    requires Shape(l)
  {
    || Stored(l, p, k, n)
    || (k == Recv(l, p) && k < |l.read| && l.read[k] <= n)
    || (k == Recv(l, p) + 2 && Behind(l, p))
  }

  /** The header names epoch `k`, and the trial's key is that epoch's key of its number. */
  ghost predicate Hits(l: Ledger, s: State, h: Header, seed: Scalar, now: nat, k: nat)
    requires Shape(l)
  {
    && k < |l.scalars| && h.dh == Point(l.scalars[k]) && (k >= 2 ==> h.previous == l.sent[k - 2])
    && Advance(s, h, seed, now).Ok? && Advance(s, h, seed, now).value.key == KeyAt(l, k, h.number)
  }

  /** A trial that hits does so in the window, on a usable position. */
  lemma TrialPlace(l: Ledger, p: Role, s: State, h: Header, k: nat, seed: Scalar, now: nat)
    requires Consistent(l) && StateOk(l, p, s) && Hits(l, s, h, seed, now, k)
    ensures Usable(l, p, k, h.number) && Room(s, h)
  {
    TrialEpoch(l, p, s, h, seed, now, k);
    if k == Recv(l, p) {
      StayOnly(l, p, s, h, seed, now);
    } else {
      TurnOnly(l, p, s, h, seed, now);
    }
  }

  lemma OpenedPosition(l: Ledger, epochs: seq<nat>, log: seq<Post>, m: Message, ad: Bytes, key: Key, now: nat)
    returns (i: nat)
    requires Consistent(l) && LogOk(l, epochs, log) && NetworkBox(l.secret, log, m.box)
    requires Open(key, m, ad, now).Ok? && RootedAt(key, l.secret)
    ensures i < |log| && log[i].message == m && log[i].ad == ad
    ensures epochs[i] < |l.scalars| && m.header.dh == Point(l.scalars[epochs[i]])
    ensures epochs[i] >= 2 ==> m.header.previous == l.sent[epochs[i] - 2]
    ensures key == KeyAt(l, epochs[i], m.header.number)
  {
    i := OpenedIsLogged(l, epochs, log, m, ad, key, now);
    PostFacts(l, log[i], epochs[i]);
  }

  /** The produced message is the one at `i`, on a usable position and in the window. */
  ghost predicate SoundAt(l: Ledger, p: Role, s: State, epochs: seq<nat>, log: seq<Post>, m: Message, ad: Bytes, i: nat)
    requires Shape(l) && |epochs| == |log|
  {
    i < |log| && log[i].message == m && log[i].ad == ad && Usable(l, p, epochs[i], m.header.number) && Room(s, m.header)
  }

  /** The trial hits the message at `i`. */
  ghost predicate HitAt(l: Ledger, s: State, epochs: seq<nat>, log: seq<Post>, m: Message, ad: Bytes, seed: Scalar, now: nat, i: nat)
    requires Shape(l) && |epochs| == |log|
  {
    i < |log| && log[i].message == m && log[i].ad == ad && Hits(l, s, m.header, seed, now, epochs[i])
  }

  lemma TrialPosition(l: Ledger, p: Role, s: State, epochs: seq<nat>, log: seq<Post>, m: Message, ad: Bytes,
                      seed: Scalar, now: nat)
    requires Consistent(l) && SendingOk(l, p, s) && ReceivingOk(l, p, s)
    requires LogOk(l, epochs, log) && NetworkBox(l.secret, log, m.box)
    requires Advance(s, m.header, seed, now).Ok? && Open(Advance(s, m.header, seed, now).value.key, m, ad, now).Ok?
    ensures exists i: nat :: HitAt(l, s, epochs, log, m, ad, seed, now, i)
  {
    TrialRooted(l, p, s, m.header, seed, now);
    var i := OpenedPosition(l, epochs, log, m, ad, Advance(s, m.header, seed, now).value.key, now);
    assert HitAt(l, s, epochs, log, m, ad, seed, now, i);
  }

  lemma HitSound(l: Ledger, p: Role, s: State, epochs: seq<nat>, log: seq<Post>, m: Message, ad: Bytes,
                 seed: Scalar, now: nat, i: nat)
    requires Consistent(l) && StateOk(l, p, s) && |epochs| == |log| && HitAt(l, s, epochs, log, m, ad, seed, now, i)
    ensures SoundAt(l, p, s, epochs, log, m, ad, i)
  {
    TrialPlace(l, p, s, m.header, epochs[i], seed, now);
  }

  lemma TrialSound(l: Ledger, p: Role, s: State, epochs: seq<nat>, log: seq<Post>, m: Message, ad: Bytes,
                   seed: Scalar, now: nat)
    requires Consistent(l) && StateOk(l, p, s) && LogOk(l, epochs, log) && NetworkBox(l.secret, log, m.box)
    requires Advance(s, m.header, seed, now).Ok? && Open(Advance(s, m.header, seed, now).value.key, m, ad, now).Ok?
    ensures exists i: nat :: SoundAt(l, p, s, epochs, log, m, ad, i)
  {
    TrialPosition(l, p, s, epochs, log, m, ad, seed, now);
    var i: nat :| HitAt(l, s, epochs, log, m, ad, seed, now, i);
    HitSound(l, p, s, epochs, log, m, ad, seed, now, i);
  }

  /** Soundness: a successful delivery is of a message the peer produced and `p` had not accepted. */
  lemma DeliverSound(l: Ledger, p: Role, s: State, epochs: seq<nat>, log: seq<Post>, w: Wire, ad: Bytes,
                     seed: Scalar, now: nat)
    returns (i: nat)
    requires Consistent(l) && StateOk(l, p, s) && LogOk(l, epochs, log)
    requires w.Wire? ==> NetworkBox(l.secret, log, w.message.box)
    requires Decrypt(s, w, ad, seed, now).result.Ok?
    ensures w.Wire? && Timely(w.message, now) && Room(s, w.message.header)
    ensures i < |log| && log[i] == Post(Peer(p), ad, w.message)
    ensures epochs[i] < |l.accepted| && Number(log[i]) !in l.accepted[epochs[i]]
  {
    DecryptOk(s, w, ad, seed, now);
    var m := w.message;
    if KeyId(m.header.dh, m.header.number) in s.skipped {
      i := StoredSound(l, p, s, epochs, log, m, ad, now);
    } else {
      TrialSound(l, p, s, epochs, log, m, ad, seed, now);
      i :| SoundAt(l, p, s, epochs, log, m, ad, i);
    }
    assert PostOk(l, log[i], epochs[i]);
    OpenFacts(l, p, epochs[i], m.header.number);
  }

  lemma OpenFacts(l: Ledger, p: Role, k: nat, n: nat)
    requires Consistent(l) && Usable(l, p, k, n) && k < |l.scalars|
    ensures Sender(k) == Peer(p) && n !in l.accepted[k]
  {
  }

  // ---------------------------------------------------------------- every produced message succeeds once

  /** A message of the peer is on an old epoch, on the current one, or on the one to turn to. */
  lemma PeerEpoch(l: Ledger, p: Role, k: nat)
    requires Consistent(l) && k < |l.scalars| && Sender(k) == Peer(p)
    ensures k <= Recv(l, p) || (k == Recv(l, p) + 2 && Behind(l, p))
  {
  }

  lemma RoomOnEpoch(l: Ledger, p: Role, s: State, e: Post, k: nat)
    requires Consistent(l) && StateOk(l, p, s) && PostOk(l, e, k) && Room(s, e.message.header)
    requires !Stored(l, p, k, Number(e))
    ensures k == Recv(l, p) ==> |s.skipped| + Number(e) - l.read[k] <= s.maxSkip
    ensures k == Recv(l, p) + 2 && Behind(l, p) ==> TurnFits(s, e.message.header)
  {
    StoreLookup(l, p, s.skipped, k, Number(e));
    if k == Recv(l, p) + 2 && Behind(l, p) && 0 <= Recv(l, p) {
      ReceivingFacts(l, p, s);
    }
  }

  lemma TookTurn(l: Ledger, p: Role, k: nat, n: nat, x: Scalar)
    requires Shape(l) && k == Recv(l, p) + 2 && Behind(l, p) && k < |l.sent| && n < l.sent[k]
    ensures Took(l, p, k, n, x, TurnedTo(l, p, x, n))
  {
  }

  lemma TookStay(l: Ledger, p: Role, k: nat, n: nat, x: Scalar)
    requires Shape(l) && k == Recv(l, p) && l.read[k] <= n < l.sent[k]
    ensures Took(l, p, k, n, x, StayedTo(l, p, n))
  {
  }

  lemma CompleteTurn(l: Ledger, p: Role, s: State, e: Post, k: nat, seed: Scalar, now: nat)
    requires Consistent(l) && StateOk(l, p, s) && PostOk(l, e, k) && Fresh(l, seed)
    requires k == Recv(l, p) + 2 && Behind(l, p) && Timely(e.message, now) && Room(s, e.message.header)
    ensures Took(l, p, k, Number(e), seed, TurnedTo(l, p, seed, Number(e)))
    ensures Delivers(TurnedTo(l, p, seed, Number(e)), p, s, e, seed, now)
  {
    TookTurn(l, p, k, Number(e), seed);
    RoomOnEpoch(l, p, s, e, k);
    DeliverTurn(l, p, s, e, seed, now);
  }

  lemma CompleteStay(l: Ledger, p: Role, s: State, e: Post, k: nat, seed: Scalar, now: nat)
    requires Consistent(l) && StateOk(l, p, s) && PostOk(l, e, k)
    requires k == Recv(l, p) && l.read[k] <= Number(e) && Timely(e.message, now) && Room(s, e.message.header)
    ensures Took(l, p, k, Number(e), seed, StayedTo(l, p, Number(e)))
    ensures Delivers(StayedTo(l, p, Number(e)), p, s, e, seed, now)
  {
    TookStay(l, p, k, Number(e), seed);
    RoomOnEpoch(l, p, s, e, k);
    DeliverStay(l, p, s, e, seed, now);
  }

  lemma DeliverUnstored(l: Ledger, p: Role, s: State, e: Post, k: nat, seed: Scalar, now: nat)
    returns (l': Ledger)
    requires Consistent(l) && StateOk(l, p, s) && PostOk(l, e, k) && Fresh(l, seed)
    requires (k == Recv(l, p) + 2 && Behind(l, p)) || (k == Recv(l, p) && l.read[k] <= Number(e))
    requires Timely(e.message, now) && Room(s, e.message.header)
    ensures Took(l, p, k, Number(e), seed, l') && Delivers(l', p, s, e, seed, now)
  {
    if k == Recv(l, p) + 2 {
      CompleteTurn(l, p, s, e, k, seed, now);
      return TurnedTo(l, p, seed, Number(e));
    }
    CompleteStay(l, p, s, e, k, seed, now);
    return StayedTo(l, p, Number(e));
  }

  /**
    Completeness: a message the peer produced, not yet accepted, in time and with room in
    the store, is delivered whatever order and however late it arrives; the ledger moves by
    exactly that number.
    */
  lemma DeliverComplete(l: Ledger, p: Role, s: State, e: Post, k: nat, seed: Scalar, now: nat)
    returns (l': Ledger)
    requires Consistent(l) && StateOk(l, p, s) && PostOk(l, e, k) && e.from == Peer(p) && Fresh(l, seed)
    requires Number(e) !in l.accepted[k] && Timely(e.message, now) && Room(s, e.message.header)
    ensures Took(l, p, k, Number(e), seed, l') && Delivers(l', p, s, e, seed, now)
  {
    if Stored(l, p, k, Number(e)) {
      DeliverStored(l, p, s, e, k, seed, now);
      return Accepted(l, k, Number(e));
    }
    PeerEpoch(l, p, k);
    if k <= Recv(l, p) {
      UnreadOnCurrent(l, p, k, Number(e));
    }
    l' := DeliverUnstored(l, p, s, e, k, seed, now);
  }

  /** On an epoch already left behind every key is drawn, so what is not stored is accepted. */
  lemma UnreadOnCurrent(l: Ledger, p: Role, k: nat, n: nat)
    requires Consistent(l) && k < |l.scalars| && Sender(k) == Peer(p) && k <= Recv(l, p)
    requires n < l.sent[k] && n !in l.accepted[k] && !Stored(l, p, k, n)
    ensures k == Recv(l, p) && l.read[k] <= n
  {
  }
}
