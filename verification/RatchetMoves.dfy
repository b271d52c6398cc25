/**
  The moves of the ledger that a successful delivery or a send makes, and that each move
  keeps the state of the party making it, the state of its peer, and the ledger itself in
  order.
  */
module RatchetMoves {
  import opened Wrappers
  import opened Crypto
  import opened Ratchet
  import opened RatchetLedger
  import opened RatchetSteps

  // ---------------------------------------------------------------- moves of a delivery

  function StayedTo(l: Ledger, p: Role, n: nat): Ledger
    requires Shape(l) && 0 <= Recv(l, p)
  {
    TookNext(ReadTo(l, Recv(l, p), n), Recv(l, p))
  }

  /** All keys of the epoch `p` is about to leave are drawn. */
  function Settled(l: Ledger, p: Role): Ledger
    requires Shape(l)
  {
    if Recv(l, p) < 0 then l else ReadTo(l, Recv(l, p), l.sent[Recv(l, p)])
  }

  /** The peer of `p` is one epoch ahead: `p` has something new to turn to. */
  predicate Behind(l: Ledger, p: Role) { Live(l, p) && l.live && Recv(l, Peer(p)) == Recv(l, p) + 1 }

  function TurnedTo(l: Ledger, p: Role, x: Scalar, n: nat): Ledger
    requires Shape(l) && Behind(l, p)
  {
    var k := Recv(l, p) + 2;
    TookNext(ReadTo(Turned(Settled(l, p), p, x), k, n), k)
  }

  // ---------------------------------------------------------------- what the store answers

  lemma StoreUnread(l: Ledger, p: Role, s: State)
    requires Consistent(l) && StateOk(l, p, s) && 0 <= Recv(l, p)
    ensures Unread(s, Point(l.scalars[Recv(l, p)]))
  {
    var r := Recv(l, p);
    forall i: nat | i >= s.receiving.value.index ensures KeyId(Point(l.scalars[r]), i) !in s.skipped {
      StoreLookup(l, p, s.skipped, r, i);
    }
  }

  // ---------------------------------------------------------------- the mover

  /** The sending half depends on the sender's own epochs only. */
  lemma SendingFrame(l: Ledger, l': Ledger, p: Role, s: State, t: State)
    requires Shape(l) && Shape(l') && SendingOk(l, p, s) && Extends(l, l')
    requires Recv(l', p) == Recv(l, p) && Live(l', p) == Live(l, p)
    requires Live(l, p) ==> Recv(l, p) + 1 < |l.scalars| && l'.sent[Recv(l, p) + 1] == l.sent[Recv(l, p) + 1]
    requires t.root == s.root && t.dhLocal == s.dhLocal && t.sending == s.sending
    ensures SendingOk(l', p, t)
  {
    KeysStable(l, l', if Live(l, p) then Recv(l, p) + 1 else 0);
  }

  lemma ReceivingFrame(l: Ledger, l': Ledger, p: Role, s: State)
    requires Shape(l) && Shape(l') && ReceivingOk(l, p, s) && Extends(l, l')
    requires Recv(l', p) == Recv(l, p)
    requires 0 <= Recv(l, p) ==> l'.read[Recv(l, p)] == l.read[Recv(l, p)]
    requires 1 <= Recv(l, p) ==> l'.sent[Recv(l, p) - 1] == l.sent[Recv(l, p) - 1]
    ensures ReceivingOk(l', p, s)
  {
    if 0 <= Recv(l, p) {
      KeysStable(l, l', Recv(l, p));
    }
  }

  lemma StayReceiving(l: Ledger, p: Role, s: State, t: State, n: nat)
    requires Shape(l) && ReceivingOk(l, p, s) && 0 <= Recv(l, p)
    requires t == Pulled(s, Start(l.secret, l.scalars, Recv(l, p)), n + 1, t.skipped)
    ensures ReceivingOk(StayedTo(l, p, n), p, t)
  {
  }

  lemma StayStore(l: Ledger, p: Role, store: map<KeyId, Key>, store': map<KeyId, Key>, n: nat)
    requires Consistent(l) && StoreOk(l, p, store) && 0 <= Recv(l, p) && l.read[Recv(l, p)] <= n
    requires Filled(store, store', Point(l.scalars[Recv(l, p)]),
                    Start(l.secret, l.scalars, Recv(l, p)), l.read[Recv(l, p)], n)
    ensures StoreOk(StayedTo(l, p, n), p, store')
  {
    StoreRead(l, p, store, store', n);
    StoreDirect(ReadTo(l, Recv(l, p), n), p, store', Recv(l, p));
  }

  ghost predicate StayReached(l: Ledger, p: Role, s: State, t: State, n: nat)
    requires Shape(l) && 0 <= Recv(l, p) && s.receiving.Some?
  {
    var start := Start(l.secret, l.scalars, Recv(l, p));
    && t == Pulled(s, start, n + 1, t.skipped) && |t.skipped| <= t.maxSkip
    && Filled(s.skipped, t.skipped, Point(l.scalars[Recv(l, p)]), start, l.read[Recv(l, p)], n)
  }

  lemma StayKeepsState(l: Ledger, p: Role, s: State, t: State, n: nat)
    requires Consistent(l) && StateOk(l, p, s) && 0 <= Recv(l, p) && l.read[Recv(l, p)] <= n
    requires StayReached(l, p, s, t, n)
    ensures StateOk(StayedTo(l, p, n), p, t)
  {
    StayStore(l, p, s.skipped, t.skipped, n);
    StayReceiving(l, p, s, t, n);
    SendingFrame(l, StayedTo(l, p, n), p, s, t);
  }

  lemma SmallerStore(store: map<KeyId, Key>, id: KeyId)
    ensures |store - {id}| <= |store|
  {
    assert (store - {id}).Keys == store.Keys - {id};
    assert |store - {id}| == |(store - {id}).Keys|;
  }

  lemma UseKeepsState(l: Ledger, p: Role, s: State, t: State, k: nat, n: nat)
    requires Consistent(l) && StateOk(l, p, s) && Stored(l, p, k, n)
    requires t == s.(skipped := s.skipped - {KeyId(Point(l.scalars[k]), n)})
    ensures StateOk(Accepted(l, k, n), p, t)
  {
    StoreConsume(l, p, s.skipped, k, n);
    SmallerStore(s.skipped, KeyId(Point(l.scalars[k]), n));
    SendingFrame(l, Accepted(l, k, n), p, s, t);
    ReceivingFrame(l, Accepted(l, k, n), p, s);
    assert ReceivingOk(Accepted(l, k, n), p, t);
  }

  // ---------------------------------------------------------------- the mover, across a ratchet

  predicate Fresh(l: Ledger, x: Scalar) { x !in l.scalars && x != l.spare }

  lemma TurnedShape(l: Ledger, p: Role, x: Scalar)
    requires Shape(l) && Behind(l, p)
    ensures Shape(Turned(Settled(l, p), p, x)) && Extends(l, Turned(Settled(l, p), p, x))
    ensures Recv(Turned(Settled(l, p), p, x), p) == Recv(l, p) + 2
    ensures |l.scalars| == Recv(l, p) + 3
    ensures Turned(Settled(l, p), p, x).scalars == l.scalars + [x]
  {
    assert Turned(Settled(l, p), p, x).scalars == l.scalars + [x];
  }

  lemma TurnedDistinct(l: Ledger, p: Role, x: Scalar)
    requires Shape(l) && Distinct(l) && Behind(l, p) && Fresh(l, x)
    ensures Distinct(Turned(Settled(l, p), p, x))
  {
    TurnedShape(l, p, x);
  }

  lemma SettledCounts(l: Ledger, p: Role)
    requires Shape(l) && Counts(l)
    ensures Shape(Settled(l, p)) && Counts(Settled(l, p))
  {
  }

  lemma TurnedCounts(l: Ledger, p: Role, x: Scalar)
    requires Shape(l) && Counts(l) && Behind(l, p) && (0 <= Recv(l, p) ==> l.read[Recv(l, p)] == l.sent[Recv(l, p)])
    ensures Shape(Turned(l, p, x)) && Counts(Turned(l, p, x))
  {
    EpochsOf(l, p);
    assert Turned(l, p, x).scalars == l.scalars + [x];
  }

  lemma TurnedConsistent(l: Ledger, p: Role, x: Scalar)
    requires Consistent(l) && Behind(l, p) && Fresh(l, x)
    ensures Consistent(Turned(Settled(l, p), p, x))
  {
    TurnedDistinct(l, p, x);
    SettledCounts(l, p);
    TurnedCounts(Settled(l, p), p, x);
  }

  lemma TurnStore(l: Ledger, p: Role, x: Scalar, store: map<KeyId, Key>, store1: map<KeyId, Key>)
    requires Consistent(l) && Behind(l, p) && Fresh(l, x) && StoreOk(l, p, store)
    requires Recv(l, p) < 0 ==> store1 == store
    requires var r := Recv(l, p);
             0 <= r ==> Filled(store, store1, Point(l.scalars[r]), Start(l.secret, l.scalars, r), l.read[r], l.sent[r])
    ensures Shape(Turned(Settled(l, p), p, x)) && StoreOk(Turned(Settled(l, p), p, x), p, store1)
  {
    var l1 := Settled(l, p);
    if 0 <= Recv(l, p) {
      StoreRead(l, p, store, store1, l.sent[Recv(l, p)]);
    }
    assert StoreOk(l1, p, store1);
    TurnedShape(l, p, x);
    StoreFrame(l1, Turned(l1, p, x), p, store1);
  }

  /** Both parties derive the same root and the same chain from the two newest scalars. */
  lemma TurnAgrees(l: Ledger, p: Role, s: State, x: Scalar)
    requires Shape(l) && Behind(l, p) && SendingOk(l, p, s)
    ensures |l.scalars| == Recv(l, p) + 3 && s.dhLocal.Some?
    ensures var k := Recv(l, p) + 2; var dh := DiffieHellman(s.dhLocal.value, Point(l.scalars[k]));
            && RatchetChain(s.root, dh) == Start(l.secret, l.scalars + [x], k)
            && RatchetRoot(s.root, dh) == Root(l.secret, l.scalars + [x], k)
            && RatchetChain(RatchetRoot(s.root, dh), DiffieHellman(x, Point(l.scalars[k])))
                 == Start(l.secret, l.scalars + [x], k + 1)
            && RatchetRoot(RatchetRoot(s.root, dh), DiffieHellman(x, Point(l.scalars[k])))
                 == Root(l.secret, l.scalars + [x], k + 1)
  {
    var k := Recv(l, p) + 2;
    RootStable(l.secret, l.scalars, x, k);
    RootStable(l.secret, l.scalars, x, k - 1);
  }

  ghost predicate TurnReached(l: Ledger, p: Role, s: State, h: Header, x: Scalar, now: nat,
                              store1: map<KeyId, Key>, t: State, n: nat)
    requires Shape(l) && Behind(l, p) && s.dhLocal.Some?
  {
    var s1 := Turn(s, h, x, now, store1);
    && |l.scalars| == Recv(l, p) + 3
    && h.dh == Point(l.scalars[Recv(l, p) + 2])
    && t == Pulled(s1, s1.receiving.value.key, n + 1, t.skipped)
  }

  /** The store gained the rest of the epoch left behind and the skipped part of the new one. */
  ghost predicate TurnFilled(l: Ledger, p: Role, store: map<KeyId, Key>, store1: map<KeyId, Key>,
                             store2: map<KeyId, Key>, n: nat)
    requires Shape(l) && Recv(l, p) + 2 < |l.scalars|
  {
    var r := Recv(l, p);
    && (r < 0 ==> store1 == store)
    && (0 <= r ==> Filled(store, store1, Point(l.scalars[r]), Start(l.secret, l.scalars, r), l.read[r], l.sent[r]))
    && Filled(store1, store2, Point(l.scalars[r + 2]), Start(l.secret, l.scalars, r + 2), 0, n)
  }

  /** The ledger of the turned party before it reads on its new epoch. */
  lemma TurnedToIs(l: Ledger, p: Role, x: Scalar, n: nat)
    requires Shape(l) && Behind(l, p)
    ensures var l', l2 := TurnedTo(l, p, x, n), Turned(Settled(l, p), p, x);
            && Shape(l2) && Recv(l2, p) == Recv(l, p) + 2 && Recv(l, p) + 3 < |l2.scalars| && l' == StayedTo(l2, p, n)
            && Shape(l') && Recv(l', p) == Recv(l, p) + 2 && Live(l', p)
            && l'.secret == l.secret && l'.scalars == l2.scalars == l.scalars + [x] && l'.sent == l2.sent == l.sent + [0]
            && l2.read[Recv(l, p) + 2] == l.read[Recv(l, p) + 2] && l'.read[Recv(l, p) + 2] == n + 1
  {
    TurnedShape(l, p, x);
  }

  lemma TurnSending(l: Ledger, p: Role, s: State, h: Header, x: Scalar, now: nat,
                    store1: map<KeyId, Key>, t: State, n: nat)
    requires Shape(l) && Behind(l, p) && SendingOk(l, p, s)
    requires TurnReached(l, p, s, h, x, now, store1, t, n)
    ensures Shape(TurnedTo(l, p, x, n)) && SendingOk(TurnedTo(l, p, x, n), p, t)
  {
    TurnedToIs(l, p, x, n);
    TurnAgrees(l, p, s, x);
  }

  lemma TurnReceiving(l: Ledger, p: Role, s: State, h: Header, x: Scalar, now: nat,
                      store1: map<KeyId, Key>, t: State, n: nat)
    requires Shape(l) && Behind(l, p) && SendingOk(l, p, s)
    requires TurnReached(l, p, s, h, x, now, store1, t, n)
    ensures Shape(TurnedTo(l, p, x, n)) && ReceivingOk(TurnedTo(l, p, x, n), p, t)
  {
    TurnedToIs(l, p, x, n);
    TurnAgrees(l, p, s, x);
  }

  lemma NothingReadAhead(l: Ledger, p: Role)
    requires Consistent(l) && Behind(l, p)
    ensures Recv(l, p) + 2 < |l.scalars| && l.read[Recv(l, p) + 2] == 0
  {
    var k := Recv(l, p) + 2;
    assert k < |l.scalars| && ReaderRecv(l, k) == Recv(l, p);
  }

  /** The new epoch is the same seen from the ledger that has turned. */
  lemma TurnedEpoch(l: Ledger, p: Role, x: Scalar)
    requires Consistent(l) && Behind(l, p)
    ensures var l2 := Turned(Settled(l, p), p, x); var k := Recv(l, p) + 2;
            && Shape(l2) && Recv(l2, p) == k < |l.scalars| && k < |l2.scalars| && l2.read[k] == 0
            && l2.scalars[k] == l.scalars[k] && Start(l2.secret, l2.scalars, k) == Start(l.secret, l.scalars, k)
  {
    NothingReadAhead(l, p);
    TurnedToIs(l, p, x, 0);
    RootStable(l.secret, l.scalars, x, Recv(l, p) + 2);
  }

  /** `l2` is the ledger that has turned, in order, with `store1` as its store. */
  ghost predicate TurnedWith(l: Ledger, p: Role, x: Scalar, store1: map<KeyId, Key>, l2: Ledger)
    requires Shape(l)
  {
    && l2 == Turned(Settled(l, p), p, x) && Consistent(l2) && StoreOk(l2, p, store1)
    && 0 <= Recv(l2, p) == Recv(l, p) + 2 < |l.scalars| && l2.read[Recv(l2, p)] == 0
    && l2.scalars[Recv(l2, p)] == l.scalars[Recv(l2, p)]
    && Start(l2.secret, l2.scalars, Recv(l2, p)) == Start(l.secret, l.scalars, Recv(l2, p))
  }

  lemma TurnMiddle(l: Ledger, p: Role, x: Scalar, store: map<KeyId, Key>, store1: map<KeyId, Key>)
    requires Consistent(l) && Behind(l, p) && Fresh(l, x) && StoreOk(l, p, store)
    requires Recv(l, p) < 0 ==> store1 == store
    requires var r := Recv(l, p);
             0 <= r ==> Filled(store, store1, Point(l.scalars[r]), Start(l.secret, l.scalars, r), l.read[r], l.sent[r])
    ensures exists l2 :: TurnedWith(l, p, x, store1, l2)
  {
    TurnStore(l, p, x, store, store1);
    TurnedConsistent(l, p, x);
    TurnedEpoch(l, p, x);
    assert TurnedWith(l, p, x, store1, Turned(Settled(l, p), p, x));
  }

  lemma TurnedToStays(l: Ledger, p: Role, x: Scalar, n: nat, l2: Ledger)
    requires Shape(l) && Behind(l, p) && Shape(l2) && l2 == Turned(Settled(l, p), p, x) && Recv(l2, p) == Recv(l, p) + 2
    ensures Shape(StayedTo(l2, p, n)) && TurnedTo(l, p, x, n) == StayedTo(l2, p, n)
  {
  }

  /** Reading on from there. */
  lemma TurnedWithReads(l: Ledger, p: Role, x: Scalar, store1: map<KeyId, Key>, store2: map<KeyId, Key>, n: nat, l2: Ledger)
    requires Shape(l) && Behind(l, p) && TurnedWith(l, p, x, store1, l2)
    requires var k := Recv(l, p) + 2; Filled(store1, store2, Point(l.scalars[k]), Start(l.secret, l.scalars, k), 0, n)
    ensures Shape(TurnedTo(l, p, x, n)) && StoreOk(TurnedTo(l, p, x, n), p, store2)
  {
    StayStore(l2, p, store1, store2, n);
    TurnedToStays(l, p, x, n, l2);
  }

  lemma TurnStored(l: Ledger, p: Role, x: Scalar, store: map<KeyId, Key>, store1: map<KeyId, Key>, store2: map<KeyId, Key>, n: nat)
    requires Consistent(l) && Behind(l, p) && Fresh(l, x) && StoreOk(l, p, store)
    requires Recv(l, p) + 2 < |l.scalars| && TurnFilled(l, p, store, store1, store2, n)
    ensures Shape(TurnedTo(l, p, x, n)) && StoreOk(TurnedTo(l, p, x, n), p, store2)
  {
    TurnMiddle(l, p, x, store, store1);
    var l2 :| TurnedWith(l, p, x, store1, l2);
    TurnedWithReads(l, p, x, store1, store2, n, l2);
  }

  lemma TurnKeepsState(l: Ledger, p: Role, s: State, h: Header, x: Scalar, now: nat,
                       store1: map<KeyId, Key>, t: State, n: nat)
    requires Consistent(l) && Behind(l, p) && Fresh(l, x) && StateOk(l, p, s)
    requires TurnReached(l, p, s, h, x, now, store1, t, n) && |t.skipped| <= t.maxSkip
    requires TurnFilled(l, p, s.skipped, store1, t.skipped, n)
    ensures Shape(TurnedTo(l, p, x, n)) && StateOk(TurnedTo(l, p, x, n), p, t)
  {
    TurnSending(l, p, s, h, x, now, store1, t, n);
    TurnReceiving(l, p, s, h, x, now, store1, t, n);
    TurnStored(l, p, x, s.skipped, store1, t.skipped, n);
  }

  // ---------------------------------------------------------------- the peer of the mover

  /** What `l'` leaves as it was: `q`'s position, `q`'s own sends and `q`'s own reads. */
  ghost predicate LeavesAlone(l: Ledger, l': Ledger, q: Role)
    requires Shape(l) && Shape(l')
  {
    && Extends(l, l') && Recv(l', q) == Recv(l, q) && Live(l', q) == Live(l, q)
    && (forall k :: 0 <= k < |l.scalars| && Sender(k) == q ==> l'.sent[k] == l.sent[k])
    && (forall k :: 0 <= k < |l.scalars| && Sender(k) != q ==> l'.read[k] == l.read[k] && l'.accepted[k] == l.accepted[k])
  }

  lemma PeerKeepsSending(l: Ledger, l': Ledger, q: Role, s: State)
    requires Shape(l) && Shape(l') && LeavesAlone(l, l', q) && SendingOk(l, q, s)
    ensures SendingOk(l', q, s)
  {
    EpochsOf(l, q);
    SendingFrame(l, l', q, s, s);
  }

  lemma PeerKeepsReceiving(l: Ledger, l': Ledger, q: Role, s: State)
    requires Shape(l) && Shape(l') && LeavesAlone(l, l', q) && ReceivingOk(l, q, s)
    ensures ReceivingOk(l', q, s)
  {
    EpochsOf(l, q);
    ReceivingFrame(l, l', q, s);
  }

  lemma PeerKeepsStore(l: Ledger, l': Ledger, q: Role, store: map<KeyId, Key>)
    requires Shape(l) && Shape(l') && LeavesAlone(l, l', q) && StoreOk(l, q, store)
    ensures StoreOk(l', q, store)
  {
    StoreFrame(l, l', q, store);
  }

  /** Then `q`'s state stays correct. */
  lemma PeerKeepsState(l: Ledger, l': Ledger, q: Role, s: State)
    requires Shape(l) && Shape(l') && LeavesAlone(l, l', q) && StateOk(l, q, s)
    ensures StateOk(l', q, s)
  {
    PeerKeepsSending(l, l', q, s);
    PeerKeepsReceiving(l, l', q, s);
    PeerKeepsStore(l, l', q, s.skipped);
  }

  // ---------------------------------------------------------------- order of the ledger

  lemma StayedConsistent(l: Ledger, p: Role, n: nat)
    requires Consistent(l) && 0 <= Recv(l, p) && l.read[Recv(l, p)] <= n < l.sent[Recv(l, p)]
    ensures Consistent(StayedTo(l, p, n))
  {
  }

  lemma UsedConsistent(l: Ledger, p: Role, k: nat, n: nat)
    requires Consistent(l) && Stored(l, p, k, n)
    ensures Consistent(Accepted(l, k, n))
  {
  }

  lemma TurnedToConsistent(l: Ledger, p: Role, x: Scalar, n: nat)
    requires Consistent(l) && Behind(l, p) && Fresh(l, x)
    requires Recv(l, p) + 2 < |l.sent| && n < l.sent[Recv(l, p) + 2]
    ensures Consistent(TurnedTo(l, p, x, n)) && Extends(l, TurnedTo(l, p, x, n))
    ensures TurnedTo(l, p, x, n).scalars == l.scalars + [x]
    ensures n in TurnedTo(l, p, x, n).accepted[Recv(l, p) + 2]
  {
    TurnedConsistent(l, p, x);
    TurnedShape(l, p, x);
    var l2 := Turned(Settled(l, p), p, x);
    assert l2.sent == l.sent + [0];
    assert l2.read[Recv(l, p) + 2] == 0;
    StayedConsistent(l2, p, n);
    assert TurnedTo(l, p, x, n) == StayedTo(l2, p, n);
  }

  // ---------------------------------------------------------------- moves of a send

  function Opener(l: Ledger, p: Role, x: Scalar): Ledger { if Live(l, p) then l else WentLive(l, x) }

  lemma OpenerFacts(l: Ledger, p: Role, x: Scalar)
    requires Consistent(l) && (Live(l, p) || Fresh(l, x))
    ensures Consistent(Opener(l, p, x)) && Extends(l, Opener(l, p, x))
    ensures Live(Opener(l, p, x), p) && Recv(l, p) + 1 < |Opener(l, p, x).scalars|
    ensures Recv(Opener(l, p, x), p) == Recv(l, p)
    ensures !Live(l, p) ==> Opener(l, p, x).sent[Recv(l, p) + 1] == 0
  {
    if !Live(l, p) {
      assert Opener(l, p, x).scalars == l.scalars + [x];
    }
  }

  function SentOne(l: Ledger, p: Role, x: Scalar): Ledger
    requires Recv(l, p) + 1 < |Opener(l, p, x).sent| && 0 <= Recv(l, p) + 1
  {
    DrewToSend(Opener(l, p, x), Recv(l, p) + 1)
  }

  lemma SentConsistent(l: Ledger, p: Role)
    requires Consistent(l) && Live(l, p) && Recv(l, p) + 1 < |l.scalars|
    requires l.sent[Recv(l, p) + 1] < MAX_CHAIN_MESSAGES
    ensures Consistent(DrewToSend(l, Recv(l, p) + 1))
  {
  }

  lemma OpenerSending(l: Ledger, p: Role, s: State, x: Scalar, now: nat)
    requires Shape(l) && SendingOk(l, p, s) && ReceivingOk(l, p, s) && !Live(l, p) && Shape(WentLive(l, x))
    ensures SendingOk(WentLive(l, x), p, PerformDhRatchet(s, x, now))
  {
    RootStable(l.secret, l.scalars, x, 0);
  }

  lemma OpenerReceiving(l: Ledger, p: Role, s: State, x: Scalar, now: nat)
    requires Shape(l) && ReceivingOk(l, p, s) && !Live(l, p) && Shape(WentLive(l, x))
    ensures ReceivingOk(WentLive(l, x), p, PerformDhRatchet(s, x, now))
  {
    ReceivingFrame(l, WentLive(l, x), p, s);
  }

  /** The responder's first send derives root and chain of epoch 1. */
  lemma OpenerKeepsState(l: Ledger, p: Role, s: State, x: Scalar, now: nat)
    requires Consistent(l) && StateOk(l, p, s) && !Live(l, p) && Fresh(l, x)
    ensures Shape(WentLive(l, x)) && StateOk(WentLive(l, x), p, PerformDhRatchet(s, x, now))
  {
    OpenerFacts(l, p, x);
    OpenerSending(l, p, s, x, now);
    OpenerReceiving(l, p, s, x, now);
    StoreFrame(l, WentLive(l, x), p, s.skipped);
  }

  lemma SentSending(l: Ledger, p: Role, s: State, t: State)
    requires Consistent(l) && SendingOk(l, p, s) && Live(l, p) && Recv(l, p) + 1 < |l.scalars|
    requires Draw(s.sending.value).Some?
    requires t == s.(sending := Some(Draw(s.sending.value).value.chain))
    ensures l.sent[Recv(l, p) + 1] < MAX_CHAIN_MESSAGES
    ensures SendingOk(DrewToSend(l, Recv(l, p) + 1), p, t)
  {
  }

  lemma SentReceiving(l: Ledger, p: Role, s: State, t: State)
    requires Consistent(l) && ReceivingOk(l, p, s) && StoreOk(l, p, s.skipped) && Live(l, p) && Recv(l, p) + 1 < |l.scalars|
    requires t == s.(sending := t.sending)
    ensures var l' := DrewToSend(l, Recv(l, p) + 1); ReceivingOk(l', p, t) && StoreOk(l', p, t.skipped)
  {
    var l' := DrewToSend(l, Recv(l, p) + 1);
    StoreFrame(l, l', p, s.skipped);
    ReceivingFrame(l, l', p, s);
    assert ReceivingOk(l', p, t);
  }

  lemma SentKeepsState(l: Ledger, p: Role, s: State, t: State)
    requires Consistent(l) && StateOk(l, p, s) && Live(l, p) && Recv(l, p) + 1 < |l.scalars|
    requires Draw(s.sending.value).Some?
    requires t == s.(sending := Some(Draw(s.sending.value).value.chain))
    ensures l.sent[Recv(l, p) + 1] < MAX_CHAIN_MESSAGES
    ensures StateOk(DrewToSend(l, Recv(l, p) + 1), p, t)
  {
    SentSending(l, p, s, t);
    SentReceiving(l, p, s, t);
  }
}
