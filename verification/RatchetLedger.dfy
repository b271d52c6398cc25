/**
  What two matched sessions have jointly done, told without reference to either state.

  Every sending chain of a conversation is an epoch: even epochs belong to the initiator,
  odd epochs to the responder. Epoch k is opened by scalar `scalars[k]`; its root and its
  chain are derived from the root of epoch k - 1 and the Diffie-Hellman value of the two
  newest scalars. The ledger records these scalars and, per epoch, how many message keys
  the sender has drawn, how many the receiver has drawn, and which numbers were accepted.
  */
module RatchetLedger {
  import opened Wrappers
  import opened Crypto
  import opened Ratchet

  datatype Ledger = Ledger(
    secret: Key,
    spare: Scalar,
    scalars: seq<Scalar>,
    sent: seq<nat>,
    read: seq<nat>,
    accepted: seq<set<nat>>,
    recvA: int,
    recvB: int,
    live: bool)

  function Peer(p: Role): Role { if p.Initiator? then Responder else Initiator }

  /** The newest epoch `p` receives on, or -1. Its own newest epoch is one more. */
  function Recv(l: Ledger, p: Role): int { if p.Initiator? then l.recvA else l.recvB }

  predicate Live(l: Ledger, p: Role) { p.Initiator? || l.live }

  function Sender(k: nat): Role { if k % 2 == 0 then Initiator else Responder }

  // ---------------------------------------------------------------- keys of an epoch

  function Root(secret: Key, xs: seq<Scalar>, k: nat): Key
    requires k < |xs|
  {
    if k == 0 then SessionRoot(secret)
    else RatchetRoot(Root(secret, xs, k - 1), DiffieHellman(xs[k], PublicOf(xs[k - 1])))
  }

  function Start(secret: Key, xs: seq<Scalar>, k: nat): Key
    requires k < |xs|
  {
    if k == 0 then SessionChain(secret)
    else RatchetChain(Root(secret, xs, k - 1), DiffieHellman(xs[k], PublicOf(xs[k - 1])))
  }

  function KeyAt(l: Ledger, k: nat, n: nat): Key
    requires k < |l.scalars|
  {
    MessageKey(ChainAt(Start(l.secret, l.scalars, k), n))
  }

  lemma {:induction false} RootStable(secret: Key, xs: seq<Scalar>, x: Scalar, k: nat)
    requires k < |xs|
    ensures Root(secret, xs + [x], k) == Root(secret, xs, k)
    ensures Start(secret, xs + [x], k) == Start(secret, xs, k)
  {
    if k > 0 {
      RootStable(secret, xs, x, k - 1);
    }
  }

  lemma {:induction false} RootInjective(secret: Key, xs: seq<Scalar>, k: nat, m: nat)
    requires k < |xs| && m < |xs|
    requires Root(secret, xs, k) == Root(secret, xs, m)
    ensures k == m
  {
    if k > 0 && m > 0 {
      RootInjective(secret, xs, k - 1, m - 1);
    }
  }

  lemma {:induction false} RootRooted(secret: Key, xs: seq<Scalar>, k: nat)
    requires k < |xs|
    ensures RootedAt(Root(secret, xs, k), secret) && RootedAt(Start(secret, xs, k), secret)
  {
    if k > 0 {
      RootRooted(secret, xs, k - 1);
    }
  }

  /** No message key belongs to two positions of a conversation. */
  lemma KeyAtInjective(l: Ledger, k: nat, n: nat, k': nat, n': nat)
    requires k < |l.scalars| && k' < |l.scalars|
    requires KeyAt(l, k, n) == KeyAt(l, k', n')
    ensures k == k' && n == n'
  {
    ChainAtInjective(Start(l.secret, l.scalars, k), Start(l.secret, l.scalars, k'), n, n');
    if k > 0 && k' > 0 {
      RootInjective(l.secret, l.scalars, k - 1, k' - 1);
    }
  }

  // ---------------------------------------------------------------- consistency

  /** The party that reads epoch `k` has reached epoch `ReaderRecv(l, k)`. */
  function ReaderRecv(l: Ledger, k: nat): int { if k % 2 == 0 then l.recvB else l.recvA }

  ghost predicate Shape(l: Ledger) {
    && |l.sent| == |l.scalars| && |l.read| == |l.scalars| && |l.accepted| == |l.scalars|
    && l.recvA >= -1 && l.recvA % 2 == 1
    && l.recvB >= 0 && l.recvB % 2 == 0
    && (l.recvA == l.recvB + 1 || l.recvA == l.recvB - 1)
    && (!l.live ==> l.recvA == -1 && l.recvB == 0)
    && |l.scalars| == (if l.live then Max(l.recvA, l.recvB) + 2 else 1)
  }

  /** Whose epochs the ones around `p`'s position are. */
  lemma EpochsOf(l: Ledger, p: Role)
    requires Shape(l)
    ensures -1 <= Recv(l, p) < |l.scalars|
    ensures Live(l, p) ==> Recv(l, p) + 1 < |l.scalars| && Sender(Recv(l, p) + 1) == p
    ensures 0 <= Recv(l, p) ==> Sender(Recv(l, p)) == Peer(p)
    ensures 1 <= Recv(l, p) ==> Sender(Recv(l, p) - 1) == p
  {
  }

  ghost predicate Distinct(l: Ledger) {
    && (forall j, k :: 0 <= j < k < |l.scalars| ==> l.scalars[j] != l.scalars[k])
    && l.spare !in l.scalars
  }

  ghost predicate Counts(l: Ledger)
    requires Shape(l)
  {
    && (forall k :: 0 <= k < |l.scalars| ==> l.read[k] <= l.sent[k] <= MAX_CHAIN_MESSAGES)
    && (forall k, n :: 0 <= k < |l.scalars| && n in l.accepted[k] ==> n < l.read[k])
    && (forall k :: 0 <= k < |l.scalars| && k > ReaderRecv(l, k) ==> l.read[k] == 0)
    && (forall k :: 0 <= k < |l.scalars| && k < ReaderRecv(l, k) ==> l.read[k] == l.sent[k])
  }

  ghost predicate Consistent(l: Ledger) { Shape(l) && Distinct(l) && Counts(l) }

  /** `p` has drawn key `n` of epoch `k` and not used it. */
  ghost predicate Stored(l: Ledger, p: Role, k: int, n: int)
    requires Shape(l)
  {
    0 <= k <= Recv(l, p) && k < |l.scalars| && Sender(k) != p && 0 <= n < l.read[k] && n !in l.accepted[k]
  }

  /** Every drawn and unused key is in the store, at its own id. */
  ghost predicate Holds(l: Ledger, p: Role, store: map<KeyId, Key>)
    requires Shape(l)
  {
    forall k: nat, n: nat {:trigger Stored(l, p, k, n)} :: Stored(l, p, k, n) ==>
      KeyId(Point(l.scalars[k]), n) in store && store[KeyId(Point(l.scalars[k]), n)] == KeyAt(l, k, n)
  }

  /** Nothing else is in the store. */
  ghost predicate Only(l: Ledger, p: Role, store: map<KeyId, Key>)
    requires Shape(l)
  {
    forall id :: id in store ==> exists k: nat :: Stored(l, p, k, id.number) && id == KeyId(Point(l.scalars[k]), id.number)
  }

  /** Key conservation: the store is exactly the drawn and unused keys. */
  ghost predicate StoreOk(l: Ledger, p: Role, store: map<KeyId, Key>)
    requires Shape(l)
  {
    Holds(l, p, store) && Only(l, p, store)
  }

  ghost predicate SendingOk(l: Ledger, p: Role, s: State)
    requires Shape(l)
  {
    match s.sending
    case None => !Live(l, p) && s.root == Root(l.secret, l.scalars, 0) && s.dhLocal == Some(l.spare)
    case Some(chain) =>
      var top := Recv(l, p) + 1;
      && Live(l, p)
      && s.root == Root(l.secret, l.scalars, top)
      && s.dhLocal == Some(l.scalars[top])
      && chain == Chain(ChainAt(Start(l.secret, l.scalars, top), l.sent[top]), l.sent[top],
                        chain.createdAt, MAX_CHAIN_MESSAGES, MAX_CHAIN_MESSAGES)
  }

  ghost predicate ReceivingOk(l: Ledger, p: Role, s: State)
    requires Shape(l)
  {
    var r := Recv(l, p);
    match s.receiving
    case None => r < 0 && s.previousCounter == 0 && s.dhRemote == Some(Point(l.spare))
    case Some(chain) =>
      && 0 <= r && s.previousCounter == (if r >= 1 then l.sent[r - 1] else 0)
      && s.dhRemote == Some(Point(l.scalars[r]))
      && chain == Chain(ChainAt(Start(l.secret, l.scalars, r), l.read[r]), l.read[r],
                        chain.createdAt, MAX_CHAIN_MESSAGES, MAX_CHAIN_MESSAGES)
  }

  /** State `s` of `p` is the one the ledger dictates. */
  ghost predicate StateOk(l: Ledger, p: Role, s: State)
    requires Shape(l)
  {
    && SendingOk(l, p, s) && ReceivingOk(l, p, s)
    && StoreOk(l, p, s.skipped) && |s.skipped| <= s.maxSkip
  }

  // ---------------------------------------------------------------- ledger moves

  function Opened(l: Ledger, x: Scalar): Ledger {
    l.(scalars := l.scalars + [x], sent := l.sent + [0], read := l.read + [0], accepted := l.accepted + [{}])
  }

  /** The responder's first send opens epoch 1. */
  function WentLive(l: Ledger, x: Scalar): Ledger { Opened(l, x).(live := true) }

  function DrewToSend(l: Ledger, k: nat): Ledger
    requires k < |l.sent|
  {
    l.(sent := l.sent[k := l.sent[k] + 1])
  }

  function ReadTo(l: Ledger, k: nat, n: nat): Ledger
    requires k < |l.read|
  {
    l.(read := l.read[k := n])
  }

  function Accepted(l: Ledger, k: nat, n: nat): Ledger
    requires k < |l.accepted|
  {
    l.(accepted := l.accepted[k := l.accepted[k] + {n}])
  }

  /** `p` moves on to the peer's newest epoch and opens its own next one with `x`. */
  function Turned(l: Ledger, p: Role, x: Scalar): Ledger {
    var l' := Opened(l, x);
    if p.Initiator? then l'.(recvA := l.recvA + 2) else l'.(recvB := l.recvB + 2)
  }
}
