/**
  What the two-party protocol guarantees, over every run of sends and deliveries from two
  matched sessions.
  */
module RatchetTheorems {
  import opened Wrappers
  import opened Crypto
  import opened Ratchet
  import opened RatchetLedger
  import opened RatchetSteps
  import opened RatchetMoves
  import opened RatchetDelivery
  import opened RatchetSending
  import opened RatchetProtocol

  // ---------------------------------------------------------------- the start

  /** Two sessions built on one secret, each knowing the other's key. */
  predicate MatchedPair(secret: Key, local: Scalar, peer: Scalar, a: State, b: State) {
    && secret != ZeroKey && local != peer
    && FromSharedSecret(secret, local, PublicOf(peer), a.maxSkip, Initiator, a.lastActivity) == Ok(a)
    && FromSharedSecret(secret, peer, PublicOf(local), b.maxSkip, Responder, b.lastActivity) == Ok(b)
  }

  function Started(local: Scalar, peer: Scalar, a: State, b: State): System {
    System(a, b, [], [], [], {local, peer})
  }

  function FirstLedger(secret: Key, local: Scalar, peer: Scalar): Ledger {
    Ledger(secret, peer, [local], [0], [0], [{}], -1, 0, false)
  }

  lemma StartDescribed(secret: Key, local: Scalar, peer: Scalar, a: State, b: State)
    requires MatchedPair(secret, local, peer, a, b)
    ensures Inv(Started(local, peer, a, b), View(FirstLedger(secret, local, peer), []))
  {
    var l := FirstLedger(secret, local, peer);
    assert Holds(l, Initiator, a.skipped) && Holds(l, Responder, b.skipped);
  }

  lemma MatchedStart(secret: Key, local: Scalar, peer: Scalar, a: State, b: State)
    requires MatchedPair(secret, local, peer, a, b)
    ensures Matched(secret, Started(local, peer, a, b))
  {
    StartDescribed(secret, local, peer, a, b);
  }

  // ---------------------------------------------------------------- one delivery, exactly

  /** A message of the peer, delivered for the first time, in time, with room for what it skips. */
  predicate Deliverable(sys: System, ev: Event)
    requires ev.Deliver?
  {
    && ev.wire.Wire?
    && Post(Peer(ev.dest), ev.ad, ev.wire.message) in sys.log
    && Post(Peer(ev.dest), ev.ad, ev.wire.message) !in Inbox(sys, ev.dest)
    && Timely(ev.wire.message, ev.now)
    && Room(StateOf(sys, ev.dest), ev.wire.message.header)
  }

  lemma DeliveredOnly(secret: Key, sys: System, ev: Event)
    requires Matched(secret, sys) && ev.Deliver? && Admissible(secret, sys, ev) && Read(sys, ev).result.Ok?
    ensures Deliverable(sys, ev)
  {
    var v :| Inv(sys, v) && v.ledger.secret == secret;
    PartiesFromInv(sys, v, ev.dest);
    var i := DeliverSound(v.ledger, ev.dest, StateOf(sys, ev.dest), v.epochs, sys.log, ev.wire, ev.ad, ev.seed, ev.now);
    assert sys.log[i] == Post(Peer(ev.dest), ev.ad, ev.wire.message);
  }

  lemma DeliverableOpens(secret: Key, sys: System, ev: Event)
    requires Matched(secret, sys) && ev.Deliver? && Admissible(secret, sys, ev) && Deliverable(sys, ev)
    ensures Read(sys, ev).result == Ok(ev.wire.message.box.plaintext)
  {
    var v :| Inv(sys, v) && v.ledger.secret == secret;
    PartiesFromInv(sys, v, ev.dest);
    FreshSeed(sys, v, ev.seed);
    var e := Post(Peer(ev.dest), ev.ad, ev.wire.message);
    var i :| 0 <= i < |sys.log| && sys.log[i] == e;
    assert PostOk(v.ledger, sys.log[i], v.epochs[i]);
    var l' := DeliverComplete(v.ledger, ev.dest, StateOf(sys, ev.dest), e, v.epochs[i], ev.seed, ev.now);
  }

  /**
    Delivery is exact: whatever the network delivers, the call succeeds if and only if it
    is a message the peer produced, not accepted before, in time, within the skip window;
    and it returns what was sealed.
    */
  lemma DeliveryExact(secret: Key, sys: System, ev: Event)
    requires Matched(secret, sys) && ev.Deliver? && Admissible(secret, sys, ev)
    ensures Read(sys, ev).result.Ok? <==> Deliverable(sys, ev)
    ensures Read(sys, ev).result.Ok? ==> Read(sys, ev).result == Ok(ev.wire.message.box.plaintext)
  {
    if Read(sys, ev).result.Ok? {
      DeliveredOnly(secret, sys, ev);
    }
    if Deliverable(sys, ev) {
      DeliverableOpens(secret, sys, ev);
    }
  }

  // ---------------------------------------------------------------- runs

  function Run(sys: System, evs: seq<Event>): System
    decreases |evs|
  {
    if evs == [] then sys else Step(Run(sys, evs[..|evs| - 1]), evs[|evs| - 1])
  }

  predicate AdmissibleRun(secret: Key, sys: System, evs: seq<Event>)
    decreases |evs|
  {
    evs != [] ==>
      AdmissibleRun(secret, sys, evs[..|evs| - 1]) && Admissible(secret, Run(sys, evs[..|evs| - 1]), evs[|evs| - 1])
  }

  lemma {:induction false} RunMatched(secret: Key, sys: System, evs: seq<Event>)
    requires Matched(secret, sys) && AdmissibleRun(secret, sys, evs)
    ensures Matched(secret, Run(sys, evs))
    decreases |evs|
  {
    if evs != [] {
      RunMatched(secret, sys, evs[..|evs| - 1]);
      StepKeeps(secret, Run(sys, evs[..|evs| - 1]), evs[|evs| - 1]);
    }
  }

  lemma {:induction false} PrefixAdmissible(secret: Key, sys: System, evs: seq<Event>, i: nat)
    requires AdmissibleRun(secret, sys, evs) && i <= |evs|
    ensures AdmissibleRun(secret, sys, evs[..i])
    ensures i < |evs| ==> Admissible(secret, Run(sys, evs[..i]), evs[i])
    decreases |evs|
  {
    if i < |evs| {
      var front := evs[..|evs| - 1];
      assert i < |front| ==> front[..i] == evs[..i];
      if i < |front| {
        PrefixAdmissible(secret, sys, front, i);
      }
    } else {
      assert evs[..i] == evs;
    }
  }

  /** Every point of a run is matched, and its next event admissible. */
  lemma MatchedAt(secret: Key, sys: System, evs: seq<Event>, i: nat)
    requires Matched(secret, sys) && AdmissibleRun(secret, sys, evs) && i <= |evs|
    ensures Matched(secret, Run(sys, evs[..i])) && (i < |evs| ==> Admissible(secret, Run(sys, evs[..i]), evs[i]))
  {
    PrefixAdmissible(secret, sys, evs, i);
    RunMatched(secret, sys, evs[..i]);
  }

  /** Delivery is exact at every point of every run. */
  lemma RunDelivery(secret: Key, sys: System, evs: seq<Event>, i: nat)
    requires Matched(secret, sys) && AdmissibleRun(secret, sys, evs) && i < |evs| && evs[i].Deliver?
    ensures Read(Run(sys, evs[..i]), evs[i]).result.Ok? <==> Deliverable(Run(sys, evs[..i]), evs[i])
  {
    MatchedAt(secret, sys, evs, i);
    DeliveryExact(secret, Run(sys, evs[..i]), evs[i]);
  }

  // ---------------------------------------------------------------- histories

  /** Event `k` is a successful delivery of exactly this message to `p`. */
  predicate DeliveredAt(sys: System, evs: seq<Event>, k: nat, p: Role, m: Message, ad: Bytes)
    requires k < |evs|
  {
    && evs[k].Deliver? && evs[k].dest == p && evs[k].wire == Wire(m) && evs[k].ad == ad
    && Read(Run(sys, evs[..k]), evs[k]).result.Ok?
  }

  predicate ProducedAt(sys: System, evs: seq<Event>, k: nat, p: Role, m: Message, ad: Bytes)
    requires k < |evs|
  {
    && evs[k].Send? && evs[k].from == p && evs[k].ad == ad
    && Sent(Run(sys, evs[..k]), evs[k]).result == Ok(m)
  }

  lemma StepInbox(sys: System, ev: Event, p: Role, e: Post)
    ensures e in Inbox(Step(sys, ev), p) <==>
              || e in Inbox(sys, p)
              || (&& ev.Deliver? && ev.dest == p && e.from == Peer(p) && ev.ad == e.ad && ev.wire == Wire(e.message)
                  && Read(sys, ev).result.Ok?)
  {
    if ev.Deliver? && Read(sys, ev).result.Ok? && ev.wire.Wire? {
      StepRead(sys, ev);
    }
  }

  lemma StepLog(sys: System, ev: Event, e: Post)
    ensures e in Step(sys, ev).log <==>
              || e in sys.log
              || (ev.Send? && ev.from == e.from && ev.ad == e.ad && Sent(sys, ev).result == Ok(e.message))
  {
    if ev.Send? {
      StepSend(sys, ev);
    }
  }

  predicate DeliveredBefore(sys: System, evs: seq<Event>, i: nat, p: Role, m: Message, ad: Bytes)
    requires i <= |evs|
  {
    exists k: nat :: k < i && DeliveredAt(sys, evs, k, p, m, ad)
  }

  predicate ProducedBefore(sys: System, evs: seq<Event>, i: nat, p: Role, m: Message, ad: Bytes)
    requires i <= |evs|
  {
    exists k: nat :: k < i && ProducedAt(sys, evs, k, p, m, ad)
  }

  lemma DeliveredByNext(sys: System, evs: seq<Event>, i: nat, p: Role, m: Message, ad: Bytes)
    requires i < |evs|
    ensures DeliveredBefore(sys, evs, i + 1, p, m, ad) <==>
              DeliveredBefore(sys, evs, i, p, m, ad) || DeliveredAt(sys, evs, i, p, m, ad)
  {
  }

  lemma ProducedByNext(sys: System, evs: seq<Event>, i: nat, p: Role, m: Message, ad: Bytes)
    requires i < |evs|
    ensures ProducedBefore(sys, evs, i + 1, p, m, ad) <==>
              ProducedBefore(sys, evs, i, p, m, ad) || ProducedAt(sys, evs, i, p, m, ad)
  {
  }

  lemma RunUnfolds(sys: System, evs: seq<Event>, i: nat)
    requires 0 < i <= |evs|
    ensures Run(sys, evs[..i]) == Step(Run(sys, evs[..i - 1]), evs[i - 1])
  {
    assert evs[..i][..i - 1] == evs[..i - 1];
  }

  /** The inbox is the record of successful deliveries. */
  lemma {:induction false} InboxIsHistory(sys: System, evs: seq<Event>, i: nat, p: Role, m: Message, ad: Bytes)
    requires i <= |evs| && Inbox(sys, p) == []
    ensures Post(Peer(p), ad, m) in Inbox(Run(sys, evs[..i]), p) <==> DeliveredBefore(sys, evs, i, p, m, ad)
    decreases i
  {
    if i > 0 {
      InboxIsHistory(sys, evs, i - 1, p, m, ad);
      DeliveredByNext(sys, evs, i - 1, p, m, ad);
      RunUnfolds(sys, evs, i);
      StepInbox(Run(sys, evs[..i - 1]), evs[i - 1], p, Post(Peer(p), ad, m));
    }
  }

  /** The log is the record of successful sends. */
  lemma {:induction false} LogIsHistory(sys: System, evs: seq<Event>, i: nat, p: Role, m: Message, ad: Bytes)
    requires i <= |evs| && sys.log == []
    ensures Post(p, ad, m) in Run(sys, evs[..i]).log <==> ProducedBefore(sys, evs, i, p, m, ad)
    decreases i
  {
    if i > 0 {
      LogIsHistory(sys, evs, i - 1, p, m, ad);
      ProducedByNext(sys, evs, i - 1, p, m, ad);
      RunUnfolds(sys, evs, i);
      StepLog(Run(sys, evs[..i - 1]), evs[i - 1], Post(p, ad, m));
    }
  }

  // ---------------------------------------------------------------- the run theorems

  ghost predicate FromStart(secret: Key, sys: System) {
    Matched(secret, sys) && sys.log == [] && sys.inboxA == [] && sys.inboxB == []
  }

  /**
    In every run, a delivery to `p` succeeds if and only if the peer produced exactly this
    message earlier in the run, no earlier delivery of it succeeded, it is in time and the
    store has room: reordering, loss, duplication, rewriting and injection change nothing
    else.
    */
  lemma RunDeliveryExact(secret: Key, sys: System, evs: seq<Event>, i: nat)
    requires FromStart(secret, sys) && AdmissibleRun(secret, sys, evs)
    requires i < |evs| && evs[i].Deliver? && evs[i].wire.Wire?
    ensures var p, m := evs[i].dest, evs[i].wire.message;
            Read(Run(sys, evs[..i]), evs[i]).result.Ok? <==>
              && ProducedBefore(sys, evs, i, Peer(p), m, evs[i].ad)
              && !DeliveredBefore(sys, evs, i, p, m, evs[i].ad)
              && Timely(m, evs[i].now) && Room(StateOf(Run(sys, evs[..i]), p), m.header)
  {
    var p, m := evs[i].dest, evs[i].wire.message;
    RunDelivery(secret, sys, evs, i);
    InboxIsHistory(sys, evs, i, p, m, evs[i].ad);
    LogIsHistory(sys, evs, i, Peer(p), m, evs[i].ad);
  }

  /** No message is ever accepted twice by its receiver. */
  lemma AcceptedOnce(secret: Key, sys: System, evs: seq<Event>, i: nat, j: nat, p: Role, m: Message, ad: Bytes)
    requires FromStart(secret, sys) && AdmissibleRun(secret, sys, evs) && i < j < |evs|
    requires DeliveredAt(sys, evs, i, p, m, ad)
    ensures !DeliveredAt(sys, evs, j, p, m, ad)
  {
    if DeliveredAt(sys, evs, j, p, m, ad) {
      assert DeliveredBefore(sys, evs, j, p, m, ad);
      RunDeliveryExact(secret, sys, evs, j);
    }
  }

  lemma SealedPlaintext(s: State, plaintext: Bytes, ad: Bytes, seed: Scalar, now: nat)
    requires Encrypt(s, plaintext, ad, seed, now).result.Ok?
    ensures Encrypt(s, plaintext, ad, seed, now).result.value.box.plaintext == plaintext
  {
  }

  /** A sent plaintext comes out at the peer, on the first timely delivery with room. */
  lemma SentIsRead(secret: Key, sys: System, evs: seq<Event>, i: nat, j: nat, p: Role, m: Message)
    requires FromStart(secret, sys) && AdmissibleRun(secret, sys, evs) && i < j < |evs|
    requires evs[i].Send? && ProducedAt(sys, evs, i, p, m, evs[i].ad)
    requires evs[j].Deliver? && evs[j].dest == Peer(p) && evs[j].wire == Wire(m) && evs[j].ad == evs[i].ad
    requires !DeliveredBefore(sys, evs, j, Peer(p), m, evs[j].ad)
    requires Timely(m, evs[j].now) && Room(StateOf(Run(sys, evs[..j]), Peer(p)), m.header)
    ensures Read(Run(sys, evs[..j]), evs[j]).result == Ok(evs[i].plaintext)
  {
    assert ProducedBefore(sys, evs, j, p, m, evs[i].ad);
    RunDeliveryExact(secret, sys, evs, j);
    MatchedAt(secret, sys, evs, j);
    DeliveryExact(secret, Run(sys, evs[..j]), evs[j]);
    var at := Run(sys, evs[..i]);
    SealedPlaintext(StateOf(at, evs[i].from), evs[i].plaintext, evs[i].ad, evs[i].seed, evs[i].now);
  }

  // ---------------------------------------------------------------- lockstep of the roots

  /** Both roots lie on the one sequence that `xs` generates, at most one step apart. */
  ghost predicate RootsInStep(secret: Key, xs: seq<Scalar>, a: State, b: State) {
    exists i: nat, j: nat ::
      && i < |xs| && j < |xs| && -1 <= i - j <= 1
      && a.root == Root(secret, xs, i) && b.root == Root(secret, xs, j)
  }

  /** The reader's chain and every message of the chain its header names start from the same key. */
  ghost predicate ChainsAgree(secret: Key, xs: seq<Scalar>, s: State, p: Role, log: seq<Post>) {
    forall i :: 0 <= i < |log| && log[i].from == Peer(p) && s.receiving.Some?
                && s.dhRemote == Some(log[i].message.header.dh) ==>
      exists k: nat :: k < |xs| && OnOneChain(secret, xs, s, log[i], k)
  }

  /** The receiver's chain and this message start from the key of epoch `k`. */
  ghost predicate OnOneChain(secret: Key, xs: seq<Scalar>, s: State, e: Post, k: nat)
    requires k < |xs| && s.receiving.Some?
  {
    && s.dhRemote == Some(Point(xs[k]))
    && s.receiving.value.key == ChainAt(Start(secret, xs, k), s.receiving.value.index)
    && e.message.box.key == MessageKey(ChainAt(Start(secret, xs, k), Number(e)))
  }

  /** Every stored key is the key of its number on the chain its id names. */
  ghost predicate StoreOnChains(secret: Key, xs: seq<Scalar>, store: map<KeyId, Key>) {
    forall id :: id in store ==> exists k: nat :: k < |xs| && StoredOnChain(secret, xs, id, store[id], k)
  }

  ghost predicate StoredOnChain(secret: Key, xs: seq<Scalar>, id: KeyId, key: Key, k: nat)
    requires k < |xs|
  {
    id.dh == Point(xs[k]) && key == MessageKey(ChainAt(Start(secret, xs, k), id.number))
  }

  lemma PartyStore(sys: System, v: View, p: Role)
    requires Inv(sys, v)
    ensures StoreOnChains(v.ledger.secret, v.ledger.scalars, StateOf(sys, p).skipped)
  {
    PartiesFromInv(sys, v, p);
    LedgerStore(v.ledger, p, StateOf(sys, p).skipped);
  }

  lemma LedgerStore(l: Ledger, p: Role, store: map<KeyId, Key>)
    requires Shape(l) && StoreOk(l, p, store)
    ensures StoreOnChains(l.secret, l.scalars, store)
  {
    forall id | id in store
      ensures exists k: nat :: k < |l.scalars| && StoredOnChain(l.secret, l.scalars, id, store[id], k)
    {
      var k: nat :| Stored(l, p, k, id.number) && id == KeyId(Point(l.scalars[k]), id.number);
      assert StoredOnChain(l.secret, l.scalars, id, store[id], k);
    }
  }

  lemma StoreGrows(secret: Key, xs: seq<Scalar>, x: Scalar, store: map<KeyId, Key>)
    requires StoreOnChains(secret, xs, store)
    ensures StoreOnChains(secret, xs + [x], store)
  {
    forall id | id in store
      ensures exists k: nat :: k < |xs + [x]| && StoredOnChain(secret, xs + [x], id, store[id], k)
    {
      var k: nat :| k < |xs| && StoredOnChain(secret, xs, id, store[id], k);
      RootStable(secret, xs, x, k);
      assert StoredOnChain(secret, xs + [x], id, store[id], k);
    }
  }

  lemma PostOnChain(l: Ledger, p: Role, s: State, e: Post, k: nat)
    requires Consistent(l) && ReceivingOk(l, p, s) && PostOk(l, e, k) && e.from == Peer(p)
    requires s.receiving.Some? && s.dhRemote == Some(e.message.header.dh)
    ensures OnOneChain(l.secret, l.scalars, s, e, k)
  {
    assert k == Recv(l, p);
    assert KeyAt(l, k, Number(e)) == e.message.box.key;
  }

  lemma PartyChains(sys: System, v: View, p: Role)
    requires Inv(sys, v)
    ensures ChainsAgree(v.ledger.secret, v.ledger.scalars, StateOf(sys, p), p, sys.log)
  {
    var l, s := v.ledger, StateOf(sys, p);
    PartiesFromInv(sys, v, p);
    forall i | 0 <= i < |sys.log| && sys.log[i].from == Peer(p) && s.receiving.Some?
               && s.dhRemote == Some(sys.log[i].message.header.dh)
      ensures exists k: nat :: k < |l.scalars| && OnOneChain(l.secret, l.scalars, s, sys.log[i], k)
    {
      PostOnChain(l, p, s, sys.log[i], v.epochs[i]);
    }
  }

  lemma LedgerRoots(l: Ledger, a: State, b: State)
    requires Shape(l) && SendingOk(l, Initiator, a) && SendingOk(l, Responder, b)
    ensures RootsInStep(l.secret, l.scalars, a, b)
  {
    var i, j := l.recvA + 1, if l.live then l.recvB + 1 else 0;
    assert a.root == Root(l.secret, l.scalars, i) && b.root == Root(l.secret, l.scalars, j);
  }

  lemma PartyRoots(sys: System, v: View)
    requires Inv(sys, v)
    ensures RootsInStep(v.ledger.secret, v.ledger.scalars, sys.a, sys.b)
  {
    PartiesFromInv(sys, v, Initiator);
    PartiesFromInv(sys, v, Responder);
    LedgerRoots(v.ledger, sys.a, sys.b);
  }

  /** The whole system lies on the sequence that `xs` generates. */
  ghost predicate Along(secret: Key, xs: seq<Scalar>, sys: System) {
    && RootsInStep(secret, xs, sys.a, sys.b)
    && ChainsAgree(secret, xs, sys.a, Initiator, sys.log) && ChainsAgree(secret, xs, sys.b, Responder, sys.log)
    && StoreOnChains(secret, xs, sys.a.skipped) && StoreOnChains(secret, xs, sys.b.skipped)
  }

  lemma DescribedAlong(sys: System, v: View)
    requires Inv(sys, v)
    ensures Along(v.ledger.secret, v.ledger.scalars, sys)
  {
    PartyRoots(sys, v);
    PartyChains(sys, v, Initiator);
    PartyChains(sys, v, Responder);
    PartyStore(sys, v, Initiator);
    PartyStore(sys, v, Responder);
  }

  lemma RootsGrow(secret: Key, xs: seq<Scalar>, x: Scalar, a: State, b: State)
    requires RootsInStep(secret, xs, a, b)
    ensures RootsInStep(secret, xs + [x], a, b)
  {
    var i: nat, j: nat :| i < |xs| && j < |xs| && -1 <= i - j <= 1
                          && a.root == Root(secret, xs, i) && b.root == Root(secret, xs, j);
    RootStable(secret, xs, x, i);
    RootStable(secret, xs, x, j);
    assert a.root == Root(secret, xs + [x], i) && b.root == Root(secret, xs + [x], j);
  }

  lemma ChainsGrow(secret: Key, xs: seq<Scalar>, x: Scalar, s: State, p: Role, log: seq<Post>)
    requires ChainsAgree(secret, xs, s, p, log)
    ensures ChainsAgree(secret, xs + [x], s, p, log)
  {
    forall i | 0 <= i < |log| && log[i].from == Peer(p) && s.receiving.Some?
               && s.dhRemote == Some(log[i].message.header.dh)
      ensures exists k: nat :: k < |xs + [x]| && OnOneChain(secret, xs + [x], s, log[i], k)
    {
      var k: nat :| k < |xs| && OnOneChain(secret, xs, s, log[i], k);
      RootStable(secret, xs, x, k);
      assert OnOneChain(secret, xs + [x], s, log[i], k);
    }
  }

  /** A longer sequence still covers what a shorter one did. */
  lemma AlongExtends(l: Ledger, l': Ledger, sys: System)
    requires Extends(l, l') && Along(l.secret, l.scalars, sys)
    ensures Along(l'.secret, l'.scalars, sys)
  {
    if l'.scalars != l.scalars {
      var x :| l'.scalars == l.scalars + [x];
      RootsGrow(l.secret, l.scalars, x, sys.a, sys.b);
      ChainsGrow(l.secret, l.scalars, x, sys.a, Initiator, sys.log);
      ChainsGrow(l.secret, l.scalars, x, sys.b, Responder, sys.log);
      StoreGrows(l.secret, l.scalars, x, sys.a.skipped);
      StoreGrows(l.secret, l.scalars, x, sys.b.skipped);
    }
  }

  /** Every point of the run lies on it. */
  ghost predicate RunAlong(secret: Key, xs: seq<Scalar>, sys: System, evs: seq<Event>) {
    forall k: nat :: k <= |evs| ==> Along(secret, xs, Run(sys, evs[..k]))
  }

  lemma RunAlongExtends(l: Ledger, l': Ledger, sys: System, evs: seq<Event>)
    requires Extends(l, l') && RunAlong(l.secret, l.scalars, sys, evs)
    ensures RunAlong(l'.secret, l'.scalars, sys, evs)
  {
    forall k: nat | k <= |evs| ensures Along(l'.secret, l'.scalars, Run(sys, evs[..k])) {
      AlongExtends(l, l', Run(sys, evs[..k]));
    }
  }

  lemma RunAlongLast(secret: Key, xs: seq<Scalar>, sys: System, evs: seq<Event>)
    requires evs != [] ==> RunAlong(secret, xs, sys, evs[..|evs| - 1])
    requires Along(secret, xs, Run(sys, evs))
    ensures RunAlong(secret, xs, sys, evs)
  {
    forall k: nat | k <= |evs| ensures Along(secret, xs, Run(sys, evs[..k])) {
      if k == |evs| {
        assert evs[..k] == evs;
      } else {
        assert evs[..|evs| - 1][..k] == evs[..k];
      }
    }
  }

  lemma {:induction false} LockstepSoFar(secret: Key, sys: System, evs: seq<Event>) returns (v: View)
    requires Matched(secret, sys) && AdmissibleRun(secret, sys, evs)
    ensures Inv(Run(sys, evs), v) && v.ledger.secret == secret && RunAlong(secret, v.ledger.scalars, sys, evs)
    decreases |evs|
  {
    if evs == [] {
      v :| Inv(sys, v) && v.ledger.secret == secret;
    } else {
      var front := evs[..|evs| - 1];
      var u := LockstepSoFar(secret, sys, front);
      v := NextView(Run(sys, front), u, evs[|evs| - 1]);
      RunAlongExtends(u.ledger, v.ledger, sys, front);
    }
    DescribedAlong(Run(sys, evs), v);
    RunAlongLast(secret, v.ledger.scalars, sys, evs);
  }

  /**
    One sequence of roots serves a whole run: at every point of it both roots lie on that
    sequence, at most one step apart, each receiving chain starts from the key of the
    peer's sending chain that the header names, and each stored key is the key of its
    number on the chain its id names.
    */
  lemma Lockstep(secret: Key, sys: System, evs: seq<Event>)
    requires Matched(secret, sys) && AdmissibleRun(secret, sys, evs)
    ensures exists xs :: RunAlong(secret, xs, sys, evs)
  {
    var v := LockstepSoFar(secret, sys, evs);
  }

  // ---------------------------------------------------------------- keys

  /** No message key ever seals two messages, by either party. */
  lemma KeysNeverReused(secret: Key, sys: System, evs: seq<Event>, i: nat, j: nat)
    requires Matched(secret, sys) && AdmissibleRun(secret, sys, evs)
    requires i < j < |Run(sys, evs).log|
    ensures Run(sys, evs).log[i].message.box.key != Run(sys, evs).log[j].message.box.key
  {
    RunMatched(secret, sys, evs);
    var end := Run(sys, evs);
    var v :| Inv(end, v) && v.ledger.secret == secret;
    assert PostOk(v.ledger, end.log[i], v.epochs[i]) && PostOk(v.ledger, end.log[j], v.epochs[j]);
    if end.log[i].message.box.key == end.log[j].message.box.key {
      KeyAtInjective(v.ledger, v.epochs[i], Number(end.log[i]), v.epochs[j], Number(end.log[j]));
    }
  }

  // ---------------------------------------------------------------- conservation of keys

  function IdOf(e: Post): KeyId { KeyId(e.message.header.dh, e.message.header.number) }

  /** The receiver has drawn past this number on its current chain. */
  predicate DrawnPast(s: State, id: KeyId) {
    s.dhRemote == Some(id.dh) && s.receiving.Some? && id.number < s.receiving.value.index
  }

  /** `p` accepted a message with this chain and number. */
  predicate InInbox(sys: System, p: Role, id: KeyId) {
    exists i :: 0 <= i < |Inbox(sys, p)| && IdOf(Inbox(sys, p)[i]) == id
  }

  /** What became of a drawn key: it is stored, or used, or at least lies behind the current chain's index. */
  datatype Fate = Kept | Used | Passed

  predicate Met(sys: System, p: Role, id: KeyId, fate: Fate) {
    match fate
    case Kept => id in StateOf(sys, p).skipped
    case Used => InInbox(sys, p, id)
    case Passed => DrawnPast(StateOf(sys, p), id)
  }

  /** `p` has drawn the key. */
  predicate HasDrawn(sys: System, p: Role, id: KeyId) { exists fate :: Met(sys, p, id, fate) }

  /** The ledger's view of a drawn key. */
  ghost predicate DrawnAt(l: Ledger, p: Role, id: KeyId, k: nat)
    requires Shape(l)
  {
    k < |l.scalars| && Sender(k) == Peer(p) && k <= Recv(l, p) && id.dh == Point(l.scalars[k]) && id.number < l.read[k]
  }

  lemma PostStored(l: Ledger, p: Role, store: map<KeyId, Key>, e: Post, k: nat)
    requires Consistent(l) && StoreOk(l, p, store) && PostOk(l, e, k) && e.from == Peer(p)
    ensures IdOf(e) in store <==> Stored(l, p, k, Number(e))
    ensures IdOf(e) in store ==> store[IdOf(e)] == e.message.box.key
  {
    StoreLookup(l, p, store, k, Number(e));
  }

  lemma AcceptedIsRead(l: Ledger, p: Role, k: nat, n: nat)
    requires Consistent(l) && k < |l.scalars| && Sender(k) == Peer(p) && n in l.accepted[k]
    ensures n < l.read[k] && k <= Recv(l, p)
  {
    assert ReaderRecv(l, k) == Recv(l, p);
  }

  /** Position `i` of the log is in the inbox exactly when the ledger has it accepted. */
  lemma PostAccepted(sys: System, v: View, p: Role, i: nat)
    requires Inv(sys, v) && i < |sys.log| && sys.log[i].from == Peer(p)
    ensures PostOk(v.ledger, sys.log[i], v.epochs[i])
    ensures Number(sys.log[i]) in v.ledger.accepted[v.epochs[i]] <==> sys.log[i] in Inbox(sys, p)
  {
    PartiesFromInv(sys, v, p);
  }

  /** Every message in the inbox is a logged one that the ledger has accepted. */
  lemma InboxPost(sys: System, v: View, p: Role, j: nat) returns (i: nat)
    requires Inv(sys, v) && j < |Inbox(sys, p)|
    ensures i < |sys.log| && sys.log[i] == Inbox(sys, p)[j] && sys.log[i].from == Peer(p)
    ensures PostOk(v.ledger, sys.log[i], v.epochs[i]) && Number(sys.log[i]) in v.ledger.accepted[v.epochs[i]]
  {
    PartiesFromInv(sys, v, p);
    i := InboxPosition(v.ledger, v.epochs, sys.log, Inbox(sys, p), p, j);
  }

  lemma InboxPosition(l: Ledger, epochs: seq<nat>, log: seq<Post>, inbox: seq<Post>, p: Role, j: nat) returns (i: nat)
    requires Shape(l) && LogOk(l, epochs, log) && InboxOk(l, epochs, log, inbox, p) && j < |inbox|
    ensures i < |log| && log[i] == inbox[j] && log[i].from == Peer(p)
    ensures PostOk(l, log[i], epochs[i]) && Number(log[i]) in l.accepted[epochs[i]]
  {
    i :| 0 <= i < |log| && log[i] == inbox[j];
  }

  lemma LoggedPosition(sys: System, v: View, k: nat, n: nat) returns (i: nat)
    requires Inv(sys, v) && k < |v.ledger.accepted| && n in v.ledger.accepted[k]
    ensures i < |sys.log| && v.epochs[i] == k && Number(sys.log[i]) == n && PostOk(v.ledger, sys.log[i], k)
  {
    assert Logged(v.epochs, sys.log, k, n);
    i :| 0 <= i < |sys.log| && v.epochs[i] == k && Number(sys.log[i]) == n;
  }

  lemma SameEpoch(l: Ledger, k: nat, k': nat)
    requires Consistent(l) && k < |l.scalars| && k' < |l.scalars| && Point(l.scalars[k]) == Point(l.scalars[k'])
    ensures k == k'
  {
  }

  lemma PostId(l: Ledger, e: Post, k: nat)
    requires Shape(l) && PostOk(l, e, k)
    ensures k < |l.scalars| && IdOf(e) == KeyId(Point(l.scalars[k]), Number(e)) && e.from == Sender(k)
  {
  }

  lemma InInboxAccepted(sys: System, v: View, p: Role, id: KeyId) returns (k: nat)
    requires Inv(sys, v) && InInbox(sys, p, id)
    ensures k < |v.ledger.scalars| && id.dh == Point(v.ledger.scalars[k]) && Sender(k) == Peer(p)
    ensures id.number in v.ledger.accepted[k]
  {
    var j :| 0 <= j < |Inbox(sys, p)| && IdOf(Inbox(sys, p)[j]) == id;
    var i := InboxPost(sys, v, p, j);
    k := v.epochs[i];
    PostId(v.ledger, sys.log[i], k);
  }

  lemma AcceptedInInbox(sys: System, v: View, p: Role, id: KeyId, k: nat)
    requires Inv(sys, v) && k < |v.ledger.scalars| && Sender(k) == Peer(p) && id.dh == Point(v.ledger.scalars[k])
    requires id.number in v.ledger.accepted[k]
    ensures InInbox(sys, p, id)
  {
    var i := LoggedPosition(sys, v, k, id.number);
    PostAccepted(sys, v, p, i);
    assert IdOf(sys.log[i]) == id;
  }

  /** On an epoch it reads, the inbox holds exactly the accepted numbers. */
  lemma InboxIsAccepted(sys: System, v: View, p: Role, id: KeyId, k: nat)
    requires Inv(sys, v) && k < |v.ledger.scalars| && Sender(k) == Peer(p) && id.dh == Point(v.ledger.scalars[k])
    ensures InInbox(sys, p, id) <==> id.number in v.ledger.accepted[k]
  {
    if InInbox(sys, p, id) {
      var m := InInboxAccepted(sys, v, p, id);
      SameEpoch(v.ledger, m, k);
    }
    if id.number in v.ledger.accepted[k] {
      AcceptedInInbox(sys, v, p, id, k);
    }
  }

  /** A key drawn in the ledger's sense is either stored or used, and never both. */
  lemma DrawnOnce(sys: System, v: View, p: Role, id: KeyId, k: nat)
    requires Inv(sys, v) && DrawnAt(v.ledger, p, id, k)
    ensures HasDrawn(sys, p, id) && (id in StateOf(sys, p).skipped <==> !InInbox(sys, p, id))
  {
    PartiesFromInv(sys, v, p);
    InboxIsAccepted(sys, v, p, id, k);
    StoreLookup(v.ledger, p, StateOf(sys, p).skipped, k, id.number);
    assert id == KeyId(Point(v.ledger.scalars[k]), id.number);
    assert Met(sys, p, id, if id in StateOf(sys, p).skipped then Kept else Used);
  }

  lemma DrawnStored(l: Ledger, p: Role, store: map<KeyId, Key>, id: KeyId) returns (k: nat)
    requires Shape(l) && StoreOk(l, p, store) && id in store
    ensures DrawnAt(l, p, id, k)
  {
    k :| Stored(l, p, k, id.number) && id == KeyId(Point(l.scalars[k]), id.number);
  }

  lemma DrawnInInbox(sys: System, v: View, p: Role, id: KeyId) returns (k: nat)
    requires Inv(sys, v) && InInbox(sys, p, id)
    ensures DrawnAt(v.ledger, p, id, k)
  {
    k := InInboxAccepted(sys, v, p, id);
    AcceptedIsRead(v.ledger, p, k, id.number);
  }

  lemma DrawnOnCurrent(l: Ledger, p: Role, s: State, id: KeyId) returns (k: nat)
    requires Shape(l) && ReceivingOk(l, p, s) && DrawnPast(s, id)
    ensures DrawnAt(l, p, id, k)
  {
    k := Recv(l, p);
  }

  lemma DrawnInLedger(sys: System, v: View, p: Role, id: KeyId) returns (k: nat)
    requires Inv(sys, v) && HasDrawn(sys, p, id)
    ensures DrawnAt(v.ledger, p, id, k)
  {
    var fate :| Met(sys, p, id, fate);
    PartiesFromInv(sys, v, p);
    match fate {
      case Kept => k := DrawnStored(v.ledger, p, StateOf(sys, p).skipped, id);
      case Used => k := DrawnInInbox(sys, v, p, id);
      case Passed => k := DrawnOnCurrent(v.ledger, p, StateOf(sys, p), id);
    }
  }

  lemma DrawnGrows(l: Ledger, l': Ledger, p: Role, id: KeyId, k: nat)
    requires Shape(l) && Shape(l') && Grows(l, l') && DrawnAt(l, p, id, k)
    ensures DrawnAt(l', p, id, k)
  {
    KeysStable(l, l', k);
  }

  /** Of what it has drawn, a party has each key either stored or used, and never both. */
  lemma DrawnIsKept(secret: Key, sys: System, p: Role, id: KeyId)
    requires Matched(secret, sys) && HasDrawn(sys, p, id)
    ensures id in StateOf(sys, p).skipped <==> !InInbox(sys, p, id)
  {
    var v :| Inv(sys, v) && v.ledger.secret == secret;
    var k := DrawnInLedger(sys, v, p, id);
    DrawnOnce(sys, v, p, id, k);
  }

  lemma DrawnStep(secret: Key, sys: System, ev: Event, p: Role, id: KeyId)
    requires Matched(secret, sys) && Admissible(secret, sys, ev) && HasDrawn(sys, p, id)
    ensures HasDrawn(Step(sys, ev), p, id)
  {
    var v :| Inv(sys, v) && v.ledger.secret == secret;
    var k := DrawnInLedger(sys, v, p, id);
    var v' := NextView(sys, v, ev);
    DrawnGrows(v.ledger, v'.ledger, p, id, k);
    DrawnOnce(Step(sys, ev), v', p, id, k);
  }

  predicate DrawnAfter(sys: System, evs: seq<Event>, i: nat, p: Role, id: KeyId)
    requires i <= |evs|
  {
    HasDrawn(Run(sys, evs[..i]), p, id)
  }

  lemma DrawnNext(secret: Key, sys: System, evs: seq<Event>, i: nat, p: Role, id: KeyId)
    requires Matched(secret, sys) && AdmissibleRun(secret, sys, evs) && i < |evs| && DrawnAfter(sys, evs, i, p, id)
    ensures DrawnAfter(sys, evs, i + 1, p, id)
  {
    MatchedAt(secret, sys, evs, i);
    DrawnStep(secret, Run(sys, evs[..i]), evs[i], p, id);
    RunUnfolds(sys, evs, i + 1);
  }

  lemma {:induction false} StaysDrawn(sys: System, evs: seq<Event>, i: nat, j: nat, p: Role, id: KeyId)
    requires i <= j <= |evs| && DrawnAfter(sys, evs, i, p, id)
    requires forall m: nat :: i <= m < j && DrawnAfter(sys, evs, m, p, id) ==> DrawnAfter(sys, evs, m + 1, p, id)
    ensures DrawnAfter(sys, evs, j, p, id)
    decreases j
  {
    if i < j {
      StaysDrawn(sys, evs, i, j - 1, p, id);
      assert DrawnAfter(sys, evs, (j - 1) + 1, p, id);
    }
  }

  lemma DrawnForever(secret: Key, sys: System, evs: seq<Event>, i: nat, j: nat, p: Role, id: KeyId)
    requires Matched(secret, sys) && AdmissibleRun(secret, sys, evs) && i <= j <= |evs| && DrawnAfter(sys, evs, i, p, id)
    ensures DrawnAfter(sys, evs, j, p, id)
  {
    forall m: nat | i <= m < j && DrawnAfter(sys, evs, m, p, id) ensures DrawnAfter(sys, evs, m + 1, p, id) {
      DrawnNext(secret, sys, evs, m, p, id);
    }
    StaysDrawn(sys, evs, i, j, p, id);
  }

  lemma StoreBounded(secret: Key, sys: System, p: Role)
    requires Matched(secret, sys)
    ensures |StateOf(sys, p).skipped| <= StateOf(sys, p).maxSkip
  {
    var v :| Inv(sys, v) && v.ledger.secret == secret;
    PartiesFromInv(sys, v, p);
  }

  /**
    Key conservation: a key drawn at any point of a run is, at every later point, either
    stored or used by exactly the accepted message with its id; and the store is bounded.
    */
  lemma KeysConserved(secret: Key, sys: System, evs: seq<Event>, i: nat, j: nat, p: Role, id: KeyId)
    requires Matched(secret, sys) && AdmissibleRun(secret, sys, evs) && i <= j <= |evs|
    ensures var end := Run(sys, evs[..j]);
            && |StateOf(end, p).skipped| <= StateOf(end, p).maxSkip
            && (DrawnAfter(sys, evs, i, p, id) ==> (id in StateOf(end, p).skipped <==> !InInbox(end, p, id)))
  {
    MatchedAt(secret, sys, evs, j);
    StoreBounded(secret, Run(sys, evs[..j]), p);
    if DrawnAfter(sys, evs, i, p, id) {
      DrawnForever(secret, sys, evs, i, j, p, id);
      DrawnIsKept(secret, Run(sys, evs[..j]), p, id);
    }
  }

  lemma CurrentIndex(l: Ledger, p: Role, s: State, id: KeyId, k: nat)
    requires Consistent(l) && ReceivingOk(l, p, s) && DrawnAt(l, p, id, k)
    requires s.receiving.Some? && s.dhRemote == Some(id.dh)
    ensures id.number < s.receiving.value.index
  {
    SameEpoch(l, k, Recv(l, p));
  }

  /** On the current chain, exactly the numbers below the index are drawn. */
  lemma CurrentChainDrawn(secret: Key, sys: System, p: Role, id: KeyId)
    requires Matched(secret, sys)
    requires StateOf(sys, p).receiving.Some? && StateOf(sys, p).dhRemote == Some(id.dh)
    ensures HasDrawn(sys, p, id) <==> id.number < StateOf(sys, p).receiving.value.index
  {
    if id.number < StateOf(sys, p).receiving.value.index {
      assert Met(sys, p, id, Passed);
    }
    if HasDrawn(sys, p, id) {
      var v :| Inv(sys, v) && v.ledger.secret == secret;
      var k := DrawnInLedger(sys, v, p, id);
      PartiesFromInv(sys, v, p);
      CurrentIndex(v.ledger, p, StateOf(sys, p), id, k);
    }
  }

  lemma ReplacedEpoch(l: Ledger, l': Ledger, p: Role, s: State, s': State)
    requires Consistent(l) && Consistent(l') && Grows(l, l') && ReceivingOk(l, p, s) && ReceivingOk(l', p, s')
    requires s.receiving.Some? && s'.dhRemote != s.dhRemote
    ensures Recv(l', p) == Recv(l, p) + 2 >= 2 && s.dhRemote == Some(Point(l'.scalars[Recv(l', p) - 2]))
    ensures s'.dhRemote == Some(Point(l'.scalars[Recv(l', p)]))
  {
    KeysStable(l, l', Recv(l, p));
  }

  lemma PostOnCurrent(l: Ledger, p: Role, e: Post, k: nat)
    requires Consistent(l) && PostOk(l, e, k) && 0 <= Recv(l, p) && e.message.header.dh == Point(l.scalars[Recv(l, p)])
    ensures k == Recv(l, p)
  {
    SameEpoch(l, k, Recv(l, p));
  }

  /** Message `e` opened the chain that `p` now receives on; the one before it was named `dh`. */
  ghost predicate Replaced(l: Ledger, p: Role, e: Post, dh: PublicKey)
    requires Shape(l)
  {
    Recv(l, p) >= 2 && PostOk(l, e, Recv(l, p)) && dh == Point(l.scalars[Recv(l, p) - 2])
  }

  lemma ReplacedWith(l: Ledger, l': Ledger, p: Role, s: State, s': State, e: Post, k: nat, dh: PublicKey)
    requires Consistent(l) && Consistent(l') && Grows(l, l') && ReceivingOk(l, p, s) && ReceivingOk(l', p, s')
    requires s.receiving.Some? && s.dhRemote == Some(dh) && s'.dhRemote == Some(e.message.header.dh)
    requires e.message.header.dh != dh && PostOk(l', e, k)
    ensures Replaced(l', p, e, dh)
  {
    ReplacedEpoch(l, l', p, s, s');
    PostOnCurrent(l', p, e, k);
  }

  /** The message just delivered, on the ledger after the delivery. */
  lemma LatestPost(sys: System, v': View, ev: Event) returns (k: nat)
    requires ev.Deliver? && ev.wire.Wire? && Read(sys, ev).result.Ok? && Inv(Step(sys, ev), v')
    ensures PostOk(v'.ledger, Post(Peer(ev.dest), ev.ad, ev.wire.message), k)
    ensures ev.wire.message.header.number in v'.ledger.accepted[k]
  {
    StepRead(sys, ev);
    var i := InboxPost(Step(sys, ev), v', ev.dest, |Inbox(sys, ev.dest)|);
    k := v'.epochs[i];
  }

  lemma ReceivingFromInv(sys: System, v: View, p: Role)
    requires Inv(sys, v)
    ensures ReceivingOk(v.ledger, p, StateOf(sys, p))
  {
    PartiesFromInv(sys, v, p);
  }

  lemma DeliveryReplaces(secret: Key, sys: System, ev: Event, dh: PublicKey) returns (v': View)
    requires Matched(secret, sys) && ev.Deliver? && ev.wire.Wire? && Admissible(secret, sys, ev)
    requires StateOf(sys, ev.dest).receiving.Some? && StateOf(sys, ev.dest).dhRemote == Some(dh)
    requires Read(sys, ev).result.Ok? && Read(sys, ev).state.dhRemote == Some(ev.wire.message.header.dh)
    requires ev.wire.message.header.dh != dh
    ensures Inv(Step(sys, ev), v')
    ensures Replaced(v'.ledger, ev.dest, Post(Peer(ev.dest), ev.ad, ev.wire.message), dh)
  {
    var p, sys' := ev.dest, Step(sys, ev);
    var v :| Inv(sys, v) && v.ledger.secret == secret;
    v' := NextView(sys, v, ev);
    var k := LatestPost(sys, v', ev);
    StepRead(sys, ev);
    ReceivingFromInv(sys, v, p);
    ReceivingFromInv(sys', v', p);
    ReplacedWith(v.ledger, v'.ledger, p, StateOf(sys, p), StateOf(sys', p), Post(Peer(p), ev.ad, ev.wire.message), k, dh);
  }

  /** A message shows the length of the chain before its own, all of which has been read. */
  lemma ReplacedRead(l: Ledger, p: Role, e: Post, dh: PublicKey) returns (k: nat)
    requires Consistent(l) && Replaced(l, p, e, dh)
    ensures k < |l.scalars| && k <= Recv(l, p) && Sender(k) == Peer(p) && dh == Point(l.scalars[k])
    ensures l.read[k] == e.message.header.previous
  {
    k := Recv(l, p) - 2;
    assert ReaderRecv(l, k) == Recv(l, p) && l.read[k] == l.sent[k];
  }

  lemma HeaderDraws(sys: System, v: View, p: Role, e: Post, id: KeyId)
    requires Inv(sys, v) && Replaced(v.ledger, p, e, id.dh) && id.number < e.message.header.previous
    ensures HasDrawn(sys, p, id)
  {
    var k := ReplacedRead(v.ledger, p, e, id.dh);
    DrawnOnce(sys, v, p, id, k);
  }

  lemma DrawnByHeader(sys: System, v: View, p: Role, e: Post, id: KeyId)
    requires Inv(sys, v) && Replaced(v.ledger, p, e, id.dh) && HasDrawn(sys, p, id)
    ensures id.number < e.message.header.previous
  {
    var k := ReplacedRead(v.ledger, p, e, id.dh);
    var m := DrawnInLedger(sys, v, p, id);
    SameEpoch(v.ledger, m, k);
  }

  /**
    When a delivery replaces the receiving chain, exactly the numbers that the new chain's
    header declares for the old one are drawn, whether or not a message was sent under them.
    */
  lemma ReplacedChainDrawn(secret: Key, sys: System, ev: Event, id: KeyId)
    requires Matched(secret, sys) && ev.Deliver? && ev.wire.Wire? && Admissible(secret, sys, ev)
    requires StateOf(sys, ev.dest).receiving.Some? && StateOf(sys, ev.dest).dhRemote == Some(id.dh)
    requires Read(sys, ev).result.Ok? && Read(sys, ev).state.dhRemote == Some(ev.wire.message.header.dh)
    requires ev.wire.message.header.dh != id.dh
    ensures HasDrawn(Step(sys, ev), ev.dest, id) <==> id.number < ev.wire.message.header.previous
  {
    var v := DeliveryReplaces(secret, sys, ev, id.dh);
    var e := Post(Peer(ev.dest), ev.ad, ev.wire.message);
    if HasDrawn(Step(sys, ev), ev.dest, id) {
      DrawnByHeader(Step(sys, ev), v, ev.dest, e, id);
    } else if id.number < e.message.header.previous {
      HeaderDraws(Step(sys, ev), v, ev.dest, e, id);
    }
  }

  // ---------------------------------------------------------------- the same for what was sent

  /** A later message of the sender is on the receiver's current chain, and this one is not. */
  predicate LeftBehind(sys: System, p: Role, i: nat)
    requires i < |sys.log|
  {
    && StateOf(sys, p).receiving.Some? && StateOf(sys, p).dhRemote != Some(sys.log[i].message.header.dh)
    && exists j :: i < j < |sys.log| && sys.log[j].from == sys.log[i].from
                   && StateOf(sys, p).dhRemote == Some(sys.log[j].message.header.dh)
  }

  lemma LeftBehindRead(l: Ledger, p: Role, e: Post, k: nat)
    requires Consistent(l) && PostOk(l, e, k) && e.from == Peer(p) && k < Recv(l, p)
    ensures DrawnAt(l, p, IdOf(e), k)
  {
    assert ReaderRecv(l, k) == Recv(l, p);
  }

  lemma LeftBehindOn(l: Ledger, epochs: seq<nat>, log: seq<Post>, p: Role, s: State, i: nat, j: nat)
    requires Consistent(l) && LogOk(l, epochs, log) && HistoryOk(l, epochs, log) && ReceivingOk(l, p, s)
    requires i < j < |log| && log[i].from == log[j].from == Peer(p)
    requires s.receiving.Some? && s.dhRemote == Some(log[j].message.header.dh) != Some(log[i].message.header.dh)
    ensures DrawnAt(l, p, IdOf(log[i]), epochs[i])
  {
    assert PostOk(l, log[i], epochs[i]) && PostOk(l, log[j], epochs[j]);
    PostOnCurrent(l, p, log[j], epochs[j]);
    LeftBehindRead(l, p, log[i], epochs[i]);
  }

  lemma LeftBehindDrawn(sys: System, v: View, p: Role, i: nat)
    requires Inv(sys, v) && i < |sys.log| && sys.log[i].from == Peer(p) && LeftBehind(sys, p, i)
    ensures DrawnAt(v.ledger, p, IdOf(sys.log[i]), v.epochs[i])
  {
    var j :| i < j < |sys.log| && sys.log[j].from == sys.log[i].from
             && StateOf(sys, p).dhRemote == Some(sys.log[j].message.header.dh);
    ReceivingFromInv(sys, v, p);
    LeftBehindOn(v.ledger, v.epochs, sys.log, p, StateOf(sys, p), i, j);
  }

  lemma SameIdSamePost(sys: System, v: View, p: Role, i: nat)
    requires Inv(sys, v) && i < |sys.log| && sys.log[i].from == Peer(p)
    ensures InInbox(sys, p, IdOf(sys.log[i])) <==> sys.log[i] in Inbox(sys, p)
  {
    PostAccepted(sys, v, p, i);
    InboxIsAccepted(sys, v, p, IdOf(sys.log[i]), v.epochs[i]);
  }

  /**
    In terms of what was sent: a stored key is the key of its message, which has not been
    accepted; and every message drawn past on the current chain, or left behind on a
    replaced one, is either accepted or stored.
    */
  lemma KeysAccounted(secret: Key, sys: System, p: Role, i: nat)
    requires Matched(secret, sys) && i < |sys.log| && sys.log[i].from == Peer(p)
    ensures var s, e := StateOf(sys, p), sys.log[i];
            && (IdOf(e) in s.skipped ==> s.skipped[IdOf(e)] == e.message.box.key && e !in Inbox(sys, p))
            && (DrawnPast(s, IdOf(e)) || LeftBehind(sys, p, i) ==> (IdOf(e) in s.skipped <==> e !in Inbox(sys, p)))
  {
    var v :| Inv(sys, v) && v.ledger.secret == secret;
    var s, e := StateOf(sys, p), sys.log[i];
    PartiesFromInv(sys, v, p);
    PostAccepted(sys, v, p, i);
    PostStored(v.ledger, p, s.skipped, e, v.epochs[i]);
    SameIdSamePost(sys, v, p, i);
    if DrawnPast(s, IdOf(e)) {
      assert Met(sys, p, IdOf(e), Passed);
      DrawnIsKept(secret, sys, p, IdOf(e));
    }
    if LeftBehind(sys, p, i) {
      LeftBehindDrawn(sys, v, p, i);
      DrawnOnce(sys, v, p, IdOf(e), v.epochs[i]);
    }
  }

  // ---------------------------------------------------------------- failed deliveries

  /** The run without its failed deliveries. */
  function WithoutFailures(sys: System, evs: seq<Event>): seq<Event>
    decreases |evs|
  {
    if evs == [] then []
    else
      var front, last := evs[..|evs| - 1], evs[|evs| - 1];
      if last.Deliver? && Read(Run(sys, front), last).result.Err? then WithoutFailures(sys, front) else WithoutFailures(sys, front) + [last]
  }

  /** Equal up to the record of drawn scalars, which no call reads. */
  predicate Same(sys: System, sys': System) { sys' == sys.(used := sys'.used) }

  lemma SameStep(sys: System, sys': System, ev: Event)
    requires Same(sys, sys')
    ensures Same(Step(sys, ev), Step(sys', ev))
    ensures ev.Deliver? ==> Read(sys, ev) == Read(sys', ev)
    ensures ev.Send? ==> Sent(sys, ev) == Sent(sys', ev)
  {
  }

  /**
    Failed decrypts leave no trace: deleting every failed delivery from a run, whatever
    was delivered, changes no state, no log and no inbox.
    */
  lemma {:induction false} Erasure(sys: System, evs: seq<Event>)
    ensures Same(Run(sys, evs), Run(sys, WithoutFailures(sys, evs)))
    decreases |evs|
  {
    if evs != [] {
      var front, last := evs[..|evs| - 1], evs[|evs| - 1];
      Erasure(sys, front);
      if last.Deliver? && Read(Run(sys, front), last).result.Err? {
        FailedDelivery(Run(sys, front), last);
      } else {
        SameStep(Run(sys, front), Run(sys, WithoutFailures(sys, front)), last);
        assert WithoutFailures(sys, evs)[..|WithoutFailures(sys, evs)| - 1] == WithoutFailures(sys, front);
      }
    }
  }

  /** Nor does it change the result of any later call. */
  lemma ErasedResult(sys: System, evs: seq<Event>, ev: Event)
    ensures ev.Deliver? ==> Read(Run(sys, evs), ev).result == Read(Run(sys, WithoutFailures(sys, evs)), ev).result
    ensures ev.Send? ==> Sent(Run(sys, evs), ev).result == Sent(Run(sys, WithoutFailures(sys, evs)), ev).result
  {
    Erasure(sys, evs);
    SameStep(Run(sys, evs), Run(sys, WithoutFailures(sys, evs)), ev);
  }
}
