/**
  Two sessions and a network. The network sees every produced message and may deliver any
  message to either party any number of times, in any order, with any header, clock stamp
  or associated data rewritten, or never. It may also deliver boxes of its own making, but
  under no key of the session.
  */
module RatchetProtocol {
  import opened Wrappers
  import opened Crypto
  import opened Ratchet
  import opened RatchetLedger
  import opened RatchetSteps
  import opened RatchetMoves
  import opened RatchetDelivery
  import opened RatchetSending

  datatype System = System(
    a: State,
    b: State,
    log: seq<Post>,
    inboxA: seq<Post>,
    inboxB: seq<Post>,
    used: set<Scalar>)

  datatype Event =
    | Send(from: Role, plaintext: Bytes, ad: Bytes, seed: Scalar, now: nat)
    | Deliver(dest: Role, wire: Wire, ad: Bytes, seed: Scalar, now: nat)

  function StateOf(sys: System, p: Role): State { if p.Initiator? then sys.a else sys.b }

  function WithState(sys: System, p: Role, s: State): System {
    if p.Initiator? then sys.(a := s) else sys.(b := s)
  }

  function Inbox(sys: System, p: Role): seq<Post> { if p.Initiator? then sys.inboxA else sys.inboxB }

  function WithInbox(sys: System, p: Role, inbox: seq<Post>): System {
    if p.Initiator? then sys.(inboxA := inbox) else sys.(inboxB := inbox)
  }

  function Sent(sys: System, ev: Event): Sending
    requires ev.Send?
  {
    Encrypt(StateOf(sys, ev.from), ev.plaintext, ev.ad, ev.seed, ev.now)
  }

  function Read(sys: System, ev: Event): Reading
    requires ev.Deliver?
  {
    Decrypt(StateOf(sys, ev.dest), ev.wire, ev.ad, ev.seed, ev.now)
  }

  function Step(sys: System, ev: Event): System {
    var sys1 := sys.(used := sys.used + {ev.seed});
    match ev
    case Send(p, _, ad, _, _) =>
      var Sending(s, r) := Sent(sys, ev);
      var sys2 := WithState(sys1, p, s);
      if r.Ok? then sys2.(log := sys.log + [Post(p, ad, r.value)]) else sys2
    case Deliver(p, w, ad, _, _) =>
      var Reading(s, r) := Read(sys, ev);
      var sys2 := WithState(sys1, p, s);
      if r.Ok? && w.Wire? then WithInbox(sys2, p, Inbox(sys, p) + [Post(Peer(p), ad, w.message)]) else sys2
  }

  /**
    What the theorems assume of an event: scalars are fresh, an existing sending chain is
    not due for rotation, and the network has no session key.
    */
  predicate Admissible(secret: Key, sys: System, ev: Event) {
    && ev.seed !in sys.used
    && (ev.Send? && StateOf(sys, ev.from).sending.Some? ==>
          !NeedsRotation(StateOf(sys, ev.from).sending.value, ev.now))
    && (ev.Deliver? && ev.wire.Wire? ==> NetworkBox(secret, sys.log, ev.wire.message.box))
  }

  // ---------------------------------------------------------------- the invariant

  /** The ledger together with the epoch of every logged message. */
  datatype View = View(ledger: Ledger, epochs: seq<nat>)

  ghost predicate InboxOk(l: Ledger, epochs: seq<nat>, log: seq<Post>, inbox: seq<Post>, p: Role)
    requires Shape(l) && LogOk(l, epochs, log)
  {
    && (forall i :: 0 <= i < |inbox| ==> inbox[i] in log && inbox[i].from == Peer(p))
    && (forall i, j :: 0 <= i < j < |inbox| ==> inbox[i] != inbox[j])
    && (forall i :: 0 <= i < |log| && log[i].from == Peer(p) ==>
          (Number(log[i]) in l.accepted[epochs[i]] <==> log[i] in inbox))
  }

  /** Some logged message of epoch `k` has number `n`. */
  ghost predicate Logged(epochs: seq<nat>, log: seq<Post>, k: nat, n: nat)
    requires |epochs| == |log|
  {
    exists i :: 0 <= i < |log| && epochs[i] == k && Number(log[i]) == n
  }

  /** What was accepted was sent, and each party's messages were logged chain after chain. */
  ghost predicate HistoryOk(l: Ledger, epochs: seq<nat>, log: seq<Post>)
    requires |epochs| == |log|
  {
    && (forall k: nat, n :: k < |l.accepted| && n in l.accepted[k] ==> Logged(epochs, log, k, n))
    && (forall i, j :: 0 <= i < j < |log| && log[i].from == log[j].from ==> epochs[i] <= epochs[j])
  }

  ghost predicate UsedOk(l: Ledger, used: set<Scalar>) {
    l.spare in used && forall x :: x in l.scalars ==> x in used
  }

  ghost predicate PartyOk(sys: System, v: View, p: Role)
    requires Shape(v.ledger) && LogOk(v.ledger, v.epochs, sys.log)
  {
    StateOk(v.ledger, p, StateOf(sys, p)) && InboxOk(v.ledger, v.epochs, sys.log, Inbox(sys, p), p)
  }

  ghost predicate Inv(sys: System, v: View) {
    var l := v.ledger;
    && Consistent(l) && UsedOk(l, sys.used)
    && LogOk(l, v.epochs, sys.log) && HistoryOk(l, v.epochs, sys.log)
    && forall p: Role :: PartyOk(sys, v, p)
  }

  lemma PartiesFromInv(sys: System, v: View, p: Role)
    requires Inv(sys, v)
    ensures PartyOk(sys, v, p)
  {
  }

  /** Some ledger describes the whole system. */
  ghost predicate Matched(secret: Key, sys: System) {
    exists v :: Inv(sys, v) && v.ledger.secret == secret
  }

  /** One step further: at most one more epoch, nothing unread, at most one chain replaced per party. */
  ghost predicate Grows(l: Ledger, l': Ledger)
    requires Shape(l) && Shape(l')
  {
    && Extends(l, l')
    && (l'.recvA == l.recvA || l'.recvA == l.recvA + 2) && (l'.recvB == l.recvB || l'.recvB == l.recvB + 2)
    && (forall k :: 0 <= k < |l.scalars| ==> l.read[k] <= l'.read[k])
  }

  /** A ledger one step further describes the system. */
  ghost predicate Continues(l: Ledger, sys: System)
    requires Shape(l)
  {
    exists v :: Inv(sys, v) && Grows(l, v.ledger)
  }

  // ---------------------------------------------------------------- frames for log and inboxes

  /** Sends only grow, and only on the newest epoch of each party. */
  ghost predicate SentGrows(l: Ledger, l': Ledger)
    requires Shape(l) && Shape(l')
  {
    && Extends(l, l')
    && (forall k :: 0 <= k < |l.scalars| ==> l.sent[k] <= l'.sent[k])
    && (forall k :: 0 <= k && k + 2 < |l.scalars| ==> l'.sent[k] == l.sent[k])
  }

  lemma LogFrame(l: Ledger, l': Ledger, epochs: seq<nat>, log: seq<Post>)
    requires Shape(l) && Shape(l') && LogOk(l, epochs, log) && SentGrows(l, l')
    ensures LogOk(l', epochs, log)
  {
    forall i | 0 <= i < |log| ensures PostOk(l', log[i], epochs[i]) {
      assert PostOk(l, log[i], epochs[i]);
      KeysStable(l, l', epochs[i]);
    }
  }

  lemma InboxFrame(l: Ledger, l': Ledger, epochs: seq<nat>, log: seq<Post>, inbox: seq<Post>, p: Role)
    requires Shape(l) && Shape(l') && LogOk(l, epochs, log) && LogOk(l', epochs, log)
    requires InboxOk(l, epochs, log, inbox, p)
    requires forall k :: 0 <= k < |l.scalars| && Sender(k) != p ==>
                           k < |l'.accepted| && l'.accepted[k] == l.accepted[k]
    ensures InboxOk(l', epochs, log, inbox, p)
  {
    forall i | 0 <= i < |log| && log[i].from == Peer(p)
      ensures Number(log[i]) in l'.accepted[epochs[i]] <==> log[i] in inbox
    {
      assert PostOk(l, log[i], epochs[i]);
    }
  }

  /** Logged messages are told apart by epoch and number. */
  lemma LogDistinct(l: Ledger, epochs: seq<nat>, log: seq<Post>, i: nat, j: nat)
    requires Shape(l) && Distinct(l) && LogOk(l, epochs, log) && i < |log| && j < |log|
    ensures log[i] == log[j] <==> i == j
    ensures epochs[i] == epochs[j] && Number(log[i]) == Number(log[j]) ==> i == j
  {
    assert PostOk(l, log[i], epochs[i]) && PostOk(l, log[j], epochs[j]);
  }

  ghost predicate AcceptedOne(l: Ledger, l': Ledger, k: nat, n: nat)
    requires Shape(l)
  {
    && |l.accepted| <= |l'.accepted|
    && (forall j :: 0 <= j < |l.accepted| && j != k ==> l'.accepted[j] == l.accepted[j])
    && (k < |l.accepted| ==> l'.accepted[k] == l.accepted[k] + {n})
  }

  /** Accepting message `i` adds it to the inbox, where it was not before. */
  lemma InboxGrows(l: Ledger, l': Ledger, epochs: seq<nat>, log: seq<Post>, inbox: seq<Post>, p: Role, i: nat)
    requires Shape(l) && Shape(l') && Distinct(l) && LogOk(l, epochs, log) && LogOk(l', epochs, log)
    requires InboxOk(l, epochs, log, inbox, p)
    requires i < |log| && log[i].from == Peer(p)
    requires epochs[i] < |l.accepted| && Number(log[i]) !in l.accepted[epochs[i]]
    requires AcceptedOne(l, l', epochs[i], Number(log[i]))
    ensures log[i] !in inbox && InboxOk(l', epochs, log, inbox + [log[i]], p)
  {
    var inbox' := inbox + [log[i]];
    forall j | 0 <= j < |log| && log[j].from == Peer(p)
      ensures Number(log[j]) in l'.accepted[epochs[j]] <==> log[j] in inbox'
    {
      LogDistinct(l, epochs, log, i, j);
      assert PostOk(l, log[j], epochs[j]);
      assert log[j] in inbox' <==> log[j] in inbox || log[j] == log[i];
    }
  }

  /** Nothing is accepted on an epoch that was just opened. */
  lemma NewEpochUnread(l: Ledger, k: nat)
    requires Consistent(l) && k + 1 == |l.scalars| && k > 0
    ensures l.accepted[k] == {}
  {
    assert k > ReaderRecv(l, k);
    assert forall n :: n in l.accepted[k] ==> n < l.read[k];
  }

  lemma EpochsBefore(l: Ledger, l': Ledger, k: nat)
    requires Shape(l) && Consistent(l') && Extends(l, l') && k < |l'.accepted| && l'.accepted[k] != {}
    ensures k < |l.accepted|
  {
    if |l.accepted| <= k {
      NewEpochUnread(l', k);
    }
  }

  lemma HistoryRead(l: Ledger, l': Ledger, epochs: seq<nat>, log: seq<Post>, i: nat)
    requires Shape(l) && Consistent(l') && Extends(l, l') && |epochs| == |log| && HistoryOk(l, epochs, log)
    requires i < |log| && AcceptedOne(l, l', epochs[i], Number(log[i]))
    ensures HistoryOk(l', epochs, log)
  {
    forall k: nat, n | k < |l'.accepted| && n in l'.accepted[k] ensures Logged(epochs, log, k, n) {
      EpochsBefore(l, l', k);
      assert n in l.accepted[k] || (k == epochs[i] && n == Number(log[i]));
    }
  }

  lemma HistorySend(l: Ledger, l': Ledger, epochs: seq<nat>, log: seq<Post>)
    requires Shape(l) && Consistent(l') && Extends(l, l') && |epochs| == |log| && HistoryOk(l, epochs, log)
    requires forall j :: 0 <= j < |l.accepted| ==> j < |l'.accepted| && l'.accepted[j] == l.accepted[j]
    ensures HistoryOk(l', epochs, log)
  {
    forall k: nat, n | k < |l'.accepted| && n in l'.accepted[k] ensures Logged(epochs, log, k, n) {
      EpochsBefore(l, l', k);
    }
  }

  lemma LoggedLonger(epochs: seq<nat>, log: seq<Post>, k: nat, n: nat, e: Post, k': nat)
    requires |epochs| == |log| && Logged(epochs, log, k, n)
    ensures Logged(epochs + [k'], log + [e], k, n)
  {
    var i :| 0 <= i < |log| && epochs[i] == k && Number(log[i]) == n;
    assert (epochs + [k'])[i] == k && (log + [e])[i] == log[i];
  }

  lemma HistoryAppended(l: Ledger, epochs: seq<nat>, log: seq<Post>, e: Post, k: nat)
    requires Shape(l) && LogOk(l, epochs, log) && HistoryOk(l, epochs, log)
    requires e.from == Sender(k) && forall j: nat :: j < |l.scalars| && Sender(j) == Sender(k) ==> j <= k
    ensures HistoryOk(l, epochs + [k], log + [e])
  {
    forall j: nat, n | j < |l.accepted| && n in l.accepted[j] ensures Logged(epochs + [k], log + [e], j, n) {
      LoggedLonger(epochs, log, j, n, e, k);
    }
    forall i | 0 <= i < |log| && log[i].from == e.from ensures epochs[i] <= k {
      assert PostOk(l, log[i], epochs[i]);
    }
  }

  // ---------------------------------------------------------------- a delivery

  /** All that anyone but the receiver can notice of a delivery. */
  ghost predicate ReadEffect(l: Ledger, l': Ledger, p: Role, k: nat, n: nat)
    requires Shape(l)
  {
    && Consistent(l') && SentGrows(l, l') && AcceptedOne(l, l', k, n)
    && Recv(l', Peer(p)) == Recv(l, Peer(p)) && (Recv(l', p) == Recv(l, p) || Recv(l', p) == Recv(l, p) + 2)
    && l'.live == l.live
    && (forall j :: 0 <= j < |l.scalars| ==> l'.sent[j] == l.sent[j] && l.read[j] <= l'.read[j])
    && (forall j :: 0 <= j < |l.scalars| && Sender(j) == p ==>
          l'.read[j] == l.read[j] && l'.accepted[j] == l.accepted[j])
  }

  /** The sequences of a ledger that has turned. */
  lemma TurnedSequences(l: Ledger, p: Role, k: nat, n: nat, x: Scalar)
    requires Shape(l) && k == Recv(l, p) + 2 && Behind(l, p) && k < |l.sent|
    ensures var l', r := TurnedTo(l, p, x, n), Recv(l, p);
            && l'.scalars == l.scalars + [x] && l'.sent == l.sent + [0]
            && l'.accepted == l.accepted[k := l.accepted[k] + {n}] + [{}]
            && l'.read == (if 0 <= r then l.read[r := l.sent[r]] else l.read)[k := n + 1] + [0]
            && l'.secret == l.secret && l'.spare == l.spare && l'.live == l.live
            && Recv(l', p) == k && Recv(l', Peer(p)) == Recv(l, Peer(p))
  {
  }

  lemma TurnReads(l: Ledger, l': Ledger, p: Role, k: nat, n: nat)
    requires Consistent(l) && k == Recv(l, p) + 2 && Behind(l, p) && k < |l.read| && l.read[k] <= n
    requires var r := Recv(l, p); l'.read == (if 0 <= r then l.read[r := l.sent[r]] else l.read)[k := n + 1] + [0]
    ensures forall j :: 0 <= j < |l.scalars| ==> l.read[j] <= l'.read[j]
    ensures forall j :: 0 <= j < |l.scalars| && Sender(j) == p ==> l'.read[j] == l.read[j]
  {
    EpochsOf(l, p);
  }

  lemma TurnEffect(l: Ledger, p: Role, k: nat, n: nat, x: Scalar)
    requires Consistent(l) && k == Recv(l, p) + 2 && Behind(l, p) && k < |l.sent| && n < l.sent[k] && Fresh(l, x)
    ensures ReadEffect(l, TurnedTo(l, p, x, n), p, k, n)
    ensures TurnedTo(l, p, x, n).scalars == l.scalars + [x]
  {
    TurnedToConsistent(l, p, x, n);
    TurnedSequences(l, p, k, n, x);
    NothingReadAhead(l, p);
    TurnReads(l, TurnedTo(l, p, x, n), p, k, n);
    EpochsOf(l, Peer(p));
  }

  lemma StayEffect(l: Ledger, p: Role, k: nat, n: nat)
    requires Consistent(l) && k == Recv(l, p) && l.read[k] <= n < l.sent[k]
    ensures ReadEffect(l, StayedTo(l, p, n), p, k, n)
  {
    StayedConsistent(l, p, n);
  }

  lemma UseEffect(l: Ledger, p: Role, k: nat, n: nat)
    requires Consistent(l) && Stored(l, p, k, n)
    ensures ReadEffect(l, Accepted(l, k, n), p, k, n)
  {
    UsedConsistent(l, p, k, n);
  }

  lemma TookEffect(l: Ledger, p: Role, k: nat, n: nat, x: Scalar, l': Ledger)
    requires Consistent(l) && Took(l, p, k, n, x, l') && Fresh(l, x)
    ensures ReadEffect(l, l', p, k, n)
    ensures l'.spare == l.spare && forall y :: y in l'.scalars ==> y in l.scalars || y == x
  {
    if Stored(l, p, k, n) && l' == Accepted(l, k, n) {
      UseEffect(l, p, k, n);
    } else if k == Recv(l, p) {
      StayEffect(l, p, k, n);
    } else {
      TurnEffect(l, p, k, n, x);
    }
  }

  lemma LogAfterRead(sys: System, v: View, l': Ledger, p: Role, i: nat)
    requires Inv(sys, v) && i < |sys.log| && ReadEffect(v.ledger, l', p, v.epochs[i], Number(sys.log[i]))
    ensures LogOk(l', v.epochs, sys.log) && HistoryOk(l', v.epochs, sys.log)
  {
    LogFrame(v.ledger, l', v.epochs, sys.log);
    HistoryRead(v.ledger, l', v.epochs, sys.log, i);
  }

  lemma InboxAfterRead(sys: System, v: View, l': Ledger, p: Role, i: nat)
    requires Inv(sys, v) && i < |sys.log| && sys.log[i].from == Peer(p)
    requires v.epochs[i] < |v.ledger.accepted| && Number(sys.log[i]) !in v.ledger.accepted[v.epochs[i]]
    requires ReadEffect(v.ledger, l', p, v.epochs[i], Number(sys.log[i])) && LogOk(l', v.epochs, sys.log)
    ensures InboxOk(l', v.epochs, sys.log, Inbox(sys, p) + [sys.log[i]], p)
  {
    PartiesFromInv(sys, v, p);
    InboxGrows(v.ledger, l', v.epochs, sys.log, Inbox(sys, p), p, i);
  }

  lemma PeerInboxAfterRead(sys: System, v: View, l': Ledger, p: Role, k: nat, n: nat)
    requires Inv(sys, v) && ReadEffect(v.ledger, l', p, k, n) && LogOk(l', v.epochs, sys.log)
    ensures InboxOk(l', v.epochs, sys.log, Inbox(sys, Peer(p)), Peer(p))
  {
    PartiesFromInv(sys, v, Peer(p));
    InboxFrame(v.ledger, l', v.epochs, sys.log, Inbox(sys, Peer(p)), Peer(p));
  }

  /** Log and both inboxes after message `i` went to `p`. */
  lemma RecordsAfterRead(sys: System, v: View, l': Ledger, p: Role, i: nat)
    requires Inv(sys, v) && i < |sys.log| && sys.log[i].from == Peer(p)
    requires v.epochs[i] < |v.ledger.accepted| && Number(sys.log[i]) !in v.ledger.accepted[v.epochs[i]]
    requires ReadEffect(v.ledger, l', p, v.epochs[i], Number(sys.log[i]))
    ensures LogOk(l', v.epochs, sys.log) && HistoryOk(l', v.epochs, sys.log)
    ensures InboxOk(l', v.epochs, sys.log, Inbox(sys, p) + [sys.log[i]], p)
    ensures InboxOk(l', v.epochs, sys.log, Inbox(sys, Peer(p)), Peer(p))
  {
    LogAfterRead(sys, v, l', p, i);
    InboxAfterRead(sys, v, l', p, i);
    PeerInboxAfterRead(sys, v, l', p, v.epochs[i], Number(sys.log[i]));
  }

  lemma InvFromParties(sys: System, v: View, p: Role)
    requires Consistent(v.ledger) && UsedOk(v.ledger, sys.used)
    requires LogOk(v.ledger, v.epochs, sys.log) && HistoryOk(v.ledger, v.epochs, sys.log)
    requires PartyOk(sys, v, p) && PartyOk(sys, v, Peer(p))
    ensures Inv(sys, v)
  {
    forall q: Role ensures PartyOk(sys, v, q) {
      assert q == p || q == Peer(p);
    }
  }

  /** What the ledger says of a party about to move with a new scalar. */
  lemma MoverFacts(sys: System, v: View, p: Role, x: Scalar)
    requires Inv(sys, v) && x !in sys.used
    ensures Consistent(v.ledger) && StateOk(v.ledger, p, StateOf(sys, p)) && Fresh(v.ledger, x) && UsedOk(v.ledger, sys.used)
  {
    PartiesFromInv(sys, v, p);
  }

  lemma FreshSeed(sys: System, v: View, x: Scalar)
    requires Inv(sys, v) && x !in sys.used
    ensures Fresh(v.ledger, x)
  {
  }

  lemma StepRead(sys: System, ev: Event)
    requires ev.Deliver? && ev.wire.Wire? && Read(sys, ev).result.Ok?
    ensures var sys' := Step(sys, ev); var p := ev.dest;
            && sys'.log == sys.log && sys'.used == sys.used + {ev.seed}
            && StateOf(sys', p) == Read(sys, ev).state && StateOf(sys', Peer(p)) == StateOf(sys, Peer(p))
            && Inbox(sys', p) == Inbox(sys, p) + [Post(Peer(p), ev.ad, ev.wire.message)]
            && Inbox(sys', Peer(p)) == Inbox(sys, Peer(p))
  {
  }

  lemma ReadLeavesPeer(l: Ledger, l': Ledger, p: Role, k: nat, n: nat)
    requires Shape(l) && ReadEffect(l, l', p, k, n)
    ensures LeavesAlone(l, l', Peer(p))
  {
  }

  lemma PeerKeepsRead(l: Ledger, l': Ledger, p: Role, k: nat, n: nat, s: State)
    requires Shape(l) && StateOk(l, Peer(p), s) && ReadEffect(l, l', p, k, n)
    ensures StateOk(l', Peer(p), s)
  {
    ReadLeavesPeer(l, l', p, k, n);
    PeerKeepsState(l, l', Peer(p), s);
  }

  lemma PeerAfterRead(sys: System, v: View, l': Ledger, p: Role, k: nat, n: nat)
    requires Inv(sys, v) && ReadEffect(v.ledger, l', p, k, n)
    ensures StateOk(l', Peer(p), StateOf(sys, Peer(p)))
  {
    PartiesFromInv(sys, v, Peer(p));
    PeerKeepsRead(v.ledger, l', p, k, n, StateOf(sys, Peer(p)));
  }

  /** After a successful delivery of message `i` the system is again described by a ledger. */
  lemma AfterRead(sys: System, v: View, ev: Event, i: nat, l': Ledger)
    requires Inv(sys, v) && ev.Deliver? && ev.wire.Wire? && Read(sys, ev).result.Ok?
    requires i < |sys.log| && sys.log[i] == Post(Peer(ev.dest), ev.ad, ev.wire.message)
    requires v.epochs[i] < |v.ledger.accepted| && Number(sys.log[i]) !in v.ledger.accepted[v.epochs[i]]
    requires ReadEffect(v.ledger, l', ev.dest, v.epochs[i], Number(sys.log[i]))
    requires UsedOk(l', sys.used + {ev.seed})
    requires StateOk(l', ev.dest, Read(sys, ev).state)
    ensures Inv(Step(sys, ev), View(l', v.epochs))
  {
    StepRead(sys, ev);
    RecordsAfterRead(sys, v, l', ev.dest, i);
    PeerAfterRead(sys, v, l', ev.dest, v.epochs[i], Number(sys.log[i]));
    InvFromParties(Step(sys, ev), View(l', v.epochs), ev.dest);
  }

  lemma ReadGrows(l: Ledger, l': Ledger, p: Role, k: nat, n: nat)
    requires Shape(l) && ReadEffect(l, l', p, k, n)
    ensures Grows(l, l')
  {
  }

  lemma Continue(l: Ledger, sys: System, v: View)
    requires Shape(l) && Inv(sys, v) && Grows(l, v.ledger)
    ensures Continues(l, sys)
  {
  }

  lemma UsedGrows(sys: System, v: View, x: Scalar)
    requires Inv(sys, v)
    ensures Inv(sys.(used := sys.used + {x}), v)
  {
    forall p: Role ensures PartyOk(sys.(used := sys.used + {x}), v, p) {
      PartiesFromInv(sys, v, p);
    }
  }

  /** A delivery that fails leaves no trace in either state. */
  lemma FailedDelivery(sys: System, ev: Event)
    requires ev.Deliver? && Read(sys, ev).result.Err?
    ensures Step(sys, ev) == sys.(used := sys.used + {ev.seed})
  {
  }

  lemma GrowsBySelf(l: Ledger)
    requires Shape(l)
    ensures Grows(l, l)
  {
  }

  /** A step that changes nothing but the record of drawn scalars. */
  lemma NothingKeeps(sys: System, v: View, x: Scalar)
    requires Inv(sys, v)
    ensures Continues(v.ledger, sys.(used := sys.used + {x}))
  {
    UsedGrows(sys, v, x);
    GrowsBySelf(v.ledger);
    Continue(v.ledger, sys.(used := sys.used + {x}), v);
  }

  lemma ReadKeeps(sys: System, v: View, ev: Event, i: nat, l': Ledger)
    requires Inv(sys, v) && ev.Deliver? && ev.wire.Wire? && Read(sys, ev).result.Ok?
    requires i < |sys.log| && sys.log[i] == Post(Peer(ev.dest), ev.ad, ev.wire.message)
    requires v.epochs[i] < |v.ledger.accepted| && Number(sys.log[i]) !in v.ledger.accepted[v.epochs[i]]
    requires ReadEffect(v.ledger, l', ev.dest, v.epochs[i], Number(sys.log[i]))
    requires UsedOk(l', sys.used + {ev.seed}) && StateOk(l', ev.dest, Read(sys, ev).state)
    ensures Continues(v.ledger, Step(sys, ev))
  {
    AfterRead(sys, v, ev, i, l');
    ReadGrows(v.ledger, l', ev.dest, v.epochs[i], Number(sys.log[i]));
    Continue(v.ledger, Step(sys, ev), View(l', v.epochs));
  }

  lemma UsedAfter(l: Ledger, l': Ledger, used: set<Scalar>, x: Scalar)
    requires UsedOk(l, used) && l'.spare == l.spare
    requires forall y :: y in l'.scalars ==> y in l.scalars || y == x
    ensures UsedOk(l', used + {x})
  {
  }

  lemma SuccessfulDeliveryKeeps(sys: System, v: View, ev: Event)
    requires Inv(sys, v) && ev.Deliver? && Admissible(v.ledger.secret, sys, ev) && Read(sys, ev).result.Ok?
    ensures Continues(v.ledger, Step(sys, ev))
  {
    var p, s := ev.dest, StateOf(sys, ev.dest);
    PartiesFromInv(sys, v, p);
    FreshSeed(sys, v, ev.seed);
    var i := DeliverSound(v.ledger, p, s, v.epochs, sys.log, ev.wire, ev.ad, ev.seed, ev.now);
    var l' := DeliverComplete(v.ledger, p, s, sys.log[i], v.epochs[i], ev.seed, ev.now);
    TookEffect(v.ledger, p, v.epochs[i], Number(sys.log[i]), ev.seed, l');
    UsedAfter(v.ledger, l', sys.used, ev.seed);
    ReadKeeps(sys, v, ev, i, l');
  }

  lemma DeliverKeeps(sys: System, v: View, ev: Event)
    requires Inv(sys, v) && ev.Deliver? && Admissible(v.ledger.secret, sys, ev)
    ensures Continues(v.ledger, Step(sys, ev))
  {
    if Read(sys, ev).result.Err? {
      FailedDelivery(sys, ev);
      NothingKeeps(sys, v, ev.seed);
    } else {
      SuccessfulDeliveryKeeps(sys, v, ev);
    }
  }

  // ---------------------------------------------------------------- a send

  /** All that anyone but the sender can notice of a send. */
  ghost predicate SendEffect(l: Ledger, l': Ledger, p: Role)
    requires Shape(l)
  {
    && Consistent(l') && SentGrows(l, l')
    && l'.recvA == l.recvA && l'.recvB == l.recvB && Live(l', Peer(p)) == Live(l, Peer(p))
    && (forall j :: 0 <= j < |l.scalars| && Sender(j) == Peer(p) ==> l'.sent[j] == l.sent[j])
    && (forall j :: 0 <= j < |l.scalars| ==> l'.read[j] == l.read[j] && l'.accepted[j] == l.accepted[j])
  }

  lemma SendGrows(l: Ledger, l': Ledger, p: Role)
    requires Shape(l) && SendEffect(l, l', p)
    ensures Grows(l, l')
  {
  }

  lemma DrewEffect(l: Ledger, p: Role)
    requires Consistent(l) && Live(l, p) && Recv(l, p) + 1 < |l.scalars|
    requires Consistent(DrewToSend(l, Recv(l, p) + 1))
    ensures SendEffect(l, DrewToSend(l, Recv(l, p) + 1), p)
  {
  }

  lemma WentLiveEffect(l: Ledger, x: Scalar)
    requires Consistent(l) && !l.live && Fresh(l, x)
    requires Consistent(DrewToSend(WentLive(l, x), 1))
    ensures SendEffect(l, DrewToSend(WentLive(l, x), 1), Responder)
    ensures WentLive(l, x).scalars == l.scalars + [x]
  {
  }

  lemma SentOneIs(l: Ledger, p: Role, x: Scalar)
    requires Shape(l) && Recv(l, p) + 1 < |Opener(l, p, x).sent|
    ensures Live(l, p) ==> SentOne(l, p, x) == DrewToSend(l, Recv(l, p) + 1)
    ensures !Live(l, p) ==> p == Responder && SentOne(l, p, x) == DrewToSend(WentLive(l, x), 1)
  {
  }

  lemma SentScalars(l: Ledger, p: Role, x: Scalar)
    requires Recv(l, p) + 1 < |Opener(l, p, x).sent| && 0 <= Recv(l, p) + 1
    ensures SentOne(l, p, x).spare == l.spare
    ensures forall y :: y in SentOne(l, p, x).scalars ==> y in l.scalars || y == x
  {
  }

  lemma SentEffect(l: Ledger, p: Role, x: Scalar)
    requires Consistent(l) && Fresh(l, x)
    requires Recv(l, p) + 1 < |Opener(l, p, x).sent| && Consistent(SentOne(l, p, x))
    ensures SendEffect(l, SentOne(l, p, x), p)
  {
    SentOneIs(l, p, x);
    if Live(l, p) {
      DrewEffect(l, p);
    } else {
      WentLiveEffect(l, x);
    }
  }

  /** Appending the message just produced. */
  lemma LogGrows(l: Ledger, epochs: seq<nat>, log: seq<Post>, e: Post, k: nat)
    requires Shape(l) && LogOk(l, epochs, log) && PostOk(l, e, k)
    requires forall i :: 0 <= i < |log| && epochs[i] == k ==> Number(log[i]) < Number(e)
    ensures LogOk(l, epochs + [k], log + [e])
  {
  }

  lemma NewNumber(l: Ledger, epochs: seq<nat>, log: seq<Post>, k: nat, n: nat)
    requires Shape(l) && LogOk(l, epochs, log)
    requires k < |l.sent| ==> l.sent[k] <= n
    ensures forall i :: 0 <= i < |log| && epochs[i] == k ==> Number(log[i]) < n
  {
    forall i | 0 <= i < |log| && epochs[i] == k ensures Number(log[i]) < n {
      assert PostOk(l, log[i], epochs[i]);
    }
  }

  /** A message nobody has read yet belongs in no inbox. */
  lemma InboxUntouched(l: Ledger, epochs: seq<nat>, log: seq<Post>, inbox: seq<Post>, p: Role, e: Post, k: nat)
    requires Shape(l) && LogOk(l, epochs, log) && InboxOk(l, epochs, log, inbox, p)
    requires LogOk(l, epochs + [k], log + [e]) && k < |l.accepted|
    requires e !in log && Number(e) !in l.accepted[k]
    ensures InboxOk(l, epochs + [k], log + [e], inbox, p)
  {
    var log' := log + [e];
    forall i | 0 <= i < |log'| && log'[i].from == Peer(p)
      ensures Number(log'[i]) in l.accepted[(epochs + [k])[i]] <==> log'[i] in inbox
    {
      if i == |log| {
        assert forall j :: 0 <= j < |inbox| ==> inbox[j] in log;
      }
    }
  }

  /** The records before the new message is appended, seen from the ledger after the send. */
  lemma RecordsAfterSend(sys: System, v: View, l': Ledger, p: Role)
    requires Inv(sys, v) && SendEffect(v.ledger, l', p)
    ensures LogOk(l', v.epochs, sys.log) && HistoryOk(l', v.epochs, sys.log)
    ensures InboxOk(l', v.epochs, sys.log, Inbox(sys, p), p)
    ensures InboxOk(l', v.epochs, sys.log, Inbox(sys, Peer(p)), Peer(p))
  {
    PartiesFromInv(sys, v, p);
    PartiesFromInv(sys, v, Peer(p));
    LogFrame(v.ledger, l', v.epochs, sys.log);
    HistorySend(v.ledger, l', v.epochs, sys.log);
    InboxFrame(v.ledger, l', v.epochs, sys.log, Inbox(sys, p), p);
    InboxFrame(v.ledger, l', v.epochs, sys.log, Inbox(sys, Peer(p)), Peer(p));
  }

  lemma PeerAfterSend(sys: System, v: View, l': Ledger, p: Role)
    requires Inv(sys, v) && SendEffect(v.ledger, l', p)
    ensures StateOk(l', Peer(p), StateOf(sys, Peer(p)))
  {
    PartiesFromInv(sys, v, Peer(p));
    PeerKeepsState(v.ledger, l', Peer(p), StateOf(sys, Peer(p)));
  }

  lemma StepSend(sys: System, ev: Event)
    requires ev.Send?
    ensures var sys' := Step(sys, ev); var p := ev.from;
            && sys'.used == sys.used + {ev.seed}
            && StateOf(sys', p) == Sent(sys, ev).state && StateOf(sys', Peer(p)) == StateOf(sys, Peer(p))
            && Inbox(sys', p) == Inbox(sys, p) && Inbox(sys', Peer(p)) == Inbox(sys, Peer(p))
            && sys'.log == if Sent(sys, ev).result.Ok? then sys.log + [Post(p, ev.ad, Sent(sys, ev).result.value)]
                           else sys.log
  {
  }

  /** A send that fails on the way may have spent a number; nothing is logged. */
  lemma AfterFailedSend(sys: System, v: View, ev: Event, l': Ledger)
    requires Inv(sys, v) && ev.Send? && Sent(sys, ev).result.Err?
    requires SendEffect(v.ledger, l', ev.from) && UsedOk(l', sys.used + {ev.seed})
    requires StateOk(l', ev.from, Sent(sys, ev).state)
    ensures Inv(Step(sys, ev), View(l', v.epochs))
  {
    StepSend(sys, ev);
    RecordsAfterSend(sys, v, l', ev.from);
    PeerAfterSend(sys, v, l', ev.from);
    InvFromParties(Step(sys, ev), View(l', v.epochs), ev.from);
  }

  /** The position a message takes: on its sender's newest epoch, past everything sent, so past everything read. */
  ghost predicate NextPosition(l: Ledger, l': Ledger, e: Post, k: nat)
    requires Shape(l) && Shape(l')
  {
    && PostOk(l', e, k) && l'.sent[k] == Number(e) + 1
    && (k < |l.sent| ==> l.sent[k] == Number(e)) && Number(e) !in l'.accepted[k]
    && (forall j: nat :: j < |l'.scalars| && Sender(j) == Sender(k) ==> j <= k)
  }

  /** The system after `p` moved to state `s` and produced `e`. */
  function Produced(sys: System, p: Role, s: State, e: Post, x: Scalar): System {
    WithState(sys.(used := sys.used + {x}, log := sys.log + [e]), p, s)
  }

  /** Log and both inboxes after `e` was appended. */
  lemma RecordsAppended(sys: System, v: View, p: Role, e: Post, l': Ledger, k: nat)
    requires Inv(sys, v) && SendEffect(v.ledger, l', p) && NextPosition(v.ledger, l', e, k)
    ensures LogOk(l', v.epochs + [k], sys.log + [e]) && HistoryOk(l', v.epochs + [k], sys.log + [e])
    ensures InboxOk(l', v.epochs + [k], sys.log + [e], Inbox(sys, p), p)
    ensures InboxOk(l', v.epochs + [k], sys.log + [e], Inbox(sys, Peer(p)), Peer(p))
  {
    RecordsAfterSend(sys, v, l', p);
    NewNumber(v.ledger, v.epochs, sys.log, k, Number(e));
    LogGrows(l', v.epochs, sys.log, e, k);
    HistoryAppended(l', v.epochs, sys.log, e, k);
    NotLogged(l', v.epochs, sys.log, e, k);
    InboxUntouched(l', v.epochs, sys.log, Inbox(sys, p), p, e, k);
    InboxUntouched(l', v.epochs, sys.log, Inbox(sys, Peer(p)), Peer(p), e, k);
  }

  lemma ProducedIs(sys: System, p: Role, s: State, e: Post, x: Scalar)
    ensures var sys' := Produced(sys, p, s, e, x);
            && sys'.used == sys.used + {x} && sys'.log == sys.log + [e]
            && StateOf(sys', p) == s && StateOf(sys', Peer(p)) == StateOf(sys, Peer(p))
            && Inbox(sys', p) == Inbox(sys, p) && Inbox(sys', Peer(p)) == Inbox(sys, Peer(p))
  {
  }

  lemma ContinuesFrom(sys: System, l: Ledger, p: Role, s: State, e: Post, x: Scalar, l': Ledger, epochs: seq<nat>)
    requires Shape(l) && Consistent(l') && Grows(l, l') && UsedOk(l', sys.used + {x})
    requires LogOk(l', epochs, sys.log + [e]) && HistoryOk(l', epochs, sys.log + [e])
    requires InboxOk(l', epochs, sys.log + [e], Inbox(sys, p), p) && StateOk(l', p, s)
    requires InboxOk(l', epochs, sys.log + [e], Inbox(sys, Peer(p)), Peer(p))
    requires StateOk(l', Peer(p), StateOf(sys, Peer(p)))
    ensures Continues(l, Produced(sys, p, s, e, x))
  {
    ProducedIs(sys, p, s, e, x);
    InvFromParties(Produced(sys, p, s, e, x), View(l', epochs), p);
    Continue(l, Produced(sys, p, s, e, x), View(l', epochs));
  }

  lemma AppendedKeeps(sys: System, v: View, p: Role, s: State, e: Post, x: Scalar, l': Ledger, k: nat)
    requires Inv(sys, v) && SendEffect(v.ledger, l', p) && UsedOk(l', sys.used + {x})
    requires StateOk(l', p, s) && NextPosition(v.ledger, l', e, k)
    ensures Continues(v.ledger, Produced(sys, p, s, e, x))
  {
    RecordsAppended(sys, v, p, e, l', k);
    PeerAfterSend(sys, v, l', p);
    SendGrows(v.ledger, l', p);
    ContinuesFrom(sys, v.ledger, p, s, e, x, l', v.epochs + [k]);
  }

  /** The ledger's account of a send with outcome `out`: `l'` dictates the new state, and a message takes the next position. */
  ghost predicate SendMoves(l: Ledger, l': Ledger, p: Role, used: set<Scalar>, ad: Bytes, out: Sending)
    requires Shape(l)
  {
    && SendEffect(l, l', p) && UsedOk(l', used) && StateOk(l', p, out.state)
    && (out.result.Ok? ==> exists k: nat :: NextPosition(l, l', Post(p, ad, out.result.value), k))
  }

  lemma AfterSend(sys: System, v: View, p: Role, ad: Bytes, x: Scalar, out: Sending, l': Ledger)
    requires Inv(sys, v) && out.result.Ok? && SendMoves(v.ledger, l', p, sys.used + {x}, ad, out)
    ensures Continues(v.ledger, Produced(sys, p, out.state, Post(p, ad, out.result.value), x))
  {
    var k: nat :| NextPosition(v.ledger, l', Post(p, ad, out.result.value), k);
    AppendedKeeps(sys, v, p, out.state, Post(p, ad, out.result.value), x, l', k);
  }

  lemma NotLogged(l: Ledger, epochs: seq<nat>, log: seq<Post>, e: Post, k: nat)
    requires Consistent(l) && LogOk(l, epochs, log) && PostOk(l, e, k)
    requires forall i :: 0 <= i < |log| && epochs[i] == k ==> Number(log[i]) < Number(e)
    ensures e !in log
  {
  }

  lemma SentPosition(l: Ledger, p: Role, x: Scalar, e: Post)
    requires Consistent(l) && Fresh(l, x)
    requires Recv(l, p) + 1 < |Opener(l, p, x).sent| && Shape(SentOne(l, p, x))
    requires PostOk(SentOne(l, p, x), e, Recv(l, p) + 1)
    requires Number(e) == Opener(l, p, x).sent[Recv(l, p) + 1]
    ensures NextPosition(l, SentOne(l, p, x), e, Recv(l, p) + 1)
  {
    OpenerFacts(l, p, x);
  }

  lemma SentMove(l: Ledger, p: Role, s: State, used: set<Scalar>, plaintext: Bytes, ad: Bytes, seed: Scalar, now: nat)
    returns (l': Ledger)
    requires Consistent(l) && StateOk(l, p, s) && Fresh(l, seed) && UsedOk(l, used) && InLimits(plaintext, ad)
    requires s.sending.Some? ==> !NeedsRotation(s.sending.value, now)
    ensures SendMoves(l, l', p, used + {seed}, ad, Encrypt(s, plaintext, ad, seed, now))
  {
    SentState(l, p, s, plaintext, ad, seed, now);
    l' := SentOne(l, p, seed);
    SentEffect(l, p, seed);
    SentScalars(l, p, seed);
    UsedAfter(l, l', used, seed);
    if Encrypt(s, plaintext, ad, seed, now).result.Ok? {
      SentPost(l, p, s, plaintext, ad, seed, now);
      SentPosition(l, p, seed, Post(p, ad, Encrypt(s, plaintext, ad, seed, now).result.value));
    }
  }

  /** The ledger after a send within the session's limits. */
  lemma LedgerAfterSend(sys: System, v: View, ev: Event) returns (l': Ledger)
    requires Inv(sys, v) && ev.Send? && Admissible(v.ledger.secret, sys, ev) && InLimits(ev.plaintext, ev.ad)
    ensures SendMoves(v.ledger, l', ev.from, sys.used + {ev.seed}, ev.ad, Sent(sys, ev))
  {
    MoverFacts(sys, v, ev.from, ev.seed);
    l' := SentMove(v.ledger, ev.from, StateOf(sys, ev.from), sys.used, ev.plaintext, ev.ad, ev.seed, ev.now);
  }

  lemma FailedSendKeeps(sys: System, v: View, ev: Event, l': Ledger)
    requires Inv(sys, v) && ev.Send? && Sent(sys, ev).result.Err?
    requires SendMoves(v.ledger, l', ev.from, sys.used + {ev.seed}, ev.ad, Sent(sys, ev))
    ensures Continues(v.ledger, Step(sys, ev))
  {
    AfterFailedSend(sys, v, ev, l');
    SendGrows(v.ledger, l', ev.from);
    Continue(v.ledger, Step(sys, ev), View(l', v.epochs));
  }

  /** The system after a successful send. */
  function ProducedBy(sys: System, ev: Event): System
    requires ev.Send? && Sent(sys, ev).result.Ok?
  {
    Produced(sys, ev.from, Sent(sys, ev).state, Post(ev.from, ev.ad, Sent(sys, ev).result.value), ev.seed)
  }

  lemma StepProduces(sys: System, ev: Event)
    requires ev.Send? && Sent(sys, ev).result.Ok?
    ensures Step(sys, ev) == ProducedBy(sys, ev)
  {
  }

  lemma ProductKeeps(sys: System, v: View, ev: Event, l': Ledger)
    requires Inv(sys, v) && ev.Send? && Sent(sys, ev).result.Ok?
    requires SendMoves(v.ledger, l', ev.from, sys.used + {ev.seed}, ev.ad, Sent(sys, ev))
    ensures Continues(v.ledger, ProducedBy(sys, ev))
  {
    AfterSend(sys, v, ev.from, ev.ad, ev.seed, Sent(sys, ev), l');
  }

  lemma SuccessfulSendKeeps(sys: System, v: View, ev: Event, l': Ledger)
    requires Inv(sys, v) && ev.Send? && Sent(sys, ev).result.Ok?
    requires SendMoves(v.ledger, l', ev.from, sys.used + {ev.seed}, ev.ad, Sent(sys, ev))
    ensures Continues(v.ledger, Step(sys, ev))
  {
    ProductKeeps(sys, v, ev, l');
    StepProduces(sys, ev);
  }

  lemma SendKeeps(sys: System, v: View, ev: Event)
    requires Inv(sys, v) && ev.Send? && Admissible(v.ledger.secret, sys, ev) && InLimits(ev.plaintext, ev.ad)
    ensures Continues(v.ledger, Step(sys, ev))
  {
    var l' := LedgerAfterSend(sys, v, ev);
    if Sent(sys, ev).result.Err? {
      FailedSendKeeps(sys, v, ev, l');
    } else {
      SuccessfulSendKeeps(sys, v, ev, l');
    }
  }

  /** A send beyond the session's limits changes nothing. */
  lemma OversizedSendKeeps(sys: System, v: View, ev: Event)
    requires Inv(sys, v) && ev.Send? && !InLimits(ev.plaintext, ev.ad)
    ensures Continues(v.ledger, Step(sys, ev))
  {
    assert Step(sys, ev) == sys.(used := sys.used + {ev.seed});
    NothingKeeps(sys, v, ev.seed);
  }

  /** Every admissible step of a described system is described by the same ledger or a longer one. */
  lemma StepContinues(sys: System, v: View, ev: Event)
    requires Inv(sys, v) && Admissible(v.ledger.secret, sys, ev)
    ensures Continues(v.ledger, Step(sys, ev))
  {
    if ev.Deliver? {
      DeliverKeeps(sys, v, ev);
    } else if InLimits(ev.plaintext, ev.ad) {
      SendKeeps(sys, v, ev);
    } else {
      OversizedSendKeeps(sys, v, ev);
    }
  }

  lemma NextView(sys: System, v: View, ev: Event) returns (v': View)
    requires Inv(sys, v) && Admissible(v.ledger.secret, sys, ev)
    ensures Inv(Step(sys, ev), v') && Grows(v.ledger, v'.ledger)
  {
    StepContinues(sys, v, ev);
    v' :| Inv(Step(sys, ev), v') && Grows(v.ledger, v'.ledger);
  }

  /** Every admissible step leads from a matched system to a matched system. */
  lemma StepKeeps(secret: Key, sys: System, ev: Event)
    requires Matched(secret, sys) && Admissible(secret, sys, ev)
    ensures Matched(secret, Step(sys, ev))
  {
    var v :| Inv(sys, v) && v.ledger.secret == secret;
    StepContinues(sys, v, ev);
  }
}
