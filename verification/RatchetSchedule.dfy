/**
  The run theorems with their assumptions stated on the events of a run: the clock readings
  and the outcomes anyone can observe, without reference to either party's state. A sending
  chain is opened by the construction of the initiator, by the responder's first send, and
  by every first delivery of a message under a new peer key; it may be used for a day and
  for 4000 messages.
  */
module RatchetSchedule {
  import opened Wrappers
  import opened Crypto
  import opened Ratchet
  import opened RatchetLedger
  import opened RatchetSteps
  import opened RatchetMoves
  import opened RatchetDelivery
  import opened RatchetSending
  import opened RatchetProtocol
  import opened RatchetTheorems
  import opened RatchetLimits
  import opened Secrecy

  // ---------------------------------------------------------------- the start

  /** What the two callers construct their sessions from. */
  datatype Setup = Setup(secret: Key, local: Scalar, peer: Scalar, windowA: nat, windowB: nat, bornA: nat, bornB: nat)

  predicate Sound(c: Setup) { c.secret != ZeroKey && c.local != c.peer }

  function Begin(c: Setup): System
    requires Sound(c)
  {
    Started(c.local, c.peer,
            FromSharedSecret(c.secret, c.local, PublicOf(c.peer), c.windowA, Initiator, c.bornA).value,
            FromSharedSecret(c.secret, c.peer, PublicOf(c.local), c.windowB, Responder, c.bornB).value)
  }

  lemma BeginMatched(c: Setup)
    requires Sound(c)
    ensures FromStart(c.secret, Begin(c))
  {
    MatchedStart(c.secret, c.local, c.peer, Begin(c).a, Begin(c).b);
  }

  function Window(c: Setup, p: Role): nat { if p.Initiator? then c.windowA else c.windowB }

  // ---------------------------------------------------------------- the use of a chain, from events

  /** The peer keys a party has read under, when its sending chain was opened, and the sends on it since. */
  datatype Span = Span(known: set<PublicKey>, since: Option<nat>, sends: nat)

  function FirstSpan(c: Setup, p: Role): Span {
    if p.Initiator? then Span({PublicOf(c.peer)}, Some(c.bornA), 0) else Span({PublicOf(c.local)}, None, 0)
  }

  /** Event `ev` is a successful delivery to `p` under a peer key not seen before. */
  predicate OpensByRead(sys: System, span: Span, ev: Event, p: Role) {
    && ev.Deliver? && ev.dest == p && ev.wire.Wire? && Read(sys, ev).result.Ok?
    && ev.wire.message.header.dh !in span.known
  }

  predicate SendsOn(ev: Event, p: Role) { ev.Send? && ev.from == p && InLimits(ev.plaintext, ev.ad) }

  function NextSpan(sys: System, span: Span, ev: Event, p: Role): Span {
    if OpensByRead(sys, span, ev, p) then Span(span.known + {ev.wire.message.header.dh}, Some(ev.now), 0)
    else if !SendsOn(ev, p) then span
    else if span.since.None? then span.(since := Some(ev.now), sends := 1)
    else span.(sends := span.sends + 1)
  }

  function SpanAfter(c: Setup, evs: seq<Event>, p: Role): Span
    requires Sound(c)
    decreases |evs|
  {
    if evs == [] then FirstSpan(c, p)
    else NextSpan(Run(Begin(c), evs[..|evs| - 1]), SpanAfter(c, evs[..|evs| - 1], p), evs[|evs| - 1], p)
  }

  /** A chain is used at most a day after it was opened and for fewer than 4000 messages. */
  predicate InUse(span: Span, now: nat) {
    span.since.Some? ==> now <= span.since.value + 86400 && span.sends < 4000
  }

  /** What the theorems assume of the next event. */
  predicate Scheduled(c: Setup, evs: seq<Event>, ev: Event)
    requires Sound(c)
  {
    var sys := Run(Begin(c), evs);
    && ev.seed !in sys.used
    && (ev.Send? ==> InUse(SpanAfter(c, evs, ev.from), ev.now))
    && (ev.Deliver? && ev.wire.Wire? ==> NetworkBox(c.secret, sys.log, ev.wire.message.box))
  }

  predicate ScheduledRun(c: Setup, evs: seq<Event>)
    requires Sound(c)
    decreases |evs|
  {
    evs != [] ==> ScheduledRun(c, evs[..|evs| - 1]) && Scheduled(c, evs[..|evs| - 1], evs[|evs| - 1])
  }

  // ---------------------------------------------------------------- what the state holds of it

  /** The state's chain carries the stamp and the count that the events dictate. */
  predicate ChainOk(s: State, span: Span) {
    match s.sending
    case None => span.since.None?
    case Some(chain) => span.since == Some(chain.createdAt) && span.sends == chain.index
                        && chain.maxMessages == MAX_CHAIN_MESSAGES
  }

  /** `known` is the key the party was constructed with and the keys of the peer's epochs it has reached. */
  ghost predicate KnownOk(l: Ledger, p: Role, known: set<PublicKey>)
    requires Shape(l)
  {
    && (forall k: nat :: k < |l.scalars| && k <= Recv(l, p) && Sender(k) == Peer(p) ==> Point(l.scalars[k]) in known)
    && (forall key :: key in known ==> key == Point(l.spare) || exists k: nat :: ReachedBy(l, p, key, k))
  }

  ghost predicate ReachedBy(l: Ledger, p: Role, key: PublicKey, k: nat) {
    k < |l.scalars| && k <= Recv(l, p) && key == Point(l.scalars[k])
  }

  lemma FollowsSchedule(s: State, span: Span, now: nat)
    requires ChainOk(s, span) && InUse(span, now)
    ensures s.sending.Some? ==> !NeedsRotation(s.sending.value, now)
  {
  }

  // ---------------------------------------------------------------- what a call does to stamp and count

  lemma SendKeepsRemote(s: State, plaintext: Bytes, ad: Bytes, seed: Scalar, now: nat)
    ensures Encrypt(s, plaintext, ad, seed, now).state.dhRemote == s.dhRemote
    ensures !InLimits(plaintext, ad) ==> Encrypt(s, plaintext, ad, seed, now).state == s
  {
  }

  lemma SendCounts(s: State, span: Span, plaintext: Bytes, ad: Bytes, seed: Scalar, now: nat)
    requires ChainOk(s, span) && InUse(span, now) && InLimits(plaintext, ad)
    requires ReadyToSend(RatchetForSend(s, seed, now))
    ensures ChainOk(Encrypt(s, plaintext, ad, seed, now).state,
                    if span.since.None? then span.(since := Some(now), sends := 1) else span.(sends := span.sends + 1))
  {
    FollowsSchedule(s, span, now);
    EncryptIs(s, plaintext, ad, seed, now);
  }

  lemma {:induction false} SkipKeepsSending(s: State, until: nat)
    requires s.receiving.Some? && SkipLoop(s, until).Ok?
    ensures SkipLoop(s, until).value.sending == s.sending && SkipLoop(s, until).value.dhRemote == s.dhRemote
    decreases until - s.receiving.value.index
  {
    if s.receiving.value.index < until {
      var Drawn(key, chain) := Draw(s.receiving.value).value;
      SkipKeepsSending(s.(receiving := Some(chain), skipped := s.skipped[KeyId(s.dhRemote.value, chain.index - 1) := key]),
                       until);
    }
  }

  lemma SkipsKeepSending(s: State, until: nat)
    requires SkipMessageKeys(s, until).Ok?
    ensures SkipMessageKeys(s, until).value.sending == s.sending && SkipMessageKeys(s, until).value.dhRemote == s.dhRemote
  {
    if s.receiving.Some? {
      SkipKeepsSending(s, until);
    }
  }

  /** A trial under the current key leaves the sending chain; under a new key it opens one now. */
  lemma TrialSending(s: State, h: Header, seed: Scalar, now: nat)
    requires Advance(s, h, seed, now).Ok?
    ensures var t := Advance(s, h, seed, now).value.state;
            && t.dhRemote == Some(h.dh)
            && (s.dhRemote == Some(h.dh) ==> t.sending == s.sending)
            && (s.dhRemote != Some(h.dh) ==>
                  t.sending.Some? && t.sending.value.createdAt == now && t.sending.value.index == 0
                  && t.sending.value.maxMessages == MAX_CHAIN_MESSAGES)
  {
    var s1 := RatchetIfNeeded(s, h, seed, now).value;
    SkipsKeepSending(s1, h.number);
  }

  /** What a successful delivery does to the sending chain and the peer key. */
  lemma ReadSending(s: State, m: Message, ad: Bytes, seed: Scalar, now: nat)
    requires Decrypt(s, Wire(m), ad, seed, now).result.Ok?
    ensures var t := Decrypt(s, Wire(m), ad, seed, now).state;
            || (t.dhRemote == s.dhRemote && t.sending == s.sending)
            || (&& t.dhRemote == Some(m.header.dh) != s.dhRemote
                && t.sending.Some? && t.sending.value.createdAt == now && t.sending.value.index == 0
                && t.sending.value.maxMessages == MAX_CHAIN_MESSAGES)
  {
    if KeyId(m.header.dh, m.header.number) !in s.skipped {
      TrialSending(s, m.header, seed, now);
    }
  }

  // ---------------------------------------------------------------- peer keys along the ledger

  /** The position of a party moves exactly when its peer key does. */
  lemma RecvFollowsRemote(l: Ledger, l': Ledger, p: Role, s: State, s': State)
    requires Consistent(l) && Consistent(l') && Grows(l, l') && ReceivingOk(l, p, s) && ReceivingOk(l', p, s')
    requires s'.dhRemote == s.dhRemote
    ensures Recv(l', p) == Recv(l, p)
  {
    if 0 <= Recv(l, p) {
      KeysStable(l, l', Recv(l, p));
    }
  }

  lemma RecvMovesWithRemote(l: Ledger, l': Ledger, p: Role, s: State, s': State)
    requires Consistent(l) && Consistent(l') && Grows(l, l') && ReceivingOk(l, p, s) && ReceivingOk(l', p, s')
    requires s'.dhRemote != s.dhRemote
    ensures Recv(l', p) == Recv(l, p) + 2 && s'.dhRemote == Some(Point(l'.scalars[Recv(l', p)]))
  {
    if 0 <= Recv(l, p) {
      KeysStable(l, l', Recv(l, p));
    }
  }

  lemma KnownStays(l: Ledger, l': Ledger, p: Role, known: set<PublicKey>)
    requires Shape(l) && Shape(l') && Grows(l, l') && Recv(l', p) == Recv(l, p) && KnownOk(l, p, known)
    ensures KnownOk(l', p, known)
  {
    EpochsOf(l, p);
    forall k: nat | k < |l'.scalars| && k <= Recv(l', p) && Sender(k) == Peer(p) ensures Point(l'.scalars[k]) in known {
      KeysStable(l, l', k);
    }
    forall key | key in known ensures key == Point(l'.spare) || exists k: nat :: ReachedBy(l', p, key, k) {
      if key != Point(l.spare) {
        var k: nat :| ReachedBy(l, p, key, k);
        KeysStable(l, l', k);
        assert ReachedBy(l', p, key, k);
      }
    }
  }

  lemma KnownMoves(l: Ledger, l': Ledger, p: Role, known: set<PublicKey>, dh: PublicKey)
    requires Shape(l) && Shape(l') && Grows(l, l') && Recv(l', p) == Recv(l, p) + 2 && KnownOk(l, p, known)
    requires dh == Point(l'.scalars[Recv(l', p)])
    ensures KnownOk(l', p, known + {dh})
  {
    EpochsOf(l, p);
    EpochsOf(l', p);
    forall k: nat | k < |l'.scalars| && k <= Recv(l', p) && Sender(k) == Peer(p) ensures Point(l'.scalars[k]) in known + {dh} {
      if k < Recv(l', p) {
        assert k <= Recv(l, p);
        KeysStable(l, l', k);
      }
    }
    forall key | key in known + {dh} ensures key == Point(l'.spare) || exists k: nat :: ReachedBy(l', p, key, k) {
      if key == dh {
        assert ReachedBy(l', p, key, Recv(l', p));
      } else if key != Point(l.spare) {
        var k: nat :| ReachedBy(l, p, key, k);
        KeysStable(l, l', k);
        assert ReachedBy(l', p, key, k);
      }
    }
  }

  /** The next peer key is not known before the party has moved to it. */
  lemma NextUnknown(l: Ledger, l': Ledger, p: Role, known: set<PublicKey>)
    requires Consistent(l) && Consistent(l') && Grows(l, l') && Recv(l', p) == Recv(l, p) + 2 && KnownOk(l, p, known)
    ensures Point(l'.scalars[Recv(l', p)]) !in known
  {
    var dh := Point(l'.scalars[Recv(l', p)]);
    if dh in known && dh != Point(l.spare) {
      var k: nat :| ReachedBy(l, p, dh, k);
      KeysStable(l, l', k);
    }
  }

  /** A peer key under which a message was accepted is known. */
  lemma AcceptedKnown(l: Ledger, p: Role, known: set<PublicKey>, e: Post, k: nat)
    requires Consistent(l) && KnownOk(l, p, known) && PostOk(l, e, k) && e.from == Peer(p) && Number(e) in l.accepted[k]
    ensures e.message.header.dh in known
  {
    AcceptedIsRead(l, p, k, Number(e));
  }

  // ---------------------------------------------------------------- one step

  ghost predicate SpanOk(sys: System, v: View, p: Role, span: Span)
    requires Shape(v.ledger)
  {
    ChainOk(StateOf(sys, p), span) && KnownOk(v.ledger, p, span.known)
  }

  /** Both ends of a step, as far as `p`'s receiving half goes. */
  ghost predicate StepOf(l: Ledger, l': Ledger, p: Role, s: State, s': State) {
    && Consistent(l) && Consistent(l') && Grows(l, l') && ReceivingOk(l, p, s) && ReceivingOk(l', p, s')
  }

  lemma StepEnds(sys: System, v: View, ev: Event, v': View, p: Role)
    requires Inv(sys, v) && Inv(Step(sys, ev), v') && Grows(v.ledger, v'.ledger)
    ensures StepOf(v.ledger, v'.ledger, p, StateOf(sys, p), StateOf(Step(sys, ev), p))
  {
    ReceivingFromInv(sys, v, p);
    ReceivingFromInv(Step(sys, ev), v', p);
  }

  lemma KnownWithRemote(l: Ledger, l': Ledger, p: Role, s: State, s': State, known: set<PublicKey>)
    requires StepOf(l, l', p, s, s') && s'.dhRemote == s.dhRemote && KnownOk(l, p, known)
    ensures KnownOk(l', p, known)
  {
    RecvFollowsRemote(l, l', p, s, s');
    KnownStays(l, l', p, known);
  }

  lemma KnownWithNewRemote(l: Ledger, l': Ledger, p: Role, s: State, s': State, known: set<PublicKey>, dh: PublicKey)
    requires StepOf(l, l', p, s, s') && s'.dhRemote == Some(dh) != s.dhRemote && KnownOk(l, p, known)
    ensures dh !in known && KnownOk(l', p, known + {dh})
  {
    RecvMovesWithRemote(l, l', p, s, s');
    NextUnknown(l, l', p, known);
    KnownMoves(l, l', p, known, dh);
  }

  /** An event that leaves `p`'s state alone. */
  lemma IdleStep(sys: System, v: View, ev: Event, v': View, p: Role, span: Span)
    requires Inv(sys, v) && Inv(Step(sys, ev), v') && Grows(v.ledger, v'.ledger) && SpanOk(sys, v, p, span)
    requires StateOf(Step(sys, ev), p) == StateOf(sys, p)
    ensures SpanOk(Step(sys, ev), v', p, span)
  {
    StepEnds(sys, v, ev, v', p);
    KnownWithRemote(v.ledger, v'.ledger, p, StateOf(sys, p), StateOf(Step(sys, ev), p), span.known);
  }

  lemma ReadyFor(sys: System, v: View, ev: Event)
    requires Inv(sys, v) && ev.Send? && ev.seed !in sys.used
    requires StateOf(sys, ev.from).sending.Some? ==> !NeedsRotation(StateOf(sys, ev.from).sending.value, ev.now)
    ensures ReadyToSend(RatchetForSend(StateOf(sys, ev.from), ev.seed, ev.now))
  {
    MoverFacts(sys, v, ev.from, ev.seed);
    SentReach(v.ledger, ev.from, StateOf(sys, ev.from), ev.seed, ev.now);
  }

  lemma SendStep(sys: System, v: View, ev: Event, v': View, span: Span)
    requires Inv(sys, v) && Inv(Step(sys, ev), v') && Grows(v.ledger, v'.ledger)
    requires ev.Send? && SendsOn(ev, ev.from) && SpanOk(sys, v, ev.from, span) && InUse(span, ev.now) && ev.seed !in sys.used
    ensures SpanOk(Step(sys, ev), v', ev.from, NextSpan(sys, span, ev, ev.from))
  {
    var p, s := ev.from, StateOf(sys, ev.from);
    FollowsSchedule(s, span, ev.now);
    ReadyFor(sys, v, ev);
    SendCounts(s, span, ev.plaintext, ev.ad, ev.seed, ev.now);
    SendKeepsRemote(s, ev.plaintext, ev.ad, ev.seed, ev.now);
    StepSend(sys, ev);
    StepEnds(sys, v, ev, v', p);
    KnownWithRemote(v.ledger, v'.ledger, p, s, StateOf(Step(sys, ev), p), span.known);
  }

  /** After a delivery that leaves the peer key alone, the key was known. */
  lemma StillKnown(sys: System, ev: Event, v': View, known: set<PublicKey>)
    requires ev.Deliver? && ev.wire.Wire? && Read(sys, ev).result.Ok? && Inv(Step(sys, ev), v')
    requires KnownOk(v'.ledger, ev.dest, known)
    ensures ev.wire.message.header.dh in known
  {
    var k := LatestPost(sys, v', ev);
    AcceptedKnown(v'.ledger, ev.dest, known, Post(Peer(ev.dest), ev.ad, ev.wire.message), k);
  }

  lemma ReadStep(sys: System, v: View, ev: Event, v': View, span: Span)
    requires Inv(sys, v) && Inv(Step(sys, ev), v') && Grows(v.ledger, v'.ledger)
    requires ev.Deliver? && ev.wire.Wire? && Read(sys, ev).result.Ok? && SpanOk(sys, v, ev.dest, span)
    ensures SpanOk(Step(sys, ev), v', ev.dest, NextSpan(sys, span, ev, ev.dest))
  {
    var p, s, t, dh := ev.dest, StateOf(sys, ev.dest), Read(sys, ev).state, ev.wire.message.header.dh;
    StepRead(sys, ev);
    StepEnds(sys, v, ev, v', p);
    ReadSending(s, ev.wire.message, ev.ad, ev.seed, ev.now);
    if t.dhRemote == s.dhRemote {
      KnownWithRemote(v.ledger, v'.ledger, p, s, t, span.known);
      StillKnown(sys, ev, v', span.known);
    } else {
      KnownWithNewRemote(v.ledger, v'.ledger, p, s, t, span.known, dh);
    }
  }

  lemma SpanStep(sys: System, v: View, ev: Event, v': View, p: Role, span: Span)
    requires Inv(sys, v) && Inv(Step(sys, ev), v') && Grows(v.ledger, v'.ledger) && SpanOk(sys, v, p, span)
    requires ev.seed !in sys.used && (ev.Send? && ev.from == p ==> InUse(span, ev.now))
    ensures SpanOk(Step(sys, ev), v', p, NextSpan(sys, span, ev, p))
  {
    if ev.Send? && ev.from == p && InLimits(ev.plaintext, ev.ad) {
      SendStep(sys, v, ev, v', span);
    } else if ev.Deliver? && ev.dest == p && Read(sys, ev).result.Ok? {
      ReadStep(sys, v, ev, v', span);
    } else {
      IdleIs(sys, ev, p);
      IdleStep(sys, v, ev, v', p, span);
    }
  }

  lemma IdleIs(sys: System, ev: Event, p: Role)
    requires ev.Send? && ev.from == p ==> !InLimits(ev.plaintext, ev.ad)
    requires ev.Deliver? && ev.dest == p ==> Read(sys, ev).result.Err?
    ensures StateOf(Step(sys, ev), p) == StateOf(sys, p)
  {
    if ev.Deliver? && ev.dest == p {
      FailedDelivery(sys, ev);
    }
  }

  // ---------------------------------------------------------------- runs

  ghost predicate SpansOk(c: Setup, evs: seq<Event>, v: View)
    requires Sound(c)
  {
    && Inv(Run(Begin(c), evs), v) && v.ledger.secret == c.secret
    && forall p: Role :: SpanOk(Run(Begin(c), evs), v, p, SpanAfter(c, evs, p))
  }

  lemma SpansStart(c: Setup)
    requires Sound(c)
    ensures exists v :: SpansOk(c, [], v)
  {
    var l := FirstLedger(c.secret, c.local, c.peer);
    StartDescribed(c.secret, c.local, c.peer, Begin(c).a, Begin(c).b);
    forall p: Role ensures SpanOk(Begin(c), View(l, []), p, FirstSpan(c, p)) {
      if p.Responder? {
        assert ReachedBy(l, p, PublicOf(c.local), 0);
      }
    }
    assert SpansOk(c, [], View(l, []));
  }

  lemma SpansStep(c: Setup, evs: seq<Event>, v: View)
    requires Sound(c) && evs != [] && SpansOk(c, evs[..|evs| - 1], v) && Scheduled(c, evs[..|evs| - 1], evs[|evs| - 1])
    ensures Admissible(c.secret, Run(Begin(c), evs[..|evs| - 1]), evs[|evs| - 1])
    ensures exists v' :: SpansOk(c, evs, v')
  {
    var front, ev := evs[..|evs| - 1], evs[|evs| - 1];
    var sys := Run(Begin(c), front);
    if ev.Send? {
      assert SpanOk(sys, v, ev.from, SpanAfter(c, front, ev.from));
      FollowsSchedule(StateOf(sys, ev.from), SpanAfter(c, front, ev.from), ev.now);
    }
    var v' := NextView(sys, v, ev);
    forall p: Role ensures SpanOk(Run(Begin(c), evs), v', p, SpanAfter(c, evs, p)) {
      assert SpanOk(sys, v, p, SpanAfter(c, front, p));
      SpanStep(sys, v, ev, v', p, SpanAfter(c, front, p));
    }
    assert SpansOk(c, evs, v');
  }

  lemma {:induction false} SpansFollow(c: Setup, evs: seq<Event>)
    requires Sound(c) && ScheduledRun(c, evs)
    ensures AdmissibleRun(c.secret, Begin(c), evs) && exists v :: SpansOk(c, evs, v)
    decreases |evs|
  {
    if evs == [] {
      SpansStart(c);
    } else {
      SpansFollow(c, evs[..|evs| - 1]);
      var v :| SpansOk(c, evs[..|evs| - 1], v);
      SpansStep(c, evs, v);
    }
  }

  /** A run whose events keep to the schedule meets the assumptions of every run theorem. */
  lemma ScheduledIsAdmissible(c: Setup, evs: seq<Event>)
    requires Sound(c) && ScheduledRun(c, evs)
    ensures FromStart(c.secret, Begin(c)) && AdmissibleRun(c.secret, Begin(c), evs)
  {
    BeginMatched(c);
    SpansFollow(c, evs);
  }

  // ---------------------------------------------------------------- the window never changes

  lemma {:induction false} SkipKeepsWindow(s: State, until: nat)
    requires s.receiving.Some? && SkipLoop(s, until).Ok?
    ensures SkipLoop(s, until).value.maxSkip == s.maxSkip
    decreases until - s.receiving.value.index
  {
    if s.receiving.value.index < until {
      var Drawn(key, chain) := Draw(s.receiving.value).value;
      SkipKeepsWindow(s.(receiving := Some(chain), skipped := s.skipped[KeyId(s.dhRemote.value, chain.index - 1) := key]),
                      until);
    }
  }

  lemma SkipsKeepWindow(s: State, until: nat)
    requires SkipMessageKeys(s, until).Ok?
    ensures SkipMessageKeys(s, until).value.maxSkip == s.maxSkip
  {
    if s.receiving.Some? {
      SkipKeepsWindow(s, until);
    }
  }

  lemma ReadKeepsWindow(s: State, w: Wire, ad: Bytes, seed: Scalar, now: nat)
    ensures Decrypt(s, w, ad, seed, now).state.maxSkip == s.maxSkip
  {
    if w.Wire? && Advance(s, w.message.header, seed, now).Ok? {
      var h := w.message.header;
      if s.dhRemote != Some(h.dh) {
        SkipsKeepWindow(CountedPrevious(s), h.previous);
      }
      SkipsKeepWindow(RatchetIfNeeded(s, h, seed, now).value, h.number);
    }
  }

  lemma StepKeepsWindow(sys: System, ev: Event, p: Role)
    ensures StateOf(Step(sys, ev), p).maxSkip == StateOf(sys, p).maxSkip
  {
    if ev.Deliver? {
      ReadKeepsWindow(StateOf(sys, ev.dest), ev.wire, ev.ad, ev.seed, ev.now);
    }
  }

  /** In every run each party works with the window its caller configured. */
  lemma {:induction false} WindowKept(c: Setup, evs: seq<Event>, p: Role)
    requires Sound(c)
    ensures StateOf(Run(Begin(c), evs), p).maxSkip == Window(c, p)
    decreases |evs|
  {
    if evs != [] {
      WindowKept(c, evs[..|evs| - 1], p);
      StepKeepsWindow(Run(Begin(c), evs[..|evs| - 1]), evs[|evs| - 1], p);
    }
  }

  // ---------------------------------------------------------------- the main theorem on events

  /** A message sent at `sent` may be read at `now`: at most 30 seconds early and a day late. */
  predicate Current(sent: nat, now: nat) { sent <= now + 30 && now <= sent + 86400 }

  lemma StampedWhenSent(sys: System, evs: seq<Event>, k: nat, p: Role, m: Message, ad: Bytes)
    requires k < |evs| && ProducedAt(sys, evs, k, p, m, ad)
    ensures m.header.timestamp == evs[k].now && m.inner.timestamp == evs[k].now && m.box.plaintext == evs[k].plaintext
  {
  }

  lemma TimelyWhenCurrent(m: Message, sent: nat, now: nat)
    requires m.header.timestamp == sent && m.inner.timestamp == sent
    ensures Timely(m, now) <==> Current(sent, now)
  {
  }

  /** Event `k` is the peer's send of this message, and its clock allows reading it at `now`. */
  predicate SentInTime(c: Setup, evs: seq<Event>, k: nat, p: Role, m: Message, ad: Bytes, now: nat)
    requires Sound(c) && k < |evs|
  {
    ProducedAt(Begin(c), evs, k, p, m, ad) && Current(evs[k].now, now)
  }

  lemma SentInTimeExactly(c: Setup, evs: seq<Event>, i: nat, p: Role, m: Message, ad: Bytes, now: nat)
    requires Sound(c) && i <= |evs|
    ensures ProducedBefore(Begin(c), evs, i, p, m, ad) && Timely(m, now)
            <==> exists k: nat :: k < i && SentInTime(c, evs, k, p, m, ad, now)
  {
    forall k: nat | k < i && ProducedAt(Begin(c), evs, k, p, m, ad)
      ensures Timely(m, now) <==> SentInTime(c, evs, k, p, m, ad, now)
    {
      StampedWhenSent(Begin(c), evs, k, p, m, ad);
      TimelyWhenCurrent(m, evs[k].now, now);
    }
  }

  /** The store has room within the configured window. */
  predicate RoomWithin(s: State, h: Header, window: nat) { Room(s.(maxSkip := window), h) }

  lemma RoomIsWithin(c: Setup, evs: seq<Event>, p: Role, h: Header)
    requires Sound(c)
    ensures var s := StateOf(Run(Begin(c), evs), p); Room(s, h) <==> RoomWithin(s, h, Window(c, p))
  {
    WindowKept(c, evs, p);
    var s := StateOf(Run(Begin(c), evs), p);
    assert s.(maxSkip := Window(c, p)) == s;
  }

  /**
    In every scheduled run a delivery succeeds if and only if an earlier event was the
    peer's send of exactly this message, at most a day before and 30 seconds after by the
    receiver's clock, no earlier delivery of it succeeded, and the configured window has
    room; and it then returns what that event sent.
    */
  lemma DeliveryByEvents(c: Setup, evs: seq<Event>, i: nat)
    requires Sound(c) && ScheduledRun(c, evs) && i < |evs| && evs[i].Deliver? && evs[i].wire.Wire?
    ensures var p, m, ad := evs[i].dest, evs[i].wire.message, evs[i].ad;
            var sys := Run(Begin(c), evs[..i]);
            && (Read(sys, evs[i]).result.Ok? <==>
                  && (exists k: nat :: k < i && SentInTime(c, evs, k, Peer(p), m, ad, evs[i].now))
                  && !DeliveredBefore(Begin(c), evs, i, p, m, ad)
                  && RoomWithin(StateOf(sys, p), m.header, Window(c, p)))
            && (forall k: nat :: k < i && ProducedAt(Begin(c), evs, k, Peer(p), m, ad) && Read(sys, evs[i]).result.Ok? ==>
                  Read(sys, evs[i]).result == Ok(evs[k].plaintext))
  {
    var p, m, ad := evs[i].dest, evs[i].wire.message, evs[i].ad;
    ScheduledIsAdmissible(c, evs);
    RunDeliveryExact(c.secret, Begin(c), evs, i);
    SentInTimeExactly(c, evs, i, Peer(p), m, ad, evs[i].now);
    RoomIsWithin(c, evs[..i], p, m.header);
    MatchedAt(c.secret, Begin(c), evs, i);
    DeliveryExact(c.secret, Run(Begin(c), evs[..i]), evs[i]);
    forall k: nat | k < i && ProducedAt(Begin(c), evs, k, Peer(p), m, ad) ensures m.box.plaintext == evs[k].plaintext {
      StampedWhenSent(Begin(c), evs, k, Peer(p), m, ad);
    }
  }

  // ---------------------------------------------------------------- sends on events

  lemma {:induction false} PrefixScheduled(c: Setup, evs: seq<Event>, i: nat)
    requires Sound(c) && ScheduledRun(c, evs) && i <= |evs|
    ensures ScheduledRun(c, evs[..i])
    decreases |evs|
  {
    if i < |evs| {
      PrefixScheduled(c, evs[..|evs| - 1], i);
      assert evs[..|evs| - 1][..i] == evs[..i];
    } else {
      assert evs[..i] == evs;
    }
  }

  lemma CountIsNumber(c: Setup, evs: seq<Event>, p: Role)
    requires Sound(c) && ScheduledRun(c, evs)
    ensures SpanAfter(c, evs, p).since.None? ==> StateOf(Run(Begin(c), evs), p).sending.None?
    ensures SpanAfter(c, evs, p).since.Some? ==> NextNumber(StateOf(Run(Begin(c), evs), p)) == SpanAfter(c, evs, p).sends
  {
    SpansFollow(c, evs);
    var v :| SpansOk(c, evs, v);
    assert SpanOk(Run(Begin(c), evs), v, p, SpanAfter(c, evs, p));
  }

  /**
    In every scheduled run a send succeeds if and only if its plaintext has 1 byte to 10 MiB
    and its associated data at most 200 bytes; and it carries the number of sends made on
    its chain before it.
    */
  lemma SendByEvents(c: Setup, evs: seq<Event>, i: nat)
    requires Sound(c) && ScheduledRun(c, evs) && i < |evs| && evs[i].Send?
    ensures var r, span := Sent(Run(Begin(c), evs[..i]), evs[i]).result, SpanAfter(c, evs[..i], evs[i].from);
            && (r.Ok? <==> 0 < |evs[i].plaintext| <= 10_485_760 && |evs[i].ad| <= 200)
            && (r.Ok? ==> r.value.header.number == if span.since.Some? then span.sends else 0)
  {
    ScheduledIsAdmissible(c, evs);
    MatchedAt(c.secret, Begin(c), evs, i);
    PrefixScheduled(c, evs, i);
    CountIsNumber(c, evs[..i], evs[i].from);
    SendExact(c.secret, Run(Begin(c), evs[..i]), evs[i]);
  }

  // ---------------------------------------------------------------- two answers in a row

  lemma ScheduleNext(c: Setup, evs: seq<Event>, ev: Event)
    requires Sound(c) && ScheduledRun(c, evs) && Scheduled(c, evs, ev)
    ensures ScheduledRun(c, evs + [ev]) && Run(Begin(c), evs + [ev]) == Step(Run(Begin(c), evs), ev)
    ensures forall p :: SpanAfter(c, evs + [ev], p) == NextSpan(Run(Begin(c), evs), SpanAfter(c, evs, p), ev, p)
  {
    assert (evs + [ev])[..|evs + [ev]| - 1] == evs;
  }

  /** A responder's first two messages share a chain. */
  lemma AnswerHeaders(s: State, p1: Bytes, p2: Bytes, ad: Bytes, x1: Scalar, x2: Scalar, t1: nat, t2: nat)
    requires s.sending.None? && s.dhRemote.Some? && s.previousCounter == 0 && Sealable(p1, ad) && Sealable(p2, ad)
    requires t2 <= t1 + 86400
    ensures var r1 := Encrypt(s, p1, ad, x1, t1); var r2 := Encrypt(r1.state, p2, ad, x2, t2);
            && r1.result.Ok? && r2.result.Ok?
            && r1.result.value.header == Header(Point(x1), 0, 0, t1) && r2.result.value.header == Header(Point(x1), 1, 0, t2)
  {
    EncryptIs(s, p1, ad, x1, t1);
    EncryptIs(Encrypt(s, p1, ad, x1, t1).state, p2, ad, x2, t2);
  }

  /** Reading the first message of the peer's first chain: the next number of that chain is up, and nothing is stored. */
  lemma FirstReadState(s: State, m: Message, ad: Bytes, seed: Scalar, now: nat)
    requires s.receiving.None? && s.skipped == map[] && s.dhRemote != Some(m.header.dh) && m.header.number == 0
    requires Decrypt(s, Wire(m), ad, seed, now).result.Ok?
    ensures var t := Decrypt(s, Wire(m), ad, seed, now).state;
            t.dhRemote == Some(m.header.dh) && t.skipped == map[] && t.receiving.Some? && t.receiving.value.index == 1
  {
    var s0 := CountedPrevious(s);
    assert SkipMessageKeys(s0, m.header.previous) == Ok(s0);
    var s1 := RatchetIfNeeded(s, m.header, seed, now).value;
    assert SkipMessageKeys(s1, 0) == Ok(s1);
  }

  /** The situation after the two sends. */
  ghost predicate Answered(c: Setup, two: seq<Event>, m1: Message, m2: Message)
    requires Sound(c)
  {
    && ScheduledRun(c, two) && |two| == 2 && two[0].Send? && two[1].Send?
    && ProducedAt(Begin(c), two, 0, Responder, m1, two[0].ad) && ProducedAt(Begin(c), two, 1, Responder, m2, two[1].ad)
    && Run(Begin(c), two).log == [Post(Responder, two[0].ad, m1), Post(Responder, two[1].ad, m2)]
    && Run(Begin(c), two).a == Begin(c).a && c.peer in Run(Begin(c), two).used
    && m1.header.dh == m2.header.dh != Point(c.peer) && m1.header.number == 0 && m2.header.number == 1 && m1.header.previous == 0
  }

  /** Both sends of the responder: on schedule, one chain, numbers 0 and 1. */
  lemma AnswersSent(c: Setup, p1: Bytes, p2: Bytes, ad: Bytes, x1: Scalar, x2: Scalar, t1: nat, t2: nat)
    returns (m1: Message, m2: Message)
    requires Sound(c) && Sealable(p1, ad) && Sealable(p2, ad) && t2 <= t1 + 86400
    requires x1 !in {c.local, c.peer} && x2 !in {c.local, c.peer, x1}
    ensures var evs := [Send(Responder, p1, ad, x1, t1), Send(Responder, p2, ad, x2, t2)];
            Answered(c, evs, m1, m2) && Run(Begin(c), evs).used == {c.local, c.peer, x1, x2}
  {
    var e1, e2 := Send(Responder, p1, ad, x1, t1), Send(Responder, p2, ad, x2, t2);
    AnswerHeaders(Begin(c).b, p1, p2, ad, x1, x2, t1, t2);
    m1 := Sent(Begin(c), e1).result.value;
    var sys1 := Step(Begin(c), e1);
    StepSend(Begin(c), e1);
    m2 := Sent(sys1, e2).result.value;
    StepSend(sys1, e2);
    ScheduleNext(c, [], e1);
    assert [] + [e1] == [e1];
    ScheduleNext(c, [e1], e2);
    assert [e1] + [e2] == [e1, e2] && [e1, e2][..0] == [] && [e1, e2][..1] == [e1];
  }

  lemma Appended(c: Setup, evs: seq<Event>, ev: Event, k: nat, p: Role, m: Message, ad: Bytes)
    requires Sound(c) && k < |evs|
    ensures ProducedAt(Begin(c), evs + [ev], k, p, m, ad) == ProducedAt(Begin(c), evs, k, p, m, ad)
    ensures DeliveredAt(Begin(c), evs + [ev], k, p, m, ad) == DeliveredAt(Begin(c), evs, k, p, m, ad)
  {
    assert (evs + [ev])[..k] == evs[..k];
  }

  /** A scheduled delivery of a message sent at `k`, not delivered before and with room, is read. */
  lemma NextIsRead(c: Setup, evs: seq<Event>, ev: Event, k: nat)
    requires Sound(c) && ScheduledRun(c, evs) && Scheduled(c, evs, ev) && ev.Deliver? && ev.wire.Wire? && k < |evs|
    requires ProducedAt(Begin(c), evs, k, Peer(ev.dest), ev.wire.message, ev.ad) && Current(evs[k].now, ev.now)
    requires forall j: nat :: j < |evs| ==> !DeliveredAt(Begin(c), evs, j, ev.dest, ev.wire.message, ev.ad)
    requires RoomWithin(StateOf(Run(Begin(c), evs), ev.dest), ev.wire.message.header, Window(c, ev.dest))
    ensures Read(Run(Begin(c), evs), ev).result == Ok(evs[k].plaintext)
  {
    var all, p, m := evs + [ev], ev.dest, ev.wire.message;
    ScheduleNext(c, evs, ev);
    assert all[..|evs|] == evs;
    Appended(c, evs, ev, k, Peer(p), m, ev.ad);
    assert SentInTime(c, all, k, Peer(p), m, ev.ad, ev.now);
    forall j: nat | j < |evs| ensures !DeliveredAt(Begin(c), all, j, p, m, ev.ad) {
      Appended(c, evs, ev, j, p, m, ev.ad);
    }
    DeliveryByEvents(c, all, |evs|);
  }

  lemma InLog(secret: Key, log: seq<Post>, i: nat)
    requires i < |log|
    ensures NetworkBox(secret, log, log[i].message.box)
  {
  }

  lemma FirstAnswerRead(c: Setup, two: seq<Event>, m1: Message, m2: Message, d1: Event)
    requires Sound(c) && Answered(c, two, m1, m2) && d1.Deliver? && d1.dest == Initiator && d1.wire == Wire(m1)
    requires d1.ad == two[0].ad && d1.seed !in Run(Begin(c), two).used && Current(two[0].now, d1.now)
    ensures Scheduled(c, two, d1) && Read(Run(Begin(c), two), d1).result == Ok(two[0].plaintext)
  {
    InLog(c.secret, Run(Begin(c), two).log, 0);
    NextIsRead(c, two, d1, 0);
  }

  lemma SecondAnswerRead(c: Setup, two: seq<Event>, m1: Message, m2: Message, d1: Event, d2: Event)
    requires Sound(c) && Answered(c, two, m1, m2) && d1.Deliver? && d1.dest == Initiator && d1.wire == Wire(m1)
    requires d2.Deliver? && d2.dest == Initiator && d2.wire == Wire(m2) && d2.ad == two[1].ad && Current(two[1].now, d2.now)
    requires Scheduled(c, two, d1) && Read(Run(Begin(c), two), d1).result.Ok?
    requires d2.seed !in Run(Begin(c), two).used + {d1.seed}
    ensures Scheduled(c, two + [d1], d2) && ScheduledRun(c, two + [d1] + [d2])
    ensures Read(Run(Begin(c), two + [d1]), d2).result == Ok(two[1].plaintext)
  {
    var three := two + [d1];
    ScheduleNext(c, two, d1);
    StepRead(Run(Begin(c), two), d1);
    FirstReadState(Begin(c).a, m1, d1.ad, d1.seed, d1.now);
    InLog(c.secret, Run(Begin(c), three).log, 1);
    assert three[..2] == two;
    Appended(c, two, d1, 1, Responder, m2, d2.ad);
    NextIsRead(c, three, d2, 1);
    ScheduleNext(c, three, d2);
  }

  /** A scheduled run of four events whose last two are deliveries that return these plaintexts. */
  ghost predicate ReadsBoth(c: Setup, evs: seq<Event>, p1: Bytes, p2: Bytes)
    requires Sound(c)
  {
    && |evs| == 4 && evs[2].Deliver? && evs[3].Deliver? && ScheduledRun(c, evs)
    && Read(Run(Begin(c), evs[..2]), evs[2]).result == Ok(p1) && Read(Run(Begin(c), evs[..3]), evs[3]).result == Ok(p2)
  }

  lemma BothRead(c: Setup, two: seq<Event>, m1: Message, m2: Message, d1: Event, d2: Event)
    requires Sound(c) && Answered(c, two, m1, m2)
    requires d1.Deliver? && d1.dest == Initiator && d1.wire == Wire(m1) && d1.ad == two[0].ad && Current(two[0].now, d1.now)
    requires d2.Deliver? && d2.dest == Initiator && d2.wire == Wire(m2) && d2.ad == two[1].ad && Current(two[1].now, d2.now)
    requires d1.seed !in Run(Begin(c), two).used && d2.seed !in Run(Begin(c), two).used + {d1.seed}
    ensures ReadsBoth(c, two + [d1] + [d2], two[0].plaintext, two[1].plaintext)
  {
    FirstAnswerRead(c, two, m1, m2, d1);
    SecondAnswerRead(c, two, m1, m2, d1, d2);
    var evs := two + [d1] + [d2];
    assert evs[..2] == two && evs[..3] == two + [d1];
  }

  /**
    The responder answers twice within a day and the initiator reads both, whenever both
    are current: the run keeps to the schedule, and the second message is number 1 of the
    chain the first one opened.
    */
  lemma AnswersArrive(c: Setup, p1: Bytes, p2: Bytes, ad: Bytes, x1: Scalar, x2: Scalar, y1: Scalar, y2: Scalar,
                      t1: nat, t2: nat, now: nat)
    returns (m1: Message, m2: Message)
    requires Sound(c) && Sealable(p1, ad) && Sealable(p2, ad)
    requires t2 <= t1 + 86400 && Current(t1, now) && Current(t2, now)
    requires x1 !in {c.local, c.peer} && x2 !in {c.local, c.peer, x1}
    requires y1 !in {c.local, c.peer, x1, x2} && y2 !in {c.local, c.peer, x1, x2, y1}
    ensures ReadsBoth(c, [Send(Responder, p1, ad, x1, t1), Send(Responder, p2, ad, x2, t2)]
                         + [Deliver(Initiator, Wire(m1), ad, y1, now)] + [Deliver(Initiator, Wire(m2), ad, y2, now)], p1, p2)
    ensures m1.header.number == 0 && m2.header.number == 1 && m1.header.dh == m2.header.dh
  {
    m1, m2 := AnswersSent(c, p1, p2, ad, x1, x2, t1, t2);
    var two := [Send(Responder, p1, ad, x1, t1), Send(Responder, p2, ad, x2, t2)];
    var d1, d2 := Deliver(Initiator, Wire(m1), ad, y1, now), Deliver(Initiator, Wire(m2), ad, y2, now);
    BothRead(c, two, m1, m2, d1, d2);
  }

  // ---------------------------------------------------------------- a network of outsiders

  /** The network delivers boxes it has seen and boxes under keys it can compute from `k`. */
  ghost predicate MadeBy(k: Knowledge, log: seq<Post>, box: Box) {
    (exists i :: 0 <= i < |log| && log[i].message.box == box) || Computable(k, box.key)
  }

  /** A run against a network that knows `k`, on schedule. */
  ghost predicate OutsiderRun(c: Setup, k: Knowledge, evs: seq<Event>)
    requires Sound(c)
    decreases |evs|
  {
    evs != [] ==>
      var front, ev := evs[..|evs| - 1], evs[|evs| - 1];
      var sys := Run(Begin(c), front);
      && OutsiderRun(c, k, front) && ev.seed !in sys.used
      && (ev.Send? ==> InUse(SpanAfter(c, front, ev.from), ev.now))
      && (ev.Deliver? && ev.wire.Wire? ==> MadeBy(k, sys.log, ev.wire.message.box))
  }

  lemma OutsiderBox(k: Knowledge, secret: Key, log: seq<Post>, box: Box)
    requires WellMade(secret) && Outside(k, secret) && MadeBy(k, log, box)
    ensures NetworkBox(secret, log, box)
  {
    if Computable(k, box.key) {
      OutsiderHasNoKey(k, secret, box.key);
    }
  }

  /** Against a network that cannot compute the secret every scheduled run meets the assumptions. */
  lemma {:induction false} OutsiderIsScheduled(c: Setup, k: Knowledge, evs: seq<Event>)
    requires Sound(c) && WellMade(c.secret) && Outside(k, c.secret) && OutsiderRun(c, k, evs)
    ensures ScheduledRun(c, evs)
    decreases |evs|
  {
    if evs != [] {
      var front, ev := evs[..|evs| - 1], evs[|evs| - 1];
      OutsiderIsScheduled(c, k, front);
      if ev.Deliver? && ev.wire.Wire? {
        OutsiderBox(k, c.secret, Run(Begin(c), front).log, ev.wire.message.box);
      }
    }
  }
}
