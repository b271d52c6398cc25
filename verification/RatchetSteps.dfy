/**
  What one call does to a state that the ledger describes: the skip loop in closed form,
  the three outcomes of the trial on the cloned state, and key conservation across each.
  */
module RatchetSteps {
  import opened Wrappers
  import opened Crypto
  import opened Ratchet
  import opened RatchetLedger

  // ---------------------------------------------------------------- the skip loop

  /** `after` is `before` plus the keys `lo..hi` of the chain from `start`, filed under `remote`. */
  ghost predicate Filled(before: map<KeyId, Key>, after: map<KeyId, Key>,
                         remote: PublicKey, start: Key, lo: nat, hi: nat)
  {
    && (forall id :: id in after <==> id in before || (id.dh == remote && lo <= id.number < hi))
    && (forall id :: id in after ==>
          after[id] == if id in before then before[id] else MessageKey(ChainAt(start, id.number)))
  }

  function Moved(c: Chain, start: Key, n: nat): Chain { c.(key := ChainAt(start, n), index := n) }

  /** `s` with its receiving chain moved to index `n` and another store. */
  function Pulled(s: State, start: Key, n: nat, store: map<KeyId, Key>): State
    requires s.receiving.Some?
  {
    s.(receiving := Some(Moved(s.receiving.value, start, n)), skipped := store)
  }

  predicate SkipFits(s: State, until: nat)
    requires s.receiving.Some?
  {
    var c := s.receiving.value;
    until <= c.index || (until <= c.maxMessages && |s.skipped| + until - c.index <= s.maxSkip)
  }

  /** Whatever ids it files the keys under, the loop stays on its chain. */
  lemma {:induction false} SkipKeepsChain(s: State, until: nat, start: Key)
    requires s.receiving.Some? && s.receiving.value.key == ChainAt(start, s.receiving.value.index)
    ensures SkipLoop(s, until).Ok? ==>
              var t := SkipLoop(s, until).value;
              t == Pulled(s, start, Max(s.receiving.value.index, until), t.skipped)
    decreases until - s.receiving.value.index
  {
    var c := s.receiving.value;
    if c.index < until && Draw(c).Some? && s.dhRemote.Some? && |s.skipped| < s.maxSkip {
      var Drawn(key, chain) := Draw(c).value;
      SkipKeepsChain(s.(receiving := Some(chain), skipped := s.skipped[KeyId(s.dhRemote.value, chain.index - 1) := key]),
                     until, start);
    }
  }

  lemma FilledStep(before: map<KeyId, Key>, after: map<KeyId, Key>,
                   remote: PublicKey, start: Key, lo: nat, hi: nat)
    requires lo < hi && KeyId(remote, lo) !in before
    requires Filled(before[KeyId(remote, lo) := MessageKey(ChainAt(start, lo))], after, remote, start, lo + 1, hi)
    ensures Filled(before, after, remote, start, lo, hi)
  {
  }

  ghost predicate Unread(s: State, remote: PublicKey)
    requires s.receiving.Some?
  {
    forall i: nat {:trigger KeyId(remote, i)} :: i >= s.receiving.value.index ==> KeyId(remote, i) !in s.skipped
  }

  /** One pass of the loop on a state whose unread ids are free. */
  function Pass(s: State, remote: PublicKey): State
    requires s.receiving.Some?
  {
    var c := s.receiving.value;
    s.(receiving := Some(c.(key := NextChain(c.key), index := c.index + 1)),
       skipped := s.skipped[KeyId(remote, c.index) := MessageKey(c.key)])
  }

  lemma PassFacts(s: State, remote: PublicKey)
    requires s.receiving.Some? && Unread(s, remote)
    ensures |Pass(s, remote).skipped| == |s.skipped| + 1 && Unread(Pass(s, remote), remote)
  {
    var id := KeyId(remote, s.receiving.value.index);
    assert Pass(s, remote).skipped.Keys == s.skipped.Keys + {id};
    assert |Pass(s, remote).skipped| == |Pass(s, remote).skipped.Keys|;
  }

  lemma {:induction false} SkipLoopFits(s: State, until: nat, remote: PublicKey)
    requires s.receiving.Some? && s.dhRemote == Some(remote) && Unread(s, remote)
    ensures SkipLoop(s, until).Ok? <==> SkipFits(s, until)
    ensures SkipLoop(s, until).Ok? ==>
              |SkipLoop(s, until).value.skipped| == |s.skipped| + Max(until - s.receiving.value.index, 0)
    decreases until - s.receiving.value.index
  {
    var c := s.receiving.value;
    if c.index < until && c.index < c.maxMessages && |s.skipped| < s.maxSkip {
      PassFacts(s, remote);
      SkipLoopFits(Pass(s, remote), until, remote);
    }
  }

  lemma SkipLoopUnfolds(s: State, until: nat, remote: PublicKey)
    requires s.receiving.Some? && s.dhRemote == Some(remote)
    requires s.receiving.value.index < until && SkipLoop(s, until).Ok?
    ensures SkipLoop(s, until) == SkipLoop(Pass(s, remote), until)
  {
  }

  /** When no unread id is taken, the loop files exactly the unread keys below `until`. */
  lemma {:induction false} SkipLoopFiles(s: State, until: nat, start: Key, remote: PublicKey)
    requires s.receiving.Some? && s.receiving.value.key == ChainAt(start, s.receiving.value.index)
    requires s.dhRemote == Some(remote) && Unread(s, remote)
    requires SkipLoop(s, until).Ok?
    ensures Filled(s.skipped, SkipLoop(s, until).value.skipped, remote, start, s.receiving.value.index, until)
    decreases until - s.receiving.value.index
  {
    var c := s.receiving.value;
    if c.index < until {
      PassFacts(s, remote);
      SkipLoopUnfolds(s, until, remote);
      SkipLoopFiles(Pass(s, remote), until, start, remote);
      FilledStep(s.skipped, SkipLoop(s, until).value.skipped, remote, start, c.index, until);
    }
  }

  lemma SkipExact(s: State, until: nat, start: Key, remote: PublicKey)
    requires s.receiving.Some? && s.receiving.value.key == ChainAt(start, s.receiving.value.index)
    requires s.dhRemote == Some(remote) && Unread(s, remote)
    ensures SkipMessageKeys(s, until).Ok? <==> SkipFits(s, until)
    ensures SkipMessageKeys(s, until).Ok? ==>
              var t := SkipMessageKeys(s, until).value;
              && t == Pulled(s, start, Max(s.receiving.value.index, until), t.skipped)
              && |t.skipped| == |s.skipped| + Max(until - s.receiving.value.index, 0)
              && Filled(s.skipped, t.skipped, remote, start, s.receiving.value.index, until)
  {
    SkipLoopFits(s, until, remote);
    SkipKeepsChain(s, until, start);
    if SkipLoop(s, until).Ok? {
      SkipLoopFiles(s, until, start, remote);
    }
  }

  // ---------------------------------------------------------------- conservation of keys

  lemma ReadHolds(l: Ledger, p: Role, store: map<KeyId, Key>, store': map<KeyId, Key>, n: nat)
    requires Shape(l) && Holds(l, p, store) && 0 <= Recv(l, p)
    requires Filled(store, store', Point(l.scalars[Recv(l, p)]),
                    Start(l.secret, l.scalars, Recv(l, p)), l.read[Recv(l, p)], n)
    requires forall i: nat {:trigger KeyId(Point(l.scalars[Recv(l, p)]), i)} ::
               l.read[Recv(l, p)] <= i ==> KeyId(Point(l.scalars[Recv(l, p)]), i) !in store
    ensures Holds(ReadTo(l, Recv(l, p), n), p, store')
  {
    var r := Recv(l, p);
    var l' := ReadTo(l, r, n);
    forall k: nat, m: nat | Stored(l', p, k, m)
      ensures KeyId(Point(l'.scalars[k]), m) in store' && store'[KeyId(Point(l'.scalars[k]), m)] == KeyAt(l', k, m)
    {
      if k != r || m < l.read[r] {
        assert Stored(l, p, k, m);
      }
    }
  }

  lemma ReadOnly(l: Ledger, p: Role, store: map<KeyId, Key>, store': map<KeyId, Key>, n: nat)
    requires Shape(l) && Only(l, p, store) && 0 <= Recv(l, p) && l.read[Recv(l, p)] <= n
    requires forall m :: m in l.accepted[Recv(l, p)] ==> m < l.read[Recv(l, p)]
    requires Filled(store, store', Point(l.scalars[Recv(l, p)]),
                    Start(l.secret, l.scalars, Recv(l, p)), l.read[Recv(l, p)], n)
    ensures Only(ReadTo(l, Recv(l, p), n), p, store')
  {
    var r := Recv(l, p);
    var l' := ReadTo(l, r, n);
    forall id | id in store'
      ensures exists k: nat :: Stored(l', p, k, id.number) && id == KeyId(Point(l'.scalars[k]), id.number)
    {
      if id in store {
        var k: nat :| Stored(l, p, k, id.number) && id == KeyId(Point(l.scalars[k]), id.number);
        assert Stored(l', p, k, id.number);
      } else {
        assert Stored(l', p, r, id.number);
      }
    }
  }

  /** An epoch's key is in the store exactly when it is drawn and unused. */
  lemma StoreLookup(l: Ledger, p: Role, store: map<KeyId, Key>, k: nat, n: nat)
    requires Shape(l) && Distinct(l) && StoreOk(l, p, store) && k < |l.scalars|
    ensures KeyId(Point(l.scalars[k]), n) in store <==> Stored(l, p, k, n)
  {
    var id := KeyId(Point(l.scalars[k]), n);
    if id in store {
      var j: nat :| Stored(l, p, j, id.number) && id == KeyId(Point(l.scalars[j]), id.number);
      assert j == k;
    }
  }

  /** Filing the unread keys below `n` keeps the store equal to what is drawn and unused. */
  lemma StoreRead(l: Ledger, p: Role, store: map<KeyId, Key>, store': map<KeyId, Key>, n: nat)
    requires Consistent(l) && StoreOk(l, p, store)
    requires 0 <= Recv(l, p) && l.read[Recv(l, p)] <= n
    requires Filled(store, store', Point(l.scalars[Recv(l, p)]),
                    Start(l.secret, l.scalars, Recv(l, p)), l.read[Recv(l, p)], n)
    ensures StoreOk(ReadTo(l, Recv(l, p), n), p, store')
  {
    forall i: nat | l.read[Recv(l, p)] <= i ensures KeyId(Point(l.scalars[Recv(l, p)]), i) !in store {
      StoreLookup(l, p, store, Recv(l, p), i);
    }
    ReadHolds(l, p, store, store', n);
    ReadOnly(l, p, store, store', n);
  }

  lemma ConsumeOnly(l: Ledger, p: Role, store: map<KeyId, Key>, k: nat, n: nat)
    requires Shape(l) && Only(l, p, store) && k < |l.scalars|
    ensures Only(Accepted(l, k, n), p, store - {KeyId(Point(l.scalars[k]), n)})
  {
    var l' := Accepted(l, k, n);
    forall id | id in store - {KeyId(Point(l.scalars[k]), n)}
      ensures exists j: nat :: Stored(l', p, j, id.number) && id == KeyId(Point(l'.scalars[j]), id.number)
    {
      var j: nat :| Stored(l, p, j, id.number) && id == KeyId(Point(l.scalars[j]), id.number);
      assert Stored(l', p, j, id.number);
    }
  }

  lemma ConsumeHolds(l: Ledger, p: Role, store: map<KeyId, Key>, k: nat, n: nat)
    requires Shape(l) && Distinct(l) && Holds(l, p, store) && k < |l.scalars|
    ensures Holds(Accepted(l, k, n), p, store - {KeyId(Point(l.scalars[k]), n)})
  {
    var l' := Accepted(l, k, n);
    var store' := store - {KeyId(Point(l.scalars[k]), n)};
    forall j: nat, m: nat | Stored(l', p, j, m)
      ensures KeyId(Point(l'.scalars[j]), m) in store' && store'[KeyId(Point(l'.scalars[j]), m)] == KeyAt(l', j, m)
    {
      assert Stored(l, p, j, m);
    }
  }

  /** A stored key that is used leaves the store, and only that one. */
  lemma StoreConsume(l: Ledger, p: Role, store: map<KeyId, Key>, k: nat, n: nat)
    requires Consistent(l) && StoreOk(l, p, store) && Stored(l, p, k, n)
    ensures StoreOk(Accepted(l, k, n), p, store - {KeyId(Point(l.scalars[k]), n)})
  {
    ConsumeHolds(l, p, store, k, n);
    ConsumeOnly(l, p, store, k, n);
  }

  /** The reader of epoch `k` draws its next key and uses it at once. */
  function TookNext(l: Ledger, k: nat): Ledger
    requires k < |l.read| && k < |l.accepted|
  {
    Accepted(ReadTo(l, k, l.read[k] + 1), k, l.read[k])
  }

  /** A key used as soon as it is drawn never enters the store. */
  lemma StoreDirect(l: Ledger, p: Role, store: map<KeyId, Key>, k: nat)
    requires Shape(l) && StoreOk(l, p, store) && k < |l.scalars|
    ensures StoreOk(TookNext(l, k), p, store)
  {
    var l' := TookNext(l, k);
    forall j: nat, m: nat | Stored(l', p, j, m)
      ensures KeyId(Point(l'.scalars[j]), m) in store && store[KeyId(Point(l'.scalars[j]), m)] == KeyAt(l', j, m)
    {
      assert Stored(l, p, j, m);
    }
    forall id | id in store
      ensures exists j: nat :: Stored(l', p, j, id.number) && id == KeyId(Point(l'.scalars[j]), id.number)
    {
      var j: nat :| Stored(l, p, j, id.number) && id == KeyId(Point(l.scalars[j]), id.number);
      assert Stored(l', p, j, id.number);
    }
  }

  ghost predicate Extends(l: Ledger, l': Ledger) {
    && l'.secret == l.secret && l'.spare == l.spare
    && (l'.scalars == l.scalars || exists x :: l'.scalars == l.scalars + [x])
  }

  lemma KeysStable(l: Ledger, l': Ledger, k: nat)
    requires Extends(l, l') && k < |l.scalars|
    ensures l'.scalars[k] == l.scalars[k]
    ensures Root(l'.secret, l'.scalars, k) == Root(l.secret, l.scalars, k)
    ensures Start(l'.secret, l'.scalars, k) == Start(l.secret, l.scalars, k)
  {
    if l'.scalars != l.scalars {
      var x :| l'.scalars == l.scalars + [x];
      RootStable(l.secret, l.scalars, x, k);
    }
  }

  /** What the peer does to its own epochs, and a newly opened epoch, leave `p`'s store correct. */
  lemma StoreFrame(l: Ledger, l': Ledger, p: Role, store: map<KeyId, Key>)
    requires Shape(l) && Shape(l') && Extends(l, l') && StoreOk(l, p, store)
    requires Recv(l, p) <= Recv(l', p)
    requires forall k :: 0 <= k < |l.scalars| && Sender(k) != p ==>
                           l'.read[k] == l.read[k] && l'.accepted[k] == l.accepted[k]
    requires forall k :: Recv(l, p) < k <= Recv(l', p) && Sender(k) != p ==> l'.read[k] == 0
    ensures StoreOk(l', p, store)
  {
    forall k: nat, n: nat | Stored(l', p, k, n)
      ensures KeyId(Point(l'.scalars[k]), n) in store && store[KeyId(Point(l'.scalars[k]), n)] == KeyAt(l', k, n)
    {
      KeysStable(l, l', k);
      assert Stored(l, p, k, n);
    }
    forall id | id in store
      ensures exists k: nat :: Stored(l', p, k, id.number) && id == KeyId(Point(l'.scalars[k]), id.number)
    {
      var k: nat :| Stored(l, p, k, id.number) && id == KeyId(Point(l.scalars[k]), id.number);
      KeysStable(l, l', k);
      assert Stored(l', p, k, id.number);
    }
  }

  // ---------------------------------------------------------------- the trial

  /** Every key a trial can produce, whatever the header says. */
  lemma AdvanceKey(s: State, h: Header, seed: Scalar, now: nat, start: Key)
    requires s.receiving.Some? ==> s.receiving.value.key == ChainAt(start, s.receiving.value.index)
    ensures Advance(s, h, seed, now).Ok? ==>
              && (s.dhRemote != Some(h.dh) ==> s.dhLocal.Some?)
              && Advance(s, h, seed, now).value.key ==
                   MessageKey(ChainAt(if s.dhRemote == Some(h.dh) then start
                                      else RatchetChain(s.root, DiffieHellman(s.dhLocal.value, h.dh)), h.number))
  {
    if Advance(s, h, seed, now).Ok? {
      var s1 := RatchetIfNeeded(s, h, seed, now).value;
      var first := start;
      if s.dhRemote != Some(h.dh) {
        var s0 := if s.sending.Some? then s.(previousCounter := s.sending.value.index) else s;
        if s0.receiving.Some? {
          SkipKeepsChain(s0, h.previous, start);
        }
        first := RatchetChain(s.root, DiffieHellman(s.dhLocal.value, h.dh));
        assert s1.receiving == Some(NewChain(first, now));
      }
      if s1.receiving.Some? {
        SkipKeepsChain(s1, h.number, first);
      }
    }
  }

  predicate StayFits(s: State, number: nat)
    requires s.receiving.Some?
  {
    s.receiving.value.index <= number && |s.skipped| + number - s.receiving.value.index <= s.maxSkip
  }

  lemma AdvanceOnCurrent(s: State, h: Header, seed: Scalar, now: nat)
    requires s.dhRemote == Some(h.dh)
    ensures SkipMessageKeys(s, h.number).Ok? ==>
              Advance(s, h, seed, now) == DrawAt(SkipMessageKeys(s, h.number).value, h.number)
    ensures SkipMessageKeys(s, h.number).Err? ==> Advance(s, h, seed, now).Err?
  {
  }

  /** A trial under the current peer key succeeds only within the window. */
  lemma AdvanceStayOnly(s: State, h: Header, seed: Scalar, now: nat, start: Key)
    requires s.dhRemote == Some(h.dh) && s.receiving.Some? && Unread(s, h.dh)
    requires s.receiving.value.key == ChainAt(start, s.receiving.value.index)
    requires |s.skipped| <= s.maxSkip && Advance(s, h, seed, now).Ok?
    ensures StayFits(s, h.number)
  {
    AdvanceOnCurrent(s, h, seed, now);
    SkipExact(s, h.number, start, h.dh);
  }

  lemma AdvanceStayState(s: State, h: Header, seed: Scalar, now: nat, start: Key)
    requires s.dhRemote == Some(h.dh) && s.receiving.Some? && h.number < s.receiving.value.maxMessages
    requires SkipMessageKeys(s, h.number).Ok?
    requires var s1 := SkipMessageKeys(s, h.number).value; s1 == Pulled(s, start, h.number, s1.skipped)
    ensures Advance(s, h, seed, now).Ok?
    ensures var t := Advance(s, h, seed, now).value.state;
            && t.skipped == SkipMessageKeys(s, h.number).value.skipped
            && t == Pulled(s, start, h.number + 1, t.skipped)
    ensures Advance(s, h, seed, now).value.key == MessageKey(ChainAt(start, h.number))
  {
    AdvanceOnCurrent(s, h, seed, now);
    DrawAtMoved(s, SkipMessageKeys(s, h.number).value, h.number, start);
  }

  /** Within the window the trial succeeds, and this is the state it reaches. */
  lemma AdvanceStay(s: State, h: Header, seed: Scalar, now: nat, start: Key)
    requires s.dhRemote == Some(h.dh) && s.receiving.Some? && Unread(s, h.dh)
    requires s.receiving.value.key == ChainAt(start, s.receiving.value.index)
    requires h.number < s.receiving.value.maxMessages && StayFits(s, h.number)
    ensures Advance(s, h, seed, now).Ok?
    ensures var t := Advance(s, h, seed, now).value.state;
            && t == Pulled(s, start, h.number + 1, t.skipped)
            && |t.skipped| == |s.skipped| + h.number - s.receiving.value.index
            && Filled(s.skipped, t.skipped, h.dh, start, s.receiving.value.index, h.number)
    ensures Advance(s, h, seed, now).value.key == MessageKey(ChainAt(start, h.number))
  {
    SkipExact(s, h.number, start, h.dh);
    AdvanceStayState(s, h, seed, now, start);
  }

  lemma DrawAtMoved(s: State, t: State, number: nat, start: Key)
    requires s.receiving.Some? && number < s.receiving.value.maxMessages
    requires t == Pulled(s, start, number, t.skipped)
    ensures DrawAt(t, number) ==
              Ok(Trial(Pulled(s, start, number + 1, t.skipped), MessageKey(ChainAt(start, number))))
  {
  }

  /** How many keys the old receiving chain still owes when a header announces its length. */
  function Owed(s: State, previous: nat): nat {
    if s.receiving.Some? then Max(previous - s.receiving.value.index, 0) else 0
  }

  function CountedPrevious(s: State): State {
    if s.sending.Some? then s.(previousCounter := s.sending.value.index) else s
  }

  /** The store between the two skips of a trial that ratchets. */
  function Between(s: State, previous: nat): map<KeyId, Key>
    requires SkipMessageKeys(CountedPrevious(s), previous).Ok?
  {
    SkipMessageKeys(CountedPrevious(s), previous).value.skipped
  }

  lemma TurnSkip(s: State, previous: nat, start: Key, was: PublicKey)
    requires s.dhRemote == Some(was) && |s.skipped| <= s.maxSkip
    requires s.receiving.Some? ==>
               && s.receiving.value.key == ChainAt(start, s.receiving.value.index) && Unread(s, was)
               && previous <= s.receiving.value.maxMessages
    ensures SkipMessageKeys(CountedPrevious(s), previous).Ok? <==> |s.skipped| + Owed(s, previous) <= s.maxSkip
    ensures SkipMessageKeys(CountedPrevious(s), previous).Ok? ==>
              var t := SkipMessageKeys(CountedPrevious(s), previous).value;
              && t == CountedPrevious(s).(receiving := t.receiving, skipped := t.skipped)
              && |t.skipped| == |s.skipped| + Owed(s, previous)
              && (s.receiving.None? ==> t.skipped == s.skipped)
              && (s.receiving.Some? ==>
                    Filled(s.skipped, t.skipped, was, start, s.receiving.value.index, previous))
  {
    if s.receiving.Some? {
      assert Unread(CountedPrevious(s), was);
      SkipExact(CountedPrevious(s), previous, start, was);
    }
  }

  /** The trial for a header whose peer key is new, up to the second skip. */
  ghost predicate NewPeerKey(s: State, h: Header, start: Key, was: PublicKey) {
    && s.dhRemote == Some(was) && was != h.dh && s.dhLocal.Some? && |s.skipped| <= s.maxSkip
    && (s.receiving.Some? ==>
          && s.receiving.value.key == ChainAt(start, s.receiving.value.index) && Unread(s, was)
          && h.previous <= s.receiving.value.maxMessages)
    && (forall i: nat {:trigger KeyId(h.dh, i)} :: KeyId(h.dh, i) !in s.skipped)
  }

  predicate TurnFits(s: State, h: Header) { |s.skipped| + Owed(s, h.previous) + h.number <= s.maxSkip }

  /** The state right after the root has moved. */
  function Turn(s: State, h: Header, seed: Scalar, now: nat, store: map<KeyId, Key>): State
    requires s.dhLocal.Some?
  {
    var dh := DiffieHellman(s.dhLocal.value, h.dh);
    var dhSend := DiffieHellman(seed, h.dh);
    var middle := RatchetRoot(s.root, dh);
    s.(root := RatchetRoot(middle, dhSend),
       sending := Some(NewChain(RatchetChain(middle, dhSend), now)),
       receiving := Some(NewChain(RatchetChain(s.root, dh), now)),
       dhLocal := Some(seed), dhRemote := Some(h.dh),
       previousCounter := SendingIndex(s), skipped := store)
  }

  lemma TurnIs(s: State, h: Header, seed: Scalar, now: nat, start: Key, was: PublicKey)
    requires NewPeerKey(s, h, start, was)
    ensures SkipMessageKeys(CountedPrevious(s), h.previous).Ok? <==> |s.skipped| + Owed(s, h.previous) <= s.maxSkip
    ensures SkipMessageKeys(CountedPrevious(s), h.previous).Err? ==> Advance(s, h, seed, now).Err?
    ensures SkipMessageKeys(CountedPrevious(s), h.previous).Ok? ==>
              var s1 := Turn(s, h, seed, now, Between(s, h.previous));
              && Advance(s, h, seed, now) == Advance(s1, h, seed, now)
              && |s1.skipped| == |s.skipped| + Owed(s, h.previous)
              && Unread(s1, h.dh)
  {
    TurnSkip(s, h.previous, start, was);
    if SkipMessageKeys(CountedPrevious(s), h.previous).Ok? {
      var s1 := Turn(s, h, seed, now, Between(s, h.previous));
      assert RatchetIfNeeded(s, h, seed, now) == Ok(s1);
      forall i: nat ensures KeyId(h.dh, i) !in s1.skipped {
        assert KeyId(h.dh, i) !in s.skipped;
      }
    }
  }

  lemma AdvanceTurnOnly(s: State, h: Header, seed: Scalar, now: nat, start: Key, was: PublicKey)
    requires NewPeerKey(s, h, start, was) && Advance(s, h, seed, now).Ok?
    ensures TurnFits(s, h)
  {
    TurnIs(s, h, seed, now, start, was);
    var s1 := Turn(s, h, seed, now, Between(s, h.previous));
    AdvanceStayOnly(s1, h, seed, now, s1.receiving.value.key);
  }

  /** Within the window the trial succeeds across the ratchet, and this is the state it reaches. */
  lemma AdvanceTurn(s: State, h: Header, seed: Scalar, now: nat, start: Key, was: PublicKey)
    requires NewPeerKey(s, h, start, was) && h.number < MAX_CHAIN_MESSAGES && TurnFits(s, h)
    ensures Advance(s, h, seed, now).Ok? && SkipMessageKeys(CountedPrevious(s), h.previous).Ok?
    ensures var s1 := Turn(s, h, seed, now, Between(s, h.previous));
            var first := s1.receiving.value.key;
            var t := Advance(s, h, seed, now).value.state;
            && Advance(s, h, seed, now).value.key == MessageKey(ChainAt(first, h.number))
            && t == Pulled(s1, first, h.number + 1, t.skipped)
            && |t.skipped| == |s.skipped| + Owed(s, h.previous) + h.number
            && Filled(Between(s, h.previous), t.skipped, h.dh, first, 0, h.number)
  {
    TurnIs(s, h, seed, now, start, was);
    var s1 := Turn(s, h, seed, now, Between(s, h.previous));
    AdvanceStay(s1, h, seed, now, s1.receiving.value.key);
  }
}
