/**
  The session as the code keeps it: a state object whose fields and chains are updated in
  place, a clone that is tried and committed, and a loop that files skipped keys. Every
  method is proved equal to its function in module `Ratchet`, so the theorems about runs
  of those functions hold of these objects.
  */
module RatchetSession {
  import opened Wrappers
  import opened Crypto
  import opened Ratchet

  // ---------------------------------------------------------------- chains

  class ChainKey {
    var key: Key
    var index: nat
    var createdAt: nat
    var maxMessages: nat
    var reservedUntil: nat

    function Value(): Chain
      reads this
    {
      Chain(key, index, createdAt, maxMessages, reservedUntil)
    }

    constructor (key: Key, now: nat)
      ensures Value() == NewChain(key, now)
    {
      this.key := key;
      index := 0;
      createdAt := now;
      maxMessages := MAX_CHAIN_MESSAGES;
      reservedUntil := MAX_CHAIN_MESSAGES;
    }

    constructor Clone(c: ChainKey)
      ensures Value() == c.Value()
    {
      key := c.key;
      index := c.index;
      createdAt := c.createdAt;
      maxMessages := c.maxMessages;
      reservedUntil := c.reservedUntil;
    }

    /** Hands out the current key and steps the chain, or leaves an exhausted chain alone. */
    method NextMessageKey() returns (r: Option<Key>)
      modifies this
      ensures match Draw(old(Value()))
              case None => r == None && Value() == old(Value())
              case Some(d) => r == Some(d.key) && Value() == d.chain
    {
      if index >= maxMessages {
        return None;
      }
      r := Some(MessageKey(key));
      key := NextChain(key);
      index := index + 1;
    }

    method CheckRotation(now: nat) returns (r: bool)
      ensures r == NeedsRotation(Value(), now)
    {
      r := index >= maxMessages || (now > createdAt && now - createdAt > MAX_CHAIN_AGE);
    }
  }

  // ---------------------------------------------------------------- state

  class DoubleRatchetState {
    var root: Key
    var sending: ChainKey?
    var receiving: ChainKey?
    var dhLocal: Option<Scalar>
    var dhRemote: Option<PublicKey>
    var skipped: map<KeyId, Key>
    var maxSkip: nat
    var previousCounter: nat
    var lastActivity: nat
    var messagesSent: nat
    var messagesReceived: nat

    /** The two chains never share an object. */
    ghost predicate Valid()
      reads this
    {
      sending != null && receiving != null ==> sending != receiving
    }

    function SendingValue(): Option<Chain>
      reads this, sending
    {
      if sending == null then None else Some(sending.Value())
    }

    function ReceivingValue(): Option<Chain>
      reads this, receiving
    {
      if receiving == null then None else Some(receiving.Value())
    }

    function Model(): State
      reads this, sending, receiving
    {
      State(root, SendingValue(), ReceivingValue(), dhLocal, dhRemote, skipped, maxSkip,
            previousCounter, lastActivity, messagesSent, messagesReceived)
    }

    constructor (secret: Key, local: Scalar, remote: PublicKey, maxSkip: nat, role: Role, now: nat)
      requires secret != ZeroKey
      ensures Valid() && (sending != null ==> fresh(sending)) && (receiving != null ==> fresh(receiving))
      ensures FromSharedSecret(secret, local, remote, maxSkip, role, now) == Ok(Model())
    {
      root := SessionRoot(secret);
      sending := null;
      receiving := null;
      dhLocal := Some(local);
      dhRemote := Some(remote);
      skipped := map[];
      this.maxSkip := maxSkip;
      previousCounter := 0;
      lastActivity := now;
      messagesSent := 0;
      messagesReceived := 0;
      new;
      var chain := new ChainKey(SessionChain(secret), now);
      if role.Initiator? {
        sending := chain;
      } else {
        receiving := chain;
      }
    }

    /** A deep copy: equal in value, sharing no object with the original. */
    constructor Clone(s: DoubleRatchetState)
      requires s.Valid()
      ensures Valid() && Model() == s.Model()
      ensures (sending != null ==> fresh(sending)) && (receiving != null ==> fresh(receiving))
    {
      root := s.root;
      sending := null;
      receiving := null;
      dhLocal := s.dhLocal;
      dhRemote := s.dhRemote;
      skipped := s.skipped;
      maxSkip := s.maxSkip;
      previousCounter := s.previousCounter;
      lastActivity := s.lastActivity;
      messagesSent := s.messagesSent;
      messagesReceived := s.messagesReceived;
      new;
      if s.sending != null {
        var c := new ChainKey.Clone(s.sending);
        sending := c;
      }
      if s.receiving != null {
        var c := new ChainKey.Clone(s.receiving);
        receiving := c;
      }
    }

    method AddSkippedKey(dh: PublicKey, number: nat, key: Key) returns (added: bool)
      modifies this`skipped
      ensures added <==> |old(skipped)| < maxSkip
      ensures skipped == if added then old(skipped)[KeyId(dh, number) := key] else old(skipped)
    {
      if |skipped| >= maxSkip {
        return false;
      }
      skipped := skipped[KeyId(dh, number) := key];
      added := true;
    }

    method SetLocalDh(secret: Scalar)
      modifies this`dhLocal
      ensures dhLocal == Some(secret)
    {
      dhLocal := Some(secret);
    }

    method SetRemoteDh(public: PublicKey)
      modifies this`dhRemote
      ensures dhRemote == Some(public)
    {
      dhRemote := Some(public);
    }

    method PerformDhRatchet(seed: Scalar, now: nat)
      requires Valid()
      modifies this
      ensures Valid() && Model() == Ratchet.PerformDhRatchet(old(Model()), seed, now)
      ensures receiving == old(receiving) && (sending == old(sending) || fresh(sending))
    {
      if dhRemote.Some? {
        var dh := DiffieHellman(seed, dhRemote.value);
        var chain := new ChainKey(RatchetChain(root, dh), now);
        root := RatchetRoot(root, dh);
        sending := chain;
      }
      SetLocalDh(seed);
    }

    /** The receiving half of a ratchet step: a root and a chain from the old local key. */
    method RatchetReceiving(remote: PublicKey, now: nat)
      requires Valid() && dhLocal.Some?
      modifies this`root, this`receiving
      ensures Valid() && fresh(receiving)
      ensures var dh := DiffieHellman(dhLocal.value, remote);
              root == RatchetRoot(old(root), dh) && receiving.Value() == NewChain(RatchetChain(old(root), dh), now)
    {
      var dh := DiffieHellman(dhLocal.value, remote);
      var chain := new ChainKey(RatchetChain(root, dh), now);
      root := RatchetRoot(root, dh);
      receiving := chain;
    }

    /**
      Fails exactly when the function does; the fields are then those of a discarded clone.
      The sending half does what `PerformDhRatchet` does with the key just set.
      */
    method DhRatchet(remote: PublicKey, seed: Scalar, now: nat) returns (r: Option<ProtocolError>)
      requires Valid()
      modifies this
      ensures match Ratchet.DhRatchet(old(Model()), remote, seed, now)
              case Err(error) => r == Some(error)
              case Ok(s) => r == None && Valid() && Model() == s
      ensures receiving == old(receiving) || fresh(receiving)
    {
      previousCounter := if sending != null then sending.index else 0;
      SetRemoteDh(remote);
      if dhLocal.None? {
        return Some(InvalidState);
      }
      RatchetReceiving(remote, now);
      PerformDhRatchet(seed, now);
      r := None;
    }

    /** One pass of the skip loop. */
    method SkipOne() returns (r: Option<ProtocolError>)
      requires Valid() && receiving != null
      modifies this`skipped, receiving
      ensures Valid()
      ensures match Draw(old(receiving.Value()))
              case None => r == Some(InvalidState)
              case Some(d) =>
                if dhRemote.None? then r == Some(InvalidState)
                else if |old(skipped)| >= maxSkip then r == Some(MaxSkippedMessagesExceeded)
                else
                  && r == None && receiving.Value() == d.chain
                  && skipped == old(skipped)[KeyId(dhRemote.value, d.chain.index - 1) := d.key]
    {
      var key := receiving.NextMessageKey();
      if key.None? || dhRemote.None? {
        return Some(InvalidState);
      }
      var added := AddSkippedKey(dhRemote.value, receiving.index - 1, key.value);
      if !added {
        return Some(MaxSkippedMessagesExceeded);
      }
      r := None;
    }

    method SkipMessageKeys(until: nat) returns (r: Option<ProtocolError>)
      requires Valid()
      modifies this`skipped, receiving
      ensures Valid()
      ensures match Ratchet.SkipMessageKeys(old(Model()), until)
              case Err(error) => r == Some(error)
              case Ok(s) => r == None && Model() == s
    {
      if receiving == null {
        return None;
      }
      if until > receiving.index + maxSkip {
        return Some(MaxSkippedMessagesExceeded);
      }
      while receiving.index < until
        invariant Model().receiving.Some? && SkipLoop(Model(), until) == SkipLoop(old(Model()), until)
        decreases until - receiving.index
      {
        var error := SkipOne();
        if error.Some? {
          return error;
        }
      }
      r := None;
    }

    /** Opens the box and, on success only, forgets the key. */
    method DecryptWithKey(key: Key, m: Message, ad: Bytes, now: nat) returns (r: Result<Bytes>)
      modifies this`skipped
      ensures Reading(Model(), r) == Ratchet.DecryptWithKey(old(Model()), key, m, ad, now)
    {
      r := Open(key, m, ad, now);
      if r.Ok? {
        skipped := skipped - {KeyId(m.header.dh, m.header.number)};
      }
    }

    /** The part of a trial that replaces chains. */
    method RatchetIfNeeded(h: Header, seed: Scalar, now: nat) returns (r: Option<ProtocolError>)
      requires Valid()
      modifies this, receiving
      ensures match Ratchet.RatchetIfNeeded(old(Model()), h, seed, now)
              case Err(error) => r == Some(error)
              case Ok(s) => r == None && Valid() && Model() == s
      ensures receiving == old(receiving) || fresh(receiving)
    {
      if dhRemote == Some(h.dh) {
        return None;
      }
      if sending != null {
        previousCounter := sending.index;
      }
      r := SkipMessageKeys(h.previous);
      if r.None? {
        r := DhRatchet(h.dh, seed, now);
      }
    }

    method DrawAt(number: nat) returns (r: Result<Key>)
      requires Valid()
      modifies receiving
      ensures Valid()
      ensures match Ratchet.DrawAt(old(Model()), number)
              case Err(error) => r == Err(error)
              case Ok(t) => r == Ok(t.key) && Model() == t.state
    {
      if receiving == null {
        return Err(InvalidState);
      }
      if number < receiving.index {
        return Err(ReplayAttackDetected);
      }
      var key := receiving.NextMessageKey();
      r := if key.Some? then Ok(key.value) else Err(InvalidState);
    }

    method Advance(h: Header, seed: Scalar, now: nat) returns (r: Result<Key>)
      requires Valid()
      modifies this, receiving
      ensures match Ratchet.Advance(old(Model()), h, seed, now)
              case Err(error) => r == Err(error)
              case Ok(t) => r == Ok(t.key) && Valid() && Model() == t.state
      ensures receiving == old(receiving) || fresh(receiving)
    {
      var error := RatchetIfNeeded(h, seed, now);
      if error.Some? {
        return Err(error.value);
      }
      error := SkipMessageKeys(h.number);
      if error.Some? {
        return Err(error.value);
      }
      r := DrawAt(h.number);
    }

    /** A whole delivery on the clone; after a failure its fields mean nothing. */
    method Trial(m: Message, ad: Bytes, seed: Scalar, now: nat) returns (r: Result<Bytes>)
      requires Valid() && KeyId(m.header.dh, m.header.number) !in skipped && HeaderCheck(m.header, now).None?
      modifies this, receiving
      ensures r == Ratchet.Decrypt(old(Model()), Wire(m), ad, seed, now).result
      ensures r.Ok? ==> Valid() && Model() == Ratchet.Decrypt(old(Model()), Wire(m), ad, seed, now).state
    {
      DecryptByTrial(Model(), m, ad, seed, now);
      var key := Advance(m.header, seed, now);
      if key.Err? {
        return Err(key.error);
      }
      r := DecryptWithKey(key.value, m, ad, now);
      if r.Ok? {
        lastActivity := now;
        messagesReceived := messagesReceived + 1;
      }
    }
  }

  lemma DecryptByTrial(s: State, m: Message, ad: Bytes, seed: Scalar, now: nat)
    requires KeyId(m.header.dh, m.header.number) !in s.skipped && HeaderCheck(m.header, now).None?
    ensures Ratchet.Decrypt(s, Wire(m), ad, seed, now) ==
              match Ratchet.Advance(s, m.header, seed, now)
              case Err(error) => Reading(s, Err(error))
              case Ok(Trial(t, key)) =>
                var x := Ratchet.DecryptWithKey(t, key, m, ad, now);
                if x.result.Ok?
                then Reading(x.state.(lastActivity := now, messagesReceived := x.state.messagesReceived + 1), x.result)
                else Reading(s, x.result)
  {
  }

  lemma RejectedUnchanged(s: State, w: Wire, ad: Bytes, seed: Scalar, now: nat)
    requires Ratchet.Decrypt(s, w, ad, seed, now).result.Err?
    ensures Ratchet.Decrypt(s, w, ad, seed, now).state == s
  {
  }

  // ---------------------------------------------------------------- session

  class DoubleRatchetSession {
    var state: DoubleRatchetState

    constructor (state: DoubleRatchetState)
      ensures this.state == state
    {
      this.state := state;
    }

    static method FromSharedSecret(secret: Key, local: Scalar, remote: PublicKey, maxSkip: nat, role: Role, now: nat)
      returns (r: Result<DoubleRatchetSession>)
      ensures match Ratchet.FromSharedSecret(secret, local, remote, maxSkip, role, now)
              case Err(error) => r == Err(error)
              case Ok(s) => r.Ok? && fresh(r.value) && r.value.state.Valid() && r.value.state.Model() == s
    {
      if secret == ZeroKey {
        return Err(InvalidArgument);
      }
      var state := new DoubleRatchetState(secret, local, remote, maxSkip, role, now);
      var session := new DoubleRatchetSession(state);
      r := Ok(session);
    }

    /** Draws the next key of a ready sending chain, builds the header and seals. */
    method SealNext(plaintext: Bytes, ad: Bytes, now: nat) returns (r: Result<Message>)
      requires state.Valid() && state.sending != null && state.dhLocal.Some?
      modifies state, state.sending
      ensures state == old(state) && state.Valid()
      ensures var s := old(state.Model());
              if s.sending.value.index >= s.sending.value.reservedUntil
              then r == Err(NonceReservationRequired) && state.Model() == s
              else
                match Draw(s.sending.value)
                case None => r == Err(InvalidState) && state.Model() == s
                case Some(Drawn(key, chain)) =>
                  var s2 := s.(sending := Some(chain));
                  var header := Header(PublicOf(s.dhLocal.value), chain.index - 1, s.previousCounter, now);
                  match HeaderCheck(header, now)
                  case Some(error) => r == Err(error) && state.Model() == s2
                  case None =>
                    && r == Seal(key, plaintext, ad, header, now)
                    && state.Model() == if r.Ok? then s2.(lastActivity := now, messagesSent := s2.messagesSent + 1) else s2
    {
      if state.sending.index >= state.sending.reservedUntil {
        return Err(NonceReservationRequired);
      }
      var key := state.sending.NextMessageKey();
      if key.None? {
        return Err(InvalidState);
      }
      var header := Header(PublicOf(state.dhLocal.value), state.sending.index - 1, state.previousCounter, now);
      var error := HeaderCheck(header, now);
      if error.Some? {
        return Err(error.value);
      }
      r := Seal(key.value, plaintext, ad, header, now);
      if r.Ok? {
        state.lastActivity := now;
        state.messagesSent := state.messagesSent + 1;
      }
    }

    method Encrypt(plaintext: Bytes, ad: Bytes, seed: Scalar, now: nat) returns (r: Result<Message>)
      requires state.Valid()
      modifies state, state.sending
      ensures state == old(state) && state.Valid()
      ensures Sending(state.Model(), r) == Ratchet.Encrypt(old(state.Model()), plaintext, ad, seed, now)
    {
      if |plaintext| > MAX_PLAINTEXT {
        return Err(InvalidMessage);
      }
      if |ad| > MAX_AD {
        return Err(InvalidArgument);
      }
      var rotate := true;
      if state.sending != null {
        rotate := state.sending.CheckRotation(now);
      }
      if rotate {
        state.PerformDhRatchet(seed, now);
      }
      if state.dhLocal.None? || state.sending == null {
        return Err(InvalidState);
      }
      r := SealNext(plaintext, ad, now);
    }

    /** Tries a clone; only a clone whose box opened replaces the state. */
    method TryClone(m: Message, ad: Bytes, seed: Scalar, now: nat) returns (r: Result<Bytes>)
      requires state.Valid() && KeyId(m.header.dh, m.header.number) !in state.skipped
      requires HeaderCheck(m.header, now).None?
      modifies this
      ensures state.Valid() && (r.Err? ==> state == old(state))
      ensures Reading(state.Model(), r) == Ratchet.Decrypt(old(state.Model()), Wire(m), ad, seed, now)
    {
      var clone := new DoubleRatchetState.Clone(state);
      r := clone.Trial(m, ad, seed, now);
      if r.Ok? {
        state := clone;
      } else {
        RejectedUnchanged(state.Model(), Wire(m), ad, seed, now);
      }
    }

    method Decrypt(w: Wire, ad: Bytes, seed: Scalar, now: nat) returns (r: Result<Bytes>)
      requires state.Valid()
      modifies this, state
      ensures state.Valid()
      ensures Reading(state.Model(), r) == Ratchet.Decrypt(old(state.Model()), w, ad, seed, now)
      ensures r.Err? ==> state == old(state) && state.Model() == old(state.Model())
    {
      if w.Truncated? {
        return Err(InvalidMessage);
      }
      var m := w.message;
      var error := HeaderCheck(m.header, now);
      if error.Some? {
        return Err(error.value);
      }
      var id := KeyId(m.header.dh, m.header.number);
      if id in state.skipped {
        r := state.DecryptWithKey(state.skipped[id], m, ad, now);
        return;
      }
      r := TryClone(m, ad, seed, now);
    }
  }
}
