/**
  The Double Ratchet session of core/src/ratchet as functions from state to state. The
  clock reading and the freshly drawn X25519 scalar of a call are its arguments `now`
  and `seed`. Module `RatchetSession` holds the classes that update fields in place and
  proves each method equal to the function of the same name here.
  */
module Ratchet {
  import opened Wrappers
  import opened Crypto

  const MAX_CHAIN_MESSAGES: nat := 4000
  const MAX_CHAIN_AGE: nat := 86400
  const MAX_MESSAGE_NUMBER: nat := 1_000_000_000_000
  const MAX_PLAINTEXT: nat := 10 * 1024 * 1024
  const HEADER_SKEW: nat := 300
  const SEAL_SKEW: nat := 30

  // ---------------------------------------------------------------- data

  datatype Chain = Chain(key: Key, index: nat, createdAt: nat, maxMessages: nat, reservedUntil: nat)

  function NewChain(key: Key, now: nat): Chain {
    Chain(key, 0, now, MAX_CHAIN_MESSAGES, MAX_CHAIN_MESSAGES)
  }

  /** The message key handed out by `next_message_key` and the chain it leaves behind. */
  datatype Drawn = Drawn(key: Key, chain: Chain)

  function Draw(c: Chain): Option<Drawn> {
    if c.index >= c.maxMessages then None
    else Some(Drawn(MessageKey(c.key), c.(key := NextChain(c.key), index := c.index + 1)))
  }

  predicate NeedsRotation(c: Chain, now: nat) {
    c.index >= c.maxMessages || now > c.createdAt + MAX_CHAIN_AGE
  }

  /** The name a skipped key is filed under. */
  datatype KeyId = KeyId(dh: PublicKey, number: nat)

  datatype State = State(
    root: Key,
    sending: Option<Chain>,
    receiving: Option<Chain>,
    dhLocal: Option<Scalar>,
    dhRemote: Option<PublicKey>,
    skipped: map<KeyId, Key>,
    maxSkip: nat,
    previousCounter: nat,
    lastActivity: nat,
    messagesSent: nat,
    messagesReceived: nat)

  datatype Header = Header(dh: PublicKey, number: nat, previous: nat, timestamp: nat)

  /** Associated data of the AEAD: the caller's, the ratchet header, and the inner header. */
  datatype Bound = Bound(ad: Bytes, header: Header, inner: Inner)

  datatype Inner = Inner(number: nat, timestamp: nat, padding: nat)

  /** An AEAD box opens under the key and associated data it was sealed with, and no other. */
  datatype Box = Box(key: Key, bound: Bound, plaintext: Bytes)

  datatype Message = Message(header: Header, inner: Inner, box: Box)

  /** `Truncated` is a byte string too short to hold a header and a ciphertext. */
  datatype Wire = Truncated | Wire(message: Message)

  /** The state and the result a call leaves. */
  datatype Sending = Sending(state: State, result: Result<Message>)
  datatype Reading = Reading(state: State, result: Result<Bytes>)

  /** The trial state with the message key it drew. */
  datatype Trial = Trial(state: State, key: Key)

  datatype Role = Initiator | Responder

  // ---------------------------------------------------------------- construction

  function FromSharedSecret(secret: Key, local: Scalar, remote: PublicKey, maxSkip: nat, role: Role, now: nat)
    : Result<State>
  {
    if secret == ZeroKey then Err(InvalidArgument)
    else
      var chain := NewChain(SessionChain(secret), now);
      Ok(State(SessionRoot(secret),
               if role.Initiator? then Some(chain) else None,
               if role.Initiator? then None else Some(chain),
               Some(local), Some(remote), map[], maxSkip, 0, now, 0, 0))
  }

  // ---------------------------------------------------------------- sending

  /** A new local pair; with a known peer key also a new root and sending chain. */
  function PerformDhRatchet(s: State, seed: Scalar, now: nat): State {
    match s.dhRemote
    case None => s.(dhLocal := Some(seed))
    case Some(remote) =>
      var dh := DiffieHellman(seed, remote);
      s.(root := RatchetRoot(s.root, dh),
         sending := Some(NewChain(RatchetChain(s.root, dh), now)),
         dhLocal := Some(seed))
  }

  function HeaderCheck(h: Header, now: nat): Option<ProtocolError> {
    if h.dh == ZeroPoint then Some(InvalidMessage)
    else if h.number > MAX_MESSAGE_NUMBER then Some(InvalidMessage)
    else if h.timestamp > now + HEADER_SKEW then Some(InvalidMessage)
    else if now > h.timestamp + MAX_AGE then Some(MessageTooOld)
    else None
  }

  /** `Encryptor::encrypt_message` under a fresh encryptor with counter 0. */
  function Seal(key: Key, plaintext: Bytes, ad: Bytes, header: Header, now: nat): Result<Message> {
    if |plaintext| == 0 || |plaintext| > MAX_PLAINTEXT then Err(InvalidCiphertext)
    else if |ad| + HEADER_SIZE > MAX_AD then Err(InvalidCiphertext)
    else
      var inner := Inner(0, now, 0);
      Ok(Message(header, inner, Box(key, Bound(ad, header, inner), plaintext)))
  }

  function RatchetForSend(s: State, seed: Scalar, now: nat): State {
    if s.sending.None? || NeedsRotation(s.sending.value, now) then PerformDhRatchet(s, seed, now) else s
  }

  function Encrypt(s: State, plaintext: Bytes, ad: Bytes, seed: Scalar, now: nat): Sending {
    if |plaintext| > MAX_PLAINTEXT then Sending(s, Err(InvalidMessage))
    else if |ad| > MAX_AD then Sending(s, Err(InvalidArgument))
    else
      var s1 := RatchetForSend(s, seed, now);
      if s1.dhLocal.None? || s1.sending.None? then Sending(s1, Err(InvalidState))
      else if s1.sending.value.index >= s1.sending.value.reservedUntil then Sending(s1, Err(NonceReservationRequired))
      else
        match Draw(s1.sending.value)
        case None => Sending(s1, Err(InvalidState))
        case Some(Drawn(key, chain)) =>
          var s2 := s1.(sending := Some(chain));
          var header := Header(PublicOf(s1.dhLocal.value), chain.index - 1, s1.previousCounter, now);
          match HeaderCheck(header, now)
          case Some(error) => Sending(s2, Err(error))
          case None =>
            match Seal(key, plaintext, ad, header, now)
            case Err(error) => Sending(s2, Err(error))
            case Ok(message) =>
              Sending(s2.(lastActivity := now, messagesSent := s2.messagesSent + 1), Ok(message))
  }

  // ---------------------------------------------------------------- receiving

  /** `Encryptor::decrypt_message` under a fresh encryptor: clock checks, then the AEAD. */
  function Open(key: Key, m: Message, ad: Bytes, now: nat): Result<Bytes> {
    if m.inner.timestamp > now + SEAL_SKEW then Err(InvalidCiphertext)
    else if now > m.inner.timestamp + MAX_AGE then Err(InvalidCiphertext)
    else if m.box.key == key && m.box.bound == Bound(ad, m.header, m.inner) then Ok(m.box.plaintext)
    else Err(AuthenticationFailed)
  }

  /** The trial state is kept only when the box opens; the used key leaves the store. */
  function DecryptWithKey(s: State, key: Key, m: Message, ad: Bytes, now: nat): Reading {
    match Open(key, m, ad, now)
    case Err(error) => Reading(s, Err(error))
    case Ok(plaintext) => Reading(s.(skipped := s.skipped - {KeyId(m.header.dh, m.header.number)}), Ok(plaintext))
  }

  /** One pass of the skip loop per unread number below `until`. */
  function SkipLoop(s: State, until: nat): Result<State>
    requires s.receiving.Some?
    decreases until - s.receiving.value.index
  {
    if s.receiving.value.index >= until then Ok(s)
    else
      match Draw(s.receiving.value)
      case None => Err(InvalidState)
      case Some(Drawn(key, chain)) =>
        if s.dhRemote.None? then Err(InvalidState)
        else if |s.skipped| >= s.maxSkip then Err(MaxSkippedMessagesExceeded)
        else
          SkipLoop(s.(receiving := Some(chain),
                      skipped := s.skipped[KeyId(s.dhRemote.value, chain.index - 1) := key]), until)
  }

  function SkipMessageKeys(s: State, until: nat): Result<State> {
    if s.receiving.None? then Ok(s)
    else if until > s.receiving.value.index + s.maxSkip then Err(MaxSkippedMessagesExceeded)
    else SkipLoop(s, until)
  }

  function SendingIndex(s: State): nat { if s.sending.Some? then s.sending.value.index else 0 }

  /** Receiving chain from the old local key, then a new local key and sending chain. */
  function DhRatchet(s: State, remote: PublicKey, seed: Scalar, now: nat): Result<State> {
    if s.dhLocal.None? then Err(InvalidState)
    else
      var dh := DiffieHellman(s.dhLocal.value, remote);
      var dhSend := DiffieHellman(seed, remote);
      var middle := RatchetRoot(s.root, dh);
      Ok(s.(root := RatchetRoot(middle, dhSend),
            sending := Some(NewChain(RatchetChain(middle, dhSend), now)),
            receiving := Some(NewChain(RatchetChain(s.root, dh), now)),
            dhLocal := Some(seed),
            dhRemote := Some(remote),
            previousCounter := SendingIndex(s)))
  }

  function RatchetIfNeeded(s: State, h: Header, seed: Scalar, now: nat): Result<State> {
    if s.dhRemote == Some(h.dh) then Ok(s)
    else
      var s0 := if s.sending.Some? then s.(previousCounter := s.sending.value.index) else s;
      match SkipMessageKeys(s0, h.previous)
      case Err(error) => Err(error)
      case Ok(s1) => DhRatchet(s1, h.dh, seed, now)
  }

  /** The next key of the receiving chain, which must not be past `number`. */
  function DrawAt(s: State, number: nat): Result<Trial> {
    if s.receiving.None? then Err(InvalidState)
    else if number < s.receiving.value.index then Err(ReplayAttackDetected)
    else
      match Draw(s.receiving.value)
      case None => Err(InvalidState)
      case Some(Drawn(key, chain)) => Ok(Trial(s.(receiving := Some(chain)), key))
  }

  /** The trial on the cloned state: ratchet if the peer key is new, skip, draw the key. */
  function Advance(s: State, h: Header, seed: Scalar, now: nat): Result<Trial> {
    match RatchetIfNeeded(s, h, seed, now)
    case Err(error) => Err(error)
    case Ok(s1) =>
      match SkipMessageKeys(s1, h.number)
      case Err(error) => Err(error)
      case Ok(s2) => DrawAt(s2, h.number)
  }

  function Decrypt(s: State, w: Wire, ad: Bytes, seed: Scalar, now: nat): Reading {
    if w.Truncated? then Reading(s, Err(InvalidMessage))
    else
      var m := w.message;
      match HeaderCheck(m.header, now)
      case Some(error) => Reading(s, Err(error))
      case None =>
        var id := KeyId(m.header.dh, m.header.number);
        if id in s.skipped then DecryptWithKey(s, s.skipped[id], m, ad, now)
        else
          match Advance(s, m.header, seed, now)
          case Err(error) => Reading(s, Err(error))
          case Ok(Trial(trial, key)) =>
            var Reading(s1, r) := DecryptWithKey(trial, key, m, ad, now);
            if r.Ok? then Reading(s1.(lastActivity := now, messagesReceived := s1.messagesReceived + 1), r)
            else Reading(s, r)
  }
}
