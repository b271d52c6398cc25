/**
  The four-message peer-to-peer handshake as steps over messages: Hello, Bundle, Envelope,
  Ok. Payloads are sealed under a key derived from the two ephemerals. A completed
  handshake hands both sides a ratchet session.
  */
module P2pHandshake {
  import opened Wrappers
  import opened Crypto
  import opened Ratchet
  import opened RatchetLedger
  import opened RatchetDelivery
  import opened RatchetProtocol
  import opened RatchetTheorems
  import opened RatchetSchedule
  import opened Secrecy
  import X3dh

  const PROTOCOL_VERSION: nat := 4

  datatype P2pError = UnexpectedMessage | HandshakeFailed | CryptoFailed

  datatype Outcome<T> = Done(value: T) | Failed(error: P2pError)

  /** `signing` names the Ed25519 key; the X25519 secret may be unavailable. */
  datatype Identity = Identity(signing: nat, secret: Option<Scalar>, public: PublicKey)

  /** An Ed25519 signature: who signed what. */
  datatype Signature = Signature(signer: nat, over: Signed)

  datatype Signed =
    | SignedPrekey(spk: PublicKey)
    | SignedKem(pq: nat)
    | SignedDevice(identity: nat, device: nat)
    | SignedBundle(body: BundleBody)

  datatype BundleBody = BundleBody(identity: nat, spk: PublicKey, signature: Signature, opk: Option<PublicKey>, created: nat,
                                   expiration: nat, device: nat, root: nat, deviceSignature: Signature,
                                   pq: Option<nat>, pqSignature: Option<Signature>)

  datatype PreKeyBundle = PreKeyBundle(body: BundleBody, signature: Signature)

  /** The all-zero Ed25519 key. */
  const NO_IDENTITY: nat := 0

  /** The bundle's own checks: every signature is by the identity, or the root, that the bundle itself names. */
  predicate Validates(bundle: PreKeyBundle, now: nat) {
    var b := bundle.body;
    && b.identity != NO_IDENTITY && b.spk != ZeroPoint
    && b.signature == Signature(b.identity, SignedPrekey(b.spk))
    && bundle.signature == Signature(b.identity, SignedBundle(b))
    && b.deviceSignature == Signature(b.root, SignedDevice(b.identity, b.device))
    && (b.pq.Some? ==> b.pqSignature == Some(Signature(b.identity, SignedKem(b.pq.value))))
    && now <= b.expiration
  }

  datatype StealthBundle = StealthBundle(signing: nat, public: PublicKey, device: nat, bundle: PreKeyBundle)

  datatype StealthEnvelope = StealthEnvelope(signing: nat, public: PublicKey, device: nat, spkUsed: PublicKey,
                                             opkUsed: Option<PublicKey>, ciphertext: Option<KemCiphertext>)

  datatype Payload = BundlePayload(bundle: StealthBundle) | EnvelopePayload(envelope: StealthEnvelope) | OkPayload

  /** An AEAD box; the label used as associated data is fixed by the kind of payload. */
  datatype Sealed = Sealed(key: Key, payload: Payload)

  datatype P2pMsg =
    | Hello(version: nat, ephemeral: PublicKey, device: nat)
    | Bundle(ephemeral: PublicKey, box: Sealed)
    | Envelope(box: Sealed)
    | OkMsg(box: Sealed)
    | ErrorMsg

  datatype Alice = Alice(identity: Identity, device: nat, expected: Option<nat>, ephemeral: Scalar, coins: nat, maxSkip: nat)

  datatype Bob = Bob(identity: Identity, device: nat, bundle: PreKeyBundle, spk: Scalar, opk: Option<Scalar>,
                     pqSecret: Option<nat>, ephemeral: Scalar, maxSkip: nat)

  // ---------------------------------------------------------------- shared computations

  function DeriveHandshakeKey(ours: Scalar, theirs: PublicKey): Key { HandshakeKey(DiffieHellman(ours, theirs)) }

  function BuildTranscript(initiator: nat, ephemeral: PublicKey, responder: nat, spk: PublicKey, opk: Option<PublicKey>,
                           initiatorDevice: nat, responderDevice: nat): Digest
  {
    Blake3([IdentityField(initiator), KeyField(ephemeral), IdentityField(responder), KeyField(spk)]
           + (if opk.Some? then [KeyField(opk.value)] else [])
           + [DeviceField(initiatorDevice), DeviceField(responderDevice)])
  }

  // ---------------------------------------------------------------- steps

  /** A party between two messages, with the message it sends. */
  datatype Reply<T> = Reply(waiting: T, message: P2pMsg)

  datatype BobWaiting = BobWaiting(key: Key, ephemeral: PublicKey, device: nat)
  datatype AliceWaiting = AliceWaiting(key: Key, secret: Key, transcript: Digest, spk: PublicKey, peer: nat)

  /** A finished side: its session and what it was derived from. */
  datatype Finished = Finished(session: State, secret: Key, transcript: Digest, peer: nat)

  function AliceHello(a: Alice): P2pMsg { Hello(PROTOCOL_VERSION, PublicOf(a.ephemeral), a.device) }

  function BobOnHello(b: Bob, m: P2pMsg): Outcome<Reply<BobWaiting>> {
    if !m.Hello? then Failed(UnexpectedMessage)
    else if m.version != PROTOCOL_VERSION then Failed(HandshakeFailed)
    else if m.ephemeral == ZeroPoint then Failed(HandshakeFailed)
    else
      var key := DeriveHandshakeKey(b.ephemeral, m.ephemeral);
      var payload := BundlePayload(StealthBundle(b.identity.signing, b.identity.public, b.device, b.bundle));
      Done(Reply(BobWaiting(key, m.ephemeral, m.device), Bundle(PublicOf(b.ephemeral), Sealed(key, payload))))
  }

  function AliceOnBundle(a: Alice, m: P2pMsg, now: nat): Outcome<Reply<AliceWaiting>> {
    if m.ErrorMsg? then Failed(HandshakeFailed)
    else if !m.Bundle? then Failed(UnexpectedMessage)
    else if m.ephemeral == ZeroPoint then Failed(HandshakeFailed)
    else
      var key := DeriveHandshakeKey(a.ephemeral, m.ephemeral);
      if m.box.key != key || !m.box.payload.BundlePayload? then Failed(HandshakeFailed)
      else
        var sb := m.box.payload.bundle;
        if !Validates(sb.bundle, now) then Failed(HandshakeFailed)
        else if a.expected != Some(sb.signing) then Failed(HandshakeFailed)
        else if a.identity.secret.None? then Failed(CryptoFailed)
        else
          var transcript := BuildTranscript(a.identity.signing, PublicOf(a.ephemeral), sb.signing, sb.bundle.body.spk,
                                            sb.bundle.body.opk, a.device, sb.device);
          var x := X3dh.Initiator(a.identity.secret.value, a.ephemeral, sb.public, sb.bundle.body.spk, sb.bundle.body.opk,
                                  sb.bundle.body.pq, a.coins, a.device, sb.device, transcript);
          var envelope := StealthEnvelope(a.identity.signing, a.identity.public, a.device, sb.bundle.body.spk, sb.bundle.body.opk,
                                          x.ciphertext);
          Done(Reply(AliceWaiting(key, x.secret, transcript, sb.bundle.body.spk, sb.signing),
                     Envelope(Sealed(key, EnvelopePayload(envelope)))))
  }

  function BobOnEnvelope(b: Bob, w: BobWaiting, m: P2pMsg, now: nat): Outcome<Reply<Finished>> {
    if m.ErrorMsg? then Failed(HandshakeFailed)
    else if !m.Envelope? then Failed(UnexpectedMessage)
    else if m.box.key != w.key || !m.box.payload.EnvelopePayload? then Failed(HandshakeFailed)
    else if b.identity.secret.None? then Failed(CryptoFailed)
    else
      var e := m.box.payload.envelope;
      var transcript := BuildTranscript(e.signing, w.ephemeral, b.identity.signing, b.bundle.body.spk, b.bundle.body.opk,
                                        w.device, b.device);
      var secret := X3dh.Responder(b.identity.secret.value, b.spk, b.opk, e.public, w.ephemeral, b.pqSecret,
                                   e.ciphertext, b.device, w.device, transcript);
      match FromSharedSecret(secret, b.spk, w.ephemeral, b.maxSkip, Responder, now)
      case Err(_) => Failed(CryptoFailed)
      case Ok(session) =>
        Done(Reply(Finished(session, secret, transcript, e.signing), OkMsg(Sealed(w.key, OkPayload))))
  }

  function AliceOnOk(a: Alice, w: AliceWaiting, m: P2pMsg, now: nat): Outcome<Finished> {
    if m.ErrorMsg? then Failed(HandshakeFailed)
    else if !m.OkMsg? then Failed(UnexpectedMessage)
    else if m.box.key != w.key || !m.box.payload.OkPayload? then Failed(HandshakeFailed)
    else
      match FromSharedSecret(w.secret, a.ephemeral, w.spk, a.maxSkip, Initiator, now)
      case Err(_) => Failed(CryptoFailed)
      case Ok(session) => Done(Finished(session, w.secret, w.transcript, w.peer))
  }

  // ---------------------------------------------------------------- the untampered run

  datatype Joint = Joint(alice: Finished, bob: Finished)

  /** All four messages arrive as sent. */
  function Run(a: Alice, b: Bob, checked: nat, nowA: nat, nowB: nat): Outcome<Joint> {
    match BobOnHello(b, AliceHello(a))
    case Failed(error) => Failed(error)
    case Done(Reply(bobWaiting, bundle)) =>
      match AliceOnBundle(a, bundle, checked)
      case Failed(error) => Failed(error)
      case Done(Reply(aliceWaiting, envelope)) =>
        match BobOnEnvelope(b, bobWaiting, envelope, nowB)
        case Failed(error) => Failed(error)
        case Done(Reply(bob, ok)) =>
          match AliceOnOk(a, aliceWaiting, ok, nowA)
          case Failed(error) => Failed(error)
          case Done(alice) => Done(Joint(alice, bob))
  }

  /** The handshake completes exactly when Alice expects Bob and all inputs are usable. */
  predicate CanComplete(a: Alice, b: Bob, checked: nat) {
    && a.expected == Some(b.identity.signing) && Validates(b.bundle, checked)
    && a.identity.secret.Some? && b.identity.secret.Some?
  }

  lemma CompletesExactly(a: Alice, b: Bob, checked: nat, nowA: nat, nowB: nat)
    ensures Run(a, b, checked, nowA, nowB).Done? <==> CanComplete(a, b, checked)
    ensures Run(a, b, checked, nowA, nowB).Done? ==>
              var j := Run(a, b, checked, nowA, nowB).value;
              j.alice.peer == b.identity.signing && j.bob.peer == a.identity.signing
  {
    X3dh.DhCommutes(a.ephemeral, b.ephemeral);
  }

  /** Published keys belong to the secrets held, and Bob holds the secrets of his bundle. */
  predicate KeysHeld(a: Alice, b: Bob) {
    && a.identity.secret.Some? && a.identity.public == PublicOf(a.identity.secret.value)
    && b.identity.secret.Some? && b.identity.public == PublicOf(b.identity.secret.value)
    && b.bundle.body.spk == PublicOf(b.spk) && b.bundle.body.opk == X3dh.PublicOfOption(b.opk)
    && (b.bundle.body.pq.Some? ==> b.pqSecret == b.bundle.body.pq)
  }

  lemma RunSecrets(a: Alice, b: Bob, checked: nat, nowA: nat, nowB: nat)
    requires Run(a, b, checked, nowA, nowB).Done?
    ensures var j := Run(a, b, checked, nowA, nowB).value;
            var ext := BuildTranscript(a.identity.signing, PublicOf(a.ephemeral), b.identity.signing, b.bundle.body.spk,
                                       b.bundle.body.opk, a.device, b.device);
            var x := X3dh.Initiator(a.identity.secret.value, a.ephemeral, b.identity.public, b.bundle.body.spk, b.bundle.body.opk,
                                    b.bundle.body.pq, a.coins, a.device, b.device, ext);
            && j.alice.transcript == ext && j.bob.transcript == ext
            && j.alice.secret == x.secret
            && j.bob.secret == X3dh.Responder(b.identity.secret.value, b.spk, b.opk, a.identity.public, PublicOf(a.ephemeral),
                                              b.pqSecret, x.ciphertext, b.device, a.device, ext)
  {
    CompletesExactly(a, b, checked, nowA, nowB);
    X3dh.DhCommutes(a.ephemeral, b.ephemeral);
  }

  /**
    In every completed untampered handshake, for all device ids, with or without a one-time
    prekey or KEM key, both sides have the same transcript; they have the same secret if
    and only if Bob holds the secrets of what he published.
    */
  lemma AgreementExact(a: Alice, b: Bob, checked: nat, nowA: nat, nowB: nat)
    requires Run(a, b, checked, nowA, nowB).Done?
    ensures var j := Run(a, b, checked, nowA, nowB).value;
            && j.alice.transcript == j.bob.transcript
            && (j.alice.secret == j.bob.secret <==> KeysHeld(a, b))
  {
    CompletesExactly(a, b, checked, nowA, nowB);
    RunSecrets(a, b, checked, nowA, nowB);
    var ext := Run(a, b, checked, nowA, nowB).value.alice.transcript;
    var c := if b.bundle.body.pq.Some? then Some(KemCiphertext(b.bundle.body.pq.value, a.coins)) else None;
    X3dh.SecretsAgreeExactly(a.identity.secret.value, a.ephemeral, b.identity.public, b.bundle.body.spk, b.bundle.body.opk,
                             b.bundle.body.pq, a.coins, a.device, b.device, ext,
                             b.identity.secret.value, b.spk, b.opk, a.identity.public, PublicOf(a.ephemeral),
                             b.pqSecret, c, b.device, a.device, ext);
  }

  /** A bundle that advertises a KEM key whose secret Bob was not given: both sides finish, with different secrets. */
  lemma MissingKemKey(a: Alice, b: Bob, checked: nat, nowA: nat, nowB: nat)
    requires CanComplete(a, b, checked) && b.bundle.body.pq.Some? && b.pqSecret.None?
    ensures Run(a, b, checked, nowA, nowB).Done?
    ensures Run(a, b, checked, nowA, nowB).value.alice.secret != Run(a, b, checked, nowA, nowB).value.bob.secret
  {
    CompletesExactly(a, b, checked, nowA, nowB);
    AgreementExact(a, b, checked, nowA, nowB);
  }

  // ---------------------------------------------------------------- any network

  lemma OuterInjective(a: nat, e: PublicKey, b: nat, s: PublicKey, o: Option<PublicKey>, da: nat, db: nat,
                       a': nat, e': PublicKey, b': nat, s': PublicKey, o': Option<PublicKey>, da': nat, db': nat)
    requires BuildTranscript(a, e, b, s, o, da, db) == BuildTranscript(a', e', b', s', o', da', db')
    ensures a == a' && e == e' && b == b' && s == s' && da == da' && db == db'
  {
    var t, t' := BuildTranscript(a, e, b, s, o, da, db).fields, BuildTranscript(a', e', b', s', o', da', db').fields;
    assert t[0] == t'[0] && t[1] == t'[1] && t[2] == t'[2] && t[3] == t'[3];
    assert t[|t| - 2] == DeviceField(da) && t[|t| - 1] == DeviceField(db);
    assert t'[|t'| - 2] == DeviceField(da') && t'[|t'| - 1] == DeviceField(db');
  }

  /**
    Whatever messages the network put in place of the sent ones: if both sides came to one
    secret, each has the other's true identity, device id, ephemeral and signed prekey.
    */
  lemma OneSecretOneView(a: Alice, b: Bob, hello: P2pMsg, bundle: P2pMsg, envelope: P2pMsg,
                         checked: nat, now: nat)
    requires BobOnHello(b, hello).Done? && AliceOnBundle(a, bundle, checked).Done?
    requires BobOnEnvelope(b, BobOnHello(b, hello).value.waiting, envelope, now).Done?
    requires AliceOnBundle(a, bundle, checked).value.waiting.secret
             == BobOnEnvelope(b, BobOnHello(b, hello).value.waiting, envelope, now).value.waiting.secret
    ensures var alice := AliceOnBundle(a, bundle, checked).value.waiting;
            var bob := BobOnEnvelope(b, BobOnHello(b, hello).value.waiting, envelope, now).value.waiting;
            && alice.peer == b.identity.signing && bob.peer == a.identity.signing
            && hello.ephemeral == PublicOf(a.ephemeral) && hello.device == a.device
            && bundle.box.payload.bundle.device == b.device && alice.spk == b.bundle.body.spk == PublicOf(b.spk)
            && alice.transcript == bob.transcript
  {
    var sb := bundle.box.payload.bundle;
    var e := envelope.box.payload.envelope;
    var ext := AliceOnBundle(a, bundle, checked).value.waiting.transcript;
    var ext' := BobOnEnvelope(b, BobOnHello(b, hello).value.waiting, envelope, now).value.waiting.transcript;
    X3dh.SecretsAgreeExactly(a.identity.secret.value, a.ephemeral, sb.public, sb.bundle.body.spk, sb.bundle.body.opk,
                             sb.bundle.body.pq, a.coins, a.device, sb.device, ext,
                             b.identity.secret.value, b.spk, b.opk, e.public, hello.ephemeral,
                             b.pqSecret, e.ciphertext, b.device, hello.device, ext');
    OuterInjective(a.identity.signing, PublicOf(a.ephemeral), sb.signing, sb.bundle.body.spk, sb.bundle.body.opk, a.device, sb.device,
                   e.signing, hello.ephemeral, b.identity.signing, b.bundle.body.spk, b.bundle.body.opk, hello.device, b.device);
  }

  lemma OuterBytesExactly(enc: Field -> Bytes,
                          a: nat, e: PublicKey, b: nat, s: PublicKey, o: Option<PublicKey>, da: nat, db: nat,
                          a': nat, e': PublicKey, b': nat, s': PublicKey, o': Option<PublicKey>, da': nat, db': nat)
    requires var t, t' := BuildTranscript(a, e, b, s, o, da, db).fields, BuildTranscript(a', e', b', s', o', da', db').fields;
             X3dh.Sized(enc, t) && X3dh.Sized(enc, t') && X3dh.TellsApart(enc, t, t')
    ensures var t, t' := BuildTranscript(a, e, b, s, o, da, db), BuildTranscript(a', e', b', s', o', da', db');
            X3dh.Absorbed(enc, t.fields) == X3dh.Absorbed(enc, t'.fields) <==> t == t'
  {
    X3dh.BytesDetermine(enc, BuildTranscript(a, e, b, s, o, da, db).fields, BuildTranscript(a', e', b', s', o', da', db').fields);
  }

  lemma OuterLayout(enc: Field -> Bytes, a: nat, e: PublicKey, b: nat, s: PublicKey, o: Option<PublicKey>, da: nat, db: nat)
    ensures X3dh.Absorbed(enc, BuildTranscript(a, e, b, s, o, da, db).fields) ==
              enc(IdentityField(a)) + enc(KeyField(e)) + enc(IdentityField(b)) + enc(KeyField(s))
              + (if o.Some? then enc(KeyField(o.value)) else []) + enc(DeviceField(da)) + enc(DeviceField(db))
  {
    X3dh.Layout(enc, IdentityField(a), KeyField(e), IdentityField(b), KeyField(s), o, DeviceField(da), DeviceField(db));
  }

  // ---------------------------------------------------------------- which messages are accepted

  /** Bob goes on exactly from a Hello of version 4 with a usable ephemeral. */
  lemma HelloAcceptedExactly(b: Bob, m: P2pMsg)
    ensures BobOnHello(b, m).Done? <==> m.Hello? && m.version == 4 && m.ephemeral.Point?
  {
  }

  /** Bob finishes exactly on an envelope sealed under the handshake key, if he has his identity secret. */
  lemma EnvelopeAcceptedExactly(b: Bob, w: BobWaiting, m: P2pMsg, now: nat)
    ensures BobOnEnvelope(b, w, m, now).Done? <==>
              m.Envelope? && m.box.key == w.key && m.box.payload.EnvelopePayload? && b.identity.secret.Some?
  {
  }

  /** Alice finishes exactly on the confirmation under the same key. */
  lemma OkAcceptedExactly(a: Alice, w: AliceWaiting, m: P2pMsg, now: nat)
    requires w.secret != ZeroKey
    ensures AliceOnOk(a, w, m, now).Done? <==> m.OkMsg? && m.box.key == w.key && m.box.payload.OkPayload?
  {
  }


  /**
    A bundle that arrives under the right key is accepted if and only if it names the pinned
    peer, has not expired when it is checked, has no zero key, and carries the signatures of
    its own identity on prekey, KEM key and bundle and of its root on the device.
    */
  lemma BundleAcceptedExactly(a: Alice, ephemeral: Scalar, sb: StealthBundle, checked: nat)
    requires a.identity.secret.Some?
    ensures var b := sb.bundle.body;
            var m := Bundle(PublicOf(ephemeral), Sealed(DeriveHandshakeKey(ephemeral, PublicOf(a.ephemeral)), BundlePayload(sb)));
            AliceOnBundle(a, m, checked).Done? <==>
              && a.expected == Some(sb.signing)
              && checked <= b.expiration
              && b.identity != 0 && b.spk != ZeroPoint
              && b.deviceSignature.signer == b.root && b.deviceSignature.over == SignedDevice(b.identity, b.device)
              && b.signature.signer == b.identity && b.signature.over == SignedPrekey(b.spk)
              && sb.bundle.signature.signer == b.identity && sb.bundle.signature.over == SignedBundle(b)
              && (b.pq.Some? ==> b.pqSignature.Some? && b.pqSignature.value.signer == b.identity
                                 && b.pqSignature.value.over == SignedKem(b.pq.value))
  {
    X3dh.DhCommutes(a.ephemeral, ephemeral);
  }

  // ---------------------------------------------------------------- what the pinned name stands for

  /** `who` signed the prekey, the bundle around it and the KEM key in it. */
  predicate Vouches(who: nat, bundle: PreKeyBundle) {
    && bundle.body.signature == Signature(who, SignedPrekey(bundle.body.spk))
    && bundle.signature == Signature(who, SignedBundle(bundle.body))
    && (bundle.body.pq.Some? ==> bundle.body.pqSignature == Some(Signature(who, SignedKem(bundle.body.pq.value))))
  }

  /**
    Whatever bundle message Alice accepts, from whomever: it claims the pinned name, but
    the pinned identity vouches for its prekeys if and only if the bundle names that
    identity too, which the handshake does not check.
    */
  lemma PinnedNameExactly(a: Alice, m: P2pMsg, checked: nat)
    requires AliceOnBundle(a, m, checked).Done?
    ensures var sb := m.box.payload.bundle;
            && a.expected == Some(AliceOnBundle(a, m, checked).value.waiting.peer) == Some(sb.signing)
            && Vouches(sb.bundle.body.identity, sb.bundle)
            && (Vouches(a.expected.value, sb.bundle) <==> sb.bundle.body.identity == a.expected.value)
  {
  }

  /** A bundle that `identity` makes for itself. */
  function SelfMade(identity: nat, spk: PublicKey, opk: Option<PublicKey>, expiration: nat): PreKeyBundle {
    var body := BundleBody(identity, spk, Signature(identity, SignedPrekey(spk)), opk, 0, expiration, 0, identity,
                           Signature(identity, SignedDevice(identity, 0)), None, None);
    PreKeyBundle(body, Signature(identity, SignedBundle(body)))
  }

  /**
    A responder with any other identity's valid bundle that claims the pinned name
    completes the handshake, and both sides get one secret under that name.
    */
  lemma OtherIdentityCompletes(a: Alice, b: Bob, other: nat, checked: nat, nowA: nat, nowB: nat)
    requires a.expected == Some(b.identity.signing) && other != b.identity.signing && other != NO_IDENTITY
    requires a.identity.secret.Some? && a.identity.public == PublicOf(a.identity.secret.value)
    requires b.identity.secret.Some? && b.identity.public == PublicOf(b.identity.secret.value)
    requires b.bundle == SelfMade(other, PublicOf(b.spk), X3dh.PublicOfOption(b.opk), checked)
    ensures Run(a, b, checked, nowA, nowB).Done?
    ensures var j := Run(a, b, checked, nowA, nowB).value;
            j.alice.peer == a.expected.value && j.alice.secret == j.bob.secret && !Vouches(a.expected.value, b.bundle)
  {
    CompletesExactly(a, b, checked, nowA, nowB);
    AgreementExact(a, b, checked, nowA, nowB);
  }

  // ---------------------------------------------------------------- composition with the ratchet

  lemma SessionsStart(a: Alice, b: Bob, checked: nat, nowA: nat, nowB: nat)
    requires Run(a, b, checked, nowA, nowB).Done?
    ensures var j := Run(a, b, checked, nowA, nowB).value;
            && FromSharedSecret(j.alice.secret, a.ephemeral, b.bundle.body.spk, a.maxSkip, Initiator, nowA) == Ok(j.alice.session)
            && FromSharedSecret(j.bob.secret, b.spk, PublicOf(a.ephemeral), b.maxSkip, Responder, nowB) == Ok(j.bob.session)
  {
    CompletesExactly(a, b, checked, nowA, nowB);
  }

  /**
    The two proofs meet: the sessions of a completed handshake with a fresh ephemeral are
    a matched pair of the ratchet exactly when the keys are held.
    */
  lemma SessionsMatched(a: Alice, b: Bob, checked: nat, nowA: nat, nowB: nat)
    requires Run(a, b, checked, nowA, nowB).Done? && a.ephemeral != b.spk
    ensures var j := Run(a, b, checked, nowA, nowB).value;
            MatchedPair(j.alice.secret, a.ephemeral, b.spk, j.alice.session, j.bob.session) <==> KeysHeld(a, b)
  {
    AgreementExact(a, b, checked, nowA, nowB);
    SessionsStart(a, b, checked, nowA, nowB);
  }

  /** The ratchet's starting point as the two callers see it. */
  function SetupOf(a: Alice, b: Bob, secret: Key, nowA: nat, nowB: nat): Setup {
    Setup(secret, a.ephemeral, b.spk, a.maxSkip, b.maxSkip, nowA, nowB)
  }

  /** So every ratchet theorem about runs holds of the sessions the handshake produced. */
  lemma HandshakeStartsRatchet(a: Alice, b: Bob, checked: nat, nowA: nat, nowB: nat)
    requires Run(a, b, checked, nowA, nowB).Done? && a.ephemeral != b.spk && KeysHeld(a, b)
    ensures var j := Run(a, b, checked, nowA, nowB).value; var c := SetupOf(a, b, j.alice.secret, nowA, nowB);
            && Sound(c) && FromStart(c.secret, Begin(c))
            && Begin(c).a == j.alice.session && Begin(c).b == j.bob.session && j.alice.secret == j.bob.secret
  {
    var j := Run(a, b, checked, nowA, nowB).value;
    SessionsMatched(a, b, checked, nowA, nowB);
    SessionsStart(a, b, checked, nowA, nowB);
    BeginMatched(SetupOf(a, b, j.alice.secret, nowA, nowB));
  }

  // ---------------------------------------------------------------- secrecy

  /** One scalar of each pair of the handshake, and the KEM pair or coins if a KEM key is used. */
  predicate Compromised(k: Knowledge, a: Alice, b: Bob)
    requires KeysHeld(a, b)
  {
    && (a.identity.secret.value in k.scalars || b.spk in k.scalars)
    && (a.ephemeral in k.scalars || b.identity.secret.value in k.scalars)
    && (a.ephemeral in k.scalars || b.spk in k.scalars)
    && (b.opk.Some? ==> a.ephemeral in k.scalars || b.opk.value in k.scalars)
    && (b.bundle.body.pq.Some? ==> b.bundle.body.pq.value in k.pairs || a.coins in k.coins)
  }

  /** The secret of a completed handshake can be computed exactly by those who hold enough of its scalars. */
  lemma HandshakeSecretExactly(a: Alice, b: Bob, checked: nat, nowA: nat, nowB: nat, k: Knowledge)
    requires Run(a, b, checked, nowA, nowB).Done? && KeysHeld(a, b)
    requires Run(a, b, checked, nowA, nowB).value.alice.secret !in k.keys
    ensures Computable(k, Run(a, b, checked, nowA, nowB).value.alice.secret) <==> Compromised(k, a, b)
  {
    RunSecrets(a, b, checked, nowA, nowB);
    X3dh.InitiatorSecretExactly(k, a.identity.secret.value, a.ephemeral, b.identity.public, b.bundle.body.spk,
                                b.bundle.body.opk, b.bundle.body.pq, a.coins, a.device, b.device,
                                Run(a, b, checked, nowA, nowB).value.alice.transcript);
  }

  /** Identities, prekeys and the envelope are sealed under a key that needs one of the two ephemerals. */
  lemma HandshakeKeyExactly(ours: Scalar, theirs: Scalar, k: Knowledge)
    requires DeriveHandshakeKey(ours, PublicOf(theirs)) !in k.keys
    ensures Computable(k, DeriveHandshakeKey(ours, PublicOf(theirs))) <==> ours in k.scalars || theirs in k.scalars
  {
    X3dh.OutputKnown(k, ours, PublicOf(theirs));
    ComputableExactly(k, DeriveHandshakeKey(ours, PublicOf(theirs)));
  }

  /** Whatever Hello Bob goes on from, his key needs one of the two ephemeral secrets. */
  lemma BobsKeyExactly(b: Bob, m: P2pMsg, k: Knowledge)
    requires BobOnHello(b, m).Done? && BobOnHello(b, m).value.waiting.key !in k.keys
    ensures Computable(k, BobOnHello(b, m).value.waiting.key) <==> b.ephemeral in k.scalars || m.ephemeral.scalar in k.scalars
  {
    HandshakeKeyExactly(b.ephemeral, m.ephemeral.scalar, k);
  }

  lemma SecretWellMade(a: Alice, b: Bob, checked: nat, nowA: nat, nowB: nat)
    requires Run(a, b, checked, nowA, nowB).Done?
    ensures WellMade(Run(a, b, checked, nowA, nowB).value.alice.secret)
  {
    RunSecrets(a, b, checked, nowA, nowB);
  }

  /** Whoever holds too little is outside the session and has none of its keys. */
  lemma OutsiderStaysOutside(a: Alice, b: Bob, checked: nat, nowA: nat, nowB: nat, k: Knowledge)
    requires Run(a, b, checked, nowA, nowB).Done? && KeysHeld(a, b) && !Compromised(k, a, b)
    requires var secret := Run(a, b, checked, nowA, nowB).value.alice.secret;
             secret !in k.keys && forall key :: key in k.keys ==> !RootedAt(key, secret)
    ensures Outside(k, Run(a, b, checked, nowA, nowB).value.alice.secret)
  {
    HandshakeSecretExactly(a, b, checked, nowA, nowB, k);
  }

  /**
    End to end: after the handshake, against a network that holds too little of it, what is
    delivered in a scheduled run opens exactly as the ratchet promises, and to what was sent.
    */
  lemma HandshakeThenDelivery(a: Alice, b: Bob, checked: nat, nowA: nat, nowB: nat, k: Knowledge, evs: seq<Event>, i: nat)
    requires Run(a, b, checked, nowA, nowB).Done? && a.ephemeral != b.spk && KeysHeld(a, b) && !Compromised(k, a, b)
    requires var secret := Run(a, b, checked, nowA, nowB).value.alice.secret;
             && secret !in k.keys && (forall key :: key in k.keys ==> !RootedAt(key, secret))
             && Sound(SetupOf(a, b, secret, nowA, nowB)) && OutsiderRun(SetupOf(a, b, secret, nowA, nowB), k, evs)
    requires i < |evs| && evs[i].Deliver? && evs[i].wire.Wire?
    ensures var c := SetupOf(a, b, Run(a, b, checked, nowA, nowB).value.alice.secret, nowA, nowB);
            var p, m, sys := evs[i].dest, evs[i].wire.message, RatchetTheorems.Run(Begin(c), evs[..i]);
            && (Read(sys, evs[i]).result.Ok? <==>
                  && (exists n: nat :: n < i && SentInTime(c, evs, n, Peer(p), m, evs[i].ad, evs[i].now))
                  && !DeliveredBefore(Begin(c), evs, i, p, m, evs[i].ad)
                  && RoomWithin(StateOf(sys, p), m.header, Window(c, p)))
            && (forall n: nat :: n < i && ProducedAt(Begin(c), evs, n, Peer(p), m, evs[i].ad) && Read(sys, evs[i]).result.Ok? ==>
                  Read(sys, evs[i]).result == Ok(evs[n].plaintext))
  {
    var c := SetupOf(a, b, Run(a, b, checked, nowA, nowB).value.alice.secret, nowA, nowB);
    OutsiderStaysOutside(a, b, checked, nowA, nowB, k);
    SecretWellMade(a, b, checked, nowA, nowB);
    OutsiderIsScheduled(c, k, evs);
    DeliveryByEvents(c, evs, i);
  }
}
