/** The X3DH key agreement of both roles, with an optional one-time prekey and ML-KEM key. */
module X3dh {
  import opened Wrappers
  import opened Crypto
  import opened Secrecy

  /** The initiator's secret and the KEM ciphertext it has to send along. */
  datatype InitiatorResult = InitiatorResult(secret: Key, ciphertext: Option<KemCiphertext>)

  function PublicOfOption(s: Option<Scalar>): Option<PublicKey> {
    match s case None => None case Some(x) => Some(PublicOf(x))
  }

  /** The public material hashed by both roles, in the initiator's order. */
  function InnerTranscript(initiator: PublicKey, ephemeral: PublicKey, responder: PublicKey, spk: PublicKey,
                           opk: Option<PublicKey>, initiatorDevice: nat, responderDevice: nat): Digest
  {
    Blake3([KeyField(initiator), KeyField(ephemeral), KeyField(responder), KeyField(spk)]
           + (if opk.Some? then [KeyField(opk.value)] else [])
           + [DeviceField(initiatorDevice), DeviceField(responderDevice)])
  }

  function Initiator(identity: Scalar, ephemeral: Scalar, peer: PublicKey, spk: PublicKey, opk: Option<PublicKey>,
                     pq: Option<nat>, coins: nat, device: nat, peerDevice: nat, ext: Digest): InitiatorResult
  {
    var dh1 := DiffieHellman(identity, spk);
    var dh2 := DiffieHellman(ephemeral, peer);
    var dh3 := DiffieHellman(ephemeral, spk);
    var dhs := [dh1, dh2, dh3] + (if opk.Some? then [DiffieHellman(ephemeral, opk.value)] else []);
    var transcript := Bind(ext, InnerTranscript(PublicOf(identity), PublicOf(ephemeral), peer, spk, opk, device, peerDevice));
    match pq
    case None => InitiatorResult(X3dhSecret(dhs, None, transcript), None)
    case Some(pair) =>
      var c := KemCiphertext(pair, coins);
      InitiatorResult(X3dhSecret(dhs, Some(Encapsulated(c)), transcript), Some(c))
  }

  function Responder(identity: Scalar, spk: Scalar, opk: Option<Scalar>, peer: PublicKey, ephemeral: PublicKey,
                     pq: Option<nat>, c: Option<KemCiphertext>, device: nat, peerDevice: nat, ext: Digest): Key
  {
    var dh1 := DiffieHellman(spk, peer);
    var dh2 := DiffieHellman(identity, ephemeral);
    var dh3 := DiffieHellman(spk, ephemeral);
    var dhs := [dh1, dh2, dh3] + (if opk.Some? then [DiffieHellman(opk.value, ephemeral)] else []);
    var transcript := Bind(ext, InnerTranscript(peer, ephemeral, PublicOf(identity), PublicOf(spk), PublicOfOption(opk),
                                                peerDevice, device));
    var kem := if pq.Some? && c.Some? then Some(Decapsulate(pq.value, c.value)) else None;
    X3dhSecret(dhs, kem, transcript)
  }

  lemma DhCommutes(x: Scalar, y: Scalar)
    ensures DiffieHellman(x, PublicOf(y)) == DiffieHellman(y, PublicOf(x))
  {
  }

  // ---------------------------------------------------------------- what the hash absorbs

  /** The hash sees only the concatenated encodings, without lengths or tags. */
  function Absorbed(enc: Field -> Bytes, fields: seq<Field>): Bytes {
    if fields == [] then [] else enc(fields[0]) + Absorbed(enc, fields[1..])
  }

  /** Keys and identities take 32 bytes, device ids 16. */
  predicate Sized(enc: Field -> Bytes, fields: seq<Field>) {
    forall i :: 0 <= i < |fields| ==> |enc(fields[i])| == if fields[i].DeviceField? then 16 else 32
  }

  predicate SameKind(f: Field, g: Field) { f.KeyField? == g.KeyField? && f.DeviceField? == g.DeviceField? }

  /** The encoding tells the fields in play apart, kind by kind. */
  predicate TellsApart(enc: Field -> Bytes, t: seq<Field>, t': seq<Field>) {
    forall f, g :: f in t && g in t' && SameKind(f, g) && enc(f) == enc(g) ==> f == g
  }

  /** Four keys or identities, an optional prekey, two device ids. */
  predicate LaidOut(t: seq<Field>) {
    6 <= |t| <= 7 && forall i :: 0 <= i < |t| ==> (t[i].DeviceField? <==> i >= |t| - 2)
  }

  predicate KindsMatch(t: seq<Field>, t': seq<Field>) {
    forall i :: 0 <= i < |t| && i < |t'| && |t| == |t'| ==> SameKind(t[i], t'[i])
  }

  /** Both are transcripts of one layout under a sound encoding. */
  predicate Comparable(enc: Field -> Bytes, t: seq<Field>, t': seq<Field>) {
    LaidOut(t) && LaidOut(t') && KindsMatch(t, t') && Sized(enc, t) && Sized(enc, t') && TellsApart(enc, t, t')
  }

  lemma {:induction false} KeysAbsorbed(enc: Field -> Bytes, t: seq<Field>)
    requires Sized(enc, t)
    requires |t| >= 2 && forall i :: 0 <= i < |t| ==> (t[i].DeviceField? <==> i >= |t| - 2)
    ensures |Absorbed(enc, t)| == 32 * (|t| - 1)
    decreases |t|
  {
    if |t| > 2 {
      KeysAbsorbed(enc, t[1..]);
    } else {
      assert Absorbed(enc, t[1..]) == enc(t[1]) + Absorbed(enc, t[1..][1..]) && t[1..][1..] == [];
    }
  }

  lemma {:induction false} SplitsAlike(enc: Field -> Bytes, t: seq<Field>, t': seq<Field>)
    requires |t| == |t'| && KindsMatch(t, t') && Sized(enc, t) && Sized(enc, t') && TellsApart(enc, t, t')
    requires Absorbed(enc, t) == Absorbed(enc, t')
    ensures t == t'
    decreases |t|
  {
    if t != [] {
      var n := |enc(t[0])|;
      assert SameKind(t[0], t'[0]);
      assert Absorbed(enc, t)[..n] == enc(t[0]) && Absorbed(enc, t')[..n] == enc(t'[0]);
      assert Absorbed(enc, t)[n..] == Absorbed(enc, t[1..]) && Absorbed(enc, t')[n..] == Absorbed(enc, t'[1..]);
      assert KindsMatch(t[1..], t'[1..]) by {
        assert forall i :: 0 <= i < |t| - 1 ==> t[1..][i] == t[i + 1] && t'[1..][i] == t'[i + 1];
      }
      SplitsAlike(enc, t[1..], t'[1..]);
      assert t == [t[0]] + t[1..] && t' == [t'[0]] + t'[1..];
    }
  }

  /** The untagged bytes determine the fields, with and without the prekey. */
  lemma BytesDetermine(enc: Field -> Bytes, t: seq<Field>, t': seq<Field>)
    requires Comparable(enc, t, t')
    ensures Absorbed(enc, t) == Absorbed(enc, t') <==> t == t'
  {
    KeysAbsorbed(enc, t);
    KeysAbsorbed(enc, t');
    if Absorbed(enc, t) == Absorbed(enc, t') {
      SplitsAlike(enc, t, t');
    }
  }

  lemma FieldsDetermine(enc: Field -> Bytes, t: Digest, t': Digest)
    requires t.Blake3? && t'.Blake3? && Comparable(enc, t.fields, t'.fields)
    ensures Absorbed(enc, t.fields) == Absorbed(enc, t'.fields) <==> t == t'
  {
    BytesDetermine(enc, t.fields, t'.fields);
  }

  lemma InnerLaidOut(a: PublicKey, e: PublicKey, b: PublicKey, s: PublicKey, o: Option<PublicKey>, da: nat, db: nat)
    ensures var t := InnerTranscript(a, e, b, s, o, da, db).fields;
            LaidOut(t) && forall i :: 0 <= i < |t| - 2 ==> t[i].KeyField?
  {
  }

  lemma AbsorbedParts(enc: Field -> Bytes, a: seq<Field>, b: seq<Field>)
    ensures Absorbed(enc, a + b) == Absorbed(enc, a) + Absorbed(enc, b)
    decreases |a|
  {
    if a == [] {
      assert a + b == b;
    } else {
      assert (a + b)[1..] == a[1..] + b;
      AbsorbedParts(enc, a[1..], b);
    }
  }

  /** A field alone absorbs its own encoding. */
  lemma AbsorbedOne(enc: Field -> Bytes, f: Field)
    ensures Absorbed(enc, [f]) == enc(f)
  {
    assert [f][1..] == [];
  }

  /** The order in which the hash sees the parts. */
  lemma InnerLayout(enc: Field -> Bytes, a: PublicKey, e: PublicKey, b: PublicKey, s: PublicKey, o: Option<PublicKey>,
                    da: nat, db: nat)
    ensures Absorbed(enc, InnerTranscript(a, e, b, s, o, da, db).fields) ==
              enc(KeyField(a)) + enc(KeyField(e)) + enc(KeyField(b)) + enc(KeyField(s))
              + (if o.Some? then enc(KeyField(o.value)) else []) + enc(DeviceField(da)) + enc(DeviceField(db))
  {
    Layout(enc, KeyField(a), KeyField(e), KeyField(b), KeyField(s), o, DeviceField(da), DeviceField(db));
  }

  lemma Layout(enc: Field -> Bytes, a: Field, e: Field, b: Field, s: Field, o: Option<PublicKey>, da: Field, db: Field)
    ensures Absorbed(enc, [a, e, b, s] + (if o.Some? then [KeyField(o.value)] else []) + [da, db]) ==
              enc(a) + enc(e) + enc(b) + enc(s) + (if o.Some? then enc(KeyField(o.value)) else []) + enc(da) + enc(db)
  {
    var opk := if o.Some? then [KeyField(o.value)] else [];
    AbsorbedParts(enc, [a, e, b, s] + opk, [da, db]);
    AbsorbedParts(enc, [a, e, b, s], opk);
    AbsorbedFour(enc, a, e, b, s);
    AbsorbedPair(enc, da, db);
    if o.Some? {
      AbsorbedOne(enc, KeyField(o.value));
    }
    Regroup(enc(a) + enc(e) + enc(b) + enc(s) + Absorbed(enc, opk), enc(da), enc(db));
  }

  lemma Regroup(x: Bytes, y: Bytes, z: Bytes)
    ensures x + (y + z) == x + y + z
  {
  }

  lemma AbsorbedFour(enc: Field -> Bytes, a: Field, e: Field, b: Field, s: Field)
    ensures Absorbed(enc, [a, e, b, s]) == enc(a) + enc(e) + enc(b) + enc(s)
  {
    assert [a, e, b, s] == [a, e] + [b, s];
    AbsorbedParts(enc, [a, e], [b, s]);
    AbsorbedPair(enc, a, e);
    AbsorbedPair(enc, b, s);
    Regroup(enc(a) + enc(e), enc(b), enc(s));
  }

  lemma AbsorbedPair(enc: Field -> Bytes, f: Field, g: Field)
    ensures Absorbed(enc, [f, g]) == enc(f) + enc(g)
  {
    assert [f, g] == [f] + [g];
    AbsorbedParts(enc, [f], [g]);
    AbsorbedOne(enc, f);
    AbsorbedOne(enc, g);
  }

  /** Two inner transcripts absorb the same bytes exactly when they are equal, so the hashed term stands for the bytes. */
  lemma InnerBytesExactly(enc: Field -> Bytes,
                          a: PublicKey, e: PublicKey, b: PublicKey, s: PublicKey, o: Option<PublicKey>, da: nat, db: nat,
                          a': PublicKey, e': PublicKey, b': PublicKey, s': PublicKey, o': Option<PublicKey>, da': nat, db': nat)
    requires var t, t' := InnerTranscript(a, e, b, s, o, da, db).fields, InnerTranscript(a', e', b', s', o', da', db').fields;
             Sized(enc, t) && Sized(enc, t') && TellsApart(enc, t, t')
    ensures var t, t' := InnerTranscript(a, e, b, s, o, da, db), InnerTranscript(a', e', b', s', o', da', db');
            Absorbed(enc, t.fields) == Absorbed(enc, t'.fields) <==> t == t'
  {
    var t, t' := InnerTranscript(a, e, b, s, o, da, db), InnerTranscript(a', e', b', s', o', da', db');
    InnerLaidOut(a, e, b, s, o, da, db);
    InnerLaidOut(a', e', b', s', o', da', db');
    FieldsDetermine(enc, t, t');
  }

  /** The transcript determines every part, the optional prekey included. */
  lemma TranscriptInjective(a: PublicKey, e: PublicKey, b: PublicKey, s: PublicKey, o: Option<PublicKey>, da: nat, db: nat,
                            a': PublicKey, e': PublicKey, b': PublicKey, s': PublicKey, o': Option<PublicKey>, da': nat, db': nat)
    requires InnerTranscript(a, e, b, s, o, da, db) == InnerTranscript(a', e', b', s', o', da', db')
    ensures a == a' && e == e' && b == b' && s == s' && o == o' && da == da' && db == db'
  {
    var t, t' := InnerTranscript(a, e, b, s, o, da, db).fields, InnerTranscript(a', e', b', s', o', da', db').fields;
    assert |t| == (if o.Some? then 7 else 6) && |t'| == (if o'.Some? then 7 else 6);
    assert t[0] == t'[0] && t[1] == t'[1] && t[2] == t'[2] && t[3] == t'[3] && t[4] == t'[4] && t[5] == t'[5];
    assert t[|t| - 2] == DeviceField(da) && t[|t| - 1] == DeviceField(db);
    assert t'[|t'| - 2] == DeviceField(da') && t'[|t'| - 1] == DeviceField(db');
  }

  /**
    The order of the outputs in the secret, from the scalars of both sides: identity with
    signed prekey, ephemeral with identity, ephemeral with signed prekey, ephemeral with
    one-time prekey.
    */
  lemma OutputsInOrder(identityA: Scalar, ephemeral: Scalar, identityB: Scalar, spk: Scalar, opk: Option<Scalar>,
                       pq: Option<nat>, coins: nat, c: Option<KemCiphertext>, deviceA: nat, deviceB: nat, ext: Digest)
    ensures var i := Initiator(identityA, ephemeral, PublicOf(identityB), PublicOf(spk), PublicOfOption(opk), pq, coins,
                               deviceA, deviceB, ext).secret;
            var r := Responder(identityB, spk, opk, PublicOf(identityA), PublicOf(ephemeral), pq, c, deviceB, deviceA, ext);
            && i.dhs == r.dhs && |i.dhs| == (if opk.Some? then 4 else 3)
            && i.dhs[0] == Between(identityA, spk) && i.dhs[1] == Between(ephemeral, identityB)
            && i.dhs[2] == Between(ephemeral, spk) && (opk.Some? ==> i.dhs[3] == Between(ephemeral, opk.value))
  {
    SameDhs(identityA, ephemeral, identityB, spk, opk);
  }

  /** The output two scalars share. */
  function Between(x: Scalar, y: Scalar): DhOutput { Shared(Min(x, y), Max(x, y)) }

  /** What each side contributed is what the other side believes it contributed. */
  predicate Agree(identityA: Scalar, ephemeral: Scalar, peerB: PublicKey, spkB: PublicKey, opkB: Option<PublicKey>,
                  deviceA: nat, deviceB: nat,
                  identityB: Scalar, spk: Scalar, opk: Option<Scalar>, peerA: PublicKey, ephemeralA: PublicKey,
                  deviceB': nat, deviceA': nat)
  {
    && peerA == PublicOf(identityA) && ephemeralA == PublicOf(ephemeral)
    && peerB == PublicOf(identityB) && spkB == PublicOf(spk) && opkB == PublicOfOption(opk)
    && deviceA == deviceA' && deviceB == deviceB'
  }

  /** Both use the KEM with the same pair and ciphertext, or neither uses it. */
  predicate KemAgree(pq: Option<nat>, coins: nat, pqSecret: Option<nat>, c: Option<KemCiphertext>) {
    if pq.None? then pqSecret.None? || c.None?
    else pqSecret == pq && c == Some(KemCiphertext(pq.value, coins))
  }

  lemma SameDhs(identityA: Scalar, ephemeral: Scalar, identityB: Scalar, spk: Scalar, opk: Option<Scalar>)
    ensures var o := PublicOfOption(opk);
            [DiffieHellman(identityA, PublicOf(spk)), DiffieHellman(ephemeral, PublicOf(identityB)), DiffieHellman(ephemeral, PublicOf(spk))]
            + (if o.Some? then [DiffieHellman(ephemeral, o.value)] else [])
            == [DiffieHellman(spk, PublicOf(identityA)), DiffieHellman(identityB, PublicOf(ephemeral)), DiffieHellman(spk, PublicOf(ephemeral))]
               + (if opk.Some? then [DiffieHellman(opk.value, PublicOf(ephemeral))] else [])
  {
  }

  /**
    For all inputs of both roles, whatever each was told about the other, the two secrets
    are equal if and only if the two sides agree on every key, both device ids, the outer
    transcript and the KEM exchange.
    */
  lemma SecretsAgreeExactly(identityA: Scalar, ephemeral: Scalar, peerB: PublicKey, spkB: PublicKey, opkB: Option<PublicKey>,
                            pq: Option<nat>, coins: nat, deviceA: nat, deviceB: nat, ext: Digest,
                            identityB: Scalar, spk: Scalar, opk: Option<Scalar>, peerA: PublicKey, ephemeralA: PublicKey,
                            pqSecret: Option<nat>, c: Option<KemCiphertext>, deviceB': nat, deviceA': nat, ext': Digest)
    ensures Initiator(identityA, ephemeral, peerB, spkB, opkB, pq, coins, deviceA, deviceB, ext).secret
            == Responder(identityB, spk, opk, peerA, ephemeralA, pqSecret, c, deviceB', deviceA', ext')
            <==>
            && Agree(identityA, ephemeral, peerB, spkB, opkB, deviceA, deviceB,
                     identityB, spk, opk, peerA, ephemeralA, deviceB', deviceA')
            && KemAgree(pq, coins, pqSecret, c) && ext == ext'
  {
    var i := Initiator(identityA, ephemeral, peerB, spkB, opkB, pq, coins, deviceA, deviceB, ext).secret;
    var r := Responder(identityB, spk, opk, peerA, ephemeralA, pqSecret, c, deviceB', deviceA', ext');
    assert i.kem == r.kem <==> KemAgree(pq, coins, pqSecret, c);
    if i == r {
      TranscriptInjective(PublicOf(identityA), PublicOf(ephemeral), peerB, spkB, opkB, deviceA, deviceB,
                          peerA, ephemeralA, PublicOf(identityB), PublicOf(spk), PublicOfOption(opk), deviceA', deviceB');
    } else if Agree(identityA, ephemeral, peerB, spkB, opkB, deviceA, deviceB,
                    identityB, spk, opk, peerA, ephemeralA, deviceB', deviceA') {
      SameDhs(identityA, ephemeral, identityB, spk, opk);
    }
  }

  // ---------------------------------------------------------------- who can compute the secret

  /** `k` holds one of the two scalars behind a Diffie-Hellman output, or there is nothing to hold. */
  predicate OneOf(k: Knowledge, x: Scalar, p: PublicKey) { p.ZeroPoint? || x in k.scalars || p.scalar in k.scalars }

  lemma OutputKnown(k: Knowledge, x: Scalar, p: PublicKey)
    ensures DhKnown(k, DiffieHellman(x, p)) <==> OneOf(k, x, p)
    ensures Normal(DiffieHellman(x, p))
  {
  }

  /** A secret over three outputs, a fourth one if there is one, and a KEM secret if there is one. */
  lemma SecretKnown(k: Knowledge, dhs: seq<DhOutput>, kem: Option<KemSecret>, transcript: Digest)
    requires forall i :: 0 <= i < |dhs| ==> Normal(dhs[i])
    requires X3dhSecret(dhs, kem, transcript) !in k.keys
    ensures Computable(k, X3dhSecret(dhs, kem, transcript)) <==>
              (forall i :: 0 <= i < |dhs| ==> DhKnown(k, dhs[i])) && (kem.Some? ==> KemKnown(k, kem.value))
  {
    ComputableExactly(k, X3dhSecret(dhs, kem, transcript));
  }

  /** One scalar of each pair, and the KEM pair or its coins. */
  predicate HoldsEnough(k: Knowledge, identity: Scalar, ephemeral: Scalar, peer: PublicKey, spk: PublicKey,
                        opk: Option<PublicKey>, pq: Option<nat>, coins: nat)
  {
    && OneOf(k, identity, spk) && OneOf(k, ephemeral, peer) && OneOf(k, ephemeral, spk)
    && (opk.Some? ==> OneOf(k, ephemeral, opk.value))
    && (pq.Some? ==> pq.value in k.pairs || coins in k.coins)
  }

  /**
    The initiator's secret can be computed from `k` and everything public if and only if
    `k` holds a scalar of each pair: identity or signed prekey, ephemeral or peer identity,
    ephemeral or signed prekey, ephemeral or one-time prekey; and the KEM pair or coins.
    */
  lemma InitiatorSecretExactly(k: Knowledge, identity: Scalar, ephemeral: Scalar, peer: PublicKey, spk: PublicKey,
                               opk: Option<PublicKey>, pq: Option<nat>, coins: nat, device: nat, peerDevice: nat, ext: Digest)
    requires Initiator(identity, ephemeral, peer, spk, opk, pq, coins, device, peerDevice, ext).secret !in k.keys
    ensures Computable(k, Initiator(identity, ephemeral, peer, spk, opk, pq, coins, device, peerDevice, ext).secret)
            <==> HoldsEnough(k, identity, ephemeral, peer, spk, opk, pq, coins)
  {
    var secret := Initiator(identity, ephemeral, peer, spk, opk, pq, coins, device, peerDevice, ext).secret;
    OutputKnown(k, identity, spk);
    OutputKnown(k, ephemeral, peer);
    OutputKnown(k, ephemeral, spk);
    if opk.Some? {
      OutputKnown(k, ephemeral, opk.value);
      assert secret.dhs[3] == DiffieHellman(ephemeral, opk.value);
    }
    assert secret.dhs[0] == DiffieHellman(identity, spk) && secret.dhs[1] == DiffieHellman(ephemeral, peer)
        && secret.dhs[2] == DiffieHellman(ephemeral, spk) && |secret.dhs| == if opk.Some? then 4 else 3;
    SecretKnown(k, secret.dhs, secret.kem, secret.transcript);
  }

  /** The same for what the responder derives, whatever it was told. */
  lemma ResponderSecretExactly(k: Knowledge, identity: Scalar, spk: Scalar, opk: Option<Scalar>, peer: PublicKey,
                               ephemeral: PublicKey, pq: Option<nat>, c: Option<KemCiphertext>, device: nat, peerDevice: nat,
                               ext: Digest)
    requires Responder(identity, spk, opk, peer, ephemeral, pq, c, device, peerDevice, ext) !in k.keys
    ensures Computable(k, Responder(identity, spk, opk, peer, ephemeral, pq, c, device, peerDevice, ext)) <==>
              && OneOf(k, spk, peer) && OneOf(k, identity, ephemeral) && OneOf(k, spk, ephemeral)
              && (opk.Some? ==> OneOf(k, opk.value, ephemeral))
              && (pq.Some? && c.Some? ==> pq.value in k.pairs || (pq.value == c.value.pair && c.value.coins in k.coins))
  {
    var secret := Responder(identity, spk, opk, peer, ephemeral, pq, c, device, peerDevice, ext);
    OutputKnown(k, spk, peer);
    OutputKnown(k, identity, ephemeral);
    OutputKnown(k, spk, ephemeral);
    if opk.Some? {
      OutputKnown(k, opk.value, ephemeral);
      assert secret.dhs[3] == DiffieHellman(opk.value, ephemeral);
    }
    assert secret.dhs[0] == DiffieHellman(spk, peer) && secret.dhs[1] == DiffieHellman(identity, ephemeral)
        && secret.dhs[2] == DiffieHellman(spk, ephemeral) && |secret.dhs| == if opk.Some? then 4 else 3;
    SecretKnown(k, secret.dhs, secret.kem, secret.transcript);
  }
}
