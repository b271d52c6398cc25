/**
  Who can compute a key. A derivation starts from known scalars, KEM pairs, coins and keys,
  uses any public key and any ciphertext, and applies one primitive per step. What it can
  reach is decided by the structure of the key alone.
  */
module Secrecy {
  import opened Wrappers
  import opened Crypto

  /** Secret scalars, KEM decapsulation keys, encapsulation coins and keys that someone holds. */
  datatype Knowledge = Knowledge(scalars: set<Scalar>, pairs: set<nat>, coins: set<nat>, keys: set<Key>)

  datatype Term = OfDh(dh: DhOutput) | OfKem(kem: KemSecret) | OfKey(key: Key)

  // ---------------------------------------------------------------- derivations

  /** `dh` is the output for some known scalar and some public key. */
  ghost predicate Agreed(k: Knowledge, dh: DhOutput) {
    dh == ZeroOutput || exists x, p :: x in k.scalars && dh == DiffieHellman(x, p)
  }

  /** `kem` comes from decapsulating some ciphertext under a known pair, or from encapsulating with known coins. */
  ghost predicate Exchanged(k: Knowledge, kem: KemSecret) {
    || (exists pair, c :: pair in k.pairs && kem == Decapsulate(pair, c))
    || (exists pair, coins :: coins in k.coins && kem == Encapsulated(KemCiphertext(pair, coins)))
  }

  /** One application of a KDF, HMAC or hash to earlier terms and public data. */
  predicate Hashed(from: seq<Term>, key: Key) {
    match key
    case ZeroKey => true
    case RandomKey(_) => false
    case HandshakeKey(dh) => OfDh(dh) in from
    case X3dhSecret(dhs, kem, _) =>
      (forall i :: 0 <= i < |dhs| ==> OfDh(dhs[i]) in from) && (kem.Some? ==> OfKem(kem.value) in from)
    case SessionRoot(secret) => OfKey(secret) in from
    case SessionChain(secret) => OfKey(secret) in from
    case RatchetRoot(root, dh) => OfKey(root) in from && OfDh(dh) in from
    case RatchetChain(root, dh) => OfKey(root) in from && OfDh(dh) in from
    case NextChain(chain) => OfKey(chain) in from
    case MessageKey(chain) => OfKey(chain) in from
    case GroupChain(chain) => OfKey(chain) in from
    case GroupMessageKey(chain) => OfKey(chain) in from
  }

  ghost predicate Follows(k: Knowledge, from: seq<Term>, t: Term) {
    match t
    case OfDh(dh) => Agreed(k, dh)
    case OfKem(kem) => Exchanged(k, kem)
    case OfKey(key) => key in k.keys || Hashed(from, key)
  }

  ghost predicate Derivation(k: Knowledge, steps: seq<Term>) {
    forall i :: 0 <= i < |steps| ==> Follows(k, steps[..i], steps[i])
  }

  /** Someone who knows `k` can compute `key`. */
  ghost predicate Computable(k: Knowledge, key: Key) {
    exists steps :: Derivation(k, steps) && OfKey(key) in steps
  }

  // ---------------------------------------------------------------- by structure

  predicate DhKnown(k: Knowledge, dh: DhOutput) { dh.ZeroOutput? || dh.low in k.scalars || dh.high in k.scalars }

  predicate KemKnown(k: Knowledge, kem: KemSecret) {
    match kem
    case Encapsulated(c) => c.pair in k.pairs || c.coins in k.coins
    case Rejected(pair, c) => pair in k.pairs && pair != c.pair
  }

  predicate Derivable(k: Knowledge, key: Key) {
    || key in k.keys
    || match key
       case ZeroKey => true
       case RandomKey(_) => false
       case HandshakeKey(dh) => DhKnown(k, dh)
       case X3dhSecret(dhs, kem, _) =>
         (forall i :: 0 <= i < |dhs| ==> DhKnown(k, dhs[i])) && (kem.Some? ==> KemKnown(k, kem.value))
       case SessionRoot(secret) => Derivable(k, secret)
       case SessionChain(secret) => Derivable(k, secret)
       case RatchetRoot(root, dh) => Derivable(k, root) && DhKnown(k, dh)
       case RatchetChain(root, dh) => Derivable(k, root) && DhKnown(k, dh)
       case NextChain(chain) => Derivable(k, chain)
       case MessageKey(chain) => Derivable(k, chain)
       case GroupChain(chain) => Derivable(k, chain)
       case GroupMessageKey(chain) => Derivable(k, chain)
  }

  /** Outputs as `DiffieHellman` makes them: the smaller scalar first. */
  predicate Normal(dh: DhOutput) { dh.Shared? ==> dh.low <= dh.high }

  lemma AgreedExactly(k: Knowledge, dh: DhOutput)
    requires Normal(dh)
    ensures Agreed(k, dh) <==> DhKnown(k, dh)
  {
    if DhKnown(k, dh) && dh.Shared? {
      if dh.low in k.scalars {
        assert dh == DiffieHellman(dh.low, Point(dh.high));
      } else {
        assert dh == DiffieHellman(dh.high, Point(dh.low));
      }
    }
  }

  lemma AgreedOnly(k: Knowledge, dh: DhOutput)
    requires Agreed(k, dh)
    ensures DhKnown(k, dh)
  {
  }

  lemma ExchangedExactly(k: Knowledge, kem: KemSecret)
    ensures Exchanged(k, kem) <==> KemKnown(k, kem)
  {
    match kem
    case Encapsulated(c) =>
      assert kem == Encapsulated(KemCiphertext(c.pair, c.coins));
      if c.pair in k.pairs {
        assert kem == Decapsulate(c.pair, c);
      }
    case Rejected(pair, c) =>
      if KemKnown(k, kem) {
        assert kem == Decapsulate(pair, c);
      }
  }

  predicate Deducible(k: Knowledge, t: Term) {
    match t
    case OfDh(dh) => DhKnown(k, dh)
    case OfKem(kem) => KemKnown(k, kem)
    case OfKey(key) => Derivable(k, key)
  }

  lemma DeducibleStep(k: Knowledge, from: seq<Term>, t: Term)
    requires Follows(k, from, t) && forall i :: 0 <= i < |from| ==> Deducible(k, from[i])
    ensures Deducible(k, t)
  {
    match t
    case OfDh(dh) => AgreedOnly(k, dh);
    case OfKem(kem) => ExchangedExactly(k, kem);
    case OfKey(key) => HashedDeducible(k, from, key);
  }

  lemma HashedDeducible(k: Knowledge, from: seq<Term>, key: Key)
    requires key in k.keys || Hashed(from, key)
    requires forall i :: 0 <= i < |from| ==> Deducible(k, from[i])
    ensures Derivable(k, key)
  {
    forall t | t in from ensures Deducible(k, t) {
    }
    if key !in k.keys && key.X3dhSecret? {
      forall i | 0 <= i < |key.dhs| ensures DhKnown(k, key.dhs[i]) {
        assert Deducible(k, OfDh(key.dhs[i]));
      }
      if key.kem.Some? {
        assert Deducible(k, OfKem(key.kem.value));
      }
    }
  }

  lemma {:induction false} StepsDeducible(k: Knowledge, steps: seq<Term>, i: nat)
    requires Derivation(k, steps) && i < |steps|
    ensures Deducible(k, steps[i])
    decreases i
  {
    forall j | 0 <= j < i ensures Deducible(k, steps[..i][j]) {
      StepsDeducible(k, steps, j);
    }
    DeducibleStep(k, steps[..i], steps[i]);
  }

  // ---------------------------------------------------------------- building derivations

  /** Every Diffie-Hellman output inside the key is one that `DiffieHellman` makes. */
  predicate WellMade(key: Key) {
    match key
    case HandshakeKey(dh) => Normal(dh)
    case X3dhSecret(dhs, _, _) => forall i :: 0 <= i < |dhs| ==> Normal(dhs[i])
    case SessionRoot(secret) => WellMade(secret)
    case SessionChain(secret) => WellMade(secret)
    case RatchetRoot(root, dh) => WellMade(root) && Normal(dh)
    case RatchetChain(root, dh) => WellMade(root) && Normal(dh)
    case NextChain(chain) => WellMade(chain)
    case MessageKey(chain) => WellMade(chain)
    case GroupChain(chain) => WellMade(chain)
    case GroupMessageKey(chain) => WellMade(chain)
    case _ => true
  }

  lemma HashedLonger(from: seq<Term>, more: seq<Term>, key: Key)
    requires Hashed(from, key) && forall t :: t in from ==> t in more
    ensures Hashed(more, key)
  {
  }

  lemma FollowsLonger(k: Knowledge, from: seq<Term>, more: seq<Term>, t: Term)
    requires Follows(k, from, t) && forall u :: u in from ==> u in more
    ensures Follows(k, more, t)
  {
    if t.OfKey? && t.key !in k.keys {
      HashedLonger(from, more, t.key);
    }
  }

  lemma Joined(k: Knowledge, a: seq<Term>, b: seq<Term>)
    requires Derivation(k, a) && Derivation(k, b)
    ensures Derivation(k, a + b)
  {
    forall i | 0 <= i < |a + b| ensures Follows(k, (a + b)[..i], (a + b)[i]) {
      if i < |a| {
        assert (a + b)[..i] == a[..i];
      } else {
        assert (a + b)[..i] == a + b[..i - |a|];
        FollowsLonger(k, b[..i - |a|], a + b[..i - |a|], b[i - |a|]);
      }
    }
  }

  lemma Extended(k: Knowledge, steps: seq<Term>, t: Term)
    requires Derivation(k, steps) && Follows(k, steps, t)
    ensures Derivation(k, steps + [t]) && t in steps + [t]
  {
    forall i | 0 <= i < |steps + [t]| ensures Follows(k, (steps + [t])[..i], (steps + [t])[i]) {
      assert (steps + [t])[..i] == steps[..i];
      if i == |steps| {
        assert steps[..i] == steps;
      }
    }
  }

  lemma {:induction false} DeriveOutputs(k: Knowledge, dhs: seq<DhOutput>) returns (steps: seq<Term>)
    requires forall i :: 0 <= i < |dhs| ==> Normal(dhs[i]) && DhKnown(k, dhs[i])
    ensures Derivation(k, steps) && forall i :: 0 <= i < |dhs| ==> OfDh(dhs[i]) in steps
    decreases |dhs|
  {
    steps := [];
    if dhs != [] {
      var last := dhs[|dhs| - 1];
      steps := DeriveOutputs(k, dhs[..|dhs| - 1]);
      AgreedExactly(k, last);
      Extended(k, steps, OfDh(last));
      forall i | 0 <= i < |dhs| ensures OfDh(dhs[i]) in steps + [OfDh(last)] {
        if i < |dhs| - 1 {
          assert dhs[..|dhs| - 1][i] == dhs[i];
        }
      }
      steps := steps + [OfDh(last)];
    }
  }

  lemma DeriveX3dh(k: Knowledge, key: Key) returns (steps: seq<Term>)
    requires key.X3dhSecret? && WellMade(key) && Derivable(k, key) && key !in k.keys
    ensures Derivation(k, steps) && Hashed(steps, key)
  {
    steps := DeriveOutputs(k, key.dhs);
    if key.kem.Some? {
      ExchangedExactly(k, key.kem.value);
      Extended(k, steps, OfKem(key.kem.value));
      steps := steps + [OfKem(key.kem.value)];
    }
  }

  /** The key one application of a KDF away, and the output that goes into it as well. */
  function Inside(key: Key): Key
    requires !key.ZeroKey? && !key.RandomKey? && !key.HandshakeKey? && !key.X3dhSecret?
  {
    match key
    case SessionRoot(secret) => secret
    case SessionChain(secret) => secret
    case RatchetRoot(root, _) => root
    case RatchetChain(root, _) => root
    case NextChain(chain) => chain
    case MessageKey(chain) => chain
    case GroupChain(chain) => chain
    case GroupMessageKey(chain) => chain
  }

  lemma {:induction false} Derive(k: Knowledge, key: Key) returns (steps: seq<Term>)
    requires WellMade(key) && Derivable(k, key)
    ensures Derivation(k, steps) && OfKey(key) in steps
    decreases key
  {
    steps := [];
    if key !in k.keys {
      if key.HandshakeKey? {
        steps := DeriveOutputs(k, [key.dh]);
        assert OfDh([key.dh][0]) in steps;
      } else if key.X3dhSecret? {
        steps := DeriveX3dh(k, key);
      } else if !key.ZeroKey? {
        steps := DeriveInside(k, key);
      }
    }
    Extended(k, steps, OfKey(key));
    steps := steps + [OfKey(key)];
  }

  lemma {:induction false} DeriveInside(k: Knowledge, key: Key) returns (steps: seq<Term>)
    requires !key.ZeroKey? && !key.RandomKey? && !key.HandshakeKey? && !key.X3dhSecret?
    requires WellMade(key) && Derivable(k, key) && key !in k.keys
    ensures Derivation(k, steps) && Hashed(steps, key)
    decreases key, 0
  {
    steps := Derive(k, Inside(key));
    if key.RatchetRoot? || key.RatchetChain? {
      AgreedExactly(k, key.dh);
      Extended(k, steps, OfDh(key.dh));
      steps := steps + [OfDh(key.dh)];
    }
  }

  /** A key can be computed if and only if its structure says so. */
  lemma ComputableExactly(k: Knowledge, key: Key)
    requires WellMade(key)
    ensures Computable(k, key) <==> Derivable(k, key)
  {
    if Computable(k, key) {
      ComputableOnly(k, key);
    }
    if Derivable(k, key) {
      var steps := Derive(k, key);
    }
  }

  lemma ComputableOnly(k: Knowledge, key: Key)
    requires Computable(k, key)
    ensures Derivable(k, key)
  {
    var steps :| Derivation(k, steps) && OfKey(key) in steps;
    var i :| 0 <= i < |steps| && steps[i] == OfKey(key);
    StepsDeducible(k, steps, i);
  }

  // ---------------------------------------------------------------- keys of a session

  /** `k` holds no key of the session built on `secret`. */
  ghost predicate Outside(k: Knowledge, secret: Key) {
    !Computable(k, secret) && forall key :: key in k.keys ==> !RootedAt(key, secret)
  }

  lemma {:induction false} RootedNeedsSecret(k: Knowledge, key: Key, secret: Key)
    requires RootedAt(key, secret) && Derivable(k, key) && forall key' :: key' in k.keys ==> !RootedAt(key', secret)
    ensures Derivable(k, secret)
    decreases key
  {
    if !key.SessionRoot? && !key.SessionChain? {
      RootedNeedsSecret(k, Inside(key), secret);
    }
  }

  /** Who cannot compute the session's secret can compute none of its keys. */
  lemma OutsiderHasNoKey(k: Knowledge, secret: Key, key: Key)
    requires WellMade(secret) && Outside(k, secret) && Computable(k, key)
    ensures !RootedAt(key, secret)
  {
    ComputableOnly(k, key);
    if RootedAt(key, secret) {
      RootedNeedsSecret(k, key, secret);
      ComputableExactly(k, secret);
    }
  }
}
