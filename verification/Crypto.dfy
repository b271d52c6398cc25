/**
  The primitives as a free term algebra. X25519 scalars are names, Diffie-Hellman is a
  normalised unordered pair, and every HKDF, HMAC or hash output is its own constructor
  applied to its inputs. Two derived values are equal exactly when they were derived in
  the same way from equal inputs.
  */
module Crypto {
  import opened Wrappers

  type Scalar = nat

  /** `ZeroPoint` is the all-zero encoding, which `RatchetHeader::validate` rejects. */
  datatype PublicKey = ZeroPoint | Point(scalar: Scalar)

  datatype DhOutput = ZeroOutput | Shared(low: Scalar, high: Scalar)

  function PublicOf(s: Scalar): PublicKey { Point(s) }

  function DiffieHellman(s: Scalar, p: PublicKey): DhOutput {
    match p
    case ZeroPoint => ZeroOutput
    case Point(t) => if s <= t then Shared(s, t) else Shared(t, s)
  }

  /** An ML-KEM-768 ciphertext: the key pair it targets and the sender's random coins. */
  datatype KemCiphertext = KemCiphertext(pair: nat, coins: nat)

  /** Its shared secret; decapsulating with another pair's key gives an unrelated value. */
  datatype KemSecret = Encapsulated(c: KemCiphertext) | Rejected(pair: nat, c: KemCiphertext)

  function Decapsulate(pair: nat, c: KemCiphertext): KemSecret {
    if pair == c.pair then Encapsulated(c) else Rejected(pair, c)
  }

  /** One field absorbed by a BLAKE3 transcript hash. */
  datatype Field = KeyField(key: PublicKey) | IdentityField(identity: nat) | DeviceField(id: nat)

  datatype Digest =
    | Blake3(fields: seq<Field>)
    | Bind(salt: Digest, inner: Digest)

  datatype Key =
    | ZeroKey
    | RandomKey(id: nat)
    | HandshakeKey(dh: DhOutput)
    | X3dhSecret(dhs: seq<DhOutput>, kem: Option<KemSecret>, transcript: Digest)
    | SessionRoot(secret: Key)
    | SessionChain(secret: Key)
    | RatchetRoot(root: Key, dh: DhOutput)
    | RatchetChain(root: Key, dh: DhOutput)
    | NextChain(chain: Key)
    | MessageKey(chain: Key)
    | GroupChain(chain: Key)
    | GroupMessageKey(chain: Key)

  /** The chain key reached from `start` after `n` applications of HMAC(., 0x02). */
  function ChainAt(start: Key, n: nat): Key {
    if n == 0 then start else NextChain(ChainAt(start, n - 1))
  }

  /** Two chains that do not start inside one another share no key at any position. */
  lemma {:induction false} ChainAtInjective(c: Key, d: Key, n: nat, m: nat)
    requires !c.NextChain? && !d.NextChain?
    requires ChainAt(c, n) == ChainAt(d, m)
    ensures c == d && n == m
    decreases n
  {
    if n > 0 && m > 0 {
      ChainAtInjective(c, d, n - 1, m - 1);
    }
  }

  /** Every key of the session built on `secret`, and no key an outsider can form. */
  predicate RootedAt(k: Key, secret: Key) {
    match k
    case SessionRoot(s) => s == secret
    case SessionChain(s) => s == secret
    case RatchetRoot(r, _) => RootedAt(r, secret)
    case RatchetChain(r, _) => RootedAt(r, secret)
    case NextChain(c) => RootedAt(c, secret)
    case MessageKey(c) => RootedAt(c, secret)
    case _ => false
  }

  lemma {:induction false} ChainAtRooted(start: Key, n: nat, secret: Key)
    ensures RootedAt(ChainAt(start, n), secret) == RootedAt(start, secret)
    decreases n
  {
    if n > 0 {
      ChainAtRooted(start, n - 1, secret);
    }
  }
}
