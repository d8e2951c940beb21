/**
  Key material as a free term algebra.

  HKDF, X25519 and ML-KEM are ideal: two derivations give the same key only if they are
  the same derivation. A 64-byte HKDF output is two terms, one for each half. A private key
  is a number, its public key is `Point` of that number, and the X25519 shared secret is the
  unordered pair of the two numbers, so both ends compute the same term.
 */
module Keys {

  datatype Key =
    | Shared(id: nat)                        // an X3DH shared secret
    | KemSecret(keyPair: nat, coins: nat)    // an ML-KEM-768 shared secret
    | KemRejected(keyPair: nat, madeFor: nat, coins: nat)   // decapsulated with the wrong key
    | Hybrid(classical: Key, kem: Key)       // HKDF "AnonyMus-DR-Hybrid"
    | Dh(low: nat, high: nat)                // an X25519 shared secret
    | RootOf(root: Key, dh: Key)             // first half of HKDF "AnonyMus-DR-RootRatchet"
    | ChainOf(root: Key, dh: Key)            // second half of it
    | MessageKey(chain: Key)                 // first half of HKDF "AnonyMus-DR-ChainRatchet"
    | NextChain(chain: Key)                  // second half of it

  /** The 32 bytes a peer may announce as its public key. `from_public_bytes` refuses a
      `Malformed` value; `exchange` refuses a `LowOrder` point. */
  datatype PublicBytes = Point(id: nat) | LowOrder(tag: nat) | Malformed(tag: nat)

  function Exchange(mine: nat, theirs: nat): Key {
    if mine <= theirs then Dh(mine, theirs) else Dh(theirs, mine)
  }

  /** How many root ratchet steps lie above a key. */
  function Level(k: Key): nat {
    match k
    case RootOf(r, _) => 1 + Level(r)
    case ChainOf(r, _) => 1 + Level(r)
    case NextChain(c) => Level(c)
    case MessageKey(c) => Level(c)
    case _ => 0
  }

  /** How many chain steps lie between a chain key and the root of its chain. */
  function ChainIndex(c: Key): nat {
    if c.NextChain? then 1 + ChainIndex(c.chain) else 0
  }

  /** The chain key after `n` steps. */
  function Steps(c: Key, n: nat): Key {
    if n == 0 then c else NextChain(Steps(c, n - 1))
  }

  lemma {:induction false} StepsCount(c: Key, n: nat)
    ensures ChainIndex(Steps(c, n)) == ChainIndex(c) + n
    ensures Level(Steps(c, n)) == Level(c)
  {
    if n > 0 { StepsCount(c, n - 1); }
  }
}
