/**
  The post-quantum factories: both ends mix an ML-KEM-768 secret into the shared secret when
  they can, and silently fall back to the plain one when they cannot.
 */
module Hybrid {
  import opened Wrappers
  import opened Keys
  import opened Ratchet
  import opened Conversation

  /** A ciphertext remembers the key pair it was made for. */
  datatype KemCiphertext = KemCiphertext(keyPair: nat, coins: nat)

  datatype AliceSetup = AliceSetup(session: Session, kemCiphertext: Option<KemCiphertext>)

  /** liboqs on one machine: absent, or present; with a key that makes `decapsulate` raise. */
  datatype Kem = Absent | Present(decapsulationFails: bool)

  function Encapsulate(kem: Kem, peerKem: nat, coins: nat): Option<(KemCiphertext, Key)> {
    if kem.Absent? then None else Some((KemCiphertext(peerKem, coins), KemSecret(peerKem, coins)))
  }

  /** Decapsulating with the wrong private key does not fail: it gives another secret. */
  function Decapsulate(kem: Kem, c: KemCiphertext, myKem: nat): Option<Key> {
    if kem.Absent? || kem.decapsulationFails then None
    else if c.keyPair == myKem then Some(KemSecret(myKem, c.coins))
    else Some(KemRejected(myKem, c.keyPair, c.coins))
  }

  function AliceSecret(secret: Key, kem: Kem, peerKem: nat, coins: nat): Key {
    var r := Encapsulate(kem, peerKem, coins);
    if r.Some? then Hybrid(secret, r.value.1) else secret
  }

  function InitAlicePq(secret: Key, peer: nat, newKey: nat, kem: Kem, peerKem: nat, coins: nat): AliceSetup {
    var r := Encapsulate(kem, peerKem, coins);
    AliceSetup(InitAlice(AliceSecret(secret, kem, peerKem, coins), peer, newKey),
               if r.Some? then Some(r.value.0) else None)
  }

  function BobSecret(secret: Key, kem: Kem, myKem: Option<nat>, c: Option<KemCiphertext>): Key {
    if myKem.None? || c.None? || kem.Absent? then secret
    else
      var r := Decapsulate(kem, c.value, myKem.value);
      if r.Some? then Hybrid(secret, r.value) else secret
  }

  function InitBobPq(secret: Key, mine: nat, kem: Kem, myKem: Option<nat>, c: Option<KemCiphertext>): Session {
    InitBob(BobSecret(secret, kem, myKem, c), mine)
  }

  /** Bob can undo what Alice did: she did nothing, or he holds the key pair she used and his
      liboqs works. */
  predicate Compatible(aliceKem: Kem, peerKem: nat, bobKem: Kem, myKem: Option<nat>) {
    aliceKem.Absent? || (bobKem.Present? && !bobKem.decapsulationFails && myKem == Some(peerKem))
  }

  /**
    Alice's first message is decrypted to its own key exactly when the two ends start from one
    shared secret and their machines are compatible: the key depends on both secrets. Nothing
    raises when they disagree.
   */
  lemma FirstMessageAgrees(aliceShared: nat, bobShared: nat, aliceKem: Kem, bobKem: Kem, peerKem: nat, coins: nat,
                           myKem: Option<nat>, bobKey: nat, aliceKey: nat, newKey: nat)
    requires bobKey != aliceKey
    ensures
      var alice := InitAlicePq(Shared(aliceShared), bobKey, aliceKey, aliceKem, peerKem, coins);
      var bob := InitBobPq(Shared(bobShared), bobKey, bobKem, myKem, alice.kemCiphertext);
      var sent := Encrypt(alice.session).result;
      && sent.Ok?
      && var got := Attempt(bob, sent.value, newKey).result;
         && got.Ok?
         && (got.value == sent.value.key <==>
               aliceShared == bobShared && Compatible(aliceKem, peerKem, bobKem, myKem))
  {
    var alice := InitAlicePq(Shared(aliceShared), bobKey, aliceKey, aliceKem, peerKem, coins);
    var bob := InitBobPq(Shared(bobShared), bobKey, bobKem, myKem, alice.kemCiphertext);
    var a := AliceSecret(Shared(aliceShared), aliceKem, peerKem, coins);
    var b := BobSecret(Shared(bobShared), bobKem, myKem, alice.kemCiphertext);
    assert Encrypt(alice.session).result.value.key == MessageKey(ChainOf(a, Exchange(bobKey, aliceKey)));
    var s := Follow(bob, Point(aliceKey), 0, newKey).session;
    assert s.receivingChain == Some(ChainOf(b, Exchange(bobKey, aliceKey)));
    assert SkipMessages(s, 0) == Outcome(s, Ok(()));
  }

  /** On compatible machines the hybrid factories start a conversation like the plain ones, so
      agreement holds for every run of it. */
  lemma HybridAgreement(secret: nat, aliceKem: Kem, bobKem: Kem, peerKem: nat, coins: nat, myKem: Option<nat>,
                        bobKey: nat, aliceKey: nat, es: seq<Event>, toAlice: bool, i: nat)
    requires bobKey != aliceKey && Compatible(aliceKem, peerKem, bobKem, myKem)
    requires var w := HybridStart(Shared(secret), aliceKem, bobKem, peerKem, coins, myKem, bobKey, aliceKey);
      ValidRun(w, es) && i < |Side(Run(w, es), !toAlice).outbox|
    ensures
      var w := Run(HybridStart(Shared(secret), aliceKem, bobKem, peerKem, coins, myKem, bobKey, aliceKey), es);
      var receiver, sender := Side(w, toAlice), Side(w, !toAlice);
      var o := sender.outbox[i];
      var result := Attempt(receiver.session, o, w.nextKey).result;
      && (Fair(receiver, sender, i) ==>
            result == if OverLimit(receiver.session, o) then Err(TooManySkipped) else Ok(o.key))
      && (!Fair(receiver, sender, i) ==> result != Ok(o.key))
  {
    var a := AliceSecret(Shared(secret), aliceKem, peerKem, coins);
    assert HybridStart(Shared(secret), aliceKem, bobKem, peerKem, coins, myKem, bobKey, aliceKey)
        == Start(a, bobKey, aliceKey);
    Agreement(a, bobKey, aliceKey, es, toAlice, i);
  }

  function HybridStart(secret: Key, aliceKem: Kem, bobKem: Kem, peerKem: nat, coins: nat, myKem: Option<nat>,
                       bobKey: nat, aliceKey: nat): World {
    var alice := InitAlicePq(secret, bobKey, aliceKey, aliceKem, peerKem, coins);
    World(End(alice.session, [], {}, {}),
          End(InitBobPq(secret, bobKey, bobKem, myKem, alice.kemCiphertext), [], {}, {}),
          bobKey + aliceKey + 1)
  }
}
