/**
  What holds of one session over any sequence of calls with any arguments, calls that raise
  included: no message key is returned twice, and no returned key can be derived again from
  what the session still holds.
 */
module Secrecy {
  import opened Wrappers
  import opened Keys
  import opened Ratchet

  // ---------------------------------------------------------------- runs of one session

  datatype Call =
    | EncryptCall
    | DecryptCall(peer: PublicBytes, index: int, prevChainLen: int, newKey: nat)

  function Apply(s: Session, call: Call): Outcome<Key> {
    match call
    case EncryptCall =>
      var out := Encrypt(s);
      Outcome(out.session, if out.result.Ok? then Ok(out.result.value.key) else Err(out.result.error))
    case DecryptCall(peer, index, prevChainLen, newKey) => Decrypt(s, peer, index, prevChainLen, newKey)
  }

  datatype Trace = Trace(session: Session, returned: seq<Key>)

  /** The session after the calls, and the message keys they returned, in order. */
  function RunCalls(s: Session, calls: seq<Call>): Trace {
    if calls == [] then Trace(s, [])
    else
      var before := RunCalls(s, calls[..|calls| - 1]);
      var out := Apply(before.session, calls[|calls| - 1]);
      Trace(out.session, if out.result.Ok? then before.returned + [out.result.value] else before.returned)
  }

  /** A session as one of the four factories leaves it. */
  ghost predicate Initial(s: Session) {
    || s == Blank()
    || (exists secret, peer, mine :: IsSecret(secret) && s == InitAlice(secret, peer, mine))
    || (exists secret, mine :: IsSecret(secret) && s == InitBob(secret, mine))
  }

  predicate IsSecret(k: Key) {
    k.Shared? || (k.Hybrid? && k.classical.Shared?)
  }

  predicate IsRoot(k: Key) {
    if k.RootOf? then IsRoot(k.root) else IsSecret(k)
  }

  predicate IsChain(c: Key) {
    if c.NextChain? then IsChain(c.chain) else c.ChainOf? && IsRoot(c.root)
  }

  // ---------------------------------------------------------------- single use

  /** `chain` has been stepped `count` times since it was split off a root above `root`. */
  predicate ChainFits(chain: Option<Key>, count: nat, root: Option<Key>) {
    chain.Some? ==>
      root.Some? && IsChain(chain.value) && Level(chain.value) <= Level(root.value) && ChainIndex(chain.value) == count
  }

  predicate Proper(s: Session) {
    && (s.rootKey.Some? ==> IsRoot(s.rootKey.value))
    && ChainFits(s.sendingChain, s.seqSend, s.rootKey)
    && ChainFits(s.receivingChain, s.seqRecv, s.rootKey)
    && (s.sendingChain.Some? && s.receivingChain.Some? ==>
          Level(s.sendingChain.value) != Level(s.receivingChain.value))
    && |s.skipped| <= MAX_STORED
  }

  /** `chain` has moved past the message key `k`, or `k` is of another chain. */
  predicate Passed(chain: Option<Key>, k: Key)
    requires k.MessageKey?
  {
    chain.Some? && Level(chain.value) == Level(k) ==> ChainIndex(k.chain) < ChainIndex(chain.value)
  }

  /** `k` is a message key that no later step of `s` derives. */
  ghost predicate Spent(s: Session, k: Key) {
    && k.MessageKey? && IsChain(k.chain)
    && s.rootKey.Some? && Level(k) <= Level(s.rootKey.value)
    && Passed(s.sendingChain, k) && Passed(s.receivingChain, k)
  }

  ghost predicate Distinct(keys: seq<Key>) {
    forall i, j :: 0 <= i < j < |keys| ==> keys[i] != keys[j]
  }

  ghost predicate StoreAccounted(s: Session, returned: seq<Key>) {
    && (forall i :: 0 <= i < |s.skipped| ==> Spent(s, s.skipped[i].key) && s.skipped[i].key !in returned)
    && (forall i, j :: 0 <= i < j < |s.skipped| ==> s.skipped[i].key != s.skipped[j].key)
  }

  /** Every key that left its chain was returned once, is stored once, or is gone. */
  ghost predicate Accounted(s: Session, returned: seq<Key>) {
    && Proper(s)
    && Distinct(returned)
    && (forall k :: k in returned ==> Spent(s, k))
    && StoreAccounted(s, returned)
  }

  /** The key a skip stores was not spent before it, and spent keys stay spent. */
  lemma SkipOneSpends(s: Session)
    requires Proper(s) && CanSkip(s)
    ensures var s', k := SkipOne(s), MessageKey(s.receivingChain.value);
      Proper(s') && !Spent(s, k) && Spent(s', k) && forall k' :: Spent(s, k') ==> Spent(s', k')
  {
  }

  lemma SkipOneAccounted(s: Session, returned: seq<Key>)
    requires Accounted(s, returned) && CanSkip(s)
    ensures Accounted(SkipOne(s), returned)
  {
    SkipOneSpends(s);
    hide Spent, Proper;
  }

  lemma {:induction false} SkipLoopAccounted(s: Session, until: int, returned: seq<Key>)
    requires Accounted(s, returned) && CanSkip(s)
    ensures Accounted(SkipLoop(s, until), returned)
    decreases until - s.seqRecv
  {
    if s.seqRecv < until {
      SkipOneAccounted(s, returned);
      SkipLoopAccounted(SkipOne(s), until, returned);
    }
  }

  lemma SkipMessagesAccounted(s: Session, until: int, returned: seq<Key>)
    requires Accounted(s, returned)
    ensures Accounted(SkipMessages(s, until).session, returned)
  {
    if CanSkip(s) { SkipLoopAccounted(s, until, returned); }
  }

  /** Both chains of a DH step start at levels above every earlier chain. */
  lemma DhStepAccounted(s: Session, peer: PublicBytes, newKey: nat, returned: seq<Key>)
    requires Accounted(s, returned)
    ensures Accounted(DhStep(s, peer, newKey).session, returned)
  {
    var out := DhStep(s, peer, newKey);
    if out.result.Ok? {
      var s' := out.session;
      assert Level(s'.receivingChain.value) == Level(s.rootKey.value) + 1;
      assert Level(s'.sendingChain.value) == Level(s.rootKey.value) + 2;
      assert Level(s'.rootKey.value) == Level(s.rootKey.value) + 2;
    }
    assert forall k :: Spent(s, k) ==> Spent(out.session, k);
  }

  lemma FollowAccounted(s: Session, peer: PublicBytes, prevChainLen: int, newKey: nat, returned: seq<Key>)
    requires Accounted(s, returned)
    ensures Accounted(Follow(s, peer, prevChainLen, newKey).session, returned)
  {
    SkipMessagesAccounted(s, prevChainLen, returned);
    DhStepAccounted(SkipMessages(s, prevChainLen).session, peer, newKey, returned);
  }

  /** A key taken from the receiving chain was never returned or stored before. */
  lemma TakeKeyAccounted(s: Session, index: int, returned: seq<Key>)
    requires Accounted(s, returned)
    ensures var out := TakeKey(s, index);
      && (out.result.Err? ==> Accounted(out.session, returned))
      && (out.result.Ok? ==> Accounted(out.session, returned + [out.result.value]))
  {
    SkipMessagesAccounted(s, index, returned);
    var s1 := SkipMessages(s, index).session;
    var out := TakeKey(s, index);
    if out.result.Ok? {
      var k := out.result.value;
      assert !Spent(s1, k) && Spent(out.session, k);
      assert forall k' :: Spent(s1, k') ==> Spent(out.session, k');
    }
  }

  lemma DecryptAccounted(s: Session, peer: PublicBytes, index: int, prevChainLen: int, newKey: nat, returned: seq<Key>)
    requires Accounted(s, returned)
    ensures var out := Decrypt(s, peer, index, prevChainLen, newKey);
      && (out.result.Err? ==> Accounted(out.session, returned))
      && (out.result.Ok? ==> Accounted(out.session, returned + [out.result.value]))
  {
    var i := Find(s.skipped, Header(peer, index));
    if i < |s.skipped| {
      var s' := Decrypt(s, peer, index, prevChainLen, newKey).session;
      assert forall k :: Spent(s, k) ==> Spent(s', k);
    } else if !peer.Malformed? {
      FollowAccounted(s, peer, prevChainLen, newKey, returned);
      TakeKeyAccounted(Follow(s, peer, prevChainLen, newKey).session, index, returned);
    }
  }

  lemma EncryptAccounted(s: Session, returned: seq<Key>)
    requires Accounted(s, returned)
    ensures var out := Encrypt(s);
      && (out.result.Err? ==> Accounted(out.session, returned))
      && (out.result.Ok? ==> Accounted(out.session, returned + [out.result.value.key]))
  {
    var out := Encrypt(s);
    if out.result.Ok? {
      var k := out.result.value.key;
      assert !Spent(s, k) && Spent(out.session, k);
      assert forall k' :: Spent(s, k') ==> Spent(out.session, k');
    }
  }

  /** Accounting goes on from any moment at which the keys `before` have been returned. */
  lemma {:induction false} RunAccountedFrom(s: Session, before: seq<Key>, calls: seq<Call>)
    requires Accounted(s, before)
    ensures var t := RunCalls(s, calls); Accounted(t.session, before + t.returned)
  {
    hide Accounted, Apply;
    if calls == [] {
      assert before + [] == before;
    } else {
      var front, last := calls[..|calls| - 1], calls[|calls| - 1];
      RunAccountedFrom(s, before, front);
      var t := RunCalls(s, front);
      ApplyAccounted(t.session, last, before + t.returned);
      var out := Apply(t.session, last);
      if out.result.Ok? {
        assert before + t.returned + [out.result.value] == before + (t.returned + [out.result.value]);
      }
    }
  }

  lemma ApplyAccounted(s: Session, call: Call, returned: seq<Key>)
    requires Accounted(s, returned)
    ensures var out := Apply(s, call);
      && (out.result.Err? ==> Accounted(out.session, returned))
      && (out.result.Ok? ==> Accounted(out.session, returned + [out.result.value]))
  {
    hide Accounted, Decrypt;
    match call
    case EncryptCall => EncryptAccounted(s, returned);
    case DecryptCall(peer, index, prevChainLen, newKey) =>
      DecryptAccounted(s, peer, index, prevChainLen, newKey, returned);
  }

  lemma RunAccounted(s: Session, calls: seq<Call>)
    requires Initial(s)
    ensures var t := RunCalls(s, calls); Accounted(t.session, t.returned)
  {
    InitialAccounted(s);
    RunAccountedFrom(s, [], calls);
    assert [] + RunCalls(s, calls).returned == RunCalls(s, calls).returned;
  }

  lemma InitialAccounted(s: Session)
    requires Initial(s)
    ensures Accounted(s, [])
  {
  }

  /** A key that counts as returned is never returned by any later call. */
  lemma NeverReturnedAgain(s: Session, before: seq<Key>, k: Key, calls: seq<Call>)
    requires Accounted(s, before) && k in before
    ensures k !in RunCalls(s, calls).returned
  {
    RunAccountedFrom(s, before, calls);
    var after := RunCalls(s, calls).returned;
    var i :| 0 <= i < |before| && before[i] == k;
    forall j | 0 <= j < |after| ensures after[j] != k {
      assert (before + after)[i] == k && (before + after)[|before| + j] == after[j];
    }
  }

  /** No session returns the same message key twice, whatever it is called with. */
  lemma SingleUse(s: Session, calls: seq<Call>, i: nat, j: nat)
    requires Initial(s)
    requires i < j < |RunCalls(s, calls).returned|
    ensures RunCalls(s, calls).returned[i] != RunCalls(s, calls).returned[j]
  {
    RunAccounted(s, calls);
  }

  /** A key that counts as returned is not returned again. */
  lemma NotReturnedAgain(s: Session, k: Key, peer: PublicBytes, index: int, prevChainLen: int, newKey: nat)
    requires Accounted(s, [k])
    ensures Decrypt(s, peer, index, prevChainLen, newKey).result != Ok(k)
  {
    DecryptAccounted(s, peer, index, prevChainLen, newKey, [k]);
    var twice := [k] + [k];
    assert !Distinct(twice) by { assert twice[0] == twice[1]; }
  }

  // ---------------------------------------------------------------- one-wayness

  /**
    What an adversary can compute from the keys in `held`. It owns every private key, every
    X25519 and every ML-KEM secret there is, and applies the KDFs; it cannot invert them.
   */
  predicate Derivable(held: set<Key>, k: Key) {
    k in held ||
    match k
    case Shared(_) => false
    case KemSecret(_, _) => true
    case KemRejected(_, _, _) => true
    case Dh(_, _) => true
    case Hybrid(c, q) => Derivable(held, c) && Derivable(held, q)
    case RootOf(r, d) => Derivable(held, r) && Derivable(held, d)
    case ChainOf(r, d) => Derivable(held, r) && Derivable(held, d)
    case MessageKey(c) => Derivable(held, c)
    case NextChain(c) => Derivable(held, c)
  }

  function OptionSet(k: Option<Key>): set<Key> {
    if k.Some? then {k.value} else {}
  }

  function StoredKeys(s: Session): set<Key> {
    set i | 0 <= i < |s.skipped| :: s.skipped[i].key
  }

  /** Everything a copy of the session's state gives away. */
  function Held(s: Session): set<Key> {
    OptionSet(s.rootKey) + OptionSet(s.sendingChain) + OptionSet(s.receivingChain) + StoredKeys(s)
  }

  lemma {:induction false} RootUnderivable(held: set<Key>, r: Key)
    requires IsRoot(r)
    requires forall h :: h in held && IsRoot(h) ==> Level(r) < Level(h)
    ensures !Derivable(held, r)
  {
    match r
    case RootOf(below, _) => RootUnderivable(held, below);
    case Hybrid(c, _) => assert IsRoot(c);
    case _ =>
  }

  lemma {:induction false} ChainUnderivable(held: set<Key>, c: Key)
    requires IsChain(c)
    requires forall h :: h in held && IsRoot(h) ==> Level(c) <= Level(h)
    requires forall h :: h in held && IsChain(h) && Level(h) == Level(c) ==> ChainIndex(c) < ChainIndex(h)
    ensures !Derivable(held, c)
  {
    if c.NextChain? {
      ChainUnderivable(held, c.chain);
    } else {
      RootUnderivable(held, c.root);
    }
  }

  /** A spent key can be computed from the session exactly when it is still stored as skipped. */
  lemma SpentKeyUnderivable(s: Session, returned: seq<Key>, k: Key)
    requires Accounted(s, returned) && Spent(s, k)
    ensures Derivable(Held(s), k) <==> k in StoredKeys(s)
  {
    if k !in StoredKeys(s) {
      ChainUnderivable(Held(s), k.chain);
    }
  }

  /** Forward secrecy: no key returned so far can be computed from the state the session is in
      now, not even with every private key in the world. */
  lemma ReturnedKeysUnderivable(s: Session, calls: seq<Call>, k: Key)
    requires Initial(s)
    requires k in RunCalls(s, calls).returned
    ensures !Derivable(Held(RunCalls(s, calls).session), k)
  {
    RunAccounted(s, calls);
    var t := RunCalls(s, calls);
    SpentKeyUnderivable(t.session, t.returned, k);
  }

  /** The other side of the coin: from a chain key every later message key of that chain follows. */
  lemma {:induction false} LaterKeysDerivable(held: set<Key>, c: Key, n: nat)
    requires c in held
    ensures Derivable(held, Steps(c, n)) && Derivable(held, MessageKey(Steps(c, n)))
  {
    if n > 0 { LaterKeysDerivable(held, c, n - 1); }
  }

  // ---------------------------------------------------------------- bounds and refusals

  /** At most 1000 skipped keys are held after any calls. */
  lemma StoreBounded(s: Session, calls: seq<Call>)
    requires Initial(s)
    ensures |RunCalls(s, calls).session.skipped| <= MAX_STORED
  {
    RunAccounted(s, calls);
  }

  /** A decrypt that raises leaves the session as it was, except when it raises after the DH
      step has begun: the header key is well formed, is not the current one, and closing the
      current chain was not refused. */
  lemma ErrorsLeaveSession(s: Session, peer: PublicBytes, index: int, prevChainLen: int, newKey: nat)
    requires Decrypt(s, peer, index, prevChainLen, newKey).result.Err?
    ensures Decrypt(s, peer, index, prevChainLen, newKey).session == s
      <==> peer.Malformed? || s.dhRemote == Some(peer) || RefusesSkip(s, prevChainLen)
  {
    var out := Decrypt(s, peer, index, prevChainLen, newKey);
    if !peer.Malformed? && s.dhRemote != Some(peer) && !RefusesSkip(s, prevChainLen) {
      var s1 := SkipMessages(s, prevChainLen).session;
      var s2 := DhStep(s1, peer, newKey).session;
      assert s2.dhRemote == Some(peer);
      assert Follow(s, peer, prevChainLen, newKey).session == s2;
      if DhStep(s1, peer, newKey).result.Ok? {
        assert out.session == TakeKey(s2, index).session;
        if CanSkip(s2) { SkipLoopKeepsRemote(s2, index); }
      }
    }
  }

  lemma {:induction false} SkipLoopKeepsRemote(s: Session, until: int)
    requires CanSkip(s)
    ensures SkipLoop(s, until).dhRemote == s.dhRemote
    decreases until - s.seqRecv
  {
    if s.seqRecv < until { SkipLoopKeepsRemote(SkipOne(s), until); }
  }
}
