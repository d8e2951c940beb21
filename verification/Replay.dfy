/**
  What decrypt does with any arguments, in closed form, and what it therefore does with a
  message it should not be given: one that was delivered before, or whose key was evicted.
 */
module Replay {
  import opened Wrappers
  import opened Lists
  import opened Keys
  import opened Ratchet
  import opened Ledger
  import opened Conversation
  import Secrecy

  // ---------------------------------------------------------------- any arguments

  /** How many messages of the receiving chain are skipped to get to `index`. */
  function Ahead(from: nat, index: int): nat {
    if from < index then index - from else 0
  }

  /** Only four fields of a session change by skipping: the chain goes on, the counter with it,
      and the store. */
  lemma {:induction false} SkipLoopFields(s: Session, until: int)
    requires CanSkip(s)
    ensures var r, n := SkipLoop(s, until), Ahead(s.seqRecv, until);
      r == s.(receivingChain := Some(Steps(s.receivingChain.value, n)), seqRecv := s.seqRecv + n, skipped := r.skipped)
    decreases until - s.seqRecv
  {
    if s.seqRecv < until {
      SkipLoopFields(SkipOne(s), until);
      StepsNext(s.receivingChain.value, Ahead(s.seqRecv, until) - 1);
    }
  }

  /** When a call of decrypt raises: a condition on the session and the arguments. */
  predicate Raises(s: Session, peer: PublicBytes, index: int, prevChainLen: int) {
    && Find(s.skipped, Header(peer, index)) == |s.skipped|
    && (|| peer.Malformed?
        || Refused(s, peer, index, prevChainLen)
        || (if s.dhRemote == Some(peer) then s.receivingChain.None?
            else peer.LowOrder? || s.dhPrivate.None? || s.rootKey.None?))
  }

  /** The chain key from which a call that is not answered from the store starts. */
  function BaseChain(s: Session, peer: PublicBytes): Option<Key> {
    if s.dhRemote == Some(peer) then s.receivingChain
    else if s.rootKey.Some? && s.dhPrivate.Some? && peer.Point?
    then Some(ChainOf(s.rootKey.value, Exchange(s.dhPrivate.value, peer.id)))
    else None
  }

  function BaseCount(s: Session, peer: PublicBytes): nat {
    if s.dhRemote == Some(peer) then s.seqRecv else 0
  }

  /**
    Decrypt in closed form, for every session and all arguments. It raises exactly when
    `Raises` says so. Otherwise it answers from the store, or with the message key of its base
    chain that is `index` places from the chain's start, or with the next key of that chain
    when `index` has been passed already.
   */
  lemma DecryptClosedForm(s: Session, peer: PublicBytes, index: int, prevChainLen: int, newKey: nat)
    ensures
      var out := Decrypt(s, peer, index, prevChainLen, newKey);
      var at, base, from := Find(s.skipped, Header(peer, index)), BaseChain(s, peer), BaseCount(s, peer);
      && (out.result.Err? <==> Raises(s, peer, index, prevChainLen))
      && (at < |s.skipped| ==>
            out == Outcome(s.(skipped := Remove(s.skipped, at)), Ok(s.skipped[at].key)))
      && (at == |s.skipped| && out.result.Ok? ==>
            && base.Some? && out.result.value == MessageKey(Steps(base.value, Ahead(from, index)))
            && out.session ==
                 (if s.dhRemote == Some(peer) then s else DhStep(s, peer, newKey).session)
                   .(receivingChain := Some(Steps(base.value, Ahead(from, index) + 1)),
                     seqRecv := from + Ahead(from, index) + 1, skipped := out.session.skipped))
  {
    hide SkipLoop;
    if Find(s.skipped, Header(peer, index)) == |s.skipped| && !peer.Malformed? {
      if s.dhRemote == Some(peer) {
        if CanSkip(s) { SkipLoopFields(s, index); }
      } else {
        if CanSkip(s) { SkipLoopFields(s, prevChainLen); }
        var followed := Follow(s, peer, prevChainLen, newKey);
        if followed.result.Ok? { SkipLoopFields(followed.session, index); }
      }
    }
  }

  // ---------------------------------------------------------------- repeated deliveries

  lemma {:induction false} RootGrows(t: Transcript, t': Transcript, n: nat)
    requires t.secret == t'.secret && t.keys <= t'.keys && n < |t.keys|
    ensures RootAt(t', n) == RootAt(t, n)
  {
    if n > 0 { RootGrows(t, t', n - 1); }
  }

  lemma KeyGrows(t: Transcript, t': Transcript, m: Msg)
    requires t.secret == t'.secret && t.keys <= t'.keys && m.epoch < |t.keys|
    ensures KeyOf(t', m) == KeyOf(t, m) && KeyId(t', m.epoch) == KeyId(t, m.epoch)
  {
    if m.epoch > 0 { RootGrows(t, t', m.epoch - 1); }
  }

  /** A delivery that is not fair is of a passed message that is not stored. */
  lemma UnfairIsPassed(me: End, peer: End, v: View, vp: View, t: Transcript, mine: seq<Msg>, theirs: seq<Msg>, i: nat)
    requires Secrecy.IsSecret(t.secret) && ValidTranscript(t)
    requires (v.top == vp.top + 1 && |t.keys| == v.top + 1) || (vp.top == v.top + 1 && |t.keys| == vp.top + 1)
    requires EndOk(me, v, t, theirs, mine) && EndOk(peer, vp, t, mine, theirs)
    requires i < |peer.outbox| && !Fair(me, peer, i)
    ensures var m, o := theirs[i], peer.outbox[i];
      && o == OutgoingOf(t, m) && IsPassed(v, t, m) && m !in v.stored
      && Find(me.session.skipped, OutHeader(o)) == |me.session.skipped|
      && me.session == Image(v, t)
      && (me.session.dhRemote == Some(o.dh) <==> m.epoch + 1 == v.top)
  {
    hide Image, IsPassed, EvictedOk, ValidView, HeaderOf, PrevOf, KeyOf, Decrypt;
    var m := theirs[i];
    assert OwnMsg(vp.top, t, m) && peer.outbox[i] == OutgoingOf(t, m);
    assert Accounted(me, v, t, i, m);
    WhereAccounted(me, v, t, i, m);
    StoredIsFound(v, t, m);
    PassedIsBehind(v, t, m);
  }

  /** A message of the current chain that is handed over again is not refused: the call gives
      the NEXT key of the chain and moves the chain past it, and nothing else changes. */
  lemma ReplayMovesOn(secret: Key, bobKey: nat, aliceKey: nat, es: seq<Event>, toAlice: bool, i: nat)
    requires Secrecy.IsSecret(secret) && bobKey != aliceKey && ValidRun(Start(secret, bobKey, aliceKey), es)
    requires
      var w := Run(Start(secret, bobKey, aliceKey), es);
      && i < |Side(w, !toAlice).outbox| && !Fair(Side(w, toAlice), Side(w, !toAlice), i)
      && Side(w, toAlice).session.dhRemote == Some(Side(w, !toAlice).outbox[i].dh)
    ensures
      var w := Run(Start(secret, bobKey, aliceKey), es);
      var s := Side(w, toAlice).session;
      && s.receivingChain.Some?
      && Attempt(s, Side(w, !toAlice).outbox[i], w.nextKey) ==
           Outcome(s.(receivingChain := Some(NextChain(s.receivingChain.value)), seqRecv := s.seqRecv + 1),
                   Ok(MessageKey(s.receivingChain.value)))
  {
    hide BookOk, Decrypt, Image;
    var w := Run(Start(secret, bobKey, aliceKey), es);
    var b := RunOk(secret, bobKey, aliceKey, es);
    BookEnds(w, b, toAlice);
    UnfairIsPassed(Side(w, toAlice), Side(w, !toAlice), ViewOf(b, toAlice), ViewOf(b, !toAlice), b.t,
                   Log(b, toAlice), Log(b, !toAlice), i);
    PassedMovesOn(ViewOf(b, toAlice), b.t, Log(b, !toAlice)[i], w.nextKey);
  }

  lemma BookEnds(w: World, b: Book, alice: bool)
    requires BookOk(w, b)
    ensures var v, vp := ViewOf(b, alice), ViewOf(b, !alice);
      && ValidTranscript(b.t) && w.nextKey !in b.t.keys
      && ((v.top == vp.top + 1 && |b.t.keys| == v.top + 1) || (vp.top == v.top + 1 && |b.t.keys| == vp.top + 1))
      && EndOk(Side(w, alice), v, b.t, Log(b, !alice), Log(b, alice))
      && EndOk(Side(w, !alice), vp, b.t, Log(b, alice), Log(b, !alice))
  {
    hide EndOk, ValidTranscript;
  }

  lemma PassedMovesOn(v: View, t: Transcript, m: Msg, newKey: nat)
    requires IsPassed(v, t, m) && m.epoch + 1 == v.top
    requires Find(Image(v, t).skipped, HeaderOf(t, m)) == |Image(v, t).skipped|
    ensures var s := Image(v, t);
      && s.receivingChain == Some(ChainAt(t, m.epoch, v.recv)) && s.seqRecv == v.recv
      && Attempt(s, OutgoingOf(t, m), newKey) ==
           Outcome(s.(receivingChain := Some(NextChain(s.receivingChain.value)), seqRecv := s.seqRecv + 1),
                   Ok(MessageKey(s.receivingChain.value)))
  {
    assert SkipMessages(Image(v, t), m.index) == Outcome(Image(v, t), Ok(()));
  }

  /**
    Whose key that is. The repeated delivery returns the key of the peer's message that has the
    receiver's counter for its number, whether it was sent by then or is sent later. And that
    message is lost: no later call of any kind returns its key again.
   */
  lemma ReplayStealsKey(secret: Key, bobKey: nat, aliceKey: nat, es: seq<Event>, more: seq<Event>, toAlice: bool,
                        i: nat, j: nat, calls: seq<Secrecy.Call>)
    requires Secrecy.IsSecret(secret) && bobKey != aliceKey && ValidRun(Start(secret, bobKey, aliceKey), es)
    requires ValidRun(Start(secret, bobKey, aliceKey), es + more)
    requires
      var w, later := Run(Start(secret, bobKey, aliceKey), es), Run(Start(secret, bobKey, aliceKey), es + more);
      var receiver, sender := Side(w, toAlice), Side(w, !toAlice);
      && i < |sender.outbox| && !Fair(receiver, sender, i)
      && receiver.session.dhRemote == Some(sender.outbox[i].dh)
      && j < |Side(later, !toAlice).outbox|
      && Side(later, !toAlice).outbox[j].dh == sender.outbox[i].dh
      && Side(later, !toAlice).outbox[j].index == receiver.session.seqRecv
    ensures
      var w, later := Run(Start(secret, bobKey, aliceKey), es), Run(Start(secret, bobKey, aliceKey), es + more);
      var key := Side(later, !toAlice).outbox[j].key;
      var out := Attempt(Side(w, toAlice).session, Side(w, !toAlice).outbox[i], w.nextKey);
      out.result == Ok(key) && key !in Secrecy.RunCalls(out.session, calls).returned
  {
    hide BookOk, Decrypt, Image, IsPassed, KeyOf, Secrecy.Accounted;
    var w, later := Run(Start(secret, bobKey, aliceKey), es), Run(Start(secret, bobKey, aliceKey), es + more);
    var b, b' := RunGrows(secret, bobKey, aliceKey, es, more);
    BookEnds(w, b, toAlice);
    BookEnds(later, b', toAlice);
    var v, m, m' := ViewOf(b, toAlice), Log(b, !toAlice)[i], Log(b', !toAlice)[j];
    UnfairIsPassed(Side(w, toAlice), Side(w, !toAlice), v, ViewOf(b, !toAlice), b.t,
                   Log(b, toAlice), Log(b, !toAlice), i);
    PassedMovesOn(v, b.t, m, w.nextKey);
    PassedEpoch(v, b.t, m);
    assert OwnMsg(ViewOf(b', !toAlice).top, b'.t, m') && Side(later, !toAlice).outbox[j] == OutgoingOf(b'.t, m');
    SameEpoch(b.t, b'.t, m, m');
    KeyGrows(b.t, b'.t, m');
    KeyAt(b.t, m');
    ImageAccounted(v, b.t, m);
    var o := Side(w, !toAlice).outbox[i];
    Secrecy.DecryptAccounted(Image(v, b.t), o.dh, o.index, o.prevChainLength, w.nextKey, [KeyOf(b.t, m)]);
    var out := Attempt(Image(v, b.t), o, w.nextKey);
    Secrecy.NeverReturnedAgain(out.session, [KeyOf(b.t, m)] + [out.result.value], out.result.value, calls);
  }

  lemma KeyAt(t: Transcript, m: Msg)
    ensures KeyOf(t, m) == MessageKey(ChainAt(t, m.epoch, m.index))
  {
  }

  lemma PassedEpoch(v: View, t: Transcript, m: Msg)
    requires IsPassed(v, t, m) && v.top < |t.keys|
    ensures 1 <= m.epoch < |t.keys|
  {
  }

  /** The announced key tells the epoch. */
  lemma SameEpoch(t: Transcript, t': Transcript, m: Msg, m': Msg)
    requires ValidTranscript(t') && t.keys <= t'.keys && m.epoch < |t.keys| && m'.epoch < |t'.keys|
    requires KeyId(t, m.epoch) == KeyId(t', m'.epoch)
    ensures m.epoch == m'.epoch
  {
    assert t'.keys[m.epoch] == t.keys[m.epoch];
  }

  // ---------------------------------------------------------------- closed chains

  lemma {:induction false} StepsInjective(c: Key, c': Key, n: nat)
    requires Steps(c, n) == Steps(c', n)
    ensures c == c'
  {
    if n > 0 { StepsInjective(c, c', n - 1); }
  }

  /** The chain between a receiver's key pair and one of the peer's old ones is no chain of the
      conversation, so none of its keys is the key of a message. */
  lemma StrayKey(t: Transcript, t': Transcript, top: nat, past: nat, n: nat, m: Msg)
    requires Secrecy.IsSecret(t.secret) && t.secret == t'.secret && t.keys <= t'.keys && ValidTranscript(t')
    requires past < top < |t.keys| && 1 <= m.epoch < |t'.keys|
    ensures KeyOf(t', m) != MessageKey(Steps(ChainOf(RootAt(t, top), Exchange(KeyId(t, top), KeyId(t, past))), n))
  {
    var stray := ChainOf(RootAt(t, top), Exchange(KeyId(t, top), KeyId(t, past)));
    RootsAreRoots(t, top);
    StepsAreChains(stray, n);
    ChainShape(t', m.epoch, m.index);
    if m.epoch == top + 1 && m.index == n {
      assert t'.keys[past] != t'.keys[top + 1] && t'.keys[top] == t.keys[top] && t'.keys[past] == t.keys[past];
      assert Link(t', top) != Exchange(KeyId(t, top), KeyId(t, past));
      if Steps(ChainOf(RootAt(t', top), Link(t', top)), n) == Steps(stray, n) {
        StepsInjective(ChainOf(RootAt(t', top), Link(t', top)), stray, n);
        assert false;
      }
    }
  }

  /**
    A message of a closed chain that is handed over again is taken for the start of a new one:
    unless the limit refuses it, the call makes a DH ratchet step towards the peer's old key,
    and returns a key that no message of the conversation has, sent or still to be sent.
   */
  lemma ReplayStrays(secret: Key, bobKey: nat, aliceKey: nat, es: seq<Event>, more: seq<Event>, toAlice: bool,
                     i: nat, byAlice: bool, j: nat)
    requires Secrecy.IsSecret(secret) && bobKey != aliceKey && ValidRun(Start(secret, bobKey, aliceKey), es)
    requires ValidRun(Start(secret, bobKey, aliceKey), es + more)
    requires
      var w, later := Run(Start(secret, bobKey, aliceKey), es), Run(Start(secret, bobKey, aliceKey), es + more);
      var receiver, sender := Side(w, toAlice), Side(w, !toAlice);
      && i < |sender.outbox| && !Fair(receiver, sender, i)
      && receiver.session.dhRemote != Some(sender.outbox[i].dh)
      && j < |Side(later, byAlice).outbox|
    ensures
      var w, later := Run(Start(secret, bobKey, aliceKey), es), Run(Start(secret, bobKey, aliceKey), es + more);
      var s, o := Side(w, toAlice).session, Side(w, !toAlice).outbox[i];
      var out := Attempt(s, o, w.nextKey);
      && (out.result.Err? <==> OverLimit(s, o))
      && (out.result.Ok? ==>
            && out.session.dhRemote == Some(o.dh) && RootLevelOf(out.session) == RootLevelOf(s) + 2
            && out.session.seqSend == 0 && out.session.seqRecv == o.index + 1
            && out.session.prevChainLength == s.seqSend
            && out.result.value != Side(later, byAlice).outbox[j].key)
  {
    hide BookOk, Decrypt, Image, IsPassed, KeyOf, OverLimit;
    var w, later := Run(Start(secret, bobKey, aliceKey), es), Run(Start(secret, bobKey, aliceKey), es + more);
    var b, b' := RunGrows(secret, bobKey, aliceKey, es, more);
    BookEnds(w, b, toAlice);
    BookEnds(later, b', byAlice);
    var v, m, m' := ViewOf(b, toAlice), Log(b, !toAlice)[i], Log(b', byAlice)[j];
    var o := Side(w, !toAlice).outbox[i];
    UnfairIsPassed(Side(w, toAlice), Side(w, !toAlice), v, ViewOf(b, !toAlice), b.t,
                   Log(b, toAlice), Log(b, !toAlice), i);
    PassedEpoch(v, b.t, m);
    ClosedStep(v, b.t, m, w.nextKey);
    assert OwnMsg(ViewOf(b', byAlice).top, b'.t, m') && Side(later, byAlice).outbox[j] == OutgoingOf(b'.t, m');
    StrayKey(b.t, b'.t, v.top, m.epoch, o.index, m');
  }

  lemma ClosedStep(v: View, t: Transcript, m: Msg, newKey: nat)
    requires IsPassed(v, t, m)
    requires var s := Image(v, t);
      Find(s.skipped, HeaderOf(t, m)) == |s.skipped| && s.dhRemote != Some(Point(KeyId(t, m.epoch)))
    ensures
      var s, o := Image(v, t), OutgoingOf(t, m);
      var out := Attempt(s, o, newKey);
      && m.epoch < v.top
      && (out.result.Err? <==> OverLimit(s, o))
      && (out.result.Ok? ==>
            && out.session.dhRemote == Some(o.dh) && RootLevelOf(out.session) == RootLevelOf(s) + 2
            && out.session.seqSend == 0 && out.session.seqRecv == o.index + 1
            && out.session.prevChainLength == s.seqSend
            && out.result.value ==
                 MessageKey(Steps(ChainOf(RootAt(t, v.top), Exchange(KeyId(t, v.top), KeyId(t, m.epoch))), o.index)))
  {
    hide Decrypt;
    var o := OutgoingOf(t, m);
    DecryptClosedForm(Image(v, t), o.dh, o.index, o.prevChainLength, newKey);
    var root1 := RootOf(RootAt(t, v.top), Exchange(KeyId(t, v.top), KeyId(t, m.epoch)));
    assert Level(RootOf(root1, Exchange(newKey, KeyId(t, m.epoch)))) == Level(root1) + 1;
  }
}
