/**
  Alice, Bob and a network that delays, reorders and loses messages. Every step is a call of
  the session functions; the ledger serves only to prove what the runs satisfy.
 */
module Conversation {
  import opened Wrappers
  import opened Keys
  import opened Ratchet
  import opened Ledger
  import Secrecy

  /** One end: its session, what it has sent, which of the peer's messages it has got (by
      position in the peer's outbox), and the headers whose skipped keys it has evicted. */
  datatype End = End(session: Session, outbox: seq<Outgoing>, got: set<nat>, evicted: set<Header>)

  /** `nextKey` is a key id no one has used: a source of fresh key pairs. */
  datatype World = World(alice: End, bob: End, nextKey: nat)

  datatype Event =
    | Send(byAlice: bool)
    | Deliver(toAlice: bool, i: nat)

  function Side(w: World, alice: bool): End {
    if alice then w.alice else w.bob
  }

  function SetSide(w: World, alice: bool, e: End): World {
    if alice then w.(alice := e) else w.(bob := e)
  }

  function Start(secret: Key, bobKey: nat, aliceKey: nat): World {
    World(End(InitAlice(secret, bobKey, aliceKey), [], {}, {}),
          End(InitBob(secret, bobKey), [], {}, {}),
          bobKey + aliceKey + 1)
  }

  function OutHeader(o: Outgoing): Header {
    Header(o.dh, o.index)
  }

  /** Handing message `o` to a session. */
  function Attempt(s: Session, o: Outgoing, newKey: nat): Outcome<Key> {
    Decrypt(s, o.dh, o.index, o.prevChainLength, newKey)
  }

  /** A message that was delivered already, or whose stored key was evicted, is not
      delivered (again). */
  predicate Fair(receiver: End, sender: End, i: nat) {
    i < |sender.outbox| && i !in receiver.got && OutHeader(sender.outbox[i]) !in receiver.evicted
  }

  predicate Enabled(w: World, e: Event) {
    e.Deliver? ==> Fair(Side(w, e.toAlice), Side(w, !e.toAlice), e.i)
  }

  function Step(w: World, e: Event): World
    requires Enabled(w, e)
  {
    match e
    case Send(byAlice) =>
      var me := Side(w, byAlice);
      var out := Encrypt(me.session);
      SetSide(w, byAlice,
              me.(session := out.session,
                  outbox := if out.result.Ok? then me.outbox + [out.result.value] else me.outbox))
    case Deliver(toAlice, i) =>
      var me := Side(w, toAlice);
      var o := Side(w, !toAlice).outbox[i];
      var out := Attempt(me.session, o, w.nextKey);
      SetSide(w, toAlice,
              me.(session := out.session,
                  got := if out.result.Ok? then me.got + {i} else me.got,
                  evicted := me.evicted + DecryptEvicts(me.session, o.dh, o.index, o.prevChainLength, w.nextKey)))
        .(nextKey := w.nextKey + 1)
  }

  predicate ValidRun(w: World, es: seq<Event>)
    decreases |es|, 0
  {
    es == [] || (ValidRun(w, es[..|es| - 1]) && Enabled(Run(w, es[..|es| - 1]), es[|es| - 1]))
  }

  function Run(w: World, es: seq<Event>): World
    requires ValidRun(w, es)
    decreases |es|, 1
  {
    if es == [] then w else Step(Run(w, es[..|es| - 1]), es[|es| - 1])
  }

  // ---------------------------------------------------------------- the invariant

  /** The ledger of the whole conversation: both views and, for each end, the messages in its
      outbox. */
  datatype Book = Book(t: Transcript, aliceView: View, bobView: View, aliceLog: seq<Msg>, bobLog: seq<Msg>)

  function ViewOf(b: Book, alice: bool): View {
    if alice then b.aliceView else b.bobView
  }

  function Log(b: Book, alice: bool): seq<Msg> {
    if alice then b.aliceLog else b.bobLog
  }

  function OutgoingOf(t: Transcript, m: Msg): Outgoing {
    Outgoing(KeyOf(t, m), Point(KeyId(t, m.epoch)), m.index, PrevOf(t, m))
  }

  /** `m` was sent by an end whose newest key pair is of epoch `top`. */
  predicate OwnMsg(top: nat, t: Transcript, m: Msg) {
    1 <= m.epoch <= top && (top - m.epoch) % 2 == 0 && m.index < Sent(t, m.epoch)
  }

  ghost predicate OutboxOk(outbox: seq<Outgoing>, top: nat, t: Transcript, log: seq<Msg>) {
    && |outbox| == |log|
    && (forall i :: 0 <= i < |log| ==> OwnMsg(top, t, log[i]) && outbox[i] == OutgoingOf(t, log[i]))
    && (forall i, j :: 0 <= i < j < |log| ==> log[i] != log[j])
  }

  /** Where incoming message `m`, at position `i`, is: passed exactly when it is in one of the
      three places, and then in only one. */
  predicate Accounted(e: End, v: View, t: Transcript, i: nat, m: Msg) {
    var got, stored, evicted := i in e.got, m in v.stored, HeaderOf(t, m) in e.evicted;
    && (IsPassed(v, t, m) <==> got || stored || evicted)
    && !(got && stored) && !(got && evicted) && !(stored && evicted)
  }

  /** Evicted headers are headers of passed messages. */
  ghost predicate EvictedOk(e: End, v: View, t: Transcript) {
    forall h :: h in e.evicted ==> exists m :: IsPassed(v, t, m) && h == HeaderOf(t, m)
  }

  ghost predicate EndOk(e: End, v: View, t: Transcript, incoming: seq<Msg>, outgoing: seq<Msg>) {
    && ValidView(v, t)
    && e.session == Image(v, t)
    && OutboxOk(e.outbox, v.top, t, outgoing)
    && (forall i :: i in e.got ==> i < |incoming|)
    && EvictedOk(e, v, t)
    && (forall i :: 0 <= i < |incoming| ==> Accounted(e, v, t, i, incoming[i]))
  }

  ghost predicate BookOk(w: World, b: Book) {
    && ValidTranscript(b.t)
    && b.aliceView.top % 2 == 1
    && (b.aliceView.top == b.bobView.top + 1 == |b.t.keys| - 1 ||
        b.bobView.top == b.aliceView.top + 1 == |b.t.keys| - 1)
    && (forall k :: k in b.t.keys ==> k < w.nextKey)
    && EndOk(w.alice, b.aliceView, b.t, b.bobLog, b.aliceLog)
    && EndOk(w.bob, b.bobView, b.t, b.aliceLog, b.bobLog)
  }

  // ---------------------------------------------------------------- sending

  function Count(t: Transcript, n: nat): Transcript
    requires n < |t.sent|
  {
    t.(sent := t.sent[n := t.sent[n] + 1])
  }

  lemma KeyCount(t: Transcript, n: nat, m: Msg)
    requires n < |t.sent|
    ensures KeyOf(Count(t, n), m) == KeyOf(t, m) && HeaderOf(Count(t, n), m) == HeaderOf(t, m)
  {
    if m.epoch > 0 { RootIgnoresCounts(t, Count(t, n), m.epoch - 1); }
  }

  lemma ImageCount(v: View, t: Transcript, n: nat)
    requires n < |t.sent| && v.top != n && v.top != n + 2
    ensures Image(v, Count(t, n)) == Image(v, t)
  {
    var t' := Count(t, n);
    RootIgnoresCounts(t, t', v.top);
    if v.top >= 1 { RootIgnoresCounts(t, t', v.top - 1); }
    if v.top >= 2 { RootIgnoresCounts(t, t', v.top - 2); }
    forall m | m in v.stored { KeyCount(t, n, m); }
    assert StoreOf(t', v.stored) == StoreOf(t, v.stored);
  }

  /** Encrypting is counting one more message in the sender's newest epoch. */
  lemma EncryptImage(v: View, t: Transcript)
    requires ValidTranscript(t) && v.top < |t.keys|
    ensures v.top == 0 ==> Encrypt(Image(v, t)) == Outcome(Image(v, t), Err(NotInitialized))
    ensures v.top >= 1 ==>
      Encrypt(Image(v, t)) ==
        Outcome(Image(v, Count(t, v.top)), Ok(OutgoingOf(t, Msg(v.top, Sent(t, v.top)))))
  {
    if v.top >= 1 {
      var t' := Count(t, v.top);
      RootIgnoresCounts(t, t', v.top);
      RootIgnoresCounts(t, t', v.top - 1);
      if v.top >= 2 { RootIgnoresCounts(t, t', v.top - 2); }
      forall m | m in v.stored { KeyCount(t, v.top, m); }
      assert StoreOf(t', v.stored) == StoreOf(t, v.stored);
    }
  }

  lemma OutboxSend(outbox: seq<Outgoing>, top: nat, t: Transcript, log: seq<Msg>)
    requires ValidTranscript(t) && 1 <= top < |t.keys| && OutboxOk(outbox, top, t, log)
    ensures var m := Msg(top, Sent(t, top));
      OutboxOk(outbox + [OutgoingOf(t, m)], top, Count(t, top), log + [m])
  {
    var m := Msg(top, Sent(t, top));
    var t' := Count(t, top);
    forall i | 0 <= i < |log| + 1 ensures OwnMsg(top, t', (log + [m])[i])
        && (outbox + [OutgoingOf(t, m)])[i] == OutgoingOf(t', (log + [m])[i])
    {
      KeyCount(t, top, (log + [m])[i]);
    }
  }

  lemma OutboxCount(outbox: seq<Outgoing>, top: nat, t: Transcript, log: seq<Msg>, n: nat)
    requires n < |t.sent| && (top - n) % 2 == 1 && OutboxOk(outbox, top, t, log)
    ensures OutboxOk(outbox, top, Count(t, n), log)
  {
    forall i | 0 <= i < |log| ensures OwnMsg(top, Count(t, n), log[i]) && outbox[i] == OutgoingOf(Count(t, n), log[i]) {
      KeyCount(t, n, log[i]);
    }
  }

  lemma EndCount(e: End, v: View, t: Transcript, incoming: seq<Msg>, n: nat)
    requires n < |t.sent| && n >= 1
    requires ValidTranscript(t) && ValidView(v, t)
    requires v.top == n || v.top == n + 1 || v.top + 1 == n
    ensures ValidTranscript(Count(t, n)) && ValidView(v, Count(t, n))
    ensures forall m :: IsPassed(v, t, m) <==> IsPassed(v, Count(t, n), m)
    ensures EvictedOk(e, v, t) ==> EvictedOk(e, v, Count(t, n))
    ensures forall i, m :: Accounted(e, v, t, i, m) ==> Accounted(e, v, Count(t, n), i, m)
  {
    forall m ensures HeaderOf(Count(t, n), m) == HeaderOf(t, m) { KeyCount(t, n, m); }
  }

  lemma NewMsgAccounted(e: End, v: View, t: Transcript, incoming: seq<Msg>, n: nat)
    requires ValidTranscript(t) && ValidView(v, t) && 1 <= n < |t.keys| && (v.top == n + 1 || v.top + 1 == n)
    requires EvictedOk(e, v, t) && (forall i :: i in e.got ==> i < |incoming|)
    ensures Accounted(e, v, t, |incoming|, Msg(n, Sent(t, n)))
  {
    var m := Msg(n, Sent(t, n));
    assert !IsPassed(v, t, m);
    if HeaderOf(t, m) in e.evicted {
      var x :| IsPassed(v, t, x) && HeaderOf(t, m) == HeaderOf(t, x);
      HeaderInjective(t, m, x);
    }
  }

  lemma SendEnds(me: End, peer: End, v: View, vp: View, t: Transcript, mine: seq<Msg>, theirs: seq<Msg>)
    requires ValidTranscript(t) && v.top < |t.keys| && (v.top == vp.top + 1 || vp.top == v.top + 1)
    requires EndOk(me, v, t, theirs, mine) && EndOk(peer, vp, t, mine, theirs)
    requires v.top >= 1
    ensures var out := Encrypt(me.session); var m := Msg(v.top, Sent(t, v.top)); var t' := Count(t, v.top);
      && out.result.Ok? && ValidTranscript(t')
      && EndOk(me.(session := out.session, outbox := me.outbox + [out.result.value]), v, t', theirs, mine + [m])
      && EndOk(peer, vp, t', mine + [m], theirs)
  {
    EncryptImage(v, t);
    OutboxSend(me.outbox, v.top, t, mine);
    EndCount(me, v, t, theirs, v.top);
    var out := Encrypt(me.session);
    EndCount(me.(session := out.session, outbox := me.outbox + [out.result.value]), v, t, theirs, v.top);
    ImageCount(vp, t, v.top);
    OutboxCount(peer.outbox, vp.top, t, theirs, v.top);
    EndCount(peer, vp, t, mine, v.top);
    NewMsgAccounted(peer, vp, t, mine, v.top);
  }

  // ---------------------------------------------------------------- delivering

  lemma FairDeliverable(e: End, v: View, vp: View, t: Transcript, theirs: seq<Msg>, mine: seq<Msg>,
                        outbox: seq<Outgoing>, i: nat)
    requires ValidTranscript(t) && EndOk(e, v, t, theirs, mine) && OutboxOk(outbox, vp.top, t, theirs)
    requires (v.top == vp.top + 1 && |t.keys| == v.top + 1) || (vp.top == v.top + 1 && |t.keys| == vp.top + 1)
    requires i < |outbox|
    ensures var m := theirs[i];
      i !in e.got && OutHeader(outbox[i]) !in e.evicted <==> Deliverable(v, t, m)
  {
    var m := theirs[i];
    assert Accounted(e, v, t, i, m);
    assert OwnMsg(vp.top, t, m) && outbox[i] == OutgoingOf(t, m);
  }

  lemma OutboxExtend(outbox: seq<Outgoing>, top: nat, t: Transcript, log: seq<Msg>, newKey: nat)
    requires ValidTranscript(t) && OutboxOk(outbox, top, t, log) && top < |t.keys|
    ensures OutboxOk(outbox, top, Extend(t, newKey), log)
    ensures OutboxOk(outbox, top + 2, Extend(t, newKey), log)
  {
    forall i | 0 <= i < |log|
      ensures OwnMsg(top, Extend(t, newKey), log[i]) && OwnMsg(top + 2, Extend(t, newKey), log[i])
        && outbox[i] == OutgoingOf(Extend(t, newKey), log[i])
    {
      KeyExtend(t, newKey, log[i]);
    }
  }

  /** An end does not notice the other's new key pair. */
  lemma PeerExtend(peer: End, vp: View, t: Transcript, mine: seq<Msg>, theirs: seq<Msg>, newKey: nat)
    requires ValidTranscript(t) && newKey !in t.keys
    requires EndOk(peer, vp, t, mine, theirs)
    requires forall m :: m in mine ==> m.epoch < |t.keys|
    ensures EndOk(peer, vp, Extend(t, newKey), mine, theirs)
  {
    var t' := Extend(t, newKey);
    forall m: Msg | m.epoch < |t.keys| ensures HeaderOf(t', m) == HeaderOf(t, m) { KeyExtend(t, newKey, m); }
    assert forall m :: m in vp.stored ==> IsPassed(vp, t, m);
    ImageExtend(vp, t, newKey);
    OutboxExtend(peer.outbox, vp.top, t, theirs, newKey);
    assert forall m :: IsPassed(vp, t, m) <==> IsPassed(vp, t', m);
    forall i | 0 <= i < |mine| ensures Accounted(peer, vp, t', i, mine[i]) {
      assert Accounted(peer, vp, t, i, mine[i]);
      assert mine[i] in mine;
    }
  }

  lemma ImageExtend(v: View, t: Transcript, newKey: nat)
    requires ValidTranscript(t) && v.top < |t.keys|
    requires forall m :: m in v.stored ==> m.epoch < |t.keys|
    ensures Image(v, Extend(t, newKey)) == Image(v, t)
  {
    RootExtend(t, newKey, v.top);
    if v.top >= 1 { RootExtend(t, newKey, v.top - 1); }
    if v.top >= 2 { RootExtend(t, newKey, v.top - 2); }
    forall m | m in v.stored { KeyExtend(t, newKey, m); }
    assert StoreOf(Extend(t, newKey), v.stored) == StoreOf(t, v.stored);
  }

  /** The receiving end after a delivery. */
  function After(e: End, o: Outgoing, i: nat, newKey: nat): End {
    var out := Attempt(e.session, o, newKey);
    e.(session := out.session,
       got := if out.result.Ok? then e.got + {i} else e.got,
       evicted := e.evicted + DecryptEvicts(e.session, o.dh, o.index, o.prevChainLength, newKey))
  }

  lemma HeaderStays(v: View, t: Transcript, m: Msg, newKey: nat, x: Msg)
    requires ValidTranscript(t) && x.epoch < |t.keys|
    ensures HeaderOf(Receive(v, t, m, newKey).transcript, x) == HeaderOf(t, x)
  {
    KeyExtend(t, newKey, x);
  }

  lemma ReceiveEpochs(v: View, t: Transcript, m: Msg, newKey: nat)
    requires ValidTranscript(t) && ValidView(v, t) && Deliverable(v, t, m) && newKey !in t.keys
    ensures var r := Receive(v, t, m, newKey);
      && ((r.view.top == v.top && r.transcript == t) ||
          (r.view.top == v.top + 2 == |t.keys| && r.transcript == Extend(t, newKey)))
      && (forall x :: IsPassed(r.view, r.transcript, x) ==> x.epoch < |t.keys|)
  {
  }

  lemma AfterEvicted(e: End, v: View, t: Transcript, theirs: seq<Msg>, mine: seq<Msg>, i: nat, newKey: nat)
    requires ValidTranscript(t) && EndOk(e, v, t, theirs, mine) && newKey !in t.keys
    requires i < |theirs| && Deliverable(v, t, theirs[i])
    ensures var r := Receive(v, t, theirs[i], newKey);
      var e' := After(e, OutgoingOf(t, theirs[i]), i, newKey);
      && EvictedOk(e', r.view, r.transcript)
      && e'.evicted == e.evicted + HeadersOf(r.transcript, r.dropped)
  {
    var m := theirs[i];
    var r := Receive(v, t, m, newKey);
    DecryptEvictsImage(v, t, m, newKey);
    ReceiveEpochs(v, t, m, newKey);
    forall h | h in e.evicted + HeadersOf(r.transcript, r.dropped)
      ensures exists x :: IsPassed(r.view, r.transcript, x) && h == HeaderOf(r.transcript, x)
    {
      if h in e.evicted {
        var x :| IsPassed(v, t, x) && h == HeaderOf(t, x);
        ReceiveConserves(v, t, m, newKey, x);
        HeaderStays(v, t, m, newKey, x);
      } else {
        var x :| x in r.dropped && h == HeaderOf(r.transcript, x);
        ReceiveConserves(v, t, m, newKey, x);
        assert x in v.stored ==> IsPassed(v, t, x);
      }
    }
  }

  lemma AfterAccounted(e: End, v: View, t: Transcript, theirs: seq<Msg>, mine: seq<Msg>, i: nat, newKey: nat, j: nat)
    requires ValidTranscript(t) && EndOk(e, v, t, theirs, mine) && newKey !in t.keys
    requires i < |theirs| && Deliverable(v, t, theirs[i])
    requires j < |theirs| && (i != j ==> theirs[i] != theirs[j]) && theirs[j].epoch < |t.keys|
    ensures var r := Receive(v, t, theirs[i], newKey);
      Accounted(After(e, OutgoingOf(t, theirs[i]), i, newKey), r.view, r.transcript, j, theirs[j])
  {
    var m, x := theirs[i], theirs[j];
    var r := Receive(v, t, m, newKey);
    var e' := After(e, OutgoingOf(t, m), i, newKey);
    assert Accounted(e, v, t, j, x);
    DecryptImage(v, t, m, newKey);
    AfterEvicted(e, v, t, theirs, mine, i, newKey);
    ReceiveConserves(v, t, m, newKey, x);
    HeaderStays(v, t, m, newKey, x);
    ReceiveEpochs(v, t, m, newKey);
    assert HeaderOf(r.transcript, x) in HeadersOf(r.transcript, r.dropped) <==> x in r.dropped by {
      forall y | y in r.dropped && HeaderOf(r.transcript, y) == HeaderOf(r.transcript, x) ensures y == x {
        ReceiveConserves(v, t, m, newKey, y);
        HeaderInjective(r.transcript, x, y);
      }
    }
  }

  lemma DeliverEnds(me: End, peer: End, v: View, vp: View, t: Transcript, mine: seq<Msg>, theirs: seq<Msg>,
                    i: nat, newKey: nat)
    requires ValidTranscript(t) && newKey !in t.keys
    requires (v.top == vp.top + 1 && |t.keys| == v.top + 1) || (vp.top == v.top + 1 && |t.keys| == vp.top + 1)
    requires EndOk(me, v, t, theirs, mine) && EndOk(peer, vp, t, mine, theirs)
    requires Fair(me, peer, i)
    ensures var r := Receive(v, t, theirs[i], newKey);
      && Deliverable(v, t, theirs[i])
      && ValidTranscript(r.transcript)
      && EndOk(After(me, peer.outbox[i], i, newKey), r.view, r.transcript, theirs, mine)
      && EndOk(peer, vp, r.transcript, mine, theirs)
  {
    hide Decrypt, DecryptEvicts, Receive, Image, Accounted;
    var m := theirs[i];
    FairDeliverable(me, v, vp, t, theirs, mine, peer.outbox, i);
    assert peer.outbox[i] == OutgoingOf(t, m);
    DecryptImage(v, t, m, newKey);
    AfterEvicted(me, v, t, theirs, mine, i, newKey);
    ReceiveEpochs(v, t, m, newKey);
    forall j | 0 <= j < |theirs|
      ensures Accounted(After(me, peer.outbox[i], i, newKey), Receive(v, t, m, newKey).view,
                        Receive(v, t, m, newKey).transcript, j, theirs[j])
    {
      assert OwnMsg(vp.top, t, theirs[j]);
      AfterAccounted(me, v, t, theirs, mine, i, newKey, j);
    }
    if Receive(v, t, m, newKey).transcript != t {
      forall x | x in mine ensures x.epoch < |t.keys| {
        var k :| 0 <= k < |mine| && mine[k] == x;
        assert OwnMsg(v.top, t, mine[k]);
      }
      OutboxExtend(me.outbox, v.top, t, mine, newKey);
      PeerExtend(peer, vp, t, mine, theirs, newKey);
    }
  }

  // ---------------------------------------------------------------- runs

  lemma StartOk(secret: Key, bobKey: nat, aliceKey: nat)
    requires bobKey != aliceKey
    ensures BookOk(Start(secret, bobKey, aliceKey),
                   Book(Transcript(secret, [bobKey, aliceKey], [0, 0]), View(1, 0, []), View(0, 0, []), [], []))
  {
    var t := Transcript(secret, [bobKey, aliceKey], [0, 0]);
    assert RootAt(t, 1) == RootOf(RootAt(t, 0), Link(t, 0));
    assert StoreOf(t, []) == [];
  }

  lemma SendOk(w: World, b: Book, byAlice: bool) returns (b': Book)
    requires BookOk(w, b)
    ensures BookOk(Step(w, Send(byAlice)), b') && b'.t.secret == b.t.secret && b'.t.keys == b.t.keys
  {
    hide Encrypt, Image, ValidView, OutboxOk, EvictedOk, Accounted;
    var v, vp := ViewOf(b, byAlice), ViewOf(b, !byAlice);
    EncryptImage(v, b.t);
    if v.top == 0 {
      b' := b;
    } else {
      SendEnds(Side(w, byAlice), Side(w, !byAlice), v, vp, b.t, Log(b, byAlice), Log(b, !byAlice));
      var log := Log(b, byAlice) + [Msg(v.top, Sent(b.t, v.top))];
      b' := if byAlice then b.(t := Count(b.t, v.top), aliceLog := log) else b.(t := Count(b.t, v.top), bobLog := log);
    }
  }

  lemma DeliverOk(w: World, b: Book, toAlice: bool, i: nat) returns (b': Book)
    requires BookOk(w, b) && Enabled(w, Deliver(toAlice, i))
    ensures BookOk(Step(w, Deliver(toAlice, i)), b') && b'.t.secret == b.t.secret && b.t.keys <= b'.t.keys
  {
    hide Receive, Image, ValidView, EvictedOk, Accounted, DecryptEvicts, Decrypt;
    var v, vp, theirs := ViewOf(b, toAlice), ViewOf(b, !toAlice), Log(b, !toAlice);
    DeliverEnds(Side(w, toAlice), Side(w, !toAlice), v, vp, b.t, Log(b, toAlice), theirs, i, w.nextKey);
    ReceiveEpochs(v, b.t, theirs[i], w.nextKey);
    var r := Receive(v, b.t, theirs[i], w.nextKey);
    b' := if toAlice then b.(t := r.transcript, aliceView := r.view) else b.(t := r.transcript, bobView := r.view);
  }

  /** Every run of the conversation is a run of the ledger. */
  lemma {:induction false} RunOk(secret: Key, bobKey: nat, aliceKey: nat, es: seq<Event>) returns (b: Book)
    requires bobKey != aliceKey && ValidRun(Start(secret, bobKey, aliceKey), es)
    ensures BookOk(Run(Start(secret, bobKey, aliceKey), es), b) && b.t.secret == secret
    decreases |es|
  {
    if es == [] {
      StartOk(secret, bobKey, aliceKey);
      b := Book(Transcript(secret, [bobKey, aliceKey], [0, 0]), View(1, 0, []), View(0, 0, []), [], []);
    } else {
      var before := RunOk(secret, bobKey, aliceKey, es[..|es| - 1]);
      var w := Run(Start(secret, bobKey, aliceKey), es[..|es| - 1]);
      match es[|es| - 1] {
        case Send(byAlice) => b := SendOk(w, before, byAlice);
        case Deliver(toAlice, i) => b := DeliverOk(w, before, toAlice, i);
      }
    }
  }

  /** As a run goes on, its ledger only gains key pairs. */
  lemma {:induction false} RunGrows(secret: Key, bobKey: nat, aliceKey: nat, es: seq<Event>, more: seq<Event>)
    returns (b: Book, b': Book)
    requires bobKey != aliceKey && ValidRun(Start(secret, bobKey, aliceKey), es)
    requires ValidRun(Start(secret, bobKey, aliceKey), es + more)
    ensures BookOk(Run(Start(secret, bobKey, aliceKey), es), b)
    ensures BookOk(Run(Start(secret, bobKey, aliceKey), es + more), b')
    ensures b.t.secret == b'.t.secret == secret && b.t.keys <= b'.t.keys
    decreases |more|
  {
    hide BookOk, Step;
    if more == [] {
      b := RunOk(secret, bobKey, aliceKey, es);
      b' := b;
      assert es + more == es;
    } else {
      var front, e := more[..|more| - 1], more[|more| - 1];
      assert (es + more)[..|es + more| - 1] == es + front;
      var b1;
      b, b1 := RunGrows(secret, bobKey, aliceKey, es, front);
      var w := Run(Start(secret, bobKey, aliceKey), es + front);
      match e {
        case Send(byAlice) => b' := SendOk(w, b1, byAlice);
        case Deliver(toAlice, i) => b' := DeliverOk(w, b1, toAlice, i);
      }
    }
  }

  // ---------------------------------------------------------------- key agreement

  /** The limit check refuses a message: a condition on the receiver and the header alone. */
  predicate Refused(s: Session, dh: PublicBytes, index: int, prevChainLen: int) {
    && Find(s.skipped, Header(dh, index)) == |s.skipped|
    && (if s.dhRemote == Some(dh) then RefusesSkip(s, index)
        else RefusesSkip(s, prevChainLen) || MAX_SKIP < index)
  }

  predicate OverLimit(s: Session, o: Outgoing) {
    Refused(s, o.dh, o.index, o.prevChainLength)
  }

  lemma {:induction false} RootsAreRoots(t: Transcript, n: nat)
    requires Secrecy.IsSecret(t.secret)
    ensures Secrecy.IsRoot(RootAt(t, n)) && Level(RootAt(t, n)) == n
  {
    if n > 0 { RootsAreRoots(t, n - 1); }
  }

  lemma {:induction false} StepsAreChains(c: Key, n: nat)
    requires Secrecy.IsChain(c) && c.ChainOf?
    ensures Secrecy.IsChain(Steps(c, n)) && Level(Steps(c, n)) == Level(c) && ChainIndex(Steps(c, n)) == n
  {
    if n > 0 { StepsAreChains(c, n - 1); }
  }

  lemma ChainShape(t: Transcript, n: nat, index: nat)
    requires Secrecy.IsSecret(t.secret) && n >= 1
    ensures var c := ChainAt(t, n, index); Secrecy.IsChain(c) && Level(c) == n && ChainIndex(c) == index
  {
    RootsAreRoots(t, n - 1);
    StepsAreChains(ChainOf(RootAt(t, n - 1), Link(t, n - 1)), index);
  }

  lemma PassedIsSpent(v: View, t: Transcript, m: Msg)
    requires Secrecy.IsSecret(t.secret) && ValidTranscript(t) && ValidView(v, t) && IsPassed(v, t, m)
    ensures Secrecy.Spent(Image(v, t), KeyOf(t, m))
  {
    RootsAreRoots(t, v.top);
    ChainShape(t, m.epoch, m.index);
    ChainShape(t, v.top, Sent(t, v.top));
    ChainShape(t, v.top - 1, v.recv);
  }

  /** A passed message that is not stored counts as returned for the single-use invariant. */
  lemma ImageAccounted(v: View, t: Transcript, m: Msg)
    requires Secrecy.IsSecret(t.secret) && ValidTranscript(t) && ValidView(v, t)
    requires IsPassed(v, t, m) && m !in v.stored
    ensures Secrecy.Accounted(Image(v, t), [KeyOf(t, m)])
  {
    var s := Image(v, t);
    RootsAreRoots(t, v.top);
    ChainShape(t, v.top, Sent(t, v.top));
    ChainShape(t, v.top - 1, v.recv);
    PassedIsSpent(v, t, m);
    ChainShape(t, m.epoch, m.index);
    forall i | 0 <= i < |s.skipped|
      ensures Secrecy.Spent(s, s.skipped[i].key) && s.skipped[i].key != KeyOf(t, m)
      ensures Level(s.skipped[i].key) == v.stored[i].epoch && ChainIndex(s.skipped[i].key.chain) == v.stored[i].index
    {
      assert v.stored[i] in v.stored;
      PassedIsSpent(v, t, v.stored[i]);
      ChainShape(t, v.stored[i].epoch, v.stored[i].index);
    }
  }

  /** The ledger refuses exactly when the header says so. */
  lemma RefusalImage(v: View, t: Transcript, m: Msg, newKey: nat)
    requires ValidTranscript(t) && ValidView(v, t) && Deliverable(v, t, m)
    ensures Receive(v, t, m, newKey).got <==> !OverLimit(Image(v, t), OutgoingOf(t, m))
  {
    assert m in v.stored ==> IsPassed(v, t, m);
    FindStored(t, v.stored, m);
  }

  /**
    Key agreement. After any run, handing the receiver any message the peer has sent ends in
    one of three ways. If the message was delivered before or its stored key was evicted, the
    call does not return its key. Otherwise it returns exactly the key that encrypt returned
    to the sender, unless the 100-message limit refuses it.
   */
  lemma Agreement(secret: Key, bobKey: nat, aliceKey: nat, es: seq<Event>, toAlice: bool, i: nat)
    requires Secrecy.IsSecret(secret) && bobKey != aliceKey && ValidRun(Start(secret, bobKey, aliceKey), es)
    requires i < |Side(Run(Start(secret, bobKey, aliceKey), es), !toAlice).outbox|
    ensures
      var w := Run(Start(secret, bobKey, aliceKey), es);
      var receiver, sender := Side(w, toAlice), Side(w, !toAlice);
      var o := sender.outbox[i];
      var result := Attempt(receiver.session, o, w.nextKey).result;
      && (Fair(receiver, sender, i) ==>
            result == if OverLimit(receiver.session, o) then Err(TooManySkipped) else Ok(o.key))
      && (!Fair(receiver, sender, i) ==> result != Ok(o.key))
  {
    hide Decrypt;
    var w := Run(Start(secret, bobKey, aliceKey), es);
    var b := RunOk(secret, bobKey, aliceKey, es);
    EndAgreement(Side(w, toAlice), Side(w, !toAlice), ViewOf(b, toAlice), ViewOf(b, !toAlice), b.t,
                 Log(b, toAlice), Log(b, !toAlice), i, w.nextKey);
  }

  lemma EndAgreement(me: End, peer: End, v: View, vp: View, t: Transcript, mine: seq<Msg>, theirs: seq<Msg>,
                     i: nat, newKey: nat)
    requires Secrecy.IsSecret(t.secret) && ValidTranscript(t) && newKey !in t.keys
    requires (v.top == vp.top + 1 && |t.keys| == v.top + 1) || (vp.top == v.top + 1 && |t.keys| == vp.top + 1)
    requires EndOk(me, v, t, theirs, mine) && EndOk(peer, vp, t, mine, theirs)
    requires i < |peer.outbox|
    ensures
      var o := peer.outbox[i];
      var result := Attempt(me.session, o, newKey).result;
      && (Fair(me, peer, i) ==>
            result == if OverLimit(me.session, o) then Err(TooManySkipped) else Ok(o.key))
      && (!Fair(me, peer, i) ==> result != Ok(o.key))
  {
    hide Decrypt, Receive, Image, OverLimit;
    var m := theirs[i];
    FairDeliverable(me, v, vp, t, theirs, mine, peer.outbox, i);
    assert OwnMsg(vp.top, t, m) && peer.outbox[i] == OutgoingOf(t, m);
    if Fair(me, peer, i) {
      DecryptImage(v, t, m, newKey);
      RefusalImage(v, t, m, newKey);
    } else {
      assert Accounted(me, v, t, i, m);
      ImageAccounted(v, t, m);
      Secrecy.NotReturnedAgain(me.session, KeyOf(t, m), Point(KeyId(t, m.epoch)), m.index, PrevOf(t, m), newKey);
    }
  }

  // ---------------------------------------------------------------- lockstep and accounting

  /** The receiving chain of `s` is at or beyond message `o`. */
  predicate Behind(s: Session, o: Outgoing) {
    s.receivingChain.Some? &&
      (Level(o.key) < Level(s.receivingChain.value) ||
       (Level(o.key) == Level(s.receivingChain.value) && o.index < s.seqRecv))
  }

  function RootLevelOf(s: Session): nat {
    if s.rootKey.Some? then Level(s.rootKey.value) else 0
  }

  /** The root chains of the two ends are never more than one step apart, nor ever level. */
  lemma Lockstep(secret: Key, bobKey: nat, aliceKey: nat, es: seq<Event>)
    requires Secrecy.IsSecret(secret) && bobKey != aliceKey && ValidRun(Start(secret, bobKey, aliceKey), es)
    ensures var w := Run(Start(secret, bobKey, aliceKey), es);
      var a, b := RootLevelOf(w.alice.session), RootLevelOf(w.bob.session);
      a == b + 1 || b == a + 1
  {
    var b := RunOk(secret, bobKey, aliceKey, es);
    RootsAreRoots(b.t, b.aliceView.top);
    RootsAreRoots(b.t, b.bobView.top);
  }

  /**
    Every message sent is of the receiver's current receiving chain, of the chain its next DH
    step will open, or of a chain it has closed; the header key tells which. And every message
    the receiver has passed is in exactly one place: returned, stored, or evicted.
   */
  lemma Accounting(secret: Key, bobKey: nat, aliceKey: nat, es: seq<Event>, toAlice: bool, i: nat)
    requires Secrecy.IsSecret(secret) && bobKey != aliceKey && ValidRun(Start(secret, bobKey, aliceKey), es)
    requires i < |Side(Run(Start(secret, bobKey, aliceKey), es), !toAlice).outbox|
    ensures
      var w := Run(Start(secret, bobKey, aliceKey), es);
      var receiver, o := Side(w, toAlice), Side(w, !toAlice).outbox[i];
      var s, top := receiver.session, RootLevelOf(receiver.session);
      var got, stored, evicted :=
        i in receiver.got, Find(s.skipped, OutHeader(o)) < |s.skipped|, OutHeader(o) in receiver.evicted;
      && (Level(o.key) + 1 < top || Level(o.key) + 1 == top || Level(o.key) == top + 1)
      && (s.dhRemote == Some(o.dh) <==> Level(o.key) + 1 == top)
      && (Behind(s, o) <==> got || stored || evicted)
      && !(got && stored) && !(got && evicted) && !(stored && evicted)
  {
    var w := Run(Start(secret, bobKey, aliceKey), es);
    var b := RunOk(secret, bobKey, aliceKey, es);
    EndAccounting(Side(w, toAlice), Side(w, !toAlice), ViewOf(b, toAlice), ViewOf(b, !toAlice), b.t,
                  Log(b, toAlice), Log(b, !toAlice), i);
  }

  lemma EndAccounting(me: End, peer: End, v: View, vp: View, t: Transcript, mine: seq<Msg>, theirs: seq<Msg>, i: nat)
    requires Secrecy.IsSecret(t.secret) && ValidTranscript(t)
    requires (v.top == vp.top + 1 && |t.keys| == v.top + 1) || (vp.top == v.top + 1 && |t.keys| == vp.top + 1)
    requires EndOk(me, v, t, theirs, mine) && EndOk(peer, vp, t, mine, theirs)
    requires i < |peer.outbox|
    ensures
      var o, s, top := peer.outbox[i], me.session, RootLevelOf(me.session);
      var got, stored, evicted :=
        i in me.got, Find(s.skipped, OutHeader(o)) < |s.skipped|, OutHeader(o) in me.evicted;
      && (Level(o.key) + 1 < top || Level(o.key) + 1 == top || Level(o.key) == top + 1)
      && (s.dhRemote == Some(o.dh) <==> Level(o.key) + 1 == top)
      && (Behind(s, o) <==> got || stored || evicted)
      && !(got && stored) && !(got && evicted) && !(stored && evicted)
  {
    hide Image, IsPassed, Accounted, EvictedOk, ValidView, HeaderOf, PrevOf, KeyOf;
    var m := theirs[i];
    assert OwnMsg(vp.top, t, m) && peer.outbox[i] == OutgoingOf(t, m);
    PassedIsBehind(v, t, m);
    StoredIsFound(v, t, m);
    WhereAccounted(me, v, t, i, m);
  }

  lemma WhereAccounted(e: End, v: View, t: Transcript, i: nat, m: Msg)
    requires Accounted(e, v, t, i, m)
    ensures var got, stored, evicted := i in e.got, m in v.stored, OutHeader(OutgoingOf(t, m)) in e.evicted;
      && (IsPassed(v, t, m) <==> got || stored || evicted)
      && !(got && stored) && !(got && evicted) && !(stored && evicted)
  {
  }

  lemma StoredIsFound(v: View, t: Transcript, m: Msg)
    requires ValidTranscript(t) && ValidView(v, t) && m.epoch < |t.keys|
    ensures var store := Image(v, t).skipped;
      Find(store, OutHeader(OutgoingOf(t, m))) < |store| <==> m in v.stored
  {
    assert forall x :: x in v.stored ==> IsPassed(v, t, x);
    FindStored(t, v.stored, m);
  }

  lemma PassedIsBehind(v: View, t: Transcript, m: Msg)
    requires Secrecy.IsSecret(t.secret) && ValidTranscript(t) && ValidView(v, t)
    requires 1 <= m.epoch <= v.top + 1 && (v.top - m.epoch) % 2 == 1 && m.epoch < |t.keys| && m.index < Sent(t, m.epoch)
    ensures var o, s := OutgoingOf(t, m), Image(v, t);
      && RootLevelOf(s) == v.top && Level(o.key) == m.epoch
      && (s.dhRemote == Some(o.dh) <==> m.epoch + 1 == v.top)
      && (Behind(s, o) <==> IsPassed(v, t, m))
  {
    RootsAreRoots(t, v.top);
    ChainShape(t, m.epoch, m.index);
    if v.top >= 2 { ChainShape(t, v.top - 1, v.recv); }
  }

  /** Nothing is evicted while the store has room for the 200 keys one call can add. */
  lemma NoEvictionWithRoom(s: Session, peer: PublicBytes, index: int, prevChainLen: int, newKey: nat)
    requires |s.skipped| + 2 * MAX_SKIP <= MAX_STORED
    ensures DecryptEvicts(s, peer, index, prevChainLen, newKey) == {}
  {
    if CanSkip(s) && !RefusesSkip(s, index) { SkipWithRoom(s, index); }
    if CanSkip(s) && !RefusesSkip(s, prevChainLen) { SkipWithRoom(s, prevChainLen); }
    var s2 := Follow(s, peer, prevChainLen, newKey).session;
    if CanSkip(s2) && !RefusesSkip(s2, index) && |s2.skipped| + MAX_SKIP <= MAX_STORED { SkipWithRoom(s2, index); }
  }

  lemma {:induction false} SkipWithRoom(s: Session, until: int)
    requires CanSkip(s) && |s.skipped| + (if s.seqRecv < until then until - s.seqRecv else 0) <= MAX_STORED
    ensures SkipEvicts(s, until) == {}
    ensures |SkipLoop(s, until).skipped| <= |s.skipped| + (if s.seqRecv < until then until - s.seqRecv else 0)
    decreases until - s.seqRecv
  {
    if s.seqRecv < until { SkipWithRoom(SkipOne(s), until); }
  }
}
