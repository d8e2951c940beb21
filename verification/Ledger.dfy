/**
  The ledger: a reference for one end of a conversation that knows only which messages exist
  and which have arrived, no keys. `Image` says which session stands for a ledger view, and
  every operation of the session is shown to be the image of the ledger's.
 */
module Ledger {
  import opened Wrappers
  import opened Lists
  import opened Keys
  import opened Ratchet

  /** Message number `index` of sending chain `epoch`. Chain 1 is Alice's first; odd chains
      are hers and even ones Bob's. */
  datatype Msg = Msg(epoch: nat, index: nat)

  /** All ratchet key pairs in the order they were generated, Bob's initial one first, and
      how many messages were sent under each. */
  datatype Transcript = Transcript(secret: Key, keys: seq<nat>, sent: seq<nat>)

  /** One end: the epoch of its own newest key pair, how far its receiving chain (epoch
      `top` - 1) has advanced, and the skipped messages it holds keys for, oldest first. */
  datatype View = View(top: nat, recv: nat, stored: seq<Msg>)

  function KeyId(t: Transcript, n: nat): nat {
    if n < |t.keys| then t.keys[n] else 0
  }

  function Sent(t: Transcript, n: nat): nat {
    if n < |t.sent| then t.sent[n] else 0
  }

  function Link(t: Transcript, n: nat): Key {
    Exchange(KeyId(t, n), KeyId(t, n + 1))
  }

  function RootAt(t: Transcript, n: nat): Key {
    if n == 0 then t.secret else RootOf(RootAt(t, n - 1), Link(t, n - 1))
  }

  function ChainAt(t: Transcript, n: nat, index: nat): Key {
    Steps(if n == 0 then t.secret else ChainOf(RootAt(t, n - 1), Link(t, n - 1)), index)
  }

  function KeyOf(t: Transcript, m: Msg): Key {
    MessageKey(ChainAt(t, m.epoch, m.index))
  }

  function HeaderOf(t: Transcript, m: Msg): Header {
    Header(Point(KeyId(t, m.epoch)), m.index)
  }

  /** The previous-chain length that goes out with `m`. */
  function PrevOf(t: Transcript, m: Msg): nat {
    if m.epoch >= 2 then Sent(t, m.epoch - 2) else 0
  }

  function StoreOf(t: Transcript, ms: seq<Msg>): (store: seq<Entry>)
    ensures |store| == |ms|
    ensures forall i :: 0 <= i < |ms| ==> store[i] == Entry(HeaderOf(t, ms[i]), KeyOf(t, ms[i]))
  {
    seq(|ms|, i requires 0 <= i < |ms| => Entry(HeaderOf(t, ms[i]), KeyOf(t, ms[i])))
  }

  /** The session that stands for a view. */
  function Image(v: View, t: Transcript): Session {
    Session(
      Some(KeyId(t, v.top)),
      if v.top >= 1 then Some(Point(KeyId(t, v.top - 1))) else None,
      Some(RootAt(t, v.top)),
      if v.top >= 1 then Some(ChainAt(t, v.top, Sent(t, v.top))) else None,
      if v.top >= 2 then Some(ChainAt(t, v.top - 1, v.recv)) else None,
      Sent(t, v.top),
      v.recv,
      if v.top >= 2 then Sent(t, v.top - 2) else 0,
      StoreOf(t, v.stored))
  }

  ghost predicate ValidTranscript(t: Transcript) {
    && |t.keys| == |t.sent| >= 2
    && t.sent[0] == 0
    && forall i, j :: 0 <= i < j < |t.keys| ==> t.keys[i] != t.keys[j]
  }

  function PeerSent(v: View, t: Transcript): nat {
    if v.top >= 1 then Sent(t, v.top - 1) else 0
  }

  /** The receiving chain has moved past `m`. */
  predicate IsPassed(v: View, t: Transcript, m: Msg) {
    && 1 <= m.epoch < v.top
    && (v.top - m.epoch) % 2 == 1
    && m.index < (if m.epoch == v.top - 1 then v.recv else Sent(t, m.epoch))
  }

  ghost predicate ValidView(v: View, t: Transcript) {
    && v.top < |t.keys|
    && v.recv <= PeerSent(v, t)
    && |v.stored| <= MAX_STORED
    && (forall m :: m in v.stored ==> IsPassed(v, t, m))
    && (forall i, j :: 0 <= i < j < |v.stored| ==> v.stored[i] != v.stored[j])
  }

  // ---------------------------------------------------------------- ledger operations

  /** Messages `from` up to but not including `until` of chain `epoch`. */
  function Range(epoch: nat, from: nat, until: nat): (ms: seq<Msg>)
    ensures |ms| == if from < until then until - from else 0
    ensures forall i :: 0 <= i < |ms| ==> ms[i] == Msg(epoch, from + i)
    decreases until - from
  {
    if from < until then [Msg(epoch, from)] + Range(epoch, from + 1, until) else []
  }

  function Oldest(ms: seq<Msg>): set<Msg> {
    set m | m in ms[..Excess(ms, MAX_STORED)]
  }

  function SkipList(v: View, until: nat): seq<Msg> {
    v.stored + Range(if v.top >= 1 then v.top - 1 else 0, v.recv, until)
  }

  function Advance(v: View, until: nat): View {
    View(v.top, if v.recv < until then until else v.recv, Newest(SkipList(v, until), MAX_STORED))
  }

  function Dropped(v: View, until: nat): set<Msg> {
    Oldest(SkipList(v, until))
  }

  /** The view with its receiving chain run to the end. */
  function Closed(v: View, t: Transcript): View {
    Advance(v, PeerSent(v, t))
  }

  /** A new key pair: the transcript gains an epoch with nothing sent in it. */
  function Extend(t: Transcript, newKey: nat): Transcript {
    Transcript(t.secret, t.keys + [newKey], t.sent + [0])
  }

  /** The position of `m` in `ms`, or the length of `ms`. */
  function IndexOf(ms: seq<Msg>, m: Msg): (i: nat)
    ensures i <= |ms|
    ensures i < |ms| ==> ms[i] == m
    ensures forall j :: 0 <= j < i ==> ms[j] != m
  {
    if ms == [] || ms[0] == m then 0 else 1 + IndexOf(ms[1..], m)
  }

  /** `got` is false when the 100-message limit refused the delivery. */
  datatype Receipt = Receipt(view: View, transcript: Transcript, dropped: set<Msg>, got: bool)

  function TakeAt(v: View, t: Transcript, index: nat): Receipt {
    if v.recv + MAX_SKIP < index then Receipt(v, t, {}, false)
    else
      var v' := Advance(v, index);
      Receipt(v'.(recv := v'.recv + 1), t, Dropped(v, index), true)
  }

  /** What arrives when `m` is delivered to the end with view `v`. */
  function Receive(v: View, t: Transcript, m: Msg, newKey: nat): Receipt {
    var i := IndexOf(v.stored, m);
    if i < |v.stored| then Receipt(v.(stored := Remove(v.stored, i)), t, {}, true)
    else if v.top == m.epoch + 1 then TakeAt(v, t, m.index)
    else if v.recv + MAX_SKIP < PeerSent(v, t) then Receipt(v, t, {}, false)
    else
      var taken := TakeAt(View(v.top + 2, 0, Closed(v, t).stored), Extend(t, newKey), m.index);
      taken.(dropped := taken.dropped + Dropped(v, PeerSent(v, t)))
  }

  // ---------------------------------------------------------------- facts about images

  lemma {:induction false} StepsNext(c: Key, n: nat)
    ensures Steps(NextChain(c), n) == NextChain(Steps(c, n)) == Steps(c, n + 1)
  {
    if n > 0 { StepsNext(c, n - 1); }
  }

  lemma {:induction false} RootLevel(t: Transcript, n: nat)
    ensures Level(RootAt(t, n)) == Level(t.secret) + n
  {
    if n > 0 { RootLevel(t, n - 1); }
  }

  /** Keys of existing epochs do not change when the transcript grows. */
  lemma {:induction false} RootExtend(t: Transcript, newKey: nat, n: nat)
    requires n < |t.keys|
    ensures RootAt(Extend(t, newKey), n) == RootAt(t, n)
  {
    if n > 0 { RootExtend(t, newKey, n - 1); }
  }

  lemma {:induction false} RootIgnoresCounts(t: Transcript, t': Transcript, n: nat)
    requires t.secret == t'.secret && t.keys == t'.keys
    ensures RootAt(t, n) == RootAt(t', n)
  {
    if n > 0 { RootIgnoresCounts(t, t', n - 1); }
  }

  lemma KeyExtend(t: Transcript, newKey: nat, m: Msg)
    requires m.epoch < |t.keys|
    ensures KeyOf(Extend(t, newKey), m) == KeyOf(t, m)
    ensures HeaderOf(Extend(t, newKey), m) == HeaderOf(t, m)
  {
    if m.epoch > 0 { RootExtend(t, newKey, m.epoch - 1); }
  }

  lemma HeaderInjective(t: Transcript, m: Msg, m': Msg)
    requires ValidTranscript(t) && m.epoch < |t.keys| && m'.epoch < |t.keys|
    requires HeaderOf(t, m) == HeaderOf(t, m')
    ensures m == m'
  {
  }

  /** Looking a header up in the dictionary is looking its message up in the ledger. */
  lemma FindStored(t: Transcript, ms: seq<Msg>, m: Msg)
    requires ValidTranscript(t) && m.epoch < |t.keys|
    requires forall x :: x in ms ==> x.epoch < |t.keys|
    ensures Find(StoreOf(t, ms), HeaderOf(t, m)) == IndexOf(ms, m)
  {
    var i, j := Find(StoreOf(t, ms), HeaderOf(t, m)), IndexOf(ms, m);
    if i < |ms| {
      assert ms[i] in ms;
      HeaderInjective(t, ms[i], m);
    }
  }

  lemma StoreRemove(t: Transcript, ms: seq<Msg>, i: nat)
    requires i < |ms|
    ensures Remove(StoreOf(t, ms), i) == StoreOf(t, Remove(ms, i))
  {
  }

  /** Advancing by one and then by the rest is advancing at once: dropping the oldest beyond
      1000 early or late leaves the same list. */
  lemma AdvanceSplit(v: View, until: nat)
    requires v.top >= 1 && v.recv < until && |v.stored| <= MAX_STORED
    ensures Advance(Advance(v, v.recv + 1), until) == Advance(v, until)
  {
    var v1 := Advance(v, v.recv + 1);
    var rest := Range(v.top - 1, v.recv + 1, until);
    var m := Msg(v.top - 1, v.recv);
    assert SkipList(v, v.recv + 1) == v.stored + [m];
    assert SkipList(v, until) == v.stored + [m] + rest;
    assert v1.stored == Newest(v.stored + [m], MAX_STORED);
    NewestSplit(v.stored + [m], rest, MAX_STORED);
  }

  lemma RemoveValid(v: View, t: Transcript, i: nat)
    requires ValidView(v, t) && i < |v.stored|
    ensures ValidView(v.(stored := Remove(v.stored, i)), t)
    ensures forall m :: m in Remove(v.stored, i) <==> m in v.stored && m != v.stored[i]
  {
    var rest := Remove(v.stored, i);
    forall m | m in v.stored && m != v.stored[i] ensures m in rest {
      var j :| 0 <= j < |v.stored| && v.stored[j] == m;
      assert rest[if j < i then j else j - 1] == m;
    }
    forall m | m in rest ensures m in v.stored && m != v.stored[i] && IsPassed(v, t, m) {
      var j :| 0 <= j < |rest| && rest[j] == m;
      assert m == v.stored[if j < i then j else j + 1];
    }
    assert forall m :: IsPassed(v, t, m) <==> IsPassed(v.(stored := rest), t, m);
  }

  /** The skipping loop in one stroke: append the skipped keys, keep the newest 1000. */
  lemma {:induction false} SkipLoopImage(v: View, t: Transcript, until: nat)
    requires ValidTranscript(t) && ValidView(v, t) && v.top >= 2
    requires until <= PeerSent(v, t)
    ensures SkipLoop(Image(v, t), until) == Image(Advance(v, until), t)
    decreases until - v.recv
  {
    hide SkipOne;
    if v.recv < until {
      SkipOneImage(v, t);
      AdvanceValid(v, t, v.recv + 1);
      SkipLoopImage(Advance(v, v.recv + 1), t, until);
      AdvanceSplit(v, until);
    } else {
      assert Advance(v, until) == v by { assert SkipList(v, until) == v.stored; }
    }
  }

  /** What one round of the loop does to any session, unless the header is already stored. */
  lemma SkipOneAppends(s: Session, kept: seq<Entry>)
    requires CanSkip(s)
    requires kept == if |s.skipped| >= MAX_STORED then s.skipped[1..] else s.skipped
    requires Find(kept, Header(s.dhRemote.value, s.seqRecv)) == |kept|
    ensures SkipOne(s) ==
      s.(receivingChain := Some(NextChain(s.receivingChain.value)), seqRecv := s.seqRecv + 1,
         skipped := kept + [Entry(Header(s.dhRemote.value, s.seqRecv), MessageKey(s.receivingChain.value))])
  {
  }

  lemma TakeKeyAfterSkip(s: Session, index: int)
    requires CanSkip(s) && !RefusesSkip(s, index)
    ensures var s1 := SkipLoop(s, index);
      TakeKey(s, index) ==
        Outcome(s1.(receivingChain := Some(NextChain(s1.receivingChain.value)), seqRecv := s1.seqRecv + 1),
                Ok(MessageKey(s1.receivingChain.value)))
  {
  }

  lemma ImageStep(v: View, t: Transcript)
    requires v.top >= 2
    ensures Image(v.(recv := v.recv + 1), t) ==
      Image(v, t).(receivingChain := Some(NextChain(ChainAt(t, v.top - 1, v.recv))), seqRecv := v.recv + 1)
  {
  }

  lemma ImageStore(v: View, t: Transcript, ms: seq<Msg>)
    ensures Image(v.(stored := ms), t) == Image(v, t).(skipped := StoreOf(t, ms))
  {
  }

  lemma StoreAppend(t: Transcript, ms: seq<Msg>, m: Msg)
    ensures StoreOf(t, ms + [m]) == StoreOf(t, ms) + [Entry(HeaderOf(t, m), KeyOf(t, m))]
  {
  }

  /** The store after the eviction, and that the next message is not in it. */
  lemma KeptStore(v: View, t: Transcript, ms: seq<Msg>) returns (kept: seq<Entry>)
    requires ValidTranscript(t) && ValidView(v, t) && v.top >= 2
    requires ms == if |v.stored| >= MAX_STORED then v.stored[1..] else v.stored
    ensures kept == var store := Image(v, t).skipped; if |store| >= MAX_STORED then store[1..] else store
    ensures kept == StoreOf(t, ms)
    ensures Msg(v.top - 1, v.recv) !in ms && IndexOf(ms, Msg(v.top - 1, v.recv)) == |ms|
    ensures v.top - 1 < |t.keys| && forall x :: x in ms ==> x.epoch < |t.keys|
    ensures |v.stored| <= MAX_STORED
  {
    kept := StoreOf(t, ms);
    assert forall x :: x in ms ==> x in v.stored;
    assert !IsPassed(v, t, Msg(v.top - 1, v.recv));
  }

  lemma SkipOneImage(v: View, t: Transcript)
    requires ValidTranscript(t) && ValidView(v, t) && v.top >= 2
    requires v.recv < PeerSent(v, t)
    ensures SkipOne(Image(v, t)) == Image(Advance(v, v.recv + 1), t)
  {
    var ms := if |v.stored| >= MAX_STORED then v.stored[1..] else v.stored;
    hide *;
    SkipOneFields(v, t, ms);
    AdvanceOne(v, ms);
    ImageNext(v, t, ms + [Msg(v.top - 1, v.recv)]);
  }

  lemma SkipOneFields(v: View, t: Transcript, ms: seq<Msg>)
    requires ValidTranscript(t) && ValidView(v, t) && v.top >= 2
    requires ms == if |v.stored| >= MAX_STORED then v.stored[1..] else v.stored
    ensures CanSkip(Image(v, t)) && SkipOne(Image(v, t)) ==
      Image(v, t).(receivingChain := Some(NextChain(ChainAt(t, v.top - 1, v.recv))), seqRecv := v.recv + 1,
                   skipped := StoreOf(t, ms + [Msg(v.top - 1, v.recv)]))
  {
    hide *;
    var m := Msg(v.top - 1, v.recv);
    var kept := KeptStore(v, t, ms);
    ImageReceiving(v, t);
    FindStored(t, ms, m);
    SkipOneAppends(Image(v, t), kept);
    StoreAppend(t, ms, m);
  }

  lemma ImageNext(v: View, t: Transcript, ms: seq<Msg>)
    requires v.top >= 2
    ensures Image(View(v.top, v.recv + 1, ms), t) ==
      Image(v, t).(receivingChain := Some(NextChain(ChainAt(t, v.top - 1, v.recv))), seqRecv := v.recv + 1,
                   skipped := StoreOf(t, ms))
  {
    ImageStep(v, t);
  }

  /** The fields of an image that the skipping loop reads. */
  lemma ImageReceiving(v: View, t: Transcript)
    requires v.top >= 2
    ensures var s, m := Image(v, t), Msg(v.top - 1, v.recv);
      && CanSkip(s) && Header(s.dhRemote.value, s.seqRecv) == HeaderOf(t, m)
      && s.receivingChain.value == ChainAt(t, v.top - 1, v.recv) && KeyOf(t, m) == MessageKey(s.receivingChain.value)
      && s.seqRecv == v.recv
  {
  }

  lemma AdvanceOne(v: View, ms: seq<Msg>)
    requires v.top >= 1 && |v.stored| <= MAX_STORED
    requires ms == if |v.stored| >= MAX_STORED then v.stored[1..] else v.stored
    ensures Advance(v, v.recv + 1) == View(v.top, v.recv + 1, ms + [Msg(v.top - 1, v.recv)])
  {
    assert SkipList(v, v.recv + 1) == v.stored + [Msg(v.top - 1, v.recv)];
  }

  lemma AdvanceRecv(v: View, until: nat)
    ensures Advance(v, until).top == v.top
    ensures Advance(v, until).recv == if v.recv < until then until else v.recv
  {
  }

  lemma AdvanceValid(v: View, t: Transcript, until: nat)
    requires ValidTranscript(t) && ValidView(v, t) && v.top >= 1 && until <= PeerSent(v, t)
    ensures ValidView(Advance(v, until), t)
    ensures forall m :: IsPassed(v, t, m) ==> IsPassed(Advance(v, until), t, m)
  {
    var list := SkipList(v, until);
    var v' := Advance(v, until);
    var more := Range(v.top - 1, v.recv, until);
    forall m | m in list ensures IsPassed(v', t, m) {
      if m !in v.stored {
        var i :| 0 <= i < |more| && more[i] == m;
      }
    }
    forall i, j | 0 <= i < j < |list| ensures list[i] != list[j] {
      if i < |v.stored| <= j { assert list[i] in v.stored; }
    }
  }

  lemma TakeAtValid(v: View, t: Transcript, index: nat)
    requires ValidTranscript(t) && ValidView(v, t) && v.top >= 1 && v.recv <= index < PeerSent(v, t)
    ensures ValidView(TakeAt(v, t, index).view, t)
  {
    AdvanceValid(v, t, index);
    var v1 := Advance(v, index);
    var v2 := v1.(recv := v1.recv + 1);
    forall m | IsPassed(v1, t, m) ensures IsPassed(v2, t, m) {}
  }

  lemma TakeKeyImage(v: View, t: Transcript, index: nat)
    requires ValidTranscript(t) && ValidView(v, t) && v.top >= 2
    requires v.recv <= index < PeerSent(v, t)
    ensures var r := TakeAt(v, t, index);
      TakeKey(Image(v, t), index) ==
           Outcome(Image(r.view, t), if r.got then Ok(KeyOf(t, Msg(v.top - 1, index))) else Err(TooManySkipped))
  {
    hide SkipLoop, SkipOne, Advance;
    if v.recv + MAX_SKIP >= index {
      SkipLoopImage(v, t, index);
      TakeKeyAfterSkip(Image(v, t), index);
      AdvanceRecv(v, index);
      ImageStep(Advance(v, index), t);
    }
  }

  lemma DhStepImage(v: View, t: Transcript, newKey: nat)
    requires ValidTranscript(t) && v.top + 2 == |t.keys|
    requires forall m :: m in v.stored ==> m.epoch < |t.keys|
    ensures DhStep(Image(v, t), Point(KeyId(t, v.top + 1)), newKey) ==
              Outcome(Image(View(v.top + 2, 0, v.stored), Extend(t, newKey)), Ok(()))
  {
    var t' := Extend(t, newKey);
    RootExtend(t, newKey, v.top);
    RootExtend(t, newKey, v.top + 1);
    forall m | m in v.stored { KeyExtend(t, newKey, m); }
    assert StoreOf(t', v.stored) == StoreOf(t, v.stored);
    assert RootAt(t', v.top + 2) == RootOf(RootAt(t', v.top + 1), Link(t', v.top + 1));
  }

  /** Which messages may still arrive: not passed, or passed and stored; of the current
      receiving chain or the next one. */
  ghost predicate Deliverable(v: View, t: Transcript, m: Msg) {
    || m in v.stored
    || (1 <= m.epoch == v.top - 1 && v.recv <= m.index < Sent(t, m.epoch))
    || (m.epoch == v.top + 1 && |t.keys| == v.top + 2 && m.index < Sent(t, m.epoch))
  }

  /**
    Decrypting a deliverable message is receiving it in the ledger. The session stays the
    image of the view, on success the key is exactly the sender's, and the only failure is
    the 100-message limit.
   */
  lemma DecryptImage(v: View, t: Transcript, m: Msg, newKey: nat)
    requires ValidTranscript(t) && ValidView(v, t) && Deliverable(v, t, m)
    requires newKey !in t.keys
    ensures var r := Receive(v, t, m, newKey);
      && ValidTranscript(r.transcript) && ValidView(r.view, r.transcript)
      && Decrypt(Image(v, t), Point(KeyId(t, m.epoch)), m.index, PrevOf(t, m), newKey) ==
           Outcome(Image(r.view, r.transcript), if r.got then Ok(KeyOf(t, m)) else Err(TooManySkipped))
  {
    hide SkipLoop, SkipOne, TakeKey, SkipMessages;
    assert m in v.stored ==> IsPassed(v, t, m);
    FindStored(t, v.stored, m);
    var i := IndexOf(v.stored, m);
    if i < |v.stored| {
      RemoveValid(v, t, i);
      StoreRemove(t, v.stored, i);
      ImageStore(v, t, Remove(v.stored, i));
    } else if m.epoch + 1 == v.top {
      TakeAtValid(v, t, m.index);
      TakeKeyImage(v, t, m.index);
    } else {
      NextEpochImage(v, t, m, newKey);
    }
  }

  /** A message of the next epoch is neither stored nor of the current chain. */
  lemma NextEpochMisses(v: View, t: Transcript, m: Msg)
    requires ValidTranscript(t) && ValidView(v, t)
    requires m.epoch == v.top + 1 && |t.keys| == v.top + 2 && m !in v.stored
    ensures var s := Image(v, t);
      && Find(s.skipped, HeaderOf(t, m)) == |s.skipped| && s.dhRemote != Some(Point(KeyId(t, m.epoch)))
      && (RefusesSkip(s, PrevOf(t, m)) <==> v.recv + MAX_SKIP < PeerSent(v, t)) && PrevOf(t, m) == PeerSent(v, t)
    ensures forall x :: x in v.stored ==> x.epoch < |t.keys|
  {
    assert forall x :: x in v.stored ==> IsPassed(v, t, x);
    FindStored(t, v.stored, m);
  }

  /** Following the peer to the next epoch: close the current chain, then step. */
  lemma FollowImage(v: View, t: Transcript, newKey: nat)
    requires ValidTranscript(t) && ValidView(v, t) && newKey !in t.keys
    requires |t.keys| == v.top + 2 && v.recv + MAX_SKIP >= PeerSent(v, t)
    ensures var v2, t' := View(v.top + 2, 0, Closed(v, t).stored), Extend(t, newKey);
      && Follow(Image(v, t), Point(KeyId(t, v.top + 1)), PeerSent(v, t), newKey) == Outcome(Image(v2, t'), Ok(()))
      && ValidTranscript(t') && ValidView(v2, t')
      && CanSkip(Image(v2, t')) && Image(v2, t').seqRecv == 0
  {
    hide SkipLoop, SkipOne, SkipMessages, DhStep, Advance;
    CloseImage(v, t);
    var v1 := Closed(v, t);
    assert forall m :: m in v1.stored ==> IsPassed(v1, t, m);
    DhStepImage(v1, t, newKey);
    OpenView(v1, t, newKey);
    RemoteDiffers(v, t);
  }

  lemma RemoteDiffers(v: View, t: Transcript)
    requires ValidTranscript(t) && v.top + 1 < |t.keys|
    ensures Image(v, t).dhRemote != Some(Point(KeyId(t, v.top + 1)))
  {
  }

  lemma NextEpochImage(v: View, t: Transcript, m: Msg, newKey: nat)
    requires ValidTranscript(t) && ValidView(v, t) && newKey !in t.keys
    requires m.epoch == v.top + 1 && |t.keys| == v.top + 2 && m.index < Sent(t, m.epoch) && m !in v.stored
    ensures var r := Receive(v, t, m, newKey);
      && ValidTranscript(r.transcript) && ValidView(r.view, r.transcript)
      && Decrypt(Image(v, t), Point(KeyId(t, m.epoch)), m.index, PrevOf(t, m), newKey) ==
           Outcome(Image(r.view, r.transcript), if r.got then Ok(KeyOf(t, m)) else Err(TooManySkipped))
  {
    hide SkipLoop, SkipOne, TakeKey, DhStep, Image, Find, Closed, ValidView, Advance;
    NextEpochMisses(v, t, m);
    RemoteDiffers(v, t);
    if v.recv + MAX_SKIP >= PeerSent(v, t) {
      var v2, t' := View(v.top + 2, 0, Closed(v, t).stored), Extend(t, newKey);
      FollowImage(v, t, newKey);
      TakeAtValid(v2, t', m.index);
      TakeKeyImage(v2, t', m.index);
      KeyExtend(t, newKey, m);
    } else {
      RefusedKeeps(v, t);
    }
  }

  lemma RefusedKeeps(v: View, t: Transcript)
    requires ValidView(v, t) && ValidTranscript(t) && v.recv + MAX_SKIP < PeerSent(v, t)
    ensures SkipMessages(Image(v, t), PeerSent(v, t)) == Outcome(Image(v, t), Err(TooManySkipped))
  {
  }

  lemma CloseImage(v: View, t: Transcript)
    requires ValidTranscript(t) && ValidView(v, t) && v.recv + MAX_SKIP >= PeerSent(v, t)
    ensures SkipMessages(Image(v, t), PeerSent(v, t)) == Outcome(Image(Closed(v, t), t), Ok(()))
    ensures ValidView(Closed(v, t), t) && Closed(v, t).recv == PeerSent(v, t) && Closed(v, t).top == v.top
  {
    hide SkipLoop, SkipOne;
    if v.top >= 1 { AdvanceValid(v, t, PeerSent(v, t)); }
    if v.top >= 2 {
      SkipLoopImage(v, t, PeerSent(v, t));
    } else {
      assert SkipList(v, 0) == v.stored;
    }
  }

  /** Messages passed stay passed when the next chain is opened on a closed one. */
  lemma OpenView(v: View, t: Transcript, newKey: nat)
    requires ValidTranscript(t) && ValidView(v, t) && v.recv == PeerSent(v, t)
    requires |t.keys| == v.top + 2 && newKey !in t.keys
    ensures ValidTranscript(Extend(t, newKey)) && ValidView(View(v.top + 2, 0, v.stored), Extend(t, newKey))
    ensures forall m :: IsPassed(v, t, m) <==> IsPassed(View(v.top + 2, 0, v.stored), Extend(t, newKey), m)
  {
  }

  // ---------------------------------------------------------------- evictions and conservation

  function HeadersOf(t: Transcript, ms: set<Msg>): set<Header> {
    set m | m in ms :: HeaderOf(t, m)
  }

  lemma DroppedSplit(v: View, until: nat)
    requires v.top >= 1 && v.recv < until && |v.stored| <= MAX_STORED
    ensures Dropped(v, until) == Dropped(v, v.recv + 1) + Dropped(Advance(v, v.recv + 1), until)
    ensures Dropped(v, v.recv + 1) == if |v.stored| >= MAX_STORED then {v.stored[0]} else {}
  {
    var rest := Range(v.top - 1, v.recv + 1, until);
    var ms := v.stored + [Msg(v.top - 1, v.recv)];
    assert SkipList(v, v.recv + 1) == ms;
    assert SkipList(v, until) == ms + rest;
    OldestSplit(ms, rest);
  }

  lemma OldestSplit(ms: seq<Msg>, rest: seq<Msg>)
    requires |ms| <= MAX_STORED + 1
    ensures Oldest(ms + rest) == Oldest(ms) + Oldest(Newest(ms, MAX_STORED) + rest)
    ensures Oldest(ms) == if |ms| > MAX_STORED then {ms[0]} else {}
  {
    var list := ms + rest;
    var e := Excess(ms, MAX_STORED);
    assert Newest(ms, MAX_STORED) + rest == list[e..];
    assert list[..Excess(list, MAX_STORED)] == ms[..e] + list[e..][..Excess(list[e..], MAX_STORED)];
  }

  lemma {:induction false} SkipEvictsImage(v: View, t: Transcript, until: nat)
    requires ValidTranscript(t) && ValidView(v, t) && v.top >= 2
    requires until <= PeerSent(v, t)
    ensures SkipEvicts(Image(v, t), until) == HeadersOf(t, Dropped(v, until))
    decreases until - v.recv
  {
    hide SkipOne;
    if v.recv < until {
      SkipOneImage(v, t);
      AdvanceValid(v, t, v.recv + 1);
      SkipEvictsImage(Advance(v, v.recv + 1), t, until);
      DroppedSplit(v, until);
    }
  }

  lemma HeadersExtend(t: Transcript, newKey: nat, ms: set<Msg>)
    requires forall m :: m in ms ==> m.epoch < |t.keys|
    ensures HeadersOf(Extend(t, newKey), ms) == HeadersOf(t, ms)
  {
    forall m | m in ms { KeyExtend(t, newKey, m); }
  }

  lemma HeadersUnion(t: Transcript, a: set<Msg>, b: set<Msg>)
    ensures HeadersOf(t, a + b) == HeadersOf(t, a) + HeadersOf(t, b)
  {
  }

  /** What a decrypt of a deliverable message evicts is what the ledger drops. */
  lemma DecryptEvictsImage(v: View, t: Transcript, m: Msg, newKey: nat)
    requires ValidTranscript(t) && ValidView(v, t) && Deliverable(v, t, m)
    requires newKey !in t.keys
    ensures var r := Receive(v, t, m, newKey);
      DecryptEvicts(Image(v, t), Point(KeyId(t, m.epoch)), m.index, PrevOf(t, m), newKey)
        == HeadersOf(r.transcript, r.dropped)
  {
    hide SkipLoop, SkipOne, TakeKey, SkipMessages, DhStep, Follow, SkipEvicts;
    var s := Image(v, t);
    assert m in v.stored ==> IsPassed(v, t, m);
    FindStored(t, v.stored, m);
    if m in v.stored {
    } else if m.epoch + 1 == v.top {
      if v.recv + MAX_SKIP >= m.index { SkipEvictsImage(v, t, m.index); }
    } else {
      NextEpochEvicts(v, t, m, newKey);
    }
  }

  lemma NextEpochEvicts(v: View, t: Transcript, m: Msg, newKey: nat)
    requires ValidTranscript(t) && ValidView(v, t) && newKey !in t.keys
    requires m.epoch == v.top + 1 && |t.keys| == v.top + 2 && m.index < Sent(t, m.epoch) && m !in v.stored
    ensures var r := Receive(v, t, m, newKey);
      DecryptEvicts(Image(v, t), Point(KeyId(t, m.epoch)), m.index, PrevOf(t, m), newKey)
        == HeadersOf(r.transcript, r.dropped)
  {
    hide SkipLoop, SkipOne, TakeKey, DhStep, SkipEvicts, Advance, Dropped, DecryptEvicts, MessagesEvict, SkipMessages,
         Image, ValidView, Find, Closed;
    var s := Image(v, t);
    NextEpochMisses(v, t, m);
    EvictsWhenFollowing(s, Point(KeyId(t, m.epoch)), m.index, PrevOf(t, m), newKey);
    RefusedEvictsNothing(s, PrevOf(t, m));
    if v.recv + MAX_SKIP >= PeerSent(v, t) {
      var limit := PeerSent(v, t);
      var t' := Extend(t, newKey);
      var v2 := View(v.top + 2, 0, Closed(v, t).stored);
      FollowImage(v, t, newKey);
      CloseEvicts(v, t);
      DroppedEpochs(v, t, limit);
      HeadersExtend(t, newKey, Dropped(v, limit));
      RefusedEvictsNothing(Image(v2, t'), m.index);
      if MAX_SKIP >= m.index {
        SkipEvictsImage(v2, t', m.index);
        HeadersUnion(t', Dropped(v2, m.index), Dropped(v, limit));
      }
    }
  }

  /** Evictions of a call that is not answered from the store and must follow the peer. */
  lemma EvictsWhenFollowing(s: Session, peer: PublicBytes, index: int, prevChainLen: int, newKey: nat)
    requires Find(s.skipped, Header(peer, index)) == |s.skipped| && peer.Point? && s.dhRemote != Some(peer)
    ensures DecryptEvicts(s, peer, index, prevChainLen, newKey) ==
      MessagesEvict(s, prevChainLen) +
        var followed := Follow(s, peer, prevChainLen, newKey);
        if followed.result.Ok? then MessagesEvict(followed.session, index) else {}
  {
    hide MessagesEvict, Follow;
  }

  lemma RefusedEvictsNothing(s: Session, until: int)
    ensures MessagesEvict(s, until) == if CanSkip(s) && !RefusesSkip(s, until) then SkipEvicts(s, until) else {}
    ensures RefusesSkip(s, until) ==> SkipMessages(s, until).result.Err?
  {
    hide SkipEvicts;
  }

  lemma CloseEvicts(v: View, t: Transcript)
    requires ValidTranscript(t) && ValidView(v, t) && v.recv + MAX_SKIP >= PeerSent(v, t)
    ensures MessagesEvict(Image(v, t), PeerSent(v, t)) == HeadersOf(t, Dropped(v, PeerSent(v, t)))
  {
    hide SkipEvicts;
    if v.top >= 2 {
      SkipEvictsImage(v, t, PeerSent(v, t));
    } else {
      assert Dropped(v, 0) == {} by { assert SkipList(v, 0) == v.stored; }
    }
  }

  lemma DroppedEpochs(v: View, t: Transcript, until: nat)
    requires ValidView(v, t)
    ensures forall m :: m in Dropped(v, until) ==> m.epoch < |t.keys|
  {
    forall m | m in SkipList(v, until) ensures m.epoch < |t.keys| {
      assert m in v.stored || m in Range(if v.top >= 1 then v.top - 1 else 0, v.recv, until);
    }
  }

  /** Where a passed message can be. */
  predicate Placed(stored: seq<Msg>, dropped: set<Msg>, m: Msg) {
    m in stored || m in dropped
  }

  lemma AdvanceConserves(v: View, t: Transcript, until: nat, x: Msg)
    requires ValidTranscript(t) && ValidView(v, t) && v.top >= 1 && until <= PeerSent(v, t)
    ensures var v' := Advance(v, until);
      && (Placed(v'.stored, Dropped(v, until), x) <==> x in v.stored || (IsPassed(v', t, x) && !IsPassed(v, t, x)))
      && !(x in v'.stored && x in Dropped(v, until))
      && (IsPassed(v, t, x) ==> IsPassed(v', t, x))
  {
    var list := SkipList(v, until);
    var more := Range(v.top - 1, v.recv, until);
    var v' := Advance(v, until);
    assert list == list[..Excess(list, MAX_STORED)] + list[Excess(list, MAX_STORED)..];
    assert x in list <==> Placed(v'.stored, Dropped(v, until), x);
    assert x in list <==> x in v.stored || x in more;
    assert x in more <==> x.epoch == v.top - 1 && v.recv <= x.index < until by {
      if x.epoch == v.top - 1 && v.recv <= x.index < until { assert more[x.index - v.recv] == x; }
    }
    AdvanceValid(v, t, until);
    ListDistinct(v, t, until);
  }

  lemma ListDistinct(v: View, t: Transcript, until: nat)
    requires ValidTranscript(t) && ValidView(v, t) && v.top >= 1
    ensures var list := SkipList(v, until); forall i, j :: 0 <= i < j < |list| ==> list[i] != list[j]
  {
    var list := SkipList(v, until);
    forall i, j | 0 <= i < j < |list| ensures list[i] != list[j] {
      if i < |v.stored| <= j { assert list[i] in v.stored; }
    }
  }

  /**
    Conservation at one delivery: what is stored or dropped afterwards is what was stored
    before or passed now, never both, except the delivered message itself, which is passed
    and in neither place.
   */
  predicate Conserves(v: View, t: Transcript, r: Receipt, m: Msg, x: Msg) {
    && (IsPassed(v, t, x) ==> IsPassed(r.view, r.transcript, x))
    && !(x in r.view.stored && x in r.dropped)
    && (if r.got && x == m then IsPassed(r.view, r.transcript, x) && !Placed(r.view.stored, r.dropped, x)
        else Placed(r.view.stored, r.dropped, x) <==>
               x in v.stored || (IsPassed(r.view, r.transcript, x) && !IsPassed(v, t, x)))
  }

  lemma TakeAtConserves(v: View, t: Transcript, index: nat, x: Msg)
    requires ValidTranscript(t) && ValidView(v, t) && v.top >= 2 && v.recv <= index < PeerSent(v, t)
    ensures Conserves(v, t, TakeAt(v, t, index), Msg(v.top - 1, index), x)
  {
    AdvanceConserves(v, t, index, x);
  }

  lemma ReceiveConserves(v: View, t: Transcript, m: Msg, newKey: nat, x: Msg)
    requires ValidTranscript(t) && ValidView(v, t) && Deliverable(v, t, m) && newKey !in t.keys
    ensures Conserves(v, t, Receive(v, t, m, newKey), m, x)
  {
    var i := IndexOf(v.stored, m);
    if i < |v.stored| {
      RemoveValid(v, t, i);
      assert IsPassed(v, t, m);
    } else if m.epoch + 1 == v.top {
      TakeAtConserves(v, t, m.index, x);
    } else if v.recv + MAX_SKIP >= PeerSent(v, t) {
      NextEpochConserves(v, t, m, newKey, x);
    }
  }

  lemma NextEpochConserves(v: View, t: Transcript, m: Msg, newKey: nat, x: Msg)
    requires ValidTranscript(t) && ValidView(v, t) && newKey !in t.keys && v.recv + MAX_SKIP >= PeerSent(v, t)
    requires m.epoch == v.top + 1 && |t.keys| == v.top + 2 && m.index < Sent(t, m.epoch) && m !in v.stored
    ensures Conserves(v, t, Receive(v, t, m, newKey), m, x)
  {
    hide Advance, Dropped, TakeAt, Receive, Image, ValidView, IsPassed, ValidTranscript;
    var v1 := Closed(v, t);
    CloseConserves(v, t, x);
    CloseImage(v, t);
    OpenView(v1, t, newKey);
    TakeAtConserves(View(v.top + 2, 0, v1.stored), Extend(t, newKey), m.index, x);
    NextEpochReceipt(v, t, m, newKey);
    StoredPassed(v, t, x);
    StoredPassed(v1, t, x);
    NewUnpassed(v, t, m);
    NewUnpassed(v1, t, m);
  }

  lemma NextEpochReceipt(v: View, t: Transcript, m: Msg, newKey: nat)
    requires m.epoch == v.top + 1 && m !in v.stored && v.recv + MAX_SKIP >= PeerSent(v, t)
    ensures Receive(v, t, m, newKey) ==
      var taken := TakeAt(View(v.top + 2, 0, Closed(v, t).stored), Extend(t, newKey), m.index);
      taken.(dropped := taken.dropped + Dropped(v, PeerSent(v, t)))
  {
    hide Advance, Dropped, TakeAt;
  }

  lemma StoredPassed(v: View, t: Transcript, x: Msg)
    requires ValidView(v, t)
    ensures x in v.stored ==> IsPassed(v, t, x)
  {
  }

  lemma NewUnpassed(v: View, t: Transcript, m: Msg)
    requires m.epoch == v.top + 1
    ensures !IsPassed(v, t, m)
  {
  }

  lemma CloseConserves(v: View, t: Transcript, x: Msg)
    requires ValidTranscript(t) && ValidView(v, t)
    ensures var v' := Closed(v, t); var dropped := Dropped(v, PeerSent(v, t));
      && v'.top == v.top
      && (Placed(v'.stored, dropped, x) <==> x in v.stored || (IsPassed(v', t, x) && !IsPassed(v, t, x)))
      && !(x in v'.stored && x in dropped)
      && (IsPassed(v, t, x) ==> IsPassed(v', t, x))
  {
    if v.top >= 1 {
      AdvanceConserves(v, t, PeerSent(v, t), x);
    } else {
      assert SkipList(v, 0) == v.stored;
    }
  }
}
