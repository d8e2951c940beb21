/**
  The Double Ratchet session of core/double_ratchet.py: first as functions on a session
  value, then as the class whose methods overwrite its fields, proved against them.
 */
module Ratchet {
  import opened Wrappers
  import opened Lists
  import opened Keys

  const MAX_SKIP := 100      // refused beyond this many skipped messages in one chain
  const MAX_STORED := 1000   // skipped message keys kept at most

  /** `Header` is the dictionary key f"{peer_dh_b64}_{seq}" of a skipped message key. */
  datatype Header = Header(dh: PublicBytes, index: int)

  datatype Entry = Entry(header: Header, key: Key)

  datatype RatchetError = NotInitialized | BadPublicKey | TooManySkipped

  datatype Session = Session(
    dhPrivate: Option<nat>,
    dhRemote: Option<PublicBytes>,
    rootKey: Option<Key>,
    sendingChain: Option<Key>,
    receivingChain: Option<Key>,
    seqSend: nat,
    seqRecv: nat,
    prevChainLength: nat,
    skipped: seq<Entry>)   // the dictionary, in insertion order

  datatype Outcome<T> = Outcome(session: Session, result: Result<T, RatchetError>)

  /** What `encrypt` returns: the message key and the header to send with it. */
  datatype Outgoing = Outgoing(key: Key, dh: PublicBytes, index: nat, prevChainLength: nat)

  // ---------------------------------------------------------------- the dictionary

  /** The position of the first entry with header `h`, or the length of the store. */
  function Find(store: seq<Entry>, h: Header): (i: nat)
    ensures i <= |store|
    ensures i < |store| ==> store[i].header == h
    ensures forall j :: 0 <= j < i ==> store[j].header != h
  {
    if store == [] || store[0].header == h then 0 else 1 + Find(store[1..], h)
  }

  /** Assignment to a dictionary entry: an existing key keeps its place. */
  function Put(store: seq<Entry>, h: Header, k: Key): seq<Entry> {
    var i := Find(store, h);
    if i < |store| then store[i := Entry(h, k)] else store + [Entry(h, k)]
  }

  // ---------------------------------------------------------------- the session

  function Blank(): Session {
    Session(None, None, None, None, None, 0, 0, 0, [])
  }

  function InitAlice(secret: Key, peer: nat, newKey: nat): Session {
    var dh := Exchange(newKey, peer);
    Blank().(dhPrivate := Some(newKey), dhRemote := Some(Point(peer)),
             rootKey := Some(RootOf(secret, dh)), sendingChain := Some(ChainOf(secret, dh)))
  }

  function InitBob(secret: Key, mine: nat): Session {
    Blank().(dhPrivate := Some(mine), rootKey := Some(secret))
  }

  function Encrypt(s: Session): Outcome<Outgoing> {
    if s.dhPrivate.None? || s.sendingChain.None? then Outcome(s, Err(NotInitialized))
    else
      var ck := s.sendingChain.value;
      Outcome(s.(sendingChain := Some(NextChain(ck)), seqSend := s.seqSend + 1),
              Ok(Outgoing(MessageKey(ck), Point(s.dhPrivate.value), s.seqSend, s.prevChainLength)))
  }

  predicate CanSkip(s: Session) {
    s.receivingChain.Some? && s.dhRemote.Some?
  }

  /** One round of the skipping loop: store the next message key, evicting at the cap. */
  function SkipOne(s: Session): (r: Session)
    requires CanSkip(s)
    ensures CanSkip(r)
  {
    var ck := s.receivingChain.value;
    var kept := if |s.skipped| >= MAX_STORED then s.skipped[1..] else s.skipped;
    s.(receivingChain := Some(NextChain(ck)),
       skipped := Put(kept, Header(s.dhRemote.value, s.seqRecv), MessageKey(ck)),
       seqRecv := s.seqRecv + 1)
  }

  function SkipLoop(s: Session, until: int): (r: Session)
    requires CanSkip(s)
    ensures CanSkip(r)
    decreases until - s.seqRecv
  {
    if s.seqRecv < until then SkipLoop(SkipOne(s), until) else s
  }

  predicate RefusesSkip(s: Session, until: int) {
    CanSkip(s) && s.seqRecv + MAX_SKIP < until
  }

  function SkipMessages(s: Session, until: int): Outcome<()> {
    if !CanSkip(s) then Outcome(s, Ok(()))
    else if RefusesSkip(s, until) then Outcome(s, Err(TooManySkipped))
    else Outcome(SkipLoop(s, until), Ok(()))
  }

  /** The DH ratchet step: two root steps around a fresh key pair. */
  function DhStep(s: Session, peer: PublicBytes, newKey: nat): Outcome<()> {
    var s1 := s.(dhRemote := Some(peer));
    if s.dhPrivate.None? || s.rootKey.None? then Outcome(s1, Err(NotInitialized))
    else if !peer.Point? then Outcome(s1, Err(BadPublicKey))
    else
      var dh1 := Exchange(s.dhPrivate.value, peer.id);
      var root1 := RootOf(s.rootKey.value, dh1);
      var dh2 := Exchange(newKey, peer.id);
      Outcome(s1.(dhPrivate := Some(newKey), rootKey := Some(RootOf(root1, dh2)),
                  receivingChain := Some(ChainOf(s.rootKey.value, dh1)),
                  sendingChain := Some(ChainOf(root1, dh2)),
                  prevChainLength := s.seqSend, seqSend := 0, seqRecv := 0),
              Ok(()))
  }

  /** Moves to the peer's chain `peer`, closing the current one, if the session is not
      already on it. */
  function Follow(s: Session, peer: PublicBytes, prevChainLen: int, newKey: nat): Outcome<()> {
    if s.dhRemote == Some(peer) then Outcome(s, Ok(()))
    else
      var closed := SkipMessages(s, prevChainLen);
      if closed.result.Err? then closed else DhStep(closed.session, peer, newKey)
  }

  /** Skips to message `index` of the receiving chain and takes its key. */
  function TakeKey(s: Session, index: int): Outcome<Key> {
    var skipped := SkipMessages(s, index);
    var s1 := skipped.session;
    if skipped.result.Err? then Outcome(s1, Err(skipped.result.error))
    else if s1.receivingChain.None? then Outcome(s1, Err(NotInitialized))
    else
      var ck := s1.receivingChain.value;
      Outcome(s1.(receivingChain := Some(NextChain(ck)), seqRecv := s1.seqRecv + 1), Ok(MessageKey(ck)))
  }

  function Decrypt(s: Session, peer: PublicBytes, index: int, prevChainLen: int, newKey: nat): Outcome<Key> {
    var i := Find(s.skipped, Header(peer, index));
    if i < |s.skipped| then
      Outcome(s.(skipped := Remove(s.skipped, i)), Ok(s.skipped[i].key))
    else if peer.Malformed? then Outcome(s, Err(BadPublicKey))
    else
      var followed := Follow(s, peer, prevChainLen, newKey);
      if followed.result.Err? then Outcome(followed.session, Err(followed.result.error))
      else TakeKey(followed.session, index)
  }

  // ---------------------------------------------------------------- evictions

  /** The headers whose stored keys the skipping loop evicts. */
  function SkipEvicts(s: Session, until: int): set<Header>
    requires CanSkip(s)
    decreases until - s.seqRecv
  {
    if s.seqRecv < until then
      (if |s.skipped| >= MAX_STORED then {s.skipped[0].header} else {}) + SkipEvicts(SkipOne(s), until)
    else {}
  }

  function MessagesEvict(s: Session, until: int): set<Header> {
    if CanSkip(s) && !RefusesSkip(s, until) then SkipEvicts(s, until) else {}
  }

  /** The headers whose stored keys a call of decrypt evicts. */
  function DecryptEvicts(s: Session, peer: PublicBytes, index: int, prevChainLen: int, newKey: nat): set<Header> {
    if Find(s.skipped, Header(peer, index)) < |s.skipped| || peer.Malformed? then {}
    else if s.dhRemote == Some(peer) then MessagesEvict(s, index)
    else
      MessagesEvict(s, prevChainLen) +
        var followed := Follow(s, peer, prevChainLen, newKey);
        if followed.result.Ok? then MessagesEvict(followed.session, index) else {}
  }

  // ---------------------------------------------------------------- the class

  class DoubleRatchetSession {
    var dhPrivate: Option<nat>
    var dhRemote: Option<PublicBytes>
    var rootKey: Option<Key>
    var sendingChain: Option<Key>
    var receivingChain: Option<Key>
    var seqSend: nat
    var seqRecv: nat
    var prevChainLength: nat
    var skippedMessageKeys: seq<Entry>
    ghost var chainSteps: nat   // chain KDF calls made on the receiving side

    function State(): Session
      reads this
    {
      Session(dhPrivate, dhRemote, rootKey, sendingChain, receivingChain,
              seqSend, seqRecv, prevChainLength, skippedMessageKeys)
    }

    constructor ForAlice(secret: Key, peer: nat, newKey: nat)
      ensures State() == InitAlice(secret, peer, newKey)
    {
      var dhOut := Exchange(newKey, peer);
      dhPrivate, dhRemote := Some(newKey), Some(Point(peer));
      rootKey, sendingChain, receivingChain := Some(RootOf(secret, dhOut)), Some(ChainOf(secret, dhOut)), None;
      seqSend, seqRecv, prevChainLength, skippedMessageKeys, chainSteps := 0, 0, 0, [], 0;
    }

    constructor ForBob(secret: Key, mine: nat)
      ensures State() == InitBob(secret, mine)
    {
      dhPrivate, dhRemote := Some(mine), None;
      rootKey, sendingChain, receivingChain := Some(secret), None, None;
      seqSend, seqRecv, prevChainLength, skippedMessageKeys, chainSteps := 0, 0, 0, [], 0;
    }

    method EncryptNext() returns (r: Result<Outgoing, RatchetError>)
      modifies this
      ensures Outcome(State(), r) == Encrypt(old(State()))
      ensures chainSteps == old(chainSteps)
    {
      if dhPrivate.None? || sendingChain.None? {
        return Err(NotInitialized);
      }
      var messageKey := MessageKey(sendingChain.value);
      sendingChain := Some(NextChain(sendingChain.value));
      var index := seqSend;
      seqSend := seqSend + 1;
      return Ok(Outgoing(messageKey, Point(dhPrivate.value), index, prevChainLength));
    }

    method Skip(until: int) returns (r: Result<(), RatchetError>)
      modifies this
      ensures Outcome(State(), r) == SkipMessages(old(State()), until)
      ensures chainSteps <= old(chainSteps) + MAX_SKIP
    {
      if receivingChain.None? || dhRemote.None? {
        return Ok(());
      }
      if seqRecv + MAX_SKIP < until {
        return Err(TooManySkipped);
      }
      ghost var target := SkipLoop(State(), until);
      while seqRecv < until
        invariant CanSkip(State())
        invariant SkipLoop(State(), until) == target
        invariant chainSteps - seqRecv == old(chainSteps - seqRecv)
        invariant seqRecv <= until || seqRecv == old(seqRecv)
      {
        StoreNextKey();
      }
      return Ok(());
    }

    /** The body of the skipping loop. */
    method StoreNextKey()
      requires CanSkip(State())
      modifies this
      ensures State() == SkipOne(old(State()))
      ensures chainSteps == old(chainSteps) + 1
    {
      var messageKey := MessageKey(receivingChain.value);
      receivingChain := Some(NextChain(receivingChain.value));
      if |skippedMessageKeys| >= MAX_STORED {
        skippedMessageKeys := skippedMessageKeys[1..];
      }
      skippedMessageKeys := Put(skippedMessageKeys, Header(dhRemote.value, seqRecv), messageKey);
      seqRecv := seqRecv + 1;
      chainSteps := chainSteps + 1;
    }

    /** The DH ratchet branch of decrypt. */
    method FollowPeer(peer: PublicBytes, prevChainLen: int, newKey: nat) returns (r: Result<(), RatchetError>)
      modifies this
      ensures Outcome(State(), r) == Follow(old(State()), peer, prevChainLen, newKey)
      ensures chainSteps <= old(chainSteps) + MAX_SKIP
    {
      if dhRemote == Some(peer) {
        return Ok(());
      }
      var closed := Skip(prevChainLen);
      if closed.Err? {
        return closed;
      }
      dhRemote := Some(peer);
      if dhPrivate.None? || rootKey.None? {
        return Err(NotInitialized);
      }
      if !peer.Point? {
        return Err(BadPublicKey);
      }
      var dhOut1 := Exchange(dhPrivate.value, peer.id);
      rootKey, receivingChain := Some(RootOf(rootKey.value, dhOut1)), Some(ChainOf(rootKey.value, dhOut1));
      dhPrivate := Some(newKey);
      var dhOut2 := Exchange(newKey, peer.id);
      rootKey, sendingChain := Some(RootOf(rootKey.value, dhOut2)), Some(ChainOf(rootKey.value, dhOut2));
      prevChainLength := seqSend;
      seqSend := 0;
      seqRecv := 0;
      return Ok(());
    }

    /** One call never makes more than 201 receiving chain steps: two skips and its own key. */
    method DecryptNext(peer: PublicBytes, index: int, prevChainLen: int, newKey: nat)
      returns (r: Result<Key, RatchetError>)
      modifies this
      ensures Outcome(State(), r) == Decrypt(old(State()), peer, index, prevChainLen, newKey)
      ensures chainSteps <= old(chainSteps) + 2 * MAX_SKIP + 1
    {
      var i := Find(skippedMessageKeys, Header(peer, index));
      if i < |skippedMessageKeys| {
        var key := skippedMessageKeys[i].key;
        skippedMessageKeys := Remove(skippedMessageKeys, i);
        return Ok(key);
      }
      if peer.Malformed? {
        return Err(BadPublicKey);
      }
      var followed := FollowPeer(peer, prevChainLen, newKey);
      if followed.Err? {
        return Err(followed.error);
      }
      var skipped := Skip(index);
      if skipped.Err? {
        return Err(skipped.error);
      }
      if receivingChain.None? {
        return Err(NotInitialized);
      }
      var messageKey := MessageKey(receivingChain.value);
      receivingChain := Some(NextChain(receivingChain.value));
      seqRecv := seqRecv + 1;
      chainSteps := chainSteps + 1;
      return Ok(messageKey);
    }
  }
}
