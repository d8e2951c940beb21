/**
  Saving and reloading a session. `json.dumps` followed by `json.loads` is the identity on the
  record below; everything else the text goes through is written out: base64, hex, the skip
  keys, and the truthiness tests that turn an empty value into null.
 */
module Persistence {
  import opened Wrappers
  import opened Keys
  import opened Ratchet
  import opened Codec
  import Secrecy

  /** The JSON object of `to_json`. The skipped keys keep their insertion order. */
  datatype SessionJson = SessionJson(
    dhPrivateB64: Option<string>,
    dhRemoteB64: Option<string>,
    rootKeyHex: Option<string>,
    sendingChainKeyHex: Option<string>,
    receivingChainKeyHex: Option<string>,
    seqSend: nat,
    seqRecv: nat,
    prevChainLength: nat,
    skippedMessageKeys: seq<(string, string)>)

  /** A session object has a tenth field, which `to_json` leaves out. */
  datatype Stored = Stored(session: Session, kemCiphertextB64: Option<string>)

  /** How terms are laid out as raw bytes, and read back. */
  datatype Layout = Layout(
    ofKey: Key -> Bytes, toKey: Bytes -> Key,
    ofPublic: PublicBytes -> Bytes, toPublic: Bytes -> PublicBytes,
    ofPrivate: nat -> Bytes, toPrivate: Bytes -> nat)

  /** Different terms have different bytes, and none has zero bytes. */
  ghost predicate Faithful(w: Layout) {
    && (forall k :: w.toKey(w.ofKey(k)) == k && w.ofKey(k) != [])
    && (forall p :: w.toPublic(w.ofPublic(p)) == p && w.ofPublic(p) != [])
    && (forall n :: w.toPrivate(w.ofPrivate(n)) == n && w.ofPrivate(n) != [])
  }

  // ---------------------------------------------------------------- one optional field

  function SaveHex(bytes: Option<Bytes>): Option<string> {
    if bytes.Some? && bytes.value != [] then Some(ToHex(bytes.value)) else None
  }

  function LoadHex(text: Option<string>): Option<Bytes> {
    if text.Some? && text.value != "" then FromHex(text.value) else None
  }

  function SaveBase64(bytes: Option<Bytes>): Option<string> {
    if bytes.Some? && bytes.value != [] then Some(ToBase64(bytes.value)) else None
  }

  function LoadBase64(text: Option<string>): Option<Bytes> {
    if text.Some? && text.value != "" then FromBase64(text.value) else None
  }

  /** A field survives unless it holds zero bytes, which come back as null. */
  lemma HexFieldSurvives(bytes: Option<Bytes>)
    ensures LoadHex(SaveHex(bytes)) == bytes <==> bytes != Some([])
  {
    if bytes.Some? { HexRoundTrip(bytes.value); }
  }

  lemma Base64FieldSurvives(bytes: Option<Bytes>)
    ensures LoadBase64(SaveBase64(bytes)) == bytes <==> bytes != Some([])
  {
    if bytes.Some? { Base64RoundTrip(bytes.value); }
  }

  // ---------------------------------------------------------------- the session

  function Map<A, B>(o: Option<A>, f: A -> B): Option<B> {
    if o.Some? then Some(f(o.value)) else None
  }

  function SaveEntry(e: Entry, w: Layout): (string, string) {
    (SkipKey(w.ofPublic(e.header.dh), e.header.index), ToHex(w.ofKey(e.key)))
  }

  /** The entry a dictionary item stands for. */
  function LoadEntry(item: (string, string), w: Layout): Entry {
    var key, value := ParseSkipKey(item.0), FromHex(item.1);
    if key.Some? && value.Some?
    then Entry(Header(w.toPublic(key.value.0), key.value.1), w.toKey(value.value))
    else Entry(Header(Malformed(0), 0), Shared(0))
  }

  function SaveStore(store: seq<Entry>, w: Layout): seq<(string, string)> {
    if store == [] then [] else [SaveEntry(store[0], w)] + SaveStore(store[1..], w)
  }

  function LoadStore(items: seq<(string, string)>, w: Layout): seq<Entry> {
    if items == [] then [] else [LoadEntry(items[0], w)] + LoadStore(items[1..], w)
  }

  function ToJson(x: Stored, w: Layout): SessionJson {
    var s := x.session;
    SessionJson(SaveBase64(Map(s.dhPrivate, w.ofPrivate)), SaveBase64(Map(s.dhRemote, w.ofPublic)),
                SaveHex(Map(s.rootKey, w.ofKey)), SaveHex(Map(s.sendingChain, w.ofKey)),
                SaveHex(Map(s.receivingChain, w.ofKey)),
                s.seqSend, s.seqRecv, s.prevChainLength, SaveStore(s.skipped, w))
  }

  function FromJson(j: SessionJson, w: Layout): Stored {
    Stored(
      Session(Map(LoadBase64(j.dhPrivateB64), w.toPrivate), Map(LoadBase64(j.dhRemoteB64), w.toPublic),
              Map(LoadHex(j.rootKeyHex), w.toKey), Map(LoadHex(j.sendingChainKeyHex), w.toKey),
              Map(LoadHex(j.receivingChainKeyHex), w.toKey),
              j.seqSend, j.seqRecv, j.prevChainLength, LoadStore(j.skippedMessageKeys, w)),
      None)
  }

  lemma EntrySurvives(e: Entry, w: Layout)
    requires Faithful(w)
    ensures LoadEntry(SaveEntry(e, w), w) == e
  {
    SkipKeyRoundTrip(w.ofPublic(e.header.dh), e.header.index);
    HexRoundTrip(w.ofKey(e.key));
  }

  lemma {:induction false} StoreSurvives(store: seq<Entry>, w: Layout)
    requires Faithful(w)
    ensures LoadStore(SaveStore(store, w), w) == store
  {
    if store != [] {
      EntrySurvives(store[0], w);
      StoreSurvives(store[1..], w);
      assert SaveStore(store, w)[1..] == SaveStore(store[1..], w);
    }
  }

  /** Looking a skip key up in the saved dictionary is looking its header up in the store. */
  lemma SkipKeysDistinguish(h: Header, h': Header, w: Layout)
    requires Faithful(w)
    ensures SkipKey(w.ofPublic(h.dh), h.index) == SkipKey(w.ofPublic(h'.dh), h'.index) <==> h == h'
  {
    SkipKeyRoundTrip(w.ofPublic(h.dh), h.index);
    SkipKeyRoundTrip(w.ofPublic(h'.dh), h'.index);
  }

  /** All nine ratchet fields come back, the skipped keys in order; the KEM ciphertext does not. */
  lemma SessionSurvives(x: Stored, w: Layout)
    requires Faithful(w)
    ensures FromJson(ToJson(x, w), w) == x.(kemCiphertextB64 := None)
  {
    var s := x.session;
    Base64FieldSurvives(Map(s.dhPrivate, w.ofPrivate));
    Base64FieldSurvives(Map(s.dhRemote, w.ofPublic));
    HexFieldSurvives(Map(s.rootKey, w.ofKey));
    HexFieldSurvives(Map(s.sendingChain, w.ofKey));
    HexFieldSurvives(Map(s.receivingChain, w.ofKey));
    StoreSurvives(s.skipped, w);
  }

  // ---------------------------------------------------------------- runs with reloads

  datatype Action = Do(call: Secrecy.Call) | Reload

  /** The result of a call, errors included, and the headers it evicted. */
  datatype Effect = Effect(result: Result<Key, RatchetError>, evicted: set<Header>)

  datatype Log = Log(session: Session, effects: seq<Effect>)

  function EvictedBy(s: Session, call: Secrecy.Call): set<Header> {
    match call
    case EncryptCall => {}
    case DecryptCall(peer, index, prevChainLen, newKey) => DecryptEvicts(s, peer, index, prevChainLen, newKey)
  }

  /** The calls with their effects; a reload has none. */
  function Drive(s: Session, actions: seq<Action>, w: Layout): Log
    decreases |actions|
  {
    if actions == [] then Log(s, [])
    else if actions[0].Reload? then
      Drive(FromJson(ToJson(Stored(s, None), w), w).session, actions[1..], w)
    else
      var out := Secrecy.Apply(s, actions[0].call);
      var rest := Drive(out.session, actions[1..], w);
      rest.(effects := [Effect(out.result, EvictedBy(s, actions[0].call))] + rest.effects)
  }

  function WithoutReloads(actions: seq<Action>): seq<Action> {
    if actions == [] then []
    else (if actions[0].Reload? then [] else [actions[0]]) + WithoutReloads(actions[1..])
  }

  /** Reloading the session anywhere in a run changes no key, no error, no eviction, and not
      the state it ends in. */
  lemma {:induction false} ReloadsChangeNothing(s: Session, actions: seq<Action>, w: Layout)
    requires Faithful(w)
    ensures Drive(s, actions, w) == Drive(s, WithoutReloads(actions), w)
    decreases |actions|
  {
    if actions != [] {
      var rest := WithoutReloads(actions[1..]);
      if actions[0].Reload? {
        SessionSurvives(Stored(s, None), w);
        ReloadsChangeNothing(s, actions[1..], w);
        assert WithoutReloads(actions) == rest;
      } else {
        ReloadsChangeNothing(Secrecy.Apply(s, actions[0].call).session, actions[1..], w);
        assert WithoutReloads(actions) == [actions[0]] + rest;
      }
    }
  }

  // ---------------------------------------------------------------- the web client

  /** The web session keeps raw bytes, and its own public key as well. */
  datatype WebSession = WebSession(
    dhPrivateKey: Option<Bytes>, dhPublicKey: Option<Bytes>, dhRemotePublicKey: Option<Bytes>,
    rootKey: Option<Bytes>, sendingChainKey: Option<Bytes>, receivingChainKey: Option<Bytes>,
    seqSend: nat, seqRecv: nat, prevChainLength: nat, skippedMessageKeys: seq<(string, string)>)

  datatype WebJson = WebJson(keys: seq<Option<string>>, numbers: (nat, nat, nat), skipped: seq<(string, string)>)

  /** A present but empty array is written as "", which reads back as null. */
  function WebField(bytes: Option<Bytes>): Option<string> {
    if bytes.Some? then Some(ToHex(bytes.value)) else None
  }

  function Serialize(s: WebSession): (j: WebJson)
    ensures |j.keys| == 6
  {
    WebJson([WebField(s.dhPrivateKey), WebField(s.dhPublicKey), WebField(s.dhRemotePublicKey),
             WebField(s.rootKey), WebField(s.sendingChainKey), WebField(s.receivingChainKey)],
            (s.seqSend, s.seqRecv, s.prevChainLength), s.skippedMessageKeys)
  }

  function Deserialize(j: WebJson): WebSession
    requires |j.keys| == 6
  {
    WebSession(LoadHex(j.keys[0]), LoadHex(j.keys[1]), LoadHex(j.keys[2]),
               LoadHex(j.keys[3]), LoadHex(j.keys[4]), LoadHex(j.keys[5]),
               j.numbers.0, j.numbers.1, j.numbers.2, j.skipped)
  }

  lemma WebFieldSurvives(bytes: Option<Bytes>)
    ensures LoadHex(WebField(bytes)) == bytes <==> bytes != Some([])
  {
    if bytes.Some? { HexRoundTrip(bytes.value); }
  }

  /** A web session survives exactly when none of its six byte fields is present but empty. */
  lemma WebSessionSurvives(s: WebSession)
    ensures Deserialize(Serialize(s)) == s <==>
      Some([]) !in [s.dhPrivateKey, s.dhPublicKey, s.dhRemotePublicKey,
                    s.rootKey, s.sendingChainKey, s.receivingChainKey]
  {
    WebFieldSurvives(s.dhPrivateKey);
    WebFieldSurvives(s.dhPublicKey);
    WebFieldSurvives(s.dhRemotePublicKey);
    WebFieldSurvives(s.rootKey);
    WebFieldSurvives(s.sendingChainKey);
    WebFieldSurvives(s.receivingChainKey);
  }
}
