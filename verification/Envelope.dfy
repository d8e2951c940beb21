/**
  The v2 envelope of core/protocol.py: a padded plaintext, sealed with the ratchet's message
  key and bound to its header, inside a NaCl box. AES-GCM and the box are ideal: they open
  under exactly what they were sealed under.
 */
module Envelope {
  import opened Wrappers
  import opened Keys
  import opened Ratchet
  import opened Codec
  import opened Conversation
  import Secrecy

  const PADDED_SIZE := 2048
  const MAX_UINT32 := 0x1_0000_0000

  datatype EnvelopeError =
    | RatchetFailed(error: RatchetError)
    | BadBox
    | BadTag
    | StructError      // struct.pack or struct.unpack raises
    | BadLength        // the length header exceeds the buffer

  // ---------------------------------------------------------------- padding

  function PaddedLength(n: nat): nat {
    if n + 4 > PADDED_SIZE then (n + 4 + PADDED_SIZE - 1) / PADDED_SIZE * PADDED_SIZE else PADDED_SIZE
  }

  /** The least positive multiple of 2048 that holds the text and its length. */
  lemma PaddedLengthIsLeast(n: nat, k: nat)
    ensures PaddedLength(n) % PADDED_SIZE == 0
    ensures k >= 1 && k * PADDED_SIZE >= n + 4 <==> k * PADDED_SIZE >= PaddedLength(n)
  {
  }

  /** The web client counts up to the same length. */
  method WebBlockSize(n: nat) returns (blockSize: nat)
    ensures blockSize == PaddedLength(n)
  {
    blockSize := PADDED_SIZE;
    while n + 4 > blockSize
      invariant blockSize % PADDED_SIZE == 0
      invariant PADDED_SIZE <= blockSize <= PaddedLength(n)
    {
      blockSize := blockSize + PADDED_SIZE;
    }
  }

  /** Big-endian, four bytes. */
  function PackUint32(n: nat): (b: Bytes)
    requires n < MAX_UINT32
    ensures |b| == 4
  {
    [n / 0x100_0000, n / 0x1_0000 % 0x100, n / 0x100 % 0x100, n % 0x100]
  }

  function UnpackUint32(b: Bytes): nat
    requires |b| == 4
  {
    0x100_0000 * (b[0] as int) + 0x1_0000 * (b[1] as int) + 0x100 * (b[2] as int) + b[3] as int
  }

  lemma Uint32RoundTrip(n: nat)
    requires n < MAX_UINT32
    ensures UnpackUint32(PackUint32(n)) == n
  {
    var a, b := n / 0x100, n / 0x1_0000;
    assert b == a / 0x100 && n / 0x100_0000 == b / 0x100;
    assert n == 0x100 * a + n % 0x100 && a == 0x100 * b + a % 0x100 && b == 0x100 * (b / 0x100) + b % 0x100;
  }

  lemma PackUnpack(b: Bytes)
    requires |b| == 4
    ensures UnpackUint32(b) < MAX_UINT32 && PackUint32(UnpackUint32(b)) == b
  {
    var n := UnpackUint32(b);
    assert n / 0x100 == 0x1_0000 * (b[0] as int) + 0x100 * (b[1] as int) + b[2] as int;
    assert n / 0x1_0000 == 0x100 * (b[0] as int) + b[1] as int;
  }

  /** The number a list of bytes stands for, the most significant byte first. */
  function BigEndian(b: Bytes): nat {
    if b == [] then 0 else 256 * BigEndian(b[..|b| - 1]) + b[|b| - 1]
  }

  lemma UnpackIsBigEndian(b: Bytes)
    requires |b| == 4
    ensures UnpackUint32(b) == BigEndian(b)
  {
    assert b[..3][..2] == b[..2] && b[..2][..1] == b[..1] && b[..1][..0] == [];
    assert BigEndian(b[..1]) == b[0] && BigEndian(b[..2]) == 256 * BigEndian(b[..1]) + b[1];
    assert BigEndian(b[..3]) == 256 * BigEndian(b[..2]) + b[2];
  }

  function Noise(random: nat -> Byte, from: nat, until: nat): (b: Bytes)
    requires from <= until
    ensures |b| == until - from && forall i :: 0 <= i < |b| ==> b[i] == random(from + i)
  {
    seq(until - from, i requires 0 <= i < until - from => random(from + i))
  }

  function Pad(text: Bytes, random: nat -> Byte): Result<Bytes, EnvelopeError> {
    if |text| >= MAX_UINT32 then Err(StructError)
    else Ok(PackUint32(|text|) + text + Noise(random, 4 + |text|, PaddedLength(|text|)))
  }

  function Unpad(buffer: Bytes): Result<Bytes, EnvelopeError> {
    if |buffer| < 4 then Err(StructError)
    else
      var n := UnpackUint32(buffer[..4]);
      if n > |buffer| - 4 then Err(BadLength) else Ok(buffer[4..4 + n])
  }

  /** Whatever the noise, the text comes back; and the length of the buffer shows the text's
      length only up to the next multiple of 2048. */
  lemma PadRoundTrip(text: Bytes, random: nat -> Byte)
    requires |text| < MAX_UINT32
    ensures Pad(text, random).Ok?
    ensures Unpad(Pad(text, random).value) == Ok(text)
    ensures |Pad(text, random).value| == PaddedLength(|text|)
    ensures BigEndian(Pad(text, random).value[..4]) == |text|
    ensures forall i :: 4 + |text| <= i < PaddedLength(|text|) ==> Pad(text, random).value[i] == random(i)
  {
    var buffer := Pad(text, random).value;
    assert buffer[..4] == PackUint32(|text|);
    Uint32RoundTrip(|text|);
    UnpackIsBigEndian(buffer[..4]);
    assert buffer[4..4 + |text|] == text;
  }

  /** Fills a zeroed buffer in place: length, text, noise. */
  method PadPlaintext(text: Bytes, random: nat -> Byte) returns (r: Result<array<Byte>, EnvelopeError>)
    ensures r.Ok? <==> Pad(text, random).Ok?
    ensures r.Ok? ==> fresh(r.value) && r.value[..] == Pad(text, random).value
    ensures r.Err? ==> Pad(text, random) == Err(r.error)
  {
    var paddedLen := PADDED_SIZE;
    if |text| + 4 > paddedLen {
      paddedLen := (|text| + 4 + PADDED_SIZE - 1) / PADDED_SIZE * PADDED_SIZE;
    }
    var buffer := new Byte[paddedLen](_ => 0);
    if |text| >= MAX_UINT32 {
      return Err(StructError);
    }
    var length := PackUint32(|text|);
    ghost var goal := Pad(text, random).value;
    forall i | 0 <= i < 4 {
      buffer[i] := length[i];
    }
    forall i | 0 <= i < |text| {
      buffer[4 + i] := text[i];
    }
    forall i | 4 + |text| <= i < paddedLen {
      buffer[i] := random(i);
    }
    assert buffer[..] == goal;
    return Ok(buffer);
  }

  // ---------------------------------------------------------------- associated data

  /** `sha256` stands for the hash; the source keeps 16 bytes of it. */
  function ConstructAad(role: Bytes, seqNum: int, sessionId: Bytes, version: int, sha256: Bytes -> Bytes):
    Result<Bytes, EnvelopeError>
  {
    if !(0 <= seqNum < MAX_UINT32) then Err(StructError)
    else if version == 1 then Ok(FirstOf(role, 1) + PackUint32(seqNum))
    else if !(0 <= version < 256) then Err(StructError)
    else Ok(FirstOf(role, 1) + PackUint32(seqNum) + FirstOf(sha256(sessionId), 16) + [version])
  }

  function FirstOf(b: Bytes, n: nat): Bytes {
    if |b| <= n then b else b[..n]
  }

  /** What the associated data binds: two calls give the same bytes exactly when they agree on
      the version, the first byte of the role, the number and, beyond version 1, on 16 bytes
      of the session hash. So version 1 data never passes for version 2 data. */
  lemma AadBinds(role: Bytes, n: int, id: Bytes, v: int, role': Bytes, n': int, id': Bytes, v': int,
                 sha256: Bytes -> Bytes)
    requires |sha256(id)| == |sha256(id')| == 32
    requires ConstructAad(role, n, id, v, sha256).Ok? && ConstructAad(role', n', id', v', sha256).Ok?
    ensures ConstructAad(role, n, id, v, sha256) == ConstructAad(role', n', id', v', sha256) <==>
      FirstOf(role, 1) == FirstOf(role', 1) && n == n' && v == v' &&
      (v != 1 ==> FirstOf(sha256(id), 16) == FirstOf(sha256(id'), 16))
  {
    var a, a' := ConstructAad(role, n, id, v, sha256).value, ConstructAad(role', n', id', v', sha256).value;
    var k := |FirstOf(role, 1)|;
    Uint32RoundTrip(n);
    Uint32RoundTrip(n');
    if a == a' {
      assert |FirstOf(role', 1)| == k;
      assert a[..k] == FirstOf(role, 1) && a'[..k] == FirstOf(role', 1);
      assert a[k..k + 4] == PackUint32(n) && a'[k..k + 4] == PackUint32(n');
      if v != 1 {
        assert a[k + 4..k + 20] == FirstOf(sha256(id), 16) && a'[k + 4..k + 20] == FirstOf(sha256(id'), 16);
        assert a[k + 20] == v && a'[k + 20] == v';
      }
    }
  }

  // ---------------------------------------------------------------- the two layers

  datatype Sealed = Sealed(key: Key, iv: Bytes, plaintext: Bytes, aad: Bytes)

  datatype Inner = Inner(iv: Bytes, sealed: Sealed)

  datatype Boxed = Boxed(shared: Key, nonce: Bytes, content: Inner)

  datatype Payload = Payload(nonce: Bytes, box: Boxed, dh: PublicBytes, index: int, prevChainLength: int)

  /** What both ends know about the conversation. */
  datatype Context = Context(role: Bytes, sessionId: Bytes, sha256: Bytes -> Bytes)

  datatype Randomness = Randomness(iv: Bytes, nonce: Bytes, noise: nat -> Byte)

  function OpenSealed(c: Sealed, key: Key, iv: Bytes, aad: Bytes): Result<Bytes, EnvelopeError> {
    if c.key == key && c.iv == iv && c.aad == aad then Ok(c.plaintext) else Err(BadTag)
  }

  function OpenBox(b: Boxed, nonce: Bytes, shared: Key): Result<Inner, EnvelopeError> {
    if b.shared == shared && b.nonce == nonce then Ok(b.content) else Err(BadBox)
  }

  /** The envelope around a message key that `encrypt` has just returned. */
  function SealWith(o: Outgoing, text: Bytes, c: Context, mine: nat, peer: nat, r: Randomness):
    Result<Payload, EnvelopeError>
  {
    var padded := Pad(text, r.noise);
    if padded.Err? then Err(padded.error)
    else
      var aad := ConstructAad(c.role, o.index, c.sessionId, 2, c.sha256);
      if aad.Err? then Err(aad.error)
      else
        Ok(Payload(r.nonce,
                   Boxed(Exchange(mine, peer), r.nonce, Inner(r.iv, Sealed(o.key, r.iv, padded.value, aad.value))),
                   o.dh, o.index, o.prevChainLength))
  }

  datatype Done<T> = Done(session: Session, result: Result<T, EnvelopeError>)

  function EncryptV2(s: Session, text: Bytes, c: Context, mine: nat, peer: nat, r: Randomness): Done<Payload> {
    var out := Encrypt(s);
    Done(out.session,
         if out.result.Err? then Err(RatchetFailed(out.result.error))
         else SealWith(out.result.value, text, c, mine, peer, r))
  }

  function OpenWith(key: Key, index: int, inner: Inner, c: Context): Result<Bytes, EnvelopeError> {
    var aad := ConstructAad(c.role, index, c.sessionId, 2, c.sha256);
    if aad.Err? then Err(aad.error)
    else
      var plain := OpenSealed(inner.sealed, key, inner.iv, aad.value);
      if plain.Err? then Err(plain.error) else Unpad(plain.value)
  }

  function DecryptV2(s: Session, p: Payload, c: Context, mine: nat, peer: nat, newKey: nat): Done<Bytes> {
    var inner := OpenBox(p.box, p.nonce, Exchange(mine, peer));
    if inner.Err? then Done(s, Err(inner.error))
    else
      var out := Decrypt(s, p.dh, p.index, p.prevChainLength, newKey);
      Done(out.session,
           if out.result.Err? then Err(RatchetFailed(out.result.error))
           else OpenWith(out.result.value, p.index, inner.value, c))
  }

  method EncryptMessageV2(dr: DoubleRatchetSession, text: Bytes, c: Context, mine: nat, peer: nat, r: Randomness)
    returns (result: Result<Payload, EnvelopeError>)
    modifies dr
    ensures Done(dr.State(), result) == EncryptV2(old(dr.State()), text, c, mine, peer, r)
  {
    var out := dr.EncryptNext();
    if out.Err? {
      return Err(RatchetFailed(out.error));
    }
    return SealWith(out.value, text, c, mine, peer, r);
  }

  method DecryptMessageV2(dr: DoubleRatchetSession, p: Payload, c: Context, mine: nat, peer: nat, newKey: nat)
    returns (result: Result<Bytes, EnvelopeError>)
    modifies dr
    ensures Done(dr.State(), result) == DecryptV2(old(dr.State()), p, c, mine, peer, newKey)
  {
    var inner := OpenBox(p.box, p.nonce, Exchange(mine, peer));
    if inner.Err? {
      return Err(inner.error);
    }
    var out := dr.DecryptNext(p.dh, p.index, p.prevChainLength, newKey);
    if out.Err? {
      return Err(RatchetFailed(out.error));
    }
    return OpenWith(out.value, p.index, inner.value, c);
  }

  /** Encrypting succeeds exactly when the session can send and both lengths fit 32 bits. */
  lemma EncryptV2Succeeds(s: Session, text: Bytes, c: Context, mine: nat, peer: nat, r: Randomness)
    ensures EncryptV2(s, text, c, mine, peer, r).result.Ok? <==>
      s.dhPrivate.Some? && s.sendingChain.Some? && |text| < MAX_UINT32 && s.seqSend < MAX_UINT32
  {
  }

  /** An envelope opens with the key that sealed it and with no other. */
  lemma SealOpens(o: Outgoing, text: Bytes, c: Context, mine: nat, peer: nat, r: Randomness, key: Key)
    requires SealWith(o, text, c, mine, peer, r).Ok?
    ensures var p := SealWith(o, text, c, mine, peer, r).value;
      && OpenBox(p.box, p.nonce, Exchange(peer, mine)).Ok?
      && OpenWith(key, p.index, OpenBox(p.box, p.nonce, Exchange(peer, mine)).value, c) ==
           if key == o.key then Ok(text) else Err(BadTag)
  {
    PadRoundTrip(text, r.noise);
  }

  /** With the right key the inner layer opens exactly for the number, the role and the session
      it was sealed for. */
  lemma SealBinds(o: Outgoing, text: Bytes, c: Context, mine: nat, peer: nat, r: Randomness,
                  index: int, role: Bytes, id: Bytes)
    requires SealWith(o, text, c, mine, peer, r).Ok?
    requires |c.sha256(c.sessionId)| == |c.sha256(id)| == 32
    ensures var p := SealWith(o, text, c, mine, peer, r).value;
      OpenWith(o.key, index, p.box.content, Context(role, id, c.sha256)).Ok? <==>
      index == o.index && FirstOf(role, 1) == FirstOf(c.role, 1) &&
      FirstOf(c.sha256(id), 16) == FirstOf(c.sha256(c.sessionId), 16)
  {
    hide ConstructAad;
    PadRoundTrip(text, r.noise);
    AadSucceeds(c.role, o.index, c.sessionId, c.sha256);
    AadSucceeds(role, index, id, c.sha256);
    if 0 <= index < MAX_UINT32 {
      AadBinds(role, index, id, 2, c.role, o.index, c.sessionId, 2, c.sha256);
    }
  }

  lemma AadSucceeds(role: Bytes, n: int, id: Bytes, sha256: Bytes -> Bytes)
    ensures ConstructAad(role, n, id, 2, sha256).Ok? <==> 0 <= n < MAX_UINT32
  {
  }

  /** The outer layer opens exactly for the two key pairs it was made between, from either side. */
  lemma BoxBinds(o: Outgoing, text: Bytes, c: Context, mine: nat, peer: nat, r: Randomness, a: nat, b: nat)
    requires SealWith(o, text, c, mine, peer, r).Ok?
    ensures var p := SealWith(o, text, c, mine, peer, r).value;
      OpenBox(p.box, p.nonce, Exchange(a, b)).Ok? <==> {a, b} == {mine, peer}
  {
    assert {a, b} == {mine, peer} ==> a in {mine, peer} && b in {mine, peer} && mine in {a, b} && peer in {a, b};
  }

  // ---------------------------------------------------------------- one session, any envelopes

  /** One call of encrypt_message_v2. */
  datatype Request = Request(text: Bytes, c: Context, mine: nat, peer: nat, r: Randomness)

  function Seal(s: Session, q: Request): Done<Payload> {
    EncryptV2(s, q.text, q.c, q.mine, q.peer, q.r)
  }

  function SealAll(s: Session, qs: seq<Request>): Session {
    if qs == [] then s else Seal(SealAll(s, qs[..|qs| - 1]), qs[|qs| - 1]).session
  }

  /**
    The envelopes of consecutive calls. Call number n seals with the n-th key of the sending
    chain and carries the n-th number, whatever became of the calls before it: one that raises
    in padding or in the associated data uses up its key and its number.
   */
  lemma {:induction false} NumbersRise(s: Session, qs: seq<Request>, q: Request)
    requires s.dhPrivate.Some? && s.sendingChain.Some?
    ensures
      var s', chain := SealAll(s, qs), Steps(s.sendingChain.value, |qs|);
      && s' == s.(sendingChain := Some(chain), seqSend := s.seqSend + |qs|)
      && (Seal(s', q).result.Ok? ==>
            var p := Seal(s', q).result.value;
            p.index == s.seqSend + |qs| && SealingKey(p) == MessageKey(chain) && p.dh == Point(s.dhPrivate.value))
  {
    hide SealWith;
    if qs != [] { NumbersRise(s, qs[..|qs| - 1], qs[|qs| - 1]); }
    var out := Encrypt(SealAll(s, qs)).result;
    if Seal(SealAll(s, qs), q).result.Ok? { SealHeader(out.value, q.text, q.c, q.mine, q.peer, q.r); }
  }

  function SealingKey(p: Payload): Key {
    p.box.content.sealed.key
  }

  /** Any call of either function on one session. */
  datatype Use =
    | SealUse(q: Request)
    | OpenUse(p: Payload, c: Context, mine: nat, peer: nat, newKey: nat)

  datatype Tally = Tally(session: Session, payloads: seq<Payload>)

  /** The session after the calls, and the envelopes they made, in order. */
  function UseAll(s: Session, us: seq<Use>): Tally {
    if us == [] then Tally(s, [])
    else
      var before := UseAll(s, us[..|us| - 1]);
      match us[|us| - 1]
      case SealUse(q) =>
        var out := Seal(before.session, q);
        Tally(out.session, if out.result.Ok? then before.payloads + [out.result.value] else before.payloads)
      case OpenUse(p, c, mine, peer, newKey) =>
        before.(session := DecryptV2(before.session, p, c, mine, peer, newKey).session)
  }

  /** The sealing keys are among the keys the ratchet returned, each once. */
  ghost predicate SealsOnce(t: Tally, returned: seq<Key>) {
    && Secrecy.Accounted(t.session, returned)
    && (forall i :: 0 <= i < |t.payloads| ==> SealingKey(t.payloads[i]) in returned)
    && (forall i, j :: 0 <= i < j < |t.payloads| ==> SealingKey(t.payloads[i]) != SealingKey(t.payloads[j]))
  }

  lemma SealUseOk(t: Tally, returned: seq<Key>, q: Request) returns (returned': seq<Key>)
    requires SealsOnce(t, returned)
    ensures var out := Seal(t.session, q);
      SealsOnce(Tally(out.session, if out.result.Ok? then t.payloads + [out.result.value] else t.payloads), returned')
  {
    hide SealWith, Encrypt, Secrecy.Proper, Secrecy.Spent, Secrecy.StoreAccounted;
    Secrecy.EncryptAccounted(t.session, returned);
    var out := Encrypt(t.session).result;
    returned' := returned;
    if out.Ok? {
      returned' := returned + [out.value.key];
      if Seal(t.session, q).result.Ok? {
        SealHeader(out.value, q.text, q.c, q.mine, q.peer, q.r);
        LastIsNew(returned, out.value.key);
      }
    }
  }

  lemma LastIsNew(keys: seq<Key>, k: Key)
    requires Secrecy.Distinct(keys + [k])
    ensures k !in keys
  {
    forall i | 0 <= i < |keys| ensures keys[i] != k {
      assert (keys + [k])[i] == keys[i] && (keys + [k])[|keys|] == k;
    }
  }

  lemma OpenUseOk(t: Tally, returned: seq<Key>, p: Payload, c: Context, mine: nat, peer: nat, newKey: nat)
    returns (returned': seq<Key>)
    requires SealsOnce(t, returned)
    ensures SealsOnce(t.(session := DecryptV2(t.session, p, c, mine, peer, newKey).session), returned')
  {
    hide OpenWith, Decrypt, Secrecy.Accounted;
    returned' := returned;
    if OpenBox(p.box, p.nonce, Exchange(mine, peer)).Ok? {
      Secrecy.DecryptAccounted(t.session, p.dh, p.index, p.prevChainLength, newKey, returned);
      var out := Decrypt(t.session, p.dh, p.index, p.prevChainLength, newKey);
      if out.result.Ok? { returned' := returned + [out.result.value]; }
    }
  }

  lemma {:induction false} UsesOk(s: Session, us: seq<Use>) returns (returned: seq<Key>)
    requires Secrecy.Initial(s)
    ensures SealsOnce(UseAll(s, us), returned)
  {
    hide SealsOnce, DecryptV2, Seal;
    if us == [] {
      Secrecy.InitialAccounted(s);
      returned := [];
      NothingSealed(s);
    } else {
      var before := UseAll(s, us[..|us| - 1]);
      returned := UsesOk(s, us[..|us| - 1]);
      match us[|us| - 1] {
        case SealUse(q) => returned := SealUseOk(before, returned, q);
        case OpenUse(p, c, mine, peer, newKey) => returned := OpenUseOk(before, returned, p, c, mine, peer, newKey);
      }
    }
  }

  lemma NothingSealed(s: Session)
    requires Secrecy.Accounted(s, [])
    ensures SealsOnce(Tally(s, []), [])
  {
  }

  /** No two envelopes that one session ever makes are sealed with the same key, whatever it
      seals, whichever calls raise, and whatever it is given to open in between. */
  lemma SealingKeysDiffer(s: Session, us: seq<Use>, i: nat, j: nat)
    requires Secrecy.Initial(s)
    requires i < j < |UseAll(s, us).payloads|
    ensures SealingKey(UseAll(s, us).payloads[i]) != SealingKey(UseAll(s, us).payloads[j])
  {
    var _ := UsesOk(s, us);
  }

  // ---------------------------------------------------------------- end to end

  /** The box key pairs of the two people and what they agree on for each direction. */
  datatype Setup = Setup(aliceBox: nat, bobBox: nat, fromAlice: Context, fromBob: Context)

  function BoxOf(u: Setup, alice: bool): nat {
    if alice then u.aliceBox else u.bobBox
  }

  function ContextOf(u: Setup, fromAlice: bool): Context {
    if fromAlice then u.fromAlice else u.fromBob
  }

  /** A text written when the ratchet gave a key. Without a payload, sealing raised. */
  datatype Letter = Letter(text: Bytes, payload: Option<Payload>)

  /** One person: the letters written, and the texts read, by their places among the other's
      letters. */
  datatype Desk = Desk(session: Session, letters: seq<Letter>, read: map<nat, Bytes>, evicted: set<Header>)

  datatype Mail = Mail(alice: Desk, bob: Desk, nextKey: nat)

  datatype MailEvent =
    | Write(byAlice: bool, text: Bytes, r: Randomness)
    | Hand(toAlice: bool, i: nat)

  function DeskOf(m: Mail, alice: bool): Desk {
    if alice then m.alice else m.bob
  }

  function SetDesk(m: Mail, alice: bool, d: Desk): Mail {
    if alice then m.(alice := d) else m.(bob := d)
  }

  function MailStart(secret: Key, bobKey: nat, aliceKey: nat): Mail {
    Mail(Desk(InitAlice(secret, bobKey, aliceKey), [], map[], {}),
         Desk(InitBob(secret, bobKey), [], map[], {}),
         bobKey + aliceKey + 1)
  }

  /** Not read before, and its stored key not evicted. */
  predicate FairLetter(receiver: Desk, sender: Desk, i: nat) {
    && i < |sender.letters| && sender.letters[i].payload.Some?
    && i !in receiver.read
    && Header(sender.letters[i].payload.value.dh, sender.letters[i].payload.value.index) !in receiver.evicted
  }

  predicate MailEnabled(m: Mail, e: MailEvent) {
    e.Hand? ==> FairLetter(DeskOf(m, e.toAlice), DeskOf(m, !e.toAlice), e.i)
  }

  /** encrypt_message_v2 at one desk. */
  function WriteAt(u: Setup, me: Desk, byAlice: bool, text: Bytes, r: Randomness): Desk {
    var out := EncryptV2(me.session, text, ContextOf(u, byAlice), BoxOf(u, byAlice), BoxOf(u, !byAlice), r);
    me.(session := out.session,
        letters := if out.result.Err? && out.result.error.RatchetFailed? then me.letters
                   else me.letters + [Letter(text, if out.result.Ok? then Some(out.result.value) else None)])
  }

  /** decrypt_message_v2 at one desk. */
  function ReadAt(u: Setup, me: Desk, toAlice: bool, i: nat, p: Payload, newKey: nat): Desk {
    var out := DecryptV2(me.session, p, ContextOf(u, !toAlice), BoxOf(u, toAlice), BoxOf(u, !toAlice), newKey);
    me.(session := out.session,
        read := if out.result.Ok? then me.read[i := out.result.value] else me.read,
        evicted := me.evicted + DecryptEvicts(me.session, p.dh, p.index, p.prevChainLength, newKey))
  }

  function MailStep(u: Setup, m: Mail, e: MailEvent): Mail
    requires MailEnabled(m, e)
  {
    match e
    case Write(byAlice, text, r) => SetDesk(m, byAlice, WriteAt(u, DeskOf(m, byAlice), byAlice, text, r))
    case Hand(toAlice, i) =>
      var p := DeskOf(m, !toAlice).letters[i].payload.value;
      SetDesk(m, toAlice, ReadAt(u, DeskOf(m, toAlice), toAlice, i, p, m.nextKey)).(nextKey := m.nextKey + 1)
  }

  predicate ValidMail(u: Setup, m: Mail, es: seq<MailEvent>)
    decreases |es|, 0
  {
    es == [] || (ValidMail(u, m, es[..|es| - 1]) && MailEnabled(MailRun(u, m, es[..|es| - 1]), es[|es| - 1]))
  }

  function MailRun(u: Setup, m: Mail, es: seq<MailEvent>): Mail
    requires ValidMail(u, m, es)
    decreases |es|, 1
  {
    if es == [] then m else MailStep(u, MailRun(u, m, es[..|es| - 1]), es[|es| - 1])
  }

  /** The conversation underneath an exchange of letters. */
  function Underneath(e: MailEvent): Event {
    match e
    case Write(byAlice, _, _) => Send(byAlice)
    case Hand(toAlice, i) => Deliver(toAlice, i)
  }

  function Below(es: seq<MailEvent>): seq<Event> {
    if es == [] then [] else Below(es[..|es| - 1]) + [Underneath(es[|es| - 1])]
  }

  predicate SealsTo(o: Outgoing, text: Bytes, c: Context, mine: nat, peer: nat, r: Randomness, p: Payload) {
    SealWith(o, text, c, mine, peer, r) == Ok(p)
  }

  ghost predicate WasSealed(o: Outgoing, text: Bytes, c: Context, mine: nat, peer: nat, p: Payload) {
    exists r :: SealsTo(o, text, c, mine, peer, r, p)
  }

  /** Letter `l` is what sealing made of the ratchet's output `o`. */
  ghost predicate IsSealed(u: Setup, byAlice: bool, l: Letter, o: Outgoing) {
    l.payload.Some? ==>
      WasSealed(o, l.text, ContextOf(u, byAlice), BoxOf(u, byAlice), BoxOf(u, !byAlice), l.payload.value)
  }

  ghost predicate DeskOk(u: Setup, byAlice: bool, d: Desk, e: End, peer: Desk) {
    && d.session == e.session && d.evicted == e.evicted && d.read.Keys == e.got
    && |d.letters| == |e.outbox|
    && (forall i :: 0 <= i < |d.letters| ==> IsSealed(u, byAlice, d.letters[i], e.outbox[i]))
    && (forall i :: i in d.read ==> i < |peer.letters| && d.read[i] == peer.letters[i].text)
  }

  ghost predicate MailOk(u: Setup, m: Mail, w: World) {
    && m.nextKey == w.nextKey
    && DeskOk(u, true, m.alice, w.alice, m.bob) && DeskOk(u, false, m.bob, w.bob, m.alice)
  }

  lemma WriteOk(u: Setup, m: Mail, w: World, byAlice: bool, text: Bytes, r: Randomness)
    requires MailOk(u, m, w)
    ensures MailOk(u, MailStep(u, m, Write(byAlice, text, r)), Step(w, Send(byAlice)))
  {
    hide SealWith, Encrypt;
    var me, end := DeskOf(m, byAlice), Side(w, byAlice);
    var out := Encrypt(end.session).result;
    if out.Ok? {
      var c, a, b := ContextOf(u, byAlice), BoxOf(u, byAlice), BoxOf(u, !byAlice);
      var sealed := SealWith(out.value, text, c, a, b, r);
      SealErrors(out.value, text, c, a, b, r);
      var l := Letter(text, if sealed.Ok? then Some(sealed.value) else None);
      assert sealed.Ok? ==> SealsTo(out.value, text, c, a, b, r, sealed.value);
      assert IsSealed(u, byAlice, l, out.value);
      assert WriteAt(u, me, byAlice, text, r).letters == me.letters + [l];
    }
  }

  lemma SealErrors(o: Outgoing, text: Bytes, c: Context, mine: nat, peer: nat, r: Randomness)
    ensures SealWith(o, text, c, mine, peer, r).Err? ==> !SealWith(o, text, c, mine, peer, r).error.RatchetFailed?
  {
  }

  /** What a sealed letter does when it is handed over: the ratchet decides, and if it gives the
      right key the text is recovered. */
  lemma OpenLetter(u: Setup, s: Session, toAlice: bool, l: Letter, o: Outgoing, newKey: nat)
    requires IsSealed(u, !toAlice, l, o) && l.payload.Some?
    ensures
      var p := l.payload.value;
      var out := Attempt(s, o, newKey);
      && p.dh == o.dh && p.index == o.index && p.prevChainLength == o.prevChainLength
      && DecryptV2(s, p, ContextOf(u, !toAlice), BoxOf(u, toAlice), BoxOf(u, !toAlice), newKey) ==
           Done(out.session,
                if out.result.Err? then Err(RatchetFailed(out.result.error))
                else if out.result.value == o.key then Ok(l.text) else Err(BadTag))
  {
    hide SealWith, OpenWith, Decrypt;
    var c, a, b := ContextOf(u, !toAlice), BoxOf(u, !toAlice), BoxOf(u, toAlice);
    var r :| SealsTo(o, l.text, c, a, b, r, l.payload.value);
    SealHeader(o, l.text, c, a, b, r);
    var got := Attempt(s, o, newKey).result;
    SealOpens(o, l.text, c, a, b, r, if got.Ok? then got.value else o.key);
  }

  lemma HandOk(u: Setup, m: Mail, w: World, toAlice: bool, i: nat)
    requires MailOk(u, m, w) && MailEnabled(m, Hand(toAlice, i))
    requires Fair(Side(w, toAlice), Side(w, !toAlice), i) ==>
      var o := Side(w, !toAlice).outbox[i];
      var result := Attempt(Side(w, toAlice).session, o, w.nextKey).result;
      result == if OverLimit(Side(w, toAlice).session, o) then Err(TooManySkipped) else Ok(o.key)
    ensures Enabled(w, Deliver(toAlice, i))
    ensures MailOk(u, MailStep(u, m, Hand(toAlice, i)), Step(w, Deliver(toAlice, i)))
  {
    hide Decrypt, DecryptEvicts, DecryptV2, OverLimit, IsSealed;
    var l, o := DeskOf(m, !toAlice).letters[i], Side(w, !toAlice).outbox[i];
    OpenLetter(u, DeskOf(m, toAlice).session, toAlice, l, o, w.nextKey);
    assert Fair(Side(w, toAlice), Side(w, !toAlice), i);
  }

  /** Every exchange of letters is a run of the conversation underneath. */
  lemma {:induction false} MailRunOk(u: Setup, secret: Key, bobKey: nat, aliceKey: nat, es: seq<MailEvent>)
    requires Secrecy.IsSecret(secret) && bobKey != aliceKey && ValidMail(u, MailStart(secret, bobKey, aliceKey), es)
    ensures ValidRun(Start(secret, bobKey, aliceKey), Below(es))
    ensures MailOk(u, MailRun(u, MailStart(secret, bobKey, aliceKey), es),
                   Run(Start(secret, bobKey, aliceKey), Below(es)))
    decreases |es|
  {
    hide MailOk, MailStep, Step, Attempt, OverLimit, Fair;
    if es == [] {
      StartsOk(u, secret, bobKey, aliceKey);
    } else {
      var front, e := es[..|es| - 1], es[|es| - 1];
      MailRunOk(u, secret, bobKey, aliceKey, front);
      var m := MailRun(u, MailStart(secret, bobKey, aliceKey), front);
      var w := Run(Start(secret, bobKey, aliceKey), Below(front));
      assert Below(es)[..|Below(es)| - 1] == Below(front);
      match e {
        case Write(byAlice, text, r) => WriteOk(u, m, w, byAlice, text, r);
        case Hand(toAlice, i) =>
          HandedExists(u, m, w, toAlice, i);
          Agreement(secret, bobKey, aliceKey, Below(front), toAlice, i);
          HandOk(u, m, w, toAlice, i);
      }
    }
  }

  lemma StartsOk(u: Setup, secret: Key, bobKey: nat, aliceKey: nat)
    ensures MailOk(u, MailStart(secret, bobKey, aliceKey), Start(secret, bobKey, aliceKey))
  {
  }

  lemma HandedExists(u: Setup, m: Mail, w: World, toAlice: bool, i: nat)
    requires MailOk(u, m, w) && i < |DeskOf(m, !toAlice).letters|
    ensures i < |Side(w, !toAlice).outbox|
  {
  }

  /**
    End to end. Two people exchange letters by encrypt_message_v2 and decrypt_message_v2 in any
    order, with losses and refusals, and with texts that cannot be sealed. Every text read is
    the text written. And any envelope, handed over at the end of the run, gives exactly its
    text unless the 100-message limit refuses it; if it was read before, or its key was
    evicted, it gives an error, never a text.
   */
  lemma EndToEnd(u: Setup, secret: Key, bobKey: nat, aliceKey: nat, es: seq<MailEvent>, toAlice: bool, i: nat)
    requires Secrecy.IsSecret(secret) && bobKey != aliceKey && ValidMail(u, MailStart(secret, bobKey, aliceKey), es)
    ensures
      var m := MailRun(u, MailStart(secret, bobKey, aliceKey), es);
      var receiver, letters := DeskOf(m, toAlice), DeskOf(m, !toAlice).letters;
      && (i in receiver.read ==> i < |letters| && receiver.read[i] == letters[i].text)
      && (i < |letters| && letters[i].payload.Some? ==>
            var p := letters[i].payload.value;
            var s, mine, peer := receiver.session, BoxOf(u, toAlice), BoxOf(u, !toAlice);
            var got := DecryptV2(s, p, ContextOf(u, !toAlice), mine, peer, m.nextKey).result;
            if !FairLetter(receiver, DeskOf(m, !toAlice), i) then got.Err?
            else if Refused(s, p.dh, p.index, p.prevChainLength) then got == Err(RatchetFailed(TooManySkipped))
            else got == Ok(letters[i].text))
  {
    hide Decrypt, DecryptV2, Refused, IsSealed;
    MailRunOk(u, secret, bobKey, aliceKey, es);
    var m, w := MailRun(u, MailStart(secret, bobKey, aliceKey), es), Run(Start(secret, bobKey, aliceKey), Below(es));
    var letters := DeskOf(m, !toAlice).letters;
    if i < |letters| && letters[i].payload.Some? {
      Agreement(secret, bobKey, aliceKey, Below(es), toAlice, i);
      OpenLetter(u, DeskOf(m, toAlice).session, toAlice, letters[i], Side(w, !toAlice).outbox[i], m.nextKey);
    }
  }

  /** A box that does not open changes nothing. One that opens costs what the ratchet does,
      whatever the inner layer then turns out to be. */
  lemma BadBoxKeeps(o: Outgoing, text: Bytes, c: Context, mine: nat, peer: nat, r: Randomness,
                    s: Session, c': Context, a: nat, b: nat, newKey: nat)
    requires SealWith(o, text, c, mine, peer, r).Ok?
    ensures var p := SealWith(o, text, c, mine, peer, r).value;
      DecryptV2(s, p, c', a, b, newKey).session ==
        if {a, b} == {mine, peer} then Attempt(s, o, newKey).session else s
  {
    hide Decrypt, SealWith, OpenWith;
    BoxBinds(o, text, c, mine, peer, r, a, b);
    SealHeader(o, text, c, mine, peer, r);
  }

  lemma SealHeader(o: Outgoing, text: Bytes, c: Context, mine: nat, peer: nat, r: Randomness)
    requires SealWith(o, text, c, mine, peer, r).Ok?
    ensures var p := SealWith(o, text, c, mine, peer, r).value;
      p.dh == o.dh && p.index == o.index && p.prevChainLength == o.prevChainLength && SealingKey(p) == o.key
  {
  }
}
