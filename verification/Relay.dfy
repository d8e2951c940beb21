/**
  The relay's queue registry and store-and-forward buffer, memory backend, one handler at a
  time. The socket rate limiter is an input of the handlers that consult it.
 */
module Relay {
  import opened Wrappers
  import opened Lists

  const MAX_OFFLINE_QUEUE := 500
  const MAX_PAYLOAD := 100 * 1024

  datatype Sid = Sid(id: nat)

  /** A queue id as it arrives in an event; `Missing` is an absent or empty one. */
  datatype QueueId = Missing | Queue(id: nat)

  datatype Payload = Payload(body: nat, size: nat, ephemeral: bool)

  /** A payload and the sockets it was emitted to. */
  datatype Emission = Emission(payload: Payload, to: set<Sid>)

  /** What happened on a queue: an accepted push that was delivered at once, one that was
      buffered, or a new creator taking over the buffer. */
  datatype Happening = Live(payload: Payload) | Buffered(payload: Payload) | Flushed

  datatype State = State(
    connected: set<Sid>,                       // socket_connect_times
    owners: map<QueueId, set<Sid>>,
    creators: map<QueueId, Sid>,
    offline: map<QueueId, seq<Payload>>,
    rooms: map<QueueId, set<Sid>>,             // kept by Socket.IO
    emitted: map<QueueId, seq<Emission>>,      // for the proofs: all emissions so far,
    history: map<QueueId, seq<Happening>>)     // and all that happened

  datatype Event =
    | Connect(sid: Sid)
    | CreateQueue(sid: Sid, limited: bool, queue: QueueId)
    | RejoinQueue(sid: Sid, limited: bool, queue: QueueId)
    | RegisterPeer(sid: Sid, mine: QueueId, peer: QueueId)
    | PushQueue(sid: Sid, limited: bool, queue: QueueId, payload: Payload)
    | Disconnect(sid: Sid)

  // ---------------------------------------------------------------- the handlers

  function Items<T>(m: map<QueueId, seq<T>>, q: QueueId): seq<T> {
    if q in m then m[q] else []
  }

  function Members(m: map<QueueId, set<Sid>>, q: QueueId): set<Sid> {
    if q in m then m[q] else {}
  }

  function EmitTo(ps: seq<Payload>, to: set<Sid>): (es: seq<Emission>)
    ensures |es| == |ps| && forall i :: 0 <= i < |ps| ==> es[i] == Emission(ps[i], to)
  {
    seq(|ps|, i requires 0 <= i < |ps| => Emission(ps[i], to))
  }

  predicate IsRecipientOnline(s: State, q: QueueId) {
    q in s.creators && s.creators[q] in s.connected
  }

  /** The common part of create_queue and rejoin_queue. */
  function Claim(s: State, sid: Sid, q: QueueId): State {
    s.(owners := s.owners[q := Members(s.owners, q) + {sid}],
       creators := s.creators[q := sid],
       rooms := s.rooms[q := Members(s.rooms, q) + {sid}],
       emitted := s.emitted[q := Items(s.emitted, q) + EmitTo(Items(s.offline, q), {sid})],
       history := s.history[q := Items(s.history, q) + [Flushed]],
       offline := s.offline - {q})
  }

  function Register(s: State, sid: Sid, mine: QueueId, peer: QueueId): State {
    if mine.Missing? || peer.Missing? || sid !in Members(s.owners, mine) then s
    else s.(owners := s.owners[peer := Members(s.owners, peer) + {sid}])
  }

  /** Whether push_queue gets as far as looking for the recipient. */
  predicate Accepts(s: State, sid: Sid, limited: bool, q: QueueId, p: Payload) {
    !limited && q.Queue? && 0 < p.size <= MAX_PAYLOAD && sid in Members(s.owners, q)
  }

  function Push(s: State, sid: Sid, limited: bool, q: QueueId, p: Payload): State {
    if !Accepts(s, sid, limited, q, p) then s
    else if IsRecipientOnline(s, q) then
      s.(emitted := s.emitted[q := Items(s.emitted, q) + [Emission(p, Members(s.rooms, q))]],
         history := s.history[q := Items(s.history, q) + [Live(p)]])
    else if p.ephemeral then s
    else
      s.(offline := s.offline[q := Newest(Items(s.offline, q) + [p], MAX_OFFLINE_QUEUE)],
         history := s.history[q := Items(s.history, q) + [Buffered(p)]])
  }

  /** Removes a socket everywhere, and the entries it leaves empty. */
  function Purge(m: map<QueueId, set<Sid>>, sid: Sid): map<QueueId, set<Sid>> {
    map q | q in m && m[q] - {sid} != {} :: m[q] - {sid}
  }

  function PurgeCreator(m: map<QueueId, Sid>, sid: Sid): map<QueueId, Sid> {
    map q | q in m && m[q] != sid :: m[q]
  }

  function Handle(s: State, e: Event): State {
    match e
    case Connect(sid) => s.(connected := s.connected + {sid})
    case CreateQueue(sid, limited, q) => if limited then s else Claim(s, sid, q)
    case RejoinQueue(sid, limited, q) => if limited || q.Missing? then s else Claim(s, sid, q)
    case RegisterPeer(sid, mine, peer) => Register(s, sid, mine, peer)
    case PushQueue(sid, limited, q, p) => Push(s, sid, limited, q, p)
    case Disconnect(sid) =>
      s.(connected := s.connected - {sid}, owners := Purge(s.owners, sid),
         creators := PurgeCreator(s.creators, sid), rooms := Purge(s.rooms, sid))
  }

  class Server {
    var connected: set<Sid>
    var owners: map<QueueId, set<Sid>>
    var creators: map<QueueId, Sid>
    var offline: map<QueueId, seq<Payload>>
    var rooms: map<QueueId, set<Sid>>
    ghost var emitted: map<QueueId, seq<Emission>>
    ghost var history: map<QueueId, seq<Happening>>

    ghost function Snapshot(): State
      reads this
    {
      State(connected, owners, creators, offline, rooms, emitted, history)
    }

    constructor ()
      ensures Snapshot() == Empty()
    {
      connected, owners, creators, offline, rooms := {}, map[], map[], map[], map[];
      emitted, history := map[], map[];
    }

    method HandleConnect(sid: Sid)
      modifies this
      ensures Snapshot() == Handle(old(Snapshot()), Connect(sid))
    {
      connected := connected + {sid};
    }

    method AddQueueOwner(q: QueueId, sid: Sid)
      modifies this`owners
      ensures owners == old(owners)[q := Members(old(owners), q) + {sid}]
    {
      if q !in owners {
        owners := owners[q := {}];
      }
      owners := owners[q := owners[q] + {sid}];
    }

    method EnqueueOffline(q: QueueId, p: Payload)
      modifies this`offline
      ensures offline == old(offline)[q := Newest(Items(old(offline), q) + [p], MAX_OFFLINE_QUEUE)]
    {
      if q !in offline {
        offline := offline[q := []];
      }
      offline := offline[q := offline[q] + [p]];
      if |offline[q]| > MAX_OFFLINE_QUEUE {
        offline := offline[q := offline[q][|offline[q]| - MAX_OFFLINE_QUEUE..]];
      }
    }

    method FlushOfflineQueue(q: QueueId, sid: Sid)
      modifies this`offline, this`emitted, this`history
      ensures offline == old(offline) - {q}
      ensures emitted == old(emitted)[q := Items(old(emitted), q) + EmitTo(Items(old(offline), q), {sid})]
      ensures history == old(history)[q := Items(old(history), q) + [Flushed]]
    {
      var payloads := if q in offline then offline[q] else [];
      offline := offline - {q};
      history := history[q := Items(history, q) + [Flushed]];
      ghost var before := Items(emitted, q);
      emitted := emitted[q := before];
      var i := 0;
      while i < |payloads|
        invariant 0 <= i <= |payloads|
        invariant offline == old(offline) - {q} && history == old(history)[q := Items(old(history), q) + [Flushed]]
        invariant q in emitted && emitted == old(emitted)[q := emitted[q]]
        invariant emitted[q] == before + EmitTo(payloads, {sid})[..i]
      {
        emitted := emitted[q := emitted[q] + [Emission(payloads[i], {sid})]];
        i := i + 1;
      }
      assert EmitTo(payloads, {sid})[..i] == EmitTo(payloads, {sid});
    }

    method ClaimQueue(sid: Sid, q: QueueId)
      modifies this
      ensures Snapshot() == Claim(old(Snapshot()), sid, q)
    {
      AddQueueOwner(q, sid);
      creators := creators[q := sid];
      rooms := rooms[q := Members(rooms, q) + {sid}];
      FlushOfflineQueue(q, sid);
    }

    method HandleCreateQueue(sid: Sid, limited: bool, q: QueueId)
      modifies this
      ensures Snapshot() == Handle(old(Snapshot()), CreateQueue(sid, limited, q))
    {
      if !limited {
        ClaimQueue(sid, q);
      }
    }

    method HandleRejoinQueue(sid: Sid, limited: bool, q: QueueId)
      modifies this
      ensures Snapshot() == Handle(old(Snapshot()), RejoinQueue(sid, limited, q))
    {
      if limited || q.Missing? {
        return;
      }
      ClaimQueue(sid, q);
    }

    method HandleRegisterPeer(sid: Sid, mine: QueueId, peer: QueueId)
      modifies this
      ensures Snapshot() == Handle(old(Snapshot()), RegisterPeer(sid, mine, peer))
    {
      if mine.Missing? || peer.Missing? {
        return;
      }
      if sid in Members(owners, mine) {
        AddQueueOwner(peer, sid);
      }
    }

    method HandlePushQueue(sid: Sid, limited: bool, q: QueueId, p: Payload)
      modifies this
      ensures Snapshot() == Handle(old(Snapshot()), PushQueue(sid, limited, q, p))
    {
      if limited || q.Missing? || p.size == 0 || p.size > MAX_PAYLOAD || sid !in Members(owners, q) {
        return;
      }
      if !(q in creators && creators[q] in connected) {
        if p.ephemeral {
          return;
        }
        EnqueueOffline(q, p);
        history := history[q := Items(history, q) + [Buffered(p)]];
        return;
      }
      emitted := emitted[q := Items(emitted, q) + [Emission(p, Members(rooms, q))]];
      history := history[q := Items(history, q) + [Live(p)]];
    }

    /** The cleanup loop over the owner sets, and the deletion of those it emptied. */
    method CleanOwners(sid: Sid)
      modifies this`owners
      ensures owners == Purge(old(owners), sid)
    {
      hide Purge;
      var todo, empty := owners.Keys, {};
      while todo != {}
        invariant todo <= owners.Keys == old(owners).Keys
        invariant forall q :: q in owners ==> owners[q] == old(owners)[q] - (if q in todo then {} else {sid})
        invariant forall q :: q in empty <==> q in owners && q !in todo && owners[q] == {}
        decreases todo
      {
        var q :| q in todo;
        CleanOne(q, sid);
        if owners[q] == {} {
          empty := empty + {q};
        }
        todo := todo - {q};
      }
      CleanedOwners(old(owners), owners, empty, sid);
      owners := owners - empty;
    }

    method CleanOne(q: QueueId, sid: Sid)
      requires q in owners
      modifies this`owners
      ensures owners.Keys == old(owners).Keys && owners[q] == old(owners)[q] - {sid}
      ensures forall q' :: q' in owners && q' != q ==> owners[q'] == old(owners)[q']
    {
      owners := owners[q := owners[q] - {sid}];
    }

    method HandleDisconnect(sid: Sid)
      modifies this
      ensures Snapshot() == Handle(old(Snapshot()), Disconnect(sid))
    {
      connected := connected - {sid};
      CleanOwners(sid);
      var expired := set q | q in creators && creators[q] == sid;
      creators := creators - expired;
      rooms := Purge(rooms, sid);
    }
  }

  lemma CleanedOwners(before: map<QueueId, set<Sid>>, after: map<QueueId, set<Sid>>, empty: set<QueueId>, sid: Sid)
    requires after.Keys == before.Keys
    requires forall q :: q in after ==> after[q] == before[q] - {sid}
    requires forall q :: q in empty <==> q in after && after[q] == {}
    ensures after - empty == Purge(before, sid)
  {
  }

  // ---------------------------------------------------------------- runs

  function Empty(): State {
    State({}, map[], map[], map[], map[], map[], map[])
  }

  /** Socket.IO delivers events of connected sockets only. */
  predicate Enabled(s: State, e: Event) {
    e.Connect? || e.sid in s.connected
  }

  predicate ValidRun(es: seq<Event>)
    decreases |es|, 0
  {
    es == [] || (ValidRun(es[..|es| - 1]) && Enabled(Run(es[..|es| - 1]), es[|es| - 1]))
  }

  function Run(es: seq<Event>): State
    requires ValidRun(es)
    decreases |es|, 1
  {
    if es == [] then Empty() else Handle(Run(es[..|es| - 1]), es[|es| - 1])
  }

  // ---------------------------------------------------------------- what holds of every run

  /** The registry's entries for one queue. */
  predicate RegistryOk(s: State, q: QueueId) {
    && (q in s.owners ==> s.owners[q] != {} && s.owners[q] <= s.connected)
    && (q in s.creators ==> s.creators[q] in Members(s.owners, q) && s.creators[q] in Members(s.rooms, q))
    && (q in s.offline ==> s.offline[q] != [] && q !in s.creators)
  }

  /** How many of the last happenings are buffered pushes: the current offline period. */
  function OpenPeriod(h: seq<Happening>): (n: nat)
    ensures n <= |h|
    ensures forall i :: |h| - n <= i < |h| ==> h[i].Buffered?
    ensures n < |h| ==> !h[|h| - n - 1].Buffered?
  {
    if h == [] || !h[|h| - 1].Buffered? then 0 else 1 + OpenPeriod(h[..|h| - 1])
  }

  function Payloads(h: seq<Happening>): (ps: seq<Payload>)
    requires forall i :: 0 <= i < |h| ==> h[i].Buffered?
    ensures |ps| == |h| && forall i :: 0 <= i < |h| ==> ps[i] == h[i].payload
  {
    seq(|h|, i requires 0 <= i < |h| => h[i].payload)
  }

  /** What a history must have delivered or still hold: every live push, and of each offline
      period the newest 500. */
  function Due(h: seq<Happening>): seq<Payload>
    decreases |h|
  {
    var n := OpenPeriod(h);
    if n > 0 then Due(h[..|h| - n]) + Newest(Payloads(h[|h| - n..]), MAX_OFFLINE_QUEUE)
    else if h == [] then []
    else Due(h[..|h| - 1]) + if h[|h| - 1].Live? then [h[|h| - 1].payload] else []
  }

  function PayloadsOf(es: seq<Emission>): (ps: seq<Payload>)
    ensures |ps| == |es| && forall i :: 0 <= i < |es| ==> ps[i] == es[i].payload
  {
    seq(|es|, i requires 0 <= i < |es| => es[i].payload)
  }

  /** A buffered push is followed by another one or by a new creator, never by a live push. */
  ghost predicate Phased(h: seq<Happening>) {
    forall i :: 0 < i < |h| && h[i].Live? ==> !h[i - 1].Buffered?
  }

  /** The buffered payloads of the current offline period. */
  function Open(h: seq<Happening>): seq<Payload> {
    Payloads(h[|h| - OpenPeriod(h)..])
  }

  /** The clauses of Conserved for a queue's three lists. */
  ghost predicate Balanced(h: seq<Happening>, out: seq<Emission>, buffer: seq<Payload>) {
    Phased(h) && PayloadsOf(out) + buffer == Due(h) && buffer == Newest(Open(h), MAX_OFFLINE_QUEUE)
  }

  ghost predicate Conserved(s: State, q: QueueId) {
    Balanced(Items(s.history, q), Items(s.emitted, q), Items(s.offline, q))
  }

  lemma ClaimRegistry(s: State, sid: Sid, claimed: QueueId, q: QueueId)
    requires RegistryOk(s, q) && sid in s.connected
    ensures RegistryOk(Claim(s, sid, claimed), q)
  {
    hide EmitTo;
  }

  lemma PushRegistry(s: State, sid: Sid, limited: bool, pushed: QueueId, p: Payload, q: QueueId)
    requires RegistryOk(s, q) && RegistryOk(s, pushed)
    ensures RegistryOk(Push(s, sid, limited, pushed, p), q)
  {
  }

  lemma DisconnectRegistry(s: State, sid: Sid, q: QueueId)
    requires RegistryOk(s, q)
    ensures RegistryOk(Handle(s, Disconnect(sid)), q)
  {
  }

  lemma RegistryStep(s: State, e: Event, q: QueueId)
    requires RegistryOk(s, q) && Enabled(s, e) && (e.PushQueue? ==> RegistryOk(s, e.queue))
    ensures RegistryOk(Handle(s, e), q)
  {
    hide Claim, Push, Purge, PurgeCreator;
    match e
    case CreateQueue(sid, limited, claimed) => ClaimRegistry(s, sid, claimed, q);
    case RejoinQueue(sid, limited, claimed) => ClaimRegistry(s, sid, claimed, q);
    case PushQueue(sid, limited, pushed, p) => PushRegistry(s, sid, limited, pushed, p, q);
    case Disconnect(sid) => DisconnectRegistry(s, sid, q);
    case _ =>
  }

  lemma OpenPeriodAppend(h: seq<Happening>, x: Happening)
    ensures OpenPeriod(h + [x]) == if x.Buffered? then OpenPeriod(h) + 1 else 0
  {
    assert (h + [x])[..|h|] == h;
  }

  /** What was due before it. */
  function Closed(h: seq<Happening>): seq<Payload> {
    Due(h[..|h| - OpenPeriod(h)])
  }

  lemma DueSplit(h: seq<Happening>)
    ensures Due(h) == Closed(h) + Newest(Open(h), MAX_OFFLINE_QUEUE)
  {
    if OpenPeriod(h) == 0 {
      assert h[..|h|] == h;
      assert Open(h) == [];
    }
  }

  lemma AppendBuffered(h: seq<Happening>, p: Payload)
    ensures Open(h + [Buffered(p)]) == Open(h) + [p] && Closed(h + [Buffered(p)]) == Closed(h)
  {
    hide Due, Payloads, OpenPeriod;
    var h', n := h + [Buffered(p)], OpenPeriod(h);
    OpenPeriodAppend(h, Buffered(p));
    assert h'[..|h| - n] == h[..|h| - n];
    assert h'[|h| - n..] == h[|h| - n..] + [Buffered(p)];
  }

  lemma AppendOther(h: seq<Happening>, x: Happening)
    requires !x.Buffered?
    ensures Open(h + [x]) == [] && Due(h + [x]) == Due(h) + if x.Live? then [x.payload] else []
  {
    OpenPeriodAppend(h, x);
    assert (h + [x])[..|h|] == h;
  }

  lemma LiveBalanced(h: seq<Happening>, out: seq<Emission>, p: Payload, to: set<Sid>)
    requires Balanced(h, out, [])
    ensures Balanced(h + [Live(p)], out + [Emission(p, to)], [])
  {
    hide Due, Open, PayloadsOf;
    AppendOther(h, Live(p));
    if h != [] { OpenEmpty(h); }
    AppendPayload(out, p, to);
  }

  lemma BufferedBalanced(h: seq<Happening>, out: seq<Emission>, buffer: seq<Payload>, p: Payload)
    requires Balanced(h, out, buffer)
    ensures Balanced(h + [Buffered(p)], out, Newest(buffer + [p], MAX_OFFLINE_QUEUE))
  {
    hide Due, Open, PayloadsOf, Newest;
    AppendBuffered(h, p);
    DueSplit(h);
    DueSplit(h + [Buffered(p)]);
    NewestSplit(Open(h), [p], MAX_OFFLINE_QUEUE);
    SamePrefix(PayloadsOf(out), Closed(h), buffer);
  }

  lemma PushConserves(s: State, sid: Sid, limited: bool, q: QueueId, p: Payload)
    requires RegistryOk(s, q) && Conserved(s, q)
    ensures Conserved(Push(s, sid, limited, q, p), q)
  {
    hide Balanced;
    if Accepts(s, sid, limited, q, p) {
      if IsRecipientOnline(s, q) {
        LiveBalanced(Items(s.history, q), Items(s.emitted, q), p, Members(s.rooms, q));
      } else if !p.ephemeral {
        BufferedBalanced(Items(s.history, q), Items(s.emitted, q), Items(s.offline, q), p);
      }
    }
  }

  lemma OpenEmpty(h: seq<Happening>)
    requires Newest(Open(h), MAX_OFFLINE_QUEUE) == [] && h != []
    ensures !h[|h| - 1].Buffered?
  {
  }

  lemma SamePrefix(a: seq<Payload>, b: seq<Payload>, c: seq<Payload>)
    requires a + c == b + c
    ensures a == b
  {
    assert (a + c)[..|a|] == a && (b + c)[..|b|] == b;
  }

  lemma AppendPayload(es: seq<Emission>, p: Payload, to: set<Sid>)
    ensures PayloadsOf(es + [Emission(p, to)]) == PayloadsOf(es) + [p]
  {
  }

  lemma AppendAll(es: seq<Emission>, ps: seq<Payload>, to: set<Sid>)
    ensures PayloadsOf(es + EmitTo(ps, to)) == PayloadsOf(es) + ps
  {
  }

  lemma ClaimConserves(s: State, sid: Sid, q: QueueId)
    requires Conserved(s, q)
    ensures Conserved(Claim(s, sid, q), q)
  {
    hide Due, Open, PayloadsOf, EmitTo;
    AppendOther(Items(s.history, q), Flushed);
    AppendAll(Items(s.emitted, q), Items(s.offline, q), {sid});
  }

  lemma OtherQueue(s: State, e: Event, q: QueueId)
    requires Conserved(s, q)
    requires e.CreateQueue? || e.RejoinQueue? || e.PushQueue? ==> e.queue != q
    ensures Conserved(Handle(s, e), q)
  {
    hide Balanced, EmitTo, Newest;
  }

  /**
    In every reachable state: owner sets are non-empty and connected, every creator is an owner
    of its queue and in its room, and a non-empty buffer means no creator. On every queue, what
    was emitted followed by what is buffered is exactly what is due, in order.
   */
  lemma {:induction false} RelayInvariant(es: seq<Event>, q: QueueId)
    requires ValidRun(es)
    ensures RegistryOk(Run(es), q) && Conserved(Run(es), q)
    decreases |es|
  {
    hide Conserved;
    if es == [] {
      EmptyConserved(q);
    } else {
      var s, e := Run(es[..|es| - 1]), es[|es| - 1];
      RelayInvariant(es[..|es| - 1], q);
      if e.PushQueue? { RelayInvariant(es[..|es| - 1], e.queue); }
      RegistryStep(s, e, q);
      if (e.CreateQueue? || e.RejoinQueue?) && e.queue == q {
        ClaimConserves(s, e.sid, q);
      } else if e.PushQueue? && e.queue == q {
        PushConserves(s, e.sid, e.limited, q, e.payload);
      } else {
        OtherQueue(s, e, q);
      }
    }
  }

  lemma EmptyConserved(q: QueueId)
    ensures Conserved(Empty(), q)
  {
    assert Items(Empty().history, q) == [];
  }

  /** The recipient of a queue is online exactly when the queue has a creator entry, and then
      every live push reaches the creator. */
  lemma OnlineMeansCreator(es: seq<Event>, q: QueueId)
    requires ValidRun(es)
    ensures IsRecipientOnline(Run(es), q) <==> q in Run(es).creators
    ensures q in Run(es).creators ==> Run(es).creators[q] in Members(Run(es).rooms, q)
  {
    RelayInvariant(es, q);
  }

  // ---------------------------------------------------------------- the state, read off the events

  function Front(es: seq<Event>): seq<Event>
    requires es != []
  {
    es[..|es| - 1]
  }

  function Last(es: seq<Event>): Event
    requires es != []
  {
    es[|es| - 1]
  }

  /** The socket has connected and has not disconnected since. */
  predicate IsConnected(es: seq<Event>, sid: Sid) {
    es != [] && Last(es) != Disconnect(sid) && (Last(es) == Connect(sid) || IsConnected(Front(es), sid))
  }

  /** An event by which a socket creates or reclaims queue `q`. */
  predicate Claims(e: Event, q: QueueId) {
    || (e.CreateQueue? && !e.limited && e.queue == q)
    || (e.RejoinQueue? && !e.limited && e.queue == q && q.Queue?)
  }

  /** Since it connected, the socket has claimed `q`, or has been registered for it by its
      authority over another queue. */
  predicate Authorised(es: seq<Event>, sid: Sid, q: QueueId) {
    es != [] && Last(es) != Disconnect(sid) &&
    (|| (Last(es).sid == sid && Claims(Last(es), q))
     || (Last(es).sid == sid && Last(es).RegisterPeer? && Last(es).peer == q && q.Queue? &&
         Last(es).mine.Queue? && Authorised(Front(es), sid, Last(es).mine))
     || Authorised(Front(es), sid, q))
  }

  /** The last socket to claim `q`, unless it has disconnected. */
  function Creator(es: seq<Event>, q: QueueId): Option<Sid> {
    if es == [] then None
    else if Claims(Last(es), q) then Some(Last(es).sid)
    else if Last(es).Disconnect? && Creator(Front(es), q) == Some(Last(es).sid) then None
    else Creator(Front(es), q)
  }

  predicate InRoom(es: seq<Event>, sid: Sid, q: QueueId) {
    es != [] && Last(es) != Disconnect(sid) &&
    ((Last(es).sid == sid && Claims(Last(es), q)) || InRoom(Front(es), sid, q))
  }

  /** A push the relay takes: within the rate, to a queue it names, of a proper size, by a
      socket with authority over the queue. */
  predicate MayPush(es: seq<Event>, e: Event) {
    e.PushQueue? && !e.limited && e.queue.Queue? && 0 < e.payload.size <= MAX_PAYLOAD && Authorised(es, e.sid, e.queue)
  }

  /** What happened on `q`: claims, pushes while it had a creator, lasting pushes while it had none. */
  function HistoryOf(es: seq<Event>, q: QueueId): seq<Happening> {
    if es == [] then []
    else
      var before, e := HistoryOf(Front(es), q), Last(es);
      if Claims(e, q) then before + [Flushed]
      else if !(MayPush(Front(es), e) && e.queue == q) then before
      else if Creator(Front(es), q).Some? then before + [Live(e.payload)]
      else if e.payload.ephemeral then before
      else before + [Buffered(e.payload)]
  }

  function CreatorIn(s: State, q: QueueId): Option<Sid> {
    if q in s.creators then Some(s.creators[q]) else None
  }

  /** A socket is registered for `q` by its authority over another queue. */
  predicate Registers(s: State, e: Event, sid: Sid, q: QueueId) {
    e.RegisterPeer? && e.sid == sid && e.peer == q && q.Queue? && e.mine.Queue? && sid in Members(s.owners, e.mine)
  }

  /** What one event does to the owners, the room and the creator of a queue. */
  lemma OwnersStep(s: State, e: Event, sid: Sid, q: QueueId)
    ensures sid in Members(Handle(s, e).owners, q) <==>
      e != Disconnect(sid) &&
      ((e.sid == sid && Claims(e, q)) || Registers(s, e, sid, q) || sid in Members(s.owners, q))
  {
    hide EmitTo, Newest, Members, Claim, Register, Purge;
    match e
    case CreateQueue(who, _, claimed) => ClaimOwners(s, who, claimed, sid, q);
    case RejoinQueue(who, _, claimed) => ClaimOwners(s, who, claimed, sid, q);
    case RegisterPeer(_, _, _) => RegisterOwners(s, e, sid, q);
    case Disconnect(who) => PurgeOwners(s.owners, who, sid, q);
    case _ =>
  }

  lemma ClaimOwners(s: State, who: Sid, claimed: QueueId, sid: Sid, q: QueueId)
    ensures sid in Members(Claim(s, who, claimed).owners, q) <==>
      (sid == who && q == claimed) || sid in Members(s.owners, q)
  {
    hide EmitTo;
  }

  lemma RegisterOwners(s: State, e: Event, sid: Sid, q: QueueId)
    requires e.RegisterPeer?
    ensures sid in Members(Register(s, e.sid, e.mine, e.peer).owners, q) <==>
      Registers(s, e, sid, q) || sid in Members(s.owners, q)
  {
    hide Members;
    AddMember(s.owners, e.peer, e.sid, q);
  }

  lemma AddMember(m: map<QueueId, set<Sid>>, at: QueueId, sid: Sid, q: QueueId)
    ensures Members(m[at := Members(m, at) + {sid}], q) == Members(m, q) + if q == at then {sid} else {}
  {
  }

  lemma PurgeOwners(m: map<QueueId, set<Sid>>, who: Sid, sid: Sid, q: QueueId)
    ensures sid in Members(Purge(m, who), q) <==> sid != who && sid in Members(m, q)
  {
  }

  lemma RoomsStep(s: State, e: Event, sid: Sid, q: QueueId)
    ensures sid in Members(Handle(s, e).rooms, q) <==>
      e != Disconnect(sid) && ((e.sid == sid && Claims(e, q)) || sid in Members(s.rooms, q))
  {
    hide EmitTo, Newest;
  }

  lemma CreatorsStep(s: State, e: Event, q: QueueId)
    ensures CreatorIn(Handle(s, e), q) ==
      if Claims(e, q) then Some(e.sid)
      else if e.Disconnect? && CreatorIn(s, q) == Some(e.sid) then None
      else CreatorIn(s, q)
  {
    hide EmitTo, Newest, Purge;
  }

  /** The registry is exactly what the events so far say. */
  lemma {:induction false} OwnersExactly(es: seq<Event>, sid: Sid, q: QueueId)
    requires ValidRun(es)
    ensures sid in Members(Run(es).owners, q) <==> Authorised(es, sid, q)
    decreases |es|
  {
    hide Handle, Members, Claims;
    if es == [] {
      EmptyRegistry(sid, q);
    } else {
      OwnersStep(Run(Front(es)), Last(es), sid, q);
      OwnersExactly(Front(es), sid, q);
      if Last(es).RegisterPeer? { OwnersExactly(Front(es), sid, Last(es).mine); }
    }
  }

  lemma EmptyRegistry(sid: Sid, q: QueueId)
    ensures sid !in Members(Empty().owners, q) && sid !in Members(Empty().rooms, q) && CreatorIn(Empty(), q) == None
  {
  }

  lemma {:induction false} RoomsExactly(es: seq<Event>, sid: Sid, q: QueueId)
    requires ValidRun(es)
    ensures sid in Members(Run(es).rooms, q) <==> InRoom(es, sid, q)
    decreases |es|
  {
    hide Handle, Members, Claims;
    if es == [] {
      EmptyRegistry(sid, q);
    } else {
      RoomsStep(Run(Front(es)), Last(es), sid, q);
      RoomsExactly(Front(es), sid, q);
    }
  }

  lemma {:induction false} ConnectedExactly(es: seq<Event>, sid: Sid)
    requires ValidRun(es)
    ensures sid in Run(es).connected <==> IsConnected(es, sid)
    decreases |es|
  {
    hide EmitTo, Newest;
    if es != [] { ConnectedExactly(Front(es), sid); }
  }

  lemma {:induction false} CreatorsExactly(es: seq<Event>, q: QueueId)
    requires ValidRun(es)
    ensures CreatorIn(Run(es), q) == Creator(es, q)
    decreases |es|
  {
    hide Handle, Claims;
    if es != [] {
      CreatorsStep(Run(Front(es)), Last(es), q);
      CreatorsExactly(Front(es), q);
    }
  }

  /** What one event adds to the history of a queue. */
  function Adds(s: State, e: Event, q: QueueId): seq<Happening> {
    if Claims(e, q) then [Flushed]
    else if !(e.PushQueue? && e.queue == q && Accepts(s, e.sid, e.limited, q, e.payload)) then []
    else if IsRecipientOnline(s, q) then [Live(e.payload)]
    else if e.payload.ephemeral then []
    else [Buffered(e.payload)]
  }

  lemma HistoryStep(s: State, e: Event, q: QueueId)
    ensures Items(Handle(s, e).history, q) == Items(s.history, q) + Adds(s, e, q)
  {
    hide Claim, Push, Items, Accepts, IsRecipientOnline;
    match e
    case CreateQueue(sid, _, claimed) => ClaimHistory(s, sid, claimed, q);
    case RejoinQueue(sid, _, claimed) => ClaimHistory(s, sid, claimed, q);
    case PushQueue(_, _, _, _) => PushHistory(s, e, q);
    case _ => assert Items(Handle(s, e).history, q) == Items(s.history, q) + [];
  }

  lemma AddHistory(m: map<QueueId, seq<Happening>>, at: QueueId, x: Happening, q: QueueId)
    ensures Items(m[at := Items(m, at) + [x]], q) == Items(m, q) + if q == at then [x] else []
  {
  }

  lemma ClaimHistory(s: State, sid: Sid, claimed: QueueId, q: QueueId)
    ensures Items(Claim(s, sid, claimed).history, q) == Items(s.history, q) + if q == claimed then [Flushed] else []
  {
    hide EmitTo, Items, Members;
    AddHistory(s.history, claimed, Flushed, q);
  }

  lemma PushHistory(s: State, e: Event, q: QueueId)
    requires e.PushQueue?
    ensures Items(Push(s, e.sid, e.limited, e.queue, e.payload).history, q) == Items(s.history, q) + Adds(s, e, q)
  {
    hide Newest, Accepts, IsRecipientOnline, Items, Members;
    assert Items(s.history, q) == Items(s.history, q) + [];
    AddHistory(s.history, e.queue, Live(e.payload), q);
    AddHistory(s.history, e.queue, Buffered(e.payload), q);
  }

  lemma NoHistory(q: QueueId)
    ensures Items(Empty().history, q) == []
  {
  }

  lemma {:induction false} HistoryExactly(es: seq<Event>, q: QueueId)
    requires ValidRun(es)
    ensures Items(Run(es).history, q) == HistoryOf(es, q)
    decreases |es|
  {
    hide Handle, Authorised, Creator, Members, IsRecipientOnline, Claims, Items;
    if es == [] {
      NoHistory(q);
    } else {
      HistoryExactly(Front(es), q);
      HistoryStep(Run(Front(es)), Last(es), q);
      if Last(es).PushQueue? && Last(es).queue == q {
        OwnersExactly(Front(es), Last(es).sid, q);
        OnlineMeansCreator(Front(es), q);
        CreatorsExactly(Front(es), q);
      }
    }
  }

  /**
    Store-and-forward, read off the events alone. What was emitted on a queue, followed by what
    is buffered for it, is exactly what is due: every push taken while the queue had a creator
    and, of each period without one, the newest 500 of the lasting pushes taken, all in order.
    The buffer is those of the present period.
   */
  lemma Conservation(es: seq<Event>, q: QueueId)
    requires ValidRun(es)
    ensures PayloadsOf(Items(Run(es).emitted, q)) + Items(Run(es).offline, q) == Due(HistoryOf(es, q))
    ensures Items(Run(es).offline, q) == Newest(Open(HistoryOf(es, q)), MAX_OFFLINE_QUEUE)
  {
    RelayInvariant(es, q);
    HistoryExactly(es, q);
  }

  /** A recipient is online exactly when the last socket to claim the queue is still connected. */
  lemma OnlineExactly(es: seq<Event>, q: QueueId)
    requires ValidRun(es)
    ensures IsRecipientOnline(Run(es), q) <==> Creator(es, q).Some?
    ensures Creator(es, q).Some? ==>
      var sid := Creator(es, q).value; IsConnected(es, sid) && Authorised(es, sid, q) && InRoom(es, sid, q)
  {
    OnlineMeansCreator(es, q);
    CreatorsExactly(es, q);
    if Creator(es, q).Some? {
      var sid := Creator(es, q).value;
      OwnersExactly(es, sid, q);
      RoomsExactly(es, sid, q);
      ConnectedExactly(es, sid);
      RelayInvariant(es, q);
    }
  }

  /** The parts of the state that belong to one queue are the same. */
  predicate SameQueue(s: State, s': State, q: QueueId) {
    && Members(s.owners, q) == Members(s'.owners, q) && Members(s.rooms, q) == Members(s'.rooms, q)
    && (q in s.creators <==> q in s'.creators) && (q in s.creators ==> s.creators[q] == s'.creators[q])
    && Items(s.offline, q) == Items(s'.offline, q) && Items(s.emitted, q) == Items(s'.emitted, q)
  }

  /**
    What creating or rejoining a queue achieves, at the end of any run: the socket is creator,
    owner and member of the room, and the recipient is online. The buffer is gone; its payloads
    were emitted in order, each to that one socket. The other owners and members stay, and
    other queues do not notice.
   */
  lemma ClaimOutcome(es: seq<Event>, q: QueueId, other: QueueId)
    requires ValidRun(es) && es != [] && Claims(Last(es), q)
    ensures
      var s, s', sid := Run(Front(es)), Run(es), Last(es).sid;
      var waiting, before, after := Items(s.offline, q), Items(s.emitted, q), Items(s'.emitted, q);
      && q in s'.creators && s'.creators[q] == sid && IsRecipientOnline(s', q)
      && Members(s'.owners, q) == Members(s.owners, q) + {sid} && Members(s'.rooms, q) == Members(s.rooms, q) + {sid}
      && q !in s'.offline
      && before <= after && |after| == |before| + |waiting|
      && (forall i :: 0 <= i < |waiting| ==> after[|before| + i] == Emission(waiting[i], {sid}))
      && (other != q ==> SameQueue(s, s', other))
  {
    hide Claim;
    OnlineMeansCreator(es, q);
    assert Run(es) == Claim(Run(Front(es)), Last(es).sid, q);
    ClaimEmits(Run(Front(es)), Last(es).sid, q);
    ClaimRegisters(Run(Front(es)), Last(es).sid, q, other);
  }

  lemma ClaimEmits(s: State, sid: Sid, q: QueueId)
    ensures
      var waiting, before, after := Items(s.offline, q), Items(s.emitted, q), Items(Claim(s, sid, q).emitted, q);
      && before <= after && |after| == |before| + |waiting| && q !in Claim(s, sid, q).offline
      && (forall i :: 0 <= i < |waiting| ==> after[|before| + i] == Emission(waiting[i], {sid}))
  {
    hide EmitTo;
  }

  lemma ClaimRegisters(s: State, sid: Sid, q: QueueId, other: QueueId)
    ensures var s' := Claim(s, sid, q);
      && q in s'.creators && s'.creators[q] == sid
      && Members(s'.owners, q) == Members(s.owners, q) + {sid} && Members(s'.rooms, q) == Members(s.rooms, q) + {sid}
      && (other != q ==> SameQueue(s, s', other))
  {
    if other != q { ClaimKeepsOthers(s, sid, q, other); }
    hide EmitTo, SameQueue;
  }

  lemma ClaimKeepsOthers(s: State, sid: Sid, q: QueueId, other: QueueId)
    requires other != q
    ensures SameQueue(s, Claim(s, sid, q), other)
  {
    hide EmitTo;
  }

  /** What a push achieves, at the end of any run. One the relay takes goes out once, last, to
      sockets with the creator among them, if the queue has a creator; otherwise it becomes the
      newest in the buffer, unless it is ephemeral. Any other push changes nothing at all. */
  lemma PushOutcome(es: seq<Event>, other: QueueId)
    requires ValidRun(es) && es != [] && Last(es).PushQueue?
    ensures
      var s, s', e := Run(Front(es)), Run(es), Last(es);
      var q, creator := e.queue, Creator(Front(es), e.queue);
      var before, after, buffer := Items(s.emitted, q), Items(s'.emitted, q), Items(s'.offline, q);
      && (other != q ==> SameQueue(s, s', other))
      && (if !MayPush(Front(es), e) || (creator.None? && e.payload.ephemeral) then s' == s
          else if creator.Some? then
            && |after| == |before| + 1 && before <= after
            && after[|before|].payload == e.payload && creator.value in after[|before|].to
            && (forall sid :: sid in after[|before|].to <==> InRoom(Front(es), sid, q))
          else
            buffer != [] && buffer[|buffer| - 1] == e.payload && after == before)
  {
    hide Authorised, Creator, InRoom, HistoryOf, EmitTo;
    var s, e := Run(Front(es)), Last(es);
    assert Run(es) == Push(s, e.sid, e.limited, e.queue, e.payload);
    OwnersExactly(Front(es), e.sid, e.queue);
    OnlineExactly(Front(es), e.queue);
    CreatorsExactly(Front(es), e.queue);
    forall sid ensures sid in Members(s.rooms, e.queue) <==> InRoom(Front(es), sid, e.queue) {
      RoomsExactly(Front(es), sid, e.queue);
    }
  }
}
