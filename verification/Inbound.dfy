/**
  Inbound messages: direct arrivals, sealed arrivals, and the later resolution of a sealed
  sender. The rows are listed in the order in which they were accepted or resolved; the
  database itself has no order.
 */
module Inbound {
  import opened Wrappers
  import opened Lists

  datatype Onion = Onion(name: nat)

  datatype Sender = Sealed | Peer(onion: Onion)

  datatype Row = Row(id: nat, sender: Sender, recipient: Onion, number: int)

  /** `me` is the local node; `accepted` the contacts with status "accepted"; `nextId` a fresh
      message id. */
  datatype State = State(me: Onion, rows: seq<Row>, accepted: set<Onion>, nextId: nat)

  datatype Status = Delivered | Resolved | NotFound | Forbidden | NotMonotonic

  datatype Reply = Reply(state: State, status: Status)

  datatype Event =
    | Direct(sender: Onion, number: nat, ephemeral: bool)
    | SealedArrival(number: nat, ephemeral: bool)
    | Resolve(id: nat, claimed: Onion)
    | SendOut(recipient: Onion, seqNumber: int)      // the node's own outgoing rows
    | Accept(contact: Onion)
    | Revoke(contact: Onion)
    | Purge(id: nat)                              // a row disappears

  // ---------------------------------------------------------------- the queries

  predicate Counts(r: Row, p: Onion, me: Onion) {
    r.sender == Peer(p) && r.recipient == me
  }

  /** SELECT max(sequence_number) over the rows of one peer, one row excepted. */
  function LastSeq(rows: seq<Row>, p: Onion, me: Onion, except: Option<nat>): Option<int> {
    if rows == [] then None
    else
      var r := rows[|rows| - 1];
      var before := LastSeq(rows[..|rows| - 1], p, me, except);
      if Counts(r, p, me) && except != Some(r.id) && (before.None? || before.value < r.number)
      then Some(r.number) else before
  }

  predicate Above(number: int, last: Option<int>) {
    last.None? || last.value < number
  }

  function Position(rows: seq<Row>, id: nat): (i: nat)
    ensures i <= |rows|
    ensures i < |rows| ==> rows[i].id == id
    ensures forall j :: 0 <= j < i ==> rows[j].id != id
  {
    if rows == [] || rows[0].id == id then 0 else 1 + Position(rows[1..], id)
  }

  function Delete(rows: seq<Row>, id: nat): seq<Row> {
    var i := Position(rows, id);
    if i < |rows| then Remove(rows, i) else rows
  }

  // ---------------------------------------------------------------- the handlers

  function Insert(s: State, sender: Sender, recipient: Onion, number: int): State {
    s.(rows := s.rows + [Row(s.nextId, sender, recipient, number)], nextId := s.nextId + 1)
  }

  function HandleDirect(s: State, p: Onion, number: nat, ephemeral: bool): Reply {
    if p !in s.accepted then Reply(s, Forbidden)
    else if !Above(number, LastSeq(s.rows, p, s.me, None)) then Reply(s, NotMonotonic)
    else Reply(if ephemeral then s else Insert(s, Peer(p), s.me, number), Delivered)
  }

  function HandleResolve(s: State, id: nat, p: Onion): Reply {
    var i := Position(s.rows, id);
    if i == |s.rows| then Reply(s, NotFound)
    else if p !in s.accepted then Reply(s.(rows := Remove(s.rows, i)), Forbidden)
    else if !Above(s.rows[i].number, LastSeq(s.rows, p, s.me, Some(id))) then
      Reply(s.(rows := Remove(s.rows, i)), NotMonotonic)
    else
      Reply(s.(rows := Remove(s.rows, i) + [s.rows[i].(sender := Peer(p))]), Resolved)
  }

  function Handle(s: State, e: Event): State {
    match e
    case Direct(p, number, ephemeral) => HandleDirect(s, p, number, ephemeral).state
    case SealedArrival(number, ephemeral) => if ephemeral then s else Insert(s, Sealed, s.me, number)
    case Resolve(id, claimed) => HandleResolve(s, id, claimed).state
    case SendOut(recipient, number) => Insert(s, Peer(s.me), recipient, number)
    case Accept(contact) => s.(accepted := s.accepted + {contact})
    case Revoke(contact) => s.(accepted := s.accepted - {contact})
    case Purge(id) => s.(rows := Delete(s.rows, id))
  }

  function Run(me: Onion, es: seq<Event>): State {
    if es == [] then State(me, [], {}, 0) else Handle(Run(me, es[..|es| - 1]), es[|es| - 1])
  }

  class Node {
    const me: Onion
    var rows: seq<Row>
    var accepted: set<Onion>
    var nextId: nat

    function Snapshot(): State
      reads this
    {
      State(me, rows, accepted, nextId)
    }

    method P2PMessage(sender: Sender, number: nat, ephemeral: bool) returns (status: Status)
      modifies this
      ensures Snapshot() ==
        Handle(old(Snapshot()),
               if sender.Sealed? then SealedArrival(number, ephemeral) else Direct(sender.onion, number, ephemeral))
      ensures status ==
        if sender.Sealed? then Delivered else HandleDirect(old(Snapshot()), sender.onion, number, ephemeral).status
    {
      if sender.Peer? {
        if sender.onion !in accepted {
          return Forbidden;
        }
        var last := LastSeq(rows, sender.onion, me, None);
        if last.Some? && number <= last.value {
          return NotMonotonic;
        }
      }
      if !ephemeral {
        rows := rows + [Row(nextId, sender, me, number)];
        nextId := nextId + 1;
      }
      return Delivered;
    }

    method ResolveSender(id: nat, claimed: Onion) returns (status: Status)
      modifies this
      ensures Reply(Snapshot(), status) == HandleResolve(old(Snapshot()), id, claimed)
    {
      var i := Position(rows, id);
      if i == |rows| {
        return NotFound;
      }
      if claimed !in accepted {
        rows := Remove(rows, i);
        return Forbidden;
      }
      var last := LastSeq(rows, claimed, me, Some(id));
      if last.Some? && rows[i].number <= last.value {
        rows := Remove(rows, i);
        return NotMonotonic;
      }
      rows := Remove(rows, i) + [rows[i].(sender := Peer(claimed))];
      return Resolved;
    }
  }

  // ---------------------------------------------------------------- the discipline

  /** `number` is above the stored maximum exactly when it is above every counting row. */
  lemma {:induction false} AboveAll(rows: seq<Row>, p: Onion, me: Onion, except: Option<nat>, number: int)
    ensures Above(number, LastSeq(rows, p, me, except)) <==>
      forall r :: r in rows && Counts(r, p, me) && except != Some(r.id) ==> r.number < number
  {
    if rows != [] {
      var front, last := rows[..|rows| - 1], rows[|rows| - 1];
      AboveAll(front, p, me, except, number);
      if LastSeq(front, p, me, except).Some? { AboveAll(front, p, me, except, LastSeq(front, p, me, except).value); }
      assert forall r :: r in rows <==> r in front || r == last;
    }
  }

  ghost predicate UniqueIds(s: State) {
    && (forall i :: 0 <= i < |s.rows| ==> s.rows[i].id < s.nextId)
    && (forall i, j :: 0 <= i < j < |s.rows| ==> s.rows[i].id != s.rows[j].id)
  }

  /** The rows of peer `p`, in the order they were accepted or resolved, have rising numbers. */
  ghost predicate Rising(s: State, p: Onion) {
    forall i, j :: 0 <= i < j < |s.rows| && Counts(s.rows[i], p, s.me) && Counts(s.rows[j], p, s.me)
      ==> s.rows[i].number < s.rows[j].number
  }

  ghost predicate Disciplined(s: State, p: Onion) {
    UniqueIds(s) && Rising(s, p)
  }

  lemma RemoveDisciplined(s: State, i: nat, p: Onion)
    requires Disciplined(s, p) && i < |s.rows|
    ensures Disciplined(s.(rows := Remove(s.rows, i)), p)
    ensures forall r :: r in Remove(s.rows, i) <==> r in s.rows && r.id != s.rows[i].id
  {
    RemoveMembers(s.rows, i);
    RemoveOrder(s.rows, i);
  }

  lemma RemoveOrder(rows: seq<Row>, i: nat)
    requires i < |rows|
    ensures |Remove(rows, i)| == |rows| - 1
    ensures forall j :: 0 <= j < |Remove(rows, i)| ==> Remove(rows, i)[j] == rows[if j < i then j else j + 1]
  {
  }

  lemma RemoveMembers(rows: seq<Row>, i: nat)
    requires i < |rows| && forall a, b :: 0 <= a < b < |rows| ==> rows[a].id != rows[b].id
    ensures forall r :: r in Remove(rows, i) <==> r in rows && r.id != rows[i].id
  {
    RemoveOrder(rows, i);
    var rest := Remove(rows, i);
    forall r | r in rows && r.id != rows[i].id ensures r in rest {
      var j :| 0 <= j < |rows| && rows[j] == r;
      assert rest[if j < i then j else j - 1] == r;
    }
  }

  /** Appending a row keeps the discipline if it is above the peer's other rows, or another
      sender's, or for another recipient. */
  lemma AppendDisciplined(s: State, r: Row, nextId: nat, p: Onion)
    requires Disciplined(s, p) && r.id < nextId && s.nextId <= nextId
    requires forall x :: x in s.rows ==> x.id != r.id
    requires Counts(r, p, s.me) ==> forall x :: x in s.rows && Counts(x, p, s.me) ==> x.number < r.number
    ensures Disciplined(s.(rows := s.rows + [r], nextId := nextId), p)
  {
    forall i | 0 <= i < |s.rows| ensures s.rows[i] in s.rows {}
  }

  lemma InsertDisciplined(s: State, sender: Sender, recipient: Onion, number: int, p: Onion)
    requires Disciplined(s, p)
    requires sender == Peer(p) && recipient == s.me ==>
      forall x :: x in s.rows && Counts(x, p, s.me) ==> x.number < number
    ensures Disciplined(Insert(s, sender, recipient, number), p)
  {
    forall x | x in s.rows ensures x.id < s.nextId {}
    AppendDisciplined(s, Row(s.nextId, sender, recipient, number), s.nextId + 1, p);
  }

  lemma ResolveDisciplined(s: State, id: nat, q: Onion, p: Onion)
    requires Disciplined(s, p)
    ensures Disciplined(HandleResolve(s, id, q).state, p)
  {
    hide Disciplined, LastSeq;
    var i := Position(s.rows, id);
    if i < |s.rows| {
      RemoveDisciplined(s, i, p);
      AboveAll(s.rows, q, s.me, Some(id), s.rows[i].number);
      IdsBelow(s, i, p);
      if HandleResolve(s, id, q).status == Resolved {
        AppendDisciplined(s.(rows := Remove(s.rows, i)), s.rows[i].(sender := Peer(q)), s.nextId, p);
      }
    }
  }

  lemma IdsBelow(s: State, i: nat, p: Onion)
    requires Disciplined(s, p) && i < |s.rows|
    ensures s.rows[i].id < s.nextId
  {
  }

  lemma HandleDisciplined(s: State, e: Event, p: Onion)
    requires Disciplined(s, p) && p != s.me
    ensures Disciplined(Handle(s, e), p)
  {
    hide UniqueIds, LastSeq, Insert, HandleResolve, Remove;
    match e
    case Direct(q, number, ephemeral) =>
      AboveAll(s.rows, q, s.me, None, number);
      if Above(number, LastSeq(s.rows, q, s.me, None)) { InsertDisciplined(s, Peer(q), s.me, number, p); }
    case SealedArrival(number, _) => InsertDisciplined(s, Sealed, s.me, number, p);
    case SendOut(recipient, number) => InsertDisciplined(s, Peer(s.me), recipient, number, p);
    case Resolve(id, q) => ResolveDisciplined(s, id, q, p);
    case Purge(id) => if Position(s.rows, id) < |s.rows| { RemoveDisciplined(s, Position(s.rows, id), p); }
    case Accept(_) => ContactsApart(s, Handle(s, e).accepted, p);
    case Revoke(_) => ContactsApart(s, Handle(s, e).accepted, p);
  }

  lemma ContactsApart(s: State, accepted: set<Onion>, p: Onion)
    requires Disciplined(s, p)
    ensures Disciplined(s.(accepted := accepted), p)
  {
  }

  /** Across any mix of arrivals, resolutions, contact changes and deletions, the stored rows
      of one peer have distinct numbers, rising in the order they were accepted or resolved. */
  lemma {:induction false} SequenceDiscipline(me: Onion, es: seq<Event>, p: Onion)
    requires p != me
    ensures Disciplined(Run(me, es), p) && Run(me, es).me == me
  {
    if es != [] {
      SequenceDiscipline(me, es[..|es| - 1], p);
      HandleDisciplined(Run(me, es[..|es| - 1]), es[|es| - 1], p);
    }
  }

  /** A direct message is accepted exactly when its sender is an accepted contact and its number
      is above that of every stored row of the sender. */
  lemma DirectAccepted(s: State, p: Onion, number: nat, ephemeral: bool)
    ensures HandleDirect(s, p, number, ephemeral).status == Delivered <==>
      p in s.accepted && forall r :: r in s.rows && Counts(r, p, s.me) ==> r.number < number
  {
    AboveAll(s.rows, p, s.me, None, number);
  }

  /** `x` is above the other messages of `p`. */
  ghost predicate IsAbove(s: State, x: Row, p: Onion) {
    forall y :: y in s.rows && Counts(y, p, s.me) && y.id != x.id ==> y.number < x.number
  }

  /** A claim is believed exactly when the message exists, the claimed sender is an accepted
      contact, and the number is above those of the sender's other messages. A message whose
      claim is not believed disappears; no other row is touched. */
  lemma ResolveOutcome(s: State, id: nat, p: Onion, row: Row)
    requires UniqueIds(s)
    ensures var r := HandleResolve(s, id, p);
      && (r.status == Resolved <==>
            p in s.accepted && exists x :: x in s.rows && x.id == id && IsAbove(s, x, p))
      && (row.id != id ==> (row in r.state.rows <==> row in s.rows))
      && (row.id == id ==>
            (row in r.state.rows <==>
               r.status == Resolved && row.sender == Peer(p) &&
               exists x :: x in s.rows && row == x.(sender := Peer(p))))
  {
    hide LastSeq;
    var i := Position(s.rows, id);
    if i < |s.rows| {
      RemoveMembers(s.rows, i);
      AboveAll(s.rows, p, s.me, Some(id), s.rows[i].number);
      assert forall x :: x in s.rows && x.id == id ==> x == s.rows[i];
    }
  }

  /** What a direct arrival leaves behind: one more row, the newest, from that sender to this node
      with that number and an id no other row has, if it is accepted and lasting; otherwise
      nothing. */
  lemma DirectOutcome(s: State, p: Onion, number: nat, ephemeral: bool)
    requires UniqueIds(s)
    ensures
      var s' := Handle(s, Direct(p, number, ephemeral));
      if p in s.accepted && !ephemeral && forall r :: r in s.rows && Counts(r, p, s.me) ==> r.number < number then
        && |s'.rows| == |s.rows| + 1 && s.rows <= s'.rows
        && var r := s'.rows[|s.rows|];
           Counts(r, p, s.me) && r.number == number && forall x :: x in s.rows ==> x.id != r.id
      else s' == s
  {
    AboveAll(s.rows, p, s.me, None, number);
  }

  /** A sealed arrival is stored unchecked, and counts for nobody until it is resolved. */
  lemma SealedOutcome(s: State, number: nat, ephemeral: bool, p: Onion)
    requires UniqueIds(s)
    ensures
      var s' := Handle(s, SealedArrival(number, ephemeral));
      if ephemeral then s' == s
      else
        && |s'.rows| == |s.rows| + 1 && s.rows <= s'.rows
        && var r := s'.rows[|s.rows|];
           !Counts(r, p, s.me) && r.number == number && forall x :: x in s.rows ==> x.id != r.id
  {
  }

  /** The contact was accepted and has not been revoked since. */
  predicate IsAccepted(es: seq<Event>, p: Onion) {
    es != [] && es[|es| - 1] != Revoke(p) && (es[|es| - 1] == Accept(p) || IsAccepted(es[..|es| - 1], p))
  }

  lemma {:induction false} AcceptedExactly(me: Onion, es: seq<Event>, p: Onion)
    ensures p in Run(me, es).accepted <==> IsAccepted(es, p)
  {
    if es != [] { AcceptedExactly(me, es[..|es| - 1], p); }
  }
}
