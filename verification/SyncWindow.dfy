/**
  De-duplication of multi-device sync envelopes: a set of processed ids, and the same ids in a
  queue that bounds it.
 */
module SyncWindow {
  import opened Lists

  const MAX_SKEW := 300.0

  datatype Envelope = Envelope(device: nat, id: int, timestamp: real)

  datatype Outcome = Applied | Duplicate | Unauthorized | Stale

  /** An application: the envelope and the clock when it was applied. */
  datatype Application = Application(envelope: Envelope, now: real)

  /** `limit` is the tier's max_in_memory_messages; `applied` records all applications. */
  datatype State = State(limit: nat, self: nat, paired: set<nat>, processed: set<int>, fifo: seq<int>,
                         applied: seq<Application>)

  datatype Event = Pair(device: nat) | Process(envelope: Envelope, now: real)

  function Skew(a: real, b: real): real {
    if a < b then b - a else a - b
  }

  function Judge(s: State, e: Envelope, now: real): Outcome {
    if e.device != s.self && e.device !in s.paired then Unauthorized
    else if e.id in s.processed then Duplicate
    else if Skew(now, e.timestamp) > MAX_SKEW then Stale
    else Applied
  }

  function Evict(s: State): State
    decreases |s.fifo|
  {
    if |s.fifo| >= s.limit && s.fifo != [] then Evict(s.(fifo := s.fifo[1..], processed := s.processed - {s.fifo[0]}))
    else s
  }

  function Handle(s: State, e: Event): State {
    match e
    case Pair(device) => s.(paired := s.paired + {device})
    case Process(envelope, now) =>
      if Judge(s, envelope, now) != Applied then s
      else
        var s1 := Evict(s);
        s1.(fifo := s1.fifo + [envelope.id], processed := s1.processed + {envelope.id},
            applied := s.applied + [Application(envelope, now)])
  }

  function Run(limit: nat, self: nat, es: seq<Event>): State {
    if es == [] then State(limit, self, {}, {}, [], [])
    else Handle(Run(limit, self, es[..|es| - 1]), es[|es| - 1])
  }

  class MultiDeviceSyncManager {
    const limit: nat
    const self: nat
    var paired: set<nat>
    var processed: set<int>
    var fifo: seq<int>
    ghost var applied: seq<Application>

    ghost function Snapshot(): State
      reads this
    {
      State(limit, self, paired, processed, fifo, applied)
    }

    method RegisterPairedDevice(device: nat)
      modifies this
      ensures Snapshot() == Handle(old(Snapshot()), Pair(device))
    {
      paired := paired + {device};
    }

    method ProcessIncomingEnvelope(e: Envelope, now: real) returns (outcome: Outcome)
      requires limit >= 1
      modifies this
      ensures outcome == Judge(old(Snapshot()), e, now)
      ensures Snapshot() == Handle(old(Snapshot()), Process(e, now))
    {
      if e.device != self && e.device !in paired {
        return Unauthorized;
      }
      if e.id in processed {
        return Duplicate;
      }
      if Skew(now, e.timestamp) > MAX_SKEW {
        return Stale;
      }
      ghost var goal := Evict(Snapshot());
      while |fifo| >= limit
        invariant Evict(Snapshot()) == goal && applied == old(applied)
        decreases |fifo|
      {
        var oldest := fifo[0];
        fifo := fifo[1..];
        processed := processed - {oldest};
      }
      fifo := fifo + [e.id];
      processed := processed + {e.id};
      applied := applied + [Application(e, now)];
      return Applied;
    }
  }

  // ---------------------------------------------------------------- the window

  function Ids(applied: seq<Application>): (ids: seq<int>)
    ensures |ids| == |applied| && forall i :: 0 <= i < |ids| ==> ids[i] == applied[i].envelope.id
  {
    seq(|applied|, i requires 0 <= i < |applied| => applied[i].envelope.id)
  }

  /** Equal ids are more than `limit` applications apart. */
  ghost predicate Apart(applied: seq<Application>, limit: nat) {
    forall i, j :: 0 <= i < j < |applied| && applied[i].envelope.id == applied[j].envelope.id ==> j - i > limit
  }

  /** The queue holds the ids of the last `limit` applications, all different, and the set
      holds the same ids. */
  ghost predicate WindowOk(s: State) {
    && s.fifo == Newest(Ids(s.applied), s.limit)
    && (forall i :: i in s.processed <==> i in s.fifo)
    && Apart(s.applied, s.limit)
    && (forall i :: 0 <= i < |s.applied| ==> Skew(s.applied[i].now, s.applied[i].envelope.timestamp) <= MAX_SKEW)
  }

  lemma NoDuplicates(s: State)
    requires WindowOk(s)
    ensures |s.fifo| <= s.limit
    ensures forall i, j :: 0 <= i < j < |s.fifo| ==> s.fifo[i] != s.fifo[j]
  {
  }

  lemma EvictOnce(s: State)
    requires s.limit >= 1 && |s.fifo| <= s.limit
    requires forall i, j :: 0 <= i < j < |s.fifo| ==> s.fifo[i] != s.fifo[j]
    requires forall i :: i in s.processed <==> i in s.fifo
    ensures var s1 := Evict(s);
      && s1 == s.(fifo := Newest(s.fifo, s.limit - 1), processed := s1.processed)
      && (forall i :: i in s1.processed <==> i in s1.fifo)
  {
    if |s.fifo| == s.limit {
      var s1 := s.(fifo := s.fifo[1..], processed := s.processed - {s.fifo[0]});
      assert Evict(s1) == s1;
      assert forall i :: i in s.fifo <==> i == s.fifo[0] || i in s.fifo[1..];
    }
  }

  lemma InNewest(ids: seq<int>, n: nat, i: nat)
    requires i < |ids|
    ensures |ids| - i <= n ==> ids[i] in Newest(ids, n)
  {
    if |ids| > n >= |ids| - i { assert Newest(ids, n)[i - (|ids| - n)] == ids[i]; }
  }

  lemma PairOk(s: State, paired: set<nat>)
    requires WindowOk(s)
    ensures WindowOk(s.(paired := paired))
  {
  }

  lemma ApplyOk(s: State, e: Envelope, now: real)
    requires s.limit >= 1 && WindowOk(s) && Judge(s, e, now) == Applied
    ensures WindowOk(Handle(s, Process(e, now))) && Handle(s, Process(e, now)).limit == s.limit
  {
    NoDuplicates(s);
    EvictOnce(s);
    hide Evict, Newest, Apart;
    var s' := Handle(s, Process(e, now));
    var ids := Ids(s.applied);
    assert Ids(s'.applied) == ids + [e.id];
    NewestAppend(ids, e.id, s.limit);
    ApartAppend(s, e, now);
  }

  lemma ApartAppend(s: State, e: Envelope, now: real)
    requires WindowOk(s) && e.id !in s.processed
    ensures Apart(s.applied + [Application(e, now)], s.limit)
  {
    var ids := Ids(s.applied);
    forall i | 0 <= i < |ids| && ids[i] == e.id ensures |ids| - i > s.limit { InNewest(ids, s.limit, i); }
  }

  lemma {:induction false} WindowInvariant(limit: nat, self: nat, es: seq<Event>)
    requires limit >= 1
    ensures var s := Run(limit, self, es); s.limit == limit && WindowOk(s)
  {
    if es == [] {
      assert Ids([]) == [];
    } else {
      WindowInvariant(limit, self, es[..|es| - 1]);
      var s, e := Run(limit, self, es[..|es| - 1]), es[|es| - 1];
      if e.Process? && Judge(s, e.envelope, e.now) == Applied {
        ApplyOk(s, e.envelope, e.now);
      } else if e.Pair? {
        PairOk(s, s.paired + {e.device});
      }
    }
  }

  ghost predicate Monotone(es: seq<Event>) {
    forall i, j :: 0 <= i < j < |es| && es[i].Process? && es[j].Process? ==> es[i].now <= es[j].now
  }

  /** `now` is the clock of some call. */
  ghost predicate WasRead(es: seq<Event>, now: real) {
    exists k :: 0 <= k < |es| && es[k].Process? && es[k].now == now
  }

  /** The applications are in the order of their clock readings, each the clock of a call. */
  ghost predicate Timed(s: State, es: seq<Event>) {
    && (forall i, j :: 0 <= i < j < |s.applied| ==> s.applied[i].now <= s.applied[j].now)
    && (forall i :: 0 <= i < |s.applied| ==> WasRead(es, s.applied[i].now))
  }

  lemma {:induction false} RunTimed(limit: nat, self: nat, es: seq<Event>)
    requires Monotone(es)
    ensures Timed(Run(limit, self, es), es)
  {
    if es != [] {
      var front := es[..|es| - 1];
      RunTimed(limit, self, front);
      var s, s' := Run(limit, self, front), Run(limit, self, es);
      EvictKeepsApplied(s);
      assert s.applied <= s'.applied && |s'.applied| <= |s.applied| + 1;
      forall i | 0 <= i < |s'.applied|
        ensures WasRead(es, s'.applied[i].now)
      {
        if i < |s.applied| {
          assert s'.applied[i] == s.applied[i];
          var k :| 0 <= k < |front| && front[k].Process? && front[k].now == s.applied[i].now;
          assert es[k] == front[k];
        } else {
          assert es[|es| - 1].Process? && es[|es| - 1].now == s'.applied[i].now;
        }
      }
      forall i, j | 0 <= i < j < |s'.applied| ensures s'.applied[i].now <= s'.applied[j].now {
        if j == |s.applied| {
          assert es[|es| - 1].Process? && es[|es| - 1].now == s'.applied[j].now;
          var k :| 0 <= k < |front| && front[k].Process? && front[k].now == s.applied[i].now;
          assert es[k] == front[k];
        }
      }
    }
  }

  lemma {:induction false} EvictKeepsApplied(s: State)
    ensures Evict(s).applied == s.applied && Evict(s).self == s.self && Evict(s).paired == s.paired
    decreases |s.fifo|
  {
    if |s.fifo| >= s.limit && s.fifo != [] {
      EvictKeepsApplied(s.(fifo := s.fifo[1..], processed := s.processed - {s.fifo[0]}));
    }
  }

  /**
    An id is applied again only after at least `limit` applications of other ids in between;
    and by a clock that does not run backwards, one and the same envelope is applied twice
    only if all of those fell within 600 seconds.
   */
  lemma ReplayNeedsFlood(limit: nat, self: nat, es: seq<Event>, i: nat, j: nat)
    requires limit >= 1 && Monotone(es)
    requires i < j < |Run(limit, self, es).applied|
    requires Run(limit, self, es).applied[i].envelope.id == Run(limit, self, es).applied[j].envelope.id
    ensures var a := Run(limit, self, es).applied;
      && j - i - 1 >= limit
      && (a[i].envelope == a[j].envelope ==>
            a[j].now - a[i].now <= 600.0 && forall k :: i <= k <= j ==> a[i].now <= a[k].now <= a[j].now)
  {
    WindowInvariant(limit, self, es);
    RunTimed(limit, self, es);
  }

  /** Only an applied envelope changes anything. */
  lemma OthersChangeNothing(s: State, e: Envelope, now: real)
    ensures Judge(s, e, now) != Applied <==> Handle(s, Process(e, now)) == s
  {
    EvictKeepsApplied(s);
    assert Judge(s, e, now) == Applied ==> |Handle(s, Process(e, now)).applied| == |s.applied| + 1;
  }

  // ---------------------------------------------------------------- the verdicts, from the trace

  /** The device is this one or has been paired. */
  predicate IsAuthorised(self: nat, es: seq<Event>, device: nat) {
    device == self || Pair(device) in es
  }

  /** The id is among those of the last `limit` applications. */
  predicate IsRecent(applied: seq<Application>, limit: nat, id: int) {
    exists k :: 0 <= k < |applied| && |applied| - k <= limit && applied[k].envelope.id == id
  }

  /** The verdict on an envelope, given the calls before it and what they applied. */
  function Verdict(limit: nat, self: nat, es: seq<Event>, applied: seq<Application>, e: Envelope, now: real): Outcome {
    if !IsAuthorised(self, es, e.device) then Unauthorized
    else if IsRecent(applied, limit, e.id) then Duplicate
    else if now - e.timestamp > MAX_SKEW || e.timestamp - now > MAX_SKEW then Stale
    else Applied
  }

  /** The applications, read off the calls alone. */
  function AppliedBy(limit: nat, self: nat, es: seq<Event>): seq<Application> {
    if es == [] then []
    else
      var front, e := es[..|es| - 1], es[|es| - 1];
      var before := AppliedBy(limit, self, front);
      if e.Process? && Verdict(limit, self, front, before, e.envelope, e.now) == Applied
      then before + [Application(e.envelope, e.now)] else before
  }

  /** Queue and set decide every call as the whole list of applications would. */
  lemma {:induction false} VerdictsExactly(limit: nat, self: nat, es: seq<Event>)
    requires limit >= 1
    ensures Run(limit, self, es).applied == AppliedBy(limit, self, es)
    ensures forall e, now ::
      Judge(Run(limit, self, es), e, now) == Verdict(limit, self, es, AppliedBy(limit, self, es), e, now)
  {
    hide Judge, Verdict, IsRecent;
    if es != [] {
      VerdictsExactly(limit, self, es[..|es| - 1]);
      EvictKeepsApplied(Run(limit, self, es[..|es| - 1]));
    }
    forall e, now
      ensures Judge(Run(limit, self, es), e, now) == Verdict(limit, self, es, Run(limit, self, es).applied, e, now)
    {
      JudgeExactly(limit, self, es, e, now);
    }
  }

  lemma JudgeExactly(limit: nat, self: nat, es: seq<Event>, e: Envelope, now: real)
    requires limit >= 1
    ensures Judge(Run(limit, self, es), e, now) == Verdict(limit, self, es, Run(limit, self, es).applied, e, now)
  {
    hide IsRecent, WindowOk, Run;
    WindowInvariant(limit, self, es);
    PairedExactly(limit, self, es, e.device);
    ProcessedExactly(Run(limit, self, es), e.id);
  }

  lemma ProcessedExactly(s: State, id: int)
    requires WindowOk(s)
    ensures id in s.processed <==> IsRecent(s.applied, s.limit, id)
  {
    var ids := Ids(s.applied);
    if id in s.fifo {
      var j :| 0 <= j < |s.fifo| && s.fifo[j] == id;
      assert s.applied[j + Excess(ids, s.limit)].envelope.id == id;
    }
    forall k | 0 <= k < |ids| { InNewest(ids, s.limit, k); }
  }

  lemma {:induction false} PairedExactly(limit: nat, self: nat, es: seq<Event>, device: nat)
    ensures Run(limit, self, es).self == self
    ensures device in Run(limit, self, es).paired <==> Pair(device) in es
  {
    if es != [] {
      var front := es[..|es| - 1];
      PairedExactly(limit, self, front, device);
      EvictKeepsApplied(Run(limit, self, front));
      assert Pair(device) in es <==> Pair(device) in front || es[|es| - 1] == Pair(device);
    }
  }
}
