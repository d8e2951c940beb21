/**
  The LRU cache of ratchet sessions: an ordered dictionary, least recently used entry first.
 */
module SessionCache {
  import opened Wrappers
  import opened Lists

  /** A peer's onion address, and a reference to a session object. */
  datatype Onion = Onion(name: nat)

  datatype SessionRef = SessionRef(id: nat)

  datatype Entry = Entry(key: Onion, value: SessionRef)

  datatype Op = Get(key: Onion) | Put(key: Onion, value: SessionRef) | Invalidate(key: Onion) | Clear

  // ---------------------------------------------------------------- the ordered dictionary

  function Position(es: seq<Entry>, k: Onion): (i: nat)
    ensures i <= |es|
    ensures i < |es| ==> es[i].key == k
    ensures forall j :: 0 <= j < i ==> es[j].key != k
  {
    if es == [] || es[0].key == k then 0 else 1 + Position(es[1..], k)
  }

  predicate Has(es: seq<Entry>, k: Onion) {
    Position(es, k) < |es|
  }

  function Without(es: seq<Entry>, k: Onion): seq<Entry> {
    if es == [] then []
    else if es[0].key == k then es[1..]
    else [es[0]] + Without(es[1..], k)
  }

  function Apply(capacity: nat, es: seq<Entry>, op: Op): seq<Entry> {
    match op
    case Get(k) =>
      var i := Position(es, k);
      if i < |es| then Without(es, k) + [es[i]] else es
    case Put(k, v) => Newest(Without(es, k) + [Entry(k, v)], capacity)
    case Invalidate(k) => Without(es, k)
    case Clear => []
  }

  /** The contents after a trace of operations on an empty cache. */
  function Contents(capacity: nat, ops: seq<Op>): seq<Entry> {
    if ops == [] then [] else Apply(capacity, Contents(capacity, ops[..|ops| - 1]), ops[|ops| - 1])
  }

  ghost predicate UniqueKeys(es: seq<Entry>) {
    forall i, j :: 0 <= i < j < |es| ==> es[i].key != es[j].key
  }

  class DRSessionCache {
    const capacity: nat
    var entries: seq<Entry>

    ghost predicate Valid()
      reads this
    {
      capacity >= 1 && |entries| <= capacity && UniqueKeys(entries)
    }

    constructor (requested: int)
      ensures Valid() && entries == [] && capacity == if requested > 1 then requested else 1
    {
      capacity := if requested > 1 then requested else 1;
      entries := [];
    }

    method Lookup(key: Onion) returns (r: Option<SessionRef>)
      requires Valid()
      modifies this
      ensures Valid() && entries == Apply(capacity, old(entries), Get(key))
      ensures r == var i := Position(old(entries), key);
        if i < |old(entries)| then Some(old(entries)[i].value) else None
    {
      WithoutUnique(entries, key);
      var i := Position(entries, key);
      if i == |entries| {
        return None;
      }
      r := Some(entries[i].value);
      entries := Without(entries, key) + [entries[i]];
    }

    method Store(key: Onion, value: SessionRef)
      requires Valid()
      modifies this
      ensures Valid() && entries == Apply(capacity, old(entries), Put(key, value))
    {
      hide UniqueKeys;
      WithoutUnique(entries, key);
      entries := Without(entries, key) + [Entry(key, value)];
      ghost var all := entries;
      AppendUnique(Without(old(entries), key), Entry(key, value));
      while |entries| > capacity
        invariant Newest(entries, capacity) == Newest(all, capacity)
        invariant UniqueKeys(entries)
        decreases |entries|
      {
        TrimOne(entries, capacity);
        entries := entries[1..];
      }
    }

    method Drop(key: Onion)
      requires Valid()
      modifies this
      ensures Valid() && entries == Apply(capacity, old(entries), Invalidate(key))
    {
      WithoutUnique(entries, key);
      entries := Without(entries, key);
    }

    method DropAll()
      requires Valid()
      modifies this
      ensures Valid() && entries == Apply(capacity, old(entries), Clear)
    {
      entries := [];
    }
  }

  // ---------------------------------------------------------------- what a hit returns

  lemma TrimOne(es: seq<Entry>, capacity: nat)
    requires |es| > capacity && UniqueKeys(es)
    ensures Newest(es[1..], capacity) == Newest(es, capacity) && UniqueKeys(es[1..])
  {
  }

  lemma AppendUnique(es: seq<Entry>, e: Entry)
    requires UniqueKeys(es) && forall x :: x in es ==> x.key != e.key
    ensures UniqueKeys(es + [e])
  {
  }

  lemma {:induction false} WithoutUnique(es: seq<Entry>, k: Onion)
    requires UniqueKeys(es)
    ensures UniqueKeys(Without(es, k))
    ensures forall e :: e in Without(es, k) <==> e in es && e.key != k
    ensures |Without(es, k)| == |es| - (if Has(es, k) then 1 else 0)
  {
    if es != [] && es[0].key != k {
      WithoutUnique(es[1..], k);
      assert forall e :: e in es <==> e == es[0] || e in es[1..];
      var rest := Without(es[1..], k);
      forall j | 0 <= j < |rest| ensures rest[j].key != es[0].key {
        assert rest[j] in es[1..];
      }
    }
  }

  /** The value last put under `k` since it was last invalidated or the cache cleared. */
  function LastPut(ops: seq<Op>, k: Onion): Option<SessionRef> {
    if ops == [] then None
    else
      match ops[|ops| - 1]
      case Put(k', v) => if k' == k then Some(v) else LastPut(ops[..|ops| - 1], k)
      case Invalidate(k') => if k' == k then None else LastPut(ops[..|ops| - 1], k)
      case Clear => None
      case Get(_) => LastPut(ops[..|ops| - 1], k)
  }

  /** The position of the last operation that touched `k`, counting from one: a put, or a get
      that hit. */
  function LastTouch(capacity: nat, ops: seq<Op>, k: Onion): nat {
    if ops == [] then 0
    else
      var before := ops[..|ops| - 1];
      var op := ops[|ops| - 1];
      if (op.Put? && op.key == k) || (op.Get? && op.key == k && Has(Contents(capacity, before), k))
      then |ops| else LastTouch(capacity, before, k)
  }

  lemma {:induction false} TouchInPast(capacity: nat, ops: seq<Op>, k: Onion)
    ensures LastTouch(capacity, ops, k) <= |ops|
  {
    if ops != [] { TouchInPast(capacity, ops[..|ops| - 1], k); }
  }

  /** Of the entries, the earlier is the one touched longer ago. */
  ghost predicate ByRecency(capacity: nat, ops: seq<Op>, es: seq<Entry>) {
    forall i, j :: 0 <= i < j < |es| ==> LastTouch(capacity, ops, es[i].key) < LastTouch(capacity, ops, es[j].key)
  }

  /**
    After any trace: at most `capacity` entries, each under its own key and with the value last
    put there, from least to most recently touched. So a hit is never stale, and the entry a
    full cache gives up, its first, is the one touched longest ago.
   */
  lemma {:induction false} CacheInvariant(capacity: nat, ops: seq<Op>)
    requires capacity >= 1
    ensures var es := Contents(capacity, ops);
      && |es| <= capacity && UniqueKeys(es)
      && (forall e :: e in es ==> LastPut(ops, e.key) == Some(e.value))
      && ByRecency(capacity, ops, es)
  {
    if ops != [] {
      var before, op := ops[..|ops| - 1], ops[|ops| - 1];
      CacheInvariant(capacity, before);
      var es, es' := Contents(capacity, before), Contents(capacity, ops);
      if !op.Clear? {
        WithoutUnique(es, op.key);
        assert es' == Apply(capacity, es, op);
        forall e | e in es' && !(op.Put? && e == Entry(op.key, op.value)) ensures e in es {
        }
        RecencyStep(capacity, before, op);
        assert before + [op] == ops;
      }
    }
  }

  lemma RecencyStep(capacity: nat, before: seq<Op>, op: Op)
    requires capacity >= 1 && UniqueKeys(Contents(capacity, before)) && !op.Clear?
    requires ByRecency(capacity, before, Contents(capacity, before))
    ensures ByRecency(capacity, before + [op], Contents(capacity, before + [op]))
  {
    hide LastTouch;
    var ops := before + [op];
    assert ops[..|ops| - 1] == before;
    var es, es' := Contents(capacity, before), Contents(capacity, ops);
    var i := Position(es, op.key);
    var kept := Without(es, op.key);
    KeptByRecency(capacity, before, op);
    if op.Invalidate? || (op.Get? && i == |es|) {
      WithoutAbsentAt(es, op.key);
      assert es' == kept;
    } else {
      TouchedNow(capacity, before, op);
      var all := kept + [if op.Put? then Entry(op.key, op.value) else es[i]];
      assert ByRecency(capacity, ops, all);
      assert es' == Newest(all, if op.Put? then capacity else |all|);
    }
  }

  lemma TouchedNow(capacity: nat, before: seq<Op>, op: Op)
    requires op.Put? || (op.Get? && Has(Contents(capacity, before), op.key))
    ensures LastTouch(capacity, before + [op], op.key) == |before| + 1
  {
    assert (before + [op])[..|before|] == before;
  }

  lemma KeptByRecency(capacity: nat, before: seq<Op>, op: Op)
    requires UniqueKeys(Contents(capacity, before)) && !op.Clear?
    requires ByRecency(capacity, before, Contents(capacity, before))
    ensures var kept := Without(Contents(capacity, before), op.key);
      && ByRecency(capacity, before + [op], kept)
      && (forall j :: 0 <= j < |kept| ==> LastTouch(capacity, before + [op], kept[j].key) <= |before|)
  {
    var es, ops := Contents(capacity, before), before + [op];
    var kept := Without(es, op.key);
    assert ops[..|before|] == before;
    forall a | 0 <= a < |kept|
      ensures LastTouch(capacity, ops, kept[a].key) == LastTouch(capacity, before, kept[a].key) <= |before|
    {
      WithoutAt(es, op.key, a);
      TouchInPast(capacity, before, kept[a].key);
    }
    forall a, b | 0 <= a < b < |kept|
      ensures LastTouch(capacity, before, kept[a].key) < LastTouch(capacity, before, kept[b].key)
    {
      WithoutAt(es, op.key, a);
      WithoutAt(es, op.key, b);
    }
  }

  /** Removing an entry keeps the others in order. */
  lemma {:induction false} WithoutAt(es: seq<Entry>, k: Onion, j: nat)
    requires j < |Without(es, k)| && UniqueKeys(es)
    ensures var i := Position(es, k); var j' := if j < i then j else j + 1;
      j' < |es| && Without(es, k)[j] == es[j'] && es[j'].key != k
  {
    if es[0].key != k && j > 0 { WithoutAt(es[1..], k, j - 1); }
  }

  lemma WithoutAbsentAt(es: seq<Entry>, k: Onion)
    ensures !Has(es, k) ==> Without(es, k) == es
  {
    if !Has(es, k) {
      forall e | e in es ensures e.key != k {}
      WithoutAbsent(es, k);
    }
  }

  /** `e` is the entry of `es` touched longest ago. */
  ghost predicate IsOldest(capacity: nat, ops: seq<Op>, es: seq<Entry>, e: Entry) {
    forall x :: x in es ==> LastTouch(capacity, ops, e.key) <= LastTouch(capacity, ops, x.key)
  }

  /** A get loses nothing. An entry is lost to invalidation, to clearing, to a new value, and
      otherwise only to the put of another key into a full cache, when it is the entry touched
      longest ago. */
  ghost predicate Stays(capacity: nat, ops: seq<Op>, op: Op, e: Entry) {
    var es := Contents(capacity, ops);
    && !op.Clear?
    && (op.Invalidate? ==> op.key != e.key)
    && (op.Put? ==>
          if op.key == e.key then op.value == e.value
          else !(|es| == capacity && !Has(es, op.key) && IsOldest(capacity, ops, es, e)))
  }

  /** What is in the cache after the next operation: what was just put, and what was there
      before and stays. */
  lemma EntryStays(capacity: nat, ops: seq<Op>, op: Op, e: Entry)
    requires capacity >= 1
    ensures e in Contents(capacity, ops + [op]) <==>
      op == Put(e.key, e.value) || (e in Contents(capacity, ops) && Stays(capacity, ops, op, e))
  {
    hide LastTouch, IsOldest, UniqueKeys, Contents, ByRecency;
    var es := Contents(capacity, ops);
    CacheInvariant(capacity, ops);
    ContentsAppend(capacity, ops, op);
    if !op.Clear? {
      WithoutUnique(es, op.key);
      if op.Put? {
        var all := Without(es, op.key) + [Entry(op.key, op.value)];
        assert e in all <==> e == Entry(op.key, op.value) || (e in es && e.key != op.key);
        if |es| == capacity && !Has(es, op.key) {
          WithoutAbsentAt(es, op.key);
          if e in es { FirstIsOldest(capacity, ops, es, e); }
          assert Newest(all, capacity) == es[1..] + [Entry(op.key, op.value)];
        } else {
          assert Newest(all, capacity) == all;
        }
      }
    }
  }

  lemma ContentsAppend(capacity: nat, ops: seq<Op>, op: Op)
    ensures Contents(capacity, ops + [op]) == Apply(capacity, Contents(capacity, ops), op)
  {
    assert (ops + [op])[..|ops|] == ops;
  }

  lemma FirstIsOldest(capacity: nat, ops: seq<Op>, es: seq<Entry>, e: Entry)
    requires UniqueKeys(es) && ByRecency(capacity, ops, es) && e in es
    ensures e in es[1..] <==> e != es[0]
    ensures e == es[0] <==> IsOldest(capacity, ops, es, e)
  {
    hide LastTouch;
    var i :| 0 <= i < |es| && es[i] == e;
    if i > 0 {
      assert es[1..][i - 1] == e;
      assert es[0] in es;
    }
  }

  // ---------------------------------------------------------------- inclusion

  function KeySet(es: seq<Entry>): set<Onion> {
    set i | 0 <= i < |es| :: es[i].key
  }

  /** The entries with keys in `ks`, in order. */
  function Restrict(es: seq<Entry>, ks: set<Onion>): seq<Entry> {
    if es == [] then []
    else (if es[0].key in ks then [es[0]] else []) + Restrict(es[1..], ks)
  }

  lemma {:induction false} RestrictAppend(a: seq<Entry>, b: seq<Entry>, ks: set<Onion>)
    ensures Restrict(a + b, ks) == Restrict(a, ks) + Restrict(b, ks)
  {
    if a == [] {
      assert a + b == b && Restrict(a, ks) == [];
    } else {
      var head := if a[0].key in ks then [a[0]] else [];
      RestrictAppend(a[1..], b, ks);
      assert (a + b)[1..] == a[1..] + b;
      assert Restrict(a + b, ks) == head + (Restrict(a[1..], ks) + Restrict(b, ks));
    }
  }

  lemma {:induction false} RestrictSame(es: seq<Entry>, ks: set<Onion>, ks': set<Onion>)
    requires forall e :: e in es ==> (e.key in ks <==> e.key in ks')
    ensures Restrict(es, ks) == Restrict(es, ks')
  {
    if es != [] { RestrictSame(es[1..], ks, ks'); }
  }

  lemma {:induction false} RestrictMembers(es: seq<Entry>, ks: set<Onion>)
    ensures forall e :: e in Restrict(es, ks) <==> e in es && e.key in ks
    ensures |Restrict(es, ks)| <= |es|
  {
    if es != [] { RestrictMembers(es[1..], ks); }
  }

  lemma {:induction false} RestrictWithout(es: seq<Entry>, ks: set<Onion>, k: Onion)
    requires UniqueKeys(es)
    ensures Restrict(Without(es, k), ks) == Without(Restrict(es, ks), k)
  {
    if es != [] {
      if es[0].key == k {
        var rest := Restrict(es[1..], ks);
        RestrictMembers(es[1..], ks);
        assert ([es[0]] + rest)[1..] == rest;
        if k !in ks {
          assert Restrict(es, ks) == rest;
          WithoutAbsent(rest, k);
        }
      } else {
        RestrictWithout(es[1..], ks, k);
        assert ([es[0]] + Restrict(es[1..], ks))[1..] == Restrict(es[1..], ks);
        assert ([es[0]] + Without(es[1..], k))[1..] == Without(es[1..], k);
        assert [] + Restrict(es[1..], ks) == Restrict(es[1..], ks);
      }
    }
  }

  lemma {:induction false} WithoutAbsent(es: seq<Entry>, k: Onion)
    requires forall e :: e in es ==> e.key != k
    ensures Without(es, k) == es
  {
    if es != [] { WithoutAbsent(es[1..], k); }
  }

  /** `small` is part of `large`, in the same order, and no further from full. */
  ghost predicate Included(small: seq<Entry>, s: nat, large: seq<Entry>, l: nat) {
    && small == Restrict(large, KeySet(small))
    && |large| - |small| <= l - s
  }

  /** For one trace, the contents of a smaller cache are always a part of the contents of a
      larger one, with the same values and in the same order. */
  lemma {:induction false} Inclusion(s: nat, l: nat, ops: seq<Op>)
    requires 1 <= s <= l
    ensures Included(Contents(s, ops), s, Contents(l, ops), l)
  {
    if ops != [] {
      var before := ops[..|ops| - 1];
      Inclusion(s, l, before);
      CacheInvariant(s, before);
      CacheInvariant(l, before);
      InclusionStep(Contents(s, before), s, Contents(l, before), l, ops[|ops| - 1]);
    }
  }

  lemma InclusionStep(small: seq<Entry>, s: nat, large: seq<Entry>, l: nat, op: Op)
    requires 1 <= s <= l && Included(small, s, large, l)
    requires UniqueKeys(small) && UniqueKeys(large) && |small| <= s && |large| <= l
    ensures Included(Apply(s, small, op), s, Apply(l, large, op), l)
  {
    if !op.Clear? {
      var k := op.key;
      WithoutIncluded(small, large, k);
      RestrictMembers(large, KeySet(small));
      WithoutUnique(small, k);
      WithoutUnique(large, k);
      assert Has(small, k) ==> Has(large, k) by {
        if Has(small, k) { assert small[Position(small, k)] in large; }
      }
      match op
      case Invalidate(_) =>
      case Get(_) =>
        if Has(small, k) {
          assert small[Position(small, k)] in large;
          assert small[Position(small, k)] == large[Position(large, k)];
          AppendIncluded(Without(small, k), Without(large, k), small[Position(small, k)]);
        } else if Has(large, k) {
          WithoutAbsent(small, k);
          SkipIncluded(Without(small, k), Without(large, k), large[Position(large, k)]);
        }
      case Put(_, v) =>
        AppendIncluded(Without(small, k), Without(large, k), Entry(k, v));
        TrimIncluded(Without(small, k) + [Entry(k, v)], s, Without(large, k) + [Entry(k, v)], l);
    }
  }

  lemma WithoutIncluded(small: seq<Entry>, large: seq<Entry>, k: Onion)
    requires UniqueKeys(small) && UniqueKeys(large) && small == Restrict(large, KeySet(small))
    ensures Without(small, k) == Restrict(Without(large, k), KeySet(Without(small, k)))
  {
    RestrictWithout(large, KeySet(small), k);
    WithoutUnique(small, k);
    WithoutUnique(large, k);
    RestrictSame(Without(large, k), KeySet(small), KeySet(Without(small, k)));
  }

  lemma AppendIncluded(small: seq<Entry>, large: seq<Entry>, e: Entry)
    requires small == Restrict(large, KeySet(small))
    requires forall x :: x in large ==> x.key != e.key
    ensures small + [e] == Restrict(large + [e], KeySet(small + [e]))
  {
    KeySetAppend(small, e);
    RestrictAppend(large, [e], KeySet(small + [e]));
    RestrictSame(large, KeySet(small), KeySet(small + [e]));
  }

  lemma KeySetAppend(es: seq<Entry>, e: Entry)
    ensures KeySet(es + [e]) == KeySet(es) + {e.key}
  {
    forall k | k in KeySet(es) + {e.key} ensures k in KeySet(es + [e]) {
      if k == e.key {
        assert (es + [e])[|es|].key == k;
      } else {
        var i :| 0 <= i < |es| && es[i].key == k;
        assert (es + [e])[i].key == k;
      }
    }
  }

  lemma SkipIncluded(small: seq<Entry>, large: seq<Entry>, e: Entry)
    requires small == Restrict(large, KeySet(small))
    requires e.key !in KeySet(small)
    ensures small == Restrict(large + [e], KeySet(small))
  {
    RestrictAppend(large, [e], KeySet(small));
  }

  /** Both caches give up their first entry, or only the small one does. */
  lemma TrimIncluded(small: seq<Entry>, s: nat, large: seq<Entry>, l: nat)
    requires 1 <= s <= l && small == Restrict(large, KeySet(small)) && UniqueKeys(small) && UniqueKeys(large)
    requires |small| <= s + 1 && |large| <= l + 1
    requires |large| - |small| <= l - s
    ensures Included(Newest(small, s), s, Newest(large, l), l)
  {
    RestrictMembers(large, KeySet(small));
    var small', large' := Newest(small, s), Newest(large, l);
    if |small| > s {
      assert small[0] !in small[1..];
      assert KeySet(small[1..]) == KeySet(small) - {small[0].key};
      RestrictSame(large, KeySet(small), KeySet(small));
      if |large| > l && large[0].key in KeySet(small) {
        assert small == [large[0]] + Restrict(large[1..], KeySet(small));
        RestrictSame(large[1..], KeySet(small), KeySet(small'));
      } else {
        DropSmallest(small, large);
      }
    }
  }

  lemma DropSmallest(small: seq<Entry>, large: seq<Entry>)
    requires small != [] && UniqueKeys(small) && UniqueKeys(large) && small == Restrict(large, KeySet(small))
    ensures small[1..] == Restrict(large, KeySet(small[1..]))
    ensures large != [] && large[0].key !in KeySet(small) ==> small[1..] == Restrict(large[1..], KeySet(small[1..]))
  {
    var k := small[0].key;
    RestrictWithout(large, KeySet(small), k);
    RestrictDrop(large, KeySet(small), k);
    KeySetTail(small);
  }

  lemma KeySetTail(es: seq<Entry>)
    requires es != [] && UniqueKeys(es)
    ensures KeySet(es[1..]) == KeySet(es) - {es[0].key}
  {
    forall k | k in KeySet(es) - {es[0].key} ensures k in KeySet(es[1..]) {
      var i :| 0 <= i < |es| && es[i].key == k;
      assert es[1..][i - 1].key == k;
    }
  }

  lemma {:induction false} RestrictDrop(es: seq<Entry>, ks: set<Onion>, k: Onion)
    requires UniqueKeys(es)
    ensures Restrict(es, ks - {k}) == Restrict(Without(es, k), ks)
  {
    if es != [] {
      if es[0].key == k {
        RestrictSame(es[1..], ks - {k}, ks);
      } else {
        RestrictDrop(es[1..], ks, k);
      }
    }
  }
}
