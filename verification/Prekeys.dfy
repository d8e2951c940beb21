/**
  One-time prekeys of one address: the in-memory pool, the published bundle, and the fetches
  that hand its keys out and top it up from the pool. Handlers are atomic, except that a
  background refill of the pool may run between any two takes of one fetch.
 */
module Prekeys {
  import opened Wrappers

  const BUNDLE_LOW := 20

  /** A key pair; the numbers are handed out in the order the pairs are generated. */
  datatype Prekey = Prekey(id: nat)

  datatype Bundle = Bundle(opks: seq<Prekey>, pqs: seq<Prekey>)

  datatype State = State(
    pool: seq<Prekey>,
    bundle: Option<Bundle>,
    served: seq<Prekey>,     // keys handed out by fetches, in order
    servedPq: seq<Prekey>,
    gone: seq<Prekey>,       // taken or drained from the pool, or overwritten by a publish
    entered: seq<Prekey>,    // keys that entered the bundle since the last publish,
    left: seq<Prekey>,       // and keys that left it
    next: nat)               // key pairs generated so far, here or for other addresses

  datatype Event =
    | Fill(count: nat)                        // the second half of fill_pool, whatever its deficit was
    | Take
    | Drain
    | Publish(opks: nat, pqs: nat)            // a bundle of that many keys never used before
    | Fetch(refills: seq<nat>)                // background fills before the takes of its top-up
    | Elsewhere(count: nat)                   // key pairs generated for other addresses

  function FreshKeys(from: nat, count: nat): (ks: seq<Prekey>)
    ensures |ks| == count && forall i :: 0 <= i < count ==> ks[i] == Prekey(from + i)
  {
    seq(count, i requires 0 <= i < count => Prekey(from + i))
  }

  datatype Refilled = Refilled(pool: seq<Prekey>, opks: seq<Prekey>, next: nat)

  /** Moves up to `n` keys from the end of the pool to the end of the bundle. */
  function TopUp(pool: seq<Prekey>, opks: seq<Prekey>, n: nat, refills: seq<nat>, next: nat): Refilled
    decreases n
  {
    var count := if refills == [] then 0 else refills[0];
    var pool' := pool + FreshKeys(next, count);
    if n == 0 then Refilled(pool, opks, next)
    else if pool' == [] then Refilled(pool', opks, next + count)
    else
      TopUp(pool'[..|pool'| - 1], opks + [pool'[|pool'| - 1]], n - 1,
            if refills == [] then [] else refills[1..], next + count)
  }

  /** What a fetch does to a bundle, and the two keys it answers with. */
  datatype Fetched = Fetched(pool: seq<Prekey>, bundle: Bundle, next: nat, opk: seq<Prekey>, opq: seq<Prekey>)

  function FetchFrom(pool: seq<Prekey>, b: Bundle, next: nat, refills: seq<nat>): Fetched {
    var opk := if b.opks == [] then [] else [b.opks[0]];
    var opq := if b.pqs == [] then [] else [b.pqs[0]];
    var rest := b.opks[|opk|..];
    var r := if |rest| < BUNDLE_LOW then TopUp(pool, rest, BUNDLE_LOW - |rest|, refills, next)
             else Refilled(pool, rest, next);
    Fetched(r.pool, Bundle(r.opks, b.pqs[|opq|..]), r.next, opk, opq)
  }

  function HandleFetch(s: State, refills: seq<nat>): State {
    if s.bundle.None? then s
    else
      var f := FetchFrom(s.pool, s.bundle.value, s.next, refills);
      var kept := |s.bundle.value.opks| - |f.opk|;
      s.(pool := f.pool, next := f.next, bundle := Some(f.bundle),
         served := s.served + f.opk, servedPq := s.servedPq + f.opq, left := s.left + f.opk,
         entered := s.entered + if kept <= |f.bundle.opks| then f.bundle.opks[kept..] else [])
  }

  function InBundle(b: Option<Bundle>): seq<Prekey> {
    if b.Some? then b.value.opks + b.value.pqs else []
  }

  function Handle(s: State, e: Event): State {
    match e
    case Fill(count) => s.(pool := s.pool + FreshKeys(s.next, count), next := s.next + count)
    case Take =>
      if s.pool == [] then s
      else s.(pool := s.pool[..|s.pool| - 1], gone := s.gone + [s.pool[|s.pool| - 1]])
    case Drain => s.(pool := [], gone := s.gone + s.pool)
    case Publish(opks, pqs) =>
      var ks := FreshKeys(s.next, opks);
      s.(bundle := Some(Bundle(ks, FreshKeys(s.next + opks, pqs))), next := s.next + opks + pqs,
         gone := s.gone + InBundle(s.bundle), entered := ks, left := [])
    case Fetch(refills) => HandleFetch(s, refills)
    case Elsewhere(count) => s.(next := s.next + count)
  }

  function Start(next: nat): State {
    State([], None, [], [], [], [], [], next)
  }

  function Run(next: nat, es: seq<Event>): State {
    if es == [] then Start(next) else Handle(Run(next, es[..|es| - 1]), es[|es| - 1])
  }

  function Min(a: nat, b: nat): nat {
    if a < b then a else b
  }

  // ---------------------------------------------------------------- the methods

  /** One round of the loop. */
  lemma TopUpOnce(pool: seq<Prekey>, opks: seq<Prekey>, n: nat, refills: seq<nat>, next: nat)
    requires n > 0
    ensures
      var count := if refills == [] then 0 else refills[0];
      var pool' := pool + FreshKeys(next, count);
      TopUp(pool, opks, n, refills, next) ==
        if pool' == [] then Refilled([], opks, next + count)
        else TopUp(pool'[..|pool'| - 1], opks + [pool'[|pool'| - 1]], n - 1,
                   if refills == [] then [] else refills[1..], next + count)
  {
    hide FreshKeys;
  }

  class Address {
    var pool: seq<Prekey>
    var bundle: Option<Bundle>
    var next: nat

    /** The fields are those of `s`. */
    ghost predicate Shows(s: State)
      reads this
    {
      pool == s.pool && bundle == s.bundle && next == s.next
    }

    /** `generated` is how many pairs can be generated before generation fails. */
    method FillPool(target: int, generated: nat, ghost s: State) returns (added: seq<Prekey>)
      requires Shows(s)
      modifies this`pool, this`next
      ensures Shows(Handle(s, Fill(|added|)))
      ensures pool == old(pool) + added && added == FreshKeys(old(next), |added|) && next == old(next) + |added|
      ensures |added| == Min(generated, if target > |old(pool)| then target - |old(pool)| else 0)
    {
      var deficit := if target > |pool| then target - |pool| else 0;
      added := [];
      var i := 0;
      while i < deficit && i < generated
        invariant 0 <= i <= deficit && i <= generated
        invariant pool == old(pool) && next == old(next) + i && added == FreshKeys(old(next), i)
      {
        added := added + [Prekey(next)];
        next := next + 1;
        i := i + 1;
      }
      pool := pool + added;
    }

    method TakeOneTimePrekey(ghost s: State) returns (r: Option<Prekey>)
      requires Shows(s)
      modifies this`pool
      ensures Shows(Handle(s, Take))
      ensures old(pool) == [] ==> r == None && pool == []
      ensures old(pool) != [] ==> r.Some? && pool + [r.value] == old(pool)
    {
      if pool == [] {
        return None;
      }
      r := Some(pool[|pool| - 1]);
      pool := pool[..|pool| - 1];
    }

    method DrainPool(ghost s: State) returns (keys: seq<Prekey>)
      requires Shows(s)
      modifies this`pool
      ensures Shows(Handle(s, Drain))
      ensures keys == old(pool) && pool == []
    {
      keys := pool;
      pool := [];
    }

    /** Overwrites the bundle with newly generated keys. */
    method PublishBundle(opks: nat, pqs: nat, ghost s: State)
      requires Shows(s)
      modifies this`bundle, this`next
      ensures Shows(Handle(s, Publish(opks, pqs)))
    {
      bundle := Some(Bundle(FreshKeys(next, opks), FreshKeys(next + opks, pqs)));
      next := next + opks + pqs;
    }

    /** `found` is false without a bundle; the answers are lists of at most one key. */
    method FetchBundle(refills: seq<nat>, ghost s: State) returns (found: bool, opk: seq<Prekey>, opq: seq<Prekey>)
      requires Shows(s)
      modifies this
      ensures Shows(Handle(s, Fetch(refills)))
      ensures Handle(s, Fetch(refills)).served == s.served + opk
      ensures Handle(s, Fetch(refills)).servedPq == s.servedPq + opq
      ensures found <==> old(bundle).Some?
      ensures !found ==> pool == old(pool) && bundle == old(bundle) && next == old(next)
      ensures found ==> bundle.Some?
      ensures found ==>
        Fetched(pool, bundle.value, next, opk, opq) == FetchFrom(old(pool), old(bundle).value, old(next), refills)
    {
      opk, opq := [], [];
      if bundle.None? {
        return false, [], [];
      }
      var opks, pqs := bundle.value.opks, bundle.value.pqs;
      if opks != [] {
        opk, opks := [opks[0]], opks[1..];
      }
      if pqs != [] {
        opq, pqs := [pqs[0]], pqs[1..];
      }
      bundle := Some(Bundle(opks, pqs));
      if |opks| < BUNDLE_LOW {
        opks := TakeInto(opks, BUNDLE_LOW - |opks|, refills);
        bundle := Some(Bundle(opks, pqs));
      }
      return true, opk, opq;
    }

    /** The loop that tops the bundle up. */
    method TakeInto(opks: seq<Prekey>, n: nat, refills: seq<nat>) returns (r: seq<Prekey>)
      modifies this`pool, this`next
      ensures Refilled(pool, r, next) == TopUp(old(pool), opks, n, refills, old(next))
    {
      hide FreshKeys;
      ghost var goal := TopUp(pool, opks, n, refills, next);
      r := opks;
      var i, fills := 0, refills;
      while i < n
        invariant 0 <= i <= n
        invariant TopUp(pool, r, n - i, fills, next) == goal
      {
        TopUpOnce(pool, r, n - i, fills, next);
        var count := if fills == [] then 0 else fills[0];
        pool, next := pool + FreshKeys(next, count), next + count;
        var pair := TakeOneTimePrekey(State(pool, bundle, [], [], [], [], [], next));
        if pair.None? {
          break;
        }
        r := r + [pair.value];
        fills := if fills == [] then [] else fills[1..];
        i := i + 1;
      }
    }
  }

  // ---------------------------------------------------------------- conservation

  function Count(ks: seq<Prekey>, k: Prekey): nat {
    if ks == [] then 0 else Count(ks[..|ks| - 1], k) + (if ks[|ks| - 1] == k then 1 else 0)
  }

  lemma {:induction false} CountAppend(a: seq<Prekey>, b: seq<Prekey>, k: Prekey)
    ensures Count(a + b, k) == Count(a, k) + Count(b, k)
  {
    if b == [] {
      assert a + b == a;
    } else {
      CountAppend(a, b[..|b| - 1], k);
      assert (a + b)[..|a + b| - 1] == a + b[..|b| - 1];
    }
  }

  lemma {:induction false} CountIn(ks: seq<Prekey>, k: Prekey)
    ensures Count(ks, k) > 0 <==> k in ks
  {
    if ks != [] {
      CountIn(ks[..|ks| - 1], k);
      assert k in ks <==> k in ks[..|ks| - 1] || k == ks[|ks| - 1];
    }
  }

  lemma {:induction false} CountFresh(from: nat, count: nat, k: Prekey)
    ensures Count(FreshKeys(from, count), k) == if from <= k.id < from + count then 1 else 0
  {
    if count > 0 {
      CountFresh(from, count - 1, k);
      assert FreshKeys(from, count)[..count - 1] == FreshKeys(from, count - 1);
    }
  }

  /** How often `k` is anywhere. */
  function Copies(s: State, k: Prekey): nat {
    Count(s.pool, k) + Count(InBundle(s.bundle), k) + Count(s.served, k) + Count(s.servedPq, k) + Count(s.gone, k)
  }

  function Generated(k: Prekey, from: nat, until: nat): nat {
    if from <= k.id < until then 1 else 0
  }

  /** Topping up moves keys and adds fresh ones; it duplicates and loses none. */
  lemma {:induction false} TopUpConserves(pool: seq<Prekey>, opks: seq<Prekey>, n: nat, refills: seq<nat>, next: nat,
                                          k: Prekey)
    ensures var r := TopUp(pool, opks, n, refills, next);
      && Count(r.pool, k) + Count(r.opks, k) == Count(pool, k) + Count(opks, k) + Generated(k, next, r.next)
      && next <= r.next
    decreases n
  {
    hide FreshKeys, TopUp;
    if n == 0 {
      TopUpNothing(pool, opks, refills, next);
    } else {
      var count := if refills == [] then 0 else refills[0];
      var pool' := pool + FreshKeys(next, count);
      TopUpOnce(pool, opks, n, refills, next);
      CountAppend(pool, FreshKeys(next, count), k);
      CountFresh(next, count, k);
      if pool' != [] {
        var last := pool'[|pool'| - 1];
        CountAppend(opks, [last], k);
        CountOne(last, k);
        TopUpConserves(pool'[..|pool'| - 1], opks + [last], n - 1,
                       if refills == [] then [] else refills[1..], next + count, k);
      }
    }
  }

  lemma TopUpNothing(pool: seq<Prekey>, opks: seq<Prekey>, refills: seq<nat>, next: nat)
    ensures TopUp(pool, opks, 0, refills, next) == Refilled(pool, opks, next)
  {
  }

  lemma {:induction false} TopUpGrows(pool: seq<Prekey>, opks: seq<Prekey>, n: nat, refills: seq<nat>, next: nat)
    ensures opks <= TopUp(pool, opks, n, refills, next).opks
    decreases n
  {
    hide FreshKeys;
    if n > 0 {
      var count := if refills == [] then 0 else refills[0];
      var pool' := pool + FreshKeys(next, count);
      if pool' != [] {
        TopUpGrows(pool'[..|pool'| - 1], opks + [pool'[|pool'| - 1]], n - 1,
                   if refills == [] then [] else refills[1..], next + count);
      }
    }
  }

  lemma CountOne(x: Prekey, k: Prekey)
    ensures Count([x], k) == if x == k then 1 else 0
  {
    assert [x][..0] == [];
  }

  /** Whatever happens, the copies of a key grow only when it is generated. */
  lemma HandleConserves(s: State, e: Event, k: Prekey)
    ensures var s' := Handle(s, e);
      && s.next <= s'.next
      && Copies(s', k) <= Copies(s, k) + Generated(k, s.next, s'.next)
      && (!e.Elsewhere? ==> Copies(s', k) == Copies(s, k) + Generated(k, s.next, s'.next))
  {
    hide FreshKeys, HandleFetch;
    match e
    case Fill(count) =>
      CountAppend(s.pool, FreshKeys(s.next, count), k);
      CountFresh(s.next, count, k);
    case Take =>
      if s.pool != [] {
        CountAppend(s.gone, [s.pool[|s.pool| - 1]], k);
        CountOne(s.pool[|s.pool| - 1], k);
      }
    case Drain => CountAppend(s.gone, s.pool, k);
    case Publish(opks, pqs) =>
      CountAppend(s.gone, InBundle(s.bundle), k);
      CountAppend(FreshKeys(s.next, opks), FreshKeys(s.next + opks, pqs), k);
      CountFresh(s.next, opks, k);
      CountFresh(s.next + opks, pqs, k);
    case Fetch(refills) => FetchConserves(s, refills, k);
    case Elsewhere(_) =>
  }

  lemma FetchConserves(s: State, refills: seq<nat>, k: Prekey)
    ensures var s' := HandleFetch(s, refills);
      s.next <= s'.next && Copies(s', k) == Copies(s, k) + Generated(k, s.next, s'.next)
  {
    hide TopUp, Count;
    if s.bundle.Some? {
      var b := s.bundle.value;
      var f := FetchFrom(s.pool, b, s.next, refills);
      var rest := b.opks[|f.opk|..];
      assert b.opks == f.opk + rest && b.pqs == f.opq + f.bundle.pqs;
      CountAppend(f.opk, rest, k);
      CountAppend(f.opq, f.bundle.pqs, k);
      CountAppend(b.opks, b.pqs, k);
      CountAppend(f.bundle.opks, f.bundle.pqs, k);
      CountAppend(s.served, f.opk, k);
      CountAppend(s.servedPq, f.opq, k);
      if |rest| < BUNDLE_LOW {
        TopUpConserves(s.pool, rest, BUNDLE_LOW - |rest|, refills, s.next, k);
      }
    }
  }

  ghost predicate InOrder(s: State) {
    if s.bundle.Some? then s.entered == s.left + s.bundle.value.opks else s.entered == s.left == []
  }

  lemma FetchInOrder(s: State, refills: seq<nat>)
    requires InOrder(s)
    ensures InOrder(HandleFetch(s, refills))
  {
    hide TopUp;
    if s.bundle.Some? {
      var b := s.bundle.value;
      var f := FetchFrom(s.pool, b, s.next, refills);
      var rest := b.opks[|f.opk|..];
      assert b.opks == f.opk + rest;
      if |rest| < BUNDLE_LOW { TopUpGrows(s.pool, rest, BUNDLE_LOW - |rest|, refills, s.next); }
      assert f.bundle.opks == rest + f.bundle.opks[|rest|..];
      assert s.left + f.opk + f.bundle.opks == s.left + b.opks + f.bundle.opks[|rest|..];
    }
  }

  lemma HandleInOrder(s: State, e: Event)
    requires InOrder(s)
    ensures InOrder(Handle(s, e))
  {
    hide HandleFetch, FreshKeys;
    if e.Fetch? { FetchInOrder(s, e.refills); }
  }

  /** Over any interleaving a key is in at most one place, once, and only after it was generated. */
  lemma {:induction false} OneCopy(next: nat, es: seq<Event>, k: Prekey)
    ensures var s := Run(next, es); Copies(s, k) <= (if k.id < s.next then 1 else 0)
    ensures InOrder(Run(next, es))
  {
    hide Handle;
    if es != [] {
      OneCopy(next, es[..|es| - 1], k);
      HandleConserves(Run(next, es[..|es| - 1]), es[|es| - 1], k);
      HandleInOrder(Run(next, es[..|es| - 1]), es[|es| - 1]);
    }
  }

  lemma NoneTwice(ks: seq<Prekey>, i: nat, j: nat)
    requires i < j < |ks| && Count(ks, ks[i]) <= 1
    ensures ks[i] != ks[j]
  {
    var k := ks[i];
    CountAppend(ks[..j], ks[j..], k);
    assert ks == ks[..j] + ks[j..];
    CountIn(ks[..j], k);
    CountIn(ks[j..], k);
    assert k in ks[..j] && ks[j] in ks[j..];
  }

  /**
    Over any interleaving: no key, of either kind, is served to two fetches; no served key is
    still in the bundle or the pool, and no key is in both; and since the last publish keys
    have left the bundle in the order they entered it.
   */
  lemma SingleUse(next: nat, es: seq<Event>)
    ensures var s := Run(next, es);
      && (forall i, j :: 0 <= i < j < |s.served| ==> s.served[i] != s.served[j])
      && (forall i, j :: 0 <= i < j < |s.servedPq| ==> s.servedPq[i] != s.servedPq[j])
      && (forall k :: k in s.served || k in s.servedPq ==> k !in s.pool && k !in InBundle(s.bundle))
      && (forall k :: k in s.pool ==> k !in InBundle(s.bundle))
      && s.left <= s.entered
      && (s.bundle.Some? ==> s.entered[|s.left|..] == s.bundle.value.opks)
  {
    hide Run;
    var s := Run(next, es);
    OneCopy(next, es, Prekey(0));
    forall i, j | 0 <= i < j < |s.served| ensures s.served[i] != s.served[j] {
      OneCopy(next, es, s.served[i]);
      NoneTwice(s.served, i, j);
    }
    forall i, j | 0 <= i < j < |s.servedPq| ensures s.servedPq[i] != s.servedPq[j] {
      OneCopy(next, es, s.servedPq[i]);
      NoneTwice(s.servedPq, i, j);
    }
    forall k
      ensures k in s.served || k in s.servedPq ==> k !in s.pool && k !in InBundle(s.bundle)
      ensures k in s.pool ==> k !in InBundle(s.bundle)
    {
      OneCopy(next, es, k);
      CountIn(s.served, k);
      CountIn(s.servedPq, k);
      CountIn(s.pool, k);
      CountIn(InBundle(s.bundle), k);
    }
  }

  lemma {:induction false} TopUpSize(pool: seq<Prekey>, opks: seq<Prekey>, n: nat, next: nat)
    ensures var r := TopUp(pool, opks, n, [], next);
      |r.opks| == |opks| + Min(n, |pool|) && r.pool == pool[..|pool| - Min(n, |pool|)]
    decreases n
  {
    if n > 0 {
      assert pool + FreshKeys(next, 0) == pool;
      if pool != [] {
        TopUpSize(pool[..|pool| - 1], opks + [pool[|pool| - 1]], n - 1, next);
      }
    }
  }

  /** A fetch serves the oldest key of each kind, if there is one, and keeps the others in
      order. One that leaves `remaining` keys, fewer than 20, tops the bundle up to 20 or to
      what the pool allows, when the pool is not being refilled meanwhile. */
  lemma FetchTopsUp(pool: seq<Prekey>, b: Bundle, next: nat)
    ensures
      var f := FetchFrom(pool, b, next, []);
      var remaining := if b.opks == [] then 0 else |b.opks| - 1;
      && |f.bundle.opks| == (if remaining < BUNDLE_LOW then Min(BUNDLE_LOW, remaining + |pool|) else remaining)
      && |f.pool| + |f.bundle.opks| == |pool| + remaining
      && f.opk + f.bundle.opks[..remaining] == b.opks && (b.opks != [] ==> |f.opk| == 1)
      && f.opq + f.bundle.pqs == b.pqs && (b.pqs != [] ==> |f.opq| == 1)
  {
    var rest := b.opks[if b.opks == [] then 0 else 1..];
    if |rest| < BUNDLE_LOW {
      TopUpSize(pool, rest, BUNDLE_LOW - |rest|, next);
      TopUpGrows(pool, rest, BUNDLE_LOW - |rest|, [], next);
    }
  }

  /** A run of fetches. */
  function Fetches(s: State, fills: seq<seq<nat>>): State {
    if fills == [] then s else HandleFetch(Fetches(s, fills[..|fills| - 1]), fills[|fills| - 1])
  }

  /** A fetch takes the first key of the bundle and adds behind the others. */
  lemma FetchTakesFirst(s: State, refills: seq<nat>)
    requires s.bundle.Some? && s.bundle.value.opks != []
    ensures var s', opks := HandleFetch(s, refills), s.bundle.value.opks;
      s'.served == s.served + [opks[0]] && s'.bundle.Some? && opks[1..] <= s'.bundle.value.opks
  {
    hide TopUp;
    var rest := s.bundle.value.opks[1..];
    if |rest| < BUNDLE_LOW { TopUpGrows(s.pool, rest, BUNDLE_LOW - |rest|, refills, s.next); }
  }

  /**
    What publishing is for. Whatever the state, after a bundle of `opks` new keys is published
    the next fetches, up to that many, serve exactly those keys in order, however the pool is
    refilled meanwhile. The keys of the bundle before are out of circulation, and the pool is
    untouched.
   */
  lemma {:induction false} PublishServes(s: State, opks: nat, pqs: nat, fills: seq<seq<nat>>)
    requires |fills| <= opks
    ensures
      var published := Handle(s, Publish(opks, pqs));
      var after := Fetches(published, fills);
      && published.pool == s.pool && published.gone == s.gone + InBundle(s.bundle)
      && after.served == s.served + FreshKeys(s.next, |fills|)
      && after.bundle.Some? && FreshKeys(s.next, opks)[|fills|..] <= after.bundle.value.opks
  {
    hide HandleFetch;
    var keys := FreshKeys(s.next, opks);
    if fills != [] {
      var front := fills[..|fills| - 1];
      PublishServes(s, opks, pqs, front);
      var before := Fetches(Handle(s, Publish(opks, pqs)), front);
      FetchTakesFirst(before, fills[|fills| - 1]);
      assert before.bundle.value.opks[0] == keys[|front|..][0] == Prekey(s.next + |front|);
      assert keys[|fills|..] == keys[|front|..][1..] <= before.bundle.value.opks[1..];
      assert FreshKeys(s.next, |fills|) == FreshKeys(s.next, |front|) + [Prekey(s.next + |front|)];
    }
  }
}
