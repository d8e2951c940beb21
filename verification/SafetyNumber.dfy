/**
  The safety number: twelve five-digit groups drawn from a hash stream by rejection sampling.
 */
module SafetyNumber {
  import opened Codec
  import opened Envelope

  const MODULUS := 100_000
  const MAX_ACCEPTED := MAX_UINT32 / MODULUS * MODULUS
  const GROUPS := 12
  const WINDOWS := 8        // four-byte windows in one hash
  const MAX_HASHES := 1001  // hashes before the fallback takes every window

  // ---------------------------------------------------------------- sorting the two keys

  predicate Less(a: Bytes, b: Bytes) {
    b != [] && (a == [] || a[0] < b[0] || (a[0] == b[0] && Less(a[1..], b[1..])))
  }

  function SortedData(a: Bytes, b: Bytes): Bytes {
    if Less(b, a) then b + a else a + b
  }

  lemma {:induction false} LessTotal(a: Bytes, b: Bytes)
    ensures !(Less(a, b) && Less(b, a))
    ensures !Less(a, b) && !Less(b, a) ==> a == b
  {
    if a != [] && b != [] && a[0] == b[0] {
      LessTotal(a[1..], b[1..]);
      assert a == [a[0]] + a[1..] && b == [b[0]] + b[1..];
    }
  }

  /** Lexicographic order, said without recursion: `a` is a prefix of `b`, or smaller at the
      first place where they differ. */
  ghost predicate Precedes(a: Bytes, b: Bytes) {
    a <= b || exists n: nat :: DiffersAt(a, b, n) && a[n] < b[n]
  }

  predicate DiffersAt(a: Bytes, b: Bytes, n: nat) {
    n < |a| && n < |b| && a[..n] == b[..n] && a[n] != b[n]
  }

  lemma {:induction false} NotLess(a: Bytes, b: Bytes)
    requires !Less(b, a)
    ensures Precedes(a, b)
  {
    if a != [] {
      if a[0] < b[0] {
        assert DiffersAt(a, b, 0);
      } else {
        NotLess(a[1..], b[1..]);
        if a[1..] <= b[1..] {
          assert a == [a[0]] + a[1..] && b[..|a|] == [b[0]] + b[1..][..|a| - 1];
        } else {
          var n: nat :| DiffersAt(a[1..], b[1..], n) && a[1..][n] < b[1..][n];
          assert a[..n + 1] == [a[0]] + a[1..][..n] && b[..n + 1] == [b[0]] + b[1..][..n];
          assert DiffersAt(a, b, n + 1) && a[n + 1] < b[n + 1];
        }
      }
    }
  }

  /** The data are the two keys, one after the other, the one that comes first in lexicographic
      order in front. */
  lemma SortedOrder(a: Bytes, b: Bytes)
    ensures (SortedData(a, b) == a + b && Precedes(a, b)) || (SortedData(a, b) == b + a && Precedes(b, a))
  {
    LessTotal(a, b);
    if Less(b, a) { NotLess(b, a); } else { NotLess(a, b); }
  }

  /** For keys of one length the data tell which two keys they were made of: substituting either
      key changes what is hashed. */
  lemma SortedDistinguishes(a: Bytes, b: Bytes, c: Bytes, d: Bytes)
    requires |a| == |b| == |c| == |d|
    ensures SortedData(a, b) == SortedData(c, d) <==> (a == c && b == d) || (a == d && b == c)
  {
    var x, y := SortedData(a, b), SortedData(c, d);
    LessTotal(a, b);
    LessTotal(c, d);
    if x == y {
      assert x[..|a|] == y[..|a|] && x[|a|..] == y[|a|..];
    }
  }

  // ---------------------------------------------------------------- the stream

  ghost predicate IsHash(sha256: Bytes -> Bytes) {
    forall b :: |sha256(b)| == 32
  }

  /** Window `n` of the stream of hashes of the data and a counter. */
  function Window(sha256: Bytes -> Bytes, data: Bytes, n: nat): (v: nat)
    requires IsHash(sha256) && n / WINDOWS < MAX_UINT32
    ensures v < MAX_UINT32
  {
    var h := sha256(data + PackUint32(n / WINDOWS));
    UnpackUint32(h[n % WINDOWS * 4..n % WINDOWS * 4 + 4])
  }

  /** The residues of the accepted windows among the first `n`. */
  function Accepted(sha256: Bytes -> Bytes, data: Bytes, n: nat): (g: seq<nat>)
    requires IsHash(sha256) && n <= MAX_UINT32
    ensures |g| <= n && forall i :: 0 <= i < |g| ==> g[i] < MODULUS
  {
    if n == 0 then []
    else
      var v := Window(sha256, data, n - 1);
      Accepted(sha256, data, n - 1) + if v < MAX_ACCEPTED then [v % MODULUS] else []
  }

  /** The residues of all windows from `from` to `until`. */
  function Unfiltered(sha256: Bytes -> Bytes, data: Bytes, from: nat, until: nat): (g: seq<nat>)
    requires IsHash(sha256) && from <= until <= MAX_UINT32
    ensures |g| == until - from && forall i :: 0 <= i < |g| ==> g[i] < MODULUS
    decreases until
  {
    if from == until then []
    else Unfiltered(sha256, data, from, until - 1) + [Window(sha256, data, until - 1) % MODULUS]
  }

  function Groups(sha256: Bytes -> Bytes, data: Bytes): (g: seq<nat>)
    requires IsHash(sha256)
    ensures |g| == GROUPS && forall i :: 0 <= i < |g| ==> g[i] < MODULUS
  {
    var n := MAX_HASHES * WINDOWS;
    (Accepted(sha256, data, n) + Unfiltered(sha256, data, n, n + GROUPS))[..GROUPS]
  }

  lemma {:induction false} AcceptedGrows(sha256: Bytes -> Bytes, data: Bytes, m: nat, n: nat)
    requires IsHash(sha256) && m <= n <= MAX_UINT32
    ensures Accepted(sha256, data, m) <= Accepted(sha256, data, n)
  {
    hide Window, IsHash;
    if m < n { AcceptedGrows(sha256, data, m, n - 1); }
  }

  /** The positions of the windows below the largest multiple of 100000. */
  ghost function Hits(sha256: Bytes -> Bytes, data: Bytes, n: nat): set<nat>
    requires IsHash(sha256) && n <= MAX_UINT32
  {
    set k: nat | k < n && Window(sha256, data, k) < MAX_ACCEPTED
  }

  /** There is one residue for each window below the bound, and it stands behind those of the
      windows before it. */
  lemma {:induction false} AcceptedCount(sha256: Bytes -> Bytes, data: Bytes, n: nat)
    requires IsHash(sha256) && n <= MAX_UINT32
    ensures |Accepted(sha256, data, n)| == |Hits(sha256, data, n)|
  {
    hide Window, IsHash;
    if n > 0 {
      AcceptedCount(sha256, data, n - 1);
      var before := Hits(sha256, data, n - 1);
      assert Hits(sha256, data, n) == before + if Window(sha256, data, n - 1) < MAX_ACCEPTED then {n - 1} else {};
    }
  }

  lemma AcceptedAt(sha256: Bytes -> Bytes, data: Bytes, k: nat, n: nat)
    requires IsHash(sha256) && k < n <= MAX_UINT32 && k in Hits(sha256, data, n)
    ensures var i := |Hits(sha256, data, k)|;
      i < |Accepted(sha256, data, n)| && Accepted(sha256, data, n)[i] == Window(sha256, data, k) % MODULUS
  {
    hide Window, IsHash;
    AcceptedCount(sha256, data, k);
    AcceptedGrows(sha256, data, k + 1, n);
  }

  // ---------------------------------------------------------------- the loops

  /** One hash of the main loop: takes accepted windows until there are twelve groups. */
  lemma WindowAt(sha256: Bytes -> Bytes, data: Bytes, counter: nat, i: nat)
    requires IsHash(sha256) && counter < MAX_UINT32 && i < WINDOWS
    ensures Window(sha256, data, counter * WINDOWS + i) ==
      UnpackUint32(sha256(data + PackUint32(counter))[4 * i..4 * i + 4])
  {
  }

  /** The eight windows of a hash, put back together, are the hash of the data followed by the
      counter: every window is a different part of the stream. */
  lemma WindowsTile(sha256: Bytes -> Bytes, data: Bytes, counter: nat, i: nat)
    requires IsHash(sha256) && counter < MAX_UINT32 && i < WINDOWS
    ensures PackUint32(Window(sha256, data, counter * WINDOWS + i)) ==
      sha256(data + PackUint32(counter))[4 * i..4 * i + 4]
  {
    WindowAt(sha256, data, counter, i);
    PackUnpack(sha256(data + PackUint32(counter))[4 * i..4 * i + 4]);
  }

  method TakeAccepted(sha256: Bytes -> Bytes, data: Bytes, groups: seq<nat>, counter: nat) returns (r: seq<nat>)
    requires IsHash(sha256) && counter < MAX_HASHES
    requires |groups| < GROUPS && groups == Accepted(sha256, data, counter * WINDOWS)
    ensures |r| <= GROUPS
    ensures |r| < GROUPS ==> r == Accepted(sha256, data, (counter + 1) * WINDOWS)
    ensures |r| == GROUPS ==> r <= Accepted(sha256, data, (counter + 1) * WINDOWS)
  {
    hide Window;
    r := groups;
    var h := sha256(data + PackUint32(counter));
    for i := 0 to WINDOWS
      invariant |r| < GROUPS && r == Accepted(sha256, data, counter * WINDOWS + i)
    {
      var v := UnpackUint32(h[4 * i..4 * i + 4]);
      WindowAt(sha256, data, counter, i);
      if v < MAX_ACCEPTED {
        r := r + [v % MODULUS];
        if |r| == GROUPS {
          AcceptedGrows(sha256, data, counter * WINDOWS + i + 1, (counter + 1) * WINDOWS);
          return;
        }
      }
    }
  }

  /** The fallback: takes every window. Two hashes are always enough. */
  method TakeUnfiltered(sha256: Bytes -> Bytes, data: Bytes, groups: seq<nat>) returns (r: seq<nat>, counter: nat)
    requires IsHash(sha256) && |groups| <= GROUPS
    ensures counter <= MAX_HASHES + 2
    ensures r == (groups + Unfiltered(sha256, data, MAX_HASHES * WINDOWS, MAX_HASHES * WINDOWS + GROUPS))[..GROUPS]
  {
    hide Window, Unfiltered;
    var start := MAX_HASHES * WINDOWS;
    ghost var all := Unfiltered(sha256, data, start, start + GROUPS);
    r, counter := groups, MAX_HASHES;
    while |r| < GROUPS
      invariant MAX_HASHES <= counter && |groups| <= |r| <= GROUPS
      invariant |r| < GROUPS ==> |r| - |groups| == (counter - MAX_HASHES) * WINDOWS
      invariant counter <= MAX_HASHES + 2
      invariant r == groups + all[..|r| - |groups|]
      decreases GROUPS - |r|
    {
      var h := sha256(data + PackUint32(counter));
      var i := 0;
      while i < WINDOWS && |r| < GROUPS
        invariant 0 <= i <= WINDOWS && |groups| <= |r| <= GROUPS
        invariant |r| - |groups| == (counter - MAX_HASHES) * WINDOWS + i
        invariant r == groups + all[..|r| - |groups|]
      {
        UnfilteredAt(sha256, data, start, start + GROUPS, |r| - |groups|);
        WindowAt(sha256, data, counter, i);
        r := r + [UnpackUint32(h[4 * i..4 * i + 4]) % MODULUS];
        i := i + 1;
      }
      counter := counter + 1;
    }
  }

  lemma {:induction false} UnfilteredAt(sha256: Bytes -> Bytes, data: Bytes, from: nat, until: nat, i: nat)
    requires IsHash(sha256) && from + i < until <= MAX_UINT32
    ensures Unfiltered(sha256, data, from, until)[i] == Window(sha256, data, from + i) % MODULUS
    decreases until
  {
    hide Window, IsHash;
    if from + i < until - 1 { UnfilteredAt(sha256, data, from, until - 1, i); }
  }

  /** At most 1003 hashes, whatever the hash function. */
  method ComputeGroups(sha256: Bytes -> Bytes, key1: Bytes, key2: Bytes) returns (groups: seq<nat>, counter: nat)
    requires IsHash(sha256)
    ensures groups == Groups(sha256, SortedData(key1, key2))
    ensures counter <= MAX_HASHES + 2
  {
    hide Window, IsHash, Accepted;
    var data := SortedData(key1, key2);
    ghost var limit := MAX_HASHES * WINDOWS;
    groups, counter := [], 0;
    while |groups| < GROUPS
      invariant counter <= MAX_HASHES && |groups| <= GROUPS
      invariant |groups| < GROUPS ==> counter < MAX_HASHES && groups == Accepted(sha256, data, counter * WINDOWS)
      invariant |groups| == GROUPS ==> groups == Groups(sha256, data)
      decreases MAX_HASHES - counter
    {
      groups := TakeAccepted(sha256, data, groups, counter);
      counter := counter + 1;
      AcceptedGrows(sha256, data, counter * WINDOWS, limit);
      assert |groups| == GROUPS ==> groups == Groups(sha256, data);
      if counter >= MAX_HASHES {
        groups, counter := TakeUnfiltered(sha256, data, groups);
        break;
      }
    }
  }

  // ---------------------------------------------------------------- properties

  /** The order of the keys does not matter. */
  lemma Symmetric(sha256: Bytes -> Bytes, key1: Bytes, key2: Bytes)
    requires IsHash(sha256)
    ensures Groups(sha256, SortedData(key1, key2)) == Groups(sha256, SortedData(key2, key1))
  {
    LessTotal(key1, key2);
  }

  /** When the first `n` windows accept twelve, the groups are those twelve. */
  lemma FirstAccepted(sha256: Bytes -> Bytes, data: Bytes, n: nat)
    requires IsHash(sha256) && n <= MAX_HASHES * WINDOWS
    requires |Accepted(sha256, data, n)| >= GROUPS
    ensures Groups(sha256, data) == Accepted(sha256, data, n)[..GROUPS]
  {
    AcceptedGrows(sha256, data, n, MAX_HASHES * WINDOWS);
  }

  function Preimages(residue: nat, multiples: nat): set<nat> {
    set v: nat | v < multiples * MODULUS && v % MODULUS == residue
  }

  lemma LastPreimage(residue: nat, multiples: nat, v: nat)
    requires residue < MODULUS && multiples > 0
    ensures v < multiples * MODULUS && v % MODULUS == residue <==>
      (v < (multiples - 1) * MODULUS && v % MODULUS == residue) || v == (multiples - 1) * MODULUS + residue
  {
  }

  lemma {:induction false} PreimageCount(residue: nat, multiples: nat)
    requires residue < MODULUS
    ensures |Preimages(residue, multiples)| == multiples
  {
    if multiples > 0 {
      PreimageCount(residue, multiples - 1);
      var last := (multiples - 1) * MODULUS + residue;
      forall v: nat
        ensures v in Preimages(residue, multiples) <==> v in Preimages(residue, multiples - 1) || v == last
      {
        LastPreimage(residue, multiples, v);
      }
      assert Preimages(residue, multiples) == Preimages(residue, multiples - 1) + {last};
    }
  }

  /** No bias: every residue has the same number of accepted 32-bit values. */
  lemma NoBias(residue: nat)
    requires residue < MODULUS
    ensures |set v: nat | v < MAX_ACCEPTED && v % MODULUS == residue| == 42949
  {
    PreimageCount(residue, 42949);
    assert Preimages(residue, 42949) == set v: nat | v < MAX_ACCEPTED && v % MODULUS == residue;
  }

  // ---------------------------------------------------------------- the text

  method ComputeSafetyNumber(sha256: Bytes -> Bytes, key1: Bytes, key2: Bytes) returns (text: string)
    requires IsHash(sha256)
    ensures text == Render(Groups(sha256, SortedData(key1, key2)))
  {
    var groups, _ := ComputeGroups(sha256, key1, key2);
    text := Render(groups);
  }

  function Zfill(text: string, width: nat): string
    decreases width - |text|
  {
    if |text| < width then Zfill("0" + text, width) else text
  }

  /** The groups, five digits each, separated by spaces. */
  function Render(groups: seq<nat>): string {
    if groups == [] then ""
    else if |groups| == 1 then Zfill(DecimalNat(groups[0]), 5)
    else Zfill(DecimalNat(groups[0]), 5) + " " + Render(groups[1..])
  }

  function PowerOfTen(k: nat): nat {
    if k == 0 then 1 else 10 * PowerOfTen(k - 1)
  }

  lemma {:induction false} DigitCount(n: nat, k: nat)
    requires k >= 1 && n < PowerOfTen(k)
    ensures |DecimalNat(n)| <= k
  {
    if k == 1 {
      assert PowerOfTen(0) == 1;
    } else if n >= 10 {
      DigitCount(n / 10, k - 1);
    }
  }

  lemma {:induction false} ParseZero(text: string)
    ensures ParseNat("0" + text) == ParseNat(text)
  {
    if text == "" {
      assert "0" + text == "0";
      assert "0"[..0] == "";
    } else {
      ParseZero(text[..|text| - 1]);
      assert ("0" + text)[..|text|] == "0" + text[..|text| - 1];
    }
  }

  lemma {:induction false} ZfillKeepsValue(text: string, width: nat)
    ensures ParseNat(Zfill(text, width)) == ParseNat(text)
    ensures |Zfill(text, width)| == if |text| < width then width else |text|
    decreases width - |text|
  {
    if |text| < width {
      ZfillKeepsValue("0" + text, width);
      ParseZero(text);
    }
  }

  lemma GroupText(n: nat)
    requires n < MODULUS
    ensures |Zfill(DecimalNat(n), 5)| == 5 && ParseNat(Zfill(DecimalNat(n), 5)) == n
  {
    assert PowerOfTen(5) == MODULUS by { assert PowerOfTen(3) == 1000; }
    DigitCount(n, 5);
    NatRoundTrip(n);
    ZfillKeepsValue(DecimalNat(n), 5);
  }

  /** Group number `k` of the text is five characters that read back as the group, and a space
      stands between two groups. */
  lemma {:induction false} RenderAt(groups: seq<nat>, k: nat)
    requires k < |groups| && forall i :: 0 <= i < |groups| ==> groups[i] < MODULUS
    ensures |Render(groups)| == 6 * |groups| - 1
    ensures ParseNat(Render(groups)[6 * k..6 * k + 5]) == groups[k]
    ensures k + 1 < |groups| ==> Render(groups)[6 * k + 5] == ' '
  {
    GroupText(groups[0]);
    RenderInjective(groups, groups);
    if |groups| > 1 { RenderInjective(groups[1..], groups[1..]); }
    if k > 0 {
      RenderAt(groups[1..], k - 1);
      assert Render(groups)[6..] == Render(groups[1..]);
      assert Render(groups)[6 * k..6 * k + 5] == Render(groups)[6..][6 * (k - 1)..6 * (k - 1) + 5];
    } else {
      assert Render(groups)[..5] == Zfill(DecimalNat(groups[0]), 5);
    }
  }

  /** Two safety numbers read the same only if all their groups are the same; a safety number
      of twelve groups has 71 characters. */
  lemma {:induction false} RenderInjective(a: seq<nat>, b: seq<nat>)
    requires |a| == |b| >= 1
    requires forall i :: 0 <= i < |a| ==> a[i] < MODULUS && b[i] < MODULUS
    ensures |Render(a)| == 6 * |a| - 1
    ensures Render(a) == Render(b) ==> a == b
  {
    GroupText(a[0]);
    GroupText(b[0]);
    if |a| > 1 {
      RenderInjective(a[1..], b[1..]);
      assert Render(a)[..5] == Zfill(DecimalNat(a[0]), 5) && Render(a)[6..] == Render(a[1..]);
      assert Render(b)[..5] == Zfill(DecimalNat(b[0]), 5) && Render(b)[6..] == Render(b[1..]);
      assert a == [a[0]] + a[1..] && b == [b[0]] + b[1..];
    }
  }
}
