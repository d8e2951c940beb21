/** Lists as several of the modules use them: removal by position, and keeping the newest. */
module Lists {

  function Remove<T>(list: seq<T>, i: nat): seq<T>
    requires i < |list|
  {
    list[..i] + list[i + 1..]
  }

  /** By how many elements a list is longer than `n`. */
  function Excess<T>(list: seq<T>, n: nat): nat {
    if |list| > n then |list| - n else 0
  }

  /** The newest `n`: the end of the list. */
  function Newest<T>(list: seq<T>, n: nat): seq<T> {
    list[Excess(list, n)..]
  }

  /** Trimming early and again at the end keeps what trimming once at the end keeps. */
  lemma NewestSplit<T>(list: seq<T>, rest: seq<T>, n: nat)
    ensures Newest(Newest(list, n) + rest, n) == Newest(list + rest, n)
  {
    var e := Excess(list, n);
    assert list + rest == list[..e] + (Newest(list, n) + rest);
  }

  lemma NewestAppend<T>(list: seq<T>, x: T, n: nat)
    requires n >= 1
    ensures Newest(Newest(list, n), n - 1) + [x] == Newest(list + [x], n)
  {
  }
}
