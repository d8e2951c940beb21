/**
  The two sliding-window limiters: uploads per uploader, and failed logins per client address.
  Times are readings of a monotone clock, passed in by the caller.
 */
module Limiters {
  import opened Wrappers

  const WINDOW := 300.0
  const MAX_UPLOADS := 50
  const MAX_FAILURES := 5
  const LOCKOUT := 900.0

  datatype Client = Client(name: nat)

  function Times(m: map<Client, seq<real>>, c: Client): seq<real> {
    if c in m then m[c] else []
  }

  /** Drops the leading times more than 300 seconds old. */
  function Prune(q: seq<real>, now: real): seq<real> {
    if q != [] && now - q[0] > WINDOW then Prune(q[1..], now) else q
  }

  ghost predicate Sorted(h: seq<real>) {
    forall i, j :: 0 <= i < j < |h| ==> h[i] <= h[j]
  }

  method PruneLoop(q: seq<real>, now: real) returns (r: seq<real>)
    ensures r == Prune(q, now)
  {
    r := q;
    while r != [] && now - r[0] > WINDOW
      invariant Prune(r, now) == Prune(q, now)
    {
      r := r[1..];
    }
  }

  /** What is left of a sorted list is exactly its part in the last 300 seconds. */
  lemma {:induction false} PruneIsSuffix(q: seq<real>, now: real)
    requires Sorted(q)
    ensures var r := Prune(q, now);
      && |r| <= |q| && r == q[|q| - |r|..]
      && (forall i :: 0 <= i < |q| - |r| ==> now - q[i] > WINDOW)
      && (forall i :: 0 <= i < |r| ==> now - r[i] <= WINDOW)
  {
    if q != [] && now - q[0] > WINDOW {
      PruneIsSuffix(q[1..], now);
    } else if q != [] {
      assert Prune(q, now) == q == q[0..];
    }
  }

  // ---------------------------------------------------------------- uploads

  datatype Upload = Upload(uploader: Client, now: real)

  datatype Checked = Checked(q: seq<real>, accepted: bool)

  function Check(q: seq<real>, now: real): Checked {
    var recent := Prune(q, now);
    if |recent| >= MAX_UPLOADS then Checked(recent, false) else Checked(recent + [now], true)
  }

  class UploadRateLimiter {
    var uploads: map<Client, seq<real>>

    constructor ()
      ensures uploads == map[]
    {
      uploads := map[];
    }

    method CheckAndRecord(uploader: Client, now: real) returns (ok: bool)
      modifies this
      ensures uploader in uploads && Checked(uploads[uploader], ok) == Check(Times(old(uploads), uploader), now)
      ensures forall c :: c != uploader ==> Times(uploads, c) == Times(old(uploads), c)
    {
      var q := PruneLoop(Times(uploads, uploader), now);
      uploads := uploads[uploader := q];
      if |q| >= MAX_UPLOADS {
        return false;
      }
      uploads := uploads[uploader := q + [now]];
      return true;
    }
  }

  /** One uploader's queue, the times of all its accepted uploads, and the last reading. */
  datatype UploadState = UploadState(q: seq<real>, accepted: seq<real>, clock: real)

  function UploadStep(s: UploadState, c: Client, u: Upload): UploadState {
    if u.uploader != c then s.(clock := u.now)
    else
      var r := Check(s.q, u.now);
      UploadState(r.q, if r.accepted then s.accepted + [u.now] else s.accepted, u.now)
  }

  /** What the calls `us` leave for uploader `c`. */
  function UploadRun(us: seq<Upload>, c: Client): UploadState {
    if us == [] then UploadState([], [], 0.0) else UploadStep(UploadRun(us[..|us| - 1], c), c, us[|us| - 1])
  }

  ghost predicate Monotone(us: seq<Upload>) {
    && (forall i :: 0 <= i < |us| ==> 0.0 <= us[i].now)
    && (forall i, j :: 0 <= i < j < |us| ==> us[i].now <= us[j].now)
  }

  /** Accepted uploads fifty apart are more than 300 seconds apart. */
  ghost predicate Spaced(h: seq<real>, n: nat) {
    forall i, j :: 0 <= i && i + n <= j < |h| ==> h[j] - h[i] > WINDOW
  }

  /** The queue is the end of the accepted list; what was dropped is out of every later window. */
  ghost predicate QueueOk(s: UploadState) {
    && Sorted(s.accepted) && (forall i :: 0 <= i < |s.accepted| ==> s.accepted[i] <= s.clock)
    && |s.q| <= |s.accepted| && s.q == s.accepted[|s.accepted| - |s.q|..]
    && (forall i :: 0 <= i < |s.accepted| - |s.q| ==> s.clock - s.accepted[i] > WINDOW)
    && Spaced(s.accepted, MAX_UPLOADS)
  }

  /** How many of the accepted uploads lie in the 300 seconds up to `now`. */
  function Recent(h: seq<real>, now: real): nat {
    |set i | 0 <= i < |h| && now - WINDOW <= h[i] <= now|
  }

  /** What pruning the end of a sorted list drops from the whole list. */
  lemma PruneTail(h: seq<real>, n: nat, clock: real, now: real)
    requires Sorted(h) && n <= |h| && clock <= now
    requires forall i :: 0 <= i < |h| - n ==> clock - h[i] > WINDOW
    ensures var kept := Prune(h[|h| - n..], now);
      && |kept| <= n && kept == h[|h| - |kept|..]
      && (forall i :: 0 <= i < |h| - |kept| ==> now - h[i] > WINDOW)
      && (forall i :: |h| - |kept| <= i < |h| ==> now - h[i] <= WINDOW)
  {
    var q := h[|h| - n..];
    PruneIsSuffix(q, now);
    var kept := Prune(q, now);
    forall i | 0 <= i < |h| - |kept| ensures now - h[i] > WINDOW {
      if i >= |h| - n { assert h[i] == q[i - (|h| - n)]; }
    }
    forall i | |h| - |kept| <= i < |h| ensures now - h[i] <= WINDOW {
      assert h[i] == kept[i - (|h| - |kept|)];
    }
  }

  lemma AppendSorted(h: seq<real>, now: real)
    requires Sorted(h) && forall i :: 0 <= i < |h| ==> h[i] <= now
    ensures Sorted(h + [now])
  {
  }

  /** Appending a time keeps the list spaced if the time `n` places back is out of the window. */
  lemma AppendSpaced(h: seq<real>, n: nat, now: real)
    requires Sorted(h) && Spaced(h, n) && (|h| >= n >= 1 ==> now - h[|h| - n] > WINDOW)
    requires n >= 1 && forall i :: 0 <= i < |h| ==> h[i] <= now
    ensures Sorted(h + [now]) && Spaced(h + [now], n)
  {
    var h' := h + [now];
    forall i, j | 0 <= i && i + n <= j < |h'| ensures h'[j] - h'[i] > WINDOW {
      if j == |h| && i < |h| - n { assert h[i] <= h[|h| - n]; }
    }
  }

  lemma UploadStepOk(s: UploadState, c: Client, u: Upload)
    requires QueueOk(s) && s.clock <= u.now
    ensures QueueOk(UploadStep(s, c, u)) && UploadStep(s, c, u).clock == u.now
  {
    hide Prune, Sorted, Spaced;
    if u.uploader == c {
      var h := s.accepted;
      PruneTail(h, |s.q|, s.clock, u.now);
      var kept := Prune(s.q, u.now);
      if |kept| < MAX_UPLOADS {
        AppendSpaced(h, MAX_UPLOADS, u.now);
        TailAppend(h, |kept|, u.now);
      }
    }
  }

  lemma {:induction false} UploadInvariant(us: seq<Upload>, c: Client)
    requires Monotone(us)
    ensures var s := UploadRun(us, c); QueueOk(s) && s.clock == if us == [] then 0.0 else us[|us| - 1].now
  {
    if us != [] {
      UploadInvariant(us[..|us| - 1], c);
      UploadStepOk(UploadRun(us[..|us| - 1], c), c, us[|us| - 1]);
    }
  }

  function Interval(from: int, n: nat): set<int> {
    if n == 0 then {} else Interval(from, n - 1) + {from + n - 1}
  }

  lemma {:induction false} IntervalSize(from: int, n: nat)
    ensures |Interval(from, n)| == n
    ensures forall i :: i in Interval(from, n) <==> from <= i < from + n
  {
    if n > 0 { IntervalSize(from, n - 1); }
  }

  lemma SubsetSize(a: set<int>, b: set<int>)
    requires a <= b
    ensures |a| <= |b|
  {
    assert b == a + (b - a);
  }

  /** In a spaced list, no closed window of 300 seconds holds more than `n` times. */
  lemma SpacedWindow(h: seq<real>, n: nat, from: real)
    requires Spaced(h, n)
    ensures |set i | 0 <= i < |h| && from <= h[i] <= from + WINDOW| <= n
  {
    var inside := set i | 0 <= i < |h| && from <= h[i] <= from + WINDOW;
    var m := 0;
    while m < |h| && m !in inside
      invariant forall i :: i in inside ==> m <= i
    {
      m := m + 1;
    }
    IntervalSize(m, n);
    forall i | i in inside ensures i in Interval(m, n) {
      assert m in inside && h[i] - h[m] <= WINDOW;
    }
    SubsetSize(inside, Interval(m, n));
  }

  /** At most 50 uploads of one uploader are accepted in any closed 300-second interval. */
  lemma UploadWindow(us: seq<Upload>, c: Client, from: real)
    requires Monotone(us)
    ensures var h := UploadRun(us, c).accepted;
      |set i | 0 <= i < |h| && from <= h[i] <= from + WINDOW| <= MAX_UPLOADS
  {
    UploadInvariant(us, c);
    SpacedWindow(UploadRun(us, c).accepted, MAX_UPLOADS, from);
  }

  /** The uploads of `c` that were let in, read off the calls alone: one is let in when fewer than
      50 of those let in before lie in the 300 seconds up to it. */
  function LetInUploads(us: seq<Upload>, c: Client): seq<real> {
    if us == [] then []
    else
      var before, u := LetInUploads(us[..|us| - 1], c), us[|us| - 1];
      if u.uploader == c && Recent(before, u.now) < MAX_UPLOADS then before + [u.now] else before
  }

  /** The limiter lets in exactly those. */
  lemma {:induction false} UploadsExactly(us: seq<Upload>, c: Client)
    requires Monotone(us)
    ensures UploadRun(us, c).accepted == LetInUploads(us, c)
  {
    hide Prune, Recent;
    if us != [] {
      var front, u := us[..|us| - 1], us[|us| - 1];
      UploadsExactly(front, c);
      UploadRefusedExactly(front, c, u.now);
    }
  }

  /** An upload is refused exactly when 50 accepted ones lie in the last 300 seconds. */
  lemma UploadRefusedExactly(us: seq<Upload>, c: Client, now: real)
    requires Monotone(us) && (us == [] || us[|us| - 1].now <= now) && 0.0 <= now
    ensures var s := UploadRun(us, c); !Check(s.q, now).accepted <==> Recent(s.accepted, now) >= MAX_UPLOADS
  {
    hide Prune, UploadRun, Spaced;
    UploadInvariant(us, c);
    var s := UploadRun(us, c);
    PruneTail(s.accepted, |s.q|, s.clock, now);
    var kept := Prune(s.q, now);
    var start := |s.accepted| - |kept|;
    hide *;
    IntervalSize(start, |kept|);
    assert (set i | 0 <= i < |s.accepted| && now - WINDOW <= s.accepted[i] <= now) == Interval(start, |kept|);
  }

  // ---------------------------------------------------------------- logins

  /** What the limiter holds for one address. */
  datatype Guard = Guard(failures: seq<real>, lockedUntil: Option<real>)

  datatype Verdict = Verdict(guard: Guard, locked: bool)

  /** An expired lockout clears both entries. A lock time of zero counts as none. */
  function IsLocked(g: Guard, now: real): Verdict {
    if g.lockedUntil.Some? && now < g.lockedUntil.value then Verdict(g, true)
    else if g.lockedUntil.Some? && g.lockedUntil.value != 0.0 then Verdict(Guard([], None), false)
    else Verdict(g, false)
  }

  function RecordFailure(g: Guard, now: real): Guard {
    var recent := Prune(g.failures + [now], now);
    Guard(recent, if |recent| >= MAX_FAILURES then Some(now + LOCKOUT) else g.lockedUntil)
  }

  class LoginRateLimiter {
    var failures: map<Client, seq<real>>
    var lockedUntil: map<Client, real>

    function GuardOf(c: Client): Guard
      reads this
    {
      Guard(Times(failures, c), if c in lockedUntil then Some(lockedUntil[c]) else None)
    }

    /** Nothing changes for other addresses. */
    twostate predicate OthersKept(c: Client)
      reads this
    {
      forall c' :: c' != c ==> GuardOf(c') == old(GuardOf(c'))
    }

    constructor ()
      ensures failures == map[] && lockedUntil == map[]
    {
      failures, lockedUntil := map[], map[];
    }

    method CheckLocked(c: Client, now: real) returns (locked: bool)
      requires 0.0 <= now
      modifies this
      ensures Verdict(GuardOf(c), locked) == IsLocked(old(GuardOf(c)), now) && OthersKept(c)
    {
      var until := if c in lockedUntil then lockedUntil[c] else 0.0;
      if now < until {
        return true;
      }
      if until != 0.0 {
        lockedUntil, failures := lockedUntil - {c}, failures - {c};
      }
      return false;
    }

    method Failure(c: Client, now: real)
      modifies this
      ensures GuardOf(c) == RecordFailure(old(GuardOf(c)), now) && OthersKept(c)
    {
      var q := PruneLoop(Times(failures, c) + [now], now);
      failures := failures[c := q];
      if |q| >= MAX_FAILURES {
        lockedUntil := lockedUntil[c := now + LOCKOUT];
      }
    }

    method Success(c: Client)
      modifies this
      ensures GuardOf(c) == Guard([], None) && OthersKept(c)
    {
      lockedUntil, failures := lockedUntil - {c}, failures - {c};
    }

    /** The login handler, for an address that logs in once at a time. */
    method HandleLogin(c: Client, l: Login, ghost s: LoginState) returns (locked: bool)
      requires 0.0 <= l.start && s.guard == GuardOf(c)
      modifies this
      ensures locked == IsLocked(s.guard, l.start).locked
      ensures GuardOf(c) == LoginStep(s, l).guard && OthersKept(c)
    {
      locked := CheckLocked(c, l.start);
      if locked {
        return;
      }
      if l.valid {
        Success(c);
      } else {
        Failure(c, l.end);
      }
    }
  }

  /** One login of the address: the check at `start`, and unless it is locked out, the outcome
      recorded at `end`. */
  datatype Login = Login(start: real, end: real, valid: bool)

  /** The guard, the failures recorded since the last success, and the last reading. */
  datatype LoginState = LoginState(guard: Guard, failed: seq<real>, clock: real)

  function LoginStep(s: LoginState, l: Login): LoginState {
    var v := IsLocked(s.guard, l.start);
    if v.locked then LoginState(v.guard, s.failed, l.start)
    else if l.valid then LoginState(Guard([], None), [], l.end)
    else LoginState(RecordFailure(v.guard, l.end), s.failed + [l.end], l.end)
  }

  function LoginRun(ls: seq<Login>): LoginState {
    if ls == [] then LoginState(Guard([], None), [], 0.0) else LoginStep(LoginRun(ls[..|ls| - 1]), ls[|ls| - 1])
  }

  /** Logins one after the other, by a clock that does not run backwards. */
  predicate InSequence(ls: seq<Login>) {
    ls == [] ||
      (InSequence(ls[..|ls| - 1]) && LoginRun(ls[..|ls| - 1]).clock <= ls[|ls| - 1].start <= ls[|ls| - 1].end)
  }

  /** The last five failures lie within 300 seconds. */
  predicate FiveRecent(h: seq<real>) {
    |h| >= MAX_FAILURES && h[|h| - 1] - h[|h| - MAX_FAILURES] <= WINDOW
  }

  ghost predicate GuardOk(s: LoginState) {
    var h, q := s.failed, s.guard.failures;
    && 0.0 <= s.clock && Sorted(h) && (forall i :: 0 <= i < |h| ==> 0.0 <= h[i] <= s.clock)
    && Spaced(h, MAX_FAILURES)
    && |q| <= |h| && q == h[|h| - |q|..]
    && (if s.guard.lockedUntil.Some? then
          FiveRecent(h) && s.guard.lockedUntil.value == h[|h| - 1] + LOCKOUT
        else
          && |q| < MAX_FAILURES
          && (forall i :: 0 <= i < |h| - |q| ==> s.clock - h[i] > WINDOW)
          && (FiveRecent(h) ==> s.clock >= h[|h| - 1] + LOCKOUT))
  }

  lemma FailureOk(s: LoginState, now: real)
    requires GuardOk(s) && s.guard.lockedUntil.None? && s.clock <= now
    ensures GuardOk(LoginState(RecordFailure(s.guard, now), s.failed + [now], now))
  {
    var h, q := s.failed, s.guard.failures;
    var h' := h + [now];
    hide Prune, Sorted, Spaced;
    AppendSorted(h, now);
    TailAppend(h, |q|, now);
    PruneTail(h', |q| + 1, now, now);
    AppendSpaced(h, MAX_FAILURES, now);
    FailureGuard(h', Prune(q + [now], now), now);
  }

  lemma TailAppend(h: seq<real>, n: nat, now: real)
    requires n <= |h|
    ensures (h + [now])[|h| + 1 - (n + 1)..] == h[|h| - n..] + [now]
  {
  }

  lemma FailureGuard(h: seq<real>, kept: seq<real>, now: real)
    requires h != [] && h[|h| - 1] == now && 0.0 <= now && forall i :: 0 <= i < |h| ==> 0.0 <= h[i] <= now
    requires Sorted(h) && Spaced(h, MAX_FAILURES) && |kept| <= MAX_FAILURES
    requires |kept| <= |h| && kept == h[|h| - |kept|..]
    requires forall i :: 0 <= i < |h| - |kept| ==> now - h[i] > WINDOW
    requires forall i :: |h| - |kept| <= i < |h| ==> now - h[i] <= WINDOW
    ensures GuardOk(LoginState(Guard(kept, if |kept| >= MAX_FAILURES then Some(now + LOCKOUT) else None), h, now))
  {
    hide Sorted, Spaced;
  }

  /** Checking keeps the guard in order, and what it leaves unlocked holds no lockout. */
  lemma CheckOk(s: LoginState, now: real)
    requires GuardOk(s) && s.clock <= now
    ensures var v := IsLocked(s.guard, now);
      GuardOk(LoginState(v.guard, s.failed, now)) && (!v.locked ==> v.guard.lockedUntil.None?)
  {
    hide Spaced;
  }

  lemma LoginStepOk(s: LoginState, l: Login)
    requires GuardOk(s) && s.clock <= l.start <= l.end
    ensures GuardOk(LoginStep(s, l))
  {
    hide RecordFailure, IsLocked;
    CheckOk(s, l.start);
    var v := IsLocked(s.guard, l.start);
    if !v.locked && !l.valid {
      FailureOk(LoginState(v.guard, s.failed, l.start), l.end);
    }
  }

  lemma {:induction false} LoginInvariant(ls: seq<Login>)
    requires InSequence(ls)
    ensures GuardOk(LoginRun(ls))
  {
    if ls != [] {
      LoginInvariant(ls[..|ls| - 1]);
      LoginStepOk(LoginRun(ls[..|ls| - 1]), ls[|ls| - 1]);
    }
  }

  /** At most five failures are recorded in any 300 seconds without a success between them. */
  lemma FailureWindow(ls: seq<Login>, from: real)
    requires InSequence(ls)
    ensures var h := LoginRun(ls).failed;
      |set i | 0 <= i < |h| && from <= h[i] <= from + WINDOW| <= MAX_FAILURES
  {
    LoginInvariant(ls);
    SpacedWindow(LoginRun(ls).failed, MAX_FAILURES, from);
  }

  /** An address is locked out exactly while its last five failures since a success lie within
      300 seconds and the last of them is less than 900 seconds old. */
  lemma LockedExactly(ls: seq<Login>, now: real)
    requires InSequence(ls) && LoginRun(ls).clock <= now
    ensures var s := LoginRun(ls);
      IsLocked(s.guard, now).locked <==> FiveRecent(s.failed) && now < s.failed[|s.failed| - 1] + LOCKOUT
  {
    LoginInvariant(ls);
  }

  /** Once locked, an address stays locked: whatever is tried in the 900 seconds after the
      failure that locked it is turned away, is not counted, and does not prolong the lockout. */
  lemma {:induction false} LockoutHolds(ls: seq<Login>, more: seq<Login>, now: real)
    requires InSequence(ls + more) && FiveRecent(LoginRun(ls).failed)
    requires LoginRun(ls + more).clock <= now
    requires var until := LoginRun(ls).failed[|LoginRun(ls).failed| - 1] + LOCKOUT;
      now < until && forall l :: l in more ==> l.start < until
    ensures LoginRun(ls + more).failed == LoginRun(ls).failed
    ensures IsLocked(LoginRun(ls + more).guard, now).locked
  {
    if more == [] {
      assert ls + more == ls;
    } else {
      var front, last := more[..|more| - 1], more[|more| - 1];
      assert (ls + more)[..|ls + more| - 1] == ls + front;
      LockoutHolds(ls, front, last.start);
    }
    LockedExactly(ls + more, now);
  }

  // ---------------------------------------------------------------- logins, from the trace

  /** Whether the check of login number `k` let it in. */
  predicate LetIn(ls: seq<Login>, k: nat)
    requires k < |ls|
  {
    !IsLocked(LoginRun(ls[..k]).guard, ls[k].start).locked
  }

  /** The failures since the last success, read off the logins and their verdicts: the ends of
      the invalid logins let in after the last valid one let in. */
  function FailuresSince(ls: seq<Login>): seq<real> {
    if ls == [] then []
    else
      var before, k := FailuresSince(ls[..|ls| - 1]), |ls| - 1;
      if !LetIn(ls, k) then before else if ls[k].valid then [] else before + [ls[k].end]
  }

  lemma {:induction false} FailuresExactly(ls: seq<Login>)
    ensures LoginRun(ls).failed == FailuresSince(ls)
  {
    hide IsLocked, RecordFailure;
    if ls != [] { FailuresExactly(ls[..|ls| - 1]); }
  }

  /** The limiter in terms of the logins alone: one is turned away exactly when the last five
      failures since a success lie within 300 seconds and the last is less than 900 seconds
      old. */
  lemma TurnedAwayExactly(ls: seq<Login>, k: nat)
    requires InSequence(ls) && k < |ls|
    ensures !LetIn(ls, k) <==>
      var h := FailuresSince(ls[..k]); FiveRecent(h) && ls[k].start < h[|h| - 1] + LOCKOUT
  {
    InSequencePrefix(ls, k);
    FailuresExactly(ls[..k]);
    LockedExactly(ls[..k], ls[k].start);
  }

  lemma {:induction false} InSequencePrefix(ls: seq<Login>, k: nat)
    requires InSequence(ls) && k <= |ls|
    ensures InSequence(ls[..k])
    ensures k < |ls| ==> LoginRun(ls[..k]).clock <= ls[k].start <= ls[k].end
  {
    hide LoginRun;
    if k == |ls| {
      assert ls[..k] == ls;
    } else if k < |ls| - 1 {
      InSequencePrefix(ls[..|ls| - 1], k);
      assert ls[..|ls| - 1][..k] == ls[..k];
    }
  }

  /** Login number `k` was let in and failed, or succeeded. */
  predicate Failed(ls: seq<Login>, k: nat)
    requires k < |ls|
  {
    LetIn(ls, k) && !ls[k].valid
  }

  /** How many logins failed from number `from` on. */
  function CountFailed(ls: seq<Login>, from: nat): nat
    requires from <= |ls|
  {
    if from == |ls| then 0
    else CountFailed(ls[..|ls| - 1], from) + if Failed(ls, |ls| - 1) then 1 else 0
  }

  predicate NoSuccess(ls: seq<Login>, from: nat) {
    from >= |ls| || (NoSuccess(ls[..|ls| - 1], from) && !(LetIn(ls, |ls| - 1) && ls[|ls| - 1].valid))
  }

  /** Without a success since failure number `from`, its time and those of the failures after it
      are the end of the list. */
  lemma {:induction false} FailuresFrom(ls: seq<Login>, from: nat)
    requires from < |ls| && Failed(ls, from) && NoSuccess(ls, from)
    ensures var h, n := FailuresSince(ls), CountFailed(ls, from); 1 <= n <= |h| && h[|h| - n] == ls[from].end
  {
    hide IsLocked, LoginRun;
    if from < |ls| - 1 {
      assert ls[..|ls| - 1][..from] == ls[..from];
      FailuresFrom(ls[..|ls| - 1], from);
    } else {
      assert CountFailed(ls[..|ls| - 1], from) == 0;
    }
  }

  /**
    Five failures lock. When five logins have failed since number `from`, with no success
    between, and the last of them ended within 300 seconds of the first, the address is locked
    out until 900 seconds after the last one.
   */
  lemma FiveFailuresLock(ls: seq<Login>, from: nat, now: real)
    requires InSequence(ls) && from < |ls| && Failed(ls, from) && Failed(ls, |ls| - 1)
    requires NoSuccess(ls, from) && CountFailed(ls, from) >= MAX_FAILURES
    requires ls[|ls| - 1].end - ls[from].end <= WINDOW
    requires LoginRun(ls).clock <= now < ls[|ls| - 1].end + LOCKOUT
    ensures IsLocked(LoginRun(ls).guard, now).locked
  {
    hide IsLocked;
    FailuresFrom(ls, from);
    FailuresExactly(ls);
    LoginInvariant(ls);
    var h, n := FailuresSince(ls), CountFailed(ls, from);
    assert h[|h| - 1] == ls[|ls| - 1].end;
    assert h[|h| - n] <= h[|h| - MAX_FAILURES];
    LockedExactly(ls, now);
  }

  /** A success lets the address start again: nothing is counted and nothing locked. */
  lemma SuccessClears(ls: seq<Login>, now: real)
    requires InSequence(ls) && ls != [] && LetIn(ls, |ls| - 1) && ls[|ls| - 1].valid && LoginRun(ls).clock <= now
    ensures FailuresSince(ls) == [] && LoginRun(ls).failed == [] && !IsLocked(LoginRun(ls).guard, now).locked
  {
    hide IsLocked;
    FailuresExactly(ls);
    LockedExactly(ls, now);
  }
}
