// Sliding windows: the request and upload rate limiters (api/main.py:98-124,
// api/routes_upload.py:30-45) and the login lockout (api/panel/auth.py:30-54,
// 112-150). Each keeps a pruned queue per key; the contracts speak of the whole
// history. Handlers run on one event loop, so calls come in clock order.
module Windows {

  // One accepted hit: when it was recorded, when it was checked and against
  // which limit.
  datatype Hit = Hit(at: real, checked: real, limit: int)

  type History = seq<Hit>

  predicate Kept(t: real, from: real, inclusive: bool) {
    t > from || (inclusive && t == from)
  }

  // The hits of the history from `from` on.
  function Recent(h: History, from: real, inclusive: bool): History {
    if h == [] then []
    else
      var last := h[|h| - 1];
      Recent(h[..|h| - 1], from, inclusive) + if Kept(last.at, from, inclusive) then [last] else []
  }

  // The hits in [from, to], or in [from, to) when not inclusive.
  function Between(h: History, from: real, to: real, inclusive: bool): History {
    if h == [] then []
    else
      var last := h[|h| - 1];
      Between(h[..|h| - 1], from, to, inclusive)
      + if from <= last.at && (last.at < to || (inclusive && last.at == to)) then [last] else []
  }

  // The places in the history of the hits after a moment, from it on, and in a
  // closed or half-open interval.
  ghost function After(h: History, t: real): set<int> {
    set i | 0 <= i < |h| && h[i].at > t
  }

  ghost function Since(h: History, t: real): set<int> {
    set i | 0 <= i < |h| && h[i].at >= t
  }

  ghost function InClosed(h: History, from: real, to: real): set<int> {
    set i | 0 <= i < |h| && from <= h[i].at <= to
  }

  ghost function InHalfOpen(h: History, from: real, to: real): set<int> {
    set i | 0 <= i < |h| && from <= h[i].at < to
  }

  lemma LastHit(h: History, from: real, to: real)
    requires h != []
    ensures var n := |h| - 1; var f := h[..n];
      && Since(h, from) == (if h[n].at >= from then Since(f, from) + {n} else Since(f, from))
      && After(h, from) == (if h[n].at > from then After(f, from) + {n} else After(f, from))
      && InClosed(h, from, to) == (if from <= h[n].at <= to then InClosed(f, from, to) + {n} else InClosed(f, from, to))
      && InHalfOpen(h, from, to)
         == (if from <= h[n].at < to then InHalfOpen(f, from, to) + {n} else InHalfOpen(f, from, to))
  {}

  lemma {:induction false} RecentCounts(h: History, from: real)
    ensures |Recent(h, from, true)| == |Since(h, from)| && |Recent(h, from, false)| == |After(h, from)|
  {
    if h == [] {
    } else {
      var n := |h| - 1;
      RecentCounts(h[..n], from);
      LastHit(h, from, from);
      assert n !in Since(h[..n], from) && n !in After(h[..n], from);
      hide Since, After;
    }
  }

  lemma {:induction false} BetweenCounts(h: History, from: real, to: real)
    ensures |Between(h, from, to, true)| == |InClosed(h, from, to)|
    ensures |Between(h, from, to, false)| == |InHalfOpen(h, from, to)|
  {
    if h == [] {
    } else {
      var n := |h| - 1;
      BetweenCounts(h[..n], from, to);
      LastHit(h, from, to);
      assert n !in InClosed(h[..n], from, to) && n !in InHalfOpen(h[..n], from, to);
      hide InClosed, InHalfOpen;
    }
  }

  ghost predicate InClockOrder(h: History) {
    (forall i, j :: 0 <= i < j < |h| ==> h[i].at <= h[j].at) && forall i :: 0 <= i < |h| ==> h[i].checked <= h[i].at
  }

  // Every hit was let in by a window that still had room.
  ghost predicate Admitted(h: History, width: real, inclusive: bool) {
    forall j :: 0 <= j < |h| ==> HadRoom(h, j, width, inclusive)
  }

  ghost predicate HadRoom(h: History, j: int, width: real, inclusive: bool)
    requires 0 <= j < |h|
  {
    |Recent(h[..j], h[j].checked - width, inclusive)| < h[j].limit
  }

  function Times(h: History): (r: seq<real>)
    ensures |r| == |h| && forall i :: 0 <= i < |h| ==> r[i] == h[i].at
  {
    seq(|h|, i requires 0 <= i < |h| => h[i].at)
  }

  // The queue is the end of the history, and what it has dropped is out of the
  // window for good.
  ghost predicate Tracks(queue: seq<real>, h: History, from: real, inclusive: bool) {
    && |queue| <= |h|
    && (forall i :: 0 <= i < |queue| ==> queue[i] == h[|h| - |queue| + i].at)
    && forall i :: 0 <= i < |h| - |queue| ==> !Kept(h[i].at, from, inclusive)
  }

  lemma {:induction false} BetweenWithinRecent(h: History, from: real, to: real, cut: real, inclusive: bool)
    requires cut < from || (inclusive && cut == from)
    ensures |Between(h, from, to, inclusive)| <= |Recent(h, cut, inclusive)|
  {
    if h == [] {
    } else {
      BetweenWithinRecent(h[..|h| - 1], from, to, cut, inclusive);
    }
  }

  lemma FrontAdmitted(h: History, width: real, inclusive: bool)
    requires h != [] && InClockOrder(h) && Admitted(h, width, inclusive)
    ensures var n := |h| - 1;
      && InClockOrder(h[..n]) && Admitted(h[..n], width, inclusive)
      && |Recent(h[..n], h[n].checked - width, inclusive)| < h[n].limit
  {
    var front := h[..|h| - 1];
    forall j | 0 <= j < |front| ensures HadRoom(front, j, width, inclusive) {
      assert HadRoom(h, j, width, inclusive) && front[..j] == h[..j];
    }
    assert HadRoom(h, |front|, width, inclusive);
  }

  // No window of the given width, wherever it lies, holds more accepted hits than
  // the limit in force.
  lemma {:induction false} NeverMoreThanLimit(h: History, width: real, from: real, inclusive: bool, limit: nat)
    requires InClockOrder(h) && Admitted(h, width, inclusive)
    requires forall i :: 0 <= i < |h| ==> h[i].limit <= limit
    ensures |Between(h, from, from + width, inclusive)| <= limit
  {
    if h == [] {
    } else {
      var front, last := h[..|h| - 1], h[|h| - 1];
      FrontAdmitted(h, width, inclusive);
      NeverMoreThanLimit(front, width, from, inclusive, limit);
      var cut := last.checked - width;
      if cut < from || (inclusive && cut == from) {
        BetweenWithinRecent(front, from, from + width, cut, inclusive);
      }
    }
  }

  // On an ordered history the window is a tail.
  lemma {:induction false} RecentIsTail(h: History, d: nat, from: real, inclusive: bool)
    requires d <= |h|
    requires forall i :: 0 <= i < |h| ==> (Kept(h[i].at, from, inclusive) <==> d <= i)
    ensures Recent(h, from, inclusive) == h[d..]
  {
    if h == [] {
    } else {
      var n := |h| - 1;
      if d <= n {
        RecentIsTail(h[..n], d, from, inclusive);
        assert h[d..] == h[..n][d..] + [h[n]];
      } else {
        RecentIsTail(h[..n], n, from, inclusive);
      }
    }
  }

  // A queue that was pruned at this moment holds exactly the window.
  lemma PrunedIsWindow(queue: seq<real>, h: History, from: real, inclusive: bool)
    requires Tracks(queue, h, from, inclusive) && forall i :: 0 <= i < |queue| ==> Kept(queue[i], from, inclusive)
    ensures queue == Times(Recent(h, from, inclusive))
  {
    var d := |h| - |queue|;
    forall i | 0 <= i < |h| ensures Kept(h[i].at, from, inclusive) <==> d <= i {
      if d <= i { assert queue[i - d] == h[d + (i - d)].at; }
    }
    RecentIsTail(h, d, from, inclusive);
  }

  lemma TracksAppend(queue: seq<real>, h: History, from: real, inclusive: bool, hit: Hit)
    requires Tracks(queue, h, from, inclusive)
    ensures Tracks(queue + [hit.at], h + [hit], from, inclusive)
  {}

  lemma AdmitOne(h: History, width: real, inclusive: bool, hit: Hit)
    requires InClockOrder(h) && Admitted(h, width, inclusive) && hit.checked <= hit.at
    requires forall i :: 0 <= i < |h| ==> h[i].at <= hit.at
    requires |Recent(h, hit.checked - width, inclusive)| < hit.limit
    ensures InClockOrder(h + [hit]) && Admitted(h + [hit], width, inclusive)
  {
    var h' := h + [hit];
    forall j | 0 <= j < |h'| ensures HadRoom(h', j, width, inclusive) {
      if j < |h| {
        assert HadRoom(h, j, width, inclusive) && h'[..j] == h[..j];
      } else {
        assert h'[..j] == h;
      }
    }
  }

  // What holds between a key's queue and its history at every moment.
  ghost predicate KeyValid(queue: seq<real>, h: History, clock: real, width: real, inclusive: bool) {
    && InClockOrder(h) && Admitted(h, width, inclusive)
    && (forall i :: 0 <= i < |h| ==> h[i].at <= clock)
    && Tracks(queue, h, clock - width, inclusive)
  }

  lemma KeyValidLater(queue: seq<real>, h: History, clock: real, now: real, width: real, inclusive: bool)
    requires KeyValid(queue, h, clock, width, inclusive) && clock <= now
    ensures KeyValid(queue, h, now, width, inclusive)
  {}

  lemma HitKeeps(queue: seq<real>, h: History, hit: Hit, width: real, inclusive: bool)
    requires KeyValid(queue, h, hit.checked, width, inclusive) && hit.checked <= hit.at
    requires |Recent(h, hit.checked - width, inclusive)| < hit.limit
    ensures KeyValid(queue + [hit.at], h + [hit], hit.at, width, inclusive)
  {
    AdmitOne(h, width, inclusive, hit);
    TracksAppend(queue, h, hit.at - width, inclusive, hit);
  }

  // ---------------------------------------------------------------------------
  // Rate limiters
  // ---------------------------------------------------------------------------

  const MINUTE := 60.0

  // One queue per key. The general limiter passes its fixed limit, the upload
  // limiter whatever the settings table says at the time of the call.
  class RateLimiter {
    var hits: map<string, seq<real>>
    ghost var history: map<string, History>
    ghost var clock: real

    constructor (ghost now: real)
      ensures Valid() && history == map[] && clock == now
    {
      hits, history, clock := map[], map[], now;
    }

    ghost function HistoryOf(key: string): History
      reads this
    {
      if key in history then history[key] else []
    }

    function Queue(key: string): seq<real>
      reads this
    {
      if key in hits then hits[key] else []
    }

    ghost predicate Valid()
      reads this
    {
      forall key :: KeyValid(Queue(key), HistoryOf(key), clock, MINUTE, true)
    }

    // The decision is the one the whole history gives.
    method Allow(key: string, now: real, limit: int) returns (allowed: bool)
      requires Valid() && clock <= now
      modifies this
      ensures Valid() && clock == now
      ensures allowed <==> |Recent(old(HistoryOf(key)), now - MINUTE, true)| < limit
      ensures allowed <==> |Since(old(HistoryOf(key)), now - 60.0)| < limit
      ensures HistoryOf(key) == old(HistoryOf(key)) + if allowed then [Hit(now, now, limit)] else []
      ensures forall k :: k != key ==> HistoryOf(k) == old(HistoryOf(k))
    {
      ghost var h := HistoryOf(key);
      RecentCounts(h, now - MINUTE);
      assert KeyValid(Queue(key), h, clock, MINUTE, true);
      var queue := DropOld(Queue(key), now, h, clock);
      allowed := |queue| < limit;
      if allowed {
        HitKeeps(queue, h, Hit(now, now, limit), MINUTE, true);
        Keep(key, queue + [now], h + [Hit(now, now, limit)], now);
      } else {
        Keep(key, queue, h, now);
      }
    }

    method Keep(key: string, queue: seq<real>, ghost h: History, ghost now: real)
      requires Valid() && clock <= now && KeyValid(queue, h, now, MINUTE, true)
      modifies this
      ensures Valid() && clock == now && HistoryOf(key) == h && Queue(key) == queue
      ensures forall k :: k != key ==> HistoryOf(k) == old(HistoryOf(k)) && Queue(k) == old(Queue(k))
    {
      ghost var before := clock;
      hits, history, clock := hits[key := queue], history[key := h], now;
      forall k ensures KeyValid(Queue(k), HistoryOf(k), clock, MINUTE, true) {
        if k != key {
          assert Queue(k) == old(Queue(k)) && HistoryOf(k) == old(HistoryOf(k));
          assert KeyValid(old(Queue(k)), old(HistoryOf(k)), before, MINUTE, true);
          KeyValidLater(Queue(k), HistoryOf(k), before, clock, MINUTE, true);
        }
      }
    }

    // At most `limit` hits in any closed minute, whatever smaller limits were in
    // force meanwhile; a refusal means that Allow found that many in the minute
    // before it.
    lemma AtMostLimitPerMinute(key: string, from: real, limit: nat)
      requires Valid() && forall i :: 0 <= i < |HistoryOf(key)| ==> HistoryOf(key)[i].limit <= limit
      ensures |Between(HistoryOf(key), from, from + MINUTE, true)| <= limit
      ensures |InClosed(HistoryOf(key), from, from + 60.0)| <= limit
    {
      BetweenCounts(HistoryOf(key), from, from + MINUTE);
      assert KeyValid(Queue(key), HistoryOf(key), clock, MINUTE, true);
      NeverMoreThanLimit(HistoryOf(key), MINUTE, from, true, limit);
    }
  }

  // The popleft loop.
  method DropOld(queue: seq<real>, now: real, ghost h: History, ghost clock: real) returns (kept: seq<real>)
    requires KeyValid(queue, h, clock, MINUTE, true) && clock <= now
    ensures kept == Times(Recent(h, now - MINUTE, true)) && KeyValid(kept, h, now, MINUTE, true)
  {
    var windowStart := now - MINUTE;
    kept := queue;
    while kept != [] && kept[0] < windowStart
      invariant Tracks(kept, h, windowStart, true)
      decreases |kept|
    {
      assert h[|h| - |kept|].at == kept[0];
      kept := kept[1..];
    }
    forall i | 0 <= i < |kept| ensures Kept(kept[i], windowStart, true) {
      assert kept[i] == h[|h| - |kept| + i].at && kept[0] == h[|h| - |kept|].at;
    }
    PrunedIsWindow(kept, h, windowStart, true);
  }

  // ---------------------------------------------------------------------------
  // Login lockout
  // ---------------------------------------------------------------------------

  const MAX_FAILED_ATTEMPTS := 5
  const LOCKOUT_SECONDS := 900.0

  datatype LoginOutcome = LockedOut | LoggedIn | BadCredentials

  // The failures that are younger than the lockout, which the queue is cut down to.
  method StillCounting(attempts: seq<real>, now: real, ghost h: History, ghost clock: real) returns (kept: seq<real>)
    requires KeyValid(attempts, h, clock, LOCKOUT_SECONDS, false) && clock <= now
    ensures kept == Times(Recent(h, now - LOCKOUT_SECONDS, false)) && KeyValid(kept, h, now, LOCKOUT_SECONDS, false)
  {
    var from := now - LOCKOUT_SECONDS;
    kept := [];
    ghost var d := |h| - |attempts|;
    for i := 0 to |attempts|
      invariant |kept| <= i && kept == attempts[i - |kept|..i]
      invariant forall j :: 0 <= j < |kept| ==> Kept(kept[j], from, false)
      invariant forall j :: 0 <= j < i - |kept| ==> !Kept(attempts[j], from, false)
    {
      if now - attempts[i] < LOCKOUT_SECONDS {
        kept := kept + [attempts[i]];
      } else {
        forall j | 0 <= j < i ensures !Kept(attempts[j], from, false) {
          assert attempts[j] == h[d + j].at && attempts[i] == h[d + i].at;
        }
      }
    }
    forall i | 0 <= i < |h| - |kept| ensures !Kept(h[i].at, from, false) {
      if d <= i { assert attempts[i - d] == h[d + (i - d)].at; }
    }
    PrunedIsWindow(kept, h, from, false);
  }

  ghost predicate LockValid(attempts: seq<real>, h: History, clock: real) {
    KeyValid(attempts, h, clock, LOCKOUT_SECONDS, false)
    && forall i :: 0 <= i < |h| ==> h[i].limit == MAX_FAILED_ATTEMPTS
  }

  lemma LockValidLater(attempts: seq<real>, h: History, clock: real, now: real)
    requires LockValid(attempts, h, clock) && clock <= now
    ensures LockValid(attempts, h, now)
  {
    KeyValidLater(attempts, h, clock, now, LOCKOUT_SECONDS, false);
  }

  class LoginLockout {
    var failedAttempts: map<string, seq<real>>
    ghost var failures: map<string, History>     // since the key's last success
    ghost var clock: real

    constructor (ghost now: real)
      ensures Valid() && failures == map[] && clock == now
    {
      failedAttempts, failures, clock := map[], map[], now;
    }

    ghost function FailuresOf(key: string): History
      reads this
    {
      if key in failures then failures[key] else []
    }

    function Attempts(key: string): seq<real>
      reads this
    {
      if key in failedAttempts then failedAttempts[key] else []
    }

    ghost predicate Valid()
      reads this
    {
      forall key :: LockValid(Attempts(key), FailuresOf(key), clock)
    }

    // One submission of the login form: the lockout is tested before the
    // password, a success forgets the failures, a failure is recorded at a
    // possibly later reading of the clock.
    method Submit(key: string, credentialsValid: bool, checkedAt: real, recordedAt: real)
      returns (outcome: LoginOutcome)
      requires Valid() && clock <= checkedAt <= recordedAt
      modifies this
      ensures Valid() && clock == recordedAt
      ensures outcome == LockedOut <==>
        |Recent(old(FailuresOf(key)), checkedAt - LOCKOUT_SECONDS, false)| >= MAX_FAILED_ATTEMPTS
      ensures outcome == LockedOut <==> |After(old(FailuresOf(key)), checkedAt - 900.0)| >= 5
      ensures outcome == LoggedIn ==> credentialsValid && FailuresOf(key) == []
      ensures outcome == BadCredentials ==>
        !credentialsValid && FailuresOf(key) == old(FailuresOf(key)) + [Hit(recordedAt, checkedAt, MAX_FAILED_ATTEMPTS)]
      ensures outcome == LockedOut ==> FailuresOf(key) == old(FailuresOf(key))
      ensures forall k :: k != key ==> FailuresOf(k) == old(FailuresOf(k))
    {
      ghost var h := FailuresOf(key);
      RecentCounts(h, checkedAt - LOCKOUT_SECONDS);
      assert LockValid(Attempts(key), h, clock);
      var attempts := StillCounting(Attempts(key), checkedAt, h, clock);
      if |attempts| >= MAX_FAILED_ATTEMPTS {
        LockValidLater(attempts, h, checkedAt, recordedAt);
        Keep(key, attempts, h, recordedAt);
        return LockedOut;
      }
      if credentialsValid {
        Keep(key, [], [], recordedAt);
        return LoggedIn;
      }
      ghost var hit := Hit(recordedAt, checkedAt, MAX_FAILED_ATTEMPTS);
      HitKeeps(attempts, h, hit, LOCKOUT_SECONDS, false);
      Keep(key, attempts + [recordedAt], h + [hit], recordedAt);
      return BadCredentials;
    }

    // An absent key and an empty list are the same.
    method Keep(key: string, attempts: seq<real>, ghost h: History, ghost now: real)
      requires Valid() && clock <= now && LockValid(attempts, h, now)
      modifies this
      ensures Valid() && clock == now && FailuresOf(key) == h && Attempts(key) == attempts
      ensures forall k :: k != key ==> FailuresOf(k) == old(FailuresOf(k)) && Attempts(k) == old(Attempts(k))
    {
      ghost var before := clock;
      failedAttempts, failures, clock := failedAttempts[key := attempts], failures[key := h], now;
      forall k ensures LockValid(Attempts(k), FailuresOf(k), clock) {
        if k != key {
          assert Attempts(k) == old(Attempts(k)) && FailuresOf(k) == old(FailuresOf(k));
          assert LockValid(old(Attempts(k)), old(FailuresOf(k)), before);
          LockValidLater(Attempts(k), FailuresOf(k), before, clock);
        }
      }
    }

    // At most five failures since the last success in any 900 seconds, the last
    // instant left out.
    lemma AtMostFiveFailures(key: string, from: real)
      requires Valid()
      ensures |Between(FailuresOf(key), from, from + LOCKOUT_SECONDS, false)| <= MAX_FAILED_ATTEMPTS
      ensures |InHalfOpen(FailuresOf(key), from, from + 900.0)| <= 5
    {
      BetweenCounts(FailuresOf(key), from, from + LOCKOUT_SECONDS);
      assert LockValid(Attempts(key), FailuresOf(key), clock);
      NeverMoreThanLimit(FailuresOf(key), LOCKOUT_SECONDS, from, false, MAX_FAILED_ATTEMPTS);
    }
  }
}
