/**
 * The per-identity rate limiter of app/rate_limiter.py.
 *
 * The storage maps an identity to the timestamps of its admitted requests and
 * the time of its last trim. The clock is an explicit integer-seconds input.
 */
module RateLimiter {
  import opened Basics

  /** A trim of an identity's list is due once more than this many seconds passed since the last one. */
  const CleanupInterval := 300
  const MinuteWindow := 60
  const HourWindow := 3600

  /** The configured `REQUESTS_PER_MINUTE` and `REQUESTS_PER_HOUR`. */
  datatype Limits = Limits(perMinute: int, perHour: int)

  datatype Entry = Entry(requests: seq<int>, lastCleanup: int)

  type Storage = map<string, Entry>

  /** Admission, or which of the two HTTP 429 rejections is raised. */
  datatype Decision = Allowed | MinuteLimitExceeded | HourLimitExceeded

  datatype Step = Step(decision: Decision, storage: Storage)

  /** The identity a call is counted against: the user id when one is given
      (Python treats the empty string as not given), else the remote address. */
  function IdentityKey(userId: Option<string>, remoteAddress: string): (key: string)
    ensures userId.Some? && userId.value != "" ==> key == userId.value
    ensures userId.None? || userId.value == "" ==> key == remoteAddress
  {
    if userId.Some? && userId.value != "" then userId.value else remoteAddress
  }

  /** The timestamps of `reqs` younger than `window` seconds at `now`, in their original order. */
  function Recent(reqs: seq<int>, now: int, window: int): (r: seq<int>)
    ensures |r| <= |reqs|
    ensures forall t :: t in r <==> t in reqs && now - t < window
    ensures (forall k :: 0 <= k < |reqs| ==> now - reqs[k] < window) ==> r == reqs
    ensures (forall k :: 0 <= k < |reqs| ==> now - reqs[k] >= window) ==> r == []
  {
    if reqs == [] then []
    else
      var rest := Recent(reqs[..|reqs| - 1], now, window);
      var t := reqs[|reqs| - 1];
      assert reqs == reqs[..|reqs| - 1] + [t];
      if now - t < window then rest + [t] else rest
  }

  /** Filtering distributes over concatenation, so it keeps the relative order of what it keeps. */
  lemma {:induction false} RecentAppend(a: seq<int>, b: seq<int>, now: int, window: int)
    ensures Recent(a + b, now, window) == Recent(a, now, window) + Recent(b, now, window)
    decreases |b|
  {
    if b != [] {
      var b' := b[..|b| - 1];
      assert (a + b)[..|a + b| - 1] == a + b';
      RecentAppend(a, b', now, window);
    } else {
      assert a + b == a;
    }
  }

  /** Filtering to a narrower window at a later instant after filtering to a wider one
      is the same as filtering to the narrower one alone. */
  lemma {:induction false} RecentNarrower(reqs: seq<int>, now: int, wide: int, later: int, narrow: int)
    requires now <= later && narrow <= wide
    ensures Recent(Recent(reqs, now, wide), later, narrow) == Recent(reqs, later, narrow)
    decreases |reqs|
  {
    if reqs != [] {
      var front := reqs[..|reqs| - 1];
      var t := reqs[|reqs| - 1];
      RecentNarrower(front, now, wide, later, narrow);
      if now - t < wide {
        RecentAppend(Recent(front, now, wide), [t], later, narrow);
      }
    }
  }

  function CountRecent(reqs: seq<int>, now: int, window: int): nat {
    |Recent(reqs, now, window)|
  }

  /** The timestamps on record for `key`, or none for an unseen identity. */
  function RequestsOf(storage: Storage, key: string): seq<int> {
    if key in storage then storage[key].requests else []
  }

  /** The entry for `key` after the lazy creation and the amortised trim that start every call. */
  function Prepared(storage: Storage, key: string, now: int): (e: Entry)
    ensures |e.requests| <= |RequestsOf(storage, key)|
    ensures forall t :: t in e.requests ==> t in RequestsOf(storage, key)
    ensures key !in storage ==> e == Entry([], now)
    ensures key in storage && now - storage[key].lastCleanup > CleanupInterval ==>
      && e.lastCleanup == now
      && e.requests == Recent(storage[key].requests, now, HourWindow)
      && forall t :: t in e.requests <==> t in storage[key].requests && now - t < HourWindow
    ensures key in storage && now - storage[key].lastCleanup <= CleanupInterval ==> e == storage[key]
  {
    if key !in storage then Entry([], now)
    else if now - storage[key].lastCleanup > CleanupInterval then
      Entry(Recent(storage[key].requests, now, HourWindow), now)
    else storage[key]
  }

  /** `check_rate_limit`: admit or reject one call for `key` at `now`.
      The lazily created or trimmed entry is kept even when the call is rejected;
      only an admitted call appends `now`, and no other identity is touched. */
  function CheckRateLimit(storage: Storage, key: string, now: int, limits: Limits): (r: Step)
    ensures key in r.storage
    ensures r.storage.Keys == storage.Keys + {key}
    ensures forall k :: k in storage && k != key ==> r.storage[k] == storage[k]
    ensures var e := Prepared(storage, key, now);
      && (r.decision == MinuteLimitExceeded <==> CountRecent(e.requests, now, MinuteWindow) >= limits.perMinute)
      && (r.decision == HourLimitExceeded <==>
            CountRecent(e.requests, now, MinuteWindow) < limits.perMinute && |e.requests| >= limits.perHour)
      && (r.decision == Allowed ==> r.storage[key] == Entry(e.requests + [now], e.lastCleanup))
      && (r.decision != Allowed ==> r.storage[key] == e)
  {
    var e := Prepared(storage, key, now);
    if CountRecent(e.requests, now, MinuteWindow) >= limits.perMinute then
      Step(MinuteLimitExceeded, storage[key := e])
    else if |e.requests| >= limits.perHour then
      Step(HourLimitExceeded, storage[key := e])
    else
      Step(Allowed, storage[key := Entry(e.requests + [now], e.lastCleanup)])
  }

  /** A rejected call records nothing: the identity's list only loses timestamps. */
  lemma RejectionRecordsNothing(storage: Storage, key: string, now: int, limits: Limits)
    requires CheckRateLimit(storage, key, now, limits).decision != Allowed
    ensures var after := CheckRateLimit(storage, key, now, limits).storage[key].requests;
      && |after| <= |RequestsOf(storage, key)|
      && forall t :: t in after ==> t in RequestsOf(storage, key)
  {
  }

  /** An admitted call adds exactly one timestamp, `now`, at the end of the identity's list. */
  lemma AdmissionRecordsNow(storage: Storage, key: string, now: int, limits: Limits)
    requires CheckRateLimit(storage, key, now, limits).decision == Allowed
    ensures var after := CheckRateLimit(storage, key, now, limits).storage[key].requests;
      && |after| >= 1 && after[|after| - 1] == now
      && after[..|after| - 1] == Prepared(storage, key, now).requests
  {
  }

  /** `n` copies of `x`. */
  function Copies<T>(x: T, n: nat): (r: seq<T>)
    ensures |r| == n
    ensures forall k :: 0 <= k < n ==> r[k] == x
  {
    if n == 0 then [] else Copies(x, n - 1) + [x]
  }

  /** The decisions and final storage of a sequence of calls. */
  datatype Run = Run(decisions: seq<Decision>, storage: Storage)

  /** `n` successive calls for `key`, all at instant `now`. */
  function Replay(storage: Storage, key: string, now: int, limits: Limits, n: nat): Run
    decreases n
  {
    if n == 0 then Run([], storage)
    else
      var prev := Replay(storage, key, now, limits, n - 1);
      var step := CheckRateLimit(prev.storage, key, now, limits);
      Run(prev.decisions + [step.decision], step.storage)
  }

  /** From an identity with no recorded request, up to `perMinute` calls at one instant are all admitted. */
  lemma {:induction false} SameInstantAdmitted(storage: Storage, key: string, now: int, limits: Limits, n: nat)
    requires RequestsOf(storage, key) == []
    requires 0 <= limits.perMinute <= limits.perHour
    requires n <= limits.perMinute
    ensures var run := Replay(storage, key, now, limits, n);
      && run.decisions == Copies(Allowed, n)
      && RequestsOf(run.storage, key) == Copies(now, n)
    decreases n
  {
    if n > 0 {
      SameInstantAdmitted(storage, key, now, limits, n - 1);
      AdmitOneMore(Replay(storage, key, now, limits, n - 1).storage, key, now, limits, n - 1);
    }
  }

  /** One more call at the instant of `m` earlier admitted ones is admitted while `m` is below both limits. */
  lemma AdmitOneMore(storage: Storage, key: string, now: int, limits: Limits, m: nat)
    requires RequestsOf(storage, key) == Copies(now, m)
    requires m < limits.perMinute && m < limits.perHour
    ensures var step := CheckRateLimit(storage, key, now, limits);
      step.decision == Allowed && RequestsOf(step.storage, key) == Copies(now, m + 1)
  {
    var e := Prepared(storage, key, now);
    assert e.requests == Copies(now, m);
    assert Recent(e.requests, now, MinuteWindow) == e.requests;
  }

  /** A call at the instant of `m` earlier admitted ones is rejected by the minute limit once `m` reaches it. */
  lemma RejectAtMinuteLimit(storage: Storage, key: string, now: int, limits: Limits, m: nat)
    requires RequestsOf(storage, key) == Copies(now, m)
    requires m >= limits.perMinute
    ensures CheckRateLimit(storage, key, now, limits).decision == MinuteLimitExceeded
  {
    var e := Prepared(storage, key, now);
    assert e.requests == Copies(now, m);
    assert Recent(e.requests, now, MinuteWindow) == e.requests;
  }

  /** The call after `perMinute` admitted ones at the same instant is rejected by the minute limit. */
  lemma SameInstantBurstLimit(storage: Storage, key: string, now: int, limits: Limits)
    requires RequestsOf(storage, key) == []
    requires 0 <= limits.perMinute <= limits.perHour
    ensures Replay(storage, key, now, limits, limits.perMinute + 1).decisions
      == Copies(Allowed, limits.perMinute) + [MinuteLimitExceeded]
  {
    SameInstantAdmitted(storage, key, now, limits, limits.perMinute);
    RejectAtMinuteLimit(Replay(storage, key, now, limits, limits.perMinute).storage, key, now, limits, limits.perMinute);
  }

  /** An identity keeps its entry in the sweep iff it has a timestamp younger than an hour. */
  predicate ActiveAt(e: Entry, now: int) {
    exists t :: t in e.requests && now - t < HourWindow
  }

  /** `cleanup_rate_limit_storage`: drop idle identities and trim the survivors' lists. */
  function CleanupStorage(storage: Storage, now: int): (r: Storage)
    ensures forall k :: k in r <==> k in storage && ActiveAt(storage[k], now)
    ensures forall k :: k in r ==>
      r[k] == Entry(Recent(storage[k].requests, now, HourWindow), storage[k].lastCleanup)
  {
    var r := map k | k in storage && Recent(storage[k].requests, now, HourWindow) != []
      :: Entry(Recent(storage[k].requests, now, HourWindow), storage[k].lastCleanup);
    assert forall k :: k in storage ==>
      (Recent(storage[k].requests, now, HourWindow) != [] <==> ActiveAt(storage[k], now)) by {
      forall k | k in storage
        ensures Recent(storage[k].requests, now, HourWindow) != [] <==> ActiveAt(storage[k], now)
      {
        var rec := Recent(storage[k].requests, now, HourWindow);
        if rec != [] {
          assert rec[0] in rec;
        }
      }
    }
    r
  }

  /** After a sweep every surviving identity has a non-empty list of timestamps younger than an hour. */
  lemma SweptStorageIsRecent(storage: Storage, now: int)
    ensures var r := CleanupStorage(storage, now);
      forall k :: k in r ==>
        && r[k].requests != []
        && forall t :: t in r[k].requests ==> now - t < HourWindow
  {
    var r := CleanupStorage(storage, now);
    forall k | k in r
      ensures r[k].requests != []
    {
      var t :| t in storage[k].requests && now - t < HourWindow;
      assert t in r[k].requests;
    }
  }

  /** Sweeping twice at the same instant is the same as sweeping once. */
  lemma SweepIdempotent(storage: Storage, now: int)
    ensures CleanupStorage(CleanupStorage(storage, now), now) == CleanupStorage(storage, now)
  {
    var once := CleanupStorage(storage, now);
    var twice := CleanupStorage(once, now);
    forall k | k in once
      ensures k in twice && twice[k] == once[k]
    {
      var reqs := once[k].requests;
      RecentNarrower(storage[k].requests, now, HourWindow, now, HourWindow);
      assert Recent(reqs, now, HourWindow) == reqs;
      var t :| t in storage[k].requests && now - t < HourWindow;
      assert t in reqs;
    }
    assert twice.Keys == once.Keys;
  }

  /** The number of timestamps a call at `later` counts against the minute limit, whether
      or not a sweep ran at an earlier instant `now`: the sweep only removes timestamps
      too old to count. */
  lemma SweepKeepsMinuteCount(storage: Storage, key: string, now: int, later: int)
    requires now <= later
    ensures CountRecent(Prepared(CleanupStorage(storage, now), key, later).requests, later, MinuteWindow)
         == CountRecent(Prepared(storage, key, later).requests, later, MinuteWindow)
  {
    var swept := CleanupStorage(storage, now);
    PreparedKeepsMinute(storage, key, later);
    PreparedKeepsMinute(swept, key, later);
    if key in storage {
      RecentNarrower(storage[key].requests, now, HourWindow, later, MinuteWindow);
    }
  }

  /** The creation and trim that start a call never change the minute count. */
  lemma PreparedKeepsMinute(storage: Storage, key: string, now: int)
    ensures Recent(Prepared(storage, key, now).requests, now, MinuteWindow)
         == Recent(RequestsOf(storage, key), now, MinuteWindow)
  {
    if key in storage && now - storage[key].lastCleanup > CleanupInterval {
      RecentNarrower(storage[key].requests, now, HourWindow, now, MinuteWindow);
    }
  }

  /** Between trims the hour count includes timestamps older than an hour: an identity not
      trimmed for at most 300 s whose list, all of it older than an hour, already reaches the
      hourly limit is refused by that limit, as long as the minute limit is positive. */
  lemma StaleTimestampCountsTowardHour(storage: Storage, key: string, now: int, limits: Limits)
    requires key in storage
    requires now - storage[key].lastCleanup <= CleanupInterval
    requires forall t :: t in storage[key].requests ==> now - t >= HourWindow
    requires |storage[key].requests| >= limits.perHour
    requires limits.perMinute > 0
    ensures CheckRateLimit(storage, key, now, limits).decision == HourLimitExceeded
  {
    var reqs := storage[key].requests;
    assert forall k :: 0 <= k < |reqs| ==> now - reqs[k] >= MinuteWindow by {
      forall k | 0 <= k < |reqs| ensures now - reqs[k] >= MinuteWindow {
        assert reqs[k] in reqs;
      }
    }
  }
}
