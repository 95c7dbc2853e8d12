/**
 The fixed-window request limiter: one expiring counter for each window, on one clock in
 milliseconds. A request reads the clock to choose its window; its script runs some time later.
 */
module RateLimit {
  type Positive = n: nat | n > 0 witness 1

  datatype Counter = Counter(count: Positive, expiresAt: nat)

  datatype Decision = Decision(allowed: bool, used: nat, remaining: nat)

  /** When a request read the clock and when its script ran. */
  datatype Request = Request(read: nat, run: nat)

  /** The window a time falls into; windows are counted in whole seconds. */
  function Bucket(nowMs: nat, windowSeconds: nat): nat
    requires windowSeconds > 0
  {
    nowMs / 1000 / windowSeconds
  }

  /** Scripts run one after another, each after its request read the clock. */
  predicate Ordered(reqs: seq<Request>) {
    && (forall i :: 0 <= i < |reqs| ==> reqs[i].read <= reqs[i].run)
    && (forall i, j :: 0 <= i <= j < |reqs| ==> reqs[i].run <= reqs[j].run)
  }

  /** How many of the first `n` requests chose window `b`. */
  function Requests(reqs: seq<Request>, n: nat, b: nat, windowSeconds: nat): (k: nat)
    requires n <= |reqs| && windowSeconds > 0
    ensures k <= n
  {
    if n == 0 then 0
    else Requests(reqs, n - 1, b, windowSeconds) + if Bucket(reqs[n - 1].read, windowSeconds) == b then 1 else 0
  }

  /** The first of them. */
  function First(reqs: seq<Request>, n: nat, b: nat, windowSeconds: nat): (i: nat)
    requires n <= |reqs| && windowSeconds > 0 && Requests(reqs, n, b, windowSeconds) > 0
    ensures i < n && Bucket(reqs[i].read, windowSeconds) == b
  {
    if Requests(reqs, n - 1, b, windowSeconds) > 0 then First(reqs, n - 1, b, windowSeconds) else n - 1
  }

  /** What the script leaves in a window's counter, given what it finds and when it runs. */
  function Counted(found: map<nat, Counter>, b: nat, runMs: nat, windowSeconds: nat): Counter {
    if b in found && runMs < found[b].expiresAt then Counter(found[b].count + 1, found[b].expiresAt)
    else Counter(1, runMs + windowSeconds * 1000)
  }

  /** The counters after the first `n` scripts; one that has expired stays until it is replaced. */
  function Counters(reqs: seq<Request>, n: nat, windowSeconds: nat): map<nat, Counter>
    requires n <= |reqs| && windowSeconds > 0
  {
    if n == 0 then map[]
    else
      var found, b := Counters(reqs, n - 1, windowSeconds), Bucket(reqs[n - 1].read, windowSeconds);
      found[b := Counted(found, b, reqs[n - 1].run, windowSeconds)]
  }

  /** The count the script of request `i` answers. */
  function Used(reqs: seq<Request>, i: nat, windowSeconds: nat): nat
    requires i < |reqs| && windowSeconds > 0
  {
    Counters(reqs, i + 1, windowSeconds)[Bucket(reqs[i].read, windowSeconds)].count
  }

  predicate Admitted(reqs: seq<Request>, i: nat, windowSeconds: nat, limit: nat)
    requires i < |reqs| && windowSeconds > 0
  {
    Used(reqs, i, windowSeconds) <= limit
  }

  class Limiter {
    const windowSeconds: nat
    const limit: nat
    var counters: map<nat, Counter>
    ghost var reqs: seq<Request>  // all requests so far

    ghost predicate Valid()
      reads this
    {
      windowSeconds > 0 && Ordered(reqs) && counters == Counters(reqs, |reqs|, windowSeconds)
    }

    constructor (windowSeconds: nat, limit: nat)
      requires windowSeconds > 0
      ensures Valid() && reqs == [] && this.windowSeconds == windowSeconds && this.limit == limit
    {
      this.windowSeconds, this.limit, counters, reqs := windowSeconds, limit, map[], [];
    }

    /** The script: counts on while the key lives, starts over when it has expired, and sets the expiry then. */
    method Increment(b: nat, runMs: nat) returns (count: Positive)
      modifies this`counters
      ensures counters == old(counters)[b := Counted(old(counters), b, runMs, windowSeconds)]
      ensures count == counters[b].count
    {
      count := if b in counters && runMs < counters[b].expiresAt then counters[b].count + 1 else 1;
      var expiresAt := if count == 1 then runMs + windowSeconds * 1000 else counters[b].expiresAt;
      counters := counters[b := Counter(count, expiresAt)];
    }

    /** A request chooses its window when it reads the clock and is counted when its script runs. */
    method Evaluate(readMs: nat, runMs: nat) returns (d: Decision)
      requires Valid() && readMs <= runMs && forall i :: 0 <= i < |reqs| ==> reqs[i].run <= runMs
      modifies this
      ensures Valid() && reqs == old(reqs) + [Request(readMs, runMs)]
      ensures d.used == Used(reqs, |reqs| - 1, windowSeconds)
      ensures d.allowed <==> Admitted(reqs, |reqs| - 1, windowSeconds, limit)
      ensures d.remaining == if d.used < limit then limit - d.used else 0
    {
      var used := Increment(Bucket(readMs, windowSeconds), runMs);
      ghost var before := reqs;
      reqs := reqs + [Request(readMs, runMs)];
      CountersOfPrefix(before, reqs, |before|, windowSeconds);
      d := Decision(used <= limit, used, if used < limit then limit - used else 0);
    }
  }

  /** Any requests whose scripts run in order: each verdict is as specified. */
  method Serve(limiter: Limiter, reqs: seq<Request>) returns (decisions: seq<Decision>)
    requires limiter.Valid() && limiter.reqs == [] && Ordered(reqs)
    modifies limiter
    ensures limiter.Valid() && |decisions| == |reqs|
    ensures forall i :: 0 <= i < |reqs| ==>
              (decisions[i].allowed <==> Admitted(reqs, i, limiter.windowSeconds, limiter.limit))
  {
    decisions := [];
    for i := 0 to |reqs|
      invariant limiter.Valid() && limiter.reqs == reqs[..i] && |decisions| == i
      invariant forall k :: 0 <= k < i ==>
                  (decisions[k].allowed <==> Admitted(reqs, k, limiter.windowSeconds, limiter.limit))
    {
      var d := limiter.Evaluate(reqs[i].read, reqs[i].run);
      assert reqs[..i] + [reqs[i]] == reqs[..i + 1];
      CountersOfPrefix(reqs[..i + 1], reqs, i + 1, limiter.windowSeconds);
      decisions := decisions + [d];
    }
  }

  lemma {:induction false} CountersOfPrefix(prefix: seq<Request>, reqs: seq<Request>, n: nat, windowSeconds: nat)
    requires prefix <= reqs && n <= |prefix| && windowSeconds > 0
    ensures Counters(prefix, n, windowSeconds) == Counters(reqs, n, windowSeconds)
  {
    if n > 0 { CountersOfPrefix(prefix, reqs, n - 1, windowSeconds); }
  }

  // ---------------------------------------------------------------- when expiry resets a counter

  /** The script of request `j` runs within a window's length of the first script of its window. */
  predicate OnTime(reqs: seq<Request>, j: nat, windowSeconds: nat)
    requires j < |reqs| && windowSeconds > 0
  {
    var b := Bucket(reqs[j].read, windowSeconds);
    reqs[j].run < reqs[First(reqs, j + 1, b, windowSeconds)].run + windowSeconds * 1000
  }

  /** The script of request `j` counts every request of its window so far. */
  predicate CountsAll(reqs: seq<Request>, j: nat, windowSeconds: nat)
    requires j < |reqs| && windowSeconds > 0
  {
    Used(reqs, j, windowSeconds) == Requests(reqs, j + 1, Bucket(reqs[j].read, windowSeconds), windowSeconds)
  }

  /** What a window's counter is as long as no script of it has been late. */
  ghost predicate Whole(reqs: seq<Request>, n: nat, b: nat, windowSeconds: nat)
    requires n <= |reqs| && windowSeconds > 0
  {
    var k, counters := Requests(reqs, n, b, windowSeconds), Counters(reqs, n, windowSeconds);
    && (b in counters <==> k > 0)
    && (k > 0 ==> counters[b] == Counter(k, reqs[First(reqs, n, b, windowSeconds)].run + windowSeconds * 1000))
  }

  lemma {:induction false} WholeWhileOnTime(reqs: seq<Request>, n: nat, b: nat, windowSeconds: nat)
    requires n <= |reqs| && windowSeconds > 0
    requires forall j :: 0 <= j < n && Bucket(reqs[j].read, windowSeconds) == b ==> OnTime(reqs, j, windowSeconds)
    ensures Whole(reqs, n, b, windowSeconds)
  {
    hide Bucket;
    if n > 0 {
      WholeWhileOnTime(reqs, n - 1, b, windowSeconds);
      if Bucket(reqs[n - 1].read, windowSeconds) == b { assert OnTime(reqs, n - 1, windowSeconds); }
    }
  }

  lemma {:induction false} OnTimeWhileCounted(reqs: seq<Request>, n: nat, b: nat, windowSeconds: nat)
    requires n <= |reqs| && windowSeconds > 0
    requires forall j :: 0 <= j < n && Bucket(reqs[j].read, windowSeconds) == b ==> CountsAll(reqs, j, windowSeconds)
    ensures forall j :: 0 <= j < n && Bucket(reqs[j].read, windowSeconds) == b ==> OnTime(reqs, j, windowSeconds)
  {
    hide Bucket, CountsAll, OnTime, Whole;
    if n > 0 {
      OnTimeWhileCounted(reqs, n - 1, b, windowSeconds);
      WholeWhileOnTime(reqs, n - 1, b, windowSeconds);
      if Bucket(reqs[n - 1].read, windowSeconds) == b {
        assert CountsAll(reqs, n - 1, windowSeconds);
        CountedIsOnTime(reqs, n - 1, windowSeconds);
      }
    }
  }

  lemma CountedIsOnTime(reqs: seq<Request>, j: nat, windowSeconds: nat)
    requires j < |reqs| && windowSeconds > 0 && CountsAll(reqs, j, windowSeconds)
    requires Whole(reqs, j, Bucket(reqs[j].read, windowSeconds), windowSeconds)
    ensures OnTime(reqs, j, windowSeconds)
  {
    hide Bucket;
  }

  /** Every script runs within a window's length of the first script of its window. */
  predicate InTime(reqs: seq<Request>, windowSeconds: nat)
    requires windowSeconds > 0
  {
    forall j :: 0 <= j < |reqs| ==> OnTime(reqs, j, windowSeconds)
  }

  /** Expiry never resets the counter of a window exactly when every script is on time. */
  lemma NeverResetExactlyWhenInTime(reqs: seq<Request>, windowSeconds: nat)
    requires windowSeconds > 0
    ensures InTime(reqs, windowSeconds)
            <==> forall j :: 0 <= j < |reqs| ==> CountsAll(reqs, j, windowSeconds)
  {
    if InTime(reqs, windowSeconds) {
      forall j | 0 <= j < |reqs| ensures CountsAll(reqs, j, windowSeconds) {
        WholeWhileOnTime(reqs, j + 1, Bucket(reqs[j].read, windowSeconds), windowSeconds);
      }
    }
    if forall j :: 0 <= j < |reqs| ==> CountsAll(reqs, j, windowSeconds) {
      forall j | 0 <= j < |reqs| ensures OnTime(reqs, j, windowSeconds) {
        OnTimeWhileCounted(reqs, j + 1, Bucket(reqs[j].read, windowSeconds), windowSeconds);
      }
    }
  }

  lemma {:induction false} RequestsAre(reqs: seq<Request>, n: nat, b: nat, windowSeconds: nat)
    requires n <= |reqs| && windowSeconds > 0
    ensures Requests(reqs, n, b, windowSeconds) == |set i | 0 <= i < n && reqs[i].read / 1000 / windowSeconds == b|
  {
    if n > 0 {
      RequestsAre(reqs, n - 1, b, windowSeconds);
      var before := set i | 0 <= i < n - 1 && reqs[i].read / 1000 / windowSeconds == b;
      assert (set i | 0 <= i < n && reqs[i].read / 1000 / windowSeconds == b) ==
             if reqs[n - 1].read / 1000 / windowSeconds == b then before + {n - 1} else before;
    }
  }

  /**
   As long as no script runs a window's length or more after another of its window, a request is
   admitted exactly when at most `limit` requests, itself included, have read a clock in its window.
   */
  lemma AdmittedExactly(reqs: seq<Request>, j: nat, windowSeconds: nat, limit: nat)
    requires j < |reqs| && windowSeconds > 0
    requires forall i, k :: 0 <= i <= k <= j && reqs[i].read / 1000 / windowSeconds == reqs[k].read / 1000 / windowSeconds ==>
               reqs[k].run < reqs[i].run + windowSeconds * 1000
    ensures Admitted(reqs, j, windowSeconds, limit) <==>
            |set i | 0 <= i < j + 1 && reqs[i].read / 1000 / windowSeconds == reqs[j].read / 1000 / windowSeconds| <= limit
  {
    hide Requests;
    var b := Bucket(reqs[j].read, windowSeconds);
    forall k | 0 <= k < j + 1 && Bucket(reqs[k].read, windowSeconds) == b ensures OnTime(reqs, k, windowSeconds) {
      EarlierIsSeen(reqs, k, windowSeconds);
    }
    WholeWhileOnTime(reqs, j + 1, b, windowSeconds);
    RequestsAre(reqs, j + 1, b, windowSeconds);
    EarlierIsSeen(reqs, j, windowSeconds);
  }

  lemma EarlierIsSeen(reqs: seq<Request>, k: nat, windowSeconds: nat)
    requires k < |reqs| && windowSeconds > 0
    ensures Requests(reqs, k + 1, Bucket(reqs[k].read, windowSeconds), windowSeconds) > 0
  {
  }

  /** The first script of a window that runs too late starts its counter over, and admits if anything is allowed at all. */
  lemma LateScriptCountsOne(reqs: seq<Request>, j: nat, windowSeconds: nat, limit: nat)
    requires j < |reqs| && windowSeconds > 0 && !OnTime(reqs, j, windowSeconds)
    requires forall k :: 0 <= k < j && Bucket(reqs[k].read, windowSeconds) == Bucket(reqs[j].read, windowSeconds) ==>
               OnTime(reqs, k, windowSeconds)
    ensures Used(reqs, j, windowSeconds) == 1 && (Admitted(reqs, j, windowSeconds, limit) <==> limit >= 1)
    ensures var b := Bucket(reqs[j].read, windowSeconds);
      Counters(reqs, j + 1, windowSeconds)[b].expiresAt == reqs[j].run + windowSeconds * 1000
  {
    hide Bucket;
    WholeWhileOnTime(reqs, j, Bucket(reqs[j].read, windowSeconds), windowSeconds);
  }

  /** Scripts that run before their window is over, as those without delay do, are on time. */
  lemma PromptScriptsAreInTime(reqs: seq<Request>, windowSeconds: nat)
    requires Ordered(reqs) && windowSeconds > 0
    requires forall j :: 0 <= j < |reqs| ==> Bucket(reqs[j].run, windowSeconds) == Bucket(reqs[j].read, windowSeconds)
    ensures InTime(reqs, windowSeconds)
  {
    forall j | 0 <= j < |reqs| ensures OnTime(reqs, j, windowSeconds) {
      var b := Bucket(reqs[j].read, windowSeconds);
      var i := First(reqs, j + 1, b, windowSeconds);
      InsideWindow(reqs[i].run, windowSeconds);
      InsideWindow(reqs[j].run, windowSeconds);
      ProductGrows(b, b + 1, windowSeconds);
    }
  }

  /** A script that runs one millisecond late: its window admits twice the limit of one. */
  lemma LateScriptResetsCounter()
    ensures var reqs := [Request(0, 0), Request(59999, 60000)];
      && Ordered(reqs) && !InTime(reqs, 60)
      && Bucket(reqs[0].read, 60) == Bucket(reqs[1].read, 60)
      && Admitted(reqs, 0, 60, 1) && Admitted(reqs, 1, 60, 1)
  {
    var reqs := [Request(0, 0), Request(59999, 60000)];
    assert Bucket(0, 60) == 0 && Bucket(59999, 60) == 0;
    assert Counters(reqs, 1, 60) == map[0 := Counter(1, 60000)];
    assert Requests(reqs, 1, 0, 60) == 1 && First(reqs, 2, 0, 60) == 0;
    assert !OnTime(reqs, 1, 60);
  }

  // ---------------------------------------------------------------- bounds

  lemma InsideWindow(nowMs: nat, windowSeconds: nat)
    requires windowSeconds > 0
    ensures Bucket(nowMs, windowSeconds) * windowSeconds * 1000 <= nowMs
    ensures nowMs < (Bucket(nowMs, windowSeconds) + 1) * windowSeconds * 1000
  {
    var s := nowMs / 1000;
    var b := s / windowSeconds;
    assert s == b * windowSeconds + s % windowSeconds;
    assert (b + 1) * windowSeconds == b * windowSeconds + windowSeconds;
  }

  /** How many of the first `n` requests are admitted in window `b`. */
  function AdmittedIn(reqs: seq<Request>, n: nat, b: nat, windowSeconds: nat, limit: nat): nat
    requires n <= |reqs| && windowSeconds > 0
  {
    if n == 0 then 0
    else AdmittedIn(reqs, n - 1, b, windowSeconds, limit)
         + if Bucket(reqs[n - 1].read, windowSeconds) == b && Admitted(reqs, n - 1, windowSeconds, limit) then 1 else 0
  }

  /** With scripts on time a window admits its first `limit` requests and no other. */
  lemma {:induction false} WindowAdmits(reqs: seq<Request>, n: nat, b: nat, windowSeconds: nat, limit: nat)
    requires n <= |reqs| && windowSeconds > 0 && InTime(reqs, windowSeconds)
    ensures var k := Requests(reqs, n, b, windowSeconds);
      AdmittedIn(reqs, n, b, windowSeconds, limit) == if k < limit then k else limit
  {
    hide Bucket, Used;
    if n > 0 {
      WindowAdmits(reqs, n - 1, b, windowSeconds, limit);
      NeverResetExactlyWhenInTime(reqs, windowSeconds);
      assert CountsAll(reqs, n - 1, windowSeconds);
    }
  }

  /** How many of the first `n` requests are admitted that read the clock from `lo` and before `hi`. */
  function AdmittedBetween(reqs: seq<Request>, n: nat, lo: nat, hi: nat, windowSeconds: nat, limit: nat): nat
    requires n <= |reqs| && windowSeconds > 0
  {
    if n == 0 then 0
    else AdmittedBetween(reqs, n - 1, lo, hi, windowSeconds, limit)
         + if lo <= reqs[n - 1].read < hi && Admitted(reqs, n - 1, windowSeconds, limit) then 1 else 0
  }

  lemma ProductGrows(a: nat, b: nat, w: nat)
    ensures a <= b ==> a * w <= b * w
    ensures (a + 1) * w == a * w + w
  {
    if a <= b {
      assert b * w == a * w + (b - a) * w;
    }
  }

  lemma ApartByAtMostOne(b: nat, c: nat, w: nat, lo: nat, t: nat)
    requires w > 0 && b * w <= lo < (b + 1) * w && c * w <= t < (c + 1) * w && lo <= t < lo + w
    ensures c == b || c == b + 1
  {
    ProductGrows(c + 1, b, w);
    ProductGrows(b + 1, c, w);
    ProductGrows(b + 2, c, w);
  }

  lemma TwoWindows(t: nat, lo: nat, windowSeconds: nat)
    requires windowSeconds > 0 && lo <= t < lo + windowSeconds * 1000
    ensures Bucket(t, windowSeconds) == Bucket(lo, windowSeconds) || Bucket(t, windowSeconds) == Bucket(lo, windowSeconds) + 1
  {
    hide Bucket;
    InsideWindow(lo, windowSeconds);
    InsideWindow(t, windowSeconds);
    var b, c := Bucket(lo, windowSeconds), Bucket(t, windowSeconds);
    Regroup(b, windowSeconds);
    Regroup(c, windowSeconds);
    ApartByAtMostOne(b, c, windowSeconds * 1000, lo, t);
  }

  lemma Regroup(b: nat, windowSeconds: nat)
    ensures b * windowSeconds * 1000 == b * (windowSeconds * 1000)
    ensures (b + 1) * windowSeconds * 1000 == (b + 1) * (windowSeconds * 1000)
  {
  }

  lemma {:induction false} IntervalWithinTwoWindows(reqs: seq<Request>, n: nat, lo: nat, windowSeconds: nat, limit: nat)
    requires n <= |reqs| && windowSeconds > 0
    ensures var b := Bucket(lo, windowSeconds);
      AdmittedBetween(reqs, n, lo, lo + windowSeconds * 1000, windowSeconds, limit)
      <= AdmittedIn(reqs, n, b, windowSeconds, limit) + AdmittedIn(reqs, n, b + 1, windowSeconds, limit)
  {
    hide Bucket, Admitted;
    if n > 0 {
      IntervalWithinTwoWindows(reqs, n - 1, lo, windowSeconds, limit);
      if lo <= reqs[n - 1].read < lo + windowSeconds * 1000 { TwoWindows(reqs[n - 1].read, lo, windowSeconds); }
    }
  }

  /** With scripts on time, any interval as long as a window admits at most twice the limit. */
  lemma IntervalAdmitsTwiceTheLimit(reqs: seq<Request>, lo: nat, windowSeconds: nat, limit: nat)
    requires windowSeconds > 0 && InTime(reqs, windowSeconds)
    ensures AdmittedBetween(reqs, |reqs|, lo, lo + windowSeconds * 1000, windowSeconds, limit) <= 2 * limit
  {
    var b := Bucket(lo, windowSeconds);
    IntervalWithinTwoWindows(reqs, |reqs|, lo, windowSeconds, limit);
    WindowAdmits(reqs, |reqs|, b, windowSeconds, limit);
    WindowAdmits(reqs, |reqs|, b + 1, windowSeconds, limit);
  }

  /** `limit` requests in the last millisecond of the first window, `limit` in the first of the second. */
  function Burst(windowSeconds: nat, limit: nat): (reqs: seq<Request>)
    requires windowSeconds > 0
    ensures |reqs| == 2 * limit && Ordered(reqs)
    ensures forall i :: 0 <= i < 2 * limit ==>
              reqs[i].read == reqs[i].run == windowSeconds * 1000 - (if i < limit then 1 else 0)
  {
    seq(2 * limit, i => var t := windowSeconds * 1000 - if i < limit then 1 else 0; Request(t, t))
  }

  lemma {:induction false} BurstCounts(windowSeconds: nat, limit: nat, n: nat)
    requires windowSeconds > 0 && n <= 2 * limit
    ensures var reqs := Burst(windowSeconds, limit);
      && Requests(reqs, n, 0, windowSeconds) == (if n < limit then n else limit)
      && Requests(reqs, n, 1, windowSeconds) == (if n < limit then 0 else n - limit)
  {
    if n > 0 {
      BurstCounts(windowSeconds, limit, n - 1);
      BurstBuckets(windowSeconds);
    }
  }

  lemma BurstBuckets(windowSeconds: nat)
    requires windowSeconds > 0
    ensures Bucket(windowSeconds * 1000 - 1, windowSeconds) == 0 && Bucket(windowSeconds * 1000, windowSeconds) == 1
  {
    assert (windowSeconds * 1000 - 1) / 1000 == windowSeconds - 1;
  }

  /** The factor of two is reached, without any delay. */
  lemma {:induction false} TwiceTheLimitIsReached(windowSeconds: nat, limit: nat, n: nat)
    requires windowSeconds > 0 && n <= 2 * limit
    ensures InTime(Burst(windowSeconds, limit), windowSeconds)
    ensures var lo := windowSeconds * 1000 - 1;
      AdmittedBetween(Burst(windowSeconds, limit), n, lo, lo + windowSeconds * 1000, windowSeconds, limit) == n
  {
    hide Bucket, Used;
    var reqs := Burst(windowSeconds, limit);
    PromptScriptsAreInTime(reqs, windowSeconds);
    if n > 0 {
      TwiceTheLimitIsReached(windowSeconds, limit, n - 1);
      NeverResetExactlyWhenInTime(reqs, windowSeconds);
      assert CountsAll(reqs, n - 1, windowSeconds);
      BurstCounts(windowSeconds, limit, n);
      BurstBuckets(windowSeconds);
    }
  }
}
