/**
 The fixed-window rate limiter (cloud/store.py, `consume_rate_limit`): one durable
 counter per subject, scope and aligned window. Calls are serialised transactions.
 */
module RateLimit {
  import opened Prelude
  import opened CatchUp

  /** Who is limited for what; both texts are cut to their column widths. */
  datatype Bucket = Bucket(subject: string, scope: string)

  type Counters = map<(Bucket, int), nat>

  datatype Decision = Decision(allowed: bool, limit: int, remaining: int, retryAfter: int)

  function BucketOf(subject: string, scope: string): Bucket {
    Bucket(Clip(subject, 256), Clip(scope, 64))
  }

  /** Start of the aligned window that holds an instant (whole seconds). */
  function WindowStart(epoch: int, window: int): int
    requires window > 0
  {
    epoch - epoch % window
  }

  function Used(counters: Counters, bucket: Bucket, start: int): nat {
    if (bucket, start) in counters then counters[(bucket, start)] else 0
  }

  function Consume(counters: Counters, bucket: Bucket, limit: int, window: int, epoch: int): (Counters, Decision)
    requires limit > 0 && window > 0
  {
    var start := WindowStart(epoch, window);
    var used := Used(counters, bucket, start);
    var retry := start + window - epoch;
    if used >= limit then (counters, Decision(false, limit, 0, retry))
    else (counters[(bucket, start) := used + 1], Decision(true, limit, limit - used - 1, retry))
  }

  class RateStore {
    var counters: Counters

    /** Limits and windows below one count as one; the waiting time is already at least a second without its clamp. */
    method ConsumeRateLimit(subject: string, scope: string, limit: int, windowSeconds: int, epoch: int) returns (d: Decision)
      modifies this
      ensures (counters, d) == Consume(old(counters), BucketOf(subject, scope), Max(1, limit), Max(1, windowSeconds), epoch)
      ensures d.retryAfter >= 1
    {
      var boundedLimit := Max(1, limit);
      var boundedWindow := Max(1, windowSeconds);
      var start := epoch - epoch % boundedWindow;
      var retry := Max(1, start + boundedWindow - epoch);
      var key := (Bucket(Clip(subject, 256), Clip(scope, 64)), start);
      var remaining: int;
      if key !in counters {
        counters := counters[key := 1];
        remaining := boundedLimit - 1;
      } else if counters[key] >= boundedLimit {
        return Decision(false, boundedLimit, 0, retry);
      } else {
        counters := counters[key := counters[key] + 1];
        remaining := boundedLimit - counters[key];
      }
      return Decision(true, boundedLimit, Max(0, remaining), retry);
    }
  }

  // ---------- histories ----------

  datatype Call = Call(bucket: Bucket, limit: int, window: int, epoch: int)

  /** The counters, and every call granted so far. */
  datatype World = World(counters: Counters, granted: seq<Call>)

  predicate Proper(c: Call) {
    c.limit > 0 && c.window > 0
  }

  function Take(w: World, c: Call): World
    requires Proper(c)
  {
    var r := Consume(w.counters, c.bucket, c.limit, c.window, c.epoch);
    World(r.0, if r.1.allowed then w.granted + [c] else w.granted)
  }

  predicate AllProper(calls: seq<Call>) {
    forall i :: 0 <= i < |calls| ==> Proper(calls[i])
  }

  function Play(w: World, calls: seq<Call>): World
    requires AllProper(calls)
    decreases |calls|
  {
    if calls == [] then w else Play(Take(w, calls[0]), calls[1..])
  }

  /** How many grants a bucket got at instants in [from, until). */
  function Grants(granted: seq<Call>, bucket: Bucket, from: int, until: int): nat {
    if granted == [] then 0
    else
      var c := granted[|granted| - 1];
      Grants(granted[..|granted| - 1], bucket, from, until)
        + if c.bucket == bucket && from <= c.epoch < until then 1 else 0
  }

  /** All calls on the bucket use one limit and one window. */
  predicate Uniform(calls: seq<Call>, bucket: Bucket, limit: int, window: int) {
    forall i :: 0 <= i < |calls| && calls[i].bucket == bucket ==> calls[i].limit == limit && calls[i].window == window
  }

  /** Each counter is the number of grants in its window, and within the limit. */
  ghost predicate Counted(w: World, bucket: Bucket, limit: int, window: int)
    requires window > 0
  {
    forall k {:trigger WindowStart(k, window)} ::
      var start := WindowStart(k, window);
      Used(w.counters, bucket, start) == Grants(w.granted, bucket, start, start + window) <= limit
  }

  lemma InWindow(epoch: int, window: int, k: int)
    requires window > 0
    ensures WindowStart(k, window) <= epoch < WindowStart(k, window) + window <==> WindowStart(epoch, window) == WindowStart(k, window)
  {
    var start := WindowStart(k, window);
    if start <= epoch < start + window {
      SameQuotient(epoch, k, window);
    }
  }

  lemma SameQuotient(epoch: int, k: int, window: int)
    requires window > 0 && k - k % window <= epoch < k - k % window + window
    ensures epoch - epoch % window == k - k % window
  {
    assert k == (k / window) * window + k % window;
    assert epoch == (epoch / window) * window + epoch % window;
    QuotientIsUnique(epoch, window, k / window);
  }

  lemma CallKeepsCount(w: World, c: Call, bucket: Bucket, limit: int, window: int)
    requires Proper(c) && window > 0 && limit > 0 && Counted(w, bucket, limit, window)
    requires c.bucket == bucket ==> c.limit == limit && c.window == window
    ensures Counted(Take(w, c), bucket, limit, window)
  {
    var w' := Take(w, c);
    var allowed := Consume(w.counters, c.bucket, c.limit, c.window, c.epoch).1.allowed;
    assert allowed ==> w'.granted[..|w'.granted| - 1] == w.granted;
    forall k {:trigger WindowStart(k, window)}
      ensures var start := WindowStart(k, window);
        Used(w'.counters, bucket, start) == Grants(w'.granted, bucket, start, start + window) <= limit
    {
      InWindow(c.epoch, window, k);
      hide WindowStart;
      var start := WindowStart(k, window);
      assert Used(w.counters, bucket, start) == Grants(w.granted, bucket, start, start + window) <= limit;
    }
  }

  lemma {:induction false} PlayKeepsCount(w: World, calls: seq<Call>, bucket: Bucket, limit: int, window: int)
    requires AllProper(calls) && window > 0 && limit > 0 && Counted(w, bucket, limit, window)
    requires Uniform(calls, bucket, limit, window)
    ensures Counted(Play(w, calls), bucket, limit, window)
    decreases |calls|
  {
    if calls != [] {
      CallKeepsCount(w, calls[0], bucket, limit, window);
      hide Counted;
      PlayKeepsCount(Take(w, calls[0]), calls[1..], bucket, limit, window);
    }
  }

  const EMPTY_WORLD: World := World(map[], [])

  lemma {:induction false} GrantsSplit(granted: seq<Call>, bucket: Bucket, from: int, middle: int, until: int)
    requires from <= middle <= until
    ensures Grants(granted, bucket, from, until) == Grants(granted, bucket, from, middle) + Grants(granted, bucket, middle, until)
  {
    if granted != [] {
      GrantsSplit(granted[..|granted| - 1], bucket, from, middle, until);
    }
  }

  /**
   Whatever other buckets do and in whatever order calls come: at most `limit` grants
   in every aligned window, hence at most twice that in any stretch as long as a window.
   */
  lemma AtMostTwiceTheLimit(calls: seq<Call>, bucket: Bucket, limit: int, window: int, t: int)
    requires AllProper(calls) && window > 0 && limit > 0 && Uniform(calls, bucket, limit, window)
    ensures var g := Play(EMPTY_WORLD, calls).granted;
      && Grants(g, bucket, WindowStart(t, window), WindowStart(t, window) + window) <= limit
      && Grants(g, bucket, t, t + window) <= 2 * limit
  {
    PlayKeepsCount(EMPTY_WORLD, calls, bucket, limit, window);
    var g := Play(EMPTY_WORLD, calls).granted;
    var start := WindowStart(t, window);
    assert start <= t < start + window;
    InWindow(start + window, window, start + window);
    NextWindowStarts(t, window);
    assert WindowStart(start + window, window) == start + window;
    GrantsSplit(g, bucket, start, start + window, start + window + window);
    GrantsSplit(g, bucket, start, t, start + window + window);
    GrantsSplit(g, bucket, t, t + window, start + window + window);
  }

  lemma NextWindowStarts(t: int, window: int)
    requires window > 0
    ensures WindowStart(WindowStart(t, window) + window, window) == WindowStart(t, window) + window
  {
    assert t == (t / window) * window + t % window;
    var n := t / window + 1;
    assert n * window == (t / window) * window + window;
    MultipleHasNoRest(n, window);
  }

  lemma MultipleHasNoRest(n: int, window: int)
    requires window > 0
    ensures (n * window) % window == 0
  {
    var a := n * window;
    assert a == (a / window) * window + a % window;
    QuotientIsUnique(a, window, n);
  }

  /** Remaining plus granted is the limit, for every answer; a refusal means the window is used up. */
  lemma RemainingIsExact(calls: seq<Call>, c: Call)
    requires AllProper(calls) && Proper(c) && Uniform(calls, c.bucket, c.limit, c.window)
    ensures var w, start := Play(EMPTY_WORLD, calls), WindowStart(c.epoch, c.window);
      var d := Consume(w.counters, c.bucket, c.limit, c.window, c.epoch).1;
      var after := Take(w, c).granted;
      && d.remaining + Grants(after, c.bucket, start, start + c.window) == c.limit
      && (d.allowed <==> Grants(w.granted, c.bucket, start, start + c.window) < c.limit)
  {
    PlayKeepsCount(EMPTY_WORLD, calls, c.bucket, c.limit, c.window);
    CallKeepsCount(Play(EMPTY_WORLD, calls), c, c.bucket, c.limit, c.window);
    var _ := WindowStart(c.epoch, c.window);
  }

  /** Waiting as told lands exactly on the start of the next window, where a bucket nobody used since is granted again. */
  lemma WaitingAsToldHelps(w: World, c: Call)
    requires Proper(c)
    ensures var d := Consume(w.counters, c.bucket, c.limit, c.window, c.epoch).1;
      var later := c.epoch + d.retryAfter;
      && d.retryAfter >= 1 && later == WindowStart(c.epoch, c.window) + c.window
      && WindowStart(later, c.window) == later
      && (Used(w.counters, c.bucket, later) == 0 ==>
            Consume(w.counters, c.bucket, c.limit, c.window, later).1 == Decision(true, c.limit, c.limit - 1, c.window))
  {
    NextWindowStarts(c.epoch, c.window);
  }

  // ---------- one bucket and another ----------

  /** The first `n` characters agree, and so do the lengths as far as they are below `n`. */
  predicate SamePrefix(a: string, b: string, n: nat) {
    && (|a| == |b| || (|a| >= n && |b| >= n))
    && forall i :: 0 <= i < n && i < |a| && i < |b| ==> a[i] == b[i]
  }

  lemma ClipsAgreeIff(a: string, b: string, n: nat)
    ensures Clip(a, n) == Clip(b, n) <==> SamePrefix(a, b, n)
  {
    var c, d := Clip(a, n), Clip(b, n);
    assert forall i :: 0 <= i < |c| ==> c[i] == a[i];
    assert forall i :: 0 <= i < |d| ==> d[i] == b[i];
    if SamePrefix(a, b, n) {
      assert |c| == |d| && forall i :: 0 <= i < |c| ==> c[i] == d[i];
    } else if |c| == |d| && n > 0 {
      assert exists i :: 0 <= i < |c| && a[i] != b[i];
    }
  }

  /** Two callers share a counter just when their subjects and scopes agree as far as they are stored. */
  lemma SharedBucketIff(subject: string, scope: string, subject': string, scope': string)
    ensures BucketOf(subject, scope) == BucketOf(subject', scope') <==>
      SamePrefix(subject, subject', 256) && SamePrefix(scope, scope', 64)
  {
    ClipsAgreeIff(subject, subject', 256);
    ClipsAgreeIff(scope, scope', 64);
    hide Clip, SamePrefix;
  }

  /** A call on one bucket changes no other bucket's answer. */
  lemma OtherBucketsAreUnaffected(w: World, c: Call, d: Call)
    requires Proper(c) && Proper(d) && c.bucket != d.bucket
    ensures Consume(Take(w, c).counters, d.bucket, d.limit, d.window, d.epoch).1 ==
      Consume(w.counters, d.bucket, d.limit, d.window, d.epoch).1
  {
    hide WindowStart;
  }

  /** So whatever the others did, a caller's first call is granted with the rest of its limit left. */
  lemma {:induction false} FirstCallIsGranted(w: World, calls: seq<Call>, d: Call)
    requires AllProper(calls) && Proper(d) && forall c :: c in calls ==> c.bucket != d.bucket
    requires forall start :: Used(w.counters, d.bucket, start) == 0
    ensures var answer := Consume(Play(w, calls).counters, d.bucket, d.limit, d.window, d.epoch).1;
      answer.allowed && answer.limit == d.limit && answer.remaining == d.limit - 1
    decreases |calls|
  {
    hide WindowStart;
    if calls != [] {
      assert calls[0] in calls && forall c :: c in calls[1..] ==> c in calls;
      forall start ensures Used(Take(w, calls[0]).counters, d.bucket, start) == 0 {
        assert Used(w.counters, d.bucket, start) == 0;
      }
      FirstCallIsGranted(Take(w, calls[0]), calls[1..], d);
    }
  }
}
