/** apps/platform-api, createRateLimiter: a sliding window per route and client. */
module RateLimiter {
  import opened Wrappers

  datatype Answer = Admitted | Refused(retryAfterMs: int)

  /** Limits by route; a limit that is not finite is left out. */
  datatype Config = Config(windowMs: int, limits: map<string, int>)

  function Max(a: int, b: int): int {
    if a < b then b else a
  }

  function WindowMs(config: Config): int {
    Max(1000, if config.windowMs != 0 then config.windowMs else 60000)
  }

  /** The admissions less than a window old. */
  function Recent(w: int, bucket: seq<int>, now: int): (r: seq<int>)
    ensures |r| <= |bucket|
  {
    if bucket == [] then []
    else Recent(w, bucket[..|bucket| - 1], now) + (if now - bucket[|bucket| - 1] < w then [bucket[|bucket| - 1]]
                                                   else [])
  }

  /** One call: the bucket it leaves, and its answer. */
  function Call(w: int, limit: int, bucket: seq<int>, now: int): (seq<int>, Answer)
    requires limit >= 1
  {
    var active := Recent(w, bucket, now);
    if |active| >= limit then (active, Refused(Max(1000, w - (now - active[0]))))
    else (active + [now], Admitted)
  }

  function BucketKey(routeKey: string, identity: string): string {
    routeKey + ":" + identity
  }

  function BucketOf(counters: map<string, seq<int>>, key: string): seq<int> {
    if key in counters then counters[key] else []
  }

  predicate Limited(config: Config, routeKey: string) {
    routeKey in config.limits && config.limits[routeKey] >= 1
  }

  class Limiter {
    const config: Config
    var counters: map<string, seq<int>>

    constructor (config: Config)
      ensures this.config == config && counters == map[]
    {
      this.config, counters := config, map[];
    }

    method Allow(routeKey: string, identity: string, now: int) returns (answer: Answer)
      modifies this
      ensures (routeKey !in config.limits || config.limits[routeKey] < 1) ==>
                answer == Admitted && counters == old(counters)
      ensures routeKey in config.limits && config.limits[routeKey] >= 1 ==>
                var w := if config.windowMs == 0 then 60000 else if config.windowMs < 1000 then 1000
                         else config.windowMs;
                var (bucket, a) :=
                  Call(w, config.limits[routeKey], BucketOf(old(counters), routeKey + ":" + identity), now);
                answer == a && counters == old(counters)[routeKey + ":" + identity := bucket]
    {
      var windowMs := Max(1000, if config.windowMs != 0 then config.windowMs else 60000);
      if routeKey !in config.limits || config.limits[routeKey] <= 0 {
        return Admitted;
      }
      var limit, bucketKey := config.limits[routeKey], BucketKey(routeKey, identity);
      var bucket := if bucketKey in counters then counters[bucketKey] else [];
      var active := [];
      for i := 0 to |bucket|
        invariant active == Recent(windowMs, bucket[..i], now)
      {
        assert bucket[..i + 1][..i] == bucket[..i];
        if now - bucket[i] < windowMs {
          active := active + [bucket[i]];
        }
      }
      assert bucket[..|bucket|] == bucket;
      if |active| >= limit {
        counters := counters[bucketKey := active];
        return Refused(Max(1000, windowMs - (now - active[0])));
      }
      active := active + [now];
      counters := counters[bucketKey := active];
      return Admitted;
    }
  }

  // ----- the full call history of one bucket -----

  datatype History = History(bucket: seq<int>, admitted: seq<int>)

  function Replay(w: int, limit: int, times: seq<int>): History
    requires limit >= 1
  {
    if times == [] then History([], [])
    else
      var before, now := Replay(w, limit, times[..|times| - 1]), times[|times| - 1];
      var (bucket, answer) := Call(w, limit, before.bucket, now);
      History(bucket, if answer.Admitted? then before.admitted + [now] else before.admitted)
  }

  /** The answer to the k-th call. */
  function AnswerAt(w: int, limit: int, times: seq<int>, k: nat): Answer
    requires limit >= 1 && k < |times|
  {
    Call(w, limit, Replay(w, limit, times[..k]).bucket, times[k]).1
  }

  ghost predicate Monotone(times: seq<int>) {
    forall i, j | 0 <= i < j < |times| :: times[i] <= times[j]
  }

  /** How many of the times lie in [from, from + w). */
  function CountIn(times: seq<int>, from: int, w: int): nat {
    if times == [] then 0
    else CountIn(times[..|times| - 1], from, w) + (if from <= times[|times| - 1] < from + w then 1 else 0)
  }

  lemma {:induction false} RecentTwice(w: int, bucket: seq<int>, now: int, later: int)
    requires now <= later
    ensures Recent(w, Recent(w, bucket, now), later) == Recent(w, bucket, later)
  {
    if bucket != [] {
      var init, last := bucket[..|bucket| - 1], bucket[|bucket| - 1];
      RecentTwice(w, init, now, later);
      var r := Recent(w, init, now);
      assert (r + [last])[..|r|] == r && r + [] == r;
    }
  }

  lemma RecentOne(w: int, bucket: seq<int>, now: int)
    requires bucket != []
    ensures var init, last := bucket[..|bucket| - 1], bucket[|bucket| - 1];
            Recent(w, bucket, now) == if now - last < w then Recent(w, init, now) + [last] else Recent(w, init, now)
  {
  }

  lemma {:induction false} RecentFrom(w: int, times: seq<int>, now: int, k: nat)
    requires k <= |times|
    requires forall i | 0 <= i < k :: now - times[i] >= w
    requires forall i | k <= i < |times| :: now - times[i] < w
    ensures Recent(w, times, now) == times[k..]
  {
    if times != [] {
      var init, last := times[..|times| - 1], times[|times| - 1];
      RecentOne(w, times, now);
      hide *;
      assert forall i | 0 <= i < |init| :: init[i] == times[i];
      if k == |times| {
        RecentFrom(w, init, now, k - 1);
        assert init[k - 1..] == times[k..] == [];
      } else {
        RecentFrom(w, init, now, k);
        assert times[k..] == init[k..] + [last];
      }
    }
  }

  /** Of sorted times the recent ones are a suffix. */
  lemma RecentIsSuffix(w: int, times: seq<int>, now: int) returns (k: nat)
    requires Monotone(times)
    ensures k <= |times| && Recent(w, times, now) == times[k..]
    ensures forall i | 0 <= i < |times| :: now - times[i] < w <==> k <= i
  {
    k := 0;
    while k < |times| && now - times[k] >= w
      invariant k <= |times| && forall i | 0 <= i < k :: now - times[i] >= w
    {
      k := k + 1;
    }
    assert forall i | k <= i < |times| :: times[k] <= times[i];
    RecentFrom(w, times, now, k);
  }

  ghost predicate Spaced(w: int, limit: nat, admitted: seq<int>) {
    forall i | 0 <= i < |admitted| - limit :: admitted[i + limit] - admitted[i] >= w
  }

  /**
   What holds when a call is made at `now`: the bucket keeps what still counts, and admissions are sorted and spaced.
   */
  ghost predicate Ready(w: int, limit: nat, h: History, now: int) {
    && Monotone(h.admitted) && Spaced(w, limit, h.admitted)
    && (forall i | 0 <= i < |h.admitted| :: h.admitted[i] <= now)
    && Recent(w, h.bucket, now) == Recent(w, h.admitted, now) && |Recent(w, h.bucket, now)| <= limit
  }

  /** The bucket a call leaves holds the admissions that still count, the new one included. */
  lemma CallBucket(w: int, limit: int, h: History, now: int)
    requires limit >= 1 && w >= 1 && Recent(w, h.bucket, now) == Recent(w, h.admitted, now)
    ensures var (bucket, answer) := Call(w, limit, h.bucket, now);
            bucket == Recent(w, if answer.Admitted? then h.admitted + [now] else h.admitted, now)
    ensures |Recent(w, h.bucket, now)| <= limit ==> |Call(w, limit, h.bucket, now).0| <= limit
  {
    assert (h.admitted + [now])[..|h.admitted|] == h.admitted;
  }

  lemma AdmissionIsSpaced(w: int, limit: nat, admitted: seq<int>, now: int)
    requires Monotone(admitted) && Spaced(w, limit, admitted) && |Recent(w, admitted, now)| < limit
    ensures Spaced(w, limit, admitted + [now])
  {
    var k := RecentIsSuffix(w, admitted, now);
    hide Recent;
  }

  lemma ReadyLater(w: int, limit: nat, h: History, now: int, later: int)
    requires now <= later && Monotone(h.admitted) && Spaced(w, limit, h.admitted)
    requires h.bucket == Recent(w, h.admitted, now) && |h.bucket| <= limit && forall i | 0 <= i < |h.admitted| ::
               h.admitted[i] <= now
    ensures Ready(w, limit, h, later)
  {
    RecentTwice(w, h.admitted, now, later);
    assert |Recent(w, h.bucket, later)| <= |h.bucket|;
    hide Recent;
  }

  lemma AdmissionIsLast(admitted: seq<int>, now: int)
    requires Monotone(admitted) && forall i | 0 <= i < |admitted| :: admitted[i] <= now
    ensures Monotone(admitted + [now]) && forall i | 0 <= i <= |admitted| :: (admitted + [now])[i] <= now
  {
  }

  lemma CallKeepsReady(w: int, limit: int, h: History, now: int, later: int)
    requires limit >= 1 && w >= 1 && now <= later && Ready(w, limit, h, now)
    ensures var (bucket, answer) := Call(w, limit, h.bucket, now);
            Ready(w, limit, History(bucket, if answer.Admitted? then h.admitted + [now] else h.admitted), later)
  {
    CallBucket(w, limit, h, now);
    var (bucket, answer) := Call(w, limit, h.bucket, now);
    var admitted := if answer.Admitted? then h.admitted + [now] else h.admitted;
    if answer.Admitted? {
      AdmissionIsSpaced(w, limit, h.admitted, now);
      AdmissionIsLast(h.admitted, now);
    }
    hide Recent, Call, Spaced, Monotone;
    ReadyLater(w, limit, History(bucket, admitted), now, later);
  }

  lemma ReadySays(w: int, limit: nat, h: History, now: int)
    requires Ready(w, limit, h, now)
    ensures Monotone(h.admitted) && Spaced(w, limit, h.admitted)
    ensures Recent(w, h.bucket, now) == Recent(w, h.admitted, now) && |Recent(w, h.bucket, now)| <= limit
    ensures forall i | 0 <= i < |h.admitted| :: h.admitted[i] <= now
  {
    hide Recent, Spaced, Monotone;
  }

  lemma {:induction false} ReplayIsReady(w: int, limit: int, times: seq<int>, now: int)
    requires limit >= 1 && w >= 1 && Monotone(times) && (times != [] ==> times[|times| - 1] <= now)
    ensures Ready(w, limit, Replay(w, limit, times), now)
  {
    if times != [] {
      var init, last := times[..|times| - 1], times[|times| - 1];
      ReplayIsReady(w, limit, init, last);
      CallKeepsReady(w, limit, Replay(w, limit, init), last, now);
      hide Ready, Call;
    }
  }

  lemma {:induction false} MoreThanLimit(times: seq<int>, from: int, w: int) returns (first: nat)
    requires Monotone(times)
    ensures CountIn(times, from, w) == 0 ||
            (first + CountIn(times, from, w) <= |times|
             && times[first] >= from && times[first + CountIn(times, from, w) - 1] < from + w)
  {
    first := 0;
    if times != [] {
      var init, last := times[..|times| - 1], times[|times| - 1];
      first := MoreThanLimit(init, from, w);
      if from <= last < from + w {
        if CountIn(init, from, w) == 0 {
          first := |times| - 1;
        } else {
          assert times[first + CountIn(init, from, w)] <= last;
        }
      }
    }
  }

  /** Admissions that are `limit` places apart never share a window. */
  lemma FarApart(w: int, limit: nat, admitted: seq<int>, i: nat, j: nat)
    requires Monotone(admitted) && Spaced(w, limit, admitted) && i + limit <= j < |admitted|
    ensures admitted[j] - admitted[i] >= w
  {
    assert admitted[i + limit] - admitted[i] >= w;
  }

  lemma SpacedMeansFew(w: int, limit: nat, admitted: seq<int>, from: int)
    requires Monotone(admitted) && Spaced(w, limit, admitted)
    ensures CountIn(admitted, from, w) <= limit
  {
    hide CountIn, Monotone, Spaced;
    var first := MoreThanLimit(admitted, from, w);
    var count := CountIn(admitted, from, w);
    if count > limit {
      FarApart(w, limit, admitted, first, first + count - 1);
    }
  }

  /** No window of windowMs, wherever it starts, contains more than `limit` admissions. */
  lemma NoWindowExceedsLimit(w: int, limit: int, times: seq<int>, from: int)
    requires limit >= 1 && w >= 1 && Monotone(times)
    ensures CountIn(Replay(w, limit, times).admitted, from, w) <= limit
  {
    hide *;
    var now := if times == [] then 0 else times[|times| - 1];
    ReplayIsReady(w, limit, times, now);
    ReadySays(w, limit, Replay(w, limit, times), now);
    SpacedMeansFew(w, limit, Replay(w, limit, times).admitted, from);
  }

  lemma {:induction false} CountRecent(w: int, times: seq<int>, now: int)
    requires forall i | 0 <= i < |times| :: times[i] <= now
    ensures |Recent(w, times, now)| == CountIn(times, now - w + 1, w)
  {
    if times != [] {
      CountRecent(w, times[..|times| - 1], now);
    }
  }

  lemma Answers(w: int, limit: int, times: seq<int>, k: nat)
    requires limit >= 1 && k < |times|
    ensures var active := Recent(w, Replay(w, limit, times[..k]).bucket, times[k]);
            && (AnswerAt(w, limit, times, k).Admitted? <==> |active| < limit)
            && (|active| >= limit ==>
                  AnswerAt(w, limit, times, k).retryAfterMs == Max(1000, w - (times[k] - active[0])))
  {
    hide Recent;
  }

  lemma BeforeIsSorted(times: seq<int>, k: nat)
    requires Monotone(times) && k < |times|
    ensures Monotone(times[..k]) && (times[..k] != [] ==> times[..k][|times[..k]| - 1] <= times[k])
  {
  }

  lemma RefusedNow(w: int, limit: int, before: seq<int>, now: int)
    requires limit >= 1 && w >= 1 && Monotone(before) && (before != [] ==> before[|before| - 1] <= now)
    ensures Call(w, limit, Replay(w, limit, before).bucket, now).1.Refused? <==>
            CountIn(Replay(w, limit, before).admitted, now - w + 1, w) == limit
  {
    hide Recent, CountIn, Replay, Monotone, Spaced, Ready;
    ReplayIsReady(w, limit, before, now);
    ReadySays(w, limit, Replay(w, limit, before), now);
    CountRecent(w, Replay(w, limit, before).admitted, now);
  }

  /** A call is refused exactly when `limit` admissions lie in the window that ends with it. */
  lemma RefusedIff(w: int, limit: int, times: seq<int>, k: nat)
    requires limit >= 1 && w >= 1 && Monotone(times) && k < |times|
    ensures AnswerAt(w, limit, times, k).Refused? <==>
            CountIn(Replay(w, limit, times[..k]).admitted, times[k] - w + 1, w) == limit
  {
    BeforeIsSorted(times, k);
    RefusedNow(w, limit, times[..k], times[k]);
    hide Replay, Call, CountIn, Monotone;
  }

  /**
   Refused at call k: the next call is admitted exactly when the oldest counted admission has left the window by then.
   */
  lemma NextCallAdmittedIff(w: int, limit: int, times: seq<int>, k: nat)
    requires limit >= 1 && w >= 1 && Monotone(times) && k + 1 < |times| && AnswerAt(w, limit, times, k).Refused?
    ensures var counted := Recent(w, Replay(w, limit, times[..k]).admitted, times[k]);
            && |counted| == limit
            && AnswerAt(w, limit, times, k).retryAfterMs == Max(1000, counted[0] + w - times[k])
            && (AnswerAt(w, limit, times, k + 1).Admitted? <==> times[k + 1] - counted[0] >= w)
  {
    hide Recent, Replay, Spaced, AnswerAt;
    var h, now, later := Replay(w, limit, times[..k]), times[k], times[k + 1];
    ReplayIsReady(w, limit, times[..k], now);
    Answers(w, limit, times, k);
    Answers(w, limit, times, k + 1);
    RefusedKeeps(w, limit, times, k);
    CountedLeaves(w, h.admitted, now, later);
  }

  /** A refused call leaves the admissions that still count, and admits nothing. */
  lemma RefusedKeeps(w: int, limit: int, times: seq<int>, k: nat)
    requires limit >= 1 && k < |times| && AnswerAt(w, limit, times, k).Refused?
    ensures var h := Replay(w, limit, times[..k]);
            Replay(w, limit, times[..k + 1]) == History(Recent(w, h.bucket, times[k]), h.admitted)
  {
    assert times[..k + 1][..k] == times[..k];
    hide Recent;
  }

  /** Of the admissions that counted at `now`, all still count later exactly when the oldest does. */
  lemma CountedLeaves(w: int, admitted: seq<int>, now: int, later: int)
    requires Monotone(admitted) && now <= later && Recent(w, admitted, now) != []
    ensures var counted := Recent(w, admitted, now);
            |Recent(w, counted, later)| == |counted| <==> later - counted[0] < w
  {
    var counted := Recent(w, admitted, now);
    var k := RecentIsSuffix(w, admitted, now);
    var j := RecentIsSuffix(w, counted, later);
    hide Recent;
  }

  /** A caller that waits the returned retryAfterMs, with no other call in between, is admitted. */
  lemma WaitingIsEnough(w: int, limit: int, times: seq<int>, k: nat)
    requires limit >= 1 && w >= 1 && Monotone(times) && k + 1 < |times| && AnswerAt(w, limit, times, k).Refused?
    requires times[k + 1] >= times[k] + AnswerAt(w, limit, times, k).retryAfterMs
    ensures AnswerAt(w, limit, times, k + 1) == Admitted
  {
    NextCallAdmittedIff(w, limit, times, k);
    hide AnswerAt, Replay, Recent;
  }

  // ----- buckets do not disturb each other -----

  datatype Attempt = Attempt(routeKey: string, identity: string, now: int)

  /** The counters after a sequence of calls. */
  function After(config: Config, calls: seq<Attempt>): map<string, seq<int>> {
    if calls == [] then map[]
    else
      var before, c := After(config, calls[..|calls| - 1]), calls[|calls| - 1];
      if !Limited(config, c.routeKey) then before
      else
        var key := BucketKey(c.routeKey, c.identity);
        before[key := Call(WindowMs(config), config.limits[c.routeKey], BucketOf(before, key), c.now).0]
  }

  /** The times of the calls of one route by one client. */
  function Times(calls: seq<Attempt>, routeKey: string, identity: string): seq<int> {
    if calls == [] then []
    else
      var c := calls[|calls| - 1];
      Times(calls[..|calls| - 1], routeKey, identity) +
      (if c.routeKey == routeKey && c.identity == identity then [c.now] else [])
  }

  ghost predicate ColonFree(s: string) {
    ':' !in s
  }

  /** Bucket keys are unambiguous when no route key contains a colon. */
  lemma KeysDiffer(r1: string, i1: string, r2: string, i2: string)
    requires ColonFree(r1) && ColonFree(r2) && BucketKey(r1, i1) == BucketKey(r2, i2)
    ensures r1 == r2 && i1 == i2
  {
    var k := BucketKey(r1, i1);
    KeyStart(r1, i1);
    KeyStart(r2, i2);
    assert r1 == k[..|r1|] && i1 == k[|r1| + 1..];
    assert r2 == k[..|r2|] && i2 == k[|r2| + 1..];
  }

  lemma KeyStart(r: string, i: string)
    requires ColonFree(r)
    ensures BucketKey(r, i)[|r|] == ':' && forall j | 0 <= j < |r| :: BucketKey(r, i)[j] != ':'
  {
    forall j | 0 <= j < |r| ensures BucketKey(r, i)[j] != ':' {
      assert BucketKey(r, i)[j] == r[j] && r[j] in r;
    }
  }

  /** Whatever else is called, a bucket is what its own calls alone make of it. */
  lemma {:induction false} BucketsAreIndependent(config: Config, calls: seq<Attempt>, routeKey: string,
                                                 identity: string)
    requires Limited(config, routeKey) && ColonFree(routeKey) && forall c | c in calls :: ColonFree(c.routeKey)
    ensures BucketOf(After(config, calls), BucketKey(routeKey, identity)) ==
            Replay(WindowMs(config), config.limits[routeKey], Times(calls, routeKey, identity)).bucket
  {
    if calls != [] {
      var init, c := calls[..|calls| - 1], calls[|calls| - 1];
      BucketsAreIndependent(config, init, routeKey, identity);
      assert c in calls;
      if BucketKey(c.routeKey, c.identity) == BucketKey(routeKey, identity) {
        KeysDiffer(c.routeKey, c.identity, routeKey, identity);
        var t := Times(init, routeKey, identity);
        assert (t + [c.now])[..|t|] == t;
      }
      assert Times(init, routeKey, identity) + [] == Times(init, routeKey, identity);
      hide Call, BucketKey, WindowMs;
    }
  }
}
