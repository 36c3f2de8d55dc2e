/**
 The request metrics: a bounded buffer of requests and running statistics per endpoint, proved equal to
 what the whole history of requests gives, and the summary of the last minutes. Durations are whole
 microseconds; a timestamp is an instant in seconds.
 */
module Metrics {
  import opened Options
  import opened Tallies

  const MAX_REQUESTS: nat := 5000
  const MAX_ERRORS: nat := 500
  const SLOW: nat := 500000

  datatype Request = Request(endpoint: string, status: nat, duration: nat, at: nat)

  datatype Stats = Stats(count: nat, total: nat, min: Option<nat>, max: nat, errors: nat, codes: map<nat, nat>, last: Option<nat>)

  // ---------- statistics of a history ----------

  function EmptyStats(): Stats {
    Stats(0, 0, None, 0, 0, map[], None)
  }

  /** The update of one request; None is the infinity the minimum starts from. */
  function Updated(stats: Stats, r: Request): Stats {
    Stats(stats.count + 1,
          stats.total + r.duration,
          Some(if stats.min.Some? && stats.min.value < r.duration then stats.min.value else r.duration),
          if stats.max > r.duration then stats.max else r.duration,
          stats.errors + (if r.status >= 400 then 1 else 0),
          Bump(stats.codes, r.status),
          Some(r.at))
  }

  function StatsOf(history: seq<Request>): Stats {
    if history == [] then EmptyStats() else Updated(StatsOf(history[..|history| - 1]), history[|history| - 1])
  }

  function OfEndpoint(history: seq<Request>, endpoint: string): seq<Request> {
    if history == [] then []
    else
      OfEndpoint(history[..|history| - 1], endpoint)
      + (if history[|history| - 1].endpoint == endpoint then [history[|history| - 1]] else [])
  }

  function ServerErrors(history: seq<Request>): seq<Request> {
    if history == [] then []
    else ServerErrors(history[..|history| - 1]) + (if history[|history| - 1].status >= 500 then [history[|history| - 1]] else [])
  }

  function Errors(codes: map<nat, nat>): map<nat, nat> {
    map code | code in codes && code >= 400 :: codes[code]
  }

  /**
   The statistics of any history add up: the status codes to the count, the codes from 400 on to the
   errors, and the total lies between count times the shortest and count times the longest.
   */
  lemma StatsAddUp(history: seq<Request>)
    ensures var stats := StatsOf(history);
            && stats.count == |history| == Total(stats.codes)
            && stats.errors == Total(Errors(stats.codes))
            && (history != [] ==> stats.min.Some? && stats.count * stats.min.value <= stats.total)
            && stats.total <= stats.count * stats.max
  {
    CodesAddUp(history);
    TotalIsBetween(history);
  }

  lemma {:induction false} CodesAddUp(history: seq<Request>)
    ensures var stats := StatsOf(history);
            stats.count == |history| == Total(stats.codes) && stats.errors == Total(Errors(stats.codes))
  {
    if history == [] {
      assert Errors(map[]) == map[];
    } else {
      var before, r := StatsOf(history[..|history| - 1]), history[|history| - 1];
      CodesAddUp(history[..|history| - 1]);
      TotalOfBump(before.codes, r.status);
      ErrorsOfBump(before.codes, r.status);
    }
  }

  lemma {:induction false} TotalIsBetween(history: seq<Request>)
    ensures var stats := StatsOf(history);
            && (history != [] ==> stats.min.Some? && stats.count * stats.min.value <= stats.total)
            && stats.total <= stats.count * stats.max
  {
    if history != [] {
      var before := StatsOf(history[..|history| - 1]);
      TotalIsBetween(history[..|history| - 1]);
      var after := StatsOf(history);
      Scaled(before.count, before.max, after.max);
      if before.min.Some? {
        Scaled(before.count, after.min.value, before.min.value);
      } else {
        assert history[..|history| - 1] == [];
      }
    }
  }

  function Sum(durations: seq<nat>): nat {
    if durations == [] then 0 else Sum(durations[..|durations| - 1]) + durations[|durations| - 1]
  }

  function Codes(history: seq<Request>): (codes: seq<nat>)
    ensures |codes| == |history|
  {
    seq(|history|, i requires 0 <= i < |history| => history[i].status)
  }

  /** The total is the sum of the durations, the codes are their tally, and the last call is the last. */
  lemma {:induction false} TotalsAreSums(history: seq<Request>)
    ensures var stats := StatsOf(history);
            && stats.total == Sum(Durations(history))
            && stats.codes == TallyOf(Codes(history))
            && (history != [] ==> stats.last == Some(history[|history| - 1].at))
  {
    if history != [] {
      var init := history[..|history| - 1];
      TotalsAreSums(init);
      assert Durations(history)[..|init|] == Durations(init) && Codes(history)[..|init|] == Codes(init);
    }
  }

  predicate Extremes(history: seq<Request>, min: nat, max: nat) {
    && (forall r | r in history :: min <= r.duration <= max)
    && (exists r :: r in history && r.duration == min)
    && (exists r :: r in history && r.duration == max)
  }

  /** The minimum and the maximum are the shortest and the longest request. */
  lemma {:induction false} ExtremesAreReached(history: seq<Request>)
    requires history != []
    ensures var stats := StatsOf(history);
            stats.min.Some? && Extremes(history, stats.min.value, stats.max)
  {
    hide Bump;
    var init, last := history[..|history| - 1], history[|history| - 1];
    assert history == init + [last];
    if init != [] {
      var before, after := StatsOf(init), StatsOf(history);
      ExtremesAreReached(init);
      OneMore(init, last, before.min.value, before.max, after.min.value, after.max);
    } else {
      assert last in history;
    }
  }

  lemma OneMore(init: seq<Request>, last: Request, min: nat, max: nat, min': nat, max': nat)
    requires Extremes(init, min, max)
    requires min' == (if min < last.duration then min else last.duration) && max' == (if max > last.duration then max else last.duration)
    ensures Extremes(init + [last], min', max')
  {
    assert last in init + [last];
    var a, b :| a in init && a.duration == min && b in init && b.duration == max;
    assert a in init + [last] && b in init + [last];
  }

  lemma Scaled(count: nat, a: nat, b: nat)
    requires a <= b
    ensures count * a <= count * b && (count + 1) * b == count * b + b && (count + 1) * a == count * a + a
  {
  }

  lemma ErrorsOfBump(codes: map<nat, nat>, code: nat)
    ensures Total(Errors(Bump(codes, code))) == Total(Errors(codes)) + (if code >= 400 then 1 else 0)
  {
    if code >= 400 {
      assert Errors(Bump(codes, code)) == Bump(Errors(codes), code);
      TotalOfBump(Errors(codes), code);
    } else {
      assert Errors(Bump(codes, code)) == Errors(codes);
    }
  }

  // ---------- the store ----------

  /** A bounded buffer keeps the newest n. */
  function Newest<T>(s: seq<T>, n: nat): seq<T> {
    if |s| <= n then s else s[|s| - n..]
  }

  lemma NewestAppend<T>(s: seq<T>, x: T, n: nat)
    requires n > 0
    ensures Newest(Newest(s, n) + [x], n) == Newest(s + [x], n)
  {
  }

  lemma NewestAre<T>(s: seq<T>, n: nat)
    ensures Newest(s, n) == if |s| <= n then s else s[|s| - n..]
  {
  }

  function Entry(table: map<string, Stats>, endpoint: string): Stats {
    if endpoint in table then table[endpoint] else EmptyStats()
  }

  class Store {
    var requests: seq<Request>
    var endpoints: map<string, Stats>
    var errors: seq<Request>
    var rateLimitHits: nat
    var rateLimitByEndpoint: map<string, nat>
    ghost var history: seq<Request>

    constructor ()
      ensures Valid() && history == [] && rateLimitHits == 0
    {
      requests, endpoints, errors, rateLimitHits, rateLimitByEndpoint, history := [], map[], [], 0, map[], [];
    }

    /** Everything the store holds, as a function of all requests ever recorded. */
    ghost predicate Valid()
      reads this
    {
      && requests == Newest(history, MAX_REQUESTS)
      && errors == Newest(ServerErrors(history), MAX_ERRORS)
      && (forall endpoint: string :: Entry(endpoints, endpoint) == StatsOf(OfEndpoint(history, endpoint)))
      && rateLimitHits == Total(rateLimitByEndpoint)
    }

    method RecordRequest(r: Request)
      requires Valid()
      modifies this
      ensures Valid() && history == old(history) + [r]
      ensures requests == if |history| <= 5000 then history else history[|history| - 5000..]
      ensures var failed := ServerErrors(history); errors == if |failed| <= 500 then failed else failed[|failed| - 500..]
    {
      hide Newest, StatsOf, OfEndpoint, ServerErrors;
      NewestAre(history + [r], MAX_REQUESTS);
      NewestAre(ServerErrors(history + [r]), MAX_ERRORS);
      HistoryGrows(history, r);
      NewestAppend(history, r, MAX_REQUESTS);
      NewestAppend(ServerErrors(history), r, MAX_ERRORS);
      requests := Newest(requests + [r], MAX_REQUESTS);
      var stats := Entry(endpoints, r.endpoint);
      endpoints := endpoints[r.endpoint := Updated(stats, r)];
      if r.status >= 500 {
        errors := Newest(errors + [r], MAX_ERRORS);
      }
      history := history + [r];
    }

    method RecordRateLimitHit(path: string)
      requires Valid()
      modifies this`rateLimitHits, this`rateLimitByEndpoint
      ensures Valid() && rateLimitHits == old(rateLimitHits) + 1
      ensures rateLimitByEndpoint == Bump(old(rateLimitByEndpoint), path)
    {
      TotalOfBump(rateLimitByEndpoint, path);
      rateLimitHits := rateLimitHits + 1;
      rateLimitByEndpoint := Bump(rateLimitByEndpoint, path);
    }
  }

  lemma HistoryGrows(history: seq<Request>, r: Request)
    ensures ServerErrors(history + [r]) == (if r.status >= 500 then ServerErrors(history) + [r] else ServerErrors(history))
    ensures forall endpoint: string :: endpoint != r.endpoint ==> OfEndpoint(history + [r], endpoint) == OfEndpoint(history, endpoint)
    ensures StatsOf(OfEndpoint(history + [r], r.endpoint)) == Updated(StatsOf(OfEndpoint(history, r.endpoint)), r)
  {
    assert (history + [r])[..|history|] == history;
    var own := OfEndpoint(history, r.endpoint);
    assert (own + [r])[..|own|] == own;
  }

  // ---------- the summary ----------

  datatype Summary = Summary(
    total: nat, errors: nat, slow: nat,
    p50: nat, p95: nat, p99: nat,
    classes: map<nat, nat>, endpoints: map<string, nat>, timeline: map<nat, nat>)

  function Recent(requests: seq<Request>, cutoff: int): (recent: seq<Request>)
    ensures forall r :: multiset(recent)[r] == if r.at > cutoff then multiset(requests)[r] else 0
  {
    if requests == [] then []
    else
      SplitLast(requests);
      Recent(requests[..|requests| - 1], cutoff)
      + (if requests[|requests| - 1].at > cutoff then [requests[|requests| - 1]] else [])
  }

  lemma SplitLast(requests: seq<Request>)
    requires requests != []
    ensures requests == requests[..|requests| - 1] + [requests[|requests| - 1]]
  {
  }

  function Durations(requests: seq<Request>): (durations: seq<nat>)
    ensures |durations| == |requests|
    ensures forall i | 0 <= i < |requests| :: durations[i] == requests[i].duration
  {
    seq(|requests|, i requires 0 <= i < |requests| => requests[i].duration)
  }

  function Classes(requests: seq<Request>): (keys: seq<nat>)
    ensures |keys| == |requests|
    ensures forall i | 0 <= i < |requests| :: 100 * keys[i] <= requests[i].status < 100 * (keys[i] + 1)
  {
    seq(|requests|, i requires 0 <= i < |requests| => requests[i].status / 100)
  }

  function Minutes(requests: seq<Request>): (keys: seq<nat>)
    ensures |keys| == |requests|
    ensures forall i | 0 <= i < |requests| :: 60 * keys[i] <= requests[i].at < 60 * (keys[i] + 1)
  {
    seq(|requests|, i requires 0 <= i < |requests| => requests[i].at / 60)
  }

  function Endpoints(requests: seq<Request>): (keys: seq<string>)
    ensures |keys| == |requests|
    ensures forall i | 0 <= i < |requests| :: keys[i] == requests[i].endpoint
  {
    seq(|requests|, i requires 0 <= i < |requests| => requests[i].endpoint)
  }

  function Failed(requests: seq<Request>): (failed: seq<Request>)
    ensures forall r :: multiset(failed)[r] == if r.status >= 400 then multiset(requests)[r] else 0
  {
    if requests == [] then []
    else
      SplitLast(requests);
      Failed(requests[..|requests| - 1]) + (if requests[|requests| - 1].status >= 400 then [requests[|requests| - 1]] else [])
  }

  /** Slower than half a second. */
  function Slow(requests: seq<Request>): (slow: seq<Request>)
    ensures forall r :: multiset(slow)[r] == if r.duration > 500000 then multiset(requests)[r] else 0
  {
    if requests == [] then []
    else
      SplitLast(requests);
      Slow(requests[..|requests| - 1]) + (if requests[|requests| - 1].duration > SLOW then [requests[|requests| - 1]] else [])
  }

  /** More than the percentage of the durations are at most this long, and no more than it are shorter. */
  predicate Percentile(durations: seq<nat>, percent: nat, value: nat) {
    AtMost(durations, value) * 100 > |durations| * percent && AtMost(durations, value as int - 1) * 100 <= |durations| * percent
  }

  /** The index of a percentile is in range. */
  function Pick(sorted: seq<nat>, percent: nat): nat
    requires sorted != [] && percent < 100
  {
    assert |sorted| * percent / 100 < |sorted| by { InRange(|sorted|, percent); }
    sorted[|sorted| * percent / 100]
  }

  lemma InRange(n: nat, percent: nat)
    requires n > 0 && percent < 100
    ensures n * percent / 100 < n
  {
    assert n * percent <= n * 99;
  }

  lemma PickIsPercentile(durations: seq<nat>, percent: nat)
    requires durations != [] && percent < 100
    ensures |Sort(durations)| == |durations|
    ensures Percentile(durations, percent, Pick(Sort(durations), percent))
  {
    SortFacts(durations, 0);
    InRange(|durations|, percent);
    var i := |durations| * percent / 100;
    RankOf(durations, i);
    assert i * 100 <= |durations| * percent < (i + 1) * 100;
  }

  lemma PicksInOrder(sorted: seq<nat>, low: nat, high: nat)
    requires sorted != [] && Ascending(sorted) && low <= high < 100
    ensures Pick(sorted, low) <= Pick(sorted, high)
  {
    InRange(|sorted|, low);
    InRange(|sorted|, high);
    RankGrows(|sorted|, low, high);
  }

  lemma RankGrows(n: nat, low: nat, high: nat)
    requires low <= high
    ensures n * low / 100 <= n * high / 100
  {
    HundredthsGrow(n * low, n * high);
  }

  lemma HundredthsGrow(a: nat, b: nat)
    ensures a <= b ==> a / 100 <= b / 100
  {
  }

  /** The summary of the requests after the cutoff: every table sums up to their number. */
  method GetSummary(requests: seq<Request>, cutoff: int) returns (summary: Summary)
    ensures var recent := Recent(requests, cutoff);
            && summary.total == |recent| == Total(summary.classes) == Total(summary.endpoints) == Total(summary.timeline)
            && summary.classes == TallyOf(Classes(recent))
            && summary.endpoints == TallyOf(Endpoints(recent))
            && summary.timeline == TallyOf(Minutes(recent))
            && summary.errors == |Failed(recent)| && summary.slow == |Slow(recent)|
            && (recent != [] ==>
                  && Percentile(Durations(recent), 50, summary.p50)
                  && Percentile(Durations(recent), 95, summary.p95)
                  && Percentile(Durations(recent), 99, summary.p99))
            && summary.p50 <= summary.p95 <= summary.p99
  {
    hide Percentile, Recent, Failed, Slow, TallyOf;
    var recent := Recent(requests, cutoff);
    var classes, endpoints, timeline := TallyRecent(recent);
    TallyFacts(Classes(recent));
    TallyFacts(Endpoints(recent));
    TallyFacts(Minutes(recent));
    var p50, p95, p99 := 0, 0, 0;
    if recent != [] {
      var durations := Sort(Durations(recent));
      PickIsPercentile(Durations(recent), 50);
      PickIsPercentile(Durations(recent), 95);
      PickIsPercentile(Durations(recent), 99);
      p50, p95, p99 := Pick(durations, 50), Pick(durations, 95), Pick(durations, 99);
      SortFacts(Durations(recent), 0);
      PicksInOrder(durations, 50, 95);
      PicksInOrder(durations, 95, 99);
    }
    summary := Summary(|recent|, |Failed(recent)|, |Slow(recent)|, p50, p95, p99, classes, endpoints, timeline);
  }

  /** The counting loops. */
  method TallyRecent(recent: seq<Request>) returns (classes: map<nat, nat>, endpoints: map<string, nat>, timeline: map<nat, nat>)
    ensures classes == TallyOf(Classes(recent)) && endpoints == TallyOf(Endpoints(recent)) && timeline == TallyOf(Minutes(recent))
  {
    classes, endpoints, timeline := map[], map[], map[];
    var n := 0;
    while n < |recent|
      invariant n <= |recent|
      invariant classes == TallyOf(Classes(recent[..n]))
      invariant endpoints == TallyOf(Endpoints(recent[..n]))
      invariant timeline == TallyOf(Minutes(recent[..n]))
    {
      NextKeys(recent, n);
      classes := Bump(classes, recent[n].status / 100);
      endpoints := Bump(endpoints, recent[n].endpoint);
      timeline := Bump(timeline, recent[n].at / 60);
      n := n + 1;
    }
    assert recent[..|recent|] == recent;
  }

  lemma NextKeys(recent: seq<Request>, n: nat)
    requires n < |recent|
    ensures TallyOf(Classes(recent[..n + 1])) == Bump(TallyOf(Classes(recent[..n])), recent[n].status / 100)
    ensures TallyOf(Endpoints(recent[..n + 1])) == Bump(TallyOf(Endpoints(recent[..n])), recent[n].endpoint)
    ensures TallyOf(Minutes(recent[..n + 1])) == Bump(TallyOf(Minutes(recent[..n])), recent[n].at / 60)
  {
    assert Classes(recent[..n + 1])[..n] == Classes(recent[..n]);
    assert Endpoints(recent[..n + 1])[..n] == Endpoints(recent[..n]);
    assert Minutes(recent[..n + 1])[..n] == Minutes(recent[..n]);
  }
}
