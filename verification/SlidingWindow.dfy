/**
 The in-memory sliding window: a deque of admission times per bucket, trimmed on every check, and a
 cleanup that drops stale buckets. It is proved to decide as a limiter that keeps every admission for
 ever, for any sequence of calls under a clock that does not run backwards.
 */
module SlidingWindow {
  import opened RateLimits

  /** Age at which the cleanup drops a bucket, in seconds. */
  const STALE: real := 120.0

  datatype Info = Info(limit: nat, remaining: nat, reset: int, category: string)

  /** What the caller is told; the reset time is the end of the window, cut to whole seconds, for a time that is not negative. */
  function Answer(limit: Limit, allowed: bool, used: nat, now: real, category: string): Info {
    var left := limit.max - used - 1;
    Info(limit.max, if allowed && left > 0 then left else 0, (now + limit.window).Floor, category)
  }

  // ---------- the full log ----------

  predicate Sorted(log: seq<real>) {
    forall i, j | 0 <= i < j < |log| :: log[i] <= log[j]
  }

  /** How many entries lie in the closed interval. */
  function Within(log: seq<real>, lo: real, hi: real): (n: nat)
    ensures n <= |log|
  {
    if log == [] then 0
    else Within(log[..|log| - 1], lo, hi) + (if lo <= log[|log| - 1] <= hi then 1 else 0)
  }

  /** A log that grew under the limit: at each admission fewer than `max` earlier ones were in its window. */
  predicate GrewUnder(limit: Limit, log: seq<real>) {
    log == [] ||
    (var last := log[|log| - 1];
     GrewUnder(limit, log[..|log| - 1]) && Within(log[..|log| - 1], last - limit.window, last) < limit.max)
  }

  lemma {:induction false} WithinOfAppend(a: seq<real>, b: seq<real>, lo: real, hi: real)
    ensures Within(a + b, lo, hi) == Within(a, lo, hi) + Within(b, lo, hi)
    decreases |b|
  {
    if b == [] {
      assert a + b == a;
    } else {
      assert (a + b)[..|a + b| - 1] == a + b[..|b| - 1];
      WithinOfAppend(a, b[..|b| - 1], lo, hi);
    }
  }

  lemma {:induction false} WithinOutside(log: seq<real>, lo: real, hi: real)
    requires forall i | 0 <= i < |log| :: !(lo <= log[i] <= hi)
    ensures Within(log, lo, hi) == 0
  {
    if log != [] {
      WithinOutside(log[..|log| - 1], lo, hi);
    }
  }

  lemma {:induction false} WithinInside(log: seq<real>, lo: real, hi: real)
    requires forall i | 0 <= i < |log| :: lo <= log[i] <= hi
    ensures Within(log, lo, hi) == |log|
  {
    if log != [] {
      WithinInside(log[..|log| - 1], lo, hi);
    }
  }

  lemma {:induction false} WithinGrows(log: seq<real>, lo: real, hi: real, lo': real, hi': real)
    requires forall i | 0 <= i < |log| && lo <= log[i] <= hi :: lo' <= log[i] <= hi'
    ensures Within(log, lo, hi) <= Within(log, lo', hi')
  {
    if log != [] {
      WithinGrows(log[..|log| - 1], lo, hi, lo', hi');
    }
  }

  /** No interval of one window's length ever holds more admissions than the limit. */
  lemma {:induction false} NoWindowOverfull(limit: Limit, log: seq<real>, start: real)
    requires Sorted(log) && GrewUnder(limit, log)
    ensures Within(log, start, start + limit.window) <= limit.max
  {
    if log != [] {
      var init, last := log[..|log| - 1], log[|log| - 1];
      if start <= last <= start + limit.window {
        assert forall i | 0 <= i < |init| :: init[i] == log[i] <= last;
        WithinGrows(init, start, start + limit.window, last - limit.window, last);
      } else {
        NoWindowOverfull(limit, init, start);
      }
    }
  }

  lemma SortedAppend(log: seq<real>, now: real)
    requires Sorted(log) && forall i | 0 <= i < |log| :: log[i] <= now
    ensures Sorted(log + [now])
  {
  }

  lemma AdmittedGrewUnder(limit: Limit, log: seq<real>, now: real)
    requires GrewUnder(limit, log) && Within(log, now - limit.window, now) < limit.max
    ensures GrewUnder(limit, log + [now])
  {
    hide Within;
    assert (log + [now])[..|log|] == log;
  }

  // ---------- the limiter ----------

  /** What a bucket may have forgotten: only admissions older than its window. */
  predicate Remembers(bucket: seq<real>, log: seq<real>, horizon: real) {
    |bucket| <= |log| && log[|log| - |bucket|..] == bucket
    && forall i | 0 <= i < |log| - |bucket| :: log[i] < horizon
  }

  /** In a remembered, trimmed bucket there are exactly the admissions of the window. */
  lemma TrimmedIsWindow(bucket: seq<real>, log: seq<real>, cutoff: real, now: real)
    requires Remembers(bucket, log, cutoff) && Sorted(log) && forall i | 0 <= i < |log| :: log[i] <= now
    requires bucket == [] || cutoff <= bucket[0]
    ensures |bucket| == Within(log, cutoff, now)
  {
    hide Within;
    var gone := log[..|log| - |bucket|];
    assert log == gone + bucket;
    WithinOfAppend(gone, bucket, cutoff, now);
    WithinOutside(gone, cutoff, now);
    KeptInside(bucket, log, cutoff, now);
    WithinInside(bucket, cutoff, now);
  }

  lemma KeptInside(bucket: seq<real>, log: seq<real>, cutoff: real, now: real)
    requires |bucket| <= |log| && log[|log| - |bucket|..] == bucket
    requires Sorted(log) && forall i | 0 <= i < |log| :: log[i] <= now
    requires bucket == [] || cutoff <= bucket[0]
    ensures forall i | 0 <= i < |bucket| :: cutoff <= bucket[i] <= now
  {
    forall i | 0 <= i < |bucket|
      ensures cutoff <= bucket[i] <= now
    {
      var n := |log| - |bucket|;
      assert log[n + i] == bucket[i] && log[n] == bucket[0];
    }
  }

  /** The invariant of one bucket. */
  predicate Fits(bucket: seq<real>, log: seq<real>, limit: Limit, clock: real) {
    && Remembers(bucket, log, clock - limit.window)
    && Sorted(log) && GrewUnder(limit, log)
    && forall i | 0 <= i < |log| :: log[i] <= clock
  }

  lemma Ages(bucket: seq<real>, log: seq<real>, limit: Limit, clock: real, now: real)
    requires Fits(bucket, log, limit, clock) && clock <= now
    ensures Fits(bucket, log, limit, now)
  {
  }

  /** The popleft loop. */
  method Trim(bucket: seq<real>, cutoff: real, ghost log: seq<real>) returns (rest: seq<real>)
    requires Remembers(bucket, log, cutoff)
    ensures Remembers(rest, log, cutoff) && (rest == [] || cutoff <= rest[0])
  {
    rest := bucket;
    while rest != [] && rest[0] < cutoff
      invariant Remembers(rest, log, cutoff)
      decreases |rest|
    {
      TrimOne(rest, log, cutoff);
      rest := rest[1..];
    }
  }

  function Entry(table: map<string, seq<real>>, key: string): seq<real> {
    if key in table then table[key] else []
  }

  lemma EntryOf(table: map<string, seq<real>>, key: string)
    ensures key in table ==> Entry(table, key) == table[key]
  {
  }

  function KeyLimit(profile: Profile, key: string): Limit {
    LimitOf(profile, CategoryOf(key))
  }

  ghost predicate AllFit(profile: Profile, windows: map<string, seq<real>>, logs: map<string, seq<real>>, clock: real) {
    forall key: string :: Fits(Entry(windows, key), Entry(logs, key), KeyLimit(profile, key), clock)
  }

  lemma SameLimit(profile: Profile, identifier: string, category: string)
    requires ':' !in category
    ensures KeyLimit(profile, KeyOf(identifier, category)) == LimitOf(profile, category)
  {
    CategoryOfKey(identifier, category);
  }

  lemma OneFits(profile: Profile, windows: map<string, seq<real>>, logs: map<string, seq<real>>, clock: real, key: string)
    requires AllFit(profile, windows, logs, clock)
    ensures Fits(Entry(windows, key), Entry(logs, key), KeyLimit(profile, key), clock)
  {
  }

  lemma OneChanged(profile: Profile, windows: map<string, seq<real>>, logs: map<string, seq<real>>, clock: real,
                   now: real, key: string, bucket: seq<real>, log: seq<real>)
    requires AllFit(profile, windows, logs, clock) && clock <= now && Fits(bucket, log, KeyLimit(profile, key), now)
    ensures AllFit(profile, windows[key := bucket], logs[key := log], now)
  {
    hide Fits, KeyLimit;
    forall k: string
      ensures Fits(Entry(windows[key := bucket], k), Entry(logs[key := log], k), KeyLimit(profile, k), now)
    {
      Ages(Entry(windows, k), Entry(logs, k), KeyLimit(profile, k), clock, now);
    }
  }

  /** One check of one bucket, as a whole. */
  method CheckBucket(full: seq<real>, ghost log: seq<real>, limit: Limit, ghost clock: real, now: real)
    returns (allowed: bool, current: nat, bucket: seq<real>)
    requires Fits(full, log, limit, clock) && clock <= now
    ensures current == Within(log, now - limit.window, now)
    ensures allowed <==> current < limit.max
    ensures Fits(bucket, if allowed then log + [now] else log, limit, now)
  {
    hide Fits, Within, Sorted, Remembers;
    Ages(full, log, limit, clock, now);
    FitsParts(full, log, limit, now);
    bucket := Trim(full, now - limit.window, log);
    TrimmedIsWindow(bucket, log, now - limit.window, now);
    current := |bucket|;
    allowed := current < limit.max;
    if allowed {
      AdmittedFits(full, bucket, log, limit, now);
      bucket := bucket + [now];
    } else {
      TrimmedFits(full, bucket, log, limit, now);
    }
  }

  lemma FitsParts(full: seq<real>, log: seq<real>, limit: Limit, now: real)
    requires Fits(full, log, limit, now)
    ensures Remembers(full, log, now - limit.window) && Sorted(log)
    ensures forall i | 0 <= i < |log| :: log[i] <= now
  {
  }

  lemma TrimmedFits(full: seq<real>, bucket: seq<real>, log: seq<real>, limit: Limit, now: real)
    requires Fits(full, log, limit, now) && Remembers(bucket, log, now - limit.window)
    ensures Fits(bucket, log, limit, now)
  {
    hide Sorted, GrewUnder, Remembers;
  }

  lemma AdmittedFits(full: seq<real>, bucket: seq<real>, log: seq<real>, limit: Limit, now: real)
    requires Fits(full, log, limit, now) && Remembers(bucket, log, now - limit.window)
    requires Within(log, now - limit.window, now) < limit.max
    ensures Fits(bucket + [now], log + [now], limit, now)
  {
    hide Sorted, GrewUnder, Remembers, Within;
    AdmittedGrewUnder(limit, log, now);
    SortedAppend(log, now);
    RemembersOneMore(bucket, log, now - limit.window, now);
  }

  /** The answer's remainder is what the window that ends now still has room for. */
  lemma RemainingIsRoom(bucket: seq<real>, log: seq<real>, limit: Limit, clock: real, now: real, category: string)
    requires Fits(bucket, log, limit, clock) && 0.0 <= limit.window
    ensures var used := Within(log, now - limit.window, now);
            var info := Answer(limit, used < limit.max, used, now, category);
            var after := if used < limit.max then log + [now] else log;
            && Within(after, now - limit.window, now) + info.remaining == info.limit == limit.max
            && info.category == category && info.reset == (now + limit.window).Floor
  {
    NoWindowOverfull(limit, log, now - limit.window);
    assert (log + [now])[..|log|] == log;
  }

  class Limiter {
    const profile: Profile
    var windows: map<string, seq<real>>
    ghost var logs: map<string, seq<real>>
    ghost var clock: real

    constructor (profile: Profile)
      ensures Valid() && this.profile == profile && logs == map[] && clock == 0.0
    {
      this.profile, this.windows, this.logs, this.clock := profile, map[], map[], 0.0;
    }

    ghost predicate Valid()
      reads this
    {
      AllFit(profile, windows, logs, clock)
    }

    /** A request is admitted exactly when fewer than the limit were admitted in the window that ends now. */
    method CheckLimit(identifier: string, category: string, now: real) returns (allowed: bool, info: Info)
      requires Valid() && clock <= now && ':' !in category
      modifies this
      ensures Valid() && clock == now
      ensures var key, limit := KeyOf(identifier, category), LimitOf(profile, category);
              var log := Entry(old(logs), key);
              var used := Within(log, now - limit.window, now);
              && (allowed <==> used < limit.max)
              && logs == old(logs)[key := if allowed then log + [now] else log]
              && info.limit == limit.max && info.category == category && info.reset == (now + limit.window).Floor
              && Within(Entry(logs, key), now - limit.window, now) + info.remaining == limit.max
    {
      hide AllFit, Entry, Fits, LimitOf, Within, KeyOf, Answer, KeyLimit;
      var key, limit := KeyOf(identifier, category), LimitOf(profile, category);
      SameLimit(profile, identifier, category);
      OneFits(profile, windows, logs, clock, key);
      ghost var log, was := Entry(logs, key), clock;
      var full := Entry(windows, key);
      var current, bucket;
      allowed, current, bucket := CheckBucket(full, log, limit, clock, now);
      OneChanged(profile, windows, logs, clock, now, key, bucket, if allowed then log + [now] else log);
      windows := windows[key := bucket];
      logs := logs[key := if allowed then log + [now] else log];
      clock := now;
      info := Answer(limit, allowed, current, now, category);
      RemainingIsRoom(full, log, limit, was, now, category);
      assert Entry(logs, key) == if allowed then log + [now] else log by { EntryOf(logs, key); }
    }

    /** Dropping stale buckets changes no log, and so no later decision. */
    method CleanupOldWindows(now: real)
      requires Valid() && clock <= now
      modifies this`windows, this`clock
      ensures Valid() && clock == now
      ensures forall key | key in old(windows) ::
                key in windows <==> old(windows)[key] != [] && now - 120.0 <= old(windows)[key][|old(windows)[key]| - 1]
      ensures forall key | key in windows :: key in old(windows) && windows[key] == old(windows)[key]
    {
      hide Fits, KeyLimit;
      var stale := set key | key in windows && (windows[key] == [] || windows[key][|windows[key]| - 1] < now - STALE);
      var rest := map key | key in windows && key !in stale :: windows[key];
      forall key: string
        ensures Fits(Entry(rest, key), Entry(logs, key), KeyLimit(profile, key), now)
      {
        SameStale(profile, key);
        StaleForgotten(Entry(windows, key), Entry(rest, key), Entry(logs, key), clock, now, KeyLimit(profile, key));
      }
      windows, clock := rest, now;
    }
  }

  /** In a valid limiter no interval of a minute holds more admissions of a bucket than its limit. */
  lemma NoBucketOverfull(profile: Profile, windows: map<string, seq<real>>, logs: map<string, seq<real>>, clock: real,
                         key: string, start: real)
    requires AllFit(profile, windows, logs, clock)
    ensures Within(Entry(logs, key), start, start + 60.0) <= KeyLimit(profile, key).max
  {
    assert Fits(Entry(windows, key), Entry(logs, key), KeyLimit(profile, key), clock);
    NoWindowOverfull(KeyLimit(profile, key), Entry(logs, key), start);
  }

  // ---------- whole runs ----------

  datatype Call = Ask(request: Request, at: real) | Cleanup(at: real)

  /** A request that was admitted, and when. */
  datatype Served = Served(request: Request, at: real)

  /** The clock does not run backwards over the calls. */
  predicate Forward(calls: seq<Call>) {
    forall i, j | 0 <= i < j < |calls| :: calls[i].at <= calls[j].at
  }

  /** When an identifier's requests were charged to a budget. */
  ghost function Charges(served: seq<Served>, identifier: string, budget: Budget): seq<real> {
    if served == [] then []
    else
      var init, last := Charges(served[..|served| - 1], identifier, budget), served[|served| - 1];
      if last.request.identifier == identifier && Draws(last.request, budget) then init + [last.at] else init
  }

  /** In the minute that ends now fewer requests of the identifier were charged to the budget than it may spend. */
  ghost predicate Admits(profile: Profile, served: seq<Served>, r: Request, now: real) {
    forall b | Draws(r, b) :: Within(Charges(served, r.identifier, b), now - 60.0, now) < PerMinute(profile, b)
  }

  /** The limiter that remembers every admitted request for ever and knows neither categories nor a cleanup. */
  ghost function Then(profile: Profile, served: seq<Served>, call: Call): seq<Served> {
    if call.Ask? && Admits(profile, served, call.request, call.at) then served + [Served(call.request, call.at)] else served
  }

  /** Everything admitted over a run. */
  ghost function ServedBy(profile: Profile, calls: seq<Call>): seq<Served> {
    if calls == [] then []
    else Then(profile, ServedBy(profile, calls[..|calls| - 1]), calls[|calls| - 1])
  }

  ghost function Decisions(profile: Profile, calls: seq<Call>): seq<bool> {
    if calls == [] then []
    else
      var init, last := calls[..|calls| - 1], calls[|calls| - 1];
      Decisions(profile, init) + (if last.Ask? then [Admits(profile, ServedBy(profile, init), last.request, last.at)] else [])
  }

  /** The logs of the buckets are the charges to the budgets. */
  ghost predicate Books(logs: map<string, seq<real>>, served: seq<Served>) {
    forall identifier, b :: Entry(logs, KeyOf(identifier, Name(b))) == Charges(served, identifier, b)
  }

  lemma BooksAdmitted(logs: map<string, seq<real>>, served: seq<Served>, r: Request, budget: Budget, at: real)
    requires Books(logs, served) && Draws(r, budget)
    ensures var key := KeyOf(r.identifier, Name(budget));
            Books(logs[key := Entry(logs, key) + [at]], served + [Served(r, at)])
  {
    hide Name, KeyOf, Draws;
    var key := KeyOf(r.identifier, Name(budget));
    forall identifier, b
      ensures Entry(logs[key := Entry(logs, key) + [at]], KeyOf(identifier, Name(b))) ==
              Charges(served + [Served(r, at)], identifier, b)
    {
      assert (served + [Served(r, at)])[..|served|] == served;
      KeysDiffer(r.identifier, Name(budget), identifier, Name(b));
      CategoryIsBudget(r, budget);
      CategoryIsBudget(r, b);
    }
  }

  lemma BooksRefused(logs: map<string, seq<real>>, served: seq<Served>, key: string)
    requires Books(logs, served)
    ensures Books(logs[key := Entry(logs, key)], served)
  {
  }

  /** One request: the category, the bucket, and the answer. */
  method Handle(limiter: Limiter, r: Request, now: real, ghost served: seq<Served>) returns (allowed: bool, info: Info)
    requires limiter.Valid() && limiter.clock <= now && Books(limiter.logs, served)
    modifies limiter
    ensures limiter.Valid() && limiter.clock == now
    ensures allowed <==> Admits(limiter.profile, served, r, now)
    ensures Books(limiter.logs, Then(limiter.profile, served, Ask(r, now)))
    ensures forall b | Draws(r, b) ::
              && info.limit == PerMinute(limiter.profile, b)
              && Within(Charges(Then(limiter.profile, served, Ask(r, now)), r.identifier, b), now - 60.0, now) + info.remaining == info.limit
  {
    hide AllFit, Entry, LimitOf, Within, KeyOf, GetCategory, Books, Draws, PerMinute;
    var category := GetCategory(r.path, r.verb, r.hasToken);
    ghost var budget := OneBudget(r);
    CategoryIsBudget(r, budget);
    LimitIsBudget(limiter.profile, budget);
    ghost var key := KeyOf(r.identifier, category);
    BooksSay(limiter.logs, served, r.identifier, budget);
    ghost var logs := limiter.logs;
    allowed, info := limiter.CheckLimit(r.identifier, category, now);
    if allowed {
      BooksAdmitted(logs, served, r, budget, now);
    } else {
      BooksRefused(logs, served, key);
    }
    BooksSay(limiter.logs, Then(limiter.profile, served, Ask(r, now)), r.identifier, budget);
  }

  lemma BooksSay(logs: map<string, seq<real>>, served: seq<Served>, identifier: string, budget: Budget)
    requires Books(logs, served)
    ensures Entry(logs, KeyOf(identifier, Name(budget))) == Charges(served, identifier, budget)
  {
  }

  /** The deque limiter decides every run of requests and cleanups as that limiter does. */
  method Replay(limiter: Limiter, calls: seq<Call>) returns (decisions: seq<bool>)
    requires limiter.Valid() && limiter.logs == map[]
    requires Forward(calls) && (calls != [] ==> limiter.clock <= calls[0].at)
    modifies limiter
    ensures limiter.Valid() && decisions == Decisions(limiter.profile, calls)
    ensures Books(limiter.logs, ServedBy(limiter.profile, calls))
  {
    hide AllFit, Within, Entry, KeyOf, Name, Admits, Books;
    decisions := [];
    NothingBooked(limiter.logs);
    var n := 0;
    while n < |calls|
      invariant n <= |calls| && limiter.Valid() && (n < |calls| ==> limiter.clock <= calls[n].at)
      invariant Books(limiter.logs, ServedBy(limiter.profile, calls[..n]))
      invariant decisions == Decisions(limiter.profile, calls[..n])
    {
      assert calls[..n + 1][..n] == calls[..n];
      match calls[n] {
        case Cleanup(at) =>
          limiter.CleanupOldWindows(at);
        case Ask(request, at) =>
          var allowed, info := Handle(limiter, request, at, ServedBy(limiter.profile, calls[..n]));
          decisions := decisions + [allowed];
      }
      n := n + 1;
    }
    assert calls[..n] == calls;
  }

  lemma NothingBooked(logs: map<string, seq<real>>)
    requires logs == map[]
    ensures Books(logs, [])
  {
  }

  lemma ForwardInit(calls: seq<Call>)
    requires Forward(calls) && calls != []
    ensures var init, last := calls[..|calls| - 1], calls[|calls| - 1];
            Forward(init) && (init != [] ==> init[|init| - 1].at <= last.at)
  {
  }

  /**
   No minute of any run holds more of an identifier's requests of one budget than it may spend: outside
   development 15 for the login and registration paths, and so on down the table.
   */
  lemma NoMinuteOverspent(profile: Profile, calls: seq<Call>, identifier: string, budget: Budget, start: real)
    requires Forward(calls)
    ensures Within(Charges(ServedBy(profile, calls), identifier, budget), start, start + 60.0) <= PerMinute(profile, budget)
  {
    hide Within, PerMinute, Charges, Then, Forward, Sorted, GrewUnder;
    ChargesGrow(profile, calls, identifier, budget);
    NoWindowOverfull(Limit(PerMinute(profile, budget), 60.0), Charges(ServedBy(profile, calls), identifier, budget), start);
  }

  /** What one call adds to the charges. */
  lemma ChargesStep(profile: Profile, served: seq<Served>, call: Call, identifier: string, budget: Budget)
    ensures var log, after := Charges(served, identifier, budget), Charges(Then(profile, served, call), identifier, budget);
            after == log || (after == log + [call.at] && Within(log, call.at - 60.0, call.at) < PerMinute(profile, budget))
  {
    hide Within, Draws, PerMinute;
    if call.Ask? {
      assert (served + [Served(call.request, call.at)])[..|served|] == served;
    }
  }

  lemma {:induction false} ChargesGrow(profile: Profile, calls: seq<Call>, identifier: string, budget: Budget)
    requires Forward(calls)
    ensures var log := Charges(ServedBy(profile, calls), identifier, budget);
            && Sorted(log) && GrewUnder(Limit(PerMinute(profile, budget), 60.0), log)
            && forall i | 0 <= i < |log| :: calls != [] && log[i] <= calls[|calls| - 1].at
  {
    hide Within, PerMinute, Charges, Then, Forward, Sorted, GrewUnder;
    if calls == [] {
      NoCharges(identifier, budget);
    } else {
      var init, last := calls[..|calls| - 1], calls[|calls| - 1];
      ForwardInit(calls);
      ChargesGrow(profile, init, identifier, budget);
      ChargesStep(profile, ServedBy(profile, init), last, identifier, budget);
      var log := Charges(ServedBy(profile, init), identifier, budget);
      SortedAppend(log, last.at);
      if Within(log, last.at - 60.0, last.at) < PerMinute(profile, budget) {
        AdmittedGrewUnder(Limit(PerMinute(profile, budget), 60.0), log, last.at);
      }
    }
  }

  lemma NoCharges(identifier: string, budget: Budget)
    ensures Charges([], identifier, budget) == [] && Sorted([]) && forall limit :: GrewUnder(limit, [])
  {
  }

  lemma SameStale(profile: Profile, key: string)
    ensures KeyLimit(profile, key).window <= STALE
  {
  }

  lemma TrimOne(bucket: seq<real>, log: seq<real>, cutoff: real)
    requires Remembers(bucket, log, cutoff) && bucket != [] && bucket[0] < cutoff
    ensures Remembers(bucket[1..], log, cutoff)
  {
    var n := |log| - |bucket|;
    assert log[n] == bucket[0];
    assert log[n + 1..] == bucket[1..];
  }

  lemma RemembersOneMore(bucket: seq<real>, log: seq<real>, cutoff: real, now: real)
    requires Remembers(bucket, log, cutoff)
    ensures Remembers(bucket + [now], log + [now], cutoff)
  {
    var n := |log| - |bucket|;
    assert (log + [now])[n..] == bucket + [now];
  }

  lemma StaleForgotten(bucket: seq<real>, rest: seq<real>, log: seq<real>, clock: real, now: real, limit: Limit)
    requires Fits(bucket, log, limit, clock) && clock <= now && limit.window <= STALE
    requires rest == bucket || (rest == [] && (bucket == [] || bucket[|bucket| - 1] < now - STALE))
    ensures Fits(rest, log, limit, now)
  {
    hide GrewUnder;
    if rest == [] && bucket != [] {
      assert log[|log| - 1] == bucket[|bucket| - 1];
    }
  }
}
