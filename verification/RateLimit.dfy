/** The sliding-window rate limiter of server/src/ratelimit.ts.

The limiter keeps, per key, only the stamps its last compaction left, and a sweep may drop a
quiet key altogether. The theorems below compare it with the full admission history. */
module RateLimit {

  // Idle time, in milliseconds, after which the sweep forgets a key.
  const IDLE_GRACE_MS := 120_000

  // The longest window, in whole milliseconds, that the sweep never cuts short.
  const LONGEST_SAFE_WINDOW_MS := IDLE_GRACE_MS + 1

  type Windows = map<string, seq<int>>

  /** The stamps later than `cutoff`, in order. */
  function Recent(stamps: seq<int>, cutoff: int): (r: seq<int>)
    ensures |r| <= |stamps|
  {
    if stamps == [] then []
    else
      var rest := Recent(stamps[..|stamps| - 1], cutoff);
      if stamps[|stamps| - 1] > cutoff then rest + [stamps[|stamps| - 1]] else rest
  }

  function Stamps(ws: Windows, key: string): seq<int> {
    if key in ws then ws[key] else []
  }

  predicate Decide(ws: Windows, key: string, limit: int, windowMs: int, now: int) {
    key !in ws || |Recent(ws[key], now - windowMs)| < limit
  }

  function AfterCheck(ws: Windows, key: string, limit: int, windowMs: int, now: int): Windows {
    var kept := Recent(Stamps(ws, key), now - windowMs);
    ws[key := if Decide(ws, key, limit, windowMs, now) then kept + [now] else kept]
  }

  predicate Idle(stamps: seq<int>, now: int) {
    stamps == [] || now - stamps[|stamps| - 1] > IDLE_GRACE_MS
  }

  function AfterSweep(ws: Windows, now: int): Windows {
    map key | key in ws && !Idle(ws[key], now) :: ws[key]
  }

  class RateLimiter {
    var windows: Windows

    constructor ()
      ensures windows == map[]
    {
      windows := map[];
    }

    method CheckRateLimit(key: string, limit: int, windowMs: int, now: int) returns (admitted: bool)
      modifies this
      ensures admitted == Decide(old(windows), key, limit, windowMs, now)
      ensures windows == AfterCheck(old(windows), key, limit, windowMs, now)
    {
      var cutoff := now - windowMs;
      if key !in windows {
        windows := windows[key := [now]];
        assert Recent([], cutoff) + [now] == [now];
        return true;
      }
      var stamps := windows[key];
      var write := 0;
      for i := 0 to |stamps|
        invariant write <= i && |stamps| == |old(windows)[key]|
        invariant stamps[i..] == old(windows)[key][i..]
        invariant stamps[..write] == Recent(old(windows)[key][..i], cutoff)
      {
        assert stamps[i] == old(windows)[key][i];
        assert old(windows)[key][..i + 1][..i] == old(windows)[key][..i];
        if stamps[i] > cutoff {
          ghost var before := stamps;
          stamps := stamps[write := stamps[i]];
          write := write + 1;
          assert stamps[i + 1..] == before[i + 1..] == old(windows)[key][i + 1..];
          assert stamps[..write] == before[..write - 1] + [before[i]];
        }
      }
      assert old(windows)[key][..|stamps|] == old(windows)[key];
      stamps := stamps[..write];
      if |stamps| >= limit {
        windows := windows[key := stamps];
        return false;
      }
      stamps := stamps + [now];
      windows := windows[key := stamps];
      return true;
    }

    method CleanupRateLimitWindows(now: int)
      modifies this
      ensures windows == AfterSweep(old(windows), now)
    {
      var todo := windows.Keys;
      while todo != {}
        invariant todo <= old(windows).Keys
        invariant windows == map key | key in old(windows) && (key in todo || !Idle(old(windows)[key], now))
                               :: old(windows)[key]
        decreases todo
      {
        var key :| key in todo;
        todo := todo - {key};
        if Idle(windows[key], now) {
          windows := windows - {key};
        }
      }
    }
  }

  // ----- whole runs -----

  datatype Event =
    | Request(key: string, limit: int, windowMs: int, now: int)
    | Sweep(now: int)

  /** A run of the process, latest event outermost. */
  datatype Trace = Boot | After(before: Trace, event: Event)

  function Step(ws: Windows, e: Event): Windows {
    match e
    case Request(key, limit, windowMs, now) => AfterCheck(ws, key, limit, windowMs, now)
    case Sweep(now) => AfterSweep(ws, now)
  }

  function Run(t: Trace): Windows {
    match t
    case Boot => map[]
    case After(before, e) => Step(Run(before), e)
  }

  predicate Admits(before: Trace, e: Event)
    requires e.Request?
  {
    Decide(Run(before), e.key, e.limit, e.windowMs, e.now)
  }

  /** The instants at which `key` was admitted over the whole run, nothing forgotten. */
  function History(t: Trace, key: string): seq<int> {
    match t
    case Boot => []
    case After(before, e) =>
      if e.Request? && e.key == key && Admits(before, e) then History(before, key) + [e.now] else History(before, key)
  }

  /** The clock never runs backwards and has not passed `now`. */
  ghost predicate ClockOrdered(t: Trace, now: int) {
    match t
    case Boot => true
    case After(before, e) => e.now <= now && ClockOrdered(before, e.now)
  }

  /** Every request of a key names the same window, and the sweep cuts none of them short. */
  ghost predicate FixedWindows(t: Trace, windowOf: string -> int) {
    match t
    case Boot => true
    case After(before, e) =>
      && (e.Request? ==> e.windowMs == windowOf(e.key) && windowOf(e.key) <= LONGEST_SAFE_WINDOW_MS)
      && FixedWindows(before, windowOf)
  }

  /** Every request of `key` asks for the same limit. */
  ghost predicate FixedLimit(t: Trace, key: string, limit: int) {
    match t
    case Boot => true
    case After(before, e) => (e.Request? && e.key == key ==> e.limit == limit) && FixedLimit(before, key, limit)
  }

  // `stamps` answers every question about `history` whose cutoff is `cutoff` or later.
  ghost predicate Answers(stamps: seq<int>, history: seq<int>, cutoff: int) {
    forall c :: c >= cutoff ==> Recent(stamps, c) == Recent(history, c)
  }

  ghost predicate SortedUpTo(s: seq<int>, bound: int) {
    s == [] || (s[|s| - 1] <= bound && SortedUpTo(s[..|s| - 1], s[|s| - 1]))
  }

  lemma {:induction false} RecentAppend(s: seq<int>, x: int, cutoff: int)
    ensures Recent(s + [x], cutoff) == Recent(s, cutoff) + (if x > cutoff then [x] else [])
  {
    assert (s + [x])[..|s|] == s;
  }

  lemma {:induction false} RecentOfRecent(s: seq<int>, c: int, d: int)
    requires c <= d
    ensures Recent(Recent(s, c), d) == Recent(s, d)
  {
    if s != [] {
      var init := s[..|s| - 1];
      RecentOfRecent(init, c, d);
      RecentAppend(Recent(init, c), s[|s| - 1], d);
    }
  }

  lemma {:induction false} NothingRecent(s: seq<int>, bound: int, cutoff: int)
    requires SortedUpTo(s, bound) && bound <= cutoff
    ensures Recent(s, cutoff) == []
  {
    if s != [] {
      NothingRecent(s[..|s| - 1], s[|s| - 1], cutoff);
    }
  }

  lemma {:induction false} RecentMonotone(s: seq<int>, low: int, high: int)
    requires low <= high
    ensures |Recent(s, high)| <= |Recent(s, low)|
  {
    if s != [] {
      RecentMonotone(s[..|s| - 1], low, high);
    }
  }

  lemma {:induction false} RecentKeepsOrder(s: seq<int>, cutoff: int, bound: int)
    requires SortedUpTo(s, bound)
    ensures SortedUpTo(Recent(s, cutoff), bound)
  {
    if s != [] {
      var last := |s| - 1;
      RecentKeepsOrder(s[..last], cutoff, s[last]);
      AppendKeepsOrder(Recent(s[..last], cutoff), s[last]);
    }
  }

  lemma AppendKeepsOrder(s: seq<int>, x: int)
    requires SortedUpTo(s, x)
    ensures SortedUpTo(s + [x], x)
  {
    assert (s + [x])[..|s|] == s;
  }

  lemma {:induction false} CheckKeepsAnswers(stamps: seq<int>, history: seq<int>, cutoff: int, at: int, later: int)
    requires Answers(stamps, history, cutoff) && cutoff <= later
    ensures Answers(Recent(stamps, cutoff), history, later)
    ensures Answers(Recent(stamps, cutoff) + [at], history + [at], later)
  {
    forall c | c >= later
      ensures Recent(Recent(stamps, cutoff), c) == Recent(history, c)
      ensures Recent(Recent(stamps, cutoff) + [at], c) == Recent(history + [at], c)
    {
      RecentOfRecent(stamps, cutoff, c);
      RecentAppend(Recent(stamps, cutoff), at, c);
      RecentAppend(history, at, c);
    }
  }

  lemma {:induction false} SweepKeepsAnswers(stamps: seq<int>, history: seq<int>, at: int, cutoff: int, later: int)
    requires Answers(stamps, history, cutoff) && cutoff <= later
    requires SortedUpTo(stamps, at) && Idle(stamps, at) && at - LONGEST_SAFE_WINDOW_MS <= later
    ensures Answers([], history, later)
  {
    forall c | c >= later ensures Recent(history, c) == [] {
      if stamps != [] {
        NothingRecent(stamps, stamps[|stamps| - 1], c);
      }
    }
  }

  // Everything one key's entry keeps: it is ordered, and it answers for the whole history.
  ghost predicate Faithful(stamps: seq<int>, history: seq<int>, windowMs: int, now: int) {
    && SortedUpTo(stamps, now)
    && SortedUpTo(history, now)
    && Answers(stamps, history, now - windowMs)
  }

  lemma FaithfulLater(stamps: seq<int>, history: seq<int>, windowMs: int, now: int, later: int)
    requires Faithful(stamps, history, windowMs, now) && now <= later
    ensures Faithful(stamps, history, windowMs, later)
  {
  }

  lemma CheckedFaithful(stamps: seq<int>, history: seq<int>, windowMs: int, now: int)
    requires Faithful(stamps, history, windowMs, now)
    ensures Faithful(Recent(stamps, now - windowMs), history, windowMs, now)
    ensures Faithful(Recent(stamps, now - windowMs) + [now], history + [now], windowMs, now)
  {
    var cutoff := now - windowMs;
    RecentKeepsOrder(stamps, cutoff, now);
    CheckKeepsAnswers(stamps, history, cutoff, now, cutoff);
    AppendKeepsOrder(Recent(stamps, cutoff), now);
    AppendKeepsOrder(history, now);
  }

  lemma StampsAfter(ws: Windows, e: Event)
    requires e.Request?
    ensures var kept := Recent(Stamps(ws, e.key), e.now - e.windowMs);
            Stamps(Step(ws, e), e.key) == if Decide(ws, e.key, e.limit, e.windowMs, e.now) then kept + [e.now] else kept
  {
  }

  lemma RequestKeepsFaithful(ws: Windows, history: seq<int>, e: Event)
    requires e.Request? && Faithful(Stamps(ws, e.key), history, e.windowMs, e.now)
    ensures Faithful(Stamps(Step(ws, e), e.key),
                     if Decide(ws, e.key, e.limit, e.windowMs, e.now) then history + [e.now] else history,
                     e.windowMs, e.now)
  {
    CheckedFaithful(Stamps(ws, e.key), history, e.windowMs, e.now);
    StampsAfter(ws, e);
  }

  lemma SweepKeepsFaithful(ws: Windows, history: seq<int>, key: string, windowMs: int, at: int)
    requires windowMs <= LONGEST_SAFE_WINDOW_MS && Faithful(Stamps(ws, key), history, windowMs, at)
    ensures Faithful(Stamps(AfterSweep(ws, at), key), history, windowMs, at)
  {
    if key in ws && Idle(ws[key], at) {
      SweepKeepsAnswers(ws[key], history, at, at - windowMs, at - windowMs);
    }
  }

  /** What compaction and sweeping keep, for one key. */
  lemma {:induction false} CompactionAnswers(t: Trace, windowOf: string -> int, key: string, now: int)
    requires ClockOrdered(t, now) && FixedWindows(t, windowOf)
    requires windowOf(key) <= LONGEST_SAFE_WINDOW_MS
    ensures Faithful(Stamps(Run(t), key), History(t, key), windowOf(key), now)
  {
    match t
    case Boot =>
    case After(before, e) =>
      CompactionAnswers(before, windowOf, key, e.now);
      if e.Sweep? {
        SweepKeepsFaithful(Run(before), History(before, key), key, windowOf(key), e.now);
      } else if e.key == key {
        RequestKeepsFaithful(Run(before), History(before, key), e);
      } else {
        assert Stamps(Run(t), key) == Stamps(Run(before), key);
      }
      FaithfulLater(Stamps(Run(t), key), History(t, key), windowOf(key), e.now, now);
  }

  /** Refinement: each decision is the one the full history would give. A limit below one is the
  single exception, and there the limiter admits exactly when it holds no entry for the key. */
  lemma DecisionRefinesHistory(before: Trace, e: Event, windowOf: string -> int)
    requires e.Request? && ClockOrdered(before, e.now) && FixedWindows(After(before, e), windowOf)
    ensures Admits(before, e) <==>
              || |Recent(History(before, e.key), e.now - e.windowMs)| < e.limit
              || (e.limit <= 0 && e.key !in Run(before))
  {
    CompactionAnswers(before, windowOf, e.key, e.now);
    var cutoff := e.now - e.windowMs;
    assert Recent(Stamps(Run(before), e.key), cutoff) == Recent(History(before, e.key), cutoff);
  }

  /** Admissions of `key` in the half-open window (start, start + length]. */
  function AdmittedWithin(t: Trace, key: string, start: int, length: int): int {
    |Recent(History(t, key), start)| - |Recent(History(t, key), start + length)|
  }

  /** Safety over whole runs: with one limit of at least one for `key`, no window of that key's
  length, wherever it starts, contains more than `limit` admissions. */
  lemma {:induction false} NoWindowExceedsLimit(t: Trace, windowOf: string -> int, key: string, limit: int, start: int,
      now: int)
    requires ClockOrdered(t, now) && FixedWindows(t, windowOf) && FixedLimit(t, key, limit)
    requires 1 <= limit && 0 <= windowOf(key) <= LONGEST_SAFE_WINDOW_MS
    ensures AdmittedWithin(t, key, start, windowOf(key)) <= limit
  {
    match t
    case Boot =>
    case After(before, e) =>
      NoWindowExceedsLimit(before, windowOf, key, limit, start, e.now);
      if e.Request? && e.key == key && Admits(before, e) {
        CountGrowsByOne(History(before, key), e.now, start, start + windowOf(key));
        if start < e.now <= start + windowOf(key) {
          DecisionRefinesHistory(before, e, windowOf);
          RecentMonotone(History(before, key), e.now - windowOf(key), start);
        }
      }
  }

  lemma CountGrowsByOne(history: seq<int>, at: int, start: int, end: int)
    requires start <= end
    ensures |Recent(history + [at], start)| - |Recent(history + [at], end)|
         == |Recent(history, start)| - |Recent(history, end)| + (if start < at <= end then 1 else 0)
  {
    RecentAppend(history, at, start);
    RecentAppend(history, at, end);
  }

  lemma SweptTooSoon(windowMs: int)
    requires windowMs > LONGEST_SAFE_WINDOW_MS
    ensures var swept := After(After(Boot, Request("k", 1, windowMs, 0)), Sweep(windowMs - 1));
            "k" !in Run(swept) && History(swept, "k") == [0] && ClockOrdered(swept, windowMs - 1)
  {
    var once := After(Boot, Request("k", 1, windowMs, 0));
    assert Run(Boot) == map[] && Stamps(Run(once), "k") == [0];
    assert History(Boot, "k") == [] && History(once, "k") == [0];
    assert ClockOrdered(once, windowMs - 1);
  }

  /** The bound on windows is exact: with any longer one a sweep makes the limiter forget an
  admission it still has to count, and a limit of one admits twice within one window. */
  lemma LongerWindowsAreForgotten(windowMs: int)
    requires windowMs > LONGEST_SAFE_WINDOW_MS
    ensures var once := After(Boot, Request("k", 1, windowMs, 0));
            var twice := After(After(once, Sweep(windowMs - 1)), Request("k", 1, windowMs, windowMs - 1));
            ClockOrdered(twice, windowMs) && AdmittedWithin(twice, "k", -1, windowMs) == 2
  {
    var swept := After(After(Boot, Request("k", 1, windowMs, 0)), Sweep(windowMs - 1));
    SweptTooSoon(windowMs);
    assert Admits(swept, Request("k", 1, windowMs, windowMs - 1));
    CountGrowsByOne([], 0, -1, windowMs - 1);
    CountGrowsByOne([0], windowMs - 1, -1, windowMs - 1);
    assert [] + [0] == [0];
  }
}
