/**
 The in-memory sliding-window limiter (forgepilot_api/core/rate_limit.py). Times are reals; the
 window is a whole number of seconds.
 */
module MemoryRateLimit {
  import opened Arithmetic
  import opened Filters

  /** `Fault` is the IndexError of reading the head of an empty deque, reached when no request is
      allowed at all and none is remembered. */
  datatype Verdict = Allowed | Refused(retryAfter: int) | Fault

  function DropOld(bucket: seq<real>, cutoff: real): seq<real> {
    if bucket != [] && bucket[0] < cutoff then DropOld(bucket[1..], cutoff) else bucket
  }

  /** Python's int() on a float. */
  function Truncate(x: real): int {
    if x >= 0.0 then x.Floor else -((-x).Floor)
  }

  function RetryAfter(oldest: real, now: real, window: int): int {
    var wait := Truncate(window as real - (now - oldest));
    if wait < 1 then 1 else wait
  }

  function Judge(bucket: seq<real>, now: real, maxRequests: int, window: int): (seq<real>, Verdict) {
    var kept := DropOld(bucket, now - window as real);
    if |kept| >= maxRequests then
      (kept, if kept == [] then Fault else Refused(RetryAfter(kept[0], now, window)))
    else (kept + [now], Allowed)
  }

  class InMemoryRateLimiter {
    var buckets: map<string, seq<real>>

    constructor ()
      ensures buckets == map[]
    {
      buckets := map[];
    }

    /** Identities do not see each other; one identity's deque moves as `Judge` says. */
    method Check(identity: string, maxRequests: int, window: int, now: real) returns (verdict: Verdict)
      modifies this
      ensures var before := if identity in old(buckets) then old(buckets)[identity] else [];
              buckets == old(buckets)[identity := Judge(before, now, maxRequests, window).0]
              && verdict == Judge(before, now, maxRequests, window).1
    {
      var cutoff := now - window as real;
      var bucket := if identity in buckets then buckets[identity] else [];
      ghost var before := bucket;
      while bucket != [] && bucket[0] < cutoff
        invariant DropOld(before, cutoff) == DropOld(bucket, cutoff)
        decreases |bucket|
      {
        bucket := bucket[1..];
      }
      if |bucket| >= maxRequests {
        buckets := buckets[identity := bucket];
        if bucket == [] {
          return Fault;
        }
        var wait := Truncate(window as real - (now - bucket[0]));
        return Refused(if wait < 1 then 1 else wait);
      }
      buckets := buckets[identity := bucket + [now]];
      verdict := Allowed;
    }
  }

  // ---------------------------------------------------------------- a run of one identity

  /** `admitted` is the full admission history, which the program does not keep. */
  datatype Run = Run(bucket: seq<real>, admitted: seq<real>, verdicts: seq<Verdict>)

  function Next(r: Run, now: real, maxRequests: int, window: int): Run {
    var judged := Judge(r.bucket, now, maxRequests, window);
    Run(judged.0, if judged.1 == Allowed then r.admitted + [now] else r.admitted, r.verdicts + [judged.1])
  }

  function Serve(times: seq<real>, maxRequests: int, window: int): Run {
    if times == [] then Run([], [], [])
    else Next(Serve(times[..|times| - 1], maxRequests, window), times[|times| - 1], maxRequests, window)
  }

  ghost predicate Sorted(s: seq<real>) {
    forall i, j :: 0 <= i < j < |s| ==> s[i] <= s[j]
  }

  ghost predicate UpTo(s: seq<real>, hi: real) {
    forall i :: 0 <= i < |s| ==> s[i] <= hi
  }

  /** The admissions of the closed interval [lo, hi]. */
  function Within(lo: real, hi: real): real -> bool {
    (x: real) => lo <= x <= hi
  }

  function CountIn(s: seq<real>, lo: real, hi: real): nat {
    |Filter(Within(lo, hi), s)|
  }

  lemma {:induction false} CountMonotone(s: seq<real>, lo: real, hi: real, lo2: real, hi2: real)
    requires forall i :: 0 <= i < |s| && lo <= s[i] <= hi ==> lo2 <= s[i] <= hi2
    ensures CountIn(s, lo, hi) <= CountIn(s, lo2, hi2)
  {
    if s != [] {
      CountMonotone(s[..|s| - 1], lo, hi, lo2, hi2);
    }
  }

  lemma CountAppend(s: seq<real>, x: real, lo: real, hi: real)
    ensures CountIn(s + [x], lo, hi) == CountIn(s, lo, hi) + (if lo <= x <= hi then 1 else 0)
  {
    FilterConcat(Within(lo, hi), s, [x]);
    FilterOne(Within(lo, hi), x);
  }

  /** On a sorted history, popping from the front is filtering the whole history. */
  lemma {:induction false} DropOldFilters(s: seq<real>, lo: real, hi: real)
    requires Sorted(s) && UpTo(s, hi)
    ensures DropOld(s, lo) == Filter(Within(lo, hi), s)
    decreases |s|
  {
    if s != [] {
      if s[0] < lo {
        assert s == [s[0]] + s[1..];
        FilterConcat(Within(lo, hi), [s[0]], s[1..]);
        FilterOne(Within(lo, hi), s[0]);
        DropOldFilters(s[1..], lo, hi);
      } else {
        FilterAll(Within(lo, hi), s);
      }
    }
  }

  lemma {:induction false} DropOldTwice(s: seq<real>, a: real, b: real)
    requires a <= b
    ensures DropOld(DropOld(s, a), b) == DropOld(s, b)
    decreases |s|
  {
    if s != [] && s[0] < a {
      DropOldTwice(s[1..], a, b);
    }
  }

  lemma {:induction false} DropOldAppend(s: seq<real>, x: real, lo: real)
    ensures DropOld(s + [x], lo)
         == if DropOld(s, lo) == [] then (if x < lo then [] else [x]) else DropOld(s, lo) + [x]
    decreases |s|
  {
    if s == [] {
      assert [] + [x] == [x] && [x][1..] == [];
    } else if s[0] < lo {
      DropOldAppend(s[1..], x, lo);
      assert (s + [x])[1..] == s[1..] + [x];
    }
  }

  // ---------------------------------------------------------------- the deque stands for the history

  /** For every cutoff that can still come, the deque answers like the full history. */
  ghost predicate Tidy(r: Run, last: real, window: int) {
    && Sorted(r.admitted) && UpTo(r.admitted, last)
    && forall cutoff :: cutoff >= last - window as real ==> DropOld(r.bucket, cutoff) == DropOld(r.admitted, cutoff)
  }

  lemma {:induction false} ServeTidy(times: seq<real>, maxRequests: int, window: int)
    requires Sorted(times) && times != []
    ensures Tidy(Serve(times, maxRequests, window), times[|times| - 1], window)
  {
    var n := |times| - 1;
    var now := times[n];
    var before := Serve(times[..n], maxRequests, window);
    if n > 0 {
      ServeTidy(times[..n], maxRequests, window);
    }
    var r := Serve(times, maxRequests, window);
    var kept := DropOld(before.bucket, now - window as real);
    forall cutoff | cutoff >= now - window as real ensures DropOld(r.bucket, cutoff) == DropOld(r.admitted, cutoff) {
      DropOldTwice(before.bucket, now - window as real, cutoff);
      DropOldAppend(kept, now, cutoff);
      DropOldAppend(before.admitted, now, cutoff);
    }
  }

  /** How many admissions the last window before `now` holds, over the full history. */
  function Recent(admitted: seq<real>, now: real, window: int): nat {
    CountIn(admitted, now - window as real, now)
  }

  /** The limiter decides as if it filtered the full admission history: it admits exactly when fewer than
      `maxRequests` admissions lie in [now - window, now], and a refusal is made with exactly that many. */
  lemma DecidesOnFullHistory(times: seq<real>, maxRequests: int, window: int, now: real)
    requires Sorted(times + [now])
    ensures var h := Serve(times, maxRequests, window);
            var verdict := Judge(h.bucket, now, maxRequests, window).1;
            && (verdict == Allowed <==> Recent(h.admitted, now, window) < maxRequests)
            && (verdict.Refused? ==> Recent(h.admitted, now, window) == maxRequests > 0)
            && (verdict == Fault <==> maxRequests <= 0)
  {
    var h := Serve(times, maxRequests, window);
    HistoryAnswers(times, maxRequests, window, now);
    RecentBounded(times, maxRequests, window, now);
  }

  lemma SortedLast(times: seq<real>, now: real)
    requires Sorted(times + [now]) && times != []
    ensures Sorted(times) && times[|times| - 1] <= now
  {
    assert forall i :: 0 <= i < |times| ==> (times + [now])[i] == times[i];
    assert (times + [now])[|times|] == now;
  }

  lemma HistoryAnswers(times: seq<real>, maxRequests: int, window: int, now: real)
    requires Sorted(times + [now])
    ensures var h := Serve(times, maxRequests, window);
            && DropOld(h.bucket, now - window as real) == DropOld(h.admitted, now - window as real)
            && |DropOld(h.bucket, now - window as real)| == Recent(h.admitted, now, window)
            && Sorted(h.admitted) && UpTo(h.admitted, now)
  {
    var h := Serve(times, maxRequests, window);
    if times != [] {
      SortedLast(times, now);
      ServeTidy(times, maxRequests, window);
    }
    DropOldFilters(h.admitted, now - window as real, now);
  }

  /** One more request: it is admitted only when the window behind it has room. */
  lemma AdmissionFits(admitted: seq<real>, now: real, maxRequests: int, window: int, lo: real)
    requires UpTo(admitted, now) && Recent(admitted, now, window) < maxRequests
    requires CountIn(admitted, lo, lo + window as real) <= maxRequests
    ensures CountIn(admitted + [now], lo, lo + window as real) <= maxRequests
  {
    CountAppend(admitted, now, lo, lo + window as real);
    if lo <= now <= lo + window as real {
      CountMonotone(admitted, lo, lo + window as real, now - window as real, now);
    }
  }

  /** A request is admitted exactly when its window has room. */
  lemma NextAdmits(times: seq<real>, now: real, maxRequests: int, window: int)
    requires Sorted(times + [now])
    ensures var h := Serve(times, maxRequests, window);
            Next(h, now, maxRequests, window).admitted
              == if Recent(h.admitted, now, window) < maxRequests then h.admitted + [now] else h.admitted
  {
    HistoryAnswers(times, maxRequests, window, now);
  }

  /** No closed interval of one window's length ever holds more than `maxRequests` admissions. */
  lemma {:induction false} SlidingBound(times: seq<real>, maxRequests: int, window: int, lo: real)
    requires Sorted(times)
    ensures CountIn(Serve(times, maxRequests, window).admitted, lo, lo + window as real) <= AtLeastZero(maxRequests)
  {
    if times != [] {
      var n := |times| - 1;
      var before := Serve(times[..n], maxRequests, window);
      assert times[..n] + [times[n]] == times;
      SlidingBound(times[..n], maxRequests, window, lo);
      HistoryAnswers(times[..n], maxRequests, window, times[n]);
      NextAdmits(times[..n], times[n], maxRequests, window);
      if Recent(before.admitted, times[n], window) < maxRequests {
        AdmissionFits(before.admitted, times[n], maxRequests, window, lo);
      }
    }
  }

  lemma RecentBounded(times: seq<real>, maxRequests: int, window: int, now: real)
    requires Sorted(times + [now])
    ensures Recent(Serve(times, maxRequests, window).admitted, now, window) <= AtLeastZero(maxRequests)
  {
    assert forall i :: 0 <= i < |times| ==> (times + [now])[i] == times[i];
    SlidingBound(times, maxRequests, window, now - window as real);
  }

  // ---------------------------------------------------------------- retry_after

  /** The head of a sorted, refusing deque decides: the next request is refused up to and including
      the moment the head turns one window old. */
  lemma RefusedUntil(kept: seq<real>, maxRequests: int, window: int, later: real)
    requires |kept| == maxRequests > 0
    ensures Judge(kept, later, maxRequests, window).1.Refused? <==> later <= kept[0] + window as real
  {
    DropOldShrinks(kept, later - window as real);
  }

  lemma {:induction false} DropOldShrinks(s: seq<real>, lo: real)
    ensures |DropOld(s, lo)| <= |s|
    ensures s != [] && s[0] < lo ==> |DropOld(s, lo)| < |s|
    decreases |s|
  {
    if s != [] && s[0] < lo {
      DropOldShrinks(s[1..], lo);
    }
  }

  /** The advertised delay of any refusal lies between 1 and the window (1 for a shorter window), is within
      one second of the real remaining wait, and is enough exactly when less than a second remained. */
  lemma RetryAfterAccurate(times: seq<real>, maxRequests: int, window: int, now: real)
    requires Sorted(times + [now])
    requires Judge(Serve(times, maxRequests, window).bucket, now, maxRequests, window).1.Refused?
    ensures var (kept, verdict) := Judge(Serve(times, maxRequests, window).bucket, now, maxRequests, window);
            && kept != []
            && var wait := window as real - (now - kept[0]);
            var advertised := verdict.retryAfter;
            && 0.0 <= wait <= window as real
            && 1 <= advertised <= (if window < 1 then 1 else window)
            && -1.0 <= advertised as real - wait <= 1.0
            && (forall later :: later >= now ==>
                  (Judge(kept, later, maxRequests, window).1.Refused? <==> later <= now + wait))
            && (Judge(kept, now + advertised as real, maxRequests, window).1.Refused? <==> wait >= 1.0)
  {
    var h := Serve(times, maxRequests, window);
    var (kept, verdict) := Judge(h.bucket, now, maxRequests, window);
    DecidesOnFullHistory(times, maxRequests, window, now);
    HistoryAnswers(times, maxRequests, window, now);
    HeadInWindow(times, maxRequests, window, now);
    var wait := window as real - (now - kept[0]);
    forall later | later >= now
      ensures Judge(kept, later, maxRequests, window).1.Refused? <==> later <= now + wait
    {
      RefusedUntil(kept, maxRequests, window, later);
    }
    RefusedUntil(kept, maxRequests, window, now + verdict.retryAfter as real);
  }

  lemma HeadInWindow(times: seq<real>, maxRequests: int, window: int, now: real)
    requires Sorted(times + [now])
    ensures var kept := DropOld(Serve(times, maxRequests, window).bucket, now - window as real);
            kept != [] ==> now - window as real <= kept[0] <= now
  {
    var h := Serve(times, maxRequests, window);
    HistoryAnswers(times, maxRequests, window, now);
    DropOldIsSuffix(h.admitted, now - window as real);
  }

  lemma {:induction false} DropOldIsSuffix(s: seq<real>, lo: real)
    ensures var kept := DropOld(s, lo);
            && |kept| <= |s| && kept == s[|s| - |kept|..]
            && (kept != [] ==> lo <= kept[0] && kept[0] == s[|s| - |kept|])
    decreases |s|
  {
    if s != [] && s[0] < lo {
      DropOldIsSuffix(s[1..], lo);
    }
  }
}
