/**
 The Redis fixed-window script (forgepilot_api/core/rate_limit.py). Times are whole milliseconds, the
 window whole seconds. `aliveAtTie` says whether a key is still there at the very millisecond its
 expiry names, as a Redis server has it; the sharp bound differs by one admission between the two rules.
 */
module RedisRateLimit {
  import opened Arithmetic
  import opened Filters
  import opened Options

  datatype Entry = Entry(count: int, expiresAt: Option<int>)

  datatype Params = Params(limit: int, window: int, aliveAtTie: bool)

  predicate Gone(p: Params, e: Entry, now: int) {
    e.expiresAt.Some? && (if p.aliveAtTie then e.expiresAt.value < now else e.expiresAt.value <= now)
  }

  function Span(p: Params): int { p.window * 1000 }

  /** EXPIRE; a window that is not positive deletes the key. */
  function Expire(p: Params, e: Entry, now: int): Option<Entry> {
    if p.window <= 0 then None else Some(e.(expiresAt := Some(now + Span(p))))
  }

  /** INCR on a key that may be missing or gone. */
  function Incr(p: Params, key: Option<Entry>, now: int): Entry {
    if key.None? || Gone(p, key.value, now) then Entry(1, None)
    else key.value.(count := key.value.count + 1)
  }

  /** TTL: seconds rounded, -1 without an expiry, -2 without a key. */
  function Ttl(key: Option<Entry>, now: int): int {
    if key.None? then -2
    else if key.value.expiresAt.None? then -1
    else (key.value.expiresAt.value - now + 500) / 1000
  }

  datatype Reply = Reply(key: Option<Entry>, allowed: bool, ttl: int)

  function Script(p: Params, key: Option<Entry>, now: int): Reply {
    var current := Incr(p, key, now);
    var first := if current.count == 1 then Expire(p, current, now) else Some(current);
    var ttl := Ttl(first, now);
    var repaired := if ttl < 0 && first.Some? then Expire(p, first.value, now) else first;
    Reply(repaired, current.count <= p.limit, if ttl < 0 then p.window else ttl)
  }

  /** One Redis key under the script, statement by statement. */
  class FixedWindow {
    const p: Params
    var key: Option<Entry>

    constructor (p: Params)
      ensures this.p == p && key == None
    {
      this.p := p;
      key := None;
    }

    method Eval(now: int) returns (allowed: bool, ttl: int)
      modifies this
      ensures Reply(key, allowed, ttl) == Script(p, old(key), now)
    {
      var current := Incr(p, key, now);
      key := Some(current);
      if current.count == 1 {
        key := Expire(p, key.value, now);
      }
      ttl := Ttl(key, now);
      if ttl < 0 {
        if key.Some? {
          key := Expire(p, key.value, now);
        }
        ttl := p.window;
      }
      if current.count > p.limit {
        return false, ttl;
      }
      allowed := true;
    }

    /** What the client makes of it. */
    method Check(now: int) returns (allowed: bool, retryAfter: Option<int>)
      modifies this
      ensures key == Script(p, old(key), now).key && allowed == Script(p, old(key), now).allowed
      ensures retryAfter == if allowed then None else Some(Max(1, Script(p, old(key), now).ttl))
    {
      var ok, ttl := Eval(now);
      if ok {
        return true, None;
      }
      return false, Some(if ttl < 1 then 1 else ttl);
    }
  }

  // ---------------------------------------------------------------- lifetimes of the key

  /** One lifetime: from the EXPIRE that gave the key its expiry to that expiry. An inherited one was
      opened before the run, at a time and for a span that are not known; its `start` is one window before
      its expiry. */
  datatype Life = Life(start: int, admitted: seq<int>, inherited: bool)

  /** `lives` groups the admissions by lifetime; the program keeps only `key`. */
  datatype Run = Run(key: Option<Entry>, admitted: seq<int>, lives: seq<Life>)

  /** Whether this call gives the key a new expiry. */
  predicate Opens(p: Params, key: Option<Entry>, now: int) {
    key.None? || Gone(p, key.value, now) || key.value.expiresAt.None?
  }

  function Admit(l: Life, now: int, allowed: bool): Life {
    if allowed then l.(admitted := l.admitted + [now]) else l
  }

  function Next(p: Params, r: Run, now: int): Run {
    var reply := Script(p, r.key, now);
    Run(reply.key,
        if reply.allowed then r.admitted + [now] else r.admitted,
        if Opens(p, r.key, now) || r.lives == [] then r.lives + [Admit(Life(now, [], false), now, reply.allowed)]
        else r.lives[..|r.lives| - 1] + [Admit(r.lives[|r.lives| - 1], now, reply.allowed)])
  }

  /** The lifetime that the key is in when the run starts. */
  function Inherited(p: Params, key: Option<Entry>): seq<Life> {
    if key.Some? && key.value.expiresAt.Some? then [Life(key.value.expiresAt.value - Span(p), [], true)] else []
  }

  function Serve(p: Params, key: Option<Entry>, times: seq<int>): Run {
    if times == [] then Run(key, [], Inherited(p, key))
    else Next(p, Serve(p, key, times[..|times| - 1]), times[|times| - 1])
  }

  ghost predicate Sorted(s: seq<int>) {
    forall i, j :: 0 <= i < j < |s| ==> s[i] <= s[j]
  }

  /** A key this limiter may meet at the start: none, one that never got its expiry, or one with any
      expiry that was counted at least once. */
  predicate Startable(key: Option<Entry>) {
    key.Some? ==> key.value.count >= if key.value.expiresAt.Some? then 1 else 0
  }

  /** The times of a lifetime, by the tie rule. */
  predicate InLife(p: Params, l: Life, t: int) {
    && (l.inherited || l.start <= t)
    && (if p.aliveAtTie then t <= l.start + Span(p) else t < l.start + Span(p))
  }

  predicate Apart(p: Params, start: int, next: int) {
    if p.aliveAtTie then start + Span(p) < next else start + Span(p) <= next
  }

  predicate Follows(p: Params, lives: seq<Life>, i: int) {
    0 < i < |lives| && Apart(p, lives[i - 1].start, lives[i].start)
  }

  ghost predicate LifeOk(p: Params, l: Life) {
    && |l.admitted| <= AtLeastZero(if l.inherited then p.limit - 1 else p.limit)
    && (l.admitted != [] && !l.inherited ==> l.admitted[0] == l.start)
    && forall i :: 0 <= i < |l.admitted| ==> InLife(p, l, l.admitted[i])
  }

  ghost predicate LivesOk(p: Params, lives: seq<Life>) {
    && (forall i :: 0 <= i < |lives| ==> LifeOk(p, lives[i]))
    && (forall i :: 0 < i < |lives| ==> Follows(p, lives, i) && !lives[i].inherited)
  }

  function Flatten(lives: seq<Life>): seq<int> {
    if lives == [] then [] else Flatten(lives[..|lives| - 1]) + lives[|lives| - 1].admitted
  }

  /** The current lifetime carries the key's expiry and no more admissions than the key's count; where
      the call that opened it was refused, so is every later one. */
  ghost predicate KeyOk(p: Params, r: Run, last: int) {
    match r.key
    case None => r.lives == []
    case Some(e) =>
      && e.count >= 0
      && (e.expiresAt.None? ==> r.lives == [])
      && (e.expiresAt.Some? ==>
            && e.count >= 1 && r.lives != []
            && var l := r.lives[|r.lives| - 1];
               && e.expiresAt.value == l.start + Span(p)
               && |l.admitted| + (if l.inherited then 1 else 0) <= e.count
               && (!l.inherited ==> l.start <= last && (l.admitted == [] ==> e.count > p.limit)))
  }

  ghost predicate RunOk(p: Params, r: Run, last: int) {
    LivesOk(p, r.lives) && KeyOk(p, r, last) && r.admitted == Flatten(r.lives)
  }

  lemma FlattenSnoc(lives: seq<Life>, l: Life)
    ensures Flatten(lives + [l]) == Flatten(lives) + l.admitted
  {
    assert (lives + [l])[..|lives|] == lives;
  }

  /** What the script does when it opens a lifetime, and what it does inside one. */
  lemma ScriptOpens(p: Params, key: Option<Entry>, now: int)
    requires p.window > 0 && Opens(p, key, now) && (key.Some? ==> key.value.count >= 0)
    ensures var c := Incr(p, key, now).count;
            && c >= 1 && Script(p, key, now).key == Some(Entry(c, Some(now + Span(p))))
            && Script(p, key, now).allowed == (c <= p.limit)
            && Script(p, key, now).ttl == p.window
  {
  }

  lemma ScriptCounts(p: Params, e: Entry, now: int)
    requires e.expiresAt.Some? && !Gone(p, e, now) && e.count >= 1
    ensures Script(p, Some(e), now).key == Some(e.(count := e.count + 1))
    ensures Script(p, Some(e), now).allowed == (e.count + 1 <= p.limit)
    ensures 0 <= Script(p, Some(e), now).ttl
  {
  }

  /** The seconds that a call in the middle of a lifetime is told to wait: what is left of it, rounded to the
      nearest second and at least 1. The key is gone after that long if and only if nothing was rounded off. */
  lemma RetryAfterRounds(p: Params, e: Entry, now: int)
    requires e.expiresAt.Some? && !Gone(p, e, now) && e.count >= 1
    ensures var left, wait := e.expiresAt.value - now, Max(1, Script(p, Some(e), now).ttl);
            && left >= 0
            && (left >= 500 ==> left - 500 < 1000 * wait <= left + 500) && (left < 500 ==> wait == 1)
            && (Gone(p, Script(p, Some(e), now).key.value, now + 1000 * wait) <==>
                  if p.aliveAtTie then left < 1000 * wait else left <= 1000 * wait)
    ensures Script(p, Some(e), now).allowed <==> e.count < p.limit
  {
    ScriptCounts(p, e, now);
  }

  /** What a call that opens a lifetime does to the run. */
  lemma OpenedRun(p: Params, r: Run, now: int)
    requires p.window > 0 && Opens(p, r.key, now) && (r.key.Some? ==> r.key.value.count >= 0)
    ensures var next := Next(p, r, now);
            var c := Incr(p, r.key, now).count;
            var l := Admit(Life(now, [], false), now, c <= p.limit);
            && c >= 1 && next.key == Some(Entry(c, Some(now + Span(p))))
            && next.lives == r.lives + [l] && next.admitted == r.admitted + l.admitted
  {
    ScriptOpens(p, r.key, now);
  }

  lemma NewLifeOk(p: Params, now: int, count: int)
    requires p.window > 0 && count >= 1
    ensures var l := Admit(Life(now, [], false), now, count <= p.limit);
            && LifeOk(p, l) && l.start == now && !l.inherited && |l.admitted| <= count
            && (l.admitted == [] ==> count > p.limit)
  {
  }

  lemma OpenedLives(p: Params, r: Run, last: int, now: int)
    requires p.window > 0 && RunOk(p, r, last) && last <= now && Opens(p, r.key, now)
    ensures LivesOk(p, Next(p, r, now).lives) && Next(p, r, now).admitted == Flatten(Next(p, r, now).lives)
  {
    OpenedRun(p, r, now);
    var c := Incr(p, r.key, now).count;
    var l := Admit(Life(now, [], false), now, c <= p.limit);
    NewLifeOk(p, now, c);
    FlattenSnoc(r.lives, l);
    LivesGrow(p, r.lives, l);
  }

  lemma OpenedKey(p: Params, r: Run, now: int)
    requires p.window > 0 && Opens(p, r.key, now) && (r.key.Some? ==> r.key.value.count >= 0)
    ensures KeyOk(p, Next(p, r, now), now)
  {
    OpenedRun(p, r, now);
    NewLifeOk(p, now, Incr(p, r.key, now).count);
    var next := Next(p, r, now);
    assert next.lives[|next.lives| - 1].start == now;
  }

  /** A call that opens a lifetime. */
  lemma {:induction false} OpeningKeeps(p: Params, r: Run, last: int, now: int)
    requires p.window > 0 && RunOk(p, r, last) && last <= now
    requires Opens(p, r.key, now)
    ensures RunOk(p, Next(p, r, now), now)
  {
    OpenedLives(p, r, last, now);
    OpenedKey(p, r, now);
  }

  lemma LivesGrow(p: Params, lives: seq<Life>, l: Life)
    requires LivesOk(p, lives) && LifeOk(p, l)
    requires lives != [] ==> Apart(p, lives[|lives| - 1].start, l.start) && !l.inherited
    ensures LivesOk(p, lives + [l])
  {
    forall i | 0 < i < |lives| + 1 ensures Follows(p, lives + [l], i) && !(lives + [l])[i].inherited {
      assert i < |lives| ==> Follows(p, lives, i);
    }
  }

  lemma SplitLast(p: Params, lives: seq<Life>)
    requires lives != [] && LivesOk(p, lives)
    ensures var n := |lives| - 1;
            && lives == lives[..n] + [lives[n]] && LivesOk(p, lives[..n]) && LifeOk(p, lives[n])
            && (n > 0 ==> Apart(p, lives[..n][n - 1].start, lives[n].start) && !lives[n].inherited)
  {
    var n := |lives| - 1;
    forall i | 0 < i < n ensures Follows(p, lives[..n], i) && !lives[..n][i].inherited {
      assert Follows(p, lives, i);
    }
    assert n > 0 ==> Follows(p, lives, n);
  }

  lemma LastReplaced(p: Params, lives: seq<Life>, l: Life)
    requires lives != [] && LivesOk(p, lives) && LifeOk(p, l)
    requires l.start == lives[|lives| - 1].start && l.inherited == lives[|lives| - 1].inherited
    ensures var front := lives[..|lives| - 1];
            && LivesOk(p, front + [l]) && Flatten(front + [l]) == Flatten(front) + l.admitted
            && Flatten(lives) == Flatten(front) + lives[|lives| - 1].admitted
  {
    var front := lives[..|lives| - 1];
    SplitLast(p, lives);
    FlattenSnoc(front, l);
    LivesGrow(p, front, l);
  }

  /** A call inside a lifetime. */
  lemma InsideKeeps(p: Params, r: Run, last: int, now: int)
    requires p.window > 0 && RunOk(p, r, last) && last <= now
    requires !Opens(p, r.key, now)
    ensures RunOk(p, Next(p, r, now), now)
  {
    var n := |r.lives| - 1;
    var count := r.key.value.count + 1;
    var l := Admit(r.lives[n], now, count <= p.limit);
    InsideRun(p, r, now);
    InsideLife(p, r.lives[n], r.key.value, last, now);
    LastReplaced(p, r.lives, l);
    var next := Next(p, r, now);
    assert next.lives[|next.lives| - 1] == l;
  }

  /** What a call inside a lifetime does to the run. */
  lemma InsideRun(p: Params, r: Run, now: int)
    requires !Opens(p, r.key, now) && r.key.value.count >= 1 && r.lives != []
    ensures var next := Next(p, r, now);
            var n, count := |r.lives| - 1, r.key.value.count + 1;
            && next.key == Some(r.key.value.(count := count))
            && next.lives == r.lives[..n] + [Admit(r.lives[n], now, count <= p.limit)]
            && next.admitted == r.admitted + if count <= p.limit then [now] else []
  {
    ScriptCounts(p, r.key.value, now);
  }

  lemma InsideLife(p: Params, l: Life, e: Entry, last: int, now: int)
    requires LifeOk(p, l) && e.expiresAt == Some(l.start + Span(p)) && !Gone(p, e, now) && last <= now
    requires |l.admitted| + (if l.inherited then 1 else 0) <= e.count
    requires !l.inherited ==> l.start <= last && (l.admitted == [] ==> e.count > p.limit)
    ensures LifeOk(p, Admit(l, now, e.count + 1 <= p.limit))
  {
  }

  ghost predicate NotAfter(times: seq<int>, last: int) {
    forall i :: 0 <= i < |times| ==> times[i] <= last
  }

  lemma {:induction false} ServeOk(p: Params, key: Option<Entry>, times: seq<int>, last: int)
    requires p.window > 0 && Startable(key) && Sorted(times) && NotAfter(times, last)
    ensures RunOk(p, Serve(p, key, times), last)
  {
    if times != [] {
      var n := |times| - 1;
      var before := Serve(p, key, times[..n]);
      ServeOk(p, key, times[..n], times[n]);
      NextOk(p, before, times[n], times[n]);
      OkLater(p, Serve(p, key, times), times[n], last);
    }
  }

  lemma NextOk(p: Params, r: Run, last: int, now: int)
    requires p.window > 0 && RunOk(p, r, last) && last <= now
    ensures RunOk(p, Next(p, r, now), now)
  {
    if Opens(p, r.key, now) {
      OpeningKeeps(p, r, last, now);
    } else {
      InsideKeeps(p, r, last, now);
    }
  }

  lemma OkLater(p: Params, r: Run, last: int, later: int)
    requires RunOk(p, r, last) && last <= later
    ensures RunOk(p, r, later)
  {
  }

  // ---------------------------------------------------------------- the sliding bound

  function Within(lo: int, hi: int): int -> bool {
    (x: int) => lo <= x <= hi
  }

  function CountIn(s: seq<int>, lo: int, hi: int): nat {
    |Filter(Within(lo, hi), s)|
  }

  lemma {:induction false} CountNone(s: seq<int>, lo: int, hi: int)
    requires forall i :: 0 <= i < |s| ==> !(lo <= s[i] <= hi)
    ensures CountIn(s, lo, hi) == 0
  {
    if s != [] {
      CountNone(s[..|s| - 1], lo, hi);
    }
  }

  lemma {:induction false} CountAtMost(s: seq<int>, lo: int, hi: int)
    ensures CountIn(s, lo, hi) <= |s|
  {
    if s != [] {
      CountAtMost(s[..|s| - 1], lo, hi);
    }
  }

  lemma CountWithoutFirst(s: seq<int>, lo: int, hi: int)
    requires s != [] && s[0] < lo
    ensures CountIn(s, lo, hi) <= |s| - 1
  {
    var rest := s[1..];
    assert s == [s[0]] + rest;
    FilterConcat(Within(lo, hi), [s[0]], rest);
    FilterOne(Within(lo, hi), s[0]);
    CountAtMost(rest, lo, hi);
  }

  /** Lifetimes that start too early have no admission in the interval. */
  lemma {:induction false} EarlyLivesMiss(p: Params, lives: seq<Life>, lo: int, hi: int, later: nat)
    requires p.window > 0 && LivesOk(p, lives) && later < |lives|
    requires lives[later].start <= lo
    ensures CountIn(Flatten(lives[..later]), lo, hi) == 0
    decreases later
  {
    if later > 0 {
      var l := lives[later - 1];
      assert Follows(p, lives, later);
      assert lives[..later] == lives[..later - 1] + [l];
      FlattenSnoc(lives[..later - 1], l);
      FilterConcat(Within(lo, hi), Flatten(lives[..later - 1]), l.admitted);
      assert LifeOk(p, l);
      CountNone(l.admitted, lo, hi);
      EarlyLivesMiss(p, lives, lo, hi, later - 1);
    }
  }

  /** The most that a closed interval of one window's length can hold. A key that is still there at its
      expiry keeps the next lifetime out of the interval unless the first admission of the one before is
      already outside. */
  function MostInWindow(p: Params): nat {
    if p.limit <= 0 then 0 else if p.aliveAtTie then 2 * p.limit - 1 else 2 * p.limit
  }

  /** What the last but one lifetime can still contribute. */
  lemma PreviousLife(p: Params, lives: seq<Life>, n: nat, lo: int)
    requires p.window > 0 && LivesOk(p, lives) && 1 < n <= |lives|
    requires lives[n - 1].start <= lo + Span(p)
    ensures lives[n - 2].start <= lo
    ensures CountIn(lives[n - 2].admitted, lo, lo + Span(p)) <= Max(0, MostInWindow(p) - AtLeastZero(p.limit))
  {
    var prev := lives[n - 2];
    assert Follows(p, lives, n - 1) && LifeOk(p, prev);
    CountAtMost(prev.admitted, lo, lo + Span(p));
    if p.aliveAtTie && !prev.inherited && prev.admitted != [] {
      CountWithoutFirst(prev.admitted, lo, lo + Span(p));
    }
  }

  lemma CountLast(lives: seq<Life>, n: nat, lo: int, hi: int)
    requires 0 < n <= |lives|
    ensures CountIn(Flatten(lives[..n]), lo, hi)
         == CountIn(Flatten(lives[..n - 1]), lo, hi) + CountIn(lives[n - 1].admitted, lo, hi)
  {
    assert lives[..n] == lives[..n - 1] + [lives[n - 1]];
    FlattenSnoc(lives[..n - 1], lives[n - 1]);
    FilterConcat(Within(lo, hi), Flatten(lives[..n - 1]), lives[n - 1].admitted);
  }

  /** One lifetime alone contributes at most the limit, and none where it was opened later. */
  lemma LifeCount(p: Params, l: Life, lo: int)
    requires LifeOk(p, l)
    ensures CountIn(l.admitted, lo, lo + Span(p)) <= AtLeastZero(p.limit) <= MostInWindow(p)
    ensures !l.inherited && l.start > lo + Span(p) ==> CountIn(l.admitted, lo, lo + Span(p)) == 0
  {
    CountAtMost(l.admitted, lo, lo + Span(p));
    if !l.inherited && l.start > lo + Span(p) {
      CountNone(l.admitted, lo, lo + Span(p));
    }
  }

  /** The last two lifetimes, where the last starts inside the interval. */
  lemma LastTwo(p: Params, lives: seq<Life>, n: nat, lo: int)
    requires p.window > 0 && LivesOk(p, lives) && 1 < n <= |lives|
    requires lives[n - 1].start <= lo + Span(p)
    ensures CountIn(Flatten(lives[..n]), lo, lo + Span(p)) <= MostInWindow(p)
  {
    var hi := lo + Span(p);
    CountLast(lives, n, lo, hi);
    CountLast(lives, n - 1, lo, hi);
    LifeCount(p, lives[n - 1], lo);
    PreviousLife(p, lives, n, lo);
    EarlyLivesMiss(p, lives, lo, hi, n - 2);
  }

  /** An interval of one window's length meets at most two lifetimes. */
  lemma {:induction false} LivesBound(p: Params, lives: seq<Life>, lo: int, n: nat)
    requires p.window > 0 && LivesOk(p, lives) && n <= |lives|
    ensures CountIn(Flatten(lives[..n]), lo, lo + Span(p)) <= MostInWindow(p)
    decreases n
  {
    if n > 1 && lives[n - 1].start <= lo + Span(p) {
      LastTwo(p, lives, n, lo);
    } else if n > 0 {
      CountLast(lives, n, lo, lo + Span(p));
      LifeCount(p, lives[n - 1], lo);
      if n > 1 {
        LivesBound(p, lives, lo, n - 1);
      }
    }
  }

  /** Over any run with a clock that does not go back, successive lifetimes start at least one window
      apart and admit at most `limit` each, the admissions are exactly theirs, and so a closed interval of
      one window's length holds at most twice the limit, less one where a key outlives its expiry. */
  lemma {:induction false} FixedWindowBound(p: Params, key: Option<Entry>, times: seq<int>, lo: int)
    requires p.window > 0 && Startable(key) && Sorted(times)
    ensures var r := Serve(p, key, times);
            && LivesOk(p, r.lives) && r.admitted == Flatten(r.lives)
            && CountIn(r.admitted, lo, lo + Span(p)) <= MostInWindow(p)
  {
    var last := if times == [] then 0 else times[|times| - 1];
    ServeOk(p, key, times, last);
    var r := Serve(p, key, times);
    LivesBound(p, r.lives, lo, |r.lives|);
    assert r.lives[..|r.lives|] == r.lives;
  }

  // ---------------------------------------------------------------- no window, no limit

  /** The runs that start without a key. */
  function Fresh(p: Params): seq<int> -> Run {
    (times: seq<int>) => Serve(p, None, times)
  }

  /** `serve` serves one call after the other. */
  ghost predicate Serves(p: Params, serve: seq<int> -> Run) {
    forall times: seq<int>, now :: serve(times + [now]) == Next(p, serve(times), now)
  }

  lemma FreshServes(p: Params)
    ensures Serves(p, Fresh(p)) && Fresh(p)([]) == Run(None, [], [])
  {
    forall times: seq<int>, now ensures Fresh(p)(times + [now]) == Next(p, Fresh(p)(times), now) {
      assert (times + [now])[..|times|] == times;
    }
  }

  lemma NoWindowCall(p: Params, r: Run, now: int)
    requires p.window <= 0 && r.key == None
    ensures Next(p, r, now).key == None
    ensures Next(p, r, now).admitted == r.admitted + if p.limit > 0 then [now] else []
  {
  }

  lemma {:induction false} NoWindowServed(p: Params, serve: seq<int> -> Run, times: seq<int>)
    requires Serves(p, serve) && serve([]) == Run(None, [], []) && p.window <= 0
    ensures serve(times).key == None && serve(times).admitted == if p.limit > 0 then times else []
    decreases |times|
  {
    if times != [] {
      var n := |times| - 1;
      NoWindowServed(p, serve, times[..n]);
      NoWindowCall(p, serve(times[..n]), times[n]);
      assert times == times[..n] + [times[n]];
    }
  }

  /** With a window that is not positive every call deletes the key again: without one at the start, all
      calls are admitted or none is. */
  lemma NoWindowNoLimit(p: Params, times: seq<int>)
    requires p.window <= 0
    ensures Fresh(p)(times).key == None && Fresh(p)(times).admitted == if p.limit > 0 then times else []
  {
    FreshServes(p);
    NoWindowServed(p, Fresh(p), times);
  }

  // ---------------------------------------------------------------- the bound is reached

  function Repeat(t: int, n: nat): seq<int> { seq(n, _ => t) }

  lemma RepeatSnoc(s: seq<int>, t: int, n: nat)
    requires n > 0
    ensures s + Repeat(t, n) == s + Repeat(t, n - 1) + [t]
  {
  }

  lemma RepeatCons(s: seq<int>, t: int, n: nat)
    requires n > 0
    ensures s + Repeat(t, n) == s + [t] + Repeat(t, n - 1)
  {
  }

  lemma RepeatNone(s: seq<int>, t: int)
    ensures s + Repeat(t, 0) == s
  {
  }

  lemma FirstOne(p: Params, serve: seq<int> -> Run, times: seq<int>, t: int)
    requires Serves(p, serve) && p.window > 0 && 0 < p.limit
    requires var key := serve(times).key; key.Some? ==> Gone(p, key.value, t) && key.value.count >= 0
    ensures serve(times + [t]).key == Some(Entry(1, Some(t + Span(p))))
    ensures serve(times + [t]).admitted == serve(times).admitted + [t]
  {
    OpenedRun(p, serve(times), t);
  }

  lemma InsideOne(p: Params, serve: seq<int> -> Run, times: seq<int>, end: int, t: int, c: nat)
    requires Serves(p, serve) && 0 < c < p.limit && t < end && serve(times).key == Some(Entry(c, Some(end)))
    ensures serve(times + [t]).key == Some(Entry(c + 1, Some(end)))
    ensures serve(times + [t]).admitted == serve(times).admitted + [t]
  {
    ScriptCounts(p, Entry(c, Some(end)), t);
  }

  /** Calls inside a lifetime are admitted for as long as the count is below the limit. */
  lemma {:induction false} BurstInside(p: Params, serve: seq<int> -> Run, times: seq<int>, end: int, t: int, c: nat, n: nat)
    requires Serves(p, serve) && 0 < c && c + n <= p.limit && t < end && serve(times).key == Some(Entry(c, Some(end)))
    ensures serve(times + Repeat(t, n)).key == Some(Entry(c + n, Some(end)))
    ensures serve(times + Repeat(t, n)).admitted == serve(times).admitted + Repeat(t, n)
    decreases n
  {
    if n == 0 {
      RepeatNone(times, t);
      RepeatNone(serve(times).admitted, t);
    } else {
      BurstInside(p, serve, times, end, t, c, n - 1);
      InsideOne(p, serve, times + Repeat(t, n - 1), end, t, c + n - 1);
      RepeatSnoc(times, t, n);
      RepeatSnoc(serve(times).admitted, t, n);
    }
  }

  /** Up to `limit` calls at the moment a lifetime opens are all admitted. */
  lemma BurstAdmitted(p: Params, serve: seq<int> -> Run, times: seq<int>, t: int, n: nat)
    requires Serves(p, serve) && p.window > 0 && 0 < n <= p.limit
    requires var key := serve(times).key; key.Some? ==> Gone(p, key.value, t) && key.value.count >= 0
    ensures serve(times + Repeat(t, n)).key == Some(Entry(n, Some(t + Span(p))))
    ensures serve(times + Repeat(t, n)).admitted == serve(times).admitted + Repeat(t, n)
  {
    FirstOne(p, serve, times, t);
    BurstInside(p, serve, times + [t], t + Span(p), t, 1, n - 1);
    RepeatCons(times, t, n);
    RepeatCons(serve(times).admitted, t, n);
  }

  lemma AllWithin(s: seq<int>, lo: int, hi: int)
    requires forall i :: 0 <= i < |s| ==> lo <= s[i] <= hi
    ensures CountIn(s, lo, hi) == |s|
  {
    forall x | x in s ensures Within(lo, hi)(x) {
      var i :| 0 <= i < |s| && s[i] == x;
    }
    FilterAll(Within(lo, hi), s);
  }

  /** A run on a clock that does not go back which fills the interval that starts at `lo`. */
  ghost predicate Fills(p: Params, serve: seq<int> -> Run, times: seq<int>, lo: int) {
    Sorted(times) && CountIn(serve(times).admitted, lo, lo + Span(p)) == MostInWindow(p)
  }

  /** Where a key is gone at its expiry: `limit` calls at the start of one lifetime and `limit` at the
      start of the next, exactly one window later. */
  function Twice(p: Params): seq<int>
    requires p.limit > 0
  {
    Repeat(0, p.limit) + Repeat(Span(p), p.limit)
  }

  lemma TwiceAdmitted(p: Params, serve: seq<int> -> Run)
    requires p.window > 0 && p.limit > 0 && !p.aliveAtTie
    requires Serves(p, serve) && serve([]) == Run(None, [], [])
    ensures serve(Twice(p)).admitted == Twice(p)
  {
    assert [] + Repeat(0, p.limit) == Repeat(0, p.limit);
    BurstAdmitted(p, serve, [], 0, p.limit);
    BurstAdmitted(p, serve, Repeat(0, p.limit), Span(p), p.limit);
  }

  /** Where a key is still there at its expiry: one call, a millisecond later the rest of the limit, and
      one window after those the next limit. */
  function Staggered(p: Params): seq<int>
    requires p.limit > 0
  {
    [0] + Repeat(1, p.limit - 1) + Repeat(1 + Span(p), p.limit)
  }

  lemma StaggeredAdmitted(p: Params, serve: seq<int> -> Run)
    requires p.window > 0 && p.limit > 0 && p.aliveAtTie
    requires Serves(p, serve) && serve([]) == Run(None, [], [])
    ensures serve(Staggered(p)).admitted == Staggered(p)
  {
    assert [] + [0] == [0];
    FirstOne(p, serve, [], 0);
    BurstInside(p, serve, [0], Span(p), 1, 1, p.limit - 1);
    BurstAdmitted(p, serve, [0] + Repeat(1, p.limit - 1), 1 + Span(p), p.limit);
  }

  lemma StaggeredCount(p: Params)
    requires p.window > 0 && p.limit > 0
    ensures CountIn(Staggered(p), 1, 1 + Span(p)) == 2 * p.limit - 1
  {
    var rest := Repeat(1, p.limit - 1) + Repeat(1 + Span(p), p.limit);
    assert Staggered(p) == [0] + rest;
    FilterConcat(Within(1, 1 + Span(p)), [0], rest);
    FilterOne(Within(1, 1 + Span(p)), 0);
    AllWithin(rest, 1, 1 + Span(p));
  }

  lemma TwiceSorted(p: Params)
    requires p.window > 0 && p.limit > 0
    ensures Sorted(Twice(p)) && |Twice(p)| == 2 * p.limit
    ensures forall i :: 0 <= i < |Twice(p)| ==> 0 <= Twice(p)[i] <= Span(p)
  {
  }

  lemma StaggeredSorted(p: Params)
    requires p.window > 0 && p.limit > 0
    ensures Sorted(Staggered(p))
  {
  }

  lemma BoundFilled(p: Params, serve: seq<int> -> Run) returns (times: seq<int>, lo: int)
    requires p.window > 0 && Serves(p, serve) && serve([]) == Run(None, [], [])
    ensures Fills(p, serve, times, lo)
  {
    if p.limit <= 0 {
      times, lo := [], 0;
    } else if p.aliveAtTie {
      StaggeredAdmitted(p, serve);
      StaggeredCount(p);
      StaggeredSorted(p);
      times, lo := Staggered(p), 1;
    } else {
      TwiceAdmitted(p, serve);
      TwiceSorted(p);
      AllWithin(Twice(p), 0, Span(p));
      times, lo := Twice(p), 0;
    }
  }

  /** The bound is sharp: under either rule some run that starts without a key fills an interval to it. */
  lemma BoundReached(p: Params)
    requires p.window > 0
    ensures exists times, lo :: Fills(p, Fresh(p), times, lo)
  {
    FreshServes(p);
    var times, lo := BoundFilled(p, Fresh(p));
  }
}
