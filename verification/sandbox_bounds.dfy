/**
 How large the sandbox pool gets, and what it evicts, over every run.
 */
module SandboxBounds {
  import opened Arithmetic
  import opened Lists
  import opened Options
  import opened SandboxMachine
  import opened SandboxLeases

  // ---------------------------------------------------------------- the size bound

  /** The largest size limit that was ever set. */
  function Largest(maxSize: int, es: seq<Event>): int
    decreases |es|
  {
    if es == [] then Init(maxSize).maxSize
    else Max(Largest(maxSize, es[..|es| - 1]), Run(maxSize, es).maxSize)
  }

  /** Instances in use plus an acquire that is still waiting for its instance. */
  ghost function Load(s: State): int {
    |InUse(s.made)| + if s.phase.Stopping? || s.phase.Starting? then 1 else 0
  }

  ghost function Peak(maxSize: int, es: seq<Event>): int
    decreases |es|
  {
    if es == [] then Load(Init(maxSize)) else Max(Peak(maxSize, es[..|es| - 1]), Load(Run(maxSize, es)))
  }

  ghost function Bound(maxSize: int, es: seq<Event>): int {
    Max(Largest(maxSize, es), Peak(maxSize, es))
  }

  /** At this step a full pool with idle instances evicts nothing, because of an empty image name. */
  predicate Skips(s: State, e: Event) {
    && e.Acquire? && s.phase.Free? && FirstIdle(s.made, ItemsOf(s.buckets, e.image)).None?
    && |Refs(s.buckets)| >= s.maxSize
    && Oldest(s.made, Refs(s.buckets)).Some? && ImageOf(s.made, Oldest(s.made, Refs(s.buckets)).value) == ""
  }

  function Skipped(maxSize: int, es: seq<Event>): nat
    decreases |es|
  {
    if es == [] then 0
    else Skipped(maxSize, es[..|es| - 1]) + if Skips(Run(maxSize, es[..|es| - 1]), es[|es| - 1]) then 1 else 0
  }

  /** Room for the pool, counting the instance about to be made. */
  ghost predicate Within(s: State, bound: int) {
    |Refs(s.buckets)| + (if s.phase.Starting? then 1 else 0) <= bound
  }

  lemma AllInUse(s: State)
    requires Inv(s) && forall r :: r in Refs(s.buckets) ==> !IsIdle(s.made, r)
    ensures |Refs(s.buckets)| <= |InUse(s.made)|
  {
    DistinctSize(Refs(s.buckets));
    forall r | r in Members(Refs(s.buckets)) ensures r in InUse(s.made) {
      RefsMade(s.buckets, s.made, r);
    }
    SubsetSize(Members(Refs(s.buckets)), InUse(s.made));
  }

  lemma BegunWithin(s: State, image: string, now: int, bound: int)
    requires Inv(s) && Within(s, bound) && s.phase.Free? && !Skips(s, Acquire(image, now))
    requires s.maxSize <= bound && Load(Begun(s, image, now)) <= bound
    ensures Within(Begun(s, image, now), bound)
  {
    if Begun(s, image, now).phase.Starting? && |Refs(s.buckets)| >= s.maxSize {
      var i := OldestIsOldest(s.made, Refs(s.buckets));
      AllInUse(s);
    }
  }

  lemma NextWithin(s: State, e: Event, bound: int)
    requires Inv(s) && Within(s, bound)
    requires s.maxSize <= bound && Load(Next(s, e)) <= bound
    ensures Within(Next(s, e), bound + if Skips(s, e) then 1 else 0)
  {
    match e
    case Acquire(image, now) => if s.phase.Free? && !Skips(s, e) { BegunWithin(s, image, now, bound); }
    case Stopped => if s.phase.Stopping? { EvictedInv(s); }
    case Started(now) => if s.phase.Starting? { CreatedInv(s, now); }
    case _ =>
  }

  /** In every run the pool is no larger than the larger of the largest limit set and the peak of leases
      and waiting acquires, plus one for each time an eviction was skipped over an empty image name. */
  lemma {:induction false} PoolBounded(maxSize: int, es: seq<Event>)
    ensures Within(Run(maxSize, es), Bound(maxSize, es) + Skipped(maxSize, es))
    decreases |es|
  {
    if es != [] {
      var past := es[..|es| - 1];
      PoolBounded(maxSize, past);
      RunInv(maxSize, past);
      LargestCovers(maxSize, past);
      NextWithin(Run(maxSize, past), es[|es| - 1], Bound(maxSize, es) + Skipped(maxSize, past));
    }
  }

  predicate Named(es: seq<Event>) {
    forall e :: e in es && e.Acquire? ==> e.image != ""
  }

  ghost predicate ImagesNamed(s: State) {
    && (forall i :: 0 <= i < |s.made| ==> s.made[i].image != "")
    && (s.phase.Stopping? || s.phase.Starting? ==> s.phase.wanted != "")
  }

  /** No eviction is skipped while every image has a name. */
  lemma {:induction false} NamedNeverSkips(maxSize: int, es: seq<Event>)
    requires Named(es)
    ensures ImagesNamed(Run(maxSize, es)) && Skipped(maxSize, es) == 0
    decreases |es|
  {
    if es != [] {
      NamedNeverSkips(maxSize, es[..|es| - 1]);
      NamedStep(Run(maxSize, es[..|es| - 1]), es[|es| - 1]);
    }
  }

  lemma NamedStep(s: State, e: Event)
    requires ImagesNamed(s) && (e.Acquire? ==> e.image != "")
    ensures ImagesNamed(Next(s, e)) && !Skips(s, e)
  {
    var i := OldestIsOldest(s.made, Refs(s.buckets));
  }

  /** An `acquire` that finds no idle instance of its image, from its start to its return. */
  function Acquired(s: State, image: string, now: int, later: int): State
    requires s.phase.Free? && FirstIdle(s.made, ItemsOf(s.buckets, image)).None?
  {
    var begun := Begun(s, image, now);
    Created(if begun.phase.Stopping? then Evicted(begun) else begun, later)
  }

  /** Nothing is idle, or what was used longest ago is filed under the empty image name. */
  ghost predicate NothingToEvict(s: State) {
    var refs := Refs(s.buckets);
    || (forall r :: r in refs ==> !IsIdle(s.made, r))
    || (exists i: nat :: OldestAt(s.made, refs, i) && ImageOf(s.made, refs[i]) == "")
  }

  /** A full pool grows exactly when nothing is idle or the instance to evict has an empty image name. */
  lemma FullPoolGrowsIff(s: State, image: string, now: int, later: int)
    requires Inv(s) && s.phase.Free? && FirstIdle(s.made, ItemsOf(s.buckets, image)).None?
    requires |Refs(s.buckets)| >= s.maxSize
    ensures |Refs(Acquired(s, image, now, later).buckets)| > |Refs(s.buckets)|
       <==> NothingToEvict(s)
  {
    var i := OldestIsOldest(s.made, Refs(s.buckets));
    assert forall j: nat :: OldestAt(s.made, Refs(s.buckets), j) ==> OldestAt(s.made, Refs(s.buckets), i) && i == j;
    var begun := Begun(s, image, now);
    BegunInv(s, image, now);
    if begun.phase.Stopping? {
      EvictedInv(begun);
      CreatedInv(Evicted(begun), later);
    } else {
      CreatedInv(begun, later);
    }
  }

  lemma LargestCovers(maxSize: int, es: seq<Event>)
    ensures Run(maxSize, es).maxSize <= Largest(maxSize, es)
  {
  }

  /** With harmless releases, the instances in use are exactly the outstanding leases. */
  lemma LeasesInUse(maxSize: int, es: seq<Event>)
    requires Disciplined(maxSize, es)
    ensures |InUse(Run(maxSize, es).made)| == |Leases(maxSize, es).held|
  {
    LeasesExclusive(maxSize, es);
    ImageSize(Leases(maxSize, es).held, InUse(Run(maxSize, es).made));
  }

  lemma {:induction false} ImageSize(m: map<nat, nat>, s: set<nat>)
    requires forall j, k :: j in m && k in m && m[j] == m[k] ==> j == k
    requires forall r :: r in s <==> exists k :: k in m && m[k] == r
    ensures |m| == |s|
    decreases |m|
  {
    if m == map[] {
      assert s == {};
    } else {
      var k :| k in m;
      var n, t := m - {k}, s - {m[k]};
      assert m.Keys == n.Keys + {k};
      assert m[k] in s;
      forall r | r in t ensures exists j :: j in n && n[j] == r {
        var j :| j in m && m[j] == r;
        assert j in n && n[j] == r;
      }
      ImageSize(n, t);
    }
  }

  // ---------------------------------------------------------------- what is evicted

  function When(e: Event): Option<int> {
    match e
    case Acquire(_, now) => Some(now)
    case Started(now) => Some(now)
    case Release(_, now, _) => Some(now)
    case _ => None
  }

  function Clock(start: int, es: seq<Event>): int
    decreases |es|
  {
    if es == [] then start
    else if When(es[|es| - 1]).Some? then When(es[|es| - 1]).value
    else Clock(start, es[..|es| - 1])
  }

  predicate Timely(start: int, es: seq<Event>)
    decreases |es|
  {
    es == [] || (Timely(start, es[..|es| - 1]) && Clock(start, es[..|es| - 1]) <= Clock(start, es))
  }

  ghost predicate NotAhead(made: seq<Instance>, clock: int) {
    forall i :: 0 <= i < |made| ==> made[i].lastUsed <= clock
  }

  /** The instance about to be removed is idle and none of the idle ones was used longer ago. */
  ghost predicate VictimOldest(s: State) {
    s.phase.Stopping? ==>
      && s.phase.victim in Refs(s.buckets) && IsIdle(s.made, s.phase.victim)
      && forall r :: r in Refs(s.buckets) && IsIdle(s.made, r) ==> LastUsed(s.made, s.phase.victim) <= LastUsed(s.made, r)
  }

  /** Nobody releases the very instance that is being stopped, unless no other idle one was used before. */
  predicate Spares(s: State, e: Event) {
    e.Release? && s.phase.Stopping? && e.ref == s.phase.victim ==>
      forall r :: r in Refs(s.buckets) && r != e.ref && IsIdle(s.made, r) ==> e.now <= LastUsed(s.made, r)
  }

  predicate SparesVictims(maxSize: int, es: seq<Event>)
    decreases |es|
  {
    es == [] || (SparesVictims(maxSize, es[..|es| - 1]) && Spares(Run(maxSize, es[..|es| - 1]), es[|es| - 1]))
  }

  lemma ReleaseKeepsVictim(s: State, r: nat, now: int, clock: int, lease: nat)
    requires VictimOldest(s) && NotAhead(s.made, clock) && clock <= now
    ensures VictimOldest(s.(made := Marked(s.made, r, false, now))) <==> Spares(s, Release(r, now, lease))
  {
  }

  lemma BegunVictim(s: State, image: string, now: int)
    requires s.phase.Free?
    ensures VictimOldest(Begun(s, image, now))
  {
    var i := OldestIsOldest(s.made, Refs(s.buckets));
  }

  lemma NextVictim(s: State, e: Event, clock: int)
    requires VictimOldest(s) && NotAhead(s.made, clock)
    requires When(e).Some? ==> clock <= When(e).value
    ensures VictimOldest(Next(s, e)) <==> Spares(s, e)
  {
    match e
    case Acquire(image, now) => if s.phase.Free? { BegunVictim(s, image, now); }
    case Release(r, now, k) => ReleaseKeepsVictim(s, r, now, clock, k);
    case _ =>
  }

  lemma NextNotAhead(s: State, e: Event, clock: int)
    requires NotAhead(s.made, clock) && (When(e).Some? ==> clock <= When(e).value)
    ensures NotAhead(Next(s, e).made, if When(e).Some? then When(e).value else clock)
  {
  }

  ghost predicate AlwaysOldest(maxSize: int, es: seq<Event>)
    decreases |es|
  {
    VictimOldest(Run(maxSize, es)) && (es == [] || AlwaysOldest(maxSize, es[..|es| - 1]))
  }

  lemma {:induction false} ClockAhead(start: int, maxSize: int, es: seq<Event>)
    requires Timely(start, es)
    ensures NotAhead(Run(maxSize, es).made, Clock(start, es))
    decreases |es|
  {
    if es != [] {
      var past := es[..|es| - 1];
      ClockAhead(start, maxSize, past);
      NextNotAhead(Run(maxSize, past), es[|es| - 1], Clock(start, past));
    }
  }

  /** On a clock that does not go back, what is being stopped to make room is throughout an idle instance
      used longest ago, if and only if nobody gives that instance a later last use by releasing it. */
  lemma {:induction false} EvictsLeastRecentlyUsed(start: int, maxSize: int, es: seq<Event>)
    requires Timely(start, es)
    ensures AlwaysOldest(maxSize, es) <==> SparesVictims(maxSize, es)
    decreases |es|
  {
    if es != [] {
      var past := es[..|es| - 1];
      EvictsLeastRecentlyUsed(start, maxSize, past);
      if AlwaysOldest(maxSize, past) {
        ClockAhead(start, maxSize, past);
        NextVictim(Run(maxSize, past), es[|es| - 1], Clock(start, past));
      }
    }
  }
}
