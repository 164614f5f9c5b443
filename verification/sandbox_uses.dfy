/**
 What an acquire gets, and that the times and marks the pool goes by are those of the last use.
 */
module SandboxUses {
  import opened Lists
  import opened Options
  import opened SandboxMachine

  // ---------------------------------------------------------------- what an acquire gets

  /** Whoever is granted an instance gets one of the image asked for, which nobody was using or which is
      new, and which is now in use and filed under that image. */
  ghost predicate Fits(s: State, t: State, image: string, r: nat, now: int) {
    && (r == |s.made| || (IsIdle(s.made, r) && r in ItemsOf(s.buckets, image)))
    && r < |t.made| && t.made[r].image == image && t.made[r].inUse && t.made[r].lastUsed == now
    && r in ItemsOf(t.buckets, image)
    && forall q: nat :: q < |s.made| && q != r ==> q < |t.made| && t.made[q] == s.made[q]
  }

  lemma {:induction false} ItemsProper(bs: seq<Bucket<nat>>, made: seq<Instance>, image: string, r: nat)
    requires AllProper(bs, made) && r in ItemsOf(bs, image)
    ensures r < |made| && made[r].image == image
    decreases |bs|
  {
    assert Proper(bs[0], made);
    if bs[0].image != image {
      ItemsProper(bs[1..], made, image, r);
    }
  }

  lemma {:induction false} AddedItems(bs: seq<Bucket<nat>>, image: string, r: nat)
    ensures r in ItemsOf(Added(bs, image, r), image)
    decreases |bs|
  {
    if bs != [] && bs[0].image != image {
      AddedItems(bs[1..], image, r);
    }
  }

  /** An `acquire` reuses an idle instance of its image if and only if there is one; otherwise it makes one,
      after an eviction at most where the pool is full. */
  lemma AcquireReuses(s: State, image: string, now: int)
    requires Inv(s) && s.phase.Free?
    ensures var e := Acquire(image, now);
            && (Granted(s, e).Some? <==> exists r :: r in ItemsOf(s.buckets, image) && IsIdle(s.made, r))
            && (Granted(s, e).Some? ==> Fits(s, Next(s, e), image, Granted(s, e).value, now) && Next(s, e).phase == Free)
            && (Granted(s, e).None? ==>
                  Next(s, e).phase == Starting(image)
                  || (|Refs(s.buckets)| >= s.maxSize && Next(s, e).phase.Stopping? && Next(s, e).phase.wanted == image))
  {
    FirstIdleFirst(s.made, ItemsOf(s.buckets, image));
    match FirstIdle(s.made, ItemsOf(s.buckets, image))
    case Some(r) => ItemsProper(s.buckets, s.made, image, r);
    case None =>
  }

  /** An instance that was started is new and goes to the waiting acquire. */
  lemma StartedFits(s: State, now: int)
    requires Inv(s) && s.phase.Starting?
    ensures Granted(s, Started(now)) == Some(|s.made|)
    ensures Fits(s, Next(s, Started(now)), s.phase.wanted, |s.made|, now) && Next(s, Started(now)).phase == Free
  {
    AddedItems(s.buckets, s.phase.wanted, |s.made|);
  }

  /** While the lock is held an acquire gets nothing and changes nothing; an aborted one leaves the pool as
      it is and gives the lock back; stopping everything takes the lock and leaves an empty pool behind. */
  lemma LockHeld(s: State, image: string, now: int)
    ensures s.phase != Free ==> Next(s, Acquire(image, now)) == s && Next(s, StopAll) == s
    ensures Next(s, Abandoned).phase == Free && Next(s, Abandoned).buckets == s.buckets && Next(s, Abandoned).made == s.made
    ensures s.phase == Free ==>
              var held := Next(s, StopAll);
              held.buckets == s.buckets && held.phase != Free
              && Next(held, AllStopped).buckets == [] && Next(held, AllStopped).phase == Free
  {
  }

  // ---------------------------------------------------------------- the last use

  /** What was done with an instance last, and when: it was handed out or given back. */
  datatype Use = HandedOut(at: int) | GivenBack(at: int)

  function UseBy(s: State, e: Event, r: nat): Option<Use> {
    match e
    case Acquire(_, now) => if Granted(s, e) == Some(r) then Some(HandedOut(now)) else None
    case Started(now) => if Granted(s, e) == Some(r) then Some(HandedOut(now)) else None
    case Release(q, now, _) => if q == r && r < |s.made| then Some(GivenBack(now)) else None
    case _ => None
  }

  function LastUse(maxSize: int, es: seq<Event>, r: nat): Option<Use>
    decreases |es|
  {
    if es == [] then None
    else
      var now := UseBy(Run(maxSize, es[..|es| - 1]), es[|es| - 1], r);
      if now.Some? then now else LastUse(maxSize, es[..|es| - 1], r)
  }

  ghost predicate Remembers(made: seq<Instance>, r: nat, use: Option<Use>) {
    if r < |made| then use.Some? && made[r].lastUsed == use.value.at && (made[r].inUse <==> use.value.HandedOut?)
    else use.None?
  }

  lemma UseStep(s: State, e: Event, r: nat, use: Option<Use>)
    requires Inv(s) && Remembers(s.made, r, use)
    ensures Remembers(Next(s, e).made, r, if UseBy(s, e, r).Some? then UseBy(s, e, r) else use)
  {
    match e
    case Acquire(image, now) => if s.phase.Free? { AcquireReuses(s, image, now); }
    case _ =>
  }

  /** In every run an instance is in use if and only if it was handed out last, and its `last_used_at` is the
      time at which it was last handed out or given back. */
  lemma {:induction false} UsesRemembered(maxSize: int, es: seq<Event>, r: nat)
    ensures Remembers(Run(maxSize, es).made, r, LastUse(maxSize, es, r))
    decreases |es|
  {
    if es != [] {
      var past := es[..|es| - 1];
      UsesRemembered(maxSize, past, r);
      RunInv(maxSize, past);
      UseStep(Run(maxSize, past), es[|es| - 1], r, LastUse(maxSize, past, r));
    }
  }
}
