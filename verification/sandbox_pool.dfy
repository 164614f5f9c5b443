/**
 The pool as the object the code has: lists of shared, mutable instances. Each method is one step of
 SandboxMachine, proved on the values read off the objects.
 */
module PoolObjects {
  import opened Lists
  import opened Options
  import opened SandboxMachine

  class PooledSandbox {
    const id: nat
    const image: string
    var lastUsedAt: int
    var inUse: bool

    constructor (id: nat, image: string, now: int)
      ensures this.id == id && this.image == image && lastUsedAt == now && inUse
    {
      this.id, this.image, lastUsedAt, inUse := id, image, now, true;
    }
  }

  /** The place of an instance among those made. */
  function Place(x: PooledSandbox): nat {
    if x.id == 0 then 0 else x.id - 1
  }

  function PlaceIfAny(x: PooledSandbox?): Option<nat> {
    if x == null then None else Some(Place(x))
  }

  function Places(items: seq<PooledSandbox>): seq<nat> {
    seq(|items|, i requires 0 <= i < |items| => Place(items[i]))
  }

  function Filed(pool: seq<Bucket<PooledSandbox>>): seq<Bucket<nat>> {
    if pool == [] then [] else [Bucket(pool[0].image, Places(pool[0].items))] + Filed(pool[1..])
  }

  function Seen(made: seq<PooledSandbox>): seq<Instance>
    reads made
  {
    seq(|made|, i requires 0 <= i < |made| reads made => Instance(made[i].id, made[i].image, made[i].lastUsedAt, made[i].inUse))
  }

  /** Instances carry their place as their id, so no two share one. */
  ghost predicate Identified(made: seq<PooledSandbox>) {
    forall i :: 0 <= i < |made| ==> made[i].id == i + 1
  }

  ghost predicate Known(items: seq<PooledSandbox>, made: seq<PooledSandbox>) {
    forall x :: x in items ==> x in made
  }

  ghost predicate AllKnown(pool: seq<Bucket<PooledSandbox>>, made: seq<PooledSandbox>) {
    Known(Refs(pool), made)
  }

  lemma PlaceOf(made: seq<PooledSandbox>, x: PooledSandbox)
    requires Identified(made) && x in made
    ensures Place(x) < |made| && made[Place(x)] == x
  {
  }

  lemma {:induction false} RefsFiled(pool: seq<Bucket<PooledSandbox>>)
    ensures Refs(Filed(pool)) == Places(Refs(pool))
  {
    if pool != [] {
      RefsFiled(pool[1..]);
      assert Filed(pool)[1..] == Filed(pool[1..]);
    }
  }

  lemma {:induction false} ItemsFiled(pool: seq<Bucket<PooledSandbox>>, image: string)
    ensures ItemsOf(Filed(pool), image) == Places(ItemsOf(pool, image))
    ensures forall x :: x in ItemsOf(pool, image) ==> x in Refs(pool)
  {
    if pool != [] {
      ItemsFiled(pool[1..], image);
      assert Filed(pool)[1..] == Filed(pool[1..]);
    }
  }

  lemma {:induction false} WithoutPlaces(items: seq<PooledSandbox>, made: seq<PooledSandbox>, x: PooledSandbox)
    requires Identified(made) && Known(items, made) && x in made
    ensures Places(Without(items, x)) == Without(Places(items), Place(x))
    ensures forall y :: y in Without(items, x) ==> y in items
  {
    if items != [] {
      assert items == [items[0]] + items[1..];
      WithoutPlaces(items[1..], made, x);
      assert Places(items)[1..] == Places(items[1..]);
      PlaceOf(made, items[0]);
      PlaceOf(made, x);
    }
  }

  lemma {:induction false} RemovedFiled(pool: seq<Bucket<PooledSandbox>>, made: seq<PooledSandbox>, image: string, x: PooledSandbox)
    requires Identified(made) && AllKnown(pool, made) && x in made
    ensures Filed(Removed(pool, image, x)) == Removed(Filed(pool), image, Place(x))
    ensures AllKnown(Removed(pool, image, x), made)
  {
    if pool != [] {
      var rest := pool[1..];
      assert Filed(pool)[1..] == Filed(rest);
      if pool[0].image != image {
        RemovedFiled(rest, made, image, x);
        assert ([pool[0]] + Removed(rest, image, x))[1..] == Removed(rest, image, x);
      } else {
        WithoutPlaces(pool[0].items, made, x);
        var kept := Without(pool[0].items, x);
        if kept == [] {
          assert Removed(pool, image, x) == rest;
        } else {
          assert ([Bucket(image, kept)] + rest)[1..] == rest;
        }
      }
    }
  }

  lemma {:induction false} AddedFiled(pool: seq<Bucket<PooledSandbox>>, image: string, x: PooledSandbox)
    ensures Filed(Added(pool, image, x)) == Added(Filed(pool), image, Place(x))
    ensures forall y :: y in Refs(Added(pool, image, x)) ==> y in Refs(pool) || y == x
  {
    if pool == [] {
      assert Refs([Bucket(image, [x])]) == [x];
      assert Places([x]) == [Place(x)];
      assert Filed([Bucket(image, [x])]) == [Bucket(image, [Place(x)])];
    } else {
      var rest := pool[1..];
      assert Filed(pool)[1..] == Filed(rest);
      if pool[0].image != image {
        AddedFiled(rest, image, x);
        assert ([pool[0]] + Added(rest, image, x))[1..] == Added(rest, image, x);
      } else {
        assert ([Bucket(image, pool[0].items + [x])] + rest)[1..] == rest;
        assert Places(pool[0].items + [x]) == Places(pool[0].items) + [Place(x)];
      }
    }
  }

  lemma {:induction false} RefsConcat<T>(a: seq<Bucket<T>>, b: seq<Bucket<T>>)
    ensures Refs(a + b) == Refs(a) + Refs(b)
  {
    if a == [] {
      assert a + b == b;
    } else {
      assert (a + b)[1..] == a[1..] + b;
      RefsConcat(a[1..], b);
    }
  }

  lemma RefsLast<T>(bs: seq<Bucket<T>>, b: Bucket<T>)
    ensures Refs(bs + [b]) == Refs(bs) + b.items
  {
    RefsConcat(bs, [b]);
    assert Refs([b]) == b.items;
  }

  lemma RefsSplit<T>(bs: seq<Bucket<T>>, n: nat)
    requires n <= |bs|
    ensures Refs(bs) == Refs(bs[..n]) + Refs(bs[n..])
  {
    SplitAt(bs, n);
    RefsConcat(bs[..n], bs[n..]);
  }

  lemma KnownAt(pool: seq<Bucket<PooledSandbox>>, made: seq<PooledSandbox>, i: nat)
    requires AllKnown(pool, made) && i < |pool|
    ensures Known(pool[i].items, made)
  {
    RefsSplit(pool, i);
    assert pool[i..][0] == pool[i];
  }

  lemma OldestStep(made: seq<PooledSandbox>, seen: seq<PooledSandbox>, x: PooledSandbox, best: PooledSandbox?)
    requires Identified(made) && x in made && (best == null || best in made)
    requires Oldest(Seen(made), Places(seen)) == PlaceIfAny(best)
    ensures Oldest(Seen(made), Places(seen + [x]))
         == PlaceIfAny(if !x.inUse && (best == null || x.lastUsedAt < best.lastUsedAt) then x else best)
  {
    PlaceOf(made, x);
    if best != null {
      PlaceOf(made, best);
    }
    assert Places(seen + [x])[..|seen|] == Places(seen);
  }

  // ---------------------------------------------------------------- statistics

  datatype PoolStats = PoolStats(total: nat, inUse: nat, available: nat, byImage: map<string, nat>)

  /** The instances of `refs` that are in use. */
  ghost function UsedAmong(made: seq<Instance>, refs: seq<nat>): set<nat> {
    set r | r in refs && r < |made| && made[r].inUse
  }

  lemma UsedStep(made: seq<Instance>, refs: seq<nat>, r: nat)
    requires Distinct(refs + [r]) && r < |made|
    ensures |UsedAmong(made, refs + [r])| == |UsedAmong(made, refs)| + if made[r].inUse then 1 else 0
  {
    DistinctSplit(refs, [r]);
    assert r !in refs;
    var more := if made[r].inUse then {r} else {};
    assert UsedAmong(made, refs + [r]) == UsedAmong(made, refs) + more;
  }

  lemma PrefixDistinct(s: seq<nat>, n: nat)
    requires Distinct(s) && n <= |s|
    ensures Distinct(s[..n])
  {
    SplitAt(s, n);
    DistinctSplit(s[..n], s[n..]);
  }

  lemma {:induction false} ImagesFiled(pool: seq<Bucket<PooledSandbox>>)
    ensures Images(Filed(pool)) == Images(pool)
  {
    if pool != [] {
      ImagesFiled(pool[1..]);
      assert Filed(pool)[1..] == Filed(pool[1..]);
    }
  }

  lemma {:induction false} ImagesLast<T>(bs: seq<Bucket<T>>, b: Bucket<T>)
    ensures Images(bs + [b]) == Images(bs) + [b.image]
  {
    if bs == [] {
      assert bs + [b] == [b];
    } else {
      assert (bs + [b])[1..] == bs[1..] + [b];
      ImagesLast(bs[1..], b);
    }
  }

  lemma {:induction false} ItemsAt<T>(bs: seq<Bucket<T>>, i: nat)
    requires Distinct(Images(bs)) && i < |bs|
    ensures ItemsOf(bs, bs[i].image) == bs[i].items && bs[i].image in Images(bs)
  {
    assert Images(bs)[1..] == Images(bs[1..]);
    if i > 0 {
      ItemsAt(bs[1..], i - 1);
    }
  }

  lemma {:induction false} CountStep(pool: seq<Bucket<PooledSandbox>>, made: seq<PooledSandbox>, i: nat)
    requires AllKnown(pool, made) && Distinct(Places(Refs(pool))) && i < |pool|
    ensures Known(pool[i].items, made) && Distinct(Places(Refs(pool[..i]) + pool[i].items))
    ensures Refs(pool[..i + 1]) == Refs(pool[..i]) + pool[i].items
  {
    KnownAt(pool, made, i);
    TakeNext(pool, i);
    RefsLast(pool[..i], pool[i]);
    RefsSplit(pool, i + 1);
    var seen := Refs(pool[..i + 1]);
    PrefixDistinct(Places(Refs(pool)), |seen|);
    assert Places(Refs(pool))[..|seen|] == Places(seen);
  }

  lemma MembersLast(s: seq<string>, x: string)
    ensures Members(s + [x]) == Members(s) + {x}
  {
  }

  lemma {:induction false} ByImageStep(pool: seq<Bucket<PooledSandbox>>, i: nat)
    requires Distinct(Images(pool)) && i < |pool|
    ensures Members(Images(pool[..i + 1])) == Members(Images(pool[..i])) + {pool[i].image}
    ensures ItemsOf(pool, pool[i].image) == pool[i].items
  {
    TakeNext(pool, i);
    ImagesLast(pool[..i], pool[i]);
    MembersLast(Images(pool[..i]), pool[i].image);
    ItemsAt(pool, i);
  }

  /** The statistics of the first `i` images. */
  ghost predicate Counts(stats: PoolStats, pool: seq<Bucket<PooledSandbox>>, seen: seq<Instance>, i: nat) {
    && i <= |pool|
    && stats.total == |Refs(pool[..i])| && stats.inUse + stats.available == stats.total
    && stats.inUse == |UsedAmong(seen, Places(Refs(pool[..i])))|
    && stats.byImage.Keys == Members(Images(pool[..i]))
    && forall image :: image in stats.byImage ==> stats.byImage[image] == |ItemsOf(pool, image)|
  }

  lemma CountsGrow(stats: PoolStats, pool: seq<Bucket<PooledSandbox>>, seen: seq<Instance>, i: nat, used: nat, available: nat)
    requires Counts(stats, pool, seen, i) && i < |pool| && Distinct(Images(pool))
    requires Refs(pool[..i + 1]) == Refs(pool[..i]) + pool[i].items && used + available == |pool[i].items|
    requires |UsedAmong(seen, Places(Refs(pool[..i]) + pool[i].items))| == |UsedAmong(seen, Places(Refs(pool[..i])))| + used
    ensures Counts(PoolStats(stats.total + |pool[i].items|, stats.inUse + used, stats.available + available,
                             stats.byImage[pool[i].image := |pool[i].items|]), pool, seen, i + 1)
  {
    ByImageStep(pool, i);
  }

  class SandboxPool {
    var pool: seq<Bucket<PooledSandbox>>
    var idCounter: nat
    var maxSize: int
    var phase: Phase
    ghost var made: seq<PooledSandbox>

    ghost function View(): State
      reads this, made
    {
      State(Filed(pool), Seen(made), idCounter, maxSize, phase)
    }

    ghost predicate Valid()
      reads this, made
    {
      Identified(made) && AllKnown(pool, made) && Inv(View())
    }

    constructor (maxSize: int)
      ensures Valid() && made == [] && View() == Init(maxSize)
    {
      pool, idCounter, made, phase := [], 0, [], Free;
      this.maxSize := if maxSize < 1 then 1 else maxSize;
    }

    /** The search of `acquire`. */
    method FindIdle(items: seq<PooledSandbox>) returns (found: PooledSandbox?)
      requires Identified(made) && Known(items, made)
      ensures FirstIdle(Seen(made), Places(items)) == PlaceIfAny(found)
      ensures found != null ==> found in items
    {
      for i := 0 to |items|
        invariant FirstIdle(Seen(made), Places(items)) == FirstIdle(Seen(made), Places(items[i..]))
      {
        assert items[i] in items;
        PlaceOf(made, items[i]);
        assert Places(items[i..])[1..] == Places(items[i + 1..]);
        if !items[i].inUse {
          return items[i];
        }
      }
      found := null;
    }

    /** The search of `_cleanup_if_needed` over one image. */
    method ScanOldest(items: seq<PooledSandbox>, best: PooledSandbox?, ghost seen: seq<PooledSandbox>)
      returns (oldest: PooledSandbox?)
      requires Identified(made) && Known(items, made) && (best == null || best in made)
      requires Oldest(Seen(made), Places(seen)) == PlaceIfAny(best)
      ensures Oldest(Seen(made), Places(seen + items)) == PlaceIfAny(oldest)
      ensures oldest == null || oldest in made
    {
      oldest := best;
      assert seen + items[..0] == seen;
      for j := 0 to |items|
        invariant Oldest(Seen(made), Places(seen + items[..j])) == PlaceIfAny(oldest)
        invariant oldest == null || oldest in made
      {
        var instance := items[j];
        OldestStep(made, seen + items[..j], instance, oldest);
        assert seen + items[..j + 1] == seen + items[..j] + [instance];
        if !instance.inUse && (oldest == null || instance.lastUsedAt < oldest.lastUsedAt) {
          oldest := instance;
        }
      }
      assert items[..|items|] == items;
    }

    /** The search of `_cleanup_if_needed`, image by image. */
    method FindOldest() returns (oldest: PooledSandbox?)
      requires Identified(made) && AllKnown(pool, made)
      ensures Oldest(Seen(made), Refs(Filed(pool))) == PlaceIfAny(oldest)
      ensures oldest == null || oldest in made
    {
      oldest := null;
      for i := 0 to |pool|
        invariant Oldest(Seen(made), Places(Refs(pool[..i]))) == PlaceIfAny(oldest)
        invariant oldest == null || oldest in made
      {
        KnownAt(pool, made, i);
        oldest := ScanOldest(pool[i].items, oldest, Refs(pool[..i]));
        RefsLast(pool[..i], pool[i]);
        TakeNext(pool, i);
      }
      assert pool[..|pool|] == pool;
      RefsFiled(pool);
    }

    /** `_cleanup_if_needed` up to its await. */
    method Cleanup(image: string) returns (victim: PooledSandbox?)
      requires Identified(made) && AllKnown(pool, made)
      modifies this`phase
      ensures phase == if |Refs(Filed(pool))| < maxSize then Starting(image) else Evicting(old(View()), image)
      ensures victim != null <==> phase.Stopping?
      ensures victim != null ==> victim in made && phase.victim == Place(victim)
    {
      RefsFiled(pool);
      phase := Starting(image);
      if |Refs(pool)| < maxSize {
        return null;
      }
      victim := FindOldest();
      if victim != null {
        PlaceOf(made, victim);
        if victim.image != "" {
          phase := Stopping(Place(victim), image);
        } else {
          victim := null;
        }
      }
    }

    /** `acquire` up to its first await: an instance at once, or the one to evict, or neither. */
    method Acquire(image: string, now: int) returns (instance: PooledSandbox?, victim: PooledSandbox?)
      requires Valid() && phase.Free?
      modifies this, made
      ensures Valid() && made == old(made) && View() == Next(old(View()), Event.Acquire(image, now))
      ensures Granted(old(View()), Event.Acquire(image, now)) == PlaceIfAny(instance)
      ensures victim != null <==> phase.Stopping?
      ensures victim != null ==> victim in made && phase.victim == Place(victim)
    {
      ghost var next := Next(View(), Event.Acquire(image, now));
      NextInv(View(), Event.Acquire(image, now));
      ItemsFiled(pool, image);
      victim := null;
      instance := FindIdle(ItemsOf(pool, image));
      if instance != null {
        Take(instance, now);
      } else {
        victim := Cleanup(image);
      }
      assert View() == next;
    }

    method Take(instance: PooledSandbox, now: int)
      requires Identified(made) && instance in made
      modifies instance
      ensures View() == old(View()).(made := Marked(old(View()).made, Place(instance), true, now))
    {
      PlaceOf(made, instance);
      instance.inUse := true;
      instance.lastUsedAt := now;
    }

    method Release(instance: PooledSandbox, now: int, ghost lease: nat)
      requires Valid() && instance in made
      modifies instance
      ensures Valid() && View() == Next(old(View()), Event.Release(Place(instance), now, lease))
    {
      NextInv(View(), Event.Release(Place(instance), now, lease));
      PlaceOf(made, instance);
      instance.inUse := false;
      instance.lastUsedAt := now;
    }

    /** `_remove_instance` once the provider has stopped, or failed to. */
    method RemoveInstance(image: string, instance: PooledSandbox)
      requires Valid() && phase.Stopping? && instance in made
      requires phase.victim == Place(instance) && image == instance.image
      modifies this
      ensures Valid() && made == old(made) && View() == Next(old(View()), Stopped)
    {
      NextInv(View(), Stopped);
      PlaceOf(made, instance);
      RemovedFiled(pool, made, image, instance);
      pool := Removed(pool, image, instance);
      phase := Starting(phase.wanted);
    }

    /** The rest of `acquire` once the new provider has started. */
    method Create(now: int) returns (instance: PooledSandbox)
      requires Valid() && phase.Starting?
      modifies this
      ensures Valid() && fresh(instance) && made == old(made) + [instance]
      ensures View() == Next(old(View()), Started(now)) && Some(Place(instance)) == Granted(old(View()), Started(now))
    {
      ghost var next := Next(View(), Started(now));
      NextInv(View(), Started(now));
      var image := phase.wanted;
      idCounter := idCounter + 1;
      instance := new PooledSandbox(idCounter, image, now);
      AddedFiled(pool, image, instance);
      made := made + [instance];
      pool := Added(pool, image, instance);
      phase := Free;
      assert Seen(made) == next.made;
      assert View() == next;
    }

    /** The counters of `get_stats` over one image. */
    method CountUsed(items: seq<PooledSandbox>, ghost seen: seq<PooledSandbox>) returns (used: nat, available: nat)
      requires Identified(made) && Known(items, made) && Distinct(Places(seen + items))
      ensures used + available == |items|
      ensures |UsedAmong(Seen(made), Places(seen + items))| == |UsedAmong(Seen(made), Places(seen))| + used
    {
      used, available := 0, 0;
      assert seen + items[..0] == seen;
      for j := 0 to |items|
        invariant used + available == j
        invariant |UsedAmong(Seen(made), Places(seen + items[..j]))| == |UsedAmong(Seen(made), Places(seen))| + used
      {
        PlaceOf(made, items[j]);
        ghost var before := Places(seen + items[..j]);
        assert before + [Place(items[j])] == Places(seen + items)[..|seen| + j + 1];
        assert before + [Place(items[j])] == Places(seen + items[..j + 1]);
        PrefixDistinct(Places(seen + items), |seen| + j + 1);
        UsedStep(Seen(made), before, Place(items[j]));
        if items[j].inUse {
          used := used + 1;
        } else {
          available := available + 1;
        }
      }
      assert items[..|items|] == items;
    }

    method GetStats() returns (stats: PoolStats)
      requires Valid()
      ensures stats.total == |Refs(View().buckets)| && stats.inUse + stats.available == stats.total
      ensures stats.inUse == |UsedAmong(View().made, Refs(View().buckets))|
      ensures stats.byImage.Keys == Members(Images(View().buckets))
      ensures forall image :: image in stats.byImage ==> stats.byImage[image] == |ItemsOf(View().buckets, image)|
    {
      stats := PoolStats(0, 0, 0, map[]);
      RefsFiled(pool);
      ImagesFiled(pool);
      for i := 0 to |pool|
        invariant Counts(stats, pool, Seen(made), i)
      {
        var bucket := pool[i];
        CountStep(pool, made, i);
        var used, available := CountUsed(bucket.items, Refs(pool[..i]));
        CountsGrow(stats, pool, Seen(made), i, used, available);
        stats := PoolStats(stats.total + |bucket.items|, stats.inUse + used, stats.available + available,
                           stats.byImage[bucket.image := |bucket.items|]);
      }
      assert pool[..|pool|] == pool;
      forall image | image in stats.byImage ensures |ItemsOf(pool, image)| == |ItemsOf(Filed(pool), image)| {
        ItemsFiled(pool, image);
      }
    }

    method SetMaxSize(size: int)
      requires Valid()
      modifies this`maxSize
      ensures Valid() && View() == Next(old(View()), Event.SetMaxSize(size))
    {
      maxSize := if size < 1 then 1 else size;
    }

    method StopAll()
      requires Valid() && phase.Free?
      modifies this`phase
      ensures Valid() && View() == Next(old(View()), Event.StopAll)
    {
      phase := StoppingAll;
    }

    /** The end of `stop_all`, once every provider has stopped or failed to. */
    method DropAll()
      requires Valid() && phase.StoppingAll?
      modifies this
      ensures Valid() && made == old(made) && View() == Next(old(View()), AllStopped)
    {
      pool := [];
      phase := Free;
    }
  }
}
