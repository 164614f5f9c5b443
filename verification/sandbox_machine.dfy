/**
 The sandbox lease allocator (forgepilot_api/sandbox/pool.py). The lock is held across the awaits of
 `acquire` and `stop_all`; between them only the synchronous `release` and `set_max_size` can run, so a
 run is a sequence of steps that end at an await. An instance is named by its place in the list of
 instances ever made. The insertion-ordered dictionary is a list of buckets.
 */
module SandboxMachine {
  import opened Lists
  import opened Options

  datatype Instance = Instance(id: nat, image: string, lastUsed: int, inUse: bool)

  datatype Bucket<T> = Bucket(image: string, items: seq<T>)

  /** What the holder of the lock is waiting for. */
  datatype Phase =
    | Free
    | Stopping(victim: nat, wanted: string)
    | Starting(wanted: string)
    | StoppingAll

  datatype State = State(buckets: seq<Bucket<nat>>, made: seq<Instance>, idCounter: nat, maxSize: int, phase: Phase)

  datatype Event =
    | Acquire(image: string, now: int)
    | Stopped
    | Started(now: int)
    | Abandoned                          // the awaited call raised or was cancelled
    | Release(ref: nat, now: int, lease: nat)   // which acquire's caller calls is not seen by the code
    | SetMaxSize(size: int)
    | StopAll
    | AllStopped

  // ---------------------------------------------------------------- the dictionary of lists

  function Refs<T>(bs: seq<Bucket<T>>): seq<T> {
    if bs == [] then [] else bs[0].items + Refs(bs[1..])
  }

  /** `_pool.get(image, [])`. */
  function ItemsOf<T>(bs: seq<Bucket<T>>, image: string): seq<T> {
    if bs == [] then [] else if bs[0].image == image then bs[0].items else ItemsOf(bs[1..], image)
  }

  function Without<T(==)>(s: seq<T>, r: T): seq<T> {
    if s == [] then [] else (if s[0] == r then [] else [s[0]]) + Without(s[1..], r)
  }

  /** Drops `r` from its image's list, and the list when nothing is left. */
  function Removed<T(==)>(bs: seq<Bucket<T>>, image: string, r: T): seq<Bucket<T>> {
    if bs == [] then []
    else if bs[0].image != image then [bs[0]] + Removed(bs[1..], image, r)
    else
      var kept := Without(bs[0].items, r);
      (if kept == [] then [] else [Bucket(image, kept)]) + bs[1..]
  }

  /** `setdefault(image, []).append(r)`. */
  function Added<T>(bs: seq<Bucket<T>>, image: string, r: T): seq<Bucket<T>> {
    if bs == [] then [Bucket(image, [r])]
    else if bs[0].image != image then [bs[0]] + Added(bs[1..], image, r)
    else [Bucket(image, bs[0].items + [r])] + bs[1..]
  }

  // ---------------------------------------------------------------- the choices

  predicate IsIdle(made: seq<Instance>, r: nat) {
    r < |made| && !made[r].inUse
  }

  function FirstIdle(made: seq<Instance>, items: seq<nat>): Option<nat> {
    if items == [] then None
    else if IsIdle(made, items[0]) then Some(items[0])
    else FirstIdle(made, items[1..])
  }

  function LastUsed(made: seq<Instance>, r: nat): int {
    if r < |made| then made[r].lastUsed else 0
  }

  function ImageOf(made: seq<Instance>, r: nat): string {
    if r < |made| then made[r].image else ""
  }

  /** The idle instance least recently used; the first one of several. */
  function Oldest(made: seq<Instance>, refs: seq<nat>): Option<nat> {
    if refs == [] then None else
    var best := Oldest(made, refs[..|refs| - 1]);
    var r := refs[|refs| - 1];
    if IsIdle(made, r) && (best.None? || LastUsed(made, r) < LastUsed(made, best.value)) then Some(r) else best
  }

  function Marked(made: seq<Instance>, r: nat, inUse: bool, now: int): seq<Instance> {
    if r < |made| then made[r := made[r].(inUse := inUse, lastUsed := now)] else made
  }

  // ---------------------------------------------------------------- the steps

  /** `acquire` up to its first await. */
  function Begun(s: State, image: string, now: int): State {
    match FirstIdle(s.made, ItemsOf(s.buckets, image))
    case Some(r) => s.(made := Marked(s.made, r, true, now))
    case None => s.(phase := if |Refs(s.buckets)| < s.maxSize then Starting(image) else Evicting(s, image))
  }

  /** A victim filed under the empty image name is not evicted: the code tests the name for truth. */
  function Evicting(s: State, image: string): Phase {
    match Oldest(s.made, Refs(s.buckets))
    case Some(v) => if ImageOf(s.made, v) != "" then Stopping(v, image) else Starting(image)
    case None => Starting(image)
  }

  function Evicted(s: State): State
    requires s.phase.Stopping?
  {
    var v := s.phase.victim;
    s.(buckets := Removed(s.buckets, ImageOf(s.made, v), v), phase := Starting(s.phase.wanted))
  }

  function Created(s: State, now: int): State
    requires s.phase.Starting?
  {
    var image := s.phase.wanted;
    State(Added(s.buckets, image, |s.made|), s.made + [Instance(s.idCounter + 1, image, now, true)],
          s.idCounter + 1, s.maxSize, Free)
  }

  /** A step whose turn has not come leaves the state alone. */
  function Next(s: State, e: Event): State {
    match e
    case Acquire(image, now) => if s.phase.Free? then Begun(s, image, now) else s
    case Stopped => if s.phase.Stopping? then Evicted(s) else s
    case Started(now) => if s.phase.Starting? then Created(s, now) else s
    case Abandoned => s.(phase := Free)
    case Release(r, now, _) => s.(made := Marked(s.made, r, false, now))
    case SetMaxSize(n) => s.(maxSize := if n < 1 then 1 else n)
    case StopAll => if s.phase.Free? then s.(phase := StoppingAll) else s
    case AllStopped => if s.phase.StoppingAll? then s.(buckets := [], phase := Free) else s
  }

  function Init(maxSize: int): State {
    State([], [], 0, if maxSize < 1 then 1 else maxSize, Free)
  }

  function Run(maxSize: int, es: seq<Event>): State {
    if es == [] then Init(maxSize) else Next(Run(maxSize, es[..|es| - 1]), es[|es| - 1])
  }

  /** The instance an `acquire` returns at this step. */
  function Granted(s: State, e: Event): Option<nat> {
    match e
    case Acquire(image, _) => if s.phase.Free? then FirstIdle(s.made, ItemsOf(s.buckets, image)) else None
    case Started(_) => if s.phase.Starting? then Some(|s.made|) else None
    case _ => None
  }

  // ---------------------------------------------------------------- well-formed pools

  function Images<T>(bs: seq<Bucket<T>>): seq<string> {
    if bs == [] then [] else [bs[0].image] + Images(bs[1..])
  }

  ghost predicate Proper(b: Bucket<nat>, made: seq<Instance>) {
    b.items != [] && forall r :: r in b.items ==> r < |made| && made[r].image == b.image
  }

  ghost predicate AllProper(bs: seq<Bucket<nat>>, made: seq<Instance>) {
    forall b :: b in bs ==> Proper(b, made)
  }

  /** Every image has one list, no list is empty, and no instance is listed twice or under another image. */
  ghost predicate WellFiled(bs: seq<Bucket<nat>>, made: seq<Instance>) {
    Distinct(Images(bs)) && Distinct(Refs(bs)) && AllProper(bs, made)
  }

  ghost predicate Numbered(s: State) {
    s.idCounter == |s.made| && forall i :: 0 <= i < |s.made| ==> s.made[i].id == i + 1
  }

  ghost predicate VictimIdle(s: State) {
    s.phase.Stopping? ==> s.phase.victim in Refs(s.buckets) && IsIdle(s.made, s.phase.victim)
  }

  ghost predicate Inv(s: State) {
    WellFiled(s.buckets, s.made) && Numbered(s) && VictimIdle(s) && s.maxSize >= 1
  }

  // ---------------------------------------------------------------- the choices mean what they should

  lemma {:induction false} FirstIdleFirst(made: seq<Instance>, items: seq<nat>)
    ensures FirstIdle(made, items).None? ==> forall r :: r in items ==> !IsIdle(made, r)
    ensures FirstIdle(made, items).Some? ==> FirstIdle(made, items).value in items && IsIdle(made, FirstIdle(made, items).value)
  {
    if items != [] {
      FirstIdleFirst(made, items[1..]);
      assert items == [items[0]] + items[1..];
    }
  }

  /** `refs[i]` is idle, and used longer ago than every idle instance before it and no later than any after. */
  ghost predicate OldestAt(made: seq<Instance>, refs: seq<nat>, i: nat) {
    && i < |refs| && IsIdle(made, refs[i])
    && (forall j :: 0 <= j < i && IsIdle(made, refs[j]) ==> LastUsed(made, refs[i]) < LastUsed(made, refs[j]))
    && (forall j :: i < j < |refs| && IsIdle(made, refs[j]) ==> LastUsed(made, refs[i]) <= LastUsed(made, refs[j]))
  }

  lemma {:induction false} OldestIsOldest(made: seq<Instance>, refs: seq<nat>) returns (i: nat)
    ensures Oldest(made, refs).None? ==> forall r :: r in refs ==> !IsIdle(made, r)
    ensures Oldest(made, refs).Some? ==> OldestAt(made, refs, i) && Oldest(made, refs).value == refs[i]
    decreases |refs|
  {
    i := 0;
    if refs != [] {
      var last := |refs| - 1;
      i := OldestIsOldest(made, refs[..last]);
      assert refs == refs[..last] + [refs[last]];
      if Oldest(made, refs) != Oldest(made, refs[..last]) {
        i := last;
      }
    }
  }

  // ---------------------------------------------------------------- the invariant of every run

  lemma {:induction false} RunInv(maxSize: int, es: seq<Event>)
    ensures Inv(Run(maxSize, es))
    decreases |es|
  {
    if es != [] {
      RunInv(maxSize, es[..|es| - 1]);
      NextInv(Run(maxSize, es[..|es| - 1]), es[|es| - 1]);
    }
  }

  lemma NextInv(s: State, e: Event)
    requires Inv(s)
    ensures Inv(Next(s, e))
  {
    match e
    case Acquire(image, now) => if s.phase.Free? { BegunInv(s, image, now); }
    case Stopped => if s.phase.Stopping? { EvictedInv(s); }
    case Started(now) => if s.phase.Starting? { CreatedInv(s, now); }
    case Release(r, now, _) => MarkedFiled(s.buckets, s.made, r, false, now);
    case _ =>
  }

  lemma CreatedInv(s: State, now: int)
    requires Inv(s) && s.phase.Starting?
    ensures Inv(Created(s, now)) && |Refs(Created(s, now).buckets)| == |Refs(s.buckets)| + 1
  {
    var r := |s.made|;
    var image := s.phase.wanted;
    var made := Created(s, now).made;
    assert made[..r] == s.made;
    forall b | b in s.buckets ensures Proper(b, made) {
      assert Proper(b, s.made);
    }
    RefsMade(s.buckets, s.made, r);
    AddedRefs(s.buckets, image, r);
    AddedImages(s.buckets, image, r);
    AddedProper(s.buckets, made, image, r);
  }

  lemma EvictedInv(s: State)
    requires Inv(s) && s.phase.Stopping?
    ensures Inv(Evicted(s)) && |Refs(Evicted(s).buckets)| == |Refs(s.buckets)| - 1
    ensures Refs(Evicted(s).buckets) == RemoveFirst(Refs(s.buckets), s.phase.victim)
  {
    var v := s.phase.victim;
    var image := ImageOf(s.made, v);
    FiledUnderImage(s.buckets, s.made, v);
    RemovedRefs(s.buckets, image, v);
    RemovedImages(s.buckets, image, v);
    RemovedProper(s.buckets, s.made, image, v);
    RemoveFirstDistinct(Refs(s.buckets), v);
    RemoveFirstShorter(Refs(s.buckets), v);
  }

  lemma BegunInv(s: State, image: string, now: int)
    requires Inv(s) && s.phase.Free?
    ensures Inv(Begun(s, image, now))
  {
    match FirstIdle(s.made, ItemsOf(s.buckets, image))
    case Some(r) => MarkedFiled(s.buckets, s.made, r, true, now);
    case None => EvictingIdle(s, image);
  }

  lemma EvictingIdle(s: State, image: string)
    ensures var phase := Evicting(s, image);
            phase.Stopping? ==> phase.victim in Refs(s.buckets) && IsIdle(s.made, phase.victim)
  {
    var i := OldestIsOldest(s.made, Refs(s.buckets));
  }

  lemma MarkedFiled(bs: seq<Bucket<nat>>, made: seq<Instance>, r: nat, inUse: bool, now: int)
    requires AllProper(bs, made)
    ensures AllProper(bs, Marked(made, r, inUse, now))
  {
    forall b | b in bs ensures Proper(b, Marked(made, r, inUse, now)) {
      assert Proper(b, made);
    }
  }

  // ---------------------------------------------------------------- filing and removing, list by list

  lemma {:induction false} ItemsInRefs(bs: seq<Bucket<nat>>, image: string, r: nat)
    ensures r in ItemsOf(bs, image) ==> r in Refs(bs)
  {
    if bs != [] {
      ItemsInRefs(bs[1..], image, r);
    }
  }

  lemma {:induction false} FiledUnderImage(bs: seq<Bucket<nat>>, made: seq<Instance>, r: nat)
    requires AllProper(bs, made) && Distinct(Images(bs)) && r in Refs(bs)
    ensures r < |made| && r in ItemsOf(bs, made[r].image) && made[r].image in Images(bs)
  {
    assert bs == [bs[0]] + bs[1..];
    assert Proper(bs[0], made);
    assert Images(bs)[1..] == Images(bs[1..]);
    if r !in bs[0].items {
      FiledUnderImage(bs[1..], made, r);
    }
  }

  lemma {:induction false} WithoutMembers(s: seq<nat>, r: nat, x: nat)
    ensures x in Without(s, r) <==> x in s && x != r
  {
    if s != [] {
      assert s == [s[0]] + s[1..];
      WithoutMembers(s[1..], r, x);
    }
  }

  lemma {:induction false} WithoutOnce(s: seq<nat>, r: nat)
    requires Distinct(s)
    ensures Without(s, r) == RemoveFirst(s, r)
  {
    if s != [] {
      assert s == [s[0]] + s[1..];
      WithoutOnce(s[1..], r);
      if s[0] == r {
        RemoveFirstDistinct(s[1..], r);
      }
    }
  }

  /** Removing an instance from its list removes it from the pool, and only it. */
  lemma {:induction false} RemovedRefs(bs: seq<Bucket<nat>>, image: string, r: nat)
    requires Distinct(Refs(bs)) && r in ItemsOf(bs, image)
    ensures Refs(Removed(bs, image, r)) == RemoveFirst(Refs(bs), r)
  {
    var rest := bs[1..];
    DistinctSplit(bs[0].items, Refs(rest));
    if bs[0].image != image {
      ItemsInRefs(rest, image, r);
      RemovedRefs(rest, image, r);
      RemoveFirstRight(bs[0].items, Refs(rest), r);
      assert ([bs[0]] + Removed(rest, image, r))[1..] == Removed(rest, image, r);
    } else {
      WithoutOnce(bs[0].items, r);
      RemoveFirstLeft(bs[0].items, Refs(rest), r);
      var kept := Without(bs[0].items, r);
      if kept == [] {
        assert Removed(bs, image, r) == rest;
      } else {
        assert ([Bucket(image, kept)] + rest)[1..] == rest;
      }
    }
  }

  lemma {:induction false} RemovedImages(bs: seq<Bucket<nat>>, image: string, r: nat)
    requires Distinct(Images(bs))
    ensures Distinct(Images(Removed(bs, image, r)))
    ensures forall x :: x in Images(Removed(bs, image, r)) ==> x in Images(bs)
  {
    if bs != [] {
      var rest := bs[1..];
      assert Images(bs)[1..] == Images(rest);
      if bs[0].image != image {
        RemovedImages(rest, image, r);
        assert ([bs[0]] + Removed(rest, image, r))[1..] == Removed(rest, image, r);
        assert Images(Removed(bs, image, r))[1..] == Images(Removed(rest, image, r));
      } else {
        var kept := Without(bs[0].items, r);
        if kept == [] {
          assert Removed(bs, image, r) == rest;
        } else {
          assert ([Bucket(image, kept)] + rest)[1..] == rest;
          assert Images(Removed(bs, image, r)) == Images(bs);
        }
      }
    }
  }

  lemma {:induction false} RemovedProper(bs: seq<Bucket<nat>>, made: seq<Instance>, image: string, r: nat)
    requires AllProper(bs, made)
    ensures AllProper(Removed(bs, image, r), made)
  {
    if bs != [] {
      assert Proper(bs[0], made);
      RemovedProper(bs[1..], made, image, r);
      var kept := Without(bs[0].items, r);
      forall x | x in kept ensures x in bs[0].items {
        WithoutMembers(bs[0].items, r, x);
      }
    }
  }

  lemma {:induction false} AddedRefs(bs: seq<Bucket<nat>>, image: string, r: nat)
    requires Distinct(Refs(bs)) && r !in Refs(bs)
    ensures Distinct(Refs(Added(bs, image, r))) && |Refs(Added(bs, image, r))| == |Refs(bs)| + 1
    ensures forall x :: x in Refs(Added(bs, image, r)) <==> x in Refs(bs) || x == r
  {
    if bs == [] {
      assert Refs([Bucket(image, [r])]) == [r] + Refs([]);
    } else {
      var rest := bs[1..];
      DistinctSplit(bs[0].items, Refs(rest));
      if bs[0].image != image {
        AddedRefs(rest, image, r);
        assert ([bs[0]] + Added(rest, image, r))[1..] == Added(rest, image, r);
        DistinctJoin(bs[0].items, Refs(Added(rest, image, r)));
      } else {
        assert ([Bucket(image, bs[0].items + [r])] + rest)[1..] == rest;
        DistinctExtend(bs[0].items, r);
        DistinctJoin(bs[0].items + [r], Refs(rest));
      }
    }
  }

  lemma {:induction false} AddedImages(bs: seq<Bucket<nat>>, image: string, r: nat)
    requires Distinct(Images(bs))
    ensures Distinct(Images(Added(bs, image, r)))
    ensures forall x :: x in Images(Added(bs, image, r)) <==> x in Images(bs) || x == image
  {
    if bs == [] {
      assert Images([Bucket(image, [r])]) == [image];
    } else {
      var rest := bs[1..];
      assert Images(bs)[1..] == Images(rest);
      if bs[0].image != image {
        AddedImages(rest, image, r);
        assert ([bs[0]] + Added(rest, image, r))[1..] == Added(rest, image, r);
        assert Images(Added(bs, image, r))[1..] == Images(Added(rest, image, r));
      } else {
        assert ([Bucket(image, bs[0].items + [r])] + rest)[1..] == rest;
        assert Images(Added(bs, image, r)) == Images(bs);
      }
    }
  }

  lemma {:induction false} AddedProper(bs: seq<Bucket<nat>>, made: seq<Instance>, image: string, r: nat)
    requires AllProper(bs, made) && r < |made| && made[r].image == image
    ensures AllProper(Added(bs, image, r), made)
  {
    if bs != [] {
      assert Proper(bs[0], made);
      AddedProper(bs[1..], made, image, r);
    }
  }

  lemma {:induction false} RefsMade(bs: seq<Bucket<nat>>, made: seq<Instance>, r: nat)
    requires AllProper(bs, made)
    ensures r in Refs(bs) ==> r < |made|
  {
    if bs != [] {
      assert Proper(bs[0], made);
      RefsMade(bs[1..], made, r);
    }
  }
}
