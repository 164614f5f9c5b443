/**
 Runs of the sandbox pool in which a caller or an image name breaks what would otherwise hold.
 */
module SandboxMisuse {
  import opened Arithmetic
  import opened Options
  import opened SandboxMachine
  import opened SandboxLeases
  import opened SandboxBounds

  lemma RunStep(maxSize: int, es: seq<Event>, e: Event)
    ensures Run(maxSize, es + [e]) == Next(Run(maxSize, es), e)
    ensures Leases(maxSize, es + [e]) == Booked(Leases(maxSize, es), Granted(Run(maxSize, es), e), e)
  {
    assert (es + [e])[..|es|] == es;
  }

  const STALE_RELEASE: seq<Event> :=
    [Acquire("a", 0), Started(1), Release(0, 2, 0), Acquire("a", 3), Release(0, 4, 0), Acquire("a", 5)]

  /** A caller releasing again an instance that was leased on makes two later leases share it. */
  lemma StaleReleaseShares()
    ensures var held := Leases(1, STALE_RELEASE).held; 1 in held && 2 in held && held[1] == held[2]
  {
    RunStep(1, [], Acquire("a", 0));
    var es := [Acquire("a", 0)];
    assert [] + [Acquire("a", 0)] == es;
    RunStep(1, es, Started(1));
    RunStep(1, es + [Started(1)], Release(0, 2, 0));
    es := es + [Started(1)] + [Release(0, 2, 0)];
    var made := [Instance(1, "a", 2, false)];
    assert Run(1, es) == State([Bucket("a", [0])], made, 1, 1, Free);
    assert Leases(1, es) == Book(1, map[]);
    RunStep(1, es, Acquire("a", 3));
    RunStep(1, es + [Acquire("a", 3)], Release(0, 4, 0));
    es := es + [Acquire("a", 3)] + [Release(0, 4, 0)];
    assert Run(1, es).made == [Instance(1, "a", 4, false)];
    assert Leases(1, es) == Book(2, map[1 := 0]);
    RunStep(1, es, Acquire("a", 5));
    assert es + [Acquire("a", 5)] == STALE_RELEASE;
  }

  const UNNAMED: seq<Event> := [Acquire("", 0), Started(1), Release(0, 2, 0), Acquire("a", 3), Started(4)]

  lemma BoundStep(maxSize: int, es: seq<Event>, e: Event)
    ensures var s := Next(Run(maxSize, es), e);
            Bound(maxSize, es + [e]) == Max(Bound(maxSize, es), Max(s.maxSize, Load(s)))
    ensures Disciplined(maxSize, es + [e]) <==> Disciplined(maxSize, es) && Behaves(Leases(maxSize, es), e)
  {
    RunStep(maxSize, es, e);
    assert (es + [e])[..|es|] == es;
  }

  lemma UnnamedReleased(es: seq<Event>)
    requires es == UNNAMED[..3]
    ensures Disciplined(1, es) && Bound(1, es) == 1
    ensures Run(1, es) == State([Bucket("", [0])], [Instance(1, "", 2, false)], 1, 1, Free)
  {
    var es1 := [Acquire("", 0)];
    var es2 := es1 + [Started(1)];
    RunStep(1, [], Acquire("", 0));
    BoundStep(1, [], Acquire("", 0));
    assert [] + es1 == es1;
    RunStep(1, es1, Started(1));
    BoundStep(1, es1, Started(1));
    assert Run(1, es2).made == [Instance(1, "", 1, true)];
    assert InUse(Run(1, es2).made) == {0};
    RunStep(1, es2, Release(0, 2, 0));
    BoundStep(1, es2, Release(0, 2, 0));
    assert es2 + [Release(0, 2, 0)] == es;
    assert InUse(Run(1, es).made) == {};
  }

  /** An idle instance filed under the empty image name is never evicted, and the bound fails. */
  lemma UnnamedImageOverflows()
    ensures Disciplined(1, UNNAMED) && |Refs(Run(1, UNNAMED).buckets)| == 2 && Bound(1, UNNAMED) == 1
  {
    var es3 := UNNAMED[..3];
    UnnamedReleased(es3);
    assert Refs([Bucket("", [0])]) == [0];
    RunStep(1, es3, Acquire("a", 3));
    BoundStep(1, es3, Acquire("a", 3));
    var es4 := es3 + [Acquire("a", 3)];
    assert Run(1, es4).phase == Starting("a");
    assert InUse(Run(1, es4).made) == {};
    RunStep(1, es4, Started(4));
    BoundStep(1, es4, Started(4));
    assert es4 + [Started(4)] == UNNAMED;
    assert InUse(Run(1, UNNAMED).made) == {1};
    assert Run(1, UNNAMED).buckets == [Bucket("", [0]), Bucket("a", [1])];
    assert Run(1, UNNAMED).buckets[1..] == [Bucket("a", [1])];
    assert Refs([Bucket("a", [1])]) == [1];
  }

  const REFRESHED: seq<Event> :=
    [Acquire("a", 0), Started(1), Acquire("a", 2), Started(3), Release(0, 4, 0), Release(1, 5, 1), Acquire("c", 6), Release(0, 7, 0)]

  function Pool(first: Instance, second: Instance, phase: Phase): State {
    State([Bucket("a", [0, 1])], [first, second], 2, 2, phase)
  }

  lemma TakeStep(es: seq<Event>, k: nat)
    requires k < |es|
    ensures Run(2, es[..k + 1]) == Next(Run(2, es[..k]), es[k])
  {
    assert es[..k + 1][..k] == es[..k];
  }

  lemma OneMade()
    ensures Run(2, REFRESHED[..2]) == State([Bucket("a", [0])], [Instance(1, "a", 1, true)], 1, 2, Free)
  {
    assert REFRESHED[..0] == [];
    TakeStep(REFRESHED, 0);
    TakeStep(REFRESHED, 1);
  }

  lemma TwoMade()
    ensures Run(2, REFRESHED[..4]) == Pool(Instance(1, "a", 1, true), Instance(2, "a", 3, true), Free)
  {
    OneMade();
    assert Refs([Bucket("a", [0])]) == [0];
    assert FirstIdle([Instance(1, "a", 1, true)], [0]) == None;
    TakeStep(REFRESHED, 2);
    assert Run(2, REFRESHED[..3]).phase == Starting("a");
    TakeStep(REFRESHED, 3);
    assert [0] + [1] == [0, 1];
    assert Run(2, REFRESHED[..4]).buckets == [Bucket("a", [0, 1])];
  }

  lemma BothIdle()
    ensures Run(2, REFRESHED[..6]) == Pool(Instance(1, "a", 4, false), Instance(2, "a", 5, false), Free)
  {
    TwoMade();
    TakeStep(REFRESHED, 4);
    TakeStep(REFRESHED, 5);
  }

  lemma FirstChosen(s: State)
    requires s == Pool(Instance(1, "a", 4, false), Instance(2, "a", 5, false), Free)
    ensures Begun(s, "c", 6).phase == Stopping(0, "c") && Begun(s, "c", 6).made == s.made
  {
    assert Refs(s.buckets) == [0, 1];
    assert [0, 1][..1] == [0] && [0][..0] == [];
    assert Oldest(s.made, [0]) == Some(0);
  }

  /** A release of the instance that is being stopped makes it the most recently used one of those idle. */
  lemma VictimRefreshed()
    ensures Timely(0, REFRESHED) && !VictimOldest(Run(2, REFRESHED))
  {
    BothIdle();
    FirstChosen(Run(2, REFRESHED[..6]));
    TakeStep(REFRESHED, 6);
    TakeStep(REFRESHED, 7);
    assert REFRESHED[..8] == REFRESHED;
    var s := Run(2, REFRESHED);
    assert Refs(s.buckets) == [0, 1];
    assert IsIdle(s.made, 1) && 1 in Refs(s.buckets) && LastUsed(s.made, 1) < LastUsed(s.made, 0);
    RefreshedTimely();
  }

  lemma RefreshedTimely()
    ensures Timely(0, REFRESHED)
  {
    ClockRuns(8);
    assert REFRESHED[..8] == REFRESHED;
  }

  lemma {:induction false} ClockRuns(k: nat)
    requires k <= 8
    ensures Timely(0, REFRESHED[..k]) && Clock(0, REFRESHED[..k]) == if k == 0 then 0 else k - 1
  {
    if k > 0 {
      ClockRuns(k - 1);
      assert REFRESHED[..k][..k - 1] == REFRESHED[..k - 1] && REFRESHED[..k][k - 1] == REFRESHED[k - 1];
    }
  }
}
