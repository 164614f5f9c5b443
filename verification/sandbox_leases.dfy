/**
 Who holds which sandbox: acquires that were granted and not yet released.
 */
module SandboxLeases {
  import opened Options
  import opened SandboxMachine

  /** The acquires granted so far, by number, and the instance each unreleased one was given. */
  datatype Book = Book(granted: nat, held: map<nat, nat>)

  function Booked(b: Book, grant: Option<nat>, e: Event): Book {
    if grant.Some? then Book(b.granted + 1, b.held[b.granted := grant.value])
    else if e.Release? then Book(b.granted, b.held - {e.lease})
    else b
  }

  function Leases(maxSize: int, es: seq<Event>): Book
    decreases |es|
  {
    if es == [] then Book(0, map[]) else
    var past := es[..|es| - 1];
    Booked(Leases(maxSize, past), Granted(Run(maxSize, past), es[|es| - 1]), es[|es| - 1])
  }

  /** A caller gives back the instance it holds; or it holds none, and neither does anyone hold this one. */
  predicate Harmless(b: Book, ref: nat, lease: nat) {
    if lease in b.held then b.held[lease] == ref else forall k :: k in b.held ==> b.held[k] != ref
  }

  predicate Behaves(b: Book, e: Event) {
    e.Release? ==> Harmless(b, e.ref, e.lease)
  }

  /** Every release of the run is harmless. */
  predicate Disciplined(maxSize: int, es: seq<Event>)
    decreases |es|
  {
    es == [] || (Disciplined(maxSize, es[..|es| - 1]) && Behaves(Leases(maxSize, es[..|es| - 1]), es[|es| - 1]))
  }

  ghost function InUse(made: seq<Instance>): set<nat> {
    set r: nat | r < |made| && made[r].inUse
  }

  /** No two unreleased acquires hold the same instance, and what is held is in use. */
  ghost predicate Apart(b: Book, made: seq<Instance>) {
    && (forall k :: k in b.held ==> k < b.granted)
    && (forall j, k :: j in b.held && k in b.held && b.held[j] == b.held[k] ==> j == k)
    && (forall k :: k in b.held ==> b.held[k] < |made| && made[b.held[k]].inUse)
  }

  /** The leases are apart, and the instances in use are exactly those held. */
  ghost predicate Exclusive(b: Book, made: seq<Instance>) {
    && Apart(b, made)
    && (forall r: nat :: r < |made| && made[r].inUse ==> exists k :: k in b.held && b.held[k] == r)
  }

  lemma {:induction false} GrantApart(b: Book, made: seq<Instance>, after: seq<Instance>, r: nat)
    requires Apart(b, made)
    requires r < |after| && after[r].inUse && |made| <= |after| && (r < |made| ==> !made[r].inUse)
    requires forall i: nat :: i < |made| && i != r ==> after[i].inUse == made[i].inUse
    ensures Apart(Book(b.granted + 1, b.held[b.granted := r]), after)
  {
  }

  lemma {:induction false} GrantExclusive(b: Book, made: seq<Instance>, after: seq<Instance>, r: nat)
    requires Exclusive(b, made)
    requires r < |after| && after[r].inUse && |made| <= |after| && (r < |made| ==> !made[r].inUse)
    requires forall i: nat :: i < |after| && i != r ==> i < |made| && after[i].inUse == made[i].inUse
    ensures Exclusive(Book(b.granted + 1, b.held[b.granted := r]), after)
  {
    var c := Book(b.granted + 1, b.held[b.granted := r]);
    GrantApart(b, made, after, r);
    forall i: nat | i < |after| && after[i].inUse ensures exists k :: k in c.held && c.held[k] == i {
      if i == r {
        assert b.granted in c.held && c.held[b.granted] == i;
      } else {
        var k :| k in b.held && b.held[k] == i;
        assert k in c.held && c.held[k] == i;
      }
    }
  }

  /** The instance given back is held by nobody else. */
  predicate Polite(b: Book, ref: nat, lease: nat) {
    forall j :: j in b.held && j != lease ==> b.held[j] != ref
  }

  predicate Minds(b: Book, e: Event) {
    e.Release? ==> Polite(b, e.ref, e.lease)
  }

  /** Which releases keep the leases apart: exactly the polite ones. */
  lemma ReleaseApartIff(b: Book, made: seq<Instance>, r: nat, k: nat, now: int)
    requires Apart(b, made)
    ensures Apart(Book(b.granted, b.held - {k}), Marked(made, r, false, now)) <==> Polite(b, r, k)
  {
    var c := Book(b.granted, b.held - {k});
    var after := Marked(made, r, false, now);
    if j :| j in b.held && j != k && b.held[j] == r {
      assert j in c.held && !after[c.held[j]].inUse;
    }
  }

  lemma {:induction false} HarmlessKeeps(b: Book, made: seq<Instance>, r: nat, k: nat, now: int)
    requires Exclusive(b, made) && Harmless(b, r, k)
    ensures Exclusive(Book(b.granted, b.held - {k}), Marked(made, r, false, now))
  {
    var c := Book(b.granted, b.held - {k});
    var after := Marked(made, r, false, now);
    ReleaseApartIff(b, made, r, k, now);
    forall i: nat | i < |after| && after[i].inUse ensures exists j :: j in c.held && c.held[j] == i {
      var j :| j in b.held && b.held[j] == i;
      assert j in c.held && c.held[j] == i;
    }
  }

  lemma {:induction false} HarmfulBreaks(b: Book, made: seq<Instance>, r: nat, k: nat, now: int)
    requires Exclusive(b, made) && !Harmless(b, r, k)
    ensures !Exclusive(Book(b.granted, b.held - {k}), Marked(made, r, false, now))
  {
    var c := Book(b.granted, b.held - {k});
    var after := Marked(made, r, false, now);
    if k in b.held {
      var i := b.held[k];
      assert after[i].inUse && forall j :: j in c.held ==> c.held[j] != i;
    } else {
      var j :| j in b.held && b.held[j] == r;
      assert j in c.held && !after[c.held[j]].inUse;
    }
  }

  /** Which releases keep the leases apart and exactly the instances in use: the harmless ones. */
  lemma ReleaseExclusiveIff(b: Book, made: seq<Instance>, r: nat, k: nat, now: int)
    requires Exclusive(b, made)
    ensures Exclusive(Book(b.granted, b.held - {k}), Marked(made, r, false, now)) <==> Harmless(b, r, k)
  {
    if Harmless(b, r, k) {
      HarmlessKeeps(b, made, r, k, now);
    } else {
      HarmfulBreaks(b, made, r, k, now);
    }
  }

  lemma {:induction false} NextExclusive(s: State, b: Book, e: Event)
    requires Exclusive(b, s.made)
    ensures Exclusive(Booked(b, Granted(s, e), e), Next(s, e).made) <==> Behaves(b, e)
  {
    match e
    case Acquire(image, now) =>
      if s.phase.Free? {
        FirstIdleFirst(s.made, ItemsOf(s.buckets, image));
        match FirstIdle(s.made, ItemsOf(s.buckets, image))
        case Some(r) => GrantExclusive(b, s.made, Marked(s.made, r, true, now), r);
        case None =>
      }
    case Started(now) => if s.phase.Starting? { GrantExclusive(b, s.made, Created(s, now).made, |s.made|); }
    case Release(r, now, k) => ReleaseExclusiveIff(b, s.made, r, k, now);
    case _ =>
  }

  /** With harmless releases, outstanding leases are always distinct instances, and exactly those in use. */
  lemma {:induction false} LeasesExclusive(maxSize: int, es: seq<Event>)
    requires Disciplined(maxSize, es)
    ensures Exclusive(Leases(maxSize, es), Run(maxSize, es).made)
    decreases |es|
  {
    if es != [] {
      var past := es[..|es| - 1];
      LeasesExclusive(maxSize, past);
      NextExclusive(Run(maxSize, past), Leases(maxSize, past), es[|es| - 1]);
    }
  }

  ghost predicate AlwaysExclusive(maxSize: int, es: seq<Event>)
    decreases |es|
  {
    && Exclusive(Leases(maxSize, es), Run(maxSize, es).made)
    && (es == [] || AlwaysExclusive(maxSize, es[..|es| - 1]))
  }

  /** Leases stay apart and exactly the instances in use throughout a run if and only if every release
      in it is harmless. */
  lemma {:induction false} ExclusiveIffDisciplined(maxSize: int, es: seq<Event>)
    ensures AlwaysExclusive(maxSize, es) <==> Disciplined(maxSize, es)
    decreases |es|
  {
    if es != [] {
      var past := es[..|es| - 1];
      ExclusiveIffDisciplined(maxSize, past);
      if Disciplined(maxSize, past) {
        LeasesExclusive(maxSize, past);
        NextExclusive(Run(maxSize, past), Leases(maxSize, past), es[|es| - 1]);
      }
    }
  }

  // ---------------------------------------------------------------- leases apart

  lemma {:induction false} NextApart(s: State, b: Book, e: Event)
    requires Apart(b, s.made)
    ensures Apart(Booked(b, Granted(s, e), e), Next(s, e).made) <==> Minds(b, e)
  {
    match e
    case Acquire(image, now) =>
      if s.phase.Free? {
        FirstIdleFirst(s.made, ItemsOf(s.buckets, image));
        match FirstIdle(s.made, ItemsOf(s.buckets, image))
        case Some(r) => GrantApart(b, s.made, Marked(s.made, r, true, now), r);
        case None =>
      }
    case Started(now) => if s.phase.Starting? { GrantApart(b, s.made, Created(s, now).made, |s.made|); }
    case Release(r, now, k) => ReleaseApartIff(b, s.made, r, k, now);
    case _ =>
  }

  /** Every release of the run is polite. */
  predicate Considerate(maxSize: int, es: seq<Event>)
    decreases |es|
  {
    es == [] || (Considerate(maxSize, es[..|es| - 1]) && Minds(Leases(maxSize, es[..|es| - 1]), es[|es| - 1]))
  }

  ghost predicate AlwaysApart(maxSize: int, es: seq<Event>)
    decreases |es|
  {
    && Apart(Leases(maxSize, es), Run(maxSize, es).made)
    && (es == [] || AlwaysApart(maxSize, es[..|es| - 1]))
  }

  /** Leases stay apart throughout a run if and only if nobody in it gives back what another holds. */
  lemma {:induction false} ApartIffConsiderate(maxSize: int, es: seq<Event>)
    ensures AlwaysApart(maxSize, es) <==> Considerate(maxSize, es)
    decreases |es|
  {
    if es != [] {
      var past := es[..|es| - 1];
      ApartIffConsiderate(maxSize, past);
      if AlwaysApart(maxSize, past) {
        NextApart(Run(maxSize, past), Leases(maxSize, past), es[|es| - 1]);
      }
    }
  }
}
