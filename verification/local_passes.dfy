/**
 Passes over a list that decide each element from the last one kept so far. Where only marked elements
 may be changed or dropped, and no two of them are adjacent, such a pass is local: each element is decided
 from its own predecessor.
 */
module LocalPasses {
  function PassStep<T>(one: (T, T) -> seq<T>, kept: seq<T>, x: T): seq<T> {
    if kept == [] then [x] else kept + one(kept[|kept| - 1], x)
  }

  function Pass<T>(one: (T, T) -> seq<T>, s: seq<T>): seq<T> {
    if s == [] then [] else PassStep(one, Pass(one, s[..|s| - 1]), s[|s| - 1])
  }

  lemma PassTake<T>(one: (T, T) -> seq<T>, s: seq<T>, n: nat)
    requires n < |s|
    ensures Pass(one, s[..n + 1]) == PassStep(one, Pass(one, s[..n]), s[n])
  {
    assert s[..n + 1][..n] == s[..n];
  }

  /** Unmarked elements stay as they are; a marked one is dropped or stays marked. */
  ghost predicate Tame<T(!new)>(one: (T, T) -> seq<T>, marked: T -> bool) {
    && (forall p, x :: !marked(x) ==> one(p, x) == [x])
    && (forall p, x :: |one(p, x)| <= 1)
    && (forall p, x :: one(p, x) != [] ==> marked(one(p, x)[0]) == marked(x))
  }

  predicate Separated<T>(marked: T -> bool, s: seq<T>) {
    |s| <= 1 || (Separated(marked, s[..|s| - 1]) && !(marked(s[|s| - 2]) && marked(s[|s| - 1])))
  }

  predicate Chained<T>(rel: (T, T) -> bool, s: seq<T>) {
    |s| <= 1 || (Chained(rel, s[..|s| - 1]) && rel(s[|s| - 2], s[|s| - 1]))
  }

  lemma {:induction false} ChainedPairs<T>(rel: (T, T) -> bool, s: seq<T>)
    ensures Chained(rel, s) <==> forall i :: 0 < i < |s| ==> rel(s[i - 1], s[i])
  {
    if |s| > 1 {
      var n := |s| - 1;
      ChainedPairs(rel, s[..n]);
    }
  }

  lemma {:induction false} SeparatedPairs<T>(marked: T -> bool, s: seq<T>)
    ensures Separated(marked, s) <==> forall i :: 0 < i < |s| ==> !(marked(s[i - 1]) && marked(s[i]))
  {
    if |s| > 1 {
      var n := |s| - 1;
      SeparatedPairs(marked, s[..n]);
    }
  }

  lemma {:induction false} PassLast<T(!new)>(one: (T, T) -> seq<T>, marked: T -> bool, s: seq<T>)
    requires s != [] && Tame(one, marked)
    ensures Pass(one, s) != []
    ensures !marked(s[|s| - 1]) ==> Pass(one, s)[|Pass(one, s)| - 1] == s[|s| - 1]
  {
    if |s| > 1 {
      PassLast(one, marked, s[..|s| - 1]);
    }
  }

  lemma PassIsLocal<T(!new)>(one: (T, T) -> seq<T>, marked: T -> bool, s: seq<T>)
    requires |s| > 1 && Tame(one, marked) && !(marked(s[|s| - 2]) && marked(s[|s| - 1]))
    ensures var front := Pass(one, s[..|s| - 1]);
            && front != [] && Pass(one, s) == front + one(s[|s| - 2], s[|s| - 1])
            && (!marked(s[|s| - 2]) ==> front[|front| - 1] == s[|s| - 2])
  {
    PassLast(one, marked, s[..|s| - 1]);
  }

  /** Behind the pass over what precedes `p` stands what the pass makes of the element at `p`. */
  ghost predicate PlacedAt<T(!new)>(one: (T, T) -> seq<T>, s: seq<T>, p: nat, out: seq<T>)
    requires 0 < p < |s|
  {
    var q, made := |Pass(one, s[..p])|, one(s[p - 1], s[p]);
    0 < q <= |out| && out[q - 1] == s[p - 1] && (made != [] ==> q < |out| && out[q] == made[0])
  }

  lemma {:induction false} PassPlaces<T(!new)>(one: (T, T) -> seq<T>, marked: T -> bool, s: seq<T>, p: nat)
    requires Tame(one, marked) && 0 < p < |s| && !marked(s[p - 1])
    ensures PlacedAt(one, s, p, Pass(one, s))
    decreases |s|
  {
    var n := |s| - 1;
    if p == n {
      PassIsLocal(one, marked, s);
    } else {
      PassPlaces(one, marked, s[..n], p);
      assert s[..n][..p] == s[..p];
      PassLast(one, marked, s[..n]);
    }
  }

  lemma {:induction false} PassKeepsFirst<T(!new)>(one: (T, T) -> seq<T>, marked: T -> bool, s: seq<T>)
    requires Tame(one, marked) && s != []
    ensures Pass(one, s) != [] && Pass(one, s)[0] == s[0]
    decreases |s|
  {
    if |s| > 1 {
      PassKeepsFirst(one, marked, s[..|s| - 1]);
    }
  }

  lemma ChainedSnoc<T>(rel: (T, T) -> bool, s: seq<T>, x: T)
    requires s != []
    ensures Chained(rel, s + [x]) <==> Chained(rel, s) && rel(s[|s| - 1], x)
  {
    var all := s + [x];
    assert all[..|all| - 1] == s && all[|all| - 2] == s[|s| - 1];
  }

  lemma SeparatedSnoc<T>(marked: T -> bool, s: seq<T>, x: T)
    requires s != []
    ensures Separated(marked, s + [x]) <==> Separated(marked, s) && !(marked(s[|s| - 1]) && marked(x))
  {
    var all := s + [x];
    assert all[..|all| - 1] == s && all[|all| - 2] == s[|s| - 1];
  }

  /** What holds between neighbours after the pass, told from what held between neighbours before it. */
  lemma {:induction false} PassMakes<T(!new)>(
    one: (T, T) -> seq<T>, marked: T -> bool, good: (T, T) -> bool, fine: (T, T) -> bool, s: seq<T>)
    requires Tame(one, marked) && Separated(marked, s)
    requires forall p, x {:trigger good(p, x)} :: !marked(x) ==> good(p, x)
    requires forall p, x {:trigger fine(p, x)} :: !marked(x) ==> fine(p, x)
    requires forall p, x {:trigger one(p, x)} ::
               marked(x) ==> if one(p, x) == [] then fine(p, x) else good(p, one(p, x)[0]) == fine(p, x)
    ensures Separated(marked, Pass(one, s))
    ensures Chained(good, Pass(one, s)) <==> Chained(fine, s)
    decreases |s|
  {
    if |s| > 1 {
      var n := |s| - 1;
      PassMakes(one, marked, good, fine, s[..n]);
      PassIsLocal(one, marked, s);
      StepMakes(one, marked, good, fine, Pass(one, s[..n]), s[n - 1], s[n]);
    }
  }

  lemma StepMakes<T(!new)>(
    one: (T, T) -> seq<T>, marked: T -> bool, good: (T, T) -> bool, fine: (T, T) -> bool, kept: seq<T>, p: T, x: T)
    requires Tame(one, marked) && kept != [] && Separated(marked, kept)
    requires marked(x) ==> kept[|kept| - 1] == p && !marked(p)
    requires !marked(x) ==> forall q :: good(q, x) && fine(q, x)
    requires marked(x) ==> if one(p, x) == [] then fine(p, x) else good(p, one(p, x)[0]) == fine(p, x)
    ensures Separated(marked, kept + one(p, x))
    ensures Chained(good, kept + one(p, x)) <==> Chained(good, kept) && fine(p, x)
  {
    var added := one(p, x);
    if added == [] {
      assert kept + added == kept;
    } else {
      assert added == [added[0]];
      ChainedSnoc(good, kept, added[0]);
      SeparatedSnoc(marked, kept, added[0]);
    }
  }

  lemma {:induction false} PassOfSettled<T>(one: (T, T) -> seq<T>, s: seq<T>)
    requires forall i :: 0 < i < |s| ==> one(s[i - 1], s[i]) == [s[i]]
    ensures Pass(one, s) == s
  {
    if s != [] {
      var n := |s| - 1;
      PassOfSettled(one, s[..n]);
      assert n > 0 ==> s[..n][n - 1] == s[n - 1];
      assert s[..n] + [s[n]] == s;
    }
  }

  // ---------------------------------------------------------------- joining neighbours

  /** A marked element is joined to a marked one right before it. */
  function JoinStep<T>(marked: T -> bool, join: (T, T) -> T, done: seq<T>, x: T): seq<T> {
    if done != [] && marked(done[|done| - 1]) && marked(x)
    then done[..|done| - 1] + [join(done[|done| - 1], x)] else done + [x]
  }

  function Join<T>(marked: T -> bool, join: (T, T) -> T, s: seq<T>): seq<T> {
    if s == [] then [] else JoinStep(marked, join, Join(marked, join, s[..|s| - 1]), s[|s| - 1])
  }

  lemma JoinTake<T>(marked: T -> bool, join: (T, T) -> T, s: seq<T>, n: nat)
    requires n < |s|
    ensures Join(marked, join, s[..n + 1]) == JoinStep(marked, join, Join(marked, join, s[..n]), s[n])
  {
    assert s[..n + 1][..n] == s[..n];
  }

  ghost predicate Marks<T(!new)>(marked: T -> bool, join: (T, T) -> T) {
    forall a, b :: marked(join(a, b))
  }

  lemma {:induction false} JoinLast<T(!new)>(marked: T -> bool, join: (T, T) -> T, s: seq<T>)
    requires Marks(marked, join)
    ensures s == [] <==> Join(marked, join, s) == []
    ensures s != [] ==> var last := Join(marked, join, s)[|Join(marked, join, s)| - 1];
                        marked(last) == marked(s[|s| - 1]) && (!marked(last) ==> last == s[|s| - 1])
  {
    if s != [] {
      JoinLast(marked, join, s[..|s| - 1]);
    }
  }

  lemma {:induction false} JoinSeparates<T(!new)>(marked: T -> bool, join: (T, T) -> T, s: seq<T>)
    requires Marks(marked, join)
    ensures Separated(marked, Join(marked, join, s))
  {
    if s != [] {
      JoinSeparates(marked, join, s[..|s| - 1]);
      StepSeparates(marked, join, Join(marked, join, s[..|s| - 1]), s[|s| - 1]);
    }
  }

  lemma StepSeparates<T(!new)>(marked: T -> bool, join: (T, T) -> T, done: seq<T>, x: T)
    requires Marks(marked, join) && Separated(marked, done)
    ensures Separated(marked, JoinStep(marked, join, done, x))
  {
    var n := |done| - 1;
    if n >= 0 && marked(done[n]) && marked(x) {
      if n > 0 {
        SeparatedSnoc(marked, done[..n], join(done[n], x));
      }
    } else if n >= 0 {
      SeparatedSnoc(marked, done, x);
    }
  }

  lemma {:induction false} JoinOfSeparated<T>(marked: T -> bool, join: (T, T) -> T, s: seq<T>)
    requires Separated(marked, s)
    ensures Join(marked, join, s) == s
  {
    if s != [] {
      var n := |s| - 1;
      JoinOfSeparated(marked, join, s[..n]);
      assert s[..n] + [s[n]] == s;
    }
  }

  /** A marked element behind an unmarked one opens a new place. */
  lemma JoinOpens<T(!new)>(marked: T -> bool, join: (T, T) -> T, s: seq<T>)
    requires Marks(marked, join) && s != [] && (|s| > 1 ==> !marked(s[|s| - 2]))
    ensures Join(marked, join, s) == Join(marked, join, s[..|s| - 1]) + [s[|s| - 1]]
  {
    JoinLast(marked, join, s[..|s| - 1]);
  }

  ghost predicate Heads<T(!new)>(join: (T, T) -> T, heads: (T, T) -> bool) {
    (forall a :: heads(a, a)) && (forall a, b, c :: heads(a, b) ==> heads(a, join(b, c)))
  }

  /** A list whose first element is marked and came from `first`. */
  ghost predicate HeadedBy<T>(marked: T -> bool, heads: (T, T) -> bool, first: T, tail: seq<T>) {
    tail != [] && marked(tail[0]) && heads(first, tail[0])
  }

  lemma StepBehind<T>(marked: T -> bool, join: (T, T) -> T, front: seq<T>, tail: seq<T>, x: T)
    requires tail != []
    ensures JoinStep(marked, join, front + tail, x) == front + JoinStep(marked, join, tail, x)
  {
    var done := front + tail;
    assert done[|done| - 1] == tail[|tail| - 1];
    assert done[..|done| - 1] == front + tail[..|tail| - 1];
  }

  lemma StepHeads<T(!new)>(
    marked: T -> bool, join: (T, T) -> T, heads: (T, T) -> bool, first: T, tail: seq<T>, x: T)
    requires Marks(marked, join) && Heads(join, heads) && HeadedBy(marked, heads, first, tail)
    ensures HeadedBy(marked, heads, first, JoinStep(marked, join, tail, x))
  {
  }

  /** The marked element at `j` opens a place, at which it stays the head of what is joined to it. */
  lemma {:induction false} JoinPlaces<T(!new)>(
    marked: T -> bool, join: (T, T) -> T, heads: (T, T) -> bool, s: seq<T>, j: nat) returns (tail: seq<T>)
    requires Marks(marked, join) && Heads(join, heads)
    requires j < |s| && marked(s[j]) && (j > 0 ==> !marked(s[j - 1]))
    ensures Join(marked, join, s) == Join(marked, join, s[..j]) + tail && HeadedBy(marked, heads, s[j], tail)
    decreases |s|
  {
    var n := |s| - 1;
    if j == n {
      JoinOpens(marked, join, s);
      tail := [s[n]];
    } else {
      var before := JoinPlaces(marked, join, heads, s[..n], j);
      assert s[..n][..j] == s[..j];
      StepBehind(marked, join, Join(marked, join, s[..j]), before, s[n]);
      StepHeads(marked, join, heads, s[j], before, s[n]);
      tail := JoinStep(marked, join, before, s[n]);
    }
  }

  // ---------------------------------------------------------------- elements that stand alone

  /** The marked element at `j` has `odd` behind its predecessor and no marked one behind it. */
  predicate LoneAt<T>(marked: T -> bool, odd: (T, T) -> bool, s: seq<T>, j: int) {
    && 0 < j < |s| && !marked(s[j - 1]) && marked(s[j]) && odd(s[j - 1], s[j])
    && (j + 1 < |s| ==> !marked(s[j + 1]))
  }

  lemma StepKeepsLone<T>(marked: T -> bool, join: (T, T) -> T, odd: (T, T) -> bool, done: seq<T>, x: T, p: int)
    requires LoneAt(marked, odd, done, p) && !(p == |done| - 1 && marked(x))
    ensures LoneAt(marked, odd, JoinStep(marked, join, done, x), p) && p < |JoinStep(marked, join, done, x)| - 1
  {
  }

  lemma {:induction false} JoinKeepsLone<T(!new)>(
    marked: T -> bool, join: (T, T) -> T, odd: (T, T) -> bool, s: seq<T>, j: int)
    requires Marks(marked, join) && LoneAt(marked, odd, s, j)
    ensures LoneAt(marked, odd, Join(marked, join, s), |Join(marked, join, s[..j])|)
    ensures j < |s| - 1 ==> |Join(marked, join, s[..j])| < |Join(marked, join, s)| - 1
    decreases |s|
  {
    var n := |s| - 1;
    if j == n {
      JoinOpens(marked, join, s);
      JoinLast(marked, join, s[..n]);
    } else {
      JoinKeepsLone(marked, join, odd, s[..n], j);
      assert s[..n][..j] == s[..j];
      StepKeepsLone(marked, join, odd, Join(marked, join, s[..n]), s[n], |Join(marked, join, s[..j])|);
    }
  }

  lemma StepLoneFrom<T(!new)>(marked: T -> bool, join: (T, T) -> T, odd: (T, T) -> bool, done: seq<T>, x: T, p: int)
    requires Marks(marked, join) && forall a, b, c :: !odd(a, join(b, c))
    requires LoneAt(marked, odd, JoinStep(marked, join, done, x), p)
    ensures || (p == |done| && done != [] && marked(x) && !marked(done[p - 1]) && odd(done[p - 1], x))
            || (LoneAt(marked, odd, done, p) && !(p == |done| - 1 && marked(x)))
  {
  }

  lemma {:induction false} JoinedLoneFrom<T(!new)>(
    marked: T -> bool, join: (T, T) -> T, odd: (T, T) -> bool, s: seq<T>, p: int) returns (j: int)
    requires Marks(marked, join) && forall a, b, c :: !odd(a, join(b, c))
    requires LoneAt(marked, odd, Join(marked, join, s), p)
    ensures LoneAt(marked, odd, s, j) && |Join(marked, join, s[..j])| == p
    decreases |s|
  {
    var n := |s| - 1;
    JoinLast(marked, join, s[..n]);
    StepLoneFrom(marked, join, odd, Join(marked, join, s[..n]), s[n], p);
    if p == |Join(marked, join, s[..n])| {
      j := n;
    } else {
      j := JoinedLoneFrom(marked, join, odd, s[..n], p);
      assert s[..n][..j] == s[..j];
      if j == n - 1 {
        JoinOpens(marked, join, s[..n]);
      }
    }
  }
}
