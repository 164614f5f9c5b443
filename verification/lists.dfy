/** Lists without duplicates, and what removing an element does to them. */
module Lists {
  /** list.remove: drops the first occurrence. */
  function RemoveFirst<T(==)>(s: seq<T>, k: T): seq<T> {
    if s == [] then [] else if s[0] == k then s[1..] else [s[0]] + RemoveFirst(s[1..], k)
  }

  ghost predicate Distinct<T(!new)>(s: seq<T>) {
    s == [] || (s[0] !in s[1..] && Distinct(s[1..]))
  }

  lemma TakeNext<T>(s: seq<T>, i: nat)
    requires i < |s|
    ensures s[..i + 1] == s[..i] + [s[i]]
  {
  }

  lemma SplitAt<T>(s: seq<T>, n: nat)
    requires n <= |s|
    ensures s[..n] + s[n..] == s
  {
  }

  lemma {:induction false} DistinctSplit<T(!new)>(a: seq<T>, b: seq<T>)
    requires Distinct(a + b)
    ensures Distinct(a) && Distinct(b) && forall k :: k in a ==> k !in b
  {
    if a == [] {
      assert a + b == b;
    } else {
      assert (a + b)[1..] == a[1..] + b;
      assert a == [a[0]] + a[1..];
      DistinctSplit(a[1..], b);
    }
  }

  lemma {:induction false} DistinctJoin<T(!new)>(a: seq<T>, b: seq<T>)
    requires Distinct(a) && Distinct(b) && forall k :: k in a ==> k !in b
    ensures Distinct(a + b)
  {
    if a == [] {
      assert a + b == b;
    } else {
      assert (a + b)[1..] == a[1..] + b;
      DistinctJoin(a[1..], b);
    }
  }

  lemma {:induction false} DistinctExtend<T(!new)>(s: seq<T>, k: T)
    requires Distinct(s) && k !in s
    ensures Distinct(s + [k])
  {
    if s == [] {
      assert s + [k] == [k];
    } else {
      assert (s + [k])[1..] == s[1..] + [k];
      DistinctExtend(s[1..], k);
    }
  }

  ghost function Members<T(!new)>(s: seq<T>): set<T> {
    set k | k in s
  }

  lemma {:induction false} RemoveFirstMembers<T(!new)>(s: seq<T>, k: T, x: T)
    requires Distinct(s)
    ensures x in RemoveFirst(s, k) <==> x in s && x != k
  {
    if s != [] {
      assert s == [s[0]] + s[1..];
      RemoveFirstMembers(s[1..], k, x);
    }
  }

  lemma {:induction false} RemoveFirstDistinct<T(!new)>(s: seq<T>, k: T)
    requires Distinct(s)
    ensures Distinct(RemoveFirst(s, k))
    ensures k !in s ==> RemoveFirst(s, k) == s
  {
    if s != [] {
      var rest := s[1..];
      assert s == [s[0]] + rest;
      RemoveFirstDistinct(rest, k);
      RemoveFirstMembers(rest, k, s[0]);
      assert s[0] !in rest;
    }
  }

  lemma {:induction false} RemoveFirstShorter<T(!new)>(s: seq<T>, k: T)
    requires k in s
    ensures |RemoveFirst(s, k)| == |s| - 1
  {
    if s[0] != k {
      RemoveFirstShorter(s[1..], k);
    }
  }

  lemma RemoveFirstProperties<T(!new)>(s: seq<T>, k: T)
    requires Distinct(s)
    ensures Distinct(RemoveFirst(s, k))
    ensures forall x :: x in RemoveFirst(s, k) <==> x in s && x != k
    ensures k !in s ==> RemoveFirst(s, k) == s
  {
    RemoveFirstDistinct(s, k);
    forall x ensures x in RemoveFirst(s, k) <==> x in s && x != k {
      RemoveFirstMembers(s, k, x);
    }
  }

  lemma {:induction false} RemoveFirstLeft<T(!new)>(a: seq<T>, b: seq<T>, k: T)
    requires k in a
    ensures RemoveFirst(a + b, k) == RemoveFirst(a, k) + b
  {
    assert (a + b)[1..] == a[1..] + b;
    if a[0] != k {
      RemoveFirstLeft(a[1..], b, k);
      assert RemoveFirst(a + b, k) == [a[0]] + RemoveFirst(a[1..] + b, k);
    }
  }

  lemma {:induction false} RemoveFirstRight<T(!new)>(a: seq<T>, b: seq<T>, k: T)
    requires k !in a
    ensures RemoveFirst(a + b, k) == a + RemoveFirst(b, k)
  {
    if a == [] {
      assert a + b == b;
      assert a + RemoveFirst(b, k) == RemoveFirst(b, k);
    } else {
      assert (a + b)[1..] == a[1..] + b;
      RemoveFirstRight(a[1..], b, k);
      assert a == [a[0]] + a[1..];
    }
  }

  lemma DistinctAppend<T(!new)>(t: seq<T>, k: T)
    requires Distinct(t)
    ensures Distinct(RemoveFirst(t, k) + [k])
  {
    RemoveFirstProperties(t, k);
    DistinctExtend(RemoveFirst(t, k), k);
  }

  lemma {:induction false} DistinctSize<T(!new)>(s: seq<T>)
    requires Distinct(s)
    ensures |Members(s)| == |s|
  {
    if s != [] {
      DistinctSize(s[1..]);
      assert s == [s[0]] + s[1..];
      assert Members(s) == Members(s[1..]) + {s[0]};
    }
  }

  lemma SubsetSize<T>(a: set<T>, b: set<T>)
    requires a <= b
    ensures |a| <= |b|
  {
    assert b == a + (b - a);
  }
}
