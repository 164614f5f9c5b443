/**
 The byte- and count-bounded LRU cache of file contents (forgepilot_sdk/utils/file_cache.py). Keys are
 paths that are already normalised.
 */
module FileCache {
  import opened Lists
  import opened Options

  datatype FileState = FileState(
    content: string, timestamp: real, offset: Option<int>, limit: Option<int>, isPartialView: Option<bool>)

  function CharBytes(c: char): nat {
    if (c as int) < 0x80 then 1 else if (c as int) < 0x800 then 2 else if (c as int) < 0x10000 then 3 else 4
  }

  /** The length of the UTF-8 encoding. */
  function ByteLength(s: string): nat {
    if s == "" then 0 else ByteLength(s[..|s| - 1]) + CharBytes(s[|s| - 1])
  }

  /** The UTF-8 encoding of section 3 of RFC 3629. */
  function Utf8(c: char): seq<nat> {
    var v := c as int;
    if v < 0x80 then [v]
    else if v < 0x800 then [0xC0 + v / 64, 0x80 + v % 64]
    else if v < 0x10000 then [0xE0 + v / 4096, 0x80 + v / 64 % 64, 0x80 + v % 64]
    else [0xF0 + v / 262144, 0x80 + v / 4096 % 64, 0x80 + v / 64 % 64, 0x80 + v % 64]
  }

  function Encoded(s: string): seq<nat> {
    if s == "" then [] else Encoded(s[..|s| - 1]) + Utf8(s[|s| - 1])
  }

  lemma {:induction false} BytesEncoded(s: string)
    ensures ByteLength(s) == |Encoded(s)|
  {
    if s != "" {
      BytesEncoded(s[..|s| - 1]);
    }
  }

  datatype Limits = Limits(maxEntries: int, maxBytes: int)

  /** `_cache`, `_order` (least recently used first) and `_current_size_bytes`. */
  datatype Cache = Cache(entries: map<string, FileState>, order: seq<string>, bytes: int)

  const EMPTY := Cache(map[], [], 0)

  // ---------------------------------------------------------------- the operations, as functions

  function SizeAt(c: Cache, k: string): nat {
    if k in c.entries then ByteLength(c.entries[k].content) else 0
  }

  function Popped(c: Cache): Cache
    requires c.order != []
  {
    Cache(c.entries - {c.order[0]}, c.order[1..], c.bytes - SizeAt(c, c.order[0]))
  }

  predicate Crowded(l: Limits, c: Cache, need: nat) {
    |c.entries| >= l.maxEntries || c.bytes + need > l.maxBytes
  }

  function MakeRoom(l: Limits, c: Cache, need: nat): Cache
    decreases |c.order|
  {
    if Crowded(l, c, need) && c.order != [] then MakeRoom(l, Popped(c), need) else c
  }

  function Removed(c: Cache, k: string): Cache {
    Cache(c.entries - {k}, RemoveFirst(c.order, k), c.bytes - SizeAt(c, k))
  }

  function Touched(c: Cache, k: string): Cache {
    if k in c.entries then c.(order := RemoveFirst(c.order, k) + [k]) else c
  }

  function Deleted(c: Cache, k: string): Cache {
    if k in c.entries then Removed(c, k) else c
  }

  function Appended(c: Cache, k: string, v: FileState): Cache {
    Cache(c.entries[k := v], c.order + [k], c.bytes + ByteLength(v.content))
  }

  function Inserted(l: Limits, c: Cache, k: string, v: FileState): Cache {
    var room := MakeRoom(l, Deleted(c, k), ByteLength(v.content));
    Appended(room, k, v)
  }

  // ---------------------------------------------------------------- consistency

  /** The sum of the entry sizes along `order`. */
  function Total(c: Cache, order: seq<string>): nat {
    if order == [] then 0 else SizeAt(c, order[0]) + Total(c, order[1..])
  }

  /** `order` lists every key once and `bytes` is the exact sum. */
  ghost predicate Exact(c: Cache) {
    && Distinct(c.order)
    && c.entries.Keys == Members(c.order)
    && c.bytes == Total(c, c.order)
  }

  ghost predicate Fits(l: Limits, c: Cache) {
    && |c.entries| <= l.maxEntries
    && (c.bytes <= l.maxBytes || |c.entries| == 1)
  }

  lemma {:induction false} TotalSame(c: Cache, d: Cache, order: seq<string>)
    requires forall k :: k in order ==> SizeAt(c, k) == SizeAt(d, k)
    ensures Total(c, order) == Total(d, order)
  {
    if order != [] {
      assert order[0] in order;
      TotalSame(c, d, order[1..]);
    }
  }

  lemma {:induction false} TotalAppend(c: Cache, order: seq<string>, k: string)
    ensures Total(c, order + [k]) == Total(c, order) + SizeAt(c, k)
  {
    if order == [] {
      assert [] + [k] == [k] && [k][1..] == [];
    } else {
      assert (order + [k])[1..] == order[1..] + [k];
      TotalAppend(c, order[1..], k);
    }
  }

  lemma {:induction false} TotalRemove(c: Cache, order: seq<string>, k: string)
    requires Distinct(order) && k in order
    ensures Total(c, RemoveFirst(order, k)) == Total(c, order) - SizeAt(c, k)
  {
    if order[0] != k {
      var rest := RemoveFirst(order[1..], k);
      TotalRemove(c, order[1..], k);
      assert ([order[0]] + rest)[1..] == rest;
    }
  }

  lemma PoppedExact(c: Cache)
    requires Exact(c) && c.order != []
    ensures Exact(Popped(c)) && |Popped(c).entries| == |c.entries| - 1
  {
    var k := c.order[0];
    assert k in c.order;
    assert c.entries.Keys == (c.entries - {k}).Keys + {k};
    TotalSame(c, Popped(c), c.order[1..]);
  }

  lemma {:induction false} MakeRoomExact(l: Limits, c: Cache, need: nat)
    requires Exact(c)
    ensures var r := MakeRoom(l, c, need);
            Exact(r) && (r.order == [] || !Crowded(l, r, need))
    decreases |c.order|
  {
    if Crowded(l, c, need) && c.order != [] {
      PoppedExact(c);
      MakeRoomExact(l, Popped(c), need);
    }
  }

  lemma RemovedExact(c: Cache, k: string)
    requires Exact(c) && k in c.entries
    ensures Exact(Removed(c, k)) && |Removed(c, k).entries| == |c.entries| - 1
  {
    RemoveFirstProperties(c.order, k);
    TotalRemove(c, c.order, k);
    TotalSame(c, Removed(c, k), RemoveFirst(c.order, k));
    assert c.entries.Keys == (c.entries - {k}).Keys + {k};
  }

  lemma TouchedExact(c: Cache, k: string)
    requires Exact(c) && k in c.entries
    ensures Exact(Touched(c, k))
  {
    var t := Touched(c, k);
    RemoveFirstProperties(c.order, k);
    TotalRemove(c, c.order, k);
    TotalAppend(c, RemoveFirst(c.order, k), k);
    TotalSame(c, t, t.order);
    DistinctExtend(RemoveFirst(c.order, k), k);
  }

  lemma AppendedTotal(c: Cache, k: string, v: FileState)
    requires Exact(c) && k !in c.entries
    ensures Appended(c, k, v).bytes == Total(Appended(c, k, v), Appended(c, k, v).order)
  {
    var r := Appended(c, k, v);
    TotalSame(c, r, c.order);
    TotalAppend(r, c.order, k);
  }

  lemma AppendedExact(c: Cache, k: string, v: FileState)
    requires Exact(c) && k !in c.entries
    ensures Exact(Appended(c, k, v)) && |Appended(c, k, v).entries| == |c.entries| + 1
  {
    AppendedTotal(c, k, v);
    var r := Appended(c, k, v);
    assert r.entries.Keys == c.entries.Keys + {k};
    DistinctExtend(c.order, k);
  }

  lemma {:induction false} MakeRoomForgets(l: Limits, c: Cache, need: nat)
    ensures MakeRoom(l, c, need).entries.Keys <= c.entries.Keys
    ensures forall k :: k in MakeRoom(l, c, need).entries ==> MakeRoom(l, c, need).entries[k] == c.entries[k]
    decreases |c.order|
  {
    if Crowded(l, c, need) && c.order != [] {
      MakeRoomForgets(l, Popped(c), need);
    }
  }

  /** After any insertion the books are exact and the bounds hold; a single oversized entry may stay. */
  lemma InsertedFits(l: Limits, c: Cache, k: string, v: FileState)
    requires Exact(c) && l.maxEntries >= 1
    ensures Exact(Inserted(l, c, k, v)) && Fits(l, Inserted(l, c, k, v))
  {
    var d := Deleted(c, k);
    if k in c.entries {
      RemovedExact(c, k);
    }
    MakeRoomExact(l, d, ByteLength(v.content));
    MakeRoomForgets(l, d, ByteLength(v.content));
    var room := MakeRoom(l, d, ByteLength(v.content));
    AppendedExact(room, k, v);
    if room.order == [] {
      assert room.entries.Keys == {};
    }
  }

  // ---------------------------------------------------------------- what an insertion evicts

  /** What is left after dropping `n` least recently used entries has room for `need` more bytes. */
  predicate HasRoom(l: Limits, c: Cache, n: nat, need: nat)
    requires n <= |c.order|
  {
    n == |c.order| || (|c.order| - n < l.maxEntries && Total(c, c.order[n..]) + need <= l.maxBytes)
  }

  lemma ExactSize(c: Cache)
    requires Exact(c)
    ensures |c.entries| == |c.order|
    decreases |c.order|
  {
    if c.order == [] {
      assert c.entries.Keys == {};
    } else {
      PoppedExact(c);
      ExactSize(Popped(c));
    }
  }

  lemma RoomShift(l: Limits, c: Cache, i: nat, need: nat)
    requires Exact(c) && i < |c.order|
    ensures HasRoom(l, Popped(c), i, need) == HasRoom(l, c, i + 1, need)
  {
    var p := Popped(c);
    assert c.order[i + 1..] == p.order[i..];
    TotalSame(c, p, p.order[i..]);
  }

  lemma CrowdedMeans(l: Limits, c: Cache, need: nat)
    requires Exact(c)
    ensures HasRoom(l, c, 0, need) <==> !(Crowded(l, c, need) && c.order != [])
  {
    ExactSize(c);
    assert c.order[0..] == c.order;
  }

  /** The number of entries an insertion evicts. */
  ghost function Evicted(l: Limits, c: Cache, need: nat): nat
    decreases |c.order|
  {
    if Crowded(l, c, need) && c.order != [] then 1 + Evicted(l, Popped(c), need) else 0
  }

  /** `n` is the least number of least recently used entries whose removal makes room. */
  ghost predicate Shortest(l: Limits, c: Cache, n: nat, need: nat) {
    n <= |c.order| && HasRoom(l, c, n, need) && forall i: nat :: i < n ==> !HasRoom(l, c, i, need)
  }

  lemma ShortestShift(l: Limits, c: Cache, n: nat, need: nat)
    requires Exact(c) && c.order != [] && !HasRoom(l, c, 0, need) && Shortest(l, Popped(c), n, need)
    ensures Shortest(l, c, n + 1, need)
  {
    RoomShift(l, c, n, need);
    forall i: nat | 0 < i < n + 1 ensures !HasRoom(l, c, i, need) {
      RoomShift(l, c, i - 1, need);
    }
  }

  /** Exactly the shortest least-recently-used prefix that makes room goes. */
  lemma {:induction false} EvictsShortest(l: Limits, c: Cache, need: nat)
    requires Exact(c)
    ensures Shortest(l, c, Evicted(l, c, need), need)
    decreases |c.order|
  {
    if Crowded(l, c, need) && c.order != [] {
      PoppedExact(c);
      EvictsShortest(l, Popped(c), need);
      OneMoreEvicted(l, c, Popped(c), need);
    } else {
      NothingEvicted(l, c, need);
    }
  }

  lemma OneMoreEvicted(l: Limits, c: Cache, popped: Cache, need: nat)
    requires Exact(c) && Crowded(l, c, need) && c.order != [] && popped == Popped(c)
    requires Shortest(l, popped, Evicted(l, popped, need), need)
    ensures Shortest(l, c, Evicted(l, c, need), need)
  {
    CrowdedMeans(l, c, need);
    ShortestShift(l, c, Evicted(l, popped, need), need);
  }

  lemma NothingEvicted(l: Limits, c: Cache, need: nat)
    requires Exact(c) && !(Crowded(l, c, need) && c.order != [])
    ensures Shortest(l, c, 0, need)
  {
    CrowdedMeans(l, c, need);
  }

  /** What survives keeps its place in the order and its value. */
  lemma {:induction false} EvictsPrefix(l: Limits, c: Cache, need: nat)
    requires Exact(c)
    ensures Evicted(l, c, need) <= |c.order|
    ensures MakeRoom(l, c, need).order == c.order[Evicted(l, c, need)..]
    decreases |c.order|
  {
    if Crowded(l, c, need) && c.order != [] {
      PoppedExact(c);
      EvictsPrefix(l, Popped(c), need);
      var m := Evicted(l, Popped(c), need);
      assert c.order[m + 1..] == c.order[1..][m..];
    }
  }

  /** `set` drops exactly the shortest least-recently-used prefix that makes room and appends its own key. */
  lemma InsertionEvicts(l: Limits, c: Cache, k: string, v: FileState)
    requires Exact(c)
    ensures var d := Deleted(c, k);
            var need := ByteLength(v.content);
            && Shortest(l, d, Evicted(l, d, need), need)
            && Inserted(l, c, k, v).order == d.order[Evicted(l, d, need)..] + [k]
  {
    if k in c.entries {
      RemovedExact(c, k);
    }
    EvictsShortest(l, Deleted(c, k), ByteLength(v.content));
    EvictsPrefix(l, Deleted(c, k), ByteLength(v.content));
  }

  // ---------------------------------------------------------------- whole runs

  datatype Op = Get(key: string) | Set(key: string, state: FileState) | Delete(key: string) | Clear

  function Applied(l: Limits, c: Cache, op: Op): Cache {
    match op
    case Get(k) => Touched(c, k)
    case Set(k, v) => Inserted(l, c, k, v)
    case Delete(k) => Deleted(c, k)
    case Clear => EMPTY
  }

  function Run(l: Limits, ops: seq<Op>): Cache {
    if ops == [] then EMPTY else Applied(l, Run(l, ops[..|ops| - 1]), ops[|ops| - 1])
  }

  ghost predicate Sound(l: Limits, c: Cache) {
    Exact(c) && Fits(l, c)
  }

  lemma DeletedSound(l: Limits, c: Cache, k: string)
    requires Sound(l, c) && l.maxBytes >= 1
    ensures Sound(l, Deleted(c, k))
  {
    if k in c.entries {
      RemovedExact(c, k);
      var d := Deleted(c, k);
      if |d.entries| == 0 {
        ExactSize(d);
        assert d.bytes == 0;
      }
    }
  }

  lemma AppliedSound(l: Limits, c: Cache, op: Op)
    requires Sound(l, c) && l.maxEntries >= 1 && l.maxBytes >= 1
    ensures Sound(l, Applied(l, c, op))
  {
    match op
    case Get(k) => if k in c.entries { TouchedExact(c, k); }
    case Set(k, v) => InsertedFits(l, c, k, v);
    case Delete(k) => DeletedSound(l, c, k);
    case Clear =>
  }

  /** Whatever is called in whatever order, the books stay exact and the bounds hold. */
  lemma {:induction false} RunSound(l: Limits, ops: seq<Op>)
    requires l.maxEntries >= 1 && l.maxBytes >= 1
    ensures Sound(l, Run(l, ops))
    decreases |ops|
  {
    if ops != [] {
      RunSound(l, ops[..|ops| - 1]);
      AppliedSound(l, Run(l, ops[..|ops| - 1]), ops[|ops| - 1]);
    }
  }

  /** The value last set for `k` and not deleted or cleared since. */
  function LastSet(ops: seq<Op>, k: string): Option<FileState>
    decreases |ops|
  {
    if ops == [] then None else
    var before := LastSet(ops[..|ops| - 1], k);
    match ops[|ops| - 1]
    case Get(_) => before
    case Set(j, v) => if j == k then Some(v) else before
    case Delete(j) => if j == k then None else before
    case Clear => None
  }

  /** A hit returns the value last set: eviction can lose an entry but never serves a stale one. */
  lemma {:induction false} HitsAreCurrent(l: Limits, ops: seq<Op>, k: string)
    ensures k in Run(l, ops).entries ==> LastSet(ops, k) == Some(Run(l, ops).entries[k])
    decreases |ops|
  {
    if ops != [] {
      var before := Run(l, ops[..|ops| - 1]);
      HitsAreCurrent(l, ops[..|ops| - 1], k);
      if ops[|ops| - 1].Set? {
        MakeRoomForgets(l, Deleted(before, ops[|ops| - 1].key), ByteLength(ops[|ops| - 1].state.content));
      }
    }
  }

  /** Every key set and not deleted since, ordered by its last use: a `set`, or a `get` that hit. No bounds. */
  function Recency(l: Limits, ops: seq<Op>): seq<string>
    decreases |ops|
  {
    if ops == [] then [] else
    var used := Recency(l, ops[..|ops| - 1]);
    match ops[|ops| - 1]
    case Get(k) => if k in Run(l, ops[..|ops| - 1]).entries then RemoveFirst(used, k) + [k] else used
    case Set(k, _) => RemoveFirst(used, k) + [k]
    case Delete(k) => RemoveFirst(used, k)
    case Clear => []
  }

  ghost predicate IsSuffix(s: seq<string>, t: seq<string>) {
    |s| <= |t| && t[|t| - |s|..] == s
  }

  lemma SuffixAfterRemoval(s: seq<string>, t: seq<string>, k: string)
    requires IsSuffix(s, t) && Distinct(t)
    ensures IsSuffix(RemoveFirst(s, k), RemoveFirst(t, k))
  {
    var a := t[..|t| - |s|];
    assert t == a + s;
    DistinctSplit(a, s);
    if k in a {
      RemoveFirstLeft(a, s, k);
      RemoveFirstDistinct(s, k);
    } else {
      RemoveFirstRight(a, s, k);
    }
  }

  lemma SuffixAppend(s: seq<string>, t: seq<string>, n: nat, k: string)
    requires IsSuffix(s, t) && n <= |s|
    ensures IsSuffix(s[n..] + [k], t + [k])
  {
    assert s[n..] == t[|t| - |s| + n..];
  }

  lemma {:induction false} SetKeepsRecent(l: Limits, c: Cache, k: string, v: FileState, used: seq<string>)
    requires Exact(c) && IsSuffix(c.order, used) && Distinct(used)
    ensures IsSuffix(Inserted(l, c, k, v).order, RemoveFirst(used, k) + [k])
  {
    var d := Deleted(c, k);
    SuffixAfterRemoval(c.order, used, k);
    if k !in c.entries {
      RemoveFirstProperties(c.order, k);
    }
    InsertionEvicts(l, c, k, v);
    SuffixAppend(d.order, RemoveFirst(used, k), Evicted(l, d, ByteLength(v.content)), k);
  }

  lemma {:induction false} GetKeepsRecent(c: Cache, k: string, used: seq<string>)
    requires Exact(c) && IsSuffix(c.order, used) && Distinct(used) && k in c.entries
    ensures IsSuffix(Touched(c, k).order, RemoveFirst(used, k) + [k])
  {
    SuffixAfterRemoval(c.order, used, k);
    var order, past := RemoveFirst(c.order, k), RemoveFirst(used, k);
    SuffixAppend(order, past, 0, k);
    assert order[0..] == order;
  }

  lemma {:induction false} DeleteKeepsRecent(c: Cache, k: string, used: seq<string>)
    requires Exact(c) && IsSuffix(c.order, used) && Distinct(used)
    ensures IsSuffix(Deleted(c, k).order, RemoveFirst(used, k))
  {
    SuffixAfterRemoval(c.order, used, k);
    if k !in c.entries {
      RemoveFirstDistinct(c.order, k);
    }
  }

  lemma {:induction false} RecencyDistinct(l: Limits, ops: seq<Op>)
    ensures Distinct(Recency(l, ops))
    decreases |ops|
  {
    if ops != [] {
      RecencyDistinct(l, ops[..|ops| - 1]);
      if !ops[|ops| - 1].Clear? {
        DistinctAppend(Recency(l, ops[..|ops| - 1]), ops[|ops| - 1].key);
        RemoveFirstDistinct(Recency(l, ops[..|ops| - 1]), ops[|ops| - 1].key);
      }
    }
  }

  /** The keys kept are exactly the most recently used ones, in order of use. */
  ghost predicate MostRecentKept(l: Limits, ops: seq<Op>) {
    IsSuffix(Run(l, ops).order, Recency(l, ops))
  }

  lemma AppliedKeepsRecent(l: Limits, ops: seq<Op>, past: seq<Op>)
    requires ops != [] && past == ops[..|ops| - 1]
    requires Exact(Run(l, past)) && MostRecentKept(l, past)
    ensures MostRecentKept(l, ops)
  {
    RecencyDistinct(l, past);
    var c, used := Run(l, past), Recency(l, past);
    match ops[|ops| - 1]
    case Get(k) => if k in c.entries { GetKeepsRecent(c, k, used); }
    case Set(k, v) => SetKeepsRecent(l, c, k, v, used);
    case Delete(k) => DeleteKeepsRecent(c, k, used);
    case Clear =>
  }

  /** Whatever is called in whatever order, the cache keeps exactly the most recently used keys. */
  lemma {:induction false} KeepsMostRecent(l: Limits, ops: seq<Op>)
    requires l.maxEntries >= 1 && l.maxBytes >= 1
    ensures MostRecentKept(l, ops)
    decreases |ops|
  {
    if ops != [] {
      var past := ops[..|ops| - 1];
      KeepsMostRecent(l, past);
      RunSound(l, past);
      AppliedKeepsRecent(l, ops, past);
    }
  }

  // ---------------------------------------------------------------- steps of the loops below

  lemma CrowdedStep(l: Limits, c: Cache, need: nat)
    requires Exact(c) && Crowded(l, c, need) && c.entries != map[]
    ensures c.order != [] && Exact(Popped(c)) && MakeRoom(l, c, need) == MakeRoom(l, Popped(c), need)
  {
    ExactSize(c);
    PoppedExact(c);
  }

  lemma EnoughRoom(l: Limits, c: Cache, need: nat)
    requires Exact(c) && !(Crowded(l, c, need) && c.entries != map[])
    ensures MakeRoom(l, c, need) == c
  {
    ExactSize(c);
  }

  /** `d` holds the `i` least recently used entries of `c`. */
  ghost predicate Copied(c: Cache, d: Cache, i: nat) {
    && i <= |c.order|
    && d.order == c.order[..i]
    && d.entries.Keys == Members(c.order[..i])
    && (forall k :: k in d.entries ==> k in c.entries && d.entries[k] == c.entries[k])
    && d.bytes == Total(c, c.order[..i])
  }

  lemma CopiedStep(c: Cache, d: Cache, i: nat)
    requires Exact(c) && Copied(c, d, i) && i < |c.order|
    ensures c.order[i] in c.entries && Copied(c, Appended(d, c.order[i], c.entries[c.order[i]]), i + 1)
  {
    var k := c.order[i];
    assert k in c.order;
    assert c.order[..i + 1] == c.order[..i] + [k];
    TotalAppend(c, c.order[..i], k);
  }

  lemma CopiedAll(c: Cache, d: Cache)
    requires Exact(c) && Copied(c, d, |c.order|)
    ensures d == c
  {
    assert c.order[..|c.order|] == c.order;
    assert d.entries == c.entries;
  }

  // ---------------------------------------------------------------- the class

  class FileStateCache {
    var cache: map<string, FileState>
    var order: seq<string>
    var currentSizeBytes: int
    const limits: Limits

    ghost function View(): Cache
      reads this
    {
      Cache(cache, order, currentSizeBytes)
    }

    ghost predicate Valid()
      reads this
    {
      limits.maxEntries >= 1 && limits.maxBytes >= 1 && Sound(limits, View())
    }

    constructor (maxEntries: int, maxSizeBytes: int)
      ensures Valid() && View() == EMPTY
      ensures limits.maxEntries == (if maxEntries < 1 then 1 else maxEntries)
      ensures limits.maxBytes == (if maxSizeBytes < 1 then 1 else maxSizeBytes)
    {
      cache, order, currentSizeBytes := map[], [], 0;
      limits := Limits(if maxEntries < 1 then 1 else maxEntries, if maxSizeBytes < 1 then 1 else maxSizeBytes);
    }

    method Touch(key: string)
      modifies this`order
      ensures order == RemoveFirst(old(order), key) + [key]
    {
      order := RemoveFirst(order, key);
      order := order + [key];
    }

    method PopLru()
      modifies this
      ensures View() == if old(order) == [] then old(View()) else Popped(old(View()))
    {
      if order == [] {
        return;
      }
      var lruKey := order[0];
      order := order[1..];
      if lruKey in cache {
        currentSizeBytes := currentSizeBytes - ByteLength(cache[lruKey].content);
      }
      cache := cache - {lruKey};
    }

    method Get(key: string) returns (entry: Option<FileState>)
      requires Valid()
      modifies this
      ensures Valid() && View() == Applied(limits, old(View()), Op.Get(key))
      ensures entry == if key in old(cache) then Some(old(cache)[key]) else None
    {
      AppliedSound(limits, View(), Op.Get(key));
      if key !in cache {
        return None;
      }
      entry := Some(cache[key]);
      Touch(key);
    }

    /** Forgets `key`, as `set` and `delete` both do first. */
    method Forget(key: string)
      requires key in cache
      modifies this
      ensures View() == Removed(old(View()), key)
    {
      currentSizeBytes := currentSizeBytes - ByteLength(cache[key].content);
      cache := cache - {key};
      order := RemoveFirst(order, key);
    }

    /** The eviction loop of `set`. */
    method Evict(newSize: nat)
      requires Exact(View())
      modifies this
      ensures View() == MakeRoom(limits, old(View()), newSize)
    {
      ghost var room := MakeRoom(limits, View(), newSize);
      while (|cache| >= limits.maxEntries || currentSizeBytes + newSize > limits.maxBytes) && cache != map[]
        invariant Exact(View())
        invariant MakeRoom(limits, View(), newSize) == room
        decreases |order|
      {
        CrowdedStep(limits, View(), newSize);
        PopLru();
      }
      EnoughRoom(limits, View(), newSize);
    }

    /** Adds an entry as the most recently used one, as `set` and `clone` do last. */
    method Append(key: string, state: FileState)
      modifies this
      ensures View() == Appended(old(View()), key, state)
    {
      cache := cache[key := state];
      order := order + [key];
      currentSizeBytes := currentSizeBytes + ByteLength(state.content);
    }

    method Set(key: string, state: FileState)
      requires Valid()
      modifies this
      ensures Valid() && View() == Applied(limits, old(View()), Op.Set(key, state))
    {
      ghost var after := Applied(limits, View(), Op.Set(key, state));
      AppliedSound(limits, View(), Op.Set(key, state));
      DeletedSound(limits, View(), key);
      if key in cache {
        Forget(key);
      }
      var newSize := ByteLength(state.content);
      Evict(newSize);
      Append(key, state);
      assert View() == after;
    }

    method Delete(key: string) returns (found: bool)
      requires Valid()
      modifies this
      ensures Valid() && View() == Applied(limits, old(View()), Op.Delete(key))
      ensures found == (key in old(cache))
    {
      AppliedSound(limits, View(), Op.Delete(key));
      if key !in cache {
        return false;
      }
      Forget(key);
      found := true;
    }

    method Clear()
      requires Valid()
      modifies this
      ensures Valid() && View() == Applied(limits, old(View()), Op.Clear)
    {
      cache, order, currentSizeBytes := map[], [], 0;
    }

    method Clone() returns (clone: FileStateCache)
      requires Valid()
      ensures fresh(clone) && clone.Valid() && clone.View() == View() && clone.limits == limits
    {
      clone := new FileStateCache(limits.maxEntries, limits.maxBytes);
      for i := 0 to |order|
        invariant fresh(clone) && clone.limits == limits
        invariant Copied(View(), clone.View(), i)
      {
        CopiedStep(View(), clone.View(), i);
        var key := order[i];
        var entry := cache[key];
        clone.Append(key, FileState(entry.content, entry.timestamp, entry.offset, entry.limit, entry.isPartialView));
      }
      CopiedAll(View(), clone.View());
    }
  }
}
