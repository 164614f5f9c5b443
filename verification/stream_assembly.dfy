/**
 How a streamed reply is put together (forgepilot_sdk/providers/openai_compatible.py): tool calls arrive
 as fragments, keyed by an index. An absent or empty field is the empty string. Fresh ids and JSON
 decoding are oracles.
 */
module StreamAssembly {
  import opened Options
  import opened Lists

  datatype Fragment = Fragment(index: int, id: string, name: string, arguments: string)

  /** The part of a chunk the loop looks at. */
  datatype Chunk = Chunk(content: Option<string>, calls: seq<Fragment>, finish: string)

  datatype Slot = Slot(id: string, name: string, arguments: string)

  datatype Input<J> = Decoded(value: J) | Raw(text: string)

  datatype ToolCall<J> = ToolCall(id: string, name: string, input: Input<J>)

  datatype Oracle<!J> = Oracle(newId: int -> string, decode: string -> Option<J>)

  function Or(a: string, b: string): string { if a != "" then a else b }

  // ---------------------------------------------------------------- one fragment

  function Put<J>(o: Oracle<J>, slots: map<int, Slot>, f: Fragment): map<int, Slot> {
    var slot := if f.index in slots then slots[f.index] else Slot(Or(f.id, o.newId(f.index)), "", "");
    slots[f.index := Slot(Or(f.id, slot.id), Or(f.name, slot.name), slot.arguments + f.arguments)]
  }

  function PutAll<J>(o: Oracle<J>, fs: seq<Fragment>): map<int, Slot> {
    if fs == [] then map[] else Put(o, PutAll(o, fs[..|fs| - 1]), fs[|fs| - 1])
  }

  lemma PutLast<J>(o: Oracle<J>, fs: seq<Fragment>, f: Fragment)
    ensures PutAll(o, fs + [f]) == Put(o, PutAll(o, fs), f)
  {
    assert (fs + [f])[..|fs|] == fs;
  }

  function Fragments(cs: seq<Chunk>): seq<Fragment> {
    if cs == [] then [] else Fragments(cs[..|cs| - 1]) + cs[|cs| - 1].calls
  }

  function Text(cs: seq<Chunk>): string {
    if cs == [] then "" else
    Text(cs[..|cs| - 1]) + (match cs[|cs| - 1].content case Some(t) => t case None => "")
  }

  function FinishReason(cs: seq<Chunk>): string {
    if cs == [] then "" else Or(cs[|cs| - 1].finish, FinishReason(cs[..|cs| - 1]))
  }

  // ---------------------------------------------------------------- ascending indices

  ghost predicate Ascending(s: seq<int>) {
    forall i, j :: 0 <= i < j < |s| ==> s[i] < s[j]
  }

  predicate Least(m: int, s: set<int>) {
    m in s && forall x :: x in s ==> m <= x
  }

  lemma EmptyOrNot(s: set<int>)
    ensures s == {} || exists m :: m in s
  {
    if forall m :: m !in s {
      assert s == {};
    }
  }

  lemma {:induction false} LeastExists(s: set<int>)
    requires s != {}
    ensures exists m :: Least(m, s)
    decreases |s|
  {
    EmptyOrNot(s);
    var m: int :| m in s;
    var rest := s - {m};
    if rest == {} {
      assert s == {m};
      assert Least(m, s);
    } else {
      LeastExists(rest);
      var n :| Least(n, rest);
      assert s == rest + {m};
      assert Least(if n < m then n else m, s);
    }
  }

  /** `sorted` on a set of keys. */
  function Sorted(s: set<int>): seq<int>
    decreases |s|
  {
    if s == {} then [] else
    LeastExists(s);
    var m :| Least(m, s);
    [m] + Sorted(s - {m})
  }

  lemma AscendingCons(m: int, rest: seq<int>)
    requires Ascending(rest) && forall x :: x in Members(rest) ==> m < x
    ensures Ascending([m] + rest) && Members([m] + rest) == Members(rest) + {m}
  {
    forall j | 0 <= j < |rest| ensures m < rest[j] {
      assert rest[j] in Members(rest);
    }
  }

  lemma {:induction false} SortedUnfolds(s: set<int>) returns (m: int, rest: set<int>)
    requires s != {}
    ensures m in s && rest == s - {m} && |rest| < |s| && s == rest + {m}
    ensures (forall x :: x in rest ==> m < x) && Sorted(s) == [m] + Sorted(rest)
  {
    LeastExists(s);
    m :| Least(m, s) && Sorted(s) == [m] + Sorted(s - {m});
    rest := s - {m};
    assert s == rest + {m};
  }

  lemma {:induction false} SortedAscends(s: set<int>)
    ensures Ascending(Sorted(s)) && Members(Sorted(s)) == s
    decreases |s|
  {
    if s != {} {
      var m, rest := SortedUnfolds(s);
      SortedAscends(rest);
      AscendingCons(m, Sorted(rest));
    }
  }

  /** There is one way to put a set in order. */
  lemma {:induction false} AscendingUnique(a: seq<int>, b: seq<int>)
    requires Ascending(a) && Ascending(b) && Members(a) == Members(b)
    ensures a == b
    decreases |a|
  {
    if a == [] {
      assert forall i :: 0 <= i < |b| ==> b[i] in Members(b);
    } else {
      assert a[0] in Members(b);
      SameFirst(a, b);
      forall x ensures x in Members(a[1..]) <==> x in Members(b[1..]) {
        TailMembers(a, x);
        TailMembers(b, x);
      }
      AscendingUnique(a[1..], b[1..]);
      assert a == [a[0]] + a[1..] && b == [b[0]] + b[1..];
    }
  }

  lemma SameFirst(a: seq<int>, b: seq<int>)
    requires Ascending(a) && Ascending(b) && Members(a) == Members(b) && a != []
    ensures b != [] && a[0] == b[0]
  {
    assert a[0] in Members(b);
    assert b[0] in Members(a);
  }

  lemma TailMembers(a: seq<int>, x: int)
    requires Ascending(a) && a != []
    ensures x in Members(a[1..]) <==> x in Members(a) && x != a[0]
  {
    assert a == [a[0]] + a[1..];
  }

  // ---------------------------------------------------------------- the reply

  function Finished<J>(o: Oracle<J>, slot: Slot): ToolCall<J> {
    var raw := Or(slot.arguments, "{}");
    ToolCall(slot.id, slot.name, if o.decode(raw).Some? then Decoded(o.decode(raw).value) else Raw(raw))
  }

  function Collected<J>(o: Oracle<J>, slots: map<int, Slot>, keys: seq<int>): seq<ToolCall<J>>
    requires forall i :: 0 <= i < |keys| ==> keys[i] in slots
  {
    seq(|keys|, i requires 0 <= i < |keys| => Finished(o, slots[keys[i]]))
  }

  function Calls<J>(o: Oracle<J>, fs: seq<Fragment>): seq<ToolCall<J>> {
    var slots := PutAll(o, fs);
    SortedAscends(slots.Keys);
    assert forall i :: 0 <= i < |Sorted(slots.Keys)| ==> Sorted(slots.Keys)[i] in Members(Sorted(slots.Keys));
    Collected(o, slots, Sorted(slots.Keys))
  }

  method AddFragment<J>(o: Oracle<J>, slots: map<int, Slot>, f: Fragment) returns (more: map<int, Slot>)
    ensures more == Put(o, slots, f)
  {
    var slot := if f.index in slots then slots[f.index] else Slot(Or(f.id, o.newId(f.index)), "", "");
    if f.id != "" {
      slot := slot.(id := f.id);
    }
    if f.name != "" {
      slot := slot.(name := f.name);
    }
    assert slot.arguments + "" == slot.arguments;
    if f.arguments != "" {
      slot := slot.(arguments := slot.arguments + f.arguments);
    }
    more := slots[f.index := slot];
  }

  method AddFragments<J>(o: Oracle<J>, slots: map<int, Slot>, ghost past: seq<Fragment>, fs: seq<Fragment>)
    returns (more: map<int, Slot>)
    requires slots == PutAll(o, past)
    ensures more == PutAll(o, past + fs)
  {
    more := slots;
    assert past + fs[..0] == past;
    for j := 0 to |fs|
      invariant more == PutAll(o, past + fs[..j])
    {
      PutLast(o, past + fs[..j], fs[j]);
      TakeNext(fs, j);
      assert past + fs[..j] + [fs[j]] == past + fs[..j + 1];
      more := AddFragment(o, more, fs[j]);
    }
    assert fs[..|fs|] == fs;
  }

  method FinishCalls<J>(o: Oracle<J>, slots: map<int, Slot>, keys: seq<int>) returns (calls: seq<ToolCall<J>>)
    requires forall i :: 0 <= i < |keys| ==> keys[i] in slots
    ensures calls == Collected(o, slots, keys)
  {
    calls := [];
    for i := 0 to |keys|
      invariant |calls| == i && forall j :: 0 <= j < i ==> calls[j] == Finished(o, slots[keys[j]])
    {
      calls := calls + [Finished(o, slots[keys[i]])];
    }
  }

  lemma KeysIn(slots: map<int, Slot>)
    ensures forall i :: 0 <= i < |Sorted(slots.Keys)| ==> Sorted(slots.Keys)[i] in slots
  {
    SortedAscends(slots.Keys);
    assert forall i :: 0 <= i < |Sorted(slots.Keys)| ==> Sorted(slots.Keys)[i] in Members(Sorted(slots.Keys));
  }

  method AssembleStream<J>(o: Oracle<J>, chunks: seq<Chunk>)
    returns (content: string, calls: seq<ToolCall<J>>, finish: string)
    ensures content == Text(chunks) && calls == Calls(o, Fragments(chunks)) && finish == FinishReason(chunks)
  {
    content, finish := "", "";
    var slots: map<int, Slot> := map[];
    for i := 0 to |chunks|
      invariant content == Text(chunks[..i]) && finish == FinishReason(chunks[..i])
      invariant slots == PutAll(o, Fragments(chunks[..i]))
    {
      var chunk := chunks[i];
      assert chunks[..i + 1][..i] == chunks[..i];
      finish := Or(chunk.finish, finish);
      if chunk.content.Some? {
        content := content + chunk.content.value;
      }
      slots := AddFragments(o, slots, Fragments(chunks[..i]), chunk.calls);
    }
    assert chunks[..|chunks|] == chunks;
    KeysIn(slots);
    calls := FinishCalls(o, slots, Sorted(slots.Keys));
  }

  // ---------------------------------------------------------------- confluence

  /** The fragments of one call, in order of arrival. */
  function Only(fs: seq<Fragment>, i: int): seq<Fragment> {
    if fs == [] then [] else
    Only(fs[..|fs| - 1], i) + if fs[|fs| - 1].index == i then [fs[|fs| - 1]] else []
  }

  /** What reaches one slot depends on that call's fragments alone. */
  ghost predicate OwnSlot<J>(o: Oracle<J>, fs: seq<Fragment>, i: int) {
    var own := Only(fs, i);
    && (i in PutAll(o, fs) <==> own != [])
    && (i in PutAll(o, own) <==> own != [])
    && (own != [] ==> PutAll(o, fs)[i] == PutAll(o, own)[i])
  }

  lemma {:induction false} SlotFromOwn<J>(o: Oracle<J>, fs: seq<Fragment>, i: int)
    ensures OwnSlot(o, fs, i)
    decreases |fs|
  {
    if fs != [] {
      var past, f := fs[..|fs| - 1], fs[|fs| - 1];
      SlotFromOwn(o, past, i);
      if f.index == i {
        PutLast(o, Only(past, i), f);
        assert Only(fs, i) == Only(past, i) + [f];
      } else {
        assert Only(fs, i) == Only(past, i);
      }
    }
  }

  /** Streams that agree call by call give the same tool calls, however the calls are interleaved. */
  lemma Confluent<J>(o: Oracle<J>, fs: seq<Fragment>, gs: seq<Fragment>)
    requires forall i :: Only(fs, i) == Only(gs, i)
    ensures Calls(o, fs) == Calls(o, gs)
  {
    forall i ensures i in PutAll(o, fs) <==> i in PutAll(o, gs)
             ensures i in PutAll(o, fs) ==> PutAll(o, fs)[i] == PutAll(o, gs)[i]
    {
      SlotFromOwn(o, fs, i);
      SlotFromOwn(o, gs, i);
    }
    assert PutAll(o, fs) == PutAll(o, gs);
  }

  // ---------------------------------------------------------------- what a slot and a reply say

  /** `s` is the last of `ss` that is not empty, and empty if none is. */
  ghost predicate LastSaid(ss: seq<string>, s: string) {
    if s == "" then forall k :: 0 <= k < |ss| ==> ss[k] == ""
    else exists k :: 0 <= k < |ss| && ss[k] == s && forall j :: k < j < |ss| ==> ss[j] == ""
  }

  lemma LastSaidSnoc(ss: seq<string>, was: string, s: string)
    requires LastSaid(ss, was)
    ensures LastSaid(ss + [s], Or(s, was))
  {
    var all := ss + [s];
    if s != "" {
      assert all[|ss|] == s;
    } else if was != "" {
      var k :| 0 <= k < |ss| && ss[k] == was && forall j :: k < j < |ss| ==> ss[j] == "";
      assert all[k] == was && forall j :: k < j < |all| ==> all[j] == "";
    }
  }

  function Joined(parts: seq<string>): string {
    if parts == [] then "" else Joined(parts[..|parts| - 1]) + parts[|parts| - 1]
  }

  lemma JoinedSnoc(parts: seq<string>, p: string)
    ensures Joined(parts + [p]) == Joined(parts) + p
  {
    assert (parts + [p])[..|parts|] == parts;
  }

  function Ids(fs: seq<Fragment>): seq<string> { seq(|fs|, k requires 0 <= k < |fs| => fs[k].id) }

  function Names(fs: seq<Fragment>): seq<string> { seq(|fs|, k requires 0 <= k < |fs| => fs[k].name) }

  function Arguments(fs: seq<Fragment>): seq<string> { seq(|fs|, k requires 0 <= k < |fs| => fs[k].arguments) }

  /** The slot for the fragments `own` of one call. */
  ghost predicate SlotSays<J>(o: Oracle<J>, own: seq<Fragment>, slot: Slot) {
    && own != []
    && (if forall k :: 0 <= k < |own| ==> own[k].id == "" then slot.id == o.newId(own[0].index) else LastSaid(Ids(own), slot.id))
    && LastSaid(Names(own), slot.name)
    && slot.arguments == Joined(Arguments(own))
  }

  lemma ListsSnoc(past: seq<Fragment>, f: Fragment)
    ensures Ids(past + [f]) == Ids(past) + [f.id] && Names(past + [f]) == Names(past) + [f.name]
    ensures Arguments(past + [f]) == Arguments(past) + [f.arguments]
  {
  }

  /** One slot: the last id and the last name that are not empty, a fresh id if there is none, and all the
      arguments in a row. */
  lemma {:induction false} OwnSays<J>(o: Oracle<J>, own: seq<Fragment>, i: int)
    requires own != [] && forall k :: 0 <= k < |own| ==> own[k].index == i
    ensures i in PutAll(o, own) && SlotSays(o, own, PutAll(o, own)[i])
    decreases |own|
  {
    var n := |own| - 1;
    var past, f := own[..n], own[n];
    assert own == past + [f];
    ListsSnoc(past, f);
    JoinedSnoc(Arguments(past), f.arguments);
    PutLast(o, past, f);
    if n == 0 {
      FirstSays(o, f);
    } else {
      OwnSays(o, past, i);
      MoreSays(o, past, f, PutAll(o, past)[i]);
    }
  }

  lemma FirstSays<J>(o: Oracle<J>, f: Fragment)
    ensures f.index in Put(o, map[], f) && SlotSays(o, [f], Put(o, map[], f)[f.index])
  {
    assert Ids([f]) == [f.id] && Names([f]) == [f.name] && Arguments([f]) == [f.arguments];
    JoinedOne(f.arguments);
    LastSaidOne(f.id);
    LastSaidOne(f.name);
  }

  lemma JoinedOne(part: string)
    ensures Joined([part]) == part
  {
    JoinedSnoc([], part);
    assert [] + [part] == [part];
  }

  lemma LastSaidOne(s: string)
    ensures LastSaid([s], s)
  {
    assert [s][0] == s;
  }

  lemma MoreSays<J>(o: Oracle<J>, past: seq<Fragment>, f: Fragment, slot: Slot)
    requires SlotSays(o, past, slot) && past[0].index == f.index
    ensures SlotSays(o, past + [f], Slot(Or(f.id, slot.id), Or(f.name, slot.name), slot.arguments + f.arguments))
  {
    ListsSnoc(past, f);
    JoinedSnoc(Arguments(past), f.arguments);
    LastSaidSnoc(Names(past), slot.name, f.name);
    if forall k :: 0 <= k < |past| ==> past[k].id == "" {
      assert forall k :: 0 <= k < |past| ==> Ids(past)[k] == "";
      LastSaidSnoc(Ids(past), "", f.id);
      assert (past + [f])[|past|] == f;
    } else {
      LastSaidSnoc(Ids(past), slot.id, f.id);
      var k :| 0 <= k < |past| && past[k].id != "";
      assert (past + [f])[k].id != "";
    }
  }

  lemma {:induction false} OnlyOwn(fs: seq<Fragment>, i: int)
    ensures forall k :: 0 <= k < |Only(fs, i)| ==> Only(fs, i)[k].index == i
  {
    if fs != [] {
      OnlyOwn(fs[..|fs| - 1], i);
    }
  }

  /** Every slot of a stream says what its own fragments say. */
  lemma EverySlotSays<J>(o: Oracle<J>, fs: seq<Fragment>, i: int)
    ensures i in PutAll(o, fs) <==> Only(fs, i) != []
    ensures i in PutAll(o, fs) ==> SlotSays(o, Only(fs, i), PutAll(o, fs)[i])
  {
    SlotFromOwn(o, fs, i);
    OnlyOwn(fs, i);
    if Only(fs, i) != [] {
      OwnSays(o, Only(fs, i), i);
    }
  }

  function ContentOf(c: Chunk): string {
    match c.content case Some(t) => t case None => ""
  }

  function Contents(cs: seq<Chunk>): seq<string> {
    seq(|cs|, k requires 0 <= k < |cs| => ContentOf(cs[k]))
  }

  function Finishes(cs: seq<Chunk>): seq<string> { seq(|cs|, k requires 0 <= k < |cs| => cs[k].finish) }

  lemma ChunksSnoc(cs: seq<Chunk>)
    requires cs != []
    ensures var n := |cs| - 1;
            Contents(cs) == Contents(cs[..n]) + [ContentOf(cs[n])] && Finishes(cs) == Finishes(cs[..n]) + [cs[n].finish]
  {
  }

  /** The reply's text is that of its chunks in a row, and its finish reason the last one that is given. */
  lemma {:induction false} ReplySays(cs: seq<Chunk>)
    ensures Text(cs) == Joined(Contents(cs)) && LastSaid(Finishes(cs), FinishReason(cs))
  {
    if cs != [] {
      var n := |cs| - 1;
      ReplySays(cs[..n]);
      ChunksSnoc(cs);
      JoinedSnoc(Contents(cs[..n]), ContentOf(cs[n]));
      LastSaidSnoc(Finishes(cs[..n]), FinishReason(cs[..n]), cs[n].finish);
    }
  }

  // ---------------------------------------------------------------- round trip

  /** A tool call before it is streamed. */
  datatype Source = Source(index: int, id: string, name: string, arguments: string)

  /** The call's arguments cut into parts, its id and name on the first. */
  function Split(c: Source, parts: seq<string>): seq<Fragment> {
    if parts == [] then [] else
    Split(c, parts[..|parts| - 1])
      + [if |parts| == 1 then Fragment(c.index, c.id, c.name, parts[0]) else Fragment(c.index, "", "", parts[|parts| - 1])]
  }

  lemma {:induction false} SplitRejoins<J>(o: Oracle<J>, c: Source, parts: seq<string>)
    requires parts != []
    ensures PutAll(o, Split(c, parts)) == map[c.index := Slot(Or(c.id, o.newId(c.index)), c.name, Joined(parts))]
    decreases |parts|
  {
    var past := parts[..|parts| - 1];
    assert Split(c, parts)[..|Split(c, past)|] == Split(c, past);
    if |parts| == 1 {
      assert past == [];
      assert Joined(parts) == parts[0];
    } else {
      SplitRejoins(o, c, past);
    }
  }

  /** `fs` interleaves the fragments of `cs`, call k cut into `parts[k]`, and holds nothing else. */
  ghost predicate Interleaves(fs: seq<Fragment>, cs: seq<Source>, parts: seq<seq<string>>) {
    && |parts| == |cs|
    && (forall k :: 0 <= k < |cs| ==>
          parts[k] != [] && Joined(parts[k]) == cs[k].arguments && Only(fs, cs[k].index) == Split(cs[k], parts[k]))
    && (forall i :: (forall k :: 0 <= k < |cs| ==> cs[k].index != i) ==> Only(fs, i) == [])
  }

  /** The slot a call should end up in: its own id, or a fresh one when it has none. */
  function Restored<J>(o: Oracle<J>, c: Source): Slot {
    Slot(Or(c.id, o.newId(c.index)), c.name, c.arguments)
  }

  function Indices(cs: seq<Source>): seq<int> {
    seq(|cs|, k requires 0 <= k < |cs| => cs[k].index)
  }

  lemma SlotRestored<J>(o: Oracle<J>, fs: seq<Fragment>, cs: seq<Source>, parts: seq<seq<string>>, k: nat)
    requires Interleaves(fs, cs, parts) && k < |cs|
    ensures cs[k].index in PutAll(o, fs)
    ensures PutAll(o, fs)[cs[k].index] == Restored(o, cs[k])
  {
    SlotFromOwn(o, fs, cs[k].index);
    SplitRejoins(o, cs[k], parts[k]);
  }

  /** The call as it was sent: under its own id, or a fresh one if it had none, with its name and its
      arguments, decoded where they are JSON; no arguments are an empty object. */
  predicate ComesBack<J(==)>(o: Oracle<J>, c: Source, call: ToolCall<J>) {
    && call.id == (if c.id == "" then o.newId(c.index) else c.id)
    && call.name == c.name
    && var raw := if c.arguments == "" then "{}" else c.arguments;
       match o.decode(raw) case Some(value) => call.input == Decoded(value) case None => call.input == Raw(raw)
  }

  lemma FinishedBack<J>(o: Oracle<J>, c: Source)
    ensures ComesBack(o, c, Finished(o, Restored(o, c)))
  {
  }

  /** However the calls' fragments are cut and interleaved, the original calls come back in index order. */
  lemma Reassembles<J>(o: Oracle<J>, fs: seq<Fragment>, cs: seq<Source>, parts: seq<seq<string>>)
    requires Interleaves(fs, cs, parts) && Ascending(Indices(cs))
    ensures |Calls(o, fs)| == |cs| && forall k :: 0 <= k < |cs| ==> ComesBack(o, cs[k], Calls(o, fs)[k])
  {
    var slots, indices := PutAll(o, fs), Indices(cs);
    forall k | 0 <= k < |cs|
      ensures indices[k] in slots && slots[indices[k]] == Restored(o, cs[k])
    {
      SlotRestored(o, fs, cs, parts, k);
      FinishedBack(o, cs[k]);
    }
    forall i | i in slots ensures i in Members(indices) {
      SlotFromOwn(o, fs, i);
      var k :| 0 <= k < |cs| && cs[k].index == i;
      assert indices[k] == i;
    }
    assert slots.Keys == Members(indices);
    SortedAscends(slots.Keys);
    AscendingUnique(Sorted(slots.Keys), indices);
    CallsAt(o, fs);
  }

  lemma CallsAt<J>(o: Oracle<J>, fs: seq<Fragment>)
    ensures var slots := PutAll(o, fs);
            var keys := Sorted(slots.Keys);
            && |Calls(o, fs)| == |keys|
            && forall k :: 0 <= k < |keys| ==> keys[k] in slots && Calls(o, fs)[k] == Finished(o, slots[keys[k]])
  {
    KeysIn(PutAll(o, fs));
  }
}
