/**
 What parsing a provider reply yields, field by field: the blocks in order, and for every id the call that
 counts.
 */
module ReplyParsing {
  import opened Filters
  import opened Messages
  import opened Options
  import opened ToolStage

  predicate IsShown(raw: RawBlock) { !raw.RawIgnored? }

  /** The id a tool_use block goes by: its own, or the fresh one where it has none or an empty one. */
  function UseIdOf(raw: RawBlock): string
    requires raw.RawToolUse?
  {
    match raw.id
    case None => raw.freshId
    case Some(id) => if id == "" then raw.freshId else id
  }

  /** `b` records the raw block: the same text, or the same name and input under the block's id. */
  predicate Records(raw: RawBlock, b: Block) {
    match raw
    case RawText(text) => b == TextBlock(text)
    case RawToolUse(_, _, name, input) => b == ToolUse(Some(UseIdOf(raw)), name, input)
    case RawIgnored => false
  }

  /** A list of blocks is recorded block by block in order; only ignored ones are left out. */
  lemma {:induction false} BlocksRecorded(bs: seq<RawBlock>)
    ensures var shown, blocks := Filter(IsShown, bs), ParseList(bs).blocks;
            |blocks| == |shown| && forall i :: 0 <= i < |shown| ==> Records(shown[i], blocks[i])
  {
    if bs != [] {
      BlocksRecorded(bs[..|bs| - 1]);
    }
  }

  // ---------------------------------------------------------------- which call counts

  predicate IsUse(raw: RawBlock, c: Call) {
    raw.RawToolUse? && UseIdOf(raw) == c.id && raw.name == c.name && raw.input == c.input
  }

  predicate Reuses(raw: RawBlock, id: string) {
    raw.RawToolUse? && UseIdOf(raw) == id
  }

  /** `c` is the last tool_use block with its id. */
  ghost predicate LastUse(bs: seq<RawBlock>, c: Call) {
    exists i :: 0 <= i < |bs| && IsUse(bs[i], c) && forall j :: i < j < |bs| ==> !Reuses(bs[j], c.id)
  }

  /** `c` is the first declared call with its id. */
  ghost predicate FirstDeclared(declared: seq<Call>, c: Call) {
    exists i :: 0 <= i < |declared| && declared[i] == c && forall j :: 0 <= j < i ==> declared[j].id != c.id
  }

  /** The ids of the tool_use blocks, in order. */
  function UseIdsOf(bs: seq<RawBlock>): seq<string> {
    if bs == [] then []
    else UseIdsOf(bs[..|bs| - 1]) + if bs[|bs| - 1].RawToolUse? then [UseIdOf(bs[|bs| - 1])] else []
  }

  /** The first occurrence of everything in `s`, in order. */
  function Firsts(s: seq<string>): seq<string> {
    if s == [] then []
    else
      var past := Firsts(s[..|s| - 1]);
      if s[|s| - 1] in past then past else past + [s[|s| - 1]]
  }

  lemma LastUseSnoc(bs: seq<RawBlock>, c: Call)
    requires bs != []
    ensures var n := |bs| - 1;
            LastUse(bs, c) <==> IsUse(bs[n], c) || (LastUse(bs[..n], c) && !Reuses(bs[n], c.id))
  {
    var n := |bs| - 1;
    if LastUse(bs[..n], c) && !Reuses(bs[n], c.id) {
      var i :| 0 <= i < n && IsUse(bs[..n][i], c) && forall j :: i < j < n ==> !Reuses(bs[..n][j], c.id);
      assert IsUse(bs[i], c) && forall j :: i < j < |bs| ==> j == n || bs[j] == bs[..n][j];
    }
    if LastUse(bs, c) && !IsUse(bs[n], c) {
      var i :| 0 <= i < |bs| && IsUse(bs[i], c) && forall j :: i < j < |bs| ==> !Reuses(bs[j], c.id);
      assert i < n && IsUse(bs[..n][i], c) && forall j :: i < j < n ==> bs[..n][j] == bs[j];
      assert !Reuses(bs[n], c.id);
    }
  }

  lemma PutIds(calls: seq<Call>, c: Call)
    ensures CallIds(PutCall(calls, c)) == if c.id in CallIds(calls) then CallIds(calls) else CallIds(calls) + [c.id]
    ensures forall id :: id in CallIds(calls) <==> HasCall(calls, id)
  {
    var i := IndexOf(calls, c.id);
    forall id | HasCall(calls, id) ensures id in CallIds(calls) {
      var k :| 0 <= k < |calls| && calls[k].id == id;
      assert CallIds(calls)[k] == id;
    }
    if i < |calls| {
      assert CallIds(calls)[i] == c.id;
    }
  }

  lemma PutMembers(calls: seq<Call>, c: Call, x: Call)
    requires forall i, j :: 0 <= i < j < |calls| ==> calls[i].id != calls[j].id
    ensures x in PutCall(calls, c) <==> x == c || (x in calls && x.id != c.id)
  {
    var i, r := IndexOf(calls, c.id), PutCall(calls, c);
    assert r[i] == c;
    if x in calls && x.id != c.id {
      var k :| 0 <= k < |calls| && calls[k] == x;
      assert r[k] == x;
    }
  }

  lemma {:induction false} ListIds(bs: seq<RawBlock>)
    ensures CallIds(ParseList(bs).calls) == Firsts(UseIdsOf(bs))
  {
    if bs != [] {
      var n := |bs| - 1;
      ListIds(bs[..n]);
      var ids := UseIdsOf(bs[..n]);
      if bs[n].RawToolUse? {
        PutIds(ParseList(bs[..n]).calls, ToCall(bs[n]));
        assert (ids + [UseIdOf(bs[n])])[..|ids|] == ids;
      } else {
        assert ids + [] == ids;
      }
    }
  }

  lemma {:induction false} ListCalls(bs: seq<RawBlock>, c: Call)
    ensures c in ParseList(bs).calls <==> LastUse(bs, c)
  {
    if bs != [] {
      var n := |bs| - 1;
      ListCalls(bs[..n], c);
      LastUseSnoc(bs, c);
      ParseListWell(bs[..n]);
      if bs[n].RawToolUse? {
        PutMembers(ParseList(bs[..n]).calls, ToCall(bs[n]), c);
      }
    }
  }

  // ---------------------------------------------------------------- declared calls

  ghost predicate KnownId(p: Parsed, declared: seq<Call>, id: string) {
    HasCall(p.calls, id) || exists j :: 0 <= j < |declared| && declared[j].id == id
  }

  /** A call of the content, or the first declared one with an id that the content does not have. */
  ghost predicate Counts(p: Parsed, declared: seq<Call>, c: Call) {
    c in p.calls || (FirstDeclared(declared, c) && !HasCall(p.calls, c.id))
  }

  /** `r` is `p` with more calls behind it, each with its block. */
  ghost predicate Extends(p: Parsed, r: Parsed) {
    && p.calls <= r.calls && p.blocks <= r.blocks && |r.calls| - |p.calls| == |r.blocks| - |p.blocks|
    && forall k :: |p.calls| <= k < |r.calls| ==>
         var c := r.calls[k];
         r.blocks[k - |p.calls| + |p.blocks|] == ToolUse(Some(c.id), c.name, c.input)
  }

  lemma FirstDeclaredSnoc(declared: seq<Call>, c: Call)
    requires declared != []
    ensures var n := |declared| - 1;
            FirstDeclared(declared, c) <==>
              FirstDeclared(declared[..n], c) || (declared[n] == c && forall j :: 0 <= j < n ==> declared[j].id != c.id)
  {
    var n := |declared| - 1;
    if FirstDeclared(declared[..n], c) {
      var i :| 0 <= i < n && declared[..n][i] == c && forall j :: 0 <= j < i ==> declared[..n][j].id != c.id;
      assert declared[i] == c && forall j :: 0 <= j < i ==> declared[j] == declared[..n][j];
    }
    if FirstDeclared(declared, c) {
      var i :| 0 <= i < |declared| && declared[i] == c && forall j :: 0 <= j < i ==> declared[j].id != c.id;
      if i < n {
        assert declared[..n][i] == c && forall j :: 0 <= j < i ==> declared[..n][j] == declared[j];
      }
    }
  }

  lemma KnownSnoc(p: Parsed, declared: seq<Call>, id: string)
    requires declared != []
    ensures var n := |declared| - 1;
            KnownId(p, declared, id) <==> KnownId(p, declared[..n], id) || declared[n].id == id
  {
    var n := |declared| - 1;
    assert declared == declared[..n] + [declared[n]];
    if j :| 0 <= j < n && declared[j].id == id {
      assert declared[..n][j].id == id;
    }
    if declared[n].id == id {
      assert KnownId(p, declared, id);
    }
  }

  lemma CountsSnoc(p: Parsed, declared: seq<Call>, c: Call)
    requires declared != []
    ensures var n := |declared| - 1;
            Counts(p, declared, c) <==>
              Counts(p, declared[..n], c) || (c == declared[n] && !KnownId(p, declared[..n], c.id))
  {
    var n := |declared| - 1;
    FirstDeclaredSnoc(declared, c);
    assert (forall j :: 0 <= j < n ==> declared[j].id != c.id) <==> (forall j :: 0 <= j < n ==> declared[..n][j].id != c.id);
  }

  lemma HasCallSnoc(calls: seq<Call>, d: Call, id: string)
    ensures HasCall(calls + [d], id) <==> HasCall(calls, id) || d.id == id
  {
    var more := calls + [d];
    assert more[|calls|] == d;
    if i :| 0 <= i < |calls| && calls[i].id == id {
      assert more[i].id == id;
    }
  }

  lemma {:induction false} DeclaredKnown(p: Parsed, declared: seq<Call>, id: string)
    ensures HasCall(Declare(p, declared).calls, id) <==> KnownId(p, declared, id)
  {
    if declared != [] {
      var n := |declared| - 1;
      DeclaredKnown(p, declared[..n], id);
      DeclaredKnown(p, declared[..n], declared[n].id);
      KnownSnoc(p, declared, id);
      HasCallSnoc(Declare(p, declared[..n]).calls, declared[n], id);
    }
  }

  lemma {:induction false} DeclaredCounts(p: Parsed, declared: seq<Call>, c: Call)
    ensures c in Declare(p, declared).calls <==> Counts(p, declared, c)
  {
    if declared != [] {
      var n := |declared| - 1;
      DeclaredCounts(p, declared[..n], c);
      DeclaredKnown(p, declared[..n], declared[n].id);
      CountsSnoc(p, declared, c);
    }
  }

  lemma {:induction false} DeclaredExtends(p: Parsed, declared: seq<Call>)
    ensures Extends(p, Declare(p, declared))
  {
    if declared != [] {
      DeclaredExtends(p, declared[..|declared| - 1]);
    }
  }

  // ---------------------------------------------------------------- the whole reply

  function ListedBlocks(content: RawContent): seq<RawBlock> {
    if content.RawList? then content.blocks else []
  }

  /** A parsed reply: the recorded blocks, or the text of a reply that is one; for every id the last tool_use
      block with it, in the order in which the ids first came up; then, where the id is new, the first
      declared call with it. */
  lemma ParseSays(content: RawContent, declared: seq<Call>)
    ensures var bs, p := ListedBlocks(content), Parse(content, declared);
            var listed := ParseContent(content);
            && Extends(listed, p) && (forall c :: c in p.calls <==> Counts(listed, declared, c))
            && CallIds(listed.calls) == Firsts(UseIdsOf(bs))
            && (forall c :: c in listed.calls <==> LastUse(bs, c))
            && (content.RawString? ==> listed.blocks == if content.s == "" then [] else [TextBlock(content.s)])
            && (content.RawOther? ==> listed.blocks == [])
            && (content.RawList? ==>
                  var shown := Filter(IsShown, bs);
                  |listed.blocks| == |shown| && forall i :: 0 <= i < |shown| ==> Records(shown[i], listed.blocks[i]))
  {
    var bs := ListedBlocks(content);
    DeclaredExtends(ParseContent(content), declared);
    forall c ensures c in Parse(content, declared).calls <==> Counts(ParseContent(content), declared, c) {
      DeclaredCounts(ParseContent(content), declared, c);
    }
    ListIds(bs);
    forall c ensures c in ParseList(bs).calls <==> LastUse(bs, c) {
      ListCalls(bs, c);
    }
    BlocksRecorded(bs);
  }
}
