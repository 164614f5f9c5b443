/**
 Conversation messages and the normaliser that runs before every provider call
 (forgepilot_sdk/utils/messages.py).
 */
module Messages {
  import opened Filters
  import opened LocalPasses
  import opened Options

  datatype Role = User | Assistant | System | Tool

  /** One element of a list content. `NonDict` stands for list elements that are not dicts;
      every other constructor is a dict, told apart by its "type" entry. */
  datatype Block =
    | TextBlock(text: string)
    | ToolUse(useId: Option<string>, name: string, input: string)
    | ToolResult(forId: Option<string>, output: string, isError: bool)
    | Image
    | OtherDict(tag: string)
    | NonDict(shown: string)
  {
    predicate IsDict() { !NonDict? }
  }

  /** `Other` is any content that is neither a string, a list nor a dict; it carries its str(). */
  datatype Content =
    | Text(s: string)
    | Blocks(blocks: seq<Block>)
    | Dict(block: Block)
    | Other(shown: string)

  datatype Message = Message(role: Role, content: Content)

  // ---------------------------------------------------------------- block helpers

  predicate IsDict(b: Block) { b.IsDict() }

  predicate IsResult(b: Block) { b.ToolResult? }

  predicate IsPlain(b: Block) { b.IsDict() && !b.ToolResult? }

  predicate IsOther(m: Message) { m.role != User }

  predicate IsUser(m: Message) { m.role == User }

  /** `_to_blocks`: any content as a list of dict blocks. */
  function ToBlocks(c: Content): seq<Block> {
    match c
    case Text(s) => [TextBlock(s)]
    case Blocks(bs) => Filter(IsDict, bs)
    case Dict(b) => [b]
    case Other(s) => [TextBlock(s)]
  }

  /** str() of a tool_use_id that may be missing. */
  function IdText(id: Option<string>): string {
    match id
    case None => "None"
    case Some(s) => s
  }

  /** The ids a tool_result may answer: a missing or empty tool_use id does not count. */
  function UseIds(c: Content): set<string> {
    if c.Blocks? then set b | b in c.blocks && b.ToolUse? && b.useId.Some? && b.useId.value != "" :: b.useId.value
    else {}
  }

  function Results(c: Content): seq<Block> {
    Filter(IsResult, ToBlocks(c))
  }

  /** The dict blocks of a message that are not tool results. */
  function Plain(c: Content): seq<Block> {
    Filter(IsPlain, ToBlocks(c))
  }

  // ---------------------------------------------------------------- the two passes

  function JoinUsers(a: Message, b: Message): Message {
    Message(User, Blocks(ToBlocks(a.content) + ToBlocks(b.content)))
  }

  /** The merging loop: a user message right behind another is joined to it. */
  function Merge(ms: seq<Message>): seq<Message> {
    Join(IsUser, JoinUsers, ms)
  }

  /** The pairing test for one block behind an assistant message whose tool_use ids are `ids`. */
  function Pairs(ids: set<string>): Block -> bool {
    (b: Block) => b.IsDict() && (b.ToolResult? ==> IdText(b.forId) in ids)
  }

  function AnswerTo(ids: set<string>): Block -> bool {
    (b: Block) => b.ToolResult? && IdText(b.forId) in ids
  }

  /** The blocks of a user message that survive behind the message `prev`. */
  function Valid(prev: Content, bs: seq<Block>): seq<Block> {
    Filter(Pairs(UseIds(prev)), bs)
  }

  predicate Screened(prev: Message, m: Message) {
    && m.role == User && m.content.Blocks?
    && (exists b :: b in m.content.blocks && b.ToolResult?)
    && prev.role == Assistant && prev.content.Blocks?
  }

  /** What the pairing pass puts in place of `m` when `prev` is the last message kept so far. */
  function FixOne(prev: Message, m: Message): seq<Message> {
    if Screened(prev, m) then
      var valid := Valid(prev.content, m.content.blocks);
      if valid == [] then [] else [Message(m.role, Blocks(valid))]
    else [m]
  }

  /** The pairing loop. */
  function Fix(ms: seq<Message>): seq<Message> {
    Pass(FixOne, ms)
  }

  function Normalize(ms: seq<Message>): seq<Message> {
    Fix(Merge(ms))
  }

  // ---------------------------------------------------------------- the loops of the source

  /** The inner loop of the pairing pass. */
  method KeepValid(prev: Content, blocks: seq<Block>) returns (valid: seq<Block>)
    ensures valid == Valid(prev, blocks)
  {
    var toolUseIds := UseIds(prev);
    valid := [];
    for k := 0 to |blocks|
      invariant valid == Valid(prev, blocks[..k])
    {
      var block := blocks[k];
      assert blocks[..k + 1][..k] == blocks[..k];
      if !block.IsDict() {
        continue;
      }
      if block.ToolResult? {
        if IdText(block.forId) in toolUseIds {
          valid := valid + [block];
        }
      } else {
        valid := valid + [block];
      }
    }
    assert blocks[..|blocks|] == blocks;
  }

  lemma ResultsPresent(bs: seq<Block>)
    ensures (exists b :: b in bs && b.ToolResult?) == (Filter(IsResult, bs) != [])
  {
    FilterMembers(IsResult, bs);
    if Filter(IsResult, bs) != [] {
      assert Filter(IsResult, bs)[0] in bs;
    }
  }

  /** One step of the pairing loop, in terms of what the loop looks at. */
  lemma FixStepIs(fixed: seq<Message>, m: Message)
    requires fixed != []
    ensures var prev := fixed[|fixed| - 1];
            PassStep(FixOne, fixed, m) ==
            if m.role == User && m.content.Blocks? && Filter(IsResult, m.content.blocks) != []
               && prev.role == Assistant && prev.content.Blocks?
            then fixed + (if Valid(prev.content, m.content.blocks) == [] then [] else [Message(m.role, Blocks(Valid(prev.content, m.content.blocks)))])
            else fixed + [m]
  {
    if m.content.Blocks? {
      ResultsPresent(m.content.blocks);
    }
  }

  method FixToolResultPairing(messages: seq<Message>) returns (fixed: seq<Message>)
    ensures fixed == Fix(messages)
  {
    fixed := [];
    for i := 0 to |messages|
      invariant fixed == Fix(messages[..i])
    {
      var message := messages[i];
      PassTake(FixOne, messages, i);
      if fixed != [] {
        FixStepIs(fixed, message);
      }
      if message.role == User && message.content.Blocks? && fixed != [] {
        var toolResults := Filter(IsResult, message.content.blocks);
        var prev := fixed[|fixed| - 1];
        if toolResults != [] && prev.role == Assistant && prev.content.Blocks? {
          var valid := KeepValid(prev.content, message.content.blocks);
          if valid != [] {
            fixed := fixed + [Message(message.role, Blocks(valid))];
          }
          continue;
        }
      }
      fixed := fixed + [message];
    }
    assert messages[..|messages|] == messages;
  }

  method NormalizeMessagesForApi(messages: seq<Message>) returns (result: seq<Message>)
    ensures result == Normalize(messages)
  {
    var normalized: seq<Message> := [];
    for i := 0 to |messages|
      invariant normalized == Merge(messages[..i])
    {
      var message := messages[i];
      JoinTake(IsUser, JoinUsers, messages, i);
      if normalized != [] && normalized[|normalized| - 1].role == message.role && message.role == User {
        var last := normalized[|normalized| - 1];
        var merged := ToBlocks(last.content) + ToBlocks(message.content);
        normalized := normalized[..|normalized| - 1] + [Message(User, Blocks(merged))];
        continue;
      }
      normalized := normalized + [message];
    }
    assert messages[..|messages|] == messages;
    result := FixToolResultPairing(normalized);
  }

  // ---------------------------------------------------------------- shape of the result

  ghost predicate NoAdjacentUsers(ms: seq<Message>) {
    forall i :: 0 < i < |ms| ==> !(ms[i - 1].role == User && ms[i].role == User)
  }

  lemma MergeSeparates(ms: seq<Message>)
    ensures NoAdjacentUsers(Merge(ms))
  {
    JoinSeparates(IsUser, JoinUsers, ms);
    SeparatedPairs(IsUser, Merge(ms));
  }

  lemma MergeOfSeparated(ms: seq<Message>)
    requires NoAdjacentUsers(ms)
    ensures Merge(ms) == ms
  {
    SeparatedPairs(IsUser, ms);
    JoinOfSeparated(IsUser, JoinUsers, ms);
  }

  /** The pairing pass touches user messages only, and keeps them user messages. */
  lemma FixTame()
    ensures Tame(FixOne, IsUser)
  {
  }

  /** With no two users side by side, the pairing pass decides each message from its own predecessor. */
  lemma FixIsLocal(ms: seq<Message>)
    requires ms != [] && NoAdjacentUsers(ms)
    ensures var n := |ms| - 1;
            && (n == 0 ==> Fix(ms) == [ms[0]])
            && (n > 0 ==> Fix(ms) == Fix(ms[..n]) + FixOne(ms[n - 1], ms[n]))
    ensures ms[|ms| - 1].role != User ==> Fix(ms) != [] && Fix(ms)[|Fix(ms)| - 1] == ms[|ms| - 1]
    ensures Fix(ms) != []
  {
    FixTame();
    PassLast(FixOne, IsUser, ms);
    if |ms| > 1 {
      PassIsLocal(FixOne, IsUser, ms);
    } else {
      assert ms == [ms[0]] && ms[..0] == [];
    }
  }

  /** Both passes leave every message that is not a user message alone, in order. */
  lemma {:induction false} OthersKept(ms: seq<Message>)
    ensures Filter(IsOther, Normalize(ms)) == Filter(IsOther, ms)
  {
    MergeKeepsOthers(ms);
    FixKeepsOthers(Merge(ms));
  }

  lemma {:induction false} MergeKeepsOthers(ms: seq<Message>)
    ensures Filter(IsOther, Merge(ms)) == Filter(IsOther, ms)
  {
    if ms != [] {
      MergeKeepsOthers(ms[..|ms| - 1]);
    }
  }

  lemma {:induction false} FixKeepsOthers(ms: seq<Message>)
    ensures Filter(IsOther, Fix(ms)) == Filter(IsOther, ms)
  {
    if ms != [] {
      var n := |ms| - 1;
      FixKeepsOthers(ms[..n]);
      var fixed := Fix(ms[..n]);
      var added := if fixed == [] then [ms[n]] else FixOne(fixed[|fixed| - 1], ms[n]);
      FilterConcat(IsOther, fixed, added);
      assert Fix(ms) == fixed + added;
      if added != [] {
        assert added == [added[0]] && added[0].role == ms[n].role;
        assert added[..0] == [];
      }
    }
  }

  // ---------------------------------------------------------------- idempotence and pairing

  /** The pairing pass would keep every message of `ms` exactly as it is. */
  predicate Stable(ms: seq<Message>) {
    Chained(Settled, ms)
  }

  lemma StablePairs(ms: seq<Message>)
    ensures Stable(ms) <==> forall i :: 0 < i < |ms| ==> FixOne(ms[i - 1], ms[i]) == [ms[i]]
  {
    ChainedPairs(Settled, ms);
    assert forall i :: 0 < i < |ms| ==> (Settled(ms[i - 1], ms[i]) <==> FixOne(ms[i - 1], ms[i]) == [ms[i]]);
  }

  predicate Settled(prev: Message, m: Message) { FixOne(prev, m) == [m] }

  predicate Anything(prev: Message, m: Message) { true }

  lemma FixOneSettles(prev: Message, m: Message)
    ensures FixOne(prev, m) != [] ==> Settled(prev, FixOne(prev, m)[0])
  {
    if Screened(prev, m) {
      FilterMembers(Pairs(UseIds(prev.content)), m.content.blocks);
      FilterAll(Pairs(UseIds(prev.content)), Valid(prev.content, m.content.blocks));
    }
  }

  lemma AllSettle()
    ensures forall p, x :: FixOne(p, x) != [] ==> Settled(p, FixOne(p, x)[0])
  {
    forall p, x ensures FixOne(p, x) != [] ==> Settled(p, FixOne(p, x)[0]) {
      FixOneSettles(p, x);
    }
  }

  lemma FixSettles(ms: seq<Message>)
    requires NoAdjacentUsers(ms)
    ensures NoAdjacentUsers(Fix(ms)) && Stable(Fix(ms))
  {
    FixTame();
    SeparatedPairs(IsUser, ms);
    ChainedPairs(Anything, ms);
    AllSettle();
    PassMakes(FixOne, IsUser, Settled, Anything, ms);
    SeparatedPairs(IsUser, Fix(ms));
  }

  /** Normalising twice is normalising once. */
  lemma NormalizeIdempotent(ms: seq<Message>)
    ensures Normalize(Normalize(ms)) == Normalize(ms)
  {
    MergeSeparates(ms);
    FixSettles(Merge(ms));
    MergeOfSeparated(Normalize(ms));
    StablePairs(Normalize(ms));
    PassOfSettled(FixOne, Normalize(ms));
  }

  /** In the block lists of user messages, every tool_result that follows a block-list assistant message
      answers one of its ids. */
  ghost predicate Matched(ms: seq<Message>) {
    forall i, b :: 0 < i < |ms| && ms[i].role == User && ms[i].content.Blocks?
      && ms[i - 1].role == Assistant && ms[i - 1].content.Blocks?
      && b in ms[i].content.blocks && b.ToolResult?
      ==> IdText(b.forId) in UseIds(ms[i - 1].content)
  }

  lemma NormalizeShape(ms: seq<Message>)
    ensures NoAdjacentUsers(Normalize(ms))
    ensures Matched(Normalize(ms))
  {
    MergeSeparates(ms);
    FixSettles(Merge(ms));
    StablePairs(Normalize(ms));
    var out := Normalize(ms);
    forall i, b | 0 < i < |out| && out[i].role == User && out[i].content.Blocks?
      && out[i - 1].role == Assistant && out[i - 1].content.Blocks?
      && b in out[i].content.blocks && b.ToolResult?
      ensures IdText(b.forId) in UseIds(out[i - 1].content)
    {
      assert Screened(out[i - 1], out[i]);
      assert FixOne(out[i - 1], out[i]) == [out[i]];
      FilterMembers(Pairs(UseIds(out[i - 1].content)), out[i].content.blocks);
      assert [out[i]][0].content.blocks == Valid(out[i - 1].content, out[i].content.blocks);
    }
  }

  // ---------------------------------------------------------------- exactly when every result is matched

  /** A user message behind a block-list assistant message. */
  predicate Follows(prev: Message, m: Message) {
    m.role == User && prev.role == Assistant && prev.content.Blocks?
  }

  predicate Behind(ms: seq<Message>, i: int) {
    0 < i < |ms| && Follows(ms[i - 1], ms[i])
  }

  /** Every tool result of `m` answers one of the ids of `prev`. */
  predicate AllAnswer(prev: Message, m: Message) {
    forall b :: b in Results(m.content) ==> AnswerTo(UseIds(prev.content))(b)
  }

  /** Every tool result behind a block-list assistant message answers one of its ids, however it is held. */
  ghost predicate Paired(ms: seq<Message>) {
    forall i :: Behind(ms, i) ==> AllAnswer(ms[i - 1], ms[i])
  }

  /** The content is one bare tool result, outside any list. */
  predicate Bare(m: Message) {
    m.content.Dict? && m.content.block.ToolResult?
  }

  /** A bare tool result that answers nothing in `prev`; the pairing pass looks into lists only. */
  predicate Stray(prev: Message, m: Message) {
    Follows(prev, m) && Bare(m) && IdText(m.content.block.forId) !in UseIds(prev.content)
  }

  /** The user message at `j` is a stray result and has no user message behind it to be merged with. */
  predicate StrayAt(ms: seq<Message>, j: int) {
    LoneAt(IsUser, Stray, ms, j)
  }

  lemma BareResults(m: Message)
    requires m.content.Dict?
    ensures Results(m.content) == if Bare(m) then [m.content.block] else []
  {
    FilterOne(IsResult, m.content.block);
  }

  lemma NoResults(m: Message)
    requires m.content.Text? || m.content.Other?
    ensures Results(m.content) == []
  {
    FilterOne(IsResult, ToBlocks(m.content)[0]);
  }

  lemma ListResults(bs: seq<Block>)
    ensures forall b :: b in Results(Blocks(bs)) <==> b in bs && b.ToolResult?
  {
    FilterMembers(IsDict, bs);
    FilterMembers(IsResult, ToBlocks(Blocks(bs)));
  }

  /** What the pass leaves of `m` answers `prev`, unless `m` is a stray result. */
  lemma FixOnePairs(prev: Message, m: Message)
    requires Follows(prev, m)
    ensures Stray(prev, m) ==> FixOne(prev, m) == [m]
    ensures FixOne(prev, m) != [] ==> (AllAnswer(prev, FixOne(prev, m)[0]) <==> !Stray(prev, m))
  {
    match m.content
    case Blocks(bs) =>
      FilterMembers(Pairs(UseIds(prev.content)), bs);
      ListResults(bs);
      ListResults(Valid(prev.content, bs));
    case Dict(_) =>
      BareResults(m);
      assert Bare(m) ==> m.content.block in Results(m.content);
    case _ => NoResults(m);
  }

  ghost predicate NoStrays(ms: seq<Message>) {
    forall j :: !StrayAt(ms, j)
  }

  predicate Fits(prev: Message, m: Message) { Follows(prev, m) ==> AllAnswer(prev, m) }

  predicate NotStray(prev: Message, m: Message) { !Stray(prev, m) }

  lemma FixedFits(prev: Message, m: Message)
    requires m.role == User
    ensures if FixOne(prev, m) == [] then NotStray(prev, m) else Fits(prev, FixOne(prev, m)[0]) == NotStray(prev, m)
  {
    if Follows(prev, m) {
      FixOnePairs(prev, m);
    }
  }

  lemma FixPairedIff(ms: seq<Message>)
    requires NoAdjacentUsers(ms)
    ensures Paired(Fix(ms)) <==> NoStrays(ms)
  {
    FixTame();
    SeparatedPairs(IsUser, ms);
    forall p: Message, x: Message | IsUser(x)
      ensures if FixOne(p, x) == [] then NotStray(p, x) else Fits(p, FixOne(p, x)[0]) == NotStray(p, x)
    {
      FixedFits(p, x);
    }
    PassMakes(FixOne, IsUser, Fits, NotStray, ms);
    PairedChained(Fix(ms));
    StraysChained(ms);
  }

  lemma PairedChained(ms: seq<Message>)
    ensures Paired(ms) <==> Chained(Fits, ms)
  {
    ChainedPairs(Fits, ms);
    if Paired(ms) {
      assert forall i :: 0 < i < |ms| ==> Behind(ms, i) || Fits(ms[i - 1], ms[i]);
    }
  }

  lemma StraysChained(ms: seq<Message>)
    requires NoAdjacentUsers(ms)
    ensures NoStrays(ms) <==> Chained(NotStray, ms)
  {
    ChainedPairs(NotStray, ms);
    if i :| 0 < i < |ms| && !NotStray(ms[i - 1], ms[i]) {
      assert StrayAt(ms, i);
    }
  }

  /** Every tool result sent behind a block-list assistant message is matched if and only if the
      transcript has no stray result that stands alone. */
  lemma NormalizePairsIff(ms: seq<Message>)
    ensures Paired(Normalize(ms)) <==> NoStrays(ms)
  {
    MergeSeparates(ms);
    FixPairedIff(Merge(ms));
    if j :| StrayAt(ms, j) {
      JoinKeepsLone(IsUser, JoinUsers, Stray, ms, j);
      assert StrayAt(Merge(ms), |Merge(ms[..j])|);
    }
    if p :| StrayAt(Merge(ms), p) {
      var j := JoinedLoneFrom(IsUser, JoinUsers, Stray, ms, p);
      assert StrayAt(ms, j);
    }
  }

  /** In what is sent, the one message whose results are not all matched is the stray result. */
  lemma UnmatchedIffStray(ms: seq<Message>, i: int)
    requires Behind(Normalize(ms), i)
    ensures AllAnswer(Normalize(ms)[i - 1], Normalize(ms)[i]) <==> !Stray(Normalize(ms)[i - 1], Normalize(ms)[i])
  {
    var out := Normalize(ms);
    MergeSeparates(ms);
    FixSettles(Merge(ms));
    StablePairs(out);
    FixOnePairs(out[i - 1], out[i]);
  }

  const STRAY: seq<Message> :=
    [Message(Assistant, Blocks([ToolUse(Some("a"), "t", "")])), Message(User, Dict(ToolResult(Some(""), "out", false)))]

  /** A bare result with an empty id that answers nothing is sent as it is. */
  lemma StraySent()
    ensures Normalize(STRAY) == STRAY && !Paired(Normalize(STRAY))
  {
    MergeOfSeparated(STRAY);
    PassOfSettled(FixOne, STRAY);
    assert StrayAt(STRAY, 1);
    NormalizePairsIff(STRAY);
  }

  // ---------------------------------------------------------------- what is kept

  datatype Kind = PlainKind | ResultKind

  function OfKind(kind: Kind, c: Content): seq<Block> {
    match kind case PlainKind => Plain(c) case ResultKind => Results(c)
  }

  function IfUser(kind: Kind, m: Message): seq<Block> {
    if m.role == User then OfKind(kind, m.content) else []
  }

  /** The dict blocks of one kind in the user messages, in transcript order. */
  function UserBlocks(kind: Kind, ms: seq<Message>): seq<Block> {
    if ms == [] then [] else UserBlocks(kind, ms[..|ms| - 1]) + IfUser(kind, ms[|ms| - 1])
  }

  lemma PlainOfMerged(a: Content, b: Content)
    ensures Plain(Blocks(ToBlocks(a) + ToBlocks(b))) == Plain(a) + Plain(b)
    ensures Results(Blocks(ToBlocks(a) + ToBlocks(b))) == Results(a) + Results(b)
  {
    var all := ToBlocks(a) + ToBlocks(b);
    FilterTwice(IsPlain, IsDict, IsPlain, all);
    FilterTwice(IsResult, IsDict, IsResult, all);
    FilterConcat(IsPlain, ToBlocks(a), ToBlocks(b));
    FilterConcat(IsResult, ToBlocks(a), ToBlocks(b));
  }

  /** The tool results among `bs` that answer one of `ids`. */
  function Answering(ids: set<string>, bs: seq<Block>): seq<Block> {
    Filter(AnswerTo(ids), bs)
  }

  lemma PlainOfValid(prev: Content, bs: seq<Block>)
    ensures Plain(Blocks(Valid(prev, bs))) == Plain(Blocks(bs))
    ensures Results(Blocks(Valid(prev, bs))) == Answering(UseIds(prev), Results(Blocks(bs)))
  {
    var ids := UseIds(prev);
    var valid := Valid(prev, bs);
    FilterMembers(Pairs(ids), bs);
    FilterAll(IsDict, valid);
    FilterTwice(IsPlain, Pairs(ids), IsPlain, bs);
    FilterTwice(IsPlain, IsDict, IsPlain, bs);
    FilterTwice(IsResult, Pairs(ids), AnswerTo(ids), bs);
    FilterTwice(IsResult, IsDict, IsResult, bs);
    FilterTwice(AnswerTo(ids), IsResult, AnswerTo(ids), bs);
  }

  lemma UserSnoc(kind: Kind, ms: seq<Message>, m: Message)
    ensures UserBlocks(kind, ms + [m]) == UserBlocks(kind, ms) + IfUser(kind, m)
  {
    assert (ms + [m])[..|ms|] == ms;
  }

  lemma MergeOneKeeps(kind: Kind, done: seq<Message>, m: Message)
    ensures UserBlocks(kind, JoinStep(IsUser, JoinUsers, done, m)) == UserBlocks(kind, done) + IfUser(kind, m)
  {
    if done != [] && done[|done| - 1].role == m.role == User {
      var front, last := done[..|done| - 1], done[|done| - 1];
      assert done == front + [last];
      PlainOfMerged(last.content, m.content);
      UserSnoc(kind, front, last);
      UserSnoc(kind, front, Message(User, Blocks(ToBlocks(last.content) + ToBlocks(m.content))));
    } else {
      UserSnoc(kind, done, m);
    }
  }

  /** Merging neither loses nor reorders a block. */
  lemma {:induction false} MergeKeepsBlocks(kind: Kind, ms: seq<Message>)
    ensures UserBlocks(kind, Merge(ms)) == UserBlocks(kind, ms)
  {
    if ms != [] {
      var n := |ms| - 1;
      MergeKeepsBlocks(kind, ms[..n]);
      MergeOneKeeps(kind, Merge(ms[..n]), ms[n]);
    }
  }

  /** What the pairing pass leaves of a message behind `prev`: of the tool results only those that answer it. */
  function Left(kind: Kind, prev: Message, m: Message): seq<Block> {
    if kind.ResultKind? && Screened(prev, m) then Answering(UseIds(prev.content), Results(m.content)) else IfUser(kind, m)
  }

  /** What it leaves of a whole list in which no two user messages are adjacent, group by group. */
  function LeftOf(kind: Kind, ms: seq<Message>): seq<Block> {
    if ms == [] then []
    else
      var n := |ms| - 1;
      LeftOf(kind, ms[..n]) + (if n == 0 then IfUser(kind, ms[0]) else Left(kind, ms[n - 1], ms[n]))
  }

  lemma EmptyContent(kind: Kind)
    ensures OfKind(kind, Blocks([])) == []
  {
  }

  lemma ScreenedLeaves(kind: Kind, prev: Message, m: Message)
    requires Screened(prev, m)
    ensures OfKind(kind, Blocks(Valid(prev.content, m.content.blocks))) == Left(kind, prev, m)
  {
    PlainOfValid(prev.content, m.content.blocks);
  }

  lemma FixOneLeaves(kind: Kind, prev: Message, m: Message)
    ensures |FixOne(prev, m)| <= 1
    ensures Left(kind, prev, m) == if FixOne(prev, m) == [] then [] else IfUser(kind, FixOne(prev, m)[0])
  {
    if Screened(prev, m) {
      ScreenedLeaves(kind, prev, m);
      EmptyContent(kind);
    }
  }

  lemma UserOptional(kind: Kind, ms: seq<Message>, added: seq<Message>)
    requires |added| <= 1
    ensures UserBlocks(kind, ms + added) == UserBlocks(kind, ms) + if added == [] then [] else IfUser(kind, added[0])
  {
    if added == [] {
      assert ms + added == ms;
    } else {
      assert added == [added[0]];
      UserSnoc(kind, ms, added[0]);
    }
  }

  lemma {:induction false} FixLeaves(kind: Kind, ms: seq<Message>)
    requires NoAdjacentUsers(ms)
    ensures UserBlocks(kind, Fix(ms)) == LeftOf(kind, ms)
  {
    if |ms| == 1 {
      FixIsLocal(ms);
    } else if |ms| > 1 {
      var n := |ms| - 1;
      FixLeaves(kind, ms[..n]);
      FixIsLocal(ms);
      FixOneLeaves(kind, ms[n - 1], ms[n]);
      UserOptional(kind, Fix(ms[..n]), FixOne(ms[n - 1], ms[n]));
    }
  }

  lemma {:induction false} OrdinaryAllLeft(ms: seq<Message>)
    ensures LeftOf(PlainKind, ms) == UserBlocks(PlainKind, ms)
  {
    if ms != [] {
      OrdinaryAllLeft(ms[..|ms| - 1]);
    }
  }

  /** No dict block of a user message other than a tool result is lost, added or reordered. */
  lemma NormalizeKeepsPlainBlocks(ms: seq<Message>)
    ensures UserBlocks(PlainKind, Normalize(ms)) == UserBlocks(PlainKind, ms)
  {
    MergeSeparates(ms);
    MergeKeepsBlocks(PlainKind, ms);
    FixLeaves(PlainKind, Merge(ms));
    OrdinaryAllLeft(Merge(ms));
  }

  /** The tool results sent are, in order, exactly those that each run of user messages keeps: of a block
      list behind a block-list assistant message the ones that answer it, and elsewhere - a bare result
      included - all of them. Before the pairing pass none is lost, added or reordered. */
  lemma NormalizeKeepsAnswers(ms: seq<Message>)
    ensures UserBlocks(ResultKind, Normalize(ms)) == LeftOf(ResultKind, Merge(ms))
    ensures UserBlocks(ResultKind, Merge(ms)) == UserBlocks(ResultKind, ms)
  {
    MergeSeparates(ms);
    MergeKeepsBlocks(ResultKind, ms);
    FixLeaves(ResultKind, Merge(ms));
  }

  // ---------------------------------------------------------------- the fate of tool results

  /** The tool results of the user message at `j`, which opens a run of user messages, that the
      normaliser lets through: those with a known id when a block-list assistant message precedes,
      all of them otherwise. */
  function Survivors(ms: seq<Message>, j: nat): seq<Block>
    requires j < |ms|
  {
    var results := Results(ms[j].content);
    if j > 0 then Spared(ms[j - 1], results) else results
  }

  /** The tool results that the pairing test spares behind `prev`. */
  function Spared(prev: Message, results: seq<Block>): seq<Block> {
    if prev.content.Blocks? then Answering(UseIds(prev.content), results) else results
  }

  lemma PrefixGrows<T>(a: seq<T>, b: seq<T>, c: seq<T>)
    requires a <= b
    ensures a <= b + c
  {
  }

  /** `b` starts with the results of `a`, and is a list if `a` is one. */
  predicate StartsWith(a: Message, b: Message) {
    Results(a.content) <= Results(b.content) && (a.content.Blocks? ==> b.content.Blocks?)
  }

  /** A later user message only adds to the end of the last group. */
  lemma JoinedStartsWith()
    ensures Heads(JoinUsers, StartsWith)
  {
    forall a: Message, b: Message, c: Message | StartsWith(a, b) ensures StartsWith(a, JoinUsers(b, c)) {
      PlainOfMerged(b.content, c.content);
      PrefixGrows(Results(a.content), Results(b.content), Results(c.content));
    }
  }

  /** Where the message opened at `j` is sent. */
  function PlaceOf(ms: seq<Message>, j: nat): nat
    requires j <= |ms|
  {
    |Normalize(ms[..j])|
  }

  /** At its place stands, right behind the assistant message, a user message headed by the survivors. */
  ghost predicate SentAt(ms: seq<Message>, j: nat, out: seq<Message>, survivors: seq<Block>)
    requires j < |ms|
  {
    var q := PlaceOf(ms, j);
    && q < |out| && out[q].role == User && survivors <= Results(out[q].content)
    && (ms[j].content.Blocks? ==> out[q].content.Blocks?)
    && (j > 0 ==> 0 < q && out[q - 1] == ms[j - 1])
  }

  /** The surviving results stay together, in order, at the head of the user message that is sent right
      behind the assistant message they answer. */
  lemma ResultsSurvive(ms: seq<Message>, j: nat)
    requires j < |ms| && ms[j].role == User
    requires j > 0 ==> ms[j - 1].role == Assistant
    requires Survivors(ms, j) != []
    ensures SentAt(ms, j, Normalize(ms), Survivors(ms, j))
  {
    if j > 0 {
      LaterSurvive(ms, j);
    } else {
      GroupOpens(ms, 0);
      FirstSent(Merge(ms));
    }
  }

  lemma LaterSurvive(ms: seq<Message>, j: nat)
    requires 0 < j < |ms| && ms[j].role == User && ms[j - 1].role == Assistant
    requires Survivors(ms, j) != []
    ensures SentAt(ms, j, Normalize(ms), Survivors(ms, j))
  {
    GroupOpens(ms, j);
    GroupSent(Merge(ms), Merge(ms[..j]), ms[j]);
  }

  /** The user message at `j` opens a group of the merged list, behind its predecessor. */
  lemma GroupOpens(ms: seq<Message>, j: nat)
    requires j < |ms| && ms[j].role == User && (j > 0 ==> ms[j - 1].role == Assistant)
    ensures var merged, p := Merge(ms), |Merge(ms[..j])|;
            && p < |merged| && merged[..p] == Merge(ms[..j]) && merged[p].role == User && StartsWith(ms[j], merged[p])
            && (if j > 0 then 0 < p && merged[p - 1] == ms[j - 1] else p == 0)
  {
    var merged, front := Merge(ms), Merge(ms[..j]);
    JoinedStartsWith();
    var tail := JoinPlaces(IsUser, JoinUsers, StartsWith, ms, j);
    JoinLast(IsUser, JoinUsers, ms[..j]);
    assert merged[|front|] == tail[0];
    if j > 0 {
      assert ms[..j][j - 1] == ms[j - 1] == front[|front| - 1];
    }
  }

  lemma FirstSent(merged: seq<Message>)
    requires merged != []
    ensures Fix(merged) != [] && Fix(merged)[0] == merged[0] && Fix(merged[..0]) == []
  {
    FixTame();
    PassKeepsFirst(FixOne, IsUser, merged);
  }

  /** What is sent of a group of user messages that opens with `first`. */
  lemma GroupSent(merged: seq<Message>, front: seq<Message>, first: Message)
    requires var p := |front|;
             && 0 < p < |merged| && front == merged[..p] && merged[p - 1].role == Assistant && merged[p].role == User
             && StartsWith(first, merged[p]) && Spared(merged[p - 1], Results(first.content)) != []
    ensures var p, q, out := |front|, |Fix(front)|, Fix(merged);
            && 0 < q < |out| && out[q - 1] == merged[p - 1] && out[q].role == User
            && Spared(merged[p - 1], Results(first.content)) <= Results(out[q].content)
            && (first.content.Blocks? ==> out[q].content.Blocks?)
  {
    var p := |front|;
    FixTame();
    PassPlaces(FixOne, IsUser, merged, p);
    var out := SurvivorsKept(merged[p - 1], merged[p], first);
  }

  /** Different stages are sent in different messages, in transcript order. */
  lemma PlacesAscend(ms: seq<Message>, i: nat, j: nat)
    requires i < j <= |ms| && ms[i].role == User && (i > 0 ==> ms[i - 1].role == Assistant)
    requires Survivors(ms, i) != []
    ensures PlaceOf(ms, i) < PlaceOf(ms, j)
  {
    assert ms[..j][..i] == ms[..i];
    ResultsSurvive(ms[..j], i);
  }

  /** What the pairing pass keeps of a user message that starts with the results of `first`. */
  lemma SurvivorsKept(prev: Message, m: Message, first: Message) returns (out: Message)
    requires prev.role == Assistant && m.role == User && StartsWith(first, m)
    requires Spared(prev, Results(first.content)) != []
    ensures FixOne(prev, m) == [out] && out.role == User && (m.content.Blocks? ==> out.content.Blocks?)
    ensures Spared(prev, Results(first.content)) <= Results(out.content)
  {
    if !prev.content.Blocks? {
      out := m;
    } else {
      var ids, some, all := UseIds(prev.content), Results(first.content), Results(m.content);
      FilterConcat(AnswerTo(ids), some, all[|some|..]);
      assert some + all[|some|..] == all;
      if Screened(prev, m) {
        PlainOfValid(prev.content, m.content.blocks);
        assert Results(Blocks([])) == [];
        out := FixOne(prev, m)[0];
      } else {
        out := m;
        UnscreenedResults(m, ids);
      }
    }
  }

  /** A content that holds at most one tool result loses at most that one to the id test. */
  lemma UnscreenedResults(m: Message, ids: set<string>)
    requires m.content.Blocks? ==> forall b :: b in m.content.blocks ==> !b.ToolResult?
    ensures Answering(ids, Results(m.content)) <= Results(m.content)
  {
    match m.content
    case Blocks(bs) =>
      FilterTwice(IsResult, IsDict, IsResult, bs);
      FilterNone(IsResult, bs);
    case Dict(b) =>
      FilterOne(IsResult, b);
      FilterOne(AnswerTo(ids), b);
    case Text(t) =>
      FilterOne(IsResult, TextBlock(t));
    case Other(t) =>
      FilterOne(IsResult, TextBlock(t));
  }
}
