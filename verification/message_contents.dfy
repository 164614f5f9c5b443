/**
 What the user's messages say, read straight off their contents, and what of it reaches the provider.
 */
module MessageContents {
  import opened Filters
  import opened LocalPasses
  import opened Options
  import opened Messages

  /** A text, however it is held, or a block of another kind. */
  datatype Piece = Said(text: string) | Held(block: Block)

  function PieceOf(b: Block): seq<Piece> {
    match b
    case TextBlock(text) => [Said(text)]
    case NonDict(_) => []
    case _ => [Held(b)]
  }

  function PiecesOf(bs: seq<Block>): seq<Piece> {
    if bs == [] then [] else PiecesOf(bs[..|bs| - 1]) + PieceOf(bs[|bs| - 1])
  }

  /** A string or any other value says its text, a dictionary is one block, a list holds its dictionaries. */
  function Pieces(c: Content): seq<Piece> {
    match c
    case Text(s) => [Said(s)]
    case Other(shown) => [Said(shown)]
    case Dict(block) => PieceOf(block)
    case Blocks(blocks) => PiecesOf(blocks)
  }

  function IfUserSays(m: Message): seq<Piece> {
    if m.role == User then Pieces(m.content) else []
  }

  /** Everything the user messages say, in transcript order. */
  function UserSays(ms: seq<Message>): seq<Piece> {
    if ms == [] then [] else UserSays(ms[..|ms| - 1]) + IfUserSays(ms[|ms| - 1])
  }

  // ---------------------------------------------------------------- merging

  lemma {:induction false} PiecesConcat(a: seq<Block>, b: seq<Block>)
    ensures PiecesOf(a + b) == PiecesOf(a) + PiecesOf(b)
  {
    if b == [] {
      assert a + b == a;
    } else {
      var n := |b| - 1;
      assert (a + b)[..|a + b| - 1] == a + b[..n];
      PiecesConcat(a, b[..n]);
    }
  }

  lemma PiecesOne(b: Block)
    ensures PiecesOf([b]) == PieceOf(b)
  {
    assert [b][..0] == [];
  }

  lemma {:induction false} DictPieces(bs: seq<Block>)
    ensures PiecesOf(Filter(IsDict, bs)) == PiecesOf(bs)
  {
    if bs != [] {
      var n := |bs| - 1;
      DictPieces(bs[..n]);
      if IsDict(bs[n]) {
        PiecesConcat(Filter(IsDict, bs[..n]), [bs[n]]);
        PiecesOne(bs[n]);
      }
    }
  }

  /** Turning a content into a list of blocks changes nothing that it says. */
  lemma ToBlocksSays(c: Content)
    ensures PiecesOf(ToBlocks(c)) == Pieces(c)
  {
    match c
    case Text(s) => PiecesOne(TextBlock(s));
    case Other(s) => PiecesOne(TextBlock(s));
    case Dict(b) => PiecesOne(b);
    case Blocks(bs) => DictPieces(bs);
  }

  lemma JoinedSays(a: Message, b: Message)
    ensures Pieces(JoinUsers(a, b).content) == Pieces(a.content) + Pieces(b.content)
  {
    PiecesConcat(ToBlocks(a.content), ToBlocks(b.content));
    ToBlocksSays(a.content);
    ToBlocksSays(b.content);
  }

  lemma SaysSnoc(ms: seq<Message>, m: Message)
    ensures UserSays(ms + [m]) == UserSays(ms) + IfUserSays(m)
  {
    assert (ms + [m])[..|ms|] == ms;
  }

  lemma StepSays(done: seq<Message>, m: Message)
    ensures UserSays(JoinStep(IsUser, JoinUsers, done, m)) == UserSays(done) + IfUserSays(m)
  {
    if done != [] && IsUser(done[|done| - 1]) && IsUser(m) {
      var front, last := done[..|done| - 1], done[|done| - 1];
      assert done == front + [last];
      JoinedSays(last, m);
      SaysSnoc(front, last);
      SaysSnoc(front, JoinUsers(last, m));
    } else {
      SaysSnoc(done, m);
    }
  }

  /** Merging keeps everything the user messages say, in order. */
  lemma {:induction false} MergeSays(ms: seq<Message>)
    ensures UserSays(Merge(ms)) == UserSays(ms)
  {
    if ms != [] {
      var n := |ms| - 1;
      MergeSays(ms[..n]);
      StepSays(Merge(ms[..n]), ms[n]);
    }
  }

  // ---------------------------------------------------------------- pairing

  predicate NoResult(p: Piece) { p.Held? ==> !p.block.ToolResult? }

  /** What the pairing pass leaves standing behind the ids: everything but results that answer none of them. */
  function Stays(ids: set<string>): Piece -> bool {
    (p: Piece) => p.Held? && p.block.ToolResult? ==> IdText(p.block.forId) in ids
  }

  lemma {:induction false} ValidPieces(ids: set<string>, bs: seq<Block>)
    ensures PiecesOf(Filter(Pairs(ids), bs)) == Filter(Stays(ids), PiecesOf(bs))
  {
    if bs != [] {
      var n := |bs| - 1;
      ValidPieces(ids, bs[..n]);
      FilterConcat(Stays(ids), PiecesOf(bs[..n]), PieceOf(bs[n]));
      OneValid(ids, bs[n]);
      if Pairs(ids)(bs[n]) {
        PiecesConcat(Filter(Pairs(ids), bs[..n]), [bs[n]]);
        PiecesOne(bs[n]);
      }
    }
  }

  lemma OneValid(ids: set<string>, b: Block)
    ensures Filter(Stays(ids), PieceOf(b)) == if Pairs(ids)(b) then PieceOf(b) else []
  {
    match b
    case TextBlock(text) => FilterOne(Stays(ids), Piece.Said(text));
    case NonDict(_) =>
    case _ => FilterOne(Stays(ids), Held(b));
  }

  /** What is left of the user message `m` behind `prev`. */
  function LeftBehind(prev: Message, m: Message): seq<Piece> {
    if Screened(prev, m) then Filter(Stays(UseIds(prev.content)), Pieces(m.content)) else IfUserSays(m)
  }

  /** What is left of a list in which no two user messages are adjacent. */
  function LeftOver(ms: seq<Message>): seq<Piece> {
    if ms == [] then []
    else
      var n := |ms| - 1;
      LeftOver(ms[..n]) + if n == 0 then IfUserSays(ms[0]) else LeftBehind(ms[n - 1], ms[n])
  }

  lemma FixOneSays(prev: Message, m: Message)
    ensures |FixOne(prev, m)| <= 1
    ensures LeftBehind(prev, m) == if FixOne(prev, m) == [] then [] else IfUserSays(FixOne(prev, m)[0])
  {
    if Screened(prev, m) {
      ValidPieces(UseIds(prev.content), m.content.blocks);
    }
  }

  lemma OptionalSays(ms: seq<Message>, added: seq<Message>)
    requires |added| <= 1
    ensures UserSays(ms + added) == UserSays(ms) + if added == [] then [] else IfUserSays(added[0])
  {
    if added == [] {
      assert ms + added == ms;
    } else {
      assert added == [added[0]];
      SaysSnoc(ms, added[0]);
    }
  }

  lemma {:induction false} FixSays(ms: seq<Message>)
    requires NoAdjacentUsers(ms)
    ensures UserSays(Fix(ms)) == LeftOver(ms)
  {
    if |ms| == 1 {
      FixIsLocal(ms);
      assert ms[..0] == [] && [ms[0]][..0] == [];
    } else if |ms| > 1 {
      var n := |ms| - 1;
      FixSays(ms[..n]);
      FixIsLocal(ms);
      FixOneSays(ms[n - 1], ms[n]);
      OptionalSays(Fix(ms[..n]), FixOne(ms[n - 1], ms[n]));
    }
  }

  lemma LeftSays(prev: Message, m: Message)
    ensures Filter(NoResult, LeftBehind(prev, m)) == Filter(NoResult, IfUserSays(m))
  {
    if Screened(prev, m) {
      FilterTwice(NoResult, Stays(UseIds(prev.content)), NoResult, Pieces(m.content));
    }
  }

  lemma {:induction false} LeftOverSays(ms: seq<Message>)
    ensures Filter(NoResult, LeftOver(ms)) == Filter(NoResult, UserSays(ms))
  {
    if ms != [] {
      var n := |ms| - 1;
      LeftOverSays(ms[..n]);
      FilterConcat(NoResult, UserSays(ms[..n]), IfUserSays(ms[n]));
      if n > 0 {
        LeftSays(ms[n - 1], ms[n]);
        FilterConcat(NoResult, LeftOver(ms[..n]), LeftBehind(ms[n - 1], ms[n]));
      } else {
        FilterConcat(NoResult, LeftOver(ms[..n]), IfUserSays(ms[0]));
      }
    }
  }

  /** What the user messages of a normalised transcript say: of every run of user messages what they said,
      in order, without the tool results that a block-list assistant message before it does not know; so
      nothing but tool results is ever missing. */
  lemma NormalizeSays(ms: seq<Message>)
    ensures UserSays(Merge(ms)) == UserSays(ms)
    ensures UserSays(Normalize(ms)) == LeftOver(Merge(ms))
    ensures Filter(NoResult, UserSays(Normalize(ms))) == Filter(NoResult, UserSays(ms))
  {
    MergeSeparates(ms);
    MergeSays(ms);
    FixSays(Merge(ms));
    LeftOverSays(Merge(ms));
  }

  /** Two texts in a row are sent as one message that says both. */
  lemma TwoTextsSay(a: string, b: string)
    ensures Normalize([Message(User, Text(a)), Message(User, Text(b))]) == [Message(User, Blocks([TextBlock(a), TextBlock(b)]))]
  {
    var ms := [Message(User, Text(a)), Message(User, Text(b))];
    assert ms[..2] == ms && ms[..1] == [ms[0]] && ms[..0] == [];
    JoinTake(IsUser, JoinUsers, ms, 0);
    JoinTake(IsUser, JoinUsers, ms, 1);
    assert [TextBlock(a)] + [TextBlock(b)] == [TextBlock(a), TextBlock(b)];
    FixIsLocal(Merge(ms));
  }
}
