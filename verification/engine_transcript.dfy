/**
 The transcript the agent loop builds, and what the normaliser leaves of its recorded tool results.
 */
module EngineTranscript {
  import opened Filters
  import opened Messages
  import opened Options
  import opened Compaction
  import opened ToolStage
  import opened Engine

  /** A block an assistant message of the engine may hold. */
  predicate IsSpoken(b: Block) { b.TextBlock? || (b.ToolUse? && b.useId.Some?) }

  /** A block a recorded tool stage may hold. */
  predicate IsRecord(b: Block) { b.ToolResult? && b.forId.Some? }

  predicate HasUse(m: Message, id: string) {
    m.content.Blocks? && exists b :: b in m.content.blocks && b.ToolUse? && b.useId == Some(id)
  }

  ghost predicate ListOf(m: Message, p: Block -> bool) {
    m.content.Blocks? && m.content.blocks != [] && forall b :: b in m.content.blocks ==> p(b)
  }

  /** `m`, of origin `o`, may stand behind `prev`, of origin `before`. */
  ghost predicate Placed(before: Option<Origin>, prev: Option<Message>, o: Origin, m: Message) {
    match o
    case Spoken => m.role == Assistant && ListOf(m, IsSpoken)
    case Acknowledged => m.role == Assistant && m.content.Text?
    case Recorded =>
      && m.role == User && ListOf(m, IsRecord) && prev.Some?
      && (before == Some(Spoken) || before == Some(Acknowledged))
      && (before == Some(Spoken) ==> forall b :: b in m.content.blocks ==> HasUse(prev.value, b.forId.value))
    case Summary => m.role == User && m.content.Text?
    case Continued => m.role == User && m.content.Text?
    case Restored => true
    case Prompted => m.role == User
  }

  function At<T>(s: seq<T>, i: int): Option<T> {
    if 0 <= i < |s| then Some(s[i]) else None
  }

  ghost predicate WellPlaced(ms: seq<Message>, os: seq<Origin>) {
    |ms| == |os| && forall i :: 0 <= i < |ms| ==> Placed(At(os, i - 1), At(ms, i - 1), os[i], ms[i])
  }

  ghost predicate Ordered(s: State) { WellPlaced(s.messages, s.origins) }

  lemma AddOrdered(ms: seq<Message>, os: seq<Origin>, m: Message, o: Origin)
    requires WellPlaced(ms, os)
    requires Placed(At(os, |ms| - 1), At(ms, |ms| - 1), o, m)
    ensures WellPlaced(ms + [m], os + [o])
  {
    var ms', os' := ms + [m], os + [o];
    forall i | 0 <= i < |ms'| ensures Placed(At(os', i - 1), At(ms', i - 1), os'[i], ms'[i]) {
      assert At(os', i - 1) == At(os, i - 1) && At(ms', i - 1) == At(ms, i - 1);
    }
  }

  // ---------------------------------------------------------------- stripping and compaction

  lemma StripKeepsLists(m: Message, p: Block -> bool)
    requires ListOf(m, p) && forall b :: p(b) ==> !b.Image?
    ensures StripOne(m) == m
  {
    FilterAll(NotImage, m.content.blocks);
  }

  lemma StripPlaced(before: Option<Origin>, prev: Option<Message>, o: Origin, m: Message)
    requires Placed(before, prev, o, m)
    requires prev.Some? && before == Some(Spoken) ==> StripOne(prev.value) == prev.value
    ensures Placed(before, if prev.Some? then Some(StripOne(prev.value)) else None, o, StripOne(m))
  {
    if o == Spoken {
      StripKeepsLists(m, IsSpoken);
    } else if o == Recorded {
      StripKeepsLists(m, IsRecord);
    }
  }

  lemma {:induction false} StripOrdered(ms: seq<Message>, os: seq<Origin>)
    requires WellPlaced(ms, os)
    ensures WellPlaced(Strip(ms), os)
  {
    var ss := Strip(ms);
    forall i | 0 <= i < |ss| ensures Placed(At(os, i - 1), At(ss, i - 1), os[i], ss[i]) {
      if i > 0 && os[i - 1] == Spoken {
        assert Placed(At(os, i - 2), At(ms, i - 2), os[i - 1], ms[i - 1]);
        StripKeepsLists(ms[i - 1], IsSpoken);
      }
      StripPlaced(At(os, i - 1), At(ms, i - 1), os[i], ms[i]);
    }
  }

  /** A cut may part a tool stage from its assistant message; the acknowledgement then stands in. */
  lemma CutOrdered(ms: seq<Message>, os: seq<Origin>, k: nat, reply: string)
    requires WellPlaced(ms, os) && 0 < k <= |ms|
    ensures WellPlaced(SummaryMessages(reply) + ms[k..], [Summary, Acknowledged] + os[k..])
  {
    var ms', os' := SummaryMessages(reply) + ms[k..], [Summary, Acknowledged] + os[k..];
    forall i | 0 <= i < |ms'| ensures Placed(At(os', i - 1), At(ms', i - 1), os'[i], ms'[i]) {
      if i >= 2 {
        assert Placed(At(os, i - 2 + k - 1), At(ms, i - 2 + k - 1), os[i - 2 + k], ms[i - 2 + k]);
      }
    }
  }

  lemma {:induction false} CompactionOrdered(cfg: Config, s: State, summary: Option<string>, auto: bool)
    requires Ordered(s)
    ensures Ordered(Adopt(s, CompactConversation(s.messages, s.compact, cfg.window.keepRecent, cfg.window.earliest, summary), auto))
  {
    var r := CompactConversation(s.messages, s.compact, cfg.window.keepRecent, cfg.window.earliest, summary);
    if r.outcome == Summarised {
      StripOrdered(s.messages, s.origins);
      CutOrdered(Strip(s.messages), s.origins, r.compactedCount, summary.value);
    }
  }

  lemma {:induction false} OrchestrateOrdered(cfg: Config, s: State, t: Turn)
    requires Ordered(s)
    ensures Ordered(Orchestrate(cfg, s, t))
  {
    CompactionOrdered(cfg, s, t.summary, true);
  }

  // ---------------------------------------------------------------- one turn

  lemma SpokenPlaced(content: RawContent, declared: seq<Call>)
    requires Parse(content, declared).blocks != []
    ensures ListOf(Message(Assistant, Blocks(Parse(content, declared).blocks)), IsSpoken)
  {
    ParseWell(content, declared);
  }

  lemma RecordPlaced(gate: Gate, content: RawContent, declared: seq<Call>, env: ToolEnv)
    requires Parse(content, declared).calls != []
    ensures var p := Parse(content, declared);
            var prev := Message(Assistant, Blocks(p.blocks));
            Placed(Some(Spoken), Some(prev), Recorded, Message(User, Blocks(ResultBlocks(Answers(gate, env, p.calls)))))
  {
    var p := Parse(content, declared);
    var answers := Answers(gate, env, p.calls);
    var prev := Message(Assistant, Blocks(p.blocks));
    ParseWell(content, declared);
    EachCallAnsweredOnce(gate, env, p.calls);
    assert |answers| == |p.calls| by {
      assert |multiset(AnswerIds(answers))| == |multiset(CallIds(p.calls))|;
    }
    var blocks := ResultBlocks(answers);
    forall b | b in blocks ensures IsRecord(b) && HasUse(prev, b.forId.value) {
      var i :| 0 <= i < |blocks| && blocks[i] == b;
      assert AnswerIds(answers)[i] in multiset(AnswerIds(answers));
      assert answers[i].id in CallIds(p.calls);
      var j :| 0 <= j < |p.calls| && CallIds(p.calls)[j] == answers[i].id;
      assert ToBlock(p.calls[j]) in p.blocks;
    }
  }

  lemma ReplyOrdered(cfg: Config, l: Loop, r: Provided, env: ToolEnv)
    requires r.Answered? && Ordered(l.state)
    ensures Ordered(AfterReply(cfg, l, r, env).state)
  {
    var s := l.state;
    var p := Parse(r.content, r.declared);
    if p.blocks != [] {
      var spoken := Message(Assistant, Blocks(p.blocks));
      var ms, os := s.messages + [spoken], s.origins + [Spoken];
      SpokenPlaced(r.content, r.declared);
      AddOrdered(s.messages, s.origins, spoken, Spoken);
      if r.stop == MaxTokens && l.recoveries < MAX_RECOVERIES {
        AddOrdered(ms, os, Message(User, Text(CONTINUE)), Continued);
      } else if p.calls != [] {
        RecordPlaced(cfg.gate, r.content, r.declared, env);
        assert At(os, |ms| - 1) == Some(Spoken) && At(ms, |ms| - 1) == Some(spoken);
        AddOrdered(ms, os, Message(User, Blocks(ResultBlocks(Answers(cfg.gate, env, p.calls)))), Recorded);
      }
    } else {
      CallsNeedBlocks(r.content, r.declared);
    }
  }

  lemma CallsNeedBlocks(content: RawContent, declared: seq<Call>)
    ensures Parse(content, declared).calls != [] ==> Parse(content, declared).blocks != []
  {
    var p := Parse(content, declared);
    ParseWell(content, declared);
    if p.calls != [] {
      assert ToBlock(p.calls[0]) in p.blocks;
    }
  }

  lemma {:induction false} ErrorOrdered(cfg: Config, l: Loop, tooLong: bool, summary: Option<string>)
    requires Ordered(l.state)
    ensures Ordered(AfterError(cfg, l, tooLong, summary).state)
  {
    CompactionOrdered(cfg, l.state, summary, false);
  }

  lemma {:induction false} RunOrdered(cfg: Config, l: Loop, script: seq<Turn>)
    requires Ordered(l.state)
    ensures Ordered(RunLoop(cfg, l, script).state)
    decreases |script|
  {
    if script != [] && Going(l) {
      var t := script[0];
      OrchestrateOrdered(cfg, l.state, t);
      match t.provided
      case Raised(tooLong, summary) =>
        ErrorOrdered(cfg, Ask(cfg, l, t), tooLong, summary);
        RunOrdered(cfg, Iterate(cfg, l, t), script[1..]);
      case Answered(_, _, _, _) =>
        ReplyOrdered(cfg, Ask(cfg, l, t), t.provided, t.env);
        RunOrdered(cfg, Iterate(cfg, l, t), script[1..]);
    }
  }

  lemma BeginOrdered(cfg: Config, s: State, prompt: Content)
    requires Ordered(s)
    ensures Ordered(Begin(cfg, s, prompt).state)
  {
    AddOrdered(s.messages, s.origins, Message(User, prompt), Prompted);
  }

  lemma {:induction false} SessionOrdered(cfg: Config, model: string, history: seq<Message>, subs: seq<Submission>)
    ensures Ordered(Session(cfg, Start(model, history), subs))
  {
    if subs != [] {
      var n := |subs| - 1;
      var before := Session(cfg, Start(model, history), subs[..n]);
      SessionOrdered(cfg, model, history, subs[..n]);
      BeginOrdered(cfg, before, subs[n].prompt);
      RunOrdered(cfg, Begin(cfg, before, subs[n].prompt), subs[n].script);
    }
  }

  // ---------------------------------------------------------------- what the provider gets to see

  /** The results of a recorded stage that reach the provider: those with a non-empty id, or all of them
      where a compaction cut the assistant message away. */
  function Delivered(s: State, j: nat): seq<Block>
    requires j < |s.messages|
  {
    var results := Results(s.messages[j].content);
    if j > 0 && s.messages[j - 1].content.Blocks? then Filter(HasId, results) else results
  }

  predicate HasId(b: Block) { b.ToolResult? && b.forId.Some? && b.forId.value != "" }

  /** What the provider is sent. */
  function Request(s: State): (sent: seq<Message>)
    ensures |sent| == |Normalize(s.messages)|
    ensures forall i :: 0 <= i < |sent| ==> sent[i] == MicroOne(Normalize(s.messages)[i], MAX_RESULT_CHARS)
  {
    Micro(Normalize(s.messages), MAX_RESULT_CHARS)
  }

  predicate Staged(s: State, j: nat)
    requires |s.origins| == |s.messages|
  {
    j < |s.messages| && s.origins[j] == Recorded && Delivered(s, j) != []
  }

  /** The stage recorded at `j` heads a user message of the request that stands right behind what its own
      predecessor became; over-long outputs are truncated. */
  ghost predicate StageSent(s: State, j: nat)
    requires j < |s.messages|
  {
    var q, sent := PlaceOf(s.messages, j), Request(s);
    && 0 < j && 0 < q < |sent| && sent[q - 1] == MicroOne(s.messages[j - 1], MAX_RESULT_CHARS)
    && sent[q].role == User && MicroBlocks(Delivered(s, j), MAX_RESULT_CHARS) <= Results(sent[q].content)
  }

  lemma RecordedSurvive(s: State, j: nat)
    requires Ordered(s) && j < |s.messages| && s.origins[j] == Recorded
    ensures j > 0 && s.messages[j - 1].role == Assistant && s.messages[j].role == User
    ensures Survivors(s.messages, j) == Delivered(s, j)
    ensures Delivered(s, j) != [] ==> StageSent(s, j)
  {
    var m := s.messages[j];
    assert Placed(At(s.origins, j - 1), At(s.messages, j - 1), s.origins[j], m);
    assert Placed(At(s.origins, j - 2), At(s.messages, j - 2), s.origins[j - 1], s.messages[j - 1]);
    if s.messages[j - 1].content.Blocks? {
      IdsKnown(s.messages[j - 1], m);
    }
    if Delivered(s, j) != [] {
      ResultsSurvive(s.messages, j);
      MicroHeads(Normalize(s.messages)[PlaceOf(s.messages, j)], Delivered(s, j));
    }
  }

  lemma IdsKnown(prev: Message, m: Message)
    requires ListOf(m, IsRecord) && forall b :: b in m.content.blocks ==> HasUse(prev, b.forId.value)
    ensures Answering(UseIds(prev.content), Results(m.content)) == Filter(HasId, Results(m.content))
  {
    var ids := UseIds(prev.content);
    ListResults(m.content.blocks);
    forall b | b in Results(m.content) ensures AnswerTo(ids)(b) == HasId(b) {
      assert HasUse(prev, b.forId.value);
    }
    FilterSame(AnswerTo(ids), HasId, Results(m.content));
  }

  lemma MicroHeads(m: Message, first: seq<Block>)
    requires m.content.Blocks? && first <= Results(m.content)
    ensures MicroBlocks(first, MAX_RESULT_CHARS) <= Results(MicroOne(m, MAX_RESULT_CHARS).content)
  {
    MicroResults(m.content, MAX_RESULT_CHARS);
  }

  /** A stray result was handed in by the caller, as preloaded history or as a prompt. */
  lemma StrayOrigin(s: State, j: nat)
    requires Ordered(s) && StrayAt(s.messages, j)
    ensures s.origins[j] == Restored || s.origins[j] == Prompted
  {
    assert Placed(At(s.origins, j - 1), At(s.messages, j - 1), s.origins[j], s.messages[j]);
  }

  lemma OrderedRequest(s: State, i: nat, j: nat)
    requires Ordered(s)
    ensures NoAdjacentUsers(Request(s)) && Matched(Request(s))
    ensures Paired(Request(s)) <==> NoStrays(s.messages)
    ensures StrayAt(s.messages, j) ==> s.origins[j] == Restored || s.origins[j] == Prompted
    ensures Staged(s, j) ==> StageSent(s, j)
    ensures i < j && Staged(s, i) && Staged(s, j) ==> PlaceOf(s.messages, i) < PlaceOf(s.messages, j)
  {
    ProviderSeesPairs(s.messages, MAX_RESULT_CHARS);
    if StrayAt(s.messages, j) {
      StrayOrigin(s, j);
    }
    if Staged(s, j) {
      RecordedSurvive(s, j);
    }
    if i < j && Staged(s, i) && Staged(s, j) {
      RecordedSurvive(s, i);
      PlacesAscend(s.messages, i, j);
    }
  }

  /** At every model call of every session: the request shows each recorded tool result that carries an
      id, whole stages in one user message, in order and right behind their assistant message, different
      stages in different messages. It alternates around users, and every tool result behind a block-list
      assistant message answers it if and only if no stray result stands alone in the transcript; a stray
      result comes from the caller. */
  lemma RequestsCarryResults(
    cfg: Config, model: string, history: seq<Message>, subs: seq<Submission>, sub: Submission, t: Turn, i: nat, j: nat)
    ensures var s := Orchestrate(cfg, Submit(cfg, Session(cfg, Start(model, history), subs), sub).state, t);
            && NoAdjacentUsers(Request(s)) && Matched(Request(s)) && |s.origins| == |s.messages|
            && (Paired(Request(s)) <==> NoStrays(s.messages))
            && (StrayAt(s.messages, j) ==> s.origins[j] == Restored || s.origins[j] == Prompted)
            && (Staged(s, j) ==> StageSent(s, j))
            && (i < j && Staged(s, i) && Staged(s, j) ==> PlaceOf(s.messages, i) < PlaceOf(s.messages, j))
  {
    var before := Session(cfg, Start(model, history), subs);
    var r := Submit(cfg, before, sub).state;
    SessionOrdered(cfg, model, history, subs);
    BeginOrdered(cfg, before, sub.prompt);
    RunOrdered(cfg, Begin(cfg, before, sub.prompt), sub.script);
    OrchestrateOrdered(cfg, r, t);
    OrderedRequest(Orchestrate(cfg, r, t), i, j);
  }

  // ---------------------------------------------------------------- results without an id

  /** A result whose id is empty is sent behind a block-list assistant message if and only if it is the
      whole content of its message, outside any list - not even a call with an empty id lets it through. */
  lemma EmptyIdSentIff(ms: seq<Message>, i: nat)
    requires Behind(Normalize(ms), i)
    ensures var m := Normalize(ms)[i];
            (exists b :: b in Results(m.content) && b.ToolResult? && b.forId == Some("")) <==> Bare(m) && m.content.block.forId == Some("")
  {
    var prev, m := Normalize(ms)[i - 1], Normalize(ms)[i];
    UnmatchedIffStray(ms, i);
    if m.content.Dict? {
      BareResults(m);
      assert Bare(m) ==> m.content.block in Results(m.content);
    }
    forall b | b in Results(m.content) && AnswerTo(UseIds(prev.content))(b) ensures b.forId != Some("") {
    }
  }

  const NAMELESS: Call := Call("", "tool", "")

  /** A provider that declares one call with an empty id, which policy then denies. */
  const NAMELESS_CALL: Turn :=
    Turn(false, false, None, Answered(RawOther, [NAMELESS], Usage(0, 0, 0, 0, 0.0), EndTurn), DENY_ALL)

  /** The call's result is recorded, and what is sent next ends with the assistant message. */
  lemma EmptyIdDropped(cfg: Config, model: string)
    requires cfg.maxTurns > 0 && (cfg.budget.Some? ==> cfg.budget.value > 0.0)
    ensures var ms := Submit(cfg, Start(model, []), Submission(false, Text("hi"), [NAMELESS_CALL])).state.messages;
            && |ms| == 3 && Results(ms[2].content) != []
            && Normalize(ms) == ms[..2]
  {
    var l := Begin(cfg, Start(model, []), Text("hi"));
    NamelessParsed();
    NamelessAnswered(cfg.gate);
    var r := Iterate(cfg, l, NAMELESS_CALL);
    assert RunLoop(cfg, l, [NAMELESS_CALL]) == r;
    var answer := PolicyDenied(NAMELESS, DENY_ALL.policy(NAMELESS));
    assert r.state.messages == Nameless(answer);
    NamelessNormalized(answer);
    NamelessResults(answer);
  }

  function Nameless(answer: Answer): seq<Message> {
    [Message(User, Text("hi")), Message(Assistant, Blocks([ToBlock(NAMELESS)])), Message(User, Blocks(ResultBlocks([answer])))]
  }

  lemma NamelessParsed()
    ensures Parse(RawOther, [NAMELESS]) == Parsed([ToBlock(NAMELESS)], [NAMELESS])
  {
    var none := Parsed([], []);
    assert [NAMELESS][..0] == [];
    assert Declare(none, []) == none;
    assert Declare(none, [NAMELESS]) == DeclareOne(none, NAMELESS);
    assert [] + [ToBlock(NAMELESS)] == [ToBlock(NAMELESS)] && [] + [NAMELESS] == [NAMELESS];
  }

  lemma NamelessAnswered(gate: Gate)
    ensures Answers(gate, DENY_ALL, [NAMELESS]) == [PolicyDenied(NAMELESS, DENY_ALL.policy(NAMELESS))]
  {
    assert [NAMELESS][..0] == [];
    assert DENY_ALL.policy(NAMELESS).action == Deny;
    assert PendingCalls(DENY_ALL, [NAMELESS]) == [];
    assert DeniedAnswers(DENY_ALL, []) == [];
  }

  /** The user message that holds nothing but the result is taken out. */
  lemma NamelessFixed(answer: Answer)
    requires answer.id == ""
    ensures FixOne(Nameless(answer)[1], Nameless(answer)[2]) == []
  {
    var block := ResultBlocks([answer])[0];
    assert ResultBlocks([answer]) == [block];
    assert block in Nameless(answer)[2].content.blocks;
    FilterNone(Pairs(UseIds(Nameless(answer)[1].content)), [block]);
  }

  lemma NamelessFront(answer: Answer)
    ensures Fix(Nameless(answer)[..2]) == Nameless(answer)[..2]
  {
    var front := Nameless(answer)[..2];
    assert front == [Nameless(answer)[0], Nameless(answer)[1]];
    FixIsLocal(front[..1]);
    FixIsLocal(front);
  }

  lemma NamelessMerged(answer: Answer)
    ensures NoAdjacentUsers(Nameless(answer)) && Merge(Nameless(answer)) == Nameless(answer)
  {
    MergeOfSeparated(Nameless(answer));
  }

  lemma NamelessNormalized(answer: Answer)
    requires answer.id == ""
    ensures Normalize(Nameless(answer)) == Nameless(answer)[..2]
  {
    NamelessMerged(answer);
    NamelessFront(answer);
    NamelessFixed(answer);
    FixIsLocal(Nameless(answer));
  }

  lemma NamelessResults(answer: Answer)
    ensures Results(Nameless(answer)[2].content) != []
  {
    var block := ResultBlocks([answer])[0];
    assert ResultBlocks([answer]) == [block];
    FilterOne(IsDict, block);
    FilterOne(IsResult, block);
  }
}
