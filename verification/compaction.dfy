/**
 Context compaction: the slice selection, the summarising rewrite of the transcript and the
 orchestrator that decides when to run it
 (forgepilot_sdk/utils/compact.py and forgepilot_sdk/utils/context_orchestrator.py).
 The summariser model is an oracle: `reply` is its text, or None when the call raises.
 */
module Compaction {
  import opened Arithmetic
  import opened Filters
  import opened Messages
  import opened Options

  const MAX_CONSECUTIVE_FAILURES := 3
  const REMOVED := "[content removed]"
  const SUMMARY_HEAD := "[Previous conversation summary]\n\n"
  const SUMMARY_TAIL := "\n\n[End of summary - conversation continues below]"
  const ACKNOWLEDGEMENT :=
    "I understand the context from the previous conversation. I'll continue from where we left off."
  const TRUNCATED := "\n...(truncated)...\n"
  const MAX_RESULT_CHARS := 50000

  datatype AutoCompactState = AutoCompactState(compacted: bool, turnCounter: int, failures: nat)

  /** `Summarised` rewrote the transcript; the other two outcomes leave it alone. */
  datatype Outcome = Summarised | SummariserFailed | NothingToCompact

  datatype CompactResult = CompactResult(
    messages: seq<Message>,
    summary: string,
    state: AutoCompactState,
    compactedCount: nat,
    preservedCount: nat,
    outcome: Outcome)

  // ---------------------------------------------------------------- image stripping

  predicate NotImage(b: Block) { !b.Image? }

  function StripOne(m: Message): Message {
    if m.content.Blocks? then
      var filtered := Filter(NotImage, m.content.blocks);
      Message(m.role, if filtered != [] then Blocks(filtered) else Text(REMOVED))
    else m
  }

  function Strip(ms: seq<Message>): (r: seq<Message>)
    ensures |r| == |ms|
    ensures forall i :: 0 <= i < |ms| ==> r[i] == StripOne(ms[i])
  {
    seq(|ms|, i requires 0 <= i < |ms| => StripOne(ms[i]))
  }

  method StripImagesFromMessages(messages: seq<Message>) returns (output: seq<Message>)
    ensures output == Strip(messages)
  {
    output := [];
    for i := 0 to |messages|
      invariant output == Strip(messages)[..i]
    {
      var message := messages[i];
      if !message.content.Blocks? {
        output := output + [message];
        continue;
      }
      var filtered := Filter(NotImage, message.content.blocks);
      output := output + [Message(message.role, if filtered != [] then Blocks(filtered) else Text(REMOVED))];
    }
  }

  function WithoutImages(bs: seq<Block>): seq<Block> {
    if bs == [] then [] else (if bs[0] == Image then [] else [bs[0]]) + WithoutImages(bs[1..])
  }

  lemma {:induction false} FilteredImages(bs: seq<Block>)
    ensures Filter(NotImage, bs) == WithoutImages(bs)
    decreases |bs|
  {
    if bs != [] {
      FilterConcat(NotImage, [bs[0]], bs[1..]);
      FilterOne(NotImage, bs[0]);
      assert [bs[0]] + bs[1..] == bs;
      FilteredImages(bs[1..]);
    }
  }

  /** Stripping takes the images out of a list and leaves everything else, in order; a list of nothing but
      images becomes a text that says so. */
  lemma StripSays(m: Message)
    ensures StripOne(m).role == m.role
    ensures !m.content.Blocks? ==> StripOne(m) == m
    ensures m.content.Blocks? ==>
              StripOne(m).content == if forall b :: b in m.content.blocks ==> b == Image then Text("[content removed]")
                                     else Blocks(WithoutImages(m.content.blocks))
  {
    if m.content.Blocks? {
      FilteredImages(m.content.blocks);
      if forall b :: b in m.content.blocks ==> b == Image {
        FilterNone(NotImage, m.content.blocks);
      } else {
        FilterMembers(NotImage, m.content.blocks);
      }
    }
  }

  // ---------------------------------------------------------------- one compaction

  /** How many of the oldest of `n` messages are summarised. */
  function ChunkSize(n: nat, keepRecent: int, earliest: int): (k: nat)
    ensures k <= n && k <= Max(1, earliest)
    ensures k > 0 <==> n > Max(1, keepRecent)
    ensures k > 0 ==> n - k >= Max(1, keepRecent)
  {
    if n <= Max(1, keepRecent) then 0 else Min(Max(1, earliest), Max(0, n - Max(1, keepRecent)))
  }

  function RenderSummary(reply: string): (r: string)
    ensures r != ""
  {
    "[Context Summary]\n" + reply
  }

  function SummaryMessages(reply: string): seq<Message> {
    [Message(User, Text(SUMMARY_HEAD + RenderSummary(reply) + SUMMARY_TAIL)),
     Message(Assistant, Text(ACKNOWLEDGEMENT))]
  }

  function CompactConversation(
    messages: seq<Message>, state: AutoCompactState, keepRecent: int, earliest: int, reply: Option<string>)
    : CompactResult
  {
    var stripped := Strip(messages);
    var k := ChunkSize(|stripped|, keepRecent, earliest);
    if k == 0 then
      CompactResult(messages, "", state, 0, |messages|, NothingToCompact)
    else
      match reply
      case None =>
        CompactResult(messages, "", state.(failures := state.failures + 1), 0, |messages|, SummariserFailed)
      case Some(text) =>
        CompactResult(SummaryMessages(text) + stripped[k..], RenderSummary(text),
                      AutoCompactState(true, state.turnCounter, 0), k, |stripped| - k, Summarised)
  }

  /** Nothing is lost or duplicated: a success replaces exactly the oldest k messages by two and
      keeps the rest in order, a failure or an empty chunk changes no message. */
  lemma CompactionConserves(
    messages: seq<Message>, state: AutoCompactState, keepRecent: int, earliest: int, reply: Option<string>)
    ensures var keep, first, n := Max(1, keepRecent), Max(1, earliest), |messages|;
            var k := Min(first, n - keep);
            var r := CompactConversation(messages, state, keepRecent, earliest, reply);
            && (k > 0 && reply.Some? ==>
                 && r.outcome == Summarised
                 && |r.messages| == n - k + 2
                 && r.messages[0] == Message(User, Text(
                      "[Previous conversation summary]\n\n" + r.summary + "\n\n[End of summary - conversation continues below]"))
                 && r.summary == RenderSummary(reply.value)
                 && r.messages[1] == Message(Assistant, Text(ACKNOWLEDGEMENT))
                 && r.messages[2..] == Strip(messages[k..])
                 && r.messages[|r.messages| - keep..] == Strip(messages[n - keep..])
                 && r.compactedCount + r.preservedCount == n
                 && r.state.compacted && r.state.failures == 0)
            && (k > 0 && reply.None? ==>
                 && r.outcome == SummariserFailed && r.messages == messages && r.compactedCount == 0
                 && r.state == state.(failures := state.failures + 1))
            && (k <= 0 ==>
                 r.outcome == NothingToCompact && r.messages == messages && r.state == state)
            && (r.state.turnCounter == state.turnCounter)
            && (state.compacted ==> r.state.compacted)
  {
    var keep, first, n := Max(1, keepRecent), Max(1, earliest), |messages|;
    var k := Min(first, n - keep);
    if k > 0 && reply.Some? {
      var r := CompactConversation(messages, state, keepRecent, earliest, reply);
      assert ChunkSize(n, keepRecent, earliest) == k;
      assert r.messages == SummaryMessages(reply.value) + Strip(messages)[k..];
      assert Strip(messages)[k..] == Strip(messages[k..]);
      assert r.messages[|r.messages| - keep..] == Strip(messages)[n - keep..];
    }
  }

  /** A successful compaction shortens the transcript exactly when it summarises more than the two
      messages it puts in. */
  lemma CompactionShrinksIff(
    messages: seq<Message>, state: AutoCompactState, keepRecent: int, earliest: int, text: string)
    requires |messages| > Max(1, keepRecent)
    ensures |CompactConversation(messages, state, keepRecent, earliest, Some(text)).messages| < |messages|
       <==> earliest > 2 && |messages| > Max(1, keepRecent) + 2
  {
    CompactionConserves(messages, state, keepRecent, earliest, Some(text));
  }

  /** `rounds` successful compactions in a row. */
  function CompactRepeatedly(
    messages: seq<Message>, state: AutoCompactState, keepRecent: int, earliest: int, texts: seq<string>)
    : seq<Message>
    decreases |texts|
  {
    if texts == [] then messages
    else
      var r := CompactConversation(messages, state, keepRecent, earliest, Some(texts[0]));
      CompactRepeatedly(r.messages, r.state, keepRecent, earliest, texts[1..])
  }

  /** With at least three messages summarised at a time, repeated compaction settles at exactly
      keep + 2 messages and goes no lower, however long the transcript was. */
  lemma {:induction false} CompactionSettles(
    messages: seq<Message>, state: AutoCompactState, keepRecent: int, earliest: int, texts: seq<string>)
    requires earliest > 2
    requires |messages| > Max(1, keepRecent)
    requires |texts| >= |messages|
    ensures |CompactRepeatedly(messages, state, keepRecent, earliest, texts)| == Max(1, keepRecent) + 2
    decreases |texts|
  {
    CompactionConserves(messages, state, keepRecent, earliest, Some(texts[0]));
    var r := CompactConversation(messages, state, keepRecent, earliest, Some(texts[0]));
    if |messages| > Max(1, keepRecent) + 2 {
      CompactionSettles(r.messages, r.state, keepRecent, earliest, texts[1..]);
    } else {
      assert |r.messages| == Max(1, keepRecent) + 2;
      CompactionStays(r.messages, r.state, keepRecent, earliest, texts[1..]);
    }
  }

  lemma {:induction false} CompactionStays(
    messages: seq<Message>, state: AutoCompactState, keepRecent: int, earliest: int, texts: seq<string>)
    requires earliest > 2
    requires |messages| == Max(1, keepRecent) + 2
    ensures |CompactRepeatedly(messages, state, keepRecent, earliest, texts)| == Max(1, keepRecent) + 2
    decreases |texts|
  {
    if texts != [] {
      CompactionConserves(messages, state, keepRecent, earliest, Some(texts[0]));
      var r := CompactConversation(messages, state, keepRecent, earliest, Some(texts[0]));
      CompactionStays(r.messages, r.state, keepRecent, earliest, texts[1..]);
    }
  }

  // ---------------------------------------------------------------- the orchestrator

  datatype Window = Window(enabled: bool, keepRecent: int, earliest: int)

  predicate ShouldAutoCompact(state: AutoCompactState, overThreshold: bool) {
    state.failures < MAX_CONSECUTIVE_FAILURES && overThreshold
  }

  /** What the orchestrator hands back before a model call; None means it did not compact at all. */
  function Orchestrated(
    window: Window, messages: seq<Message>, state: AutoCompactState, overThreshold: bool, reply: Option<string>)
    : Option<CompactResult>
  {
    if !window.enabled || !ShouldAutoCompact(state, overThreshold) then None
    else Some(CompactConversation(messages, state, window.keepRecent, window.earliest, reply))
  }

  class ContextOrchestrator {
    const window: Window
    var compactionCount: nat
    var lastSummary: string
    var lastCompactedCount: nat
    var lastPreservedCount: nat
    var lastCompactedTurn: int

    constructor (window: Window)
      ensures this.window == window && compactionCount == 0 && lastSummary == ""
      ensures lastCompactedCount == lastPreservedCount == 0 && lastCompactedTurn == 0
    {
      this.window := window;
      compactionCount, lastSummary, lastCompactedCount, lastPreservedCount, lastCompactedTurn := 0, "", 0, 0, 0;
    }

    /** Runs before each model call. The counters move exactly when the transcript was rewritten,
        and then they account for every message that was there. */
    method ApplyBeforeModelCall(
      messages: seq<Message>, state: AutoCompactState, turnCount: int, overThreshold: bool, reply: Option<string>)
      returns (result: Option<CompactResult>)
      modifies this
      ensures result == Orchestrated(window, messages, state, overThreshold, reply)
      ensures result.Some? && result.value.outcome == Summarised ==>
        && compactionCount == old(compactionCount) + 1
        && lastCompactedCount + lastPreservedCount == |messages|
        && |result.value.messages| == lastPreservedCount + 2
        && lastCompactedTurn == turnCount
        && lastSummary == result.value.summary
      ensures !(result.Some? && result.value.outcome == Summarised) ==>
        && compactionCount == old(compactionCount)
        && lastCompactedCount == old(lastCompactedCount)
        && lastPreservedCount == old(lastPreservedCount)
        && lastCompactedTurn == old(lastCompactedTurn)
        && lastSummary == old(lastSummary)
    {
      if !window.enabled {
        return None;
      }
      if !ShouldAutoCompact(state, overThreshold) {
        return None;
      }
      var r := CompactConversation(messages, state, window.keepRecent, window.earliest, reply);
      if r.summary != "" {
        compactionCount := compactionCount + 1;
        lastSummary := r.summary;
        lastCompactedCount := r.compactedCount;
        lastPreservedCount := r.preservedCount;
        lastCompactedTurn := turnCount;
      }
      return Some(r);
    }
  }

  // ---------------------------------------------------------------- micro compaction

  /** Python's `s[:n]`; a negative `n` counts from the end. */
  function SliceTo(s: string, n: int): string {
    if n >= 0 then s[..Min(n, |s|)] else s[..Max(0, |s| + n)]
  }

  /** Python's `s[n:]`; a negative `n` counts from the end, and `s[-0:]` is all of `s`. */
  function SliceFrom(s: string, n: int): string {
    if n >= 0 then s[Min(n, |s|)..] else s[Max(0, |s| + n)..]
  }

  function MicroText(s: string, limit: int): string {
    if |s| > limit then SliceTo(s, limit / 2) + TRUNCATED + SliceFrom(s, -(limit / 2)) else s
  }

  function MicroBlock(b: Block, limit: int): Block {
    if b.ToolResult? then b.(output := MicroText(b.output, limit)) else b
  }

  function MicroBlocks(bs: seq<Block>, limit: int): (r: seq<Block>)
    ensures |r| == |bs|
    ensures forall i :: 0 <= i < |bs| ==> r[i] == MicroBlock(bs[i], limit)
  {
    seq(|bs|, i requires 0 <= i < |bs| => MicroBlock(bs[i], limit))
  }

  function MicroOne(m: Message, limit: int): Message {
    if m.content.Blocks? then Message(m.role, Blocks(MicroBlocks(m.content.blocks, limit))) else m
  }

  function Micro(ms: seq<Message>, limit: int): (r: seq<Message>)
    ensures |r| == |ms|
    ensures forall i :: 0 <= i < |ms| ==> r[i] == MicroOne(ms[i], limit)
  {
    seq(|ms|, i requires 0 <= i < |ms| => MicroOne(ms[i], limit))
  }

  /** The inner loop: one list. */
  method MicroCompactBlocks(blocks: seq<Block>, limit: int) returns (compacted: seq<Block>)
    ensures compacted == MicroBlocks(blocks, limit)
  {
    compacted := [];
    for k := 0 to |blocks|
      invariant |compacted| == k && forall j :: 0 <= j < k ==> compacted[j] == MicroBlock(blocks[j], limit)
    {
      var block := blocks[k];
      if block.ToolResult? && |block.output| > limit {
        compacted := compacted + [block.(output := MicroText(block.output, limit))];
      } else {
        compacted := compacted + [block];
      }
    }
  }

  method MicroCompactMessages(messages: seq<Message>, limit: int) returns (output: seq<Message>)
    ensures output == Micro(messages, limit)
  {
    output := [];
    for i := 0 to |messages|
      invariant |output| == i && forall j :: 0 <= j < i ==> output[j] == MicroOne(messages[j], limit)
    {
      var message := messages[i];
      if !message.content.Blocks? {
        output := output + [message];
        continue;
      }
      var compacted := MicroCompactBlocks(message.content.blocks, limit);
      output := output + [Message(message.role, Blocks(compacted))];
    }
  }

  /** Truncation bounds a tool result by the limit plus the marker exactly when the limit is at
      least 2 or the text already fits; for a limit of 0 or 1 an over-long text only grows, and a
      negative limit cuts the same length off both copies. */
  lemma MicroTextBounded(s: string, limit: int)
    ensures |MicroText(s, limit)| <= limit + |TRUNCATED| <==> limit >= 2 || |s| <= limit
  {
  }

  /** What truncation leaves of a text: one that fits is not touched; of a longer one the first and the last
      half of the limit stay, around the marker. A limit below 2 has no half, and the whole text stands behind
      the marker; a negative one cuts so many characters off the end and off the start. */
  lemma MicroSays(s: string, limit: int)
    ensures |s| <= limit ==> MicroText(s, limit) == s
    ensures |s| > limit >= 2 ==>
              MicroText(s, limit) == s[..limit / 2] + "\n...(truncated)...\n" + s[|s| - limit / 2..]
    ensures |s| > limit && 0 <= limit < 2 ==> MicroText(s, limit) == "\n...(truncated)...\n" + s
    ensures limit < 0 ==>
              var cut := if -(limit / 2) < |s| then -(limit / 2) else |s|;
              MicroText(s, limit) == s[..|s| - cut] + "\n...(truncated)...\n" + s[cut..]
  {
    if |s| > limit && 0 <= limit < 2 {
      assert s[..0] == "" && "" + TRUNCATED == TRUNCATED;
      assert SliceFrom(s, 0) == s;
    }
  }

  /** Truncation touches the outputs of tool results in lists and nothing else. */
  lemma MicroTouches(m: Message, limit: int)
    ensures var r := MicroOne(m, limit);
            && r.role == m.role && (!m.content.Blocks? ==> r == m)
            && (m.content.Blocks? ==>
                  && r.content.Blocks? && |r.content.blocks| == |m.content.blocks|
                  && forall i :: 0 <= i < |m.content.blocks| ==>
                       var b := m.content.blocks[i];
                       r.content.blocks[i] ==
                         if b.ToolResult? then ToolResult(b.forId, MicroText(b.output, limit), b.isError) else b)
  {
  }

  lemma MicroResults(c: Content, limit: int)
    requires c.Blocks?
    ensures Results(MicroOne(Message(User, c), limit).content) == MicroBlocks(Results(c), limit)
  {
    MicroFilters(IsDict, c.blocks, limit);
    MicroFilters(IsResult, ToBlocks(c), limit);
  }

  /** Truncation commutes with a test that it does not affect. */
  lemma {:induction false} MicroFilters(p: Block -> bool, bs: seq<Block>, limit: int)
    requires forall b :: p(MicroBlock(b, limit)) == p(b)
    ensures Filter(p, MicroBlocks(bs, limit)) == MicroBlocks(Filter(p, bs), limit)
  {
    if bs != [] {
      var n := |bs| - 1;
      MicroFilters(p, bs[..n], limit);
      assert bs == bs[..n] + [bs[n]];
      MicroSnoc(bs[..n], bs[n], limit);
      FilterConcat(p, MicroBlocks(bs[..n], limit), [MicroBlock(bs[n], limit)]);
      FilterOne(p, MicroBlock(bs[n], limit));
      MicroSnoc(Filter(p, bs[..n]), bs[n], limit);
    }
  }

  lemma MicroSnoc(bs: seq<Block>, b: Block, limit: int)
    ensures MicroBlocks(bs + [b], limit) == MicroBlocks(bs, limit) + [MicroBlock(b, limit)]
  {
  }

  lemma MicroAnswers(prev: Message, m: Message, limit: int)
    ensures AllAnswer(MicroOne(prev, limit), MicroOne(m, limit)) <==> AllAnswer(prev, m)
  {
    MicroKeepsUseIds(prev, limit);
    if m.content.Blocks? {
      var a, b := Results(m.content), Results(MicroOne(m, limit).content);
      MicroResults(m.content, limit);
      assert forall i :: 0 <= i < |a| ==> a[i] in a && b[i] in b;
    }
  }

  /** What the provider is sent: no two user messages are adjacent, tool results in a list behind a block
      list answer one of its ids, and all tool results behind one do if and only if no stray result
      stands alone in the transcript - also after truncation. */
  lemma ProviderSeesPairs(ms: seq<Message>, limit: int)
    ensures NoAdjacentUsers(Micro(Normalize(ms), limit))
    ensures Matched(Micro(Normalize(ms), limit))
    ensures Paired(Micro(Normalize(ms), limit)) <==> NoStrays(ms)
  {
    NormalizeShape(ms);
    NormalizePairsIff(ms);
    MicroPaired(Normalize(ms), limit);
    MicroMatched(Normalize(ms), limit);
  }

  lemma MicroMatched(ms: seq<Message>, limit: int)
    requires Matched(ms)
    ensures Matched(Micro(ms, limit))
  {
    var out := Micro(ms, limit);
    forall i, b | 0 < i < |out| && out[i].role == User && out[i].content.Blocks?
      && out[i - 1].role == Assistant && out[i - 1].content.Blocks?
      && b in out[i].content.blocks && b.ToolResult?
      ensures IdText(b.forId) in UseIds(out[i - 1].content)
    {
      var k :| 0 <= k < |out[i].content.blocks| && out[i].content.blocks[k] == b;
      var source := ms[i].content.blocks[k];
      assert source in ms[i].content.blocks && source.forId == b.forId;
      MicroKeepsUseIds(ms[i - 1], limit);
    }
  }

  lemma MicroPaired(ms: seq<Message>, limit: int)
    ensures Paired(Micro(ms, limit)) <==> Paired(ms)
  {
    var out := Micro(ms, limit);
    forall i ensures Behind(out, i) <==> Behind(ms, i) {
    }
    forall i | Behind(ms, i) ensures AllAnswer(out[i - 1], out[i]) <==> AllAnswer(ms[i - 1], ms[i]) {
      MicroAnswers(ms[i - 1], ms[i], limit);
    }
    if Paired(out) {
      forall i | Behind(ms, i) ensures AllAnswer(ms[i - 1], ms[i]) {
        assert Behind(out, i);
      }
    }
  }

  lemma MicroKeepsUseIds(m: Message, limit: int)
    ensures UseIds(MicroOne(m, limit).content) == UseIds(m.content)
  {
    if m.content.Blocks? {
      var a, b := m.content.blocks, MicroOne(m, limit).content.blocks;
      forall x | x in a && x.ToolUse? ensures x in b {
        var i :| 0 <= i < |a| && a[i] == x;
        assert b[i] == x;
      }
      forall x | x in b && x.ToolUse? ensures x in a {
        var i :| 0 <= i < |b| && b[i] == x;
        assert a[i] == x;
      }
    }
  }
}
