/**
 When the agent loop stops and how a submission is closed, told from the turns themselves, and what every
 turn leaves behind it.
 */
module EngineStops {
  import opened Messages
  import opened Options
  import opened Compaction
  import opened ToolStage
  import opened ReplyParsing
  import opened Engine
  import opened EngineRuns

  /** What becomes of one turn. */
  datatype Course =
    | Aborts
    | Spent          // the budget was used up before
    | FallsBack
    | Compacts
    | Fails          // the provider raised and nothing helps
    | SaysNothing
    | Recovers       // cut off at the token limit and asked to continue
    | Finishes       // a reply without a tool call
    | Works          // a tool stage, and on to the next turn
    | WorksLast      // a tool stage behind which the reply wanted to end

  /** The reply has a tool_use block, or a call is listed next to it. */
  predicate Calls(content: RawContent, declared: seq<Call>) {
    declared != [] || exists i :: 0 <= i < |ListedBlocks(content)| && ListedBlocks(content)[i].RawToolUse?
  }

  /** There is a call or something to record. */
  predicate SaysSomething(content: RawContent, declared: seq<Call>) {
    || Calls(content, declared)
    || (content.RawString? && content.s != "")
    || exists i :: 0 <= i < |ListedBlocks(content)| && IsShown(ListedBlocks(content)[i])
  }

  /** What a reply leads to after so many recoveries in a row. */
  function ReplyCourse(recoveries: nat, r: Provided): Course
    requires r.Answered?
  {
    if !SaysSomething(r.content, r.declared) then SaysNothing
    else if r.stop == MaxTokens && recoveries < 3 then Recovers
    else if !Calls(r.content, r.declared) then Finishes
    else if r.stop == EndTurn then WorksLast
    else Works
  }

  /** What an exception of the provider leads to, in the state that it was asked in. */
  function ErrorCourse(cfg: Config, s: State, tooLong: bool): Course {
    if cfg.fallback.Some? && cfg.fallback.value != "" && cfg.fallback.value != s.activeModel then FallsBack
    else if tooLong && !s.compact.compacted then Compacts
    else Fails
  }

  function CourseOf(cfg: Config, l: Loop, t: Turn): Course {
    if t.aborted then Aborts
    else if cfg.budget.Some? && l.state.cost >= cfg.budget.value then Spent
    else
      match t.provided
      case Raised(tooLong, _) => ErrorCourse(cfg, Orchestrate(cfg, l.state, t), tooLong)
      case Answered(_, _, _, _) => ReplyCourse(l.recoveries, t.provided)
  }

  // ---------------------------------------------------------------- what parsing finds

  lemma {:induction false} ListFinds(bs: seq<RawBlock>)
    ensures ParseList(bs).calls == [] <==> forall i :: 0 <= i < |bs| ==> !bs[i].RawToolUse?
    ensures ParseList(bs).blocks == [] <==> forall i :: 0 <= i < |bs| ==> !IsShown(bs[i])
  {
    if bs != [] {
      ListFinds(bs[..|bs| - 1]);
    }
  }

  lemma ReplyFinds(content: RawContent, declared: seq<Call>)
    ensures Parse(content, declared).calls != [] <==> Calls(content, declared)
    ensures Parse(content, declared).blocks != [] <==> SaysSomething(content, declared)
  {
    var p := ParseContent(content);
    ListFinds(ListedBlocks(content));
    DeclaredExtends(p, declared);
    ParseListWell(ListedBlocks(content));
    if declared != [] {
      DeclaredKnown(p, declared, declared[0].id);
    }
    assert p.calls != [] ==> ToBlock(p.calls[0]) in p.blocks;
  }

  // ---------------------------------------------------------------- one turn

  predicate GoesOn(c: Course) { c in {FallsBack, Compacts, Recovers, Works} }

  function StatusOf(c: Course): Status {
    match c
    case Spent => BudgetHit
    case Fails => Returned("error")
    case SaysNothing => Returned("error_during_execution")
    case _ => if GoesOn(c) then Running else Exited
  }

  /** Whether the turn is one of those allowed. */
  predicate UsesTurn(c: Course) { c !in {Aborts, Spent, FallsBack, Compacts} }

  ghost predicate LeavesBehind(cfg: Config, c: Course, l: Loop, r: Loop) {
    && r.status == StatusOf(c)
    && r.turnsRemaining == l.turnsRemaining - (if UsesTurn(c) then 1 else 0)
    && r.state.turnCount == l.state.turnCount + (if UsesTurn(c) then 1 else 0)
    && r.state.activeModel == (if c == FallsBack && cfg.fallback.Some? then cfg.fallback.value else l.state.activeModel)
    && r.recoveries == (if c == Recovers then l.recoveries + 1 else if c in {Works, WorksLast} then 0 else l.recoveries)
  }

  lemma ReplyCounts(cfg: Config, l: Loop, r: Provided, env: ToolEnv)
    requires r.Answered?
    ensures var next := AfterReply(cfg, l, r, env);
            next.turnsRemaining == l.turnsRemaining && next.state.turnCount == l.state.turnCount
            && next.state.activeModel == l.state.activeModel
  {
  }

  /** Behind a reply, with the turn counted already. */
  lemma ReplyStops(cfg: Config, l: Loop, r: Provided, env: ToolEnv)
    requires l.status == Running && r.Answered?
    ensures AfterReply(cfg, l, r, env).status == StatusOf(ReplyCourse(l.recoveries, r))
  {
    ReplyFinds(r.content, r.declared);
  }

  lemma ReplyRecovers(cfg: Config, l: Loop, r: Provided, env: ToolEnv)
    requires r.Answered?
    ensures var c := ReplyCourse(l.recoveries, r);
            AfterReply(cfg, l, r, env).recoveries
              == if c == Recovers then l.recoveries + 1 else if c in {Works, WorksLast} then 0 else l.recoveries
  {
    ReplyFinds(r.content, r.declared);
  }

  lemma ErrorStops(cfg: Config, l: Loop, tooLong: bool, summary: Option<string>)
    requires l.status == Running
    ensures var c, next := ErrorCourse(cfg, l.state, tooLong), AfterError(cfg, l, tooLong, summary);
            var back := if c == Fails then 0 else 1;
            && next.status == StatusOf(c) && next.turnsRemaining == l.turnsRemaining + back
            && next.state.turnCount == l.state.turnCount - back && next.recoveries == l.recoveries
            && next.state.activeModel == (if c == FallsBack then cfg.fallback.value else l.state.activeModel)
  {
  }

  lemma AskCounts(cfg: Config, l: Loop, t: Turn)
    ensures var a, s := Ask(cfg, l, t), Orchestrate(cfg, l.state, t);
            && a.status == l.status && a.turnsRemaining == l.turnsRemaining - 1 && a.recoveries == l.recoveries
            && a.state.turnCount == l.state.turnCount + 1 && a.state.activeModel == l.state.activeModel
            && a.state.compact == s.compact && a.state.messages == s.messages && a.errors == l.errors
            && s.activeModel == l.state.activeModel
  {
  }

  /** The loop variables behind one turn. */
  lemma CourseStops(cfg: Config, l: Loop, t: Turn)
    requires l.status == Running
    ensures LeavesBehind(cfg, CourseOf(cfg, l, t), l, Iterate(cfg, l, t))
  {
    if Reaches(cfg, l, t) {
      AskCounts(cfg, l, t);
      match t.provided
      case Raised(tooLong, summary) => ErrorStops(cfg, Ask(cfg, l, t), tooLong, summary);
      case Answered(_, _, _, _) =>
        ReplyStops(cfg, Ask(cfg, l, t), t.provided, t.env);
        ReplyRecovers(cfg, Ask(cfg, l, t), t.provided, t.env);
        ReplyCounts(cfg, Ask(cfg, l, t), t.provided, t.env);
    }
  }

  /** The messages a turn adds to the transcript that the provider was shown. */
  function Said(cfg: Config, c: Course, t: Turn): seq<Message> {
    if !t.provided.Answered? || c !in {Recovers, Finishes, Works, WorksLast} then []
    else
      var p := Parse(t.provided.content, t.provided.declared);
      [Message(Assistant, Blocks(p.blocks))]
      + match c
        case Recovers => [Message(User, Text("Please continue from where you left off."))]
        case Finishes => []
        case _ => [Message(User, Blocks(ResultBlocks(Answers(cfg.gate, t.env, p.calls))))]
  }

  /** The texts a turn adds to the list of errors: of every failed tool answer, or the one for an empty reply. */
  function Complaints(cfg: Config, c: Course, t: Turn): seq<string> {
    if !t.provided.Answered? then []
    else if c == SaysNothing then
      ["Model returned an empty response (no text and no tool calls). Please check model/provider compatibility."]
    else if c in {Works, WorksLast} then
      ErrorOutputs(Answers(cfg.gate, t.env, Parse(t.provided.content, t.provided.declared).calls))
    else []
  }

  lemma AnswersExist(gate: Gate, env: ToolEnv, calls: seq<Call>)
    ensures Answers(gate, env, calls) == [] <==> calls == []
  {
    EachCallAnsweredOnce(gate, env, calls);
    assert |multiset(AnswerIds(Answers(gate, env, calls)))| == |multiset(CallIds(calls))|;
  }

  lemma ReplyWrites(cfg: Config, l: Loop, t: Turn)
    requires t.provided.Answered?
    ensures var c, next := ReplyCourse(l.recoveries, t.provided), AfterReply(cfg, l, t.provided, t.env);
            next.state.messages == l.state.messages + Said(cfg, c, t) && next.errors == l.errors + Complaints(cfg, c, t)
  {
    ReplyFinds(t.provided.content, t.provided.declared);
    AnswersExist(cfg.gate, t.env, Parse(t.provided.content, t.provided.declared).calls);
  }

  lemma ErrorWrites(cfg: Config, l: Loop, tooLong: bool, summary: Option<string>)
    requires ErrorCourse(cfg, l.state, tooLong) != Compacts
    ensures var next := AfterError(cfg, l, tooLong, summary);
            next.state.messages == l.state.messages && next.errors == l.errors
  {
  }

  /** Transcript and errors behind one turn, unless it compacts. */
  lemma CourseSays(cfg: Config, l: Loop, t: Turn)
    requires CourseOf(cfg, l, t) != Compacts
    ensures var c, r := CourseOf(cfg, l, t), Iterate(cfg, l, t);
            var shown := if c in {Aborts, Spent} then l.state.messages else Orchestrate(cfg, l.state, t).messages;
            r.state.messages == shown + Said(cfg, c, t) && r.errors == l.errors + Complaints(cfg, c, t)
  {
    if Reaches(cfg, l, t) {
      AskCounts(cfg, l, t);
      match t.provided
      case Raised(tooLong, summary) =>
        ErrorWrites(cfg, Ask(cfg, l, t), tooLong, summary);
      case Answered(_, _, _, _) => ReplyWrites(cfg, Ask(cfg, l, t), t);
    }
  }

  /** A turn that compacts puts the compacted transcript in place of the one the provider was shown. */
  lemma CourseCompacts(cfg: Config, l: Loop, t: Turn)
    requires l.status == Running && CourseOf(cfg, l, t) == Compacts
    ensures var s, r := Orchestrate(cfg, l.state, t), Iterate(cfg, l, t);
            var compacted := CompactConversation(s.messages, s.compact, cfg.window.keepRecent, cfg.window.earliest, t.provided.summary);
            && r.state.messages == compacted.messages && r.state.compact == compacted.state && r.errors == l.errors
  {
  }

  /** Before the provider is asked, the transcript is compacted if and only if that is enabled, the threshold
      is passed and the summariser has not failed three times in a row; otherwise nothing changes. */
  lemma OrchestrateIff(cfg: Config, s: State, t: Turn)
    ensures var r := Orchestrate(cfg, s, t);
            var compacted := CompactConversation(s.messages, s.compact, cfg.window.keepRecent, cfg.window.earliest, t.summary);
            if cfg.window.enabled && t.overThreshold && s.compact.failures < 3
            then r.messages == compacted.messages && r.compact == compacted.state
            else r == s
  {
  }

  // ---------------------------------------------------------------- a whole run

  /** The loop is going when turn `k` of the script comes, and that turn takes the course `c`. */
  predicate Takes(cfg: Config, l: Loop, script: seq<Turn>, k: int, c: Course) {
    0 <= k < |script| && Going(RunLoop(cfg, l, script[..k])) && CourseOf(cfg, RunLoop(cfg, l, script[..k]), script[k]) == c
  }

  lemma {:induction false} RunSnoc(cfg: Config, l: Loop, script: seq<Turn>, t: Turn)
    ensures var r := RunLoop(cfg, l, script);
            RunLoop(cfg, l, script + [t]) == if Going(r) then Iterate(cfg, r, t) else r
    decreases |script|
  {
    if script == [] {
      assert [] + [t] == [t] && [t][1..] == [];
    } else if Going(l) {
      RunSnoc(cfg, Iterate(cfg, l, script[0]), script[1..], t);
      assert (script + [t])[1..] == script[1..] + [t];
    }
  }

  ghost predicate StoppedBy(cfg: Config, l: Loop, script: seq<Turn>, c: Course) {
    exists k :: Takes(cfg, l, script, k, c)
  }

  lemma TakesSnoc(cfg: Config, l: Loop, script: seq<Turn>, c: Course)
    requires script != []
    ensures var n := |script| - 1;
            StoppedBy(cfg, l, script, c) <==> StoppedBy(cfg, l, script[..n], c) || Takes(cfg, l, script, n, c)
  {
    var n := |script| - 1;
    if k :| Takes(cfg, l, script[..n], k, c) {
      assert script[..n][..k] == script[..k];
      assert Takes(cfg, l, script, k, c);
    }
    if k :| Takes(cfg, l, script, k, c) && k < n {
      assert script[..n][..k] == script[..k];
      assert Takes(cfg, l, script[..n], k, c);
    }
  }

  /** Why a run that was going is where it is. */
  ghost predicate Explained(cfg: Config, l: Loop, script: seq<Turn>) {
    var r := RunLoop(cfg, l, script);
    && (r.status == Exited <==>
          StoppedBy(cfg, l, script, Aborts) || StoppedBy(cfg, l, script, Finishes) || StoppedBy(cfg, l, script, WorksLast))
    && (r.status == BudgetHit <==> StoppedBy(cfg, l, script, Spent))
    && (r.status == Returned("error") <==> StoppedBy(cfg, l, script, Fails))
    && (r.status == Returned("error_during_execution") <==> StoppedBy(cfg, l, script, SaysNothing))
    && (r.status.Returned? ==> r.status.subtype in {"error", "error_during_execution"})
  }

  /** Over every run: the loop is left by a turn that was aborted, that answered without a tool call, or
      whose tool stage the reply meant to be the last, and by no other; the budget, a provider error and an
      empty reply stop it in their own ways; everything else goes on. */
  lemma {:induction false} StopsIff(cfg: Config, l: Loop, script: seq<Turn>)
    requires l.status == Running
    ensures Explained(cfg, l, script)
    decreases |script|
  {
    if script != [] {
      StopsIff(cfg, l, script[..|script| - 1]);
      StopStep(cfg, l, script);
    }
  }

  lemma StopStep(cfg: Config, l: Loop, script: seq<Turn>)
    requires script != [] && Explained(cfg, l, script[..|script| - 1])
    ensures Explained(cfg, l, script)
  {
    var n := |script| - 1;
    var r := RunLoop(cfg, l, script[..n]);
    assert script == script[..n] + [script[n]];
    RunSnoc(cfg, l, script[..n], script[n]);
    TakesSnoc(cfg, l, script, Aborts);
    TakesSnoc(cfg, l, script, Finishes);
    TakesSnoc(cfg, l, script, WorksLast);
    TakesSnoc(cfg, l, script, Spent);
    TakesSnoc(cfg, l, script, Fails);
    TakesSnoc(cfg, l, script, SaysNothing);
    if Going(r) {
      CourseStops(cfg, r, script[n]);
    }
  }

  // ---------------------------------------------------------------- turns used

  /** How many of the turns that were taken count against the limit. */
  function Used(cfg: Config, l: Loop, script: seq<Turn>): nat {
    if script == [] then 0
    else
      var n := |script| - 1;
      var r := RunLoop(cfg, l, script[..n]);
      Used(cfg, l, script[..n]) + if Going(r) && UsesTurn(CourseOf(cfg, r, script[n])) then 1 else 0
  }

  lemma {:induction false} TurnsUsed(cfg: Config, l: Loop, script: seq<Turn>)
    requires l.status == Running
    ensures RunLoop(cfg, l, script).turnsRemaining == l.turnsRemaining - Used(cfg, l, script)
    decreases |script|
  {
    if script != [] {
      var n := |script| - 1;
      TurnsUsed(cfg, l, script[..n]);
      assert script == script[..n] + [script[n]];
      RunSnoc(cfg, l, script[..n], script[n]);
      if Going(RunLoop(cfg, l, script[..n])) {
        CourseStops(cfg, RunLoop(cfg, l, script[..n]), script[n]);
      }
    }
  }

  /** The loop was left on purpose: aborted, answered, or done with its last tool stage. */
  ghost predicate Left(cfg: Config, l: Loop, script: seq<Turn>) {
    StoppedBy(cfg, l, script, Aborts) || StoppedBy(cfg, l, script, Finishes) || StoppedBy(cfg, l, script, WorksLast)
  }

  /** How a submission is closed. */
  ghost predicate Closes(subtype: Option<string>, cfg: Config, l: Loop, script: seq<Turn>) {
    && (subtype == Some("error_max_budget_usd") <==> StoppedBy(cfg, l, script, Spent))
    && (subtype == Some("error") <==> StoppedBy(cfg, l, script, Fails))
    && (subtype == Some("error_during_execution") <==> StoppedBy(cfg, l, script, SaysNothing))
    && (subtype == Some("success") <==> Left(cfg, l, script) && Used(cfg, l, script) < cfg.maxTurns)
    && (subtype == Some("error_max_turns") <==>
          && Used(cfg, l, script) >= cfg.maxTurns
          && !StoppedBy(cfg, l, script, Spent) && !StoppedBy(cfg, l, script, Fails) && !StoppedBy(cfg, l, script, SaysNothing))
    && (subtype == None <==>
          && Used(cfg, l, script) < cfg.maxTurns && !Left(cfg, l, script)
          && !StoppedBy(cfg, l, script, Spent) && !StoppedBy(cfg, l, script, Fails) && !StoppedBy(cfg, l, script, SaysNothing))
  }

  /** The closing subtype of every submission, told from its turns. */
  lemma SubmissionCloses(cfg: Config, s: State, sub: Submission)
    ensures Closes(Subtype(Submit(cfg, s, sub)), cfg, Begin(cfg, s, sub.prompt), sub.script)
  {
    StopsIff(cfg, Begin(cfg, s, sub.prompt), sub.script);
    TurnsUsed(cfg, Begin(cfg, s, sub.prompt), sub.script);
  }

  // ---------------------------------------------------------------- what a run says

  /** The runs of the loop from `l` on, one for every script. */
  function RunsFrom(cfg: Config, l: Loop): seq<Turn> -> Loop {
    (script: seq<Turn>) => RunLoop(cfg, l, script)
  }

  /** `run` takes one turn after the other. */
  ghost predicate Drives(cfg: Config, run: seq<Turn> -> Loop) {
    forall script: seq<Turn>, t :: run(script + [t]) == if Going(run(script)) then Iterate(cfg, run(script), t) else run(script)
  }

  lemma RunsDrive(cfg: Config, l: Loop)
    ensures Drives(cfg, RunsFrom(cfg, l)) && RunsFrom(cfg, l)([]) == l
  {
    forall script: seq<Turn>, t
      ensures var run := RunsFrom(cfg, l);
              run(script + [t]) == if Going(run(script)) then Iterate(cfg, run(script), t) else run(script)
    {
      RunSnoc(cfg, l, script, t);
    }
  }

  /** What the turns of a script add, each in the state it finds. */
  function Sum<T>(run: seq<Turn> -> Loop, add: (Loop, Turn) -> seq<T>, script: seq<Turn>): seq<T> {
    if script == [] then []
    else
      var n := |script| - 1;
      Sum(run, add, script[..n]) + add(run(script[..n]), script[n])
  }

  lemma PastTakes(script: seq<Turn>, k: nat)
    requires k + 1 < |script|
    ensures var past := script[..|script| - 1];
            past[..k + 1] == script[..k + 1] && past[..k] == script[..k] && past[k] == script[k]
  {
  }

  lemma {:induction false} SumIs<T>(
    run: seq<Turn> -> Loop, part: Loop -> seq<T>, add: (Loop, Turn) -> seq<T>, script: seq<Turn>)
    requires forall k :: 0 <= k < |script| ==> part(run(script[..k + 1])) == part(run(script[..k])) + add(run(script[..k]), script[k])
    ensures part(run(script)) == part(run([])) + Sum(run, add, script)
    decreases |script|
  {
    if script != [] {
      var n := |script| - 1;
      var past := script[..n];
      forall k | 0 <= k < n ensures part(run(past[..k + 1])) == part(run(past[..k])) + add(run(past[..k]), past[k]) {
        PastTakes(script, k);
      }
      SumIs(run, part, add, past);
      assert script[..n + 1] == script;
    }
  }

  /** What a turn adds to the transcript, if it is taken. */
  function AddsSaid(cfg: Config): (Loop, Turn) -> seq<Message> {
    (r: Loop, t: Turn) => if Going(r) then Said(cfg, CourseOf(cfg, r, t), t) else []
  }

  /** What it adds to the errors. */
  function AddsComplaints(cfg: Config): (Loop, Turn) -> seq<string> {
    (r: Loop, t: Turn) => if Going(r) then Complaints(cfg, CourseOf(cfg, r, t), t) else []
  }

  function MessagesOf(r: Loop): seq<Message> { r.state.messages }

  function ErrorsOf(r: Loop): seq<string> { r.errors }

  /** No turn compacts, neither before the provider is asked nor because it raised. */
  ghost predicate NeverCompacts(cfg: Config, run: seq<Turn> -> Loop, script: seq<Turn>) {
    && !cfg.window.enabled
    && forall k :: 0 <= k < |script| ==> CourseOf(cfg, run(script[..k]), script[k]) != Compacts
  }

  lemma TurnSays(cfg: Config, r: Loop, t: Turn)
    requires !cfg.window.enabled && CourseOf(cfg, r, t) != Compacts
    ensures var c, next := CourseOf(cfg, r, t), Iterate(cfg, r, t);
            next.state.messages == r.state.messages + Said(cfg, c, t) && next.errors == r.errors + Complaints(cfg, c, t)
  {
    CourseSays(cfg, r, t);
  }

  /** What one more turn adds. */
  lemma LastSays(cfg: Config, run: seq<Turn> -> Loop, past: seq<Turn>, t: Turn)
    requires Drives(cfg, run) && !cfg.window.enabled && CourseOf(cfg, run(past), t) != Compacts
    ensures MessagesOf(run(past + [t])) == MessagesOf(run(past)) + AddsSaid(cfg)(run(past), t)
    ensures ErrorsOf(run(past + [t])) == ErrorsOf(run(past)) + AddsComplaints(cfg)(run(past), t)
  {
    if Going(run(past)) {
      TurnSays(cfg, run(past), t);
    }
  }

  lemma SaysAt(cfg: Config, run: seq<Turn> -> Loop, script: seq<Turn>, k: nat)
    requires Drives(cfg, run) && k < |script| && NeverCompacts(cfg, run, script)
    ensures MessagesOf(run(script[..k + 1])) == MessagesOf(run(script[..k])) + AddsSaid(cfg)(run(script[..k]), script[k])
    ensures ErrorsOf(run(script[..k + 1])) == ErrorsOf(run(script[..k])) + AddsComplaints(cfg)(run(script[..k]), script[k])
  {
    LastSays(cfg, run, script[..k], script[k]);
    assert script[..k] + [script[k]] == script[..k + 1];
  }

  lemma RunSays(cfg: Config, run: seq<Turn> -> Loop, script: seq<Turn>)
    requires Drives(cfg, run) && NeverCompacts(cfg, run, script)
    ensures MessagesOf(run(script)) == MessagesOf(run([])) + Sum(run, AddsSaid(cfg), script)
    ensures ErrorsOf(run(script)) == ErrorsOf(run([])) + Sum(run, AddsComplaints(cfg), script)
  {
    var said, complained := AddsSaid(cfg), AddsComplaints(cfg);
    forall k | 0 <= k < |script|
      ensures MessagesOf(run(script[..k + 1])) == MessagesOf(run(script[..k])) + said(run(script[..k]), script[k])
      ensures ErrorsOf(run(script[..k + 1])) == ErrorsOf(run(script[..k])) + complained(run(script[..k]), script[k])
    {
      SaysAt(cfg, run, script, k);
    }
    SumIs(run, MessagesOf, said, script);
    SumIs(run, ErrorsOf, complained, script);
  }

  /** Where nothing is compacted, a submission leaves the old transcript, its prompt and what its turns said,
      in order, and the errors are what its turns complained of. */
  lemma SubmissionSays(cfg: Config, s: State, sub: Submission)
    requires NeverCompacts(cfg, RunsFrom(cfg, Begin(cfg, s, sub.prompt)), sub.script)
    ensures var run, r := RunsFrom(cfg, Begin(cfg, s, sub.prompt)), Submit(cfg, s, sub);
            && r.state.messages == s.messages + [Message(User, sub.prompt)] + Sum(run, AddsSaid(cfg), sub.script)
            && r.errors == Sum(run, AddsComplaints(cfg), sub.script)
  {
    var run := RunsFrom(cfg, Begin(cfg, s, sub.prompt));
    RunsDrive(cfg, Begin(cfg, s, sub.prompt));
    RunSays(cfg, run, sub.script);
    assert [] + Sum(run, AddsComplaints(cfg), sub.script) == Sum(run, AddsComplaints(cfg), sub.script);
  }

  // ---------------------------------------------------------------- a run of tools and then a reply

  /** An answer that calls tools and is neither the last word nor cut off. */
  predicate ToolReply(t: Turn) {
    && !t.aborted && t.provided.Answered? && t.provided.stop == OtherReason
    && Calls(t.provided.content, t.provided.declared)
  }

  predicate TextReply(t: Turn) {
    && !t.aborted && t.provided.Answered? && t.provided.stop != MaxTokens
    && SaysSomething(t.provided.content, t.provided.declared) && !Calls(t.provided.content, t.provided.declared)
  }

  predicate Reply(t: Turn) { ToolReply(t) || TextReply(t) }

  lemma ReplyAsks(cfg: Config, l: Loop, t: Turn)
    requires Reply(t) && cfg.budget.None?
    ensures Count(IsAsked, Iterate(cfg, l, t).state.log) == Count(IsAsked, l.state.log) + 1
  {
    IterateLog(cfg, l, t);
    CountConcat(IsAsked, l.state.log, Emitted(cfg, l, t));
    EmittedAsks(cfg, l, t);
  }

  lemma EmittedAsks(cfg: Config, l: Loop, t: Turn)
    requires Reply(t) && cfg.budget.None?
    ensures Count(IsAsked, Emitted(cfg, l, t)) == 1
  {
    RestQuiet(cfg, l, t);
    AskedOnce(AutoEvents(cfg, l.state, t), l.state.activeModel, Rest(cfg, l, t));
  }

  lemma RestQuiet(cfg: Config, l: Loop, t: Turn)
    requires t.provided.Answered?
    ensures forall i :: 0 <= i < |Rest(cfg, l, t)| ==> !IsAsked(Rest(cfg, l, t)[i])
  {
  }

  lemma AskedOnce(auto: seq<Event>, model: string, rest: seq<Event>)
    requires forall i :: 0 <= i < |auto| ==> !IsAsked(auto[i])
    requires forall i :: 0 <= i < |rest| ==> !IsAsked(rest[i])
    ensures Count(IsAsked, auto + [Asked(model)] + rest) == 1
  {
    CountConcat(IsAsked, auto + [Asked(model)], rest);
    CountConcat(IsAsked, auto, [Asked(model)]);
    CountOne(IsAsked, Asked(model));
    CountNothing(IsAsked, auto);
    CountNothing(IsAsked, rest);
  }

  lemma ToolOnce(cfg: Config, l: Loop, script: seq<Turn>) returns (next: Loop)
    requires l.status == Running && l.turnsRemaining > 0 && cfg.budget.None? && script != [] && ToolReply(script[0])
    ensures RunLoop(cfg, l, script) == RunLoop(cfg, next, script[1..])
    ensures next.status == Running && next.turnsRemaining == l.turnsRemaining - 1
    ensures Count(IsAsked, next.state.log) == Count(IsAsked, l.state.log) + 1
  {
    next := Iterate(cfg, l, script[0]);
    ToolTurn(cfg, l, script[0]);
  }

  lemma ToolTurn(cfg: Config, l: Loop, t: Turn)
    requires l.status == Running && cfg.budget.None? && ToolReply(t)
    ensures var r := Iterate(cfg, l, t);
            && r.status == Running && r.turnsRemaining == l.turnsRemaining - 1
            && Count(IsAsked, r.state.log) == Count(IsAsked, l.state.log) + 1
  {
    CourseStops(cfg, l, t);
    ReplyAsks(cfg, l, t);
  }

  lemma TextTurn(cfg: Config, l: Loop, last: Turn)
    requires l.status == Running && cfg.budget.None? && TextReply(last)
    ensures var r := Iterate(cfg, l, last);
            && r.status == Exited && r.turnsRemaining == l.turnsRemaining - 1
            && Count(IsAsked, r.state.log) == Count(IsAsked, l.state.log) + 1
  {
    CourseStops(cfg, l, last);
    ReplyAsks(cfg, l, last);
  }

  lemma TextOnce(cfg: Config, l: Loop, last: Turn)
    requires l.status == Running && l.turnsRemaining > 0 && cfg.budget.None? && TextReply(last)
    ensures var r := RunLoop(cfg, l, [last]);
            && r.status == Exited && r.turnsRemaining == l.turnsRemaining - 1
            && Count(IsAsked, r.state.log) == Count(IsAsked, l.state.log) + 1
  {
    var run := RunsFrom(cfg, l);
    RunsDrive(cfg, l);
    TextTurn(cfg, l, last);
    assert [] + [last] == [last];
    assert run([last]) == Iterate(cfg, l, last);
  }

  lemma {:induction false} ToolsRun(cfg: Config, l: Loop, tools: seq<Turn>, last: Turn)
    requires l.status == Running && cfg.budget.None? && |tools| < l.turnsRemaining
    requires (forall k :: 0 <= k < |tools| ==> ToolReply(tools[k])) && TextReply(last)
    ensures var r := RunLoop(cfg, l, tools + [last]);
            && r.status == Exited && r.turnsRemaining == l.turnsRemaining - |tools| - 1
            && Count(IsAsked, r.state.log) == Count(IsAsked, l.state.log) + |tools| + 1
    decreases |tools|
  {
    if tools == [] {
      TextOnce(cfg, l, last);
      assert tools + [last] == [last];
    } else {
      var next := ToolOnce(cfg, l, tools + [last]);
      assert (tools + [last])[1..] == tools[1..] + [last];
      ToolsRun(cfg, next, tools[1..], last);
    }
  }

  /** Any number of tool replies within the turns allowed and then a text reply: the provider is asked once
      for each, and the submission succeeds unless the text took the last turn. */
  lemma ToolsThenText(cfg: Config, s: State, prompt: Content, tools: seq<Turn>, last: Turn)
    requires cfg.budget.None? && |tools| < cfg.maxTurns
    requires (forall k :: 0 <= k < |tools| ==> ToolReply(tools[k])) && TextReply(last)
    ensures var r := Submit(cfg, s, Submission(false, prompt, tools + [last]));
            && Count(IsAsked, r.state.log) == Count(IsAsked, s.log) + |tools| + 1
            && Subtype(r) == Some(if |tools| + 1 < cfg.maxTurns then "success" else "error_max_turns")
  {
    ToolsRun(cfg, Begin(cfg, s, prompt), tools, last);
  }
}
