/**
 Turns, provider calls, fallback and compaction over every run of the agent loop. All statements are
 about `RunLoop` and `Session` of module Engine, which `QueryEngine.SubmitMessage` computes.
 */
module EngineRuns {
  import opened Arithmetic
  import opened Messages
  import opened Options
  import opened Compaction
  import opened ToolStage
  import opened Engine

  function Count(p: Event -> bool, log: seq<Event>): nat {
    if log == [] then 0 else Count(p, log[..|log| - 1]) + (if p(log[|log| - 1]) then 1 else 0)
  }

  predicate IsAsked(e: Event) { e.Asked? }

  predicate IsFellBack(e: Event) { e.FellBack? }

  predicate IsForced(e: Event) { e.Compacted? && !e.auto }

  predicate IsSummarised(e: Event) { e.Compacted? && e.outcome == Summarised }

  predicate IsRecovered(e: Event) { e.Recovered? }

  lemma {:induction false} CountConcat(p: Event -> bool, a: seq<Event>, b: seq<Event>)
    ensures Count(p, a + b) == Count(p, a) + Count(p, b)
  {
    if b == [] {
      assert a + b == a;
    } else {
      CountConcat(p, a, b[..|b| - 1]);
      assert (a + b)[..|a + b| - 1] == a + b[..|b| - 1];
    }
  }

  // ---------------------------------------------------------------- the events of one turn

  function AutoEvents(cfg: Config, s: State, t: Turn): seq<Event> {
    match Orchestrated(cfg.window, s.messages, s.compact, t.overThreshold, t.summary)
    case None => []
    case Some(r) => [Compacted(true, r.outcome)]
  }

  function ErrorEvents(cfg: Config, s: State, tooLong: bool, summary: Option<string>): seq<Event> {
    if CanFallBack(cfg, s) then [FellBack]
    else if tooLong && !s.compact.compacted then
      [Compacted(false, CompactConversation(s.messages, s.compact, cfg.window.keepRecent, cfg.window.earliest, summary).outcome)]
    else []
  }

  function ReplyEvents(cfg: Config, model: string, recoveries: nat, r: Provided, env: ToolEnv): seq<Event>
    requires r.Answered?
  {
    var p := Parse(r.content, r.declared);
    [Billed(model, r.usage)]
    + (if p.blocks == [] && p.calls == [] then []
       else if r.stop == MaxTokens && recoveries < MAX_RECOVERIES then [Recovered]
       else if p.calls == [] then []
       else [UsedTools(p.blocks, p.calls, Answers(cfg.gate, env, p.calls), env)])
  }

  /** What a turn that reaches the provider does behind the question. */
  function Rest(cfg: Config, l: Loop, t: Turn): seq<Event> {
    var s := Orchestrate(cfg, l.state, t);
    match t.provided
    case Raised(tooLong, summary) => ErrorEvents(cfg, s, tooLong, summary)
    case Answered(_, _, _, _) => ReplyEvents(cfg, s.activeModel, l.recoveries, t.provided, t.env)
  }

  predicate Reaches(cfg: Config, l: Loop, t: Turn) {
    !t.aborted && !OverBudget(cfg, l.state.cost)
  }

  function Emitted(cfg: Config, l: Loop, t: Turn): seq<Event> {
    if !Reaches(cfg, l, t) then []
    else AutoEvents(cfg, l.state, t) + [Asked(l.state.activeModel)] + Rest(cfg, l, t)
  }

  lemma OrchestrateLog(cfg: Config, s: State, t: Turn)
    ensures Orchestrate(cfg, s, t).log == s.log + AutoEvents(cfg, s, t)
    ensures Orchestrate(cfg, s, t).activeModel == s.activeModel
    ensures Orchestrate(cfg, s, t).cost == s.cost
  {
  }

  lemma ReplyLog(cfg: Config, l: Loop, r: Provided, env: ToolEnv)
    requires r.Answered?
    ensures AfterReply(cfg, l, r, env).state.log
         == l.state.log + ReplyEvents(cfg, l.state.activeModel, l.recoveries, r, env)
  {
  }

  lemma {:induction false} IterateLog(cfg: Config, l: Loop, t: Turn)
    ensures Iterate(cfg, l, t).state.log == l.state.log + Emitted(cfg, l, t)
  {
    if Reaches(cfg, l, t) {
      OrchestrateLog(cfg, l.state, t);
      match t.provided
      case Raised(_, _) =>
      case Answered(_, _, _, _) => ReplyLog(cfg, Ask(cfg, l, t), t.provided, t.env);
    }
  }

  // ---------------------------------------------------------------- turn accounting

  /** Turns taken and turns left always add up to the same number, in both refund branches too; a
      turn is used up unless the provider raised and the loop went on. */
  lemma TurnBalance(cfg: Config, l: Loop, t: Turn)
    ensures Iterate(cfg, l, t).state.turnCount + Iterate(cfg, l, t).turnsRemaining
         == l.state.turnCount + l.turnsRemaining
    ensures Iterate(cfg, l, t).turnsRemaining
         == if Reaches(cfg, l, t) && (t.provided.Raised? ==> Rest(cfg, l, t) == []) then l.turnsRemaining - 1
            else l.turnsRemaining
  {
  }

  /** Provider calls minus refunds; refunds are exactly the fallbacks and forced compactions. */
  function Net(log: seq<Event>): int {
    Count(IsAsked, log) - Count(IsFellBack, log) - Count(IsForced, log)
  }

  lemma NetConcat(a: seq<Event>, b: seq<Event>)
    ensures Net(a + b) == Net(a) + Net(b)
  {
    CountConcat(IsAsked, a, b);
    CountConcat(IsFellBack, a, b);
    CountConcat(IsForced, a, b);
  }

  lemma NetEmitted(cfg: Config, l: Loop, t: Turn)
    ensures Net(Emitted(cfg, l, t)) + Iterate(cfg, l, t).turnsRemaining == l.turnsRemaining
  {
    TurnBalance(cfg, l, t);
    if Reaches(cfg, l, t) {
      var auto, ask, rest := AutoEvents(cfg, l.state, t), [Asked(l.state.activeModel)], Rest(cfg, l, t);
      NetConcat(auto + ask, rest);
      NetConcat(auto, ask);
      if auto != [] { NetOne(auto[0]); }
      NetOne(ask[0]);
      RestNet(cfg, l, t);
    }
  }

  lemma RestNet(cfg: Config, l: Loop, t: Turn)
    ensures Net(Rest(cfg, l, t)) == if t.provided.Raised? && Rest(cfg, l, t) != [] then -1 else 0
  {
    var rest := Rest(cfg, l, t);
    if t.provided.Answered? {
      NetConcat(rest[..1], rest[1..]);
      assert rest == rest[..1] + rest[1..];
      NetOne(rest[0]);
      if |rest| > 1 { NetOne(rest[1]); assert rest[1..] == [rest[1]]; }
    } else if rest != [] {
      NetOne(rest[0]);
    }
  }

  lemma CountOne(p: Event -> bool, e: Event)
    ensures Count(p, [e]) == if p(e) then 1 else 0
  {
    assert [e][..0] == [];
  }

  lemma NetOne(e: Event)
    ensures Net([e]) == if e.Asked? then 1 else if e.FellBack? || IsForced(e) then -1 else 0
  {
    CountOne(IsAsked, e);
    CountOne(IsFellBack, e);
    CountOne(IsForced, e);
  }

  lemma {:induction false} RunBalance(cfg: Config, l: Loop, script: seq<Turn>)
    ensures var r := RunLoop(cfg, l, script);
            && l.state.log <= r.state.log
            && Net(r.state.log) + r.turnsRemaining == Net(l.state.log) + l.turnsRemaining
            && r.state.turnCount + r.turnsRemaining == l.state.turnCount + l.turnsRemaining
            && Min(0, l.turnsRemaining) <= r.turnsRemaining
    decreases |script|
  {
    if script != [] && Going(l) {
      var next := Iterate(cfg, l, script[0]);
      IterateLog(cfg, l, script[0]);
      NetConcat(l.state.log, Emitted(cfg, l, script[0]));
      NetEmitted(cfg, l, script[0]);
      TurnBalance(cfg, l, script[0]);
      RunBalance(cfg, next, script[1..]);
    }
  }

  // ---------------------------------------------------------------- fallback and compaction

  /** Consecutive summariser failures since the last success. */
  function Failures(log: seq<Event>): nat {
    if log == [] then 0
    else
      var before := Failures(log[..|log| - 1]);
      match log[|log| - 1]
      case Compacted(_, Summarised) => 0
      case Compacted(_, SummariserFailed) => before + 1
      case _ => before
  }

  /** What may happen after `before`. The orchestrator leaves the summariser alone once three failures
      have accumulated; a forced compaction comes only before the first success; a fallback only once. */
  ghost predicate Proper(before: seq<Event>, e: Event) {
    match e
    case Compacted(true, _) => Failures(before) < MAX_CONSECUTIVE_FAILURES
    case Compacted(false, _) => Count(IsSummarised, before) == 0
    case FellBack => Count(IsFellBack, before) == 0
    case _ => true
  }

  ghost predicate Disciplined(log: seq<Event>) {
    forall i :: 0 <= i < |log| ==> Proper(log[..i], log[i])
  }

  /** The engine's model and compaction state are functions of what happened so far. */
  ghost predicate Tracks(cfg: Config, model: string, active: string, compact: AutoCompactState, log: seq<Event>) {
    && Disciplined(log)
    && (Count(IsFellBack, log) == 0 ==> active == model)
    && (Count(IsFellBack, log) > 0 ==> cfg.fallback.Some? && active == cfg.fallback.value)
    && (compact.compacted <==> Count(IsSummarised, log) > 0)
    && compact.failures == Failures(log)
  }

  lemma TracksNote(cfg: Config, model: string, active: string, compact: AutoCompactState, log: seq<Event>, e: Event)
    requires Tracks(cfg, model, active, compact, log)
    requires !e.Compacted? && !e.FellBack?
    ensures Tracks(cfg, model, active, compact, log + [e])
  {
    DisciplinedNote(log, e);
    CountConcat(IsFellBack, log, [e]);
    CountConcat(IsSummarised, log, [e]);
    CountOne(IsFellBack, e);
    CountOne(IsSummarised, e);
    assert (log + [e])[..|log|] == log;
  }

  lemma DisciplinedNote(log: seq<Event>, e: Event)
    requires Disciplined(log) && Proper(log, e)
    ensures Disciplined(log + [e])
  {
    var next := log + [e];
    forall i | 0 <= i < |next| ensures Proper(next[..i], next[i]) {
      assert next[..i] == log[..i];
    }
  }

  lemma TracksCompaction(
    cfg: Config, model: string, active: string, log: seq<Event>, auto: bool,
    messages: seq<Message>, compact: AutoCompactState, summary: Option<string>)
    requires Tracks(cfg, model, active, compact, log)
    requires if auto then compact.failures < MAX_CONSECUTIVE_FAILURES else !compact.compacted
    ensures var r := CompactConversation(messages, compact, cfg.window.keepRecent, cfg.window.earliest, summary);
            Tracks(cfg, model, active, r.state, log + [Compacted(auto, r.outcome)])
  {
    var r := CompactConversation(messages, compact, cfg.window.keepRecent, cfg.window.earliest, summary);
    var e := Compacted(auto, r.outcome);
    DisciplinedNote(log, e);
    CountConcat(IsFellBack, log, [e]);
    CountConcat(IsSummarised, log, [e]);
    CountOne(IsFellBack, e);
    CountOne(IsSummarised, e);
    assert (log + [e])[..|log|] == log;
  }

  lemma TracksFallback(cfg: Config, model: string, active: string, compact: AutoCompactState, log: seq<Event>)
    requires Tracks(cfg, model, active, compact, log)
    requires cfg.fallback.Some? && active != cfg.fallback.value
    ensures Tracks(cfg, model, cfg.fallback.value, compact, log + [FellBack])
  {
    DisciplinedNote(log, FellBack);
    CountConcat(IsFellBack, log, [FellBack]);
    CountConcat(IsSummarised, log, [FellBack]);
    CountOne(IsFellBack, FellBack);
    CountOne(IsSummarised, FellBack);
    assert (log + [FellBack])[..|log|] == log;
  }

  ghost predicate Tracked(cfg: Config, model: string, s: State) {
    Tracks(cfg, model, s.activeModel, s.compact, s.log)
  }

  lemma {:induction false} OrchestrateTracked(cfg: Config, model: string, s: State, t: Turn)
    requires Tracked(cfg, model, s)
    ensures Tracked(cfg, model, Orchestrate(cfg, s, t))
  {
    if cfg.window.enabled && ShouldAutoCompact(s.compact, t.overThreshold) {
      TracksCompaction(cfg, model, s.activeModel, s.log, true, s.messages, s.compact, t.summary);
    }
  }

  lemma {:induction false} ErrorTracked(cfg: Config, model: string, l: Loop, tooLong: bool, summary: Option<string>)
    requires Tracked(cfg, model, l.state)
    ensures Tracked(cfg, model, AfterError(cfg, l, tooLong, summary).state)
  {
    var s := l.state;
    if CanFallBack(cfg, s) {
      TracksFallback(cfg, model, s.activeModel, s.compact, s.log);
    } else if tooLong && !s.compact.compacted {
      TracksCompaction(cfg, model, s.activeModel, s.log, false, s.messages, s.compact, summary);
    }
  }

  predicate IsQuiet(e: Event) { !e.Compacted? && !e.FellBack? }

  lemma {:induction false} TracksQuiet(
    cfg: Config, model: string, active: string, compact: AutoCompactState, log: seq<Event>, events: seq<Event>)
    requires Tracks(cfg, model, active, compact, log)
    requires forall i :: 0 <= i < |events| ==> IsQuiet(events[i])
    ensures Tracks(cfg, model, active, compact, log + events)
    decreases |events|
  {
    if events == [] {
      assert log + events == log;
    } else {
      var front, last := events[..|events| - 1], events[|events| - 1];
      TracksQuiet(cfg, model, active, compact, log, front);
      TracksNote(cfg, model, active, compact, log + front, last);
      assert log + front + [last] == log + events;
    }
  }

  lemma ReplyQuiet(cfg: Config, model: string, recoveries: nat, r: Provided, env: ToolEnv)
    requires r.Answered?
    ensures var events := ReplyEvents(cfg, model, recoveries, r, env);
            forall i :: 0 <= i < |events| ==> IsQuiet(events[i])
  {
  }

  lemma ReplyTracked(cfg: Config, model: string, l: Loop, r: Provided, env: ToolEnv)
    requires r.Answered? && Tracked(cfg, model, l.state)
    ensures Tracked(cfg, model, AfterReply(cfg, l, r, env).state)
  {
    var s := l.state;
    ReplyLog(cfg, l, r, env);
    ReplyKeeps(cfg, l, r, env);
    ReplyQuiet(cfg, s.activeModel, l.recoveries, r, env);
    TracksQuiet(cfg, model, s.activeModel, s.compact, s.log, ReplyEvents(cfg, s.activeModel, l.recoveries, r, env));
  }

  lemma ReplyKeeps(cfg: Config, l: Loop, r: Provided, env: ToolEnv)
    requires r.Answered?
    ensures AfterReply(cfg, l, r, env).state.activeModel == l.state.activeModel
    ensures AfterReply(cfg, l, r, env).state.compact == l.state.compact
  {
  }

  lemma IterateTracked(cfg: Config, model: string, l: Loop, t: Turn)
    requires Tracked(cfg, model, l.state)
    ensures Tracked(cfg, model, Iterate(cfg, l, t).state)
  {
    if Reaches(cfg, l, t) {
      var s := Orchestrate(cfg, l.state, t);
      OrchestrateTracked(cfg, model, l.state, t);
      TracksNote(cfg, model, s.activeModel, s.compact, s.log, Asked(s.activeModel));
      match t.provided
      case Raised(tooLong, summary) => ErrorTracked(cfg, model, Ask(cfg, l, t), tooLong, summary);
      case Answered(_, _, _, _) => ReplyTracked(cfg, model, Ask(cfg, l, t), t.provided, t.env);
    }
  }

  lemma {:induction false} RunTracked(cfg: Config, model: string, l: Loop, script: seq<Turn>)
    requires Tracked(cfg, model, l.state)
    ensures Tracked(cfg, model, RunLoop(cfg, l, script).state)
    decreases |script|
  {
    if script != [] && Going(l) {
      IterateTracked(cfg, model, l, script[0]);
      RunTracked(cfg, model, Iterate(cfg, l, script[0]), script[1..]);
    }
  }

  lemma {:induction false} SessionTracked(cfg: Config, model: string, history: seq<Message>, subs: seq<Submission>)
    ensures Tracked(cfg, model, Session(cfg, Start(model, history), subs))
  {
    if subs != [] {
      var n := |subs| - 1;
      SessionTracked(cfg, model, history, subs[..n]);
      RunTracked(cfg, model, Begin(cfg, Session(cfg, Start(model, history), subs[..n]), subs[n].prompt), subs[n].script);
    }
  }


  // ---------------------------------------------------------------- how often the provider is asked

  /** The turns that the unblocked submissions may use. */
  function Allowance(cfg: Config, subs: seq<Submission>): nat {
    if subs == [] then 0
    else Allowance(cfg, subs[..|subs| - 1]) + (if subs[|subs| - 1].blocked then 0 else Max(0, cfg.maxTurns))
  }

  lemma {:induction false} SessionNet(cfg: Config, model: string, history: seq<Message>, subs: seq<Submission>)
    ensures Net(Session(cfg, Start(model, history), subs).log) <= Allowance(cfg, subs)
  {
    if subs != [] {
      var n := |subs| - 1;
      SessionNet(cfg, model, history, subs[..n]);
      var before := Session(cfg, Start(model, history), subs[..n]);
      RunBalance(cfg, Begin(cfg, before, subs[n].prompt), subs[n].script);
    }
  }

  lemma {:induction false} FallbackOnce(log: seq<Event>)
    requires Disciplined(log)
    ensures Count(IsFellBack, log) <= 1
  {
    if log != [] {
      var n := |log| - 1;
      DisciplinedPrefix(log, n);
      FallbackOnce(log[..n]);
      assert Proper(log[..n], log[n]);
    }
  }

  lemma DisciplinedPrefix(log: seq<Event>, n: nat)
    requires Disciplined(log) && n <= |log|
    ensures Disciplined(log[..n])
  {
    forall i | 0 <= i < n ensures Proper(log[..n][..i], log[..n][i]) {
      assert log[..n][..i] == log[..i];
    }
  }

  ghost predicate ForcedSucceed(log: seq<Event>) {
    forall e :: e in log && IsForced(e) ==> e.outcome == Summarised
  }

  lemma {:induction false} ForcedOnce(log: seq<Event>)
    requires Disciplined(log) && ForcedSucceed(log)
    ensures Count(IsForced, log) <= 1
    ensures Count(IsForced, log) <= Count(IsSummarised, log)
  {
    if log != [] {
      var n := |log| - 1;
      DisciplinedPrefix(log, n);
      ForcedOnce(log[..n]);
      assert Proper(log[..n], log[n]);
    }
  }

  /** Over any session of an engine: the provider is asked once for each turn used up, once more for a
      fallback and once more for each forced compaction. So when every forced compaction succeeds, two
      extra questions are all there can be in the whole life of the engine. */
  lemma ProviderCallBound(cfg: Config, model: string, history: seq<Message>, subs: seq<Submission>)
    ensures var log := Session(cfg, Start(model, history), subs).log;
            && Count(IsFellBack, log) <= 1
            && Count(IsAsked, log) <= Allowance(cfg, subs) + Count(IsFellBack, log) + Count(IsForced, log)
            && (ForcedSucceed(log) ==> Count(IsAsked, log) <= Allowance(cfg, subs) + 2)
  {
    var log := Session(cfg, Start(model, history), subs).log;
    SessionNet(cfg, model, history, subs);
    SessionTracked(cfg, model, history, subs);
    FallbackOnce(log);
    if ForcedSucceed(log) {
      ForcedOnce(log);
    }
  }

  const TOO_LONG: Turn := Turn(false, false, None, Raised(true, None), DENY_ALL)

  // ---------------------------------------------------------------- exactly when the questions are bounded

  /** How often a run of the loop asks the provider. */
  function Questions(cfg: Config, l: Loop, script: seq<Turn>): int {
    Count(IsAsked, RunLoop(cfg, l, script).state.log) - Count(IsAsked, l.state.log)
  }

  /** One more question for a fallback that is still open. */
  function Spare(cfg: Config, s: State): nat {
    if CanFallBack(cfg, s) then 1 else 0
  }

  lemma QuietCounts(log: seq<Event>)
    requires forall i :: 0 <= i < |log| ==> !IsForced(log[i]) && !log[i].FellBack?
    ensures Count(IsForced, log) == Count(IsFellBack, log) == 0
  {
    CountNothing(IsForced, log);
    CountNothing(IsFellBack, log);
  }

  lemma {:induction false} CountNothing(p: Event -> bool, log: seq<Event>)
    requires forall i :: 0 <= i < |log| ==> !p(log[i])
    ensures Count(p, log) == 0
    decreases |log|
  {
    if log != [] {
      CountNothing(p, log[..|log| - 1]);
    }
  }

  /** In a turn of an engine that has compacted, the error branch can do no more than fall back, once. */
  lemma CompactedTurn(cfg: Config, l: Loop, t: Turn)
    requires l.state.compact.compacted && Reaches(cfg, l, t)
    ensures Iterate(cfg, l, t).state.compact.compacted
    ensures var rest := Rest(cfg, l, t);
            && (t.provided.Raised? ==> rest == if CanFallBack(cfg, l.state) then [FellBack] else [])
            && Spare(cfg, Iterate(cfg, l, t).state)
               == if t.provided.Raised? then 0 else Spare(cfg, l.state)
  {
  }

  lemma HeadCounts(cfg: Config, l: Loop, t: Turn)
    ensures var head := AutoEvents(cfg, l.state, t) + [Asked(l.state.activeModel)];
            Count(IsForced, head) == Count(IsFellBack, head) == 0
  {
    QuietCounts(AutoEvents(cfg, l.state, t) + [Asked(l.state.activeModel)]);
  }

  lemma RestCounts(cfg: Config, l: Loop, t: Turn)
    requires l.state.compact.compacted && Reaches(cfg, l, t)
    ensures Count(IsForced, Rest(cfg, l, t)) == 0
    ensures Count(IsFellBack, Rest(cfg, l, t)) == if t.provided.Raised? then Spare(cfg, l.state) else 0
  {
    if t.provided.Raised? {
      CompactedTurn(cfg, l, t);
      CountOne(IsForced, FellBack);
      CountOne(IsFellBack, FellBack);
    } else {
      ReplyQuiet(cfg, Orchestrate(cfg, l.state, t).activeModel, l.recoveries, t.provided, t.env);
      QuietCounts(Rest(cfg, l, t));
    }
  }

  lemma CompactedEmits(cfg: Config, l: Loop, t: Turn)
    requires l.state.compact.compacted
    ensures Iterate(cfg, l, t).state.compact.compacted
    ensures Count(IsForced, Emitted(cfg, l, t)) == 0
    ensures Count(IsFellBack, Emitted(cfg, l, t)) + Spare(cfg, Iterate(cfg, l, t).state) <= Spare(cfg, l.state)
  {
    if Reaches(cfg, l, t) {
      CompactedTurn(cfg, l, t);
      HeadCounts(cfg, l, t);
      RestCounts(cfg, l, t);
      var head := AutoEvents(cfg, l.state, t) + [Asked(l.state.activeModel)];
      CountConcat(IsForced, head, Rest(cfg, l, t));
      CountConcat(IsFellBack, head, Rest(cfg, l, t));
    }
  }

  lemma {:induction false} CompactedRun(cfg: Config, l: Loop, script: seq<Turn>)
    requires l.state.compact.compacted
    ensures var r := RunLoop(cfg, l, script);
            && Count(IsForced, r.state.log) == Count(IsForced, l.state.log)
            && Count(IsFellBack, r.state.log) <= Count(IsFellBack, l.state.log) + Spare(cfg, l.state)
    decreases |script|
  {
    if script != [] && Going(l) {
      IterateLog(cfg, l, script[0]);
      CompactedEmits(cfg, l, script[0]);
      CountConcat(IsForced, l.state.log, Emitted(cfg, l, script[0]));
      CountConcat(IsFellBack, l.state.log, Emitted(cfg, l, script[0]));
      CompactedRun(cfg, Iterate(cfg, l, script[0]), script[1..]);
    }
  }

  /** Once the engine has compacted, no script forces another compaction, so a run asks at most once for
      each turn left and once more for a fallback. */
  lemma CompactedBounds(cfg: Config, l: Loop, script: seq<Turn>)
    requires l.state.compact.compacted
    ensures Questions(cfg, l, script) <= Max(0, l.turnsRemaining) + Spare(cfg, l.state)
  {
    RunBalance(cfg, l, script);
    CompactedRun(cfg, l, script);
  }

  /** The loop goes on within its budget and has not compacted yet: nothing more is needed. */
  ghost predicate Uncompacted(cfg: Config, l: Loop) {
    Going(l) && !OverBudget(cfg, l.state.cost) && !l.state.compact.compacted
  }

  /** A prompt that is too long while the summariser fails gives the turn back, whatever the window, the
      transcript and the fallback. */
  lemma TooLongTurn(cfg: Config, l: Loop)
    requires Uncompacted(cfg, l)
    ensures var r := Iterate(cfg, l, TOO_LONG);
            && Uncompacted(cfg, r) && r.turnsRemaining == l.turnsRemaining
            && |r.state.log| == |l.state.log| + 2
            && r.state.log[..|l.state.log|] == l.state.log
            && r.state.log[|l.state.log|].Asked? && !r.state.log[|l.state.log| + 1].Asked?
  {
  }

  lemma TooLongAsks(cfg: Config, l: Loop)
    requires Uncompacted(cfg, l)
    ensures Count(IsAsked, Iterate(cfg, l, TOO_LONG).state.log) == Count(IsAsked, l.state.log) + 1
  {
    TooLongTurn(cfg, l);
    var log, k := Iterate(cfg, l, TOO_LONG).state.log, |l.state.log|;
    TwoMore(l.state.log, log[k], log[k + 1]);
    assert log == l.state.log + [log[k], log[k + 1]];
  }

  lemma TwoMore(log: seq<Event>, a: Event, b: Event)
    ensures Count(IsAsked, log + [a, b]) == Count(IsAsked, log) + (if a.Asked? then 1 else 0) + (if b.Asked? then 1 else 0)
  {
    CountConcat(IsAsked, log, [a, b]);
    CountConcat(IsAsked, [a], [b]);
    CountOne(IsAsked, a);
    CountOne(IsAsked, b);
    assert [a] + [b] == [a, b];
  }

  function TooLong(n: nat): seq<Turn> { seq(n, _ => TOO_LONG) }

  lemma TooLongTail(n: nat)
    requires n > 0
    ensures TooLong(n)[0] == TOO_LONG && TooLong(n)[1..] == TooLong(n - 1)
  {
  }

  lemma TooLongOnce(cfg: Config, l: Loop, n: nat) returns (next: Loop)
    requires Uncompacted(cfg, l) && n > 0
    ensures RunLoop(cfg, l, TooLong(n)) == RunLoop(cfg, next, TooLong(n - 1))
    ensures Uncompacted(cfg, next) && next.turnsRemaining == l.turnsRemaining
    ensures Count(IsAsked, next.state.log) == Count(IsAsked, l.state.log) + 1
  {
    next := Iterate(cfg, l, TOO_LONG);
    TooLongTurn(cfg, l);
    TooLongAsks(cfg, l);
    TooLongTail(n);
  }

  /** Without a compaction behind it the provider can be asked any number of times with no turn used. */
  lemma {:induction false} RefundsUnbounded(cfg: Config, l: Loop, n: nat)
    requires Uncompacted(cfg, l)
    ensures var r := RunLoop(cfg, l, TooLong(n));
            Going(r) && r.turnsRemaining == l.turnsRemaining && Questions(cfg, l, TooLong(n)) == n
    decreases n
  {
    if n > 0 {
      var next := TooLongOnce(cfg, l, n);
      RefundsUnbounded(cfg, next, n - 1);
    }
  }

  /** A loop that goes on within its budget has bounded questions if and only if it has compacted. */
  lemma QuestionsBoundedIff(cfg: Config, l: Loop)
    requires Going(l) && !OverBudget(cfg, l.state.cost)
    ensures l.state.compact.compacted
       <==> forall script :: Questions(cfg, l, script) <= l.turnsRemaining + Spare(cfg, l.state)
  {
    if l.state.compact.compacted {
      forall script ensures Questions(cfg, l, script) <= l.turnsRemaining + Spare(cfg, l.state) {
        CompactedBounds(cfg, l, script);
      }
    } else {
      var n := l.turnsRemaining + Spare(cfg, l.state) + 1;
      RefundsUnbounded(cfg, l, n);
      assert Questions(cfg, l, TooLong(n)) == n;
    }
  }

  /** Already the first submission of an engine, on any history, can ask any number of times. */
  lemma FirstSubmissionUnbounded(cfg: Config, model: string, history: seq<Message>, prompt: Content, n: nat)
    requires cfg.maxTurns > 0 && (cfg.budget.Some? ==> cfg.budget.value > 0.0)
    ensures var r := Submit(cfg, Start(model, history), Submission(false, prompt, TooLong(n)));
            Going(r) && r.turnsRemaining == cfg.maxTurns && Count(IsAsked, r.state.log) == n
  {
    var l := Begin(cfg, Start(model, history), prompt);
    RefundsUnbounded(cfg, l, n);
    assert Count(IsAsked, l.state.log) == 0;
  }

  /** Once compaction has succeeded and then failed three times in a row, it is over: neither the
      orchestrator nor the error path consults the summariser again, for the rest of the engine's life. */
  lemma {:induction false} CompactionGivesUp(log: seq<Event>, i: nat, j: nat)
    requires Disciplined(log) && i <= j <= |log|
    requires Failures(log[..i]) >= MAX_CONSECUTIVE_FAILURES && Count(IsSummarised, log[..i]) > 0
    ensures Failures(log[..j]) >= MAX_CONSECUTIVE_FAILURES && Count(IsSummarised, log[..j]) > 0
    ensures forall k :: i <= k < j ==> !log[k].Compacted?
    decreases j
  {
    if i < j {
      CompactionGivesUp(log, i, j - 1);
      assert Proper(log[..j - 1], log[j - 1]);
      assert log[..j][..j - 1] == log[..j - 1];
    }
  }

  lemma SummariserBackoff(cfg: Config, model: string, history: seq<Message>, subs: seq<Submission>, i: nat)
    requires i < |Session(cfg, Start(model, history), subs).log|
    ensures var log := Session(cfg, Start(model, history), subs).log;
            && (log[i].Compacted? && log[i].auto ==> Failures(log[..i]) < MAX_CONSECUTIVE_FAILURES)
            && (log[i].Compacted? && !log[i].auto ==> Count(IsSummarised, log[..i]) == 0)
            && (Failures(log[..i]) >= MAX_CONSECUTIVE_FAILURES && Count(IsSummarised, log[..i]) > 0 ==>
                  forall k :: i <= k < |log| ==> !log[k].Compacted?)
  {
    var log := Session(cfg, Start(model, history), subs).log;
    SessionTracked(cfg, model, history, subs);
    assert Proper(log[..i], log[i]);
    if Failures(log[..i]) >= MAX_CONSECUTIVE_FAILURES && Count(IsSummarised, log[..i]) > 0 {
      CompactionGivesUp(log, i, |log|);
    }
  }
}
