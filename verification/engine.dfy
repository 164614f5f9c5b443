/**
 The agent loop `QueryEngine.submit_message` (forgepilot_sdk/engine.py).

 The provider, the summariser, the tool environment and the abort signal are oracles: one `Turn`
 holds their answers for one pass through the loop. A script is any finite sequence of turns; a run
 that is still going when the script ends is `Running`, so a script observes a prefix of a run.
 */
module Engine {
  import opened Messages
  import opened Options
  import opened Compaction
  import opened ToolStage

  const MAX_RECOVERIES := 3
  const CONTINUE := "Please continue from where you left off."
  const EMPTY_RESPONSE :=
    "Model returned an empty response (no text and no tool calls). Please check model/provider compatibility."

  datatype Config = Config(
    maxTurns: int, budget: Option<real>, fallback: Option<string>, window: Window, gate: Gate)

  datatype StopReason = EndTurn | MaxTokens | OtherReason

  /** `cost` is what `estimate_cost` gives for this usage under the active model. */
  datatype Usage = Usage(tin: int, tout: int, cacheNew: int, cacheRead: int, cost: real)

  datatype Provided =
    | Answered(content: RawContent, declared: seq<Call>, usage: Usage, stop: StopReason)
    | Raised(tooLong: bool, summary: Option<string>)

  datatype Turn = Turn(
    aborted: bool, overThreshold: bool, summary: Option<string>, provided: Provided, env: ToolEnv)

  /** Where a transcript message came from; bookkeeping of the model, not a field of the program. */
  datatype Origin = Prompted | Spoken | Continued | Recorded | Summary | Acknowledged | Restored

  /** What happened, in order; bookkeeping of the model. */
  datatype Event =
    | Asked(model: string)
    | Compacted(auto: bool, outcome: Outcome)
    | FellBack
    | Billed(billee: string, usage: Usage)
    | Recovered
    | UsedTools(blocks: seq<Block>, calls: seq<Call>, answers: seq<Answer>, env: ToolEnv)

  datatype Tokens = Tokens(tin: int, tout: int)

  datatype State = State(
    messages: seq<Message>,
    origins: seq<Origin>,
    usage: Tokens,
    cacheNew: int,
    cacheRead: int,
    cost: real,
    turnCount: int,
    activeModel: string,
    modelUsage: seq<(string, Tokens)>,
    compact: AutoCompactState,
    log: seq<Event>)

  datatype Status = Running | Exited | BudgetHit | Returned(subtype: string)

  /** The loop variables of one `submit_message` next to the engine's fields. */
  datatype Loop = Loop(state: State, turnsRemaining: int, recoveries: nat, errors: seq<string>, status: Status)

  // ---------------------------------------------------------------- one turn, as a function

  predicate OverBudget(cfg: Config, cost: real) {
    cfg.budget.Some? && cost >= cfg.budget.value
  }

  function Add(s: State, m: Message, o: Origin): State {
    s.(messages := s.messages + [m], origins := s.origins + [o])
  }

  function Note(s: State, e: Event): State {
    s.(log := s.log + [e])
  }

  /** Taking over a compaction result. */
  function Adopt(s: State, r: CompactResult, auto: bool): State {
    var origins := if r.outcome == Summarised && r.compactedCount <= |s.origins|
    then [Summary, Acknowledged] + s.origins[r.compactedCount..] else s.origins;
    Note(s.(messages := r.messages, origins := origins, compact := r.state), Compacted(auto, r.outcome))
  }

  function Orchestrate(cfg: Config, s: State, t: Turn): State {
    match Orchestrated(cfg.window, s.messages, s.compact, t.overThreshold, t.summary)
    case None => s
    case Some(r) => Adopt(s, r, true)
  }

  predicate CanFallBack(cfg: Config, s: State) {
    cfg.fallback.Some? && cfg.fallback.value != "" && s.activeModel != cfg.fallback.value
  }

  function AfterError(cfg: Config, l: Loop, tooLong: bool, summary: Option<string>): Loop {
    var s := l.state;
    if CanFallBack(cfg, s) then
      l.(state := Note(s.(activeModel := cfg.fallback.value, turnCount := s.turnCount - 1), FellBack),
         turnsRemaining := l.turnsRemaining + 1)
    else if tooLong && !s.compact.compacted then
      var r := CompactConversation(s.messages, s.compact, cfg.window.keepRecent, cfg.window.earliest, summary);
      var s1 := Adopt(s, r, false);
      l.(state := s1.(turnCount := s1.turnCount - 1), turnsRemaining := l.turnsRemaining + 1)
    else
      l.(status := Returned("error"))
  }

  function PutUsage(ledger: seq<(string, Tokens)>, model: string, tin: int, tout: int): seq<(string, Tokens)> {
    if ledger == [] then [(model, Tokens(tin, tout))]
    else if ledger[0].0 == model then
      [(model, Tokens(ledger[0].1.tin + tin, ledger[0].1.tout + tout))] + ledger[1..]
    else [ledger[0]] + PutUsage(ledger[1..], model, tin, tout)
  }

  function Bill(s: State, u: Usage): State {
    Note(s.(usage := Tokens(s.usage.tin + u.tin, s.usage.tout + u.tout),
            cacheNew := s.cacheNew + u.cacheNew,
            cacheRead := s.cacheRead + u.cacheRead,
            cost := s.cost + u.cost,
            modelUsage := PutUsage(s.modelUsage, s.activeModel, u.tin, u.tout)),
         Billed(s.activeModel, u))
  }

  function AfterTools(cfg: Config, l: Loop, p: Parsed, env: ToolEnv, stop: StopReason): Loop {
    var answers := Answers(cfg.gate, env, p.calls);
    l.(state := Note(if answers == [] then l.state else Add(l.state, Message(User, Blocks(ResultBlocks(answers))), Recorded),
                     UsedTools(p.blocks, p.calls, answers, env)),
       recoveries := 0,
       errors := l.errors + ErrorOutputs(answers),
       status := if stop == EndTurn then Exited else Running)
  }

  function AfterReply(cfg: Config, l: Loop, r: Provided, env: ToolEnv): Loop
    requires r.Answered?
  {
    var s := Bill(l.state, r.usage);
    var p := Parse(r.content, r.declared);
    if p.blocks == [] && p.calls == [] then
      l.(state := s, errors := l.errors + [EMPTY_RESPONSE], status := Returned("error_during_execution"))
    else
      var spoken := if p.blocks == [] then s else Add(s, Message(Assistant, Blocks(p.blocks)), Spoken);
      if r.stop == MaxTokens && l.recoveries < MAX_RECOVERIES then
        l.(state := Note(Add(spoken, Message(User, Text(CONTINUE)), Continued), Recovered),
           recoveries := l.recoveries + 1)
      else if p.calls == [] then
        l.(state := spoken, status := Exited)
      else
        AfterTools(cfg, l.(state := spoken), p, env, r.stop)
  }

  /** The pass up to the provider call: the context window is applied and the turn is counted. */
  function Ask(cfg: Config, l: Loop, t: Turn): Loop {
    var s := Orchestrate(cfg, l.state, t);
    l.(state := Note(s.(turnCount := s.turnCount + 1), Asked(s.activeModel)), turnsRemaining := l.turnsRemaining - 1)
  }

  /** One pass through the loop. */
  function Iterate(cfg: Config, l: Loop, t: Turn): Loop {
    if t.aborted then l.(status := Exited)
    else if OverBudget(cfg, l.state.cost) then l.(status := BudgetHit)
    else
      match t.provided
      case Raised(tooLong, summary) => AfterError(cfg, Ask(cfg, l, t), tooLong, summary)
      case Answered(_, _, _, _) => AfterReply(cfg, Ask(cfg, l, t), t.provided, t.env)
  }

  predicate Going(l: Loop) {
    l.status == Running && l.turnsRemaining > 0
  }

  function RunLoop(cfg: Config, l: Loop, script: seq<Turn>): Loop
    decreases |script|
  {
    if script == [] || !Going(l) then l else RunLoop(cfg, Iterate(cfg, l, script[0]), script[1..])
  }

  // ---------------------------------------------------------------- whole submissions

  datatype Submission = Submission(blocked: bool, prompt: Content, script: seq<Turn>)

  function Begin(cfg: Config, s: State, prompt: Content): Loop {
    Loop(Add(s, Message(User, prompt), Prompted), cfg.maxTurns, 0, [], Running)
  }

  function Submit(cfg: Config, s: State, sub: Submission): Loop {
    RunLoop(cfg, Begin(cfg, s, sub.prompt), sub.script)
  }

  /** Any number of submissions to one engine; a blocked one leaves no trace. */
  function Session(cfg: Config, s: State, subs: seq<Submission>): State {
    if subs == [] then s
    else
      var before := Session(cfg, s, subs[..|subs| - 1]);
      var sub := subs[|subs| - 1];
      if sub.blocked then before else Submit(cfg, before, sub).state
  }

  function Fresh(model: string): State {
    State([], [], Tokens(0, 0), 0, 0, 0.0, 0, model, [], AutoCompactState(false, 0, 0), [])
  }

  /** A history from earlier engines or from a stored session, put in front of the first submission. */
  function Restore(s: State, history: seq<Message>): State {
    s.(messages := s.messages + history, origins := s.origins + seq(|history|, _ => Restored))
  }

  /** Where an engine's sessions start: with any history at all. */
  function Start(model: string, history: seq<Message>): State {
    Restore(Fresh(model), history)
  }

  /** The subtype of the closing result message; None while the script left the loop running. */
  function Subtype(l: Loop): Option<string> {
    match l.status
    case Returned(subtype) => Some(subtype)
    case BudgetHit => Some("error_max_budget_usd")
    case _ =>
      if l.turnsRemaining <= 0 then Some("error_max_turns")
      else if l.status == Exited then Some("success")
      else None
  }

  // ---------------------------------------------------------------- the class

  class QueryEngine {
    const cfg: Config
    const orchestrator: ContextOrchestrator
    var messages: seq<Message>
    var usage: Tokens
    var cacheNew: int
    var cacheRead: int
    var cost: real
    var turnCount: int
    var activeModel: string
    var modelUsage: seq<(string, Tokens)>
    var compactState: AutoCompactState
    ghost var origins: seq<Origin>
    ghost var log: seq<Event>

    ghost predicate Valid() {
      orchestrator.window == cfg.window
    }

    ghost function View(): State
      reads this
    {
      State(messages, origins, usage, cacheNew, cacheRead, cost, turnCount, activeModel, modelUsage, compactState, log)
    }

    constructor (cfg: Config, model: string)
      ensures Valid() && this.cfg == cfg && View() == Fresh(model) && fresh(orchestrator)
    {
      this.cfg := cfg;
      orchestrator := new ContextOrchestrator(cfg.window);
      messages, usage, cacheNew, cacheRead, cost := [], Tokens(0, 0), 0, 0, 0.0;
      turnCount, activeModel, modelUsage := 0, model, [];
      compactState := AutoCompactState(false, 0, 0);
      origins, log := [], [];
    }

    method Preload(history: seq<Message>)
      modifies this
      ensures View() == Restore(old(View()), history)
    {
      messages := messages + history;
      origins := origins + seq(|history|, _ => Restored);
    }

    method ApplyContextWindow(t: Turn)
      requires Valid()
      modifies this, orchestrator
      ensures View() == Orchestrate(cfg, old(View()), t)
    {
      var result := orchestrator.ApplyBeforeModelCall(messages, compactState, turnCount, t.overThreshold, t.summary);
      if result.Some? {
        TakeOver(result.value, true);
      }
    }

    method TakeOver(r: CompactResult, ghost auto: bool)
      modifies this
      ensures View() == Adopt(old(View()), r, auto)
    {
      messages := r.messages;
      compactState := r.state;
      if r.outcome == Summarised && r.compactedCount <= |origins| {
        origins := [Summary, Acknowledged] + origins[r.compactedCount..];
      }
      log := log + [Compacted(auto, r.outcome)];
    }

    method AddUsage(u: Usage)
      modifies this
      ensures View() == Bill(old(View()), u)
    {
      usage := Tokens(usage.tin + u.tin, usage.tout + u.tout);
      cacheNew := cacheNew + u.cacheNew;
      cacheRead := cacheRead + u.cacheRead;
      cost := cost + u.cost;
      modelUsage := PutUsage(modelUsage, activeModel, u.tin, u.tout);
      log := log + [Billed(activeModel, u)];
    }

    method Append(m: Message, ghost o: Origin)
      modifies this
      ensures View() == Add(old(View()), m, o)
    {
      messages := messages + [m];
      origins := origins + [o];
    }

    /** The error branch: fall back, force a compaction, or give up. */
    method HandleError(tooLong: bool, summary: Option<string>, ghost l: Loop) returns (refund: bool)
      requires Valid() && l.state == View()
      modifies this
      ensures AfterError(cfg, l, tooLong, summary) ==
        if refund then l.(state := View(), turnsRemaining := l.turnsRemaining + 1)
        else l.(status := Returned("error"))
      ensures !refund ==> View() == old(View())
    {
      if cfg.fallback.Some? && cfg.fallback.value != "" && activeModel != cfg.fallback.value {
        activeModel := cfg.fallback.value;
        turnCount := turnCount - 1;
        log := log + [FellBack];
        return true;
      }
      if tooLong && !compactState.compacted {
        var r := CompactConversation(messages, compactState, cfg.window.keepRecent, cfg.window.earliest, summary);
        TakeOver(r, false);
        turnCount := turnCount - 1;
        return true;
      }
      return false;
    }

    /** The success branch: bill, record the assistant message, recover, stop, or run the tools. */
    method HandleReply(r: Provided, env: ToolEnv, attempts: nat, before: seq<string>, ghost turns: int)
      returns (recoveries: nat, errors: seq<string>, status: Status)
      requires r.Answered?
      modifies this
      ensures Loop(View(), turns, recoveries, errors, status)
           == AfterReply(cfg, Loop(old(View()), turns, attempts, before, Running), r, env)
    {
      recoveries, errors, status := attempts, before, Running;
      AddUsage(r.usage);
      var blocks, calls := NormalizeProviderResponse(r.content, r.declared);
      if blocks == [] && calls == [] {
        errors := errors + [EMPTY_RESPONSE];
        status := Returned("error_during_execution");
        return;
      }
      if blocks != [] {
        Append(Message(Assistant, Blocks(blocks)), Spoken);
      }
      if r.stop == MaxTokens && recoveries < MAX_RECOVERIES {
        recoveries := recoveries + 1;
        Append(Message(User, Text(CONTINUE)), Continued);
        log := log + [Recovered];
        return;
      }
      if calls == [] {
        status := Exited;
        return;
      }
      recoveries := 0;
      var results := RunToolStage(cfg.gate, env, calls);
      var resultBlocks, after := RecordResults(results, errors);
      errors := after;
      if resultBlocks != [] {
        Append(Message(User, Blocks(resultBlocks)), Recorded);
      }
      log := log + [UsedTools(blocks, calls, results, env)];
      if r.stop == EndTurn {
        status := Exited;
      }
    }

    /** The part of a pass behind the abort and budget checks. */
    method Step(t: Turn, turns: int, attempts: nat, before: seq<string>)
      returns (turnsRemaining: int, recoveries: nat, errors: seq<string>, status: Status)
      requires Valid()
      requires !t.aborted && !OverBudget(cfg, cost)
      modifies this, orchestrator
      ensures Loop(View(), turnsRemaining, recoveries, errors, status)
           == Iterate(cfg, Loop(old(View()), turns, attempts, before, Running), t)
    {
      turnsRemaining, recoveries, errors, status := turns, attempts, before, Running;
      ApplyContextWindow(t);
      turnCount := turnCount + 1;
      turnsRemaining := turnsRemaining - 1;
      log := log + [Asked(activeModel)];
      match t.provided {
        case Raised(tooLong, summary) =>
          ghost var l := Loop(View(), turnsRemaining, recoveries, errors, Running);
          var refund := HandleError(tooLong, summary, l);
          if refund {
            turnsRemaining := turnsRemaining + 1;
          } else {
            status := Returned("error");
          }
        case Answered(_, _, _, _) =>
          recoveries, errors, status := HandleReply(t.provided, t.env, recoveries, errors, turnsRemaining);
      }
    }

    /** One whole submission, observed for as long as the script lasts. */
    method SubmitMessage(blocked: bool, prompt: Content, script: seq<Turn>)
      returns (subtype: Option<string>, errors: seq<string>)
      requires Valid()
      modifies this, orchestrator
      ensures blocked ==> View() == old(View()) && subtype == Some("error_during_execution")
      ensures blocked ==> errors == ["Blocked by UserPromptSubmit hook"]
      ensures !blocked ==>
        var l := Submit(cfg, old(View()), Submission(false, prompt, script));
        View() == l.state && subtype == Subtype(l) && errors == l.errors
    {
      errors := [];
      if blocked {
        return Some("error_during_execution"), ["Blocked by UserPromptSubmit hook"];
      }
      ghost var start := Begin(cfg, View(), prompt);
      Append(Message(User, prompt), Prompted);
      var turnsRemaining := cfg.maxTurns;
      var status := Running;
      var recoveries: nat := 0;
      var i := 0;
      while i < |script| && turnsRemaining > 0 && status == Running
        invariant 0 <= i <= |script|
        invariant RunLoop(cfg, start, script)
               == RunLoop(cfg, Loop(View(), turnsRemaining, recoveries, errors, status), script[i..])
      {
        var t := script[i];
        ghost var l := Loop(View(), turnsRemaining, recoveries, errors, status);
        assert script[i..][0] == t && script[i..][1..] == script[i + 1..];
        assert RunLoop(cfg, l, script[i..]) == RunLoop(cfg, Iterate(cfg, l, t), script[i + 1..]);
        i := i + 1;
        if t.aborted {
          status := Exited;
        } else if cfg.budget.Some? && cost >= cfg.budget.value {
          status := BudgetHit;
        } else {
          turnsRemaining, recoveries, errors, status := Step(t, turnsRemaining, recoveries, errors);
        }
      }
      subtype := if status.Returned? then Some(status.subtype)
      else if status == BudgetHit then Some("error_max_budget_usd")
      else if turnsRemaining <= 0 then Some("error_max_turns")
      else if status == Exited then Some("success")
      else None;
    }
  }
}
