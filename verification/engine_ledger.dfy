/**
 Money, tokens, recoveries and tool stages over every run of the agent loop.
 */
module EngineLedger {
  import opened Messages
  import opened Options
  import opened Compaction
  import opened ToolStage
  import opened ToolAnswers
  import opened Engine
  import opened EngineRuns

  // ---------------------------------------------------------------- the token ledger

  function Plus(a: Tokens, b: Tokens): Tokens { Tokens(a.tin + b.tin, a.tout + b.tout) }

  function Lookup(ledger: seq<(string, Tokens)>, model: string): Tokens {
    if ledger == [] then Tokens(0, 0)
    else if ledger[0].0 == model then ledger[0].1
    else Lookup(ledger[1..], model)
  }

  function Sum(ledger: seq<(string, Tokens)>): Tokens {
    if ledger == [] then Tokens(0, 0) else Plus(ledger[0].1, Sum(ledger[1..]))
  }

  function BilledTo(log: seq<Event>, model: string): Tokens {
    if log == [] then Tokens(0, 0)
    else
      var before, e := BilledTo(log[..|log| - 1], model), log[|log| - 1];
      if e.Billed? && e.billee == model then Plus(before, Tokens(e.usage.tin, e.usage.tout)) else before
  }

  function Billings(log: seq<Event>): Tokens {
    if log == [] then Tokens(0, 0)
    else
      var before, e := Billings(log[..|log| - 1]), log[|log| - 1];
      if e.Billed? then Plus(before, Tokens(e.usage.tin, e.usage.tout)) else before
  }

  function Costs(log: seq<Event>): real {
    if log == [] then 0.0
    else Costs(log[..|log| - 1]) + (if log[|log| - 1].Billed? then log[|log| - 1].usage.cost else 0.0)
  }

  lemma {:induction false} PutUsageSum(ledger: seq<(string, Tokens)>, model: string, tin: int, tout: int)
    ensures Sum(PutUsage(ledger, model, tin, tout)) == Plus(Sum(ledger), Tokens(tin, tout))
  {
    if ledger != [] && ledger[0].0 != model {
      var rest := PutUsage(ledger[1..], model, tin, tout);
      PutUsageSum(ledger[1..], model, tin, tout);
      assert ([ledger[0]] + rest)[1..] == rest;
    }
  }

  lemma LookupCons(head: (string, Tokens), tail: seq<(string, Tokens)>, other: string)
    ensures Lookup([head] + tail, other) == if head.0 == other then head.1 else Lookup(tail, other)
  {
    assert ([head] + tail)[1..] == tail;
  }

  lemma {:induction false} PutUsageLookup(ledger: seq<(string, Tokens)>, model: string, tin: int, tout: int, other: string)
    ensures Lookup(PutUsage(ledger, model, tin, tout), other)
         == Plus(Lookup(ledger, other), if other == model then Tokens(tin, tout) else Tokens(0, 0))
  {
    if ledger == [] {
      LookupCons((model, Tokens(tin, tout)), [], other);
      assert [(model, Tokens(tin, tout))] + [] == [(model, Tokens(tin, tout))];
    } else if ledger[0].0 == model {
      LookupCons((model, Plus(ledger[0].1, Tokens(tin, tout))), ledger[1..], other);
    } else {
      LookupCons(ledger[0], PutUsage(ledger[1..], model, tin, tout), other);
      PutUsageLookup(ledger[1..], model, tin, tout, other);
    }
  }

  /** The books: every figure is the sum of what was billed, per model and in total. */
  ghost predicate Balanced(usage: Tokens, cost: real, ledger: seq<(string, Tokens)>, log: seq<Event>) {
    && usage == Billings(log) && cost == Costs(log)
    && Sum(ledger) == usage
    && forall model :: Lookup(ledger, model) == BilledTo(log, model)
  }

  ghost predicate InOrder(s: State) {
    Balanced(s.usage, s.cost, s.modelUsage, s.log)
  }

  lemma BilledSnoc(log: seq<Event>, e: Event, model: string)
    ensures BilledTo(log + [e], model)
         == if e.Billed? && e.billee == model then Plus(BilledTo(log, model), Tokens(e.usage.tin, e.usage.tout))
            else BilledTo(log, model)
    ensures Billings(log + [e])
         == if e.Billed? then Plus(Billings(log), Tokens(e.usage.tin, e.usage.tout)) else Billings(log)
    ensures Costs(log + [e]) == Costs(log) + (if e.Billed? then e.usage.cost else 0.0)
  {
    assert (log + [e])[..|log|] == log;
  }

  lemma BooksKeep(usage: Tokens, cost: real, ledger: seq<(string, Tokens)>, log: seq<Event>, e: Event)
    requires Balanced(usage, cost, ledger, log) && !e.Billed?
    ensures Balanced(usage, cost, ledger, log + [e])
  {
    forall model ensures Lookup(ledger, model) == BilledTo(log + [e], model) {
      BilledSnoc(log, e, model);
    }
    BilledSnoc(log, e, "");
  }

  lemma BooksAdd(usage: Tokens, cost: real, ledger: seq<(string, Tokens)>, log: seq<Event>, model: string, u: Usage)
    requires Balanced(usage, cost, ledger, log)
    ensures Balanced(Plus(usage, Tokens(u.tin, u.tout)), cost + u.cost, PutUsage(ledger, model, u.tin, u.tout),
                     log + [Billed(model, u)])
  {
    forall m ensures Lookup(PutUsage(ledger, model, u.tin, u.tout), m) == BilledTo(log + [Billed(model, u)], m) {
      BilledSnoc(log, Billed(model, u), m);
      PutUsageLookup(ledger, model, u.tin, u.tout, m);
    }
    BilledSnoc(log, Billed(model, u), "");
    PutUsageSum(ledger, model, u.tin, u.tout);
  }

  lemma AskBooks(cfg: Config, l: Loop, t: Turn)
    requires InOrder(l.state)
    ensures InOrder(Ask(cfg, l, t).state)
  {
    var s, o := l.state, Orchestrate(cfg, l.state, t);
    match Orchestrated(cfg.window, s.messages, s.compact, t.overThreshold, t.summary)
    case None =>
      BooksKeep(s.usage, s.cost, s.modelUsage, s.log, Asked(s.activeModel));
    case Some(r) =>
      BooksKeep(s.usage, s.cost, s.modelUsage, s.log, Compacted(true, r.outcome));
      BooksKeep(s.usage, s.cost, s.modelUsage, o.log, Asked(o.activeModel));
  }

  lemma ErrorFields(cfg: Config, l: Loop, tooLong: bool, summary: Option<string>)
    ensures var s, after := l.state, AfterError(cfg, l, tooLong, summary).state;
            && after.usage == s.usage && after.cost == s.cost && after.modelUsage == s.modelUsage
            && after.log == s.log + ErrorEvents(cfg, s, tooLong, summary)
  {
  }

  lemma ErrorBooks(cfg: Config, l: Loop, tooLong: bool, summary: Option<string>)
    requires InOrder(l.state)
    ensures InOrder(AfterError(cfg, l, tooLong, summary).state)
  {
    var s := l.state;
    var events := ErrorEvents(cfg, s, tooLong, summary);
    ErrorFields(cfg, l, tooLong, summary);
    if events == [] {
      assert s.log + events == s.log;
    } else {
      assert events == [events[0]];
      BooksKeep(s.usage, s.cost, s.modelUsage, s.log, events[0]);
    }
  }

  lemma ReplyFields(cfg: Config, l: Loop, r: Provided, env: ToolEnv)
    requires r.Answered?
    ensures var s, after := l.state, AfterReply(cfg, l, r, env).state;
            && after.usage == Plus(s.usage, Tokens(r.usage.tin, r.usage.tout))
            && after.cost == s.cost + r.usage.cost
            && after.modelUsage == PutUsage(s.modelUsage, s.activeModel, r.usage.tin, r.usage.tout)
  {
  }

  lemma ReplyBooks(cfg: Config, l: Loop, r: Provided, env: ToolEnv)
    requires r.Answered? && InOrder(l.state)
    ensures InOrder(AfterReply(cfg, l, r, env).state)
  {
    var s, after := l.state, AfterReply(cfg, l, r, env).state;
    var events := ReplyEvents(cfg, s.activeModel, l.recoveries, r, env);
    ReplyFields(cfg, l, r, env);
    ReplyLog(cfg, l, r, env);
    BooksAdd(s.usage, s.cost, s.modelUsage, s.log, s.activeModel, r.usage);
    if |events| > 1 {
      BooksKeep(after.usage, after.cost, after.modelUsage, s.log + [events[0]], events[1]);
      assert s.log + [events[0]] + [events[1]] == s.log + events;
    } else {
      assert events == [events[0]];
    }
  }

  lemma {:induction false} RunBooks(cfg: Config, l: Loop, script: seq<Turn>)
    requires InOrder(l.state)
    ensures InOrder(RunLoop(cfg, l, script).state)
    decreases |script|
  {
    if script != [] && Going(l) {
      var t := script[0];
      if Reaches(cfg, l, t) {
        AskBooks(cfg, l, t);
        match t.provided
        case Raised(tooLong, summary) => ErrorBooks(cfg, Ask(cfg, l, t), tooLong, summary);
        case Answered(_, _, _, _) => ReplyBooks(cfg, Ask(cfg, l, t), t.provided, t.env);
      }
      RunBooks(cfg, Iterate(cfg, l, t), script[1..]);
    }
  }

  /** Across any number of submissions and model switches, the totals are the sums over the per-model
      ledger, and each entry is what that model was billed. */
  lemma {:induction false} LedgerBalances(cfg: Config, model: string, history: seq<Message>, subs: seq<Submission>)
    ensures InOrder(Session(cfg, Start(model, history), subs))
  {
    if subs != [] {
      var n := |subs| - 1;
      LedgerBalances(cfg, model, history, subs[..n]);
      RunBooks(cfg, Begin(cfg, Session(cfg, Start(model, history), subs[..n]), subs[n].prompt), subs[n].script);
    }
  }

  // ---------------------------------------------------------------- the budget

  /** The cost of the last billed call at or behind position `base`. */
  function LastCost(log: seq<Event>, base: nat): Option<real>
    decreases |log|
  {
    if |log| <= base then None
    else if log[|log| - 1].Billed? then Some(log[|log| - 1].usage.cost)
    else LastCost(log[..|log| - 1], base)
  }

  /** Everything but the last call was paid for before the budget was reached. */
  ghost predicate Affordable(budget: real, base: nat, cost: real, log: seq<Event>) {
    LastCost(log, base).Some? ==> cost - LastCost(log, base).value < budget
  }

  lemma LastCostAppend(log: seq<Event>, e: Event, base: nat)
    requires base <= |log|
    ensures LastCost(log + [e], base) == if e.Billed? then Some(e.usage.cost) else LastCost(log, base)
  {
    assert (log + [e])[..|log|] == log;
  }

  lemma LastCostQuiet(log: seq<Event>, es: seq<Event>, base: nat)
    requires base <= |log| && |es| <= 2 && forall e :: e in es ==> !e.Billed?
    ensures LastCost(log + es, base) == LastCost(log, base)
  {
    if es == [] {
      assert log + es == log;
    } else {
      LastCostAppend(log, es[0], base);
      if |es| == 2 {
        LastCostAppend(log + [es[0]], es[1], base);
        assert log + [es[0]] + [es[1]] == log + es;
      } else {
        assert es == [es[0]];
      }
    }
  }

  /** The log of a turn that reaches the provider, cut at the provider's answer. */
  lemma {:induction false} TurnLog(cfg: Config, l: Loop, t: Turn)
    requires Reaches(cfg, l, t)
    ensures var head := AutoEvents(cfg, l.state, t) + [Asked(l.state.activeModel)];
            && |head| <= 2 && (forall e :: e in head ==> e.Compacted? || e.Asked?)
            && Iterate(cfg, l, t).state.log == l.state.log + head + Rest(cfg, l, t)
    ensures t.provided.Raised? ==>
              |Rest(cfg, l, t)| <= 1 && forall e :: e in Rest(cfg, l, t) ==> e.Compacted? || e.FellBack?
    ensures t.provided.Answered? ==>
              && 1 <= |Rest(cfg, l, t)| <= 2 && Rest(cfg, l, t)[0] == Billed(l.state.activeModel, t.provided.usage)
              && forall e :: e in Rest(cfg, l, t)[1..] ==> e.Recovered? || e.UsedTools?
  {
    IterateLog(cfg, l, t);
    OrchestrateLog(cfg, l.state, t);
    var head := AutoEvents(cfg, l.state, t) + [Asked(l.state.activeModel)];
    assert l.state.log + (head + Rest(cfg, l, t)) == l.state.log + head + Rest(cfg, l, t);
  }

  lemma {:induction false} EventsAffordable(cfg: Config, l: Loop, t: Turn, base: nat)
    requires cfg.budget.Some? && base <= |l.state.log| && Affordable(cfg.budget.value, base, l.state.cost, l.state.log)
    ensures Affordable(cfg.budget.value, base, Iterate(cfg, l, t).state.cost, Iterate(cfg, l, t).state.log)
  {
    if Reaches(cfg, l, t) {
      TurnLog(cfg, l, t);
      CostMoves(cfg, l, t);
      var head, rest := AutoEvents(cfg, l.state, t) + [Asked(l.state.activeModel)], Rest(cfg, l, t);
      var before := l.state.log + head;
      LastCostQuiet(l.state.log, head, base);
      if t.provided.Raised? {
        LastCostQuiet(before, rest, base);
      } else {
        LastCostAppend(before, rest[0], base);
        LastCostQuiet(before + [rest[0]], rest[1..], base);
        assert before + [rest[0]] + rest[1..] == before + rest;
      }
    }
  }

  lemma CostMoves(cfg: Config, l: Loop, t: Turn)
    requires Reaches(cfg, l, t)
    ensures t.provided.Answered? ==> Iterate(cfg, l, t).state.cost == l.state.cost + t.provided.usage.cost
    ensures t.provided.Raised? ==> Iterate(cfg, l, t).state.cost == l.state.cost
  {
  }

  lemma {:induction false} RunAffordable(cfg: Config, l: Loop, script: seq<Turn>, base: nat)
    requires cfg.budget.Some? && base <= |l.state.log| && Affordable(cfg.budget.value, base, l.state.cost, l.state.log)
    ensures var r := RunLoop(cfg, l, script);
            Affordable(cfg.budget.value, base, r.state.cost, r.state.log)
    decreases |script|
  {
    if script != [] && Going(l) {
      EventsAffordable(cfg, l, script[0], base);
      IterateLog(cfg, l, script[0]);
      RunAffordable(cfg, Iterate(cfg, l, script[0]), script[1..], base);
    }
  }

  /** One submission spends less than the budget plus its last call; and when the budget is already
      used up at the start, it bills nothing at all. Costs may have any sign. */
  lemma BudgetHolds(cfg: Config, s: State, sub: Submission)
    requires cfg.budget.Some?
    ensures var r := Submit(cfg, s, sub).state;
            && (LastCost(r.log, |s.log|).Some? ==> r.cost < cfg.budget.value + LastCost(r.log, |s.log|).value)
            && (s.cost >= cfg.budget.value ==> r.log == s.log && r.cost == s.cost)
  {
    var l := Begin(cfg, s, sub.prompt);
    assert LastCost(s.log, |s.log|) == None;
    RunAffordable(cfg, l, sub.script, |s.log|);
    if s.cost >= cfg.budget.value && sub.script != [] && Going(l) {
      var next := Iterate(cfg, l, sub.script[0]);
      assert !Going(next);
      assert RunLoop(cfg, next, sub.script[1..]) == next;
    }
  }

  // ---------------------------------------------------------------- cache tokens

  /** Cache tokens written and read, as billed. */
  function CacheBilled(log: seq<Event>): Tokens {
    if log == [] then Tokens(0, 0)
    else
      var before, e := CacheBilled(log[..|log| - 1]), log[|log| - 1];
      if e.Billed? then Plus(before, Tokens(e.usage.cacheNew, e.usage.cacheRead)) else before
  }

  ghost predicate CacheInOrder(s: State) {
    Tokens(s.cacheNew, s.cacheRead) == CacheBilled(s.log)
  }

  lemma CacheAppend(log: seq<Event>, e: Event)
    ensures CacheBilled(log + [e])
         == if e.Billed? then Plus(CacheBilled(log), Tokens(e.usage.cacheNew, e.usage.cacheRead)) else CacheBilled(log)
  {
    assert (log + [e])[..|log|] == log;
  }

  lemma CacheQuiet(log: seq<Event>, es: seq<Event>)
    requires |es| <= 2 && forall i :: 0 <= i < |es| ==> !es[i].Billed?
    ensures CacheBilled(log + es) == CacheBilled(log)
  {
    if |es| == 0 {
      assert log + es == log;
    } else if |es| == 1 {
      CacheAppend(log, es[0]);
      assert es == [es[0]];
    } else {
      CacheAppend(log, es[0]);
      CacheAppend(log + [es[0]], es[1]);
      assert log + [es[0]] + [es[1]] == log + es;
    }
  }

  lemma CacheReplied(log: seq<Event>, rest: seq<Event>)
    requires 1 <= |rest| <= 2 && rest[0].Billed? && forall e :: e in rest[1..] ==> !e.Billed?
    ensures CacheBilled(log + rest)
         == Plus(CacheBilled(log), Tokens(rest[0].usage.cacheNew, rest[0].usage.cacheRead))
  {
    var billed, quiet := log + [rest[0]], rest[1..];
    assert billed + quiet == log + rest;
    CacheAppend(log, rest[0]);
    CacheQuiet(billed, quiet);
  }

  lemma CacheMoves(cfg: Config, l: Loop, t: Turn)
    requires Reaches(cfg, l, t)
    ensures var s, next := l.state, Iterate(cfg, l, t).state;
            && (t.provided.Raised? ==> next.cacheNew == s.cacheNew && next.cacheRead == s.cacheRead)
            && (t.provided.Answered? ==>
                  && next.cacheNew == s.cacheNew + t.provided.usage.cacheNew
                  && next.cacheRead == s.cacheRead + t.provided.usage.cacheRead)
  {
  }

  lemma {:induction false} IterateCache(cfg: Config, l: Loop, t: Turn)
    requires CacheInOrder(l.state)
    ensures CacheInOrder(Iterate(cfg, l, t).state)
  {
    if Reaches(cfg, l, t) {
      TurnLog(cfg, l, t);
      CacheMoves(cfg, l, t);
      var head, rest := AutoEvents(cfg, l.state, t) + [Asked(l.state.activeModel)], Rest(cfg, l, t);
      var before := l.state.log + head;
      CacheQuiet(l.state.log, head);
      if t.provided.Raised? {
        CacheQuiet(before, rest);
      } else {
        CacheReplied(before, rest);
      }
    }
  }

  lemma {:induction false} RunCache(cfg: Config, l: Loop, script: seq<Turn>)
    requires CacheInOrder(l.state)
    ensures CacheInOrder(RunLoop(cfg, l, script).state)
    decreases |script|
  {
    if script != [] && Going(l) {
      IterateCache(cfg, l, script[0]);
      RunCache(cfg, Iterate(cfg, l, script[0]), script[1..]);
    }
  }

  /** The two cache counters, too, are the sums of what was billed. */
  lemma {:induction false} CacheBalances(cfg: Config, model: string, history: seq<Message>, subs: seq<Submission>)
    ensures CacheInOrder(Session(cfg, Start(model, history), subs))
  {
    if subs != [] {
      var n := |subs| - 1;
      CacheBalances(cfg, model, history, subs[..n]);
      RunCache(cfg, Begin(cfg, Session(cfg, Start(model, history), subs[..n]), subs[n].prompt), subs[n].script);
    }
  }

  // ---------------------------------------------------------------- max_tokens recoveries

  /** Recoveries since the last tool stage, counted from position `base`. */
  function Streak(log: seq<Event>, base: nat): nat
    decreases |log|
  {
    if |log| <= base then 0
    else
      match log[|log| - 1]
      case Recovered => Streak(log[..|log| - 1], base) + 1
      case UsedTools(_, _, _, _) => 0
      case _ => Streak(log[..|log| - 1], base)
  }

  ghost predicate StreaksBounded(log: seq<Event>, base: nat) {
    forall i :: base <= i <= |log| ==> Streak(log[..i], base) <= MAX_RECOVERIES
  }

  lemma StreakAppend(log: seq<Event>, e: Event, base: nat)
    requires base <= |log|
    ensures Streak(log + [e], base)
         == if e.Recovered? then Streak(log, base) + 1 else if e.UsedTools? then 0 else Streak(log, base)
    ensures StreaksBounded(log, base) && Streak(log + [e], base) <= MAX_RECOVERIES ==> StreaksBounded(log + [e], base)
  {
    var next := log + [e];
    assert next[..|log|] == log && next[..|next|] == next;
    if StreaksBounded(log, base) && Streak(next, base) <= MAX_RECOVERIES {
      forall i | base <= i <= |next| ensures Streak(next[..i], base) <= MAX_RECOVERIES {
        if i <= |log| { assert next[..i] == log[..i]; }
      }
    }
  }

  lemma StreakAppendQuiet(log: seq<Event>, es: seq<Event>, base: nat)
    requires base <= |log| && |es| <= 2 && forall e :: e in es ==> !e.Recovered? && !e.UsedTools?
    requires StreaksBounded(log, base)
    ensures Streak(log + es, base) == Streak(log, base) && StreaksBounded(log + es, base)
  {
    assert log[..|log|] == log;
    if es == [] {
      assert log + es == log;
    } else {
      StreakAppend(log, es[0], base);
      if |es| == 2 {
        assert (log + [es[0]])[..|log| + 1] == log + [es[0]];
        StreakAppend(log + [es[0]], es[1], base);
        assert log + [es[0]] + [es[1]] == log + es;
      } else {
        assert es == [es[0]];
      }
    }
  }

  /** The loop's counter is the streak, and it never passes the limit. */
  ghost predicate Counted(l: Loop, base: nat) {
    && base <= |l.state.log|
    && StreaksBounded(l.state.log, base)
    && (l.status == Running ==> l.recoveries == Streak(l.state.log, base))
  }

  lemma IterateCounted(cfg: Config, l: Loop, t: Turn, base: nat)
    requires Counted(l, base) && l.status == Running
    ensures Counted(Iterate(cfg, l, t), base)
  {
    if Reaches(cfg, l, t) {
      TurnLog(cfg, l, t);
      RecoveriesMove(cfg, l, t);
      var head, rest := AutoEvents(cfg, l.state, t) + [Asked(l.state.activeModel)], Rest(cfg, l, t);
      var before := l.state.log + head;
      StreakAppendQuiet(l.state.log, head, base);
      if t.provided.Raised? {
        StreakAppendQuiet(before, rest, base);
      } else {
        RestCounted(before, rest, base);
      }
    }
  }

  lemma RestCounted(before: seq<Event>, rest: seq<Event>, base: nat)
    requires base <= |before| && StreaksBounded(before, base)
    requires 1 <= |rest| <= 2 && rest[0].Billed?
    requires |rest| == 2 ==> rest[1].UsedTools? || (rest[1].Recovered? && Streak(before, base) < MAX_RECOVERIES)
    ensures StreaksBounded(before + rest, base)
    ensures Streak(before + rest, base)
         == if |rest| == 1 then Streak(before, base) else if rest[1].Recovered? then Streak(before, base) + 1 else 0
  {
    StreakAppendQuiet(before, rest[..1], base);
    assert rest[..1] == [rest[0]];
    if |rest| == 2 {
      StreakAppend(before + rest[..1], rest[1], base);
      assert before + rest[..1] + [rest[1]] == before + rest;
    } else {
      assert rest[..1] == rest;
    }
  }

  lemma RecoveriesMove(cfg: Config, l: Loop, t: Turn)
    requires Reaches(cfg, l, t)
    ensures var r := Iterate(cfg, l, t).recoveries;
            var rest := Rest(cfg, l, t);
            && (t.provided.Raised? || |rest| == 1 ==> r == l.recoveries)
            && (t.provided.Answered? && |rest| == 2 ==>
                  r == if rest[1].Recovered? then l.recoveries + 1 else 0)
            && (t.provided.Answered? && |rest| == 2 && rest[1].Recovered? ==> l.recoveries < MAX_RECOVERIES)
  {
  }

  lemma {:induction false} RunCounted(cfg: Config, l: Loop, script: seq<Turn>, base: nat)
    requires Counted(l, base)
    ensures Counted(RunLoop(cfg, l, script), base)
    decreases |script|
  {
    if script != [] && Going(l) {
      IterateCounted(cfg, l, script[0], base);
      RunCounted(cfg, Iterate(cfg, l, script[0]), script[1..], base);
    }
  }

  lemma {:induction false} StreakCounts(log: seq<Event>, base: nat, i: nat, j: nat)
    requires base <= i <= j <= |log|
    requires forall k :: i <= k < j ==> !log[k].UsedTools?
    ensures Streak(log[..j], base) == Streak(log[..i], base) + Count(IsRecovered, log[i..j])
    decreases j
  {
    if i < j {
      StreakCounts(log, base, i, j - 1);
      assert log[..j][..j - 1] == log[..j - 1];
      assert log[i..j][..j - 1 - i] == log[i..j - 1];
    }
  }

  /** Within one submission, no stretch without a tool stage holds more than three recoveries. */
  lemma RecoveriesBounded(cfg: Config, s: State, sub: Submission, i: nat, j: nat)
    requires |s.log| <= i <= j <= |Submit(cfg, s, sub).state.log|
    requires forall k :: i <= k < j ==> !Submit(cfg, s, sub).state.log[k].UsedTools?
    ensures Count(IsRecovered, Submit(cfg, s, sub).state.log[i..j]) <= MAX_RECOVERIES
  {
    var l := Begin(cfg, s, sub.prompt);
    assert Streak(s.log, |s.log|) == 0;
    assert forall k :: |s.log| <= k <= |s.log| ==> s.log[..k] == s.log;
    RunCounted(cfg, l, sub.script, |s.log|);
    var log := Submit(cfg, s, sub).state.log;
    StreakCounts(log, |s.log|, i, j);
  }

  // ---------------------------------------------------------------- every tool stage of a session

  /** What holds of one recorded tool stage: the answers are a permutation of the distinct tool_use ids
      of that assistant message, denied ones first; each is the right answer to its call and each call has
      one; and a body ran exactly for the authorised calls. */
  ghost predicate StageOk(gate: Gate, e: Event)
    requires e.UsedTools?
  {
    && WellParsed(Parsed(e.blocks, e.calls))
    && multiset(AnswerIds(e.answers)) == multiset(CallIds(e.calls))
    && AnswerIds(e.answers) == IdsByPolicy(e.env, e.calls, true) + IdsByPolicy(e.env, e.calls, false)
    && (forall c :: c in e.calls && Authorised(gate, e.env, c) ==>
          exists a :: a in e.answers && a.id == c.id && a.ranWith == Some(Effective(e.env, c)))
    && (forall a :: a in e.answers && a.ranWith.Some? ==>
          exists c :: c in e.calls && c.id == a.id && Authorised(gate, e.env, c) && a.ranWith == Some(Effective(e.env, c)))
    && (forall a :: a in e.answers ==> AnswersSome(gate, e.env, e.calls, a))
    && (forall c :: c in e.calls ==> exists a :: a in e.answers && RightAnswer(gate, e.env, c, a))
  }

  ghost predicate StagesOk(gate: Gate, log: seq<Event>) {
    forall e :: e in log && e.UsedTools? ==> StageOk(gate, e)
  }

  lemma StageHolds(gate: Gate, content: RawContent, declared: seq<Call>, env: ToolEnv)
    ensures var p := Parse(content, declared);
            StageOk(gate, UsedTools(p.blocks, p.calls, Answers(gate, env, p.calls), env))
  {
    var p := Parse(content, declared);
    ParseWell(content, declared);
    EachCallAnsweredOnce(gate, env, p.calls);
    BodyRunsIffAuthorised(gate, env, p.calls);
    EveryAnswerRight(gate, env, p.calls);
    forall c | c in p.calls ensures exists a :: a in Answers(gate, env, p.calls) && RightAnswer(gate, env, c, a) {
      EveryCallRight(gate, env, p.calls, c);
    }
  }

  lemma EmittedStages(cfg: Config, l: Loop, t: Turn)
    ensures StagesOk(cfg.gate, Emitted(cfg, l, t))
  {
    forall e | e in Emitted(cfg, l, t) && e.UsedTools? ensures StageOk(cfg.gate, e) {
      var auto, ask := AutoEvents(cfg, l.state, t), [Asked(l.state.activeModel)];
      assert e !in auto && e !in ask;
      assert e in Rest(cfg, l, t);
      StageHolds(cfg.gate, t.provided.content, t.provided.declared, t.env);
    }
  }

  lemma {:induction false} RunStages(cfg: Config, l: Loop, script: seq<Turn>)
    requires StagesOk(cfg.gate, l.state.log)
    ensures StagesOk(cfg.gate, RunLoop(cfg, l, script).state.log)
    decreases |script|
  {
    if script != [] && Going(l) {
      IterateLog(cfg, l, script[0]);
      EmittedStages(cfg, l, script[0]);
      RunStages(cfg, Iterate(cfg, l, script[0]), script[1..]);
    }
  }

  lemma {:induction false} EveryToolStage(cfg: Config, model: string, history: seq<Message>, subs: seq<Submission>)
    ensures StagesOk(cfg.gate, Session(cfg, Start(model, history), subs).log)
  {
    if subs != [] {
      var n := |subs| - 1;
      EveryToolStage(cfg, model, history, subs[..n]);
      RunStages(cfg, Begin(cfg, Session(cfg, Start(model, history), subs[..n]), subs[n].prompt), subs[n].script);
    }
  }
}
