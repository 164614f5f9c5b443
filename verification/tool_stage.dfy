/**
 One provider reply and the tool stage behind it: `_normalize_provider_response`,
 `_execute_single_tool` and the two tool loops of `submit_message` (forgepilot_sdk/engine.py).
 Policy, permission answers, `can_use_tool`, hooks and tool bodies are oracles, one answer per call.
 */
module ToolStage {
  import opened Lists
  import opened Messages
  import opened Options

  datatype Call = Call(id: string, name: string, input: string)

  /** A tool_use block without a usable id gets the fresh uuid `freshId`. */
  datatype RawBlock =
    | RawText(text: string)
    | RawToolUse(id: Option<string>, freshId: string, name: string, input: string)
    | RawIgnored

  datatype RawContent = RawString(s: string) | RawList(blocks: seq<RawBlock>) | RawOther

  datatype Parsed = Parsed(blocks: seq<Block>, calls: seq<Call>)

  // ---------------------------------------------------------------- parsing a reply

  predicate HasCall(calls: seq<Call>, id: string) {
    exists i :: 0 <= i < |calls| && calls[i].id == id
  }

  /** The first position holding `id`, or the length when there is none. */
  function IndexOf(calls: seq<Call>, id: string): (i: nat)
    ensures i <= |calls|
    ensures i < |calls| ==> calls[i].id == id
    ensures forall j :: 0 <= j < i ==> calls[j].id != id
  {
    if calls == [] then 0
    else if calls[0].id == id then 0
    else
      var i := IndexOf(calls[1..], id);
      assert forall j :: 0 < j < i + 1 ==> calls[j] == calls[1..][j - 1];
      i + 1
  }

  /** Assignment into an insertion-ordered dict: a known id keeps its place and gets the new value. */
  function PutCall(calls: seq<Call>, c: Call): seq<Call> {
    var i := IndexOf(calls, c.id);
    if i < |calls| then calls[i := c] else calls + [c]
  }

  function ToBlock(c: Call): Block {
    ToolUse(Some(c.id), c.name, c.input)
  }

  function ToCall(b: RawBlock): Call
    requires b.RawToolUse?
  {
    Call(if b.id.Some? && b.id.value != "" then b.id.value else b.freshId, b.name, b.input)
  }

  function ParseOne(p: Parsed, b: RawBlock): Parsed {
    match b
    case RawText(t) => Parsed(p.blocks + [TextBlock(t)], p.calls)
    case RawToolUse(_, _, _, _) => Parsed(p.blocks + [ToBlock(ToCall(b))], PutCall(p.calls, ToCall(b)))
    case RawIgnored => p
  }

  function ParseList(bs: seq<RawBlock>): Parsed {
    if bs == [] then Parsed([], []) else ParseOne(ParseList(bs[..|bs| - 1]), bs[|bs| - 1])
  }

  function ParseContent(c: RawContent): Parsed {
    match c
    case RawString(s) => Parsed(if s == "" then [] else [TextBlock(s)], [])
    case RawList(bs) => ParseList(bs)
    case RawOther => Parsed([], [])
  }

  /** A call listed next to the content counts only if its id was not seen before. */
  function DeclareOne(p: Parsed, c: Call): Parsed {
    if HasCall(p.calls, c.id) then p else Parsed(p.blocks + [ToBlock(c)], p.calls + [c])
  }

  function Declare(p: Parsed, declared: seq<Call>): Parsed {
    if declared == [] then p
    else DeclareOne(Declare(p, declared[..|declared| - 1]), declared[|declared| - 1])
  }

  function Parse(content: RawContent, declared: seq<Call>): Parsed {
    Declare(ParseContent(content), declared)
  }

  method NormalizeProviderResponse(content: RawContent, declared: seq<Call>)
    returns (blocks: seq<Block>, calls: seq<Call>)
    ensures Parsed(blocks, calls) == Parse(content, declared)
  {
    blocks, calls := [], [];
    match content {
      case RawString(s) =>
        if s != "" {
          blocks := blocks + [TextBlock(s)];
        }
      case RawList(bs) =>
        for i := 0 to |bs|
          invariant Parsed(blocks, calls) == ParseList(bs[..i])
        {
          var block := bs[i];
          assert bs[..i + 1][..i] == bs[..i];
          match block {
            case RawText(t) =>
              blocks := blocks + [TextBlock(t)];
            case RawToolUse(_, _, _, _) =>
              var call := ToCall(block);
              calls := PutCall(calls, call);
              blocks := blocks + [ToBlock(call)];
            case RawIgnored =>
          }
        }
        assert bs[..|bs|] == bs;
      case RawOther =>
    }
    for i := 0 to |declared|
      invariant Parsed(blocks, calls) == Declare(ParseContent(content), declared[..i])
    {
      var call := declared[i];
      assert declared[..i + 1][..i] == declared[..i];
      if HasCall(calls, call.id) {
        continue;
      }
      calls := calls + [call];
      blocks := blocks + [ToBlock(call)];
    }
    assert declared[..|declared|] == declared;
  }

  function CallIds(calls: seq<Call>): seq<string> {
    seq(|calls|, i requires 0 <= i < |calls| => calls[i].id)
  }

  /** The calls of a parsed reply are exactly its tool_use blocks up to repeated ids, and an
      assistant message holds nothing but text and identified tool_use blocks. */
  ghost predicate WellParsed(p: Parsed) {
    && (forall i, j :: 0 <= i < j < |p.calls| ==> p.calls[i].id != p.calls[j].id)
    && (forall b :: b in p.blocks ==> b.TextBlock? || (b.ToolUse? && b.useId.Some? && HasCall(p.calls, b.useId.value)))
    && (forall i :: 0 <= i < |p.calls| ==> ToBlock(p.calls[i]) in p.blocks)
  }

  lemma PutCallProperties(calls: seq<Call>, c: Call)
    requires forall i, j :: 0 <= i < j < |calls| ==> calls[i].id != calls[j].id
    ensures var r := PutCall(calls, c);
            && (forall i, j :: 0 <= i < j < |r| ==> r[i].id != r[j].id)
            && (forall x :: x in r ==> x == c || x in calls)
            && (forall id :: HasCall(r, id) <==> id == c.id || HasCall(calls, id))
  {
    var k, r := IndexOf(calls, c.id), PutCall(calls, c);
    assert r[k] == c;
    forall id ensures HasCall(r, id) <==> id == c.id || HasCall(calls, id) {
      if HasCall(calls, id) {
        var i :| 0 <= i < |calls| && calls[i].id == id;
        assert r[i].id == id;
      }
    }
  }

  lemma {:induction false} ParseListWell(bs: seq<RawBlock>)
    ensures WellParsed(ParseList(bs))
  {
    if bs != [] {
      var n := |bs| - 1;
      ParseListWell(bs[..n]);
      if bs[n].RawToolUse? {
        var p := ParseList(bs[..n]);
        var c := ToCall(bs[n]);
        PutCallProperties(p.calls, c);
        var r := ParseOne(p, bs[n]);
        forall i | 0 <= i < |r.calls| ensures ToBlock(r.calls[i]) in r.blocks {
          assert r.calls[i] in r.calls;
          assert r.blocks[|p.blocks|] == ToBlock(c);
        }
      }
    }
  }

  lemma {:induction false} DeclareWell(p: Parsed, declared: seq<Call>)
    requires WellParsed(p)
    ensures WellParsed(Declare(p, declared))
  {
    if declared != [] {
      var n := |declared| - 1;
      DeclareWell(p, declared[..n]);
      var q := Declare(p, declared[..n]);
      var r := DeclareOne(q, declared[n]);
      if !HasCall(q.calls, declared[n].id) {
        assert r.calls[|q.calls|].id == declared[n].id;
        assert r.blocks[|q.blocks|] == ToBlock(declared[n]);
        forall b | b in r.blocks && b.ToolUse?
          ensures b.useId.Some? && HasCall(r.calls, b.useId.value)
        {
          if b in q.blocks {
            var i :| 0 <= i < |q.calls| && q.calls[i].id == b.useId.value;
            assert r.calls[i].id == b.useId.value;
          }
        }
      }
    }
  }

  lemma ParseWell(content: RawContent, declared: seq<Call>)
    ensures WellParsed(Parse(content, declared))
  {
    match content
    case RawList(bs) =>
      ParseListWell(bs);
      DeclareWell(ParseContent(content), declared);
    case _ =>
      DeclareWell(ParseContent(content), declared);
  }

  // ---------------------------------------------------------------- one tool call

  datatype Action = Allow | Deny | RequirePermission

  datatype Decision = Decision(action: Action, input: string, reason: string, risk: string)

  datatype ToolInfo = ToolInfo(readOnly: bool, enabled: bool)

  /** The answer of `can_use_tool`: an exception, a refusal or a consent that may replace the input. */
  datatype Consent = ConsentError(message: string) | Refusal(message: string) | Consented(updated: Option<string>)

  datatype BodyResult = BodyResult(output: string, isError: bool)

  /** The outside world of one tool stage. `granted` is the permission answer, false also when the
      wait failed or timed out; `body` covers a tool that raises (an error result). */
  datatype ToolEnv = ToolEnv(
    policy: Call -> Decision,
    tools: string -> Option<ToolInfo>,
    granted: Call -> bool,
    consent: Option<Call -> Consent>,
    hookBlock: Call -> Option<string>,
    body: Call -> BodyResult)

  /** An environment without tools whose policy denies every call. */
  const DENY_ALL: ToolEnv := ToolEnv(
    (c: Call) => Decision(Deny, c.input, "", ""),
    (name: string) => None,
    (c: Call) => false,
    None,
    (c: Call) => None,
    (c: Call) => BodyResult("", true))

  datatype Gate = Gate(bypass: bool, hasWaiter: bool)

  /** `ranWith` is the call the tool body was invoked on, None when it was not invoked. */
  datatype Answer = Answer(id: string, name: string, output: string, isError: bool, ranWith: Option<Call>)

  function PolicyDenied(c: Call, d: Decision): Answer {
    Answer(c.id, c.name, "__POLICY_DENIED__|risk=" + d.risk + "|" + d.reason, true, None)
  }

  function Quoted(name: string): string { "\"" + name + "\"" }

  function ExecuteSingle(env: ToolEnv, c: Call, tool: Option<ToolInfo>): Answer {
    if tool.None? then
      Answer(c.id, c.name, "Error: Unknown tool " + Quoted(c.name), true, None)
    else if !tool.value.enabled then
      Answer(c.id, c.name, "Error: Tool " + Quoted(c.name) + " is not enabled", true, None)
    else if env.hookBlock(c).Some? then
      Answer(c.id, c.name, env.hookBlock(c).value, true, None)
    else
      var r := env.body(c);
      Answer(c.id, c.name, r.output, r.isError, Some(c))
  }

  function Normalized(env: ToolEnv, c: Call): Call {
    c.(input := env.policy(c).input)
  }

  predicate NeedsPermission(gate: Gate, env: ToolEnv, c: Call) {
    || env.policy(c).action == RequirePermission
    || (env.tools(c.name).Some? && !gate.bypass && !env.tools(c.name).value.readOnly)
  }

  /** The answer to a call that policy did not deny. */
  function AnswerPending(gate: Gate, env: ToolEnv, raw: Call): Answer {
    var c := Normalized(env, raw);
    var tool := env.tools(c.name);
    if NeedsPermission(gate, env, raw) && !gate.hasWaiter then
      Answer(c.id, c.name,
             if env.policy(raw).action == RequirePermission
             then "Policy requires approval: " + env.policy(raw).reason
             else "Permission denied for tool " + Quoted(c.name), true, None)
    else if NeedsPermission(gate, env, raw) && !env.granted(c) then
      Answer(c.id, c.name, "Permission denied by user", true, None)
    else if tool.None? || env.consent.None? then
      ExecuteSingle(env, c, tool)
    else
      match env.consent.value(c)
      case ConsentError(message) => Answer(c.id, c.name, "Permission check error: " + message, true, None)
      case Refusal(message) => Answer(c.id, c.name, message, true, None)
      case Consented(updated) =>
        ExecuteSingle(env, if updated.Some? then c.(input := updated.value) else c, tool)
  }

  function DeniedAnswers(env: ToolEnv, calls: seq<Call>): seq<Answer> {
    if calls == [] then []
    else
      var n := |calls| - 1;
      DeniedAnswers(env, calls[..n])
      + (if env.policy(calls[n]).action == Deny then [PolicyDenied(calls[n], env.policy(calls[n]))] else [])
  }

  function PendingCalls(env: ToolEnv, calls: seq<Call>): seq<Call> {
    if calls == [] then []
    else
      var n := |calls| - 1;
      PendingCalls(env, calls[..n]) + (if env.policy(calls[n]).action == Deny then [] else [calls[n]])
  }

  function PendingAnswers(gate: Gate, env: ToolEnv, pending: seq<Call>): (r: seq<Answer>)
    ensures |r| == |pending|
  {
    seq(|pending|, i requires 0 <= i < |pending| => AnswerPending(gate, env, pending[i]))
  }

  function Answers(gate: Gate, env: ToolEnv, calls: seq<Call>): seq<Answer> {
    DeniedAnswers(env, calls) + PendingAnswers(gate, env, PendingCalls(env, calls))
  }

  /** The body of the second loop, one pending call at a time, with the branches of the source. */
  method AnswerOne(gate: Gate, env: ToolEnv, raw: Call, decision: Decision) returns (answer: Answer)
    requires decision == env.policy(raw)
    ensures answer == AnswerPending(gate, env, raw)
  {
    var call := Call(raw.id, raw.name, decision.input);
    var tool := env.tools(call.name);
    var requiresPolicyPermission := decision.action == RequirePermission;
    var requiresToolPermission := tool.Some? && !gate.bypass && !tool.value.readOnly;
    if requiresPolicyPermission || requiresToolPermission {
      if !gate.hasWaiter {
        var reason := if requiresPolicyPermission
        then "Policy requires approval: " + decision.reason
        else "Permission denied for tool " + Quoted(call.name);
        return Answer(call.id, call.name, reason, true, None);
      }
      var approved := env.granted(call);
      if !approved {
        return Answer(call.id, call.name, "Permission denied by user", true, None);
      }
    }
    if tool.None? {
      return ExecuteSingle(env, call, None);
    }
    if env.consent.Some? {
      var permission := env.consent.value(call);
      match permission {
        case ConsentError(message) =>
          return Answer(call.id, call.name, "Permission check error: " + message, true, None);
        case Refusal(message) =>
          return Answer(call.id, call.name, message, true, None);
        case Consented(updated) =>
          if updated.Some? {
            call := Call(call.id, call.name, updated.value);
          }
      }
    }
    answer := ExecuteSingle(env, call, tool);
  }

  /** The first loop: denied calls are answered at once, the others wait. */
  method SortByPolicy(env: ToolEnv, calls: seq<Call>) returns (results: seq<Answer>, pending: seq<Call>)
    ensures results == DeniedAnswers(env, calls) && pending == PendingCalls(env, calls)
  {
    results, pending := [], [];
    for i := 0 to |calls|
      invariant results == DeniedAnswers(env, calls[..i])
      invariant pending == PendingCalls(env, calls[..i])
    {
      var raw := calls[i];
      assert calls[..i + 1][..i] == calls[..i];
      var decision := env.policy(raw);
      if decision.action == Deny {
        results := results + [PolicyDenied(raw, decision)];
        continue;
      }
      pending := pending + [raw];
    }
    assert calls[..|calls|] == calls;
  }

  method RunToolStage(gate: Gate, env: ToolEnv, calls: seq<Call>) returns (results: seq<Answer>)
    ensures results == Answers(gate, env, calls)
  {
    var denied, pending := SortByPolicy(env, calls);
    results := denied;
    ghost var rest := PendingAnswers(gate, env, pending);
    for i := 0 to |pending|
      invariant results == denied + rest[..i]
    {
      var answer := AnswerOne(gate, env, pending[i], env.policy(pending[i]));
      TakeNext(rest, i);
      results := results + [answer];
    }
    assert rest[..|pending|] == rest;
  }

  // ---------------------------------------------------------------- each call answered once

  function AnswerIds(answers: seq<Answer>): (r: seq<string>)
    ensures |r| == |answers|
  {
    seq(|answers|, i requires 0 <= i < |answers| => answers[i].id)
  }

  /** The ids of the calls that policy denies (or does not deny), in call order. */
  function IdsByPolicy(env: ToolEnv, calls: seq<Call>, denied: bool): seq<string> {
    if calls == [] then []
    else
      var n := |calls| - 1;
      IdsByPolicy(env, calls[..n], denied)
      + (if (env.policy(calls[n]).action == Deny) == denied then [calls[n].id] else [])
  }

  lemma {:induction false} DeniedIds(env: ToolEnv, calls: seq<Call>)
    ensures AnswerIds(DeniedAnswers(env, calls)) == IdsByPolicy(env, calls, true)
  {
    if calls != [] {
      DeniedIds(env, calls[..|calls| - 1]);
    }
  }

  lemma {:induction false} PendingIds(gate: Gate, env: ToolEnv, calls: seq<Call>)
    ensures AnswerIds(PendingAnswers(gate, env, PendingCalls(env, calls))) == IdsByPolicy(env, calls, false)
  {
    if calls != [] {
      var n := |calls| - 1;
      PendingIds(gate, env, calls[..n]);
      var before := PendingCalls(env, calls[..n]);
      if env.policy(calls[n]).action != Deny {
        assert PendingAnswers(gate, env, before + [calls[n]])
            == PendingAnswers(gate, env, before) + [AnswerPending(gate, env, calls[n])];
      }
    }
  }

  lemma CountsOneMore(a: seq<string>, b: seq<string>, all: seq<string>, id: string, first: bool)
    requires multiset(a) + multiset(b) == multiset(all)
    ensures multiset(a + if first then [id] else []) + multiset(b + if first then [] else [id]) == multiset(all + [id])
  {
  }

  lemma {:induction false} PolicySplits(env: ToolEnv, calls: seq<Call>)
    ensures multiset(IdsByPolicy(env, calls, true)) + multiset(IdsByPolicy(env, calls, false))
         == multiset(CallIds(calls))
  {
    if calls != [] {
      var n := |calls| - 1;
      PolicySplits(env, calls[..n]);
      assert CallIds(calls) == CallIds(calls[..n]) + [calls[n].id];
      var denied, others := IdsByPolicy(env, calls[..n], true), IdsByPolicy(env, calls[..n], false);
      CountsOneMore(denied, others, CallIds(calls[..n]), calls[n].id, env.policy(calls[n]).action == Deny);
    }
  }

  /** Every call is answered exactly once: policy-denied calls first, the others behind them, both
      in call order. */
  lemma EachCallAnsweredOnce(gate: Gate, env: ToolEnv, calls: seq<Call>)
    ensures AnswerIds(Answers(gate, env, calls)) == IdsByPolicy(env, calls, true) + IdsByPolicy(env, calls, false)
    ensures multiset(AnswerIds(Answers(gate, env, calls))) == multiset(CallIds(calls))
  {
    DeniedIds(env, calls);
    PendingIds(gate, env, calls);
    PolicySplits(env, calls);
    var a, b := DeniedAnswers(env, calls), PendingAnswers(gate, env, PendingCalls(env, calls));
    assert AnswerIds(a + b) == AnswerIds(a) + AnswerIds(b);
  }

  // ---------------------------------------------------------------- when a tool body runs

  /** What a tool body may be run on: the policy's input, or the replacement `can_use_tool` gave. */
  function Effective(env: ToolEnv, raw: Call): Call {
    var c := Call(raw.id, raw.name, env.policy(raw).input);
    if env.consent.Some? && env.consent.value(c).Consented? && env.consent.value(c).updated.Some?
    then c.(input := env.consent.value(c).updated.value) else c
  }

  /** A known tool that can change something, outside the mode that lets everything through. */
  predicate Guarded(gate: Gate, env: ToolEnv, raw: Call) {
    !gate.bypass && env.tools(raw.name).Some? && !env.tools(raw.name).value.readOnly
  }

  /** Every gate the call has to pass, each on its own terms. */
  predicate Authorised(gate: Gate, env: ToolEnv, raw: Call) {
    var c := Call(raw.id, raw.name, env.policy(raw).input);
    && env.policy(raw).action != Deny
    && (env.policy(raw).action == RequirePermission || Guarded(gate, env, raw) ==> gate.hasWaiter && env.granted(c))
    && env.tools(raw.name).Some? && env.tools(raw.name).value.enabled
    && (env.consent.Some? ==> env.consent.value(c).Consented?)
    && env.hookBlock(Effective(env, raw)).None?
  }

  lemma {:induction false} DeniedNeverRun(env: ToolEnv, calls: seq<Call>)
    ensures forall a :: a in DeniedAnswers(env, calls) ==>
              a.ranWith.None? && a.isError && exists c :: c in calls && c.id == a.id && env.policy(c).action == Deny
  {
    if calls != [] {
      DeniedNeverRun(env, calls[..|calls| - 1]);
      assert calls[|calls| - 1] in calls;
    }
  }

  lemma {:induction false} PendingMembers(env: ToolEnv, calls: seq<Call>)
    ensures forall c :: c in PendingCalls(env, calls) <==> c in calls && env.policy(c).action != Deny
  {
    if calls != [] {
      PendingMembers(env, calls[..|calls| - 1]);
      assert calls == calls[..|calls| - 1] + [calls[|calls| - 1]];
    }
  }

  /** A tool body runs exactly for the authorised calls of the turn, on the effective input. */
  lemma BodyRunsIffAuthorised(gate: Gate, env: ToolEnv, calls: seq<Call>)
    ensures forall c :: c in calls && Authorised(gate, env, c) ==>
              exists a :: a in Answers(gate, env, calls) && a.id == c.id && a.ranWith == Some(Effective(env, c))
    ensures forall a :: a in Answers(gate, env, calls) && a.ranWith.Some? ==>
              exists c :: c in calls && c.id == a.id && Authorised(gate, env, c) && a.ranWith == Some(Effective(env, c))
  {
    DeniedNeverRun(env, calls);
    PendingMembers(env, calls);
    var pending := PendingCalls(env, calls);
    var denied, answers := DeniedAnswers(env, calls), PendingAnswers(gate, env, pending);
    forall c | c in calls && Authorised(gate, env, c)
      ensures exists a :: a in Answers(gate, env, calls) && a.id == c.id && a.ranWith == Some(Effective(env, c))
    {
      var i :| 0 <= i < |pending| && pending[i] == c;
      OneRunsIffAuthorised(gate, env, c);
      assert (denied + answers)[|denied| + i] == AnswerPending(gate, env, c);
      assert AnswerPending(gate, env, c) in Answers(gate, env, calls);
    }
    forall a | a in Answers(gate, env, calls) && a.ranWith.Some?
      ensures exists c :: c in calls && c.id == a.id && Authorised(gate, env, c) && a.ranWith == Some(Effective(env, c))
    {
      assert a !in denied && a in answers;
      var i :| 0 <= i < |answers| && answers[i] == a;
      OneRunsIffAuthorised(gate, env, pending[i]);
      assert pending[i] in pending;
    }
  }

  lemma OneRunsIffAuthorised(gate: Gate, env: ToolEnv, c: Call)
    requires env.policy(c).action != Deny
    ensures AnswerPending(gate, env, c).id == c.id
    ensures AnswerPending(gate, env, c).ranWith == if Authorised(gate, env, c) then Some(Effective(env, c)) else None
  {
  }

  // ---------------------------------------------------------------- recording the results

  function ResultBlocks(answers: seq<Answer>): (r: seq<Block>)
    ensures |r| == |answers|
    ensures forall i :: 0 <= i < |r| ==> r[i] == ToolResult(Some(answers[i].id), answers[i].output, answers[i].isError)
  {
    seq(|answers|,
        i requires 0 <= i < |answers| => ToolResult(Some(answers[i].id), answers[i].output, answers[i].isError))
  }

  function ErrorOutputs(answers: seq<Answer>): seq<string> {
    if answers == [] then []
    else
      var n := |answers| - 1;
      ErrorOutputs(answers[..n]) + (if answers[n].isError then [answers[n].output] else [])
  }

  /** The loop that turns the answers into the blocks of the next user message and collects the errors. */
  method RecordResults(answers: seq<Answer>, before: seq<string>) returns (blocks: seq<Block>, errors: seq<string>)
    ensures blocks == ResultBlocks(answers)
    ensures errors == before + ErrorOutputs(answers)
  {
    blocks, errors := [], before;
    for i := 0 to |answers|
      invariant blocks == ResultBlocks(answers[..i])
      invariant errors == before + ErrorOutputs(answers[..i])
    {
      var answer := answers[i];
      assert answers[..i + 1][..i] == answers[..i];
      if answer.isError {
        errors := errors + [answer.output];
      }
      blocks := blocks + [ToolResult(Some(answer.id), answer.output, answer.isError)];
    }
    assert answers[..|answers|] == answers;
  }
}
