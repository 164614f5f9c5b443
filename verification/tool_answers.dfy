/**
 What every tool call is told: the tool's own result for a call that was let through, and the words of the
 first gate that stopped it otherwise.
 */
module ToolAnswers {
  import opened Filters
  import opened Lists
  import opened Messages
  import opened Options
  import opened ToolStage

  /** What a call is told that policy lets pass and a later gate stops, gate by gate. */
  function Refused(gate: Gate, env: ToolEnv, raw: Call): string {
    var c := Call(raw.id, raw.name, env.policy(raw).input);
    var byPolicy := env.policy(raw).action == RequirePermission;
    if (byPolicy || Guarded(gate, env, raw)) && !gate.hasWaiter then
      if byPolicy then "Policy requires approval: " + env.policy(raw).reason
      else "Permission denied for tool " + ("\"" + raw.name + "\"")
    else if (byPolicy || Guarded(gate, env, raw)) && !env.granted(c) then "Permission denied by user"
    else if env.tools(raw.name).None? then "Error: Unknown tool " + ("\"" + raw.name + "\"")
    else if env.consent.Some? && env.consent.value(c).ConsentError? then
      "Permission check error: " + env.consent.value(c).message
    else if env.consent.Some? && env.consent.value(c).Refusal? then env.consent.value(c).message
    else if !env.tools(raw.name).value.enabled then "Error: Tool " + ("\"" + raw.name + "\"") + " is not enabled"
    else if env.hookBlock(Effective(env, raw)).Some? then env.hookBlock(Effective(env, raw)).value
    else ""
  }

  /** `a` is the right answer to `c`: under its id and name, what the tool's body said of an authorised call,
      and an error with the reason otherwise, without the body having run. */
  ghost predicate RightAnswer(gate: Gate, env: ToolEnv, c: Call, a: Answer) {
    && a.id == c.id && a.name == c.name
    && (Authorised(gate, env, c) ==>
          && a.output == env.body(Effective(env, c)).output && a.isError == env.body(Effective(env, c)).isError
          && a.ranWith == Some(Effective(env, c)))
    && (!Authorised(gate, env, c) ==> a.isError && a.ranWith == None)
    && (env.policy(c).action == Deny ==>
          a.output == "__POLICY_DENIED__|risk=" + env.policy(c).risk + "|" + env.policy(c).reason)
    && (env.policy(c).action != Deny && !Authorised(gate, env, c) ==> a.output == Refused(gate, env, c))
  }

  lemma PendingRight(gate: Gate, env: ToolEnv, c: Call)
    requires env.policy(c).action != Deny
    ensures RightAnswer(gate, env, c, AnswerPending(gate, env, c))
  {
  }

  lemma DeniedRight(gate: Gate, env: ToolEnv, c: Call)
    requires env.policy(c).action == Deny
    ensures RightAnswer(gate, env, c, PolicyDenied(c, env.policy(c)))
  {
  }

  ghost predicate AnswersSome(gate: Gate, env: ToolEnv, calls: seq<Call>, a: Answer) {
    exists c :: c in calls && RightAnswer(gate, env, c, a)
  }

  lemma {:induction false} DeniedAllRight(gate: Gate, env: ToolEnv, calls: seq<Call>)
    ensures forall a :: a in DeniedAnswers(env, calls) ==> AnswersSome(gate, env, calls, a)
  {
    if calls != [] {
      var n := |calls| - 1;
      DeniedAllRight(gate, env, calls[..n]);
      if env.policy(calls[n]).action == Deny {
        DeniedRight(gate, env, calls[n]);
      }
      forall a | a in DeniedAnswers(env, calls) ensures AnswersSome(gate, env, calls, a) {
        if a in DeniedAnswers(env, calls[..n]) {
          var c :| c in calls[..n] && RightAnswer(gate, env, c, a);
          assert c in calls;
        } else {
          assert calls[n] in calls;
        }
      }
    }
  }

  /** Every answer of a stage is the right answer to a call of that stage. */
  lemma EveryAnswerRight(gate: Gate, env: ToolEnv, calls: seq<Call>)
    ensures forall a :: a in Answers(gate, env, calls) ==> AnswersSome(gate, env, calls, a)
  {
    DeniedAllRight(gate, env, calls);
    PendingMembers(env, calls);
    var pending := PendingCalls(env, calls);
    var answers := PendingAnswers(gate, env, pending);
    forall a | a in answers ensures AnswersSome(gate, env, calls, a) {
      var i :| 0 <= i < |answers| && answers[i] == a;
      assert pending[i] in pending;
      PendingRight(gate, env, pending[i]);
    }
  }

  lemma SameId(calls: seq<Call>, c: Call, d: Call)
    requires forall i, j :: 0 <= i < j < |calls| ==> calls[i].id != calls[j].id
    requires c in calls && d in calls && c.id == d.id
    ensures c == d
  {
    var i :| 0 <= i < |calls| && calls[i] == c;
    var j :| 0 <= j < |calls| && calls[j] == d;
  }

  /** Where the ids are distinct, every call gets its right answer. */
  lemma EveryCallRight(gate: Gate, env: ToolEnv, calls: seq<Call>, c: Call)
    requires c in calls && forall i, j :: 0 <= i < j < |calls| ==> calls[i].id != calls[j].id
    ensures exists a :: a in Answers(gate, env, calls) && RightAnswer(gate, env, c, a)
  {
    var answers := Answers(gate, env, calls);
    EachCallAnsweredOnce(gate, env, calls);
    EveryAnswerRight(gate, env, calls);
    var i :| 0 <= i < |calls| && calls[i] == c;
    assert CallIds(calls)[i] in multiset(CallIds(calls));
    assert c.id in AnswerIds(answers);
    var k :| 0 <= k < |answers| && AnswerIds(answers)[k] == c.id;
    assert AnswersSome(gate, env, calls, answers[k]);
    var d :| d in calls && RightAnswer(gate, env, d, answers[k]);
    SameId(calls, c, d);
  }

  predicate Failed(a: Answer) { a.isError }

  /** What goes into the errors: the outputs of the failed answers, in order. */
  lemma {:induction false} ErrorsSay(answers: seq<Answer>)
    ensures var failed := Filter(Failed, answers);
            |ErrorOutputs(answers)| == |failed| && forall i :: 0 <= i < |failed| ==> ErrorOutputs(answers)[i] == failed[i].output
  {
    if answers != [] {
      ErrorsSay(answers[..|answers| - 1]);
    }
  }
}
