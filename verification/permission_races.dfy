/**
 What the races of the permission protocol allow: runs that show which promises it does not make, and
 exactly when a responder reports success.
 */
module PermissionRaces {
  import opened Options
  import opened RuntimePermissions
  import opened PermissionProtocol
  import opened PermissionInvariant
  import opened PermissionSafety

  predicate ResponderIs(s: State, who: nat, r: Responder) {
    who in s.responders && s.responders[who] == r
  }

  lemma RunSnoc(s: State, events: seq<Event>, e: Event)
    ensures Run(s, events + [e]) == Step(Run(s, events), e)
  {
    assert (events + [e])[..|events|] == events;
  }

  /** Two responders that both see "pending" before either writes. */
  function BothChecked(k: Key): seq<Event> {
    [Register(k, None)] + [RespondCheck(0, k, true)] + [RespondCheck(1, k, false)]
  }

  lemma BothCheckedState(now: int, k: Key)
    ensures Run(Init(now), BothChecked(k))
         == State(map[k := Row(Pending, None)], now, {}, map[k := Polling],
                  map[0 := Checked(k, true), 1 := Checked(k, false)], [Opened(k)])
  {
    var e1, e2 := [Register(k, None)], [RespondCheck(0, k, true)];
    RunSnoc(Init(now), [], e1[0]);
    assert [] + e1 == e1;
    var s1 := Run(Init(now), e1);
    assert s1 == State(map[k := Row(Pending, None)], now, {}, map[k := Polling], map[], [Opened(k)]);
    RunSnoc(Init(now), e1, e2[0]);
    var s2 := Run(Init(now), e1 + e2);
    assert s2 == s1.(responders := map[0 := Checked(k, true)]);
    RunSnoc(Init(now), e1 + e2, RespondCheck(1, k, false));
  }

  /** Success of a responder is no promise: the approval is written first, the denial over it; both
      responders report True and the waiter returns False. */
  lemma BothRespondersSucceed(now: int, k: Key)
    ensures var s := Run(Init(now), BothChecked(k) + [RespondWrite(0)] + [RespondWrite(1)] + [Read(k)] + [Remove(k)]);
            && ResponderIs(s, 0, Answered(k, true, true))
            && ResponderIs(s, 1, Answered(k, false, true))
            && WaiterIs(s, k, Returned(false))
  {
    var e := BothChecked(k);
    var e1 := e + [RespondWrite(0)];
    var e2 := e1 + [RespondWrite(1)];
    BothCheckedState(now, k);
    RunSnoc(Init(now), e, RespondWrite(0));
    assert Run(Init(now), e1)
        == State(map[k := Row(Approved, None)], now, {}, map[k := Polling],
                 map[0 := Answered(k, true, true), 1 := Checked(k, false)],
                 [Opened(k)] + [Wrote(k, Approved, Some(0))]);
    RunSnoc(Init(now), e1, RespondWrite(1));
    OverwriteSeen(Run(Init(now), e1), k);
    RunSnoc(Init(now), e2, Read(k));
    RunSnoc(Init(now), e2 + [Read(k)], Remove(k));
  }

  /** A denial written over an approval is what the waiter sees. */
  lemma OverwriteSeen(s: State, k: Key)
    ensures var r := Step(Step(Step(s, RespondWrite(1)), Read(k)), Remove(k));
            Visible(s.rows, k, s.now) && WaiterIs(s, k, Polling)
            && ResponderIs(s, 1, Checked(k, false)) && ResponderIs(s, 0, Answered(k, true, true)) ==>
              && ResponderIs(r, 0, Answered(k, true, true))
              && ResponderIs(r, 1, Answered(k, false, true))
              && WaiterIs(r, k, Returned(false))
  {
    if Visible(s.rows, k, s.now) && WaiterIs(s, k, Polling) && ResponderIs(s, 1, Checked(k, false)) {
      var w := Step(s, RespondWrite(1));
      assert Visible(w.rows, k, w.now) && w.rows[k].status == Denied && WaiterIs(w, k, Polling);
      var d := Step(w, Read(k));
      assert WaiterIs(d, k, Leaving(false));
    }
  }

  /** Unlike the waiter's own return, the outer timeout leaves the row behind: a responder still
      succeeds on it although nobody waits any more. */
  lemma CancelLeavesRow(now: int, k: Key)
    ensures var s := Run(Init(now), BothChecked(k) + [Cancel(k)] + [RespondWrite(0)]);
            && WaiterIs(s, k, Abandoned)
            && Visible(s.rows, k, s.now) && s.rows[k].status == Approved
            && ResponderIs(s, 0, Answered(k, true, true))
  {
    BothCheckedState(now, k);
    RunSnoc(Init(now), BothChecked(k), Cancel(k));
    RunSnoc(Init(now), BothChecked(k) + [Cancel(k)], RespondWrite(0));
  }

  // ---------------------------------------------------------------- when a responder succeeds

  /** `respond_to_permission_async` carried on to its end without interruption, from wherever `who` is. */
  function Completed(s: State, who: nat, k: Key, approved: bool): State {
    Step(Step(s, RespondCheck(who, k, approved)), RespondWrite(who))
  }

  /** Wherever the waiter is, gone or not: a fresh responder succeeds if and only if the row is visible
      and pending, and one that has already seen "pending" if and only if the row is visible. */
  lemma RespondsIff(s: State, who: nat, k: Key, approved: bool)
    requires who in s.responders ==> s.responders[who].Checked? && s.responders[who].key == k
    ensures who in Completed(s, who, k, approved).responders
    ensures Succeeded(Completed(s, who, k, approved).responders[who], k)
       <==> Visible(s.rows, k, s.now) && (who in s.responders || s.rows[k].status == Pending)
  {
  }

  /** `who` has not got through to `k`. */
  ghost predicate Unsuccessful(s: State, who: nat, k: Key) {
    who in s.responders && s.responders[who].key == k ==> s.responders[who].Answered? && !s.responders[who].changed
  }

  lemma UnsuccessfulStep(s: State, e: Event, who: nat, k: Key)
    requires Decided(s, k) && Unsuccessful(s, who, k)
    ensures Unsuccessful(Step(s, e), who, k)
  {
  }

  /** A responder whose check comes after the status has left "pending" never reports success, whatever
      happens afterwards: of two, the second one succeeds only if both had checked before. */
  lemma {:induction false} LateResponderFails(s: State, events: seq<Event>, who: nat, k: Key)
    requires Inv(s) && Decided(s, k) && who !in s.responders
    ensures Unsuccessful(Run(s, events), who, k)
    decreases |events|
  {
    if events != [] {
      var past := events[..|events| - 1];
      LateResponderFails(s, past, who, k);
      PendingNeverReturns(s, past, k);
      UnsuccessfulStep(Run(s, past), events[|events| - 1], who, k);
    }
  }

  /** Writing to a visible row decides it, and touches no other responder. */
  lemma WriteDecides(s: State, who: nat, k: Key)
    requires RowsOk(s) && Visible(s.rows, k, s.now)
    requires who in s.responders && s.responders[who].Checked? && s.responders[who].key == k
    ensures Decided(Step(s, RespondWrite(who)), k)
    ensures forall w :: w in Step(s, RespondWrite(who)).responders ==> w in s.responders
  {
  }

  /** After one success on an id, a responder that had not checked by then never succeeds on it. */
  lemma SecondNeedsEarlyCheck(s: State, events: seq<Event>, first: nat, second: nat, k: Key)
    requires Inv(s) && Visible(s.rows, k, s.now) && second !in s.responders
    requires first in s.responders && s.responders[first].Checked? && s.responders[first].key == k
    ensures Unsuccessful(Run(Step(s, RespondWrite(first)), events), second, k)
  {
    StepKeeps(s, RespondWrite(first));
    WriteDecides(s, first, k);
    LateResponderFails(Step(s, RespondWrite(first)), events, second, k);
  }

  /** Conversely, two responders that have both checked a visible row both succeed, in either order. */
  lemma BothCheckedSucceed(s: State, a: nat, b: nat, k: Key)
    requires a != b && Visible(s.rows, k, s.now)
    requires a in s.responders && s.responders[a].Checked? && s.responders[a].key == k
    requires b in s.responders && s.responders[b].Checked? && s.responders[b].key == k
    ensures var r := Step(Step(s, RespondWrite(a)), RespondWrite(b));
            && a in r.responders && Succeeded(r.responders[a], k)
            && b in r.responders && Succeeded(r.responders[b], k)
  {
  }
}
