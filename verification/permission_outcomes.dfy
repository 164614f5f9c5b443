/**
 What a waiting permission request comes to: what each poll decides, told from the table and from what was
 written to it, and exactly when a waiter returns True.
 */
module PermissionOutcomes {
  import opened Options
  import opened RuntimePermissions
  import opened PermissionProtocol
  import opened PermissionInvariant

  // ---------------------------------------------------------------- one poll

  /** A poll that finds no row ends in False; one that finds the row decided goes on to delete it. */
  lemma ReadDecides(s: State, k: Key)
    requires RowsOk(s) && WaiterIs(s, k, Polling)
    ensures var w := Step(s, Read(k)).waiters[k];
            && (!Visible(s.rows, k, s.now) ==> w == Returned(false))
            && (Visible(s.rows, k, s.now) && LastStatus(s.trace, k) != Some(Pending) ==>
                  w == Leaving(LastStatus(s.trace, k) == Some(Approved)))
    ensures Step(s, Read(k)).rows == s.rows
  {
    assert k in s.rows ==> LastStatus(s.trace, k) == Some(s.rows[k].status);
  }

  /** A poll that finds the row decided returns True if and only if the last status given to it is
      "approved", and leaves nothing but that row behind it gone. */
  lemma DecidedPoll(s: State, k: Key)
    requires RowsOk(s) && WaiterIs(s, k, Polling)
    requires Visible(s.rows, k, s.now) && LastStatus(s.trace, k) != Some(Pending)
    ensures var r := Step(Step(s, Read(k)), Remove(k));
            WaiterIs(r, k, Returned(LastStatus(s.trace, k) == Some(Approved))) && r.rows == s.rows - {k}
  {
    ReadDecides(s, k);
    Removes(Step(s, Read(k)), k, LastStatus(s.trace, k) == Some(Approved));
  }

  lemma Removes(s: State, k: Key, d: bool)
    requires WaiterIs(s, k, Leaving(d))
    ensures WaiterIs(Step(s, Remove(k)), k, Returned(d)) && Step(s, Remove(k)).rows == s.rows - {k}
  {
  }

  /** The waiter has read a pending row and is about to look at the abort flag. */
  lemma PendingRead(s: State, k: Key)
    requires RowsOk(s) && WaiterIs(s, k, Polling)
    requires Visible(s.rows, k, s.now) && LastStatus(s.trace, k) == Some(Pending)
    ensures Step(s, Read(k)) == Move(s, k, CheckingAbort)
  {
    assert k in s.rows && LastStatus(s.trace, k) == Some(s.rows[k].status);
  }

  /** Why a waiter stops on a pending row: it sees the abort, or else it is past its deadline. */
  function Stop(s: State, k: Key, seen: bool, passed: bool): Option<Status> {
    if seen && k.0 in s.aborted then Some(Cancelled) else if passed then Some(TimedOut) else None
  }

  lemma BothChecks(s: State, k: Key, seen: bool, passed: bool)
    requires k in s.waiters
    ensures var r := Step(Step(Move(s, k, CheckingAbort), CheckAbort(k, seen)), CheckDeadline(k, passed));
            var stop := Stop(s, k, seen, passed);
            r == Move(s, k, if stop.Some? then Marking(stop.value) else Polling)
  {
    var a := Step(Move(s, k, CheckingAbort), CheckAbort(k, seen));
    assert a == Move(s, k, if seen && k.0 in s.aborted then Marking(Cancelled) else CheckingDeadline);
  }

  lemma MarkedLeaves(s: State, k: Key, status: Status)
    requires Visible(s.rows, k, s.now)
    ensures var left := Step(Step(Move(s, k, Marking(status)), Mark(k)), Remove(k));
            WaiterIs(left, k, Returned(false)) && k !in left.rows && left.trace == s.trace + [Wrote(k, status, None)]
  {
    var m := Step(Move(s, k, Marking(status)), Mark(k));
    assert WaiterIs(m, k, Leaving(false)) && m.trace == s.trace + [Wrote(k, status, None)];
  }

  /** A poll that finds the row pending: the waiter polls again unless it sees the abort or is past its
      deadline; then it marks the row, deletes it and returns False. */
  lemma PendingPoll(s: State, k: Key, seen: bool, passed: bool)
    requires RowsOk(s) && WaiterIs(s, k, Polling)
    requires Visible(s.rows, k, s.now) && LastStatus(s.trace, k) == Some(Pending)
    ensures var r := Step(Step(Step(s, Read(k)), CheckAbort(k, seen)), CheckDeadline(k, passed));
            var left := Step(Step(r, Mark(k)), Remove(k));
            var stop := Stop(s, k, seen, passed);
            && (stop.None? ==> r == s)
            && (stop.Some? ==>
                  WaiterIs(left, k, Returned(false)) && k !in left.rows && left.trace == s.trace + [Wrote(k, stop.value, None)])
  {
    PendingRead(s, k);
    BothChecks(s, k, seen, passed);
    assert s.waiters[k := Polling] == s.waiters;
    if Stop(s, k, seen, passed).Some? {
      MarkedLeaves(s, k, Stop(s, k, seen, passed).value);
    }
  }

  /** An aborted session stays aborted, and nobody else's session is. */
  lemma {:induction false} AbortStays(s: State, events: seq<Event>, id: string)
    ensures id in Run(s, events).aborted <==> id in s.aborted || AbortSession(id) in events
    decreases |events|
  {
    if events != [] {
      AbortStays(s, events[..|events| - 1], id);
      assert events == events[..|events| - 1] + [events[|events| - 1]];
    }
  }

  // ---------------------------------------------------------------- a whole run

  predicate Own(e: Event, k: Key) {
    match e
    case Register(q, _) => q == k
    case RegisterFails(q) => q == k
    case Read(q) => q == k
    case CheckAbort(q, _) => q == k
    case CheckDeadline(q, _) => q == k
    case Mark(q) => q == k
    case Remove(q) => q == k
    case Cancel(q) => q == k
    case _ => false
  }

  /** Nobody else moves a waiter, and what has returned or was cancelled stays so. */
  lemma OthersLeave(s: State, e: Event, k: Key)
    requires k in s.waiters && (!Own(e, k) || s.waiters[k].Returned? || s.waiters[k].Abandoned?)
    ensures WaiterIs(Step(s, e), k, s.waiters[k])
  {
  }

  /** A waiter that is leaving returns its decision at its `Remove`, and only a `Cancel` can prevent that. */
  lemma LeavingStep(s: State, e: Event, k: Key, d: bool)
    requires WaiterIs(s, k, Leaving(d))
    ensures WaiterIs(Step(s, e), k, if e == Remove(k) then Returned(d) else if e == Cancel(k) then Abandoned else Leaving(d))
  {
  }

  /** The events that follow hold the waiter's `Remove`, and no `Cancel` before it. */
  predicate Finishes(events: seq<Event>, k: Key) {
    exists j :: 0 <= j < |events| && events[j] == Remove(k) && forall i :: 0 <= i < j ==> events[i] != Cancel(k)
  }

  /** Where those events bring a waiter that is leaving. */
  function Fate(events: seq<Event>, k: Key, d: bool): Waiter {
    if Finishes(events, k) then Returned(d) else if Cancel(k) in events then Abandoned else Leaving(d)
  }

  lemma FateStep(s: State, events: seq<Event>, k: Key, d: bool)
    requires events != [] && WaiterIs(s, k, Fate(events[..|events| - 1], k, d))
    ensures WaiterIs(Step(s, events[|events| - 1]), k, Fate(events, k, d))
  {
    var n := |events| - 1;
    FinishesSnoc(events, k);
    assert events == events[..n] + [events[n]];
    if WaiterIs(s, k, Leaving(d)) {
      LeavingStep(s, events[n], k, d);
    } else {
      OthersLeave(s, events[n], k);
    }
  }

  /** Whatever others do meanwhile, a waiter that is leaving returns what it decided once it finishes, and
      stays leaving or is cancelled until then. */
  lemma {:induction false} LeavingReturns(s: State, events: seq<Event>, k: Key, d: bool)
    requires WaiterIs(s, k, Leaving(d))
    ensures WaiterIs(Run(s, events), k, Fate(events, k, d))
    decreases |events|
  {
    if events != [] {
      LeavingReturns(s, events[..|events| - 1], k, d);
      FateStep(Run(s, events[..|events| - 1]), events, k, d);
    }
  }

  lemma FinishesSnoc(events: seq<Event>, k: Key)
    requires events != []
    ensures var past, e := events[..|events| - 1], events[|events| - 1];
            Finishes(events, k) <==> Finishes(past, k) || (e == Remove(k) && Cancel(k) !in past)
  {
    var n := |events| - 1;
    var past := events[..n];
    if Finishes(past, k) {
      var j :| 0 <= j < n && past[j] == Remove(k) && forall i :: 0 <= i < j ==> past[i] != Cancel(k);
      assert events[j] == Remove(k) && forall i :: 0 <= i < j ==> events[i] == past[i];
    }
    if Cancel(k) !in past && events[n] == Remove(k) {
      assert forall i :: 0 <= i < n ==> events[i] == past[i] && past[i] in past;
      assert Finishes(events, k);
    }
    if Finishes(events, k) {
      var j :| 0 <= j <= n && events[j] == Remove(k) && forall i :: 0 <= i < j ==> events[i] != Cancel(k);
      assert j < n ==> past[j] == Remove(k);
      assert forall i :: 0 <= i < j ==> past[i] == events[i];
    }
  }

  /** The poll at position `i` finds the row visible and last approved. */
  predicate FindsApproval(now: int, events: seq<Event>, k: Key, i: int) {
    && 0 <= i < |events| && events[i] == Read(k)
    && var s := Run(Init(now), events[..i]);
       WaiterIs(s, k, Polling) && Visible(s.rows, k, s.now) && LastStatus(s.trace, k) == Some(Approved)
  }

  lemma RunRows(now: int, events: seq<Event>)
    ensures RowsOk(Run(Init(now), events))
  {
    RunKeeps(Init(now), events);
  }

  lemma ApprovedPoll(s: State, k: Key)
    requires RowsOk(s) && WaiterIs(s, k, Polling)
    ensures WaiterIs(Step(s, Read(k)), k, Leaving(true)) == (Visible(s.rows, k, s.now) && LastStatus(s.trace, k) == Some(Approved))
  {
    if Visible(s.rows, k, s.now) && LastStatus(s.trace, k) == Some(Pending) {
      PendingRead(s, k);
    } else {
      ReadDecides(s, k);
    }
  }

  lemma {:induction false} RunSplit(s: State, a: seq<Event>, b: seq<Event>)
    ensures Run(s, a + b) == Run(Run(s, a), b)
    decreases |b|
  {
    if b == [] {
      assert a + b == a;
    } else {
      assert (a + b)[..|a + b| - 1] == a + b[..|b| - 1];
      RunSplit(s, a, b[..|b| - 1]);
    }
  }

  /** A waiter that has decided to grant found an approval, and has neither finished nor been cancelled since. */
  lemma {:induction false} LeavingFound(now: int, events: seq<Event>, k: Key) returns (i: nat)
    requires WaiterIs(Run(Init(now), events), k, Leaving(true))
    ensures FindsApproval(now, events, k, i) && forall j :: i < j < |events| ==> events[j] != Cancel(k)
    decreases |events|
  {
    var n := |events| - 1;
    var past, e := events[..n], events[n];
    var s := Run(Init(now), past);
    if WaiterIs(s, k, Leaving(true)) {
      LeavingStep(s, e, k, true);
      i := LeavingFound(now, past, k);
      assert events[..i] == past[..i];
    } else {
      i := n;
      JustDecided(s, e, k);
      RunRows(now, past);
      ApprovedPoll(s, k);
    }
  }

  lemma JustDecided(s: State, e: Event, k: Key)
    requires WaiterIs(Step(s, e), k, Leaving(true)) && !WaiterIs(s, k, Leaving(true))
    ensures WaiterIs(s, k, Polling) && e == Read(k)
  {
  }

  /** Which poll of which run grants: a waiter returns True if and only if one of its polls found the row
      visible and last approved, and it then deleted the row before anything cancelled it. */
  lemma ReturnsTrueIff(now: int, events: seq<Event>, k: Key)
    ensures WaiterIs(Run(Init(now), events), k, Returned(true))
       <==> exists i :: FindsApproval(now, events, k, i) && Finishes(events[i + 1..], k)
  {
    if i :| FindsApproval(now, events, k, i) && Finishes(events[i + 1..], k) {
      FoundReturns(now, events, k, i);
    }
    if WaiterIs(Run(Init(now), events), k, Returned(true)) {
      var i := ReturnedFound(now, events, k);
    }
  }

  lemma {:induction false} ReturnedFound(now: int, events: seq<Event>, k: Key) returns (i: nat)
    requires WaiterIs(Run(Init(now), events), k, Returned(true))
    ensures FindsApproval(now, events, k, i) && Finishes(events[i + 1..], k)
    decreases |events|
  {
    var n := |events| - 1;
    var past, e := events[..n], events[n];
    if WaiterIs(Run(Init(now), past), k, Returned(true)) {
      i := ReturnedFound(now, past, k);
      assert events[..i] == past[..i];
      Shifted(events, i + 1);
      FinishesSnoc(events[i + 1..], k);
    } else {
      JustReturned(Run(Init(now), past), e, k);
      i := LeavingFound(now, past, k);
      assert events[..i] == past[..i];
      Shifted(events, i + 1);
      assert Cancel(k) !in past[i + 1..];
      FinishesSnoc(events[i + 1..], k);
    }
  }

  lemma Shifted(events: seq<Event>, i: nat)
    requires i < |events|
    ensures events[i..][..|events| - 1 - i] == events[..|events| - 1][i..] && events[i..][|events| - 1 - i] == events[|events| - 1]
  {
  }

  lemma JustReturned(s: State, e: Event, k: Key)
    requires WaiterIs(Step(s, e), k, Returned(true)) && !WaiterIs(s, k, Returned(true))
    ensures WaiterIs(s, k, Leaving(true)) && e == Remove(k)
  {
  }

  lemma FoundReturns(now: int, events: seq<Event>, k: Key, i: nat)
    requires FindsApproval(now, events, k, i)
    ensures WaiterIs(Run(Init(now), events), k, Fate(events[i + 1..], k, true))
  {
    var head, rest := events[..i + 1], events[i + 1..];
    assert head[..i] == events[..i] && head + rest == events;
    RunRows(now, events[..i]);
    ApprovedPoll(Run(Init(now), events[..i]), k);
    RunSplit(Init(now), head, rest);
    LeavingReturns(Run(Init(now), head), rest, k, true);
  }

  function Undisturbed(k: Key, ttl: Option<int>, who: nat): seq<Event> {
    [Register(k, ttl), RespondCheck(who, k, true), RespondWrite(who), Read(k), Remove(k)]
  }

  lemma CheckedState(now: int, k: Key, ttl: Option<int>, who: nat)
    ensures Run(Init(now), Undisturbed(k, ttl, who)[..2])
         == State(map[k := Row(Pending, Expiry(now, ttl))], now, {}, map[k := Polling], map[who := Checked(k, true)], [Opened(k)])
  {
    var es := Undisturbed(k, ttl, who);
    assert es[..0] == [];
    RunTake(Init(now), es, 0);
    RunTake(Init(now), es, 1);
  }

  lemma ApprovedState(now: int, k: Key, ttl: Option<int>, who: nat)
    ensures var s := Run(Init(now), Undisturbed(k, ttl, who)[..3]);
            WaiterIs(s, k, Polling) && Visible(s.rows, k, s.now) && s.rows[k].status == Approved
  {
    CheckedState(now, k, ttl, who);
    WriteApproves(Run(Init(now), Undisturbed(k, ttl, who)[..2]), k, who);
    RunTake(Init(now), Undisturbed(k, ttl, who), 2);
  }

  lemma WriteApproves(s: State, k: Key, who: nat)
    requires Visible(s.rows, k, s.now) && who in s.responders && s.responders[who] == Checked(k, true)
    ensures var r := Step(s, RespondWrite(who));
            r.waiters == s.waiters && Visible(r.rows, k, r.now) && r.rows[k].status == Approved
  {
  }

  /** An approval that nothing disturbs is granted. */
  lemma ApprovalGrants(now: int, k: Key, ttl: Option<int>, who: nat)
    ensures var s := Run(Init(now), Undisturbed(k, ttl, who));
            WaiterIs(s, k, Returned(true)) && k !in s.rows
  {
    var es := Undisturbed(k, ttl, who);
    ApprovedState(now, k, ttl, who);
    RunTake(Init(now), es, 3);
    RunTake(Init(now), es, 4);
    assert es[..5] == es;
  }

  lemma RunTake(s: State, events: seq<Event>, n: nat)
    requires n < |events|
    ensures Run(s, events[..n + 1]) == Step(Run(s, events[..n]), events[n])
  {
    assert events[..n + 1][..n] == events[..n];
  }
}
