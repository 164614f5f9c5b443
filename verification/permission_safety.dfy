/**
 What the permission protocol promises in every run: a grant needs an approval, and a return is final.
 */
module PermissionSafety {
  import opened Options
  import opened RuntimePermissions
  import opened PermissionProtocol
  import opened PermissionInvariant

  // ---------------------------------------------------------------- nothing is written before the registration

  ghost predicate OpenedIn(trace: seq<Effect>, k: Key) {
    exists o :: 0 <= o < |trace| && trace[o] == Opened(k)
  }

  /** Every row was registered, and every write came after the registration of its id. */
  ghost predicate OpenFirst(s: State) {
    && (forall k :: k in s.rows ==> OpenedIn(s.trace, k))
    && (forall j :: 0 <= j < |s.trace| && s.trace[j].Wrote? ==> OpenedIn(s.trace[..j], s.trace[j].key))
  }

  lemma OpenedGrows(trace: seq<Effect>, e: Effect, k: Key)
    ensures OpenedIn(trace, k) ==> OpenedIn(trace + [e], k)
    ensures e == Opened(k) ==> OpenedIn(trace + [e], k)
  {
    if OpenedIn(trace, k) {
      var o :| 0 <= o < |trace| && trace[o] == Opened(k);
      assert (trace + [e])[o] == Opened(k);
    } else if e == Opened(k) {
      assert (trace + [e])[|trace|] == Opened(k);
    }
  }

  lemma OpenFirstAppend(s: State, t: State, e: Effect)
    requires OpenFirst(s) && t.trace == s.trace + [e]
    requires e.Wrote? ==> e.key in s.rows
    requires forall k :: k in t.rows ==> k in s.rows || e == Opened(k)
    ensures OpenFirst(t)
  {
    forall k | k in t.rows ensures OpenedIn(t.trace, k) {
      OpenedGrows(s.trace, e, k);
    }
    forall j | 0 <= j < |t.trace| && t.trace[j].Wrote? ensures OpenedIn(t.trace[..j], t.trace[j].key) {
      assert t.trace[..j] == s.trace[..j];
      assert s.trace[..|s.trace|] == s.trace;
    }
  }

  lemma StepOpenFirst(s: State, e: Event)
    requires OpenFirst(s)
    ensures OpenFirst(Step(s, e))
  {
    var t := Step(s, e);
    if t.trace != s.trace {
      OpenFirstAppend(s, t, t.trace[|s.trace|]);
    }
  }

  lemma {:induction false} RunOpenFirst(now: int, events: seq<Event>)
    ensures OpenFirst(Run(Init(now), events))
    decreases |events|
  {
    if events != [] {
      RunOpenFirst(now, events[..|events| - 1]);
      StepOpenFirst(Run(Init(now), events[..|events| - 1]), events[|events| - 1]);
    }
  }

  // ---------------------------------------------------------------- a grant needs an approval

  /** The effect that gave `k` its last status. */
  lemma {:induction false} LastTouch(trace: seq<Effect>, k: Key) returns (j: nat)
    requires LastStatus(trace, k) == Some(Approved)
    ensures j < |trace| && trace[j].Wrote? && trace[j].key == k && trace[j].status == Approved
    ensures forall i :: j < i < |trace| ==> !Touches(trace[i], k)
  {
    var n := |trace| - 1;
    if Touches(trace[n], k) {
      j := n;
    } else {
      j := LastTouch(trace[..n], k);
      assert forall i :: j < i < n ==> trace[..n][i] == trace[i];
    }
  }

  /** A grant at position `g` was paid for: the last thing that happened to the row before it is an
      approving write, made after the id was registered by a responder that asked to approve and
      reported success. */
  ghost predicate PaidFor(s: State, k: Key, g: nat, j: nat) {
    && j < g < |s.trace| && s.trace[g] == Granted(k)
    && s.trace[j].Wrote? && s.trace[j].key == k && s.trace[j].status == Approved
    && s.trace[j].author.Some? && s.trace[j].author.value in s.responders
    && s.responders[s.trace[j].author.value] == Answered(k, true, true)
    && OpenedIn(s.trace[..j], k)
    && forall i :: j < i < g ==> !Touches(s.trace[i], k)
  }

  /** In every run, the waiter of `k` returns True only after a responder approved `k`, after its
      registration, and no other write to that row came between the approval and the waiter's decision. */
  lemma GrantNeedsApproval(now: int, events: seq<Event>, k: Key)
    requires WaiterIs(Run(Init(now), events), k, Returned(true))
    ensures exists g, j :: PaidFor(Run(Init(now), events), k, g, j)
  {
    var s := Run(Init(now), events);
    RunKeeps(Init(now), events);
    RunOpenFirst(now, events);
    var g: nat :| g < |s.trace| && s.trace[g] == Granted(k);
    assert Accounted(s.responders, s.trace[..g], s.trace[g]);
    var j := LastTouch(s.trace[..g], k);
    assert Accounted(s.responders, s.trace[..j], s.trace[j]);
    assert forall i :: j < i < g ==> s.trace[..g][i] == s.trace[i];
    assert PaidFor(s, k, g, j);
  }

  // ---------------------------------------------------------------- what is final

  /** Registered or given up on, and not waiting for an answer any more. */
  predicate Decided(s: State, k: Key) {
    k in s.waiters && (k in s.rows ==> s.rows[k].status != Pending)
  }

  /** A status leaves "pending" at most once and never comes back to it. */
  lemma {:induction false} PendingNeverReturns(s: State, events: seq<Event>, k: Key)
    requires Inv(s) && Decided(s, k)
    ensures Decided(Run(s, events), k)
  {
    if events != [] {
      var before := Run(s, events[..|events| - 1]);
      PendingNeverReturns(s, events[..|events| - 1], k);
      RunKeeps(s, events[..|events| - 1]);
      DecidedStep(before, events[|events| - 1], k);
    }
  }

  lemma DecidedStep(s: State, e: Event, k: Key)
    requires Inv(s) && Decided(s, k)
    ensures Decided(Step(s, e), k)
  {
    DecidedMove(s, e, k);
  }

  lemma DecidedMove(s: State, e: Event, k: Key)
    requires Decided(s, k)
    requires e.Mark? && e.key in s.waiters && s.waiters[e.key].Marking? ==> s.waiters[e.key].status != Pending
    ensures Decided(Step(s, e), k)
  {
    if e.Mark? && e.key in s.waiters && s.waiters[e.key].Marking? {
      DecidedWrite(s, e.key, s.waiters[e.key].status, None, k);
    }
  }

  lemma DecidedWrite(s: State, written: Key, status: Status, author: Option<nat>, k: Key)
    requires Decided(s, k) && status != Pending
    ensures Decided(Write(s, written, status, author), k)
  {
  }

  /** `respond_to_permission_async` returned True for `k`. */
  predicate Succeeded(r: Responder, k: Key) {
    r.Answered? && r.key == k && r.changed
  }

  /** The waiter is gone and the row cannot be seen. */
  predicate Closed(s: State, k: Key) {
    k in s.waiters && s.waiters[k].Returned? && !Visible(s.rows, k, s.now)
  }

  lemma ClosedStep(s: State, e: Event, k: Key)
    requires Closed(s, k)
    ensures Closed(Step(s, e), k) && Step(s, e).waiters[k] == s.waiters[k]
    ensures forall w :: w in Step(s, e).responders && Succeeded(Step(s, e).responders[w], k) ==>
              w in s.responders && s.responders[w] == Step(s, e).responders[w]
    ensures k in Step(s, e).rows ==> k in s.rows && Step(s, e).rows[k] == s.rows[k]
  {
  }

  /** After the waiter's own return, whatever its answer, the row stays invisible for ever: no later
      responder write on that id succeeds or changes the row. */
  lemma {:induction false} ReturnIsFinal(now: int, events: seq<Event>, later: seq<Event>, k: Key)
    requires k in Run(Init(now), events).waiters && Run(Init(now), events).waiters[k].Returned?
    ensures var s, r := Run(Init(now), events), Run(Run(Init(now), events), later);
            && Closed(r, k) && r.waiters[k] == s.waiters[k]
            && (k in r.rows ==> k in s.rows && r.rows[k] == s.rows[k])
            && (forall w :: w in r.responders && Succeeded(r.responders[w], k) ==>
                  w in s.responders && s.responders[w] == r.responders[w])
    decreases |later|
  {
    RunKeeps(Init(now), events);
    if later != [] {
      ReturnIsFinal(now, events, later[..|later| - 1], k);
      ClosedStep(Run(Run(Init(now), events), later[..|later| - 1]), later[|later| - 1], k);
    }
  }
}
