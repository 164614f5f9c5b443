/**
 Every step of the permission protocol keeps its invariant, so every run does.
 */
module PermissionInvariant {
  import opened Options
  import opened RuntimePermissions
  import opened PermissionProtocol

  lemma TraceGrows(s: State, e: Effect)
    requires TraceOk(s) && Accounted(s.responders, s.trace, e)
    ensures TraceOk(Trace(s, e))
  {
    var t := s.trace + [e];
    forall i | 0 <= i < |t| ensures Accounted(s.responders, t[..i], t[i]) {
      assert t[..i] == s.trace[..i];
      assert s.trace[..|s.trace|] == s.trace;
    }
  }

  lemma LastStatusAppend(trace: seq<Effect>, e: Effect, k: Key)
    ensures LastStatus(trace + [e], k)
         == if e.Opened? && e.key == k then Some(Pending)
            else if e.Wrote? && e.key == k then Some(e.status)
            else LastStatus(trace, k)
  {
    assert (trace + [e])[..|trace|] == trace;
  }

  lemma {:induction false} WriteKeeps(s: State, k: Key, status: Status, author: Option<nat>)
    requires Inv(s)
    requires Visible(s.rows, k, s.now) ==> Accounted(s.responders, s.trace, Wrote(k, status, author))
    ensures Inv(Write(s, k, status, author))
  {
    if Visible(s.rows, k, s.now) {
      var e := Wrote(k, status, author);
      var r := Write(s, k, status, author);
      TraceGrows(s, e);
      forall q | q in r.rows ensures LastStatus(r.trace, q) == Some(r.rows[q].status) {
        LastStatusAppend(s.trace, e, q);
      }
      forall q | q in r.waiters && Grants(r.waiters[q]) ensures Granted(q) in r.trace {
        assert Granted(q) in s.trace;
      }
    }
  }

  lemma {:induction false} RegisterKeeps(s: State, k: Key, ttl: Option<int>)
    requires Inv(s)
    ensures Inv(Step(s, Register(k, ttl)))
  {
    if k !in s.waiters {
      var r := Step(s, Register(k, ttl));
      assert Accounted(s.responders, s.trace, Opened(k));
      TraceGrows(s, Opened(k));
      forall q | q in r.rows ensures LastStatus(r.trace, q) == Some(r.rows[q].status) {
        LastStatusAppend(s.trace, Opened(k), q);
      }
      forall q | q in r.waiters && Grants(r.waiters[q]) ensures Granted(q) in r.trace {
        assert Granted(q) in s.trace;
      }
    }
  }

  lemma {:induction false} GrantKeeps(s: State, k: Key)
    requires Inv(s) && k in s.waiters && LastStatus(s.trace, k) == Some(Approved)
    ensures Inv(Trace(Move(s, k, Leaving(true)), Granted(k)))
  {
    var r := Trace(Move(s, k, Leaving(true)), Granted(k));
    TraceGrows(s, Granted(k));
    assert r.trace[|s.trace|] == Granted(k);
    forall q | q in r.rows ensures LastStatus(r.trace, q) == Some(r.rows[q].status) {
      LastStatusAppend(s.trace, Granted(k), q);
    }
    forall q | q in r.waiters && Grants(r.waiters[q]) ensures Granted(q) in r.trace {
      assert q == k || Granted(q) in s.trace;
    }
  }

  lemma MoveKeeps(s: State, k: Key, w: Waiter)
    requires Inv(s) && !Grants(w)
    requires w.Marking? ==> w.status == Cancelled || w.status == TimedOut
    requires w.Returned? ==> !Visible(s.rows, k, s.now)
    ensures Inv(Move(s, k, w))
  {
  }

  lemma {:induction false} ReadKeeps(s: State, k: Key)
    requires Inv(s)
    ensures Inv(Step(s, Read(k)))
  {
    if WaiterIs(s, k, Polling) {
      if !Visible(s.rows, k, s.now) {
        MoveKeeps(s, k, Returned(false));
      } else if s.rows[k].status == Approved {
        GrantKeeps(s, k);
      } else {
        MoveKeeps(s, k, CheckingAbort);
        MoveKeeps(s, k, Leaving(false));
      }
    }
  }

  lemma RespondersKeep(s: State, responders: map<nat, Responder>)
    requires Inv(s)
    requires forall w :: w in s.responders && s.responders[w].Answered? ==>
               w in responders && responders[w] == s.responders[w]
    ensures Inv(s.(responders := responders))
  {
  }

  lemma {:induction false} RespondWriteKeeps(s: State, who: nat)
    requires Inv(s)
    ensures Inv(Step(s, RespondWrite(who)))
  {
    if who in s.responders && s.responders[who].Checked? {
      var r := s.responders[who];
      var seen := Visible(s.rows, r.key, s.now);
      var responders := s.responders[who := Answered(r.key, r.approved, seen)];
      RespondersKeep(s, responders);
      WriteKeeps(s.(responders := responders), r.key, if r.approved then Approved else Denied, Some(who));
    }
  }

  lemma {:induction false} MarkKeeps(s: State, k: Key)
    requires Inv(s)
    ensures Inv(Step(s, Mark(k)))
  {
    if k in s.waiters && s.waiters[k].Marking? {
      WriteKeeps(s, k, s.waiters[k].status, None);
      MoveKeeps(Write(s, k, s.waiters[k].status, None), k, Leaving(false));
    }
  }

  lemma TimeKeeps(s: State, seconds: nat)
    requires Inv(s)
    ensures Inv(Step(s, Tick(seconds))) && Inv(Step(s, Sweep))
  {
  }

  lemma RemoveKeeps(s: State, k: Key)
    requires Inv(s)
    ensures Inv(Step(s, Remove(k)))
  {
    if k in s.waiters && s.waiters[k].Leaving? {
      assert Inv(s.(rows := s.rows - {k}));
    }
  }

  lemma {:induction false} StepKeeps(s: State, e: Event)
    requires Inv(s)
    ensures Inv(Step(s, e))
  {
    match e
    case Tick(d) => TimeKeeps(s, d);
    case Sweep => TimeKeeps(s, 0);
    case AbortSession(_) =>
    case Register(k, ttl) => RegisterKeeps(s, k, ttl);
    case RegisterFails(k) => MoveKeeps(s, k, Polling);
    case Read(k) => ReadKeeps(s, k);
    case CheckAbort(k, _) =>
      MoveKeeps(s, k, Marking(Cancelled));
      MoveKeeps(s, k, CheckingDeadline);
    case CheckDeadline(k, _) =>
      MoveKeeps(s, k, Marking(TimedOut));
      MoveKeeps(s, k, Polling);
    case Mark(k) => MarkKeeps(s, k);
    case Remove(k) => RemoveKeeps(s, k);
    case Cancel(k) => MoveKeeps(s, k, Abandoned);
    case RespondCheck(who, k, approved) =>
      if who !in s.responders {
        RespondersKeep(s, Step(s, e).responders);
      }
    case RespondWrite(who) => RespondWriteKeeps(s, who);
  }

  lemma {:induction false} RunKeeps(s: State, events: seq<Event>)
    requires Inv(s)
    ensures Inv(Run(s, events))
  {
    if events != [] {
      RunKeeps(s, events[..|events| - 1]);
      StepKeeps(Run(s, events[..|events| - 1]), events[|events| - 1]);
    }
  }
}
