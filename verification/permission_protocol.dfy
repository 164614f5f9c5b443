/**
 The permission approval protocol (forgepilot_api/services/agent_service.py): one waiter per
 permission id, any number of responders, session aborts, expiry, the sweep of expired rows and the
 outer timeout that cancels a waiter. Every SQL statement is one step, so a responder's check and its
 write can be parted by anything. An event that is not enabled changes nothing, which makes every
 finite sequence of events a run.
 */
module PermissionProtocol {
  import opened Options
  import opened RuntimePermissions

  /** `Leaving` has decided and still has to delete the row; `Abandoned` was cancelled from outside. */
  datatype Waiter =
    | Polling
    | CheckingAbort
    | CheckingDeadline
    | Marking(status: Status)
    | Leaving(decision: bool)
    | Returned(decision: bool)
    | Abandoned

  datatype Responder = Checked(key: Key, approved: bool) | Answered(key: Key, approved: bool, changed: bool)

  /** What reached the table, in order. `author` is None for the waiter's own mark. */
  datatype Effect =
    | Opened(key: Key)
    | Wrote(key: Key, status: Status, author: Option<nat>)
    | Granted(key: Key)

  datatype State = State(
    rows: Table, now: int, aborted: set<string>,
    waiters: map<Key, Waiter>, responders: map<nat, Responder>, trace: seq<Effect>)

  datatype Event =
    | Tick(seconds: nat)
    | Sweep
    | AbortSession(session: string)
    | Register(key: Key, ttl: Option<int>)
    | RegisterFails(key: Key)
    | Read(key: Key)
    | CheckAbort(key: Key, seen: bool)
    | CheckDeadline(key: Key, passed: bool)
    | Mark(key: Key)
    | Remove(key: Key)
    | Cancel(key: Key)
    | RespondCheck(who: nat, key: Key, approved: bool)
    | RespondWrite(who: nat)

  predicate WaiterIs(s: State, k: Key, w: Waiter) {
    k in s.waiters && s.waiters[k] == w
  }

  function Move(s: State, k: Key, w: Waiter): State {
    s.(waiters := s.waiters[k := w])
  }

  function Trace(s: State, e: Effect): State {
    s.(trace := s.trace + [e])
  }

  function Write(s: State, k: Key, status: Status, author: Option<nat>): State {
    if Visible(s.rows, k, s.now) then Trace(s.(rows := Marked(s.rows, k, s.now, status)), Wrote(k, status, author)) else s
  }

  /** The waiter's poll: a missing or expired row ends it, a decided row is acted on. */
  function DoRead(s: State, k: Key): State {
    if !Visible(s.rows, k, s.now) then Move(s, k, Returned(false))
    else
      match s.rows[k].status
      case Pending => Move(s, k, CheckingAbort)
      case Approved => Trace(Move(s, k, Leaving(true)), Granted(k))
      case _ => Move(s, k, Leaving(false))
  }

  function DoRespondCheck(s: State, who: nat, k: Key, approved: bool): State {
    s.(responders := s.responders[who :=
      if Visible(s.rows, k, s.now) && s.rows[k].status == Pending then Checked(k, approved)
      else Answered(k, approved, false)])
  }

  function DoRespondWrite(s: State, who: nat, r: Responder): State
    requires r.Checked?
  {
    var status := if r.approved then Approved else Denied;
    Write(s, r.key, status, Some(who)).(responders :=
      s.responders[who := Answered(r.key, r.approved, Visible(s.rows, r.key, s.now))])
  }

  function Step(s: State, e: Event): State {
    match e
    case Tick(d) => s.(now := s.now + d)
    case Sweep => s.(rows := Swept(s.rows, s.now))
    case AbortSession(id) => s.(aborted := s.aborted + {id})
    // A permission id is a fresh uuid: it is registered once, before its waiter starts.
    case Register(k, ttl) =>
      if k in s.waiters then s
      else Trace(Move(s.(rows := Registered(s.rows, k, s.now, ttl)), k, Polling), Opened(k))
    // The request callback may fail; the engine waits all the same.
    case RegisterFails(k) => if k in s.waiters then s else Move(s, k, Polling)
    case Read(k) => if WaiterIs(s, k, Polling) then DoRead(s, k) else s
    case CheckAbort(k, seen) =>
      if WaiterIs(s, k, CheckingAbort)
      then Move(s, k, if seen && k.0 in s.aborted then Marking(Cancelled) else CheckingDeadline) else s
    case CheckDeadline(k, passed) =>
      if WaiterIs(s, k, CheckingDeadline) then Move(s, k, if passed then Marking(TimedOut) else Polling) else s
    case Mark(k) =>
      if k in s.waiters && s.waiters[k].Marking?
      then Move(Write(s, k, s.waiters[k].status, None), k, Leaving(false)) else s
    case Remove(k) =>
      if k in s.waiters && s.waiters[k].Leaving?
      then Move(s.(rows := s.rows - {k}), k, Returned(s.waiters[k].decision)) else s
    case Cancel(k) => if k in s.waiters && !s.waiters[k].Returned? then Move(s, k, Abandoned) else s
    case RespondCheck(who, k, approved) => if who in s.responders then s else DoRespondCheck(s, who, k, approved)
    case RespondWrite(who) =>
      if who in s.responders && s.responders[who].Checked? then DoRespondWrite(s, who, s.responders[who]) else s
  }

  function Run(s: State, events: seq<Event>): State
    decreases |events|
  {
    if events == [] then s else Step(Run(s, events[..|events| - 1]), events[|events| - 1])
  }

  function Init(now: int): State {
    State(map[], now, {}, map[], map[], [])
  }

  // ---------------------------------------------------------------- what the trace says

  /** The status last given to `k`, by its registration or by a write. */
  function LastStatus(trace: seq<Effect>, k: Key): Option<Status> {
    if trace == [] then None
    else
      match trace[|trace| - 1]
      case Opened(key) => if key == k then Some(Pending) else LastStatus(trace[..|trace| - 1], k)
      case Wrote(key, status, _) => if key == k then Some(status) else LastStatus(trace[..|trace| - 1], k)
      case Granted(_) => LastStatus(trace[..|trace| - 1], k)
  }

  predicate Touches(e: Effect, k: Key) { (e.Opened? || e.Wrote?) && e.key == k }

  /** An effect is accounted for: a write comes from a responder that reported success and asked for
      that status, or is the waiter's own mark; a grant sees an approved status; an id opens once. */
  ghost predicate Accounted(responders: map<nat, Responder>, before: seq<Effect>, e: Effect) {
    match e
    case Opened(k) => forall i :: 0 <= i < |before| ==> !Touches(before[i], k)
    case Wrote(k, status, author) =>
      && (author.None? ==> status == Cancelled || status == TimedOut)
      && (author.Some? ==>
            && author.value in responders && responders[author.value].Answered?
            && responders[author.value].key == k && responders[author.value].changed
            && status == if responders[author.value].approved then Approved else Denied)
    case Granted(k) => LastStatus(before, k) == Some(Approved)
  }

  ghost predicate TraceOk(s: State) {
    forall i :: 0 <= i < |s.trace| ==> Accounted(s.responders, s.trace[..i], s.trace[i])
  }

  ghost predicate RowsOk(s: State) {
    forall k :: k in s.rows ==> k in s.waiters && LastStatus(s.trace, k) == Some(s.rows[k].status)
  }

  predicate Grants(w: Waiter) { (w.Leaving? || w.Returned?) && w.decision }

  ghost predicate WaitersOk(s: State) {
    && (forall k :: k in s.waiters && Grants(s.waiters[k]) ==> Granted(k) in s.trace)
    && (forall k :: k in s.waiters && s.waiters[k].Returned? ==> !Visible(s.rows, k, s.now))
    && (forall k :: k in s.waiters && s.waiters[k].Marking? ==> (s.waiters[k].status == Cancelled || s.waiters[k].status == TimedOut))
    && (forall i :: 0 <= i < |s.trace| ==> s.trace[i].key in s.waiters)
  }

  ghost predicate Inv(s: State) {
    TraceOk(s) && RowsOk(s) && WaitersOk(s)
  }
}
