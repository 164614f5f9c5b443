/**
 The `runtime_permissions` table of the SQLite backend (forgepilot_api/storage/repositories.py), one
 method per SQL statement. Times are whole seconds, as `datetime('now')` gives them. The payload and
 bookkeeping columns are not part of this model.
 */
module RuntimePermissions {
  import opened Lists
  import opened Options

  datatype Status = Pending | Approved | Denied | TimedOut | Cancelled

  /** Session id and permission id. */
  type Key = (string, string)

  datatype Row = Row(status: Status, expiresAt: Option<int>)

  type Table = map<Key, Row>

  predicate Live(r: Row, now: int) {
    r.expiresAt.Some? ==> r.expiresAt.value > now
  }

  predicate Visible(t: Table, k: Key, now: int) {
    k in t && Live(t[k], now)
  }

  function Expiry(now: int, ttl: Option<int>): Option<int> {
    if ttl.None? then None else Some(now + (if ttl.value < 1 then 1 else ttl.value))
  }

  function Registered(t: Table, k: Key, now: int, ttl: Option<int>): Table {
    t[k := Row(Pending, Expiry(now, ttl))]
  }

  function Marked(t: Table, k: Key, now: int, status: Status): Table {
    if Visible(t, k, now) then t[k := t[k].(status := status)] else t
  }

  function Swept(t: Table, now: int): Table {
    map k | k in t && Live(t[k], now) :: t[k]
  }

  class PermissionStore {
    var rows: Table

    constructor ()
      ensures rows == map[]
    {
      rows := map[];
    }

    /** The upsert: a conflicting row goes back to pending with a new expiry. */
    method Register(k: Key, now: int, ttl: Option<int>)
      modifies this
      ensures rows == Registered(old(rows), k, now, ttl)
      ensures Visible(rows, k, now)
    {
      var expires := None;
      if ttl.Some? {
        expires := Some(now + (if ttl.value < 1 then 1 else ttl.value));
      }
      rows := rows[k := Row(Pending, expires)];
    }

    method Get(k: Key, now: int) returns (row: Option<Row>)
      ensures row == if Visible(rows, k, now) then Some(rows[k]) else None
    {
      row := None;
      if k in rows && (rows[k].expiresAt.None? || rows[k].expiresAt.value > now) {
        row := Some(rows[k]);
      }
    }

    /** Changes an unexpired row only; the expiry is never extended. */
    method SetStatus(k: Key, now: int, status: Status) returns (changed: bool)
      modifies this
      ensures changed == Visible(old(rows), k, now)
      ensures rows == Marked(old(rows), k, now, status)
    {
      changed := false;
      if k in rows && (rows[k].expiresAt.None? || rows[k].expiresAt.value > now) {
        rows := rows[k := Row(status, rows[k].expiresAt)];
        changed := true;
      }
    }

    method Delete(k: Key) returns (changed: bool)
      modifies this
      ensures changed == (k in old(rows))
      ensures rows == old(rows) - {k}
    {
      changed := k in rows;
      rows := rows - {k};
    }

    method DeleteExpired(now: int) returns (count: nat)
      modifies this
      ensures rows == Swept(old(rows), now)
      ensures count == |old(rows)| - |rows|
    {
      var kept := map k | k in rows && (rows[k].expiresAt.None? || rows[k].expiresAt.value > now) :: rows[k];
      assert kept == Swept(rows, now);
      SweptSize(rows, now);
      count := |rows| - |kept|;
      rows := kept;
    }
  }

  lemma SweptSize(t: Table, now: int)
    ensures |Swept(t, now)| <= |t|
  {
    SubsetSize(Swept(t, now).Keys, t.Keys);
  }

  // ---------------------------------------------------------------- what is seen of a row, and for how long

  /** A registered row is pending and seen until its time to live, of at least a second, is over; other rows
      stay as they are. */
  lemma RegisterLasts(t: Table, k: Key, now: int, ttl: Option<int>, later: int)
    ensures var r := Registered(t, k, now, ttl);
            && k in r && r[k].status == Pending
            && (Visible(r, k, later) <==> ttl.None? || later < now + 1 || later < now + ttl.value)
            && forall q :: q != k ==> (q in r <==> q in t) && (q in t ==> r[q] == t[q])
  {
  }

  /** A status is written exactly to a row that is still seen, and neither prolongs nor hides any row. */
  lemma MarkKeepsTimes(t: Table, k: Key, now: int, status: Status, q: Key, later: int)
    ensures var r := Marked(t, k, now, status);
            && (Visible(r, q, later) <==> Visible(t, q, later))
            && (q in t ==> r[q].status == if q == k && Visible(t, k, now) then status else t[q].status)
  {
  }

  /** From now on nobody can tell that the table was swept, nor how often; what is gone was expired. */
  lemma SweepUnseen(t: Table, now: int, later: int, q: Key)
    requires now <= later
    ensures Visible(Swept(t, now), q, later) <==> Visible(t, q, later)
    ensures Visible(t, q, later) ==> Swept(t, now)[q] == t[q]
    ensures Swept(Swept(t, now), later) == Swept(t, later)
    ensures q in t && q !in Swept(t, now) ==> t[q].expiresAt.Some? && t[q].expiresAt.value <= now
  {
    assert forall k :: k in Swept(Swept(t, now), later) <==> k in Swept(t, later);
  }
}
