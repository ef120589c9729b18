/** The audit table (lib/Db/AuditLogMapper.php, rows as in
    lib/Db/AuditLog.php). Rows are kept in insertion order; every query
    is a filter, a stable sort on `created_at` descending and a page of
    the result. The mapper's only statement that changes rows deletes
    whole rows; appending goes through `insert`. */
module AuditLogDb {
  import opened Base
  import opened Sorting

  datatype AuditRow = AuditRow(
    id: nat,
    action: string,
    status: string,
    nextcloudUid: string,
    wecomUserId: string,
    ipAddress: string,
    userAgent: string,
    message: string,
    details: string,
    createdAt: int)

  const CreatedAt: AuditRow -> int := (r: AuditRow) => r.createdAt

  /** No row satisfying `p` that `r` leaves out is newer than a row of
      `r`. */
  predicate NoneNewerLeftOut(r: seq<AuditRow>, rows: seq<AuditRow>, p: AuditRow -> bool) {
    forall x, y :: x in r && y in rows && p(y) && y !in r ==> x.createdAt >= y.createdAt
  }

  /** The `limit` newest rows satisfying `p`, newest first: as many as
      there are, up to `limit`, each one a distinct matching row, and no
      matching row left out is newer than one returned. */
  function Newest(rows: seq<AuditRow>, p: AuditRow -> bool, limit: nat): (r: seq<AuditRow>)
    ensures SortedDesc(r, CreatedAt)
    ensures |r| == if |Where(rows, p)| <= limit then |Where(rows, p)| else limit
    ensures multiset(r) <= multiset(Where(rows, p))
    ensures forall x :: x in r ==> x in rows && p(x)
    ensures |Where(rows, p)| <= limit ==> multiset(r) == multiset(Where(rows, p))
    ensures NoneNewerLeftOut(r, rows, p)
  {
    NewestFacts(rows, p, limit);
    Page(SortDesc(Where(rows, p), CreatedAt), 0, limit)
  }

  lemma NewestFacts(rows: seq<AuditRow>, p: AuditRow -> bool, limit: nat)
    ensures var r := Page(SortDesc(Where(rows, p), CreatedAt), 0, limit);
      SortedDesc(r, CreatedAt) &&
      multiset(r) <= multiset(Where(rows, p)) &&
      (forall x :: x in r ==> x in rows && p(x)) &&
      (|Where(rows, p)| <= limit ==> multiset(r) == multiset(Where(rows, p))) &&
      NoneNewerLeftOut(r, rows, p)
  {
    var sorted := SortDesc(Where(rows, p), CreatedAt);
    var r := Page(sorted, 0, limit);
    PageSorted(sorted, 0, limit, CreatedAt);
    FirstPageIsTop(sorted, limit, CreatedAt);
    PageSubMultiset(sorted, 0, limit);
    forall x | x in r
      ensures x in sorted
    {
      var k :| 0 <= k < |r| && r[k] == x;
    }
    forall x | x in sorted
      ensures x in rows && p(x)
    {
      assert x in multiset(Where(rows, p));
    }
    forall y | y in rows && p(y)
      ensures y in sorted
    {
      assert y in multiset(Where(rows, p));
    }
    if |sorted| <= limit {
      assert r == sorted;
    }
  }

  function HasWecomUserId(w: string): AuditRow -> bool { (r: AuditRow) => r.wecomUserId == w }
  function HasNextcloudUid(u: string): AuditRow -> bool { (r: AuditRow) => r.nextcloudUid == u }
  function HasAction(a: string): AuditRow -> bool { (r: AuditRow) => r.action == a }
  function HasStatus(s: string): AuditRow -> bool { (r: AuditRow) => r.status == s }
  function InRange(start: int, end: int): AuditRow -> bool {
    (r: AuditRow) => start <= r.createdAt <= end
  }
  function OlderThan(t: int): AuditRow -> bool { (r: AuditRow) => r.createdAt < t }
  function NotOlderThan(t: int): AuditRow -> bool { (r: AuditRow) => r.createdAt >= t }

  // ------------------------------------------------------------- queries

  /** `findRecent(limit, offset)`: newest first, `offset` rows skipped, at
      most `limit` returned. The page is the stretch of the table in
      `created_at DESC` order that starts after the skipped rows. */
  function FindRecent(rows: seq<AuditRow>, limit: nat, offset: nat): (r: seq<AuditRow>)
    ensures SortedDesc(r, CreatedAt)
    ensures |r| == if offset >= |rows| then 0 else if |rows| - offset < limit then |rows| - offset else limit
    ensures forall k :: 0 <= k < |r| ==> r[k] == SortDesc(rows, CreatedAt)[offset + k]
    ensures multiset(r) <= multiset(rows)
    ensures forall x :: x in r ==> x in rows
    ensures offset == 0 && |rows| <= limit ==> multiset(r) == multiset(rows)
  {
    RecentFacts(rows, limit, offset);
    Page(SortDesc(rows, CreatedAt), offset, limit)
  }

  lemma RecentFacts(rows: seq<AuditRow>, limit: nat, offset: nat)
    ensures var r := Page(SortDesc(rows, CreatedAt), offset, limit);
      SortedDesc(r, CreatedAt) &&
      (forall k :: 0 <= k < |r| ==> r[k] == SortDesc(rows, CreatedAt)[offset + k]) &&
      multiset(r) <= multiset(rows) &&
      (forall x :: x in r ==> x in rows) &&
      (offset == 0 && |rows| <= limit ==> multiset(r) == multiset(rows))
  {
    RecentSorted(rows, limit, offset);
    RecentRows(rows, limit, offset);
  }

  lemma RecentSorted(rows: seq<AuditRow>, limit: nat, offset: nat)
    ensures SortedDesc(Page(SortDesc(rows, CreatedAt), offset, limit), CreatedAt)
  {
    PageSorted(SortDesc(rows, CreatedAt), offset, limit, CreatedAt);
  }

  /** The page holds rows of the table, each at most as often as there,
      and all of them when nothing is skipped and the limit allows. */
  lemma RecentRows(rows: seq<AuditRow>, limit: nat, offset: nat)
    ensures var r := Page(SortDesc(rows, CreatedAt), offset, limit);
      multiset(r) <= multiset(rows) &&
      (forall x :: x in r ==> x in rows) &&
      (offset == 0 && |rows| <= limit ==> multiset(r) == multiset(rows))
  {
    var sorted := SortDesc(rows, CreatedAt);
    var r := Page(sorted, offset, limit);
    PageSubMultiset(sorted, offset, limit);
    forall x | x in r
      ensures x in rows
    {
      assert x in multiset(r);
    }
    if offset == 0 && |rows| <= limit {
      assert r == sorted;
    }
  }

  /** `findByWecomUserId(w, limit)`. The `limit` newest matching rows, newest first. */
  function FindByWecomUserId(rows: seq<AuditRow>, w: string, limit: nat): (r: seq<AuditRow>)
    ensures SortedDesc(r, CreatedAt)
    ensures |r| == if |Where(rows, HasWecomUserId(w))| <= limit then |Where(rows, HasWecomUserId(w))| else limit
    ensures multiset(r) <= multiset(Where(rows, HasWecomUserId(w)))
    ensures forall x :: x in r ==> x in rows && x.wecomUserId == w
    ensures NoneNewerLeftOut(r, rows, HasWecomUserId(w))
  {
    Newest(rows, HasWecomUserId(w), limit)
  }

  /** `findByNextcloudUid(u, limit)`. The `limit` newest matching rows, newest first. */
  function FindByNextcloudUid(rows: seq<AuditRow>, u: string, limit: nat): (r: seq<AuditRow>)
    ensures SortedDesc(r, CreatedAt)
    ensures |r| == if |Where(rows, HasNextcloudUid(u))| <= limit then |Where(rows, HasNextcloudUid(u))| else limit
    ensures multiset(r) <= multiset(Where(rows, HasNextcloudUid(u)))
    ensures forall x :: x in r ==> x in rows && x.nextcloudUid == u
    ensures NoneNewerLeftOut(r, rows, HasNextcloudUid(u))
  {
    Newest(rows, HasNextcloudUid(u), limit)
  }

  /** `findByAction(action, limit)`. The `limit` newest matching rows, newest first. */
  function FindByAction(rows: seq<AuditRow>, action: string, limit: nat): (r: seq<AuditRow>)
    ensures SortedDesc(r, CreatedAt)
    ensures |r| == if |Where(rows, HasAction(action))| <= limit then |Where(rows, HasAction(action))| else limit
    ensures multiset(r) <= multiset(Where(rows, HasAction(action)))
    ensures forall x :: x in r ==> x in rows && x.action == action
    ensures NoneNewerLeftOut(r, rows, HasAction(action))
  {
    Newest(rows, HasAction(action), limit)
  }

  /** `findByStatus(status, limit)`. The `limit` newest matching rows, newest first. */
  function FindByStatus(rows: seq<AuditRow>, status: string, limit: nat): (r: seq<AuditRow>)
    ensures SortedDesc(r, CreatedAt)
    ensures |r| == if |Where(rows, HasStatus(status))| <= limit then |Where(rows, HasStatus(status))| else limit
    ensures multiset(r) <= multiset(Where(rows, HasStatus(status)))
    ensures forall x :: x in r ==> x in rows && x.status == status
    ensures NoneNewerLeftOut(r, rows, HasStatus(status))
  {
    Newest(rows, HasStatus(status), limit)
  }

  /** `findByTimeRange(start, end, limit)`: both bounds inclusive. The
      `limit` newest matching rows, newest first. */
  function FindByTimeRange(rows: seq<AuditRow>, start: int, end: int, limit: nat): (r: seq<AuditRow>)
    ensures SortedDesc(r, CreatedAt)
    ensures |r| == if |Where(rows, InRange(start, end))| <= limit then |Where(rows, InRange(start, end))| else limit
    ensures multiset(r) <= multiset(Where(rows, InRange(start, end)))
    ensures forall x :: x in r ==> x in rows && start <= x.createdAt <= end
    ensures NoneNewerLeftOut(r, rows, InRange(start, end))
  {
    Newest(rows, InRange(start, end), limit)
  }

  /** The rows a `findBy…` query returns, by position: at most `limit`,
      each one matching. */
  lemma NewestAt(rows: seq<AuditRow>, p: AuditRow -> bool, limit: nat)
    ensures var r := Newest(rows, p, limit);
      |r| <= limit && forall k :: 0 <= k < |r| ==> p(r[k])
  {
    var r := Newest(rows, p, limit);
    forall k | 0 <= k < |r|
      ensures p(r[k])
    {
      assert r[k] in r;
    }
  }

  // ------------------------------------------------------------- the table

  class AuditTable {
    var rows: seq<AuditRow>
    /** The next value of the auto-increment primary key. */
    var nextId: nat

    constructor()
      ensures rows == [] && nextId == 1
    {
      rows := [];
      nextId := 1;
    }

    /** `count`. */
    function Count(): (n: nat)
      reads this
      ensures n == |rows|
    {
      |rows|
    }

    /** `insert`: the entry is appended under a fresh id; no stored row
        changes. */
    method Insert(row: AuditRow) returns (stored: AuditRow)
      modifies this
      ensures stored == row.(id := old(nextId))
      ensures rows == old(rows) + [stored] && nextId == old(nextId) + 1
    {
      stored := row.(id := nextId);
      rows := rows + [stored];
      nextId := nextId + 1;
    }

    /** `deleteOlderThan(t)`: exactly the rows created before `t` go, the
        others stay unchanged and in order, and the result is how many
        went. */
    method DeleteOlderThan(t: int) returns (n: nat)
      modifies this
      ensures rows == Where(old(rows), NotOlderThan(t)) && nextId == old(nextId)
      ensures n == |Where(old(rows), OlderThan(t))|
      ensures n == |old(rows)| - |rows|
      ensures forall x :: x in rows <==> x in old(rows) && x.createdAt >= t
    {
      var before := rows;
      WhereCount(before, NotOlderThan(t), OlderThan(t));
      rows := Where(before, NotOlderThan(t));
      n := |before| - |rows|;
    }
  }

  // ------------------------------------------------------------ properties

  /** Pruning twice at the same cutoff removes nothing the second time. */
  lemma DeleteOlderThanIdempotent(rows: seq<AuditRow>, t: int)
    ensures Where(Where(rows, NotOlderThan(t)), NotOlderThan(t)) == Where(rows, NotOlderThan(t))
    ensures Where(Where(rows, NotOlderThan(t)), OlderThan(t)) == []
  {
    var kept := Where(rows, NotOlderThan(t));
    assert forall j :: 0 <= j < |kept| ==> kept[j] in kept;
    WhereAll(kept, NotOlderThan(t));
    WhereNone(kept, OlderThan(t));
  }

  /** After pruning at `t`, every query sees only rows from `t` on. */
  lemma RecentAfterPrune(rows: seq<AuditRow>, t: int, limit: nat, offset: nat)
    ensures forall x :: x in FindRecent(Where(rows, NotOlderThan(t)), limit, offset) ==>
      x in rows && x.createdAt >= t
  {
  }
}
