/** The binding table between WeCom members and Nextcloud accounts
    (lib/Db/UserMappingMapper.php, rows as in lib/Db/UserMapping.php). The
    table is a sequence of rows in insertion order. The schema puts a
    unique index on `wecom_user_id` and on `nextcloud_uid`
    (lib/Migration/Version1000Date20241112000000.php:77-78); an insert
    that would break either is refused. Lookups are functions of the rows;
    the statements that change rows are methods of `MappingTable`. */
module UserMappingDb {
  import opened Base
  import opened Php
  import opened Sorting

  datatype MappingRow = MappingRow(
    id: nat,
    wecomUserId: string,
    nextcloudUid: string,
    displayName: string,
    email: string,
    mobile: string,
    departmentIds: string,
    createdAt: int,
    updatedAt: int,
    lastLoginAt: int)

  /** What `QBMapper::findEntity` makes of a query: the one row, or one
      of its two exceptions. */
  datatype Lookup = Found(row: MappingRow) | DoesNotExist | MultipleObjectsReturned

  /** Stands for the database's unique-constraint violation message. */
  const DuplicateKey := "Integrity constraint violation: duplicate key"

  predicate DistinctKeys(a: MappingRow, b: MappingRow) {
    a.id != b.id && a.wecomUserId != b.wecomUserId && a.nextcloudUid != b.nextcloudUid
  }

  /** The primary key and both unique indexes hold. */
  ghost predicate UniqueKeys(rows: seq<MappingRow>) {
    Pairwise(rows, DistinctKeys)
  }

  function FindEntity(matches: seq<MappingRow>): (r: Lookup)
    ensures r.Found? <==> |matches| == 1
    ensures r.DoesNotExist? <==> matches == []
    ensures r.Found? ==> r.row == matches[0]
  {
    if |matches| == 0 then DoesNotExist
    else if |matches| == 1 then Found(matches[0])
    else MultipleObjectsReturned
  }

  function HasWecomUserId(w: string): MappingRow -> bool { (r: MappingRow) => r.wecomUserId == w }
  function HasNextcloudUid(u: string): MappingRow -> bool { (r: MappingRow) => r.nextcloudUid == u }
  function HasEmail(e: string): MappingRow -> bool { (r: MappingRow) => r.email == e }
  function HasMobile(m: string): MappingRow -> bool { (r: MappingRow) => r.mobile == m }

  const UpdatedAt: MappingRow -> int := (r: MappingRow) => r.updatedAt

  // ------------------------------------------------------------ lookups

  /** `findByWecomUserId`: on a table whose keys are unique, the row with
      that remote id, or `DoesNotExist`. */
  function FindByWecomUserId(rows: seq<MappingRow>, w: string): (r: Lookup)
    requires UniqueKeys(rows)
    ensures r.Found? ==> r.row in rows && r.row.wecomUserId == w
    ensures r.DoesNotExist? <==> forall i :: 0 <= i < |rows| ==> rows[i].wecomUserId != w
    ensures !r.MultipleObjectsReturned?
  {
    var m := Where(rows, HasWecomUserId(w));
    WhereFacts(rows, HasWecomUserId(w));
    FindEntity(m)
  }

  /** `findByNextcloudUid`: the same unique-key lookup on the account uid. */
  function FindByNextcloudUid(rows: seq<MappingRow>, u: string): (r: Lookup)
    requires UniqueKeys(rows)
    ensures r.Found? ==> r.row in rows && r.row.nextcloudUid == u
    ensures r.DoesNotExist? <==> forall i :: 0 <= i < |rows| ==> rows[i].nextcloudUid != u
    ensures !r.MultipleObjectsReturned?
  {
    var m := Where(rows, HasNextcloudUid(u));
    WhereFacts(rows, HasNextcloudUid(u));
    FindEntity(m)
  }

  /** `findByEmail`: the column is not unique, so two rows with the
      address give `MultipleObjectsReturned`. */
  function FindByEmail(rows: seq<MappingRow>, e: string): (r: Lookup)
    ensures r.Found? ==> r.row in rows && r.row.email == e
    ensures r.Found? ==> forall i :: 0 <= i < |rows| && rows[i].email == e ==> rows[i] == r.row
    ensures r.DoesNotExist? <==> forall i :: 0 <= i < |rows| ==> rows[i].email != e
    ensures r.MultipleObjectsReturned? ==>
      exists i, j :: 0 <= i < j < |rows| && rows[i].email == e && rows[j].email == e
  {
    var m := Where(rows, HasEmail(e));
    WhereFacts(rows, HasEmail(e));
    FindEntity(m)
  }

  /** `findByMobile`: as `FindByEmail`, on the mobile number. */
  function FindByMobile(rows: seq<MappingRow>, mobile: string): (r: Lookup)
    ensures r.Found? ==> r.row in rows && r.row.mobile == mobile
    ensures r.Found? ==> forall i :: 0 <= i < |rows| && rows[i].mobile == mobile ==> rows[i] == r.row
    ensures r.DoesNotExist? <==> forall i :: 0 <= i < |rows| ==> rows[i].mobile != mobile
    ensures r.MultipleObjectsReturned? ==>
      exists i, j :: 0 <= i < j < |rows| && rows[i].mobile == mobile && rows[j].mobile == mobile
  {
    var m := Where(rows, HasMobile(mobile));
    WhereFacts(rows, HasMobile(mobile));
    FindEntity(m)
  }

  /** `findAll`: every row, most recently updated first. */
  function FindAll(rows: seq<MappingRow>): (r: seq<MappingRow>)
    ensures multiset(r) == multiset(rows)
    ensures SortedDesc(r, UpdatedAt)
  {
    SortDesc(rows, UpdatedAt)
  }

  /** The `LIKE` pattern `findByDepartmentId` builds. */
  function DepartmentPattern(d: int): string {
    "," + IntToString(d) + ","
  }

  function MentionsDepartment(d: int): MappingRow -> bool {
    (r: MappingRow) => Contains(r.departmentIds, DepartmentPattern(d))
  }

  /** `findByDepartmentId` as written: the rows whose `department_ids`
      text contains ",d,". */
  function FindByDepartmentId(rows: seq<MappingRow>, d: int): (r: seq<MappingRow>)
    ensures forall x :: x in r <==> x in rows && Contains(x.departmentIds, DepartmentPattern(d))
  {
    Where(rows, MentionsDepartment(d))
  }

  function ListsDepartment(d: int): MappingRow -> bool {
    (r: MappingRow) => d in ParseIntList(r.departmentIds)
  }

  /** `findByDepartmentId` as intended: the rows whose stored list of
      department ids holds `d`. */
  function FindByDepartmentIdCorrected(rows: seq<MappingRow>, d: int): (r: seq<MappingRow>)
    ensures forall x :: x in r <==> x in rows && d in ParseIntList(x.departmentIds)
  {
    Where(rows, ListsDepartment(d))
  }

  // ------------------------------------------------------------ properties

  /** On a table with unique keys, looking up a stored remote id finds
      exactly its row. */
  lemma FindStoredWecomUserId(rows: seq<MappingRow>, i: nat)
    requires UniqueKeys(rows) && i < |rows|
    ensures FindByWecomUserId(rows, rows[i].wecomUserId) == Found(rows[i])
  {
    var w := rows[i].wecomUserId;
    forall j | 0 <= j < |rows| && j != i
      ensures !HasWecomUserId(w)(rows[j])
    {
      if j < i { assert DistinctKeys(rows[j], rows[i]); } else { assert DistinctKeys(rows[i], rows[j]); }
    }
    WhereSingle(rows, HasWecomUserId(w), i);
  }

  /** A text without commas contains no ",d," pattern. */
  lemma {:induction false} NoCommaNoPattern(h: string, d: int)
    requires NoSep(h, ',')
    ensures !Contains(h, DepartmentPattern(d))
    decreases |h|
  {
    var n := DepartmentPattern(d);
    if |n| <= |h| {
      assert h[..|n|][0] != n[0];
    }
    if |h| > 0 {
      NoCommaNoPattern(h[1..], d);
    }
  }

  /** The stored text of a one-department list is "[d]", which has no
      comma, so the as-written lookup never returns such a row. */
  lemma DepartmentLookupMissesSingleton(row: MappingRow, d: int)
    requires row.departmentIds == JsonIntList([d])
    ensures row !in FindByDepartmentId([row], d)
  {
    var s := IntToString(d);
    assert IntStrings([d]) == [s];
    assert row.departmentIds == "[" + s + "]";
    forall k | 0 <= k < |row.departmentIds|
      ensures row.departmentIds[k] != ','
    {
      if 0 < k < |row.departmentIds| - 1 {
        assert row.departmentIds[k] == s[k - 1];
      }
    }
    NoCommaNoPattern(row.departmentIds, d);
  }

  /** The concrete case: a member of department 1 alone is not found by
      `findByDepartmentId(1)`. */
  lemma DepartmentLookupMissesRoot()
    ensures var row := MappingRow(1, "zhangsan", "zhangsan", "", "", "", JsonIntList([1]), 0, 0, 0);
            row !in FindByDepartmentId([row], 1)
  {
    var row := MappingRow(1, "zhangsan", "zhangsan", "", "", "", JsonIntList([1]), 0, 0, 0);
    DepartmentLookupMissesSingleton(row, 1);
  }

  /** The corrected lookup returns a stored row exactly when its list of
      departments, as written by `json_encode`, holds `d`. */
  lemma DepartmentLookupCorrect(rows: seq<MappingRow>, row: MappingRow, ds: seq<int>, d: int)
    requires row in rows && row.departmentIds == JsonIntList(ds)
    ensures row in FindByDepartmentIdCorrected(rows, d) <==> d in ds
  {
    JsonIntListRoundTrip(ds);
  }

  /** Rewriting non-key columns row by row keeps the keys unique. */
  lemma SameKeysUnique(a: seq<MappingRow>, b: seq<MappingRow>)
    requires UniqueKeys(a) && |a| == |b|
    requires forall i :: 0 <= i < |a| ==>
               b[i].id == a[i].id && b[i].wecomUserId == a[i].wecomUserId && b[i].nextcloudUid == a[i].nextcloudUid
    ensures UniqueKeys(b)
  {
    forall i, j | 0 <= i < j < |b|
      ensures DistinctKeys(b[i], b[j])
    {
      assert DistinctKeys(a[i], a[j]);
    }
  }

  // ------------------------------------------------------------ the table

  /** Whether `insert` refuses a new binding of `w` to `uid`. */
  predicate Bound(rows: seq<MappingRow>, w: string, uid: string) {
    exists i :: 0 <= i < |rows| && (rows[i].wecomUserId == w || rows[i].nextcloudUid == uid)
  }

  /** The keys are unique and every id is below the next one handed out. */
  ghost predicate WellKeyed(rows: seq<MappingRow>, nextId: nat) {
    UniqueKeys(rows) && forall i :: 0 <= i < |rows| ==> rows[i].id < nextId
  }

  /** The rows after `updateLastLoginAt(w, t)`: the row bound to `w`, if
      any, records the login; nothing else changes. */
  function Stamped(rows: seq<MappingRow>, w: string, t: int): (r: seq<MappingRow>)
    ensures |r| == |rows|
    ensures forall i :: 0 <= i < |r| ==>
      r[i] == if rows[i].wecomUserId == w then rows[i].(lastLoginAt := t) else rows[i]
    ensures (forall i :: 0 <= i < |rows| ==> rows[i].wecomUserId != w) ==> r == rows
  {
    var r := seq(|rows|, i requires 0 <= i < |rows| =>
      if rows[i].wecomUserId == w then rows[i].(lastLoginAt := t) else rows[i]);
    if forall i :: 0 <= i < |rows| ==> rows[i].wecomUserId != w then
      assert r == rows;
      r
    else r
  }

  /** Recording a login keeps the keys well formed and leaves the binding
      where it was. */
  lemma StampedKeys(rows: seq<MappingRow>, nextId: nat, w: string, t: int)
    requires WellKeyed(rows, nextId)
    ensures WellKeyed(Stamped(rows, w, t), nextId)
    ensures forall x :: FindByWecomUserId(Stamped(rows, w, t), x).Found? <==> FindByWecomUserId(rows, x).Found?
    ensures forall x :: FindByWecomUserId(rows, x).Found? ==>
      FindByWecomUserId(Stamped(rows, w, t), x).row.nextcloudUid == FindByWecomUserId(rows, x).row.nextcloudUid
  {
    var r := Stamped(rows, w, t);
    SameKeysUnique(rows, r);
    forall x | FindByWecomUserId(rows, x).Found?
      ensures FindByWecomUserId(r, x).Found?
      ensures FindByWecomUserId(r, x).row.nextcloudUid == FindByWecomUserId(rows, x).row.nextcloudUid
    {
      var k :| 0 <= k < |rows| && rows[k] == FindByWecomUserId(rows, x).row;
      FindStoredWecomUserId(r, k);
    }
  }

  class MappingTable {
    var rows: seq<MappingRow>
    /** The next value of the auto-increment primary key. */
    var nextId: nat

    ghost predicate Valid()
      reads this
    {
      WellKeyed(rows, nextId)
    }

    constructor()
      ensures rows == [] && nextId == 1 && Valid()
    {
      rows := [];
      nextId := 1;
    }

    /** `insert`: refused when the remote id or the account uid is already
        bound; otherwise the row is appended under a fresh id. */
    method Insert(row: MappingRow) returns (r: Result<MappingRow>)
      requires Valid()
      modifies this
      ensures Valid()
      ensures Bound(old(rows), row.wecomUserId, row.nextcloudUid) ==>
                r == Err(DuplicateKey) && rows == old(rows) && nextId == old(nextId)
      ensures !Bound(old(rows), row.wecomUserId, row.nextcloudUid) ==>
                r == Ok(row.(id := old(nextId))) && rows == old(rows) + [r.value] && nextId == old(nextId) + 1
    {
      if Bound(rows, row.wecomUserId, row.nextcloudUid) {
        r := Err(DuplicateKey);
      } else {
        var stored := row.(id := nextId);
        rows := rows + [stored];
        nextId := nextId + 1;
        r := Ok(stored);
      }
    }

    /** `update` of a loaded mapping after its profile setters: the row with
        that id gets the new profile and `updated_at`; its keys,
        `created_at` and `last_login_at` stay. */
    method UpdateProfile(id: nat, displayName: string, email: string, mobile: string,
                         departmentIds: string, updatedAt: int)
      requires Valid()
      modifies this
      ensures Valid() && nextId == old(nextId)
      ensures |rows| == |old(rows)|
      ensures forall i :: 0 <= i < |rows| ==>
                rows[i] == if old(rows)[i].id == id
        then old(rows)[i].(displayName := displayName, email := email, mobile := mobile,
                           departmentIds := departmentIds, updatedAt := updatedAt)
        else old(rows)[i]
    {
      var before := rows;
      rows := seq(|before|, i requires 0 <= i < |before| =>
        if before[i].id == id
        then before[i].(displayName := displayName, email := email, mobile := mobile,
                        departmentIds := departmentIds, updatedAt := updatedAt)
        else before[i]);
      SameKeysUnique(before, rows);
    }

    /** `updateLastLoginAt`: only `last_login_at`, only on the row bound to
        `w`; a no-op when there is none. */
    method UpdateLastLoginAt(w: string, timestamp: int)
      requires Valid()
      modifies this
      ensures Valid() && nextId == old(nextId)
      ensures rows == Stamped(old(rows), w, timestamp)
    {
      StampedKeys(rows, nextId, w, timestamp);
      rows := Stamped(rows, w, timestamp);
    }

    /** `deleteByWecomUserId`: exactly the row bound to `w` goes; the rest
        keep their order. */
    method DeleteByWecomUserId(w: string)
      requires Valid()
      modifies this
      ensures Valid() && nextId == old(nextId)
      ensures rows == Where(old(rows), (x: MappingRow) => x.wecomUserId != w)
      ensures forall x :: x in rows <==> x in old(rows) && x.wecomUserId != w
    {
      var before := rows;
      WherePairwise(before, (x: MappingRow) => x.wecomUserId != w, DistinctKeys);
      rows := Where(before, (x: MappingRow) => x.wecomUserId != w);
      forall i | 0 <= i < |rows|
        ensures rows[i].id < nextId
      {
        assert rows[i] in before;
      }
    }
  }
}
