/** How a WeCom member's profile is written into Nextcloud, shared by the
    login flow (lib/Controller/OAuthController.php) and the directory
    sync (lib/Service/SyncService.php).

    Mapping rows: both do it the same way (OAuthController.php:335-369,
    SyncService.php:319-345): a missing field becomes "", the department
    list is stored as its JSON text, and a refresh touches the profile
    columns and `updated_at` only. The two differ in the `last_login_at`
    of a new row, which is therefore a parameter.

    Accounts: both pick the username the same way and copy the name and
    address only when PHP-truthy; only the login flow sets a quota. */
module MemberProfile {
  import opened Base
  import opened Php
  import opened WeComApi
  import opened UserMappingDb
  import opened Host

  /** `json_encode($m['department'] ?? [])`: a text that reads back as
      the member's department ids, `[]` when it has none. */
  function DepartmentText(m: Member): (t: string)
    ensures ParseIntList(t) == m.department.GetOr([])
    ensures m.department.None? ==> t == "[]"
  {
    JsonIntListRoundTrip(m.department.GetOr([]));
    JsonIntList(m.department.GetOr([]))
  }

  /** The row `createUserMapping` inserts (its id is assigned on insert). */
  function NewMapping(w: string, uid: string, m: Member, now: int, lastLoginAt: int): (row: MappingRow)
    ensures row.wecomUserId == w && row.nextcloudUid == uid
    ensures row.createdAt == now && row.updatedAt == now && row.lastLoginAt == lastLoginAt
    ensures ParseIntList(row.departmentIds) == m.department.GetOr([])
  {
    MappingRow(0, w, uid, m.name.GetOr(""), m.email.GetOr(""), m.mobile.GetOr(""),
               DepartmentText(m), now, now, lastLoginAt)
  }

  /** A stored row after `updateUserMapping`: the profile columns are the
      member's (a missing field is ""), `updated_at` is now, and the id,
      both keys, `created_at` and `last_login_at` stay. */
  function Refreshed(row: MappingRow, m: Member, now: int): (r: MappingRow)
    ensures r.id == row.id && r.wecomUserId == row.wecomUserId && r.nextcloudUid == row.nextcloudUid
    ensures r.createdAt == row.createdAt && r.lastLoginAt == row.lastLoginAt && r.updatedAt == now
    ensures r.displayName == m.name.GetOr("") && r.email == m.email.GetOr("") && r.mobile == m.mobile.GetOr("")
    ensures ParseIntList(r.departmentIds) == m.department.GetOr([])
  {
    row.(displayName := m.name.GetOr(""), email := m.email.GetOr(""), mobile := m.mobile.GetOr(""),
         departmentIds := DepartmentText(m), updatedAt := now)
  }

  /** The rows after `updateUserMapping` of the row with id `id`: that row
      is refreshed, the others are left alone. */
  function RefreshedRows(rows: seq<MappingRow>, id: nat, m: Member, now: int): (r: seq<MappingRow>)
    ensures |r| == |rows|
    ensures forall i :: 0 <= i < |r| ==> r[i] == if rows[i].id == id then Refreshed(rows[i], m, now) else rows[i]
  {
    seq(|rows|, i requires 0 <= i < |rows| => if rows[i].id == id then Refreshed(rows[i], m, now) else rows[i])
  }

  /** Refreshing twice with the same member at the same instant is
      refreshing once. */
  lemma RefreshIdempotent(row: MappingRow, m: Member, now: int)
    ensures Refreshed(Refreshed(row, m, now), m, now) == Refreshed(row, m, now)
  {
  }

  // ------------------------------------------------------------- accounts

  /** The username of a new account: the remote id, or the remote id
      with the current time appended when that uid is taken. */
  function NewUsername(w: string, now: int, accounts: map<string, Account>): (u: string)
    ensures w !in accounts ==> u == w
    ensures w in accounts ==> u == w + "_" + IntToString(now)
  {
    if w in accounts then w + "_" + IntToString(now) else w
  }

  /** An account after the member's name and address are copied onto it
      (`updateUser`): each only when PHP-truthy; the quota is untouched. */
  function Profiled(a: Account, m: Member): (b: Account)
    ensures b.quota == a.quota
    ensures b.displayName == if EmptyOpt(m.name) then a.displayName else m.name
    ensures b.email == if EmptyOpt(m.email) then a.email else m.email
  {
    a.(displayName := if EmptyOpt(m.name) then a.displayName else m.name,
       email := if EmptyOpt(m.email) then a.email else m.email)
  }

  /** The profile a new account gets at login (`createNewUser`): the
      member's name and address when PHP-truthy, and the default quota
      when PHP-truthy. */
  function NewAccount(m: Member, quota: string): (a: Account)
    ensures a.displayName.Some? <==> !EmptyOpt(m.name)
    ensures a.displayName.Some? ==> a.displayName == m.name
    ensures a.email.Some? <==> !EmptyOpt(m.email)
    ensures a.email.Some? ==> a.email == m.email
    ensures a.quota.Some? <==> !Empty(quota)
    ensures a.quota.Some? ==> a.quota.value == quota
  {
    Account(if EmptyOpt(m.name) then None else m.name,
            if EmptyOpt(m.email) then None else m.email,
            if Empty(quota) then None else Some(quota))
  }

  /** An account the sync creates is the one the login flow would create
      with the default quota unset. */
  lemma SyncedAccountIsLoginAccount(m: Member, quota: string)
    ensures Profiled(Account(None, None, None), m) == NewAccount(m, "")
    ensures NewAccount(m, quota) == Profiled(Account(None, None, None), m).(quota := NewAccount(m, quota).quota)
  {
  }

  /** Copying the same profile twice is copying it once. */
  lemma ProfiledIdempotent(a: Account, m: Member)
    ensures Profiled(Profiled(a, m), m) == Profiled(a, m)
  {
  }
}
