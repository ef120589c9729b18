/** The directory sync (lib/Service/SyncService.php): departments become
    groups, members become accounts bound to their remote id by a mapping
    row, and members join the groups of their departments.

    Two behaviours of the source are kept as they are: `created_groups`
    counts every department processed without an error, whether or not a
    group was created for it, and the sync neither consults the match
    fields nor writes to the audit trail. Errors never stop a run: each
    one becomes a message and the run goes on. */
module Sync {
  import opened Base
  import opened Php
  import opened Config
  import opened WeComApi
  import opened UserMappingDb
  import opened MemberProfile
  import opened Host

  const ConfigInvalid := "WeCom configuration is invalid"
  const EmptyUserId := "WeCom user ID is empty"
  const CreateFailed := "Failed to create user"
  /** The department synced when none is configured. */
  const RootDepartment := "1"

  datatype SyncResult = SyncResult(
    success: bool,
    totalUsers: nat,
    createdUsers: nat,
    updatedUsers: nat,
    totalDepartments: nat,
    createdGroups: nat,
    errors: seq<string>,
    message: string)

  datatype DepartmentResult = DepartmentResult(total: nat, created: nat, errors: seq<string>)
  datatype UserResult = UserResult(total: nat, created: nat, updated: nat, errors: seq<string>)

  /** Two stretches of `syncUsers` reported as one: counters added, errors
      in order. */
  function Plus(a: UserResult, b: UserResult): (r: UserResult)
    ensures r.errors == [] <==> a.errors == [] && b.errors == []
  {
    UserResult(a.total + b.total, a.created + b.created, a.updated + b.updated, a.errors + b.errors)
  }

  /** What `syncUser` reports for a member it did not fail on. */
  datatype Outcome = Created | Updated

  /** The summary `fullSync` reports after a run. */
  function SummaryMessage(users: UserResult, departments: DepartmentResult): (r: string)
    ensures |r| > 13 + |IntToString(users.total)| && r[..13] == "Synchronized "
    ensures r[13..13 + |IntToString(users.total)|] == IntToString(users.total)
  {
    var head := "Synchronized " + IntToString(users.total);
    var tail := " users (" + IntToString(users.created) + " created, " +
      IntToString(users.updated) + " updated) and " + IntToString(departments.total) + " departments (" +
      IntToString(departments.created) + " groups created)";
    assert (head + tail)[..|head|] == head;
    head + tail
  }

  /** `getSyncDepartmentIds`: the configured ids, or the root department
      when none are. */
  function SyncDepartmentIds(v: Settings): (ids: seq<string>)
    ensures ids != []
    ensures SyncDepartments(v) != [] ==> ids == SyncDepartments(v)
    ensures SyncDepartments(v) == [] ==> ids == [RootDepartment]
  {
    var configured := SyncDepartments(v);
    if configured == [] then [RootDepartment] else configured
  }

  // ------------------------------------------------------------ groups

  /** No group disappears and no member leaves a group. */
  ghost predicate Grown(before: map<string, set<string>>, after: map<string, set<string>>) {
    before.Keys <= after.Keys && forall g :: g in before ==> before[g] <= after[g]
  }

  /** The same groups, with `uid` added to exactly those in `joined`. */
  ghost predicate Joined(before: map<string, set<string>>, after: map<string, set<string>>, uid: string,
                         joined: set<string>) {
    after.Keys == before.Keys &&
    forall g :: g in after ==> after[g] == if g in joined then before[g] + {uid} else before[g]
  }

  /** One more department in the membership loop: its group, if it is
      named and exists, gains the account. */
  lemma JoinedAdd(before: map<string, set<string>>, mid: map<string, set<string>>,
                  after: map<string, set<string>>, uid: string, gs: set<string>, name: Option<string>)
    requires Joined(before, mid, uid, gs)
    requires if name.Some? && name.value in mid && uid !in mid[name.value]
             then after == mid[name.value := mid[name.value] + {uid}] else after == mid
    ensures Joined(before, after, uid, gs + (if name.Some? then {name.value} else {}))
  {
  }

  /** Joining adds members only: no group appears or disappears. */
  lemma JoinedKept(before: map<string, set<string>>, after: map<string, set<string>>, uid: string,
                   joined: set<string>)
    requires Joined(before, after, uid, joined)
    ensures Grown(before, after) && after.Keys == before.Keys
  {
  }

  /** `syncDepartment` on the group table: the new table, or the message
      of the error it raises. A nameless department and an existing group
      change nothing; a name the back-ends decline changes nothing
      either. */
  function DepartmentGroup(members: map<string, set<string>>, refused: set<string>, d: Department)
    : (r: Result<map<string, set<string>>>)
    ensures r.Err? <==> !EmptyOpt(d.name) && d.name.value !in members && |d.name.value| > MaxGroupLength
    ensures r.Err? ==> r.error == GroupNameTooLong
    ensures r.Ok? ==> Grown(members, r.value) && r.value.Keys <= members.Keys + {d.name.GetOr("")}
    ensures r.Ok? && !EmptyOpt(d.name) && |d.name.value| <= MaxGroupLength && d.name.value !in refused ==>
      d.name.value in r.value
  {
    if EmptyOpt(d.name) || d.name.value in members then Ok(members)
    else if |d.name.value| > MaxGroupLength then Err(GroupNameTooLong)
    else if d.name.value in refused then Ok(members)
    else Ok(members[d.name.value := {}])
  }

  function DepartmentError(d: Department, e: string): string {
    "Failed to sync department " + d.name.GetOr("unknown") + ": " + e
  }

  datatype GroupStep = GroupStep(members: map<string, set<string>>, created: nat, errors: seq<string>)

  /** The department loop of `syncDepartments` over a listing: every
      department either counts as created or adds one error. */
  function ApplyDepartments(members: map<string, set<string>>, refused: set<string>, ds: seq<Department>)
    : (s: GroupStep)
    ensures s.created + |s.errors| == |ds|
    decreases |ds|
  {
    if ds == [] then GroupStep(members, 0, [])
    else
      var prev := ApplyDepartments(members, refused, ds[..|ds| - 1]);
      var d := ds[|ds| - 1];
      match DepartmentGroup(prev.members, refused, d)
      case Ok(m) => GroupStep(m, prev.created + 1, prev.errors)
      case Err(e) => GroupStep(prev.members, prev.created, prev.errors + [DepartmentError(d, e)])
  }

  /** A department a run leaves alone: no name, an existing group, or a
      name that cannot or may not be created. */
  predicate Settled(members: map<string, set<string>>, refused: set<string>, d: Department) {
    EmptyOpt(d.name) || d.name.value in members || |d.name.value| > MaxGroupLength || d.name.value in refused
  }

  lemma {:induction false} ApplyGrows(members: map<string, set<string>>, refused: set<string>, ds: seq<Department>)
    ensures Grown(members, ApplyDepartments(members, refused, ds).members)
    ensures forall g :: |g| > MaxGroupLength ==>
      (g in ApplyDepartments(members, refused, ds).members <==> g in members)
    decreases |ds|
  {
    if ds != [] {
      ApplyGrows(members, refused, ds[..|ds| - 1]);
    }
  }

  /** After a run every department of the listing is settled. */
  lemma {:induction false} ApplySettles(members: map<string, set<string>>, refused: set<string>, ds: seq<Department>)
    ensures forall k :: 0 <= k < |ds| ==> Settled(ApplyDepartments(members, refused, ds).members, refused, ds[k])
    decreases |ds|
  {
    if ds != [] {
      var init := ds[..|ds| - 1];
      ApplySettles(members, refused, init);
      var prev := ApplyDepartments(members, refused, init);
      var after := ApplyDepartments(members, refused, ds).members;
      assert Grown(prev.members, after);
      forall k | 0 <= k < |ds|
        ensures Settled(after, refused, ds[k])
      {
        if k < |ds| - 1 {
          assert ds[k] == init[k];
          assert Settled(prev.members, refused, init[k]);
        }
      }
    }
  }

  /** Settled departments change nothing. */
  lemma {:induction false} ApplySettledKeeps(members: map<string, set<string>>, refused: set<string>,
                                             ds: seq<Department>)
    requires forall k :: 0 <= k < |ds| ==> Settled(members, refused, ds[k])
    ensures ApplyDepartments(members, refused, ds).members == members
    decreases |ds|
  {
    if ds != [] {
      var init := ds[..|ds| - 1];
      assert forall k :: 0 <= k < |init| ==> init[k] == ds[k];
      ApplySettledKeeps(members, refused, init);
    }
  }

  /** Two tables that agree on the names too long to create give the
      same errors on the same listing. */
  lemma {:induction false} SameErrors(a: map<string, set<string>>, b: map<string, set<string>>, refused: set<string>,
                                      ds: seq<Department>)
    requires forall g :: |g| > MaxGroupLength ==> (g in a <==> g in b)
    ensures ApplyDepartments(a, refused, ds).errors == ApplyDepartments(b, refused, ds).errors
    decreases |ds|
  {
    if ds != [] {
      var init := ds[..|ds| - 1];
      SameErrors(a, b, refused, init);
      ApplyGrows(a, refused, init);
      ApplyGrows(b, refused, init);
      var pa := ApplyDepartments(a, refused, init);
      var pb := ApplyDepartments(b, refused, init);
      var d := ds[|ds| - 1];
      assert DepartmentGroup(pa.members, refused, d).Err? == DepartmentGroup(pb.members, refused, d).Err?;
    }
  }

  /** Running the department sync again on the same listing creates no
      group, yet reports the same `created_groups` and the same errors. */
  lemma RerunCreatesNoGroups(members: map<string, set<string>>, refused: set<string>, ds: seq<Department>)
    ensures var first := ApplyDepartments(members, refused, ds);
            var second := ApplyDepartments(first.members, refused, ds);
            second.members == first.members && second.created == first.created &&
            second.errors == first.errors
  {
    var first := ApplyDepartments(members, refused, ds);
    ApplySettles(members, refused, ds);
    ApplySettledKeeps(first.members, refused, ds);
    ApplyGrows(members, refused, ds);
    SameErrors(first.members, members, refused, ds);
  }

  /** A department counts as a created group whenever it raises nothing:
      a nameless department, an existing group and a declined name all
      count. */
  lemma CreatedCountsUnchangedDepartments(members: map<string, set<string>>, refused: set<string>, d: Department)
    requires Settled(members, refused, d) && (EmptyOpt(d.name) || |d.name.value| <= MaxGroupLength ||
                                               d.name.value in members)
    ensures ApplyDepartments(members, refused, [d]) == GroupStep(members, 1, [])
  {
    assert [d][..0] == [];
  }

  // --------------------------------------------------- department names

  /** The name `updateUserGroups` finds for a department id: the last
      listed department with that id decides, and a null name reads as
      unset. */
  function DeptName(depts: seq<Department>, id: int): (n: Option<string>)
    ensures n.Some? ==> exists k :: 0 <= k < |depts| && depts[k].id == id && depts[k].name == n
    ensures (forall k :: 0 <= k < |depts| ==> depts[k].id != id) ==> n == None
    decreases |depts|
  {
    if depts == [] then None
    else if depts[|depts| - 1].id == id then depts[|depts| - 1].name
    else DeptName(depts[..|depts| - 1], id)
  }

  /** The groups a member with these department ids is put in. */
  function GroupsFor(depts: seq<Department>, ids: seq<int>): set<string>
    decreases |ids|
  {
    if ids == [] then {}
    else
      var last := DeptName(depts, ids[|ids| - 1]);
      GroupsFor(depts, ids[..|ids| - 1]) + if last.Some? then {last.value} else {}
  }

  /** A group is joined exactly when one of the ids names it. */
  lemma {:induction false} GroupsForMembers(depts: seq<Department>, ids: seq<int>, g: string)
    ensures g in GroupsFor(depts, ids) <==> exists k :: 0 <= k < |ids| && DeptName(depts, ids[k]) == Some(g)
    decreases |ids|
  {
    if ids != [] {
      var n := |ids| - 1;
      var prefix := ids[..n];
      GroupsForMembers(depts, prefix, g);
      if g in GroupsFor(depts, prefix) {
        var k :| 0 <= k < |prefix| && DeptName(depts, prefix[k]) == Some(g);
        assert ids[k] == prefix[k];
      } else if DeptName(depts, ids[n]) != Some(g) {
        forall k | 0 <= k < |ids|
          ensures DeptName(depts, ids[k]) != Some(g)
        {
          if k < n {
            assert ids[k] == prefix[k];
          }
        }
      }
    }
  }


  /** One more department id adds its group, if it names one. */
  lemma GroupsForSnoc(depts: seq<Department>, ids: seq<int>, j: nat)
    requires j < |ids|
    ensures GroupsFor(depts, ids[..j + 1]) ==
            GroupsFor(depts, ids[..j]) + (if DeptName(depts, ids[j]).Some? then {DeptName(depts, ids[j]).value} else {})
  {
    assert ids[..j + 1][..j] == ids[..j] && ids[..j + 1][j] == ids[j];
  }



  // ------------------------------------------------------------ mappings

  /** Rows keep their ids, keys and order; rows may be appended. */
  ghost predicate KeysKept(before: seq<MappingRow>, after: seq<MappingRow>) {
    |before| <= |after| &&
    forall i :: 0 <= i < |before| ==>
      after[i].id == before[i].id && after[i].wecomUserId == before[i].wecomUserId &&
      after[i].nextcloudUid == before[i].nextcloudUid
  }

  /** The binding the next sync of `w` takes as its existing account. */
  ghost predicate LiveBinding(rows: seq<MappingRow>, accounts: map<string, Account>, w: string)
    requires UniqueKeys(rows)
  {
    FindByWecomUserId(rows, w).Found? && FindByWecomUserId(rows, w).row.nextcloudUid in accounts
  }

  /** The state the sync writes, taken as one value: the mapping table,
      the accounts (and their creation order) and the group table. */
  datatype Directory = Directory(rows: seq<MappingRow>, nextId: nat, accounts: map<string, Account>,
                                 order: seq<string>, groups: map<string, set<string>>)

  ghost predicate WellFormed(d: Directory) {
    WellKeyed(d.rows, d.nextId)
  }

  /** What the user half of a sync may do to the shared state: mapping
      rows keep their ids and keys, no account is removed, no group
      appears or disappears and nobody leaves a group. */
  ghost predicate Extends(d: Directory, e: Directory) {
    KeysKept(d.rows, e.rows) && d.accounts.Keys <= e.accounts.Keys &&
    Grown(d.groups, e.groups) && e.groups.Keys == d.groups.Keys
  }

  /** A binding that is live stays live while the state only extends. */
  lemma LiveBindingKept(d: Directory, e: Directory, w: string)
    requires WellFormed(d) && WellFormed(e) && Extends(d, e)
    requires LiveBinding(d.rows, d.accounts, w)
    ensures LiveBinding(e.rows, e.accounts, w)
  {
    var k :| 0 <= k < |d.rows| && d.rows[k] == FindByWecomUserId(d.rows, w).row;
    FindStoredWecomUserId(e.rows, k);
  }

  /** The groups `updateUser` puts a member in, given the department
      listing it reads: none unless the member lists departments and the
      listing succeeded. */
  function JoinedGroups(m: Member, listing: Result<seq<Department>>): set<string> {
    if m.department.Some? && m.department.value != [] && listing.Ok?
    then GroupsFor(listing.value, m.department.value) else {}
  }

  /** The update branch of `syncUser` for a member bound to a live
      account: the account takes the member's truthy profile and joins the
      groups of its departments, and the bound row is refreshed. */
  ghost predicate Refreshes(d: Directory, m: Member, now: int, listing: Result<seq<Department>>, e: Directory)
    requires UniqueKeys(d.rows) && m.userid.Some? && LiveBinding(d.rows, d.accounts, m.userid.value)
  {
    var row := FindByWecomUserId(d.rows, m.userid.value).row;
    var uid := row.nextcloudUid;
    e.accounts == d.accounts[uid := Profiled(d.accounts[uid], m)] && e.order == d.order &&
    Joined(d.groups, e.groups, uid, JoinedGroups(m, listing)) &&
    e.rows == RefreshedRows(d.rows, row.id, m, now) && e.nextId == d.nextId
  }

  /** The create branch of `syncUser`: a taken username raises and a
      declined one fails, both with no change; otherwise the account is
      created with the member's truthy profile and groups, and then bound
      unless the remote id or the uid is already bound. */
  ghost predicate Enrols(d: Directory, m: Member, now: int, refused: set<string>,
                         listing: Result<seq<Department>>, e: Directory, r: Result<Outcome>)
    requires m.userid.Some?
  {
    var w := m.userid.value;
    var u := NewUsername(w, now, d.accounts);
    if u in d.accounts then r == Err(UsernameTaken) && e == d
    else if u in refused then r == Err(CreateFailed) && e == d
    else
      e.accounts == d.accounts[u := Profiled(Account(None, None, None), m)] && e.order == d.order + [u] &&
      Joined(d.groups, e.groups, u, JoinedGroups(m, listing)) &&
      if Bound(d.rows, w, u) then r == Err(DuplicateKey) && e.rows == d.rows && e.nextId == d.nextId
      else
        r == Ok(Created) && e.rows == d.rows + [NewMapping(w, u, m, now, 0).(id := d.nextId)] &&
        e.nextId == d.nextId + 1
  }

  /** `syncUser` on the state `d`, given the department listing the run
      reads: the state `e` it leaves and what it reports. */
  ghost predicate MemberStep(d: Directory, m: Member, now: int, refused: set<string>,
                             listing: Result<seq<Department>>, e: Directory, r: Result<Outcome>) {
    UniqueKeys(d.rows) &&
    if EmptyOpt(m.userid) then r == Err(EmptyUserId) && e == d
    else if LiveBinding(d.rows, d.accounts, m.userid.value) then
      r == Ok(Updated) && Refreshes(d, m, now, listing, e)
    else Enrols(d, m, now, refused, listing, e, r)
  }

  /** The update branch keeps the keys and the binding. */
  lemma RefreshKeepsBinding(d: Directory, m: Member, now: int, listing: Result<seq<Department>>, e: Directory)
    requires WellFormed(d) && m.userid.Some? && LiveBinding(d.rows, d.accounts, m.userid.value)
    requires Refreshes(d, m, now, listing, e)
    ensures WellFormed(e) && Extends(d, e) && LiveBinding(e.rows, e.accounts, m.userid.value)
  {
    var row := FindByWecomUserId(d.rows, m.userid.value).row;
    var k :| 0 <= k < |d.rows| && d.rows[k] == row;
    assert WellFormed(e) && KeysKept(d.rows, e.rows) by {
      SameKeysUnique(d.rows, e.rows);
    }
    assert Grown(d.groups, e.groups) && e.groups.Keys == d.groups.Keys by {
      JoinedKept(d.groups, e.groups, row.nextcloudUid, JoinedGroups(m, listing));
    }
    assert LiveBinding(e.rows, e.accounts, m.userid.value) by {
      FindStoredWecomUserId(e.rows, k);
    }
  }

  /** Appending a row whose keys are unbound and whose id is fresh keeps
      the keys unique, and binds its remote id. */
  lemma AppendKeepsKeys(rows: seq<MappingRow>, nextId: nat, row: MappingRow)
    requires WellKeyed(rows, nextId) && !Bound(rows, row.wecomUserId, row.nextcloudUid) && row.id == nextId
    ensures WellKeyed(rows + [row], nextId + 1)
    ensures FindByWecomUserId(rows + [row], row.wecomUserId) == Found(row)
  {
    var e := rows + [row];
    forall i, j | 0 <= i < j < |e|
      ensures DistinctKeys(e[i], e[j])
    {
      if j < |rows| {
        assert DistinctKeys(rows[i], rows[j]);
      } else {
        assert rows[i].id < nextId;
      }
    }
    FindStoredWecomUserId(e, |rows|);
  }

  /** The create branch keeps the keys well formed and only extends the
      state; when it succeeds the new binding is live. */
  lemma EnrolKeepsBinding(d: Directory, m: Member, now: int, refused: set<string>,
                          listing: Result<seq<Department>>, e: Directory, r: Result<Outcome>)
    requires WellFormed(d) && m.userid.Some? && Enrols(d, m, now, refused, listing, e, r)
    ensures WellFormed(e) && Extends(d, e)
    ensures r.Ok? ==> LiveBinding(e.rows, e.accounts, m.userid.value)
  {
    var w := m.userid.value;
    var u := NewUsername(w, now, d.accounts);
    if u !in d.accounts && u !in refused {
      JoinedKept(d.groups, e.groups, u, JoinedGroups(m, listing));
      if !Bound(d.rows, w, u) {
        AppendKeepsKeys(d.rows, d.nextId, NewMapping(w, u, m, now, 0).(id := d.nextId));
      }
    }
  }

  /** One member's sync keeps the table well formed and only extends the
      state; when it succeeds, the member is left with a live binding, so
      the next sync of it is an update. */
  lemma MemberStepKeeps(d: Directory, m: Member, now: int, refused: set<string>,
                        listing: Result<seq<Department>>, e: Directory, r: Result<Outcome>)
    requires WellFormed(d) && MemberStep(d, m, now, refused, listing, e, r)
    ensures WellFormed(e) && Extends(d, e)
    ensures r.Ok? ==> !EmptyOpt(m.userid) && LiveBinding(e.rows, e.accounts, m.userid.value)
  {
    if !EmptyOpt(m.userid) {
      if LiveBinding(d.rows, d.accounts, m.userid.value) {
        RefreshKeepsBinding(d, m, now, listing, e);
      } else {
        EnrolKeepsBinding(d, m, now, refused, listing, e, r);
      }
    }
  }

  /** The member loop of `syncUsers` over one department's members:
      `dirs[k]` is the state before the k-th member and `outcomes[k]` what
      its sync reported. */
  ghost predicate Chain(dirs: seq<Directory>, members: seq<Member>, now: int, refused: set<string>,
                        listing: Result<seq<Department>>, outcomes: seq<Result<Outcome>>) {
    |dirs| == |members| + 1 && |outcomes| == |members| &&
    forall k :: 0 <= k < |members| ==> StepAt(dirs, members, now, refused, listing, outcomes, k)
  }

  /** The k-th step of the member loop. */
  ghost predicate StepAt(dirs: seq<Directory>, members: seq<Member>, now: int, refused: set<string>,
                         listing: Result<seq<Department>>, outcomes: seq<Result<Outcome>>, k: int) {
    0 <= k < |members| && k + 1 < |dirs| && k < |outcomes| &&
    MemberStep(dirs[k], members[k], now, refused, listing, dirs[k + 1], outcomes[k])
  }

  /** The member loop over the first `j` members. */
  ghost predicate ChainTo(dirs: seq<Directory>, members: seq<Member>, now: int, refused: set<string>,
                          listing: Result<seq<Department>>, outcomes: seq<Result<Outcome>>, j: nat) {
    j <= |members| && |dirs| == j + 1 && |outcomes| == j &&
    forall k :: 0 <= k < j ==> StepAt(dirs, members, now, refused, listing, outcomes, k)
  }

  /** The loop one member further. */
  lemma ChainStep(dirs: seq<Directory>, members: seq<Member>, j: nat, now: int, refused: set<string>,
                  listing: Result<seq<Department>>, outcomes: seq<Result<Outcome>>, e: Directory, o: Result<Outcome>)
    requires j < |members| && ChainTo(dirs, members, now, refused, listing, outcomes, j)
    requires MemberStep(dirs[j], members[j], now, refused, listing, e, o)
    ensures ChainTo(dirs + [e], members, now, refused, listing, outcomes + [o], j + 1)
  {
    var dirs', outcomes' := dirs + [e], outcomes + [o];
    forall k | 0 <= k < j + 1
      ensures StepAt(dirs', members, now, refused, listing, outcomes', k)
    {
      if k < j {
        assert StepAt(dirs, members, now, refused, listing, outcomes, k);
        assert dirs'[k] == dirs[k] && dirs'[k + 1] == dirs[k + 1] && outcomes'[k] == outcomes[k];
      }
    }
  }

  /** The loop over the first members only. */
  lemma ChainPrefix(dirs: seq<Directory>, members: seq<Member>, now: int, refused: set<string>,
                    listing: Result<seq<Department>>, outcomes: seq<Result<Outcome>>, n: nat)
    requires Chain(dirs, members, now, refused, listing, outcomes) && n <= |members|
    ensures Chain(dirs[..n + 1], members[..n], now, refused, listing, outcomes[..n])
  {
    var ds, ms, os := dirs[..n + 1], members[..n], outcomes[..n];
    forall k | 0 <= k < n
      ensures StepAt(ds, ms, now, refused, listing, os, k)
    {
      assert StepAt(dirs, members, now, refused, listing, outcomes, k);
      assert ds[k] == dirs[k] && ds[k + 1] == dirs[k + 1];
      assert ms[k] == members[k] && os[k] == outcomes[k];
    }
  }

  function MemberError(m: Member, e: string): string {
    "Failed to sync user " + m.userid.GetOr("unknown") + ": " + e
  }

  /** The counters and errors of the member loop, from the members'
      outcomes in order: a success is counted as created or updated, a
      failure adds its message. */
  function Tally(members: seq<Member>, outcomes: seq<Result<Outcome>>): (r: UserResult)
    requires |outcomes| == |members|
    ensures r.created + r.updated == r.total && r.total + |r.errors| == |members|
    ensures r.errors == [] <==> forall k :: 0 <= k < |outcomes| ==> outcomes[k].Ok?
    ensures (forall k :: 0 <= k < |outcomes| ==> outcomes[k] == Ok(Updated)) ==>
              r == UserResult(|members|, 0, |members|, [])
    decreases |members|
  {
    if members == [] then UserResult(0, 0, 0, [])
    else
      var n := |members| - 1;
      var prev := Tally(members[..n], outcomes[..n]);
      assert forall k :: 0 <= k < n ==> outcomes[..n][k] == outcomes[k];
      Counted(prev, members[n], outcomes[n])
  }

  /** The counters after one more member: a success counts as created or
      updated, a failure adds its message. */
  function Counted(prev: UserResult, m: Member, o: Result<Outcome>): (r: UserResult)
    ensures o.Ok? ==> r.total == prev.total + 1 && r.errors == prev.errors
    ensures o == Ok(Created) ==> r.created == prev.created + 1 && r.updated == prev.updated
    ensures o == Ok(Updated) ==> r.created == prev.created && r.updated == prev.updated + 1
    ensures o.Err? ==> r.errors == prev.errors + [MemberError(m, o.error)] &&
                       r.total == prev.total && r.created == prev.created && r.updated == prev.updated
  {
    match o
    case Ok(Created) => prev.(total := prev.total + 1, created := prev.created + 1)
    case Ok(Updated) => prev.(total := prev.total + 1, updated := prev.updated + 1)
    case Err(e) => prev.(errors := prev.errors + [MemberError(m, e)])
  }

  /** The counters one member further. */
  lemma TallySnoc(members: seq<Member>, j: nat, outcomes: seq<Result<Outcome>>, o: Result<Outcome>)
    requires j < |members| && |outcomes| == j
    ensures Tally(members[..j + 1], outcomes + [o]) == Counted(Tally(members[..j], outcomes), members[j], o)
  {
    assert members[..j + 1][..j] == members[..j] && (outcomes + [o])[..j] == outcomes;
  }

  lemma ExtendsTransitive(a: Directory, b: Directory, c: Directory)
    requires Extends(a, b) && Extends(b, c)
    ensures Extends(a, c)
  {
  }

  /** Along the member loop the table stays well formed and the state only
      extends. */
  lemma {:induction false} ChainExtends(dirs: seq<Directory>, members: seq<Member>, now: int, refused: set<string>,
                                        listing: Result<seq<Department>>, outcomes: seq<Result<Outcome>>)
    requires Chain(dirs, members, now, refused, listing, outcomes) && WellFormed(dirs[0])
    ensures forall k :: 0 <= k < |dirs| ==> WellFormed(dirs[k]) && Extends(dirs[0], dirs[k])
    decreases |members|
  {
    if members != [] {
      var n := |members| - 1;
      var ds := dirs[..n + 1];
      assert forall k :: 0 <= k < |ds| ==> WellFormed(ds[k]) && Extends(ds[0], ds[k]) by {
        ChainPrefix(dirs, members, now, refused, listing, outcomes, n);
        ChainExtends(ds, members[..n], now, refused, listing, outcomes[..n]);
      }
      assert forall k :: 0 <= k <= n ==> ds[k] == dirs[k];
      assert WellFormed(dirs[n + 1]) && Extends(dirs[0], dirs[n + 1]) by {
        assert StepAt(dirs, members, now, refused, listing, outcomes, n);
        MemberStepKeeps(dirs[n], members[n], now, refused, listing, dirs[n + 1], outcomes[n]);
        ExtendsTransitive(dirs[0], dirs[n], dirs[n + 1]);
      }
    }
  }

  /** Every member whose sync succeeded ends the loop with a live
      binding. */
  lemma ChainLive(dirs: seq<Directory>, members: seq<Member>, now: int, refused: set<string>,
                  listing: Result<seq<Department>>, outcomes: seq<Result<Outcome>>)
    requires Chain(dirs, members, now, refused, listing, outcomes) && WellFormed(dirs[0])
    ensures WellFormed(dirs[|members|]) && Extends(dirs[0], dirs[|members|])
    ensures forall k :: 0 <= k < |outcomes| && outcomes[k].Ok? ==>
      !EmptyOpt(members[k].userid) && LiveBinding(dirs[|members|].rows, dirs[|members|].accounts, members[k].userid.value)
  {
    ChainExtends(dirs, members, now, refused, listing, outcomes);
    ChainLiveUpTo(dirs, members, now, refused, listing, outcomes, |members|);
  }

  /** After the first `j` members the table is well formed, and every one
      of them whose sync succeeded has a live binding in `dirs[j]`. */
  ghost predicate LiveUpTo(dirs: seq<Directory>, members: seq<Member>, outcomes: seq<Result<Outcome>>, j: nat) {
    j < |dirs| && j <= |members| && j <= |outcomes| && WellFormed(dirs[j]) &&
    forall k :: 0 <= k < j && outcomes[k].Ok? ==>
      !EmptyOpt(members[k].userid) && LiveBinding(dirs[j].rows, dirs[j].accounts, members[k].userid.value)
  }

  /** The member loop, `j` steps in: the members synced so far with
      success are live. */
  lemma {:induction false} ChainLiveUpTo(dirs: seq<Directory>, members: seq<Member>, now: int, refused: set<string>,
                                         listing: Result<seq<Department>>, outcomes: seq<Result<Outcome>>, j: nat)
    requires Chain(dirs, members, now, refused, listing, outcomes) && WellFormed(dirs[0]) && j <= |members|
    ensures LiveUpTo(dirs, members, outcomes, j)
    decreases j
  {
    if j > 0 {
      ChainLiveUpTo(dirs, members, now, refused, listing, outcomes, j - 1);
      assert MemberStep(dirs[j - 1], members[j - 1], now, refused, listing, dirs[j], outcomes[j - 1]) by {
        assert StepAt(dirs, members, now, refused, listing, outcomes, j - 1);
      }
      StepLive(dirs[j - 1], dirs[j], members, now, refused, listing, outcomes, j - 1);
    }
  }

  /** The member loop one step further: the new state is well formed and
      the members live before, and the member just synced if it
      succeeded, are live in it. */
  lemma StepLive(d: Directory, e: Directory, members: seq<Member>, now: int, refused: set<string>,
                 listing: Result<seq<Department>>, outcomes: seq<Result<Outcome>>, n: nat)
    requires n < |members| && n < |outcomes| && WellFormed(d)
    requires MemberStep(d, members[n], now, refused, listing, e, outcomes[n])
    requires forall k :: 0 <= k < n && outcomes[k].Ok? ==>
      !EmptyOpt(members[k].userid) && LiveBinding(d.rows, d.accounts, members[k].userid.value)
    ensures WellFormed(e)
    ensures forall k :: 0 <= k < n + 1 && outcomes[k].Ok? ==>
      !EmptyOpt(members[k].userid) && LiveBinding(e.rows, e.accounts, members[k].userid.value)
  {
    MemberStepKeeps(d, members[n], now, refused, listing, e, outcomes[n]);
    StaysLive(d, e, members, outcomes, n);
  }

  /** Among the first `n` members, those with a live binding in `d` keep
      it in a state that extends `d`. */
  lemma StaysLive(d: Directory, e: Directory, members: seq<Member>, outcomes: seq<Result<Outcome>>, n: nat)
    requires WellFormed(d) && WellFormed(e) && Extends(d, e) && n <= |members| && n <= |outcomes|
    requires forall k :: 0 <= k < n && outcomes[k].Ok? ==>
      !EmptyOpt(members[k].userid) && LiveBinding(d.rows, d.accounts, members[k].userid.value)
    ensures forall k :: 0 <= k < n && outcomes[k].Ok? ==>
      !EmptyOpt(members[k].userid) && LiveBinding(e.rows, e.accounts, members[k].userid.value)
  {
    forall k | 0 <= k < n && outcomes[k].Ok?
      ensures LiveBinding(e.rows, e.accounts, members[k].userid.value)
    {
      LiveBindingKept(d, e, members[k].userid.value);
    }
  }

  /** When every member already has a live binding, the member loop
      creates nothing and updates every member. */
  lemma ChainRerun(dirs: seq<Directory>, members: seq<Member>, now: int, refused: set<string>,
                   listing: Result<seq<Department>>, outcomes: seq<Result<Outcome>>)
    requires Chain(dirs, members, now, refused, listing, outcomes) && WellFormed(dirs[0])
    requires forall k :: 0 <= k < |members| ==>
      !EmptyOpt(members[k].userid) && LiveBinding(dirs[0].rows, dirs[0].accounts, members[k].userid.value)
    ensures forall k :: 0 <= k < |outcomes| ==> outcomes[k] == Ok(Updated)
    ensures Tally(members, outcomes) == UserResult(|members|, 0, |members|, [])
  {
    ChainExtends(dirs, members, now, refused, listing, outcomes);
    forall k | 0 <= k < |outcomes|
      ensures outcomes[k] == Ok(Updated)
    {
      LiveBindingKept(dirs[0], dirs[k], members[k].userid.value);
      assert StepAt(dirs, members, now, refused, listing, outcomes, k);
    }
  }

  /** Syncing the same members again after a loop with no error, whatever
      the clock and the listing say then, creates nothing and updates
      every member. */
  lemma SecondPassUpdatesAll(dirs1: seq<Directory>, dirs2: seq<Directory>, members: seq<Member>,
                             now1: int, now2: int, refused: set<string>,
                             listing1: Result<seq<Department>>, listing2: Result<seq<Department>>,
                             outcomes1: seq<Result<Outcome>>, outcomes2: seq<Result<Outcome>>)
    requires Chain(dirs1, members, now1, refused, listing1, outcomes1) && WellFormed(dirs1[0])
    requires Tally(members, outcomes1).errors == []
    requires Chain(dirs2, members, now2, refused, listing2, outcomes2) && dirs2[0] == dirs1[|members|]
    ensures Tally(members, outcomes2) == UserResult(|members|, 0, |members|, [])
  {
    ChainLive(dirs1, members, now1, refused, listing1, outcomes1);
    ChainRerun(dirs2, members, now2, refused, listing2, outcomes2);
  }

  // ------------------------------------------------------- syncUsers runs

  /** What `syncUsers` did for one configured department: its member
      listing failed, or its members went through the member loop. */
  datatype DepartmentRun =
    | Unlisted(error: string)
    | Listed(members: seq<Member>, dirs: seq<Directory>, outcomes: seq<Result<Outcome>>)

  predicate RunsShaped(runs: seq<DepartmentRun>) {
    forall i :: 0 <= i < |runs| && runs[i].Listed? ==> |runs[i].outcomes| == |runs[i].members|
  }

  /** One department of `syncUsers` from state `d` to state `e`, given
      what its member listing returned. */
  ghost predicate RunStep(run: DepartmentRun, listed: Result<seq<Member>>, now: int, refused: set<string>,
                          listing: Result<seq<Department>>, d: Directory, e: Directory) {
    match listed
    case Err(err) => run == Unlisted(err) && e == d
    case Ok(ms) =>
      run.Listed? && run.members == ms && Chain(run.dirs, ms, now, refused, listing, run.outcomes) &&
      run.dirs[0] == d && run.dirs[|ms|] == e
  }

  /** `syncUsers` over the departments `ids`, the member listings and the
      department listing all taken from the cache `entries`: `marks[i]`
      is the state before the i-th department. */
  ghost predicate UsersRun(v: Settings, entries: map<string, CacheEntry>, remote: Provider, md5: string -> string,
                           now: int, refused: set<string>, ids: seq<string>, runs: seq<DepartmentRun>,
                           marks: seq<Directory>) {
    |runs| == |ids| && |marks| == |ids| + 1 && RunsShaped(runs) &&
    forall i :: 0 <= i < |ids| ==> DepartmentAt(v, entries, remote, md5, now, refused, ids, runs, marks, i)
  }

  /** The i-th department of `syncUsers`. */
  ghost predicate DepartmentAt(v: Settings, entries: map<string, CacheEntry>, remote: Provider,
                               md5: string -> string, now: int, refused: set<string>, ids: seq<string>,
                               runs: seq<DepartmentRun>, marks: seq<Directory>, i: int) {
    0 <= i < |ids| && i < |runs| && i + 1 < |marks| &&
    RunStep(runs[i], MemberListing(v, entries, remote, md5, now, StringToInt(ids[i]), false), now, refused,
            DepartmentListing(v, entries, remote, md5, now, None), marks[i], marks[i + 1])
  }

  /** `syncUsers` one department further. */
  lemma UsersRunSnoc(v: Settings, entries: map<string, CacheEntry>, remote: Provider, md5: string -> string,
                     now: int, refused: set<string>, ids: seq<string>, i: nat, runs: seq<DepartmentRun>,
                     marks: seq<Directory>, run: DepartmentRun, e: Directory)
    requires i < |ids| && UsersRun(v, entries, remote, md5, now, refused, ids[..i], runs, marks)
    requires RunStep(run, MemberListing(v, entries, remote, md5, now, StringToInt(ids[i]), false), now, refused,
                     DepartmentListing(v, entries, remote, md5, now, None), marks[i], e)
    ensures UsersRun(v, entries, remote, md5, now, refused, ids[..i + 1], runs + [run], marks + [e])
  {
    var ids', runs', marks' := ids[..i + 1], runs + [run], marks + [e];
    forall j | 0 <= j < |ids'|
      ensures DepartmentAt(v, entries, remote, md5, now, refused, ids', runs', marks', j)
    {
      if j < i {
        assert DepartmentAt(v, entries, remote, md5, now, refused, ids[..i], runs, marks, j);
        assert ids'[j] == ids[..i][j] && runs'[j] == runs[j] && marks'[j] == marks[j] && marks'[j + 1] == marks[j + 1];
      }
    }
    assert forall j :: 0 <= j < |runs| ==> runs'[j] == runs[j];
  }

  /** `syncUsers` over the first departments only. */
  lemma UsersRunPrefix(v: Settings, entries: map<string, CacheEntry>, remote: Provider, md5: string -> string,
                       now: int, refused: set<string>, ids: seq<string>, runs: seq<DepartmentRun>,
                       marks: seq<Directory>, n: nat)
    requires UsersRun(v, entries, remote, md5, now, refused, ids, runs, marks) && n <= |ids|
    ensures UsersRun(v, entries, remote, md5, now, refused, ids[..n], runs[..n], marks[..n + 1])
  {
    var ids', runs', marks' := ids[..n], runs[..n], marks[..n + 1];
    forall i | 0 <= i < n
      ensures DepartmentAt(v, entries, remote, md5, now, refused, ids', runs', marks', i)
    {
      assert DepartmentAt(v, entries, remote, md5, now, refused, ids, runs, marks, i);
      assert ids'[i] == ids[i] && runs'[i] == runs[i] && marks'[i] == marks[i] && marks'[i + 1] == marks[i + 1];
    }
    assert forall i :: 0 <= i < n ==> runs'[i] == runs[i];
  }

  function ListingError(departmentId: int, e: string): string {
    "Failed to get users for department " + IntToString(departmentId) + ": " + e
  }

  /** The counters and errors of `syncUsers`, department by department in
      order: a failed listing adds its message, a listed department adds
      its member loop's counters and errors. */
  function TallyRuns(ids: seq<string>, runs: seq<DepartmentRun>): (r: UserResult)
    requires |ids| == |runs| && RunsShaped(runs)
    ensures r.created + r.updated == r.total
    ensures r.errors == [] ==>
              forall i :: 0 <= i < |runs| ==> runs[i].Listed? && Tally(runs[i].members, runs[i].outcomes).errors == []
    decreases |runs|
  {
    if runs == [] then UserResult(0, 0, 0, [])
    else
      var n := |runs| - 1;
      assert RunsShaped(runs[..n]) by {
        assert forall i :: 0 <= i < n ==> runs[..n][i] == runs[i];
      }
      var prev := TallyRuns(ids[..n], runs[..n]);
      assert forall i :: 0 <= i < n ==> runs[..n][i] == runs[i];
      Plus(prev, RunTally(StringToInt(ids[n]), runs[n]))
  }

  /** What one department adds to the counters of `syncUsers`: a failed
      listing one error, a listed department its member loop's counters
      and errors. */
  function RunTally(departmentId: int, run: DepartmentRun): (r: UserResult)
    requires run.Listed? ==> |run.outcomes| == |run.members|
    ensures r.created + r.updated == r.total
    ensures r.errors == [] <==> run.Listed? && Tally(run.members, run.outcomes).errors == []
  {
    match run
    case Unlisted(e) => UserResult(0, 0, 0, [ListingError(departmentId, e)])
    case Listed(ms, _, os) => Tally(ms, os)
  }

  /** The counters of `syncUsers` one department further. */
  lemma TallyRunsSnoc(ids: seq<string>, i: nat, runs: seq<DepartmentRun>, run: DepartmentRun)
    requires i < |ids| && i == |runs| && RunsShaped(runs) && (run.Listed? ==> |run.outcomes| == |run.members|)
    ensures TallyRuns(ids[..i + 1], runs + [run]) == Plus(TallyRuns(ids[..i], runs), RunTally(StringToInt(ids[i]), run))
  {
    assert RunsShaped(runs + [run]);
    assert ids[..i + 1][..i] == ids[..i] && (runs + [run])[..i] == runs;
  }

  /** Along `syncUsers` the table stays well formed and the state only
      extends; every member whose sync succeeded ends with a live
      binding. */
  lemma {:induction false} UsersRunKeeps(v: Settings, entries: map<string, CacheEntry>, remote: Provider,
                                         md5: string -> string, now: int, refused: set<string>, ids: seq<string>,
                                         runs: seq<DepartmentRun>, marks: seq<Directory>)
    requires UsersRun(v, entries, remote, md5, now, refused, ids, runs, marks) && WellFormed(marks[0])
    ensures WellFormed(marks[|ids|]) && Extends(marks[0], marks[|ids|])
    ensures SucceededLive(runs, marks[|ids|])
    decreases |ids|
  {
    if ids != [] {
      var n := |ids| - 1;
      var listing := DepartmentListing(v, entries, remote, md5, now, None);
      UsersRunPrefix(v, entries, remote, md5, now, refused, ids, runs, marks, n);
      var ids', runs', marks' := ids[..n], runs[..n], marks[..n + 1];
      UsersRunKeeps(v, entries, remote, md5, now, refused, ids', runs', marks');
      assert marks'[n] == marks[n] && marks'[0] == marks[0];
      assert DepartmentAt(v, entries, remote, md5, now, refused, ids, runs, marks, n);
      var listed := MemberListing(v, entries, remote, md5, now, StringToInt(ids[n]), false);
      if listed.Ok? {
        ChainLive(runs[n].dirs, listed.value, now, refused, listing, runs[n].outcomes);
        LiveAcross(marks[n], marks[n + 1], runs', marks'[n]);
      }
      ExtendsTransitive(marks[0], marks[n], marks[n + 1]);
      forall i, k | 0 <= i < |runs| && runs[i].Listed? && 0 <= k < |runs[i].outcomes| && runs[i].outcomes[k].Ok?
        ensures LiveAt(runs, marks[n + 1], i, k)
      {
        if i < n {
          assert runs'[i] == runs[i];
          assert LiveAt(runs', marks[n + 1], i, k);
        }
      }
    }
  }

  /** The k-th member of the i-th department has a live binding in `d`. */
  ghost predicate LiveAt(runs: seq<DepartmentRun>, d: Directory, i: int, k: int) {
    0 <= i < |runs| && runs[i].Listed? && 0 <= k < |runs[i].members| && UniqueKeys(d.rows) &&
    !EmptyOpt(runs[i].members[k].userid) && LiveBinding(d.rows, d.accounts, runs[i].members[k].userid.value)
  }

  /** Every member whose sync succeeded in `runs` has a live binding in
      `d`. */
  ghost predicate SucceededLive(runs: seq<DepartmentRun>, d: Directory) {
    forall i, k :: 0 <= i < |runs| && runs[i].Listed? && 0 <= k < |runs[i].outcomes| && runs[i].outcomes[k].Ok? ==>
      LiveAt(runs, d, i, k)
  }

  /** The members live after the first departments stay live across the
      next one. */
  lemma LiveAcross(d: Directory, e: Directory, runs: seq<DepartmentRun>, mark: Directory)
    requires WellFormed(d) && WellFormed(e) && Extends(d, e) && mark == d
    requires SucceededLive(runs, d)
    ensures SucceededLive(runs, e)
  {
    forall i, k | 0 <= i < |runs| && runs[i].Listed? && 0 <= k < |runs[i].outcomes| && runs[i].outcomes[k].Ok?
      ensures LiveAt(runs, e, i, k)
    {
      assert LiveAt(runs, d, i, k);
      LiveBindingKept(d, e, runs[i].members[k].userid.value);
    }
  }

  // ------------------------------------------------------------- fullSync

  /** What `syncDepartments` reports and the group table it leaves, given
      the department listing it reads. */
  function DepartmentsPass(l: Result<seq<Department>>, members: map<string, set<string>>, refused: set<string>)
    : (p: (DepartmentResult, map<string, set<string>>))
    ensures l.Err? ==> p.0 == DepartmentResult(0, 0, ["Failed to get departments: " + l.error]) && p.1 == members
    ensures l.Ok? ==> p.0.total == |l.value| && p.0.created + |p.0.errors| == |l.value|
    ensures Grown(members, p.1)
  {
    if l.Err? then (DepartmentResult(0, 0, ["Failed to get departments: " + l.error]), members)
    else
      var s := ApplyDepartments(members, refused, l.value);
      ApplyGrows(members, refused, l.value);
      (DepartmentResult(|l.value|, s.created, s.errors), s.members)
  }

  /** `fullSync` from state `d` to state `e`: an unconfigured application
      fails with no change; otherwise the department pass, then the user
      pass from the groups it left, every remote call answered from the
      token the run starts with. Department errors come first. */
  ghost predicate FullSyncRun(v: Settings, api: Settings, entries: map<string, CacheEntry>, remote: Provider,
                              md5: string -> string, now: int, userRefused: set<string>, groupRefused: set<string>,
                              d: Directory, runs: seq<DepartmentRun>, marks: seq<Directory>, e: Directory,
                              r: SyncResult) {
    if !IsConfigured(v) then
      r == SyncResult(false, 0, 0, 0, 0, 0, [ConfigInvalid], "Sync failed: " + ConfigInvalid) && e == d
    else
      var pass := DepartmentsPass(DepartmentListing(api, entries, remote, md5, now, None), d.groups, groupRefused);
      var departments := pass.0;
      var ids := SyncDepartmentIds(v);
      UsersRun(api, entries, remote, md5, now, userRefused, ids, runs, marks) &&
      marks[0] == d.(groups := pass.1) && marks[|ids|] == e &&
      var users := TallyRuns(ids, runs);
      r == SyncResult(true, users.total, users.created, users.updated, departments.total, departments.created,
                      departments.errors + users.errors, SummaryMessage(users, departments))
  }

  /** A full sync keeps the table well formed and removes nothing: rows
      keep their ids and keys, accounts and groups stay, nobody leaves a
      group. It succeeds exactly when the application is configured, and
      its counters add up. */
  lemma FullSyncKeeps(v: Settings, api: Settings, entries: map<string, CacheEntry>, remote: Provider,
                      md5: string -> string, now: int, userRefused: set<string>, groupRefused: set<string>,
                      d: Directory, runs: seq<DepartmentRun>, marks: seq<Directory>, e: Directory, r: SyncResult)
    requires WellFormed(d)
    requires FullSyncRun(v, api, entries, remote, md5, now, userRefused, groupRefused, d, runs, marks, e, r)
    ensures WellFormed(e) && KeysKept(d.rows, e.rows) && d.accounts.Keys <= e.accounts.Keys && Grown(d.groups, e.groups)
    ensures r.success <==> IsConfigured(v)
    ensures r.createdUsers + r.updatedUsers == r.totalUsers && r.createdGroups <= r.totalDepartments
    ensures r.success ==>
      r.message == SummaryMessage(UserResult(r.totalUsers, r.createdUsers, r.updatedUsers, []),
                                  DepartmentResult(r.totalDepartments, r.createdGroups, []))
  {
    if IsConfigured(v) {
      var ids := SyncDepartmentIds(v);
      UsersRunKeeps(api, entries, remote, md5, now, userRefused, ids, runs, marks);
    }
  }

  /** A full sync in which nothing failed leaves every member it saw with
      a live binding, so the next full sync creates no account for them. */
  lemma FullSyncBindsMembers(v: Settings, api: Settings, entries: map<string, CacheEntry>, remote: Provider,
                             md5: string -> string, now: int, userRefused: set<string>, groupRefused: set<string>,
                             d: Directory, runs: seq<DepartmentRun>, marks: seq<Directory>, e: Directory,
                             r: SyncResult)
    requires WellFormed(d)
    requires FullSyncRun(v, api, entries, remote, md5, now, userRefused, groupRefused, d, runs, marks, e, r)
    requires r.success && r.errors == []
    ensures WellFormed(e)
    ensures forall i, k :: 0 <= i < |runs| && 0 <= k < |runs[i].members| ==>
      !EmptyOpt(runs[i].members[k].userid) && LiveBinding(e.rows, e.accounts, runs[i].members[k].userid.value)
  {
    var ids := SyncDepartmentIds(v);
    assert TallyRuns(ids, runs).errors == [] by {
      var pass := DepartmentsPass(DepartmentListing(api, entries, remote, md5, now, None), d.groups, groupRefused);
      assert |r.errors| == |pass.0.errors| + |TallyRuns(ids, runs).errors|;
    }
    assert WellFormed(e) && SucceededLive(runs, e) by {
      UsersRunKeeps(api, entries, remote, md5, now, userRefused, ids, runs, marks);
    }
    ErrorFreeRunsBind(ids, runs, e);
  }

  /** When `syncUsers` reported no error, every department was listed and
      every member's sync succeeded, so each member is live wherever the
      successful ones are. */
  lemma ErrorFreeRunsBind(ids: seq<string>, runs: seq<DepartmentRun>, e: Directory)
    requires |ids| == |runs| && RunsShaped(runs) && TallyRuns(ids, runs).errors == [] && SucceededLive(runs, e)
    ensures forall i :: 0 <= i < |runs| ==> runs[i].Listed?
    ensures forall i, k :: 0 <= i < |runs| && 0 <= k < |runs[i].members| ==>
      !EmptyOpt(runs[i].members[k].userid) && LiveBinding(e.rows, e.accounts, runs[i].members[k].userid.value)
  {
    forall i, k | 0 <= i < |runs| && 0 <= k < |runs[i].members|
      ensures !EmptyOpt(runs[i].members[k].userid) && LiveBinding(e.rows, e.accounts, runs[i].members[k].userid.value)
    {
      assert Tally(runs[i].members, runs[i].outcomes).errors == [];
      assert runs[i].outcomes[k].Ok?;
      assert LiveAt(runs, e, i, k);
    }
  }

  class SyncService {
    const config: AppConfig
    const api: WeComApiService
    const mappings: MappingTable
    const users: UserDirectory
    const groups: GroupDirectory

    constructor(config: AppConfig, api: WeComApiService, mappings: MappingTable, users: UserDirectory,
                groups: GroupDirectory)
      ensures this.config == config && this.api == api && this.mappings == mappings
      ensures this.users == users && this.groups == groups
    {
      this.config := config;
      this.api := api;
      this.mappings := mappings;
      this.users := users;
      this.groups := groups;
    }

    /** The state the sync writes, as one value. */
    ghost function Dir(): Directory
      reads mappings, users, groups
    {
      Directory(mappings.rows, mappings.nextId, users.accounts, users.order, groups.members)
    }

    /** How the token lookup would turn out now. */
    ghost function Token(now: int): TokenStep
      reads api.config, api.cache
    {
      FetchToken(api.config.values, api.cache.entries, api.remote, api.md5, now)
    }

    /** The department listing `updateUserGroups` would read now. */
    ghost function Listing(now: int): Result<seq<Department>>
      reads api.config, api.cache
    {
      DepartmentListing(api.config.values, api.cache.entries, api.remote, api.md5, now, None)
    }

    // -------------------------------------------------------- departments

    /** `syncDepartment`: creates the group of a named department unless it
        exists; the error is the one `createGroup` raises. */
    method SyncDepartment(d: Department) returns (err: Option<string>)
      modifies groups
      ensures var r := DepartmentGroup(old(groups.members), groups.refused, d);
              (r.Ok? ==> err == None && groups.members == r.value) &&
              (r.Err? ==> err == Some(r.error) && groups.members == old(groups.members))
    {
      var name := d.name;
      if EmptyOpt(name) {
        return None;
      }
      err := None;
      if name.value !in groups.members {
        err := groups.CreateGroup(name.value);
      }
    }

    /** The department loop of `syncDepartments`. */
    method SyncListedDepartments(ds: seq<Department>) returns (created: nat, errors: seq<string>)
      modifies groups
      ensures GroupStep(groups.members, created, errors) == ApplyDepartments(old(groups.members), groups.refused, ds)
    {
      ghost var before := groups.members;
      created := 0;
      errors := [];
      var i := 0;
      while i < |ds|
        invariant 0 <= i <= |ds|
        invariant ApplyDepartments(before, groups.refused, ds[..i]) == GroupStep(groups.members, created, errors)
      {
        assert ds[..i + 1][..i] == ds[..i] && ds[..i + 1][i] == ds[i];
        var err := SyncDepartment(ds[i]);
        if err.None? {
          created := created + 1;
        } else {
          errors := errors + [DepartmentError(ds[i], err.value)];
        }
        i := i + 1;
      }
      assert ds[..|ds|] == ds;
    }

    /** `syncDepartments`. */
    method SyncDepartments(now: int) returns (r: DepartmentResult)
      modifies groups, api.cache
      ensures api.cache.entries == FetchToken(api.config.values, old(api.cache.entries), api.remote, api.md5, now).entries
      ensures (r, groups.members) == DepartmentsPass(old(Listing(now)), old(groups.members), groups.refused)
    {
      var listed := api.GetDepartmentList(None, now);
      if listed.Err? {
        return DepartmentResult(0, 0, ["Failed to get departments: " + listed.error]);
      }
      var created, errors := SyncListedDepartments(listed.value);
      r := DepartmentResult(|listed.value|, created, errors);
    }

    // -------------------------------------------------------------- users

    /** The id-to-name map `updateUserGroups` builds from the listing. */
    method DepartmentMap(ds: seq<Department>) returns (dm: map<int, Option<string>>)
      ensures forall id :: DeptName(ds, id) == if id in dm then dm[id] else None
    {
      dm := map[];
      var i := 0;
      while i < |ds|
        invariant 0 <= i <= |ds|
        invariant forall id :: DeptName(ds[..i], id) == if id in dm then dm[id] else None
      {
        assert ds[..i + 1][..i] == ds[..i] && ds[..i + 1][i] == ds[i];
        dm := dm[ds[i].id := ds[i].name];
        i := i + 1;
      }
      assert ds[..|ds|] == ds;
    }

    /** The membership loop of `updateUserGroups`. */
    method JoinGroups(uid: string, departmentIds: seq<int>, ds: seq<Department>, dm: map<int, Option<string>>)
      requires forall id :: DeptName(ds, id) == if id in dm then dm[id] else None
      modifies groups
      ensures Joined(old(groups.members), groups.members, uid, GroupsFor(ds, departmentIds))
    {
      var j := 0;
      assert departmentIds[..0] == [];
      assert GroupsFor(ds, departmentIds[..0]) == {};
      assert Joined(old(groups.members), groups.members, uid, GroupsFor(ds, departmentIds[..0]));
      while j < |departmentIds|
        invariant 0 <= j <= |departmentIds|
        invariant Joined(old(groups.members), groups.members, uid, GroupsFor(ds, departmentIds[..j]))
      {
        var deptId := departmentIds[j];
        GroupsForSnoc(ds, departmentIds, j);
        ghost var mid := groups.members;
        if deptId in dm && dm[deptId].Some? {
          var groupName := dm[deptId].value;
          if groupName in groups.members && uid !in groups.members[groupName] {
            groups.AddUser(groupName, uid);
          }
        }
        assert DeptName(ds, deptId) == if deptId in dm then dm[deptId] else None;
        JoinedAdd(old(groups.members), mid, groups.members, uid, GroupsFor(ds, departmentIds[..j]),
                  DeptName(ds, deptId));
        j := j + 1;
        assert Joined(old(groups.members), groups.members, uid, GroupsFor(ds, departmentIds[..j]));
      }
      assert departmentIds[..|departmentIds|] == departmentIds;
    }

    /** `updateUserGroups`: adds the account to the existing group of each
        of its departments; an unreachable listing changes nothing. */
    method UpdateUserGroups(uid: string, departmentIds: seq<int>, now: int)
      modifies groups, api.cache
      ensures api.cache.entries == FetchToken(api.config.values, old(api.cache.entries), api.remote, api.md5, now).entries
      ensures Token(now) == old(Token(now))
      ensures var l := old(Listing(now));
              Joined(old(groups.members), groups.members, uid, if l.Ok? then GroupsFor(l.value, departmentIds) else {})
    {
      TokenSettles(api.config.values, api.cache.entries, api.remote, api.md5, now);
      var listed := api.GetDepartmentList(None, now);
      if listed.Err? {
        return;
      }
      var dm := DepartmentMap(listed.value);
      JoinGroups(uid, departmentIds, listed.value, dm);
    }

    /** `updateUser`: name and address when PHP-truthy, groups when the
        member lists departments. */
    method UpdateUser(uid: string, m: Member, now: int)
      requires uid in users.accounts
      modifies users, groups, api.cache
      ensures users.accounts == old(users.accounts)[uid := Profiled(old(users.accounts)[uid], m)]
      ensures users.order == old(users.order)
      ensures Joined(old(groups.members), groups.members, uid, JoinedGroups(m, old(Listing(now))))
      ensures Token(now) == old(Token(now))
      ensures old(Token(now)).entries == old(api.cache.entries) ==> api.cache.entries == old(api.cache.entries)
    {
      if !EmptyOpt(m.name) {
        users.SetDisplayName(uid, m.name.value);
      }
      if !EmptyOpt(m.email) {
        users.SetEMailAddress(uid, m.email.value);
      }
      if m.department.Some? && m.department.value != [] {
        UpdateUserGroups(uid, m.department.value, now);
      }
    }

    /** `createUser` of the sync: no quota; the error is the one
        `createUser` raises; `Ok(None)` when the back-end declines. */
    method CreateUser(m: Member, now: int) returns (r: Result<Option<string>>)
      requires m.userid.Some?
      modifies users, groups, api.cache
      ensures Token(now) == old(Token(now))
      ensures old(Token(now)).entries == old(api.cache.entries) ==> api.cache.entries == old(api.cache.entries)
      ensures var u := NewUsername(m.userid.value, now, old(users.accounts));
              if u in old(users.accounts) then
                r == Err(UsernameTaken) && users.accounts == old(users.accounts) && users.order == old(users.order) &&
                groups.members == old(groups.members)
              else if u in users.refused then
                r == Ok(None) && users.accounts == old(users.accounts) && users.order == old(users.order) &&
                groups.members == old(groups.members)
              else
                r == Ok(Some(u)) &&
                users.accounts == old(users.accounts)[u := Profiled(Account(None, None, None), m)] &&
                users.order == old(users.order) + [u] &&
                Joined(old(groups.members), groups.members, u, JoinedGroups(m, old(Listing(now))))
    {
      var username := m.userid.value;
      if username in users.accounts {
        username := username + "_" + IntToString(now);
      }
      var created := users.CreateUser(username);
      if created.Err? {
        return Err(created.error);
      }
      if !created.value {
        return Ok(None);
      }
      UpdateUser(username, m, now);
      r := Ok(Some(username));
    }

    /** `createUserMapping` of the sync: `last_login_at` is 0, and a
        refused insert raises. */
    method CreateUserMapping(w: string, uid: string, m: Member, now: int) returns (r: Result<MappingRow>)
      requires mappings.Valid()
      modifies mappings
      ensures mappings.Valid()
      ensures Bound(old(mappings.rows), w, uid) ==>
        r == Err(DuplicateKey) && mappings.rows == old(mappings.rows) && mappings.nextId == old(mappings.nextId)
      ensures !Bound(old(mappings.rows), w, uid) ==>
        r == Ok(NewMapping(w, uid, m, now, 0).(id := old(mappings.nextId))) &&
        mappings.rows == old(mappings.rows) + [r.value] && mappings.nextId == old(mappings.nextId) + 1
    {
      r := mappings.Insert(NewMapping(w, uid, m, now, 0));
    }

    /** `updateUserMapping` of the sync. */
    method UpdateUserMapping(row: MappingRow, m: Member, now: int)
      requires mappings.Valid()
      modifies mappings
      ensures mappings.Valid() && mappings.nextId == old(mappings.nextId)
      ensures mappings.rows == RefreshedRows(old(mappings.rows), row.id, m, now)
    {
      mappings.UpdateProfile(row.id, m.name.GetOr(""), m.email.GetOr(""), m.mobile.GetOr(""),
                             DepartmentText(m), now);
    }

    /** The branch of `syncUser` for a member bound to a live account:
        the account and the row are refreshed. */
    method RefreshMember(m: Member, now: int) returns (r: Result<Outcome>)
      requires mappings.Valid()
      requires !EmptyOpt(m.userid) && LiveBinding(mappings.rows, users.accounts, m.userid.value)
      modifies users, groups, mappings, api.cache
      ensures mappings.Valid()
      ensures Token(now) == old(Token(now))
      ensures old(Token(now)).entries == old(api.cache.entries) ==> api.cache.entries == old(api.cache.entries)
      ensures r == Ok(Updated) && Refreshes(old(Dir()), m, now, old(Listing(now)), Dir())
    {
      var found := FindByWecomUserId(mappings.rows, m.userid.value);
      var uid := found.row.nextcloudUid;
      UpdateUser(uid, m, now);
      UpdateUserMapping(found.row, m, now);
      r := Ok(Updated);
    }

    /** The branch of `syncUser` for any other member: a new account,
        then a new binding. */
    method EnrolMember(m: Member, now: int) returns (r: Result<Outcome>)
      requires mappings.Valid()
      requires !EmptyOpt(m.userid)
      modifies users, groups, mappings, api.cache
      ensures mappings.Valid()
      ensures Token(now) == old(Token(now))
      ensures old(Token(now)).entries == old(api.cache.entries) ==> api.cache.entries == old(api.cache.entries)
      ensures Enrols(old(Dir()), m, now, users.refused, old(Listing(now)), Dir(), r)
    {
      var w := m.userid.value;
      var user := CreateUser(m, now);
      if user.Err? {
        return Err(user.error);
      }
      if user.value.None? {
        return Err(CreateFailed);
      }
      var inserted := CreateUserMapping(w, user.value.value, m, now);
      if inserted.Err? {
        return Err(inserted.error);
      }
      r := Ok(Created);
    }

    /** `syncUser`: a member bound to a live account is updated, any other
        one gets a new account and binding. */
    method SyncUser(m: Member, now: int) returns (r: Result<Outcome>)
      requires mappings.Valid()
      modifies users, groups, mappings, api.cache
      ensures mappings.Valid()
      ensures Token(now) == old(Token(now))
      ensures old(Token(now)).entries == old(api.cache.entries) ==> api.cache.entries == old(api.cache.entries)
      ensures MemberStep(old(Dir()), m, now, users.refused, old(Listing(now)), Dir(), r)
    {
      if EmptyOpt(m.userid) {
        return Err(EmptyUserId);
      }
      var found := FindByWecomUserId(mappings.rows, m.userid.value);
      if found.Found? && found.row.nextcloudUid in users.accounts {
        r := RefreshMember(m, now);
      } else {
        r := EnrolMember(m, now);
      }
    }

    /** The member loop of `syncUsers` for one department: the members in
        order, each from the state the previous one left. */
    method SyncMembers(members: seq<Member>, now: int, entries: map<string, CacheEntry>)
      returns (r: UserResult, ghost dirs: seq<Directory>, ghost outcomes: seq<Result<Outcome>>)
      requires mappings.Valid()
      requires TokenKept(api.config.values, entries, api.cache.entries, api.remote, api.md5, now)
      modifies users, groups, mappings, api.cache
      ensures mappings.Valid()
      ensures TokenKept(api.config.values, entries, api.cache.entries, api.remote, api.md5, now)
      ensures Chain(dirs, members, now, users.refused,
                    DepartmentListing(api.config.values, entries, api.remote, api.md5, now, None), outcomes)
      ensures dirs[0] == old(Dir()) && dirs[|members|] == Dir()
      ensures r == Tally(members, outcomes)
    {
      ghost var listing := DepartmentListing(api.config.values, entries, api.remote, api.md5, now, None);
      r := UserResult(0, 0, 0, []);
      dirs, outcomes := [Dir()], [];
      var j := 0;
      while j < |members|
        invariant 0 <= j <= |members|
        invariant mappings.Valid()
        invariant TokenKept(api.config.values, entries, api.cache.entries, api.remote, api.md5, now)
        invariant ChainTo(dirs, members, now, users.refused, listing, outcomes, j)
        invariant dirs[0] == old(Dir()) && dirs[j] == Dir()
        invariant r == Tally(members[..j], outcomes)
      {
        assert Listing(now) == listing by {
          SameTokenSameCalls(api.config.values, entries, api.cache.entries, api.remote, api.md5, now);
        }
        var outcome := SyncUser(members[j], now);
        ChainStep(dirs, members, j, now, users.refused, listing, outcomes, Dir(), outcome);
        TallySnoc(members, j, outcomes, outcome);
        dirs, outcomes := dirs + [Dir()], outcomes + [outcome];
        r := Counted(r, members[j], outcome);
        j := j + 1;
      }
      assert members[..|members|] == members;
    }

    /** One department of `syncUsers`: its members listed from the server
        and synced in order; a failed listing is one error. Every remote
        call is answered as from the cache `entries`, whose token lookup
        the current cache shares. */
    method SyncDepartmentUsers(departmentId: int, now: int, entries: map<string, CacheEntry>)
      returns (r: UserResult, ghost run: DepartmentRun)
      requires mappings.Valid()
      requires TokenKept(api.config.values, entries, api.cache.entries, api.remote, api.md5, now)
      modifies users, groups, mappings, api.cache
      ensures mappings.Valid()
      ensures TokenKept(api.config.values, entries, api.cache.entries, api.remote, api.md5, now)
      ensures run.Listed? ==> |run.outcomes| == |run.members|
      ensures RunStep(run, MemberListing(api.config.values, entries, api.remote, api.md5, now, departmentId, false),
                      now, users.refused, DepartmentListing(api.config.values, entries, api.remote, api.md5, now, None),
                      old(Dir()), Dir())
      ensures r == RunTally(departmentId, run)
    {
      SameTokenSameCalls(api.config.values, entries, api.cache.entries, api.remote, api.md5, now);
      TokenSettles(api.config.values, api.cache.entries, api.remote, api.md5, now);
      var listed := api.GetDepartmentUsersDetail(departmentId, false, now);
      if listed.Err? {
        run := Unlisted(listed.error);
        r := UserResult(0, 0, 0, [ListingError(departmentId, listed.error)]);
      } else {
        ghost var dirs, outcomes;
        r, dirs, outcomes := SyncMembers(listed.value, now, entries);
        run := Listed(listed.value, dirs, outcomes);
      }
    }

    /** `syncUsers`: the configured departments in order, each listed from
        the server and its members synced; a failed listing adds one
        error and the run goes on. */
    method SyncUsers(now: int, entries: map<string, CacheEntry>)
      returns (r: UserResult, ghost runs: seq<DepartmentRun>, ghost marks: seq<Directory>)
      requires mappings.Valid()
      requires TokenKept(api.config.values, entries, api.cache.entries, api.remote, api.md5, now)
      modifies users, groups, mappings, api.cache
      ensures mappings.Valid()
      ensures TokenKept(api.config.values, entries, api.cache.entries, api.remote, api.md5, now)
      ensures UsersRun(api.config.values, entries, api.remote, api.md5, now, users.refused,
                       SyncDepartmentIds(config.values), runs, marks)
      ensures marks[0] == old(Dir()) && marks[|marks| - 1] == Dir()
      ensures r == TallyRuns(SyncDepartmentIds(config.values), runs)
    {
      r, runs, marks := SyncDepartmentsUsers(SyncDepartmentIds(config.values), now, entries);
    }

    /** The department loop of `syncUsers` over `ids`. */
    method SyncDepartmentsUsers(ids: seq<string>, now: int, entries: map<string, CacheEntry>)
      returns (r: UserResult, ghost runs: seq<DepartmentRun>, ghost marks: seq<Directory>)
      requires mappings.Valid()
      requires TokenKept(api.config.values, entries, api.cache.entries, api.remote, api.md5, now)
      modifies users, groups, mappings, api.cache
      ensures mappings.Valid()
      ensures TokenKept(api.config.values, entries, api.cache.entries, api.remote, api.md5, now)
      ensures UsersRun(api.config.values, entries, api.remote, api.md5, now, users.refused, ids, runs, marks)
      ensures marks[0] == old(Dir()) && marks[|marks| - 1] == Dir()
      ensures r == TallyRuns(ids, runs)
    {
      r := UserResult(0, 0, 0, []);
      runs, marks := [], [Dir()];
      var i := 0;
      while i < |ids|
        invariant 0 <= i <= |ids|
        invariant mappings.Valid()
        invariant TokenKept(api.config.values, entries, api.cache.entries, api.remote, api.md5, now)
        invariant UsersRun(api.config.values, entries, api.remote, api.md5, now, users.refused, ids[..i], runs, marks)
        invariant marks[0] == old(Dir()) && marks[i] == Dir()
        invariant r == TallyRuns(ids[..i], runs)
      {
        var part, run := SyncDepartmentUsers(StringToInt(ids[i]), now, entries);
        UsersRunSnoc(api.config.values, entries, api.remote, api.md5, now, users.refused,
                     ids, i, runs, marks, run, Dir());
        TallyRunsSnoc(ids, i, runs, run);
        runs, marks := runs + [run], marks + [Dir()];
        r := Plus(r, part);
        i := i + 1;
      }
      assert ids[..|ids|] == ids;
    }

    /** `fullSync`: departments, then users; an unconfigured application
        fails before touching anything. */
    method FullSync(now: int) returns (r: SyncResult, ghost runs: seq<DepartmentRun>, ghost marks: seq<Directory>)
      requires mappings.Valid()
      modifies users, groups, mappings, api.cache
      ensures mappings.Valid()
      ensures FullSyncRun(config.values, api.config.values, old(api.cache.entries), api.remote, api.md5, now,
                          users.refused, groups.refused, old(Dir()), runs, marks, Dir(), r)
      ensures !IsConfigured(config.values) ==> api.cache.entries == old(api.cache.entries)
      ensures IsConfigured(config.values) ==>
        api.cache.entries == FetchToken(api.config.values, old(api.cache.entries), api.remote, api.md5, now).entries
    {
      if !IsConfigured(config.values) {
        return SyncResult(false, 0, 0, 0, 0, 0, [ConfigInvalid], "Sync failed: " + ConfigInvalid), [], [];
      }
      var entries := api.cache.entries;
      TokenSettles(api.config.values, entries, api.remote, api.md5, now);
      var departments := SyncDepartments(now);
      var synced;
      synced, runs, marks := SyncUsers(now, entries);
      r := SyncResult(true, synced.total, synced.created, synced.updated, departments.total, departments.created,
                      departments.errors + synced.errors, SummaryMessage(synced, departments));
    }
  }
}
