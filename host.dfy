/** The Nextcloud services the application drives, reduced to the state
    it reads and writes: the account directory (IUserManager and the
    account setters), the group directory (IGroupManager) and the
    browser session (ISession together with IUserSession). Each is a class
    whose fields the application's calls update in place. */
module Host {
  import opened Base
  import opened Php
  import opened Sorting

  /** An account's profile as the application sets it; `None` is "never
      set by this application". */
  datatype Account = Account(displayName: Option<string>, email: Option<string>, quota: Option<string>)

  const UsernameTaken := "The username is already being used"
  const GroupNameTooLong := "Group name is limited to 255 characters"
  const MaxGroupLength := 255

  class UserDirectory {
    var accounts: map<string, Account>
    /** Uids in creation order: the order in which `getByEmail` lists them. */
    var order: seq<string>
    /** Uids the user back-end declines to create (`createUser` gives null). */
    const refused: set<string>

    constructor(refused: set<string>)
      ensures accounts == map[] && order == [] && this.refused == refused
    {
      accounts := map[];
      order := [];
      this.refused := refused;
    }

    /** `getByEmail`: the accounts whose address equals `email` up to the
        case of ASCII letters, in creation order. */
    function ByEmail(email: string): (r: seq<string>)
      reads this
      ensures forall u :: u in r ==>
                u in accounts && accounts[u].email.Some? && Lower(accounts[u].email.value) == Lower(email)
    {
      var acc := accounts;
      Where(order, u => u in acc && acc[u].email.Some? && Lower(acc[u].email.value) == Lower(email))
    }

    /** `createUser(uid, password)`: raises when the uid exists, gives null
        (`Ok(false)`) when the back-end declines, otherwise adds a blank
        account. */
    method CreateUser(uid: string) returns (r: Result<bool>)
      modifies this
      ensures uid in old(accounts) ==> r == Err(UsernameTaken) && accounts == old(accounts) && order == old(order)
      ensures uid !in old(accounts) && uid in refused ==> r == Ok(false) && accounts == old(accounts) && order == old(order)
      ensures uid !in old(accounts) && uid !in refused ==>
        r == Ok(true) && accounts == old(accounts)[uid := Account(None, None, None)] && order == old(order) + [uid]
    {
      if uid in accounts {
        r := Err(UsernameTaken);
      } else if uid in refused {
        r := Ok(false);
      } else {
        accounts := accounts[uid := Account(None, None, None)];
        order := order + [uid];
        r := Ok(true);
      }
    }

    method SetDisplayName(uid: string, name: string)
      requires uid in accounts
      modifies this
      ensures accounts == old(accounts)[uid := old(accounts)[uid].(displayName := Some(name))]
      ensures order == old(order)
    {
      accounts := accounts[uid := accounts[uid].(displayName := Some(name))];
    }

    method SetEMailAddress(uid: string, email: string)
      requires uid in accounts
      modifies this
      ensures accounts == old(accounts)[uid := old(accounts)[uid].(email := Some(email))]
      ensures order == old(order)
    {
      accounts := accounts[uid := accounts[uid].(email := Some(email))];
    }

    method SetQuota(uid: string, quota: string)
      requires uid in accounts
      modifies this
      ensures accounts == old(accounts)[uid := old(accounts)[uid].(quota := Some(quota))]
      ensures order == old(order)
    {
      accounts := accounts[uid := accounts[uid].(quota := Some(quota))];
    }
  }

  class GroupDirectory {
    /** Group name to member uids. */
    var members: map<string, set<string>>
    /** Names the group back-ends decline to create (`createGroup` gives null). */
    const refused: set<string>

    constructor(refused: set<string>)
      ensures members == map[] && this.refused == refused
    {
      members := map[];
      this.refused := refused;
    }

    /** `createGroup(gid)`: an existing group is returned as it is; a name
        longer than 255 characters raises; a declined name gives null. */
    method CreateGroup(gid: string) returns (err: Option<string>)
      modifies this
      ensures gid in old(members) ==> err == None && members == old(members)
      ensures gid !in old(members) && |gid| > MaxGroupLength ==>
        err == Some(GroupNameTooLong) && members == old(members)
      ensures gid !in old(members) && |gid| <= MaxGroupLength && gid in refused ==>
        err == None && members == old(members)
      ensures gid !in old(members) && |gid| <= MaxGroupLength && gid !in refused ==>
        err == None && members == old(members)[gid := {}]
    {
      err := None;
      if gid in members {
      } else if |gid| > MaxGroupLength {
        err := Some(GroupNameTooLong);
      } else if gid !in refused {
        members := members[gid := {}];
      }
    }

    method AddUser(gid: string, uid: string)
      requires gid in members
      modifies this
      ensures members == old(members)[gid := old(members)[gid] + {uid}]
    {
      members := members[gid := members[gid] + {uid}];
    }
  }

  class Session {
    var values: map<string, string>
    /** The uid the session is logged in as. */
    var user: Option<string>

    constructor(values: map<string, string>, user: Option<string>)
      ensures this.values == values && this.user == user
    {
      this.values := values;
      this.user := user;
    }

    /** `get(key)`: null for a missing key. */
    function Get(key: string): (r: Option<string>)
      reads this
      ensures r.Some? <==> key in values
      ensures r.Some? ==> r.value == values[key]
    {
      if key in values then Some(values[key]) else None
    }

    method Set(key: string, value: string)
      modifies this
      ensures values == old(values)[key := value] && user == old(user)
    {
      values := values[key := value];
    }

    method Remove(key: string)
      modifies this
      ensures values == old(values) - {key} && user == old(user)
    {
      values := values - {key};
    }

    /** `setUser` followed by `createSessionToken`: the session is now
        logged in as `uid`. */
    method LogIn(uid: string)
      modifies this
      ensures user == Some(uid) && values == old(values)
    {
      user := Some(uid);
    }
  }
}
