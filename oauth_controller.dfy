/** The WeCom login flow (lib/Controller/OAuthController.php).
    `authorize` puts a one-time state token into the session and sends
    the browser to WeCom; `callback` checks and consumes that token,
    asks WeCom who the member is, resolves the member to a Nextcloud
    account and logs it in. Every failure ends on the login form.

    The collaborators are the models of the other modules: the settings,
    the WeCom client, the mapping table, the audit trail, the account
    directory and the session. The request's `User-Agent` header and the
    absolute callback URL are fixed inputs of a controller; the clock
    and the random bytes are arguments. */
module OAuth {
  import opened Base
  import opened Php
  import opened Config
  import opened DeviceDetect
  import opened WeComApi
  import opened UserMappingDb
  import opened MemberProfile
  import opened Host
  import AuditLogDb
  import opened Audit

  datatype Redirect = LoginForm | Files | External(url: string)

  const StateKey := "oauth_state"
  const DeviceTypeKey := "oauth_device_type"
  const StateMismatch := "State verification failed"
  const NoUserId := "No user ID in response"
  const Unresolved := "Failed to find or create user"
  const LoggedIn := "User logged in successfully"

  /** The scope `authorize` asks for: the silent, richer one inside the
      WeCom app. */
  function ScopeFor(header: Option<string>): (scope: string)
    ensures scope == "snsapi_privateinfo" <==> IsWeComApp(header)
    ensures scope == "snsapi_base" <==> !IsWeComApp(header)
  {
    if IsWeComApp(header) then "snsapi_privateinfo" else "snsapi_base"
  }

  /** The check `callback` makes: a PHP-truthy stored state equal to the
      received one. */
  function StateAccepted(values: map<string, string>, state: string): (b: bool)
    ensures b ==> StateKey in values && values[StateKey] == state
    // A PHP-empty state never gets through, whatever the session holds.
    ensures b ==> !Empty(state)
  {
    StateKey in values && !Empty(values[StateKey]) && values[StateKey] == state
  }

  /** What one match field decides: try the next one, or return (possibly
      null). */
  datatype Hit = Next | Return(user: Option<string>)

  function LastEntry(rows: seq<AuditLogDb.AuditRow>): AuditLogDb.AuditRow
    requires |rows| > 0
  {
    rows[|rows| - 1]
  }

  class OAuthController {
    const config: AppConfig
    const api: WeComApiService
    const mappings: MappingTable
    const audit: AuditService
    const users: UserDirectory
    const session: Session
    const userAgentHeader: Option<string>
    const callbackUrl: string

    constructor(config: AppConfig, api: WeComApiService, mappings: MappingTable, audit: AuditService,
                users: UserDirectory, session: Session, userAgentHeader: Option<string>, callbackUrl: string)
      requires api.config == config
      ensures this.config == config && this.api == api && this.mappings == mappings && this.audit == audit
      ensures this.users == users && this.session == session
      ensures this.userAgentHeader == userAgentHeader && this.callbackUrl == callbackUrl
    {
      this.config := config;
      this.api := api;
      this.mappings := mappings;
      this.audit := audit;
      this.users := users;
      this.session := session;
      this.userAgentHeader := userAgentHeader;
      this.callbackUrl := callbackUrl;
    }

    // ------------------------------------------------------------ authorize

    /** `authorize`. */
    method Authorize(randomBytes: seq<Byte>) returns (r: Redirect)
      requires |randomBytes| == 16
      modifies session
      ensures session.user == old(session.user)
      ensures !IsEnabled(config.values) ==> r == LoginForm && session.values == old(session.values)
      ensures IsEnabled(config.values) ==>
        session.values == old(session.values)[StateKey := Bin2Hex(randomBytes)]
                                             [DeviceTypeKey := DeviceType(userAgentHeader)]
      ensures IsEnabled(config.values) ==>
        var url := AuthUrl(config.values, callbackUrl, Bin2Hex(randomBytes), ScopeFor(userAgentHeader),
                           api.urlencode);
        (url.Err? ==> r == LoginForm) && (url.Ok? ==> r == External(url.value))
    {
      if !IsEnabled(config.values) {
        return LoginForm;
      }
      var state := Bin2Hex(randomBytes);
      session.Set(StateKey, state);
      var deviceType := DeviceType(userAgentHeader);
      session.Set(DeviceTypeKey, deviceType);
      var scope := "snsapi_base";
      if IsWeComApp(userAgentHeader) {
        scope := "snsapi_privateinfo";
      }
      var url := AuthUrl(config.values, callbackUrl, state, scope, api.urlencode);
      if url.Err? {
        return LoginForm;
      }
      r := External(url.value);
    }

    // ------------------------------------------------------------- matching

    /** One match field. A hit is a live account, except that a mobile
        mapping whose account is gone returns null at once. */
    function FieldHit(field: string, m: Member): (h: Hit)
      reads users, mappings
      ensures h.Return? && h.user.Some? ==> h.user.value in users.accounts
      ensures field !in {"email", "phone", "username"} ==> h == Next
      ensures h.Return? && field == "email" ==>
        h.user.Some? && m.email.Some? && users.accounts[h.user.value].email.Some? &&
        Lower(users.accounts[h.user.value].email.value) == Lower(m.email.value)
      ensures h.Return? && field == "username" ==> h.user == m.userid
      ensures h.Return? && field == "phone" ==>
        m.mobile.Some? && exists i :: 0 <= i < |mappings.rows| && mappings.rows[i].mobile == m.mobile.value
    {
      if field == "email" then
        if !EmptyOpt(m.email) && |users.ByEmail(m.email.value)| > 0 then
          assert users.ByEmail(m.email.value)[0] in users.ByEmail(m.email.value);
          Return(Some(users.ByEmail(m.email.value)[0]))
        else Next
      else if field == "phone" then
        if !EmptyOpt(m.mobile) && FindByMobile(mappings.rows, m.mobile.value).Found? then
          var uid := FindByMobile(mappings.rows, m.mobile.value).row.nextcloudUid;
          Return(if uid in users.accounts then Some(uid) else None)
        else Next
      else if field == "username" then
        if !EmptyOpt(m.userid) && m.userid.value in users.accounts then Return(m.userid) else Next
      else Next
    }

    /** The fields in order; the first one that returns decides. */
    function MatchFrom(fields: seq<string>, m: Member): (r: Option<string>)
      reads users, mappings
      ensures r.Some? ==> r.value in users.accounts
      decreases |fields|
    {
      if fields == [] then None
      else match FieldHit(fields[0], m)
        case Return(u) => u
        case Next => MatchFrom(fields[1..], m)
    }

    /** `matchExistingUser`: the configured match fields, tried in
        order. */
    method MatchExistingUser(m: Member) returns (user: Option<string>)
      ensures user == MatchFrom(UserMatchFields(config.values), m)
    {
      user := MatchFields(UserMatchFields(config.values), m);
    }

    /** The loop of `matchExistingUser` over the fields. */
    method MatchFields(fields: seq<string>, m: Member) returns (user: Option<string>)
      ensures user == MatchFrom(fields, m)
    {
      var i := 0;
      while i < |fields|
        invariant 0 <= i <= |fields|
        invariant MatchFrom(fields[i..], m) == MatchFrom(fields, m)
      {
        assert fields[i..][0] == fields[i] && fields[i..][1..] == fields[i + 1..];
        var hit := FieldHit(fields[i], m);
        if hit.Return? {
          return hit.user;
        }
        i := i + 1;
      }
      return None;
    }

    /** First match wins: the first field that does not say "next"
        decides the result, and when every field says "next" there is no
        match. */
    lemma {:induction false} MatchFirstDecides(fields: seq<string>, m: Member, i: nat)
      requires i < |fields| && FieldHit(fields[i], m).Return?
      requires forall j :: 0 <= j < i ==> FieldHit(fields[j], m) == Next
      ensures MatchFrom(fields, m) == FieldHit(fields[i], m).user
      decreases i
    {
      if i > 0 {
        MatchFirstDecides(fields[1..], m, i - 1);
      }
    }

    lemma {:induction false} MatchNoneWhenAllNext(fields: seq<string>, m: Member)
      requires forall j :: 0 <= j < |fields| ==> FieldHit(fields[j], m) == Next
      ensures MatchFrom(fields, m) == None
      decreases |fields|
    {
      if fields != [] {
        MatchNoneWhenAllNext(fields[1..], m);
      }
    }

    /** Field names other than email, phone and username are skipped:
        dropping them does not change the outcome. */
    lemma {:induction false} MatchIgnoresUnknown(fields: seq<string>, m: Member, f: string)
      requires f !in {"email", "phone", "username"}
      ensures MatchFrom(fields + [f], m) == MatchFrom(fields, m)
      ensures MatchFrom([f] + fields, m) == MatchFrom(fields, m)
      decreases |fields|
    {
      assert ([f] + fields)[1..] == fields;
      if fields != [] {
        assert (fields + [f])[1..] == fields[1..] + [f];
        MatchIgnoresUnknown(fields[1..], m, f);
      } else {
        assert ([] + [f])[1..] == [];
      }
    }

    // ------------------------------------------------------- account upkeep

    /** `createNewUser`: null when the chosen username is taken too (the
        raised error is caught) or the back-end declines. */
    method CreateNewUser(w: string, m: Member, now: int) returns (user: Option<string>)
      modifies users
      ensures var u := NewUsername(w, now, old(users.accounts));
              if u in old(users.accounts) || u in users.refused then
                user == None && users.accounts == old(users.accounts) && users.order == old(users.order)
              else
                user == Some(u) &&
                users.accounts == old(users.accounts)[u := NewAccount(m, DefaultQuota(config.values))] &&
                users.order == old(users.order) + [u]
    {
      var username := w;
      if username in users.accounts {
        username := w + "_" + IntToString(now);
      }
      ghost var before := users.accounts;
      var created := users.CreateUser(username);
      if created.Err? || !created.value {
        return None;
      }
      // The new account's profile, field by field.
      ghost var a := Account(None, None, None);
      if !EmptyOpt(m.name) {
        users.SetDisplayName(username, m.name.value);
        a := a.(displayName := m.name);
      }
      assert users.accounts == before[username := a];
      if !EmptyOpt(m.email) {
        users.SetEMailAddress(username, m.email.value);
        a := a.(email := m.email);
      }
      assert users.accounts == before[username := a];
      var quota := DefaultQuota(config.values);
      if !Empty(quota) {
        users.SetQuota(username, quota);
        a := a.(quota := Some(quota));
      }
      assert a == NewAccount(m, quota);
      user := Some(username);
    }

    /** `createUserMapping`: the row records the login time as its last
        login; a refused insert is swallowed. */
    method CreateUserMapping(w: string, uid: string, m: Member, now: int)
      requires mappings.Valid()
      modifies mappings
      ensures mappings.Valid()
      ensures var row := NewMapping(w, uid, m, now, now);
              if Bound(old(mappings.rows), w, uid)
              then mappings.rows == old(mappings.rows) && mappings.nextId == old(mappings.nextId)
              else mappings.rows == old(mappings.rows) + [row.(id := old(mappings.nextId))] &&
                   mappings.nextId == old(mappings.nextId) + 1
    {
      var row := NewMapping(w, uid, m, now, now);
      var _ := mappings.Insert(row);
    }

    /** `updateUserMapping`: the bound row gets the member's profile and
        the current time as `updated_at`. */
    method UpdateUserMapping(row: MappingRow, m: Member, now: int)
      requires mappings.Valid()
      modifies mappings
      ensures mappings.Valid() && mappings.nextId == old(mappings.nextId)
      ensures |mappings.rows| == |old(mappings.rows)|
      ensures forall i :: 0 <= i < |mappings.rows| ==>
        mappings.rows[i] == if old(mappings.rows)[i].id == row.id
                            then Refreshed(old(mappings.rows)[i], m, now) else old(mappings.rows)[i]
    {
      mappings.UpdateProfile(row.id, m.name.GetOr(""), m.email.GetOr(""), m.mobile.GetOr(""),
                             DepartmentText(m), now);
    }

    /** The account `findOrCreateUser` settles on for WeCom id `w`, from
        the current accounts and bindings: a binding to a live account,
        else the first match field that decides, else (when enabled) the
        new username unless it is taken or refused, else none. */
    ghost function Resolved(w: string, m: Member, now: int): Option<string>
      requires mappings.Valid()
      reads users, mappings, config
    {
      var f := FindByWecomUserId(mappings.rows, w);
      if f.Found? && f.row.nextcloudUid in users.accounts then Some(f.row.nextcloudUid)
      else
        var matched := MatchFrom(UserMatchFields(config.values), m);
        if matched.Some? then matched
        else if !IsAutoCreateUser(config.values) then None
        else
          var u := NewUsername(w, now, users.accounts);
          if u in users.accounts || u in users.refused then None else Some(u)
    }

    /** `findOrCreateUser`: an existing binding to a live account first,
        then the match fields, then (if enabled) a new account, else
        null. */
    method FindOrCreateUser(w: string, m: Member, now: int) returns (user: Option<string>)
      requires mappings.Valid()
      modifies users, mappings
      ensures mappings.Valid()
      ensures user == old(Resolved(w, m, now))
      ensures user.Some? ==> user.value in users.accounts
      ensures var f := FindByWecomUserId(old(mappings.rows), w);
              f.Found? && f.row.nextcloudUid in old(users.accounts) ==>
                user == Some(f.row.nextcloudUid) &&
                users.accounts == old(users.accounts) && users.order == old(users.order) &&
                |mappings.rows| == |old(mappings.rows)| &&
                forall i :: 0 <= i < |mappings.rows| ==>
                  mappings.rows[i] == if old(mappings.rows)[i].id == f.row.id
                                      then Refreshed(old(mappings.rows)[i], m, now) else old(mappings.rows)[i]
      ensures var f := FindByWecomUserId(old(mappings.rows), w);
              var matched := old(MatchFrom(UserMatchFields(config.values), m));
              !(f.Found? && f.row.nextcloudUid in old(users.accounts)) && matched.Some? ==>
                user == matched && users.accounts == old(users.accounts) && users.order == old(users.order)
      ensures var f := FindByWecomUserId(old(mappings.rows), w);
              var matched := old(MatchFrom(UserMatchFields(config.values), m));
              var u := NewUsername(w, now, old(users.accounts));
              !(f.Found? && f.row.nextcloudUid in old(users.accounts)) && matched.None? &&
              IsAutoCreateUser(config.values) ==>
                if u in old(users.accounts) || u in users.refused then
                  user == None && users.accounts == old(users.accounts) && mappings.rows == old(mappings.rows)
                else
                  user == Some(u) &&
                  users.accounts == old(users.accounts)[u := NewAccount(m, DefaultQuota(config.values))]
      ensures var f := FindByWecomUserId(old(mappings.rows), w);
              var matched := old(MatchFrom(UserMatchFields(config.values), m));
              !(f.Found? && f.row.nextcloudUid in old(users.accounts)) && matched.None? &&
              !IsAutoCreateUser(config.values) ==>
                user == None && users.accounts == old(users.accounts) && mappings.rows == old(mappings.rows)
      ensures var f := FindByWecomUserId(old(mappings.rows), w);
              !(f.Found? && f.row.nextcloudUid in old(users.accounts)) && user.Some? ==>
                var row := NewMapping(w, user.value, m, now, now);
                if Bound(old(mappings.rows), w, user.value)
                then mappings.rows == old(mappings.rows)
                else mappings.rows == old(mappings.rows) + [row.(id := old(mappings.nextId))]
    {
      var found := FindByWecomUserId(mappings.rows, w);
      if found.Found? && found.row.nextcloudUid in users.accounts {
        UpdateUserMapping(found.row, m, now);
        return Some(found.row.nextcloudUid);
      }
      user := ResolveUnbound(w, m, now);
    }

    /** The rest of `findOrCreateUser` for a WeCom id with no binding to a
        live account: the match fields, then (if enabled) a new account,
        each newly bound; else null. */
    method ResolveUnbound(w: string, m: Member, now: int) returns (user: Option<string>)
      requires mappings.Valid()
      requires var f := FindByWecomUserId(mappings.rows, w); !(f.Found? && f.row.nextcloudUid in users.accounts)
      modifies users, mappings
      ensures mappings.Valid()
      ensures user == old(Resolved(w, m, now))
      ensures user.Some? ==> user.value in users.accounts
      ensures var matched := old(MatchFrom(UserMatchFields(config.values), m));
              matched.Some? ==> user == matched && users.accounts == old(users.accounts) && users.order == old(users.order)
      ensures var matched := old(MatchFrom(UserMatchFields(config.values), m));
              var u := NewUsername(w, now, old(users.accounts));
              matched.None? && IsAutoCreateUser(config.values) ==>
                if u in old(users.accounts) || u in users.refused then
                  user == None && users.accounts == old(users.accounts) && mappings.rows == old(mappings.rows)
                else
                  user == Some(u) &&
                  users.accounts == old(users.accounts)[u := NewAccount(m, DefaultQuota(config.values))]
      ensures var matched := old(MatchFrom(UserMatchFields(config.values), m));
              matched.None? && !IsAutoCreateUser(config.values) ==>
                user == None && users.accounts == old(users.accounts) && mappings.rows == old(mappings.rows)
      ensures user.Some? ==>
                var row := NewMapping(w, user.value, m, now, now);
                if Bound(old(mappings.rows), w, user.value)
                then mappings.rows == old(mappings.rows)
                else mappings.rows == old(mappings.rows) + [row.(id := old(mappings.nextId))]
    {
      ghost var resolved := Resolved(w, m, now);
      ghost var u := NewUsername(w, now, users.accounts);
      user := MatchExistingUser(m);
      assert user.Some? ==> resolved == user;
      assert user.None? ==>
        resolved == if !IsAutoCreateUser(config.values) || u in users.accounts || u in users.refused then None
                    else Some(u);
      if user.Some? {
        CreateUserMapping(w, user.value, m, now);
        return user;
      }
      if IsAutoCreateUser(config.values) {
        user := CreateAndBind(w, m, now);
        return user;
      }
      return None;
    }

    /** The auto-create branch of `findOrCreateUser`: a new account under
        the chosen name, newly bound, or null when the name is taken or
        declined. */
    method CreateAndBind(w: string, m: Member, now: int) returns (user: Option<string>)
      requires mappings.Valid()
      modifies users, mappings
      ensures mappings.Valid()
      ensures var u := NewUsername(w, now, old(users.accounts));
              if u in old(users.accounts) || u in users.refused then
                user == None && users.accounts == old(users.accounts) && mappings.rows == old(mappings.rows)
              else
                user == Some(u) && u in users.accounts &&
                users.accounts == old(users.accounts)[u := NewAccount(m, DefaultQuota(config.values))]
      ensures user.Some? ==>
                var row := NewMapping(w, user.value, m, now, now);
                if Bound(old(mappings.rows), w, user.value)
                then mappings.rows == old(mappings.rows)
                else mappings.rows == old(mappings.rows) + [row.(id := old(mappings.nextId))]
    {
      user := CreateNewUser(w, m, now);
      if user.Some? {
        CreateUserMapping(w, user.value, m, now);
      }
    }

    // ------------------------------------------------------------- callback

    /** The end of `callback`, once the member is resolved to an account
        or to none: either log the failure, or log in and record the
        login. */
    method LogInAs(w: string, user: Option<string>, now: int) returns (r: Redirect)
      requires mappings.Valid()
      requires user.Some? ==> user.value in users.accounts
      modifies session, mappings, audit.table
      ensures mappings.Valid()
      ensures r == LoginForm || r == Files
      ensures r == Files <==> user.Some?
      ensures session.values == old(session.values)
      ensures |audit.table.rows| == |old(audit.table.rows)| + 1 &&
              audit.table.rows[..|old(audit.table.rows)|] == old(audit.table.rows)
      ensures LastEntry(audit.table.rows).action == Login && LastEntry(audit.table.rows).wecomUserId == w
      ensures r == LoginForm ==>
        session.user == old(session.user) && LastEntry(audit.table.rows).status == Failed &&
        LastEntry(audit.table.rows).message == Unresolved && LastEntry(audit.table.rows).nextcloudUid == ""
      ensures r == LoginForm ==> mappings.rows == old(mappings.rows) && mappings.nextId == old(mappings.nextId)
      // A login stamps the member's bindings with the login time.
      ensures r == Files ==>
        mappings.rows == Stamped(old(mappings.rows), w, now) && mappings.nextId == old(mappings.nextId)
      ensures r == Files ==>
        session.user == user && user.value in users.accounts &&
        LastEntry(audit.table.rows).status == Success &&
        LastEntry(audit.table.rows).nextcloudUid == session.user.value &&
        LastEntry(audit.table.rows).message == LoggedIn
    {
      if user.None? {
        var _ := audit.LogLogin("", w, false, Some(Unresolved), now);
        return LoginForm;
      }
      session.LogIn(user.value);
      mappings.UpdateLastLoginAt(w, now);
      var _ := audit.LogLogin(user.value, w, true, Some(LoggedIn), now);
      r := Files;
    }

    /** `callback` once the member's profile is known: resolve it to an
        account, then log in or log the failure. */
    method LogInMember(w: string, m: Member, now: int) returns (r: Redirect)
      requires mappings.Valid()
      modifies session, users, mappings, audit.table
      ensures mappings.Valid()
      ensures r == LoginForm || r == Files
      ensures r == Files <==> old(Resolved(w, m, now)).Some?
      ensures r == Files ==> session.user == old(Resolved(w, m, now))
      ensures session.values == old(session.values)
      ensures |audit.table.rows| == |old(audit.table.rows)| + 1 &&
              audit.table.rows[..|old(audit.table.rows)|] == old(audit.table.rows)
      ensures LastEntry(audit.table.rows).action == Login && LastEntry(audit.table.rows).wecomUserId == w
      ensures r == LoginForm ==>
        session.user == old(session.user) && LastEntry(audit.table.rows).status == Failed &&
        LastEntry(audit.table.rows).message == Unresolved && LastEntry(audit.table.rows).nextcloudUid == ""
      ensures r == Files ==>
        session.user.Some? && session.user.value in users.accounts &&
        LastEntry(audit.table.rows).status == Success &&
        LastEntry(audit.table.rows).nextcloudUid == session.user.value &&
        LastEntry(audit.table.rows).message == LoggedIn
    {
      var user := FindOrCreateUser(w, m, now);
      r := LogInAs(w, user, now);
    }

    /** The account a sign-in with `code` ends on, from the current cache,
        accounts and bindings: the WeCom id the code is exchanged for, that
        member's profile, then `Resolved`; none when either request fails
        or the reply names no one. */
    ghost function SignedInAs(code: string, now: int): Option<string>
      requires mappings.Valid()
      reads users, mappings, config, api, api.config, api.cache
    {
      var info := UserInfo(api.config.values, api.cache.entries, api.remote, api.md5, now, code);
      if info.Err? || EmptyOpt(info.value) then None
      else
        var detail := UserDetail(api.config.values, api.cache.entries, api.remote, api.md5, now, info.value.value);
        if detail.Err? then None else Resolved(info.value.value, detail.value, now)
    }

    /** The rest of `callback` once the code has named WeCom member `w`:
        fetch the member's profile, then resolve it and log in. `entries`
        is a cache state whose token the current one keeps. */
    method SignInMember(w: string, now: int, entries: map<string, CacheEntry>) returns (r: Redirect)
      requires mappings.Valid()
      requires TokenKept(api.config.values, entries, api.cache.entries, api.remote, api.md5, now)
      modifies session, users, mappings, audit.table, api.cache
      ensures mappings.Valid()
      ensures r == LoginForm || r == Files
      ensures var detail := UserDetail(api.config.values, entries, api.remote, api.md5, now, w);
        r == Files <==> detail.Ok? && old(Resolved(w, detail.value, now)).Some?
      ensures var detail := UserDetail(api.config.values, entries, api.remote, api.md5, now, w);
        r == Files ==> detail.Ok? && session.user == old(Resolved(w, detail.value, now))
      ensures session.values == old(session.values)
      ensures |audit.table.rows| == |old(audit.table.rows)| + 1 &&
              audit.table.rows[..|old(audit.table.rows)|] == old(audit.table.rows)
      ensures r == LoginForm ==> session.user == old(session.user)
      ensures r == LoginForm ==>
        LastEntry(audit.table.rows).status == Failed &&
        (LastEntry(audit.table.rows).action == OAuthCallback ||
         (LastEntry(audit.table.rows).action == Login &&
          LastEntry(audit.table.rows).message == Unresolved &&
          LastEntry(audit.table.rows).nextcloudUid == ""))
      ensures r == Files ==>
        session.user.Some? && session.user.value in users.accounts &&
        LastEntry(audit.table.rows).action == Login && LastEntry(audit.table.rows).status == Success &&
        LastEntry(audit.table.rows).nextcloudUid == session.user.value &&
        LastEntry(audit.table.rows).message == LoggedIn
    {
      ghost var expected := UserDetail(api.config.values, entries, api.remote, api.md5, now, w);
      ghost var resolved := if expected.Ok? then Resolved(w, expected.value, now) else None;
      assert UserDetail(api.config.values, api.cache.entries, api.remote, api.md5, now, w) == expected by {
        SameTokenSameCalls(api.config.values, entries, api.cache.entries, api.remote, api.md5, now);
      }
      var detail := api.GetUserDetail(w, now);
      if detail.Err? {
        var _ := audit.LogOAuthCallback(None, None, false, Some("Exception: " + detail.error), None, now);
        return LoginForm;
      }
      assert resolved == Resolved(w, detail.value, now);
      r := LogInMember(w, detail.value, now);
    }

    /** What `callback` does once the state is accepted and consumed:
        exchange the code, resolve the account, log in. */
    method SignIn(code: string, now: int) returns (r: Redirect)
      requires mappings.Valid()
      modifies session, users, mappings, audit.table, api.cache
      ensures mappings.Valid()
      ensures r == LoginForm || r == Files
      ensures r == Files <==> !Empty(code) && old(SignedInAs(code, now)).Some?
      ensures r == Files ==> session.user == old(SignedInAs(code, now))
      ensures session.values == old(session.values)
      ensures Empty(code) ==>
        r == LoginForm && session.user == old(session.user) && audit.table.rows == old(audit.table.rows) &&
        users.accounts == old(users.accounts) && mappings.rows == old(mappings.rows)
      ensures !Empty(code) ==>
        |audit.table.rows| == |old(audit.table.rows)| + 1 &&
        audit.table.rows[..|old(audit.table.rows)|] == old(audit.table.rows)
      ensures r == LoginForm ==> session.user == old(session.user)
      ensures r == LoginForm && |audit.table.rows| > |old(audit.table.rows)| ==>
        LastEntry(audit.table.rows).status == Failed &&
        (LastEntry(audit.table.rows).action == OAuthCallback ||
         (LastEntry(audit.table.rows).action == Login &&
          LastEntry(audit.table.rows).message == Unresolved &&
          LastEntry(audit.table.rows).nextcloudUid == ""))
      ensures r == Files ==>
        session.user.Some? && session.user.value in users.accounts &&
        |audit.table.rows| > 0 &&
        LastEntry(audit.table.rows).action == Login && LastEntry(audit.table.rows).status == Success &&
        LastEntry(audit.table.rows).nextcloudUid == session.user.value &&
        LastEntry(audit.table.rows).message == LoggedIn
    {
      ghost var signed := SignedInAs(code, now);
      var entries := api.cache.entries;
      ghost var expected := UserInfo(api.config.values, entries, api.remote, api.md5, now, code);
      assert expected.Err? || EmptyOpt(expected.value) ==> signed == None;
      if Empty(code) {
        return LoginForm;
      }
      var info := api.GetUserInfoByCode(code, now);
      if info.Err? {
        var _ := audit.LogOAuthCallback(None, None, false, Some("Exception: " + info.error), None, now);
        return LoginForm;
      }
      if EmptyOpt(info.value) {
        var _ := audit.LogOAuthCallback(None, None, false, Some(NoUserId), None, now);
        return LoginForm;
      }
      var w := info.value.value;
      assert signed == var detail := UserDetail(api.config.values, entries, api.remote, api.md5, now, w);
                       if detail.Err? then None else Resolved(w, detail.value, now);
      TokenSettles(api.config.values, entries, api.remote, api.md5, now);
      r := SignInMember(w, now, entries);
    }

    /** `callback`. */
    method Callback(code: string, state: string, now: int) returns (r: Redirect)
      requires mappings.Valid()
      modifies session, users, mappings, audit.table, api.cache
      ensures mappings.Valid()
      ensures r == LoginForm || r == Files
      // The account logged in is the one the code's WeCom id resolves to.
      ensures r == Files <==>
        StateAccepted(old(session.values), state) && !Empty(code) && old(SignedInAs(code, now)).Some?
      ensures r == Files ==> session.user == old(SignedInAs(code, now))
      // A rejected state changes nothing but the audit trail.
      ensures !StateAccepted(old(session.values), state) ==>
        r == LoginForm && session.values == old(session.values) && session.user == old(session.user) &&
        users.accounts == old(users.accounts) && mappings.rows == old(mappings.rows) &&
        |audit.table.rows| == |old(audit.table.rows)| + 1 &&
        LastEntry(audit.table.rows).action == OAuthCallback &&
        LastEntry(audit.table.rows).status == Failed &&
        LastEntry(audit.table.rows).message == StateMismatch
      // An accepted state is consumed before anything else happens.
      ensures StateAccepted(old(session.values), state) ==> session.values == old(session.values) - {StateKey}
      // So the same state is never accepted twice.
      ensures !StateAccepted(session.values, state)
      // A missing code leaves no trace.
      ensures StateAccepted(old(session.values), state) && Empty(code) ==>
        r == LoginForm && session.user == old(session.user) && audit.table.rows == old(audit.table.rows) &&
        users.accounts == old(users.accounts) && mappings.rows == old(mappings.rows)
      // Every other outcome appends exactly one entry.
      ensures !(StateAccepted(old(session.values), state) && Empty(code)) ==>
        |audit.table.rows| == |old(audit.table.rows)| + 1 &&
        audit.table.rows[..|old(audit.table.rows)|] == old(audit.table.rows)
      // Only the success path logs anyone in.
      ensures r == LoginForm ==> session.user == old(session.user)
      ensures r == LoginForm && |audit.table.rows| > |old(audit.table.rows)| ==>
        LastEntry(audit.table.rows).status == Failed &&
        (LastEntry(audit.table.rows).action == OAuthCallback ||
         (LastEntry(audit.table.rows).action == Login &&
          LastEntry(audit.table.rows).message == Unresolved &&
          LastEntry(audit.table.rows).nextcloudUid == ""))
      ensures r == Files ==>
        session.user.Some? && session.user.value in users.accounts &&
        |audit.table.rows| > 0 &&
        LastEntry(audit.table.rows).action == Login && LastEntry(audit.table.rows).status == Success &&
        LastEntry(audit.table.rows).nextcloudUid == session.user.value &&
        LastEntry(audit.table.rows).message == LoggedIn
    {
      var saved := session.Get(StateKey);
      if EmptyOpt(saved) || saved.value != state {
        var _ := audit.LogOAuthCallback(None, None, false, Some(StateMismatch), None, now);
        return LoginForm;
      }
      session.Remove(StateKey);
      r := SignIn(code, now);
    }
  }
}
