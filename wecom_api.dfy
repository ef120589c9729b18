/** The client of the WeCom server API (lib/Service/WeComApiService.php).
    The transport and JSON decoding stay abstract: a `Provider` is the
    server, a record of total functions from a call's parameters (the
    access token first) to the decoded reply. What is modelled is the
    client's own logic: the access-token cache, the one `errcode` check
    every call shares, the defaults for missing list keys, and the
    assembly of the authorization URL. */
module WeComApi {
  import opened Base
  import opened Php
  import opened Config

  // ------------------------------------------------------------ replies

  /** A decoded reply: the request failed outright (the client raised),
      or a JSON object with optional `errcode`/`errmsg` and the payload
      the caller reads. */
  datatype Reply<T> = Unreachable(error: string) | Answer(errcode: Option<int>, errmsg: Option<string>, body: T)

  datatype Department = Department(id: int, name: Option<string>)

  /** The member fields the application reads; a missing key is `None`. */
  datatype Member = Member(
    userid: Option<string>,
    name: Option<string>,
    email: Option<string>,
    mobile: Option<string>,
    department: Option<seq<int>>)

  /** The JSON body of `message/send`. */
  datatype TextMessage = TextMessage(touser: string, msgtype: string, agentid: string, content: string)

  datatype Provider = Provider(
    gettoken: (string, string) -> Reply<Option<string>>,
    getuserinfo: (string, string) -> Reply<Option<string>>,
    userGet: (string, string) -> Reply<Member>,
    departmentList: (string, Option<int>) -> Reply<Option<seq<Department>>>,
    simpleList: (string, int, int) -> Reply<Option<seq<Member>>>,
    userList: (string, int, int) -> Reply<Option<seq<Member>>>,
    messageSend: (string, TextMessage) -> Reply<bool>)

  /** The check every call makes on its reply: an `errcode` that is
      present and not 0 is an error named after the call; an absent one is
      success. */
  function CheckReply<T>(reply: Reply<T>, what: string): (r: Result<T>)
    ensures reply.Unreachable? ==> r == Err(reply.error)
    ensures reply.Answer? ==> (r.Ok? <==> reply.errcode.None? || reply.errcode.value == 0)
    ensures r.Ok? ==> r.value == reply.body
    ensures reply.Answer? && r.Err? ==>
      r.error == "Failed to " + what + ": " + reply.errmsg.GetOr("Unknown error")
  {
    match reply
    case Unreachable(e) => Err(e)
    case Answer(code, msg, body) =>
      if code.Some? && code.value != 0 then Err("Failed to " + what + ": " + msg.GetOr("Unknown error"))
      else Ok(body)
  }

  /** `$data['department'] ?? []` and `$data['userlist'] ?? []`. */
  function ListOrEmpty<T>(r: Result<Option<seq<T>>>): (l: Result<seq<T>>)
    ensures r.Err? ==> l == Err(r.error)
    ensures r.Ok? && r.value.None? ==> l == Ok([])
    ensures r.Ok? && r.value.Some? ==> l == Ok(r.value.value)
  {
    match r
    case Err(e) => Err(e)
    case Ok(o) => Ok(o.GetOr([]))
  }

  /** `$fetchChild ? 1 : 0`. */
  function FetchChildFlag(fetchChild: bool): (f: int)
    ensures f == 1 <==> fetchChild
    ensures f == 0 <==> !fetchChild
  {
    if fetchChild then 1 else 0
  }

  // --------------------------------------------------------- token cache

  const TokenTtl := 7000
  const TokenKeyPrefix := "oauthwecom_token_"
  const CredentialsMissing := "Corp ID or App Secret not configured"

  /** A cached token and the instant from which the cache no longer
      returns it. */
  datatype CacheEntry = CacheEntry(token: string, expiresAt: int)

  function Cached(entries: map<string, CacheEntry>, key: string, now: int): (r: Option<string>)
    ensures r.Some? <==> key in entries && now < entries[key].expiresAt
    ensures r.Some? ==> r.value == entries[key].token
  {
    if key in entries && now < entries[key].expiresAt then Some(entries[key].token) else None
  }

  /** The cache key of the token: the application's prefix, then the
      digest of the corp id and the secret, so a change of either misses. */
  function TokenKey(v: Settings, md5: string -> string): (k: string)
    ensures |k| >= |TokenKeyPrefix| && k[..|TokenKeyPrefix|] == TokenKeyPrefix
    ensures k[|TokenKeyPrefix|..] == md5(CorpId(v) + AppSecret(v))
  {
    TokenKeyPrefix + md5(CorpId(v) + AppSecret(v))
  }

  /** What `getAccessToken` returns and the cache it leaves. */
  datatype TokenStep = TokenStep(token: Result<string>, entries: map<string, CacheEntry>)

  /** `getAccessToken` as a function of the settings, the cache, the
      server and the clock. */
  function FetchToken(v: Settings, entries: map<string, CacheEntry>, remote: Provider,
                      md5: string -> string, now: int): (r: TokenStep)
    ensures r.token.Err? ==> r.entries == entries
    ensures r.token.Ok? ==> Cached(r.entries, TokenKey(v, md5), now) == Some(r.token.value)
    ensures r.entries.Keys <= entries.Keys + {TokenKey(v, md5)}
    ensures forall k :: k in entries && k != TokenKey(v, md5) ==> k in r.entries && r.entries[k] == entries[k]
  {
    if Empty(CorpId(v)) || Empty(AppSecret(v)) then TokenStep(Err(CredentialsMissing), entries)
    else
      var key := TokenKey(v, md5);
      match Cached(entries, key, now)
      case Some(t) => TokenStep(Ok(t), entries)
      case None =>
        match remote.gettoken(CorpId(v), AppSecret(v))
        case Unreachable(e) => TokenStep(Err(e), entries)
        case Answer(_, msg, token) =>
          if token.None? then TokenStep(Err("Failed to get access token: " + msg.GetOr("Unknown error")), entries)
          else TokenStep(Ok(token.value), entries[key := CacheEntry(token.value, now + TokenTtl)])
  }

  /** `getDepartmentList` as a function of the settings, the cache, the
      server and the clock: the token's error, or the checked
      `department` list (`[]` when absent). */
  function DepartmentListing(v: Settings, entries: map<string, CacheEntry>, remote: Provider,
                             md5: string -> string, now: int, departmentId: Option<int>): (r: Result<seq<Department>>)
    ensures FetchToken(v, entries, remote, md5, now).token.Err? ==>
      r == Err(FetchToken(v, entries, remote, md5, now).token.error)
    ensures r.Ok? ==> FetchToken(v, entries, remote, md5, now).token.Ok?
  {
    var step := FetchToken(v, entries, remote, md5, now);
    if step.token.Err? then Err(step.token.error)
    else ListOrEmpty(CheckReply(remote.departmentList(step.token.value, departmentId), "get department list"))
  }

  /** `getDepartmentUsersDetail` as a function of the settings, the cache,
      the server and the clock: the token's error, or the checked
      `userlist` (`[]` when absent). */
  function MemberListing(v: Settings, entries: map<string, CacheEntry>, remote: Provider,
                         md5: string -> string, now: int, departmentId: int, fetchChild: bool)
    : (r: Result<seq<Member>>)
    ensures FetchToken(v, entries, remote, md5, now).token.Err? ==>
      r == Err(FetchToken(v, entries, remote, md5, now).token.error)
    ensures r.Ok? ==> FetchToken(v, entries, remote, md5, now).token.Ok?
  {
    var step := FetchToken(v, entries, remote, md5, now);
    if step.token.Err? then Err(step.token.error)
    else ListOrEmpty(CheckReply(remote.userList(step.token.value, departmentId, FetchChildFlag(fetchChild)),
                                "get department users detail"))
  }

  /** `getUserInfoByCode` as a function of the settings, the cache, the
      server and the clock: the `userid` of the checked reply. */
  function UserInfo(v: Settings, entries: map<string, CacheEntry>, remote: Provider,
                    md5: string -> string, now: int, code: string): (r: Result<Option<string>>)
    ensures FetchToken(v, entries, remote, md5, now).token.Err? ==>
      r == Err(FetchToken(v, entries, remote, md5, now).token.error)
    ensures r.Ok? ==> FetchToken(v, entries, remote, md5, now).token.Ok?
  {
    var step := FetchToken(v, entries, remote, md5, now);
    if step.token.Err? then Err(step.token.error)
    else CheckReply(remote.getuserinfo(step.token.value, code), "get user info")
  }

  /** `getUserDetail` as a function of the settings, the cache, the
      server and the clock. */
  function UserDetail(v: Settings, entries: map<string, CacheEntry>, remote: Provider,
                      md5: string -> string, now: int, userId: string): (r: Result<Member>)
    ensures FetchToken(v, entries, remote, md5, now).token.Err? ==>
      r == Err(FetchToken(v, entries, remote, md5, now).token.error)
    ensures r.Ok? ==> FetchToken(v, entries, remote, md5, now).token.Ok?
  {
    var step := FetchToken(v, entries, remote, md5, now);
    if step.token.Err? then Err(step.token.error)
    else CheckReply(remote.userGet(step.token.value, userId), "get user detail")
  }

  /** The cache `after` is the one the first token lookup from `before`
      left, and a lookup from it turns out as that first one did. */
  ghost predicate TokenKept(v: Settings, before: map<string, CacheEntry>, after: map<string, CacheEntry>,
                            remote: Provider, md5: string -> string, now: int) {
    after == FetchToken(v, before, remote, md5, now).entries &&
    FetchToken(v, after, remote, md5, now) == FetchToken(v, before, remote, md5, now)
  }

  /** `testConnection` as a function of the settings, the cache, the
      server and the clock: the token's error; false for a PHP-empty
      token; otherwise the department listing's error, or true. */
  function ConnectionCheck(v: Settings, entries: map<string, CacheEntry>, remote: Provider,
                           md5: string -> string, now: int): (r: Result<bool>)
    ensures var step := FetchToken(v, entries, remote, md5, now);
            (step.token.Err? ==> r == Err(step.token.error)) &&
            (step.token.Ok? && Empty(step.token.value) ==> r == Ok(false)) &&
            (step.token.Ok? && !Empty(step.token.value) ==>
               var listed := CheckReply(remote.departmentList(step.token.value, None), "get department list");
               (listed.Err? ==> r == Err(listed.error)) && (listed.Ok? ==> r == Ok(true)))
  {
    var step := FetchToken(v, entries, remote, md5, now);
    if step.token.Err? then Err(step.token.error)
    else if Empty(step.token.value) then Ok(false)
    else match CheckReply(remote.departmentList(step.token.value, None), "get department list")
      case Err(e) => Err(e)
      case Ok(_) => Ok(true)
  }

  class TokenCache {
    var entries: map<string, CacheEntry>

    constructor()
      ensures entries == map[]
    {
      entries := map[];
    }

    /** `get`: null once the entry has expired. */
    function Get(key: string, now: int): (r: Option<string>)
      reads this
      ensures r == Cached(entries, key, now)
    {
      Cached(entries, key, now)
    }

    /** `set(key, value, ttl)`. */
    method Set(key: string, value: string, ttl: int, now: int)
      modifies this
      ensures entries == old(entries)[key := CacheEntry(value, now + ttl)]
    {
      entries := entries[key := CacheEntry(value, now + ttl)];
    }
  }

  // ------------------------------------------------- authorization URL

  const AuthorizeEndpoint := "https://open.weixin.qq.com/connect/oauth2/authorize?"
  const WeChatRedirect := "wechat_redirect"
  const AuthNotConfigured := "Corp ID or Agent ID not configured"

  /** The `key=value` pieces `http_build_query` joins with `&`, each side
      passed through `urlencode`. */
  function QueryPieces(params: seq<(string, string)>, enc: string -> string): (r: seq<string>)
    ensures |r| == |params|
    ensures forall k :: 0 <= k < |r| ==> r[k] == enc(params[k].0) + "=" + enc(params[k].1)
  {
    seq(|params|, k requires 0 <= k < |params| => enc(params[k].0) + "=" + enc(params[k].1))
  }

  /** The parameters `getAuthUrl` hands to `http_build_query`: the
      redirect target is already encoded once; a PHP-falsy state becomes
      "STATE". */
  function AuthParams(v: Settings, redirectUri: string, state: string, scope: string,
                      enc: string -> string): (r: seq<(string, string)>)
    ensures |r| == 6
    ensures r[0] == ("appid", CorpId(v)) && r[4] == ("agentid", AgentId(v))
    ensures r[1] == ("redirect_uri", enc(redirectUri)) && r[2] == ("response_type", "code")
    ensures r[3] == ("scope", scope) && r[5].0 == "state"
    ensures !Empty(r[5].1) && (!Empty(state) ==> r[5].1 == state)
  {
    [("appid", CorpId(v)),
     ("redirect_uri", enc(redirectUri)),
     ("response_type", "code"),
     ("scope", scope),
     ("agentid", AgentId(v)),
     ("state", if Empty(state) then "STATE" else state)]
  }

  /** `getAuthUrl`. */
  function AuthUrl(v: Settings, redirectUri: string, state: string, scope: string,
                   enc: string -> string): (r: Result<string>)
    ensures r.Err? <==> Empty(CorpId(v)) || Empty(AgentId(v))
    ensures r.Err? ==> r.error == AuthNotConfigured
  {
    if Empty(CorpId(v)) || Empty(AgentId(v)) then Err(AuthNotConfigured)
    else Ok(AuthorizeEndpoint + Join(QueryPieces(AuthParams(v, redirectUri, state, scope, enc), enc), '&')
            + "#" + WeChatRedirect)
  }

  /** What `urlencode` guarantees and the server relies on: decoding
      undoes it, and its output never holds `&`, `=` or `#`. */
  ghost predicate UrlCodec(enc: string -> string, dec: string -> string) {
    forall s :: dec(enc(s)) == s && NoSep(enc(s), '&') && NoSep(enc(s), '=') && NoSep(enc(s), '#')
  }

  /** How the server reads a query string: cut at `&`, each piece cut at
      `=`, both sides decoded. */
  function ParseQuery(query: string, dec: string -> string): (r: seq<(string, string)>)
    ensures |r| == |Split(query, '&')|
  {
    var pieces := Split(query, '&');
    seq(|pieces|, k requires 0 <= k < |pieces| =>
      var kv := Split(pieces[k], '=');
      (dec(kv[0]), if |kv| >= 2 then dec(kv[1]) else ""))
  }

  /** How the authorization server reads a URL of this endpoint: the
      query up to the first `#`, and the fragment pieces after it. */
  function ParseAuthUrl(url: string, dec: string -> string): Option<(seq<(string, string)>, seq<string>)> {
    if !StartsWith(url, AuthorizeEndpoint) then None
    else
      var parts := Split(url[|AuthorizeEndpoint|..], '#');
      Some((ParseQuery(parts[0], dec), parts[1..]))
  }

  // ----------------------------------------------------------- the client

  class WeComApiService {
    const config: AppConfig
    const cache: TokenCache
    const remote: Provider
    const md5: string -> string
    const urlencode: string -> string

    constructor(config: AppConfig, cache: TokenCache, remote: Provider,
                md5: string -> string, urlencode: string -> string)
      ensures this.config == config && this.cache == cache && this.remote == remote
      ensures this.md5 == md5 && this.urlencode == urlencode
    {
      this.config := config;
      this.cache := cache;
      this.remote := remote;
      this.md5 := md5;
      this.urlencode := urlencode;
    }

    /** `getAccessToken`. */
    method GetAccessToken(now: int) returns (r: Result<string>)
      modifies cache
      ensures var step := FetchToken(config.values, old(cache.entries), remote, md5, now);
              r == step.token && cache.entries == step.entries
    {
      var corpId := CorpId(config.values);
      var appSecret := AppSecret(config.values);
      if Empty(corpId) || Empty(appSecret) {
        return Err(CredentialsMissing);
      }
      var key := TokenKeyPrefix + md5(corpId + appSecret);
      var cached := cache.Get(key, now);
      if cached.Some? {
        return Ok(cached.value);
      }
      var reply := remote.gettoken(corpId, appSecret);
      if reply.Unreachable? {
        return Err(reply.error);
      }
      if reply.body.None? {
        return Err("Failed to get access token: " + reply.errmsg.GetOr("Unknown error"));
      }
      cache.Set(key, reply.body.value, TokenTtl, now);
      r := Ok(reply.body.value);
    }

    /** `getUserInfoByCode`: the `userid` of the reply. */
    method GetUserInfoByCode(code: string, now: int) returns (r: Result<Option<string>>)
      modifies cache
      ensures cache.entries == FetchToken(config.values, old(cache.entries), remote, md5, now).entries
      ensures r == UserInfo(config.values, old(cache.entries), remote, md5, now, code)
    {
      var token := GetAccessToken(now);
      if token.Err? {
        return Err(token.error);
      }
      r := CheckReply(remote.getuserinfo(token.value, code), "get user info");
    }

    /** `getUserDetail`. */
    method GetUserDetail(userId: string, now: int) returns (r: Result<Member>)
      modifies cache
      ensures cache.entries == FetchToken(config.values, old(cache.entries), remote, md5, now).entries
      ensures r == UserDetail(config.values, old(cache.entries), remote, md5, now, userId)
    {
      var token := GetAccessToken(now);
      if token.Err? {
        return Err(token.error);
      }
      r := CheckReply(remote.userGet(token.value, userId), "get user detail");
    }

    /** `getDepartmentList`: the `department` list, `[]` when absent. */
    method GetDepartmentList(departmentId: Option<int>, now: int) returns (r: Result<seq<Department>>)
      modifies cache
      ensures cache.entries == FetchToken(config.values, old(cache.entries), remote, md5, now).entries
      ensures r == DepartmentListing(config.values, old(cache.entries), remote, md5, now, departmentId)
    {
      var token := GetAccessToken(now);
      if token.Err? {
        return Err(token.error);
      }
      r := ListOrEmpty(CheckReply(remote.departmentList(token.value, departmentId), "get department list"));
    }

    /** `getDepartmentUsers`: the `userlist` of `user/simplelist`. */
    method GetDepartmentUsers(departmentId: int, fetchChild: bool, now: int) returns (r: Result<seq<Member>>)
      modifies cache
      ensures var step := FetchToken(config.values, old(cache.entries), remote, md5, now);
              cache.entries == step.entries &&
              r == if step.token.Err? then Err(step.token.error)
                   else ListOrEmpty(CheckReply(remote.simpleList(step.token.value, departmentId,
                                                                 FetchChildFlag(fetchChild)),
                                               "get department users"))
    {
      var token := GetAccessToken(now);
      if token.Err? {
        return Err(token.error);
      }
      r := ListOrEmpty(CheckReply(remote.simpleList(token.value, departmentId, FetchChildFlag(fetchChild)),
                                  "get department users"));
    }

    /** `getDepartmentUsersDetail`: the `userlist` of `user/list`. */
    method GetDepartmentUsersDetail(departmentId: int, fetchChild: bool, now: int) returns (r: Result<seq<Member>>)
      modifies cache
      ensures cache.entries == FetchToken(config.values, old(cache.entries), remote, md5, now).entries
      ensures r == MemberListing(config.values, old(cache.entries), remote, md5, now, departmentId, fetchChild)
    {
      var token := GetAccessToken(now);
      if token.Err? {
        return Err(token.error);
      }
      r := ListOrEmpty(CheckReply(remote.userList(token.value, departmentId, FetchChildFlag(fetchChild)),
                                  "get department users detail"));
    }

    /** `testConnection`: false for a PHP-empty token, true once the
        department listing passes its check; errors are passed on. */
    method TestConnection(now: int) returns (r: Result<bool>)
      modifies cache
      ensures cache.entries == FetchToken(config.values, old(cache.entries), remote, md5, now).entries
      ensures r == ConnectionCheck(config.values, old(cache.entries), remote, md5, now)
    {
      var token := GetAccessToken(now);
      if token.Err? {
        return Err(token.error);
      }
      if Empty(token.value) {
        return Ok(false);
      }
      // The second token lookup hits the entry the first one wrote or found.
      var listed := GetDepartmentList(None, now);
      if listed.Err? {
        return Err(listed.error);
      }
      r := Ok(true);
    }

    /** `sendMessage`: a text message from the configured agent. */
    method SendMessage(userId: string, content: string, now: int) returns (r: Result<bool>)
      modifies cache
      ensures var step := FetchToken(config.values, old(cache.entries), remote, md5, now);
              cache.entries == step.entries &&
              (step.token.Err? ==> r == Err(step.token.error)) &&
              (step.token.Ok? ==>
                 var sent := CheckReply(remote.messageSend(step.token.value,
                                          TextMessage(userId, "text", AgentId(config.values), content)),
                                        "send message");
                 (sent.Err? ==> r == Err(sent.error)) && (sent.Ok? ==> r == Ok(true)))
    {
      var token := GetAccessToken(now);
      if token.Err? {
        return Err(token.error);
      }
      var body := TextMessage(userId, "text", AgentId(config.values), content);
      var sent := CheckReply(remote.messageSend(token.value, body), "send message");
      if sent.Err? {
        return Err(sent.error);
      }
      r := Ok(true);
    }
  }

  // ------------------------------------------------------------ properties

  /** Without a corp id and a secret the token lookup fails at once: the
      cache is left alone and the server is never asked. */
  lemma TokenNeedsCredentials(v: Settings, entries: map<string, CacheEntry>, remote: Provider,
                              md5: string -> string, now: int)
    requires Empty(CorpId(v)) || Empty(AppSecret(v))
    ensures FetchToken(v, entries, remote, md5, now) == TokenStep(Err(CredentialsMissing), entries)
  {
  }

  /** A live cache entry is returned as it is, whatever the server would
      answer, and the cache is left alone. */
  lemma TokenFromCache(v: Settings, entries: map<string, CacheEntry>, remote1: Provider,
                       remote2: Provider, md5: string -> string, now: int)
    requires !Empty(CorpId(v)) && !Empty(AppSecret(v))
    requires Cached(entries, TokenKey(v, md5), now).Some?
    ensures FetchToken(v, entries, remote1, md5, now) == FetchToken(v, entries, remote2, md5, now)
    ensures FetchToken(v, entries, remote1, md5, now) ==
            TokenStep(Ok(entries[TokenKey(v, md5)].token), entries)
  {
  }

  /** On a miss, a reply without `access_token` is an error carrying the
      server's message and writes nothing; a token is stored for 7000
      seconds under the key derived from the credentials and returned. */
  lemma TokenOnMiss(v: Settings, entries: map<string, CacheEntry>, remote: Provider,
                    md5: string -> string, now: int)
    requires !Empty(CorpId(v)) && !Empty(AppSecret(v))
    requires Cached(entries, TokenKey(v, md5), now).None?
    ensures var reply := remote.gettoken(CorpId(v), AppSecret(v));
            var step := FetchToken(v, entries, remote, md5, now);
            (reply.Answer? && reply.body.None? ==>
               step == TokenStep(Err("Failed to get access token: " + reply.errmsg.GetOr("Unknown error")), entries)) &&
            (reply.Answer? && reply.body.Some? ==>
               step == TokenStep(Ok(reply.body.value),
                                 entries[TokenKeyPrefix + md5(CorpId(v) + AppSecret(v)) :=
                                         CacheEntry(reply.body.value, now + TokenTtl)]))
  {
  }

  /** Once a token has been obtained, every later lookup before its entry
      expires returns the same token without asking the server (whatever
      it would now answer) and without touching the cache; a token fetched
      on a miss lives 7000 seconds. */
  lemma TokenReused(v: Settings, entries: map<string, CacheEntry>, remote1: Provider, remote2: Provider,
                    md5: string -> string, now: int, later: int)
    requires FetchToken(v, entries, remote1, md5, now).token.Ok?
    ensures var step := FetchToken(v, entries, remote1, md5, now);
            TokenKey(v, md5) in step.entries &&
            (Cached(entries, TokenKey(v, md5), now).None? ==>
               step.entries[TokenKey(v, md5)].expiresAt == now + TokenTtl)
    ensures var step := FetchToken(v, entries, remote1, md5, now);
            now <= later < step.entries[TokenKey(v, md5)].expiresAt ==>
              FetchToken(v, step.entries, remote2, md5, later) == TokenStep(step.token, step.entries)
  {
  }

  /** A lookup settles the cache: at the same instant every later lookup
      has the same outcome and writes nothing more, so the calls of one
      run all see one token, or all fail with one error. */
  lemma TokenSettles(v: Settings, entries: map<string, CacheEntry>, remote: Provider,
                     md5: string -> string, now: int)
    ensures var step := FetchToken(v, entries, remote, md5, now);
            TokenKept(v, entries, step.entries, remote, md5, now) &&
            FetchToken(v, step.entries, remote, md5, now).entries == step.entries
  {
    var step := FetchToken(v, entries, remote, md5, now);
    if step.token.Ok? {
      assert Cached(step.entries, TokenKey(v, md5), now) == Some(step.token.value);
    }
  }

  /** Calls made from caches with the same token outcome get the same
      answers. */
  lemma SameTokenSameCalls(v: Settings, e0: map<string, CacheEntry>, e1: map<string, CacheEntry>,
                           remote: Provider, md5: string -> string, now: int)
    requires TokenKept(v, e0, e1, remote, md5, now)
    ensures forall d :: DepartmentListing(v, e1, remote, md5, now, d) == DepartmentListing(v, e0, remote, md5, now, d)
    ensures forall d, c :: MemberListing(v, e1, remote, md5, now, d, c) == MemberListing(v, e0, remote, md5, now, d, c)
    ensures forall code :: UserInfo(v, e1, remote, md5, now, code) == UserInfo(v, e0, remote, md5, now, code)
    ensures forall u :: UserDetail(v, e1, remote, md5, now, u) == UserDetail(v, e0, remote, md5, now, u)
  {
  }

  /** Every piece `http_build_query` writes is free of `&` and `#`, so the
      query string splits back into them. */
  lemma {:induction false} JoinKeepsNoSep(xs: seq<string>, sep: char, c: char)
    requires c != sep
    requires forall k :: 0 <= k < |xs| ==> NoSep(xs[k], c)
    ensures NoSep(Join(xs, sep), c)
    decreases |xs|
  {
    if |xs| > 1 {
      JoinKeepsNoSep(xs[1..], sep, c);
      var rest := Join(xs[1..], sep);
      assert Join(xs, sep) == xs[0] + [sep] + rest;
      forall i | 0 <= i < |Join(xs, sep)|
        ensures Join(xs, sep)[i] != c
      {
        if i < |xs[0]| {
          assert Join(xs, sep)[i] == xs[0][i];
        } else if i > |xs[0]| {
          assert Join(xs, sep)[i] == rest[i - |xs[0]| - 1];
        }
      }
    }
  }

  /** One `key=value` piece splits at its `=` into the encoded key and
      value. */
  lemma PieceSplits(enc: string -> string, dec: string -> string, key: string, value: string)
    requires UrlCodec(enc, dec)
    ensures Split(enc(key) + "=" + enc(value), '=') == [enc(key), enc(value)]
    ensures NoSep(enc(key) + "=" + enc(value), '&') && NoSep(enc(key) + "=" + enc(value), '#')
  {
    assert NoSep(enc(key), '=') && NoSep(enc(value), '=');
    assert enc(key) + "=" + enc(value) == enc(key) + ['='] + enc(value);
    SplitAtSep(enc(key), enc(value), '=');
    SplitNoSep(enc(value), '=');
    var p := enc(key) + "=" + enc(value);
    assert NoSep(enc(key), '&') && NoSep(enc(value), '&');
    assert NoSep(enc(key), '#') && NoSep(enc(value), '#');
    forall i | 0 <= i < |p|
      ensures p[i] != '&' && p[i] != '#'
    {
      if i < |enc(key)| {
        assert p[i] == enc(key)[i];
      } else if i > |enc(key)| {
        assert p[i] == enc(value)[i - |enc(key)| - 1];
      }
    }
  }

  /** A query string `http_build_query` wrote reads back as the
      parameters it was given, and holds no `#`. */
  lemma QueryRoundTrip(params: seq<(string, string)>, enc: string -> string, dec: string -> string)
    requires UrlCodec(enc, dec) && |params| >= 1
    ensures ParseQuery(Join(QueryPieces(params, enc), '&'), dec) == params
    ensures NoSep(Join(QueryPieces(params, enc), '&'), '#')
  {
    var pieces := QueryPieces(params, enc);
    forall k | 0 <= k < |pieces|
      ensures NoSep(pieces[k], '&') && NoSep(pieces[k], '#')
      ensures Split(pieces[k], '=') == [enc(params[k].0), enc(params[k].1)]
    {
      PieceSplits(enc, dec, params[k].0, params[k].1);
    }
    JoinKeepsNoSep(pieces, '&', '#');
    SplitJoin(pieces, '&');
    var r := ParseQuery(Join(pieces, '&'), dec);
    forall k | 0 <= k < |params|
      ensures r[k] == params[k]
    {
      assert dec(enc(params[k].0)) == params[k].0;
      assert dec(enc(params[k].1)) == params[k].1;
    }
  }

  /** Cutting a known prefix off a string gives the rest back. */
  lemma PrefixRest(e: string, q: string, f: string)
    ensures e + q + f == e + (q + f)
    ensures StartsWith(e + (q + f), e) && (e + (q + f))[|e|..] == q + f
  {
  }

  /** A query and a fragment, neither holding `#`, joined by `#` split
      back into the two. */
  lemma FragmentSplit(query: string, fragment: string)
    requires NoSep(query, '#') && NoSep(fragment, '#')
    ensures Split(query + ("#" + fragment), '#') == [query, fragment]
  {
    assert query + ("#" + fragment) == query + ['#'] + fragment;
    SplitAtSep(query, fragment, '#');
    SplitNoSep(fragment, '#');
  }

  /** An address made of the endpoint, a query without `#` and the
      fragment splits back into that query and the fragment. */
  lemma EndpointUrlReads(query: string, dec: string -> string)
    requires NoSep(query, '#')
    ensures ParseAuthUrl(AuthorizeEndpoint + query + "#" + WeChatRedirect, dec) ==
            Some((ParseQuery(query, dec), [WeChatRedirect]))
  {
    PrefixRest(AuthorizeEndpoint + query, "#", WeChatRedirect);
    PrefixRest(AuthorizeEndpoint, query, "#" + WeChatRedirect);
    assert NoSep(WeChatRedirect, '#');
    FragmentSplit(query, WeChatRedirect);
  }

  /** The server reads back exactly the parameters `getAuthUrl` chose, in
      order, and the fragment `wechat_redirect`. In particular it receives
      the state (or "STATE") unchanged, and a redirect target that is
      still URL-encoded after its one decoding, because `getAuthUrl`
      encodes it before `http_build_query` encodes it again. */
  lemma AuthUrlRoundTrip(v: Settings, redirectUri: string, state: string, scope: string,
                         enc: string -> string, dec: string -> string)
    requires UrlCodec(enc, dec)
    requires !Empty(CorpId(v)) && !Empty(AgentId(v))
    ensures ParseAuthUrl(AuthUrl(v, redirectUri, state, scope, enc).value, dec) ==
            Some(([("appid", CorpId(v)),
                   ("redirect_uri", enc(redirectUri)),
                   ("response_type", "code"),
                   ("scope", scope),
                   ("agentid", AgentId(v)),
                   ("state", if Empty(state) then "STATE" else state)],
                  [WeChatRedirect]))
  {
    var params := AuthParams(v, redirectUri, state, scope, enc);
    var query := Join(QueryPieces(params, enc), '&');
    QueryRoundTrip(params, enc, dec);
    EndpointUrlReads(query, dec);
  }
}
