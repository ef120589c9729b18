# oauthwecom in Dafny

A model of the Nextcloud application *oauthwecom*, which lets members of a
WeCom (WeChat Work) organisation sign in to Nextcloud and keeps the
organisation's departments and members in step with Nextcloud groups and
accounts. The model covers:

- **The login flow** (`OAuth`). `authorize` stores a one-time state token
  in the session and redirects to WeCom. `callback` checks and consumes
  that token, exchanges the code for the member's id and profile, and
  resolves the member to an account: an existing binding first, then the
  configured match fields, then a new account if that is enabled. It then
  logs the account in and records the outcome in the audit trail.
- **The directory sync** (`Sync`, `SyncJob`). Departments become groups.
  Members become accounts bound to their WeCom id by a mapping row, and
  join the groups of their departments. The run is triggered by the
  scheduled job or by the administrator.
- **The settings** (`Config`). These are strings in Nextcloud's app-config
  table, read with their defaults.
- **The administration endpoints** (`Admin`).
- **The WeCom API client** (`WeComApi`): the access-token cache, the
  `errcode` check, the authorization URL and the message body.
- **The audit trail** (`Audit`, `AuditLogDb`).
- **The mapping table** (`UserMappingDb`).
- **User-agent classification** (`DeviceDetect`).

The Nextcloud services the code drives (user manager, group manager and
session) are reduced to the state the application reads and writes
(`Host`). The PHP built-ins the decisions depend on are written out in
`Php`, with the gaps of the `(int)` cast and of `array_filter` keys listed
under "Left out":

- `empty()` treats "" and "0" as false;
- `explode`/`implode`;
- `array_filter`;
- the `(int)` and `(string)` casts;
- `json_encode` of an integer list;
- `bin2hex`.

Stateful code is modelled as classes that own their state:

- the app-config map;
- the token cache;
- the two database tables;
- the session;
- the user and group directories.

Each method states the new state in terms of the old. The decisions are
pure functions, with lemmas about them. Among these:

- the state token is consumed before anything else and is never accepted twice;
- a successful login logs in exactly the account the member's WeCom id resolves to;
- first-match-wins for the match fields;
- token reuse from the cache;
- the authorization URL reads back as the parameters chosen;
- settings round-trip through their string encodings;
- a second sync run creates no groups;
- a sync never removes accounts, groups or mapping keys, and a sync with no error leaves every listed member bound, so the next one creates nothing.

## Model

| member | source | states |
|---|---|---|
| Php.Lower | lib/Service/DeviceDetectService.php:22-33 | `strtolower` maps each character on its own and keeps the length |
| Php.LowerIdempotent | lib/Service/DeviceDetectService.php:22-33 | lower-casing an already lower-cased header changes nothing |
| Php.LowerKeepsEmpty | lib/Service/DeviceDetectService.php:22-33 | lower-casing never turns a PHP-empty header into a non-empty one, or back |
| Php.Contains | lib/Service/DeviceDetectService.php:22-33 | `str_contains`: a found needle is no longer than the haystack; the empty needle is always found |
| Php.ContainsAt | lib/Service/DeviceDetectService.php:22-33 | a needle occurring at a position is contained |
| Php.ContainsOffset | lib/Service/DeviceDetectService.php:22-33 | a needle contained in a suffix is contained in the whole |
| Php.Split | lib/Service/ConfigService.php:161-164 | `explode` on one separator always yields at least one piece |
| Php.Join | lib/Service/ConfigService.php:169-171 | `implode`: "" for no items; otherwise it starts with the first item, followed by the separator when there are two or more |
| Php.JoinSplit | lib/Service/ConfigService.php:161-171 | `implode(explode(s))` is `s` |
| Php.SplitJoin | lib/Service/ConfigService.php:161-171 | `explode(implode(xs))` is `xs` when no item holds the separator |
| Php.FilterFalsy | lib/Service/ConfigService.php:161-164 | `array_filter` keeps exactly the PHP-truthy items, and no others |
| Php.FilterFalsyKeepsTruthy | lib/Service/ConfigService.php:161-164 | filtering a list with no falsy item returns it unchanged |
| Php.JoinTruthy | lib/Service/ConfigService.php:190-196 | a join that starts with a PHP-truthy item is PHP-truthy |
| Php.ExplodeImplode | lib/Service/ConfigService.php:190-203 | `array_filter(explode(implode(xs)))` is `xs` for truthy comma-free items; the joined text is PHP-empty exactly when `xs` is empty |
| Php.IntToString | lib/Service/ConfigService.php:154-156 | `(string)$i` is an optional minus sign followed by decimal digits |
| Php.IntStringRoundTrip | lib/Service/ConfigService.php:147-156 | `(int)(string)$i == $i` |
| Php.StringToInt | lib/Service/ConfigService.php:147-149 | `(int)$s`: a digit string reads as its decimal value; "-" and digits as the negation; text whose first non-space character is not a digit or sign reads as 0 |
| Php.IntToStringInjective | lib/Controller/OAuthController.php:292-294 | distinct timestamps give distinct suffixes |
| Php.Bin2Hex | lib/Controller/OAuthController.php:64 | `bin2hex` gives two lower-case hex digits per byte, so 16 random bytes give a 32-character state |
| Php.Bin2HexInjective | lib/Controller/OAuthController.php:64 | different random bytes give different state tokens |
| Php.JsonIntListRoundTrip | lib/Controller/OAuthController.php:343 | the stored `json_encode` of a department list decodes back to that list |
| Php.JsonIntList | lib/Controller/OAuthController.php:343 | `json_encode` of an integer list is bracketed, and "[]" for no items |
| Php.ParseIntList | lib/Db/UserMappingMapper.php:117-127 | reading a stored department list: unbracketed text and "[]" give no ids; otherwise one id per comma-separated piece |
| Php.JsonIntListShape | lib/Controller/OAuthController.php:343 | the encoded list is "[" + the comma-joined decimal ids + "]" |
| Sorting.SortDesc | lib/Db/AuditLogMapper.php:26-36 | `ORDER BY … DESC` yields a sorted permutation of the rows |
| Sorting.Where | lib/Db/AuditLogMapper.php:45-57 | `WHERE p` selects exactly the rows satisfying `p` |
| Sorting.WhereCount | lib/Db/AuditLogMapper.php:171-180 | rows kept and rows deleted add up to the table |
| Sorting.Page | lib/Db/AuditLogMapper.php:26-36 | `LIMIT/OFFSET` yields `min(limit, n - offset)` consecutive rows starting at `offset` |
| Sorting.FirstPageIsTop | lib/Db/AuditLogMapper.php:26-36 | the first page of a sorted table holds its largest keys |
| Sorting.PageSorted | lib/Db/AuditLogMapper.php:26-36 | a page of a sorted table is sorted |
| Sorting.PageSubMultiset | lib/Db/AuditLogMapper.php:26-36 | a page holds only rows of the table, each at most as often as the table does |
| Config.AppValue | lib/Service/ConfigService.php:35-37 | `getAppValue` returns the stored text, else the default |
| Config.CorpId | lib/Service/ConfigService.php:35-37 | `getCorpId`: the stored `corp_id`, else "" |
| Config.AgentId | lib/Service/ConfigService.php:49-51 | `getAgentId`: the stored `agent_id`, else "" |
| Config.AppSecret | lib/Service/ConfigService.php:63-65 | `getAppSecret`: the stored `app_secret`, else "" |
| Config.CallbackUrl | lib/Service/ConfigService.php:77-79 | `getCallbackUrl`: the stored `callback_url`, else "" |
| Config.IsEnabled | lib/Service/ConfigService.php:91-93 | true iff `enabled` is stored as "yes"; unset is false |
| Config.IsForceLogin | lib/Service/ConfigService.php:105-107 | true iff `force_login` is stored as "yes" |
| Config.IsAutoCreateUser | lib/Service/ConfigService.php:119-121 | true iff `auto_create_user` is unset or stored as "yes" |
| Config.IsSyncEnabled | lib/Service/ConfigService.php:133-135 | true iff `sync_enabled` is stored as "yes" |
| Config.SyncFrequency | lib/Service/ConfigService.php:147-149 | the `(int)` reading of the stored `sync_frequency`; 24 when unset |
| Config.DefaultQuota | lib/Service/ConfigService.php:176-178 | the stored `default_quota`, else "default" |
| Config.IsNotificationsEnabled | lib/Service/ConfigService.php:208-210 | true iff `notifications_enabled` is stored as "yes" |
| Config.IsConfigured | lib/Service/ConfigService.php:222-226 | true iff `corp_id`, `agent_id` and `app_secret` are all stored and PHP-truthy |
| Config.UserMatchFields | lib/Service/ConfigService.php:161-164 | the match fields contain no PHP-empty entry |
| Config.SyncDepartments | lib/Service/ConfigService.php:190-196 | a PHP-empty stored text means no departments; no listed id is PHP-empty |
| Config.AllConfig | lib/Service/ConfigService.php:231-248 | every reader's value; the secret is masked when truthy and "" otherwise; `is_configured` iff all three credentials are truthy |
| Config.AppConfig.Put | lib/Service/ConfigService.php:42-44 | `setAppValue` overwrites one key and nothing else |
| Config.AppConfig.SetCorpId | lib/Service/ConfigService.php:42-44 | writes `corp_id` only |
| Config.AppConfig.SetAgentId | lib/Service/ConfigService.php:56-58 | writes `agent_id` only |
| Config.AppConfig.SetAppSecret | lib/Service/ConfigService.php:70-72 | writes `app_secret` only |
| Config.AppConfig.SetCallbackUrl | lib/Service/ConfigService.php:84-86 | writes `callback_url` only |
| Config.AppConfig.SetEnabled | lib/Service/ConfigService.php:98-100 | writes yes/no, and `isEnabled` then reads back the value written |
| Config.AppConfig.SetForceLogin | lib/Service/ConfigService.php:112-114 | writes yes/no, and `isForceLogin` reads it back |
| Config.AppConfig.SetAutoCreateUser | lib/Service/ConfigService.php:126-128 | writes yes/no, and `isAutoCreateUser` reads it back |
| Config.AppConfig.SetSyncEnabled | lib/Service/ConfigService.php:140-142 | writes yes/no, and `isSyncEnabled` reads it back |
| Config.AppConfig.SetNotificationsEnabled | lib/Service/ConfigService.php:215-217 | writes yes/no, and `isNotificationsEnabled` reads it back |
| Config.AppConfig.SetSyncFrequency | lib/Service/ConfigService.php:154-156 | writes the decimal text, and `getSyncFrequency` reads back the same hours |
| Config.AppConfig.SetUserMatchFields | lib/Service/ConfigService.php:169-171 | writes the comma-joined list only |
| Config.AppConfig.SetDefaultQuota | lib/Service/ConfigService.php:183-185 | writes `default_quota` only |
| Config.AppConfig.SetSyncDepartments | lib/Service/ConfigService.php:201-203 | writes the comma-joined ids only |
| Config.UnsetDefaults | lib/Service/ConfigService.php:35-226 | with nothing stored, every reader gives its default (disabled, auto-create on, 24 h, email+phone, "default" quota, no departments) and the app is not configured |
| Config.DefaultMatchFields | lib/Service/ConfigService.php:161-164 | unset match fields read as `["email", "phone"]` |
| Config.FlagRoundTrip | lib/Service/ConfigService.php:91-142 | a yes/no flag reads back the boolean written |
| Config.FrequencyRoundTrip | lib/Service/ConfigService.php:147-156 | set-then-get of the frequency is the identity |
| Config.MatchFieldsRoundTrip | lib/Service/ConfigService.php:161-171 | set-then-get of truthy, comma-free match fields is the identity |
| Config.SyncDepartmentsRoundTrip | lib/Service/ConfigService.php:190-203 | set-then-get of truthy, comma-free department ids is the identity, including the empty list |
| Config.SnapshotHidesSecret | lib/Service/ConfigService.php:235 | the snapshot never shows a stored secret other than "" or the mask text |
| DeviceDetect.UserAgent | lib/Service/DeviceDetectService.php:141-143 | the header, or "" when missing |
| DeviceDetect.IsWeComApp | lib/Service/DeviceDetectService.php:22-33 | true iff the header is present, PHP-truthy and, lower-cased, contains "wxwork" or "wechatwork" |
| DeviceDetect.IsMobileDevice | lib/Service/DeviceDetectService.php:38-66 | true only for a present, PHP-truthy header that, lower-cased, contains one of the mobile keywords |
| DeviceDetect.IsIOSDevice | lib/Service/DeviceDetectService.php:71-83 | true iff the header is present, PHP-truthy and, lower-cased, contains "iphone", "ipad" or "ipod" |
| DeviceDetect.IsAndroidDevice | lib/Service/DeviceDetectService.php:88-96 | true iff the header is present, PHP-truthy and, lower-cased, contains "android" |
| DeviceDetect.IsWeChatBrowser | lib/Service/DeviceDetectService.php:101-111 | true iff the header is present, PHP-truthy and, lower-cased, contains "micromessenger" |
| DeviceDetect.FirstKeyword | lib/Service/DeviceDetectService.php:38-66 | the first keyword in list order that occurs, or none iff no keyword occurs |
| DeviceDetect.DeviceType | lib/Service/DeviceDetectService.php:116-136 | one of the six labels |
| DeviceDetect.NeedsSpecialHandling | lib/Service/DeviceDetectService.php:148-150 | true for the WeCom-app and the three mobile labels, false for desktop; for a WeChat browser, exactly when the agent is also mobile |
| DeviceDetect.EmptyAgentIsDesktop | lib/Service/DeviceDetectService.php:22-150 | a missing or PHP-empty header fails every test and is `desktop` |
| DeviceDetect.MobileIffKeyword | lib/Service/DeviceDetectService.php:38-66 | `isMobileDevice` iff one of the nine keywords occurs in the lower-cased header |
| DeviceDetect.IOSIsMobile | lib/Service/DeviceDetectService.php:71-83 | every iOS agent is mobile |
| DeviceDetect.AndroidIsMobile | lib/Service/DeviceDetectService.php:88-96 | every Android agent is mobile |
| DeviceDetect.DeviceTypePriority | lib/Service/DeviceDetectService.php:116-136 | each label holds iff its test holds and no earlier test does (wecom_app, wechat_browser, ios, android, other mobile, desktop) |
| DeviceDetect.SpecialHandlingByLabel | lib/Service/DeviceDetectService.php:148-150 | special handling is needed for the WeCom-app and mobile labels, and never for desktop |
| DeviceDetect.CaseInsensitive | lib/Service/DeviceDetectService.php:22-136 | headers equal up to ASCII case are classified alike |
| Host.UserDirectory.ByEmail | lib/Controller/OAuthController.php:247 | every account `getByEmail` lists exists and has that address up to the case of ASCII letters |
| Host.UserDirectory.CreateUser | lib/Controller/OAuthController.php:300-305 | `createUser` raises for a taken uid; gives null when the back-end declines; otherwise adds an empty account |
| Host.UserDirectory.SetDisplayName | lib/Controller/OAuthController.php:308-310 | sets that one account's display name only |
| Host.UserDirectory.SetEMailAddress | lib/Controller/OAuthController.php:313-315 | sets that one account's address only |
| Host.UserDirectory.SetQuota | lib/Controller/OAuthController.php:318-321 | sets that one account's quota only |
| Host.GroupDirectory.CreateGroup | lib/Service/SyncService.php:133-139 | an existing group is kept; a name over 255 characters raises; a declined name changes nothing; otherwise an empty group is added |
| Host.GroupDirectory.AddUser | lib/Service/SyncService.php:306-307 | adds the uid to that one group only |
| Host.Session.Get | lib/Controller/OAuthController.php:108 | null for a missing key, else the stored value |
| Host.Session.Set | lib/Controller/OAuthController.php:65-69 | overwrites one key; the logged-in user is untouched |
| Host.Session.Remove | lib/Controller/OAuthController.php:121 | drops one key; the logged-in user is untouched |
| Host.Session.LogIn | lib/Controller/OAuthController.php:163-164 | the session is logged in as the uid; its values are unchanged |
| WeComApi.CheckReply | lib/Service/WeComApiService.php:124-127 | an `errcode` present and non-zero is an error named after the call that carries `errmsg` or "Unknown error"; an absent or zero one passes the body through; a transport failure passes its error on |
| WeComApi.ListOrEmpty | lib/Service/WeComApiService.php:194 | a missing list key reads as `[]`; errors pass through |
| WeComApi.FetchChildFlag | lib/Service/WeComApiService.php:213 | `fetch_child` is 1 iff requested, else 0 |
| WeComApi.Cached | lib/Service/WeComApiService.php:46-51 | a cache hit iff the key is present and not yet expired |
| WeComApi.TokenKey | lib/Service/WeComApiService.php:46 | the cache key is `oauthwecom_token_` followed by the md5 of corp id and secret |
| WeComApi.FetchToken | lib/Service/WeComApiService.php:37-80 | a failed lookup leaves the cache alone; a token returned is live in the new cache under `TokenKey`; no other entry changes |
| WeComApi.TokenCache.Get | lib/Service/WeComApiService.php:47 | the cache read agrees with `Cached` |
| WeComApi.TokenCache.Set | lib/Service/WeComApiService.php:73 | stores the token with expiry `now + ttl` under one key only |
| WeComApi.DepartmentListing | lib/Service/WeComApiService.php:172-199 | a token error is passed on; success implies a token was obtained |
| WeComApi.MemberListing | lib/Service/WeComApiService.php:238-263 | a token error is passed on; success implies a token was obtained |
| WeComApi.UserInfo | lib/Service/WeComApiService.php:110-134 | the same for `getuserinfo` |
| WeComApi.UserDetail | lib/Service/WeComApiService.php:141-165 | the same for `user/get` |
| WeComApi.ConnectionCheck | lib/Service/WeComApiService.php:270-287 | token error → error; PHP-empty token → false; else the listing's error, or true |
| WeComApi.QueryPieces | lib/Service/WeComApiService.php:102 | `http_build_query` writes one encoded `key=value` piece per parameter, in order |
| WeComApi.AuthParams | lib/Service/WeComApiService.php:93-101 | six parameters in order: appid = corp id, redirect_uri encoded, response_type = code, the scope, agentid, and the state, which is never PHP-empty and is the given one when truthy |
| WeComApi.AuthUrl | lib/Service/WeComApiService.php:85-103 | fails with "Corp ID or Agent ID not configured" iff either id is PHP-empty |
| WeComApi.ParseQuery | lib/Service/WeComApiService.php:102 | the server's reading of a query: one pair per `&`-piece |
| WeComApi.WeComApiService.GetAccessToken | lib/Service/WeComApiService.php:37-80 | the token and the new cache are those of `FetchToken`: missing credentials fail; a live entry is reused; a reply without `access_token` fails with its `errmsg`; a new token is cached for 7000 s |
| WeComApi.WeComApiService.GetUserInfoByCode | lib/Service/WeComApiService.php:110-134 | the token's error, or the checked `getuserinfo` reply |
| WeComApi.WeComApiService.GetUserDetail | lib/Service/WeComApiService.php:141-165 | the token's error, or the checked `user/get` reply |
| WeComApi.WeComApiService.GetDepartmentList | lib/Service/WeComApiService.php:172-199 | equals `DepartmentListing`: the checked `department` list, `[]` when absent |
| WeComApi.WeComApiService.GetDepartmentUsers | lib/Service/WeComApiService.php:206-231 | the checked `userlist` of `user/simplelist` with the 0/1 `fetch_child` flag, `[]` when absent |
| WeComApi.WeComApiService.GetDepartmentUsersDetail | lib/Service/WeComApiService.php:238-263 | the same for `user/list` |
| WeComApi.WeComApiService.TestConnection | lib/Service/WeComApiService.php:270-287 | equals `ConnectionCheck`; the second token lookup reuses the first token, so the cache is what the first lookup left |
| WeComApi.WeComApiService.SendMessage | lib/Service/WeComApiService.php:294-329 | sends the text body (`touser`, "text", the configured agent id, the content); true unless the token or the reply check fails |
| WeComApi.TokenNeedsCredentials | lib/Service/WeComApiService.php:41-43 | without a corp id or secret, the lookup fails and the cache is untouched |
| WeComApi.TokenFromCache | lib/Service/WeComApiService.php:46-51 | a live entry is returned whatever the server would say, and the cache is unchanged |
| WeComApi.TokenOnMiss | lib/Service/WeComApiService.php:53-79 | on a miss the server's token is returned and cached for 7000 s, or its `errmsg` becomes the error |
| WeComApi.TokenReused | lib/Service/WeComApiService.php:37-80 | after a successful lookup, any later lookup before expiry returns the same token without asking the server |
| WeComApi.TokenSettles | lib/Service/WeComApiService.php:37-80 | after one lookup, a second one changes nothing and gives every call the same token |
| WeComApi.SameTokenSameCalls | lib/Service/WeComApiService.php:110-263 | two caches that give the same token give the same replies from every endpoint |
| WeComApi.QueryRoundTrip | lib/Service/WeComApiService.php:102 | the server reads back exactly the parameters `http_build_query` wrote, given a `urlencode` that decodes and never emits `&`, `=` or `#` |
| WeComApi.EndpointUrlReads | lib/Service/WeComApiService.php:102 | endpoint + query + `#wechat_redirect` splits back into the query's pairs and the fragment |
| WeComApi.AuthUrlRoundTrip | lib/Service/WeComApiService.php:85-103 | the authorization URL reads back as appid, redirect_uri, response_type=code, scope, agentid and state (or "STATE" when falsy), with fragment `wechat_redirect` |
| AuditLogDb.Newest | lib/Db/AuditLogMapper.php:45-57 | exactly `min(limit, matches)` matching rows, each at most as often as in the table, sorted newest first; all matches when few enough; no match left out is newer than one kept |
| AuditLogDb.NewestFacts | lib/Db/AuditLogMapper.php:45-57 | sort-then-limit over the filtered rows has the properties `Newest` promises |
| AuditLogDb.FindRecent | lib/Db/AuditLogMapper.php:26-36 | exactly `min(limit, n - offset)` rows, the k-th being the `offset + k`-th newest of the table, so newest first with `offset` skipped |
| AuditLogDb.RecentFacts | lib/Db/AuditLogMapper.php:26-36 | sort-then-page has the properties `FindRecent` promises |
| AuditLogDb.RecentSorted | lib/Db/AuditLogMapper.php:26-36 | a page of the sorted table is sorted newest first |
| AuditLogDb.RecentRows | lib/Db/AuditLogMapper.php:26-36 | a page holds only rows of the table; the first page of a small table holds all of them |
| AuditLogDb.NewestAt | lib/Db/AuditLogMapper.php:45-57 | at most `limit` rows come back, each matching the filter |
| AuditLogDb.FindByWecomUserId | lib/Db/AuditLogMapper.php:45-57 | entries of that WeCom id, newest first: exactly `min(limit, matches)` of them, a sub-multiset of the matches, with no match left out newer than one kept |
| AuditLogDb.FindByNextcloudUid | lib/Db/AuditLogMapper.php:66-78 | the same for the account uid |
| AuditLogDb.FindByAction | lib/Db/AuditLogMapper.php:87-99 | the same for the action |
| AuditLogDb.FindByStatus | lib/Db/AuditLogMapper.php:108-120 | the same for the status |
| AuditLogDb.FindByTimeRange | lib/Db/AuditLogMapper.php:130-145 | the same for `start <= created_at <= end`, both bounds inclusive |
| AuditLogDb.AuditTable.Count | lib/Db/AuditLogMapper.php:152-163 | the number of rows |
| AuditLogDb.AuditTable.Insert | lib/Service/AuditService.php:59 | appends the row under the next auto-increment id |
| AuditLogDb.AuditTable.DeleteOlderThan | lib/Db/AuditLogMapper.php:171-180 | removes exactly the rows created before `t`, keeps the rest in order, and returns how many went |
| AuditLogDb.DeleteOlderThanIdempotent | lib/Db/AuditLogMapper.php:171-180 | pruning again at the same cutoff removes nothing |
| AuditLogDb.RecentAfterPrune | lib/Db/AuditLogMapper.php:26-36 | after pruning at `t`, recent entries are all from `t` on |
| Audit.StatusOf | lib/Service/AuditService.php:65-78 | "success" iff the flag is set, "failed" otherwise |
| Audit.DetailsText | lib/Service/AuditService.php:56 | null or empty details store "", others their JSON text |
| Audit.FormatLog | lib/Service/AuditService.php:225-247 | copies every column; `details` is present iff the stored text is PHP-truthy |
| Audit.FormatLogs | lib/Service/AuditService.php:225-247 | one view per row, in order |
| Audit.AuditService.CreateLog | lib/Service/AuditService.php:40-60 | appends exactly one entry with absent values as "", the request's address and agent, and the clock's time |
| Audit.AuditService.LogLogin | lib/Service/AuditService.php:65-78 | appends exactly one row, with the next id: action `login`, the status word, the uid, the WeCom id, the request's address and user agent, the message (or ""), no details, and the time |
| Audit.AuditService.LogOAuthAuthorization | lib/Service/AuditService.php:83-98 | appends exactly one row, with the next id: action `oauth_authorization`, the status word, the uid and WeCom id (or ""), the request's address and user agent, the message (or ""), the JSON-encoded details (or ""), and the time |
| Audit.AuditService.LogOAuthCallback | lib/Service/AuditService.php:103-118 | appends exactly one row, with the next id: action `oauth_callback`, the status word, the uid and WeCom id (or ""), the request's address and user agent, the message (or ""), the JSON-encoded details (or ""), and the time |
| Audit.AuditService.LogUserSync | lib/Service/AuditService.php:123-136 | appends exactly one row, with the next id: action `user_sync`, the status word, no uid and no WeCom id, the request's address and user agent, the message, the JSON-encoded details (or ""), and the time |
| Audit.AuditService.LogUserCreate | lib/Service/AuditService.php:141-154 | appends exactly one row, with the next id: action `user_create`, the status word, the uid, the WeCom id, the request's address and user agent, the message (or ""), no details, and the time |
| Audit.AuditService.LogConfigChange | lib/Service/AuditService.php:159-172 | appends exactly one row, with the next id: action `config_change`, always "success", the uid, no WeCom id, the request's address and user agent, the message, the JSON-encoded details (or ""), and the time |
| Audit.AuditService.GetRecentLogs | lib/Service/AuditService.php:177-180 | view k is `formatLogs` of row k of `findRecent(limit, 0)`; there are min(limit, rows) of them, newest first |
| Audit.AuditService.GetLogsByUser | lib/Service/AuditService.php:185-188 | one formatted view per row `FindByNextcloudUid` returns, in order: at most `limit`, all of that uid |
| Audit.AuditService.GetLogsByAction | lib/Service/AuditService.php:193-196 | one formatted view per row `FindByAction` returns, in order: at most `limit`, all of that action |
| Audit.AuditService.GetLogsByTimeRange | lib/Service/AuditService.php:201-204 | one formatted view per row `FindByTimeRange` returns, in order: at most `limit`, all within the range |
| Audit.AuditService.GetLogsByStatus | lib/Service/AuditService.php:209-212 | one formatted view per row `FindByStatus` returns, in order: at most `limit`, all of that status |
| Audit.AuditService.CleanOldLogs | lib/Service/AuditService.php:217-220 | keeps exactly the entries no older than `days * 86400` seconds; returns the number removed |
| Audit.DefaultRetention | lib/Service/AuditService.php:217-220 | the default 90 days keeps exactly the entries from 7,776,000 s ago on |
| UserMappingDb.FindEntity | lib/Db/UserMappingMapper.php:27-37 | `findEntity`: exactly one match is found; none is DoesNotExist; more is MultipleObjectsReturned |
| UserMappingDb.FindByWecomUserId | lib/Db/UserMappingMapper.php:27-37 | with unique keys: the bound row, or DoesNotExist iff no row has that WeCom id; never multiple |
| UserMappingDb.FindByNextcloudUid | lib/Db/UserMappingMapper.php:46-56 | the same on the account uid |
| UserMappingDb.FindByEmail | lib/Db/UserMappingMapper.php:65-75 | the only row with that address, none, or "multiple" when two rows share it |
| UserMappingDb.FindByMobile | lib/Db/UserMappingMapper.php:84-94 | the same on the mobile number |
| UserMappingDb.FindAll | lib/Db/UserMappingMapper.php:101-109 | every row, most recently updated first |
| UserMappingDb.FindByDepartmentId | lib/Db/UserMappingMapper.php:117-127 | as written: the rows whose `department_ids` text contains `,d,` |
| UserMappingDb.FindByDepartmentIdCorrected | lib/Db/UserMappingMapper.php:117-127 | as intended: the rows whose stored department list contains `d` |
| UserMappingDb.FindStoredWecomUserId | lib/Db/UserMappingMapper.php:27-37 | looking up a stored row's WeCom id finds that row |
| UserMappingDb.NoCommaNoPattern | lib/Db/UserMappingMapper.php:123 | a text without commas never matches `%,d,%` |
| UserMappingDb.DepartmentLookupMissesSingleton | lib/Db/UserMappingMapper.php:123 | a member of one department, stored as "[d]", is never found for `d` |
| UserMappingDb.DepartmentLookupMissesRoot | lib/Db/UserMappingMapper.php:123 | concretely: a member of department 1 alone is not found for 1 |
| UserMappingDb.DepartmentLookupCorrect | lib/Db/UserMappingMapper.php:117-127 | the corrected lookup finds a row iff its department list contains `d` |
| UserMappingDb.SameKeysUnique | lib/Db/UserMappingMapper.php:136-146 | rewriting non-key columns keeps both unique indexes |
| UserMappingDb.MappingTable.Insert | lib/Controller/OAuthController.php:348 | refused with a duplicate-key error iff the WeCom id or the uid is already bound; else appended under the next id; keys stay unique |
| UserMappingDb.MappingTable.UpdateProfile | lib/Controller/OAuthController.php:357-369 | only the row with that id gets the new profile columns and `updated_at` |
| UserMappingDb.MappingTable.UpdateLastLoginAt | lib/Db/UserMappingMapper.php:136-146 | only `last_login_at` of the row bound to that WeCom id changes; no such row means no change |
| UserMappingDb.Stamped | lib/Db/UserMappingMapper.php:136-146 | only rows bound to that WeCom id get the new `last_login_at`; with no such row the table is unchanged |
| UserMappingDb.StampedKeys | lib/Db/UserMappingMapper.php:136-146 | stamping keeps both unique indexes, the set of bound WeCom ids and each binding's uid |
| UserMappingDb.MappingTable.DeleteByWecomUserId | lib/Db/UserMappingMapper.php:154-163 | exactly the row bound to that WeCom id goes |
| MemberProfile.NewMapping | lib/Controller/OAuthController.php:335-352 | the new row binds the WeCom id to the uid, with both timestamps `now`; its department text decodes to the member's departments |
| MemberProfile.DepartmentText | lib/Controller/OAuthController.php:343 | the stored department text decodes to the member's departments; "[]" when the member has none |
| MemberProfile.Refreshed | lib/Controller/OAuthController.php:357-369 | a refresh keeps the id, both keys, `created_at` and `last_login_at`, sets `updated_at`, copies the profile with "" for missing values, and stores the departments so that they read back |
| MemberProfile.RefreshedRows | lib/Service/SyncService.php:337-345 | the row with that id is refreshed and every other row is kept |
| MemberProfile.RefreshIdempotent | lib/Service/SyncService.php:337-345 | refreshing twice with the same member is refreshing once |
| MemberProfile.NewUsername | lib/Controller/OAuthController.php:289-294 | the WeCom id, or the id with `_<time>` appended when the id is taken |
| MemberProfile.Profiled | lib/Service/SyncService.php:270-280 | name and address are copied only when PHP-truthy; the quota is untouched |
| MemberProfile.NewAccount | lib/Controller/OAuthController.php:307-321 | name, address and quota are each set iff PHP-truthy, to the member's values |
| MemberProfile.SyncedAccountIsLoginAccount | lib/Service/SyncService.php:243-265 | the sync creates the same profile as login does, minus the quota |
| MemberProfile.ProfiledIdempotent | lib/Service/SyncService.php:270-280 | copying the profile twice is copying it once |
| OAuth.ScopeFor | lib/Controller/OAuthController.php:77-81 | `snsapi_privateinfo` iff inside the WeCom app, `snsapi_base` otherwise |
| OAuth.StateAccepted | lib/Controller/OAuthController.php:108-109 | accepted only when the session holds that exact state, which is never PHP-empty |
| OAuth.OAuthController.Authorize | lib/Controller/OAuthController.php:56-97 | disabled: login form and session untouched; enabled: the session holds the hex state and the device type, and the redirect is the auth URL (or the login form if that fails) |
| OAuth.OAuthController.FieldHit | lib/Controller/OAuthController.php:244-273 | per field: a returned account exists; email returns an account with that address up to ASCII case; phone returns only when a mapping row has that mobile number; username returns the WeCom id; unknown names fall through |
| OAuth.OAuthController.MatchFrom | lib/Controller/OAuthController.php:242-280 | any account returned exists |
| OAuth.OAuthController.MatchExistingUser | lib/Controller/OAuthController.php:239-281 | the result of matching the configured fields in order |
| OAuth.OAuthController.MatchFields | lib/Controller/OAuthController.php:242-280 | the loop returns what `MatchFrom` specifies |
| OAuth.OAuthController.MatchFirstDecides | lib/Controller/OAuthController.php:242-280 | the first field that does not fall through decides, even with a null user |
| OAuth.OAuthController.MatchNoneWhenAllNext | lib/Controller/OAuthController.php:280 | null when every field falls through |
| OAuth.OAuthController.MatchIgnoresUnknown | lib/Controller/OAuthController.php:244-274 | unknown field names anywhere in the list change nothing |
| OAuth.OAuthController.CreateNewUser | lib/Controller/OAuthController.php:286-330 | null when the chosen name is taken or declined; else a new account with the truthy profile and default quota |
| OAuth.OAuthController.CreateUserMapping | lib/Controller/OAuthController.php:335-352 | appends the new row with `last_login_at = now`, unless a key is already bound (the error is swallowed) |
| OAuth.OAuthController.UpdateUserMapping | lib/Controller/OAuthController.php:357-369 | the bound row, and it alone, is refreshed |
| OAuth.OAuthController.FindOrCreateUser | lib/Controller/OAuthController.php:198-234 | returns exactly `Resolved`: a binding to a live account (refreshed); else a match (newly bound); else, if enabled, a new account (newly bound); else null; a returned uid exists |
| OAuth.OAuthController.ResolveUnbound | lib/Controller/OAuthController.php:213-233 | with no live binding: returns exactly `Resolved`; a match is bound and no account is created; else, if enabled, a new account under the chosen name (or null when taken or declined); else null with nothing changed |
| OAuth.OAuthController.CreateAndBind | lib/Controller/OAuthController.php:223-231 | a new account with the member's profile and the default quota under the chosen name, newly bound; null and nothing changed when the name is taken or declined |
| OAuth.OAuthController.LogInAs | lib/Controller/OAuthController.php:151-182 | logs in iff resolved; appends one `login` entry, a failure with no uid or a success for the logged-in uid; on success only `last_login_at` of the member's binding is stamped, on failure the table is unchanged |
| OAuth.OAuthController.LogInMember | lib/Controller/OAuthController.php:146-182 | succeeds iff `Resolved` gives an account, and then logs in as exactly that account |
| OAuth.OAuthController.SignInMember | lib/Controller/OAuthController.php:143-182 | fetches the member's profile; succeeds iff it is fetched and resolves, logging in as the resolved account; exactly one audit entry, a failure or a success for that uid |
| OAuth.OAuthController.SignIn | lib/Controller/OAuthController.php:123-182 | empty code: nothing changes; otherwise exactly one entry is appended; succeeds iff the code yields a WeCom id that resolves (`SignedInAs`), and then the session user is that account |
| OAuth.OAuthController.Callback | lib/Controller/OAuthController.php:105-193 | succeeds iff the state is accepted, the code is truthy and `SignedInAs` gives an account, and then logs in as exactly that account; a rejected state changes nothing but one failure entry; an accepted state is removed first and never accepted again |
| Sync.SyncDepartmentIds | lib/Service/SyncService.php:350-358 | the configured ids, or `["1"]` when none |
| Sync.Plus | lib/Service/SyncService.php:157-195 | two stretches reported as one are error-free iff both are |
| Sync.SummaryMessage | lib/Service/SyncService.php:64-70 | the summary starts with "Synchronized " and the number of users |
| Sync.JoinedAdd | lib/Service/SyncService.php:301-310 | one more department id adds its existing group, if any, to the joined set |
| Sync.JoinedKept | lib/Service/SyncService.php:290-314 | joining only adds members; no group appears or disappears |
| Sync.DepartmentGroup | lib/Service/SyncService.php:125-140 | errors exactly for a new over-long name; otherwise groups only grow, by at most the department's name, which exists afterwards unless declined |
| Sync.ApplyDepartments | lib/Service/SyncService.php:98-113 | each department counts as created or adds one error |
| Sync.ApplyGrows | lib/Service/SyncService.php:98-113 | the department loop only adds groups |
| Sync.ApplySettles | lib/Service/SyncService.php:98-113 | after the loop every listed department is settled |
| Sync.ApplySettledKeeps | lib/Service/SyncService.php:125-140 | settled departments change nothing |
| Sync.SameErrors | lib/Service/SyncService.php:98-113 | the errors depend only on which over-long names exist |
| Sync.RerunCreatesNoGroups | lib/Service/SyncService.php:86-140 | a second run on the same listing creates no group, yet reports the same `created` count and the same errors |
| Sync.CreatedCountsUnchangedDepartments | lib/Service/SyncService.php:99-101 | a department that raises nothing counts as a created group, even with no group created |
| Sync.DeptName | lib/Service/SyncService.php:296-298 | the name the id map gives: some listed department's, or none if the id is unlisted |
| Sync.GroupsForMembers | lib/Service/SyncService.php:301-310 | a group is joined iff one of the member's ids names it |
| Sync.GroupsForSnoc | lib/Service/SyncService.php:301-310 | one more id adds its group, if it names one |
| Sync.LiveBindingKept | lib/Service/SyncService.php:207-238 | a live binding stays live when the state only extends |
| Sync.RefreshKeepsBinding | lib/Service/SyncService.php:215-224 | the update branch keeps the table well formed, only extends the state, and keeps the binding live |
| Sync.AppendKeepsKeys | lib/Service/SyncService.php:319-332 | appending a row whose keys are both free keeps the keys unique and binds its WeCom id to it |
| Sync.EnrolKeepsBinding | lib/Service/SyncService.php:229-237 | the create branch keeps the table well formed and only extends the state; on success the new binding is live |
| Sync.MemberStepKeeps | lib/Service/SyncService.php:207-238 | one member's sync keeps the table well formed and only extends the state; on success the member has a live binding |
| Sync.ChainStep | lib/Service/SyncService.php:162-183 | the member loop one member further |
| Sync.ChainPrefix | lib/Service/SyncService.php:162-183 | a prefix of the member loop is a member loop |
| Sync.Tally | lib/Service/SyncService.php:162-183 | created + updated = total and total + errors = members; no error iff every member succeeded; all updates give (n, 0, n, []) |
| Sync.Counted | lib/Service/SyncService.php:164-181 | a success counts as created or updated; a failure adds "Failed to sync user <id>: <message>" and nothing else |
| Sync.TallySnoc | lib/Service/SyncService.php:162-183 | the counters one member further |
| Sync.ExtendsTransitive | lib/Service/SyncService.php:157-195 | "only extends" composes across steps |
| Sync.ChainExtends | lib/Service/SyncService.php:162-183 | along the member loop the table stays well formed and the state only extends |
| Sync.ChainLive | lib/Service/SyncService.php:162-183 | every member whose sync succeeded ends the loop with a live binding |
| Sync.ChainLiveUpTo | lib/Service/SyncService.php:162-183 | after the first `j` members the table is well formed and each of them whose sync succeeded has a live binding |
| Sync.StepLive | lib/Service/SyncService.php:162-183 | one member further, the table stays well formed and the members live before, plus the one just synced if it succeeded, are live |
| Sync.StaysLive | lib/Service/SyncService.php:162-183 | members live before stay live in any state that only extends the old one |
| Sync.ChainRerun | lib/Service/SyncService.php:162-183 | when every member already has a live binding, the loop updates every member and creates nothing |
| Sync.SecondPassUpdatesAll | lib/Service/SyncService.php:162-183 | syncing the same members again after an error-free loop creates nothing and updates every member |
| Sync.UsersRunSnoc | lib/Service/SyncService.php:157-192 | the department loop one department further |
| Sync.UsersRunPrefix | lib/Service/SyncService.php:157-192 | a prefix of the department loop is a department loop |
| Sync.TallyRuns | lib/Service/SyncService.php:157-192 | created + updated = total; no error means every department was listed and every member synced |
| Sync.RunTally | lib/Service/SyncService.php:159-192 | a failed listing adds exactly one error; a listed department adds its member loop's counters; no error iff listed and every member succeeded |
| Sync.TallyRunsSnoc | lib/Service/SyncService.php:157-192 | the counters one department further |
| Sync.UsersRunKeeps | lib/Service/SyncService.php:145-202 | along `syncUsers` the table stays well formed and the state only extends; every member whose sync succeeded ends with a live binding |
| Sync.LiveAcross | lib/Service/SyncService.php:157-192 | members live after the first departments stay live across the next one |
| Sync.DepartmentsPass | lib/Service/SyncService.php:86-120 | listing error: one message and no change; else total = listing size and created + errors = total; groups only grow |
| Sync.FullSyncKeeps | lib/Service/SyncService.php:32-81 | a full sync keeps the table well formed and removes nothing; it succeeds iff configured; created + updated = total and created groups ≤ departments; the message is the summary |
| Sync.FullSyncBindsMembers | lib/Service/SyncService.php:32-81 | after a full sync with no error, every listed member has a live binding, so the next sync creates no account for them |
| Sync.ErrorFreeRunsBind | lib/Service/SyncService.php:145-202 | no reported error means every department was listed and every member in it has a live binding |
| Sync.SyncService.SyncDepartment | lib/Service/SyncService.php:125-140 | the group table and error are those of `DepartmentGroup` |
| Sync.SyncService.SyncListedDepartments | lib/Service/SyncService.php:98-113 | the loop computes `ApplyDepartments` |
| Sync.SyncService.SyncDepartments | lib/Service/SyncService.php:86-120 | listing error: one message, no change; else total = listing size, with created and errors from `ApplyDepartments`; created ≤ total |
| Sync.SyncService.DepartmentMap | lib/Service/SyncService.php:294-298 | the map agrees with `DeptName` for every id (last listing wins) |
| Sync.SyncService.JoinGroups | lib/Service/SyncService.php:301-310 | the uid joins exactly the groups `GroupsFor` names |
| Sync.SyncService.UpdateUserGroups | lib/Service/SyncService.php:290-314 | joins the groups of its departments; an unreachable listing changes nothing |
| Sync.SyncService.UpdateUser | lib/Service/SyncService.php:270-285 | the account gets its truthy profile; groups are joined only when departments are listed; a token cache a lookup would not change stays as it is |
| Sync.SyncService.CreateUser | lib/Service/SyncService.php:243-265 | a taken name raises, a declined one gives null; else a new account with the truthy profile and no quota; a token cache a lookup would not change stays as it is |
| Sync.SyncService.CreateUserMapping | lib/Service/SyncService.php:319-332 | appends the new row with `last_login_at = 0`, or raises the duplicate-key error |
| Sync.SyncService.UpdateUserMapping | lib/Service/SyncService.php:337-345 | the bound row, and it alone, is refreshed |
| Sync.SyncService.RefreshMember | lib/Service/SyncService.php:215-224 | a live binding: the account and the row are refreshed, and the result is "updated"; a token cache a lookup would not change stays as it is |
| Sync.SyncService.EnrolMember | lib/Service/SyncService.php:229-237 | a new account then a new binding ("created"), or the error of the step that failed; a token cache a lookup would not change stays as it is |
| Sync.SyncService.SyncUser | lib/Service/SyncService.php:207-238 | an empty id fails with no change; a live binding is updated; otherwise create-and-bind; any success leaves a live binding, so the next run updates; a token cache a lookup would not change stays as it is |
| Sync.SyncService.SyncMembers | lib/Service/SyncService.php:162-183 | the members are synced in order as the member loop `Chain` describes, and the counters and errors are exactly its `Tally` |
| Sync.SyncService.SyncDepartmentUsers | lib/Service/SyncService.php:159-192 | one department: a failed listing is one error and no change; else its members go through the member loop; the counters are `RunTally` |
| Sync.SyncService.SyncDepartmentsUsers | lib/Service/SyncService.php:157-192 | the departments in order as `UsersRun` describes; the counters and errors are exactly `TallyRuns` |
| Sync.SyncService.SyncUsers | lib/Service/SyncService.php:145-202 | the configured departments in order as `UsersRun` describes, from the old state to the new one; the counters and errors are exactly `TallyRuns` |
| Sync.SyncService.FullSync | lib/Service/SyncService.php:32-81 | exactly the run `FullSyncRun` describes: unconfigured, a failure with no change, the cache included; else the department pass, then the user pass from the groups it left, errors in that order, the user counters of `TallyRuns` and the summary message, with the cache as the first token lookup left it |
| SyncJob.SyncUsersJob.constructor | lib/BackgroundJob/SyncUsersJob.php:18-29 | the interval is the configured hours × 3600 |
| SyncJob.SyncUsersJob.Run | lib/BackgroundJob/SyncUsersJob.php:34-72 | reports iff sync is enabled and the app is configured, and then the state and report are a `FullSyncRun` and the cache is what the first token lookup left; otherwise nothing changes |
| SyncJob.DefaultInterval | lib/BackgroundJob/SyncUsersJob.php:26-28 | the default frequency runs the job every 86,400 s |
| Admin.SwitchesSpareCredentials | lib/Controller/AdminController.php:91-99 | writing the switches leaves the credentials alone |
| Admin.SaveKeepsOrSetsCredentials | lib/Controller/AdminController.php:80-88 | each id is replaced only when truthy; the secret only when truthy and not the mask |
| Admin.SaveReadsBack | lib/Controller/AdminController.php:91-99 | every switch, the frequency and the quota read back as saved |
| Admin.SaveTouchesOnlySavedKeys | lib/Controller/AdminController.php:78-100 | the callback URL, department list and notification switch survive a save |
| Admin.SaveMatchFieldsReadBack | lib/Controller/AdminController.php:98 | truthy, comma-free match fields read back as saved |
| Admin.SaveShownKeepsSettings | lib/Controller/AdminController.php:66-115 | saving back what `getConfig` showed keeps the secret, the ids and every setting |
| Admin.SavedCredentials | lib/Controller/AdminController.php:78-88 | adds at most the three credential keys; a truthy id is stored; the mask is never stored as the secret |
| Admin.SavedSwitches | lib/Controller/AdminController.php:91-99 | writes exactly the seven switch keys; every flag reads back as given |
| Admin.SavedSettings | lib/Controller/AdminController.php:66-115 | adds at most the saved keys and removes none |
| Admin.CredentialWrites | lib/Controller/AdminController.php:80-88 | at most three writes: each id only when truthy, the secret only when truthy and not the mask |
| Admin.LoginWrites | lib/Controller/AdminController.php:91-93 | the three login-setting writes, always made |
| Admin.SyncWrites | lib/Controller/AdminController.php:96-99 | the four sync-setting writes, always made |
| Admin.SwitchWrites | lib/Controller/AdminController.php:91-99 | the seven writes made whatever the input |
| Admin.SaveWrites | lib/Controller/AdminController.php:80-99 | between 7 and 10 writes, in source order, each to a key of `SavedKeys` |
| Admin.WrittenKeeps | lib/Controller/AdminController.php:80-99 | a key none of the writes names keeps its value, so a save cut off part-way keeps every key it had not reached |
| Admin.WrittenAppend | lib/Controller/AdminController.php:80-99 | two batches of writes made one after the other give the same settings as the joined batch |
| Admin.WrittenPrefix | lib/Controller/AdminController.php:80-99 | writes cut off part-way through a second batch give the first batch's settings with the first part of the second batch |
| Admin.CredentialPrefixes | lib/Controller/AdminController.php:80-88 | after each guarded credential write, how many writes were made and what the store holds |
| Admin.CredentialsWritten | lib/Controller/AdminController.php:80-88 | the credential writes give `SavedCredentials` |
| Admin.LoginWritten | lib/Controller/AdminController.php:91-93 | the login writes set exactly the three login keys, in order |
| Admin.SyncWritten | lib/Controller/AdminController.php:96-99 | the sync writes set exactly the four sync keys, in order |
| Admin.SwitchesWritten | lib/Controller/AdminController.php:91-99 | the seven writes give `SavedSwitches` |
| Admin.WritesAreSaved | lib/Controller/AdminController.php:80-99 | all writes of `saveConfig` give `SavedSettings` |
| Admin.AdminController.WriteCredentials | lib/Controller/AdminController.php:80-88 | raises iff the fault strikes one of the credential writes; the store then holds the writes before it, otherwise all of them |
| Admin.AdminController.WriteLoginSettings | lib/Controller/AdminController.php:91-93 | raises iff the fault strikes one of the three writes; the store then holds the writes before it, otherwise all three |
| Admin.AdminController.WriteSyncSettings | lib/Controller/AdminController.php:96-99 | raises iff the fault strikes one of the four writes; the store then holds the writes before it, otherwise all four |
| Admin.AdminController.GetConfig | lib/Controller/AdminController.php:35-48 | the masked snapshot, or a 500 with the raised message; never the stored secret |
| Admin.AdminController.SaveConfig | lib/Controller/AdminController.php:66-115 | with no fault, stores `SavedSettings` and answers with the new snapshot; a store fault at access n is a 500 with its message, and leaves exactly the first n of `SaveWrites` made |
| Admin.AdminController.TestConnection | lib/Controller/AdminController.php:123-146 | 400 when unconfigured, cache unchanged; 500 with the check's error; success otherwise, even when the check returns false; when configured, the cache is what the first token lookup left |
| Admin.AdminController.ManualSync | lib/Controller/AdminController.php:154-194 | a store failure or an unconfigured app: an error answer and no change, the cache included; else the five counters of a full sync, with created + updated = total, its summary message, and the cache as the first token lookup left it |

## Left out

- HTTP transport and JSON decoding of WeCom replies: each endpoint is a total function of its parameters in `WeComApi.Provider`. The server is deterministic within a request, and nothing asynchronous is modelled.
- `time()`, `random_bytes`, `md5`, `urlencode` and `json_encode` of audit details are parameters. One `now` serves a whole request or run, so every `time()` call in one request gives the same value.
- The JSON decoding of `details` in `formatLogs`: a view carries the stored text.
- The logger: log lines have no observable effect.
- Database failures other than the unique-key violation on insert. A configuration-store failure appears as the `failure` argument of `getConfig`, `testConnection` and `manualSync`, and as the `StoreFault` of `saveConfig`, which can strike any one of its writes or the final read-back.
- SQL tie order: rows with equal timestamps are ordered by the stable sort, which the database does not promise.
- Host.UserDirectory.ByEmail: `getByEmail` lists matching accounts in creation order; the user manager promises no order, so when two accounts share an address the account `matchExistingUser` takes as element 0 is fixed by this choice.
- Nextcloud's username validation and its password policy. The generated password is not modelled.
- `createSessionToken` failures.
- Concurrency between requests and between the job and the administrator.
- The notification service, the public API controller, the login provider, the settings pages and the front end. They are not part of this model.
- OAuth.OAuthController.CreateNewUser: the `Exception` catch around the whole function is modelled only for the taken-username error; other raises from the user back-end are not modelled.
- Admin.AdminController.TestConnection: this is a kept behaviour of the source, not a weakening. The boolean from the client is ignored, so a PHP-empty token still answers with success.
- Sync.SyncService.SyncDepartments: this is a kept behaviour of the source. `created_groups` counts every department that raised nothing, including ones for which no group was created. The sync sets no quota, does not use the match fields and writes no audit entry.
- The administration tests expect `setNotificationsEnabled` to be called by `saveConfig`; the controller does not call it, and the model follows the controller.
- Sync.SyncService.SyncUsers: the outer "Failed to sync users" catch is unreachable in the model, because nothing outside the department loop raises.
- Php.StringToInt: PHP 7.1 and later read a numeric string with an exponent, so `(int)"1e3"` is 1000; the model stops at the first non-digit and gives 1. PHP integers are 64-bit and the cast saturates; the model's integers are unbounded.
- Config.SyncFrequency: inherits both gaps of `Php.StringToInt`, so a stored "1e1" reads as 1 hour instead of 10, and a stored value beyond 64 bits is not saturated.
- Config.UserMatchFields: `array_filter` keeps the original array keys, and the model uses a plain sequence. A stored ",email" gives the one field "email" in both, but PHP keeps it under key 1.
- Config.AllConfig: because of those keys, PHP encodes such a `user_match_fields` as a JSON object (`{"1":"email"}`) rather than a list; the snapshot is modelled as the list.
- WeComApi.TokenReused: assumes that the cache from `createDistributed` keeps its entries until they expire. Without a distributed cache back-end Nextcloud gives a null cache, which keeps nothing, so every lookup asks the server for a new token.
- WeComApi.TokenFromCache: the same persistent-cache assumption; with a null cache there is never a live entry to return.

## Findings

| source | as written | input that shows it | evidently intended | confidence | as-written member | corrected member |
|---|---|---|---|---|---|---|
| lib/Db/UserMappingMapper.php:123 | matches `department_ids LIKE '%,d,%'`, but the column holds `json_encode` output such as `[1,2]`, where the first and last ids have no comma on one side | a member whose only department is 1 is stored as `[1]`, and `findByDepartmentId(1)` does not return that member | return the rows whose stored department list contains `d` | not executed | UserMappingDb.DepartmentLookupMissesRoot | UserMappingDb.DepartmentLookupCorrect |
