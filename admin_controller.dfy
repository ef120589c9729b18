/** The administration endpoints (lib/Controller/AdminController.php):
    read and save the settings, test the connection to WeCom, run a sync
    by hand. Each answers with a status word, an HTTP code and a message;
    every raised error is caught and becomes a 500 answer.

    A settings store that raises is modelled by the `failure` argument:
    when present, the first access to the store raises that message, so
    nothing is read or written. `saveConfig` writes one key at a time, so
    its store may instead raise part-way (`StoreFault`), after some of
    the writes are done. */
module Admin {
  import opened Base
  import opened Php
  import opened Config
  import opened WeComApi
  import opened Sync

  const Saved := "配置保存成功"
  const SaveFailedPrefix := "保存配置失败: "
  const NotConfigured := "请先完整配置企业微信参数"
  const ConnectionOk := "连接测试成功"
  const ConnectionFailedPrefix := "连接测试失败: "
  const SyncFailedPrefix := "同步失败: "

  const StatusOk := 200
  const BadRequest := 400
  const ServerError := 500

  /** The five counters `manualSync` reports. */
  datatype Counters = Counters(totalUsers: nat, createdUsers: nat, updatedUsers: nat, totalDepartments: nat,
                               createdGroups: nat)

  /** The body and code of an answer: `Failure` carries the status word
      "error" and its HTTP code, the others "success" and 200. */
  datatype Response =
    | ConfigData(notice: Option<string>, data: ConfigSnapshot)
    | Done(message: string, counters: Option<Counters>)
    | Failure(http: int, message: string, errors: Option<seq<string>>)

  /** A store that raises `message` on its access number `at` of the
      request, counting from 0. */
  datatype StoreFault = StoreFault(at: nat, message: string)

  predicate Raises(fault: Option<StoreFault>, n: nat) {
    fault.Some? && fault.value.at == n
  }

  /** The keys `saveConfig` may write. The callback URL, the department
      list and the notification switch are not among them. */
  const SavedKeys: set<string> :=
    {CorpIdKey, AgentIdKey, AppSecretKey, EnabledKey, ForceLoginKey, AutoCreateUserKey, SyncEnabledKey,
     SyncFrequencyKey, UserMatchFieldsKey, DefaultQuotaKey}

  /** The credentials part of `saveConfig`: the ids only when PHP-truthy,
      the secret only when PHP-truthy and not the mask. */
  function SavedCredentials(v: Settings, corpId: string, agentId: string, appSecret: string): (r: Settings)
    ensures v.Keys <= r.Keys && r.Keys <= v.Keys + {CorpIdKey, AgentIdKey, AppSecretKey}
    ensures !Empty(corpId) ==> CorpIdKey in r && r[CorpIdKey] == corpId
    ensures !Empty(agentId) ==> AgentIdKey in r && r[AgentIdKey] == agentId
    // The mask `getConfig` shows is never stored as the secret.
    ensures AppSecretKey in r && r[AppSecretKey] == SecretMask ==>
      AppSecretKey in v && v[AppSecretKey] == SecretMask
  {
    var v1 := if Empty(corpId) then v else v[CorpIdKey := corpId];
    var v2 := if Empty(agentId) then v1 else v1[AgentIdKey := agentId];
    if Empty(appSecret) || appSecret == SecretMask then v2 else v2[AppSecretKey := appSecret]
  }

  /** The rest of `saveConfig`: every switch, the frequency, the match
      fields and the quota are written always. */
  function SavedSwitches(c: Settings, enabled: bool, forceLogin: bool, autoCreateUser: bool, syncEnabled: bool,
                         syncFrequency: int, userMatchFields: seq<string>, defaultQuota: string): (r: Settings)
    ensures r.Keys == c.Keys + {EnabledKey, ForceLoginKey, AutoCreateUserKey, SyncEnabledKey, SyncFrequencyKey,
                                UserMatchFieldsKey, DefaultQuotaKey}
    ensures IsEnabled(r) == enabled && IsForceLogin(r) == forceLogin
    ensures IsAutoCreateUser(r) == autoCreateUser && IsSyncEnabled(r) == syncEnabled
  {
    c[EnabledKey := BoolText(enabled)][ForceLoginKey := BoolText(forceLogin)]
     [AutoCreateUserKey := BoolText(autoCreateUser)][SyncEnabledKey := BoolText(syncEnabled)]
     [SyncFrequencyKey := IntToString(syncFrequency)][UserMatchFieldsKey := Join(userMatchFields, ',')]
     [DefaultQuotaKey := defaultQuota]
  }

  /** The credential writes of `saveConfig`, in order: each id only when
      PHP-truthy, the secret only when PHP-truthy and not the mask. */
  function CredentialWrites(corpId: string, agentId: string, appSecret: string): (w: seq<(string, string)>)
    ensures |w| <= 3
  {
    (if Empty(corpId) then [] else [(CorpIdKey, corpId)]) +
    (if Empty(agentId) then [] else [(AgentIdKey, agentId)]) +
    (if Empty(appSecret) || appSecret == SecretMask then [] else [(AppSecretKey, appSecret)])
  }

  /** The login-settings writes of `saveConfig`, made always. */
  function LoginWrites(enabled: bool, forceLogin: bool, autoCreateUser: bool): (w: seq<(string, string)>)
    ensures |w| == 3
  {
    [(EnabledKey, BoolText(enabled)), (ForceLoginKey, BoolText(forceLogin)),
     (AutoCreateUserKey, BoolText(autoCreateUser))]
  }

  /** The sync-settings writes of `saveConfig`, made always. */
  function SyncWrites(syncEnabled: bool, syncFrequency: int, userMatchFields: seq<string>, defaultQuota: string)
    : (w: seq<(string, string)>)
    ensures |w| == 4
  {
    [(SyncEnabledKey, BoolText(syncEnabled)), (SyncFrequencyKey, IntToString(syncFrequency)),
     (UserMatchFieldsKey, Join(userMatchFields, ',')), (DefaultQuotaKey, defaultQuota)]
  }

  /** The seven writes `saveConfig` always makes, in order. */
  function SwitchWrites(enabled: bool, forceLogin: bool, autoCreateUser: bool, syncEnabled: bool,
                        syncFrequency: int, userMatchFields: seq<string>, defaultQuota: string)
    : (w: seq<(string, string)>)
    ensures |w| == 7
  {
    LoginWrites(enabled, forceLogin, autoCreateUser) +
    SyncWrites(syncEnabled, syncFrequency, userMatchFields, defaultQuota)
  }

  /** Every write `saveConfig` makes, in order; each names a key of
      `SavedKeys`. */
  function SaveWrites(corpId: string, agentId: string, appSecret: string, enabled: bool, forceLogin: bool,
                      autoCreateUser: bool, syncEnabled: bool, syncFrequency: int, userMatchFields: seq<string>,
                      defaultQuota: string): (w: seq<(string, string)>)
    ensures 7 <= |w| <= 10
    ensures forall k :: 0 <= k < |w| ==> w[k].0 in SavedKeys
  {
    CredentialWrites(corpId, agentId, appSecret) +
    SwitchWrites(enabled, forceLogin, autoCreateUser, syncEnabled, syncFrequency, userMatchFields, defaultQuota)
  }

  /** The settings after the writes `w`, made in order. */
  function Written(v: Settings, w: seq<(string, string)>): Settings
    decreases |w|
  {
    if w == [] then v else Written(v, w[..|w| - 1])[w[|w| - 1].0 := w[|w| - 1].1]
  }

  /** One write further. */
  lemma WrittenSnoc(v: Settings, w: seq<(string, string)>, n: nat)
    requires n < |w|
    ensures Written(v, w[..n + 1]) == Written(v, w[..n])[w[n].0 := w[n].1]
  {
    assert w[..n + 1][..n] == w[..n];
  }

  /** A single write. */
  lemma WrittenOne(v: Settings, x: (string, string))
    ensures Written(v, [x]) == v[x.0 := x.1]
  {
    assert [x][..0] == [];
  }

  /** A key none of the writes names keeps its value. */
  lemma {:induction false} WrittenKeeps(v: Settings, w: seq<(string, string)>, k: string)
    requires forall j :: 0 <= j < |w| ==> w[j].0 != k
    ensures (k in Written(v, w) <==> k in v) && (k in v ==> Written(v, w)[k] == v[k])
    decreases |w|
  {
    if w != [] {
      WrittenKeeps(v, w[..|w| - 1], k);
    }
  }

  /** Writes made one batch after another. */
  lemma {:induction false} WrittenAppend(v: Settings, a: seq<(string, string)>, b: seq<(string, string)>)
    ensures Written(v, a + b) == Written(Written(v, a), b)
    decreases |b|
  {
    if b == [] {
      assert a + b == a;
    } else {
      assert (a + b)[..|a + b| - 1] == a + b[..|b| - 1];
      assert (a + b)[|a + b| - 1] == b[|b| - 1];
      WrittenAppend(v, a, b[..|b| - 1]);
    }
  }

  /** Writes cut off part-way through a second batch. */
  lemma WrittenPrefix(v: Settings, a: seq<(string, string)>, b: seq<(string, string)>, n: nat)
    requires |a| <= n <= |a| + |b|
    ensures Written(v, (a + b)[..n]) == Written(Written(v, a), b[..n - |a|])
  {
    assert (a + b)[..n] == a + b[..n - |a|];
    WrittenAppend(v, a, b[..n - |a|]);
  }

  /** The credentials block one guarded write at a time: how far the
      store has got after each, and what it then holds. */
  lemma CredentialPrefixes(v: Settings, corpId: string, agentId: string, appSecret: string)
    ensures var w := CredentialWrites(corpId, agentId, appSecret);
      var a := CredentialWrites(corpId, "", "");
      var ab := CredentialWrites(corpId, agentId, "");
      |a| == (if Empty(corpId) then 0 else 1) &&
      |ab| == |a| + (if Empty(agentId) then 0 else 1) &&
      |w| == |ab| + (if Empty(appSecret) || appSecret == SecretMask then 0 else 1) &&
      w[..0] == [] && w[..|a|] == a && w[..|ab|] == ab && w[..|w|] == w &&
      Written(v, a) == (if Empty(corpId) then v else v[CorpIdKey := corpId]) &&
      Written(v, ab) == (if Empty(agentId) then Written(v, a) else Written(v, a)[AgentIdKey := agentId]) &&
      Written(v, w) == (if Empty(appSecret) || appSecret == SecretMask then Written(v, ab)
                        else Written(v, ab)[AppSecretKey := appSecret])
  {
    var w := CredentialWrites(corpId, agentId, appSecret);
    var a := CredentialWrites(corpId, "", "");
    var ab := CredentialWrites(corpId, agentId, "");
    assert Empty("");
    assert a + [] == a && ab + [] == ab;
    assert w[..|a|] == a;
    assert w[..|ab|] == ab;
    if !Empty(corpId) {
      WrittenOne(v, (CorpIdKey, corpId));
    }
    if !Empty(agentId) {
      WrittenSnoc(v, ab, |a|);
      assert ab[..|a|] == a;
    }
    if !(Empty(appSecret) || appSecret == SecretMask) {
      WrittenSnoc(v, w, |ab|);
    }
  }

  lemma CredentialsWritten(v: Settings, corpId: string, agentId: string, appSecret: string)
    ensures Written(v, CredentialWrites(corpId, agentId, appSecret)) == SavedCredentials(v, corpId, agentId, appSecret)
  {
    var a := if Empty(corpId) then [] else [(CorpIdKey, corpId)];
    var b := if Empty(agentId) then [] else [(AgentIdKey, agentId)];
    var c := if Empty(appSecret) || appSecret == SecretMask then [] else [(AppSecretKey, appSecret)];
    WrittenAppend(v, a + b, c);
    WrittenAppend(v, a, b);
    assert Written(v, a) == if Empty(corpId) then v else v[CorpIdKey := corpId] by {
      if a != [] { assert a[..0] == []; }
    }
    var v1 := Written(v, a);
    assert Written(v1, b) == if Empty(agentId) then v1 else v1[AgentIdKey := agentId] by {
      if b != [] { assert b[..0] == []; }
    }
    var v2 := Written(v1, b);
    assert Written(v2, c) == if Empty(appSecret) || appSecret == SecretMask then v2 else v2[AppSecretKey := appSecret] by {
      if c != [] { assert c[..0] == []; }
    }
  }

  lemma SwitchesWritten(c: Settings, enabled: bool, forceLogin: bool, autoCreateUser: bool, syncEnabled: bool,
                        syncFrequency: int, userMatchFields: seq<string>, defaultQuota: string)
    ensures Written(c, SwitchWrites(enabled, forceLogin, autoCreateUser, syncEnabled, syncFrequency,
                                    userMatchFields, defaultQuota))
            == SavedSwitches(c, enabled, forceLogin, autoCreateUser, syncEnabled, syncFrequency, userMatchFields,
                             defaultQuota)
  {
    var a := LoginWrites(enabled, forceLogin, autoCreateUser);
    var b := SyncWrites(syncEnabled, syncFrequency, userMatchFields, defaultQuota);
    WrittenAppend(c, a, b);
    LoginWritten(c, enabled, forceLogin, autoCreateUser);
    SyncWritten(Written(c, a), syncEnabled, syncFrequency, userMatchFields, defaultQuota);
  }

  /** The three login-settings writes, one after another. */
  lemma LoginWritten(c: Settings, enabled: bool, forceLogin: bool, autoCreateUser: bool)
    ensures Written(c, LoginWrites(enabled, forceLogin, autoCreateUser))
            == c[EnabledKey := BoolText(enabled)][ForceLoginKey := BoolText(forceLogin)]
                [AutoCreateUserKey := BoolText(autoCreateUser)]
  {
    var a := LoginWrites(enabled, forceLogin, autoCreateUser);
    assert a[..0] == [] && a[..3] == a;
    WrittenSnoc(c, a, 0);
    WrittenSnoc(c, a, 1);
    WrittenSnoc(c, a, 2);
  }

  /** The four sync-settings writes, one after another. */
  lemma SyncWritten(c: Settings, syncEnabled: bool, syncFrequency: int, userMatchFields: seq<string>,
                    defaultQuota: string)
    ensures Written(c, SyncWrites(syncEnabled, syncFrequency, userMatchFields, defaultQuota))
            == c[SyncEnabledKey := BoolText(syncEnabled)][SyncFrequencyKey := IntToString(syncFrequency)]
                [UserMatchFieldsKey := Join(userMatchFields, ',')][DefaultQuotaKey := defaultQuota]
  {
    var b := SyncWrites(syncEnabled, syncFrequency, userMatchFields, defaultQuota);
    assert b[..0] == [] && b[..4] == b;
    WrittenSnoc(c, b, 0);
    WrittenSnoc(c, b, 1);
    WrittenSnoc(c, b, 2);
    WrittenSnoc(c, b, 3);
  }

  /** All the writes, in order, give the settings `saveConfig` promises. */
  lemma WritesAreSaved(v: Settings, corpId: string, agentId: string, appSecret: string, enabled: bool,
                       forceLogin: bool, autoCreateUser: bool, syncEnabled: bool, syncFrequency: int,
                       userMatchFields: seq<string>, defaultQuota: string)
    ensures Written(v, SaveWrites(corpId, agentId, appSecret, enabled, forceLogin, autoCreateUser, syncEnabled,
                                  syncFrequency, userMatchFields, defaultQuota))
            == SavedSettings(v, corpId, agentId, appSecret, enabled, forceLogin, autoCreateUser, syncEnabled,
                             syncFrequency, userMatchFields, defaultQuota)
  {
    var creds := CredentialWrites(corpId, agentId, appSecret);
    WrittenAppend(v, creds, SwitchWrites(enabled, forceLogin, autoCreateUser, syncEnabled, syncFrequency,
                                         userMatchFields, defaultQuota));
    CredentialsWritten(v, corpId, agentId, appSecret);
    SwitchesWritten(Written(v, creds), enabled, forceLogin, autoCreateUser, syncEnabled, syncFrequency,
                    userMatchFields, defaultQuota);
  }

  /** The settings after `saveConfig`. */
  function SavedSettings(v: Settings, corpId: string, agentId: string, appSecret: string, enabled: bool,
                         forceLogin: bool, autoCreateUser: bool, syncEnabled: bool, syncFrequency: int,
                         userMatchFields: seq<string>, defaultQuota: string): (r: Settings)
    ensures v.Keys <= r.Keys && r.Keys <= v.Keys + SavedKeys
  {
    SavedSwitches(SavedCredentials(v, corpId, agentId, appSecret), enabled, forceLogin, autoCreateUser,
                  syncEnabled, syncFrequency, userMatchFields, defaultQuota)
  }

  /** Writing the switches leaves the credentials alone. */
  lemma SwitchesSpareCredentials(c: Settings, enabled: bool, forceLogin: bool, autoCreateUser: bool,
                                 syncEnabled: bool, syncFrequency: int, userMatchFields: seq<string>,
                                 defaultQuota: string)
    ensures var w := SavedSwitches(c, enabled, forceLogin, autoCreateUser, syncEnabled, syncFrequency,
                                   userMatchFields, defaultQuota);
      CorpId(w) == CorpId(c) && AgentId(w) == AgentId(c) && AppSecret(w) == AppSecret(c)
  {
  }

  /** The credentials read back as saved, or as before when kept. */
  lemma SaveKeepsOrSetsCredentials(v: Settings, corpId: string, agentId: string, appSecret: string, enabled: bool,
                                   forceLogin: bool, autoCreateUser: bool, syncEnabled: bool, syncFrequency: int,
                                   userMatchFields: seq<string>, defaultQuota: string)
    ensures var w := SavedSettings(v, corpId, agentId, appSecret, enabled, forceLogin, autoCreateUser,
                                   syncEnabled, syncFrequency, userMatchFields, defaultQuota);
      CorpId(w) == (if Empty(corpId) then CorpId(v) else corpId) &&
      AgentId(w) == (if Empty(agentId) then AgentId(v) else agentId) &&
      AppSecret(w) == (if Empty(appSecret) || appSecret == SecretMask then AppSecret(v) else appSecret)
  {
    var c := SavedCredentials(v, corpId, agentId, appSecret);
    SwitchesSpareCredentials(c, enabled, forceLogin, autoCreateUser, syncEnabled, syncFrequency,
                             userMatchFields, defaultQuota);
    assert CorpId(c) == (if Empty(corpId) then CorpId(v) else corpId);
    assert AgentId(c) == (if Empty(agentId) then AgentId(v) else agentId);
  }

  /** Every switch, the frequency and the quota read back as saved. */
  lemma SaveReadsBack(v: Settings, corpId: string, agentId: string, appSecret: string, enabled: bool,
                      forceLogin: bool, autoCreateUser: bool, syncEnabled: bool, syncFrequency: int,
                      userMatchFields: seq<string>, defaultQuota: string)
    ensures var w := SavedSettings(v, corpId, agentId, appSecret, enabled, forceLogin, autoCreateUser,
                                   syncEnabled, syncFrequency, userMatchFields, defaultQuota);
      IsEnabled(w) == enabled && IsForceLogin(w) == forceLogin &&
      IsAutoCreateUser(w) == autoCreateUser && IsSyncEnabled(w) == syncEnabled &&
      SyncFrequency(w) == syncFrequency && DefaultQuota(w) == defaultQuota
  {
    var w := SavedSettings(v, corpId, agentId, appSecret, enabled, forceLogin, autoCreateUser,
                           syncEnabled, syncFrequency, userMatchFields, defaultQuota);
    assert AppValue(w, SyncFrequencyKey, "24") == IntToString(syncFrequency);
    IntStringRoundTrip(syncFrequency);
  }

  /** No key outside `SavedKeys` is added, removed or changed: the
      callback URL, the department list and the notification switch
      survive a save. */
  lemma SaveTouchesOnlySavedKeys(v: Settings, corpId: string, agentId: string, appSecret: string, enabled: bool,
                                 forceLogin: bool, autoCreateUser: bool, syncEnabled: bool, syncFrequency: int,
                                 userMatchFields: seq<string>, defaultQuota: string, k: string)
    requires k !in SavedKeys
    ensures var w := SavedSettings(v, corpId, agentId, appSecret, enabled, forceLogin, autoCreateUser,
                                   syncEnabled, syncFrequency, userMatchFields, defaultQuota);
      (k in w <==> k in v) && (k in v ==> w[k] == v[k])
  {
  }

  /** Match fields that are PHP-truthy and free of commas read back as
      saved. */
  lemma SaveMatchFieldsReadBack(v: Settings, corpId: string, agentId: string, appSecret: string, enabled: bool,
                                forceLogin: bool, autoCreateUser: bool, syncEnabled: bool, syncFrequency: int,
                                userMatchFields: seq<string>, defaultQuota: string)
    requires forall k :: 0 <= k < |userMatchFields| ==> !Empty(userMatchFields[k]) && NoSep(userMatchFields[k], ',')
    ensures UserMatchFields(SavedSettings(v, corpId, agentId, appSecret, enabled, forceLogin, autoCreateUser,
                                          syncEnabled, syncFrequency, userMatchFields, defaultQuota))
            == userMatchFields
  {
    var w := SavedSettings(v, corpId, agentId, appSecret, enabled, forceLogin, autoCreateUser,
                           syncEnabled, syncFrequency, userMatchFields, defaultQuota);
    assert AppValue(w, UserMatchFieldsKey, "email,phone") == Join(userMatchFields, ',');
    ExplodeImplode(userMatchFields, ',');
  }

  /** Sending back the settings as `getConfig` showed them keeps the
      stored secret, ids and every setting as they were. */
  lemma SaveShownKeepsSettings(v: Settings)
    ensures var s := AllConfig(v);
      var w := SavedSettings(v, s.corpId, s.agentId, s.appSecret, s.enabled, s.forceLogin, s.autoCreateUser,
                             s.syncEnabled, s.syncFrequency, s.userMatchFields, s.defaultQuota);
      AppSecret(w) == AppSecret(v) && CorpId(w) == CorpId(v) && AgentId(w) == AgentId(v) &&
      IsConfigured(w) == IsConfigured(v) &&
      IsEnabled(w) == IsEnabled(v) && IsForceLogin(w) == IsForceLogin(v) &&
      IsAutoCreateUser(w) == IsAutoCreateUser(v) && IsSyncEnabled(w) == IsSyncEnabled(v) &&
      SyncFrequency(w) == SyncFrequency(v) && DefaultQuota(w) == DefaultQuota(v)
  {
    var s := AllConfig(v);
    SaveKeepsOrSetsCredentials(v, s.corpId, s.agentId, s.appSecret, s.enabled, s.forceLogin, s.autoCreateUser,
                               s.syncEnabled, s.syncFrequency, s.userMatchFields, s.defaultQuota);
    SaveReadsBack(v, s.corpId, s.agentId, s.appSecret, s.enabled, s.forceLogin, s.autoCreateUser,
                  s.syncEnabled, s.syncFrequency, s.userMatchFields, s.defaultQuota);
  }

  class AdminController {
    const config: AppConfig
    const api: WeComApiService
    const sync: SyncService

    constructor(config: AppConfig, api: WeComApiService, sync: SyncService)
      requires api.config == config && sync.config == config
      ensures this.config == config && this.api == api && this.sync == sync
    {
      this.config := config;
      this.api := api;
      this.sync := sync;
    }

    /** `getConfig`: the masked settings, or the raised message. */
    function GetConfig(failure: Option<string>): (r: Response)
      reads config
      ensures failure.Some? ==> r == Failure(ServerError, failure.value, None)
      ensures failure.None? ==> r == ConfigData(None, AllConfig(config.values))
      ensures r.ConfigData? ==> r.data.appSecret != AppSecret(config.values) || AppSecret(config.values) in {"", SecretMask}
    {
      if failure.Some? then Failure(ServerError, failure.value, None)
      else ConfigData(None, AllConfig(config.values))
    }

    /** `saveConfig`: the guarded credentials, then seven settings, each
        one write to the store, then the new snapshot read back. A store
        that raises part-way leaves the writes made before it in place,
        and the answer is a 500 with its message. */
    method SaveConfig(fault: Option<StoreFault>, corpId: string, agentId: string, appSecret: string,
                      enabled: bool, forceLogin: bool, autoCreateUser: bool, syncEnabled: bool, syncFrequency: int,
                      userMatchFields: seq<string>, defaultQuota: string) returns (r: Response)
      modifies config
      ensures var writes := SaveWrites(corpId, agentId, appSecret, enabled, forceLogin, autoCreateUser,
                                       syncEnabled, syncFrequency, userMatchFields, defaultQuota);
        fault.Some? && fault.value.at <= |writes| ==>
          r == Failure(ServerError, SaveFailedPrefix + fault.value.message, None) &&
          config.values == Written(old(config.values), writes[..fault.value.at])
      ensures var writes := SaveWrites(corpId, agentId, appSecret, enabled, forceLogin, autoCreateUser,
                                       syncEnabled, syncFrequency, userMatchFields, defaultQuota);
        !(fault.Some? && fault.value.at <= |writes|) ==>
          config.values == SavedSettings(old(config.values), corpId, agentId, appSecret, enabled, forceLogin,
                                         autoCreateUser, syncEnabled, syncFrequency, userMatchFields,
                                         defaultQuota) &&
          r == ConfigData(Some(Saved), AllConfig(config.values))
    {
      ghost var v := config.values;
      ghost var creds := CredentialWrites(corpId, agentId, appSecret);
      ghost var login := LoginWrites(enabled, forceLogin, autoCreateUser);
      ghost var syncs := SyncWrites(syncEnabled, syncFrequency, userMatchFields, defaultQuota);
      ghost var writes := SaveWrites(corpId, agentId, appSecret, enabled, forceLogin, autoCreateUser, syncEnabled,
                                     syncFrequency, userMatchFields, defaultQuota);
      assert writes == (creds + login) + syncs;
      var raised := WriteCredentials(fault, corpId, agentId, appSecret);
      if raised {
        assert writes[..fault.value.at] == creds[..fault.value.at];
        return Failure(ServerError, SaveFailedPrefix + fault.value.message, None);
      }
      var start := |CredentialWrites(corpId, agentId, appSecret)|;
      raised := WriteLoginSettings(fault, start, enabled, forceLogin, autoCreateUser);
      if raised {
        assert writes[..fault.value.at] == (creds + login)[..fault.value.at];
        WrittenPrefix(v, creds, login, fault.value.at);
        return Failure(ServerError, SaveFailedPrefix + fault.value.message, None);
      }
      WrittenAppend(v, creds, login);
      raised := WriteSyncSettings(fault, start + 3, syncEnabled, syncFrequency, userMatchFields, defaultQuota);
      if raised {
        WrittenPrefix(v, creds + login, syncs, fault.value.at);
        return Failure(ServerError, SaveFailedPrefix + fault.value.message, None);
      }
      WrittenAppend(v, creds + login, syncs);
      WritesAreSaved(v, corpId, agentId, appSecret, enabled, forceLogin, autoCreateUser, syncEnabled,
                     syncFrequency, userMatchFields, defaultQuota);
      // `getAllConfig` reads the store once more.
      if Raises(fault, start + 7) {
        assert writes[..fault.value.at] == writes;
        return Failure(ServerError, SaveFailedPrefix + fault.value.message, None);
      }
      r := ConfigData(Some(Saved), AllConfig(config.values));
    }

    /** The credentials block of `saveConfig`: each id written only when
        PHP-truthy, the secret only when PHP-truthy and not the mask;
        `raised` when one of these writes raises. */
    method WriteCredentials(fault: Option<StoreFault>, corpId: string, agentId: string, appSecret: string)
      returns (raised: bool)
      modifies config
      ensures var w := CredentialWrites(corpId, agentId, appSecret);
        raised == (fault.Some? && fault.value.at < |w|) &&
        config.values == Written(old(config.values), if raised then w[..fault.value.at] else w)
    {
      ghost var v := config.values;
      ghost var w := CredentialWrites(corpId, agentId, appSecret);
      ghost var a := CredentialWrites(corpId, "", "");
      ghost var ab := CredentialWrites(corpId, agentId, "");
      CredentialPrefixes(v, corpId, agentId, appSecret);
      var n := 0;
      if !Empty(corpId) {
        if Raises(fault, n) { return true; }
        config.SetCorpId(corpId);
        n := 1;
      }
      assert n == |a| && config.values == Written(v, a);
      if !Empty(agentId) {
        if Raises(fault, n) { return true; }
        config.SetAgentId(agentId);
        n := n + 1;
      }
      assert n == |ab| && config.values == Written(v, ab);
      if !Empty(appSecret) && appSecret != SecretMask {
        if Raises(fault, n) { return true; }
        config.SetAppSecret(appSecret);
        n := n + 1;
      }
      return false;
    }

    /** The login-settings block of `saveConfig`: three writes, made
        always, the first of them the store's access number `start`;
        `raised` when one of them raises. */
    method WriteLoginSettings(fault: Option<StoreFault>, start: nat, enabled: bool, forceLogin: bool,
                              autoCreateUser: bool) returns (raised: bool)
      modifies config
      ensures var w := LoginWrites(enabled, forceLogin, autoCreateUser);
        raised == (fault.Some? && start <= fault.value.at < start + 3) &&
        config.values == Written(old(config.values), if raised then w[..fault.value.at - start] else w)
    {
      ghost var v := config.values;
      ghost var w := LoginWrites(enabled, forceLogin, autoCreateUser);
      assert w[..0] == [];
      if Raises(fault, start) { assert w[..fault.value.at - start] == w[..0]; return true; }
      config.SetEnabled(enabled);
      WrittenSnoc(v, w, 0);
      if Raises(fault, start + 1) { assert w[..fault.value.at - start] == w[..1]; return true; }
      config.SetForceLogin(forceLogin);
      WrittenSnoc(v, w, 1);
      if Raises(fault, start + 2) { assert w[..fault.value.at - start] == w[..2]; return true; }
      config.SetAutoCreateUser(autoCreateUser);
      WrittenSnoc(v, w, 2);
      assert w[..3] == w;
      return false;
    }

    /** The sync-settings block of `saveConfig`: four writes, made always,
        the first of them the store's access number `start`; `raised` when
        one of them raises. */
    method WriteSyncSettings(fault: Option<StoreFault>, start: nat, syncEnabled: bool, syncFrequency: int,
                             userMatchFields: seq<string>, defaultQuota: string) returns (raised: bool)
      modifies config
      ensures var w := SyncWrites(syncEnabled, syncFrequency, userMatchFields, defaultQuota);
        raised == (fault.Some? && start <= fault.value.at < start + 4) &&
        config.values == Written(old(config.values), if raised then w[..fault.value.at - start] else w)
    {
      ghost var v := config.values;
      ghost var w := SyncWrites(syncEnabled, syncFrequency, userMatchFields, defaultQuota);
      assert w[..0] == [];
      if Raises(fault, start) { assert w[..fault.value.at - start] == w[..0]; return true; }
      config.SetSyncEnabled(syncEnabled);
      WrittenSnoc(v, w, 0);
      if Raises(fault, start + 1) { assert w[..fault.value.at - start] == w[..1]; return true; }
      config.SetSyncFrequency(syncFrequency);
      WrittenSnoc(v, w, 1);
      if Raises(fault, start + 2) { assert w[..fault.value.at - start] == w[..2]; return true; }
      config.SetUserMatchFields(userMatchFields);
      WrittenSnoc(v, w, 2);
      if Raises(fault, start + 3) { assert w[..fault.value.at - start] == w[..3]; return true; }
      config.SetDefaultQuota(defaultQuota);
      WrittenSnoc(v, w, 3);
      assert w[..4] == w;
      return false;
    }

    /** `testConnection`: the outcome of the client's check is reported,
        and its boolean is not looked at, so a false check is a
        success. */
    method TestConnection(failure: Option<string>, now: int) returns (r: Response)
      modifies api.cache
      ensures failure.Some? ==>
        r == Failure(ServerError, ConnectionFailedPrefix + failure.value, None) &&
        api.cache.entries == old(api.cache.entries)
      ensures failure.None? && !IsConfigured(config.values) ==>
        r == Failure(BadRequest, NotConfigured, None) && api.cache.entries == old(api.cache.entries)
      ensures failure.None? && IsConfigured(config.values) ==>
        var check := ConnectionCheck(api.config.values, old(api.cache.entries), api.remote, api.md5, now);
        (check.Err? ==> r == Failure(ServerError, ConnectionFailedPrefix + check.error, None)) &&
        (check.Ok? ==> r == Done(ConnectionOk, None)) &&
        api.cache.entries == FetchToken(api.config.values, old(api.cache.entries), api.remote, api.md5, now).entries
    {
      if failure.Some? {
        return Failure(ServerError, ConnectionFailedPrefix + failure.value, None);
      }
      if !IsConfigured(config.values) {
        return Failure(BadRequest, NotConfigured, None);
      }
      var check := api.TestConnection(now);
      if check.Err? {
        return Failure(ServerError, ConnectionFailedPrefix + check.error, None);
      }
      r := Done(ConnectionOk, None);
    }

    /** `manualSync`. With the sync reading the same settings, a configured
        application always gets the counters: the sync's own failure
        answer is reached only when it finds the settings incomplete. */
    method ManualSync(failure: Option<string>, now: int)
      returns (r: Response, ghost report: SyncResult, ghost runs: seq<DepartmentRun>, ghost marks: seq<Directory>)
      requires sync.config == config && sync.mappings.Valid()
      modifies sync.users, sync.groups, sync.mappings, sync.api.cache
      ensures sync.mappings.Valid()
      ensures failure.Some? ==>
        r == Failure(ServerError, SyncFailedPrefix + failure.value, None) &&
        sync.users.accounts == old(sync.users.accounts) && sync.mappings.rows == old(sync.mappings.rows) &&
        sync.groups.members == old(sync.groups.members) && sync.api.cache.entries == old(sync.api.cache.entries)
      ensures failure.None? && !IsConfigured(config.values) ==>
        r == Failure(BadRequest, NotConfigured, None) &&
        sync.users.accounts == old(sync.users.accounts) && sync.mappings.rows == old(sync.mappings.rows) &&
        sync.groups.members == old(sync.groups.members) && sync.api.cache.entries == old(sync.api.cache.entries)
      ensures failure.None? && IsConfigured(config.values) ==>
        r.Done? && r.counters.Some? &&
        r.counters.value.createdUsers + r.counters.value.updatedUsers == r.counters.value.totalUsers &&
        r.counters.value.createdGroups <= r.counters.value.totalDepartments &&
        r.message == SummaryMessage(UserResult(r.counters.value.totalUsers, r.counters.value.createdUsers,
                                               r.counters.value.updatedUsers, []),
                                    DepartmentResult(r.counters.value.totalDepartments,
                                                     r.counters.value.createdGroups, []))
      ensures failure.None? && IsConfigured(config.values) ==>
        FullSyncRun(config.values, sync.api.config.values, old(sync.api.cache.entries), sync.api.remote, sync.api.md5,
                    now, sync.users.refused, sync.groups.refused, old(sync.Dir()), runs, marks, sync.Dir(), report) &&
        sync.api.cache.entries ==
          FetchToken(sync.api.config.values, old(sync.api.cache.entries), sync.api.remote, sync.api.md5, now).entries &&
        r == Done(report.message, Some(Counters(report.totalUsers, report.createdUsers, report.updatedUsers,
                                                report.totalDepartments, report.createdGroups)))
    {
      report, runs, marks := SyncResult(false, 0, 0, 0, 0, 0, [], ""), [], [];
      if failure.Some? {
        r := Failure(ServerError, SyncFailedPrefix + failure.value, None);
        return;
      }
      if !IsConfigured(config.values) {
        r := Failure(BadRequest, NotConfigured, None);
        return;
      }
      var result;
      result, runs, marks := sync.FullSync(now);
      report := result;
      FullSyncKeeps(config.values, sync.api.config.values, old(sync.api.cache.entries), sync.api.remote, sync.api.md5,
                    now, sync.users.refused, sync.groups.refused, old(sync.Dir()), runs, marks, sync.Dir(), result);
      if result.success {
        r := Done(result.message, Some(Counters(result.totalUsers, result.createdUsers, result.updatedUsers,
                                                result.totalDepartments, result.createdGroups)));
      } else {
        r := Failure(ServerError, result.message, Some(result.errors));
      }
    }
  }
}
