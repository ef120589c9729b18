/** The application's settings (lib/Service/ConfigService.php). Nextcloud
    keeps them as strings in its app-config table under the app id
    `oauthwecom`; the model keeps that table as a map from key to text.
    Readers are functions of the map, with the default a missing key reads
    as; writers are methods of `AppConfig`, which owns the map. Booleans
    are stored as "yes"/"no", integers in decimal, lists comma-separated. */
module Config {
  import opened Base
  import opened Php

  type Settings = map<string, string>

  const CorpIdKey := "corp_id"
  const AgentIdKey := "agent_id"
  const AppSecretKey := "app_secret"
  const CallbackUrlKey := "callback_url"
  const EnabledKey := "enabled"
  const ForceLoginKey := "force_login"
  const AutoCreateUserKey := "auto_create_user"
  const SyncEnabledKey := "sync_enabled"
  const SyncFrequencyKey := "sync_frequency"
  const UserMatchFieldsKey := "user_match_fields"
  const DefaultQuotaKey := "default_quota"
  const SyncDepartmentsKey := "sync_departments"
  const NotificationsEnabledKey := "notifications_enabled"

  const ConfigKeys: set<string> :=
    {CorpIdKey, AgentIdKey, AppSecretKey, CallbackUrlKey, EnabledKey, ForceLoginKey,
     AutoCreateUserKey, SyncEnabledKey, SyncFrequencyKey, UserMatchFieldsKey,
     DefaultQuotaKey, SyncDepartmentsKey, NotificationsEnabledKey}

  /** What `getAllConfig` shows in place of a stored secret. */
  const SecretMask := "********"

  /** `getAppValue(app, key, default)`. */
  function AppValue(v: Settings, key: string, default: string): (r: string)
    ensures key in v ==> r == v[key]
    ensures key !in v ==> r == default
  {
    if key in v then v[key] else default
  }

  function BoolText(b: bool): string {
    if b then "yes" else "no"
  }

  /** A yes/no setting: only the exact text "yes" reads as true. */
  predicate Flag(v: Settings, key: string, default: string) {
    AppValue(v, key, default) == "yes"
  }

  // ------------------------------------------------------------ readers

  /** The stored corp id, or "" when none is stored. */
  function CorpId(v: Settings): (r: string)
    ensures CorpIdKey in v ==> r == v[CorpIdKey]
    ensures CorpIdKey !in v ==> r == ""
  {
    AppValue(v, CorpIdKey, "")
  }

  /** The stored agent id, or "" when none is stored. */
  function AgentId(v: Settings): (r: string)
    ensures AgentIdKey in v ==> r == v[AgentIdKey]
    ensures AgentIdKey !in v ==> r == ""
  {
    AppValue(v, AgentIdKey, "")
  }

  /** The stored secret, or "" when none is stored. */
  function AppSecret(v: Settings): (r: string)
    ensures AppSecretKey in v ==> r == v[AppSecretKey]
    ensures AppSecretKey !in v ==> r == ""
  {
    AppValue(v, AppSecretKey, "")
  }

  /** The stored callback URL, or "" when none is stored. */
  function CallbackUrl(v: Settings): (r: string)
    ensures CallbackUrlKey in v ==> r == v[CallbackUrlKey]
    ensures CallbackUrlKey !in v ==> r == ""
  {
    AppValue(v, CallbackUrlKey, "")
  }

  /** Off unless "yes" is stored. */
  function IsEnabled(v: Settings): (b: bool)
    ensures b <==> EnabledKey in v && v[EnabledKey] == "yes"
  {
    Flag(v, EnabledKey, "no")
  }

  /** Off unless "yes" is stored. */
  function IsForceLogin(v: Settings): (b: bool)
    ensures b <==> ForceLoginKey in v && v[ForceLoginKey] == "yes"
  {
    Flag(v, ForceLoginKey, "no")
  }

  /** On unless something other than "yes" is stored. */
  function IsAutoCreateUser(v: Settings): (b: bool)
    ensures b <==> AutoCreateUserKey !in v || v[AutoCreateUserKey] == "yes"
  {
    Flag(v, AutoCreateUserKey, "yes")
  }

  /** Off unless "yes" is stored. */
  function IsSyncEnabled(v: Settings): (b: bool)
    ensures b <==> SyncEnabledKey in v && v[SyncEnabledKey] == "yes"
  {
    Flag(v, SyncEnabledKey, "no")
  }

  /** Off unless "yes" is stored. */
  function IsNotificationsEnabled(v: Settings): (b: bool)
    ensures b <==> NotificationsEnabledKey in v && v[NotificationsEnabledKey] == "yes"
  {
    Flag(v, NotificationsEnabledKey, "no")
  }

  /** `(int)` of the stored text, in hours; 24 when nothing is stored. */
  function SyncFrequency(v: Settings): (r: int)
    ensures SyncFrequencyKey in v ==> r == StringToInt(v[SyncFrequencyKey])
    ensures SyncFrequencyKey !in v ==> r == 24
  {
    IntStringRoundTrip(24);
    assert IntToString(24) == "24";
    StringToInt(AppValue(v, SyncFrequencyKey, "24"))
  }

  /** The comma-separated field names, PHP-falsy entries dropped. */
  function UserMatchFields(v: Settings): (r: seq<string>)
    ensures forall k :: 0 <= k < |r| ==> !Empty(r[k])
  {
    FilterFalsy(Split(AppValue(v, UserMatchFieldsKey, "email,phone"), ','))
  }

  /** The stored quota text, or "default" when none is stored. */
  function DefaultQuota(v: Settings): (r: string)
    ensures DefaultQuotaKey in v ==> r == v[DefaultQuotaKey]
    ensures DefaultQuotaKey !in v ==> r == "default"
  {
    AppValue(v, DefaultQuotaKey, "default")
  }

  /** The department ids to synchronise; a PHP-empty text means none. */
  function SyncDepartments(v: Settings): (r: seq<string>)
    ensures Empty(AppValue(v, SyncDepartmentsKey, "")) ==> r == []
    ensures forall k :: 0 <= k < |r| ==> !Empty(r[k])
  {
    var deps := AppValue(v, SyncDepartmentsKey, "");
    if Empty(deps) then [] else FilterFalsy(Split(deps, ','))
  }

  /** All three credentials are stored and PHP-truthy; a missing one reads
      as "" and so counts as absent. */
  function IsConfigured(v: Settings): (b: bool)
    ensures b <==> CorpIdKey in v && !Empty(v[CorpIdKey]) && AgentIdKey in v && !Empty(v[AgentIdKey]) &&
                   AppSecretKey in v && !Empty(v[AppSecretKey])
  {
    !Empty(CorpId(v)) && !Empty(AgentId(v)) && !Empty(AppSecret(v))
  }

  /** The settings as the administration page receives them. */
  datatype ConfigSnapshot = ConfigSnapshot(
    corpId: string,
    agentId: string,
    appSecret: string,
    callbackUrl: string,
    enabled: bool,
    forceLogin: bool,
    autoCreateUser: bool,
    syncEnabled: bool,
    syncFrequency: int,
    userMatchFields: seq<string>,
    defaultQuota: string,
    syncDepartments: seq<string>,
    isConfigured: bool,
    notificationsEnabled: bool)

  /** `getAllConfig`: every setting, with the secret masked. The secret
      is tested for PHP truthiness, so a stored "0" shows as "". */
  function AllConfig(v: Settings): (r: ConfigSnapshot)
    ensures r.appSecret == if Empty(AppSecret(v)) then "" else SecretMask
    ensures r.isConfigured <==> IsConfigured(v)
    ensures r.corpId == CorpId(v) && r.agentId == AgentId(v) && r.callbackUrl == CallbackUrl(v)
    ensures r.enabled == IsEnabled(v) && r.forceLogin == IsForceLogin(v)
    ensures r.autoCreateUser == IsAutoCreateUser(v) && r.syncEnabled == IsSyncEnabled(v)
    ensures r.notificationsEnabled == IsNotificationsEnabled(v)
    ensures r.syncFrequency == SyncFrequency(v) && r.defaultQuota == DefaultQuota(v)
    ensures r.userMatchFields == UserMatchFields(v) && r.syncDepartments == SyncDepartments(v)
  {
    ConfigSnapshot(
      CorpId(v), AgentId(v),
      if Empty(AppSecret(v)) then "" else SecretMask,
      CallbackUrl(v),
      IsEnabled(v), IsForceLogin(v), IsAutoCreateUser(v), IsSyncEnabled(v),
      SyncFrequency(v), UserMatchFields(v), DefaultQuota(v), SyncDepartments(v),
      IsConfigured(v), IsNotificationsEnabled(v))
  }

  // ------------------------------------------------------------ the store

  class AppConfig {
    var values: Settings

    constructor(initial: Settings)
      ensures values == initial
    {
      values := initial;
    }

    /** `setAppValue`: overwrites one key and nothing else. */
    method Put(key: string, value: string)
      modifies this
      ensures values == old(values)[key := value]
    {
      values := values[key := value];
    }

    method SetCorpId(corpId: string)
      modifies this
      ensures values == old(values)[CorpIdKey := corpId]
    {
      Put(CorpIdKey, corpId);
    }

    method SetAgentId(agentId: string)
      modifies this
      ensures values == old(values)[AgentIdKey := agentId]
    {
      Put(AgentIdKey, agentId);
    }

    method SetAppSecret(appSecret: string)
      modifies this
      ensures values == old(values)[AppSecretKey := appSecret]
    {
      Put(AppSecretKey, appSecret);
    }

    method SetCallbackUrl(callbackUrl: string)
      modifies this
      ensures values == old(values)[CallbackUrlKey := callbackUrl]
    {
      Put(CallbackUrlKey, callbackUrl);
    }

    method SetEnabled(enabled: bool)
      modifies this
      ensures values == old(values)[EnabledKey := BoolText(enabled)]
      ensures IsEnabled(values) == enabled
    {
      Put(EnabledKey, BoolText(enabled));
    }

    method SetForceLogin(forceLogin: bool)
      modifies this
      ensures values == old(values)[ForceLoginKey := BoolText(forceLogin)]
      ensures IsForceLogin(values) == forceLogin
    {
      Put(ForceLoginKey, BoolText(forceLogin));
    }

    method SetAutoCreateUser(autoCreate: bool)
      modifies this
      ensures values == old(values)[AutoCreateUserKey := BoolText(autoCreate)]
      ensures IsAutoCreateUser(values) == autoCreate
    {
      Put(AutoCreateUserKey, BoolText(autoCreate));
    }

    method SetSyncEnabled(enabled: bool)
      modifies this
      ensures values == old(values)[SyncEnabledKey := BoolText(enabled)]
      ensures IsSyncEnabled(values) == enabled
    {
      Put(SyncEnabledKey, BoolText(enabled));
    }

    method SetNotificationsEnabled(enabled: bool)
      modifies this
      ensures values == old(values)[NotificationsEnabledKey := BoolText(enabled)]
      ensures IsNotificationsEnabled(values) == enabled
    {
      Put(NotificationsEnabledKey, BoolText(enabled));
    }

    method SetSyncFrequency(hours: int)
      modifies this
      ensures values == old(values)[SyncFrequencyKey := IntToString(hours)]
      ensures SyncFrequency(values) == hours
    {
      Put(SyncFrequencyKey, IntToString(hours));
      FrequencyRoundTrip(old(values), hours);
    }

    method SetUserMatchFields(fields: seq<string>)
      modifies this
      ensures values == old(values)[UserMatchFieldsKey := Join(fields, ',')]
    {
      Put(UserMatchFieldsKey, Join(fields, ','));
    }

    method SetDefaultQuota(quota: string)
      modifies this
      ensures values == old(values)[DefaultQuotaKey := quota]
    {
      Put(DefaultQuotaKey, quota);
    }

    method SetSyncDepartments(departmentIds: seq<string>)
      modifies this
      ensures values == old(values)[SyncDepartmentsKey := Join(departmentIds, ',')]
    {
      Put(SyncDepartmentsKey, Join(departmentIds, ','));
    }
  }

  // ------------------------------------------------------------ properties

  /** With none of the application's keys stored, every reader returns its
      default and the application counts as not configured. */
  lemma UnsetDefaults(v: Settings)
    requires v.Keys !! ConfigKeys
    ensures !IsEnabled(v) && !IsForceLogin(v) && IsAutoCreateUser(v)
    ensures !IsSyncEnabled(v) && !IsNotificationsEnabled(v)
    ensures SyncFrequency(v) == 24
    ensures UserMatchFields(v) == ["email", "phone"]
    ensures DefaultQuota(v) == "default"
    ensures SyncDepartments(v) == []
    ensures CorpId(v) == "" && AgentId(v) == "" && AppSecret(v) == "" && CallbackUrl(v) == ""
    ensures !IsConfigured(v)
  {
    assert SyncDepartmentsKey !in v;
    DefaultMatchFields(v);
  }

  lemma DefaultMatchFields(v: Settings)
    requires UserMatchFieldsKey !in v
    ensures UserMatchFields(v) == ["email", "phone"]
  {
    var fields := ["email", "phone"];
    assert AppValue(v, UserMatchFieldsKey, "email,phone") == Join(fields, ',');
    ExplodeImplode(fields, ',');
  }

  /** Writing a yes/no setting and reading it back gives the written value. */
  lemma FlagRoundTrip(v: Settings, key: string, default: string, b: bool)
    ensures Flag(v[key := BoolText(b)], key, default) == b
  {
  }

  /** `setSyncFrequency(h)` then `getSyncFrequency()` gives `h`. */
  lemma FrequencyRoundTrip(v: Settings, hours: int)
    ensures SyncFrequency(v[SyncFrequencyKey := IntToString(hours)]) == hours
  {
    IntStringRoundTrip(hours);
  }

  /** Writing a list of field names and reading it back gives the list,
      provided no name is PHP-empty or contains a comma. */
  lemma MatchFieldsRoundTrip(v: Settings, fields: seq<string>)
    requires forall k :: 0 <= k < |fields| ==> !Empty(fields[k]) && NoSep(fields[k], ',')
    ensures UserMatchFields(v[UserMatchFieldsKey := Join(fields, ',')]) == fields
  {
    var w := v[UserMatchFieldsKey := Join(fields, ',')];
    assert AppValue(w, UserMatchFieldsKey, "email,phone") == Join(fields, ',');
    ExplodeImplode(fields, ',');
  }

  /** The same round trip for the department list; writing the empty list
      reads back as the empty list. */
  lemma SyncDepartmentsRoundTrip(v: Settings, ids: seq<string>)
    requires forall k :: 0 <= k < |ids| ==> !Empty(ids[k]) && NoSep(ids[k], ',')
    ensures SyncDepartments(v[SyncDepartmentsKey := Join(ids, ',')]) == ids
  {
    var text := Join(ids, ',');
    var w := v[SyncDepartmentsKey := text];
    assert AppValue(w, SyncDepartmentsKey, "") == text;
    ExplodeImplode(ids, ',');
  }

  /** The snapshot never carries the stored secret, unless that secret is
      itself "", or the mask text. */
  lemma SnapshotHidesSecret(v: Settings)
    requires AppSecret(v) != "" && AppSecret(v) != SecretMask
    ensures AllConfig(v).appSecret != AppSecret(v)
  {
  }
}
