/** The audit trail (lib/Service/AuditService.php): one entry appended per
    event, with the success flag turned into a status word, absent values
    stored as "", and the requesting address and user agent taken from
    the current request. Queries format the mapper's rows for the
    administration page. */
module Audit {
  import opened Base
  import opened Php
  import opened Sorting
  import opened AuditLogDb

  const Login := "login"
  const Logout := "logout"
  const OAuthAuthorization := "oauth_authorization"
  const OAuthCallback := "oauth_callback"
  const UserSync := "user_sync"
  const UserCreate := "user_create"
  const UserUpdate := "user_update"
  const ConfigChange := "config_change"

  const Success := "success"
  const Failed := "failed"
  const Warning := "warning"

  /** Structured details, an associative array of strings. */
  type Details = seq<(string, string)>

  /** `$success ? STATUS_SUCCESS : STATUS_FAILED`. */
  function StatusOf(success: bool): (s: string)
    ensures s == Success <==> success
    ensures s == Failed <==> !success
  {
    if success then Success else Failed
  }

  /** The stored `details` text: "" for null or an empty array (both
      falsy), the JSON text otherwise. */
  function DetailsText(details: Option<Details>, jsonEncode: Details -> string): (t: string)
    ensures details.None? || details.value == [] ==> t == ""
    ensures details.Some? && details.value != [] ==> t == jsonEncode(details.value)
  {
    if details.None? || details.value == [] then "" else jsonEncode(details.value)
  }

  /** An entry as `formatLogs` hands it out; `details` is present only
      when the stored text is PHP-truthy. */
  datatype LogView = LogView(
    id: nat,
    action: string,
    status: string,
    nextcloudUid: string,
    wecomUserId: string,
    ipAddress: string,
    userAgent: string,
    message: string,
    createdAt: int,
    details: Option<string>)

  function FormatLog(row: AuditRow): (view: LogView)
    ensures view.id == row.id && view.action == row.action && view.status == row.status
    ensures view.nextcloudUid == row.nextcloudUid && view.wecomUserId == row.wecomUserId
    ensures view.ipAddress == row.ipAddress && view.userAgent == row.userAgent
    ensures view.message == row.message && view.createdAt == row.createdAt
    ensures view.details.Some? <==> !Empty(row.details)
    ensures view.details.Some? ==> view.details.value == row.details
  {
    LogView(row.id, row.action, row.status, row.nextcloudUid, row.wecomUserId, row.ipAddress,
            row.userAgent, row.message, row.createdAt,
            if Empty(row.details) then None else Some(row.details))
  }

  /** `formatLogs`: one view per row, in the same order. */
  function FormatLogs(rows: seq<AuditRow>): (views: seq<LogView>)
    ensures |views| == |rows|
    ensures forall k :: 0 <= k < |rows| ==> views[k] == FormatLog(rows[k])
  {
    seq(|rows|, k requires 0 <= k < |rows| => FormatLog(rows[k]))
  }

  const SecondsPerDay := 24 * 3600

  class AuditService {
    const table: AuditTable
    /** `getRemoteAddress()` and `getHeader('User-Agent')` of the request
        being served ("" when the header is missing). */
    const remoteAddress: string
    const userAgent: string
    const jsonEncode: Details -> string

    constructor(table: AuditTable, remoteAddress: string, userAgent: string, jsonEncode: Details -> string)
      ensures this.table == table && this.remoteAddress == remoteAddress
      ensures this.userAgent == userAgent && this.jsonEncode == jsonEncode
    {
      this.table := table;
      this.remoteAddress := remoteAddress;
      this.userAgent := userAgent;
      this.jsonEncode := jsonEncode;
    }

    /** `createLog`: appends exactly one entry and returns it. */
    method CreateLog(action: string, status: string, nextcloudUid: Option<string>,
                     wecomUserId: Option<string>, message: Option<string>, details: Option<Details>,
                     now: int) returns (entry: AuditRow)
      modifies table
      ensures table.rows == old(table.rows) + [entry] && table.nextId == old(table.nextId) + 1
      ensures entry == AuditRow(old(table.nextId), action, status, nextcloudUid.GetOr(""),
                                wecomUserId.GetOr(""), remoteAddress, userAgent, message.GetOr(""),
                                DetailsText(details, jsonEncode), now)
    {
      var log := AuditRow(0, action, status, nextcloudUid.GetOr(""), wecomUserId.GetOr(""),
                          remoteAddress, userAgent, message.GetOr(""), DetailsText(details, jsonEncode), now);
      entry := table.Insert(log);
    }

    /** `logLogin`. */
    method LogLogin(userId: string, wecomUserId: string, success: bool, message: Option<string>, now: int)
      returns (entry: AuditRow)
      modifies table
      ensures table.rows == old(table.rows) + [entry] && table.nextId == old(table.nextId) + 1
      ensures entry == AuditRow(old(table.nextId), Login, StatusOf(success), userId, wecomUserId,
                                remoteAddress, userAgent, message.GetOr(""), "", now)
    {
      entry := CreateLog(Login, StatusOf(success), Some(userId), Some(wecomUserId), message, None, now);
    }

    /** `logOAuthAuthorization`. */
    method LogOAuthAuthorization(userId: Option<string>, wecomUserId: Option<string>, success: bool,
                                 message: Option<string>, details: Option<Details>, now: int)
      returns (entry: AuditRow)
      modifies table
      ensures table.rows == old(table.rows) + [entry] && table.nextId == old(table.nextId) + 1
      ensures entry == AuditRow(old(table.nextId), OAuthAuthorization, StatusOf(success), userId.GetOr(""),
                                wecomUserId.GetOr(""), remoteAddress, userAgent, message.GetOr(""),
                                DetailsText(details, jsonEncode), now)
    {
      entry := CreateLog(OAuthAuthorization, StatusOf(success), userId, wecomUserId, message, details, now);
    }

    /** `logOAuthCallback`. */
    method LogOAuthCallback(userId: Option<string>, wecomUserId: Option<string>, success: bool,
                            message: Option<string>, details: Option<Details>, now: int)
      returns (entry: AuditRow)
      modifies table
      ensures table.rows == old(table.rows) + [entry] && table.nextId == old(table.nextId) + 1
      ensures entry == AuditRow(old(table.nextId), OAuthCallback, StatusOf(success), userId.GetOr(""),
                                wecomUserId.GetOr(""), remoteAddress, userAgent, message.GetOr(""),
                                DetailsText(details, jsonEncode), now)
    {
      entry := CreateLog(OAuthCallback, StatusOf(success), userId, wecomUserId, message, details, now);
    }

    /** `logUserSync`: carries no account and no remote id. */
    method LogUserSync(success: bool, message: string, details: Option<Details>, now: int)
      returns (entry: AuditRow)
      modifies table
      ensures table.rows == old(table.rows) + [entry] && table.nextId == old(table.nextId) + 1
      ensures entry == AuditRow(old(table.nextId), UserSync, StatusOf(success), "", "",
                                remoteAddress, userAgent, message, DetailsText(details, jsonEncode), now)
    {
      entry := CreateLog(UserSync, StatusOf(success), None, None, Some(message), details, now);
    }

    /** `logUserCreate`. */
    method LogUserCreate(userId: string, wecomUserId: string, success: bool, message: Option<string>, now: int)
      returns (entry: AuditRow)
      modifies table
      ensures table.rows == old(table.rows) + [entry] && table.nextId == old(table.nextId) + 1
      ensures entry == AuditRow(old(table.nextId), UserCreate, StatusOf(success), userId, wecomUserId,
                                remoteAddress, userAgent, message.GetOr(""), "", now)
    {
      entry := CreateLog(UserCreate, StatusOf(success), Some(userId), Some(wecomUserId), message, None, now);
    }

    /** `logConfigChange`: always a success, with no remote id. */
    method LogConfigChange(userId: string, message: string, details: Option<Details>, now: int)
      returns (entry: AuditRow)
      modifies table
      ensures table.rows == old(table.rows) + [entry] && table.nextId == old(table.nextId) + 1
      ensures entry == AuditRow(old(table.nextId), ConfigChange, Success, userId, "",
                                remoteAddress, userAgent, message, DetailsText(details, jsonEncode), now)
    {
      entry := CreateLog(ConfigChange, Success, Some(userId), None, Some(message), details, now);
    }

    /** `getRecentLogs(limit)`: the `limit` newest entries, formatted. */
    function GetRecentLogs(limit: nat): (views: seq<LogView>)
      reads table
      // One view per row of the first page, in its newest-first order.
      ensures |views| == |FindRecent(table.rows, limit, 0)| &&
              forall k :: 0 <= k < |views| ==> views[k] == FormatLog(FindRecent(table.rows, limit, 0)[k])
      ensures |views| == if |table.rows| < limit then |table.rows| else limit
      ensures forall i, j :: 0 <= i < j < |views| ==> views[i].createdAt >= views[j].createdAt
    {
      var rows := FindRecent(table.rows, limit, 0);
      assert forall i, j :: 0 <= i < j < |rows| ==> CreatedAt(rows[i]) >= CreatedAt(rows[j]);
      FormatLogs(rows)
    }

    /** `getLogsByUser(uid, limit)`. */
    function GetLogsByUser(userId: string, limit: nat): (views: seq<LogView>)
      reads table
      // One view per row of the query, in its newest-first order.
      ensures |views| == |FindByNextcloudUid(table.rows, userId, limit)| &&
              forall k :: 0 <= k < |views| ==> views[k] == FormatLog(FindByNextcloudUid(table.rows, userId, limit)[k])
      ensures |views| <= limit
      ensures forall k :: 0 <= k < |views| ==> views[k].nextcloudUid == userId
    {
      NewestAt(table.rows, HasNextcloudUid(userId), limit);
      FormatLogs(FindByNextcloudUid(table.rows, userId, limit))
    }

    /** `getLogsByAction(action, limit)`. */
    function GetLogsByAction(action: string, limit: nat): (views: seq<LogView>)
      reads table
      // One view per row of the query, in its newest-first order.
      ensures |views| == |FindByAction(table.rows, action, limit)| &&
              forall k :: 0 <= k < |views| ==> views[k] == FormatLog(FindByAction(table.rows, action, limit)[k])
      ensures |views| <= limit
      ensures forall k :: 0 <= k < |views| ==> views[k].action == action
    {
      NewestAt(table.rows, HasAction(action), limit);
      FormatLogs(FindByAction(table.rows, action, limit))
    }

    /** `getLogsByTimeRange(start, end, limit)`. */
    function GetLogsByTimeRange(start: int, end: int, limit: nat): (views: seq<LogView>)
      reads table
      // One view per row of the query, in its newest-first order.
      ensures |views| == |FindByTimeRange(table.rows, start, end, limit)| &&
              forall k :: 0 <= k < |views| ==> views[k] == FormatLog(FindByTimeRange(table.rows, start, end, limit)[k])
      ensures |views| <= limit
      ensures forall k :: 0 <= k < |views| ==> start <= views[k].createdAt <= end
    {
      NewestAt(table.rows, InRange(start, end), limit);
      FormatLogs(FindByTimeRange(table.rows, start, end, limit))
    }

    /** `getLogsByStatus(status, limit)`. */
    function GetLogsByStatus(status: string, limit: nat): (views: seq<LogView>)
      reads table
      // One view per row of the query, in its newest-first order.
      ensures |views| == |FindByStatus(table.rows, status, limit)| &&
              forall k :: 0 <= k < |views| ==> views[k] == FormatLog(FindByStatus(table.rows, status, limit)[k])
      ensures |views| <= limit
      ensures forall k :: 0 <= k < |views| ==> views[k].status == status
    {
      NewestAt(table.rows, HasStatus(status), limit);
      FormatLogs(FindByStatus(table.rows, status, limit))
    }

    /** `cleanOldLogs(days)`: prunes at `now - days * 86400`. */
    method CleanOldLogs(daysToKeep: int, now: int) returns (n: nat)
      modifies table
      ensures table.rows == Where(old(table.rows), NotOlderThan(now - daysToKeep * SecondsPerDay))
      ensures n == |old(table.rows)| - |table.rows|
      ensures forall x :: x in table.rows <==>
                x in old(table.rows) && x.createdAt >= now - daysToKeep * SecondsPerDay
      ensures table.nextId == old(table.nextId)
    {
      n := table.DeleteOlderThan(now - daysToKeep * SecondsPerDay);
    }
  }

  /** The default retention of 90 days prunes at 7,776,000 seconds before
      now: an entry exactly that old survives, one a second older goes. */
  lemma DefaultRetention(rows: seq<AuditRow>, now: int)
    ensures forall x :: x in Where(rows, NotOlderThan(now - 90 * SecondsPerDay)) <==>
              x in rows && x.createdAt >= now - 7776000
  {
  }
}
