/** The scheduled sync (lib/BackgroundJob/SyncUsersJob.php): a timed job
    whose interval is the configured frequency in hours, taken once when
    the job is constructed, and whose run performs a full sync only when
    sync is switched on and the application is configured. What a run
    reports goes to the log only. */
module SyncJob {
  import opened Base
  import opened Php
  import opened Config
  import opened WeComApi
  import opened Sync

  const SecondsPerHour := 3600

  class SyncUsersJob {
    const config: AppConfig
    const sync: SyncService
    /** Seconds between runs. */
    var interval: int

    constructor(config: AppConfig, sync: SyncService)
      ensures this.config == config && this.sync == sync
      ensures interval == SyncFrequency(config.values) * SecondsPerHour
    {
      this.config := config;
      this.sync := sync;
      var hours := SyncFrequency(config.values);
      interval := hours * SecondsPerHour;
    }

    /** `run`: a full sync when sync is switched on and the application
        is configured, nothing otherwise. The report is what the run
        logs. */
    method Run(now: int) returns (report: Option<SyncResult>, ghost runs: seq<DepartmentRun>,
                                  ghost marks: seq<Directory>)
      requires sync.config == config && sync.mappings.Valid()
      modifies sync.users, sync.groups, sync.mappings, sync.api.cache
      ensures sync.mappings.Valid()
      ensures report.Some? <==> IsSyncEnabled(config.values) && IsConfigured(config.values)
      ensures report.None? ==> sync.Dir() == old(sync.Dir()) && sync.api.cache.entries == old(sync.api.cache.entries)
      ensures report.Some? ==>
        FullSyncRun(config.values, sync.api.config.values, old(sync.api.cache.entries), sync.api.remote, sync.api.md5,
                    now, sync.users.refused, sync.groups.refused, old(sync.Dir()), runs, marks, sync.Dir(),
                    report.value) &&
        sync.api.cache.entries ==
          FetchToken(sync.api.config.values, old(sync.api.cache.entries), sync.api.remote, sync.api.md5, now).entries
    {
      if !IsSyncEnabled(config.values) {
        return None, [], [];
      }
      if !IsConfigured(config.values) {
        return None, [], [];
      }
      var result;
      result, runs, marks := sync.FullSync(now);
      report := Some(result);
    }
  }

  /** The default frequency of 24 hours runs the job once a day. */
  lemma DefaultInterval(v: Settings)
    requires SyncFrequencyKey !in v
    ensures SyncFrequency(v) * SecondsPerHour == 86400
  {
    assert AppValue(v, SyncFrequencyKey, "24") == IntToString(24);
    IntStringRoundTrip(24);
  }
}
