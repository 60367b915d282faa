/**
 * The scheduled passes (scrapers/scheduler.py) as operations on the store:
 * the job table `_schedule_jobs` builds, the scrape upsert, contact
 * initiation, the follow-up pass and the daily cleanup.
 *
 * Each pass runs at one moment `now`, standing for the `utcnow()` calls it
 * makes. The collaborators are parameters: `scrape` is a scraper's
 * `scrape_city` for a site and a city over the committed properties (which
 * are what its duplicate check reads), the mailer is the e-mail sender and
 * the phone caller is the one modelled in PhoneCalls.
 */
module Scheduler {
  import opened Wrappers
  import opened Text
  import opened Settings
  import opened Models
  import opened Database
  import opened EmailSender
  import opened PhoneCalls

  // ---------------------------------------------------------------------------
  // Job table

  datatype Task = ScrapeAllSitesTask | InitiateContactsTask | SendFollowUpsTask | DailyCleanupTask

  datatype Trigger = Crontab(expr: string) | DailyAt(hour: nat, minute: nat)

  datatype Job = Job(id: string, name: string, task: Task, trigger: Trigger, maxInstances: nat, misfireGraceSeconds: Option<nat>)

  const ScrapeJob := Job("scrape_properties", "Scrape rental properties", ScrapeAllSitesTask, Crontab(""), 1, Some(600))
  const ContactJob := Job("initiate_contacts", "Initiate new contacts", InitiateContactsTask, Crontab(""), 1, Some(300))
  const FollowUpJob := Job("send_follow_ups", "Send follow-up communications", SendFollowUpsTask, Crontab(""), 1, Some(300))
  const CleanupJob := Job("daily_cleanup", "Daily database cleanup", DailyCleanupTask, DailyAt(2, 0), 1, None)

  /** Whether the table holds a job for the task. */
  predicate HasJob(jobs: seq<Job>, task: Task) {
    exists j :: j in jobs && j.task == task
  }

  /** The job for one schedule: none when the schedule string is empty. */
  function CronJob(job: Job, schedule: string): (r: seq<Job>)
    ensures |r| <= 1
    ensures r != [] <==> schedule != ""
    ensures r != [] ==> r[0] == job.(trigger := Crontab(schedule))
  {
    if schedule != "" then [job.(trigger := Crontab(schedule))] else []
  }

  /** `_schedule_jobs`: the jobs it adds, in the order it adds them. */
  function ScheduledJobs(cfg: Config): seq<Job> {
    CronJob(ScrapeJob, cfg.scrapingSchedule) + CronJob(ContactJob, cfg.contactSchedule)
      + CronJob(FollowUpJob, cfg.followUpSchedule) + [CleanupJob]
  }

  /**
   * A cron job for each non-empty schedule, triggered by that schedule; the
   * cleanup at 02:00 always, last; every job runs one instance at a time, and
   * no two jobs share a task or an id.
   */
  lemma ScheduledJobsMeaning(cfg: Config)
    ensures var jobs := ScheduledJobs(cfg);
      && 1 <= |jobs| <= 4
      && (HasJob(jobs, ScrapeAllSitesTask) <==> cfg.scrapingSchedule != "")
      && (HasJob(jobs, InitiateContactsTask) <==> cfg.contactSchedule != "")
      && (HasJob(jobs, SendFollowUpsTask) <==> cfg.followUpSchedule != "")
      && jobs[|jobs| - 1] == CleanupJob
    ensures var jobs := ScheduledJobs(cfg);
      forall j :: j in jobs ==> j.maxInstances == 1 && (j.task == ScrapeAllSitesTask ==> j.trigger == Crontab(cfg.scrapingSchedule))
    ensures var jobs := ScheduledJobs(cfg);
      forall k, l :: 0 <= k < l < |jobs| ==> jobs[k].task != jobs[l].task && jobs[k].id != jobs[l].id
  {
    var a := CronJob(ScrapeJob, cfg.scrapingSchedule);
    var b := CronJob(ContactJob, cfg.contactSchedule);
    var c := CronJob(FollowUpJob, cfg.followUpSchedule);
    var jobs := ScheduledJobs(cfg);
    assert jobs == a + b + c + [CleanupJob];
    assert forall j :: j in jobs <==> j in a || j in b || j in c || j == CleanupJob;
    assert a != [] ==> a[0] in jobs;
    assert b != [] ==> b[0] in jobs;
    assert c != [] ==> c[0] in jobs;
    JobsDistinct(a, b, c);
  }

  lemma JobsDistinct(a: seq<Job>, b: seq<Job>, c: seq<Job>)
    requires |a| <= 1 && |b| <= 1 && |c| <= 1
    requires a != [] ==> a[0].task == ScrapeAllSitesTask && a[0].id == ScrapeJob.id
    requires b != [] ==> b[0].task == InitiateContactsTask && b[0].id == ContactJob.id
    requires c != [] ==> c[0].task == SendFollowUpsTask && c[0].id == FollowUpJob.id
    ensures var jobs := a + b + c + [CleanupJob];
      forall k, l :: 0 <= k < l < |jobs| ==> jobs[k].task != jobs[l].task && jobs[k].id != jobs[l].id
  {
    var jobs := a + b + c + [CleanupJob];
    assert forall k :: 0 <= k < |jobs| ==> RankOf(jobs[k].task) >= k;
    assert forall k :: 0 <= k < |jobs| ==> jobs[k].id == IdOf(jobs[k].task);
    forall k, l | 0 <= k < l < |jobs| ensures RankOf(jobs[k].task) < RankOf(jobs[l].task) {
      RanksIncrease(a, b, c, k, l);
    }
  }

  /** The order `_schedule_jobs` adds the jobs in. */
  function RankOf(t: Task): nat {
    match t
    case ScrapeAllSitesTask => 0
    case InitiateContactsTask => 1
    case SendFollowUpsTask => 2
    case DailyCleanupTask => 3
  }

  function IdOf(t: Task): string {
    match t
    case ScrapeAllSitesTask => ScrapeJob.id
    case InitiateContactsTask => ContactJob.id
    case SendFollowUpsTask => FollowUpJob.id
    case DailyCleanupTask => CleanupJob.id
  }

  lemma RanksIncrease(a: seq<Job>, b: seq<Job>, c: seq<Job>, k: nat, l: nat)
    requires |a| <= 1 && |b| <= 1 && |c| <= 1
    requires a != [] ==> a[0].task == ScrapeAllSitesTask
    requires b != [] ==> b[0].task == InitiateContactsTask
    requires c != [] ==> c[0].task == SendFollowUpsTask
    requires k < l < |a + b + c + [CleanupJob]|
    ensures RankOf((a + b + c + [CleanupJob])[k].task) < RankOf((a + b + c + [CleanupJob])[l].task)
  {
    var ab := a + b;
    var abc := ab + c;
    var jobs := abc + [CleanupJob];
    assert forall i :: 0 <= i < |ab| ==> ab[i] == if i < |a| then a[i] else b[i - |a|];
    assert forall i :: 0 <= i < |abc| ==> abc[i] == if i < |ab| then ab[i] else c[i - |ab|];
    assert forall i :: 0 <= i < |jobs| ==> jobs[i] == if i < |abc| then abc[i] else CleanupJob;
  }

  // ---------------------------------------------------------------------------
  // Scrape pass

  /** The scrapers the scheduler holds, in dictionary order. */
  const Sites: seq<string> := ["seloger"]

  /** `ENABLED_SCRAPERS.get(site, False)`. */
  predicate Enabled(cfg: Config, site: string) {
    site in cfg.enabledScrapers && cfg.enabledScrapers[site]
  }

  /** An existing row seen again: updated now and available. */
  function Touched(p: Property, now: Time): Property {
    p.(lastUpdated := Some(now), stillAvailable := Some(true))
  }

  /** The source URLs of a batch. */
  function UrlsOf(batch: seq<Property>): set<string> {
    set k | 0 <= k < |batch| :: batch[k].sourceUrl
  }

  /** Whether a stored row has the URL. */
  predicate Stored(rows: seq<Property>, url: string) {
    exists k :: 0 <= k < |rows| && rows[k].sourceUrl == url
  }

  /** The rows after the loop: each one whose URL the batch holds is touched. */
  function Refreshed(rows: seq<Property>, urls: set<string>, now: Time): (r: seq<Property>)
    ensures |r| == |rows|
  {
    seq(|rows|, j requires 0 <= j < |rows| => if rows[j].sourceUrl in urls then Touched(rows[j], now) else rows[j])
  }

  /** The batch members whose URL no stored row has, in batch order: what the loop adds. */
  function Unseen(rows: seq<Property>, batch: seq<Property>): (r: seq<Property>)
    ensures |r| <= |batch|
    decreases |batch|
  {
    if batch == [] then []
    else
      var before := Unseen(rows, batch[..|batch| - 1]);
      if Stored(rows, batch[|batch| - 1].sourceUrl) then before else before + [batch[|batch| - 1]]
  }

  /** The added rows as the commit inserts them: consecutive ids from `firstId`, and the column defaults. */
  function Inserted(pending: seq<Property>, firstId: nat, now: Time): (r: seq<Property>)
    requires firstId > 0
    ensures |r| == |pending|
  {
    seq(|pending|, k requires 0 <= k < |pending| => InsertedProperty(pending[k], firstId + k, now))
  }

  /** The commit succeeds when the added rows keep the NOT NULL price and the unique URL. */
  predicate CommitAccepts(pending: seq<Property>) {
    PricesPresent(pending) && UniqueUrls(pending)
  }

  /** The log row written before scraping starts. */
  function RunningLog(id: nat, site: string, city: string, now: Time): ScrapingLog {
    ScrapingLog(id, site, Some(now), None, 0, 0, "running", "", city)
  }

  datatype ScrapeState = ScrapeState(properties: seq<Property>, logs: seq<ScrapingLog>, aborted: bool)

  /**
   * One site for one city. When the commit is refused, the session rolls
   * back to the committed state (the log stays "running"), and the commit
   * of the except block raises again: the pass stops there.
   */
  function SiteRun(st: ScrapeState, site: string, city: string, batch: seq<Property>, now: Time): ScrapeState {
    var log := RunningLog(NextId(st.logs, LogId), site, city, now);
    var pending := Unseen(st.properties, batch);
    if CommitAccepts(pending) then
      ScrapeState(Refreshed(st.properties, UrlsOf(batch), now) + Inserted(pending, NextId(st.properties, PropertyId), now),
                  st.logs + [log.(completedAt := Some(now), status := "completed",
                                  propertiesFound := |batch|, propertiesNew := |pending|)],
                  false)
    else ScrapeState(st.properties, st.logs + [log], true)
  }

  /** The enabled sites among `sites`, in order, for one city; an abort stops the rest. */
  function CityRun(st: ScrapeState, cfg: Config, city: string, sites: seq<string>,
                   scrape: (string, string, seq<Property>) -> seq<Property>, now: Time): ScrapeState
    decreases |sites|
  {
    if sites == [] then st
    else
      var s := CityRun(st, cfg, city, sites[..|sites| - 1], scrape, now);
      var site := sites[|sites| - 1];
      if s.aborted || !Enabled(cfg, site) then s
      else SiteRun(s, site, city, scrape(site, city, s.properties), now)
  }

  /** `scrape_all_sites` over `cities`: each stripped, blank ones skipped. */
  function ScrapePass(st: ScrapeState, cfg: Config, cities: seq<string>,
                      scrape: (string, string, seq<Property>) -> seq<Property>, now: Time): ScrapeState
    decreases |cities|
  {
    if cities == [] then st
    else
      var s := ScrapePass(st, cfg, cities[..|cities| - 1], scrape, now);
      var city := Strip(cities[|cities| - 1]);
      if s.aborted || city == "" then s
      else CityRun(s, cfg, city, Sites, scrape, now)
  }

  /** The first stored row with the URL, as the lookup's `.first()` returns it. */
  function FirstWithUrl(rows: seq<Property>, url: string): (r: Option<nat>)
    ensures r.Some? ==> r.value < |rows| && rows[r.value].sourceUrl == url
    ensures r.None? <==> !Stored(rows, url)
    decreases |rows|
  {
    if rows == [] then None
    else if rows[0].sourceUrl == url then Some(0)
    else
      match FirstWithUrl(rows[1..], url)
      case None => None
      case Some(k) => Some(k + 1)
  }

  lemma UrlsOfPrefix(batch: seq<Property>, i: nat)
    requires i < |batch|
    ensures UrlsOf(batch[..i + 1]) == UrlsOf(batch[..i]) + {batch[i].sourceUrl}
  {
    var a := batch[..i + 1];
    var b := batch[..i];
    forall u ensures u in UrlsOf(a) <==> u in UrlsOf(b) + {batch[i].sourceUrl} {
      if u in UrlsOf(a) {
        var k :| 0 <= k < |a| && a[k].sourceUrl == u;
        if k < i {
          assert b[k] == a[k];
        }
      }
      if u in UrlsOf(b) {
        var k :| 0 <= k < |b| && b[k].sourceUrl == u;
        assert a[k] == b[k];
      }
      if u == batch[i].sourceUrl {
        assert a[i] == batch[i];
      }
    }
  }

  lemma UnseenPrefix(rows: seq<Property>, batch: seq<Property>, i: nat)
    requires i < |batch|
    ensures Unseen(rows, batch[..i + 1]) ==
      if Stored(rows, batch[i].sourceUrl) then Unseen(rows, batch[..i]) else Unseen(rows, batch[..i]) + [batch[i]]
  {
    assert batch[..i + 1][..i] == batch[..i];
  }

  /** Touching the row of a URL once more is the same as having the URL among the touched ones. */
  lemma RefreshedAdd(rows: seq<Property>, urls: set<string>, j: nat, now: Time)
    requires UniqueUrls(rows) && j < |rows|
    ensures Refreshed(rows, urls + {rows[j].sourceUrl}, now) ==
      Refreshed(rows, urls, now)[j := Touched(Refreshed(rows, urls, now)[j], now)]
  {
    var a := Refreshed(rows, urls + {rows[j].sourceUrl}, now);
    var b := Refreshed(rows, urls, now)[j := Touched(Refreshed(rows, urls, now)[j], now)];
    forall l | 0 <= l < |rows| ensures a[l] == b[l] {
      if l != j {
        assert rows[l].sourceUrl != rows[j].sourceUrl by {
          if l < j {} else {}
        }
      }
    }
  }

  /** A URL no row has changes no row. */
  lemma RefreshedAbsent(rows: seq<Property>, urls: set<string>, url: string, now: Time)
    requires !Stored(rows, url)
    ensures Refreshed(rows, urls + {url}, now) == Refreshed(rows, urls, now)
  {
    var a := Refreshed(rows, urls + {url}, now);
    var b := Refreshed(rows, urls, now);
    forall l | 0 <= l < |rows| ensures a[l] == b[l] {
      assert rows[l].sourceUrl != url;
    }
  }

  /**
   * The loop over the scraped properties: the lookup runs against the rows
   * committed before the loop (autoflush is off), an unseen URL is added
   * and counted, a stored one is touched. Nothing is committed here.
   */
  method SaveBatch(snapshot: seq<Property>, batch: seq<Property>, now: Time)
    returns (rows: seq<Property>, pending: seq<Property>, newCount: nat)
    requires UniqueUrls(snapshot)
    ensures rows == Refreshed(snapshot, UrlsOf(batch), now)
    ensures pending == Unseen(snapshot, batch)
    ensures newCount == |pending| <= |batch|
  {
    rows := snapshot;
    pending := [];
    newCount := 0;
    assert Refreshed(snapshot, {}, now) == snapshot;
    for i := 0 to |batch|
      invariant rows == Refreshed(snapshot, UrlsOf(batch[..i]), now)
      invariant pending == Unseen(snapshot, batch[..i])
      invariant newCount == |pending|
    {
      var prop := batch[i];
      UrlsOfPrefix(batch, i);
      UnseenPrefix(snapshot, batch, i);
      var existing := FirstWithUrl(snapshot, prop.sourceUrl);
      if existing.None? {
        RefreshedAbsent(snapshot, UrlsOf(batch[..i]), prop.sourceUrl, now);
        pending := pending + [prop];
        newCount := newCount + 1;
      } else {
        var j := existing.value;
        RefreshedAdd(snapshot, UrlsOf(batch[..i]), j, now);
        rows := rows[j := Touched(rows[j], now)];
      }
    }
    assert batch[..|batch|] == batch;
  }

  /**
   * One site for one city: write the "running" log, scrape, save, commit;
   * then complete the log. True when the commit was refused; the exception
   * then escapes the pass.
   */
  method ScrapeSite(db: Store, site: string, city: string,
                    scrape: (string, string, seq<Property>) -> seq<Property>, now: Time) returns (aborted: bool)
    requires db.Valid()
    modifies db
    ensures db.Valid()
    ensures ScrapeState(db.properties, db.logs, aborted) ==
      SiteRun(ScrapeState(old(db.properties), old(db.logs), false), site, city, scrape(site, city, old(db.properties)), now)
    ensures db.contacts == old(db.contacts) && db.communications == old(db.communications)
  {
    ghost var st := ScrapeState(db.properties, db.logs, false);
    var log := RunningLog(NextId(db.logs, LogId), site, city, now);
    AppendKeepsKeys(db.logs, LogId, log);
    db.logs := db.logs + [log];
    var batch := scrape(site, city, db.properties);
    var rows, pending, newCount := SaveBatch(db.properties, batch, now);
    if !CommitAccepts(pending) {
      return true;
    }
    SiteRunKeepsValid(st, site, city, batch, now);
    db.properties := rows + Inserted(pending, NextId(db.properties, PropertyId), now);
    var completed := log.(completedAt := Some(now), status := "completed",
                          propertiesFound := |batch|, propertiesNew := newCount);
    db.logs := db.logs[|db.logs| - 1 := completed];
    assert db.logs == st.logs + [completed];
    return false;
  }

  /**
   * `scrape_all_sites`: every enabled site for every non-blank city, in
   * order. True when a refused commit aborted the pass.
   */
  method ScrapeAllSites(cfg: Config, db: Store, scrape: (string, string, seq<Property>) -> seq<Property>, now: Time)
    returns (aborted: bool)
    requires db.Valid()
    modifies db
    ensures db.Valid()
    ensures ScrapeState(db.properties, db.logs, aborted) ==
      ScrapePass(ScrapeState(old(db.properties), old(db.logs), false), cfg, cfg.criteria.cities, scrape, now)
    ensures db.contacts == old(db.contacts) && db.communications == old(db.communications)
  {
    ghost var st0 := ScrapeState(db.properties, db.logs, false);
    var cities := cfg.criteria.cities;
    aborted := false;
    for i := 0 to |cities|
      invariant db.Valid()
      invariant ScrapeState(db.properties, db.logs, false) == ScrapePass(st0, cfg, cities[..i], scrape, now)
      invariant db.contacts == old(db.contacts) && db.communications == old(db.communications)
    {
      ScrapePassStep(st0, cfg, cities, i, scrape, now);
      var city := Strip(cities[i]);
      if city != "" {
        aborted := ScrapeCitySites(cfg, db, city, scrape, now);
        if aborted {
          ScrapePassAfterAbort(st0, cfg, cities, i + 1, scrape, now);
          return;
        }
      }
    }
    assert cities[..|cities|] == cities;
  }

  /** One more city of the pass. */
  lemma ScrapePassStep(st: ScrapeState, cfg: Config, cities: seq<string>, i: nat,
                       scrape: (string, string, seq<Property>) -> seq<Property>, now: Time)
    requires i < |cities|
    ensures var s := ScrapePass(st, cfg, cities[..i], scrape, now);
      ScrapePass(st, cfg, cities[..i + 1], scrape, now) ==
        if s.aborted || Strip(cities[i]) == "" then s else CityRun(s, cfg, Strip(cities[i]), Sites, scrape, now)
  {
    assert cities[..i + 1][..i] == cities[..i];
  }

  /** The inner loop of `scrape_all_sites`: the enabled sites for one city, stopping at an abort. */
  method ScrapeCitySites(cfg: Config, db: Store, city: string, scrape: (string, string, seq<Property>) -> seq<Property>, now: Time)
    returns (aborted: bool)
    requires db.Valid()
    modifies db
    ensures db.Valid()
    ensures ScrapeState(db.properties, db.logs, aborted) ==
      CityRun(ScrapeState(old(db.properties), old(db.logs), false), cfg, city, Sites, scrape, now)
    ensures db.contacts == old(db.contacts) && db.communications == old(db.communications)
  {
    ghost var before := ScrapeState(db.properties, db.logs, false);
    aborted := false;
    for j := 0 to |Sites|
      invariant db.Valid()
      invariant ScrapeState(db.properties, db.logs, false) == CityRun(before, cfg, city, Sites[..j], scrape, now)
      invariant db.contacts == old(db.contacts) && db.communications == old(db.communications)
    {
      assert Sites[..j + 1][..j] == Sites[..j];
      var site := Sites[j];
      if Enabled(cfg, site) {
        aborted := ScrapeSite(db, site, city, scrape, now);
        if aborted {
          CityRunAfterAbort(before, cfg, city, Sites, j + 1, scrape, now);
          return;
        }
      }
    }
    assert Sites[..|Sites|] == Sites;
  }

  /** Once a run has aborted, the remaining sites change nothing. */
  lemma {:induction false} CityRunAfterAbort(st: ScrapeState, cfg: Config, city: string, sites: seq<string>, n: nat,
                                             scrape: (string, string, seq<Property>) -> seq<Property>, now: Time)
    requires n <= |sites|
    requires CityRun(st, cfg, city, sites[..n], scrape, now).aborted
    ensures CityRun(st, cfg, city, sites, scrape, now) == CityRun(st, cfg, city, sites[..n], scrape, now)
    decreases |sites|
  {
    if n < |sites| {
      var init := sites[..|sites| - 1];
      assert init[..n] == sites[..n];
      CityRunAfterAbort(st, cfg, city, init, n, scrape, now);
    } else {
      assert sites[..n] == sites;
    }
  }

  /** Once the pass has aborted, the remaining cities change nothing. */
  lemma {:induction false} ScrapePassAfterAbort(st: ScrapeState, cfg: Config, cities: seq<string>, n: nat,
                                                scrape: (string, string, seq<Property>) -> seq<Property>, now: Time)
    requires n <= |cities|
    requires ScrapePass(st, cfg, cities[..n], scrape, now).aborted
    ensures ScrapePass(st, cfg, cities, scrape, now) == ScrapePass(st, cfg, cities[..n], scrape, now)
    decreases |cities|
  {
    if n < |cities| {
      var init := cities[..|cities| - 1];
      assert init[..n] == cities[..n];
      ScrapePassAfterAbort(st, cfg, init, n, scrape, now);
    } else {
      assert cities[..n] == cities;
    }
  }

  /** A scraped property whose URL no stored row has is among the added ones. */
  lemma {:induction false} UnstoredAreUnseen(rows: seq<Property>, batch: seq<Property>, k: nat)
    requires k < |batch| && !Stored(rows, batch[k].sourceUrl)
    ensures batch[k] in Unseen(rows, batch)
    decreases |batch|
  {
    var init := batch[..|batch| - 1];
    if k < |init| {
      assert init[k] == batch[k];
      UnstoredAreUnseen(rows, init, k);
    }
  }

  /**
   * A committed run: a stored row the batch names is updated now and
   * available, any other is unchanged; the unseen ones are added after them;
   * every scraped URL is stored afterwards; the log is completed with
   * `properties_new` <= `properties_found` == the batch size.
   */
  lemma UpsertMeaning(st: ScrapeState, site: string, city: string, batch: seq<Property>, now: Time)
    requires !SiteRun(st, site, city, batch, now).aborted
    ensures var r := SiteRun(st, site, city, batch, now);
      && |r.properties| == |st.properties| + |Unseen(st.properties, batch)|
      && (forall k :: 0 <= k < |st.properties| && st.properties[k].sourceUrl in UrlsOf(batch) ==>
            r.properties[k] == Touched(st.properties[k], now))
      && (forall k :: 0 <= k < |st.properties| && st.properties[k].sourceUrl !in UrlsOf(batch) ==>
            r.properties[k] == st.properties[k])
    ensures var r := SiteRun(st, site, city, batch, now);
      forall k :: 0 <= k < |batch| ==> Stored(r.properties, batch[k].sourceUrl)
    ensures var r := SiteRun(st, site, city, batch, now);
      && |r.logs| == |st.logs| + 1 && r.logs[..|st.logs|] == st.logs
      && var log := r.logs[|st.logs|];
      && log.status == "completed" && log.site == site && log.city == city
      && log.propertiesFound == |batch| && log.propertiesNew <= log.propertiesFound
  {
    var r := SiteRun(st, site, city, batch, now);
    var pending := Unseen(st.properties, batch);
    var refreshed := Refreshed(st.properties, UrlsOf(batch), now);
    var added := Inserted(pending, NextId(st.properties, PropertyId), now);
    assert r.properties == refreshed + added;
    forall k | 0 <= k < |batch| ensures Stored(r.properties, batch[k].sourceUrl) {
      var u := batch[k].sourceUrl;
      if Stored(st.properties, u) {
        var j :| 0 <= j < |st.properties| && st.properties[j].sourceUrl == u;
        assert r.properties[j] == refreshed[j];
      } else {
        UnstoredAreUnseen(st.properties, batch, k);
        var m :| 0 <= m < |pending| && pending[m] == batch[k];
        assert r.properties[|st.properties| + m] == added[m];
      }
    }
  }

  /** A refused commit leaves the properties as they were and the log "running", and aborts. */
  lemma RefusedCommit(st: ScrapeState, site: string, city: string, batch: seq<Property>, now: Time)
    ensures SiteRun(st, site, city, batch, now).aborted <==> !CommitAccepts(Unseen(st.properties, batch))
    ensures var r := SiteRun(st, site, city, batch, now);
      r.aborted ==> r.properties == st.properties && r.logs == st.logs + [RunningLog(NextId(st.logs, LogId), site, city, now)]
  {
  }

  /** A scraped batch that repeats a URL no stored row has is refused. */
  lemma RepeatedNewUrlAborts(st: ScrapeState, site: string, city: string, batch: seq<Property>, now: Time, k: nat, l: nat)
    requires k < l < |batch| && batch[k].sourceUrl == batch[l].sourceUrl && !Stored(st.properties, batch[k].sourceUrl)
    ensures SiteRun(st, site, city, batch, now).aborted
  {
    UnseenKeepsOrder(st.properties, batch, k, l);
  }

  /** Two unstored members of a batch stay two members of the added ones, in order. */
  lemma {:induction false} UnseenKeepsOrder(rows: seq<Property>, batch: seq<Property>, k: nat, l: nat)
    requires k < l < |batch| && !Stored(rows, batch[k].sourceUrl) && !Stored(rows, batch[l].sourceUrl)
    ensures exists i, j :: 0 <= i < j < |Unseen(rows, batch)| && Unseen(rows, batch)[i] == batch[k] && Unseen(rows, batch)[j] == batch[l]
    decreases |batch|
  {
    var init := batch[..|batch| - 1];
    if l < |init| {
      assert init[k] == batch[k] && init[l] == batch[l];
      UnseenKeepsOrder(rows, init, k, l);
      var i, j :| 0 <= i < j < |Unseen(rows, init)| && Unseen(rows, init)[i] == batch[k] && Unseen(rows, init)[j] == batch[l];
      assert Unseen(rows, batch)[i] == batch[k] && Unseen(rows, batch)[j] == batch[l];
    } else {
      assert init[k] == batch[k];
      UnstoredAreUnseen(rows, init, k);
      var i :| 0 <= i < |Unseen(rows, init)| && Unseen(rows, init)[i] == batch[k];
      var u := Unseen(rows, batch);
      assert u == Unseen(rows, init) + [batch[l]];
      assert u[i] == batch[k] && u[|u| - 1] == batch[l];
    }
  }

  /** `b` keeps every stored row of `a` (same id and URL, in place) and every log of `a`. */
  predicate Extends(a: ScrapeState, b: ScrapeState) {
    && |a.properties| <= |b.properties|
    && (forall k :: 0 <= k < |a.properties| ==>
          b.properties[k].id == a.properties[k].id && b.properties[k].sourceUrl == a.properties[k].sourceUrl)
    && |a.logs| <= |b.logs| && b.logs[..|a.logs|] == a.logs
  }

  lemma ExtendsTransitive(a: ScrapeState, b: ScrapeState, c: ScrapeState)
    requires Extends(a, b) && Extends(b, c)
    ensures Extends(a, c)
  {
    assert c.logs[..|a.logs|] == c.logs[..|b.logs|][..|a.logs|];
  }

  lemma SiteRunExtends(st: ScrapeState, site: string, city: string, batch: seq<Property>, now: Time)
    ensures Extends(st, SiteRun(st, site, city, batch, now))
  {
    var r := SiteRun(st, site, city, batch, now);
    assert r.logs[..|st.logs|] == st.logs;
    if !r.aborted {
      var refreshed := Refreshed(st.properties, UrlsOf(batch), now);
      assert r.properties[..|st.properties|] == refreshed;
    }
  }

  lemma {:induction false} CityRunExtends(st: ScrapeState, cfg: Config, city: string, sites: seq<string>,
                                          scrape: (string, string, seq<Property>) -> seq<Property>, now: Time)
    ensures Extends(st, CityRun(st, cfg, city, sites, scrape, now))
    decreases |sites|
  {
    if sites == [] {
      assert st.logs[..|st.logs|] == st.logs;
    } else {
      var init := sites[..|sites| - 1];
      CityRunExtends(st, cfg, city, init, scrape, now);
      var s := CityRun(st, cfg, city, init, scrape, now);
      var site := sites[|sites| - 1];
      if !s.aborted && Enabled(cfg, site) {
        SiteRunExtends(s, site, city, scrape(site, city, s.properties), now);
        ExtendsTransitive(st, s, CityRun(st, cfg, city, sites, scrape, now));
      }
    }
  }

  /**
   * The pass never removes or rekeys a stored property and never rewrites a
   * log: it only touches rows and appends rows and logs.
   */
  lemma {:induction false} ScrapePassExtends(st: ScrapeState, cfg: Config, cities: seq<string>,
                                             scrape: (string, string, seq<Property>) -> seq<Property>, now: Time)
    ensures Extends(st, ScrapePass(st, cfg, cities, scrape, now))
    decreases |cities|
  {
    if cities == [] {
      assert st.logs[..|st.logs|] == st.logs;
    } else {
      var init := cities[..|cities| - 1];
      ScrapePassExtends(st, cfg, init, scrape, now);
      var s := ScrapePass(st, cfg, init, scrape, now);
      var city := Strip(cities[|cities| - 1]);
      if !s.aborted && city != "" {
        CityRunExtends(s, cfg, city, Sites, scrape, now);
        ExtendsTransitive(st, s, ScrapePass(st, cfg, cities, scrape, now));
      }
    }
  }

  /** Blank cities and disabled sites scrape nothing: with no enabled site the pass changes nothing. */
  lemma {:induction false} NothingEnabledNothingScraped(st: ScrapeState, cfg: Config, cities: seq<string>,
                                                        scrape: (string, string, seq<Property>) -> seq<Property>, now: Time)
    requires !Enabled(cfg, "seloger")
    ensures ScrapePass(st, cfg, cities, scrape, now) == st
    decreases |cities|
  {
    if cities != [] {
      NothingEnabledNothingScraped(st, cfg, cities[..|cities| - 1], scrape, now);
      assert Sites[..0] == [];
    }
  }

  /** A run keeps the constraints of the `properties` and `scraping_logs` tables. */
  lemma SiteRunKeepsValid(st: ScrapeState, site: string, city: string, batch: seq<Property>, now: Time)
    requires PropertiesValid(st.properties) && KeysValid(st.logs, LogId)
    ensures PropertiesValid(SiteRun(st, site, city, batch, now).properties)
    ensures KeysValid(SiteRun(st, site, city, batch, now).logs, LogId)
  {
    var log := RunningLog(NextId(st.logs, LogId), site, city, now);
    AppendKeepsKeys(st.logs, LogId, log);
    AppendKeepsKeys(st.logs, LogId, log.(completedAt := Some(now), status := "completed",
                                         propertiesFound := |batch|, propertiesNew := |Unseen(st.properties, batch)|));
    var pending := Unseen(st.properties, batch);
    if CommitAccepts(pending) {
      UpsertKeepsValid(st.properties, batch, now);
    }
  }

  /** Every added row has a URL no stored row has. */
  lemma {:induction false} UnseenAreUnstored(rows: seq<Property>, batch: seq<Property>)
    ensures forall k :: 0 <= k < |Unseen(rows, batch)| ==> !Stored(rows, Unseen(rows, batch)[k].sourceUrl)
    ensures forall k :: 0 <= k < |Unseen(rows, batch)| ==> Unseen(rows, batch)[k] in batch
    decreases |batch|
  {
    if batch != [] {
      var init := batch[..|batch| - 1];
      UnseenAreUnstored(rows, init);
      assert forall p :: p in init ==> p in batch;
    }
  }

  /** The upsert of a committed batch keeps the constraints of the `properties` table. */
  lemma UpsertKeepsValid(rows: seq<Property>, batch: seq<Property>, now: Time)
    requires PropertiesValid(rows)
    requires CommitAccepts(Unseen(rows, batch))
    ensures PropertiesValid(Refreshed(rows, UrlsOf(batch), now) +
                            Inserted(Unseen(rows, batch), NextId(rows, PropertyId), now))
  {
    var refreshed := Refreshed(rows, UrlsOf(batch), now);
    var pending := Unseen(rows, batch);
    var added := Inserted(pending, NextId(rows, PropertyId), now);
    UnseenAreUnstored(rows, batch);
    UpsertShapeHolds(rows, batch, now);
    UpsertKeys(rows, refreshed, pending, added);
    UpsertUrls(rows, refreshed, pending, added);
    UpsertPrices(rows, refreshed, pending, added);
  }

  /** What the upsert keeps of a stored row and gives an added one. */
  predicate UpsertShape(rows: seq<Property>, refreshed: seq<Property>, pending: seq<Property>, added: seq<Property>) {
    && |refreshed| == |rows| && |added| == |pending|
    && (forall k :: 0 <= k < |rows| ==>
          refreshed[k].id == rows[k].id && refreshed[k].sourceUrl == rows[k].sourceUrl && refreshed[k].price == rows[k].price)
    && (forall k :: 0 <= k < |pending| ==>
          added[k].id == NextId(rows, PropertyId) + k && added[k].sourceUrl == pending[k].sourceUrl && added[k].price == pending[k].price)
  }

  lemma UpsertShapeHolds(rows: seq<Property>, batch: seq<Property>, now: Time)
    ensures UpsertShape(rows, Refreshed(rows, UrlsOf(batch), now), Unseen(rows, batch),
                        Inserted(Unseen(rows, batch), NextId(rows, PropertyId), now))
  {
  }

  lemma UpsertKeys(rows: seq<Property>, refreshed: seq<Property>, pending: seq<Property>, added: seq<Property>)
    requires KeysValid(rows, PropertyId)
    requires UpsertShape(rows, refreshed, pending, added)
    ensures KeysValid(refreshed + added, PropertyId)
  {
    var all := refreshed + added;
    forall k, l | 0 <= k < l < |all| ensures all[k].id != all[l].id {
      if l < |rows| {
        assert all[k] == refreshed[k] && all[l] == refreshed[l];
      } else if k < |rows| {
        assert all[k] == refreshed[k] && all[l] == added[l - |rows|];
      } else {
        assert all[k] == added[k - |rows|] && all[l] == added[l - |rows|];
      }
    }
    forall k | 0 <= k < |all| ensures all[k].id > 0 {
      if k < |rows| {
        assert all[k] == refreshed[k];
      } else {
        assert all[k] == added[k - |rows|];
      }
    }
  }

  lemma UpsertUrls(rows: seq<Property>, refreshed: seq<Property>, pending: seq<Property>, added: seq<Property>)
    requires UniqueUrls(rows) && UniqueUrls(pending)
    requires forall k :: 0 <= k < |pending| ==> !Stored(rows, pending[k].sourceUrl)
    requires UpsertShape(rows, refreshed, pending, added)
    ensures UniqueUrls(refreshed + added)
  {
    var all := refreshed + added;
    forall k, l | 0 <= k < l < |all| ensures all[k].sourceUrl != all[l].sourceUrl {
      if l < |rows| {
        assert all[k] == refreshed[k] && all[l] == refreshed[l];
      } else if k < |rows| {
        assert all[k] == refreshed[k] && all[l] == added[l - |rows|];
        assert !Stored(rows, pending[l - |rows|].sourceUrl);
      } else {
        assert all[k] == added[k - |rows|] && all[l] == added[l - |rows|];
      }
    }
  }

  lemma UpsertPrices(rows: seq<Property>, refreshed: seq<Property>, pending: seq<Property>, added: seq<Property>)
    requires PricesPresent(rows) && PricesPresent(pending)
    requires UpsertShape(rows, refreshed, pending, added)
    ensures PricesPresent(refreshed + added)
  {
    var all := refreshed + added;
    forall k | 0 <= k < |all| ensures all[k].price.Some? {
      if k < |rows| {
        assert all[k] == refreshed[k];
      } else {
        assert all[k] == added[k - |rows|];
      }
    }
  }

  // ---------------------------------------------------------------------------
  // Contact initiation

  /** The query of `initiate_contacts`: status NEW and still available. */
  predicate Awaiting(p: Property) {
    p.status == Some(New) && p.stillAvailable == Some(true)
  }

  /** The property once its initial e-mail is sent: CONTACTED, with `last_updated` set by the update. */
  function MarkedContacted(p: Property, now: Time): (r: Property)
    ensures r.status == Some(PropertyStatus.Contacted) && r.lastUpdated == Some(now)
    ensures r.(status := p.status, lastUpdated := p.lastUpdated) == p
    ensures !Awaiting(r)
  {
    p.(status := Some(PropertyStatus.Contacted), lastUpdated := Some(now))
  }

  datatype InitState = InitState(properties: seq<Property>, contacts: seq<Contact>, contacted: nat)

  /** The contacts after the lookup: a PENDING contact is added under the next id when the property has none. */
  function WithContact(contacts: seq<Contact>, propertyId: nat, now: Time): (r: seq<Contact>)
    ensures FirstContactOf(r, propertyId).Some?
    ensures |contacts| <= |r| <= |contacts| + 1 && r[..|contacts|] == contacts
    ensures |r| == |contacts| + 1 <==> FirstContactOf(contacts, propertyId).None?
    ensures |r| == |contacts| + 1 ==> r[|contacts|] == NewContact(NextId(contacts, ContactId), propertyId, now)
  {
    if FirstContactOf(contacts, propertyId).Some? then
      assert contacts[..|contacts|] == contacts;
      contacts
    else
      var r := contacts + [NewContact(NextId(contacts, ContactId), propertyId, now)];
      assert r[|contacts|].propertyId == propertyId;
      assert r[..|contacts|] == contacts;
      r
  }

  /** One property of the loop: a contact is ensured, then the initial e-mail decides. */
  function InitiateStep(st: InitState, k: nat, m: Mailer, now: Time): (r: InitState)
    requires k < |st.properties|
    ensures |r.properties| == |st.properties|
  {
    var p := st.properties[k];
    if !Awaiting(p) then st
    else
      var contacts := WithContact(st.contacts, p.id, now);
      if InitialEmailSent(m, p, contacts) then InitState(st.properties[k := MarkedContacted(p, now)], contacts, st.contacted + 1)
      else InitState(st.properties, contacts, st.contacted)
  }

  /** The loop over the first `n` properties. */
  function Initiated(st: InitState, m: Mailer, now: Time, n: nat): (r: InitState)
    requires n <= |st.properties|
    ensures |r.properties| == |st.properties|
  {
    if n == 0 then st else InitiateStep(Initiated(st, m, now, n - 1), n - 1, m, now)
  }

  /** The whole pass. */
  function InitiatePass(properties: seq<Property>, contacts: seq<Contact>, m: Mailer, now: Time): InitState {
    Initiated(InitState(properties, contacts, 0), m, now, |properties|)
  }

  /** `initiate_contacts`: the number of properties contacted. */
  method InitiateContacts(db: Store, m: Mailer, now: Time) returns (contacted: nat)
    requires db.Valid()
    modifies db
    ensures db.Valid()
    ensures InitState(db.properties, db.contacts, contacted) == InitiatePass(old(db.properties), old(db.contacts), m, now)
    ensures db.communications == old(db.communications) && db.logs == old(db.logs)
  {
    ghost var st0 := InitState(db.properties, db.contacts, 0);
    contacted := 0;
    var n := |db.properties|;
    for k := 0 to n
      invariant db.Valid() && |db.properties| == n
      invariant InitState(db.properties, db.contacts, contacted) == Initiated(st0, m, now, k)
      invariant db.communications == old(db.communications) && db.logs == old(db.logs)
    {
      contacted := InitiateProperty(db, k, m, now, contacted);
    }
  }

  /** The body of the loop for the property at `k`, with `contacted` the count so far. */
  method InitiateProperty(db: Store, k: nat, m: Mailer, now: Time, contacted: nat) returns (count: nat)
    requires db.Valid() && k < |db.properties|
    modifies db
    ensures db.Valid()
    ensures InitState(db.properties, db.contacts, count) == InitiateStep(InitState(old(db.properties), old(db.contacts), contacted), k, m, now)
    ensures db.communications == old(db.communications) && db.logs == old(db.logs)
  {
    count := contacted;
    var p := db.properties[k];
    if Awaiting(p) {
      if FirstContactOf(db.contacts, p.id).None? {
        var id := db.AddContact(NewContact(0, p.id, now));
      }
      assert db.contacts == WithContact(old(db.contacts), p.id, now);
      if InitialEmailSent(m, p, db.contacts) {
        db.UpdateProperty(k, MarkedContacted(p, now));
        count := contacted + 1;
      }
    }
  }

  /** Properties after the first `n` are not yet touched. */
  lemma {:induction false} InitiatedLeavesRest(st: InitState, m: Mailer, now: Time, n: nat, j: nat)
    requires n <= j < |st.properties|
    ensures Initiated(st, m, now, n).properties[j] == st.properties[j]
  {
    if n > 0 {
      InitiatedLeavesRest(st, m, now, n - 1, j);
    }
  }

  /**
   * Only awaiting properties change, and a changed one is CONTACTED with
   * `last_updated` now.
   */
  lemma {:induction false} InitiatedChanges(st: InitState, m: Mailer, now: Time, n: nat, k: nat)
    requires n <= |st.properties| && k < |st.properties|
    ensures var r := Initiated(st, m, now, n);
      r.properties[k] == st.properties[k] ||
      (Awaiting(st.properties[k]) && r.properties[k] == MarkedContacted(st.properties[k], now))
  {
    if n > 0 {
      InitiatedChanges(st, m, now, n - 1, k);
      if k == n - 1 {
        InitiatedLeavesRest(st, m, now, n - 1, k);
      }
    }
  }

  /** One step appends at most one contact, a fresh PENDING one. */
  lemma StepAppendsContact(s: InitState, k: nat, m: Mailer, now: Time)
    requires k < |s.properties|
    ensures var c := InitiateStep(s, k, m, now).contacts;
      c == s.contacts || c == s.contacts + [NewContact(NextId(s.contacts, ContactId), s.properties[k].id, now)]
  {
    var c := InitiateStep(s, k, m, now).contacts;
    if c != s.contacts {
      var w := WithContact(s.contacts, s.properties[k].id, now);
      assert c == w;
      assert w == w[..|s.contacts|] + [w[|s.contacts|]];
    }
  }

  /** The contacts a run appends are fresh, PENDING, without e-mail or phone, with no attempt. */
  predicate FreshContacts(before: seq<Contact>, after: seq<Contact>) {
    && |before| <= |after| && after[..|before|] == before
    && forall j :: |before| <= j < |after| ==>
         after[j].status == Some(Pending) && after[j].email == "" && after[j].phone == "" && after[j].attempts == 0
  }

  /**
   * Contacts are only appended; every appended one is a fresh PENDING row
   * without e-mail or phone, and at most one per property processed.
   */
  lemma {:induction false} InitiatedAppendsContacts(st: InitState, m: Mailer, now: Time, n: nat)
    requires n <= |st.properties|
    ensures |Initiated(st, m, now, n).contacts| <= |st.contacts| + n
    ensures FreshContacts(st.contacts, Initiated(st, m, now, n).contacts)
  {
    if n > 0 {
      InitiatedAppendsContacts(st, m, now, n - 1);
      var s := Initiated(st, m, now, n - 1);
      var c := Initiated(st, m, now, n).contacts;
      StepAppendsContact(s, n - 1, m, now);
      if c != s.contacts {
        Extended(st.contacts, s.contacts, NewContact(NextId(s.contacts, ContactId), s.properties[n - 1].id, now));
      }
    }
  }

  lemma Extended(before: seq<Contact>, after: seq<Contact>, c: Contact)
    requires FreshContacts(before, after)
    requires c.status == Some(Pending) && c.email == "" && c.phone == "" && c.attempts == 0
    ensures FreshContacts(before, after + [c])
  {
    var all := after + [c];
    assert all[..|before|] == after[..|before|];
    forall j | |before| <= j < |all|
      ensures all[j].status == Some(Pending) && all[j].email == "" && all[j].phone == "" && all[j].attempts == 0
    {
      if j < |after| {
        assert all[j] == after[j];
      }
    }
  }

  /** A contact found for a property is still the one found after more rows are appended. */
  lemma FirstContactStable(contacts: seq<Contact>, more: seq<Contact>, propertyId: nat)
    requires FirstContactOf(contacts, propertyId).Some?
    ensures FirstContactOf(contacts + more, propertyId) == FirstContactOf(contacts, propertyId)
  {
    var k := FirstContactOf(contacts, propertyId).value;
    var all := contacts + more;
    assert all[k] == contacts[k];
    assert forall j :: 0 <= j < k ==> all[j] == contacts[j];
  }

  /** The step for an awaiting property leaves it with a contact row. */
  lemma StepGivesContact(s: InitState, k: nat, m: Mailer, now: Time)
    requires k < |s.properties| && Awaiting(s.properties[k])
    ensures FirstContactOf(InitiateStep(s, k, m, now).contacts, s.properties[k].id).Some?
  {
    assert InitiateStep(s, k, m, now).contacts == WithContact(s.contacts, s.properties[k].id, now);
  }

  /** A step never takes a property's contact row away. */
  lemma StepKeepsContact(s: InitState, k: nat, m: Mailer, now: Time, propertyId: nat)
    requires k < |s.properties| && FirstContactOf(s.contacts, propertyId).Some?
    ensures FirstContactOf(InitiateStep(s, k, m, now).contacts, propertyId).Some?
  {
    StepAppendsContact(s, k, m, now);
    if InitiateStep(s, k, m, now).contacts != s.contacts {
      FirstContactStable(s.contacts, [NewContact(NextId(s.contacts, ContactId), s.properties[k].id, now)], propertyId);
    }
  }

  /** After the pass every property that was awaiting has a contact row. */
  lemma {:induction false} AwaitingGetContacts(st: InitState, m: Mailer, now: Time, n: nat, k: nat)
    requires k < n <= |st.properties| && Awaiting(st.properties[k])
    ensures FirstContactOf(Initiated(st, m, now, n).contacts, st.properties[k].id).Some?
  {
    var s := Initiated(st, m, now, n - 1);
    assert Initiated(st, m, now, n) == InitiateStep(s, n - 1, m, now);
    if k == n - 1 {
      InitiatedLeavesRest(st, m, now, n - 1, k);
      StepGivesContact(s, k, m, now);
    } else {
      AwaitingGetContacts(st, m, now, n - 1, k);
      StepKeepsContact(s, n - 1, m, now, st.properties[k].id);
    }
  }

  /** No contact row carries an e-mail address. */
  predicate NoEmails(contacts: seq<Contact>) {
    forall j :: 0 <= j < |contacts| ==> contacts[j].email == ""
  }

  lemma StepWithoutEmails(s: InitState, k: nat, m: Mailer, now: Time)
    requires k < |s.properties| && NoEmails(s.contacts)
    ensures var r := InitiateStep(s, k, m, now);
      r.properties == s.properties && r.contacted == s.contacted && NoEmails(r.contacts)
  {
    var p := s.properties[k];
    if Awaiting(p) {
      var c := WithContact(s.contacts, p.id, now);
      assert NoEmails(c) by {
        if |c| == |s.contacts| + 1 {
          assert forall j :: 0 <= j < |s.contacts| ==> c[j] == s.contacts[j];
        } else {
          assert c == s.contacts;
        }
      }
    }
  }

  /**
   * While no contact has an e-mail address (the rows this pass creates have
   * none), no initial e-mail goes out and no property is marked CONTACTED.
   */
  lemma {:induction false} WithoutEmailsNothingContacted(st: InitState, m: Mailer, now: Time, n: nat)
    requires n <= |st.properties| && NoEmails(st.contacts)
    ensures var r := Initiated(st, m, now, n);
      r.properties == st.properties && r.contacted == st.contacted && NoEmails(r.contacts)
  {
    if n > 0 {
      WithoutEmailsNothingContacted(st, m, now, n - 1);
      StepWithoutEmails(Initiated(st, m, now, n - 1), n - 1, m, now);
    }
  }

  /** The number of the first `n` rows that differ between `a` and `b`. */
  function ChangedCount<T(==)>(a: seq<T>, b: seq<T>, n: nat): (c: nat)
    requires n <= |a| && n <= |b|
    ensures c <= n
  {
    if n == 0 then 0 else ChangedCount(a, b, n - 1) + (if a[n - 1] != b[n - 1] then 1 else 0)
  }

  lemma {:induction false} ChangedCountSame<T>(a: seq<T>, b: seq<T>, c: seq<T>, n: nat)
    requires n <= |a| && n <= |b| && n <= |c|
    requires forall j :: 0 <= j < n ==> b[j] == c[j]
    ensures ChangedCount(a, b, n) == ChangedCount(a, c, n)
  {
    if n > 0 {
      ChangedCountSame(a, b, c, n - 1);
    }
  }

  /** The count after one more step, from the count before it. */
  lemma CountOneMore<T>(a: seq<T>, b: seq<T>, c: seq<T>, n: nat, before: nat, after: nat, start: nat)
    requires 0 < n <= |a| && n <= |b| && n <= |c| && a[n - 1] == b[n - 1]
    requires forall j :: 0 <= j < n - 1 ==> b[j] == c[j]
    requires before == start + ChangedCount(a, b, n - 1)
    requires after == before + (if c[n - 1] != b[n - 1] then 1 else 0)
    ensures after == start + ChangedCount(a, c, n)
  {
    ChangedCountSame(a, b, c, n - 1);
  }

  /** A step changes at most the property it looks at, and counts it exactly when it changes it. */
  lemma StepCounts(s: InitState, k: nat, m: Mailer, now: Time)
    requires k < |s.properties|
    ensures var r := InitiateStep(s, k, m, now);
      && (forall j :: 0 <= j < |s.properties| && j != k ==> r.properties[j] == s.properties[j])
      && r.contacted == s.contacted + (if r.properties[k] != s.properties[k] then 1 else 0)
  {
    var p := s.properties[k];
    if Awaiting(p) {
      assert MarkedContacted(p, now).status != p.status;
    }
  }

  lemma CountStep(st: InitState, s: InitState, k: nat, m: Mailer, now: Time)
    requires k < |st.properties| == |s.properties| && s.properties[k] == st.properties[k]
    requires s.contacted == st.contacted + ChangedCount(st.properties, s.properties, k)
    ensures var r := InitiateStep(s, k, m, now);
      r.contacted == st.contacted + ChangedCount(st.properties, r.properties, k + 1)
  {
    var r := InitiateStep(s, k, m, now);
    StepCounts(s, k, m, now);
    CountOneMore(st.properties, s.properties, r.properties, k + 1, s.contacted, r.contacted, st.contacted);
  }

  /** The count `initiate_contacts` reports is the number of properties it changed. */
  lemma {:induction false} InitiatedCount(st: InitState, m: Mailer, now: Time, n: nat)
    requires n <= |st.properties|
    ensures var r := Initiated(st, m, now, n);
      r.contacted == st.contacted + ChangedCount(st.properties, r.properties, n)
  {
    if n > 0 {
      var s := Initiated(st, m, now, n - 1);
      var r := Initiated(st, m, now, n);
      assert r == InitiateStep(s, n - 1, m, now);
      InitiatedCount(st, m, now, n - 1);
      InitiatedLeavesRest(st, m, now, n - 1, n - 1);
      CountStep(st, s, n - 1, m, now);
    }
  }

  /** Every awaiting property has a contact row. */
  predicate Covered(properties: seq<Property>, contacts: seq<Contact>) {
    forall k :: 0 <= k < |properties| && Awaiting(properties[k]) ==> FirstContactOf(contacts, properties[k].id).Some?
  }

  /** After a pass, every property still awaiting has its contact row. */
  lemma PassCovers(properties: seq<Property>, contacts: seq<Contact>, m: Mailer, now: Time)
    ensures var r := InitiatePass(properties, contacts, m, now);
      Covered(r.properties, r.contacts)
  {
    var st := InitState(properties, contacts, 0);
    var r := InitiatePass(properties, contacts, m, now);
    forall k | 0 <= k < |r.properties| && Awaiting(r.properties[k])
      ensures FirstContactOf(r.contacts, r.properties[k].id).Some?
    {
      InitiatedChanges(st, m, now, |properties|, k);
      AwaitingGetContacts(st, m, now, |properties|, k);
    }
  }

  lemma {:induction false} CoveredAddsNone(st: InitState, m: Mailer, now: Time, n: nat)
    requires n <= |st.properties| && Covered(st.properties, st.contacts)
    ensures Initiated(st, m, now, n).contacts == st.contacts
  {
    if n > 0 {
      CoveredAddsNone(st, m, now, n - 1);
      InitiatedLeavesRest(st, m, now, n - 1, n - 1);
    }
  }

  /**
   * Contact rows are created once per property: a later pass, with any
   * mailer and at any time, adds no contact after a first one.
   */
  lemma SecondPassAddsNoContacts(properties: seq<Property>, contacts: seq<Contact>, m: Mailer, now: Time, m2: Mailer, later: Time)
    ensures var r := InitiatePass(properties, contacts, m, now);
      InitiatePass(r.properties, r.contacts, m2, later).contacts == r.contacts
  {
    var r := InitiatePass(properties, contacts, m, now);
    PassCovers(properties, contacts, m, now);
    CoveredAddsNone(InitState(r.properties, r.contacts, 0), m2, later, |r.properties|);
  }

  // ---------------------------------------------------------------------------
  // Follow-ups

  /**
   * The query of `send_follow_ups`: EMAIL_SENT or PHONE_CALLED, no response,
   * a last attempt before the delay (a NULL one never matches) and fewer
   * attempts than the maximum.
   */
  predicate Eligible(c: Contact, cfg: Config, now: Time) {
    && (c.status == Some(EmailSent) || c.status == Some(PhoneCalled))
    && !c.responded
    && c.lastAttempt.Some? && c.lastAttempt.value < now - cfg.followUpDelayHours * HOUR
    && c.attempts < cfg.maxContactAttempts
  }

  /** The contact after a successful follow-up: one more attempt, made now, and the next one scheduled after the delay. */
  function FollowedUp(c: Contact, now: Time, delayHours: int): (r: Contact)
    ensures r.attempts == c.attempts + 1 && r.lastAttempt == Some(now) && r.updatedAt == Some(now)
    ensures r.nextScheduled == Some(now + delayHours * HOUR)
    ensures r.(attempts := c.attempts, lastAttempt := c.lastAttempt, updatedAt := c.updatedAt, nextScheduled := c.nextScheduled) == c
  {
    ScheduleFollowUp(c.(attempts := c.attempts + 1, lastAttempt := Some(now), updatedAt := Some(now)), now, delayHours)
  }

  datatype FollowUpState = FollowUpState(contacts: seq<Contact>, communications: seq<Communication>, sent: nat)

  /** The follow-up for an eligible contact: e-mail at 0 attempts, a call at 1, the urgent e-mail otherwise. */
  function Reminder(cfg: Config, pc: PhoneCaller, m: Mailer, properties: seq<Property>, c: Contact,
                    communications: seq<Communication>, now: Time): (r: (bool, seq<Communication>))
    ensures c.attempts != 1 ==> r.1 == communications
    ensures c.attempts == 1 ==>
      && (r.0 <==> CallRecord(pc, properties, c, false, now).Some?)
      && r.1 == if r.0 then communications + [CallRecord(pc, properties, c, false, now).value.(id := NextId(communications, CommunicationId))]
                else communications
    ensures c.attempts == 0 ==> r.0 == ReminderSent(m, FollowUpMail, c, properties)
    ensures c.attempts != 0 && c.attempts != 1 ==> r.0 == ReminderSent(m, UrgentMail, c, properties)
  {
    if c.attempts == 0 then (ReminderSent(m, FollowUpMail, c, properties), communications)
    else if c.attempts == 1 then
      match CallRecord(pc, properties, c, false, now)
      case None => (false, communications)
      case Some(row) => (true, communications + [row.(id := NextId(communications, CommunicationId))])
    else (ReminderSent(m, UrgentMail, c, properties), communications)
  }

  /** One contact of the loop. */
  function FollowUpStep(st: FollowUpState, k: nat, cfg: Config, pc: PhoneCaller, m: Mailer, properties: seq<Property>,
                        now: Time): (r: FollowUpState)
    requires k < |st.contacts|
    ensures |r.contacts| == |st.contacts|
  {
    var c := st.contacts[k];
    if !Eligible(c, cfg, now) then st
    else
      var (ok, comms) := Reminder(cfg, pc, m, properties, c, st.communications, now);
      if ok then FollowUpState(st.contacts[k := FollowedUp(c, now, cfg.followUpDelayHours)], comms, st.sent + 1)
      else FollowUpState(st.contacts, comms, st.sent)
  }

  /** The loop over the first `n` contacts. */
  function FollowUps(st: FollowUpState, cfg: Config, pc: PhoneCaller, m: Mailer, properties: seq<Property>, now: Time,
                     n: nat): (r: FollowUpState)
    requires n <= |st.contacts|
    ensures |r.contacts| == |st.contacts|
  {
    if n == 0 then st else FollowUpStep(FollowUps(st, cfg, pc, m, properties, now, n - 1), n - 1, cfg, pc, m, properties, now)
  }

  /** The whole pass. */
  function FollowUpPass(cfg: Config, pc: PhoneCaller, m: Mailer, properties: seq<Property>, contacts: seq<Contact>,
                        communications: seq<Communication>, now: Time): FollowUpState {
    FollowUps(FollowUpState(contacts, communications, 0), cfg, pc, m, properties, now, |contacts|)
  }

  /** `send_follow_ups`: the number of follow-ups sent. */
  method SendFollowUps(cfg: Config, pc: PhoneCaller, m: Mailer, db: Store, now: Time) returns (sent: nat)
    requires db.Valid()
    modifies db
    ensures db.Valid()
    ensures FollowUpState(db.contacts, db.communications, sent) ==
      FollowUpPass(cfg, pc, m, old(db.properties), old(db.contacts), old(db.communications), now)
    ensures db.properties == old(db.properties) && db.logs == old(db.logs)
  {
    ghost var st0 := FollowUpState(db.contacts, db.communications, 0);
    sent := 0;
    var n := |db.contacts|;
    for k := 0 to n
      invariant db.Valid() && |db.contacts| == n
      invariant FollowUpState(db.contacts, db.communications, sent) == FollowUps(st0, cfg, pc, m, db.properties, now, k)
      invariant db.properties == old(db.properties) && db.logs == old(db.logs)
    {
      sent := FollowUpContact(cfg, pc, m, db, k, now, sent);
    }
  }

  /** The body of the loop for the contact at `k`, with `sent` the count so far. */
  method FollowUpContact(cfg: Config, pc: PhoneCaller, m: Mailer, db: Store, k: nat, now: Time, sent: nat) returns (count: nat)
    requires db.Valid() && k < |db.contacts|
    modifies db
    ensures db.Valid()
    ensures FollowUpState(db.contacts, db.communications, count) ==
      FollowUpStep(FollowUpState(old(db.contacts), old(db.communications), sent), k, cfg, pc, m, old(db.properties), now)
    ensures db.properties == old(db.properties) && db.logs == old(db.logs)
  {
    count := sent;
    var c := db.contacts[k];
    if !Eligible(c, cfg, now) {
      return;
    }
    var ok;
    if c.attempts == 0 {
      ok := ReminderSent(m, FollowUpMail, c, db.properties);
    } else if c.attempts == 1 {
      ok := MakeCall(pc, db, c, false, now);
    } else {
      ok := ReminderSent(m, UrgentMail, c, db.properties);
    }
    if ok {
      db.UpdateContact(k, FollowedUp(c, now, cfg.followUpDelayHours));
      count := sent + 1;
    }
  }

  /** Contacts after the first `n` are not yet touched. */
  lemma {:induction false} FollowUpsLeaveRest(st: FollowUpState, cfg: Config, pc: PhoneCaller, m: Mailer, properties: seq<Property>,
                                              now: Time, n: nat, j: nat)
    requires n <= j < |st.contacts|
    ensures FollowUps(st, cfg, pc, m, properties, now, n).contacts[j] == st.contacts[j]
  {
    if n > 0 {
      FollowUpsLeaveRest(st, cfg, pc, m, properties, now, n - 1, j);
    }
  }

  /**
   * One step changes at most the contact it looks at, only when it is
   * eligible, into its followed-up form; it counts exactly the contacts it
   * changes, and logs a row exactly for a successful call.
   */
  lemma FollowUpStepMeaning(st: FollowUpState, k: nat, cfg: Config, pc: PhoneCaller, m: Mailer, properties: seq<Property>, now: Time)
    requires k < |st.contacts|
    ensures var r := FollowUpStep(st, k, cfg, pc, m, properties, now);
      var c := st.contacts[k];
      && (forall j :: 0 <= j < |st.contacts| && j != k ==> r.contacts[j] == st.contacts[j])
      && (r.contacts[k] == c || (Eligible(c, cfg, now) && r.contacts[k] == FollowedUp(c, now, cfg.followUpDelayHours)))
      && r.sent == st.sent + (if r.contacts[k] != c then 1 else 0)
      && (r.communications == st.communications ||
          (&& c.attempts == 1 && r.contacts[k] != c && CallRecord(pc, properties, c, false, now).Some?
           && r.communications == st.communications +
                [CallRecord(pc, properties, c, false, now).value.(id := NextId(st.communications, CommunicationId))]))
  {
    var c := st.contacts[k];
    assert FollowedUp(c, now, cfg.followUpDelayHours).attempts != c.attempts;
  }

  /** Only eligible contacts change, and a changed one is in its followed-up form. */
  lemma {:induction false} FollowUpsChanges(st: FollowUpState, cfg: Config, pc: PhoneCaller, m: Mailer, properties: seq<Property>,
                                            now: Time, n: nat, k: nat)
    requires n <= |st.contacts| && k < |st.contacts|
    ensures var r := FollowUps(st, cfg, pc, m, properties, now, n);
      r.contacts[k] == st.contacts[k] ||
      (Eligible(st.contacts[k], cfg, now) && r.contacts[k] == FollowedUp(st.contacts[k], now, cfg.followUpDelayHours))
  {
    if n > 0 {
      var s := FollowUps(st, cfg, pc, m, properties, now, n - 1);
      assert FollowUps(st, cfg, pc, m, properties, now, n) == FollowUpStep(s, n - 1, cfg, pc, m, properties, now);
      FollowUpStepMeaning(s, n - 1, cfg, pc, m, properties, now);
      if k == n - 1 {
        FollowUpsLeaveRest(st, cfg, pc, m, properties, now, n - 1, k);
      } else {
        FollowUpsChanges(st, cfg, pc, m, properties, now, n - 1, k);
      }
    }
  }

  lemma FollowUpCountStep(st: FollowUpState, s: FollowUpState, k: nat, cfg: Config, pc: PhoneCaller, m: Mailer,
                          properties: seq<Property>, now: Time)
    requires k < |st.contacts| == |s.contacts| && s.contacts[k] == st.contacts[k]
    requires s.sent == st.sent + ChangedCount(st.contacts, s.contacts, k)
    ensures var r := FollowUpStep(s, k, cfg, pc, m, properties, now);
      r.sent == st.sent + ChangedCount(st.contacts, r.contacts, k + 1)
  {
    var r := FollowUpStep(s, k, cfg, pc, m, properties, now);
    FollowUpStepMeaning(s, k, cfg, pc, m, properties, now);
    CountOneMore(st.contacts, s.contacts, r.contacts, k + 1, s.sent, r.sent, st.sent);
  }

  /** The count `send_follow_ups` reports is the number of contacts it changed. */
  lemma {:induction false} FollowUpsCount(st: FollowUpState, cfg: Config, pc: PhoneCaller, m: Mailer, properties: seq<Property>,
                                          now: Time, n: nat)
    requires n <= |st.contacts|
    ensures var r := FollowUps(st, cfg, pc, m, properties, now, n);
      r.sent == st.sent + ChangedCount(st.contacts, r.contacts, n)
  {
    if n > 0 {
      var s := FollowUps(st, cfg, pc, m, properties, now, n - 1);
      assert FollowUps(st, cfg, pc, m, properties, now, n) == FollowUpStep(s, n - 1, cfg, pc, m, properties, now);
      FollowUpsCount(st, cfg, pc, m, properties, now, n - 1);
      FollowUpsLeaveRest(st, cfg, pc, m, properties, now, n - 1, n - 1);
      FollowUpCountStep(st, s, n - 1, cfg, pc, m, properties, now);
    }
  }

  /** The rows a pass appends to `communications` are PHONE rows of initiated calls. */
  predicate CallsAppended(before: seq<Communication>, after: seq<Communication>) {
    && |before| <= |after| && after[..|before|] == before
    && forall j :: |before| <= j < |after| ==> after[j].channel == Phone && after[j].status == "initiated"
  }

  lemma CallAppended(before: seq<Communication>, after: seq<Communication>, row: Communication)
    requires CallsAppended(before, after) && row.channel == Phone && row.status == "initiated"
    ensures CallsAppended(before, after + [row])
  {
    var all := after + [row];
    assert all[..|before|] == after[..|before|];
    forall j | |before| <= j < |all| ensures all[j].channel == Phone && all[j].status == "initiated" {
      if j < |after| {
        assert all[j] == after[j];
      }
    }
  }

  /** The follow-up pass keeps every logged row and only logs the calls it places. */
  lemma {:induction false} FollowUpsLogCalls(st: FollowUpState, cfg: Config, pc: PhoneCaller, m: Mailer, properties: seq<Property>,
                                             now: Time, n: nat)
    requires n <= |st.contacts|
    ensures CallsAppended(st.communications, FollowUps(st, cfg, pc, m, properties, now, n).communications)
  {
    if n == 0 {
      assert st.communications[..|st.communications|] == st.communications;
    } else {
      var s := FollowUps(st, cfg, pc, m, properties, now, n - 1);
      var r := FollowUpStep(s, n - 1, cfg, pc, m, properties, now);
      assert FollowUps(st, cfg, pc, m, properties, now, n) == r;
      FollowUpsLogCalls(st, cfg, pc, m, properties, now, n - 1);
      FollowUpStepMeaning(s, n - 1, cfg, pc, m, properties, now);
      if r.communications != s.communications {
        var c := s.contacts[n - 1];
        CallRecordMeaning(pc, properties, c, false, now);
        CallAppended(st.communications, s.communications,
                     CallRecord(pc, properties, c, false, now).value.(id := NextId(s.communications, CommunicationId)));
      }
    }
  }

  /** No follow-up takes a contact past `MAX_CONTACT_ATTEMPTS` attempts. */
  lemma AttemptsStayBounded(cfg: Config, pc: PhoneCaller, m: Mailer, properties: seq<Property>, contacts: seq<Contact>,
                            communications: seq<Communication>, now: Time)
    requires forall k :: 0 <= k < |contacts| ==> contacts[k].attempts <= cfg.maxContactAttempts
    ensures var r := FollowUpPass(cfg, pc, m, properties, contacts, communications, now);
      forall k :: 0 <= k < |r.contacts| ==> r.contacts[k].attempts <= cfg.maxContactAttempts
  {
    var st := FollowUpState(contacts, communications, 0);
    forall k | 0 <= k < |contacts|
      ensures FollowUpPass(cfg, pc, m, properties, contacts, communications, now).contacts[k].attempts <= cfg.maxContactAttempts
    {
      FollowUpsChanges(st, cfg, pc, m, properties, now, |contacts|, k);
    }
  }

  /** A contact just followed up is not due again at the same moment (with a non-negative delay). */
  lemma FollowedUpNotDue(c: Contact, cfg: Config, now: Time)
    requires cfg.followUpDelayHours >= 0
    ensures !Eligible(FollowedUp(c, now, cfg.followUpDelayHours), cfg, now)
  {
  }

  /**
   * A second pass at the same moment, with any mailer and phone caller,
   * leaves alone every contact the first one followed up.
   */
  lemma SecondPassSkipsFollowedUp(cfg: Config, pc: PhoneCaller, m: Mailer, pc2: PhoneCaller, m2: Mailer, properties: seq<Property>,
                                  contacts: seq<Contact>, communications: seq<Communication>, now: Time, k: nat)
    requires cfg.followUpDelayHours >= 0 && k < |contacts|
    requires FollowUpPass(cfg, pc, m, properties, contacts, communications, now).contacts[k] != contacts[k]
    ensures var r := FollowUpPass(cfg, pc, m, properties, contacts, communications, now);
      FollowUpPass(cfg, pc2, m2, properties, r.contacts, r.communications, now).contacts[k] == r.contacts[k]
  {
    var r := FollowUpPass(cfg, pc, m, properties, contacts, communications, now);
    FollowUpsChanges(FollowUpState(contacts, communications, 0), cfg, pc, m, properties, now, |contacts|, k);
    FollowedUpNotDue(contacts[k], cfg, now);
    FollowUpsChanges(FollowUpState(r.contacts, r.communications, 0), cfg, pc2, m2, properties, now, |r.contacts|, k);
  }

  /**
   * A contact as `initiate_contacts` creates it (PENDING, no attempt) is
   * never due for a follow-up: the pass only reaches contacts whose status
   * something else has moved to EMAIL_SENT or PHONE_CALLED.
   */
  lemma NewContactNeverDue(id: nat, propertyId: nat, created: Time, cfg: Config, now: Time)
    ensures !Eligible(NewContact(id, propertyId, created), cfg, now)
  {
  }

  // ---------------------------------------------------------------------------
  // Daily cleanup

  /** The first query of `daily_cleanup`: not updated for seven days and still available. */
  predicate Stale(p: Property, now: Time) {
    p.lastUpdated.Some? && p.lastUpdated.value < now - 7 * DAY && p.stillAvailable == Some(true)
  }

  /** A stale property after the bulk update: unavailable, with `last_updated` set by the update. */
  function Retired(p: Property, now: Time): (r: Property)
    ensures r.stillAvailable == Some(false) && r.lastUpdated == Some(now)
    ensures r.(stillAvailable := p.stillAvailable, lastUpdated := p.lastUpdated) == p
    ensures !Stale(r, now) && !Awaiting(r)
  {
    p.(stillAvailable := Some(false), lastUpdated := Some(now))
  }

  /** One row after the update. */
  function Mark(p: Property, now: Time): Property {
    if Stale(p, now) then Retired(p, now) else p
  }

  /** The properties after the update: exactly the stale ones retired. */
  function MarkedStale(rows: seq<Property>, now: Time): (r: seq<Property>)
    ensures |r| == |rows|
    ensures forall k :: 0 <= k < |rows| ==> (r[k] != rows[k] <==> Stale(rows[k], now))
    ensures forall k :: 0 <= k < |rows| && Stale(rows[k], now) ==> r[k] == Retired(rows[k], now)
  {
    var r := seq(|rows|, k requires 0 <= k < |rows| => Mark(rows[k], now));
    assert forall k :: 0 <= k < |rows| && Stale(rows[k], now) ==> r[k].stillAvailable != rows[k].stillAvailable;
    r
  }

  /** The number of stale properties among the first `n`: `old_properties.count()`. */
  function StaleCount(rows: seq<Property>, now: Time, n: nat): (c: nat)
    requires n <= |rows|
    ensures c <= n
  {
    if n == 0 then 0 else StaleCount(rows, now, n - 1) + (if Stale(rows[n - 1], now) then 1 else 0)
  }

  /** The second query: logs started more than thirty days ago. */
  predicate Expired(l: ScrapingLog, now: Time) {
    l.startedAt.Some? && l.startedAt.value < now - 30 * DAY
  }

  /** The logs the delete keeps, in order. */
  function RecentLogs(logs: seq<ScrapingLog>, now: Time): (r: seq<ScrapingLog>)
    ensures |r| <= |logs|
    decreases |logs|
  {
    if logs == [] then []
    else
      var kept := RecentLogs(logs[..|logs| - 1], now);
      if Expired(logs[|logs| - 1], now) then kept else kept + [logs[|logs| - 1]]
  }

  /** The number of expired logs among the first `n`: `old_logs.count()`. */
  function ExpiredCount(logs: seq<ScrapingLog>, now: Time, n: nat): (c: nat)
    requires n <= |logs|
    ensures c <= n
  {
    if n == 0 then 0 else ExpiredCount(logs, now, n - 1) + (if Expired(logs[n - 1], now) then 1 else 0)
  }

  /** `daily_cleanup`: the number of properties marked unavailable and of logs removed. */
  method DailyCleanup(db: Store, now: Time) returns (oldCount: nat, logsCount: nat)
    requires db.Valid()
    modifies db
    ensures db.Valid()
    ensures db.properties == MarkedStale(old(db.properties), now) && oldCount == StaleCount(old(db.properties), now, |old(db.properties)|)
    ensures db.logs == RecentLogs(old(db.logs), now) && logsCount == ExpiredCount(old(db.logs), now, |old(db.logs)|)
    ensures db.contacts == old(db.contacts) && db.communications == old(db.communications)
  {
    oldCount := RetireStale(db, now);
    var kept;
    kept, logsCount := ExpiredLogs(db.logs, now);
    RecentLogsKeepKeys(db.logs, now);
    db.logs := kept;
  }

  /** The delete of `daily_cleanup`: the logs kept, and how many were removed. */
  method ExpiredLogs(logs: seq<ScrapingLog>, now: Time) returns (kept: seq<ScrapingLog>, removed: nat)
    ensures kept == RecentLogs(logs, now) && removed == ExpiredCount(logs, now, |logs|)
    ensures |kept| + removed == |logs|
  {
    kept := [];
    removed := 0;
    for k := 0 to |logs|
      invariant kept == RecentLogs(logs[..k], now) && removed == ExpiredCount(logs, now, k)
    {
      assert logs[..k + 1][..k] == logs[..k];
      if Expired(logs[k], now) {
        removed := removed + 1;
      } else {
        kept := kept + [logs[k]];
      }
    }
    assert logs[..|logs|] == logs;
    LogsKeptOrRemoved(logs, now);
  }

  /** The bulk update of `daily_cleanup`, row by row. */
  method RetireStale(db: Store, now: Time) returns (count: nat)
    requires db.Valid()
    modifies db
    ensures db.Valid()
    ensures db.properties == MarkedStale(old(db.properties), now) && count == StaleCount(old(db.properties), now, |old(db.properties)|)
    ensures db.contacts == old(db.contacts) && db.communications == old(db.communications) && db.logs == old(db.logs)
  {
    ghost var rows := db.properties;
    var n := |db.properties|;
    count := 0;
    for k := 0 to n
      invariant db.Valid() && |db.properties| == n
      invariant forall j :: 0 <= j < k ==> db.properties[j] == Mark(rows[j], now)
      invariant forall j :: k <= j < n ==> db.properties[j] == rows[j]
      invariant count == StaleCount(rows, now, k)
      invariant db.contacts == old(db.contacts) && db.communications == old(db.communications) && db.logs == old(db.logs)
    {
      var p := db.properties[k];
      if Stale(p, now) {
        db.UpdateProperty(k, Retired(p, now));
        count := count + 1;
      }
    }
    assert db.properties == MarkedStale(rows, now);
  }

  /** A kept log is a log of the table that has not expired, and every such log is kept. */
  lemma {:induction false} RecentLogsMembers(logs: seq<ScrapingLog>, now: Time, l: ScrapingLog)
    ensures l in RecentLogs(logs, now) <==> l in logs && !Expired(l, now)
    decreases |logs|
  {
    if logs != [] {
      var init := logs[..|logs| - 1];
      RecentLogsMembers(init, now, l);
      assert logs == init + [logs[|logs| - 1]];
    }
  }

  /** The delete keeps the log table's primary keys valid. */
  lemma {:induction false} RecentLogsKeepKeys(logs: seq<ScrapingLog>, now: Time)
    requires KeysValid(logs, LogId)
    ensures KeysValid(RecentLogs(logs, now), LogId)
    decreases |logs|
  {
    if logs != [] {
      var init := logs[..|logs| - 1];
      var last := logs[|logs| - 1];
      assert KeysValid(init, LogId) by {
        assert forall k :: 0 <= k < |init| ==> init[k] == logs[k];
      }
      RecentLogsKeepKeys(init, now);
      var kept := RecentLogs(init, now);
      if !Expired(last, now) {
        forall k | 0 <= k < |kept| ensures kept[k].id != last.id {
          RecentLogsMembers(init, now, kept[k]);
          var j :| 0 <= j < |init| && init[j] == kept[k];
          assert logs[j] == init[j];
        }
        var all := kept + [last];
        forall k, l | 0 <= k < l < |all| ensures all[k].id != all[l].id {
          if l == |kept| {
            assert all[k] == kept[k];
          } else {
            assert all[k] == kept[k] && all[l] == kept[l];
          }
        }
      }
    }
  }

  /** Every log is either kept or counted as removed. */
  lemma {:induction false} LogsKeptOrRemoved(logs: seq<ScrapingLog>, now: Time)
    ensures |RecentLogs(logs, now)| + ExpiredCount(logs, now, |logs|) == |logs|
    decreases |logs|
  {
    if logs != [] {
      var init := logs[..|logs| - 1];
      LogsKeptOrRemoved(init, now);
      ExpiredCountPrefix(logs, now, |init|, |init|);
    }
  }

  lemma {:induction false} ExpiredCountPrefix(logs: seq<ScrapingLog>, now: Time, m: nat, n: nat)
    requires n <= m <= |logs|
    ensures ExpiredCount(logs[..m], now, n) == ExpiredCount(logs, now, n)
  {
    if n > 0 {
      ExpiredCountPrefix(logs, now, m, n - 1);
      assert logs[..m][n - 1] == logs[n - 1];
    }
  }

  /** `old_count` is the number of rows the update changes. */
  lemma {:induction false} StaleCountIsChanged(rows: seq<Property>, now: Time, n: nat)
    requires n <= |rows|
    ensures StaleCount(rows, now, n) == ChangedCount(rows, MarkedStale(rows, now), n)
  {
    if n > 0 {
      StaleCountIsChanged(rows, now, n - 1);
    }
  }

  /** Cleaning up twice at the same moment is cleaning up once. */
  lemma CleanupIdempotent(rows: seq<Property>, logs: seq<ScrapingLog>, now: Time)
    ensures MarkedStale(MarkedStale(rows, now), now) == MarkedStale(rows, now)
    ensures RecentLogs(RecentLogs(logs, now), now) == RecentLogs(logs, now)
  {
    var once := MarkedStale(rows, now);
    assert forall k :: 0 <= k < |rows| ==> !Stale(once[k], now);
    RecentLogsIdempotent(logs, now);
  }

  lemma {:induction false} RecentLogsIdempotent(logs: seq<ScrapingLog>, now: Time)
    ensures RecentLogs(RecentLogs(logs, now), now) == RecentLogs(logs, now)
    decreases |logs|
  {
    if logs != [] {
      var init := logs[..|logs| - 1];
      RecentLogsIdempotent(init, now);
      var kept := RecentLogs(init, now);
      var last := logs[|logs| - 1];
      if !Expired(last, now) {
        var all := kept + [last];
        assert all[..|all| - 1] == kept;
      }
    }
  }

}
