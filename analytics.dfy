/**
 * The company analytics rollup: applications grouped by job and by status, conversion
 * rates, mean response time, and the daily trend of the last 30 days.
 */
module Analytics {
  import opened Wrappers
  import opened Schema
  import Lists

  const MsPerHour: int := 3600000
  const MsPerDay: int := 86400000
  /** The trend covers this many consecutive days, ending today. */
  const TrendDays: nat := 30

  /** The job columns the rollup selects. */
  datatype JobRow = JobRow(id: string, title: string, createdAt: int)

  /** An application; the timestamps are milliseconds since the epoch. */
  datatype ApplicationRow = ApplicationRow(
    id: string, jobId: string, userId: string, status: ApplicationStatus,
    createdAt: int, updatedAt: int)

  datatype StatusCounts = StatusCounts(pending: nat, reviewed: nat, interview: nat, rejected: nat, hired: nat)

  datatype JobAnalytics = JobAnalytics(
    jobId: string, jobTitle: string, totalApplications: nat, counts: StatusCounts,
    conversionRate: real, avgResponseTime: real)

  /** One trend entry: a day number (days since the epoch) and its application count. */
  datatype TrendPoint = TrendPoint(day: int, count: nat)

  datatype Overview = Overview(
    totalJobs: nat, totalApplications: nat, overallConversionRate: real, avgResponseTime: real,
    applicationsByStatus: StatusCounts, applicationsTrend: seq<TrendPoint>)

  datatype AnalyticsData = AnalyticsData(jobs: seq<JobAnalytics>, overview: Overview)

  /** What a query returned: rows, no data (`null`), or an error. */
  datatype Fetch<T> = Rows(rows: T) | NoData | Failed(message: string)

  /** The calendar day (UTC) of a timestamp: the date part of its ISO form. */
  function DayOf(ms: int): int {
    ms / MsPerDay
  }

  function Total(c: StatusCounts): nat {
    c.pending + c.reviewed + c.interview + c.rejected + c.hired
  }

  /** `apps.filter(a => a.status === st).length`. */
  function CountStatus(apps: seq<ApplicationRow>, st: ApplicationStatus): nat {
    if apps == [] then 0 else (if apps[0].status == st then 1 else 0) + CountStatus(apps[1..], st)
  }

  /** Because a status takes exactly five values, the five counts add up to the whole list. */
  lemma {:induction false} StatusPartition(apps: seq<ApplicationRow>)
    ensures CountStatus(apps, Pending) + CountStatus(apps, Reviewed) + CountStatus(apps, Interview)
            + CountStatus(apps, Rejected) + CountStatus(apps, Hired) == |apps|
  {
    if apps != [] {
      StatusPartition(apps[1..]);
    }
  }

  /**
   * The five status counts of a list of applications: each is the number of applications
   * with that status, and together they partition the list.
   */
  function StatusCountsOf(apps: seq<ApplicationRow>): (c: StatusCounts)
    ensures c.pending == CountStatus(apps, Pending) && c.reviewed == CountStatus(apps, Reviewed)
    ensures c.interview == CountStatus(apps, Interview) && c.rejected == CountStatus(apps, Rejected)
    ensures c.hired == CountStatus(apps, Hired)
    ensures Total(c) == |apps|
    ensures c.hired <= |apps|
  {
    StatusPartition(apps);
    StatusCounts(CountStatus(apps, Pending), CountStatus(apps, Reviewed), CountStatus(apps, Interview),
                 CountStatus(apps, Rejected), CountStatus(apps, Hired))
  }

  /** `total > 0 ? (hired / total) * 100 : 0`, a percentage. */
  function ConversionRate(hired: nat, total: nat): (r: real)
    ensures total == 0 ==> r == 0.0
    ensures total > 0 ==> r * (total as real) == (hired as real) * 100.0
    ensures 0.0 <= r
    ensures hired <= total ==> r <= 100.0
  {
    if total > 0 then (hired as real / total as real) * 100.0 else 0.0
  }

  /** The applications of one job: `apps.filter(a => a.job_id === jobId)`. */
  function ForJob(apps: seq<ApplicationRow>, jobId: string): (r: seq<ApplicationRow>)
    ensures forall a :: a in r <==> a in apps && a.jobId == jobId
  {
    Lists.Filter(apps, (a: ApplicationRow) => a.jobId == jobId)
  }

  predicate IsResponded(a: ApplicationRow) {
    a.status != Pending
  }

  /** The applications that left `pending`. */
  function Responded(apps: seq<ApplicationRow>): (r: seq<ApplicationRow>)
    ensures forall a :: a in r <==> a in apps && a.status != Pending
    ensures |r| == |apps| - CountStatus(apps, Pending)
  {
    RespondedCount(apps);
    Lists.Filter(apps, IsResponded)
  }

  lemma {:induction false} RespondedCount(apps: seq<ApplicationRow>)
    ensures |Lists.Filter(apps, IsResponded)| == |apps| - CountStatus(apps, Pending)
  {
    if apps != [] {
      RespondedCount(apps[1..]);
    }
  }

  /** Hours from creation to the last update. */
  function ResponseHours(a: ApplicationRow): real {
    (a.updatedAt - a.createdAt) as real / 3600000.0
  }

  /** The response hours added up left to right, as the `reduce` does. */
  function TotalHours(apps: seq<ApplicationRow>): real {
    if apps == [] then 0.0 else TotalHours(apps[..|apps| - 1]) + ResponseHours(apps[|apps| - 1])
  }

  /** The mean response time in hours of the non-pending applications, 0 when there are none. */
  function MeanResponseHours(apps: seq<ApplicationRow>): real {
    var responded := Responded(apps);
    if |responded| > 0 then TotalHours(responded) / |responded| as real else 0.0
  }

  /**
   * The response time of the rollup: `let avg = 0; if (responded.length > 0) avg = sum / length`,
   * with the sum taken by a loop.
   */
  method AverageResponseTime(apps: seq<ApplicationRow>) returns (avg: real)
    ensures avg == MeanResponseHours(apps)
  {
    var responded := Responded(apps);
    avg := 0.0;
    if |responded| > 0 {
      var totalHours := 0.0;
      var i := 0;
      while i < |responded|
        invariant 0 <= i <= |responded|
        invariant totalHours == TotalHours(responded[..i])
      {
        assert responded[..i + 1][..i] == responded[..i];
        totalHours := totalHours + ResponseHours(responded[i]);
        i := i + 1;
      }
      assert responded[..i] == responded;
      avg := totalHours / |responded| as real;
    }
  }

  /** `x` added `k` times. */
  function Times(k: nat, x: real): real {
    if k == 0 then 0.0 else Times(k - 1, x) + x
  }

  lemma {:induction false} TimesIsProduct(k: nat, x: real)
    ensures Times(k, x) == k as real * x
  {
    if k > 0 {
      TimesIsProduct(k - 1, x);
    }
  }

  lemma {:induction false} TotalHoursBounds(apps: seq<ApplicationRow>, lo: real, hi: real)
    requires forall a :: a in apps ==> lo <= ResponseHours(a) <= hi
    ensures Times(|apps|, lo) <= TotalHours(apps) <= Times(|apps|, hi)
  {
    if apps != [] {
      var init := apps[..|apps| - 1];
      assert forall a :: a in init ==> a in apps;
      assert apps[|apps| - 1] in apps;
      TotalHoursBounds(init, lo, hi);
    }
  }

  lemma DivBounds(t: real, k: nat, lo: real, hi: real)
    requires k >= 1 && Times(k, lo) <= t <= Times(k, hi)
    ensures lo <= t / k as real <= hi
  {
    TimesIsProduct(k, lo);
    TimesIsProduct(k, hi);
    assert t / k as real * k as real == t;
  }

  /**
   * The mean lies between the smallest and the largest response time of the non-pending
   * applications; in particular it is never negative when no application was updated
   * before it was created.
   */
  lemma MeanResponseBounds(apps: seq<ApplicationRow>, lo: real, hi: real)
    requires forall a :: a in apps && a.status != Pending ==> lo <= ResponseHours(a) <= hi
    requires CountStatus(apps, Pending) < |apps|
    ensures lo <= MeanResponseHours(apps) <= hi
  {
    var responded := Responded(apps);
    assert forall a :: a in responded ==> lo <= ResponseHours(a) <= hi;
    TotalHoursBounds(responded, lo, hi);
    DivBounds(TotalHours(responded), |responded|, lo, hi);
  }

  /** Applications created on day `day`. */
  function CountOnDay(apps: seq<ApplicationRow>, day: int): nat {
    if apps == [] then 0 else (if DayOf(apps[0].createdAt) == day then 1 else 0) + CountOnDay(apps[1..], day)
  }

  /** The trend the rollup promises: 30 consecutive days ending `today`, oldest first. */
  function TrendOf(apps: seq<ApplicationRow>, today: int): (trend: seq<TrendPoint>)
    ensures |trend| == TrendDays
    ensures forall k :: 0 <= k < |trend| ==>
              trend[k].day == today - (TrendDays - 1) + k && trend[k].count == CountOnDay(apps, trend[k].day)
  {
    seq(TrendDays, k requires 0 <= k < TrendDays =>
      TrendPoint(today - (TrendDays - 1) + k, CountOnDay(apps, today - (TrendDays - 1) + k)))
  }

  /**
   * The `for (let i = 29; i >= 0; i--)` loop: for each of the last 30 days, oldest first,
   * the number of applications created that day.
   */
  method Trend(apps: seq<ApplicationRow>, now: int) returns (trend: seq<TrendPoint>)
    ensures trend == TrendOf(apps, DayOf(now))
  {
    ghost var spec := TrendOf(apps, DayOf(now));
    trend := [];
    var i := TrendDays as int - 1;
    while i >= 0
      invariant -1 <= i <= TrendDays - 1
      invariant |trend| == TrendDays - 1 - i
      invariant trend == spec[..|trend|]
    {
      var day := DayOf(now - i * MsPerDay);
      assert day == DayOf(now) - i;
      var count := CountOnDay(apps, day);
      trend := trend + [TrendPoint(day, count)];
      i := i - 1;
    }
  }

  /** The trend ends today, and each entry is the day after the previous one. */
  lemma TrendDaysConsecutive(apps: seq<ApplicationRow>, today: int)
    ensures var trend := TrendOf(apps, today);
            trend[|trend| - 1].day == today && trend[0].day == today - 29
            && forall k :: 0 <= k < |trend| - 1 ==> trend[k + 1].day == trend[k].day + 1
  {
  }

  /** The applications created within the `n` days starting at day `lo`. */
  function CountInWindow(apps: seq<ApplicationRow>, lo: int, n: nat): (c: nat)
    ensures c <= |apps|
  {
    if apps == [] then 0
    else (if lo <= DayOf(apps[0].createdAt) < lo + n then 1 else 0) + CountInWindow(apps[1..], lo, n)
  }

  /** The counts of the trend entries added up. */
  function SumCounts(trend: seq<TrendPoint>): nat {
    if trend == [] then 0 else SumCounts(trend[..|trend| - 1]) + trend[|trend| - 1].count
  }

  lemma {:induction false} WindowEmpty(apps: seq<ApplicationRow>, lo: int)
    ensures CountInWindow(apps, lo, 0) == 0
  {
    if apps != [] {
      WindowEmpty(apps[1..], lo);
    }
  }

  lemma {:induction false} WindowGrows(apps: seq<ApplicationRow>, lo: int, n: nat)
    ensures CountInWindow(apps, lo, n + 1) == CountInWindow(apps, lo, n) + CountOnDay(apps, lo + n)
  {
    if apps != [] {
      WindowGrows(apps[1..], lo, n);
    }
  }

  /**
   * Each application of the last 30 days is counted exactly once in the trend: the counts
   * add up to the number of applications created from 29 days ago to today.
   */
  lemma TrendCountsWindow(apps: seq<ApplicationRow>, today: int)
    ensures SumCounts(TrendOf(apps, today)) == CountInWindow(apps, today - 29, TrendDays)
    ensures SumCounts(TrendOf(apps, today)) <= |apps|
  {
    var trend := TrendOf(apps, today);
    var lo := today - 29;
    WindowEmpty(apps, lo);
    var n := 0;
    while n < |trend|
      invariant 0 <= n <= |trend|
      invariant SumCounts(trend[..n]) == CountInWindow(apps, lo, n)
    {
      assert trend[..n + 1][..n] == trend[..n];
      WindowGrows(apps, lo, n);
      n := n + 1;
    }
    assert trend[..n] == trend;
  }

  /** The statistics of one job. */
  function JobStats(job: JobRow, apps: seq<ApplicationRow>): (s: JobAnalytics)
    ensures s.jobId == job.id && s.jobTitle == job.title
    ensures s.totalApplications == |ForJob(apps, job.id)| == Total(s.counts)
    ensures s.counts == StatusCountsOf(ForJob(apps, job.id))
    ensures s.conversionRate == ConversionRate(s.counts.hired, s.totalApplications)
    ensures 0.0 <= s.conversionRate <= 100.0
    ensures s.avgResponseTime == MeanResponseHours(ForJob(apps, job.id))
  {
    var jobApps := ForJob(apps, job.id);
    var counts := StatusCountsOf(jobApps);
    JobAnalytics(job.id, job.title, |jobApps|, counts,
                 ConversionRate(counts.hired, |jobApps|), MeanResponseHours(jobApps))
  }

  function AllJobStats(jobs: seq<JobRow>, apps: seq<ApplicationRow>): (stats: seq<JobAnalytics>)
    ensures |stats| == |jobs| && forall i :: 0 <= i < |jobs| ==> stats[i] == JobStats(jobs[i], apps)
  {
    seq(|jobs|, i requires 0 <= i < |jobs| => JobStats(jobs[i], apps))
  }

  /** The per-job loop of the rollup, one entry per job in order. */
  method PerJobAnalytics(jobs: seq<JobRow>, apps: seq<ApplicationRow>) returns (stats: seq<JobAnalytics>)
    ensures stats == AllJobStats(jobs, apps)
  {
    stats := [];
    var i := 0;
    while i < |jobs|
      invariant 0 <= i <= |jobs|
      invariant stats == AllJobStats(jobs, apps)[..i]
    {
      var jobApps := ForJob(apps, jobs[i].id);
      var counts := StatusCountsOf(jobApps);
      var avg := AverageResponseTime(jobApps);
      var entry := JobAnalytics(jobs[i].id, jobs[i].title, |jobApps|, counts,
                                ConversionRate(counts.hired, |jobApps|), avg);
      assert entry == JobStats(jobs[i], apps);
      assert AllJobStats(jobs, apps)[..i + 1] == AllJobStats(jobs, apps)[..i] + [entry];
      stats := stats + [entry];
      i := i + 1;
    }
  }

  /** The result when there is no company or it has no jobs. */
  function Zeroed(): (r: AnalyticsData)
    ensures r.jobs == [] && r.overview.applicationsTrend == []
    ensures r.overview.totalJobs == 0 && r.overview.totalApplications == 0
    ensures Total(r.overview.applicationsByStatus) == 0
  {
    AnalyticsData([], Overview(0, 0, 0.0, 0.0, StatusCounts(0, 0, 0, 0, 0), []))
  }

  /** The rollup of the fetched jobs and applications at time `now`. */
  function Rollup(jobs: seq<JobRow>, apps: seq<ApplicationRow>, now: int): (r: AnalyticsData)
    ensures |r.jobs| == |jobs|
    ensures forall i :: 0 <= i < |jobs| ==> r.jobs[i] == JobStats(jobs[i], apps)
    ensures r.overview.totalJobs == |jobs|
    ensures r.overview.totalApplications == |apps| == Total(r.overview.applicationsByStatus)
    ensures r.overview.applicationsByStatus == StatusCountsOf(apps)
    ensures r.overview.overallConversionRate == ConversionRate(r.overview.applicationsByStatus.hired, |apps|)
    ensures 0.0 <= r.overview.overallConversionRate <= 100.0
    ensures r.overview.avgResponseTime == MeanResponseHours(apps)
    ensures r.overview.applicationsTrend == TrendOf(apps, DayOf(now))
  {
    var counts := StatusCountsOf(apps);
    AnalyticsData(
      AllJobStats(jobs, apps),
      Overview(|jobs|, |apps|, ConversionRate(counts.hired, |apps|), MeanResponseHours(apps), counts,
               TrendOf(apps, DayOf(now))))
  }

  function RowsOrEmpty(f: Fetch<seq<ApplicationRow>>): seq<ApplicationRow> {
    if f.Rows? then f.rows else []
  }

  /**
   * The analytics query: not authenticated throws; no company, or a company without jobs,
   * gives the zeroed result; a failed query throws its error; otherwise the rollup.
   */
  method CompanyAnalytics(userId: Option<string>, company: Option<string>,
                          jobsFetch: Fetch<seq<JobRow>>, appsFetch: Fetch<seq<ApplicationRow>>, now: int)
    returns (r: Result<AnalyticsData>)
    ensures userId.None? ==> r == Err("Not authenticated")
    ensures userId.Some? && company.None? ==> r == Ok(Zeroed())
    ensures userId.Some? && company.Some? && jobsFetch.Failed? ==> r == Err(jobsFetch.message)
    ensures userId.Some? && company.Some? && (jobsFetch.NoData? || jobsFetch == Rows([])) ==> r == Ok(Zeroed())
    ensures userId.Some? && company.Some? && jobsFetch.Rows? && jobsFetch.rows != [] ==>
              r == if appsFetch.Failed? then Err(appsFetch.message)
                   else Ok(Rollup(jobsFetch.rows, RowsOrEmpty(appsFetch), now))
  {
    if userId.None? {
      return Err("Not authenticated");
    }
    if company.None? {
      return Ok(Zeroed());
    }
    if jobsFetch.Failed? {
      return Err(jobsFetch.message);
    }
    if jobsFetch.NoData? || jobsFetch.rows == [] {
      return Ok(Zeroed());
    }
    var jobs := jobsFetch.rows;
    if appsFetch.Failed? {
      return Err(appsFetch.message);
    }
    var apps := RowsOrEmpty(appsFetch);
    var data := ComputeRollup(jobs, apps, now);
    r := Ok(data);
  }

  /** The rollup once both queries returned: per-job statistics, then the overview. */
  method ComputeRollup(jobs: seq<JobRow>, apps: seq<ApplicationRow>, now: int) returns (data: AnalyticsData)
    ensures data == Rollup(jobs, apps, now)
  {
    var jobAnalytics := PerJobAnalytics(jobs, apps);
    var overallCounts := StatusCountsOf(apps);
    var overallAvg := AverageResponseTime(apps);
    var trend := Trend(apps, now);
    data := AnalyticsData(jobAnalytics,
      Overview(|jobs|, |apps|, ConversionRate(overallCounts.hired, |apps|), overallAvg, overallCounts, trend));
  }

  /** The job ids of the applications, in order. */
  function JobIdsOf(apps: seq<ApplicationRow>): (ids: seq<string>)
    ensures |ids| == |apps| && forall k :: 0 <= k < |apps| ==> ids[k] == apps[k].jobId
  {
    seq(|apps|, k requires 0 <= k < |apps| => apps[k].jobId)
  }

  lemma {:induction false} ForJobIsCount(apps: seq<ApplicationRow>, jobId: string)
    ensures |ForJob(apps, jobId)| == Lists.Count(JobIdsOf(apps), jobId)
  {
    if apps != [] {
      ForJobIsCount(apps[1..], jobId);
      assert JobIdsOf(apps)[1..] == JobIdsOf(apps[1..]);
    }
  }

  function SumTotals(stats: seq<JobAnalytics>): nat {
    if stats == [] then 0 else stats[0].totalApplications + SumTotals(stats[1..])
  }

  function IdsOf(jobs: seq<JobRow>): (ids: seq<string>)
    ensures |ids| == |jobs| && forall k :: 0 <= k < |jobs| ==> ids[k] == jobs[k].id
  {
    seq(|jobs|, k requires 0 <= k < |jobs| => jobs[k].id)
  }

  /** A job's total counts the applications carrying its id. */
  lemma JobTotalIsCount(job: JobRow, apps: seq<ApplicationRow>)
    ensures JobStats(job, apps).totalApplications == Lists.Count(JobIdsOf(apps), job.id)
  {
    ForJobIsCount(apps, job.id);
  }

  lemma {:induction false} SumTotalsIsCountAll(jobs: seq<JobRow>, apps: seq<ApplicationRow>)
    ensures SumTotals(AllJobStats(jobs, apps)) == Lists.CountAll(IdsOf(jobs), JobIdsOf(apps))
  {
    if jobs != [] {
      var stats, ids := AllJobStats(jobs, apps), IdsOf(jobs);
      SumTotalsIsCountAll(jobs[1..], apps);
      assert stats[1..] == AllJobStats(jobs[1..], apps);
      assert ids[1..] == IdsOf(jobs[1..]);
      JobTotalIsCount(jobs[0], apps);
      assert stats[0] == JobStats(jobs[0], apps) && ids[0] == jobs[0].id;
    }
  }

  /**
   * When the job ids are distinct and every application belongs to one of the jobs (the
   * query selects applications by job id), the per-job totals add up to the overview total.
   */
  lemma JobTotalsCoverApplications(jobs: seq<JobRow>, apps: seq<ApplicationRow>, now: int)
    requires Lists.NoDup(IdsOf(jobs))
    requires forall a :: a in apps ==> a.jobId in IdsOf(jobs)
    ensures SumTotals(Rollup(jobs, apps, now).jobs) == Rollup(jobs, apps, now).overview.totalApplications
  {
    SumTotalsIsCountAll(jobs, apps);
    forall x | x in JobIdsOf(apps) ensures x in IdsOf(jobs) {
      var k :| 0 <= k < |apps| && JobIdsOf(apps)[k] == x;
      assert apps[k] in apps;
    }
    Lists.CountAllCovers(IdsOf(jobs), JobIdsOf(apps));
  }
}
