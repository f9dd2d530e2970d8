/** What the analytics dashboard derives from the rollup before drawing it. */
module AnalyticsDashboard {
  import opened Wrappers
  import opened Schema
  import opened Analytics

  /** The display order of the status slices: the key order of `applicationsByStatus`. */
  const StatusOrder: seq<ApplicationStatus> := [Pending, Reviewed, Interview, Rejected, Hired]

  function StatusLabel(s: ApplicationStatus): string {
    match s
    case Pending => "Pendente"
    case Reviewed => "Analisado"
    case Interview => "Entrevista"
    case Rejected => "Rejeitado"
    case Hired => "Contratado"
  }

  function StatusColor(s: ApplicationStatus): string {
    match s
    case Pending => "hsl(38, 92%, 50%)"
    case Reviewed => "hsl(217, 91%, 55%)"
    case Interview => "hsl(280, 65%, 60%)"
    case Rejected => "hsl(0, 84%, 60%)"
    case Hired => "hsl(142, 71%, 45%)"
  }

  function CountOf(c: StatusCounts, s: ApplicationStatus): nat {
    match s
    case Pending => c.pending
    case Reviewed => c.reviewed
    case Interview => c.interview
    case Rejected => c.rejected
    case Hired => c.hired
  }

  /** What the dashboard shows: a spinner, the error card, the empty state or the charts. */
  datatype View = Spinner | ErrorCard(text: string) | EmptyState | Charts(data: AnalyticsData)

  /** The empty state shows when there is no data or the company has no jobs. */
  function Render(isLoading: bool, error: Option<string>, data: Option<AnalyticsData>): (v: View)
    ensures isLoading <==> v.Spinner?
    ensures v.ErrorCard? <==> !isLoading && error.Some?
    ensures v.ErrorCard? ==> v.text == "Erro ao carregar analytics: " + error.value
    ensures v.EmptyState? <==> !isLoading && error.None? && (data.None? || data.value.overview.totalJobs == 0)
    ensures v.Charts? ==> data == Some(v.data) && v.data.overview.totalJobs > 0
  {
    if isLoading then Spinner
    else if error.Some? then ErrorCard("Erro ao carregar analytics: " + error.value)
    else if data.None? || data.value.overview.totalJobs == 0 then EmptyState
    else Charts(data.value)
  }

  /**
   * The empty state and the zeroed result go together: the zeroed rollup renders the empty
   * state, and a rollup of at least one job renders the charts.
   */
  lemma EmptyStateExactlyWhenNoJobs(jobs: seq<JobRow>, apps: seq<ApplicationRow>, now: int)
    ensures Render(false, None, Some(Zeroed())) == EmptyState
    ensures jobs != [] ==> Render(false, None, Some(Rollup(jobs, apps, now))).Charts?
  {
  }

  datatype PieSlice = PieSlice(name: string, value: nat, color: string)

  /** One slice per status, in key order, labelled and coloured by status. */
  function PieData(c: StatusCounts): (r: seq<PieSlice>)
    ensures |r| == |StatusOrder|
    ensures forall k :: 0 <= k < |r| ==>
              r[k] == PieSlice(StatusLabel(StatusOrder[k]), CountOf(c, StatusOrder[k]), StatusColor(StatusOrder[k]))
  {
    seq(|StatusOrder|, k requires 0 <= k < |StatusOrder| =>
      PieSlice(StatusLabel(StatusOrder[k]), CountOf(c, StatusOrder[k]), StatusColor(StatusOrder[k])))
  }

  function SliceTotal(slices: seq<PieSlice>): nat {
    if slices == [] then 0 else slices[0].value + SliceTotal(slices[1..])
  }

  /**
   * The pie shows every application exactly once: each status has one slice with its own
   * label, and the slices add up to the total of the counts.
   */
  lemma PieCoversEveryStatus(c: StatusCounts)
    ensures SliceTotal(PieData(c)) == Total(c)
    ensures forall s: ApplicationStatus :: s in StatusOrder
    ensures forall i, j :: 0 <= i < j < |StatusOrder| ==>
              StatusOrder[i] != StatusOrder[j] && PieData(c)[i].name != PieData(c)[j].name
  {
    var p := PieData(c);
    assert p[4..][1..] == [];
    assert SliceTotal(p[4..]) == c.hired;
    assert p[3..][1..] == p[4..];
    assert SliceTotal(p[3..]) == c.rejected + c.hired;
    assert p[2..][1..] == p[3..];
    assert SliceTotal(p[2..]) == c.interview + c.rejected + c.hired;
    assert p[1..][1..] == p[2..];
    assert SliceTotal(p[1..]) == c.reviewed + c.interview + c.rejected + c.hired;
    forall s: ApplicationStatus ensures s in StatusOrder {
      match s
      case Pending => assert StatusOrder[0] == s;
      case Reviewed => assert StatusOrder[1] == s;
      case Interview => assert StatusOrder[2] == s;
      case Rejected => assert StatusOrder[3] == s;
      case Hired => assert StatusOrder[4] == s;
    }
  }

  /** The bar label: titles longer than 20 characters are cut to 20 and get an ellipsis. */
  function BarLabel(title: string): (r: string)
    ensures |title| <= 20 ==> r == title
    ensures |title| > 20 ==> |r| == 23 && r[..20] == title[..20] && r[20..] == "..."
    ensures |r| <= 23
  {
    if |title| > 20 then title[..20] + "..." else title
  }

  datatype BarPoint = BarPoint(name: string, candidaturas: nat, contratados: nat)

  /** The first ten jobs, in order, with their totals and hires. */
  function BarData(jobs: seq<JobAnalytics>): (r: seq<BarPoint>)
    ensures |r| == if |jobs| < 10 then |jobs| else 10
    ensures forall k :: 0 <= k < |r| ==>
              r[k] == BarPoint(BarLabel(jobs[k].jobTitle), jobs[k].totalApplications, jobs[k].counts.hired)
  {
    var shown := if |jobs| < 10 then jobs else jobs[..10];
    seq(|shown|, k requires 0 <= k < |shown| =>
      BarPoint(BarLabel(shown[k].jobTitle), shown[k].totalApplications, shown[k].counts.hired))
  }

  /** In a rollup, no bar shows more hires than applications. */
  lemma BarHiresWithinTotals(jobs: seq<JobRow>, apps: seq<ApplicationRow>, now: int)
    ensures forall p :: p in BarData(Rollup(jobs, apps, now).jobs) ==> p.contratados <= p.candidaturas
  {
    var bars := BarData(Rollup(jobs, apps, now).jobs);
    forall p | p in bars ensures p.contratados <= p.candidaturas {
      var k :| 0 <= k < |bars| && bars[k] == p;
      assert Rollup(jobs, apps, now).jobs[k] == JobStats(jobs[k], apps);
    }
  }

  datatype LinePoint = LinePoint(day: int, candidaturas: nat)

  /** One point per trend entry, in order. */
  function LineData(trend: seq<TrendPoint>): (r: seq<LinePoint>)
    ensures |r| == |trend|
    ensures forall k :: 0 <= k < |r| ==> r[k].day == trend[k].day && r[k].candidaturas == trend[k].count
  {
    seq(|trend|, k requires 0 <= k < |trend| => LinePoint(trend[k].day, trend[k].count))
  }

  /** A response time shown in hours, or in days once it reaches a day. */
  datatype Duration = Hours(hours: real) | Days(days: real)

  function ResponseTimeDisplay(avg: real): (d: Duration)
    ensures d.Hours? <==> avg < 24.0
    ensures d.Hours? ==> d.hours == avg
    ensures d.Days? ==> d.days >= 1.0 && d.days * 24.0 == avg
  {
    if avg < 24.0 then Hours(avg) else Days(avg / 24.0)
  }
}
