/** The operations dashboard: an all-or-nothing refresh of four backend
    sources, the fallback lists used while a source is missing, and the metrics
    derived from them (mean success rate, the live summary, the four metric
    cards, the health pill and the ring-chart partition of executions).
    Numbers are exact reals; formatting for display is not modelled. */
module Dashboard {
  import opened Wrappers

  datatype RevenuePoint = RevenuePoint(month: string, value: real)

  /** One workflow's statistics; `success_rate` and `executions` may be missing. */
  datatype Workflow = Workflow(name: string, successRate: Option<real>, executions: Option<real>)

  datatype Activity = Activity(workflow: string, status: string, timestamp: string)

  /** The analytics payload, with the fields the dashboard reads. */
  datatype AnalyticsData = AnalyticsData(
    activeUsers: real,
    totalMentors: real,
    totalRevenue: real,
    revenueGrowth: string,
    communityGrowth: Option<real>,
    screenTime: real,
    monthlyRevenue: Option<seq<RevenuePoint>>)

  /** The workflows payload; each field may be missing. */
  datatype WorkflowsData = WorkflowsData(
    totalExecutions: Option<real>,
    workflows: Option<seq<Workflow>>,
    recentActivity: Option<seq<Activity>>)

  datatype ProjectsData = ProjectsData(ongoingProjects: Option<real>, comparedToLastWeek: Option<string>)

  datatype HealthData = HealthData(status: Option<string>, ollama: Option<string>, timestamp: Option<string>)

  const FetchError: string := "Unable to reach the backend. Make sure the FastAPI server is running."

  const ConnectingText: string :=
    "Connecting to telemetry services… live insights will appear once the backend responds."

  const FallbackRevenue: seq<RevenuePoint> := [
    RevenuePoint("Jan", 4200.0), RevenuePoint("Feb", 3800.0), RevenuePoint("Mar", 5100.0),
    RevenuePoint("Apr", 5600.0), RevenuePoint("May", 6400.0), RevenuePoint("Jun", 7200.0)
  ]

  const FallbackWorkflows: seq<Workflow> := [
    Workflow("Data Processing", Some(98.7), Some(120.0)),
    Workflow("Risk Alerts", Some(97.5), Some(84.0)),
    Workflow("Customer Support", Some(96.2), Some(68.0))
  ]

  /** The ring chart's colours, used in turn. */
  const Palette: seq<string> := ["#38bdf8", "#6366f1", "#f97316", "#0ea5e9"]

  // ---------------------------------------------------------------------------
  // Refresh

  /** The dashboard's state cells. */
  class DashboardState {
    var analytics: Option<AnalyticsData>
    var workflows: Option<WorkflowsData>
    var projects: Option<ProjectsData>
    var health: Option<HealthData>
    var loading: bool
    var refreshing: bool
    var error: Option<string>

    /** Before the first refresh: no source values, loading. */
    constructor ()
      ensures analytics == None && workflows == None && projects == None && health == None
      ensures loading && !refreshing && error == None
    {
      analytics, workflows, projects, health := None, None, None, None;
      loading, refreshing, error := true, false, None;
    }

    /** `fetchDashboard`, given how the four requests settled. The update is
        all or nothing: the error is cleared first; the four sources are stored
        only if every request resolved, and any rejection keeps all four old
        values and sets the fixed error text; loading and refreshing end false
        either way. */
    method FetchDashboard(a: Outcome<AnalyticsData>, w: Outcome<WorkflowsData>,
                          p: Outcome<ProjectsData>, h: Outcome<HealthData>)
      modifies this
      ensures a.Resolved? && w.Resolved? && p.Resolved? && h.Resolved? ==>
        && analytics == Some(a.payload) && workflows == Some(w.payload)
        && projects == Some(p.payload) && health == Some(h.payload)
        && error == None
      ensures !(a.Resolved? && w.Resolved? && p.Resolved? && h.Resolved?) ==>
        && analytics == old(analytics) && workflows == old(workflows)
        && projects == old(projects) && health == old(health)
        && error == Some(FetchError)
      ensures !loading && !refreshing
    {
      refreshing := true;
      error := None;
      if a.Resolved? && w.Resolved? && p.Resolved? && h.Resolved? {
        analytics := Some(a.payload);
        workflows := Some(w.payload);
        projects := Some(p.payload);
        health := Some(h.payload);
      } else {
        error := Some(FetchError);
      }
      loading := false;
      refreshing := false;
    }
  }

  // ---------------------------------------------------------------------------
  // Fallbacks

  /** `revenueTrend`: the backend's monthly revenue whenever the response and
      the field are present, even if empty; the fixed list otherwise. */
  function RevenueTrend(analytics: Option<AnalyticsData>): (r: seq<RevenuePoint>)
    ensures analytics.Some? && analytics.value.monthlyRevenue.Some? ==> r == analytics.value.monthlyRevenue.value
    ensures !(analytics.Some? && analytics.value.monthlyRevenue.Some?) ==> r == FallbackRevenue
  {
    if analytics.Some? && analytics.value.monthlyRevenue.Some? then analytics.value.monthlyRevenue.value
    else FallbackRevenue
  }

  /** `workflowStats`: the backend's workflow list whenever the response and
      the field are present, even if empty; the fixed list otherwise. */
  function WorkflowStats(workflows: Option<WorkflowsData>): (r: seq<Workflow>)
    ensures workflows.Some? && workflows.value.workflows.Some? ==> r == workflows.value.workflows.value
    ensures !(workflows.Some? && workflows.value.workflows.Some?) ==> r == FallbackWorkflows
  {
    if workflows.Some? && workflows.value.workflows.Some? then workflows.value.workflows.value
    else FallbackWorkflows
  }

  // ---------------------------------------------------------------------------
  // Mean success rate

  /** `Number(item.success_rate || 0)`: a missing rate counts as 0. */
  function RateOf(w: Workflow): real
  {
    w.successRate.GetOr(0.0)
  }

  /** `item.executions || 0`: a missing count counts as 0. */
  function ExecutionsOf(w: Workflow): real
  {
    w.executions.GetOr(0.0)
  }

  function SumRates(s: seq<Workflow>): real
  {
    if s == [] then 0.0 else RateOf(s[0]) + SumRates(s[1..])
  }

  /** `averageWorkflowSuccess`: 0 for an empty list, otherwise the sum of the
      rates divided by their number. */
  function AverageWorkflowSuccess(stats: seq<Workflow>): (r: real)
    ensures stats == [] ==> r == 0.0
    ensures stats != [] ==> r * (|stats| as real) == SumRates(stats)
  {
    if |stats| == 0 then 0.0 else SumRates(stats) / (|stats| as real)
  }

  /** Rates between `lo` and `hi` sum to between n·lo and n·hi. */
  lemma {:induction false} SumRatesBounds(s: seq<Workflow>, lo: real, hi: real)
    requires forall i :: 0 <= i < |s| ==> lo <= RateOf(s[i]) <= hi
    ensures (|s| as real) * lo <= SumRates(s) <= (|s| as real) * hi
  {
    if s != [] {
      SumRatesBounds(s[1..], lo, hi);
    }
  }

  /** The mean lies between any lower and upper bound of the rates, so between
      the smallest and the largest rate. */
  lemma AverageWithinRates(stats: seq<Workflow>, lo: real, hi: real)
    requires stats != []
    requires forall i :: 0 <= i < |stats| ==> lo <= RateOf(stats[i]) <= hi
    ensures lo <= AverageWorkflowSuccess(stats) <= hi
  {
    SumRatesBounds(stats, lo, hi);
    var n := |stats| as real;
    var avg := AverageWorkflowSuccess(stats);
    ScaleOrder(lo, avg, n);
    ScaleOrder(avg, hi, n);
  }

  /** Multiplying by a positive number keeps the order, both ways. */
  lemma ScaleOrder(x: real, y: real, n: real)
    requires n > 0.0
    ensures x <= y <==> x * n <= y * n
  {
    if x <= y {
      assert y * n - x * n == (y - x) * n;
    } else {
      assert x * n - y * n == (x - y) * n;
    }
  }

  /** Before any response arrives the view runs on the fallback lists: the
      fixed revenue series, the fixed workflows with mean rate 97.4666…, and the
      connecting placeholder. */
  lemma FallbackView()
    ensures RevenueTrend(None) == FallbackRevenue && WorkflowStats(None) == FallbackWorkflows
    ensures AverageWorkflowSuccess(WorkflowStats(None)) == 1462.0 / 15.0
    ensures LiveSummary(None, None) == Connecting
  {
    assert SumRates(FallbackWorkflows) == 292.4;
  }

  // ---------------------------------------------------------------------------
  // Live summary and metric cards

  function SumExecutions(s: seq<Workflow>): real
  {
    if s == [] then 0.0 else ExecutionsOf(s[0]) + SumExecutions(s[1..])
  }

  /** What the headline sentence reports. */
  datatype Summary = Connecting | Monitoring(automationCycles: real, activeAccounts: real)

  /** `liveSummary`: the placeholder unless both analytics and workflows are
      present; then the cycle count is `total_executions` when it is non-zero
      (`||`), else the executions summed over the workflow statistics. */
  function LiveSummary(analytics: Option<AnalyticsData>, workflows: Option<WorkflowsData>): (r: Summary)
    ensures r == Connecting <==> analytics.None? || workflows.None?
    ensures r.Monitoring? ==> r.activeAccounts == analytics.value.activeUsers
    ensures r.Monitoring? && workflows.value.totalExecutions.Some? && workflows.value.totalExecutions.value != 0.0 ==>
      r.automationCycles == workflows.value.totalExecutions.value
    ensures r.Monitoring? && !(workflows.value.totalExecutions.Some? && workflows.value.totalExecutions.value != 0.0) ==>
      r.automationCycles == SumExecutions(WorkflowStats(workflows))
  {
    if analytics.None? || workflows.None? then Connecting
    else
      var total := workflows.value.totalExecutions;
      var cycles := if total.Some? && total.value != 0.0 then total.value else SumExecutions(WorkflowStats(workflows));
      Monitoring(cycles, analytics.value.activeUsers)
  }

  /** The placeholder sentence; the formatted "Monitoring …" sentence is not modelled. */
  function SummaryPlaceholder(s: Summary): (r: Option<string>)
    ensures r.Some? <==> s == Connecting
    ensures r.Some? ==> r.value == ConnectingText
  {
    if s == Connecting then Some(ConnectingText) else None
  }

  /** A card's value before formatting; `NoValue` renders as the "—" marker. */
  datatype CardValue = NoValue | Count(n: real) | Money(amount: real) | Hours(h: real)

  /** A card's change line: fixed text, a community-growth percentage, or nothing. */
  datatype ChangeLine = Fixed(text: string) | CommunityGrowth(percent: real) | NoChange

  datatype MetricCard = MetricCard(title: string, value: CardValue, change: ChangeLine)

  /** `metricCards`. "Automations Run" uses `total_executions ?? sum`, so a
      present 0 is shown as 0 (the live summary's `||` would skip it); the three
      analytics cards show no value while analytics is missing, never 0. */
  function MetricCards(analytics: Option<AnalyticsData>, workflows: Option<WorkflowsData>): (cards: seq<MetricCard>)
    ensures |cards| == 4
    ensures cards[0].title == "Automations Run" && cards[1].title == "Active Accounts"
    ensures cards[2].title == "Revenue Run-Rate" && cards[3].title == "Avg Screen Time"
    ensures workflows.Some? && workflows.value.totalExecutions.Some? ==>
      cards[0].value == Count(workflows.value.totalExecutions.value)
    ensures !(workflows.Some? && workflows.value.totalExecutions.Some?) ==>
      cards[0].value == Count(SumExecutions(WorkflowStats(workflows)))
    ensures analytics.None? ==> forall i :: 1 <= i < 4 ==> cards[i].value == NoValue
    ensures analytics.Some? ==>
      && cards[1].value == Count(analytics.value.activeUsers)
      && cards[2].value == Money(analytics.value.totalRevenue)
      && cards[3].value == Hours(analytics.value.screenTime)
    ensures cards[1].change == CommunityGrowth(if analytics.Some? then analytics.value.communityGrowth.GetOr(0.0) else 0.0)
    ensures cards[2].change == (if analytics.Some? then Fixed(analytics.value.revenueGrowth) else NoChange)
    ensures cards[0].change == Fixed("+4.2% vs previous hour") && cards[3].change == Fixed("Daily engagement")
  {
    var automations :=
      if workflows.Some? && workflows.value.totalExecutions.Some? then workflows.value.totalExecutions.value
      else SumExecutions(WorkflowStats(workflows));
    [
      MetricCard("Automations Run", Count(automations), Fixed("+4.2% vs previous hour")),
      MetricCard("Active Accounts",
        if analytics.Some? then Count(analytics.value.activeUsers) else NoValue,
        CommunityGrowth(if analytics.Some? then analytics.value.communityGrowth.GetOr(0.0) else 0.0)),
      MetricCard("Revenue Run-Rate",
        if analytics.Some? then Money(analytics.value.totalRevenue) else NoValue,
        if analytics.Some? then Fixed(analytics.value.revenueGrowth) else NoChange),
      MetricCard("Avg Screen Time",
        if analytics.Some? then Hours(analytics.value.screenTime) else NoValue,
        Fixed("Daily engagement"))
    ]
  }

  /** With `total_executions` present but 0, the card and the headline disagree:
      the card shows 0 while the headline falls back to the summed executions. */
  lemma CardAndSummaryCountsDiffer(analytics: AnalyticsData, stats: seq<Workflow>)
    requires SumExecutions(stats) != 0.0
    ensures var w := Some(WorkflowsData(Some(0.0), Some(stats), None));
      && MetricCards(Some(analytics), w)[0].value == Count(0.0)
      && LiveSummary(Some(analytics), w) == Monitoring(SumExecutions(stats), analytics.activeUsers)
  {
  }

  /** The text a card shows when it has no value. */
  function Placeholder(v: CardValue): (r: Option<string>)
    ensures r.Some? <==> v == NoValue
    ensures r.Some? ==> r.value == "—"
  {
    if v == NoValue then Some("—") else None
  }

  /** `statusPill`: healthy, degraded and offline get their own classes; any
      other status, or none, gets the grey default. */
  function StatusPill(status: Option<string>): (r: string)
    ensures status == Some("healthy") ==> r == "bg-emerald-100 text-emerald-700"
    ensures status == Some("degraded") ==> r == "bg-amber-100 text-amber-700"
    ensures status == Some("offline") ==> r == "bg-rose-100 text-rose-700"
    ensures status !in {Some("healthy"), Some("degraded"), Some("offline")} ==> r == "bg-gray-100 text-gray-600"
  {
    if status == Some("healthy") then "bg-emerald-100 text-emerald-700"
    else if status == Some("degraded") then "bg-amber-100 text-amber-700"
    else if status == Some("offline") then "bg-rose-100 text-rose-700"
    else "bg-gray-100 text-gray-600"
  }

  /** The four pill classes are distinct, so each known status is told apart
      from the others and from the default. */
  lemma StatusPillsDistinct(s1: Option<string>, s2: Option<string>)
    requires s1 in {Some("healthy"), Some("degraded"), Some("offline"), None}
    requires s2 in {Some("healthy"), Some("degraded"), Some("offline"), None}
    ensures StatusPill(s1) == StatusPill(s2) <==> s1 == s2
  {
  }

  // ---------------------------------------------------------------------------
  // Ring chart

  datatype Segment = Segment(value: real, color: string, name: string, start: real, end: real)

  /** The executions of the first `k` workflows. */
  function ExecPrefix(stats: seq<Workflow>, k: nat): real
    requires k <= |stats|
  {
    if k == 0 then 0.0 else ExecPrefix(stats, k - 1) + ExecutionsOf(stats[k - 1])
  }

  /** The chart's running total over all workflows is the headline's summed
      executions. */
  lemma ExecTotalIsSum(stats: seq<Workflow>)
    ensures ExecPrefix(stats, |stats|) == SumExecutions(stats)
  {
    PrefixPlusRest(stats, |stats|);
    assert stats[|stats|..] == [];
  }

  /** The executions of the first `k` workflows and of the rest add up to the
      summed executions. */
  lemma {:induction false} PrefixPlusRest(stats: seq<Workflow>, k: nat)
    requires k <= |stats|
    ensures ExecPrefix(stats, k) + SumExecutions(stats[k..]) == SumExecutions(stats)
    decreases k
  {
    if k == 0 {
      assert stats[0..] == stats;
    } else {
      PrefixPlusRest(stats, k - 1);
      assert stats[k - 1..][1..] == stats[k..];
    }
  }

  /** The chart's divisor: the total executions, or 1 when the total is 0. */
  function Denominator(stats: seq<Workflow>): (d: real)
    ensures d != 0.0
    ensures ExecPrefix(stats, |stats|) != 0.0 ==> d == ExecPrefix(stats, |stats|)
  {
    var total := ExecPrefix(stats, |stats|);
    if total == 0.0 then 1.0 else total
  }

  /** The ring position, in percent, after the first `k` workflows. */
  function Boundary(stats: seq<Workflow>, k: nat): real
    requires k <= |stats|
  {
    ExecPrefix(stats, k) / Denominator(stats) * 100.0
  }

  /** The colour of the `i`-th segment: the palette, used in turn. */
  function ColorAt(i: nat): string
  {
    Palette[i % 4]
  }

  /** The `i`-th segment: the `i`-th workflow's executions, colour and name,
      running from the share of the workflows before it to the share
      including it. */
  function SegmentAt(stats: seq<Workflow>, i: nat): Segment
    requires i < |stats|
  {
    Segment(ExecutionsOf(stats[i]), ColorAt(i), stats[i].name, Boundary(stats, i), Boundary(stats, i + 1))
  }

  /** The ring: one segment per workflow, in input order. */
  function Segments(stats: seq<Workflow>): (r: seq<Segment>)
    ensures |r| == |stats|
    ensures forall i :: 0 <= i < |r| ==> r[i] == SegmentAt(stats, i)
  {
    seq(|stats|, i requires 0 <= i < |stats| => SegmentAt(stats, i))
  }

  /** Each segment carries its workflow's name and executions, and the colours
      cycle through the four palette entries. */
  lemma SegmentsLabelled(stats: seq<Workflow>)
    ensures forall i :: 0 <= i < |stats| ==>
      && Segments(stats)[i].name == stats[i].name
      && Segments(stats)[i].value == ExecutionsOf(stats[i])
      && Segments(stats)[i].color == Palette[i % 4]
  {
  }

  /** The segments tile the ring from 0 without gaps: the first starts at 0 and
      each starts where the previous one ends. */
  lemma SegmentsContiguous(stats: seq<Workflow>)
    ensures |stats| > 0 ==> Segments(stats)[0].start == 0.0
    ensures forall i :: 0 < i < |stats| ==> Segments(stats)[i].start == Segments(stats)[i - 1].end
  {
  }

  predicate NonNegativeExecutions(stats: seq<Workflow>)
  {
    forall i :: 0 <= i < |stats| ==> ExecutionsOf(stats[i]) >= 0.0
  }

  /** With non-negative counts, the running sums grow and stay within the total. */
  lemma {:induction false} PrefixGrows(stats: seq<Workflow>, i: nat, j: nat)
    requires NonNegativeExecutions(stats)
    requires i <= j <= |stats|
    ensures 0.0 <= ExecPrefix(stats, i) <= ExecPrefix(stats, j)
    decreases j
  {
    if j > i {
      PrefixGrows(stats, i, j - 1);
    } else if i > 0 {
      PrefixGrows(stats, i - 1, i - 1);
    }
  }

  /** With non-negative counts every segment runs forward inside 0..100. */
  lemma SegmentsWithinRing(stats: seq<Workflow>)
    requires NonNegativeExecutions(stats)
    ensures forall i :: 0 <= i < |stats| ==>
      0.0 <= Segments(stats)[i].start <= Segments(stats)[i].end <= 100.0
  {
    forall k | 0 <= k < |stats| ensures 0.0 <= Segments(stats)[k].start <= Segments(stats)[k].end <= 100.0 {
      SegmentWithinRing(stats, k);
    }
  }

  /** `SegmentsWithinRing` for the `k`-th segment. */
  lemma SegmentWithinRing(stats: seq<Workflow>, k: nat)
    requires NonNegativeExecutions(stats) && k < |stats|
    ensures 0.0 <= Boundary(stats, k) <= Boundary(stats, k + 1) <= 100.0
    ensures Segments(stats)[k].start == Boundary(stats, k) && Segments(stats)[k].end == Boundary(stats, k + 1)
  {
    var a, b, t := ExecPrefix(stats, k), ExecPrefix(stats, k + 1), ExecPrefix(stats, |stats|);
    PrefixGrows(stats, k, k + 1);
    PrefixGrows(stats, k + 1, |stats|);
    if t == 0.0 {
      PercentOrder(a, b, 1.0);
    } else {
      PercentOrder(a, b, t);
    }
    assert Segments(stats)[k] == SegmentAt(stats, k);
  }

  /** Scaling `0 <= a <= b <= d` to a percentage of `d` keeps the order and
      stays inside 0..100. */
  lemma PercentOrder(a: real, b: real, d: real)
    requires 0.0 <= a <= b && d > 0.0 && (b <= d || b == 0.0)
    ensures 0.0 <= a / d * 100.0 <= b / d * 100.0 <= 100.0
  {
    ScaleOrder(a / d, b / d, d);
    ScaleOrder(b / d, 1.0, d);
    ScaleOrder(0.0, a / d, d);
  }

  /** A non-zero total closes the ring: the last segment ends at exactly 100. */
  lemma SegmentsCloseRing(stats: seq<Workflow>)
    requires ExecPrefix(stats, |stats|) != 0.0
    ensures |Segments(stats)| > 0 && Segments(stats)[|stats| - 1].end == 100.0
  {
    var t := ExecPrefix(stats, |stats|);
    assert Denominator(stats) == t;
    assert t / t == 1.0;
    assert Segments(stats)[|stats| - 1] == SegmentAt(stats, |stats| - 1);
  }

  /** A zero total with non-negative counts (all counts 0 or missing) collapses
      every segment to [0, 0]: the divisor is floored to 1, not reported as no data. */
  lemma SegmentsCollapse(stats: seq<Workflow>)
    requires NonNegativeExecutions(stats) && ExecPrefix(stats, |stats|) == 0.0
    ensures forall i :: 0 <= i < |stats| ==> Segments(stats)[i].start == 0.0 && Segments(stats)[i].end == 0.0
  {
    forall k | 0 <= k < |stats| ensures Segments(stats)[k].start == 0.0 && Segments(stats)[k].end == 0.0 {
      SegmentCollapses(stats, k);
      assert Segments(stats)[k] == SegmentAt(stats, k);
    }
  }

  /** `SegmentsCollapse` for the `k`-th segment: both of its boundaries are 0. */
  lemma SegmentCollapses(stats: seq<Workflow>, k: nat)
    requires NonNegativeExecutions(stats) && ExecPrefix(stats, |stats|) == 0.0 && k < |stats|
    ensures Boundary(stats, k) == 0.0 && Boundary(stats, k + 1) == 0.0
  {
    PrefixGrows(stats, k, k + 1);
    PrefixGrows(stats, k + 1, |stats|);
  }

  /** `conicStops`: segments built by a running accumulator over the
      executions, divided by the total (1 when the total is 0). */
  method ConicStops(stats: seq<Workflow>) returns (segs: seq<Segment>)
    ensures segs == Segments(stats)
  {
    var values := seq(|stats|, i requires 0 <= i < |stats| => ExecutionsOf(stats[i]));
    var total := ExecPrefix(stats, |stats|);
    if total == 0.0 {
      total := 1.0;
    }
    var acc := 0.0;
    segs := [];
    var i := 0;
    while i < |stats|
      invariant 0 <= i <= |stats|
      invariant total == Denominator(stats)
      invariant acc == ExecPrefix(stats, i)
      invariant segs == Segments(stats)[..i]
    {
      var start := acc / total * 100.0;
      acc := acc + values[i];
      var end := acc / total * 100.0;
      assert start == Boundary(stats, i) && end == Boundary(stats, i + 1);
      var segment := Segment(values[i], ColorAt(i), stats[i].name, start, end);
      assert segment == Segments(stats)[i];
      assert Segments(stats)[..i + 1] == Segments(stats)[..i] + [segment];
      segs := segs + [segment];
      i := i + 1;
    }
  }

  /** The worked example: two workflows at 100% and 90% with 50 runs each have
      mean rate 95 and split the ring at 50. */
  lemma TwoWorkflowExample()
    ensures var s := [Workflow("A", Some(100.0), Some(50.0)), Workflow("B", Some(90.0), Some(50.0))];
      && AverageWorkflowSuccess(s) == 95.0
      && Denominator(s) == 100.0
      && Boundary(s, 1) == 50.0
      && Boundary(s, 2) == 100.0
  {
    var s := [Workflow("A", Some(100.0), Some(50.0)), Workflow("B", Some(90.0), Some(50.0))];
    assert SumRates(s) == 190.0;
    assert ExecPrefix(s, 2) == 100.0;
  }
}
