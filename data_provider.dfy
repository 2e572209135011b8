/** The backend's synthetic data source. A generator is reseeded from the UTC
    date-hour (shifted back by a configured number of hours) and every trend
    value draws the next number from it. The generator is a stream of draws in
    [0, 1) indexed by seed and position; the clock is a parameter in seconds
    since 1970-01-01T00:00Z. Rounding and integer conversion of the drawn
    values are not modelled: values are exact reals. */
module DataService {
  import Gregorian

  /** One draw of the generator: a real in [0, 1). */
  type Unit = r: real | 0.0 <= r < 1.0

  datatype RevenuePoint = RevenuePoint(month: string, value: real)

  datatype Bill = Bill(name: string, amount: int, due: string)

  datatype AnalyticsPayload = AnalyticsPayload(
    executions: real,
    activeUsers: real,
    newUsers: real,
    totalMentors: real,
    totalRevenue: real,
    revenueGrowth: string,
    communityGrowth: real,
    screenTime: real,
    cryptoFearIndex: real,
    billsTopup: seq<Bill>,
    monthlyRevenue: seq<RevenuePoint>)

  datatype WorkflowStat = WorkflowStat(name: string, executions: real, successRate: real)

  datatype ActivityEntry = ActivityEntry(workflow: string, timestamp: string, status: string)

  datatype WorkflowsPayload = WorkflowsPayload(
    totalExecutions: real,
    workflows: seq<WorkflowStat>,
    recentActivity: seq<ActivityEntry>)

  datatype Project = Project(name: string, status: string, team: seq<string>)

  datatype ProjectsPayload = ProjectsPayload(ongoingProjects: real, comparedToLastWeek: string, projects: seq<Project>)

  datatype HealthPayload = HealthPayload(status: string, ollama: string, timestamp: string)

  /** The monthly revenue series: month names and base values, in order. */
  const MonthBases: seq<(string, real)> := [
    ("Jan", 4000.0), ("Feb", 3500.0), ("Mar", 4800.0),
    ("Apr", 5200.0), ("May", 6100.0), ("Jun", 7200.0)
  ]

  const Bills: seq<Bill> := [Bill("Electricity", 97, "Oct 25"), Bill("Cloud", 312, "Oct 26")]

  const FixedProjects: seq<Project> := [
    Project("Design Refresh", "in_progress", ["alice", "sarah", "nora"]),
    Project("Mobile View", "completed", ["lee"]),
    Project("Workflow AI", "in_progress", ["sam", "bruno"])
  ]

  // ---------------------------------------------------------------------------
  // Seeding

  /** The hour number (hours since 1970-01-01T00Z) of the clock reading `now`
      moved back by `offsetHours`: the hour whose 3600 seconds contain the
      shifted reading. */
  function ShiftedHour(now: int, offsetHours: int): (r: int)
    ensures 3600 * r <= now - 3600 * offsetHours < 3600 * (r + 1)
  {
    now / 3600 - offsetHours
  }

  /** The seed of hour number `hour`: its `%Y%m%d%H` digits read as one number,
      from the civil date of the hour's day. */
  function HourSeed(hour: int): int
  {
    var (y, m, d) := Gregorian.CivilFromDays(hour / 24);
    SeedNumber(y, m + 1, d, hour % 24)
  }

  /** Read back, the digits of an hour's seed give a valid date whose day
      number is the hour's day, and the hour within that day. */
  lemma HourSeedDigits(hour: int)
    ensures var r := HourSeed(hour);
      var y, month, day := r / 1000000, (r / 10000) % 100, (r / 100) % 100;
      && 1 <= month <= 12 && 1 <= day <= Gregorian.DaysInMonth(y, month - 1)
      && Gregorian.DaysFromCivil(y, month - 1, day) == hour / 24
      && r % 100 == hour % 24
  {
    var c := Gregorian.CivilFromDays(hour / 24);
    HourSeedOf(hour, c);
    SeedDigits(c.0, c.1 + 1, c.2, hour % 24);
  }

  /** `%Y%m%d%H` read as a number: two decimal digits each for the month,
      the day and the hour below the year. */
  function SeedNumber(y: int, month: int, d: int, h: int): int
  {
    y * 1000000 + month * 10000 + d * 100 + h
  }

  /** The seed digits decode back to year, month (1-based), day and hour. */
  lemma SeedDigits(y: int, month: int, d: int, h: int)
    requires 1 <= month <= 12 && 1 <= d <= 31 && 0 <= h < 24
    ensures var s := SeedNumber(y, month, d, h);
      && s % 100 == h
      && (s / 100) % 100 == d
      && (s / 10000) % 100 == month
      && s / 1000000 == y
  {
    var s := SeedNumber(y, month, d, h);
    assert s == 100 * (y * 10000 + month * 100 + d) + h;
    assert s / 100 == y * 10000 + month * 100 + d;
    assert s / 100 == 100 * (y * 100 + month) + d;
    assert s / 10000 == y * 100 + month;
    assert s == 1000000 * y + (month * 10000 + d * 100 + h);
  }

  /** Two hours get the same seed exactly when they are the same hour, so the
      generator is reseeded identically within an hour and differently across
      hours. */
  lemma HourSeedInjective(h1: int, h2: int)
    ensures HourSeed(h1) == HourSeed(h2) <==> h1 == h2
  {
    var c1, c2 := Gregorian.CivilFromDays(h1 / 24), Gregorian.CivilFromDays(h2 / 24);
    HourSeedOf(h1, c1);
    HourSeedOf(h2, c2);
    if HourSeed(h1) == HourSeed(h2) {
      SameSeedSameHour(h1, h2, c1, c2);
    }
  }

  /** The seed of an hour, spelled out over the civil date of its day. */
  lemma HourSeedOf(h: int, c: (int, int, int))
    requires c == Gregorian.CivilFromDays(h / 24)
    ensures 0 <= c.1 < 12 && 1 <= c.2 <= Gregorian.DaysInMonth(c.0, c.1) && Gregorian.DaysFromCivil(c.0, c.1, c.2) == h / 24
    ensures HourSeed(h) == SeedNumber(c.0, c.1 + 1, c.2, h % 24)
  {
  }

  /** Equal seeds come from equal hours, given the civil dates of the two hours' days. */
  lemma SameSeedSameHour(h1: int, h2: int, c1: (int, int, int), c2: (int, int, int))
    requires 0 <= c1.1 < 12 && 1 <= c1.2 <= 31 && Gregorian.DaysFromCivil(c1.0, c1.1, c1.2) == h1 / 24
    requires 0 <= c2.1 < 12 && 1 <= c2.2 <= 31 && Gregorian.DaysFromCivil(c2.0, c2.1, c2.2) == h2 / 24
    requires SeedNumber(c1.0, c1.1 + 1, c1.2, h1 % 24) == SeedNumber(c2.0, c2.1 + 1, c2.2, h2 % 24)
    ensures h1 == h2
  {
    SeedDigits(c1.0, c1.1 + 1, c1.2, h1 % 24);
    SeedDigits(c2.0, c2.1 + 1, c2.2, h2 % 24);
    assert c1 == c2 && h1 % 24 == h2 % 24;
    assert h1 / 24 == h2 / 24;
  }

  /** The seed of any hour of a calendar date is that date's `%Y%m%d%H`, with
      the hour of the day in the last two digits. */
  lemma HourSeedOfDate(y: int, m: int, d: int, hour: int)
    requires 0 <= m < 12 && 1 <= d <= Gregorian.DaysInMonth(y, m)
    requires hour / 24 == Gregorian.DaysFromCivil(y, m, d)
    ensures HourSeed(hour) == SeedNumber(y, m + 1, d, hour % 24)
  {
    Gregorian.CivilRoundTrip(y, m, d);
  }

  // ---------------------------------------------------------------------------
  // Trend values

  /** `random.uniform(a, b)` given the underlying draw: a value from `a` up to,
      but not including, `b`. */
  function Uniform(a: real, b: real, r: Unit): (u: real)
    ensures a <= b ==> a <= u <= b
    ensures a < b ==> u < b
  {
    var w := b - a;
    if a <= b then
      ScaleByDraw(w, r);
      a + w * r
    else
      a + w * r
  }

  /** A non-negative width scaled by a draw stays below the width, strictly
      when the width is positive. */
  lemma ScaleByDraw(w: real, r: Unit)
    requires w >= 0.0
    ensures 0.0 <= w * r <= w && (w > 0.0 ==> w * r < w)
  {
    assert w - w * r == w * (1.0 - r);
  }

  /** `_trend(base, variance)` given the draw: the base scaled by one plus a
      uniform offset in [-variance, variance], so a non-negative base stays
      within the variance band around itself. */
  function TrendValue(base: real, variance: real, r: Unit): (t: real)
    ensures base >= 0.0 && variance >= 0.0 ==> base * (1.0 - variance) <= t <= base * (1.0 + variance)
  {
    var u := Uniform(-variance, variance, r);
    ScaledBand(base, variance, u);
    base * (1.0 + u)
  }

  /** Scaling by one plus an offset within [-variance, variance] keeps a
      non-negative base within the band. */
  lemma ScaledBand(base: real, variance: real, u: real)
    ensures base >= 0.0 && -variance <= u <= variance ==>
      base * (1.0 - variance) <= base * (1.0 + u) <= base * (1.0 + variance)
  {
    if base >= 0.0 && -variance <= u <= variance {
      assert base * (1.0 + u) - base * (1.0 - variance) == base * (u + variance);
      assert base * (1.0 + variance) - base * (1.0 + u) == base * (variance - u);
    }
  }

  /** `min(100, max(0, x))`. */
  function Clamp(x: real): (r: real)
    ensures 0.0 <= r <= 100.0
    ensures 0.0 <= x <= 100.0 ==> r == x
    ensures x < 0.0 ==> r == 0.0
    ensures x > 100.0 ==> r == 100.0
  {
    if x > 100.0 then 100.0 else if x < 0.0 then 0.0 else x
  }

  // ---------------------------------------------------------------------------
  // Payloads as functions of the generator

  /** The monthly revenue series drawn from positions `start .. start + 5`. */
  function MonthlyRevenueAt(stream: (int, nat) -> Unit, seed: int, start: nat): (r: seq<RevenuePoint>)
    ensures |r| == 6
    ensures forall i :: 0 <= i < 6 ==> r[i].month == MonthBases[i].0
  {
    seq(6, i requires 0 <= i < 6 =>
      RevenuePoint(MonthBases[i].0, TrendValue(MonthBases[i].1, 0.18, stream(seed, start + i))))
  }

  /** The analytics payload of a generator freshly seeded with `seed`: eight
      trend values from draws 0..7, the crypto index clamped into [0, 100], the
      six months Jan..Jun from draws 8..13, and the fixed bills and growth text. */
  function AnalyticsAt(stream: (int, nat) -> Unit, seed: int): (a: AnalyticsPayload)
    ensures |a.monthlyRevenue| == 6
    ensures forall i :: 0 <= i < 6 ==> a.monthlyRevenue[i].month == ["Jan", "Feb", "Mar", "Apr", "May", "Jun"][i]
    ensures a.billsTopup == [Bill("Electricity", 97, "Oct 25"), Bill("Cloud", 312, "Oct 26")]
    ensures a.revenueGrowth == "+17.3%"
    ensures 0.0 <= a.cryptoFearIndex <= 100.0
  {
    AnalyticsPayload(
      TrendValue(360.0, 0.12, stream(seed, 0)),
      TrendValue(16800.0, 0.08, stream(seed, 1)),
      TrendValue(1500.0, 0.18, stream(seed, 2)),
      TrendValue(2025.0, 0.03, stream(seed, 3)),
      TrendValue(24000.0, 0.2, stream(seed, 4)),
      "+17.3%",
      TrendValue(65.0, 0.2, stream(seed, 5)),
      TrendValue(5.7, 0.05, stream(seed, 6)),
      Clamp(TrendValue(72.0, 0.25, stream(seed, 7))),
      Bills,
      MonthlyRevenueAt(stream, seed, 8))
  }

  /** Every analytics figure lies in its band: for instance active users within
      8% of 16800 and total revenue within 20% of 24000. */
  lemma AnalyticsInBands(stream: (int, nat) -> Unit, seed: int)
    ensures var a := AnalyticsAt(stream, seed);
      && 316.8 <= a.executions <= 403.2
      && 15456.0 <= a.activeUsers <= 18144.0
      && 1230.0 <= a.newUsers <= 1770.0
      && 19200.0 <= a.totalRevenue <= 28800.0
      && 54.0 <= a.cryptoFearIndex <= 90.0
      && forall i :: 0 <= i < 6 ==>
        MonthBases[i].1 * 0.82 <= a.monthlyRevenue[i].value <= MonthBases[i].1 * 1.18
  {
    forall i | 0 <= i < 6
      ensures MonthBases[i].1 * 0.82 <= AnalyticsAt(stream, seed).monthlyRevenue[i].value <= MonthBases[i].1 * 1.18
    {
    }
  }

  /** The activity feed for a workflow list: one "2 mins ago" success per
      workflow, in order, then a final "Data Processing" success "15 mins ago". */
  function RecentActivity(workflows: seq<WorkflowStat>): (r: seq<ActivityEntry>)
    ensures |r| == |workflows| + 1
    ensures forall i :: 0 <= i < |workflows| ==> r[i] == ActivityEntry(workflows[i].name, "2 mins ago", "success")
    ensures r[|workflows|] == ActivityEntry("Data Processing", "15 mins ago", "success")
  {
    seq(|workflows|, i requires 0 <= i < |workflows| => ActivityEntry(workflows[i].name, "2 mins ago", "success"))
      + [ActivityEntry("Data Processing", "15 mins ago", "success")]
  }

  /** The workflows payload drawn from positions `k .. k + 4` of the current
      generator: the three fixed workflows in order, Email Automation always at
      100%, the total equal to the sum of the executions, and four activity
      entries. */
  function WorkflowsAt(stream: (int, nat) -> Unit, seed: int, k: nat): (w: WorkflowsPayload)
    ensures |w.workflows| == 3
    ensures w.workflows[0].name == "Data Processing" && w.workflows[1].name == "Email Automation"
      && w.workflows[2].name == "Customer Support"
    ensures w.workflows[1].successRate == 100.0
    ensures w.totalExecutions == w.workflows[0].executions + w.workflows[1].executions + w.workflows[2].executions
    ensures w.recentActivity == RecentActivity(w.workflows) && |w.recentActivity| == 4
  {
    var workflows := [
      WorkflowStat("Data Processing", TrendValue(120.0, 0.15, stream(seed, k)), TrendValue(98.0, 0.01, stream(seed, k + 1))),
      WorkflowStat("Email Automation", TrendValue(85.0, 0.18, stream(seed, k + 2)), 100.0),
      WorkflowStat("Customer Support", TrendValue(65.0, 0.12, stream(seed, k + 3)), TrendValue(96.0, 0.02, stream(seed, k + 4)))
    ];
    assert SumExecutions(workflows[2..]) == workflows[2].executions + SumExecutions(workflows[3..]);
    assert SumExecutions(workflows[1..]) == workflows[1].executions + SumExecutions(workflows[2..]);
    WorkflowsPayload(SumExecutions(workflows), workflows, RecentActivity(workflows))
  }

  /** `sum(item["executions"] for item in workflows)`. */
  function SumExecutions(workflows: seq<WorkflowStat>): real
  {
    if workflows == [] then 0.0 else workflows[0].executions + SumExecutions(workflows[1..])
  }

  /** Success rates stay within their bands: Data Processing within 1% of 98,
      Customer Support within 2% of 96, so every rate is at most 100. */
  lemma SuccessRatesAtMostHundred(stream: (int, nat) -> Unit, seed: int, k: nat)
    ensures forall i :: 0 <= i < 3 ==> 0.0 <= WorkflowsAt(stream, seed, k).workflows[i].successRate <= 100.0
  {
  }

  /** The projects payload drawn from position `k`: only the ongoing count
      varies; the project list and the weekly comparison are fixed. */
  function ProjectsAt(stream: (int, nat) -> Unit, seed: int, k: nat): (p: ProjectsPayload)
    ensures p.projects == FixedProjects && p.comparedToLastWeek == "+2.3%"
    ensures 65.76 <= p.ongoingProjects <= 71.24
  {
    ProjectsPayload(TrendValue(68.5, 0.04, stream(seed, k)), "+2.3%", FixedProjects)
  }

  /** Any two projects payloads differ at most in the ongoing count. */
  lemma ProjectsDifferOnlyInCount(s1: (int, nat) -> Unit, seed1: int, k1: nat,
                                  s2: (int, nat) -> Unit, seed2: int, k2: nat)
    ensures ProjectsAt(s1, seed1, k1).(ongoingProjects := 0.0) == ProjectsAt(s2, seed2, k2).(ongoingProjects := 0.0)
  {
  }

  /** `health`: always healthy and connected, stamped with the clock reading. */
  function Health(timestamp: string): (h: HealthPayload)
    ensures h.status == "healthy" && h.ollama == "connected" && h.timestamp == timestamp
  {
    HealthPayload("healthy", "connected", timestamp)
  }

  // ---------------------------------------------------------------------------
  // The provider

  /** The provider: its configured hour offset, the generator's draws, the
      current seed and how many numbers have been drawn since seeding. */
  class DataProvider {
    const seedOffsetHours: int
    const stream: (int, nat) -> Unit
    var seed: int
    var drawn: nat

    /** Construction seeds the generator from the clock reading `now`. */
    constructor (offset: int, stream: (int, nat) -> Unit, now: int)
      ensures seedOffsetHours == offset && this.stream == stream
      ensures seed == HourSeed(ShiftedHour(now, offset)) && drawn == 0
    {
      seedOffsetHours := offset;
      this.stream := stream;
      seed := HourSeed(ShiftedHour(now, offset));
      drawn := 0;
    }

    /** `refresh`: reseed from the clock reading `now`, restarting the draws. */
    method Refresh(now: int)
      modifies this`seed, this`drawn
      ensures seed == HourSeed(ShiftedHour(now, seedOffsetHours)) && drawn == 0
    {
      seed := HourSeed(ShiftedHour(now, seedOffsetHours));
      drawn := 0;
    }

    /** `_trend`: consume the next draw. */
    method Trend(base: real, variance: real) returns (value: real)
      modifies this`drawn
      ensures value == TrendValue(base, variance, stream(seed, old(drawn)))
      ensures drawn == old(drawn) + 1
    {
      value := TrendValue(base, variance, stream(seed, drawn));
      drawn := drawn + 1;
    }

    /** `analytics`: reseed from `now`, then draw fourteen values, so the
        payload depends only on the shifted hour of `now`. */
    method Analytics(now: int) returns (a: AnalyticsPayload)
      modifies this`seed, this`drawn
      ensures seed == HourSeed(ShiftedHour(now, seedOffsetHours)) && drawn == 14
      ensures a == AnalyticsAt(stream, seed)
    {
      Refresh(now);
      a := DrawAnalytics();
    }

    /** The body of `analytics` after reseeding: eight figures, the clamped
        crypto index and the monthly series, from the first fourteen draws. */
    method DrawAnalytics() returns (a: AnalyticsPayload)
      requires drawn == 0
      modifies this`drawn
      ensures a == AnalyticsAt(stream, seed) && drawn == 14
    {
      var executions := Trend(360.0, 0.12);
      assert executions == TrendValue(360.0, 0.12, stream(seed, 0));
      var activeUsers := Trend(16800.0, 0.08);
      assert activeUsers == TrendValue(16800.0, 0.08, stream(seed, 1));
      var newUsers := Trend(1500.0, 0.18);
      assert newUsers == TrendValue(1500.0, 0.18, stream(seed, 2));
      var totalMentors := Trend(2025.0, 0.03);
      assert totalMentors == TrendValue(2025.0, 0.03, stream(seed, 3));
      var totalRevenue := Trend(24000.0, 0.2);
      assert totalRevenue == TrendValue(24000.0, 0.2, stream(seed, 4));
      var communityGrowth := Trend(65.0, 0.2);
      assert communityGrowth == TrendValue(65.0, 0.2, stream(seed, 5));
      var screenTime := Trend(5.7, 0.05);
      assert screenTime == TrendValue(5.7, 0.05, stream(seed, 6));
      var crypto := Trend(72.0, 0.25);
      crypto := Clamp(crypto);
      assert crypto == Clamp(TrendValue(72.0, 0.25, stream(seed, 7)));
      var monthly := MonthlyRevenue();
      a := AnalyticsPayload(executions, activeUsers, newUsers, totalMentors, totalRevenue, "+17.3%",
                            communityGrowth, screenTime, crypto, Bills, monthly);
    }

    /** The `monthly_revenue` comprehension: one trend value per month, in
        order, from the next six draws. */
    method MonthlyRevenue() returns (monthly: seq<RevenuePoint>)
      modifies this`drawn
      ensures monthly == MonthlyRevenueAt(stream, seed, old(drawn))
      ensures drawn == old(drawn) + 6
    {
      monthly := [];
      var i := 0;
      while i < 6
        invariant 0 <= i <= 6
        invariant drawn == old(drawn) + i
        invariant monthly == MonthlyRevenueAt(stream, seed, old(drawn))[..i]
      {
        var value := Trend(MonthBases[i].1, 0.18);
        monthly := monthly + [RevenuePoint(MonthBases[i].0, value)];
        i := i + 1;
      }
    }

    /** The activity feed, built by appending one entry per workflow and then
        the fixed last entry. */
    method BuildRecentActivity(workflows: seq<WorkflowStat>) returns (activity: seq<ActivityEntry>)
      ensures activity == RecentActivity(workflows)
    {
      activity := [];
      var i := 0;
      while i < |workflows|
        invariant 0 <= i <= |workflows|
        invariant |activity| == i
        invariant forall j :: 0 <= j < i ==> activity[j] == ActivityEntry(workflows[j].name, "2 mins ago", "success")
      {
        activity := activity + [ActivityEntry(workflows[i].name, "2 mins ago", "success")];
        i := i + 1;
      }
      activity := activity + [ActivityEntry("Data Processing", "15 mins ago", "success")];
    }

    /** `workflows`: five draws from the current position, no reseeding. */
    method Workflows() returns (w: WorkflowsPayload)
      modifies this`drawn
      ensures w == WorkflowsAt(stream, seed, old(drawn))
      ensures drawn == old(drawn) + 5
    {
      var dpExecutions := Trend(120.0, 0.15);
      var dpRate := Trend(98.0, 0.01);
      var eaExecutions := Trend(85.0, 0.18);
      var csExecutions := Trend(65.0, 0.12);
      var csRate := Trend(96.0, 0.02);
      var workflows := [
        WorkflowStat("Data Processing", dpExecutions, dpRate),
        WorkflowStat("Email Automation", eaExecutions, 100.0),
        WorkflowStat("Customer Support", csExecutions, csRate)
      ];
      var activity := BuildRecentActivity(workflows);
      w := WorkflowsPayload(SumExecutions(workflows), workflows, activity);
    }

    /** `projects`: one draw from the current position, no reseeding. */
    method Projects() returns (p: ProjectsPayload)
      modifies this`drawn
      ensures p == ProjectsAt(stream, seed, old(drawn))
      ensures drawn == old(drawn) + 1
    {
      var ongoing := Trend(68.5, 0.04);
      p := ProjectsPayload(ongoing, "+2.3%", FixedProjects);
    }
  }

  /** Two providers with the same generator and offset return the same
      analytics payload for any two clock readings in the same shifted hour,
      and seed differently for readings in different shifted hours. */
  lemma SameHourSameAnalytics(stream: (int, nat) -> Unit, offset: int, now1: int, now2: int)
    ensures ShiftedHour(now1, offset) == ShiftedHour(now2, offset) ==>
      AnalyticsAt(stream, HourSeed(ShiftedHour(now1, offset))) == AnalyticsAt(stream, HourSeed(ShiftedHour(now2, offset)))
    ensures now1 / 3600 != now2 / 3600 ==>
      HourSeed(ShiftedHour(now1, offset)) != HourSeed(ShiftedHour(now2, offset))
  {
    var h1, h2 := ShiftedHour(now1, offset), ShiftedHour(now2, offset);
    assert h1 == now1 / 3600 - offset && h2 == now2 / 3600 - offset;
    HourSeedInjective(h1, h2);
  }
}
