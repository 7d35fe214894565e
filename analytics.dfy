/** The admin analytics dashboard (components/analytics/analytics-dashboard.tsx): four
    platform totals, and a monthly chart built by grouping the projects, in creation
    order, into one bucket per "month/year" of their creation date. */
module Analytics {
  import opened Common
  import opened Schema
  import opened Backend

  // ---------------------------------------------------------------------------
  // Months and buckets
  // ---------------------------------------------------------------------------

  /** The "month/year" label of a bucket, months numbered from 1. The label is the
      decimal text of these two numbers around a "/", so two labels are equal exactly
      when both numbers are. */
  datatype MonthKey = MonthKey(month: int, year: int)

  /** The bucket a project goes into: `getMonth() + 1` and `getFullYear()` of its
      creation time. */
  function KeyOf(p: Project): (k: MonthKey)
    ensures k.month == p.created.monthIndex + 1 && k.year == p.created.year
  {
    MonthKey(p.created.monthIndex + 1, p.created.year)
  }

  /** One bar of the chart: its label, the summed amounts and the number of projects. */
  datatype Bucket = Bucket(name: MonthKey, revenue: int, projects: int)

  /** The summed revenue of a list of buckets. */
  function RevenueIn(bs: seq<Bucket>): int
  {
    if bs == [] then 0 else RevenueIn(bs[..|bs| - 1]) + bs[|bs| - 1].revenue
  }

  /** The summed project counts of a list of buckets. */
  function ProjectsIn(bs: seq<Bucket>): int
  {
    if bs == [] then 0 else ProjectsIn(bs[..|bs| - 1]) + bs[|bs| - 1].projects
  }

  /** `projects.reduce((sum, p) => sum + p.amount, 0)`. */
  function TotalAmount(ps: seq<Project>): int
  {
    if ps == [] then 0 else TotalAmount(ps[..|ps| - 1]) + ps[|ps| - 1].amount
  }

  predicate Distinct(ks: seq<MonthKey>)
  {
    forall i, j :: 0 <= i < j < |ks| ==> ks[i] != ks[j]
  }

  /** The months that occur among `ps`, each once, in order of first appearance. */
  function Months(ps: seq<Project>): (r: seq<MonthKey>)
    ensures |r| <= |ps|
  {
    if ps == [] then []
    else
      var ks := Months(ps[..|ps| - 1]);
      var k := KeyOf(ps[|ps| - 1]);
      if k in ks then ks else ks + [k]
  }

  /** No month is listed twice. */
  lemma {:induction false} MonthsDistinct(ps: seq<Project>)
    ensures Distinct(Months(ps))
  {
    if ps != [] {
      MonthsDistinct(ps[..|ps| - 1]);
    }
  }

  /** Every project's month is listed. */
  lemma {:induction false} MonthsCover(ps: seq<Project>)
    ensures forall j :: 0 <= j < |ps| ==> KeyOf(ps[j]) in Months(ps)
  {
    if ps != [] {
      var init := ps[..|ps| - 1];
      MonthsCover(init);
      assert forall j :: 0 <= j < |init| ==> init[j] == ps[j];
    }
  }

  /** The first bucket is the month of the earliest project. */
  lemma {:induction false} MonthsStartWithFirst(ps: seq<Project>)
    requires |ps| > 0
    ensures |Months(ps)| > 0 && Months(ps)[0] == KeyOf(ps[0])
  {
    if |ps| > 1 {
      MonthsStartWithFirst(ps[..|ps| - 1]);
    }
  }

  /** `TotalAmount` is the same left fold as the dashboards' sums of amounts. */
  lemma {:induction false} TotalAmountIsSum(ps: seq<Project>)
    ensures TotalAmount(ps) == Sum(ps, Amount)
  {
    if ps != [] {
      TotalAmountIsSum(ps[..|ps| - 1]);
    }
  }

  /** The summed amounts of the projects of month `k`. */
  function Revenue(ps: seq<Project>, k: MonthKey): int
  {
    if ps == [] then 0
    else Revenue(ps[..|ps| - 1], k) + (if KeyOf(ps[|ps| - 1]) == k then ps[|ps| - 1].amount else 0)
  }

  /** The number of projects of month `k`. */
  function Tally(ps: seq<Project>, k: MonthKey): nat
  {
    if ps == [] then 0
    else Tally(ps[..|ps| - 1], k) + (if KeyOf(ps[|ps| - 1]) == k then 1 else 0)
  }

  /** The bucket month `k` should have after the projects `ps`. */
  function BucketOf(ps: seq<Project>, k: MonthKey): Bucket
  {
    Bucket(k, Revenue(ps, k), Tally(ps, k))
  }

  /** The buckets of the months `ks`, in that order. */
  function BucketsOf(ps: seq<Project>, ks: seq<MonthKey>): (r: seq<Bucket>)
    ensures |r| == |ks|
    ensures forall i :: 0 <= i < |ks| ==> r[i] == BucketOf(ps, ks[i])
  {
    if ks == [] then [] else BucketsOf(ps, ks[..|ks| - 1]) + [BucketOf(ps, ks[|ks| - 1])]
  }

  /** The chart as it should come out: one bucket per month in order of first
      appearance, holding that month's summed amounts and number of projects. */
  function MonthlyData(ps: seq<Project>): (r: seq<Bucket>)
    ensures |r| == |Months(ps)| <= |ps|
    ensures forall i :: 0 <= i < |r| ==> r[i] == BucketOf(ps, Months(ps)[i])
  {
    BucketsOf(ps, Months(ps))
  }

  /** Every bucket of the chart holds at least one project: a month is listed only
      once a project of that month has been seen. */
  lemma {:induction false} BucketsNonEmpty(ps: seq<Project>)
    ensures forall i :: 0 <= i < |MonthlyData(ps)| ==> MonthlyData(ps)[i].projects >= 1
  {
    MonthsOccur(ps);
  }

  lemma {:induction false} MonthsOccur(ps: seq<Project>)
    ensures forall k :: k in Months(ps) ==> Tally(ps, k) >= 1
  {
    if ps != [] {
      MonthsOccur(ps[..|ps| - 1]);
    }
  }

  // ---------------------------------------------------------------------------
  // One project more
  // ---------------------------------------------------------------------------

  /** Adding a project adds its amount and 1 to its own month and nothing to any other. */
  lemma MonthStep(s: seq<Project>, x: Project, k: MonthKey)
    ensures Revenue(s + [x], k) == Revenue(s, k) + (if KeyOf(x) == k then x.amount else 0)
    ensures Tally(s + [x], k) == Tally(s, k) + (if KeyOf(x) == k then 1 else 0)
  {
    assert (s + [x])[..|s|] == s;
  }

  /** A month in which no project was created has no revenue and no projects. */
  lemma {:induction false} MonthAbsent(s: seq<Project>, k: MonthKey)
    requires k !in Months(s)
    ensures Revenue(s, k) == 0 && Tally(s, k) == 0
  {
    if s != [] {
      var init := s[..|s| - 1];
      assert KeyOf(s[|s| - 1]) in Months(s);
      assert forall m :: m in Months(init) ==> m in Months(s);
      MonthAbsent(init, k);
    }
  }

  /** The months of one project more: its month is added at the end when it is new. */
  lemma MonthsSnoc(s: seq<Project>, x: Project)
    ensures Months(s + [x]) == if KeyOf(x) in Months(s) then Months(s) else Months(s) + [KeyOf(x)]
  {
    assert (s + [x])[..|s|] == s;
  }

  /** One project more adds, to the buckets of a list of months without repeats, 1
      and its amount when its month is listed and nothing otherwise. */
  lemma {:induction false} BucketsSnoc(s: seq<Project>, x: Project, ks: seq<MonthKey>)
    requires Distinct(ks)
    ensures ProjectsIn(BucketsOf(s + [x], ks)) == ProjectsIn(BucketsOf(s, ks)) + (if KeyOf(x) in ks then 1 else 0)
    ensures RevenueIn(BucketsOf(s + [x], ks)) == RevenueIn(BucketsOf(s, ks)) + (if KeyOf(x) in ks then x.amount else 0)
  {
    if ks != [] {
      var n := |ks| - 1;
      var init := ks[..n];
      assert Distinct(init);
      assert KeyOf(x) in ks <==> KeyOf(x) in init || KeyOf(x) == ks[n];
      assert ks[n] !in init;
      BucketsSnoc(s, x, init);
      MonthStep(s, x, ks[n]);
      LastBucket(s + [x], ks);
      LastBucket(s, ks);
    }
  }

  /** The totals of the buckets of `ks` are those of all but the last month plus the
      last month's. */
  lemma LastBucket(ps: seq<Project>, ks: seq<MonthKey>)
    requires ks != []
    ensures var n := |ks| - 1;
      && ProjectsIn(BucketsOf(ps, ks)) == ProjectsIn(BucketsOf(ps, ks[..n])) + Tally(ps, ks[n])
      && RevenueIn(BucketsOf(ps, ks)) == RevenueIn(BucketsOf(ps, ks[..n])) + Revenue(ps, ks[n])
  {
    var n := |ks| - 1;
    assert BucketsOf(ps, ks)[..n] == BucketsOf(ps, ks[..n]);
  }

  /** The buckets of a list of months without repeats that includes every project's
      month hold all the projects and all their amounts between them. */
  lemma {:induction false} BucketsTotal(ps: seq<Project>, ks: seq<MonthKey>)
    requires Distinct(ks)
    requires forall j :: 0 <= j < |ps| ==> KeyOf(ps[j]) in ks
    ensures ProjectsIn(BucketsOf(ps, ks)) == |ps|
    ensures RevenueIn(BucketsOf(ps, ks)) == TotalAmount(ps)
  {
    if ps == [] {
      NoProjects(ks);
    } else {
      var n := |ps| - 1;
      var s, x := ps[..n], ps[n];
      assert ps == s + [x];
      assert forall j :: 0 <= j < |s| ==> s[j] == ps[j];
      BucketsTotal(s, ks);
      BucketsSnoc(s, x, ks);
    }
  }

  /** With no projects every bucket is empty. */
  lemma {:induction false} NoProjects(ks: seq<MonthKey>)
    ensures ProjectsIn(BucketsOf([], ks)) == 0 && RevenueIn(BucketsOf([], ks)) == 0
  {
    if ks != [] {
      var n := |ks| - 1;
      NoProjects(ks[..n]);
      assert BucketsOf([], ks)[..n] == BucketsOf([], ks[..n]);
    }
  }

  /** The bucket counts add up to the number of projects, and the bucket revenues to
      their summed amounts. */
  lemma BucketTotals(ps: seq<Project>)
    ensures ProjectsIn(MonthlyData(ps)) == |ps|
    ensures RevenueIn(MonthlyData(ps)) == TotalAmount(ps)
  {
    MonthsDistinct(ps);
    MonthsCover(ps);
    BucketsTotal(ps, Months(ps));
  }

  // ---------------------------------------------------------------------------
  // The dashboard
  // ---------------------------------------------------------------------------

  /** The four totals: users, jobs, projects and revenue. */
  datatype Stats = Stats(totalUsers: int, totalJobs: int, totalProjects: int, totalRevenue: int)

  /** Which of fetchStats' three queries report an error. */
  datatype StatsFaults = StatsFaults(users: bool, jobs: bool, projects: bool)

  /** fetchStats once all three queries answered: the totals are list lengths and the
      summed amounts, and they agree with the monthly chart of the same projects. */
  function ComputeStats(profiles: seq<Profile>, jobs: seq<Job>, projects: seq<Project>): (r: Stats)
    ensures r.totalUsers == |profiles| && r.totalJobs == |jobs| && r.totalProjects == |projects|
    ensures r.totalProjects == ProjectsIn(MonthlyData(projects))
    ensures r.totalRevenue == RevenueIn(MonthlyData(projects))
  {
    BucketTotals(projects);
    Stats(|profiles|, |jobs|, |projects|, TotalAmount(projects))
  }

  /** The accumulator after the projects `s` have been reduced into it: its keys are
      the months of `s`, `order` lists them as they were inserted, and each holds
      that month's bucket. */
  ghost predicate Tallied(acc: map<MonthKey, Bucket>, order: seq<MonthKey>, s: seq<Project>)
  {
    && order == Months(s)
    && (forall k :: k in acc <==> k in order)
    && (forall k :: k in acc ==> acc[k] == BucketOf(s, k))
  }

  /** One step of the reduce keeps the accumulator exact: open the project's bucket at
      revenue 0 and count 0 if its key is new, then add the amount and 1 to it. */
  lemma TalliedStep(acc: map<MonthKey, Bucket>, order: seq<MonthKey>, s: seq<Project>, x: Project,
                    acc': map<MonthKey, Bucket>, order': seq<MonthKey>)
    requires Tallied(acc, order, s)
    requires var key := KeyOf(x);
      var ready := if key in acc then acc else acc[key := Bucket(key, 0, 0)];
      && order' == (if key in acc then order else order + [key])
      && acc' == ready[key := Bucket(key, ready[key].revenue + x.amount, ready[key].projects + 1)]
    ensures Tallied(acc', order', s + [x])
  {
    var key := KeyOf(x);
    MonthsSnoc(s, x);
    assert key in acc' && key in order';
    if key !in acc {
      MonthAbsent(s, key);
    }
    assert acc'[key] == BucketOf(s + [x], key) by {
      MonthStep(s, x, key);
    }
    forall k | k in acc' && k != key
      ensures acc'[k] == BucketOf(s + [x], k)
    {
      assert acc'[k] == acc[k];
      MonthStep(s, x, k);
    }
  }

  /** Reading the exact accumulator out in insertion order gives the chart. */
  lemma Readout(acc: map<MonthKey, Bucket>, order: seq<MonthKey>, ps: seq<Project>)
    requires Tallied(acc, order, ps)
    ensures |order| == |MonthlyData(ps)|
    ensures forall m :: 0 <= m < |order| ==> order[m] in acc && acc[order[m]] == MonthlyData(ps)[m]
  {
  }

  /** The chart's buckets built the way the source's reduce builds them: an
      accumulator keyed by month, a bucket created with revenue 0 and count 0 the
      first time its key is seen, then the amount and 1 added to it; the buckets are
      read out in the order their keys were inserted. */
  method MonthlyBuckets(ps: seq<Project>) returns (buckets: seq<Bucket>)
    ensures buckets == MonthlyData(ps)
  {
    var acc: map<MonthKey, Bucket> := map[];
    var order: seq<MonthKey> := [];
    var i := 0;
    while i < |ps|
      invariant 0 <= i <= |ps|
      invariant Tallied(acc, order, ps[..i])
    {
      var key := KeyOf(ps[i]);
      ghost var acc0, order0 := acc, order;
      if key !in acc {
        acc := acc[key := Bucket(key, 0, 0)];
        order := order + [key];
      }
      acc := acc[key := Bucket(key, acc[key].revenue + ps[i].amount, acc[key].projects + 1)];
      TalliedStep(acc0, order0, ps[..i], ps[i], acc, order);
      assert ps[..i + 1] == ps[..i] + [ps[i]];
      i := i + 1;
    }
    assert ps[..i] == ps;
    Readout(acc, order, ps);
    buckets := [];
    var j := 0;
    while j < |order|
      invariant 0 <= j <= |order|
      invariant |buckets| == j
      invariant forall m :: 0 <= m < j ==> buckets[m] == acc[order[m]]
    {
      buckets := buckets + [acc[order[j]]];
      j := j + 1;
    }
  }

  class AnalyticsDashboard {
    const store: Store
    var stats: Stats
    var monthlyData: seq<Bucket>

    /** The dashboard before its two fetches: all totals 0 and an empty chart. */
    constructor (store: Store)
      ensures this.store == store
      ensures stats == Stats(0, 0, 0, 0) && monthlyData == []
    {
      this.store := store;
      stats := Stats(0, 0, 0, 0);
      monthlyData := [];
    }

    /** fetchStats: an error from any of the three queries leaves the totals as they were. */
    method FetchStats(faults: StatsFaults)
      modifies this`stats
      ensures stats == if faults.users || faults.jobs || faults.projects then old(stats)
                       else ComputeStats(store.profiles, store.jobs, store.projects)
    {
      if faults.users || faults.jobs || faults.projects {
        return;
      }
      stats := ComputeStats(store.profiles, store.jobs, store.projects);
    }

    /** fetchMonthlyData: the projects in creation order, grouped by month; an error
        leaves the chart as it was. */
    method FetchMonthlyData(fails: bool)
      modifies this`monthlyData
      ensures monthlyData == if fails then old(monthlyData) else MonthlyData(store.projects)
    {
      if !fails {
        monthlyData := MonthlyBuckets(store.projects);
      }
    }
  }
}
