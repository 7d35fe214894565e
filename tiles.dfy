/** The four summary tiles of the freelancer, employer and admin dashboards
    (app/dashboard/freelancer/page.tsx, app/dashboard/employer/page.tsx,
    app/dashboard/admin/page.tsx). Each tile is one query; a query that fails yields
    null, which the page shows as 0. */
module Tiles {
  import opened Common
  import opened Schema
  import opened Backend
  import FreelancerJobs

  /** The platform's share of a completed project's amount. */
  const FeeRate: real := 0.1

  /** Which side of a project a party dashboard looks at. */
  datatype Side = FreelancerSide | EmployerSide

  function Party(side: Side, p: Project): Id
  {
    match side
    case FreelancerSide => p.freelancerId
    case EmployerSide => p.employerId
  }

  /** The user's projects on that side with this status. */
  function OwnWithStatus(side: Side, me: Id, status: string): Project -> bool
  {
    (p: Project) => Party(side, p) == me && p.status == status
  }

  /** The "active projects" tile: the user's in-progress projects. */
  function ActiveCount(projects: seq<Project>, side: Side, me: Id): (n: nat)
    ensures n <= |projects|
  {
    Count(projects, OwnWithStatus(side, me, InProgress))
  }

  /** The money tile (a freelancer's earnings, an employer's spending): the `reduce` sum
      of the amounts of the user's completed projects, which is the sum over all projects
      of each one's amount where it is the user's and completed, and 0 elsewhere. */
  function Money(projects: seq<Project>, side: Side, me: Id): (r: int)
    ensures r == Sum(projects, Masked(OwnWithStatus(side, me, Completed), Amount))
  {
    SumFilter(projects, OwnWithStatus(side, me, Completed), Amount);
    Sum(Filter(projects, OwnWithStatus(side, me, Completed)), Amount)
  }

  /** With no negative amounts the money tile is never negative. */
  lemma MoneyNonNegative(projects: seq<Project>, side: Side, me: Id)
    requires forall i :: 0 <= i < |projects| ==> projects[i].amount >= 0
    ensures Money(projects, side, me) >= 0
  {
    SumNonNegative(Filter(projects, OwnWithStatus(side, me, Completed)), Amount);
  }

  /** Completing one of the user's in-progress projects (a project id names one row) moves
      its amount into the money tile and takes it off the active tile, on that user's
      dashboard. */
  lemma CompletionMovesAmount(projects: seq<Project>, i: int, side: Side, me: Id)
    requires 0 <= i < |projects| && projects[i].status == InProgress && Party(side, projects[i]) == me
    requires forall j :: 0 <= j < |projects| && j != i ==> projects[j].id != projects[i].id
    ensures var after := SetProjectStatus(projects, projects[i].id, Completed);
      && Money(after, side, me) == Money(projects, side, me) + projects[i].amount
      && ActiveCount(after, side, me) == ActiveCount(projects, side, me) - 1
  {
    var after := SetProjectStatus(projects, projects[i].id, Completed);
    CompletionChangesOneRow(projects, i);
    CompletionMovesMoney(projects, after, i, side, me);
    CompletionEndsActive(projects, after, i, side, me);
  }

  lemma CompletionChangesOneRow(projects: seq<Project>, i: int)
    requires 0 <= i < |projects|
    requires forall j :: 0 <= j < |projects| && j != i ==> projects[j].id != projects[i].id
    ensures var after := SetProjectStatus(projects, projects[i].id, Completed);
      && |after| == |projects|
      && (forall j :: 0 <= j < |projects| && j != i ==> after[j] == projects[j])
      && after[i] == projects[i].(status := Completed)
  {
  }

  lemma {:induction false} CompletionMovesMoney(projects: seq<Project>, after: seq<Project>, i: int, side: Side, me: Id)
    requires 0 <= i < |projects| && |after| == |projects|
    requires projects[i].status == InProgress && Party(side, projects[i]) == me
    requires forall j :: 0 <= j < |projects| && j != i ==> after[j] == projects[j]
    requires after[i] == projects[i].(status := Completed)
    ensures Money(after, side, me) == Money(projects, side, me) + projects[i].amount
  {
    var f := Masked(OwnWithStatus(side, me, Completed), Amount);
    assert f(projects[i]) == 0 && f(after[i]) == projects[i].amount;
    SumChangeOne(projects, after, f, i);
  }

  lemma {:induction false} CompletionEndsActive(projects: seq<Project>, after: seq<Project>, i: int, side: Side, me: Id)
    requires 0 <= i < |projects| && |after| == |projects|
    requires projects[i].status == InProgress && Party(side, projects[i]) == me
    requires forall j :: 0 <= j < |projects| && j != i ==> after[j] == projects[j]
    requires after[i] == projects[i].(status := Completed)
    ensures ActiveCount(after, side, me) == ActiveCount(projects, side, me) - 1
  {
    CountChangeOne(projects, after, OwnWithStatus(side, me, InProgress), i);
  }

  /** Which of the queries the page can evaluate failed (`true` = failed). */
  datatype TileFaults = TileFaults(first: bool, second: bool, fourth: bool)

  /** A party dashboard's tiles: jobs (open jobs, or the employer's open jobs), active
      projects, unread messages, money. */
  datatype PartyStats = PartyStats(jobs: int, activeProjects: int, unreadMessages: int, money: int)

  /** Open jobs of this employer. */
  function OwnOpen(me: Id): Job -> bool
  {
    (j: Job) => j.employerId == me && j.status == Open
  }

  /** The freelancer dashboard's fetchStats; `unread` is the answer of the unread-messages
      count, None when it fails. Nothing is fetched without a signed-in user. */
  function FreelancerTiles(user: Option<Id>, jobs: seq<Job>, projects: seq<Project>,
                           unread: Option<int>, faults: TileFaults): (r: Option<PartyStats>)
    ensures r.Some? <==> user.Some?
    ensures r.Some? ==> r.value.jobs == if faults.first then 0 else |FreelancerJobs.OpenJobs(jobs)|
    ensures r.Some? ==> r.value.activeProjects == if faults.second then 0 else ActiveCount(projects, FreelancerSide, user.value)
    ensures r.Some? ==> r.value.unreadMessages == unread.GetOr(0)
    ensures r.Some? ==> r.value.money == if faults.fourth then 0 else Money(projects, FreelancerSide, user.value)
  {
    if user.None? then None
    else
      var me := user.value;
      Some(PartyStats(
        if faults.first then 0 else Count(jobs, FreelancerJobs.IsOpen),
        if faults.second then 0 else ActiveCount(projects, FreelancerSide, me),
        unread.GetOr(0),
        if faults.fourth then 0 else Money(projects, FreelancerSide, me)))
  }

  /** The employer dashboard's fetchStats, the same four queries on the employer's side. */
  function EmployerTiles(user: Option<Id>, jobs: seq<Job>, projects: seq<Project>,
                         unread: Option<int>, faults: TileFaults): (r: Option<PartyStats>)
    ensures r.Some? <==> user.Some?
    ensures r.Some? ==> r.value.jobs == if faults.first then 0 else Count(jobs, OwnOpen(user.value))
    ensures r.Some? ==> r.value.activeProjects == if faults.second then 0 else ActiveCount(projects, EmployerSide, user.value)
    ensures r.Some? ==> r.value.unreadMessages == unread.GetOr(0)
    ensures r.Some? ==> r.value.money == if faults.fourth then 0 else Money(projects, EmployerSide, user.value)
  {
    if user.None? then None
    else
      var me := user.value;
      Some(PartyStats(
        if faults.first then 0 else Count(jobs, OwnOpen(me)),
        if faults.second then 0 else ActiveCount(projects, EmployerSide, me),
        unread.GetOr(0),
        if faults.fourth then 0 else Money(projects, EmployerSide, me)))
  }

  /** Accepting a bid on one of the employer's open jobs (a job id names one row) takes
      that job off the employer's "active jobs" tile. */
  lemma {:induction false} AcceptLowersActiveJobs(jobs: seq<Job>, i: int, me: Id)
    requires 0 <= i < |jobs| && OwnOpen(me)(jobs[i])
    requires forall j :: 0 <= j < |jobs| && j != i ==> jobs[j].id != jobs[i].id
    ensures Count(SetJobStatus(jobs, jobs[i].id, InProgress), OwnOpen(me)) == Count(jobs, OwnOpen(me)) - 1
  {
    var after := SetJobStatus(jobs, jobs[i].id, InProgress);
    assert forall j :: 0 <= j < |jobs| && j != i ==> after[j] == jobs[j];
    CountChangeOne(jobs, after, OwnOpen(me), i);
  }

  /** The platform fee total, `reduce((sum, p) => sum + p.amount * 0.1, 0)` over the
      completed projects, in exact arithmetic. */
  function Fees(completed: seq<Project>): (r: real)
    ensures (forall i :: 0 <= i < |completed| ==> completed[i].amount >= 0) ==> r >= 0.0
  {
    if completed == [] then 0.0 else Fees(completed[..|completed| - 1]) + completed[|completed| - 1].amount as real * FeeRate
  }

  /** The fee total is a tenth of the completed amounts' total. */
  lemma {:induction false} FeesAreTenth(completed: seq<Project>)
    ensures Fees(completed) == Sum(completed, Amount) as real * FeeRate
  {
    if completed != [] {
      FeesAreTenth(completed[..|completed| - 1]);
    }
  }

  predicate IsCompleted(p: Project)
  {
    p.status == Completed
  }

  predicate IsPendingDispute(d: Dispute)
  {
    d.status == Pending
  }

  /** Which of the admin dashboard's four queries failed. */
  datatype AdminFaults = AdminFaults(users: bool, jobs: bool, disputes: bool, revenue: bool)

  datatype AdminStats = AdminStats(totalUsers: int, totalJobs: int, activeDisputes: int, totalRevenue: real)

  /** The admin dashboard's fetchStats. */
  function AdminTiles(profiles: seq<Profile>, jobs: seq<Job>, disputes: seq<Dispute>, projects: seq<Project>,
                      faults: AdminFaults): (r: AdminStats)
    ensures r.totalUsers == if faults.users then 0 else |profiles|
    ensures r.totalJobs == if faults.jobs then 0 else |jobs|
    ensures r.activeDisputes == if faults.disputes then 0 else Count(disputes, IsPendingDispute)
    ensures 0 <= r.activeDisputes <= |disputes|
    ensures r.totalRevenue == if faults.revenue then 0.0 else Sum(Filter(projects, IsCompleted), Amount) as real * FeeRate
  {
    FeesAreTenth(Filter(projects, IsCompleted));
    AdminStats(
      if faults.users then 0 else |profiles|,
      if faults.jobs then 0 else |jobs|,
      if faults.disputes then 0 else Count(disputes, IsPendingDispute),
      if faults.revenue then 0.0 else Fees(Filter(projects, IsCompleted)))
  }

  /** Resolving a pending dispute (a dispute id names one row) takes it off the admin's
      "active disputes" tile. */
  lemma {:induction false} ResolveLowersActiveDisputes(disputes: seq<Dispute>, i: int, resolution: string)
    requires 0 <= i < |disputes| && disputes[i].status == Pending
    requires forall j :: 0 <= j < |disputes| && j != i ==> disputes[j].id != disputes[i].id
    ensures Count(ResolveDisputeRows(disputes, disputes[i].id, resolution), IsPendingDispute)
            == Count(disputes, IsPendingDispute) - 1
  {
    var after := ResolveDisputeRows(disputes, disputes[i].id, resolution);
    CountChangeOne(disputes, after, IsPendingDispute, i);
  }
}
