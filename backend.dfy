/** The hosted backend reduced to what the screens rely on: one in-memory table
    per relation, kept in creation order, and the single-table writes the
    screens issue. Every write takes the backend's answer as a parameter
    (`fails`): a failed write changes nothing and is reported back, and the
    handler that issued it skips its remaining steps. */
module Backend {
  import opened Common
  import opened Schema

  // ---------------------------------------------------------------------------
  // Row updates: `.update({...}).eq(column, value)` on one table
  // ---------------------------------------------------------------------------

  /** `bids.update({ status }).eq("id", id)`. */
  function SetBidStatus(bids: seq<Bid>, id: Id, status: string): (r: seq<Bid>)
    ensures |r| == |bids|
    ensures forall i :: 0 <= i < |bids| ==>
      r[i].status == (if bids[i].id == id then status else bids[i].status) && r[i] == bids[i].(status := r[i].status)
  {
    UpdateWhere(bids, (b: Bid) => b.id == id, (b: Bid) => b.(status := status))
  }

  /** `jobs.update({ status }).eq("id", id)`. */
  function SetJobStatus(jobs: seq<Job>, id: Id, status: string): (r: seq<Job>)
    ensures |r| == |jobs|
    ensures forall i :: 0 <= i < |jobs| ==>
      r[i].status == (if jobs[i].id == id then status else jobs[i].status) && r[i] == jobs[i].(status := r[i].status)
  {
    UpdateWhere(jobs, (j: Job) => j.id == id, (j: Job) => j.(status := status))
  }

  /** `projects.update({ status }).eq("id", id)`. */
  function SetProjectStatus(projects: seq<Project>, id: Id, status: string): (r: seq<Project>)
    ensures |r| == |projects|
    ensures forall i :: 0 <= i < |projects| ==>
      r[i].status == (if projects[i].id == id then status else projects[i].status)
      && r[i] == projects[i].(status := r[i].status)
  {
    UpdateWhere(projects, (p: Project) => p.id == id, (p: Project) => p.(status := status))
  }

  /** `projects.update({ progress }).eq("id", id)`. */
  function SetProjectProgress(projects: seq<Project>, id: Id, progress: int): (r: seq<Project>)
    ensures |r| == |projects|
    ensures forall i :: 0 <= i < |projects| ==>
      r[i].progress == (if projects[i].id == id then progress else projects[i].progress)
      && r[i] == projects[i].(progress := r[i].progress)
  {
    UpdateWhere(projects, (p: Project) => p.id == id, (p: Project) => p.(progress := progress))
  }

  /** `milestones.update({ status }).eq("id", id)`. */
  function SetMilestoneStatus(milestones: seq<Milestone>, id: Id, status: string): (r: seq<Milestone>)
    ensures |r| == |milestones|
    ensures forall i :: 0 <= i < |milestones| ==>
      r[i].status == (if milestones[i].id == id then status else milestones[i].status)
      && r[i] == milestones[i].(status := r[i].status)
  {
    UpdateWhere(milestones, (m: Milestone) => m.id == id, (m: Milestone) => m.(status := status))
  }

  /** `disputes.update({ status: "resolved", resolution }).eq("id", id)`. */
  function ResolveDisputeRows(disputes: seq<Dispute>, id: Id, resolution: string): (r: seq<Dispute>)
    ensures |r| == |disputes|
    ensures forall i :: 0 <= i < |disputes| && disputes[i].id == id ==>
      r[i] == disputes[i].(status := Resolved, resolution := Some(resolution))
    ensures forall i :: 0 <= i < |disputes| && disputes[i].id != id ==> r[i] == disputes[i]
  {
    UpdateWhere(disputes, (d: Dispute) => d.id == id,
      (d: Dispute) => d.(status := Resolved, resolution := Some(resolution)))
  }

  /** `notifications.update({ read: true }).eq("id", id)`. */
  function MarkNotificationRows(rows: seq<Notification>, id: Id): (r: seq<Notification>)
    ensures |r| == |rows|
    ensures forall i :: 0 <= i < |rows| ==>
      r[i].read == (rows[i].read || rows[i].id == id) && r[i] == rows[i].(read := r[i].read)
  {
    UpdateWhere(rows, (n: Notification) => n.id == id, (n: Notification) => n.(read := true))
  }

  /** `notifications.update({ read: true }).eq("user_id", user).eq("read", false)`. */
  function MarkUserNotificationRows(rows: seq<Notification>, user: Id): (r: seq<Notification>)
    ensures |r| == |rows|
    ensures forall i :: 0 <= i < |rows| ==>
      r[i].read == (rows[i].read || rows[i].userId == user) && r[i] == rows[i].(read := r[i].read)
  {
    UpdateWhere(rows, (n: Notification) => n.userId == user && !n.read, (n: Notification) => n.(read := true))
  }

  /** The account-status write of the user-management page, on the account with that id. */
  function SetAccountStatus(accounts: seq<Account>, id: Id, status: string): (r: seq<Account>)
    ensures |r| == |accounts|
    ensures forall i :: 0 <= i < |accounts| ==>
      r[i].status == (if accounts[i].id == id then status else accounts[i].status)
      && r[i] == accounts[i].(status := r[i].status)
  {
    UpdateWhere(accounts, (a: Account) => a.id == id, (a: Account) => a.(status := status))
  }

  /** The selector `.eq("id", id)` on bids. */
  function BidHasId(id: Id): Bid -> bool
  {
    (b: Bid) => b.id == id
  }

  /** A status write keeps every bid's id, so it keeps the number of bids with any given id. */
  lemma SetBidStatusKeepsIds(bids: seq<Bid>, id: Id, status: string, other: Id)
    ensures Count(SetBidStatus(bids, id, status), BidHasId(other)) == Count(bids, BidHasId(other))
  {
    CountPointwise(SetBidStatus(bids, id, status), bids, BidHasId(other));
  }

  /** `.select("*").eq("id", id).single()`: the row when exactly one row has that
      id, and no data otherwise (none, or several). */
  function SingleBid(bids: seq<Bid>, id: Id): (r: Option<Bid>)
    ensures r.Some? ==> r.value in bids && r.value.id == id
    ensures r.Some? <==> Count(bids, BidHasId(id)) == 1
  {
    var hits := Filter(bids, BidHasId(id));
    if |hits| == 1 then Some(hits[0]) else None
  }

  // ---------------------------------------------------------------------------
  // The store
  // ---------------------------------------------------------------------------

  /** The backend's tables. Each write touches one table and nothing else. */
  class Store {
    var profiles: seq<Profile>
    var jobs: seq<Job>
    var bids: seq<Bid>
    var projects: seq<Project>
    var messages: seq<Message>
    var milestones: seq<Milestone>
    var disputes: seq<Dispute>
    var reviews: seq<Review>
    var notifications: seq<Notification>
    var accounts: seq<Account>
    /** Object-storage paths of uploaded files, in upload order. */
    var files: seq<string>

    constructor ()
      ensures profiles == [] && jobs == [] && bids == [] && projects == [] && messages == []
      ensures milestones == [] && disputes == [] && reviews == [] && notifications == []
      ensures accounts == [] && files == []
    {
      profiles, jobs, bids, projects, messages := [], [], [], [], [];
      milestones, disputes, reviews, notifications := [], [], [], [];
      accounts, files := [], [];
    }

    method InsertProfile(row: Profile, fails: bool) returns (ok: bool)
      modifies this`profiles
      ensures ok == !fails
      ensures profiles == if ok then old(profiles) + [row] else old(profiles)
    {
      ok := !fails;
      if ok { profiles := profiles + [row]; }
    }

    method InsertJob(row: Job, fails: bool) returns (ok: bool)
      modifies this`jobs
      ensures ok == !fails
      ensures jobs == if ok then old(jobs) + [row] else old(jobs)
    {
      ok := !fails;
      if ok { jobs := jobs + [row]; }
    }

    method InsertBid(row: Bid, fails: bool) returns (ok: bool)
      modifies this`bids
      ensures ok == !fails
      ensures bids == if ok then old(bids) + [row] else old(bids)
    {
      ok := !fails;
      if ok { bids := bids + [row]; }
    }

    method InsertProject(row: Project, fails: bool) returns (ok: bool)
      modifies this`projects
      ensures ok == !fails
      ensures projects == if ok then old(projects) + [row] else old(projects)
    {
      ok := !fails;
      if ok { projects := projects + [row]; }
    }

    method InsertMessage(row: Message, fails: bool) returns (ok: bool)
      modifies this`messages
      ensures ok == !fails
      ensures messages == if ok then old(messages) + [row] else old(messages)
    {
      ok := !fails;
      if ok { messages := messages + [row]; }
    }

    method InsertMilestone(row: Milestone, fails: bool) returns (ok: bool)
      modifies this`milestones
      ensures ok == !fails
      ensures milestones == if ok then old(milestones) + [row] else old(milestones)
    {
      ok := !fails;
      if ok { milestones := milestones + [row]; }
    }

    method InsertDispute(row: Dispute, fails: bool) returns (ok: bool)
      modifies this`disputes
      ensures ok == !fails
      ensures disputes == if ok then old(disputes) + [row] else old(disputes)
    {
      ok := !fails;
      if ok { disputes := disputes + [row]; }
    }

    method InsertReview(row: Review, fails: bool) returns (ok: bool)
      modifies this`reviews
      ensures ok == !fails
      ensures reviews == if ok then old(reviews) + [row] else old(reviews)
    {
      ok := !fails;
      if ok { reviews := reviews + [row]; }
    }

    method UpdateBidStatus(id: Id, status: string, fails: bool) returns (ok: bool)
      modifies this`bids
      ensures ok == !fails
      ensures bids == if ok then SetBidStatus(old(bids), id, status) else old(bids)
    {
      ok := !fails;
      if ok { bids := SetBidStatus(bids, id, status); }
    }

    method UpdateJobStatus(id: Id, status: string, fails: bool) returns (ok: bool)
      modifies this`jobs
      ensures ok == !fails
      ensures jobs == if ok then SetJobStatus(old(jobs), id, status) else old(jobs)
    {
      ok := !fails;
      if ok { jobs := SetJobStatus(jobs, id, status); }
    }

    method UpdateProjectStatus(id: Id, status: string, fails: bool) returns (ok: bool)
      modifies this`projects
      ensures ok == !fails
      ensures projects == if ok then SetProjectStatus(old(projects), id, status) else old(projects)
    {
      ok := !fails;
      if ok { projects := SetProjectStatus(projects, id, status); }
    }

    method UpdateProjectProgress(id: Id, progress: int, fails: bool) returns (ok: bool)
      modifies this`projects
      ensures ok == !fails
      ensures projects == if ok then SetProjectProgress(old(projects), id, progress) else old(projects)
    {
      ok := !fails;
      if ok { projects := SetProjectProgress(projects, id, progress); }
    }

    method UpdateMilestoneStatus(id: Id, status: string, fails: bool) returns (ok: bool)
      modifies this`milestones
      ensures ok == !fails
      ensures milestones == if ok then SetMilestoneStatus(old(milestones), id, status) else old(milestones)
    {
      ok := !fails;
      if ok { milestones := SetMilestoneStatus(milestones, id, status); }
    }

    method ResolveDispute(id: Id, resolution: string, fails: bool) returns (ok: bool)
      modifies this`disputes
      ensures ok == !fails
      ensures disputes == if ok then ResolveDisputeRows(old(disputes), id, resolution) else old(disputes)
    {
      ok := !fails;
      if ok { disputes := ResolveDisputeRows(disputes, id, resolution); }
    }

    method MarkNotificationRead(id: Id, fails: bool) returns (ok: bool)
      modifies this`notifications
      ensures ok == !fails
      ensures notifications == if ok then MarkNotificationRows(old(notifications), id) else old(notifications)
    {
      ok := !fails;
      if ok { notifications := MarkNotificationRows(notifications, id); }
    }

    method MarkUserNotificationsRead(user: Id, fails: bool) returns (ok: bool)
      modifies this`notifications
      ensures ok == !fails
      ensures notifications == if ok then MarkUserNotificationRows(old(notifications), user) else old(notifications)
    {
      ok := !fails;
      if ok { notifications := MarkUserNotificationRows(notifications, user); }
    }

    method UpdateAccountStatus(id: Id, status: string, fails: bool) returns (ok: bool)
      modifies this`accounts
      ensures ok == !fails
      ensures accounts == if ok then SetAccountStatus(old(accounts), id, status) else old(accounts)
    {
      ok := !fails;
      if ok { accounts := SetAccountStatus(accounts, id, status); }
    }

    method Upload(path: string, fails: bool) returns (ok: bool)
      modifies this`files
      ensures ok == !fails
      ensures files == if ok then old(files) + [path] else old(files)
    {
      ok := !fails;
      if ok { files := files + [path]; }
    }
  }
}
