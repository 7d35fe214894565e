/** The employer's "My Jobs" screen (app/dashboard/employer/jobs/page.tsx): the
    employer's own jobs, the bids on a chosen job, and the three-write "Accept
    Bid" workflow (bid -> accepted, job -> in_progress, new in_progress project
    priced at the bid) that runs with no transaction and no rollback. */
module EmployerJobs {
  import opened Common
  import opened Schema
  import opened Backend

  /** The progress the backend gives a project whose insert does not set one. */
  const DefaultProgress: int := 0

  /** The "Accept Bid" button is shown for this bid on this job. */
  predicate AcceptOffered(bid: Bid, job: Job)
  {
    bid.status == Pending && job.status == Open
  }

  /** fetchJobs: the current employer's jobs, newest first. */
  function OwnJobs(jobs: seq<Job>, me: Id): (r: seq<Job>)
    ensures forall i :: 0 <= i < |r| ==> r[i] in jobs && r[i].employerId == me
    ensures forall i :: 0 <= i < |jobs| && jobs[i].employerId == me ==> jobs[i] in r
    ensures IsSubsequence(Reverse(r), jobs)
  {
    NewestFirst(jobs, (j: Job) => j.employerId == me)
  }

  /** fetchBids: the bids on one job, newest first. */
  function BidsForJob(bids: seq<Bid>, jobId: Id): (r: seq<Bid>)
    ensures forall i :: 0 <= i < |r| ==> r[i] in bids && r[i].jobId == jobId
    ensures forall i :: 0 <= i < |bids| && bids[i].jobId == jobId ==> bids[i] in r
    ensures IsSubsequence(Reverse(r), bids)
  {
    NewestFirst(bids, (b: Bid) => b.jobId == jobId)
  }

  /** The backend's answer to each step of handleAcceptBid: `true` = that call fails
      (for the re-read of the bid: returns no data). */
  datatype AcceptFaults = AcceptFaults(bidUpdate: bool, jobUpdate: bool, bidRead: bool, projectInsert: bool)

  /** The three tables handleAcceptBid writes, after it, and whether it reported success. */
  datatype AcceptResult = AcceptResult(bids: seq<Bid>, jobs: seq<Job>, projects: seq<Project>, ok: bool)

  /** The project row inserted for an accepted bid. */
  function NewProject(bid: Bid, jobId: Id, me: Id, id: Id, created: Stamp): (r: Project)
    ensures r.id == id && r.jobId == jobId && r.employerId == me && r.created == created
    ensures r.freelancerId == bid.freelancerId && r.amount == bid.price
    ensures r.status == InProgress && r.progress == DefaultProgress
  {
    Project(id, jobId, me, bid.freelancerId, bid.price, DefaultProgress, InProgress, created)
  }

  /** handleAcceptBid on the tables as values: each step runs only if the previous
      one succeeded, and nothing already written is undone. */
  function AcceptBid(bids: seq<Bid>, jobs: seq<Job>, projects: seq<Project>, me: Id,
                     bidId: Id, jobId: Id, faults: AcceptFaults, projectId: Id, created: Stamp): (r: AcceptResult)
    ensures |r.bids| == |bids| && |r.jobs| == |jobs|
    ensures r.projects == projects
      || (exists b :: b in r.bids && b.id == bidId && b.status == Accepted
                      && r.projects == projects + [NewProject(b, jobId, me, projectId, created)])
  {
    if faults.bidUpdate then AcceptResult(bids, jobs, projects, false)
    else
      var bids' := SetBidStatus(bids, bidId, Accepted);
      if faults.jobUpdate then AcceptResult(bids', jobs, projects, false)
      else
        var jobs' := SetJobStatus(jobs, jobId, InProgress);
        var bidData := if faults.bidRead then None else SingleBid(bids', bidId);
        if bidData.None? then AcceptResult(bids', jobs', projects, true)
        else if faults.projectInsert then AcceptResult(bids', jobs', projects, false)
        else AcceptResult(bids', jobs', projects + [NewProject(bidData.value, jobId, me, projectId, created)], true)
  }

  /** Accepting rewrites only the status of the bid with that id (to `accepted`) and only
      the status of the job with that id (to `in_progress`); every other bid, including the
      other bids on the same job, and every other job is untouched. */
  lemma AcceptBidTouchesOnlyTargets(bids: seq<Bid>, jobs: seq<Job>, projects: seq<Project>, me: Id,
                                    bidId: Id, jobId: Id, faults: AcceptFaults, projectId: Id, created: Stamp)
    ensures var r := AcceptBid(bids, jobs, projects, me, bidId, jobId, faults, projectId, created);
      && |r.bids| == |bids| && |r.jobs| == |jobs|
      && (forall i :: 0 <= i < |bids| && bids[i].id != bidId ==> r.bids[i] == bids[i])
      && (forall i :: 0 <= i < |bids| && bids[i].id == bidId ==>
            r.bids[i] == bids[i].(status := if faults.bidUpdate then bids[i].status else Accepted))
      && (forall i :: 0 <= i < |jobs| && jobs[i].id != jobId ==> r.jobs[i] == jobs[i])
      && (forall i :: 0 <= i < |jobs| && jobs[i].id == jobId ==>
            r.jobs[i] == jobs[i].(status := if faults.bidUpdate || faults.jobUpdate then jobs[i].status else InProgress))
  {
  }

  /** The partial-failure behaviour: a failed bid update changes nothing; a failed job
      update leaves the bid accepted with the job unchanged and no project (no rollback);
      a re-read that yields no row skips the project insert yet still reports success. */
  lemma AcceptBidPartialFailure(bids: seq<Bid>, jobs: seq<Job>, projects: seq<Project>, me: Id,
                                bidId: Id, jobId: Id, faults: AcceptFaults, projectId: Id, created: Stamp)
    ensures var r := AcceptBid(bids, jobs, projects, me, bidId, jobId, faults, projectId, created);
      && (faults.bidUpdate ==> r.bids == bids && r.jobs == jobs && r.projects == projects && !r.ok)
      && (!faults.bidUpdate && faults.jobUpdate ==>
            r.bids == SetBidStatus(bids, bidId, Accepted) && r.jobs == jobs && r.projects == projects && !r.ok)
      && (!faults.bidUpdate && !faults.jobUpdate && (faults.bidRead || Count(bids, BidHasId(bidId)) != 1) ==>
            r.projects == projects && r.ok)
      && (r.ok <==> !faults.bidUpdate && !faults.jobUpdate
                    && (faults.bidRead || Count(bids, BidHasId(bidId)) != 1 || !faults.projectInsert))
  {
    SetBidStatusKeepsIds(bids, bidId, Accepted, bidId);
  }

  /** When every step succeeds and exactly one bid has that id, exactly one project is
      appended: the job, the current employer, the bid's freelancer, the bid's price,
      status `in_progress`. */
  lemma AcceptBidCreatesProject(bids: seq<Bid>, jobs: seq<Job>, projects: seq<Project>, me: Id,
                                bid: Bid, jobId: Id, faults: AcceptFaults, projectId: Id, created: Stamp)
    requires bid in bids && Count(bids, BidHasId(bid.id)) == 1
    requires !faults.bidUpdate && !faults.jobUpdate && !faults.bidRead && !faults.projectInsert
    ensures var r := AcceptBid(bids, jobs, projects, me, bid.id, jobId, faults, projectId, created);
      && r.ok
      && r.projects == projects + [Project(projectId, jobId, me, bid.freelancerId, bid.price, DefaultProgress, InProgress, created)]
  {
    var bids' := SetBidStatus(bids, bid.id, Accepted);
    SetBidStatusKeepsIds(bids, bid.id, Accepted, bid.id);
    var i :| 0 <= i < |bids| && bids[i] == bid;
    var accepted := bid.(status := Accepted);
    assert bids'[i] == accepted;
    OnlyHit(bids', BidHasId(bid.id), accepted);
    assert SingleBid(bids', bid.id) == Some(accepted);
    assert NewProject(accepted, jobId, me, projectId, created)
        == Project(projectId, jobId, me, bid.freelancerId, bid.price, DefaultProgress, InProgress, created);
  }

  /** Once an accept has passed its job update, the gate offers no bid on that job any
      more, and never offers the accepted bid again. */
  lemma AcceptClosesGate(bids: seq<Bid>, jobs: seq<Job>, projects: seq<Project>, me: Id,
                         bidId: Id, jobId: Id, faults: AcceptFaults, projectId: Id, created: Stamp)
    requires !faults.bidUpdate && !faults.jobUpdate
    ensures var r := AcceptBid(bids, jobs, projects, me, bidId, jobId, faults, projectId, created);
      && (forall i, b :: 0 <= i < |r.jobs| && r.jobs[i].id == jobId ==> !AcceptOffered(b, r.jobs[i]))
      && (forall i, j :: 0 <= i < |r.bids| && r.bids[i].id == bidId ==> !AcceptOffered(r.bids[i], j))
  {
  }

  /** The employer's jobs screen: its fetched lists and the accept workflow. */
  class EmployerJobsScreen {
    const store: Store
    const me: Id
    var jobs: seq<Job>
    var selectedJob: Option<Job>
    var bids: seq<Bid>

    constructor (store: Store, me: Id)
      ensures this.store == store && this.me == me
      ensures jobs == [] && selectedJob == None && bids == []
    {
      this.store := store;
      this.me := me;
      jobs, selectedJob, bids := [], None, [];
    }

    /** fetchJobs: on success the list becomes the employer's jobs, newest first. */
    method FetchJobs(fails: bool)
      modifies this`jobs
      ensures jobs == if fails then old(jobs) else OwnJobs(store.jobs, me)
    {
      if !fails {
        jobs := OwnJobs(store.jobs, me);
      }
    }

    /** "View Bids": select the job and fetch its bids. */
    method ViewBids(job: Job, fails: bool)
      modifies this`selectedJob, this`bids
      ensures selectedJob == Some(job)
      ensures bids == if fails then old(bids) else BidsForJob(store.bids, job.id)
    {
      selectedJob := Some(job);
      if !fails {
        bids := BidsForJob(store.bids, job.id);
      }
    }

    /** handleAcceptBid: three writes in order, each skipped once one fails; the
        lists are re-fetched only after the whole sequence succeeded. */
    method HandleAcceptBid(bidId: Id, jobId: Id, faults: AcceptFaults, projectId: Id, created: Stamp)
      returns (ok: bool)
      modifies store`bids, store`jobs, store`projects, this`jobs, this`bids
      ensures var r := AcceptBid(old(store.bids), old(store.jobs), old(store.projects), me,
                                 bidId, jobId, faults, projectId, created);
        store.bids == r.bids && store.jobs == r.jobs && store.projects == r.projects && ok == r.ok
      ensures ok ==> jobs == OwnJobs(store.jobs, me) && bids == BidsForJob(store.bids, jobId)
      ensures !ok ==> jobs == old(jobs) && bids == old(bids)
    {
      ok := AcceptWrites(bidId, jobId, faults, projectId, created);
      if ok {
        FetchJobs(false);
        bids := BidsForJob(store.bids, jobId);
      }
    }

    /** The writes of handleAcceptBid, in order, stopping at the first that fails. */
    method AcceptWrites(bidId: Id, jobId: Id, faults: AcceptFaults, projectId: Id, created: Stamp)
      returns (ok: bool)
      modifies store`bids, store`jobs, store`projects
      ensures var r := AcceptBid(old(store.bids), old(store.jobs), old(store.projects), me,
                                 bidId, jobId, faults, projectId, created);
        store.bids == r.bids && store.jobs == r.jobs && store.projects == r.projects && ok == r.ok
    {
      ghost var r := AcceptBid(store.bids, store.jobs, store.projects, me, bidId, jobId, faults, projectId, created);
      ok := store.UpdateBidStatus(bidId, Accepted, faults.bidUpdate);
      if !ok { return; }
      ok := store.UpdateJobStatus(jobId, InProgress, faults.jobUpdate);
      if !ok {
        assert store.bids == r.bids && store.jobs == r.jobs;
        return;
      }
      assert store.bids == r.bids && store.jobs == r.jobs;
      var bidData := if faults.bidRead then None else SingleBid(store.bids, bidId);
      if bidData.Some? {
        ok := store.InsertProject(NewProject(bidData.value, jobId, me, projectId, created), faults.projectInsert);
      }
    }
  }
}
