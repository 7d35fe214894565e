/** The freelancer's "Available Jobs" screen (app/dashboard/freelancer/jobs/page.tsx):
    the open jobs, newest first, and the bid form of the job the freelancer chose. */
module FreelancerJobs {
  import opened Common
  import opened Schema
  import opened Backend
  import EmployerJobs

  predicate IsOpen(j: Job)
  {
    j.status == Open
  }

  /** fetchJobs: every job whose status is `open`, newest first. */
  function OpenJobs(jobs: seq<Job>): (r: seq<Job>)
    ensures forall i :: 0 <= i < |r| ==> r[i] in jobs && r[i].status == Open
    ensures forall i :: 0 <= i < |jobs| && jobs[i].status == Open ==> jobs[i] in r
    ensures IsSubsequence(Reverse(r), jobs)
  {
    NewestFirst(jobs, IsOpen)
  }

  /** The submit guard: a job is chosen and both fields are non-empty. */
  predicate BidReady(selected: Option<Job>, amount: string, proposal: string)
  {
    selected.Some? && amount != "" && proposal != ""
  }

  /** The bid row handleBidSubmit inserts: the chosen job, the current freelancer,
      the parsed amount, the proposal text, status `pending`. */
  function NewBid(id: Id, job: Job, me: Id, price: int, proposal: string): (r: Bid)
    ensures r.id == id && r.jobId == job.id && r.freelancerId == me && r.status == Pending
    ensures r.price == price && r.proposal == proposal
    ensures EmployerJobs.AcceptOffered(r, job) <==> job.status == Open
  {
    Bid(id, job.id, me, price, proposal, Pending)
  }

  /** A bid just placed on an open job heads that job's bid list on the employer's
      screen, and the employer is offered "Accept Bid" for it. */
  lemma {:induction false} PlacedBidHeadsEmployerList(bids: seq<Bid>, job: Job, me: Id, id: Id, price: int, proposal: string)
    requires job.status == Open
    ensures var b := NewBid(id, job, me, price, proposal);
      && EmployerJobs.BidsForJob(bids + [b], job.id) == [b] + EmployerJobs.BidsForJob(bids, job.id)
      && EmployerJobs.AcceptOffered(b, job)
  {
    var b := NewBid(id, job, me, price, proposal);
    NewestFirstAppend(bids, b, (x: Bid) => x.jobId == job.id);
  }

  /** A job whose status has left `open` is not on the board. */
  lemma {:induction false} ClosedJobOffBoard(jobs: seq<Job>, jobId: Id)
    requires forall i :: 0 <= i < |jobs| && jobs[i].id == jobId ==> jobs[i].status != Open
    ensures forall i :: 0 <= i < |OpenJobs(jobs)| ==> OpenJobs(jobs)[i].id != jobId
  {
  }

  /** The available-jobs screen: its fetched list and the bid form. */
  class AvailableJobsScreen {
    const store: Store
    const me: Id
    var jobs: seq<Job>
    var selectedJob: Option<Job>
    var bidAmount: string
    var bidProposal: string

    constructor (store: Store, me: Id)
      ensures this.store == store && this.me == me
      ensures jobs == [] && selectedJob == None && bidAmount == "" && bidProposal == ""
    {
      this.store := store;
      this.me := me;
      jobs, selectedJob, bidAmount, bidProposal := [], None, "", "";
    }

    /** fetchJobs: on success the list becomes the open jobs, newest first. */
    method FetchJobs(fails: bool)
      modifies this`jobs
      ensures jobs == if fails then old(jobs) else OpenJobs(store.jobs)
    {
      if !fails {
        jobs := OpenJobs(store.jobs);
      }
    }

    /** "Place Bid": the bid form now belongs to this job. */
    method SelectJob(job: Job)
      modifies this`selectedJob
      ensures selectedJob == Some(job)
    {
      selectedJob := Some(job);
    }

    /** handleBidSubmit: with the guard met, one pending bid is inserted with the amount
        parsed by `parse`; the form is cleared only when the insert succeeded. */
    method HandleBidSubmit(parse: string -> int, bidId: Id, fails: bool) returns (submitted: bool)
      modifies store`bids, this`selectedJob, this`bidAmount, this`bidProposal
      ensures submitted <==> BidReady(old(selectedJob), old(bidAmount), old(bidProposal)) && !fails
      ensures submitted ==>
        && store.bids == old(store.bids) + [NewBid(bidId, old(selectedJob).value, me, parse(old(bidAmount)), old(bidProposal))]
        && selectedJob == None && bidAmount == "" && bidProposal == ""
      ensures !submitted ==>
        && store.bids == old(store.bids)
        && selectedJob == old(selectedJob) && bidAmount == old(bidAmount) && bidProposal == old(bidProposal)
    {
      if !BidReady(selectedJob, bidAmount, bidProposal) {
        return false;
      }
      submitted := store.InsertBid(NewBid(bidId, selectedJob.value, me, parse(bidAmount), bidProposal), fails);
      if submitted {
        bidAmount, bidProposal, selectedJob := "", "", None;
      }
    }
  }
}
