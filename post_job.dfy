/** The employer's "Post a Job" form (app/dashboard/employer/post-job/page.tsx). */
module PostJob {
  import opened Common
  import opened Schema
  import opened Backend
  import FreelancerJobs

  /** Where the form navigates after a successful post. */
  const JobsPage: string := "/dashboard/employer/jobs"

  /** The submit guard: every text field is non-empty and at least one skill is listed. */
  predicate JobReady(title: string, description: string, skills: seq<string>, budget: string, deadline: string)
  {
    title != "" && description != "" && |skills| != 0 && budget != "" && deadline != ""
  }

  /** The job row handleSubmit inserts: owned by the current employer, status `open`. */
  function NewJob(id: Id, me: Id, title: string, description: string, skills: seq<string>,
                  budget: int, deadline: string): (r: Job)
    ensures r.id == id && r.employerId == me && r.status == Open
    ensures r.title == title && r.description == description
    ensures r.requiredSkills == skills && r.budget == budget && r.deadline == deadline
  {
    Job(id, me, title, description, skills, budget, deadline, Open)
  }

  /** A job just posted heads the freelancers' board, newest first, ahead of every job
      that was already there. */
  lemma {:induction false} PostedJobHeadsBoard(jobs: seq<Job>, id: Id, me: Id, title: string, description: string,
                                               skills: seq<string>, budget: int, deadline: string)
    ensures var j := NewJob(id, me, title, description, skills, budget, deadline);
      FreelancerJobs.OpenJobs(jobs + [j]) == [j] + FreelancerJobs.OpenJobs(jobs)
  {
    var j := NewJob(id, me, title, description, skills, budget, deadline);
    NewestFirstAppend(jobs, j, FreelancerJobs.IsOpen);
  }

  /** The post-job form; its fields are what the employer typed. */
  class PostJobForm {
    const store: Store
    const me: Id
    var title: string
    var description: string
    var requiredSkills: seq<string>
    var budget: string
    var deadline: string

    constructor (store: Store, me: Id)
      ensures this.store == store && this.me == me
      ensures title == "" && description == "" && requiredSkills == [] && budget == "" && deadline == ""
    {
      this.store := store;
      this.me := me;
      title, description, requiredSkills, budget, deadline := "", "", [], "", "";
    }

    /** handleSubmit: with the guard met, one open job is inserted with the budget parsed
        by `parse`, and the page moves to the employer's jobs; a failed insert keeps the
        page and the form as they were. Returns the navigation target, if any. */
    method HandleSubmit(parse: string -> int, jobId: Id, fails: bool) returns (navigate: Option<string>)
      modifies store`jobs
      ensures navigate.Some? <==> JobReady(title, description, requiredSkills, budget, deadline) && !fails
      ensures navigate.Some? ==>
        && navigate.value == JobsPage
        && store.jobs == old(store.jobs) + [NewJob(jobId, me, title, description, requiredSkills, parse(budget), deadline)]
      ensures navigate.None? ==> store.jobs == old(store.jobs)
    {
      if !JobReady(title, description, requiredSkills, budget, deadline) {
        return None;
      }
      var ok := store.InsertJob(NewJob(jobId, me, title, description, requiredSkills, parse(budget), deadline), fails);
      navigate := if ok then Some(JobsPage) else None;
    }
  }
}
