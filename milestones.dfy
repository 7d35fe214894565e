/** Milestone payments of one project (components/milestone-payment.tsx): the list,
    the freelancer's request form, and the status buttons each role is offered. */
module Milestones {
  import opened Common
  import opened Schema
  import opened Backend

  /** Only a freelancer is shown the "Request Milestone" dialog. */
  predicate CanRequestMilestone(role: string)
  {
    role == Freelancer
  }

  /** The statuses a user of this role can move a milestone in this status to: an
      employer approves or rejects a pending one, a freelancer completes an approved one. */
  function MilestoneActions(role: string, status: string): (r: seq<string>)
    ensures r != [] <==> (role == Employer && status == Pending) || (role == Freelancer && status == Approved)
    ensures Approved in r || Rejected in r ==> role == Employer && status == Pending
    ensures Completed in r ==> role == Freelancer && status == Approved
    ensures forall i :: 0 <= i < |r| ==> r[i] in {Approved, Rejected, Completed}
  {
    if role == Employer && status == Pending then [Approved, Rejected]
    else if role == Freelancer && status == Approved then [Completed]
    else []
  }

  /** One button press: who pressed it and the status it asks for. */
  datatype Step = Step(role: string, target: string)

  /** The status after pressing these buttons in turn, or None when one of them is not
      offered at the status reached so far. */
  function Run(status: string, steps: seq<Step>): Option<string>
    decreases |steps|
  {
    if steps == [] then Some(status)
    else if steps[0].target in MilestoneActions(steps[0].role, status) then Run(steps[0].target, steps[1..])
    else None
  }

  /** The lifecycle the buttons allow from a new (pending) milestone: at most two presses,
      and the milestone is completed exactly after an employer's approval followed by a
      freelancer's completion. */
  lemma {:induction false} RunFromPending(steps: seq<Step>)
    requires Run(Pending, steps).Some?
    ensures |steps| <= 2
    ensures Run(Pending, steps).value in {Pending, Approved, Rejected, Completed}
    ensures Run(Pending, steps).value == Completed <==> steps == [Step(Employer, Approved), Step(Freelancer, Completed)]
  {
    if steps != [] {
      var s0, rest := steps[0], steps[1..];
      assert s0.target in MilestoneActions(s0.role, Pending);
      assert s0.role == Employer && (s0.target == Approved || s0.target == Rejected);
      assert Run(Pending, steps) == Run(s0.target, rest);
      if rest != [] {
        var s1 := rest[0];
        assert s1.target in MilestoneActions(s1.role, s0.target);
        assert s0.target == Approved && s1.role == Freelancer && s1.target == Completed;
        assert Run(s0.target, rest) == Run(Completed, rest[1..]);
        assert rest[1..] == [];
        assert steps == [s0, s1];
      } else {
        assert Run(Pending, steps).value == s0.target;
      }
    }
  }

  /** fetchMilestones: the project's milestones, oldest first. */
  function MilestonesForProject(milestones: seq<Milestone>, projectId: Id): (r: seq<Milestone>)
    ensures forall i :: 0 <= i < |r| ==> r[i] in milestones && r[i].projectId == projectId
    ensures forall i :: 0 <= i < |milestones| && milestones[i].projectId == projectId ==> milestones[i] in r
    ensures IsSubsequence(r, milestones)
  {
    Filter(milestones, (m: Milestone) => m.projectId == projectId)
  }

  /** The milestone row createMilestone inserts: this project, status `pending`. */
  function NewMilestone(id: Id, projectId: Id, description: string, amount: int): (r: Milestone)
    ensures r.projectId == projectId && r.status == Pending
    ensures MilestoneActions(Employer, r.status) == [Approved, Rejected] && MilestoneActions(Freelancer, r.status) == []
  {
    Milestone(id, projectId, description, amount, Pending)
  }

  /** A requested milestone is listed last, after every earlier milestone of the project. */
  lemma {:induction false} NewMilestoneListedLast(milestones: seq<Milestone>, id: Id, projectId: Id, description: string, amount: int)
    ensures var m := NewMilestone(id, projectId, description, amount);
      MilestonesForProject(milestones + [m], projectId) == MilestonesForProject(milestones, projectId) + [m]
  {
    var m := NewMilestone(id, projectId, description, amount);
    FilterAppend(milestones, [m], (x: Milestone) => x.projectId == projectId);
  }

  /** The milestone panel of one project, shown to a user of role `userRole`. The list
      starts empty: the component fetches it only after one of its own writes. */
  class MilestonePanel {
    const store: Store
    const projectId: Id
    const userRole: string
    var milestones: seq<Milestone>
    var description: string
    var amount: string

    constructor (store: Store, projectId: Id, userRole: string)
      ensures this.store == store && this.projectId == projectId && this.userRole == userRole
      ensures milestones == [] && description == "" && amount == ""
    {
      this.store := store;
      this.projectId := projectId;
      this.userRole := userRole;
      milestones, description, amount := [], "", "";
    }

    /** fetchMilestones: on success the list becomes the project's milestones, oldest first. */
    method FetchMilestones(fails: bool)
      modifies this`milestones
      ensures milestones == if fails then old(milestones) else MilestonesForProject(store.milestones, projectId)
    {
      if !fails {
        milestones := MilestonesForProject(store.milestones, projectId);
      }
    }

    /** createMilestone, from the dialog only a freelancer is shown: with both fields
        filled, one pending milestone is inserted with the amount parsed by `parse`; on
        success the form is cleared and the list re-read. */
    method CreateMilestone(parse: string -> int, milestoneId: Id, fails: bool) returns (created: bool)
      requires CanRequestMilestone(userRole)
      modifies store`milestones, this`milestones, this`description, this`amount
      ensures created <==> old(description) != "" && old(amount) != "" && !fails
      ensures created ==>
        && store.milestones == old(store.milestones) + [NewMilestone(milestoneId, projectId, old(description), parse(old(amount)))]
        && description == "" && amount == ""
        && milestones == MilestonesForProject(store.milestones, projectId)
      ensures !created ==>
        && store.milestones == old(store.milestones)
        && milestones == old(milestones) && description == old(description) && amount == old(amount)
    {
      if description == "" || amount == "" {
        return false;
      }
      created := store.InsertMilestone(NewMilestone(milestoneId, projectId, description, parse(amount)), fails);
      if created {
        description, amount := "", "";
        FetchMilestones(false);
      }
    }

    /** updateMilestoneStatus: the milestone with that id gets the new status; the list is
        re-read only on success. */
    method UpdateMilestoneStatus(milestoneId: Id, newStatus: string, fails: bool) returns (ok: bool)
      modifies store`milestones, this`milestones
      ensures ok == !fails
      ensures store.milestones == if ok then SetMilestoneStatus(old(store.milestones), milestoneId, newStatus) else old(store.milestones)
      ensures milestones == if ok then MilestonesForProject(store.milestones, projectId) else old(milestones)
    {
      ok := store.UpdateMilestoneStatus(milestoneId, newStatus, fails);
      if ok {
        FetchMilestones(false);
      }
    }
  }
}
