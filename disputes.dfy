/** Disputes: the "Raise Dispute" form of a project (components/dispute-form.tsx) and
    the disputes page (app/dashboard/disputes/page.tsx), where an admin resolves them. */
module Disputes {
  import opened Common
  import opened Schema
  import opened Backend

  /** The dispute row the form inserts: this project, the current user as initiator,
      the evidence links collected so far, status `pending`, no resolution yet. */
  function NewDispute(id: Id, projectId: Id, me: Id, reason: string, evidence: string, files: seq<string>): (r: Dispute)
    ensures r.id == id && r.projectId == projectId && r.initiatorId == me
    ensures r.reason == reason && r.evidence == evidence && r.evidenceFiles == files
    ensures r.status == Pending && r.resolution == None
  {
    Dispute(id, projectId, me, reason, evidence, files, Pending, None)
  }

  /** The user is the employer or the freelancer of the dispute's project. */
  predicate PartyTo(d: Dispute, projects: seq<Project>, me: Id)
  {
    exists i :: 0 <= i < |projects| && projects[i].id == d.projectId
      && (projects[i].employerId == me || projects[i].freelancerId == me)
  }

  /** Whom the page shows a dispute to, besides an admin: its initiator and both parties
      to its project. */
  function ConcernsUser(projects: seq<Project>, me: Id): Dispute -> bool
  {
    (d: Dispute) => d.initiatorId == me || PartyTo(d, projects, me)
  }

  /** fetchDisputes: every dispute for an admin, otherwise the disputes that concern the
      user; newest first either way. */
  function VisibleDisputes(disputes: seq<Dispute>, projects: seq<Project>, role: string, me: Id): (r: seq<Dispute>)
    ensures forall i :: 0 <= i < |r| ==> r[i] in disputes
    ensures role != Admin ==> forall i :: 0 <= i < |r| ==> r[i].initiatorId == me || PartyTo(r[i], projects, me)
    ensures forall i :: 0 <= i < |disputes| && (role == Admin || ConcernsUser(projects, me)(disputes[i])) ==> disputes[i] in r
    ensures IsSubsequence(Reverse(r), disputes)
  {
    if role == Admin then NewestFirst(disputes, (d: Dispute) => true)
    else NewestFirst(disputes, ConcernsUser(projects, me))
  }

  /** An admin sees every dispute, exactly in newest-first order. */
  lemma {:induction false} AdminSeesAll(disputes: seq<Dispute>, projects: seq<Project>, me: Id)
    ensures VisibleDisputes(disputes, projects, Admin, me) == Reverse(disputes)
  {
    FilterKeepsAll(disputes, (d: Dispute) => true);
  }

  /** The "Resolve Dispute" button: admins only, pending disputes only. */
  predicate CanResolve(role: string, d: Dispute)
  {
    role == Admin && d.status == Pending
  }

  /** Resolving marks the dispute resolved with the admin's text, after which no one is
      offered to resolve it again; every other dispute is untouched. */
  lemma ResolveClosesGate(disputes: seq<Dispute>, id: Id, resolution: string)
    ensures var r := ResolveDisputeRows(disputes, id, resolution);
      forall i, role :: 0 <= i < |r| && r[i].id == id ==>
        !CanResolve(role, r[i]) && r[i].resolution == Some(resolution)
  {
  }

  /** Resolving changes no one's view of which disputes concern them: the same number
      of disputes is shown to every user afterwards. */
  lemma {:induction false} ResolveKeepsVisibility(disputes: seq<Dispute>, projects: seq<Project>, me: Id, id: Id, resolution: string)
    ensures Count(ResolveDisputeRows(disputes, id, resolution), ConcernsUser(projects, me)) == Count(disputes, ConcernsUser(projects, me))
  {
    var r := ResolveDisputeRows(disputes, id, resolution);
    var p := ConcernsUser(projects, me);
    forall i | 0 <= i < |disputes| ensures p(disputes[i]) == p(r[i]) {
      assert r[i].initiatorId == disputes[i].initiatorId && r[i].projectId == disputes[i].projectId;
      assert PartyTo(r[i], projects, me) == PartyTo(disputes[i], projects, me);
    }
    CountPointwise(disputes, r, p);
  }

  /** The "Raise Dispute" dialog of one project. */
  class DisputeForm {
    const store: Store
    const me: Id
    const projectId: Id
    var reason: string
    var evidence: string
    var evidenceFiles: seq<string>

    constructor (store: Store, me: Id, projectId: Id)
      ensures this.store == store && this.me == me && this.projectId == projectId
      ensures reason == "" && evidence == "" && evidenceFiles == []
    {
      this.store := store;
      this.me := me;
      this.projectId := projectId;
      reason, evidence, evidenceFiles := "", "", [];
    }

    /** handleFileUpload: an uploaded evidence file's link is added last. */
    method HandleFileUpload(fileUrl: string)
      modifies this`evidenceFiles
      ensures evidenceFiles == old(evidenceFiles) + [fileUrl]
    {
      evidenceFiles := evidenceFiles + [fileUrl];
    }

    /** handleSubmit: with a reason and evidence, one pending dispute is inserted; the form
        is cleared only when the insert succeeded. */
    method HandleSubmit(disputeId: Id, fails: bool) returns (ok: bool)
      modifies store`disputes, this`reason, this`evidence, this`evidenceFiles
      ensures ok <==> old(reason) != "" && old(evidence) != "" && !fails
      ensures ok ==>
        && store.disputes == old(store.disputes) + [NewDispute(disputeId, projectId, me, old(reason), old(evidence), old(evidenceFiles))]
        && reason == "" && evidence == "" && evidenceFiles == []
      ensures !ok ==>
        && store.disputes == old(store.disputes)
        && reason == old(reason) && evidence == old(evidence) && evidenceFiles == old(evidenceFiles)
    {
      if reason == "" || evidence == "" {
        return false;
      }
      ok := store.InsertDispute(NewDispute(disputeId, projectId, me, reason, evidence, evidenceFiles), fails);
      if ok {
        reason, evidence, evidenceFiles := "", "", [];
      }
    }
  }

  /** The disputes page of user `me`, whose role is `role`. */
  class DisputesPage {
    const store: Store
    const me: Id
    const role: string
    var disputes: seq<Dispute>
    var selectedDispute: Option<Dispute>
    var resolution: string

    constructor (store: Store, me: Id, role: string)
      ensures this.store == store && this.me == me && this.role == role
      ensures disputes == [] && selectedDispute == None && resolution == ""
    {
      this.store := store;
      this.me := me;
      this.role := role;
      disputes, selectedDispute, resolution := [], None, "";
    }

    /** fetchDisputes: on success the list becomes the disputes this user may see. */
    method FetchDisputes(fails: bool)
      modifies this`disputes
      ensures disputes == if fails then old(disputes) else VisibleDisputes(store.disputes, store.projects, role, me)
    {
      if !fails {
        disputes := VisibleDisputes(store.disputes, store.projects, role, me);
      }
    }

    /** "Resolve Dispute": the dialog now belongs to this dispute. */
    method SelectDispute(d: Dispute)
      requires CanResolve(role, d)
      modifies this`selectedDispute
      ensures selectedDispute == Some(d)
    {
      selectedDispute := Some(d);
    }

    /** handleResolveDispute: with a dispute chosen and a resolution written, that dispute
        becomes resolved with the text; on success the dialog is cleared and the list
        re-read. */
    method HandleResolveDispute(fails: bool) returns (ok: bool)
      modifies store`disputes, this`disputes, this`selectedDispute, this`resolution
      ensures ok <==> old(selectedDispute).Some? && old(resolution) != "" && !fails
      ensures ok ==>
        && store.disputes == ResolveDisputeRows(old(store.disputes), old(selectedDispute).value.id, old(resolution))
        && selectedDispute == None && resolution == ""
        && disputes == VisibleDisputes(store.disputes, store.projects, role, me)
      ensures !ok ==>
        && store.disputes == old(store.disputes) && disputes == old(disputes)
        && selectedDispute == old(selectedDispute) && resolution == old(resolution)
    {
      ok := ResolveWrite(fails);
      if ok {
        FetchDisputes(false);
      }
    }

    /** The guard and the write of handleResolveDispute, and the dialog cleared after it. */
    method ResolveWrite(fails: bool) returns (ok: bool)
      modifies store`disputes, this`selectedDispute, this`resolution
      ensures ok <==> old(selectedDispute).Some? && old(resolution) != "" && !fails
      ensures ok ==>
        && store.disputes == ResolveDisputeRows(old(store.disputes), old(selectedDispute).value.id, old(resolution))
        && selectedDispute == None && resolution == ""
      ensures !ok ==>
        && store.disputes == old(store.disputes)
        && selectedDispute == old(selectedDispute) && resolution == old(resolution)
    {
      if selectedDispute.None? || resolution == "" {
        return false;
      }
      var id, text := selectedDispute.value.id, resolution;
      ok := store.ResolveDispute(id, text, fails);
      if ok {
        resolution, selectedDispute := "", None;
      }
    }
  }
}
