/** The "My Projects" page (app/dashboard/projects/page.tsx): the projects the user
    works on, the freelancer's "Update Progress" button, and the send-message dialog. */
module Projects {
  import opened Common
  import opened Schema
  import opened Backend
  import Messages

  /** The ceiling of a project's progress. */
  const FullProgress: int := 100

  /** The progress step of one button press. */
  const ProgressIncrement: int := 10

  /** fetchProjects: a freelancer's own projects, an employer's own projects, and every
      project for any other role; newest first. */
  function VisibleProjects(projects: seq<Project>, role: string, me: Id): (r: seq<Project>)
    ensures forall i :: 0 <= i < |r| ==> r[i] in projects
    ensures role == Freelancer ==> forall i :: 0 <= i < |r| ==> r[i].freelancerId == me
    ensures role == Employer ==> forall i :: 0 <= i < |r| ==> r[i].employerId == me
    ensures forall i :: 0 <= i < |projects| ==>
      (role == Freelancer ==> projects[i].freelancerId == me ==> projects[i] in r)
      && (role == Employer ==> projects[i].employerId == me ==> projects[i] in r)
      && (role != Freelancer && role != Employer ==> projects[i] in r)
    ensures IsSubsequence(Reverse(r), projects)
  {
    if role == Freelancer then NewestFirst(projects, (p: Project) => p.freelancerId == me)
    else if role == Employer then NewestFirst(projects, (p: Project) => p.employerId == me)
    else NewestFirst(projects, (p: Project) => true)
  }

  /** Only a freelancer is shown "Update Progress". */
  predicate CanUpdateProgress(role: string)
  {
    role == Freelancer
  }

  /** The progress one press asks for: ten more, capped at 100. */
  function ProgressStep(progress: int): (r: int)
    ensures r <= FullProgress
    ensures progress <= FullProgress ==> progress <= r
    ensures r == FullProgress || r == progress + ProgressIncrement
  {
    if progress + ProgressIncrement < FullProgress then progress + ProgressIncrement else FullProgress
  }

  /** The progress after `n` presses, starting from `progress`. */
  function Presses(progress: int, n: nat): int
    decreases n
  {
    if n == 0 then progress else Presses(ProgressStep(progress), n - 1)
  }

  /** From any progress in range, `n` presses give the progress plus ten per press, never
      past 100; so ten presses take a new project (progress 0) to 100, and 100 stays. */
  lemma {:induction false} PressesReachFull(progress: int, n: nat)
    requires 0 <= progress <= FullProgress
    ensures Presses(progress, n) == if progress + ProgressIncrement * n < FullProgress then progress + ProgressIncrement * n else FullProgress
    ensures progress <= Presses(progress, n) <= FullProgress
    decreases n
  {
    if n > 0 {
      PressesReachFull(ProgressStep(progress), n - 1);
    }
  }

  /** The projects page of user `me`, whose role is `role`. */
  class ProjectsPage {
    const store: Store
    const me: Id
    const role: string
    var projects: seq<Project>
    var selectedProject: Option<Project>
    var message: string

    constructor (store: Store, me: Id, role: string)
      ensures this.store == store && this.me == me && this.role == role
      ensures projects == [] && selectedProject == None && message == ""
    {
      this.store := store;
      this.me := me;
      this.role := role;
      projects, selectedProject, message := [], None, "";
    }

    /** fetchProjects: on success the list becomes the projects this user may see. */
    method FetchProjects(fails: bool)
      modifies this`projects
      ensures projects == if fails then old(projects) else VisibleProjects(store.projects, role, me)
    {
      if !fails {
        projects := VisibleProjects(store.projects, role, me);
      }
    }

    /** handleUpdateProgress: the project with that id gets the new progress; the list is
        re-read only on success. */
    method HandleUpdateProgress(projectId: Id, newProgress: int, fails: bool) returns (ok: bool)
      modifies store`projects, this`projects
      ensures ok == !fails
      ensures store.projects == if ok then SetProjectProgress(old(store.projects), projectId, newProgress) else old(store.projects)
      ensures projects == if ok then VisibleProjects(store.projects, role, me) else old(projects)
    {
      ok := store.UpdateProjectProgress(projectId, newProgress, fails);
      if ok {
        FetchProjects(false);
      }
    }

    /** The "Update Progress" button of a listed project, offered to a freelancer only. */
    method PressUpdateProgress(project: Project, fails: bool) returns (ok: bool)
      requires CanUpdateProgress(role)
      modifies store`projects, this`projects
      ensures ok == !fails
      ensures store.projects == if ok then SetProjectProgress(old(store.projects), project.id, ProgressStep(project.progress)) else old(store.projects)
      ensures projects == if ok then VisibleProjects(store.projects, role, me) else old(projects)
    {
      ok := HandleUpdateProgress(project.id, ProgressStep(project.progress), fails);
    }

    /** "Send Message": the dialog now belongs to this project. */
    method SelectProject(p: Project)
      modifies this`selectedProject
      ensures selectedProject == Some(p)
    {
      selectedProject := Some(p);
    }

    /** handleSendMessage: with a project chosen and text written, one message is inserted;
        the text is cleared on success. */
    method HandleSendMessage(messageId: Id, fails: bool) returns (ok: bool)
      modifies store`messages, this`message
      ensures ok <==> old(selectedProject).Some? && old(message) != "" && !fails
      ensures ok ==>
        && store.messages == old(store.messages) + [Messages.NewMessage(messageId, selectedProject.value.id, me, old(message))]
        && message == ""
      ensures !ok ==> store.messages == old(store.messages) && message == old(message)
    {
      if selectedProject.None? || message == "" {
        return false;
      }
      ok := store.InsertMessage(Messages.NewMessage(messageId, selectedProject.value.id, me, message), fails);
      if ok {
        message := "";
      }
    }
  }
}
