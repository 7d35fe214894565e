/** The messages page (app/dashboard/messages/page.tsx): the user's projects, newest
    first, the thread of the chosen project, oldest first, kept current by a realtime
    subscription to inserts on that project. */
module Messages {
  import opened Common
  import opened Schema
  import opened Backend

  /** The user is the employer or the freelancer of the project. */
  function IsParty(me: Id): Project -> bool
  {
    (p: Project) => p.employerId == me || p.freelancerId == me
  }

  /** fetchProjects: the projects the user is a party to, newest first. */
  function PartyProjects(projects: seq<Project>, me: Id): (r: seq<Project>)
    ensures forall i :: 0 <= i < |r| ==> r[i] in projects && (r[i].employerId == me || r[i].freelancerId == me)
    ensures forall i :: 0 <= i < |projects| && (projects[i].employerId == me || projects[i].freelancerId == me) ==> projects[i] in r
    ensures IsSubsequence(Reverse(r), projects)
  {
    NewestFirst(projects, IsParty(me))
  }

  /** The subscription's filter and the thread's query: messages of one project. */
  function OnProject(projectId: Id): Message -> bool
  {
    (m: Message) => m.projectId == projectId
  }

  /** fetchMessages: the project's messages, oldest first. */
  function Thread(messages: seq<Message>, projectId: Id): (r: seq<Message>)
    ensures forall i :: 0 <= i < |r| ==> r[i] in messages && r[i].projectId == projectId
    ensures forall i :: 0 <= i < |messages| && messages[i].projectId == projectId ==> messages[i] in r
    ensures IsSubsequence(r, messages)
  {
    Filter(messages, OnProject(projectId))
  }

  /** The message row a send inserts: text only, no attachment. */
  function NewMessage(id: Id, projectId: Id, me: Id, content: string): (r: Message)
    ensures r.projectId == projectId && r.senderId == me && r.content == content && r.fileUrl == None
  {
    Message(id, projectId, me, content, None)
  }

  /** A thread kept by appending each realtime insert on its project is the thread a fresh
      fetch would return, and inserts on other projects leave the fetched thread as it was. */
  lemma {:induction false} RealtimeMatchesRefetch(messages: seq<Message>, projectId: Id, m: Message)
    ensures m.projectId == projectId ==> Thread(messages + [m], projectId) == Thread(messages, projectId) + [m]
    ensures m.projectId != projectId ==> Thread(messages + [m], projectId) == Thread(messages, projectId)
  {
    FilterAppend(messages, [m], OnProject(projectId));
  }

  /** The messages page of user `me`. */
  class MessagesPage {
    const store: Store
    const me: Id
    var projects: seq<Project>
    var selectedProject: Option<Project>
    var messages: seq<Message>
    var newMessage: string

    constructor (store: Store, me: Id)
      ensures this.store == store && this.me == me
      ensures projects == [] && selectedProject == None && messages == [] && newMessage == ""
    {
      this.store := store;
      this.me := me;
      projects, selectedProject, messages, newMessage := [], None, [], "";
    }

    /** Choosing a project selects it and fetches its thread (the selection effect). */
    method SelectProject(p: Project, threadFails: bool)
      modifies this`selectedProject, this`messages
      ensures selectedProject == Some(p)
      ensures messages == if threadFails then old(messages) else Thread(store.messages, p.id)
    {
      selectedProject := Some(p);
      if !threadFails {
        messages := Thread(store.messages, p.id);
      }
    }

    /** fetchProjects: on success the list becomes the user's projects and, when there is
        one, the newest is selected and its thread fetched. */
    method FetchProjects(fails: bool, threadFails: bool)
      modifies this`projects, this`selectedProject, this`messages
      ensures projects == if fails then old(projects) else PartyProjects(store.projects, me)
      ensures !fails && projects != [] ==>
        && selectedProject == Some(projects[0])
        && messages == if threadFails then old(messages) else Thread(store.messages, projects[0].id)
      ensures fails || projects == [] ==> selectedProject == old(selectedProject) && messages == old(messages)
    {
      if !fails {
        projects := PartyProjects(store.projects, me);
        if projects != [] {
          SelectProject(projects[0], threadFails);
        }
      }
    }

    /** The subscription's callback: an insert on the selected project is added last. */
    method OnRealtimeInsert(m: Message)
      requires selectedProject.Some? && m.projectId == selectedProject.value.id
      modifies this`messages
      ensures messages == old(messages) + [m]
    {
      messages := messages + [m];
    }

    /** handleSendMessage: silently refused without a chosen project or text; otherwise one
        message is inserted and the input cleared on success. The thread itself grows only
        through the subscription. */
    method HandleSendMessage(messageId: Id, fails: bool) returns (ok: bool)
      modifies store`messages, this`newMessage
      ensures ok <==> old(selectedProject).Some? && old(newMessage) != "" && !fails
      ensures ok ==>
        && store.messages == old(store.messages) + [NewMessage(messageId, selectedProject.value.id, me, old(newMessage))]
        && newMessage == ""
      ensures !ok ==> store.messages == old(store.messages) && newMessage == old(newMessage)
    {
      if selectedProject.None? || newMessage == "" {
        return false;
      }
      ok := store.InsertMessage(NewMessage(messageId, selectedProject.value.id, me, newMessage), fails);
      if ok {
        newMessage := "";
      }
    }
  }
}
