/** The admin's user management page (app/dashboard/admin/users/page.tsx): every
    account, newest first, a search box over e-mail, name and role, a status badge,
    and Activate / Suspend buttons. */
module AdminUsers {
  import opened Common
  import opened Schema
  import opened Backend

  /** fetchUsers: every account, newest first. */
  function AllUsers(accounts: seq<Account>): (r: seq<Account>)
    ensures |r| == |accounts|
    ensures forall i :: 0 <= i < |accounts| ==> r[i] == accounts[|accounts| - 1 - i]
  {
    FilterKeepsAll(accounts, (a: Account) => true);
    NewestFirst(accounts, (a: Account) => true)
  }

  /** The search test: the term, lower-cased, occurs in the lower-cased e-mail, name or role. */
  predicate UserMatchesTerm(a: Account, term: string)
  {
    Matches(a.email, term) || Matches(a.fullName, term) || Matches(a.role, term)
  }

  function UserMatches(term: string): Account -> bool
  {
    (a: Account) => UserMatchesTerm(a, term)
  }

  /** filteredUsers: the fetched users the search term matches, in the listed order. */
  function FilterUsers(users: seq<Account>, term: string): (r: seq<Account>)
    ensures forall i :: 0 <= i < |r| ==> r[i] in users && UserMatchesTerm(r[i], term)
    ensures forall i :: 0 <= i < |users| && UserMatchesTerm(users[i], term) ==> users[i] in r
    ensures IsSubsequence(r, users)
  {
    Filter(users, UserMatches(term))
  }

  /** An empty search box hides nobody. */
  lemma EmptySearchShowsAll(users: seq<Account>)
    ensures FilterUsers(users, "") == users
  {
    forall i | 0 <= i < |users| ensures UserMatches("")(users[i]) {
      MatchesEmptyTerm(users[i].email);
    }
    FilterKeepsAll(users, UserMatches(""));
  }

  /** The look of the status badge. */
  datatype BadgeVariant = Default | Destructive | Secondary

  function StatusBadge(status: string): (r: BadgeVariant)
    ensures r == Default <==> status == Active
    ensures r == Destructive <==> status == Suspended
  {
    if status == Active then Default
    else if status == Suspended then Destructive
    else Secondary
  }

  /** The two buttons of the user dialog. */
  datatype StatusAction = Activate | Suspend

  /** The status each button writes. */
  function TargetStatus(action: StatusAction): (r: string)
    ensures r == Active || r == Suspended
    ensures action == Activate <==> r == Active
  {
    match action
    case Activate => Active
    case Suspend => Suspended
  }

  /** After a successful press the chosen user's badge shows what was pressed, and no
      other user's status changes. */
  lemma ButtonSetsBadge(accounts: seq<Account>, id: Id, action: StatusAction)
    ensures var r := SetAccountStatus(accounts, id, TargetStatus(action));
      && (forall i :: 0 <= i < |r| && accounts[i].id == id ==>
            StatusBadge(r[i].status) == (if action == Activate then Default else Destructive))
      && (forall i :: 0 <= i < |r| && accounts[i].id != id ==> r[i] == accounts[i])
  {
  }

  // ---------------------------------------------------------------------------
  // The page as written. The query selects the profile's columns and nests the
  // account's e-mail and status under `auth_users`; the search test and the badge
  // read a top-level `email` and `status`, which the rows do not have.
  // ---------------------------------------------------------------------------

  /** A fetched row as the page reads it; None is an absent (undefined) field. */
  datatype FetchedUser = FetchedUser(id: Id, fullName: Option<string>, role: string,
                                     email: Option<string>, status: Option<string>)

  /** The row fetchUsers yields for a profile: its own columns, and no top-level
      e-mail or status. */
  function FetchedRow(p: Profile): (r: FetchedUser)
    ensures r.id == p.id && r.fullName == p.fullName && r.role == p.role
    ensures r.email.None? && r.status.None?
  {
    FetchedUser(p.id, p.fullName, p.role, None, None)
  }

  /** fetchUsers as written: one row per profile, newest first. */
  function FetchedUsers(profiles: seq<Profile>): (r: seq<FetchedUser>)
    ensures |r| == |profiles|
    ensures forall i :: 0 <= i < |r| ==> r[i] == FetchedRow(profiles[|profiles| - 1 - i])
  {
    seq(|profiles|, i requires 0 <= i < |profiles| => FetchedRow(profiles[|profiles| - 1 - i]))
  }

  /** Evaluating the search test throws on this row: `email.toLowerCase()` on an
      absent e-mail, or, past a non-matching e-mail, `full_name.toLowerCase()` on a
      null name (the `||` stops at the first operand that matches). */
  predicate SearchThrows(u: FetchedUser, term: string)
  {
    u.email.None? || (!Matches(u.email.value, term) && u.fullName.None?)
  }

  /** The search test on a row on which it does not throw. */
  function FetchedMatches(term: string): FetchedUser -> bool
  {
    (u: FetchedUser) => u.email.Some? && (Matches(u.email.value, term)
                         || (u.fullName.Some? && (Matches(u.fullName.value, term) || Matches(u.role, term))))
  }

  /** filteredUsers as written: None when the test throws on some row (the page
      cannot render), otherwise the rows whose e-mail, name or role matches. */
  function FilterUsersAsWritten(users: seq<FetchedUser>, term: string): (r: Option<seq<FetchedUser>>)
    ensures r.None? <==> exists i :: 0 <= i < |users| && SearchThrows(users[i], term)
    ensures r.Some? ==> IsSubsequence(r.value, users)
    ensures r.Some? ==> forall i :: 0 <= i < |r.value| ==>
      && r.value[i] in users && r.value[i].email.Some?
      && (Matches(r.value[i].email.value, term)
          || (r.value[i].fullName.Some? && (Matches(r.value[i].fullName.value, term) || Matches(r.value[i].role, term))))
    ensures r.Some? ==> forall i :: 0 <= i < |users| && FetchedMatches(term)(users[i]) ==> users[i] in r.value
  {
    if exists i :: 0 <= i < |users| && SearchThrows(users[i], term) then None
    else Some(Filter(users, FetchedMatches(term)))
  }

  /** With at least one profile the page as written never renders a list, whatever
      the search term: the first row's absent e-mail throws. */
  lemma {:induction false} FetchedListThrows(profiles: seq<Profile>, term: string)
    requires profiles != []
    ensures FilterUsersAsWritten(FetchedUsers(profiles), term) == None
  {
    assert SearchThrows(FetchedUsers(profiles)[0], term);
  }

  /** The badge as written, `user.status === "active" ? … : user.status === "suspended" ? … : …`,
      on a status that may be absent. */
  function BadgeAsWritten(status: Option<string>): (r: BadgeVariant)
    ensures r == Default <==> status == Some(Active)
    ensures r == Destructive <==> status == Some(Suspended)
  {
    if status == Some(Active) then Default
    else if status == Some(Suspended) then Destructive
    else Secondary
  }

  /** Activate and Suspend write the authentication service's user metadata, which the
      query never reads: every fetched row's badge is the neutral one, before and
      after any press. */
  lemma {:induction false} BadgeNeverShowsPress(profiles: seq<Profile>)
    ensures forall i :: 0 <= i < |FetchedUsers(profiles)| ==> BadgeAsWritten(FetchedUsers(profiles)[i].status) == Secondary
  {
  }

  /** The user management page, with the account's e-mail and status read from the
      joined account as the page intends. */
  class ManageUsers {
    const store: Store
    var users: seq<Account>
    var searchTerm: string
    var selectedUser: Option<Account>

    constructor (store: Store)
      ensures this.store == store
      ensures users == [] && searchTerm == "" && selectedUser == None
    {
      this.store := store;
      users, searchTerm, selectedUser := [], "", None;
    }

    /** The rows on screen. */
    function Shown(): (r: seq<Account>)
      reads this
      ensures IsSubsequence(r, users)
    {
      FilterUsers(users, searchTerm)
    }

    /** fetchUsers: on success the list becomes every account, newest first. */
    method FetchUsers(fails: bool)
      modifies this`users
      ensures users == if fails then old(users) else AllUsers(store.accounts)
    {
      if !fails {
        users := AllUsers(store.accounts);
      }
    }

    /** "View Details": the dialog now shows this user. */
    method SelectUser(u: Account)
      modifies this`selectedUser
      ensures selectedUser == Some(u)
    {
      selectedUser := Some(u);
    }

    /** updateUserStatus: the account with that id gets the status; the list is re-read
        only on success. */
    method UpdateUserStatus(userId: Id, status: string, fails: bool) returns (ok: bool)
      modifies store`accounts, this`users
      ensures ok == !fails
      ensures store.accounts == if ok then SetAccountStatus(old(store.accounts), userId, status) else old(store.accounts)
      ensures users == if ok then AllUsers(store.accounts) else old(users)
    {
      ok := store.UpdateAccountStatus(userId, status, fails);
      if ok {
        FetchUsers(false);
      }
    }

    /** Activate or Suspend in the dialog of the selected user. */
    method PressStatusButton(action: StatusAction, fails: bool) returns (ok: bool)
      requires selectedUser.Some?
      modifies store`accounts, this`users
      ensures ok == !fails
      ensures store.accounts == if ok then SetAccountStatus(old(store.accounts), selectedUser.value.id, TargetStatus(action))
                                else old(store.accounts)
      ensures users == if ok then AllUsers(store.accounts) else old(users)
    {
      ok := UpdateUserStatus(selectedUser.value.id, TargetStatus(action), fails);
    }
  }
}
