/** The user administration list (`UserList`): the role and status filters and the edit
    modal over `editUser`/`editForm`. */
module UserList {
  import opened Common
  import opened Domain

  function RoleTest(role: string): UserRecord -> bool { (u: UserRecord) => u.role == role }
  function StatusTest(status: string): UserRecord -> bool { (u: UserRecord) => u.status == status }

  /** `if (filterRole) ...; if (filterStatus) ...` */
  function FilterUsers(users: seq<UserRecord>, filterRole: string, filterStatus: string): seq<UserRecord> {
    var byRole := if filterRole != "" then Filter(users, RoleTest(filterRole)) else users;
    if filterStatus != "" then Filter(byRole, StatusTest(filterStatus)) else byRole
  }

  /** The users a row is shown for: each active filter matches exactly. */
  predicate Matches(filterRole: string, filterStatus: string, u: UserRecord) {
    (filterRole != "" ==> u.role == filterRole) && (filterStatus != "" ==> u.status == filterStatus)
  }

  function MatchTest(filterRole: string, filterStatus: string): UserRecord -> bool {
    (u: UserRecord) => Matches(filterRole, filterStatus, u)
  }

  /** The two filters are one filter by their conjunction. */
  lemma {:induction false} FilterUsersIsConjunction(users: seq<UserRecord>, filterRole: string, filterStatus: string)
    ensures FilterUsers(users, filterRole, filterStatus) == Filter(users, MatchTest(filterRole, filterStatus))
  {
    var g1 := Guarded(filterRole != "", RoleTest(filterRole));
    var g12 := Both(g1, Guarded(filterStatus != "", StatusTest(filterStatus)));
    var byRole := if filterRole != "" then Filter(users, RoleTest(filterRole)) else users;
    ConditionalFilter(users, filterRole != "", RoleTest(filterRole));
    assert byRole == Filter(users, g1);
    ChainStep(users, g1, filterStatus != "", StatusTest(filterStatus));
    assert FilterUsers(users, filterRole, filterStatus) == Filter(users, g12);
    forall i | 0 <= i < |users| ensures g12(users[i]) == MatchTest(filterRole, filterStatus)(users[i]) {
      MatchesIsChainTest(filterRole, filterStatus, users[i]);
    }
    FilterCongruent(users, g12, MatchTest(filterRole, filterStatus));
  }

  /** The shown users are the order-preserving subsequence of `users` satisfying both
      filters, and none that does is lost. */
  lemma FilterUsersSelects(users: seq<UserRecord>, filterRole: string, filterStatus: string)
    ensures var r := FilterUsers(users, filterRole, filterStatus);
      && SubsequenceOf(r, users)
      && (forall i :: 0 <= i < |r| ==> Matches(filterRole, filterStatus, r[i]))
      && (forall i :: 0 <= i < |users| && Matches(filterRole, filterStatus, users[i]) ==> users[i] in r)
  {
    FilterUsersIsConjunction(users, filterRole, filterStatus);
    FilterIsSubsequence(users, MatchTest(filterRole, filterStatus));
  }

  lemma MatchesIsChainTest(filterRole: string, filterStatus: string, u: UserRecord)
    ensures Both(Guarded(filterRole != "", RoleTest(filterRole)), Guarded(filterStatus != "", StatusTest(filterStatus)))(u)
      == Matches(filterRole, filterStatus, u)
  {
  }

  /** With both filters empty every user is listed. */
  lemma EmptyFiltersListAll(users: seq<UserRecord>)
    ensures FilterUsers(users, "", "") == users
  {
  }

  /** The state of the view: the list, `loading`, and the edit modal. */
  class UserListView {
    var users: seq<UserRecord>
    var loading: bool
    var editUser: Option<UserRecord>
    var editForm: map<string, string>

    constructor ()
      ensures users == [] && loading && editUser.None? && editForm == map["role" := "", "status" := ""]
    {
      users, loading, editUser := [], true, None;
      editForm := map["role" := "", "status" := ""];
    }

    /** `fetchUsers`: an OK response replaces the list; `loading` ends on every path. */
    method FetchUsers(response: Response<seq<UserRecord>>)
      modifies this
      ensures !loading && editUser == old(editUser) && editForm == old(editForm)
      ensures users == (if response.Ok? then response.body else old(users))
    {
      if response.Ok? {
        users := response.body;
      }
      loading := false;
    }

    /** `handleEdit(user)`: the modal opens on `user`, its form seeded with exactly the
        user's role and status. */
    method HandleEdit(user: UserRecord)
      modifies this
      ensures editUser == Some(user)
      ensures editForm.Keys == {"role", "status"} && editForm["role"] == user.role && editForm["status"] == user.status
      ensures users == old(users) && loading == old(loading)
    {
      editUser := Some(user);
      editForm := map["role" := user.role, "status" := user.status];
    }

    /** `handleEditChange(e)`: only the named field of the form changes. */
    method HandleEditChange(name: string, value: string)
      modifies this
      ensures editForm == old(editForm)[name := value]
      ensures forall k :: k in old(editForm) && k != name ==> k in editForm && editForm[k] == old(editForm)[k]
      ensures users == old(users) && editUser == old(editUser) && loading == old(loading)
    {
      editForm := editForm[name := value];
    }

    /** `handleEditSubmit`: the form goes to `PUT /api/users/{_id}`; an OK response
        refetches (its outcome is `refetch`) and closes the modal, anything else leaves the
        modal open. With no user being edited, reading `editUser._id` throws and is caught
        before any request. Returns the id and body of the request sent, if any. */
    method HandleEditSubmit(response: Response<()>, refetch: Response<seq<UserRecord>>)
      returns (sent: Option<(string, map<string, string>)>)
      modifies this
      ensures sent == (if old(editUser).Some? then Some((old(editUser).value.id, old(editForm))) else None)
      ensures sent.Some? && response.Ok? ==>
        editUser.None? && !loading && users == (if refetch.Ok? then refetch.body else old(users))
      ensures !(sent.Some? && response.Ok?) ==>
        editUser == old(editUser) && users == old(users) && loading == old(loading)
      ensures editForm == old(editForm)
    {
      if editUser.None? {
        sent := None;
      } else {
        sent := Some((editUser.value.id, editForm));
        if response.Ok? {
          FetchUsers(refetch);
          editUser := None;
        }
      }
    }
  }
}
