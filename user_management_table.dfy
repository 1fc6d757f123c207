/**
 * The admin's user table (components/admin/user-management-table.tsx): search and role
 * filter, role counters, the initials shown as avatar, the "No users found" row and the
 * payloads of the create and edit dialogs.
 */
module UserManagementTable {
  import opened Wrappers
  import opened Types
  import opened Seqs
  import opened Text
  import opened Counts
  import opened UsersPage

  /** The search covers name and email; the role filter is "all" or a role name. */
  predicate UserMatches(user: User, searchTerm: string, roleFilter: string)
  {
    (MatchesTerm(user.name, searchTerm) || MatchesTerm(user.email, searchTerm))
    && (roleFilter == "all" || RoleName(user.role) == roleFilter)
  }

  function UserFilter(searchTerm: string, roleFilter: string): User -> bool
  {
    (user: User) => UserMatches(user, searchTerm, roleFilter)
  }

  /** `filteredUsers`: the matching users, in list order. */
  function FilteredUsers(users: seq<User>, searchTerm: string, roleFilter: string): (r: seq<User>)
    ensures forall u :: u in r <==> u in users && UserMatches(u, searchTerm, roleFilter)
    ensures IsSubseq(r, users)
    ensures KeepsEveryCopy(r, users, UserFilter(searchTerm, roleFilter))
  {
    FilterIsSubseq(users, UserFilter(searchTerm, roleFilter));
    FilterKeepsEveryCopy(users, UserFilter(searchTerm, roleFilter));
    Filter(users, UserFilter(searchTerm, roleFilter))
  }

  function UserRoleName(user: User): string
  {
    RoleName(user.role)
  }

  const RoleLabels: seq<string> := ["client", "financier", "admin"]

  /** `roleCounts`: how many users carry each role name. */
  method RoleCounts(users: seq<User>) returns (counts: map<string, nat>)
    ensures forall k :: CountOf(counts, k) == multiset(Names(users, UserRoleName))[k]
    ensures forall k :: k in counts ==> k in RoleLabels
  {
    counts := Tally(Names(users, UserRoleName));
  }

  function HasRole(role: Role): User -> bool
  {
    (user: User) => user.role == role
  }

  /** Each role count is the number of users with that role, and the three counts add up
      to the number of users. */
  lemma RoleCountsCoverUsers(users: seq<User>)
    ensures forall r: Role :: multiset(Names(users, UserRoleName))[RoleName(r)] == Count(users, HasRole(r))
    ensures TotalCount(multiset(Names(users, UserRoleName)), RoleLabels) == |users|
  {
    forall r: Role
      ensures multiset(Names(users, UserRoleName))[RoleName(r)] == Count(users, HasRole(r))
    {
      NamesCount(users, UserRoleName, RoleName(r), HasRole(r));
    }
    CountsCoverAll(Names(users, UserRoleName), RoleLabels);
  }

  /** `n[0]` joined into the result: the first character of a word, nothing for an empty
      word (`undefined` joins as the empty string). */
  function Initial(word: string): string
  {
    if word == [] then [] else [word[0]]
  }

  predicate IsNonEmpty(word: string)
  {
    word != []
  }

  /** The first characters of the non-empty words, in order. */
  function InitialsOf(words: seq<string>): (r: string)
    ensures |r| == Count(words, IsNonEmpty)
    ensures forall k :: 0 <= k < |r| ==> r[k] == Filter(words, IsNonEmpty)[k][0]
  {
    if words == [] then []
    else
      var rest := InitialsOf(words[1..]);
      assert words[0] != [] ==> Filter(words, IsNonEmpty) == [words[0]] + Filter(words[1..], IsNonEmpty);
      Initial(words[0]) + rest
  }

  /** The avatar text: the first character of each space-separated piece of the name. It has
      one letter per non-empty word, so runs of spaces add nothing. */
  function Initials(name: string): (r: string)
    ensures |r| == Count(Split(name, ' '), IsNonEmpty)
    ensures forall k :: 0 <= k < |r| ==> r[k] == Filter(Split(name, ' '), IsNonEmpty)[k][0]
    ensures forall k :: 0 <= k < |r| ==> r[k] != ' '
  {
    InitialsNoSpace(Split(name, ' '));
    InitialsOf(Split(name, ' '))
  }

  lemma {:induction false} InitialsNoSpace(words: seq<string>)
    requires forall k :: 0 <= k < |words| ==> ' ' !in words[k]
    ensures forall k :: 0 <= k < |InitialsOf(words)| ==> InitialsOf(words)[k] != ' '
  {
    if words != [] {
      InitialsNoSpace(words[1..]);
      var w := words[0];
      if w != [] {
        assert w[0] in w;
      }
    }
  }

  /** Each word of a name without spaces around it contributes its first letter. */
  lemma {:induction false} InitialsOfTwoWords(first: string, last: string)
    requires first != [] && last != [] && ' ' !in first && ' ' !in last
    ensures Initials(first + " " + last) == [first[0], last[0]]
  {
    SplitAtSeparator(first, last, ' ');
    SplitNoSeparator(last, ' ');
    assert Split(first + " " + last, ' ') == [first, last];
    assert [first, last][1..] == [last];
    assert InitialsOf([last]) == [last[0]];
  }

  /** A row of the table body. */
  datatype UserRow = NoUsersFound | UserRow(user: User)

  function TableRows(filtered: seq<User>): (rows: seq<UserRow>)
    ensures filtered == [] <==> rows == [NoUsersFound]
    ensures filtered != [] ==> |rows| == |filtered| && forall i :: 0 <= i < |rows| ==> rows[i] == UserRow(filtered[i])
  {
    if filtered == [] then [NoUsersFound]
    else
      var rows := seq(|filtered|, i requires 0 <= i < |filtered| => UserRow(filtered[i]));
      assert rows[0].UserRow?;
      rows
  }

  /** What the create and edit dialogs pass on: name, email and role only. */
  function DialogPayload(name: string, email: string, role: Role): UserPatch
  {
    UserPatch(None, Some(email), Some(name), Some(role), None, None)
  }

  /** Editing through the dialog replaces name, email and role, and keeps the id, the
      creation date and the avatar. */
  lemma EditKeepsIdentity(user: User, name: string, email: string, role: Role)
    ensures ApplyUserPatch(user, DialogPayload(name, email, role))
      == user.(name := name, email := email, role := role)
  {
  }

  /** The payload of the create dialog satisfies what the page's create handler needs. */
  lemma CreatePayloadComplete(name: string, email: string, role: Role)
    ensures var p := DialogPayload(name, email, role); p.name.Some? && p.email.Some? && p.role.Some?
    ensures NewUser("id", 0, DialogPayload(name, email, role)).name == name
  {
  }

  datatype UpdateCall = UpdateCall(userId: string, patch: UserPatch)

  class UserTableState {
    var isCreateModalOpen: bool
    var selectedUser: Option<User>
    var isEditModalOpen: bool

    constructor()
      ensures !isCreateModalOpen && selectedUser.None? && !isEditModalOpen
    {
      isCreateModalOpen := false;
      selectedUser := None;
      isEditModalOpen := false;
    }

    /** The edit button of a row. */
    method OpenEdit(user: User)
      modifies this
      ensures selectedUser == Some(user) && isEditModalOpen && isCreateModalOpen == old(isCreateModalOpen)
    {
      selectedUser := Some(user);
      isEditModalOpen := true;
    }

    /** The create dialog's submit: `onCreateUser` gets the payload and the dialog closes. */
    method SubmitCreate(name: string, email: string, role: Role) returns (payload: UserPatch)
      modifies this
      ensures payload == DialogPayload(name, email, role) && !isCreateModalOpen
      ensures selectedUser == old(selectedUser) && isEditModalOpen == old(isEditModalOpen)
    {
      payload := DialogPayload(name, email, role);
      isCreateModalOpen := false;
    }

    /** The edit dialog's submit, whose form exists only while a user is selected. */
    method SubmitEdit(name: string, email: string, role: Role) returns (call: UpdateCall)
      requires selectedUser.Some?
      modifies this
      ensures call == UpdateCall(old(selectedUser).value.id, DialogPayload(name, email, role))
      ensures selectedUser.None? && !isEditModalOpen && isCreateModalOpen == old(isCreateModalOpen)
    {
      call := UpdateCall(selectedUser.value.id, DialogPayload(name, email, role));
      isEditModalOpen := false;
      selectedUser := None;
    }
  }
}
