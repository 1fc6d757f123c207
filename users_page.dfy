/**
 * The admin's users page (app/users/page.tsx): it holds the user list and appends,
 * merges into and removes users.
 */
module UsersPage {
  import opened Wrappers
  import opened Types
  import opened Seqs

  /** `Partial<User>`: each field may be absent. */
  datatype UserPatch = UserPatch(
    id: Option<string>,
    email: Option<string>,
    name: Option<string>,
    role: Option<Role>,
    avatar: Option<string>,
    createdAt: Option<int>)

  const EmptyUserPatch := UserPatch(None, None, None, None, None, None)

  /** `{ ...user, ...patch }`: the fields present in the patch win. */
  function ApplyUserPatch(user: User, patch: UserPatch): (r: User)
    ensures r.id == (if patch.id.Some? then patch.id.value else user.id)
    ensures r.email == (if patch.email.Some? then patch.email.value else user.email)
    ensures r.name == (if patch.name.Some? then patch.name.value else user.name)
    ensures r.role == (if patch.role.Some? then patch.role.value else user.role)
    ensures r.avatar == (if patch.avatar.Some? then patch.avatar else user.avatar)
    ensures r.createdAt == (if patch.createdAt.Some? then patch.createdAt.value else user.createdAt)
    ensures patch == EmptyUserPatch ==> r == user
  {
    User(patch.id.GetOr(user.id), patch.email.GetOr(user.email), patch.name.GetOr(user.name),
         patch.role.GetOr(user.role), if patch.avatar.Some? then patch.avatar else user.avatar,
         patch.createdAt.GetOr(user.createdAt))
  }

  /** The user `handleCreateUser` builds: fresh id and creation time, no avatar. */
  function NewUser(newId: string, now: int, data: UserPatch): User
    requires data.name.Some? && data.email.Some? && data.role.Some?
  {
    User(newId, data.email.value, data.name.value, data.role.value, None, now)
  }

  /** The users with id `userId` get the patch merged in; every other user is kept. */
  function UpdatedUsers(users: seq<User>, userId: string, patch: UserPatch): (r: seq<User>)
    ensures |r| == |users|
    ensures forall i :: 0 <= i < |users| ==>
      r[i] == if users[i].id == userId then ApplyUserPatch(users[i], patch) else users[i]
  {
    seq(|users|, i requires 0 <= i < |users| =>
      if users[i].id == userId then ApplyUserPatch(users[i], patch) else users[i])
  }

  function HasUserId(userId: string): User -> bool
  {
    (user: User) => user.id == userId
  }

  function LacksUserId(userId: string): User -> bool
  {
    (user: User) => user.id != userId
  }

  /** The users whose id is not `userId`, in order. */
  function DeletedUsers(users: seq<User>, userId: string): (r: seq<User>)
    ensures forall u :: u in r <==> u in users && u.id != userId
    ensures IsSubseq(r, users)
    ensures KeepsEveryCopy(r, users, LacksUserId(userId))
  {
    FilterIsSubseq(users, LacksUserId(userId));
    FilterKeepsEveryCopy(users, LacksUserId(userId));
    Filter(users, LacksUserId(userId))
  }

  /** Deleting removes as many users as carry the id, and an absent id removes nothing. */
  lemma DeleteRemovesExactlyTheId(users: seq<User>, userId: string)
    ensures |DeletedUsers(users, userId)| == |users| - Count(users, HasUserId(userId))
    ensures (forall i :: 0 <= i < |users| ==> users[i].id != userId) ==> DeletedUsers(users, userId) == users
  {
    CountSplit(users, HasUserId(userId), LacksUserId(userId));
    if forall i :: 0 <= i < |users| ==> users[i].id != userId {
      FilterAll(users, LacksUserId(userId));
    }
  }

  /** Updating an absent id changes nothing; an empty patch changes nothing either. */
  lemma UpdateUnknownIdChangesNothing(users: seq<User>, userId: string, patch: UserPatch)
    ensures (forall i :: 0 <= i < |users| ==> users[i].id != userId) ==> UpdatedUsers(users, userId, patch) == users
    ensures UpdatedUsers(users, userId, EmptyUserPatch) == users
  {
  }

  class UsersPageState {
    var users: seq<User>

    constructor(initial: seq<User>)
      ensures users == initial
    {
      users := initial;
    }

    /** `handleCreateUser`; `newId` and `now` stand for the timestamp-based id and the
        creation date. */
    method CreateUser(newId: string, now: int, data: UserPatch)
      requires data.name.Some? && data.email.Some? && data.role.Some?
      modifies this
      ensures users == old(users) + [NewUser(newId, now, data)]
      ensures |users| == |old(users)| + 1
      ensures users[|users| - 1].name == data.name.value && users[|users| - 1].email == data.email.value
      ensures users[|users| - 1].role == data.role.value
    {
      users := users + [NewUser(newId, now, data)];
    }

    /** `handleUpdateUser`. */
    method UpdateUser(userId: string, patch: UserPatch)
      modifies this
      ensures users == UpdatedUsers(old(users), userId, patch)
    {
      users := UpdatedUsers(users, userId, patch);
    }

    /** `handleDeleteUser`. */
    method DeleteUser(userId: string)
      modifies this
      ensures users == DeletedUsers(old(users), userId)
    {
      users := DeletedUsers(users, userId);
    }
  }
}
