/**
 * The user store of `src/store/users.ts`: the tenant's users as last
 * fetched, kept up to date by the store's own creates and updates, with the
 * loading and error fields.
 *
 * Each action is one step to its settled state, given the settled result of
 * the user service call it makes.
 */
module UsersStore {
  import opened Basics
  import opened UsersApi

  const FETCH_ERROR: string := "Erro ao carregar usuários"
  const CREATE_FAILED: string := "Erro ao criar usuário"
  const UPDATE_FAILED: string := "Erro ao atualizar usuário"

  /**
   * `users.map(u => u.id === id ? user : u)`: the entries with that id
   * become `user`; every other entry stays where it was.
   */
  function ReplaceById(users: seq<User>, id: string, user: User): (r: seq<User>)
    ensures |r| == |users|
    ensures forall i :: 0 <= i < |users| && users[i].id == id ==> r[i] == user
    ensures forall i :: 0 <= i < |users| && users[i].id != id ==> r[i] == users[i]
  {
    seq(|users|, i requires 0 <= i < |users| => if users[i].id == id then user else users[i])
  }

  /** The ids of a list, in order. */
  function Ids(users: seq<User>): (r: seq<string>)
    ensures |r| == |users| && forall i :: 0 <= i < |users| ==> r[i] == users[i].id
  {
    seq(|users|, i requires 0 <= i < |users| => users[i].id)
  }

  /** Replacing by id with a user that carries that id leaves the ids, and so the order, as they were. */
  lemma ReplaceByIdKeepsIds(users: seq<User>, id: string, user: User)
    requires user.id == id
    ensures Ids(ReplaceById(users, id, user)) == Ids(users)
  {
  }

  /** Replacing an id the list does not hold changes nothing. */
  lemma ReplaceAbsentId(users: seq<User>, id: string, user: User)
    requires forall i :: 0 <= i < |users| ==> users[i].id != id
    ensures ReplaceById(users, id, user) == users
  {
  }

  class UserStore {
    var users: seq<User>
    var isLoading: bool
    var error: Option<string>

    constructor ()
      ensures users == [] && !isLoading && error.None?
    {
      users := [];
      isLoading := false;
      error := None;
    }

    /** `fetchUsers()`, given the result of `findAll`: a failure keeps the previous list. */
    method FetchUsers(found: Result<seq<User>>)
      modifies this
      ensures !isLoading
      ensures found.Ok? ==> users == found.value && error.None?
      ensures found.Threw? ==> users == old(users) && error == Some(MessageOr(found.thrown, FETCH_ERROR))
    {
      isLoading, error := true, None;
      match found {
        case Ok(list) => users, error := list, None;
        case Threw(e) => error := Some(MessageOr(e, FETCH_ERROR));
      }
      isLoading := false;
    }

    /** `createUser(data)`, given the result of `create`: prepend, or record the error and rethrow it. */
    method CreateUser(created: Result<User>) returns (r: Result<User>)
      modifies this
      ensures r == created
      ensures created.Ok? ==> users == [created.value] + old(users) && error == old(error)
      ensures created.Threw? ==> users == old(users) && error == Some(MessageOr(created.thrown, CREATE_FAILED))
      ensures isLoading == old(isLoading)
    {
      match created {
        case Ok(u) => users := [u] + users;
        case Threw(e) => error := Some(MessageOr(e, CREATE_FAILED));
      }
      r := created;
    }

    /** `updateUser(id, data)`, given the result of `update`: replace by id, or record the error and rethrow it. */
    method UpdateUser(id: string, updated: Result<User>) returns (r: Result<User>)
      modifies this
      ensures r == updated
      ensures updated.Ok? ==> users == ReplaceById(old(users), id, updated.value) && error == old(error)
      ensures updated.Threw? ==> users == old(users) && error == Some(MessageOr(updated.thrown, UPDATE_FAILED))
      ensures isLoading == old(isLoading)
    {
      match updated {
        case Ok(u) => users := ReplaceById(users, id, u);
        case Threw(e) => error := Some(MessageOr(e, UPDATE_FAILED));
      }
      r := updated;
    }
  }
}
