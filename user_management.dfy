/** The user list's search box in `src/pages/users/UserManagement.tsx`. */
module UserManagement {
  import Lists
  import Text
  import Search
  import UsersApi

  /** A user matches on the name or on the email, ignoring case. */
  predicate UserMatches(u: UsersApi.User, query: string)
  {
    Search.Matches(u.name, query) || Search.Matches(u.email, query)
  }

  function QueryMatches(query: string): UsersApi.User -> bool
  {
    (u: UsersApi.User) => UserMatches(u, query)
  }

  /**
   * `filteredUsers`: every user for an empty query, otherwise the users
   * whose name or email contains the query, ignoring case, in their order.
   */
  function FilterUsers(users: seq<UsersApi.User>, query: string): (r: seq<UsersApi.User>)
    ensures query == [] ==> r == users
    ensures Lists.IsSubsequence(r, users)
    ensures query != [] ==> forall u :: u in r <==> u in users && UserMatches(u, query)
  {
    if query == [] then
      Lists.SubsequenceRefl(users);
      users
    else
      var r := Lists.Filter(users, QueryMatches(query));
      assert forall u :: u in r ==> QueryMatches(query)(u) by {
        forall u | u in r ensures QueryMatches(query)(u) {
          var i :| 0 <= i < |r| && r[i] == u;
        }
      }
      r
  }

  /** A user with no name set is still found by the email alone. */
  lemma NamelessFoundByEmail(users: seq<UsersApi.User>, u: UsersApi.User, query: string)
    requires u in users && u.name == [] && query != []
    requires Search.Matches(u.email, query)
    ensures u in FilterUsers(users, query)
  {
  }

  /** A user with no name set and a non-matching email is never listed. */
  lemma NamelessNotFound(users: seq<UsersApi.User>, u: UsersApi.User, query: string)
    requires u.name == [] && query != []
    requires !Search.Matches(u.email, query)
    ensures u !in FilterUsers(users, query)
  {
    assert |Text.Lower(query)| > 0;
  }
}
