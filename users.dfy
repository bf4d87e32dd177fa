/** The administrator's user list and its search. */
module Users {
  import opened Wrappers
  import opened Text
  import opened Seqs

  /** A "users" document. */
  datatype User = User(uid: string, displayName: Option<string>, email: Option<string>, role: string, isDisabled: bool)

  /** `field?.contains(query, ignoreCase = true) == true`: a missing field never matches. */
  predicate FieldContains(field: Option<string>, query: string) {
    field.Some? && ContainsIgnoreCase(field.value, query)
  }

  predicate UserMatches(u: User, query: string) {
    FieldContains(u.displayName, query) || FieldContains(u.email, query)
  }

  /** `filteredUsers`. */
  function FilteredUsers(users: seq<User>, query: string): seq<User> {
    if IsBlank(query) then users else Filter(users, (u: User) => UserMatches(u, query))
  }

  /**
   * A blank query lists everyone; otherwise a user is listed iff the display name or the
   * e-mail contains the query ignoring case, in the original order.
   */
  lemma FilteredUsersCorrect(users: seq<User>, query: string)
    ensures IsBlank(query) ==> FilteredUsers(users, query) == users
    ensures !IsBlank(query) ==> forall u :: u in FilteredUsers(users, query) <==> u in users && UserMatches(u, query)
    ensures IsSubsequence(FilteredUsers(users, query), users)
  {
    if IsBlank(query) {
      SubsequenceReflexive(users);
    } else {
      FilterIsSubsequence(users, (u: User) => UserMatches(u, query));
    }
  }

  /** A user with neither a display name nor an e-mail is never found by a non-blank query. */
  lemma AnonymousNeverMatches(users: seq<User>, query: string, u: User)
    requires u.displayName.None? && u.email.None? && !IsBlank(query)
    ensures u !in FilteredUsers(users, query)
  {
  }

  class UsersViewModel {
    var users: seq<User>
    var searchQuery: string

    constructor()
      ensures users == [] && searchQuery == ""
    {
      users := [];
      searchQuery := "";
    }

    function Filtered(): seq<User>
      reads this
    {
      FilteredUsers(users, searchQuery)
    }

    /** `fetchAllUsers`: a failed query keeps the previous list. */
    method FetchAllUsers(result: Result<seq<User>, string>)
      modifies this
      ensures result.Success? ==> users == result.value
      ensures result.Failure? ==> users == old(users)
      ensures searchQuery == old(searchQuery)
    {
      if result.Success? {
        users := result.value;
      }
    }

    method OnSearchQueryChange(query: string)
      modifies this
      ensures searchQuery == query && users == old(users)
    {
      searchQuery := query;
    }
  }
}
