/** The form that creates a workspace: a name, a description, the members
    picked from the users the backend lists, and a search box that filters
    that list by username. */
module WorkspaceForm {
  import opened Base
  import opened ChatTypes

  const UsersLoadError := "Erreur lors de la récupération des utilisateurs"

  predicate NoDuplicates(s: seq<string>) {
    forall i, j :: 0 <= i < j < |s| ==> s[i] != s[j]
  }

  // ---------------------------------------------------------------------
  // The member list

  /** Adding a member: the id ends up in the list, every earlier entry stays
      where it was, and the list grows only when the id was absent. */
  function WithMember(members: seq<string>, id: string): (r: seq<string>)
    ensures id in r
    ensures |r| == |members| + (if id in members then 0 else 1)
    ensures r[..|members|] == members
    ensures id !in members ==> r[|members|] == id
  {
    if id in members then members else members + [id]
  }

  /** Removing a member: no occurrence of the id is left, and every other
      id keeps exactly as many occurrences as it had. */
  function WithoutMember(members: seq<string>, id: string): (r: seq<string>)
    ensures id !in r
    ensures forall x :: x != id ==> multiset(r)[x] == multiset(members)[x]
    ensures |r| <= |members|
    decreases |members|
  {
    if members == [] then []
    else
      var rest := WithoutMember(members[1..], id);
      assert members == [members[0]] + members[1..];
      if members[0] == id then rest else [members[0]] + rest
  }

  /** Removing keeps the relative order: it acts on a concatenation piece
      by piece. */
  lemma {:induction false} WithoutMemberAppend(a: seq<string>, b: seq<string>, id: string)
    ensures WithoutMember(a + b, id) == WithoutMember(a, id) + WithoutMember(b, id)
    decreases |a|
  {
    if a != [] {
      assert (a + b)[1..] == a[1..] + b;
      WithoutMemberAppend(a[1..], b, id);
    } else {
      assert a + b == b;
    }
  }

  lemma AddKeepsNoDuplicates(members: seq<string>, id: string)
    requires NoDuplicates(members)
    ensures NoDuplicates(WithMember(members, id))
  {
  }

  lemma {:induction false} RemoveKeepsNoDuplicates(members: seq<string>, id: string)
    requires NoDuplicates(members)
    ensures NoDuplicates(WithoutMember(members, id))
    decreases |members|
  {
    if members != [] {
      var rest := WithoutMember(members[1..], id);
      RemoveKeepsNoDuplicates(members[1..], id);
      if members[0] != id {
        assert members[0] !in members[1..];
        assert multiset(members[1..])[members[0]] == 0;
        assert members[0] !in rest;
      }
    }
  }

  /** Removing a member and adding it back leaves it exactly once, at the
      end, with every other member as before. */
  lemma RemoveThenAdd(members: seq<string>, id: string)
    ensures var r := WithMember(WithoutMember(members, id), id);
      multiset(r)[id] == 1 && r[|r| - 1] == id &&
      forall x :: x != id ==> multiset(r)[x] == multiset(members)[x]
  {
    var w := WithoutMember(members, id);
    var r := WithMember(w, id);
    assert r == w + [id];
    assert multiset(r) == multiset(w) + multiset{id};
  }

  // ---------------------------------------------------------------------
  // The user filter

  /** A username matches when, both lower-cased, it includes the query. */
  predicate Matches(u: User, query: string) {
    Contains(ToLower(u.username), ToLower(query))
  }

  /** `filteredUsers`: the users whose username matches, in their original
      order. */
  function FilterUsers(users: seq<User>, query: string): (r: seq<User>)
    ensures |r| <= |users|
    ensures forall u :: u in r ==> u in users && Matches(u, query)
    ensures forall u :: u in users && Matches(u, query) ==> u in r
    decreases |users|
  {
    if users == [] then []
    else (if Matches(users[0], query) then [users[0]] else []) + FilterUsers(users[1..], query)
  }

  lemma {:induction false} FilterUsersAppend(a: seq<User>, b: seq<User>, query: string)
    ensures FilterUsers(a + b, query) == FilterUsers(a, query) + FilterUsers(b, query)
    decreases |a|
  {
    if a != [] {
      assert (a + b)[1..] == a[1..] + b;
      FilterUsersAppend(a[1..], b, query);
    } else {
      assert a + b == b;
    }
  }

  /** An empty search box lists every user. */
  lemma {:induction false} EmptyQueryKeepsAll(users: seq<User>)
    ensures FilterUsers(users, "") == users
    decreases |users|
  {
    if users != [] {
      ContainsEmpty(ToLower(users[0].username));
      EmptyQueryKeepsAll(users[1..]);
    }
  }

  /** Lower-casing twice is lower-casing once. */
  lemma ToLowerIdempotent(s: string)
    ensures ToLower(ToLower(s)) == ToLower(s)
  {
  }

  /** The filter ignores the case of the query. */
  lemma FilterIgnoresQueryCase(users: seq<User>, query: string)
    ensures FilterUsers(users, ToLower(query)) == FilterUsers(users, query)
  {
    ToLowerIdempotent(query);
  }

  // ---------------------------------------------------------------------
  // The form

  /** The workspace handed to `onCreateWorkspace`. */
  datatype Draft = Draft(name: string, description: string, members: seq<string>)

  /** The callbacks the form fires, in order. */
  datatype FormCall = CreateWorkspace(draft: Draft) | Close

  class CreateWorkspaceForm {
    const userId: string
    const token: string
    var name: string
    var description: string
    var members: seq<string>
    var availableUsers: seq<User>
    var loading: bool
    var error: Option<string>
    var searchQuery: string

    /** The member list never holds an id twice. */
    ghost predicate Valid()
      reads this
    {
      NoDuplicates(members)
    }

    constructor (userId: string, token: string)
      ensures Valid()
      ensures this.userId == userId && this.token == token
      ensures name == "" && description == "" && members == [] && availableUsers == []
      ensures loading && error == None && searchQuery == ""
    {
      this.userId, this.token := userId, token;
      name, description, members, availableUsers := "", "", [], [];
      loading, error, searchQuery := true, None, "";
    }

    /** Completion of the users fetch made at mount. */
    method UsersLoaded(outcome: Fetch<seq<User>>)
      modifies this`availableUsers, this`error, this`loading
      ensures outcome.Fetched? ==> availableUsers == outcome.value && error == old(error)
      ensures outcome.FetchFailed? ==> availableUsers == old(availableUsers) && error == Some(UsersLoadError)
      ensures !loading
    {
      match outcome {
        case Fetched(users) => availableUsers := users;
        case FetchFailed(_) => error := Some(UsersLoadError);
      }
      loading := false;
    }

    /** The users listed under the search box. */
    function FilteredUsers(): seq<User>
      reads this
    {
      FilterUsers(availableUsers, searchQuery)
    }

    method AddMember(id: string)
      requires Valid()
      modifies this`members
      ensures Valid()
      ensures members == WithMember(old(members), id)
    {
      if id !in members {
        members := members + [id];
      }
    }

    method RemoveMember(id: string)
      requires Valid()
      modifies this`members
      ensures Valid()
      ensures members == WithoutMember(old(members), id)
    {
      RemoveKeepsNoDuplicates(members, id);
      members := WithoutMember(members, id);
    }

    /** Submitting: with a name, a description and at least one member the
        form hands the workspace to `onCreateWorkspace` and then calls
        `onClose`; otherwise it does nothing. The form itself is unchanged. */
    method Submit() returns (calls: seq<FormCall>)
      ensures calls != [] <==> name != "" && description != "" && |members| > 0
      ensures calls != [] ==> calls == [CreateWorkspace(Draft(name, description, members)), Close]
    {
      calls := [];
      if name != "" && description != "" && |members| > 0 {
        calls := calls + [CreateWorkspace(Draft(name, description, members))];
        calls := calls + [Close];
      }
    }
  }
}
