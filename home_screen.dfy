/** The contact list: every other user, narrowed by a case-insensitive
    search on the user name. */
module Home {
  import opened JsString
  import opened Firestore

  /** The `users.filter` callback: the lower-cased name includes the
      lower-cased query. */
  predicate Matches(user: Doc<UserRecord>, query: string) {
    Contains(ToLower(user.data.username), ToLower(query))
  }

  /** `users.filter(...)`: the users that match, in the order given. */
  function FilterUsers(users: seq<Doc<UserRecord>>, query: string): (r: seq<Doc<UserRecord>>)
    ensures |r| <= |users|
    ensures forall u :: u in r ==> u in users && Matches(u, query)
  {
    if users == [] then []
    else (if Matches(users[0], query) then [users[0]] else []) + FilterUsers(users[1..], query)
  }

  /** `r` is `s` with some elements left out and the rest kept in order. */
  predicate IsSubsequence<T(==)>(r: seq<T>, s: seq<T>)
    decreases |s|
  {
    if r == [] then true
    else if s == [] then false
    else (r[0] == s[0] && IsSubsequence(r[1..], s[1..])) || IsSubsequence(r, s[1..])
  }

  /** The filter keeps the users' order and invents no user. */
  lemma {:induction false} FilterIsSubsequence(users: seq<Doc<UserRecord>>, query: string)
    ensures IsSubsequence(FilterUsers(users, query), users)
    decreases |users|
  {
    if users != [] {
      FilterIsSubsequence(users[1..], query);
      var r := FilterUsers(users, query);
      if Matches(users[0], query) {
        assert r[0] == users[0] && r[1..] == FilterUsers(users[1..], query);
      } else {
        assert r == FilterUsers(users[1..], query);
        assert r != [] ==> IsSubsequence(r, users[1..]);
      }
    }
  }

  /** A user is listed exactly when it is one of `users` and matches. */
  lemma {:induction false} FilterMembership(users: seq<Doc<UserRecord>>, query: string, u: Doc<UserRecord>)
    ensures u in FilterUsers(users, query) <==> u in users && Matches(u, query)
    decreases |users|
  {
    if users != [] {
      FilterMembership(users[1..], query, u);
      assert users == [users[0]] + users[1..];
    }
  }

  /** Filtering a concatenation filters each part. */
  lemma {:induction false} FilterAppend(a: seq<Doc<UserRecord>>, b: seq<Doc<UserRecord>>, query: string)
    ensures FilterUsers(a + b, query) == FilterUsers(a, query) + FilterUsers(b, query)
    decreases |a|
  {
    if a == [] {
      assert a + b == b;
    } else {
      var head := if Matches(a[0], query) then [a[0]] else [];
      assert (a + b)[0] == a[0] && (a + b)[1..] == a[1..] + b;
      assert FilterUsers(a + b, query) == head + FilterUsers(a[1..] + b, query);
      FilterAppend(a[1..], b, query);
      assert FilterUsers(a, query) == head + FilterUsers(a[1..], query);
    }
  }

  /** The empty query keeps every user, in order. */
  lemma {:induction false} FilterEmptyQuery(users: seq<Doc<UserRecord>>)
    ensures FilterUsers(users, "") == users
    decreases |users|
  {
    if users != [] {
      ContainsEmpty(ToLower(users[0].data.username));
      FilterEmptyQuery(users[1..]);
    }
  }

  /** Running the same query over its own result changes nothing. */
  lemma {:induction false} FilterIdempotent(users: seq<Doc<UserRecord>>, query: string)
    ensures FilterUsers(FilterUsers(users, query), query) == FilterUsers(users, query)
    decreases |users|
  {
    if users != [] {
      FilterIdempotent(users[1..], query);
      var rest := FilterUsers(users[1..], query);
      if Matches(users[0], query) {
        assert FilterUsers(users, query) == [users[0]] + rest;
        assert FilterUsers(users, query)[1..] == rest;
        assert FilterUsers([users[0]] + rest, query) == [users[0]] + FilterUsers(rest, query);
      } else {
        assert FilterUsers(users, query) == rest;
      }
    }
  }

  /** The list the screen renders: the filtered users while the search
      box is non-empty, all users otherwise. */
  function DisplayedUsers(searchQuery: string, users: seq<Doc<UserRecord>>, filteredUsers: seq<Doc<UserRecord>>): seq<Doc<UserRecord>> {
    if |searchQuery| > 0 then filteredUsers else users
  }

  /** After a search the rendered list is the filter's result for that
      query, whether or not the query is empty. */
  lemma SearchShowsMatches(users: seq<Doc<UserRecord>>, query: string)
    ensures DisplayedUsers(query, users, FilterUsers(users, query)) == FilterUsers(users, query)
    ensures query == "" ==> DisplayedUsers(query, users, FilterUsers(users, query)) == users
  {
    if query == "" { FilterEmptyQuery(users); }
  }

  /** A snapshot resets the filtered list to all users without re-running
      the search, so a non-empty search box can sit above a user it does
      not match. */
  lemma SnapshotIgnoresActiveQuery()
    ensures var users := [Doc("u2", UserRecord("b@x.com", "bob", "u2"))];
            DisplayedUsers("zz", users, users) == users && !Matches(users[0], "zz")
  {
    var users := [Doc("u2", UserRecord("b@x.com", "bob", "u2"))];
    assert ToLower("bob") == "bob";
    assert ToLower("zz") == "zz";
    ContainsIffOccurs("bob", "zz");
    assert forall i :: OccursAt("bob", "zz", i) ==> "bob"[i] == 'z';
  }

  /** The list screen's state. `users` excludes the signed-in user: the
      subscription's query asks the store for `uid != currentUser.uid`. */
  class HomeScreen {
    var users: seq<Doc<UserRecord>>
    var filteredUsers: seq<Doc<UserRecord>>
    var searchQuery: string

    constructor ()
      ensures users == [] && filteredUsers == [] && searchQuery == ""
    {
      users, filteredUsers, searchQuery := [], [], "";
    }

    /** The `data` of the FlatList. */
    function Displayed(): seq<Doc<UserRecord>>
      reads this
    {
      DisplayedUsers(searchQuery, users, filteredUsers)
    }

    /** The snapshot listener: both lists become the snapshot's documents. */
    method OnSnapshot(docs: seq<Doc<UserRecord>>)
      modifies this`users, this`filteredUsers
      ensures users == docs && filteredUsers == docs
      ensures Displayed() == docs
    {
      users := docs;
      filteredUsers := docs;
    }

    /** `handleSearch(query)`: records the query and filters the full user
        list, never the previous result. */
    method HandleSearch(query: string)
      modifies this`searchQuery, this`filteredUsers
      ensures searchQuery == query
      ensures filteredUsers == FilterUsers(users, query)
      ensures Displayed() == FilterUsers(users, query)
      ensures forall u :: u in Displayed() <==> u in users && Matches(u, query)
    {
      searchQuery := query;
      filteredUsers := FilterUsers(users, query);
      SearchShowsMatches(users, query);
      forall u ensures u in filteredUsers <==> u in users && Matches(u, query) {
        FilterMembership(users, query, u);
      }
    }
  }

  /** Typing a narrower query and then the wider one again gives the
      wider query's result: each search starts from the full list. */
  method NarrowThenWiden(home: HomeScreen, wide: string, narrow: string)
    modifies home
    ensures home.users == old(home.users)
    ensures home.Displayed() == FilterUsers(home.users, wide)
  {
    home.HandleSearch(narrow);
    home.HandleSearch(wide);
  }
}
