/**
 The user roster screen: a search over name and e-mail combined with a status
 filter chosen from "all", "active" and "inactive".
 */
module Users {
  import Seqs
  import FilterEngine

  datatype User = User(
    id: int,
    name: string,
    email: string,
    phone: string,
    location: string,
    joinDate: string,
    status: string,
    plan: string,
    lastActive: string
  )

  /** The status filter buttons, in display order. */
  const StatusFilters: seq<string> := ["all", "active", "inactive"]

  /** The roster the screen displays. */
  const SampleUsers: seq<User> := [
    User(1, "John Doe", "john.doe@email.com", "+1 (555) 123-4567", "New York, USA", "2025-06-24", "active", "Pro", "2 hours ago"),
    User(2, "Jane Smith", "jane.smith@email.com", "+1 (555) 987-6543", "Los Angeles, USA", "2025-06-23", "active", "Basic", "5 minutes ago"),
    User(3, "Mike Johnson", "mike.j@email.com", "+1 (555) 456-7890", "Chicago, USA", "2025-06-22", "inactive", "Pro", "2 days ago"),
    User(4, "Sarah Wilson", "sarah.w@email.com", "+1 (555) 321-0987", "Miami, USA", "2025-06-21", "active", "Enterprise", "1 hour ago"),
    User(5, "Alex Brown", "alex.brown@email.com", "+1 (555) 654-3210", "Seattle, USA", "2025-06-20", "active", "Basic", "30 minutes ago")
  ]

  function SearchFields(u: User): (string, string)
  {
    (u.name, u.email)
  }

  function Status(u: User): string
  {
    u.status
  }

  /** Whether the search term and status filter keep user `u`. */
  predicate Kept(u: User, searchTerm: string, filterActive: string)
  {
    FilterEngine.SearchMatches(searchTerm, SearchFields(u))
    && FilterEngine.CategoryMatches(filterActive, u.status)
  }

  /** The users shown for a search term and status filter. */
  function FilterUsers(users: seq<User>, searchTerm: string, filterActive: string): (r: seq<User>)
    ensures Seqs.IsSubseq(r, users)
    ensures |r| <= |users|
    ensures forall i :: 0 <= i < |users| ==> (users[i] in r <==> Kept(users[i], searchTerm, filterActive))
    ensures filterActive != FilterEngine.All ==> forall i :: 0 <= i < |r| ==> r[i].status == filterActive
    ensures |r| == |set i | 0 <= i < |users| && Kept(users[i], searchTerm, filterActive)|
  {
    var q := FilterEngine.Query(searchTerm, filterActive);
    Seqs.FilterLength(users, FilterEngine.Keep(q, SearchFields, Status));
    assert Seqs.KeptIndices(users, FilterEngine.Keep(q, SearchFields, Status))
        == set i | 0 <= i < |users| && Kept(users[i], searchTerm, filterActive) by {
      forall i | 0 <= i < |users|
        ensures FilterEngine.Keep(q, SearchFields, Status)(users[i]) == Kept(users[i], searchTerm, filterActive)
      {
      }
    }
    FilterEngine.Apply(users, q, SearchFields, Status)
  }

  /** No search term and the "all" filter show the whole roster unchanged. */
  lemma ShowAll(users: seq<User>)
    ensures FilterUsers(users, "", "all") == users
  {
    FilterEngine.ApplyNeutral(users, SearchFields, Status);
  }

  /** Filtering the shown users again with the same settings changes nothing. */
  lemma FilterUsersIdempotent(users: seq<User>, searchTerm: string, filterActive: string)
    ensures FilterUsers(FilterUsers(users, searchTerm, filterActive), searchTerm, filterActive)
         == FilterUsers(users, searchTerm, filterActive)
  {
    FilterEngine.ApplyIdempotent(users, FilterEngine.Query(searchTerm, filterActive), SearchFields, Status);
  }

  /** The shown users are those the search alone keeps, narrowed by the status filter alone. */
  lemma FilterUsersSplits(users: seq<User>, searchTerm: string, filterActive: string)
    ensures FilterUsers(users, searchTerm, filterActive)
         == FilterUsers(FilterUsers(users, searchTerm, "all"), "", filterActive)
  {
    FilterEngine.ApplySplits(users, FilterEngine.Query(searchTerm, filterActive), SearchFields, Status);
  }

  /**
   When every user is either active or inactive, the "active" and "inactive" buttons
   split the users the search keeps between them.
   */
  lemma StatusFiltersPartition(users: seq<User>, searchTerm: string)
    requires forall i :: 0 <= i < |users| ==> users[i].status == "active" || users[i].status == "inactive"
    ensures |FilterUsers(users, searchTerm, StatusFilters[1])| + |FilterUsers(users, searchTerm, StatusFilters[2])|
         == |FilterUsers(users, searchTerm, StatusFilters[0])|
  {
    var found := FilterUsers(users, searchTerm, "all");
    var active := FilterEngine.Keep(FilterEngine.Query("", "active"), SearchFields, Status);
    var inactive := FilterEngine.Keep(FilterEngine.Query("", "inactive"), SearchFields, Status);
    FilterUsersSplits(users, searchTerm, "active");
    FilterUsersSplits(users, searchTerm, "inactive");
    forall i | 0 <= i < |found|
      ensures inactive(found[i]) == !active(found[i])
    {
      assert found[i] in users;
      FilterEngine.EmptyTermMatches(SearchFields(found[i]));
    }
    Seqs.FilterPartition(found, active, inactive);
  }

  /** The inactive filter on the sample roster shows Mike Johnson alone. */
  lemma SampleInactive()
    ensures FilterUsers(SampleUsers, "", "inactive") == [SampleUsers[2]]
  {
    var s := SampleUsers;
    var k := FilterEngine.Keep(FilterEngine.Query("", "inactive"), SearchFields, Status);
    forall i | 0 <= i < |s|
      ensures k(s[i]) == (s[i].status == "inactive")
    {
      FilterEngine.CategoryOnly(s[i], "inactive", SearchFields, Status);
      assert "inactive" != FilterEngine.All;
    }
    assert s[4..][1..] == [];
    assert Seqs.Filter(s[4..], k) == [];
    assert s[3..][1..] == s[4..];
    assert Seqs.Filter(s[3..], k) == [];
    assert s[2..][1..] == s[3..];
    assert Seqs.Filter(s[2..], k) == [s[2]];
    assert s[1..][1..] == s[2..];
    assert Seqs.Filter(s[1..], k) == [s[2]];
    assert Seqs.Filter(s, k) == [s[2]];
  }
}
