/**
 The activity timeline screen: a search over description and user combined with a
 type filter chosen from "all" and the four activity types.
 */
module Activities {
  import Seqs
  import Text
  import FilterEngine

  /** A timeline entry. `kind` is the record's `type` field. */
  datatype Activity = Activity(
    id: string,
    kind: string,
    description: string,
    timestamp: string,
    user: string,
    details: string,
    importance: string
  )

  /** The type filter buttons, in display order. */
  const ActivityTypes: seq<string> := ["all", "New User", "Transaction", "Login", "Update"]

  const Act1: Activity := Activity("act1", "New User", "User 'JohnDoe' signed up with Pro plan",
    "2025-06-24T09:30:00Z", "JohnDoe", "Signed up via organic search", "high")

  /** The timeline the screen displays. */
  const SampleActivities: seq<Activity> := [
    Act1,
    Activity("act2", "Transaction", "Sale of Pro Plan to 'Acme Corp'", "2025-06-24T09:15:00Z",
      "Acme Corp", "$299/month subscription", "high"),
    Activity("act3", "Login", "User 'JaneSmith' logged in from mobile app", "2025-06-24T08:50:00Z",
      "JaneSmith", "iOS App v2.1.0", "medium"),
    Activity("act4", "Update", "Dashboard settings updated by 'AdminUser'", "2025-06-24T08:20:00Z",
      "AdminUser", "Changed notification preferences", "low"),
    Activity("act5", "Transaction", "Payment received from 'TechCorp'", "2025-06-24T07:45:00Z",
      "TechCorp", "$150 monthly payment", "high"),
    Activity("act6", "New User", "User 'AliceWonder' created account", "2025-06-24T07:20:00Z",
      "AliceWonder", "Signed up via referral link", "medium"),
    Activity("act7", "Login", "User 'BobBuilder' logged in", "2025-06-24T06:55:00Z",
      "BobBuilder", "Desktop browser session", "low"),
    Activity("act8", "Update", "Profile updated by 'CarolSinger'", "2025-06-24T06:30:00Z",
      "CarolSinger", "Updated contact information", "low")
  ]

  function SearchFields(a: Activity): (string, string)
  {
    (a.description, a.user)
  }

  function Kind(a: Activity): string
  {
    a.kind
  }

  /** Whether the search term and type filter keep activity `a`. */
  predicate Kept(a: Activity, searchTerm: string, filterType: string)
  {
    FilterEngine.SearchMatches(searchTerm, SearchFields(a))
    && FilterEngine.CategoryMatches(filterType, a.kind)
  }

  /** The activities shown for a search term and type filter. */
  function FilterActivities(activities: seq<Activity>, searchTerm: string, filterType: string): (r: seq<Activity>)
    ensures Seqs.IsSubseq(r, activities)
    ensures |r| <= |activities|
    ensures forall i :: 0 <= i < |activities| ==>
      (activities[i] in r <==> Kept(activities[i], searchTerm, filterType))
    ensures filterType != FilterEngine.All ==> forall i :: 0 <= i < |r| ==> r[i].kind == filterType
    ensures |r| == |set i | 0 <= i < |activities| && Kept(activities[i], searchTerm, filterType)|
  {
    var q := FilterEngine.Query(searchTerm, filterType);
    Seqs.FilterLength(activities, FilterEngine.Keep(q, SearchFields, Kind));
    assert Seqs.KeptIndices(activities, FilterEngine.Keep(q, SearchFields, Kind))
        == set i | 0 <= i < |activities| && Kept(activities[i], searchTerm, filterType) by {
      forall i | 0 <= i < |activities|
        ensures FilterEngine.Keep(q, SearchFields, Kind)(activities[i]) == Kept(activities[i], searchTerm, filterType)
      {
      }
    }
    FilterEngine.Apply(activities, q, SearchFields, Kind)
  }

  /** No search term and the "all" filter show the whole timeline unchanged. */
  lemma ShowAll(activities: seq<Activity>)
    ensures FilterActivities(activities, "", "all") == activities
  {
    FilterEngine.ApplyNeutral(activities, SearchFields, Kind);
  }

  /** Filtering the shown activities again with the same settings changes nothing. */
  lemma FilterActivitiesIdempotent(activities: seq<Activity>, searchTerm: string, filterType: string)
    ensures FilterActivities(FilterActivities(activities, searchTerm, filterType), searchTerm, filterType)
         == FilterActivities(activities, searchTerm, filterType)
  {
    FilterEngine.ApplyIdempotent(activities, FilterEngine.Query(searchTerm, filterType), SearchFields, Kind);
  }

  /** The "all" type filter narrows nothing beyond the search itself. */
  lemma AllTypesIsSearchOnly(activities: seq<Activity>, searchTerm: string)
    ensures forall i :: 0 <= i < |activities| ==>
      (activities[i] in FilterActivities(activities, searchTerm, "all")
       <==> FilterEngine.SearchMatches(searchTerm, SearchFields(activities[i])))
  {
  }

  /**
   The type filter is case-sensitive: a filter value differing from an activity's type
   only in letter case hides that activity.
   */
  lemma TypeFilterCaseSensitive(activities: seq<Activity>, searchTerm: string)
    ensures forall i :: 0 <= i < |activities| && activities[i].kind == "Transaction" ==>
      activities[i] !in FilterActivities(activities, searchTerm, "transaction")
  {
  }

  /** The search is case-insensitive: "john" finds act1, whose user is "JohnDoe". */
  lemma JohnFindsAct1()
    ensures Act1 in FilterActivities(SampleActivities, "john", "all")
  {
    var user := Text.Lower(Act1.user);
    var term := Text.Lower("john");
    assert term == "john";
    assert user[..4] == "john";
    assert Text.OccursAt(user, term, 0);
    assert SampleActivities[0] == Act1;
  }

  /**
   The first type button shows every type; each other button shows only activities
   of exactly its own type.
   */
  lemma TypeButtons(activities: seq<Activity>, searchTerm: string)
    ensures ActivityTypes[0] == FilterEngine.All
    ensures forall k, i :: 1 <= k < |ActivityTypes| && 0 <= i < |FilterActivities(activities, searchTerm, ActivityTypes[k])| ==>
      FilterActivities(activities, searchTerm, ActivityTypes[k])[i].kind == ActivityTypes[k]
  {
  }
}
