/** The lead table's filter, status badge and score bar. */
module LeadList {

  import opened Text
  import opened Statuses
  import opened UiTypes

  /** The status filter value that lets every status through. */
  const AllStatuses := "All"

  /** The search box matches when the lowercased term occurs in the lowercased name, e-mail or company. */
  predicate MatchesSearch(lead: Lead, searchTerm: string)
  {
    var term := Lower(searchTerm);
    Contains(Lower(lead.name), term) || Contains(Lower(lead.email), term) || Contains(Lower(lead.company), term)
  }

  /** The status filter matches "All" or exactly the lead's status text. */
  predicate MatchesStatus(lead: Lead, statusFilter: string)
  {
    statusFilter == AllStatuses || LeadStatusText(lead.status) == statusFilter
  }

  predicate Shown(lead: Lead, searchTerm: string, statusFilter: string)
  {
    MatchesSearch(lead, searchTerm) && MatchesStatus(lead, statusFilter)
  }

  /** `filteredLeads`: the leads both filters accept, in their order. */
  function FilteredLeads(leads: seq<Lead>, searchTerm: string, statusFilter: string): (r: seq<Lead>)
    ensures |r| <= |leads|
  {
    if leads == [] then []
    else
      var rest := FilteredLeads(leads[1..], searchTerm, statusFilter);
      if Shown(leads[0], searchTerm, statusFilter) then [leads[0]] + rest else rest
  }

  /** Filtering keeps exactly the accepted leads. */
  lemma {:induction false} FilteredMembers(leads: seq<Lead>, searchTerm: string, statusFilter: string)
    ensures forall l :: l in FilteredLeads(leads, searchTerm, statusFilter) <==> l in leads && Shown(l, searchTerm, statusFilter)
  {
    if leads != [] {
      FilteredMembers(leads[1..], searchTerm, statusFilter);
      assert leads == [leads[0]] + leads[1..];
    }
  }

  /** Filtering works element by element, so the order of the kept leads is their order in the list. */
  lemma {:induction false} FilteredAppend(a: seq<Lead>, b: seq<Lead>, searchTerm: string, statusFilter: string)
    ensures FilteredLeads(a + b, searchTerm, statusFilter)
         == FilteredLeads(a, searchTerm, statusFilter) + FilteredLeads(b, searchTerm, statusFilter)
  {
    if a != [] {
      assert (a + b)[1..] == a[1..] + b;
      FilteredAppend(a[1..], b, searchTerm, statusFilter);
    } else {
      assert a + b == b;
    }
  }

  /** An empty search term with the "All" filter shows every lead. */
  lemma {:induction false} EmptySearchShowsAll(leads: seq<Lead>)
    ensures FilteredLeads(leads, "", AllStatuses) == leads
  {
    if leads != [] {
      EmptySearchShowsAll(leads[1..]);
      ContainsAt(Lower(leads[0].name), "");
      assert OccursAt(Lower(leads[0].name), "", 0);
    }
  }

  /**
   * The status filter: "All" restricts nothing, and any other value keeps
   * only leads whose status text is that value.
   */
  lemma StatusFilterSpec(leads: seq<Lead>, searchTerm: string, statusFilter: string)
    ensures statusFilter != AllStatuses ==>
      forall l :: l in FilteredLeads(leads, searchTerm, statusFilter) ==> LeadStatusText(l.status) == statusFilter
    ensures forall l :: l in FilteredLeads(leads, searchTerm, AllStatuses) <==> l in leads && MatchesSearch(l, searchTerm)
  {
    FilteredMembers(leads, searchTerm, statusFilter);
    FilteredMembers(leads, searchTerm, AllStatuses);
  }

  /** A non-empty search matches a lead exactly when the lowercased term occurs in a lowercased field. */
  lemma SearchSpec(lead: Lead, searchTerm: string)
    ensures MatchesSearch(lead, searchTerm) <==>
      exists i: nat :: OccursAt(Lower(lead.name), Lower(searchTerm), i)
        || OccursAt(Lower(lead.email), Lower(searchTerm), i)
        || OccursAt(Lower(lead.company), Lower(searchTerm), i)
  {
    ContainsAt(Lower(lead.name), Lower(searchTerm));
    ContainsAt(Lower(lead.email), Lower(searchTerm));
    ContainsAt(Lower(lead.company), Lower(searchTerm));
  }

  /** The class shown for statuses without a colour of their own. */
  const DefaultBadge := "bg-gray-100 text-gray-700"

  /** `getStatusColor`. */
  function StatusColor(status: LeadStatus): (r: string)
    ensures r == DefaultBadge <==> status == New || status == NotInterested
  {
    match status
    case New => DefaultBadge
    case Contacted => "bg-blue-100 text-blue-700"
    case Replied => "bg-purple-100 text-purple-700"
    case Interested => "bg-orange-100 text-orange-700"
    case MeetingBooked => "bg-green-100 text-green-700"
    case NotInterested => DefaultBadge
  }

  /** The only two statuses that share a badge are New and Not Interested. */
  lemma StatusColorsDistinct(s: LeadStatus, t: LeadStatus)
    requires s != t && StatusColor(s) == StatusColor(t)
    ensures (s == New && t == NotInterested) || (s == NotInterested && t == New)
  {
  }

  /** The score bar's colour: green above 70, orange above 40, red otherwise. */
  function ScoreBarClass(score: int): (r: string)
    ensures r == "bg-green-500" <==> score > 70
    ensures r == "bg-orange-400" <==> 40 < score <= 70
    ensures r == "bg-red-400" <==> score <= 40
  {
    if score > 70 then "bg-green-500" else if score > 40 then "bg-orange-400" else "bg-red-400"
  }
}
