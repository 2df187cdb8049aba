/**
 * The report list view: the client-side filter over the fetched reports,
 * the badge colour per status, the icon per category and the empty-state text.
 */
module ReportsView {
  import opened Text

  /** The part of a fetched report that the filter and the badges read. */
  datatype ReportView = ReportView(category: string, status: string)

  /** The filter predicate: a case-insensitive category substring match and an exact status match; an empty filter matches everything. */
  predicate Keep(r: ReportView, filter: string, statusFilter: string)
    ensures filter == "" && statusFilter == "" ==> Keep(r, filter, statusFilter)
    ensures Keep(r, filter, statusFilter) && statusFilter != "" ==> r.status == statusFilter
  {
    && (filter == "" || Includes(Lower(r.category), Lower(filter)))
    && (statusFilter == "" || r.status == statusFilter)
  }

  /** `reports.filter(...)`: the reports that satisfy `Keep`, in their original order. */
  function FilterReports(reports: seq<ReportView>, filter: string, statusFilter: string): (out: seq<ReportView>)
    ensures |out| <= |reports|
  {
    if reports == [] then []
    else if Keep(reports[0], filter, statusFilter) then [reports[0]] + FilterReports(reports[1..], filter, statusFilter)
    else FilterReports(reports[1..], filter, statusFilter)
  }

  /** `sub` is obtained from `full` by deleting elements, without reordering the rest. */
  ghost predicate IsSubsequence<T>(sub: seq<T>, full: seq<T>)
    decreases |full|
  {
    if sub == [] then true
    else if full == [] then false
    else if sub[0] == full[0] then IsSubsequence(sub[1..], full[1..])
    else IsSubsequence(sub, full[1..])
  }

  lemma {:induction false} SubsequenceNoLonger<T>(sub: seq<T>, full: seq<T>)
    requires IsSubsequence(sub, full)
    ensures |sub| <= |full|
    decreases |full|
  {
    if sub != [] && full != [] {
      if sub[0] == full[0] {
        SubsequenceNoLonger(sub[1..], full[1..]);
      } else {
        SubsequenceNoLonger(sub, full[1..]);
      }
    }
  }

  /** The filtered list is an order-preserving subsequence of the fetched list, so "Showing N of M" has N <= M. */
  lemma {:induction false} FilterIsSubsequence(reports: seq<ReportView>, filter: string, statusFilter: string)
    ensures IsSubsequence(FilterReports(reports, filter, statusFilter), reports)
    ensures |FilterReports(reports, filter, statusFilter)| <= |reports|
  {
    var out := FilterReports(reports, filter, statusFilter);
    if reports != [] {
      FilterIsSubsequence(reports[1..], filter, statusFilter);
      if !Keep(reports[0], filter, statusFilter) && out != [] {
        assert out[0] != reports[0] by {
          FilterKeepsOnlyMatches(reports[1..], filter, statusFilter);
          assert out[0] in FilterReports(reports[1..], filter, statusFilter);
        }
      }
    }
    SubsequenceNoLonger(out, reports);
  }

  /** Every report that survives the filter satisfies the predicate. */
  lemma {:induction false} FilterKeepsOnlyMatches(reports: seq<ReportView>, filter: string, statusFilter: string)
    ensures forall r :: r in FilterReports(reports, filter, statusFilter) ==> Keep(r, filter, statusFilter)
  {
    if reports != [] {
      FilterKeepsOnlyMatches(reports[1..], filter, statusFilter);
    }
  }

  /** A report is shown exactly when it was fetched and satisfies the predicate. */
  lemma {:induction false} FilterMembership(reports: seq<ReportView>, filter: string, statusFilter: string, r: ReportView)
    ensures r in FilterReports(reports, filter, statusFilter) <==> r in reports && Keep(r, filter, statusFilter)
  {
    if reports != [] {
      FilterMembership(reports[1..], filter, statusFilter, r);
      assert reports == [reports[0]] + reports[1..];
    }
  }

  /** With both filters empty every fetched report is shown. */
  lemma {:induction false} EmptyFiltersShowAll(reports: seq<ReportView>)
    ensures FilterReports(reports, "", "") == reports
  {
    if reports != [] {
      EmptyFiltersShowAll(reports[1..]);
    }
  }

  /** Filtering the filtered list again with the same filters changes nothing. */
  lemma {:induction false} FilterIdempotent(reports: seq<ReportView>, filter: string, statusFilter: string)
    ensures FilterReports(FilterReports(reports, filter, statusFilter), filter, statusFilter)
         == FilterReports(reports, filter, statusFilter)
  {
    if reports != [] {
      FilterIdempotent(reports[1..], filter, statusFilter);
    }
  }

  /** Two category filters that lower-case alike select the same reports. */
  lemma {:induction false} CategoryFilterIgnoresCase(reports: seq<ReportView>, f1: string, f2: string, statusFilter: string)
    requires Lower(f1) == Lower(f2)
    ensures FilterReports(reports, f1, statusFilter) == FilterReports(reports, f2, statusFilter)
  {
    if reports != [] {
      CategoryFilterIgnoresCase(reports[1..], f1, f2, statusFilter);
      assert (f1 == "") == (f2 == "") by {
        assert |Lower(f1)| == |f1| && |Lower(f2)| == |f2|;
      }
    }
  }

  /** In particular the category filter may be typed in any case. */
  lemma LowerCaseFilterSelectsSame(reports: seq<ReportView>, filter: string, statusFilter: string)
    ensures FilterReports(reports, Lower(filter), statusFilter) == FilterReports(reports, filter, statusFilter)
  {
    LowerIdempotent(filter);
    CategoryFilterIgnoresCase(reports, Lower(filter), filter, statusFilter);
  }

  /** The status match is exact: a "Pending" filter does not select a "pending" report. */
  lemma StatusFilterIsCaseSensitive()
    ensures FilterReports([ReportView("Pollution", "pending")], "", "Pending") == []
  {
  }

  const YellowBadge := "bg-yellow-100 text-yellow-800 border-yellow-200"
  const BlueBadge := "bg-blue-100 text-blue-800 border-blue-200"
  const GreenBadge := "bg-green-100 text-green-800 border-green-200"
  const RedBadge := "bg-red-100 text-red-800 border-red-200"
  const GrayBadge := "bg-gray-100 text-gray-800 border-gray-200"

  /** The four statuses the list knows a colour for. */
  const KnownStatuses: set<string> := {"pending", "in-progress", "resolved", "rejected"}

  /** `getStatusColor`: the badge classes for a status; any other string falls back to gray. */
  function StatusColor(status: string): (r: string)
    ensures status == "pending" ==> r == YellowBadge
    ensures status == "in-progress" ==> r == BlueBadge
    ensures status == "resolved" ==> r == GreenBadge
    ensures status == "rejected" ==> r == RedBadge
    ensures r == GrayBadge <==> status !in KnownStatuses
  {
    match status
    case "pending" => YellowBadge
    case "in-progress" => BlueBadge
    case "resolved" => GreenBadge
    case "rejected" => RedBadge
    case _ => GrayBadge
  }

  /** The six categories the list knows an icon for. */
  const KnownCategories: set<string> :=
    {"Illegal Logging", "Pollution", "Encroachment", "Wildlife Poaching", "Waste Dumping", "Unauthorized Construction"}

  /** U+26A0 WARNING SIGN, U+FE0F: the fallback icon. */
  const WarningIcon := "\U{26A0}\U{FE0F}"

  /** `getCategoryIcon`: the icon for a category; any other string falls back to the warning sign. */
  function CategoryIcon(category: string): (r: string)
    ensures category == "Illegal Logging" ==> r == "\U{1FA93}"
    ensures category == "Pollution" ==> r == "\U{2620}\U{FE0F}"
    ensures category == "Encroachment" ==> r == "\U{1F3D7}\U{FE0F}"
    ensures category == "Wildlife Poaching" ==> r == "\U{1F98E}"
    ensures category == "Waste Dumping" ==> r == "\U{1F5D1}\U{FE0F}"
    ensures category == "Unauthorized Construction" ==> r == "\U{1F6A7}"
    ensures r == WarningIcon <==> category !in KnownCategories
  {
    match category
    case "Illegal Logging" => "\U{1FA93}"
    case "Pollution" => "\U{2620}\U{FE0F}"
    case "Encroachment" => "\U{1F3D7}\U{FE0F}"
    case "Wildlife Poaching" => "\U{1F98E}"
    case "Waste Dumping" => "\U{1F5D1}\U{FE0F}"
    case "Unauthorized Construction" => "\U{1F6A7}"
    case _ => WarningIcon
  }

  /** What the list area shows. */
  datatype ListBody =
    | Cards(shown: seq<ReportView>)
    | EmptyState(headline: string, hint: string)

  const NothingReported := "No threats reported yet."
  const NothingReportedHint := "Our mangroves are safe for now!"
  const NothingMatches := "No reports match your filters."
  const NothingMatchesHint := "Try adjusting your filter criteria."

  /** The list body after loading: the cards of the filtered reports, or the empty-state text when none survive. */
  function Body(reports: seq<ReportView>, filter: string, statusFilter: string): (b: ListBody)
    ensures b.Cards? <==> exists r :: r in reports && Keep(r, filter, statusFilter)
    ensures b.Cards? ==> b.shown == FilterReports(reports, filter, statusFilter)
    ensures b.EmptyState? && reports == [] ==> b.headline == NothingReported && b.hint == NothingReportedHint
    ensures b.EmptyState? && reports != [] ==> b.headline == NothingMatches && b.hint == NothingMatchesHint
  {
    var shown := FilterReports(reports, filter, statusFilter);
    assert forall r :: r in shown <==> r in reports && Keep(r, filter, statusFilter) by {
      forall r ensures r in shown <==> r in reports && Keep(r, filter, statusFilter) {
        FilterMembership(reports, filter, statusFilter, r);
      }
    }
    if |shown| == 0 then
      if |reports| == 0 then EmptyState(NothingReported, NothingReportedHint)
      else EmptyState(NothingMatches, NothingMatchesHint)
    else
      assert shown[0] in shown;
      Cards(shown)
  }

  /** With both filters empty, "No reports match your filters." never appears. */
  lemma UnfilteredNeverSaysNoMatch(reports: seq<ReportView>)
    ensures Body(reports, "", "").EmptyState? <==> reports == []
  {
    EmptyFiltersShowAll(reports);
    if reports != [] {
      assert reports[0] in reports && Keep(reports[0], "", "");
    }
  }
}
