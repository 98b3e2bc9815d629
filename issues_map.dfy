/** The map page: the three-field filter over the issues, the marker each
    issue is drawn with, and the per-status counts of the stats panel. */
module IssuesMap {
  import opened Seqs
  import opened Domain
  import opened IssuesList

  datatype MapFilters = MapFilters(status: string, priority: string, category: string)

  const InitialMapFilters := MapFilters(All, All, All)

  /** The reference definition: an issue is visible when it matches every
      filter field that is not `all`. */
  predicate MapSelects(f: MapFilters, x: Issue)
  {
    && FieldPasses(f.status, x.status)
    && FieldPasses(f.priority, x.priority)
    && FieldPasses(f.category, x.category)
  }

  function MapSelector(f: MapFilters): Issue -> bool
  {
    x => MapSelects(f, x)
  }

  /** The conjunction of the effect's first `n` steps. */
  predicate MapPassesFirst(n: nat, f: MapFilters, x: Issue)
  {
    && (n > 0 ==> FieldPasses(f.status, x.status))
    && (n > 1 ==> FieldPasses(f.priority, x.priority))
  }

  function MapFirstSteps(n: nat, f: MapFilters): Issue -> bool
  {
    x => MapPassesFirst(n, f, x)
  }

  lemma MapStatusStepExtends(all: seq<Issue>, f: MapFilters)
    ensures (if f.status != All then Filter(all, StatusStep(f.status)) else all) == Filter(all, MapFirstSteps(1, f))
  {
    FilterKeepsAll(all, MapFirstSteps(0, f));
    FilterStep(all, all, f.status != All, MapFirstSteps(0, f), StatusStep(f.status), MapFirstSteps(1, f));
  }

  lemma MapPriorityStepExtends(all: seq<Issue>, filtered: seq<Issue>, f: MapFilters)
    requires filtered == Filter(all, MapFirstSteps(1, f))
    ensures (if f.priority != All then Filter(filtered, PriorityStep(f.priority)) else filtered) == Filter(all, MapFirstSteps(2, f))
  {
    FilterStep(all, filtered, f.priority != All, MapFirstSteps(1, f), PriorityStep(f.priority), MapFirstSteps(2, f));
  }

  lemma MapCategoryStepExtends(all: seq<Issue>, filtered: seq<Issue>, f: MapFilters)
    requires filtered == Filter(all, MapFirstSteps(2, f))
    ensures (if f.category != All then Filter(filtered, CategoryStep(f.category)) else filtered) == Filter(all, MapSelector(f))
  {
    FilterStep(all, filtered, f.category != All, MapFirstSteps(2, f), CategoryStep(f.category), MapSelector(f));
  }

  /** The filter effect: up to three `filter` steps, each taken only when
      its field is not `all`. The result is the reference filter: exactly
      the matching issues, in their original order. */
  function VisibleIssues(issues: seq<Issue>, f: MapFilters): (r: seq<Issue>)
    ensures r == Filter(issues, MapSelector(f))
    ensures forall x :: x in r <==> x in issues && MapSelects(f, x)
    ensures IsSubsequence(r, issues)
  {
    var byStatus := if f.status != All then Filter(issues, StatusStep(f.status)) else issues;
    MapStatusStepExtends(issues, f);
    var byPriority := if f.priority != All then Filter(byStatus, PriorityStep(f.priority)) else byStatus;
    MapPriorityStepExtends(issues, byStatus, f);
    var byCategory := if f.category != All then Filter(byPriority, CategoryStep(f.category)) else byPriority;
    MapCategoryStepExtends(issues, byPriority, f);
    byCategory
  }

  /** With every field `all` every issue is visible, in its order. */
  lemma VisibleIssuesAllFilters(issues: seq<Issue>)
    ensures VisibleIssues(issues, InitialMapFilters) == issues
  {
    FilterKeepsAll(issues, MapSelector(InitialMapFilters));
  }

  /** Filtering the visible issues again changes nothing. */
  lemma VisibleIssuesIdempotent(issues: seq<Issue>, f: MapFilters)
    ensures VisibleIssues(VisibleIssues(issues, f), f) == VisibleIssues(issues, f)
  {
    FilterIdempotent(issues, MapSelector(f));
  }

  /** `handleFilterChange(type, v)`: the named field takes `v`, the other
      two keep their value. Any other name adds a key no filter step reads. */
  function SetFilter(f: MapFilters, filterType: string, v: string): (r: MapFilters)
    ensures r.status == if filterType == "status" then v else f.status
    ensures r.priority == if filterType == "priority" then v else f.priority
    ensures r.category == if filterType == "category" then v else f.category
  {
    if filterType == "status" then f.(status := v)
    else if filterType == "priority" then f.(priority := v)
    else if filterType == "category" then f.(category := v)
    else f
  }

  /** Resetting a filter field to `all` never hides an issue that was
      visible, and setting a field to the value an issue has never hides it
      either when it was visible. */
  lemma SetFilterWidens(issues: seq<Issue>, f: MapFilters, filterType: string, x: Issue)
    requires x in VisibleIssues(issues, f)
    ensures x in VisibleIssues(issues, SetFilter(f, filterType, All))
    ensures filterType == "status" ==> x in VisibleIssues(issues, SetFilter(f, filterType, x.status))
  {
  }

  /** The colour a status is drawn with. The initial blue is overwritten in
      every branch of the `switch`, so it is never used. */
  const Grey := "#6c757d"
  const UnusedBlue := "#007bff"

  const MarkedStatuses := ["new", "verified", "assigned", "in-progress", "resolved"]

  function MarkerColor(status: string): (c: string)
    ensures c == Grey <==> status !in MarkedStatuses
    ensures c != UnusedBlue
  {
    match status
    case "new" => "#ffc107"
    case "verified" => "#17a2b8"
    case "assigned" => "#e83e8c"
    case "in-progress" => "#fd7e14"
    case "resolved" => "#28a745"
    case _ => Grey
  }

  /** Each of the five statuses has its own colour. */
  lemma MarkerColorsDistinct(a: string, b: string)
    requires a in MarkedStatuses && b in MarkedStatuses && a != b
    ensures MarkerColor(a) != MarkerColor(b)
  {
  }

  /** The marker's diameter in pixels. */
  function MarkerSize(priority: string): (n: nat)
    ensures n == 35 <==> priority == "high"
    ensures n == 30 <==> priority == "medium"
    ensures n == 25 <==> priority != "high" && priority != "medium"
  {
    if priority == "high" then 35 else if priority == "medium" then 30 else 25
  }

  datatype Marker = Marker(color: string, size: nat)

  /** `getMarkerIcon`: the colour from the status, the size from the priority. */
  function MarkerIcon(status: string, priority: string): (m: Marker)
    ensures m.color == MarkerColor(status) && m.size == MarkerSize(priority)
  {
    Marker(MarkerColor(status), MarkerSize(priority))
  }

  /** The statuses the stats panel counts (`verified` is not among them). */
  const CountedStatuses := ["new", "assigned", "in-progress", "resolved"]

  function StatusAmong(statuses: seq<string>): Issue -> bool
  {
    (x: Issue) => x.status in statuses
  }

  /** `filteredIssues.filter(issue => issue.status === status).length`. */
  function StatusCount(visible: seq<Issue>, status: string): (n: nat)
    ensures n <= |visible|
  {
    Count(visible, StatusStep(status))
  }

  /** Each count is at most the visible count, and the four counted statuses
      together account for at most the visible issues. */
  lemma StatusCountsBounded(visible: seq<Issue>)
    ensures StatusCount(visible, "new") + StatusCount(visible, "assigned")
            + StatusCount(visible, "in-progress") + StatusCount(visible, "resolved") <= |visible|
  {
    CountDisjoint(visible, StatusStep("new"), StatusStep("assigned"), StatusAmong(["new", "assigned"]));
    CountDisjoint(visible, StatusAmong(["new", "assigned"]), StatusStep("in-progress"),
                  StatusAmong(["new", "assigned", "in-progress"]));
    CountDisjoint(visible, StatusAmong(["new", "assigned", "in-progress"]), StatusStep("resolved"),
                  StatusAmong(CountedStatuses));
    assert Count(visible, StatusAmong(CountedStatuses)) <= |visible|;
  }

  /** With the status filter set, every other status counts zero. */
  lemma StatusFilterZeroesOtherCounts(issues: seq<Issue>, f: MapFilters, status: string)
    requires f.status != All && status != f.status
    ensures StatusCount(VisibleIssues(issues, f), status) == 0
  {
    var visible := VisibleIssues(issues, f);
    assert forall i :: 0 <= i < |visible| ==> visible[i] in visible;
    FilterKeepsNone(visible, StatusStep(status));
  }
}
