/** The issue list page: the search/filter/sort effect that derives the
    visible list from the issues, and the simulated "assign" action. */
module IssuesList {
  import opened Wrappers
  import opened Strings
  import opened Seqs
  import opened Domain

  /** The sentinel a filter field holds when it imposes no constraint. */
  const All := "all"

  /** The name the simulated assignment writes into `assignedTo`. */
  const SimulatedWorker := "John Worker"

  datatype Filters = Filters(status: string, priority: string, category: string, ward: string)

  const InitialFilters := Filters(All, All, All, All)

  // ---------------------------------------------------------------------
  // Selection

  /** The free-text test: the query occurs, ignoring case, in the title,
      the description, the category or the ward. */
  predicate MatchesSearch(query: string, x: Issue)
  {
    || ContainsIgnoreCase(x.title, query)
    || ContainsIgnoreCase(x.description, query)
    || ContainsIgnoreCase(x.category, query)
    || ContainsIgnoreCase(x.ward, query)
  }

  /** An empty query (JavaScript-falsy) imposes no constraint. */
  predicate PassesSearch(query: string, x: Issue)
  {
    query == "" || MatchesSearch(query, x)
  }

  predicate FieldPasses(wanted: string, actual: string)
  {
    wanted == All || actual == wanted
  }

  /** The AND of the search and of the four filter fields. */
  predicate Selects(query: string, f: Filters, x: Issue)
  {
    && PassesSearch(query, x)
    && FieldPasses(f.status, x.status)
    && FieldPasses(f.priority, x.priority)
    && FieldPasses(f.category, x.category)
    && FieldPasses(f.ward, x.ward)
  }

  function Selector(query: string, f: Filters): Issue -> bool
  {
    x => Selects(query, f, x)
  }

  /** The conjunction of the first `n` of the effect's five steps. */
  predicate PassesFirst(n: nat, query: string, f: Filters, x: Issue)
  {
    && (n > 0 ==> PassesSearch(query, x))
    && (n > 1 ==> FieldPasses(f.status, x.status))
    && (n > 2 ==> FieldPasses(f.priority, x.priority))
    && (n > 3 ==> FieldPasses(f.category, x.category))
    && (n > 4 ==> FieldPasses(f.ward, x.ward))
  }

  function FirstSteps(n: nat, query: string, f: Filters): Issue -> bool
  {
    x => PassesFirst(n, query, f, x)
  }

  function SearchStep(query: string): Issue -> bool { x => MatchesSearch(query, x) }
  function StatusStep(v: string): Issue -> bool { (x: Issue) => x.status == v }
  function PriorityStep(v: string): Issue -> bool { (x: Issue) => x.priority == v }
  function CategoryStep(v: string): Issue -> bool { (x: Issue) => x.category == v }
  function WardStep(v: string): Issue -> bool { (x: Issue) => x.ward == v }

  /** Each of the effect's five optional steps extends the conjunction of
      the steps before it by one more conjunct. */
  lemma SearchStepExtends(all: seq<Issue>, filtered: seq<Issue>, q: string, f: Filters)
    requires filtered == Filter(all, FirstSteps(0, q, f))
    ensures (if q != "" then Filter(filtered, SearchStep(q)) else filtered) == Filter(all, FirstSteps(1, q, f))
  {
    FilterStep(all, filtered, q != "", FirstSteps(0, q, f), SearchStep(q), FirstSteps(1, q, f));
  }

  lemma StatusStepExtends(all: seq<Issue>, filtered: seq<Issue>, q: string, f: Filters)
    requires filtered == Filter(all, FirstSteps(1, q, f))
    ensures (if f.status != All then Filter(filtered, StatusStep(f.status)) else filtered) == Filter(all, FirstSteps(2, q, f))
  {
    FilterStep(all, filtered, f.status != All, FirstSteps(1, q, f), StatusStep(f.status), FirstSteps(2, q, f));
  }

  lemma PriorityStepExtends(all: seq<Issue>, filtered: seq<Issue>, q: string, f: Filters)
    requires filtered == Filter(all, FirstSteps(2, q, f))
    ensures (if f.priority != All then Filter(filtered, PriorityStep(f.priority)) else filtered) == Filter(all, FirstSteps(3, q, f))
  {
    FilterStep(all, filtered, f.priority != All, FirstSteps(2, q, f), PriorityStep(f.priority), FirstSteps(3, q, f));
  }

  lemma CategoryStepExtends(all: seq<Issue>, filtered: seq<Issue>, q: string, f: Filters)
    requires filtered == Filter(all, FirstSteps(3, q, f))
    ensures (if f.category != All then Filter(filtered, CategoryStep(f.category)) else filtered) == Filter(all, FirstSteps(4, q, f))
  {
    FilterStep(all, filtered, f.category != All, FirstSteps(3, q, f), CategoryStep(f.category), FirstSteps(4, q, f));
  }

  lemma WardStepExtends(all: seq<Issue>, filtered: seq<Issue>, q: string, f: Filters)
    requires filtered == Filter(all, FirstSteps(4, q, f))
    ensures (if f.ward != All then Filter(filtered, WardStep(f.ward)) else filtered) == Filter(all, Selector(q, f))
  {
    FilterStep(all, filtered, f.ward != All, FirstSteps(4, q, f), WardStep(f.ward), Selector(q, f));
  }

  /** True when no search and no filter applies, so that the effect's local
      `filtered` is still the `issues` state array when it is sorted. */
  predicate NarrowsNothing(query: string, f: Filters)
  {
    query == "" && f.status == All && f.priority == All && f.category == All && f.ward == All
  }

  /** An empty query does not constrain the search; a non-empty one keeps an
      issue exactly when one of the four fields contains it, ignoring case. */
  lemma SearchSemantics(query: string, x: Issue)
    ensures query == "" ==> PassesSearch(query, x)
    ensures query != "" ==>
      (PassesSearch(query, x) <==>
        || OccursIn(Lower(query), Lower(x.title))
        || OccursIn(Lower(query), Lower(x.description))
        || OccursIn(Lower(query), Lower(x.category))
        || OccursIn(Lower(query), Lower(x.ward)))
  {
    ContainsIff(Lower(x.title), Lower(query));
    ContainsIff(Lower(x.description), Lower(query));
    ContainsIff(Lower(x.category), Lower(query));
    ContainsIff(Lower(x.ward), Lower(query));
  }

  // ---------------------------------------------------------------------
  // The comparator handed to `Array.prototype.sort`

  /** `{ high: 3, medium: 2, low: 1 }[p]`; any other key is `undefined`. */
  function PriorityRank(p: string): (r: Option<int>)
    ensures r.Some? <==> p in {"high", "medium", "low"}
    ensures r.Some? ==> 1 <= r.value <= 3
    ensures p == "high" ==> r == Some(3)
    ensures p == "medium" ==> r == Some(2)
    ensures p == "low" ==> r == Some(1)
  {
    if p == "high" then Some(3)
    else if p == "medium" then Some(2)
    else if p == "low" then Some(1)
    else None
  }

  /** The comparator. A negative result puts `a` first. An unknown priority
      makes the JavaScript difference `NaN`, which the sort reads as 0. */
  function Comparator(sortBy: string, a: Issue, b: Issue): int
  {
    if sortBy == "date" then b.reportedDate - a.reportedDate
    else if sortBy == "priority" then
      if PriorityRank(a.priority).Some? && PriorityRank(b.priority).Some? then
        PriorityRank(b.priority).value - PriorityRank(a.priority).value
      else 0
    else if sortBy == "status" then Strings.Compare(a.status, b.status)
    else 0
  }

  /** Issues on which the comparator is a consistent order: with
      `sortBy == "priority"`, those with a known priority. */
  predicate Ranked(sortBy: string, x: Issue)
  {
    sortBy != "priority" || PriorityRank(x.priority).Some?
  }

  predicate AllRanked(sortBy: string, s: seq<Issue>)
  {
    forall i :: 0 <= i < |s| ==> Ranked(sortBy, s[i])
  }

  lemma ComparatorAntisymmetric(sortBy: string, a: Issue, b: Issue)
    requires Ranked(sortBy, a) && Ranked(sortBy, b)
    ensures Comparator(sortBy, a, b) == -Comparator(sortBy, b, a)
  {
    if sortBy == "status" {
      CompareAntisymmetric(a.status, b.status);
    }
  }

  lemma ComparatorTransitive(sortBy: string, a: Issue, b: Issue, c: Issue)
    requires Ranked(sortBy, a) && Ranked(sortBy, b) && Ranked(sortBy, c)
    requires Comparator(sortBy, a, b) <= 0 && Comparator(sortBy, b, c) <= 0
    ensures Comparator(sortBy, a, c) <= 0
  {
    if sortBy == "status" {
      CompareTransitive(a.status, b.status, c.status);
    }
  }

  /** With an unknown priority the comparator is not an order: an unknown
      priority ties with both `high` and `low`, which do not tie. */
  lemma UnknownPriorityBreaksTransitivity(hi: Issue, unknown: Issue, lo: Issue)
    requires hi.priority == "high" && lo.priority == "low" && unknown.priority == "urgent"
    ensures Comparator("priority", lo, unknown) == 0 && Comparator("priority", unknown, hi) == 0
    ensures Comparator("priority", lo, hi) > 0
  {
  }

  // ---------------------------------------------------------------------
  // The sort: `Array.prototype.sort` is stable, so its result for a
  // consistent comparator is the one a stable insertion sort produces.

  predicate SortedBy(sortBy: string, s: seq<Issue>)
  {
    forall i, j :: 0 <= i < j < |s| ==> Comparator(sortBy, s[i], s[j]) <= 0
  }

  /** Puts `x` in front of the first element it does not sort after. */
  function Insert(sortBy: string, x: Issue, s: seq<Issue>): (r: seq<Issue>)
    ensures |r| == |s| + 1
    ensures multiset(r) == multiset(s) + multiset{x}
  {
    if s == [] then [x]
    else
      assert s == [s[0]] + s[1..];
      if Comparator(sortBy, x, s[0]) > 0 then [s[0]] + Insert(sortBy, x, s[1..])
      else [x] + s
  }

  function Sort(sortBy: string, s: seq<Issue>): (r: seq<Issue>)
    ensures |r| == |s|
    ensures multiset(r) == multiset(s)
  {
    if s == [] then []
    else
      assert s == [s[0]] + s[1..];
      Insert(sortBy, s[0], Sort(sortBy, s[1..]))
  }

  /** The issues of `s` that the comparator places level with `k`, in order. */
  function Ties(sortBy: string, k: Issue, s: seq<Issue>): seq<Issue>
  {
    Filter(s, x => Comparator(sortBy, k, x) == 0)
  }

  lemma RankedPermutation(sortBy: string, a: seq<Issue>, b: seq<Issue>)
    requires multiset(a) == multiset(b) && AllRanked(sortBy, b)
    ensures AllRanked(sortBy, a)
  {
    forall i | 0 <= i < |a| ensures Ranked(sortBy, a[i]) {
      assert a[i] in multiset(b);
      var j :| 0 <= j < |b| && b[j] == a[i];
    }
  }

  lemma SortedCons(sortBy: string, y: Issue, s: seq<Issue>)
    requires SortedBy(sortBy, s)
    requires forall j :: 0 <= j < |s| ==> Comparator(sortBy, y, s[j]) <= 0
    ensures SortedBy(sortBy, [y] + s)
  {
    var r := [y] + s;
    forall i, j | 0 <= i < j < |r| ensures Comparator(sortBy, r[i], r[j]) <= 0 {
      if i > 0 {
        assert r[i] == s[i - 1] && r[j] == s[j - 1];
      } else {
        assert r[j] == s[j - 1];
      }
    }
  }

  lemma {:induction false} InsertSorted(sortBy: string, x: Issue, s: seq<Issue>)
    requires Ranked(sortBy, x) && AllRanked(sortBy, s) && SortedBy(sortBy, s)
    ensures SortedBy(sortBy, Insert(sortBy, x, s))
  {
    if s == [] {
    } else if Comparator(sortBy, x, s[0]) > 0 {
      var rest := Insert(sortBy, x, s[1..]);
      InsertSorted(sortBy, x, s[1..]);
      ComparatorAntisymmetric(sortBy, s[0], x);
      forall j | 0 <= j < |rest| ensures Comparator(sortBy, s[0], rest[j]) <= 0 {
        assert rest[j] in multiset(rest);
        if rest[j] != x {
          assert rest[j] in multiset(s[1..]);
          var k :| 0 <= k < |s[1..]| && s[1..][k] == rest[j];
          assert s[k + 1] == rest[j];
        }
      }
      SortedCons(sortBy, s[0], rest);
    } else {
      forall j | 0 <= j < |s| ensures Comparator(sortBy, x, s[j]) <= 0 {
        if j > 0 {
          ComparatorTransitive(sortBy, x, s[0], s[j]);
        }
      }
      SortedCons(sortBy, x, s);
    }
  }

  /** The sorted result is ordered by the comparator. */
  lemma {:induction false} SortSorted(sortBy: string, s: seq<Issue>)
    requires AllRanked(sortBy, s)
    ensures SortedBy(sortBy, Sort(sortBy, s))
  {
    if s != [] {
      SortSorted(sortBy, s[1..]);
      RankedPermutation(sortBy, Sort(sortBy, s[1..]), s[1..]);
      InsertSorted(sortBy, s[0], Sort(sortBy, s[1..]));
    }
  }

  lemma TiesCons(sortBy: string, k: Issue, y: Issue, s: seq<Issue>)
    ensures Ties(sortBy, k, [y] + s) ==
            if Comparator(sortBy, k, y) == 0 then [y] + Ties(sortBy, k, s) else Ties(sortBy, k, s)
  {
    assert ([y] + s)[1..] == s;
  }

  lemma {:induction false} InsertTies(sortBy: string, k: Issue, x: Issue, s: seq<Issue>)
    requires Ranked(sortBy, k) && Ranked(sortBy, x) && AllRanked(sortBy, s)
    ensures Ties(sortBy, k, Insert(sortBy, x, s)) ==
            if Comparator(sortBy, k, x) == 0 then [x] + Ties(sortBy, k, s) else Ties(sortBy, k, s)
  {
    if s == [] {
      TiesCons(sortBy, k, x, []);
    } else if Comparator(sortBy, x, s[0]) > 0 {
      InsertTies(sortBy, k, x, s[1..]);
      TiesCons(sortBy, k, s[0], Insert(sortBy, x, s[1..]));
      TiesCons(sortBy, k, s[0], s[1..]);
      assert s == [s[0]] + s[1..];
      if Comparator(sortBy, k, x) == 0 && Comparator(sortBy, k, s[0]) == 0 {
        ComparatorAntisymmetric(sortBy, k, x);
        ComparatorTransitive(sortBy, x, k, s[0]);
        assert false;
      }
    } else {
      TiesCons(sortBy, k, x, s);
    }
  }

  /** Stability: the issues level with any `k` keep their input order. */
  lemma {:induction false} SortStable(sortBy: string, k: Issue, s: seq<Issue>)
    requires Ranked(sortBy, k) && AllRanked(sortBy, s)
    ensures Ties(sortBy, k, Sort(sortBy, s)) == Ties(sortBy, k, s)
  {
    if s != [] {
      SortStable(sortBy, k, s[1..]);
      RankedPermutation(sortBy, Sort(sortBy, s[1..]), s[1..]);
      InsertTies(sortBy, k, s[0], Sort(sortBy, s[1..]));
      TiesCons(sortBy, k, s[0], s[1..]);
      assert s == [s[0]] + s[1..];
    }
  }

  /** An unrecognised `sortBy` makes every comparison 0: the order is kept. */
  lemma {:induction false} SortUnknownKeyKeepsOrder(sortBy: string, s: seq<Issue>)
    requires sortBy !in {"date", "priority", "status"}
    ensures Sort(sortBy, s) == s
  {
    if s != [] {
      SortUnknownKeyKeepsOrder(sortBy, s[1..]);
      assert s == [s[0]] + s[1..];
    }
  }

  // ---------------------------------------------------------------------
  // The query the effect computes

  /** The visible list: the selected issues, sorted. */
  function Query(issues: seq<Issue>, query: string, f: Filters, sortBy: string): (r: seq<Issue>)
    ensures |r| <= |issues|
    ensures forall x :: x in r <==> x in issues && Selects(query, f, x)
    ensures forall x :: multiset(r)[x] == if Selects(query, f, x) then multiset(issues)[x] else 0
  {
    var selected := Filter(issues, Selector(query, f));
    FilterMultiset(issues, Selector(query, f));
    var r := Sort(sortBy, selected);
    assert forall x :: x in r <==> x in multiset(selected);
    r
  }

  /** `sortBy == "date"`: the reported date never increases along the list. */
  lemma QueryByDate(issues: seq<Issue>, query: string, f: Filters)
    ensures var r := Query(issues, query, f, "date");
            forall i, j :: 0 <= i < j < |r| ==> r[i].reportedDate >= r[j].reportedDate
  {
    var selected := Filter(issues, Selector(query, f));
    SortSorted("date", selected);
  }

  /** `sortBy == "priority"` when every selected issue has a known priority
      (issues the filters drop may have any): the rank never increases
      along the list. */
  lemma QueryByPriority(issues: seq<Issue>, query: string, f: Filters)
    requires AllRanked("priority", Filter(issues, Selector(query, f)))
    ensures var r := Query(issues, query, f, "priority");
            forall i, j :: 0 <= i < j < |r| ==>
              PriorityRank(r[i].priority).Some? && PriorityRank(r[j].priority).Some? &&
              PriorityRank(r[i].priority).value >= PriorityRank(r[j].priority).value
  {
    var selected := Filter(issues, Selector(query, f));
    RankedPermutation("priority", Sort("priority", selected), selected);
    SortSorted("priority", selected);
  }

  function SameRank(k: Issue): Issue -> bool
  {
    (x: Issue) => PriorityRank(x.priority) == PriorityRank(k.priority)
  }

  /** `sortBy == "priority"` with known priorities among the selected
      issues: the issues of one rank appear in the order they had before the sort. */
  lemma QueryByPriorityStable(issues: seq<Issue>, query: string, f: Filters, k: Issue)
    requires AllRanked("priority", Filter(issues, Selector(query, f))) && Ranked("priority", k)
    ensures Filter(Query(issues, query, f, "priority"), SameRank(k)) ==
            Filter(Filter(issues, Selector(query, f)), SameRank(k))
  {
    var selected := Filter(issues, Selector(query, f));
    var r := Sort("priority", selected);
    RankedPermutation("priority", r, selected);
    SortStable("priority", k, selected);
    FilterExtensional(r, x => Comparator("priority", k, x) == 0, SameRank(k));
    FilterExtensional(selected, x => Comparator("priority", k, x) == 0, SameRank(k));
  }

  /** `sortBy == "status"`: status strings ascend by character code. */
  lemma QueryByStatus(issues: seq<Issue>, query: string, f: Filters)
    ensures var r := Query(issues, query, f, "status");
            forall i, j :: 0 <= i < j < |r| ==> Strings.Compare(r[i].status, r[j].status) <= 0
  {
    SortSorted("status", Filter(issues, Selector(query, f)));
  }

  /** The status sort orders the five names alphabetically, which is not the
      lifecycle order: `resolved` issues come before `verified` ones. */
  lemma StatusSortIsAlphabetical()
    ensures Strings.Compare("assigned", "in-progress") < 0
    ensures Strings.Compare("in-progress", "new") < 0
    ensures Strings.Compare("new", "resolved") < 0
    ensures Strings.Compare("resolved", "verified") < 0
  {
  }

  /** Any other `sortBy`: the filtered order is the input order. */
  lemma QueryByUnknownKey(issues: seq<Issue>, query: string, f: Filters, sortBy: string)
    requires sortBy !in {"date", "priority", "status"}
    ensures Query(issues, query, f, sortBy) == Filter(issues, Selector(query, f))
  {
    SortUnknownKeyKeepsOrder(sortBy, Filter(issues, Selector(query, f)));
  }

  /** Stability for every sort key with a consistent comparator. */
  lemma QueryStable(issues: seq<Issue>, query: string, f: Filters, sortBy: string, k: Issue)
    requires AllRanked(sortBy, Filter(issues, Selector(query, f))) && Ranked(sortBy, k)
    ensures Ties(sortBy, k, Query(issues, query, f, sortBy)) ==
            Ties(sortBy, k, Filter(issues, Selector(query, f)))
  {
    var selected := Filter(issues, Selector(query, f));
    SortStable(sortBy, k, selected);
  }

  /** With no search and no filter, the visible list holds every issue. */
  lemma QueryNarrowingNothing(issues: seq<Issue>, sortBy: string)
    ensures multiset(Query(issues, "", InitialFilters, sortBy)) == multiset(issues)
  {
    FilterKeepsAll(issues, Selector("", InitialFilters));
  }

  // ---------------------------------------------------------------------
  // The simulated assignment

  /** The issue with `issueId` becomes `assigned` to the simulated worker;
      the list keeps its length, its order of ids and every other issue. */
  function AssignSimulated(issues: seq<Issue>, issueId: int): (r: seq<Issue>)
    ensures |r| == |issues|
    ensures forall i :: 0 <= i < |issues| ==> r[i].id == issues[i].id
    ensures forall i :: 0 <= i < |issues| && issues[i].id == issueId ==>
              r[i] == issues[i].(status := "assigned", assignedTo := Some(SimulatedWorker))
    ensures forall i :: 0 <= i < |issues| && issues[i].id != issueId ==> r[i] == issues[i]
  {
    seq(|issues|, i requires 0 <= i < |issues| =>
      if issues[i].id == issueId
      then issues[i].(status := "assigned", assignedTo := Some(SimulatedWorker))
      else issues[i])
  }

  /** The Assign Worker button is drawn for non-staff users on verified issues. */
  predicate CanAssign(role: string, x: Issue)
  {
    role != "staff" && x.status == "verified"
  }

  /** Assigning twice is assigning once, and afterwards the button is gone
      for the assigned issue. */
  lemma AssignSimulatedIdempotent(issues: seq<Issue>, issueId: int, role: string)
    ensures AssignSimulated(AssignSimulated(issues, issueId), issueId) == AssignSimulated(issues, issueId)
    ensures forall i :: 0 <= i < |issues| && issues[i].id == issueId ==>
              !CanAssign(role, AssignSimulated(issues, issueId)[i])
  {
  }

  /** The five optional `filter` steps of the effect, in the source's
      order. `aliased` says that no step applied, so that `filtered` is
      still the input array itself. */
  method Narrow(all: seq<Issue>, q: string, f: Filters) returns (filtered: seq<Issue>, aliased: bool)
    ensures filtered == Filter(all, Selector(q, f))
    ensures aliased <==> NarrowsNothing(q, f)
    ensures aliased ==> filtered == all
  {
    filtered, aliased := all, true;
    FilterKeepsAll(all, FirstSteps(0, q, f));

    SearchStepExtends(all, filtered, q, f);
    if q != "" {
      filtered := Filter(filtered, SearchStep(q));
      aliased := false;
    }
    StatusStepExtends(all, filtered, q, f);
    if f.status != All {
      filtered := Filter(filtered, StatusStep(f.status));
      aliased := false;
    }
    PriorityStepExtends(all, filtered, q, f);
    if f.priority != All {
      filtered := Filter(filtered, PriorityStep(f.priority));
      aliased := false;
    }
    CategoryStepExtends(all, filtered, q, f);
    if f.category != All {
      filtered := Filter(filtered, CategoryStep(f.category));
      aliased := false;
    }
    WardStepExtends(all, filtered, q, f);
    if f.ward != All {
      filtered := Filter(filtered, WardStep(f.ward));
      aliased := false;
    }
  }

  // ---------------------------------------------------------------------
  // The component's state

  class IssuesListView {
    var issues: seq<Issue>
    var filteredIssues: seq<Issue>
    var filters: Filters
    var sortBy: string
    /** The `searchQuery` prop; an absent prop is the empty string. */
    var searchQuery: string

    /** The initial state after the mock data is loaded. */
    constructor (mockIssues: seq<Issue>, searchQuery: string)
      ensures issues == mockIssues && filteredIssues == []
      ensures filters == InitialFilters && sortBy == "date"
      ensures this.searchQuery == searchQuery
    {
      issues := mockIssues;
      filteredIssues := [];
      filters := InitialFilters;
      sortBy := "date";
      this.searchQuery := searchQuery;
    }

    /** The effect that re-derives `filteredIssues`. Each step that applies
        replaces the local `filtered` with a new filtered array; when none
        applies, `filtered` is the `issues` array itself and the in-place
        sort reorders the state. */
    method Refresh()
      modifies this`issues, this`filteredIssues
      ensures filteredIssues == Query(old(issues), searchQuery, filters, sortBy)
      ensures issues == if NarrowsNothing(searchQuery, filters) then filteredIssues else old(issues)
    {
      var filtered, aliased := Narrow(issues, searchQuery, filters);
      filtered := Sort(sortBy, filtered);
      if aliased {
        issues := filtered;
      }
      filteredIssues := filtered;
    }

    /** `handleFilterChange`: sets the named field, leaves the others. An
        unknown field name adds a key no filter step reads. */
    method ChangeFilter(filterType: string, value: string)
      modifies this`filters
      ensures filters == if filterType == "status" then old(filters).(status := value)
                         else if filterType == "priority" then old(filters).(priority := value)
                         else if filterType == "category" then old(filters).(category := value)
                         else if filterType == "ward" then old(filters).(ward := value)
                         else old(filters)
    {
      if filterType == "status" {
        filters := filters.(status := value);
      } else if filterType == "priority" {
        filters := filters.(priority := value);
      } else if filterType == "category" {
        filters := filters.(category := value);
      } else if filterType == "ward" {
        filters := filters.(ward := value);
      }
    }

    /** `handleAssignIssue`: the simulated assignment of one issue. */
    method AssignIssue(issueId: int)
      modifies this`issues
      ensures issues == AssignSimulated(old(issues), issueId)
    {
      issues := AssignSimulated(issues, issueId);
    }
  }
}
