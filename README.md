# Civic issue dashboard: a Dafny model of its handlers

This project models the logic inside the page components of a municipal
civic-issue dashboard. The front end works over mock data. Its behaviour lives in
a handful of state-update handlers and filter/sort expressions:

- **Issue list** (`IssuesList`): the effect that derives the visible list.
  - Free-text search and four `all`-sentinel filters.
  - A three-way sort by date, priority or status.
  - The simulated assignment button.
- **Assignments** (`Assignments`): assigning a worker to a pending issue.
  - The worker's load goes up and the busy cut-off is applied.
  - The issue leaves the pool and an assignment record is appended.
  - Also the worker search and the on-leave exclusion in the assign modal.
- **Issue detail** (`IssueDetail`): the status update that appends a timeline
  entry, and the comment box that refuses blank messages.
- **Map** (`IssuesMap`): the three-field filter, the marker colour and size,
  and the per-status counts.
- **Dashboard** (`Dashboard`): the role-filtered menu, the tab kept in step
  with the location, and the page-title fallback.
- **Login** (`Login`): the credential check, the derived user record, the
  field edits and the demo autofill.

Shared pieces:
- `Strings`: `toLowerCase`, `includes`, `trim`, `localeCompare`,
  `split('/').pop()` and capitalisation.
- `Seqs`: `filter`, `find` and `filter().length`.
- `Domain`: the issue record.
- `Wrappers`: `Option`.

Status, priority and role stay strings, because the code compares raw strings
and has default branches for unknown values. Dates are integer timestamps.
`new Date()` and `Date.now()` are parameters (`now`, `stamp`). Stateful
handlers are methods of classes whose fields are the component's state. Pure
expressions are functions.

The issue-list effect narrows a local `filtered` step by step and then sorts it
in place. When no search and no filter applies, `filtered` is still the `issues`
state array, so the state is reordered. `IssuesListView.Refresh` models this:
it writes the sorted list back into `issues` exactly in that case.
`Array.prototype.sort` is modelled as a stable insertion sort. Two facts are
proved about it:
- its output is ordered and a permutation of its input;
- issues level under the comparator keep their relative order.

Behaviour one might expect that the code does not have:
- **Busy cut-off.** The code compares the count *before* the increment with 4
  (`src/components/Assignments.js:158`). A worker therefore turns `busy` on
  its fifth assignment, not when its count reaches 4.
- **Assigning in Assignments.js** does not:
  - touch the issue's own status or assignee;
  - check for on-leave workers;
  - raise an error on a second assignment: repeating it for the same issue
    finds nothing in the pending pool and changes nothing.
- **No decrement.** Resolving an issue does not decrease a worker's load.
- **Same status accepted.** A status update from the detail page accepts the
  current status again.

## Model

| member | source | states |
|---|---|---|
| Strings.Lower | src/components/IssuesList.js:125-130 | the lower-cased string has the same length and maps each character through the ASCII lower-case mapping |
| Strings.ContainsIff | src/components/IssuesList.js:125-130 | the recursive `includes` holds exactly when the query starts at some index of the text |
| Strings.TrimEmptyIffBlank | src/components/IssueDetail.js:182 | `trim()` yields the empty string exactly when every character is JavaScript white space |
| Strings.Compare | src/components/IssuesList.js:156 | the three-way comparison returns -1, 0 or 1, and 0 exactly for equal strings |
| Strings.CompareAntisymmetric | src/components/IssuesList.js:156 | swapping the arguments negates the comparison |
| Strings.CompareTransitive | src/components/IssuesList.js:156 | the comparison is a transitive order |
| Strings.Capitalize | src/components/Login.js:24 | same length, first character upper-cased, the rest unchanged |
| Strings.LastSegment | src/components/Dashboard.js:17 | the result is a `/`-free suffix of the path, preceded by `/` when shorter than the path |
| Strings.LastSegmentAfterSlash | src/components/Dashboard.js:17 | the last segment of `prefix/seg` is `seg` for a `/`-free `seg` |
| Seqs.Filter | src/components/IssuesList.js:136 | the result keeps exactly the elements satisfying the predicate, as a subsequence of the input |
| Seqs.FilterMultiset | src/components/IssuesList.js:136 | each kept value occurs as often as in the input; the others not at all |
| Seqs.FilterIdempotent | src/components/IssuesMap.js:152-169 | filtering twice by one predicate is filtering once |
| Seqs.Find | src/components/Assignments.js:151-152 | `find` returns nothing exactly when no element matches, otherwise the first match |
| Seqs.Count | src/components/IssuesMap.js:377-379 | a count never exceeds the length |
| IssuesList.SearchSemantics | src/components/IssuesList.js:124-131 | an empty query keeps every issue; a non-empty query keeps an issue exactly when the lower-cased title, description, category or ward contains the lower-cased query |
| IssuesList.Narrow | src/components/IssuesList.js:121-146 | the five optional filter steps give the single filter by the conjunction of search and the four fields; the local still aliases the input exactly when no step applied |
| IssuesList.PriorityRank | src/components/IssuesList.js:153-154 | high, medium and low rank 3, 2 and 1; every other priority has no rank |
| IssuesList.ComparatorAntisymmetric | src/components/IssuesList.js:149-159 | on ranked issues the comparator is antisymmetric for every sort key |
| IssuesList.ComparatorTransitive | src/components/IssuesList.js:149-159 | on ranked issues the comparator is transitive for every sort key |
| IssuesList.UnknownPriorityBreaksTransitivity | src/components/IssuesList.js:152-154 | an unknown priority ties with both high and low, which do not tie, so the priority comparator is then no order |
| IssuesList.Sort | src/components/IssuesList.js:148-160 | the sorted list is a permutation of its input |
| IssuesList.SortSorted | src/components/IssuesList.js:148-160 | with a consistent comparator the sorted list is ordered by it |
| IssuesList.SortStable | src/components/IssuesList.js:148-160 | the issues level with any given issue keep their input order |
| IssuesList.SortUnknownKeyKeepsOrder | src/components/IssuesList.js:157-158 | an unrecognised sort key leaves the order unchanged |
| IssuesList.Query | src/components/IssuesList.js:120-162 | the visible list holds exactly the issues passing search and every filter, each as often as in the input |
| IssuesList.QueryByDate | src/components/IssuesList.js:150-151 | sorted by date, the reported date never increases along the list |
| IssuesList.QueryByPriority | src/components/IssuesList.js:152-154 | sorted by priority, when every issue that passes the filters has a known priority, the rank never increases along the list |
| IssuesList.QueryByPriorityStable | src/components/IssuesList.js:152-154 | sorted by priority, when every issue that passes the filters has a known priority, the issues of one rank keep their filtered order |
| IssuesList.QueryByStatus | src/components/IssuesList.js:155-156 | sorted by status, the status strings ascend |
| IssuesList.StatusSortIsAlphabetical | src/components/IssuesList.js:155-156 | the status order is assigned < in-progress < new < resolved < verified, not the lifecycle order |
| IssuesList.QueryByUnknownKey | src/components/IssuesList.js:157-158 | with any other sort key the visible list is the filtered list in input order |
| IssuesList.QueryStable | src/components/IssuesList.js:148-160 | for every sort key under which the issues that pass the filters are consistently comparable, level issues keep their filtered order |
| IssuesList.QueryNarrowingNothing | src/components/IssuesList.js:121-146 | with no search and no filter the visible list holds every issue |
| IssuesList.AssignSimulated | src/components/IssuesList.js:222-229 | the issue with the id becomes assigned to John Worker; length, ids and every other issue are unchanged |
| IssuesList.AssignSimulatedIdempotent | src/components/IssuesList.js:222-229 | assigning twice is assigning once, and the assigned issue no longer shows the Assign button |
| IssuesList.IssuesListView.constructor | src/components/IssuesList.js:5-13 | filters start at `all`, the sort key at `date` |
| IssuesList.IssuesListView.Refresh | src/components/IssuesList.js:120-163 | the visible list is the query over the issues; the issues are reordered exactly when no step applied |
| IssuesList.IssuesListView.ChangeFilter | src/components/IssuesList.js:215-220 | only the named filter field changes |
| IssuesList.IssuesListView.AssignIssue | src/components/IssuesList.js:222-229 | the issues become the simulated assignment of the old issues |
| Assignments.Bump | src/components/Assignments.js:156-160 | the load grows by one; the status becomes busy when the count before the increment was at least 4, else stays; nothing else changes |
| Assignments.BusyFromFifthAssignment | src/components/Assignments.js:158 | after an assignment a worker is busy exactly when it was busy or its new count exceeds 4 |
| Assignments.BumpWorker | src/components/Assignments.js:156-160 | every worker with the id is bumped, every other worker is unchanged, the list keeps its length |
| Assignments.BumpWorkerLoad | src/components/Assignments.js:156-160 | the total load grows by the number of workers with the id |
| Assignments.NewAssignment | src/components/Assignments.js:166-176 | the record names the worker and issue, carries the given id and date, and has status assigned |
| Assignments.AssignCandidates | src/components/Assignments.js:414-416 | the modal offers exactly the workers not on leave, in their order |
| Assignments.FilteredWorkers | src/components/Assignments.js:182-189 | the list keeps exactly the workers matching search, status and ward, in their order |
| Assignments.FilteredWorkersSemantics | src/components/Assignments.js:182-189 | a worker matches exactly when its name or role contains the query ignoring case and both filters pass; an empty query with both filters `all` keeps everybody |
| Assignments.AssignmentBoard.constructor | src/components/Assignments.js:5-15 | empty assignments, closed modal, filters `all` |
| Assignments.AssignmentBoard.OpenAssignModal | src/components/Assignments.js:337-340 | non-staff users select the issue and open the modal; staff change nothing |
| Assignments.AssignmentBoard.AssignIssue | src/components/Assignments.js:150-180 | with both ids found: workers bumped, issue removed from the pool, one record appended, modal closed; otherwise nothing changes |
| Assignments.AssignmentEffects | src/components/Assignments.js:163 | after removal the issue is gone, the pool is shorter, and every other entry stays in order |
| IssueDetail.StatusUpdateEntry | src/components/IssueDetail.js:163-169 | the entry is a status-update by the actor, with action and details naming the statuses |
| IssueDetail.StatusUpdateEntryRecordsChange | src/components/IssueDetail.js:163-169 | both the old and the new status can be read back from the entry's text |
| IssueDetail.WithStatus | src/components/IssueDetail.js:171-175 | the status is the new one, the timeline grows by exactly that entry with the old timeline as prefix, nothing else changes |
| IssueDetail.SameStatusStillRecorded | src/components/IssueDetail.js:161-175 | re-selecting the current status still appends an entry, and no offered target is `new` |
| IssueDetail.NewComment | src/components/IssueDetail.js:184-189 | the comment carries the given id, the actor, the date and the untrimmed message |
| IssueDetail.WithComment | src/components/IssueDetail.js:191-194 | exactly one comment is appended at the end, nothing else changes |
| IssueDetail.CommentAcceptedIff | src/components/IssueDetail.js:182 | a comment is accepted exactly when it has a non-white-space character |
| IssueDetail.IssueDetailView.constructor | src/components/IssueDetail.js:8-12 | empty comment box, closed modal, empty selection |
| IssueDetail.IssueDetailView.OpenUpdateModal | src/components/IssueDetail.js:243-246 | the modal opens for every role except staff |
| IssueDetail.IssueDetailView.ChooseStatus | src/components/IssueDetail.js:443-450 | the selection takes one of the offered values |
| IssueDetail.IssueDetailView.UpdateStatus | src/components/IssueDetail.js:160-179 | an empty selection changes nothing; otherwise the issue gets the status update, the modal closes and the selection resets |
| IssueDetail.IssueDetailView.AddComment | src/components/IssueDetail.js:181-197 | a blank message changes nothing; otherwise one comment is appended and the box is cleared |
| IssuesMap.VisibleIssues | src/components/IssuesMap.js:152-170 | the three optional steps give exactly the issues matching every non-`all` field, in their order |
| IssuesMap.VisibleIssuesAllFilters | src/components/IssuesMap.js:152-170 | with all three fields `all` every issue is visible |
| IssuesMap.VisibleIssuesIdempotent | src/components/IssuesMap.js:152-170 | filtering the visible issues again changes nothing |
| IssuesMap.SetFilter | src/components/IssuesMap.js:254-259 | the named field takes the value, the other two keep theirs |
| IssuesMap.SetFilterWidens | src/components/IssuesMap.js:254-259 | resetting a field to `all`, or setting status to an issue's own status, keeps a visible issue visible |
| IssuesMap.MarkerColor | src/components/IssuesMap.js:172-193 | the colour is grey exactly for a status outside the five, and never the initial blue |
| IssuesMap.MarkerColorsDistinct | src/components/IssuesMap.js:175-190 | the five statuses have five different colours |
| IssuesMap.MarkerSize | src/components/IssuesMap.js:195 | 35 exactly for high, 30 exactly for medium, 25 for every other priority |
| IssuesMap.MarkerIcon | src/components/IssuesMap.js:172-195 | the marker takes its colour from the status and its size from the priority |
| IssuesMap.StatusCount | src/components/IssuesMap.js:376-379 | each per-status count is at most the visible count |
| IssuesMap.StatusCountsBounded | src/components/IssuesMap.js:373-379 | the four counts together are at most the visible count |
| IssuesMap.StatusFilterZeroesOtherCounts | src/components/IssuesMap.js:376-379 | with the status filter set, every other status counts zero |
| Dashboard.FilteredMenu | src/components/Dashboard.js:36-38 | the menu holds exactly the items whose roles include the user's role, in declared order |
| Dashboard.StaffMenu | src/components/Dashboard.js:28-38 | staff get overview, issues and map |
| Dashboard.FullMenu | src/components/Dashboard.js:28-38 | admins and supervisors get all five items |
| Dashboard.EmptyMenu | src/components/Dashboard.js:28-38 | a role named by no item gets an empty menu |
| Dashboard.SameIdSameItem | src/components/Dashboard.js:28-34 | menu items are identified by their id and have non-empty labels |
| Dashboard.PageTitle | src/components/Dashboard.js:90 | the title is never empty |
| Dashboard.PageTitleOfOfferedTab | src/components/Dashboard.js:90 | a tab the menu offers is titled with its label |
| Dashboard.PageTitleOfHiddenTab | src/components/Dashboard.js:90 | a tab the menu does not offer is titled Dashboard |
| Dashboard.HiddenTabTitle | src/components/Dashboard.js:90 | staff on the assignments or analytics tab see Dashboard |
| Dashboard.TabFromPath | src/components/Dashboard.js:16-21 | a location selects its last segment exactly when that segment is a tab id |
| Dashboard.TabPath | src/components/Dashboard.js:23-26 | the navigation target is `/dashboard/` followed by exactly the tab |
| Dashboard.TabPathRoundTrip | src/components/Dashboard.js:16-26 | reading the tab back from a tab's path gives that tab |
| Dashboard.DashboardView.constructor | src/components/Dashboard.js:12 | the active tab starts at overview |
| Dashboard.DashboardView.SyncFromLocation | src/components/Dashboard.js:16-21 | the active tab becomes the location's tab when it has one and is otherwise unchanged |
| Dashboard.DashboardView.ChangeTab | src/components/Dashboard.js:23-26 | the tab becomes active and the returned path is the one navigated to |
| Login.MakeUser | src/components/Login.js:20-26 | the record keeps username and role, has id 1, the capitalised username as name and the username at municipality.gov as email |
| Login.MakeUserRecoversUsername | src/components/Login.js:24-25 | the username is the email's prefix before the domain, and the lower-cased name when it has no capitals |
| Login.WithField | src/components/Login.js:35-41 | the named credential field takes the value, the others keep theirs |
| Login.WithFieldOverwrites | src/components/Login.js:35-41 | a second write to a field replaces the first; writing `username`, `password` or `role` back to its own value changes nothing, and a write under any other name changes none of the three |
| Login.DemoCredentials | src/components/Login.js:120-125 | a demo chip fills in its username, password demo123 and its role |
| Login.DemoLoginSucceeds | src/components/Login.js:43-47 | every demo user's credentials are accepted and log in with that user's role, under a name other than the chip's |
| Login.LoginForm.constructor | src/components/Login.js:4-10 | empty credentials with role staff, not loading, no error |
| Login.LoginForm.BeginSubmit | src/components/Login.js:12-18 | loading starts, the error clears, and the credentials are captured as they are at submit time |
| Login.LoginForm.CompleteSubmit | src/components/Login.js:19-31 | both fields non-empty: the user record is handed on; otherwise the error is set; loading stops either way |
| Login.LoginForm.Change | src/components/Login.js:35-41 | one field changes and the error clears |
| Login.LoginForm.DemoFill | src/components/Login.js:120-125 | the credentials become the demo user's |

## Left out

- Analytics.js and App.js are not part of this model: mock statistics for display, and session storage with route guards.
- Rendering, styles, icons, the display-only badge colour tables, `getPriorityColor` and `getTimelineIcon`: they only choose how things look.
- Leaflet calls: the `divIcon` HTML, the icon anchor at half the size (a fractional number), `fitBounds` and the default-icon patch.
- Coordinates, worker ratings and image URLs: floating-point or display data that no modelled handler reads.
- Date parsing and formatting: dates are integer timestamps, and `new Date()` and `Date.now()` are parameters.
- The `setTimeout` delays and the mock-data loading effects: `BeginSubmit` and `CompleteSubmit` split the submit around the delay, and each class's constructor takes the loaded data.
- Calls into the router and the parent: `navigate` becomes the path `ChangeTab` returns, and `onLogin` becomes the user record `CompleteSubmit` returns.
- Plain field setters bound directly to inputs (search box, sort select, comment box, modal close buttons): they are single field assignments.
- Strings.Lower: case mapping covers ASCII letters only, not the full Unicode mapping of `toLowerCase` and `toUpperCase`.
- Strings.Compare: it models `localeCompare` as ordinal comparison by character code, which agrees with it on the lower-case ASCII status names.
- IssuesList.Sort: it is a pure stable insertion sort on a sequence rather than an in-place sort of an array. The in-place effect on the `issues` state is written back explicitly in `Refresh`.
- IssuesList.SortSorted: proved only where the comparator is an order. With an unknown priority the JavaScript comparator yields `NaN`, which the sort reads as 0. Such a comparator is inconsistent and the engine's resulting order is unspecified, so the model fixes one stable order without claiming it matches the engine.
- Stale closures: the assignment handler reads `workers` from the render while updating from `prev`; the model uses one state for both.
