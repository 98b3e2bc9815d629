/** The assignments page: the workers, the pool of unassigned issues, the
    assignment records, and the command that assigns a worker to an issue. */
module Assignments {
  import opened Wrappers
  import opened Strings
  import opened Seqs

  /** A field worker. Status stays a string (`available`, `busy`,
      `on-leave` in the data; the code compares raw strings). */
  datatype Worker = Worker(
    id: int,
    name: string,
    role: string,
    phone: string,
    email: string,
    ward: string,
    status: string,
    currentAssignments: int,
    completedThisMonth: int,
    specialties: seq<string>)

  /** An entry of the unassigned-issues pool. */
  datatype PendingIssue = PendingIssue(
    id: int,
    title: string,
    category: string,
    priority: string,
    address: string,
    reportedDate: int,
    ward: string)

  /** An assignment record; `id` and `assignedDate` come from the clock. */
  datatype Assignment = Assignment(
    id: int,
    workerId: int,
    workerName: string,
    issueId: int,
    issueTitle: string,
    assignedDate: int,
    status: string)

  datatype WorkerFilters = WorkerFilters(status: string, ward: string)

  const All := "all"

  /** The inline cut-off in the assignment handler. It is compared with the
      count before the increment. */
  const BusyThreshold := 4

  function HasWorkerId(workerId: int): Worker -> bool { (w: Worker) => w.id == workerId }

  function HasIssueId(issueId: int): PendingIssue -> bool { (i: PendingIssue) => i.id == issueId }

  function OtherIssue(issueId: int): PendingIssue -> bool { (i: PendingIssue) => i.id != issueId }

  /** The update a matching worker receives: one more assignment, and
      `busy` when the count before the increment had reached the cut-off. */
  function Bump(w: Worker): (r: Worker)
    ensures r.currentAssignments == w.currentAssignments + 1
    ensures w.currentAssignments >= BusyThreshold ==> r.status == "busy"
    ensures w.currentAssignments < BusyThreshold ==> r.status == w.status
    ensures r.(currentAssignments := w.currentAssignments, status := w.status) == w
  {
    w.(currentAssignments := w.currentAssignments + 1,
       status := if w.currentAssignments >= BusyThreshold then "busy" else w.status)
  }

  /** The worker becomes `busy` only from its fifth assignment on: the check
      reads the count before the increment, so a worker reaching four keeps
      its status. */
  lemma BusyFromFifthAssignment(w: Worker)
    ensures Bump(w).status == "busy" <==> w.status == "busy" || Bump(w).currentAssignments > BusyThreshold
    ensures w.currentAssignments == BusyThreshold - 1 ==> Bump(w).currentAssignments == BusyThreshold && Bump(w).status == w.status
  {
  }

  /** `workers.map(...)`: every worker with the id is bumped, the others kept. */
  function BumpWorker(workers: seq<Worker>, workerId: int): (r: seq<Worker>)
    ensures |r| == |workers|
    ensures forall i :: 0 <= i < |workers| ==>
              r[i] == if workers[i].id == workerId then Bump(workers[i]) else workers[i]
  {
    seq(|workers|, i requires 0 <= i < |workers| =>
      if workers[i].id == workerId then Bump(workers[i]) else workers[i])
  }

  /** The total of `currentAssignments` over a list of workers. */
  function TotalLoad(workers: seq<Worker>): int
  {
    if workers == [] then 0 else workers[0].currentAssignments + TotalLoad(workers[1..])
  }

  /** The number of workers carrying an id. */
  function Holders(workers: seq<Worker>, workerId: int): nat
  {
    Count(workers, HasWorkerId(workerId))
  }

  /** The total load grows by one per worker holding the id: by exactly one
      when ids are unique. */
  lemma {:induction false} BumpWorkerLoad(workers: seq<Worker>, workerId: int)
    ensures TotalLoad(BumpWorker(workers, workerId)) == TotalLoad(workers) + Holders(workers, workerId)
  {
    if workers != [] {
      var r := BumpWorker(workers, workerId);
      BumpWorkerLoad(workers[1..], workerId);
      assert r[1..] == BumpWorker(workers[1..], workerId);
    }
  }

  /** The assignment record the handler appends. */
  function NewAssignment(stamp: int, w: Worker, i: PendingIssue, now: int): (a: Assignment)
    ensures a.workerId == w.id && a.issueId == i.id && a.status == "assigned"
    ensures a.workerName == w.name && a.issueTitle == i.title
    ensures a.id == stamp && a.assignedDate == now
  {
    Assignment(stamp, w.id, w.name, i.id, i.title, now, "assigned")
  }

  /** The workers the assign modal offers: everyone not on leave, in order. */
  function AssignCandidates(workers: seq<Worker>): (r: seq<Worker>)
    ensures forall w :: w in r <==> w in workers && w.status != "on-leave"
    ensures IsSubsequence(r, workers)
  {
    Filter(workers, (w: Worker) => w.status != "on-leave")
  }

  /** A worker passes the page's search box and its two filters. */
  predicate WorkerMatches(query: string, f: WorkerFilters, w: Worker)
  {
    && (ContainsIgnoreCase(w.name, query) || ContainsIgnoreCase(w.role, query))
    && (f.status == All || w.status == f.status)
    && (f.ward == All || w.ward == f.ward)
  }

  /** `filteredWorkers`. */
  function FilteredWorkers(workers: seq<Worker>, query: string, f: WorkerFilters): (r: seq<Worker>)
    ensures forall w :: w in r <==> w in workers && WorkerMatches(query, f, w)
    ensures IsSubsequence(r, workers)
  {
    Filter(workers, (w: Worker) => WorkerMatches(query, f, w))
  }

  /** The search keeps a worker exactly when its name or role contains the
      query, ignoring case; an empty query with both filters `all` keeps
      every worker. */
  lemma FilteredWorkersSemantics(workers: seq<Worker>, query: string, f: WorkerFilters, w: Worker)
    ensures WorkerMatches(query, f, w) <==>
              && (OccursIn(Lower(query), Lower(w.name)) || OccursIn(Lower(query), Lower(w.role)))
              && (f.status == All || w.status == f.status)
              && (f.ward == All || w.ward == f.ward)
    ensures FilteredWorkers(workers, "", WorkerFilters(All, All)) == workers
  {
    ContainsIff(Lower(w.name), Lower(query));
    ContainsIff(Lower(w.role), Lower(query));
    FilterKeepsAll(workers, (w: Worker) => WorkerMatches("", WorkerFilters(All, All), w));
  }

  /** The unassigned-issues panel with its Assign Worker buttons is drawn
      for every role except `staff`. */
  predicate SeesUnassignedPanel(role: string)
  {
    role != "staff"
  }

  class AssignmentBoard {
    var workers: seq<Worker>
    var assignments: seq<Assignment>
    var unassignedIssues: seq<PendingIssue>
    var showAssignModal: bool
    var selectedIssue: Option<PendingIssue>
    var searchQuery: string
    var filters: WorkerFilters

    /** The state after the mock data is loaded. */
    constructor (mockWorkers: seq<Worker>, mockIssues: seq<PendingIssue>)
      ensures workers == mockWorkers && unassignedIssues == mockIssues && assignments == []
      ensures !showAssignModal && selectedIssue == None
      ensures searchQuery == "" && filters == WorkerFilters(All, All)
    {
      workers := mockWorkers;
      unassignedIssues := mockIssues;
      assignments := [];
      showAssignModal := false;
      selectedIssue := None;
      searchQuery := "";
      filters := WorkerFilters(All, All);
    }

    /** The Assign Worker button of a pool entry; it exists only for
        non-staff roles. */
    method OpenAssignModal(role: string, issue: PendingIssue)
      modifies this`showAssignModal, this`selectedIssue
      ensures SeesUnassignedPanel(role) ==> showAssignModal && selectedIssue == Some(issue)
      ensures !SeesUnassignedPanel(role) ==>
                showAssignModal == old(showAssignModal) && selectedIssue == old(selectedIssue)
    {
      if SeesUnassignedPanel(role) {
        selectedIssue := Some(issue);
        showAssignModal := true;
      }
    }

    /** `handleAssignIssue`. `stamp` and `now` stand for `Date.now()` and
        `new Date()`. Nothing changes unless both ids are found. */
    method AssignIssue(workerId: int, issueId: int, now: int, stamp: int)
      modifies this`workers, this`unassignedIssues, this`assignments,
               this`showAssignModal, this`selectedIssue
      ensures var w := Find(old(workers), HasWorkerId(workerId));
              var i := Find(old(unassignedIssues), HasIssueId(issueId));
              if w.Some? && i.Some? then
                && workers == BumpWorker(old(workers), workerId)
                && unassignedIssues == Filter(old(unassignedIssues), OtherIssue(issueId))
                && assignments == old(assignments) + [NewAssignment(stamp, w.value, i.value, now)]
                && !showAssignModal && selectedIssue == None
              else
                && workers == old(workers) && unassignedIssues == old(unassignedIssues)
                && assignments == old(assignments)
                && showAssignModal == old(showAssignModal) && selectedIssue == old(selectedIssue)
    {
      var worker := Find(workers, HasWorkerId(workerId));
      var issue := Find(unassignedIssues, HasIssueId(issueId));
      if worker.Some? && issue.Some? {
        workers := BumpWorker(workers, workerId);
        unassignedIssues := Filter(unassignedIssues, OtherIssue(issueId));
        assignments := assignments + [NewAssignment(stamp, worker.value, issue.value, now)];
        showAssignModal := false;
        selectedIssue := None;
      }
    }
  }

  /** After a successful assignment the issue has left the pool, the other
      pool entries keep their order. */
  lemma AssignmentEffects(pool: seq<PendingIssue>, issueId: int)
    requires Find(pool, HasIssueId(issueId)).Some?
    ensures forall i :: i in Filter(pool, OtherIssue(issueId)) ==> i.id != issueId
    ensures |Filter(pool, OtherIssue(issueId))| < |pool|
    ensures IsSubsequence(Filter(pool, OtherIssue(issueId)), pool)
    ensures forall i :: i in pool && i.id != issueId ==> i in Filter(pool, OtherIssue(issueId))
  {
    var k :| 0 <= k < |pool| && pool[k].id == issueId;
    FilterDrops(pool, OtherIssue(issueId), k);
  }
}
