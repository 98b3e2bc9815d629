/** The issue detail page: the status update, which appends a timeline
    entry, and the comment box, which appends a comment. */
module IssueDetail {
  import opened Wrappers
  import opened Strings

  datatype Reporter = Reporter(name: string, phone: string, email: string)

  datatype Assignee = Assignee(name: string, phone: string, role: string)

  /** One timeline event; `type` is one of `report`, `verification`,
      `assignment`, `progress`, `status-update` in the data. */
  datatype TimelineEntry = TimelineEntry(
    date: int,
    action: string,
    user: string,
    entryType: string,
    details: string)

  datatype Comment = Comment(id: int, user: string, date: int, message: string)

  /** The issue record the page holds once it is loaded. */
  datatype DetailIssue = DetailIssue(
    id: int,
    title: string,
    description: string,
    category: string,
    status: string,
    priority: string,
    address: string,
    landmark: string,
    ward: string,
    reportedBy: Reporter,
    reportedDate: int,
    assignedTo: Option<Assignee>,
    assignedDate: Option<int>,
    images: seq<string>,
    progressImages: seq<string>,
    timeline: seq<TimelineEntry>,
    comments: seq<Comment>,
    estimatedCompletion: int,
    tags: seq<string>)

  /** The target statuses the update modal offers. */
  const StatusChoices := ["verified", "assigned", "in-progress", "resolved"]

  const UpdatedPrefix := "Status updated to "
  const ChangedPrefix := "Status changed from "
  const ChangedInfix := " to "

  /** The Update Status button is drawn for every role except `staff`. */
  predicate CanUpdateStatus(role: string)
  {
    role != "staff"
  }

  /** The entry a status update appends. */
  function StatusUpdateEntry(from: string, to: string, actor: string, now: int): (e: TimelineEntry)
    ensures e.entryType == "status-update" && e.user == actor && e.date == now
    ensures e.action == UpdatedPrefix + to
    ensures e.details == ChangedPrefix + from + ChangedInfix + to
  {
    TimelineEntry(now, UpdatedPrefix + to, actor, "status-update", ChangedPrefix + from + ChangedInfix + to)
  }

  /** The entry records both statuses: the new one is what follows the
      action's prefix, the old one what sits between the details' fixed words. */
  lemma StatusUpdateEntryRecordsChange(from: string, to: string, actor: string, now: int)
    ensures var e := StatusUpdateEntry(from, to, actor, now);
            && e.action[|UpdatedPrefix|..] == to
            && |e.details| == |ChangedPrefix| + |from| + |ChangedInfix| + |to|
            && e.details[|ChangedPrefix|..|ChangedPrefix| + |from|] == from
            && e.details[|e.details| - |to|..] == to
  {
    var e := StatusUpdateEntry(from, to, actor, now);
    assert e.action == UpdatedPrefix + to;
    assert e.details == ChangedPrefix + from + ChangedInfix + to;
    assert (ChangedPrefix + from + ChangedInfix + to)[|ChangedPrefix|..|ChangedPrefix| + |from|] == from;
  }

  /** The issue after a status update: the new status, one more timeline
      entry at the end, and every other field as it was. */
  function WithStatus(issue: DetailIssue, to: string, actor: string, now: int): (r: DetailIssue)
    ensures r.status == to
    ensures |r.timeline| == |issue.timeline| + 1
    ensures issue.timeline <= r.timeline
    ensures r.timeline[|issue.timeline|] == StatusUpdateEntry(issue.status, to, actor, now)
    ensures r.(status := issue.status, timeline := issue.timeline) == issue
  {
    issue.(status := to, timeline := issue.timeline + [StatusUpdateEntry(issue.status, to, actor, now)])
  }

  /** Selecting the status the issue already has is not refused: it still
      appends an entry, whose details name the same status twice. A chosen
      target is never `new`. */
  lemma SameStatusStillRecorded(issue: DetailIssue, actor: string, now: int)
    ensures WithStatus(issue, issue.status, actor, now).status == issue.status
    ensures |WithStatus(issue, issue.status, actor, now).timeline| == |issue.timeline| + 1
    ensures forall v :: v in StatusChoices ==> WithStatus(issue, v, actor, now).status != "new"
  {
  }

  /** The comment the comment box appends; the message is kept untrimmed. */
  function NewComment(stamp: int, actor: string, now: int, message: string): (c: Comment)
    ensures c.id == stamp && c.user == actor && c.date == now && c.message == message
  {
    Comment(stamp, actor, now, message)
  }

  /** The issue after a comment: one more comment at the end, everything
      else as it was. */
  function WithComment(issue: DetailIssue, c: Comment): (r: DetailIssue)
    ensures |r.comments| == |issue.comments| + 1
    ensures issue.comments <= r.comments && r.comments[|issue.comments|] == c
    ensures r.(comments := issue.comments) == issue
  {
    issue.(comments := issue.comments + [c])
  }

  /** `!newComment.trim()`: the comment is refused exactly when every
      character is white space (the empty message included). */
  lemma CommentAcceptedIff(message: string)
    ensures Trim(message) != [] <==> exists i :: 0 <= i < |message| && !IsSpace(message[i])
  {
    TrimEmptyIffBlank(message);
  }

  class IssueDetailView {
    var issue: DetailIssue
    var newComment: string
    var showUpdateModal: bool
    var statusUpdate: string

    /** The page once the issue has loaded. */
    constructor (loaded: DetailIssue)
      ensures issue == loaded && newComment == "" && !showUpdateModal && statusUpdate == ""
    {
      issue := loaded;
      newComment := "";
      showUpdateModal := false;
      statusUpdate := "";
    }

    /** The Update Status button. */
    method OpenUpdateModal(role: string)
      modifies this`showUpdateModal
      ensures showUpdateModal == (CanUpdateStatus(role) || old(showUpdateModal))
    {
      if CanUpdateStatus(role) {
        showUpdateModal := true;
      }
    }

    /** The status select; its options are the placeholder and the choices. */
    method ChooseStatus(v: string)
      requires v == "" || v in StatusChoices
      modifies this`statusUpdate
      ensures statusUpdate == v
    {
      statusUpdate := v;
    }

    /** `handleStatusUpdate`: nothing happens without a selection; otherwise
        the status and timeline change, the modal closes and the selection
        resets. `now` stands for `new Date()`. */
    method UpdateStatus(actor: string, now: int)
      modifies this`issue, this`showUpdateModal, this`statusUpdate
      ensures old(statusUpdate) == "" ==>
                issue == old(issue) && showUpdateModal == old(showUpdateModal) && statusUpdate == ""
      ensures old(statusUpdate) != "" ==>
                && issue == WithStatus(old(issue), old(statusUpdate), actor, now)
                && !showUpdateModal && statusUpdate == ""
    {
      if statusUpdate == "" {
        return;
      }
      issue := WithStatus(issue, statusUpdate, actor, now);
      showUpdateModal := false;
      statusUpdate := "";
    }

    /** `handleAddComment`: a blank message changes nothing; otherwise one
        comment is appended and the box is cleared. `stamp` and `now` stand
        for `Date.now()` and `new Date()`. */
    method AddComment(actor: string, now: int, stamp: int)
      modifies this`issue, this`newComment
      ensures Trim(old(newComment)) == [] ==> issue == old(issue) && newComment == old(newComment)
      ensures Trim(old(newComment)) != [] ==>
                && issue == WithComment(old(issue), NewComment(stamp, actor, now, old(newComment)))
                && newComment == ""
    {
      if Trim(newComment) == [] {
        return;
      }
      issue := WithComment(issue, NewComment(stamp, actor, now, newComment));
      newComment := "";
    }
  }
}
