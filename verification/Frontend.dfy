/** internal/frontend/grpc/handler.go: the polls, which lease a task first and read its history afterwards. */
module Frontend {
  import opened Types
  import opened Tables
  import opened Store

  datatype WorkflowPoll = WorkflowPoll(taskId: int, key: RunKey, workflowType: string, history: seq<Event>)

  datatype ActivityPoll = ActivityPoll(taskId: int, key: RunKey, activityName: string, input: Bytes)

  class Handler {
    const p: Persistence

    constructor (p: Persistence)
      ensures this.p == p
    {
      this.p := p;
    }

    /** The history handed out is at least as recent as the lease. */
    method PollWorkflowTask(queue: string, owner: string, now: int) returns (r: Option<WorkflowPoll>)
      modifies p
      ensures match r
        case None =>
          && p.db == old(p.db)
          && forall id :: id in p.db.tasks ==> !Pollable(p.db.tasks[id], queue, WorkflowTask, now)
        case Some(poll) =>
          && NextTask(old(p.db), queue, WorkflowTask, now, poll.taskId)
          && p.db == LeaseTask(old(p.db), poll.taskId, owner, now)
          && poll.key == p.db.tasks[poll.taskId].key && poll.workflowType == p.db.tasks[poll.taskId].workflowType
          && OrderedBy(poll.history, Rows(p.db, poll.key))
    {
      var row := p.PollTask(queue, WorkflowTask, owner, now);
      if row.None? {
        return None;
      }
      var task := row.value.task;
      var events := p.GetEvents(task.key);
      var history := MarshalEvents(events);
      return Some(WorkflowPoll(row.value.id, task.key, task.workflowType, history));
    }

    method PollActivityTask(queue: string, owner: string, now: int) returns (r: Option<ActivityPoll>)
      modifies p
      ensures match r
        case None =>
          && p.db == old(p.db)
          && forall id :: id in p.db.tasks ==> !Pollable(p.db.tasks[id], queue, ActivityTask, now)
        case Some(poll) =>
          && NextTask(old(p.db), queue, ActivityTask, now, poll.taskId)
          && p.db == LeaseTask(old(p.db), poll.taskId, owner, now)
          && var t := p.db.tasks[poll.taskId];
          && poll.key == t.key && poll.activityName == t.activityName && poll.input == t.input
    {
      var row := p.PollTask(queue, ActivityTask, owner, now);
      if row.None? {
        return None;
      }
      var task := row.value.task;
      return Some(ActivityPoll(row.value.id, task.key, task.activityName, task.input));
    }
  }

  /** Every event goes over the wire, with all the fields replay reads, at the index it was read at. */
  method MarshalEvents(events: seq<Event>) returns (history: seq<Event>)
    ensures history == events
  {
    var slots := new Event[|events|](_ => Event(0, WorkflowStarted, "", 0, "", 0, []));
    for i := 0 to |events|
      invariant slots[..i] == events[..i]
    {
      var e := events[i];
      slots[i] := Event(e.eventId, e.kind, e.activityName, e.activityIndex, e.signalName, e.timerIndex, e.data);
    }
    return slots[..];
  }
}
