/** The two endpoints of the server whose logic is more than plumbing:
    `/api/schedule` (validate, store the task and its numbered subtasks,
    lay out and store the schedule) and `/api/calendar/add-events`
    (validate, insert every event, record the Google ids of the successful
    inserts). Storage is modelled as the list of writes the handler issues;
    storage calls are assumed to succeed. */
module Server {

  import opened Wrappers
  import opened Decimal
  import opened Tasks
  import opened Scheduler
  import opened Calendar

  const InvalidRequestData: string := "Invalid request data"
  const StatusOk: int := 200
  const StatusBadRequest: int := 400

  /** A request field that should hold an array. */
  datatype Payload<T> = Absent | NotAnArray | Items(items: seq<T>)

  /** JavaScript truthiness of an optional string: absent and "" are falsy. */
  predicate TruthyText(s: Option<string>) {
    s.Some? && s.value != ""
  }

  /** A storage write issued by a handler. */
  datatype DbWrite =
    | CreateTask(title: string, description: Option<string>, manual: bool)
    | CreateSubtask(subtask: NumberedSubtask)
    | CreateEvent(subtaskOrder: int, event: ScheduledEvent)
    | UpdateEvent(eventId: int, googleEventId: string)

  // ----- /api/schedule -----

  datatype ScheduleRequest = ScheduleRequest(
    title: Option<string>,
    description: Option<string>,
    subtasks: Payload<Subtask>,
    manual: bool)

  predicate ValidScheduleRequest(req: ScheduleRequest) {
    TruthyText(req.title) && req.subtasks.Items?
  }

  datatype ScheduleReply = ScheduleReply(
    status: int,
    error: Option<string>,
    writes: seq<DbWrite>,
    schedule: seq<ScheduledEvent>)

  /** The `/api/schedule` handler at local instant `nowMs`. An invalid
      request is answered 400 before anything is written. A valid one writes
      the task, then subtask i with order i, then event i, and returns the
      events laid out from the anchor with the buffer between them. */
  function HandleSchedule(req: ScheduleRequest, nowMs: int): (reply: ScheduleReply)
    ensures reply.status == StatusBadRequest <==> !ValidScheduleRequest(req)
    ensures !ValidScheduleRequest(req) ==>
      reply.error == Some(InvalidRequestData) && reply.writes == [] && reply.schedule == []
    ensures ValidScheduleRequest(req) ==>
      var subs := req.subtasks.items;
      var n := |subs|;
      && reply.status == StatusOk
      && reply.error == None
      && |reply.schedule| == n
      && |reply.writes| == 1 + 2 * n
      && reply.writes[0] == CreateTask(req.title.value, req.description, req.manual)
      && (forall i :: 0 <= i < n ==> reply.writes[1 + i] == CreateSubtask(NumberedSubtask(subs[i], i)))
      && (forall i :: 0 <= i < n ==> reply.writes[1 + n + i] == CreateEvent(i, reply.schedule[i]))
      && (n > 0 ==> reply.schedule[0].start == Anchor(nowMs))
      && (forall i :: 0 <= i < n ==>
            && reply.schedule[i].title == subs[i].title
            && reply.schedule[i].description == subs[i].description
            && reply.schedule[i].start == Anchor(nowMs) + Offset(subs, i)
            && reply.schedule[i].end - reply.schedule[i].start == subs[i].duration
            && reply.schedule[i].bufferMinutes == BufferMinutes)
      && (forall i :: 0 <= i < n - 1 ==>
            reply.schedule[i + 1].start == reply.schedule[i].end + BufferMinutes)
  {
    if !ValidScheduleRequest(req) then
      ScheduleReply(StatusBadRequest, Some(InvalidRequestData), [], [])
    else
      var created := Number(req.subtasks.items);
      var n := |created|;
      StripNumber(req.subtasks.items);
      var schedule := BuildSchedule(Strip(created), nowMs);
      LayoutBuffered(Strip(created), Anchor(nowMs));
      var writes :=
        [CreateTask(req.title.value, req.description, req.manual)]
        + seq(n, i requires 0 <= i < n => CreateSubtask(created[i]))
        + seq(n, i requires 0 <= i < n => CreateEvent(created[i].order, schedule[i]));
      ScheduleReply(StatusOk, None, writes, schedule)
  }

  // ----- /api/calendar/add-events -----

  datatype AddEventsRequest = AddEventsRequest(taskId: Option<int>, events: Payload<EventData>)

  /** `taskId` must be present and non-zero, `events` an array. */
  predicate ValidAddEventsRequest(req: AddEventsRequest) {
    req.taskId.Some? && req.taskId.value != 0 && req.events.Items?
  }

  datatype AddEventsReply = AddEventsReply(
    status: int,
    error: Option<string>,
    attempts: seq<GoogleEvent>,
    results: seq<InsertResult>,
    updatedIndices: seq<nat>,
    updates: seq<DbWrite>,
    successCount: nat,
    message: string)

  function SuccessMessage(count: nat): string {
    "Successfully added " + IntToString(count) + " events to Google Calendar"
  }

  lemma CountAddedStep(results: seq<InsertResult>, i: nat)
    requires i < |results|
    ensures CountAdded(results[..i + 1]) == CountAdded(results[..i]) + (if results[i].Added? then 1 else 0)
  {
    assert results[..i + 1][..i] == results[..i];
  }

  /** The update loop: for each successful result, in index order, store the
      Google id on the corresponding event; failed results are skipped. */
  method RecordGoogleIds(events: seq<EventData>, results: seq<InsertResult>)
    returns (updatedIndices: seq<nat>, updates: seq<DbWrite>)
    requires |events| == |results|
    ensures |updatedIndices| == |updates| == CountAdded(results)
    ensures forall j :: 0 <= j < |updatedIndices| ==>
      && updatedIndices[j] < |results|
      && results[updatedIndices[j]].Added?
      && updates[j] == UpdateEvent(events[updatedIndices[j]].id, results[updatedIndices[j]].eventId)
    ensures forall i :: 0 <= i < |results| && results[i].Added? ==> i in updatedIndices
    ensures forall j, k :: 0 <= j < k < |updatedIndices| ==> updatedIndices[j] < updatedIndices[k]
  {
    updatedIndices := [];
    updates := [];
    for i := 0 to |results|
      invariant |updatedIndices| == |updates| == CountAdded(results[..i])
      invariant forall j :: 0 <= j < |updatedIndices| ==>
        && updatedIndices[j] < i
        && results[updatedIndices[j]].Added?
        && updates[j] == UpdateEvent(events[updatedIndices[j]].id, results[updatedIndices[j]].eventId)
      invariant forall k :: 0 <= k < i && results[k].Added? ==> k in updatedIndices
      invariant forall j, k :: 0 <= j < k < |updatedIndices| ==> updatedIndices[j] < updatedIndices[k]
    {
      CountAddedStep(results, i);
      if results[i].Added? {
        updatedIndices := updatedIndices + [i];
        updates := updates + [UpdateEvent(events[i].id, results[i].eventId)];
      }
    }
    assert results[..|results|] == results;
  }

  /** The `/api/calendar/add-events` handler. An invalid request is answered
      400 before any insert is attempted. Otherwise every event is inserted,
      the ids of the successful inserts are stored, and the reply counts the
      successes. */
  method HandleAddEvents(req: AddEventsRequest, insert: Inserter) returns (reply: AddEventsReply)
    ensures reply.status == StatusBadRequest <==> !ValidAddEventsRequest(req)
    ensures !ValidAddEventsRequest(req) ==>
      && reply.error == Some(InvalidRequestData)
      && reply.attempts == [] && reply.results == [] && reply.updates == []
    ensures ValidAddEventsRequest(req) ==>
      var events := req.events.items;
      var run := AddMultipleCalendarEvents(events, insert);
      && reply.status == StatusOk
      && reply.error == None
      && reply.attempts == run.attempts
      && reply.results == run.results
      && |reply.results| == |events|
      && reply.successCount == CountAdded(reply.results)
      && reply.message == SuccessMessage(reply.successCount)
      && |reply.updates| == |reply.updatedIndices| == reply.successCount
      && (forall j :: 0 <= j < |reply.updatedIndices| ==>
            && reply.updatedIndices[j] < |events|
            && reply.results[reply.updatedIndices[j]].Added?
            && reply.updates[j] == UpdateEvent(
                 events[reply.updatedIndices[j]].id,
                 reply.results[reply.updatedIndices[j]].eventId))
      && (forall i :: 0 <= i < |events| && reply.results[i].Added? ==> i in reply.updatedIndices)
      && (forall j, k :: 0 <= j < k < |reply.updatedIndices| ==>
            reply.updatedIndices[j] < reply.updatedIndices[k])
  {
    if !ValidAddEventsRequest(req) {
      return AddEventsReply(StatusBadRequest, Some(InvalidRequestData), [], [], [], [], 0, "");
    }
    var events := req.events.items;
    var run := AddMultipleCalendarEvents(events, insert);
    var updatedIndices, updates := RecordGoogleIds(events, run.results);
    var successCount := CountAdded(run.results);
    reply := AddEventsReply(StatusOk, None, run.attempts, run.results, updatedIndices, updates,
                            successCount, SuccessMessage(successCount));
  }
}
