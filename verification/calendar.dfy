/** The Google Calendar side of the planner: the event body built for one
    scheduled event (`addCalendarEvent`) and the loop that inserts a list of
    events one at a time, recording a success or a failure for each
    (`addMultipleCalendarEvents`). The remote insert, including fetching the
    access token, is an outcome oracle passed in as a parameter. */
module Calendar {

  import opened Wrappers

  const CalendarTimeZone: string := "America/New_York"
  const ReminderMethod: string := "popup"
  const ReminderMinutes: int := 10

  /** An event as sent by the client; `id` is the stored event's identifier. */
  datatype EventData = EventData(
    id: int,
    title: string,
    description: Option<string>,
    startTime: string,
    endTime: string)

  datatype EventDateTime = EventDateTime(dateTime: string, timeZone: string)
  datatype ReminderOverride = ReminderOverride(kind: string, minutes: int)
  datatype Reminders = Reminders(useDefault: bool, overrides: seq<ReminderOverride>)

  /** The resource handed to `calendar.events.insert`. */
  datatype GoogleEvent = GoogleEvent(
    summary: string,
    description: string,
    start: EventDateTime,
    end: EventDateTime,
    reminders: Reminders)

  /** `description || ''`: an absent or empty description becomes the empty string. */
  function DescriptionText(description: Option<string>): string {
    description.GetOr("")
  }

  function ToGoogleEvent(e: EventData): (g: GoogleEvent)
    ensures g.summary == e.title
    ensures g.description == (if e.description.Some? then e.description.value else "")
    ensures g.start == EventDateTime(e.startTime, CalendarTimeZone)
    ensures g.end == EventDateTime(e.endTime, CalendarTimeZone)
    ensures !g.reminders.useDefault
    ensures g.reminders.overrides == [ReminderOverride(ReminderMethod, ReminderMinutes)]
  {
    GoogleEvent(
      e.title,
      DescriptionText(e.description),
      EventDateTime(e.startTime, CalendarTimeZone),
      EventDateTime(e.endTime, CalendarTimeZone),
      Reminders(false, [ReminderOverride(ReminderMethod, ReminderMinutes)]))
  }

  /** The body loses only the identifier and the difference between an
      absent and an empty description: two events give the same body
      exactly when those are all they differ in. */
  lemma GoogleEventSameIff(a: EventData, b: EventData)
    ensures ToGoogleEvent(a) == ToGoogleEvent(b) <==>
      && a.title == b.title
      && a.startTime == b.startTime
      && a.endTime == b.endTime
      && DescriptionText(a.description) == DescriptionText(b.description)
  {
  }

  /** What one insert call did: returned an event with this id, or threw. */
  datatype InsertOutcome = Inserted(id: string) | Threw(message: string)

  /** `{ success: true, eventId }` or `{ success: false, error }`. */
  datatype InsertResult = Added(eventId: string) | NotAdded(error: string)

  function ResultOf(o: InsertOutcome): InsertResult {
    match o
    case Inserted(id) => Added(id)
    case Threw(m) => NotAdded(m)
  }

  /** The insert oracle: the outcome of call number `k` with body `g`. */
  type Inserter = (nat, GoogleEvent) -> InsertOutcome

  /** The record of a run of the loop: every body sent, and one result per event. */
  datatype Run = Run(attempts: seq<GoogleEvent>, results: seq<InsertResult>)

  /** The loop from call number `k` on; a throw is caught and the loop goes on. */
  function AddFrom(events: seq<EventData>, insert: Inserter, k: nat): (run: Run)
    ensures |run.attempts| == |events| && |run.results| == |events|
    ensures forall i :: 0 <= i < |events| ==> run.attempts[i] == ToGoogleEvent(events[i])
    ensures forall i :: 0 <= i < |events| ==>
      run.results[i] == ResultOf(insert(k + i, ToGoogleEvent(events[i])))
    decreases |events|
  {
    if |events| == 0 then Run([], [])
    else
      var body := ToGoogleEvent(events[0]);
      var result := ResultOf(insert(k, body));
      var rest := AddFrom(events[1..], insert, k + 1);
      Run([body] + rest.attempts, [result] + rest.results)
  }

  /** `addMultipleCalendarEvents`: one attempt and one result per event, in
      input order; result i is a success carrying the returned id exactly
      when insert i returned, and otherwise carries the thrown message. */
  function AddMultipleCalendarEvents(events: seq<EventData>, insert: Inserter): (run: Run)
    ensures |run.attempts| == |events| && |run.results| == |events|
    ensures forall i :: 0 <= i < |events| ==> run.attempts[i] == ToGoogleEvent(events[i])
    ensures forall i, id :: 0 <= i < |events| ==>
      (run.results[i] == Added(id) <==> insert(i, ToGoogleEvent(events[i])) == Inserted(id))
    ensures forall i, m :: 0 <= i < |events| ==>
      (run.results[i] == NotAdded(m) <==> insert(i, ToGoogleEvent(events[i])) == Threw(m))
  {
    var run := AddFrom(events, insert, 0);
    forall i, id | 0 <= i < |events|
      ensures run.results[i] == Added(id) <==> insert(i, ToGoogleEvent(events[i])) == Inserted(id)
    {
      assert run.results[i] == ResultOf(insert(0 + i, ToGoogleEvent(events[i])));
    }
    forall i, m | 0 <= i < |events|
      ensures run.results[i] == NotAdded(m) <==> insert(i, ToGoogleEvent(events[i])) == Threw(m)
    {
      assert run.results[i] == ResultOf(insert(0 + i, ToGoogleEvent(events[i])));
    }
    run
  }

  /** A failing insert does not stop the loop: changing what call `i` does
      changes result `i` only, and every later call is still made. */
  lemma OutcomesIndependent(events: seq<EventData>, insert1: Inserter, insert2: Inserter, i: nat)
    requires forall k, g :: k != i ==> insert1(k, g) == insert2(k, g)
    ensures var r1 := AddMultipleCalendarEvents(events, insert1).results;
      var r2 := AddMultipleCalendarEvents(events, insert2).results;
      forall j :: 0 <= j < |events| && j != i ==> r1[j] == r2[j]
  {
    var r1 := AddMultipleCalendarEvents(events, insert1).results;
    var r2 := AddMultipleCalendarEvents(events, insert2).results;
    forall j | 0 <= j < |events| && j != i ensures r1[j] == r2[j] {
      assert insert1(j, ToGoogleEvent(events[j])) == insert2(j, ToGoogleEvent(events[j]));
    }
  }

  /** The indices holding a successful result. */
  function AddedIndices(results: seq<InsertResult>): set<int> {
    set i | 0 <= i < |results| && results[i].Added?
  }

  /** Appending one result adds its index exactly when it is a success. */
  lemma AddedIndicesSnoc(results: seq<InsertResult>)
    requires |results| > 0
    ensures var last := |results| - 1;
      && last !in AddedIndices(results[..last])
      && AddedIndices(results) ==
           AddedIndices(results[..last]) + (if results[last].Added? then {last} else {})
  {
    var last := |results| - 1;
    var prefix := results[..last];
    forall i | 0 <= i < last ensures prefix[i] == results[i] {
    }
  }

  /** Number of successful results (`results.filter(r => r.success).length`);
      `CountAddedIsAddedIndices` shows it counts exactly the successful indices. */
  function CountAdded(results: seq<InsertResult>): (n: nat)
    ensures n <= |results|
    decreases |results|
  {
    if |results| == 0 then 0
    else CountAdded(results[..|results| - 1]) + (if results[|results| - 1].Added? then 1 else 0)
  }

  /** The count is exactly the number of indices holding a success. */
  lemma {:induction false} CountAddedIsAddedIndices(results: seq<InsertResult>)
    ensures CountAdded(results) == |AddedIndices(results)|
    decreases |results|
  {
    if |results| == 0 {
      assert AddedIndices(results) == {};
    } else {
      AddedIndicesSnoc(results);
      CountAddedIsAddedIndices(results[..|results| - 1]);
    }
  }

  /** Three events whose second insert fails: two successes are counted and
      the third event is still added. */
  lemma PartialFailureExample(events: seq<EventData>, insert: Inserter)
    requires |events| == 3
    requires insert(0, ToGoogleEvent(events[0])) == Inserted("a")
    requires insert(1, ToGoogleEvent(events[1])) == Threw("quota")
    requires insert(2, ToGoogleEvent(events[2])) == Inserted("c")
    ensures var results := AddMultipleCalendarEvents(events, insert).results;
      results == [Added("a"), NotAdded("quota"), Added("c")] && CountAdded(results) == 2
  {
    var results := AddMultipleCalendarEvents(events, insert).results;
    assert results == [Added("a"), NotAdded("quota"), Added("c")];
    assert results[..2] == [Added("a"), NotAdded("quota")];
    assert results[..2][..1] == [Added("a")];
    assert [Added("a")][..0] == [];
    assert CountAdded([Added("a")]) == 1;
    assert CountAdded(results[..2]) == 1;
  }
}
