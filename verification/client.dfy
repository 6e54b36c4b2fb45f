/** The pure pieces of the browser client: the 12-hour clock labels, the
    hour range of the timeline, and the payload built when the user syncs
    the events placed on the timeline to the calendar. */
module Client {

  import opened Wrappers
  import opened Decimal

  const TimelineStartHour: int := 8
  const TimelineEndHour: int := 20
  const DefaultDuration: int := 30
  const SyncBufferMinutes: int := 10
  const NothingScheduledAlert: string := "Please schedule at least one task on the timeline first."

  // ----- 12-hour clock -----

  function Period(hour: int): string {
    if hour >= 12 then "PM" else "AM"
  }

  /** The hour shown on a 12-hour clock. */
  function DisplayHour(hour: int): (d: int)
    ensures 0 <= hour <= 23 ==> 1 <= d <= 12 && d % 12 == hour % 12
    ensures hour == 0 ==> d == 12
    ensures 1 <= hour <= 12 ==> d == hour
    ensures 13 <= hour <= 23 ==> d == hour - 12
  {
    if hour > 12 then hour - 12 else if hour == 0 then 12 else hour
  }

  /** `n` copies of `c`. */
  function Repeat(c: char, n: nat): (r: string)
    ensures |r| == n
    ensures forall i :: 0 <= i < n ==> r[i] == c
  {
    if n == 0 then [] else [c] + Repeat(c, n - 1)
  }

  /** `String.prototype.padStart(width, pad)` with a one-character pad. */
  function PadStart(s: string, width: nat, pad: char): (r: string)
    ensures |r| == if |s| >= width then |s| else width
    ensures r[|r| - |s|..] == s
    ensures forall i :: 0 <= i < |r| - |s| ==> r[i] == pad
  {
    if |s| >= width then s else Repeat(pad, width - |s|) + s
  }

  /** "<hour>:<minute> <period>", the shape both clock formatters produce. */
  function ClockLabel(hourText: string, minuteText: string, period: string): string {
    hourText + ":" + minuteText + " " + period
  }

  /** Where the pieces of a clock label sit. */
  lemma LabelPieces(text: string, hourText: string, minuteText: string, period: string)
    requires |period| == 2 && text == ClockLabel(hourText, minuteText, period)
    ensures |text| == |hourText| + |minuteText| + 4
    ensures text[..|hourText|] == hourText
    ensures text[|hourText|] == ':'
    ensures text[|hourText| + 1..|text| - 3] == minuteText
    ensures text[|text| - 3] == ' '
    ensures text[|text| - 2..] == period
  {
    assert text == (hourText + ":" + minuteText) + (" " + period);
    assert text == hourText + ([':'] + minuteText + " " + period);
  }

  lemma PeriodIff(hour: int)
    ensures Period(hour) == "PM" <==> hour >= 12
    ensures Period(hour) == "AM" <==> hour < 12
  {
  }

  /** `formatHour`: e.g. "12:00 AM", "1:00 PM". */
  function FormatHour(hour: int): (text: string)
    ensures |text| >= 7
    ensures text[|text| - 6..] == ":00 " + Period(hour)
    ensures text[|text| - 6..|text| - 3] == ":00" && text[|text| - 3] == ' '
    ensures text[|text| - 2..] == "PM" <==> hour >= 12
    ensures text[|text| - 2..] == "AM" <==> hour < 12
    ensures text[..|text| - 6] == IntToString(DisplayHour(hour))
  {
    var digits := IntToString(DisplayHour(hour));
    LabelPieces(ClockLabel(digits, "00", Period(hour)), digits, "00", Period(hour));
    PeriodIff(hour);
    assert ClockLabel(digits, "00", Period(hour)) == digits + (":00 " + Period(hour));
    ClockLabel(digits, "00", Period(hour))
  }

  /** `formatTime`. */
  function FormatTime(hour: int, minute: int): string {
    ClockLabel(IntToString(DisplayHour(hour)), PadStart(IntToString(minute), 2, '0'), Period(hour))
  }

  /** The hour part of a `formatTime` label and the colon after it. */
  lemma FormatTimeHourPart(hour: int, minute: int)
    ensures var text := FormatTime(hour, minute);
      var hourText := IntToString(DisplayHour(hour));
      && |text| >= |hourText| + 6
      && text[..|hourText|] == hourText
      && text[|hourText|] == ':'
  {
    var hourText, padded, period := IntToString(DisplayHour(hour)), PadStart(IntToString(minute), 2, '0'), Period(hour);
    var text := FormatTime(hour, minute);
    assert |period| == 2;
    assert text == ClockLabel(hourText, padded, period);
    LabelPieces(text, hourText, padded, period);
  }

  /** The zero-padded minute between the colon and the space. */
  lemma FormatTimeMinutePart(hour: int, minute: int)
    ensures var text := FormatTime(hour, minute);
      var hourText := IntToString(DisplayHour(hour));
      && |hourText| + 1 <= |text| - 3
      && text[|hourText| + 1..|text| - 3] == PadStart(IntToString(minute), 2, '0')
  {
    var hourText, padded, period := IntToString(DisplayHour(hour)), PadStart(IntToString(minute), 2, '0'), Period(hour);
    var text := FormatTime(hour, minute);
    assert |period| == 2;
    assert text == ClockLabel(hourText, padded, period);
    LabelPieces(text, hourText, padded, period);
    assert text[|hourText| + 1..|text| - 3] == padded;
  }

  /** The space and the period that end a `formatTime` label. */
  lemma FormatTimePeriodPart(hour: int, minute: int)
    ensures var text := FormatTime(hour, minute);
      && |text| >= 3
      && text[|text| - 3] == ' '
      && text[|text| - 2..] == Period(hour)
  {
    var hourText, padded, period := IntToString(DisplayHour(hour)), PadStart(IntToString(minute), 2, '0'), Period(hour);
    var text := FormatTime(hour, minute);
    assert |period| == 2;
    assert text == ClockLabel(hourText, padded, period);
    LabelPieces(text, hourText, padded, period);
  }

  /** A `formatTime` label is the display hour, a colon, the minute
      left-padded with '0' to at least two characters, a space and the
      period, which is "PM" exactly from noon on. */
  lemma FormatTimeShape(hour: int, minute: int)
    ensures var text := FormatTime(hour, minute);
      var hourText := IntToString(DisplayHour(hour));
      var minuteText := IntToString(minute);
      && |text| >= |hourText| + 6
      && text[..|hourText|] == hourText
      && text[|hourText|] == ':'
      && text[|text| - 3] == ' '
      && (text[|text| - 2..] == "PM" <==> hour >= 12)
      && (text[|text| - 2..] == "AM" <==> hour < 12)
      && text[|hourText| + 1..|text| - 3] == PadStart(minuteText, 2, '0')
  {
    FormatTimeHourPart(hour, minute);
    FormatTimeMinutePart(hour, minute);
    FormatTimePeriodPart(hour, minute);
    PeriodIff(hour);
  }

  /** `formatTime(h)` with the default minute is `formatHour(h)`. */
  lemma FormatTimeOnTheHour(hour: int)
    ensures FormatTime(hour, 0) == FormatHour(hour)
  {
    assert IntToString(0) == "0";
    assert PadStart("0", 2, '0') == "00";
  }

  /** The 24-hour hour a 12-hour display reading stands for. */
  function HourOf(display: int, period: string): int {
    if period == "PM" then (if display == 12 then 12 else display + 12)
    else (if display == 12 then 0 else display)
  }

  /** Reads an hour back from a `formatHour` text. */
  function ReadHourLabel(text: string): Option<int> {
    if |text| < 7 || text[|text| - 6..|text| - 3] != ":00" || text[|text| - 3] != ' ' then None
    else
      match ReadInt(text[..|text| - 6])
      case None => None
      case Some(d) => Some(HourOf(d, text[|text| - 2..]))
  }

  /** On a day's hours the labels lose nothing: each text reads back to its hour. */
  lemma FormatHourReadBack(hour: int)
    requires 0 <= hour <= 23
    ensures ReadHourLabel(FormatHour(hour)) == Some(hour)
  {
    ReadIntToString(DisplayHour(hour));
  }

  /** Hence distinct hours of a day get distinct labels. */
  lemma FormatHourInjective(h1: int, h2: int)
    requires 0 <= h1 <= 23 && 0 <= h2 <= 23
    ensures FormatHour(h1) == FormatHour(h2) <==> h1 == h2
  {
    FormatHourReadBack(h1);
    FormatHourReadBack(h2);
  }

  // ----- timeline -----

  /** The hours `lo, lo + 1, ..., hi - 1`. */
  function HourRange(lo: int, hi: int): (hours: seq<int>)
    ensures |hours| == if lo < hi then hi - lo else 0
    ensures forall i :: 0 <= i < |hours| ==> hours[i] == lo + i
    decreases hi - lo
  {
    if lo >= hi then [] else [lo] + HourRange(lo + 1, hi)
  }

  /** The timeline slots: 8 AM up to, not including, 8 PM. */
  function TimelineHours(): (hours: seq<int>)
    ensures |hours| == 12
    ensures forall i :: 0 <= i < |hours| ==> hours[i] == TimelineStartHour + i
    ensures forall i, j :: 0 <= i < j < |hours| ==> hours[i] < hours[j]
    ensures forall h :: h in hours <==> 8 <= h <= 19
  {
    var hours := HourRange(TimelineStartHour, TimelineEndHour);
    forall h | 8 <= h <= 19 ensures h in hours {
      assert hours[h - 8] == h;
    }
    hours
  }

  /** The `formatHour` label of each hour, in order. */
  function HourLabels(hours: seq<int>): (labels: seq<string>)
    ensures |labels| == |hours|
    ensures forall i :: 0 <= i < |hours| ==> labels[i] == FormatHour(hours[i])
  {
    if |hours| == 0 then [] else [FormatHour(hours[0])] + HourLabels(hours[1..])
  }

  /** The labels shown beside the slots. */
  function TimelineLabels(): (labels: seq<string>)
    ensures |labels| == |TimelineHours()|
    ensures forall i :: 0 <= i < |labels| ==> labels[i] == FormatHour(TimelineHours()[i])
  {
    HourLabels(TimelineHours())
  }

  /** The first label reads "8:00 AM" and the last "7:00 PM". */
  lemma TimelineLabelsEnds()
    ensures var labels := TimelineLabels();
      labels[0] == "8:00 AM" && labels[|labels| - 1] == "7:00 PM"
  {
    var hours := TimelineHours();
    var labels := TimelineLabels();
    assert hours[0] == 8 && hours[11] == 19;
    assert labels[0] == FormatHour(8) && labels[11] == FormatHour(19);
    FirstAndLastLabels();
  }

  lemma FirstAndLastLabels()
    ensures FormatHour(8) == "8:00 AM" && FormatHour(19) == "7:00 PM"
  {
    assert IntToString(8) == "8" && IntToString(7) == "7";
  }

  /** No two slots share a label. */
  lemma TimelineLabelsDistinct()
    ensures var labels := TimelineLabels();
      forall i, j :: 0 <= i < j < |labels| ==> labels[i] != labels[j]
  {
    var hours := TimelineHours();
    var labels := TimelineLabels();
    forall i, j | 0 <= i < j < |labels| ensures labels[i] != labels[j] {
      FormatHourInjective(hours[i], hours[j]);
    }
  }

  // ----- calendar sync -----

  /** A subtask as the client holds it; every field may be missing. */
  datatype ClientTask = ClientTask(title: Option<string>, description: Option<string>, duration: Option<int>)

  /** A subtask dropped on the timeline slot of `hour`. */
  datatype PlacedEvent = PlacedEvent(subtaskId: int, task: ClientTask, hour: int)

  datatype SyncEvent = SyncEvent(
    title: Option<string>,
    description: string,
    startTime: string,
    duration: int,
    bufferMinutes: int)

  datatype SyncOutcome = SyncRefused(alert: string) | SyncRequest(taskTitle: string, events: seq<SyncEvent>)

  /** JavaScript `a || b` on optional strings. */
  function OrText(a: Option<string>, b: Option<string>): (r: Option<string>)
    ensures a.Some? && a.value != "" ==> r == a
    ensures (a.None? || a.value == "") ==> r == b
  {
    if a.Some? && a.value != "" then a else b
  }

  /** `task.duration || 30`. */
  function DurationOrDefault(duration: Option<int>): (d: int)
    ensures d != 0
    ensures duration.Some? && duration.value != 0 ==> d == duration.value
    ensures duration.None? || duration.value == 0 ==> d == DefaultDuration
  {
    if duration.Some? && duration.value != 0 then duration.value else DefaultDuration
  }

  function ToSyncEvent(placed: PlacedEvent): (e: SyncEvent)
    ensures e.bufferMinutes == SyncBufferMinutes
    ensures e.duration == DurationOrDefault(placed.task.duration)
    ensures e.title == OrText(placed.task.title, placed.task.description)
    ensures e.description == OrText(placed.task.description, None).GetOr("")
    ensures e.startTime == IntToString(placed.hour) + ":00"
  {
    SyncEvent(
      OrText(placed.task.title, placed.task.description),
      OrText(placed.task.description, None).GetOr(""),
      IntToString(placed.hour) + ":00",
      DurationOrDefault(placed.task.duration),
      SyncBufferMinutes)
  }

  /** The payload event keeps what the placed event says: its slot hour reads
      back from the start time, its title is missing only when both title and
      description are, and its description is empty only when the task's is. */
  lemma SyncEventReadBack(placed: PlacedEvent)
    ensures var e := ToSyncEvent(placed);
      && |e.startTime| >= 4
      && e.startTime[|e.startTime| - 3..] == ":00"
      && ReadInt(e.startTime[..|e.startTime| - 3]) == Some(placed.hour)
      && (e.title.Some? && e.title.value != "" <==>
            (placed.task.title.Some? && placed.task.title.value != "")
            || (placed.task.description.Some? && placed.task.description.value != ""))
      && (e.description == "" <==> placed.task.description.None? || placed.task.description.value == "")
      && (placed.task.description.Some? ==> e.description == placed.task.description.value)
  {
    var e := ToSyncEvent(placed);
    var digits := IntToString(placed.hour);
    assert e.startTime == digits + ":00";
    assert e.startTime[..|e.startTime| - 3] == digits;
    ReadIntToString(placed.hour);
  }

  /** `syncToCalendar`: refused with an alert when nothing is on the
      timeline; otherwise one payload event per placed event, in order. */
  function SyncToCalendar(taskTitle: string, placed: seq<PlacedEvent>): (r: SyncOutcome)
    ensures r.SyncRefused? <==> |placed| == 0
    ensures r.SyncRefused? ==> r.alert == NothingScheduledAlert
    ensures r.SyncRequest? ==>
      && r.taskTitle == taskTitle
      && |r.events| == |placed|
      && forall i :: 0 <= i < |placed| ==> r.events[i] == ToSyncEvent(placed[i])
  {
    if |placed| == 0 then SyncRefused(NothingScheduledAlert)
    else SyncRequest(taskTitle, seq(|placed|, i requires 0 <= i < |placed| => ToSyncEvent(placed[i])))
  }
}
