/** The scheduling step of the `/api/schedule` endpoint: round the current
    time up to the quarter-hour grid, then lay the subtasks out back to back
    with a fixed buffer between consecutive ones.

    Time is an integer count of local minutes (or milliseconds for the
    current instant). Rolling minute 60 over into the next hour is plain
    addition on that count; time zones and daylight saving are not modelled. */
module Scheduler {

  import opened Wrappers
  import opened Tasks

  const BufferMinutes: int := 10
  const GridMinutes: int := 15
  const MinutesPerHour: int := 60
  const MillisPerMinute: int := 60000

  /** Whole minutes of a millisecond instant; seconds and milliseconds are dropped. */
  function TruncateToMinute(nowMs: int): int {
    nowMs / MillisPerMinute
  }

  /** `Math.ceil(a / b)` for a non-negative numerator. */
  function CeilDiv(a: nat, b: nat): (q: nat)
    requires b > 0
    ensures q * b >= a
    ensures q * b < a + b
  {
    (a + b - 1) / b
  }

  /** The anchor minute: the minute of the hour is rounded up to a multiple
      of 15 and seconds are zeroed; minute 60 rolls into the next hour. */
  function Anchor(nowMs: int): (a: int)
    ensures a % GridMinutes == 0
    ensures TruncateToMinute(nowMs) <= a <= TruncateToMinute(nowMs) + GridMinutes - 1
    ensures TruncateToMinute(nowMs) % GridMinutes == 0 ==> a == TruncateToMinute(nowMs)
  {
    var m := TruncateToMinute(nowMs);
    var minuteOfHour := m % MinutesPerHour;
    var rounded := CeilDiv(minuteOfHour, GridMinutes) * GridMinutes;
    m - minuteOfHour + rounded
  }

  /** The anchor is the earliest grid minute at or after the truncated instant. */
  lemma AnchorIsLeastGridMinute(nowMs: int, k: int)
    requires k % GridMinutes == 0
    requires k >= TruncateToMinute(nowMs)
    ensures Anchor(nowMs) <= k
  {
    var a := Anchor(nowMs);
    var qa := a / GridMinutes;
    var qk := k / GridMinutes;
    assert a == GridMinutes * qa;
    assert k == GridMinutes * qk;
    assert GridMinutes * (qa - qk) < GridMinutes;
  }

  /** Because seconds are dropped before rounding, the anchor instant lies
      before `now` exactly when the truncated minute is already on the grid
      and `now` has a non-zero seconds/milliseconds part. */
  lemma AnchorPrecedesNowIff(nowMs: int)
    ensures Anchor(nowMs) * MillisPerMinute < nowMs
        <==> TruncateToMinute(nowMs) % GridMinutes == 0 && nowMs % MillisPerMinute != 0
  {
    var m := TruncateToMinute(nowMs);
    var a := Anchor(nowMs);
    assert nowMs == m * MillisPerMinute + nowMs % MillisPerMinute;
    if a > m {
      assert a * MillisPerMinute >= (m + 1) * MillisPerMinute;
    }
  }

  /** Reference definition of where subtask `i` starts relative to the
      anchor: the sum over earlier subtasks of their duration plus the buffer. */
  function Offset(subs: seq<Subtask>, i: nat): int
    requires i <= |subs|
  {
    if i == 0 then 0 else Offset(subs, i - 1) + subs[i - 1].duration + BufferMinutes
  }

  /** Offsets seen from the second subtask onwards are shifted by the first one. */
  lemma {:induction false} OffsetTail(subs: seq<Subtask>, i: nat)
    requires 0 < |subs|
    requires i < |subs|
    ensures Offset(subs, i + 1) == subs[0].duration + BufferMinutes + Offset(subs[1..], i)
  {
    if i > 0 {
      OffsetTail(subs, i - 1);
    }
  }

  /** The loop body: one event from `start`, then the next start is the end plus the buffer. */
  function EventAt(sub: Subtask, start: int): ScheduledEvent {
    ScheduledEvent(sub.title, sub.description, start, start + sub.duration, BufferMinutes)
  }

  /** One layout step: if `rest` lays out the subtasks after the first from
      the first's end plus the buffer, then prefixing the first event lays
      out all of them from `start`. */
  lemma LayoutCons(subs: seq<Subtask>, start: int, rest: seq<ScheduledEvent>)
    requires |subs| > 0
    requires |rest| == |subs| - 1
    requires forall i :: 0 <= i < |rest| ==>
      && rest[i].title == subs[1..][i].title
      && rest[i].description == subs[1..][i].description
      && rest[i].bufferMinutes == BufferMinutes
    requires forall i :: 0 <= i < |rest| ==>
      rest[i].start == start + subs[0].duration + BufferMinutes + Offset(subs[1..], i)
    requires forall i :: 0 <= i < |rest| ==> rest[i].end - rest[i].start == subs[1..][i].duration
    ensures var events := [EventAt(subs[0], start)] + rest;
      && |events| == |subs|
      && (forall i :: 0 <= i < |subs| ==>
        && events[i].title == subs[i].title
        && events[i].description == subs[i].description
        && events[i].bufferMinutes == BufferMinutes)
      && (forall i :: 0 <= i < |subs| ==> events[i].start == start + Offset(subs, i))
      && (forall i :: 0 <= i < |subs| ==> events[i].end - events[i].start == subs[i].duration)
  {
    var events := [EventAt(subs[0], start)] + rest;
    forall i | 0 <= i < |subs|
      ensures events[i].title == subs[i].title && events[i].description == subs[i].description
      ensures events[i].bufferMinutes == BufferMinutes
      ensures events[i].start == start + Offset(subs, i)
      ensures events[i].end - events[i].start == subs[i].duration
    {
      if i > 0 {
        assert events[i] == rest[i - 1];
        assert subs[i] == subs[1..][i - 1];
        OffsetTail(subs, i - 1);
      }
    }
  }

  /** The subtasks laid out back to back from `start`. */
  function Layout(subs: seq<Subtask>, start: int): (events: seq<ScheduledEvent>)
    ensures |events| == |subs|
    ensures forall i :: 0 <= i < |subs| ==>
      && events[i].title == subs[i].title
      && events[i].description == subs[i].description
      && events[i].bufferMinutes == BufferMinutes
    ensures forall i :: 0 <= i < |subs| ==> events[i].start == start + Offset(subs, i)
    ensures forall i :: 0 <= i < |subs| ==> events[i].end - events[i].start == subs[i].duration
    decreases |subs|
  {
    if |subs| == 0 then []
    else
      var first := EventAt(subs[0], start);
      var rest := Layout(subs[1..], first.end + BufferMinutes);
      LayoutCons(subs, start, rest);
      [first] + rest
  }

  /** Consecutive events are separated by exactly the buffer. */
  lemma LayoutBuffered(subs: seq<Subtask>, start: int)
    ensures var events := Layout(subs, start);
      forall i :: 0 <= i < |events| - 1 ==> events[i + 1].start == events[i].end + BufferMinutes
  {
  }

  /** With non-negative durations the offsets grow: every later subtask
      starts at least one buffer after an earlier one ends. */
  lemma {:induction false} OffsetSeparated(subs: seq<Subtask>, i: nat, j: nat)
    requires forall k :: 0 <= k < |subs| ==> subs[k].duration >= 0
    requires i < j <= |subs|
    ensures Offset(subs, i) + subs[i].duration + BufferMinutes <= Offset(subs, j)
    decreases j
  {
    if j > i + 1 {
      OffsetSeparated(subs, i, j - 1);
    }
  }

  /** With non-negative durations the events do not overlap and are in time order. */
  lemma LayoutDisjoint(subs: seq<Subtask>, start: int)
    requires forall k :: 0 <= k < |subs| ==> subs[k].duration >= 0
    ensures var events := Layout(subs, start);
      forall i, j :: 0 <= i < j < |events| ==> events[i].end + BufferMinutes <= events[j].start
  {
    var events := Layout(subs, start);
    forall i, j | 0 <= i < j < |events| ensures events[i].end + BufferMinutes <= events[j].start {
      OffsetSeparated(subs, i, j);
    }
  }

  /** The schedule of the endpoint: laid out from the anchor of `now`. */
  function BuildSchedule(subs: seq<Subtask>, nowMs: int): (events: seq<ScheduledEvent>)
    ensures |events| == |subs|
    ensures |subs| > 0 ==> events[0].start == Anchor(nowMs) && events[0].start % GridMinutes == 0
    ensures forall i :: 0 <= i < |subs| ==> events[i].start == Anchor(nowMs) + Offset(subs, i)
  {
    Layout(subs, Anchor(nowMs))
  }

  /** Two subtasks of 30 and 45 minutes requested at 09:07 are scheduled
      09:15-09:45 and 09:55-10:40. */
  lemma TwoSubtaskExample()
    ensures var subs := [Subtask("a", None, 30), Subtask("b", None, 45)];
      var events := BuildSchedule(subs, (9 * 60 + 7) * MillisPerMinute);
      && events[0].start == 9 * 60 + 15 && events[0].end == 9 * 60 + 45
      && events[1].start == 9 * 60 + 55 && events[1].end == 10 * 60 + 40
  {
    var subs := [Subtask("a", None, 30), Subtask("b", None, 45)];
    assert Anchor((9 * 60 + 7) * MillisPerMinute) == 9 * 60 + 15;
    assert Offset(subs, 1) == 40;
  }
}
