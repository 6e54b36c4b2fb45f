/** The records the planner passes between its pieces: a subtask as
    submitted or as proposed by the AI breakdown, a subtask numbered by its
    position, and one scheduled event. Times are whole local minutes. */
module Tasks {

  import opened Wrappers

  /** A subtask descriptor; `description` may be absent. */
  datatype Subtask = Subtask(title: string, description: Option<string>, duration: int)

  /** A subtask together with the `order` it is stored under. */
  datatype NumberedSubtask = NumberedSubtask(subtask: Subtask, order: int)

  /** One interval of the schedule, `start` and `end` in local minutes. */
  datatype ScheduledEvent = ScheduledEvent(
    title: string,
    description: Option<string>,
    start: int,
    end: int,
    bufferMinutes: int)

  /** Gives every subtask its position in the list as its `order`. */
  function Number(subs: seq<Subtask>): (r: seq<NumberedSubtask>)
    ensures |r| == |subs|
    ensures forall i :: 0 <= i < |r| ==> r[i].subtask == subs[i] && r[i].order == i
  {
    seq(|subs|, i requires 0 <= i < |subs| => NumberedSubtask(subs[i], i))
  }

  /** Drops the numbering again. */
  function Strip(numbered: seq<NumberedSubtask>): (r: seq<Subtask>)
    ensures |r| == |numbered|
    ensures forall i :: 0 <= i < |r| ==> r[i] == numbered[i].subtask
  {
    seq(|numbered|, i requires 0 <= i < |numbered| => numbered[i].subtask)
  }

  predicate NumberedByPosition(numbered: seq<NumberedSubtask>) {
    forall i :: 0 <= i < |numbered| ==> numbered[i].order == i
  }

  /** Numbering loses nothing: stripping it gives the input back ... */
  lemma StripNumber(subs: seq<Subtask>)
    ensures Strip(Number(subs)) == subs
  {
  }

  /** ... and a list numbered by position is exactly the numbering of its subtasks. */
  lemma NumberStrip(numbered: seq<NumberedSubtask>)
    ensures NumberedByPosition(numbered) <==> Number(Strip(numbered)) == numbered
  {
    if Number(Strip(numbered)) == numbered {
      forall i | 0 <= i < |numbered| ensures numbered[i].order == i {
        assert Number(Strip(numbered))[i].order == i;
      }
    }
  }
}
