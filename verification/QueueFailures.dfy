/** What the senders of a bounded queue can meet, and have yet to mark in its status. */
module QueueFailures {

  /** A full queue, a closed channel, or a flush that is not answered. */
  datatype Failure = QueueFull | ChannelClosed | FlushFailed

  /** How often each failure has been met and not yet marked in the status. */
  datatype Unmarked = Unmarked(full: nat, closed: nat, unanswered: nat)
  {
    function Count(failure: Failure): nat {
      match failure
      case QueueFull => full
      case ChannelClosed => closed
      case FlushFailed => unanswered
    }

    function Meet(failure: Failure, n: nat): Unmarked {
      match failure
      case QueueFull => this.(full := full + n)
      case ChannelClosed => this.(closed := closed + n)
      case FlushFailed => this.(unanswered := unanswered + n)
    }

    function Less(failure: Failure): Unmarked
      requires Count(failure) > 0
    {
      match failure
      case QueueFull => this.(full := full - 1)
      case ChannelClosed => this.(closed := closed - 1)
      case FlushFailed => this.(unanswered := unanswered - 1)
    }
  }

  /** What the status of a queue says about its worker. */
  datatype QueueState = Running | Degraded | Stopped

  /** Something noted in the status: a dropped event, a fault that the worker survives, or that it has stopped. */
  datatype Note<+E> = DropNote | FaultNote(error: E) | StopNote(error: E)

  /** A stop was noted, and no drop after it. */
  predicate StopStands<E>(notes: seq<Note<E>>) {
    exists i :: 0 <= i < |notes| && notes[i].StopNote? && forall j :: i < j < |notes| ==> !notes[j].DropNote?
  }

  /** What the status should say after all that was noted: the last stop, unless a drop was noted after it. */
  function StateAfter<E>(notes: seq<Note<E>>): QueueState {
    if notes == [] then Running else if StopStands(notes) then Stopped else Degraded
  }

  function Drops<E>(notes: seq<Note<E>>): nat {
    if notes == [] then 0 else Drops(notes[..|notes| - 1]) + if notes[|notes| - 1].DropNote? then 1 else 0
  }

  lemma NotesSnoc<E>(notes: seq<Note<E>>, note: Note<E>)
    ensures Drops(notes + [note]) == Drops(notes) + if note.DropNote? then 1 else 0
    ensures StateAfter(notes + [note]) ==
            if note.StopNote? || (StateAfter(notes).Stopped? && !note.DropNote?) then Stopped else Degraded
  {
    var all := notes + [note];
    assert all[..|notes|] == notes;
    assert all[|notes|] == note;
    if StopStands(notes) && !note.DropNote? {
      var i :| 0 <= i < |notes| && notes[i].StopNote? && forall j :: i < j < |notes| ==> !notes[j].DropNote?;
      assert all[i] == notes[i];
    }
    if StopStands(all) && !note.StopNote? {
      var i :| 0 <= i < |all| && all[i].StopNote? && forall j :: i < j < |all| ==> !all[j].DropNote?;
      assert all[i] == notes[i];
      forall j | i < j < |notes| ensures !notes[j].DropNote? { assert all[j] == notes[j]; }
    }
  }
}
