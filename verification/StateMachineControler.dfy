/** The controler object: the catch-up loop in place, proved against ApplyControl.Update. */
module StateMachineControl {
  import opened RaftTypes
  import opened StoredLog
  import opened ApplyControl

  class StateMachineControler {
    const entries: Entries
    var appliedIndex: int
    var commitIndex: int
    var enqueued: seq<Task>   // everything ever enqueued on the write pool

    constructor (entries: Entries)
      ensures this.entries == entries && View() == FRESH
    {
      this.entries := entries;
      appliedIndex, commitIndex, enqueued := -1, -1, [];
    }

    function View(): Controler
      reads this
    {
      Controler(appliedIndex, commitIndex, enqueued)
    }

    /** False where Entries::get throws; the loop then stops with applied_index_ below commit_index_. */
    method UpdateCommitIndexAndApply(newIndex: int) returns (ok: bool)
      requires entries.Valid() && -1 <= appliedIndex
      modifies this
      ensures View() == Update(old(View()), entries.Log(), newIndex)
      ensures ok <==> appliedIndex >= commitIndex
      ensures -1 <= appliedIndex
    {
      commitIndex := newIndex;
      while appliedIndex < commitIndex
        invariant -1 <= appliedIndex && commitIndex == newIndex
        invariant Advance(View(), entries.Log()) == Update(old(View()), entries.Log(), newIndex)
        decreases commitIndex - appliedIndex
      {
        var applied := ApplyToStateMachine(appliedIndex + 1);
        if !applied {
          return false;
        }
      }
      return true;
    }

    method ApplyToStateMachine(indexToApply: nat) returns (ok: bool)
      requires entries.Valid()
      modifies this`appliedIndex, this`enqueued
      ensures ok <==> indexToApply < |entries.Log()|
      ensures !ok ==> View() == old(View())
      ensures ok ==> appliedIndex == indexToApply
      ensures ok ==> enqueued == old(enqueued) + [Task(indexToApply, entries.Log()[indexToApply].msg)]
    {
      var entry := entries.Get(indexToApply);
      if entry.None? {
        return false;
      }
      enqueued := enqueued + [Task(indexToApply, entry.value.msg)];
      appliedIndex := indexToApply;
      return true;
    }
  }
}
