/** The state machine controler: it hands committed entries to the write pool, one index at a time. */
module ApplyControl {
  import opened RaftTypes

  /** applied_index_, commit_index_ and everything ever enqueued on the write pool. */
  datatype Controler = Controler(applied: int, commit: int, tasks: seq<Task>)

  const FRESH := Controler(-1, -1, [])

  predicate CanHand(c: Controler, log: seq<Entry>) {
    c.applied < c.commit && 0 <= c.applied + 1 < |log|
  }

  /** One round of the catch-up loop: the next entry is enqueued. */
  function HandOne(c: Controler, log: seq<Entry>): Controler
    requires CanHand(c, log)
  {
    var i := c.applied + 1;
    Controler(i, c.commit, c.tasks + [Task(i, log[i].msg)])
  }

  /** The catch-up loop. It stops early, with applied < commit, where Entries::get throws. */
  function Advance(c: Controler, log: seq<Entry>): (r: Controler)
    decreases c.commit - c.applied
  {
    if CanHand(c, log) then Advance(HandOne(c, log), log) else c
  }

  function Update(c: Controler, log: seq<Entry>, newIndex: int): Controler {
    Advance(c.(commit := newIndex), log)
  }

  /** The enqueued indices are 0, 1, ..., applied. */
  ghost predicate InOrder(c: Controler) {
    |c.tasks| == c.applied + 1 && forall k :: 0 <= k < |c.tasks| ==> c.tasks[k].index == k
  }

  /** From c to r exactly the indices in (c.applied, r.applied] were handed over, each read from the log. */
  ghost predicate HandsOver(c: Controler, log: seq<Entry>, r: Controler) {
    && c.tasks <= r.tasks
    && c.applied <= r.applied
    && |r.tasks| - |c.tasks| == r.applied - c.applied
    && (|c.tasks| < |r.tasks| ==> |r.tasks| <= |log|)
    && forall k :: |c.tasks| <= k < |r.tasks| ==> r.tasks[k] == Task(k, log[k].msg)
  }

  lemma {:induction false} AdvanceHandsOver(c: Controler, log: seq<Entry>)
    requires InOrder(c)
    ensures var r := Advance(c, log);
            && InOrder(r) && HandsOver(c, log, r) && r.commit == c.commit
            && (c.commit <= c.applied ==> r == c)
            && (c.commit > c.applied && c.commit < |log| ==> r.applied == c.commit)
            && (r.applied < r.commit <==> c.applied < c.commit && |log| <= c.commit)
    decreases c.commit - c.applied
  {
    if CanHand(c, log) {
      var c1 := HandOne(c, log);
      AdvanceHandsOver(c1, log);
      assert Advance(c1, log).tasks[c1.applied] == c1.tasks[c1.applied];
    }
  }

  /** A commit update as the node issues it: the new index together with the log at that moment. */
  datatype CommitUpdate = CommitUpdate(index: int, log: seq<Entry>)

  function RunUpdates(c: Controler, us: seq<CommitUpdate>): Controler
    decreases |us|
  {
    if us == [] then c else RunUpdates(Update(c, us[0].log, us[0].index), us[1..])
  }

  ghost function Highest(us: seq<CommitUpdate>): int {
    if us == [] then -1 else if us[0].index >= Highest(us[1..]) then us[0].index else Highest(us[1..])
  }

  /** Whatever the commit updates, decreasing ones included, each index up to the highest is enqueued
      exactly once and in order, provided no update names an index the log does not hold. */
  lemma {:induction false} ExactlyOnceInOrder(c: Controler, us: seq<CommitUpdate>)
    requires InOrder(c)
    requires forall k :: 0 <= k < |us| ==> us[k].index < |us[k].log|
    ensures var r := RunUpdates(c, us);
            && InOrder(r) && c.tasks <= r.tasks
            && r.applied == if Highest(us) > c.applied then Highest(us) else c.applied
    decreases |us|
  {
    if us != [] {
      AdvanceHandsOver(c.(commit := us[0].index), us[0].log);
      ExactlyOnceInOrder(Update(c, us[0].log, us[0].index), us[1..]);
    }
  }
}
