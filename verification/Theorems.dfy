/** Theorems about whole runs under H1 (no late vote), H2 (commands at a primary) and H3 (own answers), and last
    under the two guards that the code lacks, H4 (up-to-date votes) and H5 (commits of the own term). */
module Theorems {
  import opened RaftTypes
  import opened OrderStatistic
  import opened ApplyControl
  import opened NodeSpec
  import opened NodeFacts
  import opened NodeSteps
  import opened Cluster
  import opened Basics
  import opened Election
  import opened Logs
  import opened Replication
  import opened Retention
  import opened CatchUp
  import opened AsWritten
  import opened Completeness
  import opened Commitment

  lemma RunLength(r: Run)
    requires IsRun(r)
    ensures |r.states| == |r.events| + 1
  {
  }

  /** At most one node ever becomes primary in a term. */
  lemma ElectionSafety(r: Run, i: nat, n1: Addr, n2: Addr, term: int)
    requires IsRun(r) && H1(r) && i < |r.states|
    requires (n1, term) in r.states[i].hist.wins && (n2, term) in r.states[i].hist.wins
    ensures n1 == n2
  {
    hide NodesOk, NetOk, Requests, Replies, IsRun, VotesRemembered, RolesRecorded, Tallied, Single, H1;
    VotesHold(r, i);
    SinglesHold(r, i);
    OneWinner(r.states[i], n1, n2, term);
  }

  /** Hence no primary meets an AE of its own term. */
  lemma NoSecondPrimary(r: Run, i: nat)
    requires IsRun(r) && H1(r) && Happens(r, i)
    ensures Behind(r, i).fault != Some(TwoPrimaries)
  {
    hide Handle, IsRun, StepFacts, NodeInv, Offered, MsgShape, Tallied, VotesRemembered, SingleUnlessLate, H1,
         Requests, Replies;
    EventFacts(r, i);
    TracedHolds(r, i);
    ThrowsExactly(r, i);
    var c, ev, s := r.states[i], r.events[i], Before(r, i);
    if IsAe(InputOf(ev)) && InputOf(ev).msg.term == s.term && s.role == Primary {
      assert (s.self, s.term) in c.hist.wins && LetterOk(c, ev.letter);
      ElectionSafety(r, i, s.self, ev.letter.msg.from, s.term);
    }
  }

  /** The only throw left in runs under H1 and H3 is the one about a falling commit index. */
  lemma OnlyCommitThrows(r: Run, i: nat)
    requires IsRun(r) && H1(r) && H3(r) && Happens(r, i)
    ensures Behind(r, i).fault.Some? ==> Behind(r, i).fault == Some(CommitDecreased)
  {
    hide Handle, BasicInv, VoteInv, IsRun, RequestFacts, Effects, NodeInv, Enabled, H1, MsgShape;
    StepAt(r, i);
    assert OwnAnswer(r.states[i], r.events[i]);
    EventFacts(r, i);
    NoSecondPrimary(r, i);
    AnswersNeverThrow(r, i);
  }

  /** Log Matching: two logs that hold entries of one term at one index are the same up to that index. */
  lemma LogMatching(r: Run, i: nat, a: Addr, b: Addr, k: nat)
    requires IsRun(r) && H1(r) && H2(r) && i < |r.states|
    requires a in r.states[i].config && b in r.states[i].config
    requires a in r.states[i].nodes && b in r.states[i].nodes
    requires k < |r.states[i].nodes[a].log| && k < |r.states[i].nodes[b].log|
    requires r.states[i].nodes[a].log[k].term == r.states[i].nodes[b].log[k].term
    ensures r.states[i].nodes[a].log[..k + 1] == r.states[i].nodes[b].log[..k + 1]
  {
    hide BasicInv, VoteInv, AllSingle, PrimariesLogged, AesKnown, IsRun, H1, H2, LoggingAt;
    LogsHold(r, i);
    var c := r.states[i];
    assert CoherentAt(c.nodes[a].log, c.hist.plog, k) && CoherentAt(c.nodes[b].log, c.hist.plog, k);
  }

  /** A log that holds an entry of term T agrees up to it with the log of whoever is primary in T. */
  lemma LogsFollowThePrimary(r: Run, i: nat, v: Addr, n: Addr, k: nat)
    requires IsRun(r) && H1(r) && H2(r) && i < |r.states|
    requires v in r.states[i].config && n in r.states[i].config && v in r.states[i].nodes && n in r.states[i].nodes
    requires k < |r.states[i].nodes[v].log|
    requires r.states[i].nodes[n].role == Primary && r.states[i].nodes[n].term == r.states[i].nodes[v].log[k].term
    ensures k < |r.states[i].nodes[n].log|
    ensures r.states[i].nodes[v].log[..k + 1] == r.states[i].nodes[n].log[..k + 1]
  {
    hide BasicInv, VoteInv, AllSingle, AesKnown, IsRun, H1, H2, LoggingAt;
    LogsHold(r, i);
    var c := r.states[i];
    assert CoherentAt(c.nodes[v].log, c.hist.plog, k);
  }

  /** v acknowledged, in the term, a log whose first n entries are those of `log`. */
  ghost predicate HeldPrefix(acks: set<Ack>, v: Addr, term: int, log: seq<Entry>, n: int) {
    exists a :: a in acks && a.node == v && a.term == term && Agree(a.log, log, n)
  }

  /** When a primary sets its commit index to k, a majority, itself included, each held its first k + 1 entries
      when it answered in this term. */
  lemma QuorumBackedCommit(r: Run, i: nat) returns (q: set<Addr>)
    requires IsRun(r) && H1(r) && H2(r) && Happens(r, i)
    requires Acked(Before(r, i), InputOf(r.events[i])) && 0 <= Behind(r, i).commit
    ensures NodeOf(r.events[i]) in q && q <= ServerSet(r.states[i].config) && 2 * |q| > |r.states[i].config|
    ensures var t := Behind(r, i);
            forall v :: v in q && v != t.self ==>
              HeldPrefix(r.states[i + 1].hist.acks, v, t.term, t.log, t.commit + 1)
  {
    hide Handle, BasicInv, VoteInv, AllSingle, IsRun, H1, H2, Logging, LogInv, NodesOk, ReplicaInv, HeldPrefix,
         CommitRule, Majority, StepFacts, NodeInv, InputShape, Enabled, Acked;
    EventFacts(r, i);
    ReplicaHolds(r, i);
    ReplicaHolds(r, i + 1);
    CommitIsMajoritySaved(r, i, Behind(r, i).commit);
    AckedStays(r, i);
    var t, c' := Behind(r, i), r.states[i + 1];
    q := Holders(t.saved, t.config, t.commit);
    forall v | v in q && v != t.self ensures HeldPrefix(c'.hist.acks, v, t.term, t.log, t.commit + 1) {
      SavedHeld(c', t.self, v, t.commit + 1);
    }
  }

  lemma AckedStays(r: Run, i: nat)
    requires IsRun(r) && Happens(r, i)
    requires Acked(Before(r, i), InputOf(r.events[i]))
    ensures var t, c' := Behind(r, i), r.states[i + 1];
            && t.role == Primary && t.self == NodeOf(r.events[i]) && t.config == r.states[i].config == c'.config
            && t.self in t.config && t.self in c'.nodes && c'.nodes[t.self] == t.(outbox := [])
            && t.commit <= At(t.saved, t.self)
  {
    hide Handle, VoteInv, RequestFacts, VoteFacts, ReplyFacts, LogFacts, CommitFacts, FreshPrimary, FaultFacts,
         Requests, Replies, MsgShape, LogShape, InOrder, LsnInv, CommitRule, NetOk, Offered;
    EventFacts(r, i);
    StepAt(r, i);
  }

  lemma SavedHeld(c: Cluster, n: Addr, v: Addr, k: int)
    requires LogInv(c) && ReplicaInv(c) && n in c.config && v in c.config && v != n && 0 < k
    requires c.nodes[n].role == Primary && k <= At(c.nodes[n].saved, v) + 1
    ensures HeldPrefix(c.hist.acks, v, c.nodes[n].term, c.nodes[n].log, k)
  {
    hide VoteInv, AllSingle, LogsCoherent, AesKnown, HandedTrue, OkBacked, NodeInv, NetOk, Requests, Replies;
    assert SavedBacked(c, n, v);
    var a :| a in c.hist.acks && a.node == v && a.term == c.nodes[n].term && At(c.nodes[n].saved, v) + 1 <= a.len;
    assert AckTrue(c.hist.plog, a);
  }

  /** Two nodes that hand index k to their state machines while both are in one term hand over the same command. */
  lemma ApplyAgreement(r: Run, i: nat, x: Handed, y: Handed)
    requires IsRun(r) && H1(r) && H2(r) && i < |r.states|
    requires x in r.states[i].hist.handed && y in r.states[i].hist.handed
    requires x.term == y.term && x.task.index == y.task.index
    ensures x.task == y.task
  {
    hide BasicInv, VoteInv, AllSingle, LogInv, IsRun, H1, H2, LoggingAt, AckTrue, OkBacked, SavedBacked;
    ReplicaHolds(r, i);
    var plog := r.states[i].hist.plog;
    assert HandedTrue(plog, x) && HandedTrue(plog, y);
  }

  // ----- retention and catching up

  lemma {:induction false} AcksStay(r: Run, i: nat, j: nat)
    requires IsRun(r) && H1(r) && H2(r) && i <= j < |r.states|
    ensures r.states[i].hist.acks <= r.states[j].hist.acks
    ensures Grows(r.states[i].hist.plog, r.states[j].hist.plog)
    decreases j
  {
    hide LogInv, H1, H2, Logging, Handle, Offered;
    if i < j {
      AcksStay(r, i, j - 1);
      StepAt(r, j - 1);
      LogsHold(r, j - 1);
      var c, ev := r.states[j - 1], r.events[j - 1];
      PlogGrows(c, ev, Handle(Mover(c, ev), InputOf(ev)));
    }
  }

  /** In event i the mover accepts an AE and answers ok. */
  ghost predicate AnswersOk(r: Run, i: nat)
    requires Happens(r, i)
  {
    Accepts(Before(r, i), InputOf(r.events[i])) && Behind(r, i).fault.None?
  }

  lemma OkRecorded(r: Run, i: nat) returns (a: Ack)
    requires IsRun(r) && H1(r) && H2(r) && Happens(r, i) && AnswersOk(r, i)
    ensures var m := InputOf(r.events[i]).msg;
            && a in r.states[i + 1].hist.acks && a.node == NodeOf(r.events[i]) && a.term == m.term
            && a.log == Behind(r, i).log && a.len == m.prelogIndex + 1 + |m.entries|
  {
    hide H1, H2, BasicInv, VoteInv, NodeInv, InputShape, Enabled, Handle, StepFacts, Heeds, Matches;
    EventFacts(r, i);
    StepAt(r, i);
    LogsHold(r, i);
    AcceptedShape(r.states[i], r.events[i], Outcome(r, i));
    AcceptsMeans(Before(r, i), InputOf(r.events[i]));
    var m, t := InputOf(r.events[i]).msg, Outcome(r, i);
    a := Ack(NodeOf(r.events[i]), m.from, t.term, m.lsn, m.prelogIndex + 1 + |m.entries|, t.log);
  }

  /** Once a follower answered ok it keeps the matched prefix for as long as it stays in the term. */
  lemma FollowerRetains(r: Run, i: nat, j: nat)
    requires IsRun(r) && H1(r) && H2(r) && H3(r) && i < j < |r.states|
    requires Happens(r, i) && AnswersOk(r, i) && NodeOf(r.events[i]) in r.states[j].nodes
    requires r.states[j].nodes[NodeOf(r.events[i])].term == InputOf(r.events[i]).msg.term
    ensures var m := InputOf(r.events[i]).msg;
            Agree(r.states[j].nodes[NodeOf(r.events[i])].log, Behind(r, i).log, m.prelogIndex + 1 + |m.entries|)
  {
    hide H1, H2, H3, IsRun, AnswersOk, Behind, Books, LogInv, AckTrue, HandedTrue, OkBacked, SavedBacked, NodesOk,
         RefusalsPlaced, RefusalsFirst, AesAfterAcks, Ladders, NextsFit, Grows, Agree, KeepingAt;
    KeepingHolds(r, j);
    AcksStay(r, i + 1, j);
    var a := OkRecorded(r, i);
    var c := r.states[j];
    assert AckTrue(c.hist.plog, a) && AckPlaced(c, a);
    SameLogs(c, a);
  }

  lemma SameLogs(c: Cluster, a: Ack)
    requires NodesOk(c) && AckTrue(c.hist.plog, a) && AckPlaced(c, a) && c.nodes[a.node].term == a.term
    ensures Agree(c.nodes[a.node].log, a.log, a.len)
  {
    hide NodesOk;
  }

  /** And it never refuses an AE of that term again. */
  lemma FollowerNeverRefuses(r: Run, i: nat, j: nat)
    requires IsRun(r) && H1(r) && H2(r) && H3(r) && i < j < |r.events|
    requires Happens(r, i) && AnswersOk(r, i) && Happens(r, j) && NodeOf(r.events[j]) == NodeOf(r.events[i])
    requires Heeds(Before(r, j), InputOf(r.events[j])) && InputOf(r.events[j]).msg.term == InputOf(r.events[i]).msg.term
    ensures Accepts(Before(r, j), InputOf(r.events[j]))
  {
    hide H1, H2, H3, IsRun, AnswersOk, Behind, Books, Retaining, RetainInv, Handle, Heeds, Matches;
    RunLength(r);
    KeepingHolds(r, j);
    AcksStay(r, i + 1, j);
    var a := OkRecorded(r, i);
    NeverRefusesAgain(r.states[j], r.events[j], Handle(Before(r, j), InputOf(r.events[j])), a);
    AcceptsMeans(Before(r, j), InputOf(r.events[j]));
  }

  /** After a primary counted an ok of a peer, next is one past saved. Until then it only stepped back, at most
      as often as its log had entries when it was elected. */
  lemma CatchUpTerminates(r: Run, i: nat, n: Addr, v: Addr)
    requires IsRun(r) && H1(r) && H2(r) && H3(r) && i < |r.states|
    requires n in r.states[i].config && v in r.states[i].config && v != n
    ensures n in r.states[i].nodes
    ensures var c := r.states[i]; var s, h := c.nodes[n], c.hist;
            && 0 <= Backs(h, n, s.term, v) <= Base(h, n, s.term)
            && (s.role == Primary ==>
                  if (n, s.term, v) in h.counted then At(s.next, v) == At(s.saved, v) + 1
                  else Backs(h, n, s.term, v) + At(s.next, v) == Base(h, n, s.term))
  {
    hide H1, H2, H3, IsRun, LogInv, ReplicaInv, KeepingAt, AcksPlaced, RefusalsPlaced, RefusalsFirst, AesAfterAcks,
         Ladders, NextsFit, NodeInv, CommitRule, Backs, Base;
    KeepingHolds(r, i);
    var c := r.states[i];
    assert BookKept(c.hist, c.nodes[n]);
    if c.nodes[n].role == Primary {
      assert Tracks(c.hist, c.nodes[n], v);
    }
  }

  /** A primary that stays primary lowers its commit index exactly when it counts the first ok of its term and,
      where two servers are a majority, that ok stands for an index below it; elsewhere the index falls to -1. */
  lemma PrimaryCommitFallsExactly(r: Run, i: nat)
    requires IsRun(r) && H1(r) && H2(r) && H3(r) && Happens(r, i)
    requires Before(r, i).role == Primary && Behind(r, i).role == Primary
    ensures var n, s, inp := NodeOf(r.events[i]), Before(r, i), InputOf(r.events[i]);
            Behind(r, i).commit < s.commit <==>
              && Acked(s, inp) && (forall v :: (n, s.term, v) !in r.states[i].hist.counted)
              && if Majority(r.states[i].config) == 2 then CountedIndex(s, inp.msg) < s.commit else 0 <= s.commit
  {
    hide H1, H2, H3, IsRun, RetainInv, Handle, Retaining, Books, Majority, Acked;
    RunLength(r);
    KeepingHolds(r, i);
    var c, ev := r.states[i], r.events[i];
    EventFacts(r, i);
    KeepingParts(c, ev, Outcome(r, i));
    CommitFallsExactly(c, ev, Outcome(r, i));
  }

  // ----- with the election restriction and the commit restriction

  lemma {:induction false} HistoryStays(r: Run, i: nat, j: nat)
    requires IsRun(r) && H1(r) && H2(r) && H3(r) && H4(r) && i <= j < |r.states|
    ensures HistoryGrows(r.states[i], r.states[j])
    decreases j
  {
    hide H1, H2, H3, H4, IsRun, HistoryGrows, Completing, Handle, Enabled, After;
    if i == j {
      GrowsItself(r.states[i]);
    } else {
      HistoryStays(r, i, j - 1);
      FirstState(r);
      StepAt(r, j - 1);
      CompletingHolds(r, j - 1);
      var c, ev := r.states[j - 1], r.events[j - 1];
      CompletingParts(c, ev, Handle(Mover(c, ev), InputOf(ev)));
      GrowsFurther(r.states[i], c, r.states[j]);
    }
  }

  lemma GrowsFurther(a: Cluster, b: Cluster, c: Cluster)
    requires HistoryGrows(a, b) && HistoryGrows(b, c)
    ensures HistoryGrows(a, c)
  {
    forall term | term in a.hist.plog ensures term in c.hist.plog && a.hist.plog[term] <= c.hist.plog[term] {
      assert a.hist.plog[term] <= b.hist.plog[term] <= c.hist.plog[term];
    }
  }

  /** The commit index k that a primary sets makes its first k + 1 entries a chosen prefix of its term. */
  lemma CommitChooses(r: Run, i: nat)
    requires IsRun(r) && H1(r) && H2(r) && H3(r) && H4(r) && H5(r) && Happens(r, i)
    requires Acked(Before(r, i), InputOf(r.events[i])) && 0 <= Behind(r, i).commit
    ensures var t := Behind(r, i);
            && Chosen(r.states[i + 1], t.term, t.commit + 1) && LogOf(r.states[i + 1].hist, t.term) == t.log
            && t.commit < |t.log|
  {
    hide H1, H2, H3, H4, H5, IsRun, Committing, Handle, Acked, After, Chosen, Enabled, BasicInv, VoteInv, StepFacts,
         NodeInv, InputShape, Grounded;
    EventFacts(r, i);
    StepAt(r, i);
    SafeHolds(r, i);
    CompleteHolds(r, i + 1);
    RecountChosen(r.states[i], r.events[i], Outcome(r, i));
    AckedStays(r, i);
    PrimaryWon(r.states[i + 1], NodeOf(r.events[i]));
    WinnerPrimary(r.states[i + 1], NodeOf(r.events[i]), Behind(r, i).term);
    RolesOf(r.states[i + 1]);
    CommitInside(r.states[i + 1], NodeOf(r.events[i]));
  }

  lemma CommitInside(c: Cluster, n: Addr)
    requires NodesOk(c) && n in c.config
    ensures n in c.nodes && c.nodes[n].commit < |c.nodes[n].log|
  {
    hide LogShape, InOrder, LsnInv, PrimaryInv;
  }

  /** Leader Completeness: what a primary of one term committed is in the log of the primary of every later term. */
  lemma LeaderCompleteness(r: Run, i: nat, j: nat, n: Addr)
    requires IsRun(r) && H1(r) && H2(r) && H3(r) && H4(r) && H5(r) && Happens(r, i)
    requires Acked(Before(r, i), InputOf(r.events[i])) && 0 <= Behind(r, i).commit
    requires j < |r.states| && n in r.states[j].config && n in r.states[j].nodes
    requires r.states[j].nodes[n].role == Primary && Behind(r, i).term < r.states[j].nodes[n].term
    ensures Agree(r.states[j].nodes[n].log, Behind(r, i).log, Behind(r, i).commit + 1)
  {
    hide H1, H2, H3, H4, H5, IsRun, Handle, Acked, Chosen, Grounded, Complete, HistoryGrows;
    var t, now := Behind(r, i), r.states[j].nodes[n];
    var m := if i < j then j else i + 1;
    CommitChooses(r, i);
    HistoryStays(r, i + 1, m);
    HistoryStays(r, j, m);
    CompleteHolds(r, m);
    CompleteHolds(r, j);
    ChosenStays(r.states[i + 1], r.states[m], t.term, t.commit + 1);
    PrimaryWon(r.states[j], n);
    WinnerPrimary(r.states[j], n, now.term);
    StoodKeys(r.states[j]);
    SameStood(r.states[j], r.states[m], (n, now.term));
    ElectedWith(r.states[m], t.term, t.commit + 1, n, now.term);
    SameLog(r.states[i + 1], r.states[m], t.term);
  }

  lemma SameStood(c: Cluster, c': Cluster, key: (Addr, int))
    requires HistoryGrows(c, c') && key in c.hist.stood && key in c.hist.wins
    ensures key in c'.hist.stood && c'.hist.stood[key] == c.hist.stood[key] && key in c'.hist.wins
  {
  }

  lemma SameLog(c: Cluster, c': Cluster, term: int)
    requires HistoryGrows(c, c')
    ensures LogOf(c.hist, term) <= LogOf(c'.hist, term)
  {
  }

  /** A chosen prefix is in the log of its own term and of every later one. */
  lemma ChosenInLater(c: Cluster, own: int, j: int, term: int)
    requires Grounded(c) && Complete(c) && Chosen(c, own, j) && own <= term && term in c.hist.plog
    ensures Agree(LogOf(c.hist, term), LogOf(c.hist, own), j)
  {
    hide Grounded, Complete, Holder;
    if own < term {
      LoggedWinner(c, term);
      var n :| (n, term) in c.hist.wins;
      StoodKeys(c);
      ElectedWith(c, own, j, n, term);
    }
  }

  /** State Machine Safety: no two servers ever apply different commands at one index, whatever their terms. */
  lemma StateMachineSafety(r: Run, i: nat, x: Handed, y: Handed)
    requires IsRun(r) && H1(r) && H2(r) && H3(r) && H4(r) && H5(r) && i < |r.states|
    requires x in r.states[i].hist.handed && y in r.states[i].hist.handed && x.task.index == y.task.index
    ensures x.task == y.task
  {
    hide H1, H2, H3, H4, H5, IsRun, Grounded, Complete, Chosen, CommitSafe, AeSafe, NodesOk, CommittingAt, Agree;
    var c, k := r.states[i], x.task.index;
    SafeHolds(r, i);
    CompleteHolds(r, i);
    HandedInLog(c, x);
    HandedInLog(c, y);
    var ownX, jx :| ownX <= x.term && k < jx && Chosen(c, ownX, jx);
    var ownY, jy :| ownY <= y.term && k < jy && Chosen(c, ownY, jy);
    SameEntry(c, ownX, jx, x.term, k);
    SameEntry(c, ownY, jy, y.term, k);
    ChosenLogged(c, ownX, jx);
    ChosenLogged(c, ownY, jy);
    if ownX <= ownY {
      SameEntry(c, ownX, jx, ownY, k);
    } else {
      SameEntry(c, ownY, jy, ownX, k);
    }
  }

  lemma HandedInLog(c: Cluster, h: Handed)
    requires Grounded(c) && h in c.hist.handed
    ensures h.term in c.hist.plog && 0 <= h.task.index < |LogOf(c.hist, h.term)|
    ensures LogOf(c.hist, h.term)[h.task.index].msg == h.task.msg
  {
    hide LogInv, Catching, AckTrue, OkBacked, SavedBacked;
    GroundedOk(c);
    assert HandedTrue(c.hist.plog, h);
  }

  lemma ChosenLogged(c: Cluster, own: int, j: int)
    requires Chosen(c, own, j)
    ensures own in c.hist.plog
  {
    hide Upheld;
  }

  lemma SameEntry(c: Cluster, own: int, j: int, term: int, k: int)
    requires Grounded(c) && Complete(c) && Chosen(c, own, j) && own <= term && term in c.hist.plog && 0 <= k < j
    ensures k < |LogOf(c.hist, term)| && k < |LogOf(c.hist, own)|
    ensures LogOf(c.hist, term)[k] == LogOf(c.hist, own)[k]
  {
    hide Grounded, Complete, Chosen;
    ChosenInLater(c, own, j, term);
  }
}
