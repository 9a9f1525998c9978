/** Under H1 to H5 every commit index and every applied command stands on a chosen prefix. */
module Commitment {
  import opened RaftTypes
  import opened OrderStatistic
  import opened ApplyControl
  import opened NodeSpec
  import opened NodeFacts
  import opened NodeSteps
  import opened Cluster
  import opened Basics
  import opened Election
  import opened Logs
  import opened Replication
  import opened Retention
  import opened Completeness

  /** By that term the entry at index k was chosen. */
  ghost predicate Safe(c: Cluster, term: int, k: int) {
    exists own, j :: own <= term && k < j && Chosen(c, own, j)
  }

  ghost predicate CommitSafe(c: Cluster, v: Addr)
    requires v in c.nodes
  {
    0 <= c.nodes[v].commit ==> Safe(c, c.nodes[v].term, c.nodes[v].commit)
  }

  ghost predicate AeSafe(c: Cluster, l: Letter) {
    l.msg.AppendEntry? && 0 <= l.msg.commitIndex ==> Safe(c, l.msg.term, l.msg.commitIndex)
  }

  ghost predicate AllSafe(c: Cluster) {
    && NodesOk(c)
    && (forall v :: v in c.config ==> CommitSafe(c, v))
    && (forall l :: l in c.net ==> AeSafe(c, l))
    && (forall h :: h in c.hist.handed ==> Safe(c, h.term, h.task.index))
  }

  // ----- what is chosen stays chosen

  lemma HolderStays(c: Cluster, c': Cluster, v: Addr, term: int, j: int)
    requires HistoryGrows(c, c') && Holder(c.hist, v, term, j)
    ensures Holder(c'.hist, v, term, j)
  {
  }

  lemma ChosenStays(c: Cluster, c': Cluster, term: int, j: int)
    requires HistoryGrows(c, c') && Chosen(c, term, j)
    ensures Chosen(c', term, j)
  {
    hide HistoryGrows, Holder, EndsOwn;
    var q: set<Addr> :| q <= ServerSet(c.config) && |q| >= Majority(c.config) && Upheld(c.hist, q, term, j);
    forall v | v in q ensures Holder(c'.hist, v, term, j) {
      HolderStays(c, c', v, term, j);
    }
    EndsOwnStays(c, c', term, j);
    assert Upheld(c'.hist, q, term, j);
  }

  lemma EndsOwnStays(c: Cluster, c': Cluster, term: int, j: int)
    requires HistoryGrows(c, c') && EndsOwn(c.hist, term, j)
    ensures EndsOwn(c'.hist, term, j) && c'.config == c.config
  {
  }

  lemma SafeStays(c: Cluster, c': Cluster, term: int, k: int, term': int, k': int)
    requires HistoryGrows(c, c') && Safe(c, term, k) && term <= term' && k' <= k
    ensures Safe(c', term', k')
  {
    hide HistoryGrows, Chosen;
    var own, j :| own <= term && k < j && Chosen(c, own, j);
    ChosenStays(c, c', own, j);
  }

  // ----- one step

  ghost predicate Committing(c: Cluster, ev: Event, t: Node) {
    Completing(c, ev, t) && OwnTermCommit(c, ev, t) && AllSafe(c)
  }

  lemma CommittingParts(c: Cluster, ev: Event, t: Node)
    requires Committing(c, ev, t)
    ensures Completing(c, ev, t) && NodeOf(ev) in c.nodes && NodeOf(ev) in c.config && HistoryGrows(c, After(c, ev, t))
    ensures NodesOk(c) && NodesOk(After(c, ev, t)) && Logging(c, ev, t) && Grounded(After(c, ev, t))
    ensures Mover(c, ev).term <= t.term && t.self == NodeOf(ev) && OwnTermCommit(c, ev, t)
  {
    hide Completing, NodesOk, CommitSafe, AeSafe, HistoryGrows, OwnTermCommit, After;
    CompletingParts(c, ev, t);
  }

  /** A recomputed commit index names a chosen entry: a majority saved it and it is the primary's own. */
  lemma RecountChosen(c: Cluster, ev: Event, t: Node)
    requires Committing(c, ev, t) && Acked(Mover(c, ev), InputOf(ev)) && 0 <= t.commit
    ensures Chosen(After(c, ev, t), t.term, t.commit + 1)
  {
    hide Completing, AllSafe, NodesOk, HistoryGrows, Grounded, Holder, CommitRule, Majority, EndsOwn, Logging, Acked, After;
    CommittingParts(c, ev, t);
    RecountFacts(c, ev, t);
    var c' := After(c, ev, t);
    var q := Holders(t.saved, t.config, t.commit);
    CommitRuleIsGreatest(t.saved, t.config, t.commit);
    forall v | v in q ensures Holder(c'.hist, v, t.term, t.commit + 1) {
      SavedHolds(c', NodeOf(ev), v, t.commit + 1);
    }
    assert Upheld(c'.hist, q, t.term, t.commit + 1);
  }

  lemma RecountFacts(c: Cluster, ev: Event, t: Node)
    requires Committing(c, ev, t) && Acked(Mover(c, ev), InputOf(ev)) && 0 <= t.commit
    ensures var c' := After(c, ev, t);
            && t.commit == CommitRule(t.saved, t.config) && t.config == c.config == c'.config
            && t.role == Primary && NodeOf(ev) in c'.nodes && c'.nodes[NodeOf(ev)] == t.(outbox := [])
            && EndsOwn(c'.hist, t.term, t.commit + 1) && t.commit < |t.log|
  {
    hide Completing, AllSafe, NodesOk, HistoryGrows, Grounded, CommitRule, Logging, RequestFacts, ReplyFacts, LogFacts,
         CommitFacts, FreshPrimary, FaultFacts, BasicInv, LogInv, LogShape, PrimaryInv, LsnInv, Accepts, SameTermAe,
         CountsBallot;
    CommittingParts(c, ev, t);
    LoggingFacts(c, ev, t);
  }

  lemma SavedHolds(c: Cluster, n: Addr, v: Addr, j: int)
    requires Grounded(c) && n in c.config && v in c.config && n in c.nodes && c.nodes[n].role == Primary && 1 <= j
    requires j - 1 <= At(c.nodes[n].saved, v) && j <= |c.nodes[n].log|
    ensures Holder(c.hist, v, c.nodes[n].term, j)
  {
    hide LogInv, Catching, AckTrue, HandedTrue, OkBacked, NodeInv;
    GroundedOk(c);
    if v == n {
      PrimaryWon(c, n);
      WinnerPrimary(c, n, c.nodes[n].term);
    } else {
      assert SavedBacked(c, n, v);
      var a :| a in c.hist.acks && a.node == v && a.term == c.nodes[n].term && At(c.nodes[n].saved, v) + 1 <= a.len;
    }
  }

  /** A commit index that moved, and commands handed over with it, are safe. */
  lemma MoverSafe(c: Cluster, ev: Event, t: Node)
    requires Committing(c, ev, t) && 0 <= t.commit
    requires Accepts(Mover(c, ev), InputOf(ev)) || Acked(Mover(c, ev), InputOf(ev))
    ensures Safe(After(c, ev, t), t.term, t.commit)
  {
    hide Completing, AllSafe, NodesOk, HistoryGrows, Grounded, Logging, After, Safe, Acked, Accepts, OwnTermCommit;
    CommittingParts(c, ev, t);
    if Acked(Mover(c, ev), InputOf(ev)) {
      RecountChosen(c, ev, t);
      SafeBy(After(c, ev, t), t.term, t.commit);
    } else {
      AcceptedCommit(c, ev, t);
      AeSafeOf(c, ev.letter);
      SafeStays(c, After(c, ev, t), ev.letter.msg.term, ev.letter.msg.commitIndex, t.term, t.commit);
    }
  }

  lemma SafeBy(c: Cluster, term: int, k: int)
    requires Chosen(c, term, k + 1)
    ensures Safe(c, term, k)
  {
  }

  lemma AeSafeOf(c: Cluster, l: Letter)
    requires AllSafe(c) && l in c.net
    ensures AeSafe(c, l)
  {
    hide NodesOk, CommitSafe, AeSafe, Safe;
  }

  lemma AcceptedCommit(c: Cluster, ev: Event, t: Node)
    requires Logging(c, ev, t) && Accepts(Mover(c, ev), InputOf(ev))
    ensures ev.Deliver? && ev.letter in c.net && ev.letter.msg.AppendEntry? && t.term == ev.letter.msg.term
    ensures t.commit <= ev.letter.msg.commitIndex
  {
    hide LogInv, BasicInv, VoteInv, AllSingle, Sound, RequestFacts, RoleFacts, VoteFacts, ReplyFacts, LogFacts,
         PrimaryFacts, FreshPrimary, FaultFacts, Matches, Fresh, HandsOver;
    AcceptedShape(c, ev, t);
  }

  lemma CommitSafeKept(c: Cluster, ev: Event, t: Node, v: Addr)
    requires Committing(c, ev, t) && v in c.config && v in After(c, ev, t).nodes
    ensures CommitSafe(After(c, ev, t), v)
  {
    hide Completing, NodesOk, HistoryGrows, Grounded, Logging, Safe, Acked, Accepts, OwnTermCommit, SameTermAe,
         CountsBallot, AeSafe;
    CommittingParts(c, ev, t);
    var c' := After(c, ev, t);
    if v != NodeOf(ev) {
      assert CommitSafe(c, v);
      if 0 <= c.nodes[v].commit {
        SafeStays(c, c', c.nodes[v].term, c.nodes[v].commit, c.nodes[v].term, c.nodes[v].commit);
      }
    } else if 0 <= t.commit {
      MoverCommitSafe(c, ev, t);
    }
  }

  lemma MoverCommitSafe(c: Cluster, ev: Event, t: Node)
    requires Committing(c, ev, t) && 0 <= t.commit
    ensures Safe(After(c, ev, t), t.term, t.commit)
  {
    hide Completing, NodesOk, HistoryGrows, Grounded, Logging, Safe, Acked, Accepts, OwnTermCommit, After, AeSafe;
    CommittingParts(c, ev, t);
    CommitMoves(c, ev, t);
    if Accepts(Mover(c, ev), InputOf(ev)) || Acked(Mover(c, ev), InputOf(ev)) {
      MoverSafe(c, ev, t);
    } else {
      assert CommitSafe(c, NodeOf(ev));
      SafeStays(c, After(c, ev, t), Mover(c, ev).term, t.commit, t.term, t.commit);
    }
  }

  lemma CommitMoves(c: Cluster, ev: Event, t: Node)
    requires Logging(c, ev, t)
    ensures t.commit != Mover(c, ev).commit || t.ctl.tasks != Mover(c, ev).ctl.tasks ==>
              Accepts(Mover(c, ev), InputOf(ev)) || Acked(Mover(c, ev), InputOf(ev))
    ensures t.ctl.tasks != Mover(c, ev).ctl.tasks ==> |t.ctl.tasks| <= t.commit + 1
  {
    hide LogInv, BasicInv, VoteInv, AllSingle, Sound, RequestFacts, RoleFacts, VoteFacts, ReplyFacts, LogFacts,
         PrimaryFacts, FreshPrimary, FaultFacts, Accepts, Acked, HandsOver, Offered;
  }

  lemma HandedSafeKept(c: Cluster, ev: Event, t: Node, h: Handed)
    requires Committing(c, ev, t) && h in After(c, ev, t).hist.handed
    ensures Safe(After(c, ev, t), h.term, h.task.index)
  {
    hide Completing, NodesOk, HistoryGrows, Grounded, Logging, Safe, Acked, Accepts, OwnTermCommit, SameTermAe,
         CountsBallot, CommitSafe, AeSafe;
    CommittingParts(c, ev, t);
    var c' := After(c, ev, t);
    if h in c.hist.handed {
      SafeStays(c, c', h.term, h.task.index, h.term, h.task.index);
    } else {
      NewHanded(c, ev, t, h);
      MoverSafe(c, ev, t);
      GrowsItself(c');
      SafeStays(c', c', t.term, t.commit, h.term, h.task.index);
    }
  }

  lemma GrowsItself(c: Cluster)
    ensures HistoryGrows(c, c)
  {
  }

  lemma NewHanded(c: Cluster, ev: Event, t: Node, h: Handed)
    requires Logging(c, ev, t) && h in HandedNow(Mover(c, ev), t)
    ensures h.term == t.term && 0 <= h.task.index <= t.commit
    ensures Accepts(Mover(c, ev), InputOf(ev)) || Acked(Mover(c, ev), InputOf(ev))
  {
    hide Logging, Accepts, Acked, BasicInv, LogInv, RequestFacts, RoleFacts, ReplyFacts, LogFacts, PrimaryFacts,
         FreshPrimary, FaultFacts, LogShape, PrimaryInv, LsnInv, HandsOver, CommitFacts, Offered;
    LoggingFacts(c, ev, t);
    CommitMoves(c, ev, t);
  }

  lemma AeSafeKept(c: Cluster, ev: Event, t: Node, l: Letter)
    requires Committing(c, ev, t) && l in After(c, ev, t).net
    ensures AeSafe(After(c, ev, t), l)
  {
    hide Completing, AllSafe, NodesOk, HistoryGrows, Grounded, Logging, Safe, OwnTermCommit, After;
    CommittingParts(c, ev, t);
    if l.msg.AppendEntry? && 0 <= l.msg.commitIndex {
      if l in c.net {
        AeSafeOf(c, l);
        SafeStays(c, After(c, ev, t), l.msg.term, l.msg.commitIndex, l.msg.term, l.msg.commitIndex);
      } else {
        LoggingNewRequest(c, ev, t, l);
        MoverCommitSafe(c, ev, t);
      }
    }
  }

  lemma AllSafeKept(c: Cluster, ev: Event, t: Node)
    requires Committing(c, ev, t)
    ensures AllSafe(After(c, ev, t))
  {
    hide Completing, NodesOk, HistoryGrows, Grounded, Logging, Safe, OwnTermCommit, After, CommitSafe, AeSafe;
    CommittingParts(c, ev, t);
    SameConfig(c, ev, t);
    var c' := After(c, ev, t);
    RolesOf(c');
    forall v | v in c'.config ensures CommitSafe(c', v) {
      CommitSafeKept(c, ev, t, v);
    }
    forall l | l in c'.net ensures AeSafe(c', l) {
      AeSafeKept(c, ev, t, l);
    }
    forall h | h in c'.hist.handed ensures Safe(c', h.term, h.task.index) {
      HandedSafeKept(c, ev, t, h);
    }
  }

  lemma InitSafe(c: Cluster)
    requires Init(c)
    ensures AllSafe(c)
  {
    BasicInit(c);
  }

  lemma {:induction false} SafeHolds(r: Run, i: nat)
    requires IsRun(r) && H1(r) && H2(r) && H3(r) && H4(r) && H5(r) && i < |r.states|
    ensures AllSafe(r.states[i])
    ensures i < |r.events| ==> CommittingAt(r, i)
  {
    hide H1, H2, H3, H4, H5, IsRun, AllSafe, Complete, Grounded, Completing, OwnTermCommit, Handle;
    FirstState(r);
    if i == 0 {
      InitSafe(r.states[0]);
    } else {
      SafeHolds(r, i - 1);
      StepAt(r, i - 1);
      SafeStep(r, i - 1);
    }
    if i < |r.events| {
      CompletingHolds(r, i);
      OwnTermAt(r, i);
    }
  }

  ghost predicate CommittingAt(r: Run, i: nat) {
    i < |r.events| && i < |r.states| && NodeOf(r.events[i]) in r.states[i].nodes
    && Committing(r.states[i], r.events[i], Handle(Mover(r.states[i], r.events[i]), InputOf(r.events[i])))
  }

  lemma OwnTermAt(r: Run, i: nat)
    requires IsRun(r) && H5(r) && i < |r.events|
    ensures i < |r.states| && NodeOf(r.events[i]) in r.states[i].nodes
    ensures OwnTermCommit(r.states[i], r.events[i], Handle(Mover(r.states[i], r.events[i]), InputOf(r.events[i])))
  {
    hide IsRun, OwnTermCommit, Handle;
    StepAt(r, i);
  }

  lemma SafeStep(r: Run, i: nat)
    requires CommittingAt(r, i) && i + 1 < |r.states| && IsStep(r.states[i], r.events[i], r.states[i + 1])
    ensures AllSafe(r.states[i + 1])
  {
    hide Committing, AllSafe, Handle, After, Enabled;
    AllSafeKept(r.states[i], r.events[i], Handle(Mover(r.states[i], r.events[i]), InputOf(r.events[i])));
  }
}
