/** Who gets a vote: what an RV tells of its sender's log, and that a vote is given exactly when it is due. */
module Voting {
  import opened RaftTypes
  import opened NodeSpec
  import opened NodeFacts
  import opened NodeSteps
  import opened Outcomes
  import opened Cluster
  import opened Basics
  import opened Election
  import opened Logs
  import opened AsWritten
  import opened Progress

  // ----- the log a candidate stood with

  /** What candidate n knows of the log it stood with: it still has it, and in runs under H2 nothing else. */
  ghost predicate StandsWith(c: Cluster, n: Addr, exact: bool)
    requires n in c.nodes
  {
    var s := c.nodes[n];
    s.role == Candidate ==>
      && (n, s.term) in c.hist.stood
      && |c.hist.stood[(n, s.term)]| <= |s.log| && (exact ==> c.hist.stood[(n, s.term)] == s.log)
  }

  /** What an RV tells of it. */
  ghost predicate Tells(c: Cluster, l: Letter, exact: bool) {
    l.msg.RequestVote? ==>
      var key := (l.msg.from, l.msg.term);
      && key in c.hist.stood && l.msg.latestTerm == 0
      && |c.hist.stood[key]| <= l.msg.latestIndex + 1 && (exact ==> |c.hist.stood[key]| == l.msg.latestIndex + 1)
  }

  ghost predicate StandInv(c: Cluster, exact: bool) {
    && (forall key :: key in c.hist.stood <==> key in c.hist.cands)
    && (forall n :: n in c.config ==> n in c.nodes && StandsWith(c, n, exact))
    && (forall l :: l in c.net ==> Tells(c, l, exact))
  }

  /** What the mover does to a candidacy and to the history of candidacies. */
  lemma CandidacyStep(c: Cluster, ev: Event, t: Node)
    requires NodeOf(ev) in c.nodes
    ensures var h, h', key := c.hist, After(c, ev, t).hist, (NodeOf(ev), t.term);
            && (t.role == Candidate ==> h'.cands == h.cands + {key})
            && (t.role != Candidate ==> h'.cands == h.cands && h'.stood == h.stood)
            && (t.role == Candidate && key in h.cands ==> h'.stood == h.stood)
            && (t.role == Candidate && key !in h.cands ==> h'.stood == h.stood[key := t.log])
  {
    hide Mailed, HandedNow, Accepts, SameTermAe, CountsBallot, Acked, Refused;
  }

  /** A step of a run, under H2 if exact; candidacies of the mover are recorded and none is ahead of its term. */
  ghost predicate Polling(c: Cluster, ev: Event, t: Node, exact: bool) {
    && NodeOf(ev) in c.config && NodeOf(ev) in c.nodes && t.self == NodeOf(ev) && Mover(c, ev).config == c.config
    && Offered(Mover(c, ev), InputOf(ev)) && Account(Mover(c, ev), InputOf(ev), t)
    && (exact ==> CommandAtPrimary(c, ev))
    && (forall term :: Mover(c, ev).term < term ==> (NodeOf(ev), term) !in c.hist.cands)
    && (Mover(c, ev).role == Candidate ==> (NodeOf(ev), Mover(c, ev).term) in c.hist.cands)
    && StandInv(c, exact)
  }

  /** How a server comes to be, or stays, a candidate. */
  lemma CandidacyFacts(s: Node, inp: Input, t: Node)
    requires Account(s, inp, t) && t.role == Candidate
    ensures if inp.ElectionTimeout? then t.term == s.term + 1 && t.log == s.log
            else s.role == Candidate && t.term == s.term && (t.log == s.log || (inp.Command? && |t.log| == |s.log| + 1))
  {
    hide SendsExactly, ControlerAfter, Matches;
  }

  lemma MoverStands(c: Cluster, ev: Event, t: Node, exact: bool)
    requires Polling(c, ev, t, exact)
    ensures StandsWith(After(c, ev, t), NodeOf(ev), exact)
  {
    hide Account, Offered;
    CandidacyStep(c, ev, t);
    MovedNode(c, ev, t);
    hide After;
    if t.role == Candidate {
      CandidacyFacts(Mover(c, ev), InputOf(ev), t);
    }
  }

  lemma MovedNode(c: Cluster, ev: Event, t: Node)
    requires NodeOf(ev) in c.nodes
    ensures var c' := After(c, ev, t);
            && c'.config == c.config && NodeOf(ev) in c'.nodes && c'.nodes[NodeOf(ev)] == t.(outbox := [])
            && (forall n :: n in c.nodes && n != NodeOf(ev) ==> n in c'.nodes && c'.nodes[n] == c.nodes[n])
  {
    hide Record, Mailed;
  }

  lemma StoodStays(c: Cluster, ev: Event, t: Node)
    requires NodeOf(ev) in c.nodes && forall key :: key in c.hist.stood <==> key in c.hist.cands
    ensures var h, h' := c.hist, After(c, ev, t).hist;
            && (forall key :: key in h'.stood <==> key in h'.cands)
            && (forall key :: key in h.stood ==> key in h'.stood && h'.stood[key] == h.stood[key])
  {
    CandidacyStep(c, ev, t);
    hide After;
  }

  /** A new RV leaves a candidate and tells the length of its log. */
  lemma NewRvTells(c: Cluster, ev: Event, t: Node, exact: bool, l: Letter)
    requires Polling(c, ev, t, exact) && l in After(c, ev, t).net && l !in c.net && l.msg.RequestVote?
    ensures Tells(After(c, ev, t), l, exact)
  {
    hide StandInv, Account;
    MoverStands(c, ev, t, exact);
    MovedNode(c, ev, t);
    var p := SentRv(c, ev, t, l);
    hide After;
    RvLeaves(Mover(c, ev), InputOf(ev), t, p);
  }

  lemma SentRv(c: Cluster, ev: Event, t: Node, l: Letter) returns (p: Packet)
    requires NodeOf(ev) in c.nodes && l in After(c, ev, t).net && l !in c.net
    ensures p in t.outbox && p.msg == l.msg && p.to == l.to
  {
    hide Record;
    p :| p in t.outbox && l == Wrap(p, InputOf(ev));
  }

  lemma RvLeaves(s: Node, inp: Input, t: Node, p: Packet)
    requires Account(s, inp, t) && Offered(s, inp) && p in t.outbox && p.msg.RequestVote?
    ensures t.role == Candidate && p.msg.from == t.self && p.msg.term == t.term
    ensures p.msg.latestIndex == |t.log| - 1 && p.msg.latestTerm == 0
  {
    hide ControlerAfter, CommitNow, LogNow, SavedAfter, NextAfter, RememberedAfter, Matches;
    assert Leaves(s, inp, t, p);
  }

  lemma StandInvKept(c: Cluster, ev: Event, t: Node, exact: bool)
    requires Polling(c, ev, t, exact)
    ensures StandInv(After(c, ev, t), exact)
  {
    hide Account, Offered;
    StoodStays(c, ev, t);
    MovedNode(c, ev, t);
    MoverStands(c, ev, t, exact);
    var c' := After(c, ev, t);
    hide After;
    forall l | l in c'.net ensures Tells(c', l, exact) {
      if l in c.net {
        assert Tells(c, l, exact);
      } else if l.msg.RequestVote? {
        NewRvTells(c, ev, t, exact, l);
      }
    }
    forall n | n in c'.config ensures n in c'.nodes && StandsWith(c', n, exact) {
      assert StandsWith(c, n, exact);
    }
  }

  lemma StandInvStarts(c: Cluster, exact: bool)
    requires Init(c)
    ensures StandInv(c, exact)
  {
  }

  lemma {:induction false} StandHolds(r: Run, i: nat, exact: bool)
    requires IsRun(r) && i < |r.states| && (exact ==> H2(r))
    ensures StandInv(r.states[i], exact)
  {
    hide IsRun, H2, Init, StandInv, Polling, After;
    FirstState(r);
    if i == 0 {
      StandInvStarts(r.states[0], exact);
    } else {
      StandHolds(r, i - 1, exact);
      PollingAt(r, i - 1, exact);
      StandInvKept(r.states[i - 1], r.events[i - 1], Outcome(r, i - 1), exact);
    }
  }

  lemma PollingAt(r: Run, i: nat, exact: bool)
    requires IsRun(r) && i < |r.events| && (exact ==> H2(r)) && |r.states| == |r.events| + 1
    requires StandInv(r.states[i], exact)
    ensures Happens(r, i) && r.states[i + 1] == After(r.states[i], r.events[i], Outcome(r, i))
    ensures Polling(r.states[i], r.events[i], Outcome(r, i), exact)
  {
    hide IsRun, StandInv, After, Handle, Account, NodeInv, InputShape, NetOk, Requests, Replies, VotesRemembered,
         SingleUnlessLate, Tallied;
    EventAccount(r, i);
    StepAt(r, i);
    VotesHold(r, i);
    ServerThere(r, i, NodeOf(r.events[i]));
    SameSelf(Before(r, i), InputOf(r.events[i]), Outcome(r, i));
  }

  lemma SameSelf(s: Node, inp: Input, t: Node)
    requires Account(s, inp, t)
    ensures t.self == s.self && t.config == s.config
  {
    hide SendsExactly, ControlerAfter;
  }

  // ----- the ballot

  /** In event i the RV m arrives. */
  ghost predicate Polled(r: Run, i: nat, m: Msg) {
    Happens(r, i) && r.events[i].Deliver? && r.events[i].letter.msg == m && m.RequestVote?
  }

  /** And the vote goes to its sender. */
  ghost predicate VotesFor(r: Run, i: nat, m: Msg)
    requires Polled(r, i, m)
  {
    Packet(m.from, RespVote(true, m.term, m.lsn, NodeOf(r.events[i]))) in Outcome(r, i).outbox
  }

  lemma BallotLeaves(s: Node, m: Msg, t: Node)
    requires Account(s, Receive(m), t) && m.RequestVote?
    ensures Packet(m.from, RespVote(true, m.term, m.lsn, s.self)) in t.outbox <==> GivesVote(s, Receive(m))
  {
    hide ControlerAfter, CommitNow, LogNow, SavedAfter, NextAfter, RememberedAfter, MayElect, HasVote;
    var p := Packet(m.from, RespVote(true, m.term, m.lsn, s.self));
    assert p in t.outbox <==> Leaves(s, Receive(m), t, p);
  }

  /** A vote is given exactly to a fresh RV that finds one left, unless the voter's last entry is of the very term
      and its log longer than the one the RV tells of. */
  lemma VoteGivenExactly(r: Run, i: nat, m: Msg)
    requires IsRun(r) && Polled(r, i, m)
    ensures VotesFor(r, i, m) <==>
              Fresh(Before(r, i), m) && HasVote(Before(r, i), m.term) && MayElect(Before(r, i).log, m)
  {
    hide IsRun, Handle, Account, NodeInv, InputShape, After, Enabled;
    EventAccount(r, i);
    BallotLeaves(Before(r, i), m, Outcome(r, i));
  }

  /** The voter's last entry is of the term it is asked to vote in, and its log longer than n entries. */
  predicate Ahead(log: seq<Entry>, term: int, n: int) {
    log != [] && log[|log| - 1].term == term && n < |log|
  }

  /** Whoever is refused a vote that was left had stood with a log shorter than the voter's, which ends in an entry
      of the term. */
  lemma RefusedOnlyByLongerLog(r: Run, i: nat, m: Msg)
    requires IsRun(r) && Polled(r, i, m) && Fresh(Before(r, i), m) && HasVote(Before(r, i), m.term)
    ensures (m.from, m.term) in r.states[i].hist.stood
    ensures !VotesFor(r, i, m) ==> Ahead(Before(r, i).log, m.term, |r.states[i].hist.stood[(m.from, m.term)]|)
  {
    hide IsRun, Handle, Polling, VotesFor, HasVote, Fresh;
    VoteGivenExactly(r, i, m);
    StepAt(r, i);
    StandHolds(r, i, false);
    assert Tells(r.states[i], r.events[i].letter, false);
  }

  /** Under H2 that is exact: a vote is given if and only if it is left and the voter is not ahead of the log the
      candidate stood with. */
  lemma VoteComparesLogs(r: Run, i: nat, m: Msg)
    requires IsRun(r) && H2(r) && Polled(r, i, m)
    ensures (m.from, m.term) in r.states[i].hist.stood
    ensures VotesFor(r, i, m) <==>
              && Fresh(Before(r, i), m) && HasVote(Before(r, i), m.term)
              && !Ahead(Before(r, i).log, m.term, |r.states[i].hist.stood[(m.from, m.term)]|)
  {
    hide IsRun, H2, Handle, Polling, VotesFor, HasVote, Fresh;
    VoteGivenExactly(r, i, m);
    StepAt(r, i);
    StandHolds(r, i, true);
    assert Tells(r.states[i], r.events[i].letter, true);
  }

  // ----- votes are not lost

  ghost predicate VoteSent(c: Cluster, n: Addr, term: int) {
    exists l :: l in c.net && IsGrant(l.msg) && l.msg.from == n && l.msg.term == term
  }

  lemma VotedBy(s: Node, inp: Input, t: Node)
    requires Account(s, inp, t) && t.role == Follower && t.voted
    ensures || (s.role == Follower && s.voted && s.term == t.term)
            || (GivesVote(s, inp) && t.term == inp.msg.term)
  {
    hide ControlerAfter, CommitNow, LogNow, SavedAfter, NextAfter, RememberedAfter, MayElect;
  }

  lemma VoteSentStays(c: Cluster, ev: Event, t: Node, n: Addr, term: int)
    requires NodeOf(ev) in c.nodes && VoteSent(c, n, term)
    ensures VoteSent(After(c, ev, t), n, term)
  {
    hide Record, Mailed;
    var l :| l in c.net && IsGrant(l.msg) && l.msg.from == n && l.msg.term == term;
    assert l in After(c, ev, t).net;
  }

  lemma VoteSentNow(c: Cluster, ev: Event, t: Node, m: Msg)
    requires NodeOf(ev) in c.nodes && InputOf(ev) == Receive(m)
    requires Packet(m.from, RespVote(true, m.term, m.lsn, NodeOf(ev))) in t.outbox
    ensures VoteSent(After(c, ev, t), NodeOf(ev), m.term)
  {
    hide Record;
    var l := Wrap(Packet(m.from, RespVote(true, m.term, m.lsn, NodeOf(ev))), InputOf(ev));
    assert l in After(c, ev, t).net;
  }

  lemma NoVoteYet(c: Cluster, v: Addr)
    requires Init(c) && v in c.config && v in c.nodes
    ensures !c.nodes[v].voted
  {
  }

  /** A follower that counts as having voted in its term has given that vote: none is withheld for nothing. */
  lemma {:induction false} VotedMeansGiven(r: Run, i: nat, v: Addr)
    requires IsRun(r) && i < |r.states| && v in r.states[i].config
    ensures v in r.states[i].nodes
    ensures var s := r.states[i].nodes[v]; s.role == Follower && s.voted ==> VoteSent(r.states[i], v, s.term)
  {
    hide IsRun, Handle, Account, NodeInv, InputShape, After, Enabled, VoteSent, Init, GivesVote;
    FirstState(r);
    ServerThere(r, i, v);
    if i == 0 {
      NoVoteYet(r.states[0], v);
    } else {
      EventAccount(r, i - 1);
      VotedMeansGiven(r, i - 1, v);
      var c, ev, t := r.states[i - 1], r.events[i - 1], Outcome(r, i - 1);
      if v != NodeOf(ev) {
        OthersStay(r, i - 1, v);
      }
      if VoteSent(c, v, r.states[i].nodes[v].term) {
        VoteSentStays(c, ev, t, v, r.states[i].nodes[v].term);
      } else if v == NodeOf(ev) && t.role == Follower && t.voted {
        VoteNow(c, ev, t);
      }
    }
  }

  lemma VoteNow(c: Cluster, ev: Event, t: Node)
    requires NodeOf(ev) in c.nodes && Mover(c, ev).self == NodeOf(ev) && Account(Mover(c, ev), InputOf(ev), t)
    requires t.role == Follower && t.voted
    ensures (Mover(c, ev).role == Follower && Mover(c, ev).voted && Mover(c, ev).term == t.term)
         || VoteSent(After(c, ev, t), NodeOf(ev), t.term)
  {
    hide Account, After, VoteSent;
    VotedBy(Mover(c, ev), InputOf(ev), t);
    if GivesVote(Mover(c, ev), InputOf(ev)) {
      BallotLeaves(Mover(c, ev), InputOf(ev).msg, t);
      VoteSentNow(c, ev, t, InputOf(ev).msg);
    }
  }
}
