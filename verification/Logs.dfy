/** Log matching: under H1 and H2 every log is, up to any of its entries, the log of that entry's primary. */
module Logs {
  import opened RaftTypes
  import opened NodeSpec
  import opened NodeFacts
  import opened NodeSteps
  import opened Cluster
  import opened Basics
  import opened Election

  /** The first n entries of both logs exist and are the same. */
  ghost predicate Agree(a: seq<Entry>, b: seq<Entry>, n: int) {
    n <= |a| && n <= |b| && forall k :: 0 <= k < n ==> a[k] == b[k]
  }

  ghost predicate CoherentAt(log: seq<Entry>, plog: map<int, seq<Entry>>, i: int)
    requires 0 <= i < |log|
  {
    log[i].term in plog && Agree(log, plog[log[i].term], i + 1)
  }

  ghost predicate Coherent(log: seq<Entry>, plog: map<int, seq<Entry>>) {
    forall i :: 0 <= i < |log| ==> CoherentAt(log, plog, i)
  }

  /** The AE is a window onto the log. */
  ghost predicate AeFits(m: Msg, log: seq<Entry>)
    requires m.AppendEntry?
  {
    && -1 <= m.prelogIndex
    && m.prelogIndex + 1 + |m.entries| <= |log|
    && (m.prelogIndex >= 0 ==> log[m.prelogIndex].term == m.prelogTerm)
    && (m.entries != [] ==> log[m.prelogIndex + 1] == m.entries[0])
  }

  ghost predicate Grows(a: map<int, seq<Entry>>, b: map<int, seq<Entry>>) {
    forall term :: term in a ==> term in b && a[term] <= b[term]
  }

  ghost predicate PrimariesLogged(c: Cluster)
    requires NodesOk(c)
  {
    && (forall n, term :: (n, term) in c.hist.wins ==> term in c.hist.plog)
    && (forall term :: term in c.hist.plog ==> exists n :: (n, term) in c.hist.wins)
    && (forall n :: n in c.config && c.nodes[n].role == Primary ==>
          c.nodes[n].term in c.hist.plog && c.hist.plog[c.nodes[n].term] == c.nodes[n].log)
  }

  ghost predicate LogsCoherent(c: Cluster)
    requires NodesOk(c)
  {
    && (forall term :: term in c.hist.plog ==> Coherent(c.hist.plog[term], c.hist.plog))
    && (forall n :: n in c.config ==> Coherent(c.nodes[n].log, c.hist.plog))
  }

  ghost predicate AeKnown(c: Cluster, l: Letter) {
    l.msg.AppendEntry? ==>
      && (l.msg.from, l.msg.term) in c.hist.wins
      && l.msg.term in c.hist.plog && AeFits(l.msg, c.hist.plog[l.msg.term])
  }

  ghost predicate AesKnown(c: Cluster) {
    forall l :: l in c.net ==> AeKnown(c, l)
  }

  ghost predicate LogInv(c: Cluster) {
    BasicInv(c) && VoteInv(c) && AllSingle(c) && PrimariesLogged(c) && LogsCoherent(c) && AesKnown(c)
  }

  // ----- sequences

  lemma CoherentGrows(log: seq<Entry>, a: map<int, seq<Entry>>, b: map<int, seq<Entry>>)
    requires Coherent(log, a) && Grows(a, b)
    ensures Coherent(log, b)
  {
    forall i | 0 <= i < |log| ensures CoherentAt(log, b, i) {
      assert CoherentAt(log, a, i);
    }
  }

  lemma CoherentPrefix(log: seq<Entry>, whole: seq<Entry>, plog: map<int, seq<Entry>>)
    requires Coherent(whole, plog) && Agree(log, whole, |log|)
    ensures Coherent(log, plog)
  {
    forall i | 0 <= i < |log| ensures CoherentAt(log, plog, i) {
      assert CoherentAt(whole, plog, i);
    }
  }

  /** An accepted AE leaves the follower's log equal to the primary's up to the last entry it carried. */
  lemma AcceptedAgrees(log: seq<Entry>, m: Msg, plog: map<int, seq<Entry>>)
    requires m.AppendEntry? && m.term in plog && AeFits(m, plog[m.term]) && Matches(log, m)
    requires |m.entries| <= 1
    requires Coherent(log, plog) && Coherent(plog[m.term], plog)
    ensures Agree(LogAfter(log, m), plog[m.term], m.prelogIndex + 1 + |m.entries|)
    ensures Coherent(LogAfter(log, m), plog)
  {
    var p, whole := m.prelogIndex, plog[m.term];
    if p >= 0 {
      assert CoherentAt(log, plog, p) && CoherentAt(whole, plog, p);
    }
    assert Agree(log, whole, p + 1);
    if m.entries != [] {
      CoherentPrefix(LogAfter(log, m), whole, plog);
    }
  }

  // ----- one step

  /** H2 at one step: a client command reaches only a primary. */
  ghost predicate CommandAtPrimary(c: Cluster, ev: Event)
    requires NodeOf(ev) in c.nodes
  {
    InputOf(ev).Command? ==> Mover(c, ev).role == Primary
  }

  ghost predicate H2(r: Run)
    requires IsRun(r)
  {
    forall i {:trigger IsStep(r.states[i], r.events[i], r.states[i + 1])} ::
      0 <= i < |r.events| && IsStep(r.states[i], r.events[i], r.states[i + 1]) ==>
        CommandAtPrimary(r.states[i], r.events[i])
  }

  /** A step of a run under H1 and H2; what is not about logs is already known of the state after it. */
  ghost predicate Logging(c: Cluster, ev: Event, t: Node) {
    && LogInv(c) && Enabled(c, ev) && CommandAtPrimary(c, ev)
    && StepFacts(Mover(c, ev), InputOf(ev), t)
    && BasicInv(After(c, ev, t)) && VoteInv(After(c, ev, t)) && AllSingle(After(c, ev, t))
  }

  lemma NoWinnerYet(c: Cluster, ev: Event, t: Node)
    requires Logging(c, ev, t) && t.role == Primary && Mover(c, ev).role != Primary
    ensures t.term !in c.hist.plog
  {
    hide BasicInv, Tallied, VotesRemembered, SingleUnlessLate, NodeInv, RequestFacts, ReplyFacts, VoteFacts,
         CommitFacts, PrimaryFacts, FaultFacts, LogFacts, AesKnown, LogsCoherent, NetOk;
    var c', n := After(c, ev, t), NodeOf(ev);
    if t.term in c.hist.plog {
      var n0 :| (n0, t.term) in c.hist.wins;
      assert (n0, t.term) in c'.hist.wins && (n, t.term) in c'.hist.wins;
      OneWinner(c', n0, n, t.term);
    }
  }

  /** A primary's log moves only by its client commands. */
  lemma PrimaryLog(c: Cluster, ev: Event, t: Node)
    requires Logging(c, ev, t) && t.role == Primary && Mover(c, ev).role == Primary
    ensures t.term == Mover(c, ev).term && c.hist.plog[t.term] == Mover(c, ev).log <= t.log
    ensures t.term in c.hist.plog
  {
    hide NodeInv, VoteInv, Requests, Replies, NetOk, AllSingle, LogsCoherent, AesKnown;
  }

  lemma PlogGrows(c: Cluster, ev: Event, t: Node)
    requires Logging(c, ev, t)
    ensures Grows(c.hist.plog, After(c, ev, t).hist.plog)
  {
    hide LogInv, StepFacts, BasicInv, VoteInv, AllSingle, Offered;
    if t.role == Primary {
      if Mover(c, ev).role == Primary {
        PrimaryLog(c, ev, t);
      } else {
        NoWinnerYet(c, ev, t);
      }
    }
  }

  lemma OnlyPrimary(c: Cluster, ev: Event, t: Node, v: Addr)
    requires Logging(c, ev, t) && t.role == Primary && v in c.config && v != NodeOf(ev)
    ensures !(c.nodes[v].role == Primary && c.nodes[v].term == t.term)
  {
    hide BasicInv, StepFacts, NodeInv, Tallied, VotesRemembered, SingleUnlessLate, AesKnown, LogsCoherent, NetOk;
    var c', n := After(c, ev, t), NodeOf(ev);
    if c.nodes[v].role == Primary && c.nodes[v].term == t.term {
      assert (v, t.term) in c'.hist.wins && (n, t.term) in c'.hist.wins;
      OneWinner(c', v, n, t.term);
    }
  }

  lemma LoggingParts(c: Cluster, ev: Event, t: Node)
    requires Logging(c, ev, t)
    ensures NodeOf(ev) in c.config && NodeOf(ev) in c.nodes && t.self == NodeOf(ev) && t.config == c.config
    ensures NodesOk(c) && NodesOk(After(c, ev, t)) && PrimariesLogged(c) && LogsCoherent(c) && AesKnown(c)
    ensures NodeInv(t)
  {
    hide NodeInv, Requests, Replies, AesKnown, LogsCoherent, PrimariesLogged, AllSingle, VoteInv;
  }

  lemma PrimaryLoggedKept(c: Cluster, ev: Event, t: Node, v: Addr)
    requires Logging(c, ev, t) && v in c.config && After(c, ev, t).nodes[v].role == Primary
    ensures var c' := After(c, ev, t);
            c'.nodes[v].term in c'.hist.plog && c'.hist.plog[c'.nodes[v].term] == c'.nodes[v].log
  {
    hide Logging, LogsCoherent, AesKnown, NodeInv, Reachable;
    LoggingParts(c, ev, t);
    var c' := After(c, ev, t);
    if v == NodeOf(ev) {
      assert c'.nodes[v] == t.(outbox := []);
    } else {
      assert c'.nodes[v] == c.nodes[v];
      if t.role == Primary {
        OnlyPrimary(c, ev, t, v);
      }
    }
  }

  lemma LoggedHasPrimary(c: Cluster, ev: Event, t: Node, term: int)
    requires Logging(c, ev, t) && term in After(c, ev, t).hist.plog
    ensures exists w :: (w, term) in After(c, ev, t).hist.wins
  {
    hide Logging, LogsCoherent, AesKnown, NodeInv, Reachable;
    LoggingParts(c, ev, t);
    var c' := After(c, ev, t);
    if term in c.hist.plog {
      var w :| (w, term) in c.hist.wins;
      assert (w, term) in c'.hist.wins;
    } else {
      assert (NodeOf(ev), term) in c'.hist.wins;
    }
  }

  lemma PrimariesLoggedKept(c: Cluster, ev: Event, t: Node)
    requires Logging(c, ev, t)
    ensures PrimariesLogged(After(c, ev, t))
  {
    hide Logging, LogsCoherent, AesKnown, NodeInv, Reachable;
    LoggingParts(c, ev, t);
    var c' := After(c, ev, t);
    forall v | v in c.config && c'.nodes[v].role == Primary
      ensures c'.nodes[v].term in c'.hist.plog && c'.hist.plog[c'.nodes[v].term] == c'.nodes[v].log
    {
      PrimaryLoggedKept(c, ev, t, v);
    }
    forall term | term in c'.hist.plog ensures exists w :: (w, term) in c'.hist.wins {
      LoggedHasPrimary(c, ev, t, term);
    }
  }

  /** The mover's new log is coherent, and what a fitting AE verified agrees with the primary of that term. */
  lemma MoverCoherent(c: Cluster, ev: Event, t: Node)
    requires Logging(c, ev, t)
    ensures Coherent(t.log, After(c, ev, t).hist.plog)
    ensures Accepts(Mover(c, ev), InputOf(ev)) ==>
              && t.term == InputOf(ev).msg.term && t.term in c.hist.plog
              && Agree(t.log, c.hist.plog[t.term], InputOf(ev).msg.prelogIndex + 1 + |InputOf(ev).msg.entries|)
  {
    var s, inp, plog, plog' := Mover(c, ev), InputOf(ev), c.hist.plog, After(c, ev, t).hist.plog;
    PlogGrows(c, ev, t);
    assert Coherent(s.log, plog) && LogFacts(s, inp, t);
    if Accepts(s, inp) {
      var m := ev.letter.msg;
      assert AeKnown(c, ev.letter) && LetterOk(c, ev.letter);
      AcceptedAgrees(s.log, m, plog);
      CoherentGrows(t.log, plog, plog');
    } else {
      CoherentGrows(s.log, plog, plog');
      if inp.Command? {
        CommandCoherent(s.log, t.log, plog');
      }
    }
  }

  lemma CommandCoherent(log: seq<Entry>, log': seq<Entry>, plog: map<int, seq<Entry>>)
    requires Coherent(log, plog) && |log'| == |log| + 1 && log <= log'
    requires log'[|log|].term in plog && plog[log'[|log|].term] == log'
    ensures Coherent(log', plog)
  {
    forall i | 0 <= i < |log'| ensures CoherentAt(log', plog, i) {
      if i < |log| {
        assert CoherentAt(log, plog, i);
      }
    }
  }

  lemma LogsCoherentKept(c: Cluster, ev: Event, t: Node)
    requires Logging(c, ev, t)
    ensures LogsCoherent(After(c, ev, t))
  {
    hide Logging, Coherent, AesKnown, NodeInv, Reachable, Accepts, Grows;
    LoggingParts(c, ev, t);
    PlogGrows(c, ev, t);
    MoverCoherent(c, ev, t);
    var c' := After(c, ev, t);
    forall term | term in c'.hist.plog ensures Coherent(c'.hist.plog[term], c'.hist.plog) {
      if term in c.hist.plog && !(t.role == Primary && term == t.term) {
        CoherentGrows(c.hist.plog[term], c.hist.plog, c'.hist.plog);
      }
    }
    forall n | n in c.config ensures Coherent(c'.nodes[n].log, c'.hist.plog) {
      if n != NodeOf(ev) {
        CoherentGrows(c.nodes[n].log, c.hist.plog, c'.hist.plog);
      }
    }
  }

  lemma LoggingNewRequest(c: Cluster, ev: Event, t: Node, l: Letter)
    requires Logging(c, ev, t)
    requires l in After(c, ev, t).net && l !in c.net && IsRequest(l.msg)
    ensures l == Letter(l.to, RequestFor(t, l.to, At(t.curLsn, l.to) - 1), None) && l.to in c.config
    ensures t.role != Follower
  {
    hide NodesOk, LogsCoherent, AesKnown, PrimariesLogged, Requests, Replies, VoteInv, AllSingle;
    NewRequest(c, ev, t, l);
  }

  lemma NewKnown(c: Cluster, ev: Event, t: Node, l: Letter)
    requires Logging(c, ev, t)
    requires l in After(c, ev, t).net && l !in c.net
    ensures AeKnown(After(c, ev, t), l)
  {
    hide Logging, NodesOk, LogsCoherent, AesKnown, PrimariesLogged, MsgShape;
    LoggingParts(c, ev, t);
    if l.msg.AppendEntry? {
      LoggingNewRequest(c, ev, t, l);
    }
  }

  lemma AesKnownKept(c: Cluster, ev: Event, t: Node)
    requires Logging(c, ev, t)
    ensures AesKnown(After(c, ev, t))
  {
    hide Logging, NodesOk, LogsCoherent, PrimariesLogged, Grows, AeKnown;
    LoggingParts(c, ev, t);
    PlogGrows(c, ev, t);
    var c' := After(c, ev, t);
    forall l | l in c'.net ensures AeKnown(c', l) {
      if l in c.net {
        OldAeKnown(c, c', l);
      } else {
        NewKnown(c, ev, t, l);
      }
    }
  }

  lemma OldAeKnown(c: Cluster, c': Cluster, l: Letter)
    requires l in c.net && AesKnown(c) && Grows(c.hist.plog, c'.hist.plog) && c.hist.wins <= c'.hist.wins
    ensures AeKnown(c', l)
  {
    assert AeKnown(c, l);
  }

  lemma LogInvKept(c: Cluster, ev: Event, t: Node)
    requires Logging(c, ev, t)
    ensures LogInv(After(c, ev, t))
  {
    PrimariesLoggedKept(c, ev, t);
    LogsCoherentKept(c, ev, t);
    AesKnownKept(c, ev, t);
  }

  lemma LogInvInit(c: Cluster)
    requires Init(c)
    ensures LogInv(c)
  {
    BasicInit(c);
    VoteInvInit(c);
  }

  // ----- over whole runs

  lemma VoteInvStep(c: Cluster, ev: Event)
    requires BasicInv(c) && VoteInv(c) && Enabled(c, ev)
    ensures Moves(c, ev, Handle(Mover(c, ev), InputOf(ev))) && VoteInv(Step(c, ev))
  {
    hide VoteInv, NodeInv, RoleFacts, VoteFacts, RequestFacts, ReplyFacts, LogFacts, CommitFacts, PrimaryFacts,
         FaultFacts, Requests, Replies, Handle;
    var t := Handle(Mover(c, ev), InputOf(ev));
    StepOk(c, ev);
    BasicStep(c, ev);
    VoteInvKept(c, ev, t);
  }

  lemma {:induction false} VotesHold(r: Run, i: nat)
    requires IsRun(r) && i < |r.states|
    ensures BasicInv(r.states[i]) && VoteInv(r.states[i])
  {
    hide BasicInv, VoteInv, Init, IsStep, IsRun;
    FirstState(r);
    if i == 0 {
      BasicInit(r.states[0]);
      VoteInvInit(r.states[0]);
    } else {
      VotesHold(r, i - 1);
      StepAt(r, i - 1);
      VotesStep(r.states[i - 1], r.events[i - 1], r.states[i]);
    }
  }

  lemma VotesStep(c: Cluster, ev: Event, c': Cluster)
    requires BasicInv(c) && VoteInv(c) && IsStep(c, ev, c')
    ensures BasicInv(c') && VoteInv(c')
  {
    hide BasicInv, VoteInv, Enabled, Step;
    BasicStep(c, ev);
    VoteInvStep(c, ev);
  }

  lemma SinglesStep(c: Cluster, ev: Event)
    requires BasicInv(c) && VoteInv(c) && AllSingle(c) && Enabled(c, ev)
    requires NoLateGrant(c, ev, Handle(Mover(c, ev), InputOf(ev)))
    ensures AllSingle(Step(c, ev))
  {
    hide AllSingle, BasicInv, Handle, NoLateGrant, Moves, RolesRecorded, VotesRemembered, SingleUnlessLate, Tallied;
    VoteInvStep(c, ev);
    AllSingleKept(c, ev, Handle(Mover(c, ev), InputOf(ev)));
  }

  lemma {:induction false} SinglesHold(r: Run, i: nat)
    requires IsRun(r) && H1(r) && i < |r.states|
    ensures AllSingle(r.states[i])
  {
    hide AllSingle, BasicInv, VoteInv, Handle, NoLateGrant, Enabled, Step, Init;
    if i == 0 {
      VoteInvInit(r.states[0]);
      assert AllSingle(r.states[0]) by {
        InitSingle(r.states[0]);
      }
    } else {
      SinglesHold(r, i - 1);
      VotesHold(r, i - 1);
      StepAt(r, i - 1);
      SinglesStep(r.states[i - 1], r.events[i - 1]);
    }
  }

  lemma InitSingle(c: Cluster)
    requires Init(c)
    ensures AllSingle(c)
  {
  }

  ghost predicate LoggingAt(r: Run, i: nat) {
    i < |r.events| && i < |r.states| && NodeOf(r.events[i]) in r.states[i].nodes
    && Logging(r.states[i], r.events[i], Handle(Mover(r.states[i], r.events[i]), InputOf(r.events[i])))
  }

  lemma {:induction false} LogsHold(r: Run, i: nat)
    requires IsRun(r) && H1(r) && H2(r) && i < |r.states|
    ensures LogInv(r.states[i])
    ensures i < |r.events| ==> LoggingAt(r, i)
  {
    hide AllSingle, BasicInv, VoteInv, Handle, NoLateGrant, H1, Offered, After, Init, LogInv, Logging;
    if i == 0 {
      LogInvInit(r.states[0]);
    } else {
      LogsHold(r, i - 1);
      StepAt(r, i - 1);
      LogInvKept(r.states[i - 1], r.events[i - 1], Handle(Mover(r.states[i - 1], r.events[i - 1]), InputOf(r.events[i - 1])));
    }
    if i < |r.events| {
      SinglesHold(r, i + 1);
      VotesHold(r, i + 1);
      StepAt(r, i);
      assert CommandAtPrimary(r.states[i], r.events[i]);
      LoggingHere(r.states[i], r.events[i]);
    }
  }

  lemma LoggingHere(c: Cluster, ev: Event)
    requires LogInv(c) && Enabled(c, ev) && CommandAtPrimary(c, ev)
    requires BasicInv(Step(c, ev)) && VoteInv(Step(c, ev)) && AllSingle(Step(c, ev))
    ensures Logging(c, ev, Handle(Mover(c, ev), InputOf(ev)))
  {
    hide AllSingle, VoteInv, StepFacts, NodeInv, Requests, Replies, Handle, PrimariesLogged, LogsCoherent, AesKnown;
    StepOk(c, ev);
  }
}
