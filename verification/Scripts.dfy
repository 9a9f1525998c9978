/** Building blocks of concrete runs: one event at a time, with what it does to the two servers involved and to
    each hypothesis. */
module Scripts {
  import opened RaftTypes
  import opened OrderStatistic
  import opened ApplyControl
  import opened NodeSpec
  import opened NodeFacts
  import opened NodeSteps
  import opened Cluster
  import opened Basics
  import opened Election
  import opened Logs
  import opened Retention
  import opened Completeness

  // ----- single steps of a server

  /** The RV of an election in its first round. */
  function FirstRv(n: Node, term: int): Msg {
    RequestVote(term, |n.log| - 1, 0, 0, n.self)
  }

  lemma StandStep(s: Node)
    requires Idle(s) && s.role != Primary && s.self in s.config
    ensures var t := Handle(s, ElectionTimeout);
            && t == s.(term := s.term + 1, role := Candidate, votes := 1, curLsn := t.curLsn, folLsn := t.folLsn,
                       outbox := t.outbox)
            && (forall p :: p in t.outbox ==> IsRequest(p.msg))
            && forall v :: v in s.config && v != s.self ==>
                 Packet(v, FirstRv(s, t.term)) in t.outbox && At(t.curLsn, v) == 1
  {
    hide AskAll;
    var s1 := ResetBothLsn(s).(term := s.term + 1, role := Candidate, votes := 1);
    AskAllBroadcasts(s1, s.config);
    AskedEach(s, s1);
  }

  lemma AskedEach(s: Node, s1: Node)
    requires s.self in s.config && s1 == ResetBothLsn(s).(term := s.term + 1, role := Candidate, votes := 1)
    requires s.outbox == [] && Broadcast(s1, AskAll(s1, s.config), s.config)
    ensures var t := AskAll(s1, s.config);
            && (forall p :: p in t.outbox ==> IsRequest(p.msg))
            && forall v :: v in s.config && v != s.self ==> Packet(v, FirstRv(s, s1.term)) in t.outbox
  {
    hide AskAll;
    forall v | v in s.config && v != s.self ensures Packet(v, FirstRv(s, s1.term)) in AskAll(s1, s.config).outbox {
      assert IsBroadcastTo(s1, s.config, Packet(v, FirstRv(s, s1.term)));
    }
    forall p | p in AskAll(s1, s.config).outbox ensures IsRequest(p.msg) {
      assert IsBroadcastTo(s1, s.config, p);
    }
  }

  /** v has a vote left for n in the term. */
  predicate Willing(v: Node, n: Addr, term: int) {
    && (v.term < term || (v.term == term && v.role == Follower && !v.voted && At(v.folLsn, n) < 0))
    && (v.log == [] || v.log[|v.log| - 1].term < term)
  }

  /** From s to t the node remembers the lsn of n, and a newer term forgot all others. */
  ghost predicate Heard(s: Node, t: Node, n: Addr, term: int, lsn: int) {
    && At(t.folLsn, n) == lsn
    && forall w :: w in s.config && w != n ==> At(t.folLsn, w) == if s.term < term then -1 else At(s.folLsn, w)
  }

  lemma YieldedHears(v: Node, s1: Node, m: Msg)
    requires v.term <= m.term && m.from in v.config && 0 <= m.lsn
    requires v.term < m.term || At(v.folLsn, m.from) < m.lsn
    requires if v.term < m.term then s1.folLsn == v.folLsn + Constant(v.config, -1) else s1.folLsn == v.folLsn
    ensures !ShouldIgnore(s1, m.from, m.lsn)
    ensures forall t: Node :: t.folLsn == s1.folLsn[m.from := m.lsn] ==> Heard(v, t, m.from, m.term, m.lsn)
  {
  }

  lemma BallotGrants(s: Node, m: Msg)
    requires m.RequestVote? && s.role == Follower && !s.voted && (s.log == [] || s.log[|s.log| - 1].term < m.term)
    ensures Ballot(s, m) == Send(s, m.from, RespVote(true, s.term, m.lsn, s.self)).(voted := true)
  {
  }

  lemma VoteStep(v: Node, m: Msg)
    requires Idle(v) && m.RequestVote? && m.lsn == 0 && Willing(v, m.from, m.term)
    requires m.from in v.config
    ensures var t := Handle(v, Receive(m));
            && t == v.(term := m.term, role := Follower, voted := true, votes := t.votes, curLsn := t.curLsn,
                       folLsn := t.folLsn, outbox := [Packet(m.from, RespVote(true, m.term, 0, v.self))])
            && Heard(v, t, m.from, m.term, 0)
  {
    hide Trans2F, Heard, Ballot, ShouldIgnore;
    if v.term < m.term {
      Trans2FYields(v, m.term);
    }
    var s1 := if v.term < m.term then Trans2F(v, m.term) else v;
    YieldedHears(v, s1, m);
    BallotGrants(Remember(s1, m.from, m.lsn), m);
  }

  lemma WinStep(s: Node, g: Msg)
    requires Idle(s) && s.role == Candidate && s.self in s.config && s.votes == 1 && Majority(s.config) == 2
    requires g.RespVote? && g.ok && g.term == s.term && At(s.curLsn, g.from) == g.lsn + 1
    ensures var t := Handle(s, Receive(g));
            && t == s.(role := Primary, votes := 2, curLsn := t.curLsn, outbox := t.outbox,
                       next := Constant(s.config, |s.log|), saved := Constant(s.config, -1)[s.self := |s.log| - 1])
            && (forall p :: p in t.outbox ==> IsRequest(p.msg))
            && forall v :: v in s.config && v != s.self ==>
                 && At(t.curLsn, v) == At(s.curLsn, v) + 1
                 && Packet(v, AeFor(t, v, At(s.curLsn, v))) in t.outbox
  {
    hide AppendAll, Majority, Constant, AeFor, DistinctPorts;
    var size := |s.log|;
    var s1 := s.(role := Primary, votes := 2, next := Constant(s.config, size),
                 saved := Constant(s.config, -1)[s.self := size - 1]);
    assert Handle(s, Receive(g)) == AppendAll(s1, s.config);
    WinBroadcast(s1);
    forall v | v in s.config && v != s.self
      ensures AeFor(AppendAll(s1, s.config), v, At(s.curLsn, v)) == AeFor(s1, v, At(s.curLsn, v))
    {
      SentAe(s1, AppendAll(s1, s.config), v, At(s.curLsn, v));
    }
  }

  lemma SentAe(s: Node, t: Node, v: Addr, lsn: int)
    requires t == s.(curLsn := t.curLsn, outbox := t.outbox)
    ensures AeFor(t, v, lsn) == AeFor(s, v, lsn)
  {
  }

  lemma WinBroadcast(s: Node)
    requires Idle(s) && s.role == Primary && s.self in s.config && s.next == Constant(s.config, |s.log|)
    ensures var t := AppendAll(s, s.config);
            && t == s.(curLsn := t.curLsn, outbox := t.outbox)
            && (forall p :: p in t.outbox ==> IsRequest(p.msg))
            && forall v :: v in s.config && v != s.self ==>
                 At(t.curLsn, v) == At(s.curLsn, v) + 1 && Packet(v, AeFor(s, v, At(s.curLsn, v))) in t.outbox
  {
    hide AppendAll, AeFor;
    AppendAllBroadcasts(s, s.config);
    forall v | v in s.config && v != s.self
      ensures Packet(v, AeFor(s, v, At(s.curLsn, v))) in AppendAll(s, s.config).outbox
    {
      assert IsBroadcastTo(s, s.config, Packet(v, AeFor(s, v, At(s.curLsn, v))));
    }
    forall p | p in AppendAll(s, s.config).outbox ensures IsRequest(p.msg) {
      assert IsBroadcastTo(s, s.config, p);
      AeIsRequest(s, p.to, At(s.curLsn, p.to));
    }
  }

  /** The commit index a follower takes from an AE it accepts. */
  function CommitAfter(s: Node, m: Msg): int
    requires m.AppendEntry?
  {
    var size := |LogAfter(s.log, m)|;
    if size - 1 < m.commitIndex then size - 1 else m.commitIndex
  }

  lemma AcceptStep(v: Node, m: Msg)
    requires NodeInv(v) && Idle(v) && InputShape(v, Receive(m)) && m.AppendEntry? && Accepts(v, Receive(m))
    requires v.commit <= CommitAfter(v, m)
    ensures var t := Handle(v, Receive(m));
            && t == v.(term := m.term, role := Follower, voted := false, votes := 0, curLsn := t.curLsn,
                       folLsn := t.folLsn, log := LogAfter(v.log, m), commit := CommitAfter(v, m), ctl := t.ctl,
                       outbox := [Packet(m.from, RespAppend(true, m.term, m.lsn, v.self, m.entries == []))])
            && Heard(v, t, m.from, m.term, m.lsn) && (t.commit == v.commit ==> t.ctl == v.ctl)
  {
    hide Trans2F, TakeEntries, Heard, NodeInv, HandsOver, InOrder;
    Trans2FYields(v, m.term);
    var s1 := Trans2F(v, m.term);
    YieldedHears(v, s1, m);
    TakeEntriesAccepts(v, m, s1);
  }

  lemma DeclineStep(v: Node, m: Msg)
    requires Idle(v) && m.AppendEntry? && Heeds(v, Receive(m)) && !Matches(v.log, m) && 0 <= m.prelogIndex
    requires |m.entries| <= 1 && m.from in v.config && 0 <= m.lsn
    ensures var t := Handle(v, Receive(m));
            && t == v.(term := m.term, role := Follower, voted := false, votes := 0, curLsn := t.curLsn,
                       folLsn := t.folLsn,
                       outbox := [Packet(m.from, RespAppend(false, m.term, m.lsn, v.self, m.entries == []))])
            && Heard(v, t, m.from, m.term, m.lsn)
  {
    hide Trans2F, Heard;
    Trans2FYields(v, m.term);
    YieldedHears(v, Trans2F(v, m.term), m);
  }

  lemma RefuseStep(v: Node, m: Msg)
    requires Idle(v) && m.AppendEntry? && |m.entries| <= 1 && m.term < v.term
    ensures Handle(v, Receive(m)) ==
            v.(outbox := [Packet(m.from, RespAppend(false, v.term, m.lsn, v.self, m.entries == []))])
  {
  }

  /** An accepted AE that would lower the commit index throws. */
  lemma ThrowStep(v: Node, m: Msg)
    requires NodeInv(v) && Idle(v) && InputShape(v, Receive(m)) && m.AppendEntry? && Accepts(v, Receive(m))
    requires CommitAfter(v, m) < v.commit
    ensures var t := Handle(v, Receive(m)); t.fault == Some(CommitDecreased) && t.outbox == []
  {
    hide Trans2F, TakeEntries, Heard, NodeInv, HandsOver, InOrder;
    Trans2FYields(v, m.term);
    var s1 := Trans2F(v, m.term);
    YieldedHears(v, s1, m);
    TakeEntriesAccepts(v, m, s1);
  }

  lemma StepBackStep(s: Node, m: Msg)
    requires Idle(s) && Refused(s, Receive(m)) && 0 < At(s.next, m.from) <= |s.log| + 1
    ensures var t, v := Handle(s, Receive(m)), m.from;
            var s1 := s.(next := s.next[v := At(s.next, v) - 1]);
            && t == s1.(curLsn := t.curLsn, outbox := [Packet(v, AeFor(s1, v, At(s.curLsn, v)))])
            && At(t.curLsn, v) == At(s.curLsn, v) + 1
  {
  }

  /** The primary after it counted the ok of v for the entry at next[v], but for the AE it then sends. */
  function CountedFor(s: Node, v: Addr): Node {
    var last := At(s.next, v);
    var saved := s.saved[v := last];
    var k := CommitRule(saved, s.config);
    s.(next := s.next[v := last + 1], saved := saved, commit := k, ctl := Update(s.ctl, s.log, k))
  }

  lemma CountStep(s: Node, m: Msg)
    requires NodeInv(s) && Idle(s) && InputShape(s, Receive(m)) && Acked(s, Receive(m)) && Advances(s, m)
    ensures var t, s1 := Handle(s, Receive(m)), CountedFor(s, m.from);
            && t == s1.(curLsn := t.curLsn, outbox := [Packet(m.from, AeFor(s1, m.from, At(s.curLsn, m.from)))])
            && At(t.curLsn, m.from) == At(s.curLsn, m.from) + 1
  {
    hide CommitRule, AeFor, Update, LogShape, LsnInv, InOrder, HandsOver;
    var v, last := m.from, At(s.next, m.from);
    var s0 := s.(next := s.next[v := last + 1]);
    PrimaryCommitFacts(s0, v, last);
    assert PrimaryCommit(s0, v, last) == CountedFor(s, v);
  }

  // ----- runs

  function Last(r: Run): Cluster
    requires |r.states| > 0
  {
    r.states[|r.states| - 1]
  }

  function Begin(config: Config): Cluster {
    Cluster(config, map v | v in config :: NewNode(v, config), {}, {},
            History(map[], {}, map[], {}, {}, {}, {}, {}, {}, map[], map[]))
  }

  lemma BeginRun(config: Config) returns (r: Run)
    ensures IsRun(r) && r.states != [] && Last(r) == Begin(config) && AllHold(r)
  {
    r := Run([Begin(config)], []);
  }

  ghost predicate AllHold(r: Run)
    requires IsRun(r)
  {
    H1(r) && H2(r) && H3(r) && H4(r) && H5(r)
  }

  /** Of the five hypotheses the k-th fails, and no other does. */
  ghost predicate AllHoldBut(r: Run, k: int)
    requires IsRun(r)
  {
    1 <= k <= 5 && (H1(r) <==> k != 1) && (H2(r) <==> k != 2) && (H3(r) <==> k != 3) && (H4(r) <==> k != 4)
    && (H5(r) <==> k != 5)
  }

  /** From r to r' each hypothesis stays true if and only if its k does. */
  ghost predicate Adds(r: Run, r': Run, k1: bool, k2: bool, k3: bool, k4: bool, k5: bool)
    requires IsRun(r) && IsRun(r')
  {
    && (H1(r') <==> H1(r) && k1) && (H2(r') <==> H2(r) && k2) && (H3(r') <==> H3(r) && k3)
    && (H4(r') <==> H4(r) && k4) && (H5(r') <==> H5(r) && k5)
  }

  ghost predicate AddsNothing(r: Run, r': Run)
    requires IsRun(r) && IsRun(r')
  {
    Adds(r, r', true, true, true, true, true)
  }

  /** r' is r and one more event. */
  ghost predicate OneLonger(r: Run, r': Run) {
    && |r.states| == |r.events| + 1 && |r'.states| == |r.states| + 1 && |r'.events| == |r.events| + 1
    && (forall i :: 0 <= i < |r.events| ==> r'.events[i] == r.events[i])
    && (forall i :: 0 <= i < |r.states| ==> r'.states[i] == r.states[i])
    && IsStep(r'.states[|r.events|], r'.events[|r.events|], r'.states[|r.events| + 1])
  }

  /** One more event, and exactly when it keeps the hypotheses. */
  lemma Extend(r: Run, ev: Event, t: Node) returns (r': Run)
    requires IsRun(r) && r.states != [] && Enabled(Last(r), ev) && t == Handle(Mover(Last(r), ev), InputOf(ev))
    ensures IsRun(r') && r'.states != [] && Last(r') == After(Last(r), ev, t) && OneLonger(r, r')
    ensures r'.events[|r.events|] == ev
    ensures var c := Last(r);
            Adds(r, r', NoLateGrant(c, ev, t), CommandAtPrimary(c, ev), OwnAnswer(c, ev), UpToDateGrant(c, ev, t),
                 OwnTermCommit(c, ev, t))
  {
    hide Handle, After, Offered, Init, OwnAnswer, CommandAtPrimary, NoLateGrant, UpToDateGrant, OwnTermCommit;
    var c' := After(Last(r), ev, t);
    StepIsAfter(Last(r), ev, t);
    r' := Run(r.states + [c'], r.events + [ev]);
    Longer(r, r');
    Hypotheses(r, r');
  }

  lemma StepIsAfter(c: Cluster, ev: Event, t: Node)
    requires Enabled(c, ev) && t == Handle(Mover(c, ev), InputOf(ev))
    ensures IsStep(c, ev, After(c, ev, t))
  {
    hide Handle;
  }

  lemma Longer(r: Run, r': Run)
    requires IsRun(r) && r.states != [] && |r'.states| == |r.states| + 1 && |r'.events| == |r.events| + 1
    requires r.states <= r'.states && r.events <= r'.events
    requires IsStep(r'.states[|r.events|], r'.events[|r.events|], r'.states[|r.events| + 1])
    ensures IsRun(r') && OneLonger(r, r')
  {
    hide IsStep, Init;
  }

  lemma Hypotheses(r: Run, r': Run)
    requires IsRun(r) && IsRun(r') && OneLonger(r, r')
    ensures NodeOf(r'.events[|r.events|]) in r.states[|r.events|].nodes
    ensures var c, ev := r.states[|r.events|], r'.events[|r.events|];
            var t := Handle(Mover(c, ev), InputOf(ev));
            Adds(r, r', NoLateGrant(c, ev, t), CommandAtPrimary(c, ev), OwnAnswer(c, ev), UpToDateGrant(c, ev, t),
                 OwnTermCommit(c, ev, t))
  {
    hide OwnAnswer, CommandAtPrimary, NoLateGrant, UpToDateGrant, OwnTermCommit, IsStep, Init, Handle;
    var n := |r.events|;
    StepMover(r'.states[n], r'.events[n], r'.states[n + 1]);
    forall i | 0 <= i < n ensures IsStep(r.states[i], r.events[i], r.states[i + 1]) {
      StepAt(r, i);
    }
    assert forall i :: 0 <= i <= n ==> r'.events[i] == if i < n then r.events[i] else r'.events[n];
    assert forall i :: 0 <= i < n ==> IsStep(r'.states[i], r'.events[i], r'.states[i + 1]);
  }

  lemma StepMover(c: Cluster, ev: Event, c': Cluster)
    requires IsStep(c, ev, c')
    ensures NodeOf(ev) in c.nodes
  {
  }

  /** n and v are running servers of c. */
  ghost predicate Pair(c: Cluster, n: Addr, v: Addr) {
    && n != v && n in c.config && v in c.config && Majority(c.config) == 2
    && n in c.nodes && v in c.nodes
    && c.nodes[n].self == n && c.nodes[v].self == v && c.nodes[n].config == c.nodes[v].config == c.config
    && Idle(c.nodes[n]) && Idle(c.nodes[v])
  }

  ghost predicate Keep<K, V>(a: map<K, V>, b: map<K, V>) {
    forall k :: k in a ==> k in b && b[k] == a[k]
  }

  /** From c to c' only the nodes in `moved` moved; the network and the history may have grown. */
  ghost predicate Later(c: Cluster, c': Cluster, moved: set<Addr>) {
    && c'.config == c.config && c'.nodes.Keys == c.nodes.Keys
    && (forall w :: w in c.nodes && w !in moved ==> c'.nodes[w] == c.nodes[w])
    && c.net <= c'.net && c.hist.wins <= c'.hist.wins && c.hist.handed <= c'.hist.handed
    && Keep(c.hist.stood, c'.hist.stood)
  }

  lemma MailHas(c: Cluster, ev: Event, t: Node, p: Packet)
    requires NodeOf(ev) in c.nodes && p in t.outbox
    ensures Wrap(p, InputOf(ev)) in After(c, ev, t).net
  {
  }

  lemma AfterLater(c: Cluster, ev: Event, t: Node)
    requires NodeOf(ev) in c.nodes
    requires t.role == Candidate && (NodeOf(ev), t.term) !in c.hist.cands ==> (NodeOf(ev), t.term) !in c.hist.stood
    ensures Later(c, After(c, ev, t), {NodeOf(ev)}) && After(c, ev, t).nodes[NodeOf(ev)] == t.(outbox := [])
  {
  }

  /** What the step records, apart from what the mover says itself. */
  lemma AfterRecords(c: Cluster, ev: Event, t: Node)
    requires NodeOf(ev) in c.nodes
    ensures var s, c' := c.nodes[NodeOf(ev)], After(c, ev, t);
            && c'.hist.late == c.hist.late + (if SameTermAe(s, InputOf(ev)) then {(NodeOf(ev), s.term)} else {})
            && c'.spent == c.spent + (if ev.Deliver? && IsGrant(ev.letter.msg) then {ev.letter} else {})
            && (t.role == Primary ==> (NodeOf(ev), t.term) in c'.hist.wins)
            && HandedNow(s, t) <= c'.hist.handed
  {
    hide HandedNow, Mailed;
  }

  lemma StoodRecorded(c: Cluster, ev: Event, t: Node)
    requires NodeOf(ev) in c.nodes && t.role == Candidate && (NodeOf(ev), t.term) !in c.hist.cands
    ensures var h := After(c, ev, t).hist;
            (NodeOf(ev), t.term) in h.stood && h.stood[(NodeOf(ev), t.term)] == t.log
  {
    hide HandedNow, Mailed, Accepts, SameTermAe, CountsBallot;
  }

  lemma LaterTwice(c: Cluster, c1: Cluster, c2: Cluster, a: set<Addr>, b: set<Addr>)
    requires Later(c, c1, a) && Later(c1, c2, b)
    ensures Later(c, c2, a + b)
  {
  }

  lemma LaterNode(c: Cluster, c': Cluster, moved: set<Addr>, w: Addr)
    requires Later(c, c', moved) && w in c.nodes && w !in moved
    ensures w in c'.nodes && c'.nodes[w] == c.nodes[w]
  {
  }

  lemma LaterParts(c: Cluster, c': Cluster, moved: set<Addr>)
    requires Later(c, c', moved)
    ensures c'.config == c.config && c'.nodes.Keys == c.nodes.Keys
    ensures c.net <= c'.net && c.hist.wins <= c'.hist.wins && c.hist.handed <= c'.hist.handed
    ensures Keep(c.hist.stood, c'.hist.stood)
  {
  }

  /** What every reachable state says of a message about to arrive. */
  lemma Arrives(r: Run, ev: Event)
    requires IsRun(r) && r.states != [] && Enabled(Last(r), ev)
    ensures NodeOf(ev) in Last(r).nodes
    ensures var s := Mover(Last(r), ev); NodeInv(s) && Idle(s) && InputShape(s, InputOf(ev))
  {
    hide IsRun, Requests, Replies, NodesOk, NetOk, NodeInv, MsgShape, Offered;
    BasicsHold(r, |r.states| - 1);
    InputOk(Last(r), ev);
  }

  /** A server has not stood in a term it has not reached. */
  lemma NotStoodYet(r: Run, n: Addr)
    requires IsRun(r) && r.states != [] && n in Last(r).config && n in Last(r).nodes
    ensures forall w :: Last(r).nodes[n].term < w ==> (n, w) !in Last(r).hist.cands && (n, w) !in Last(r).hist.stood
  {
    hide IsRun, BasicInv, VotesRemembered, SingleUnlessLate, Tallied, NodeInv, NetOk;
    VotesHold(r, |r.states| - 1);
    StoodAreCands(r, |r.states| - 1);
  }

  lemma CandidateRecorded(r: Run, n: Addr)
    requires IsRun(r) && r.states != [] && n in Last(r).config && n in Last(r).nodes
    ensures Last(r).nodes[n].role == Candidate ==> (n, Last(r).nodes[n].term) in Last(r).hist.cands
  {
    hide IsRun, BasicInv, VotesRemembered, SingleUnlessLate, Tallied, NodeInv, NetOk;
    VotesHold(r, |r.states| - 1);
  }

  lemma {:induction false} StoodAreCands(r: Run, i: nat)
    requires IsRun(r) && i < |r.states|
    ensures forall key :: key in r.states[i].hist.stood ==> key in r.states[i].hist.cands
  {
    hide IsRun, Handle, Enabled, Accepts, SameTermAe, CountsBallot;
    FirstState(r);
    if i > 0 {
      StoodAreCands(r, i - 1);
      StepAt(r, i - 1);
    }
  }

  // ----- an election

  ghost predicate Standing(c: Cluster, c': Cluster, n: Addr) {
    && Later(c, c', {n}) && n in c.nodes && n in c'.nodes
    && var s, t := c.nodes[n], c'.nodes[n];
    && t == s.(term := s.term + 1, role := Candidate, votes := 1, curLsn := t.curLsn, folLsn := t.folLsn)
    && (forall w :: w in c.config && w != n ==>
          At(t.curLsn, w) == 1 && Letter(w, FirstRv(s, t.term), None) in c'.net)
    && (n, t.term) in c'.hist.stood && c'.hist.stood[(n, t.term)] == s.log
    && c'.hist.late == c.hist.late && c'.spent == c.spent
  }

  lemma Stand(r: Run, n: Addr) returns (r': Run)
    requires IsRun(r) && r.states != [] && n in Last(r).config && n in Last(r).nodes
    requires var s := Last(r).nodes[n]; s.self == n && s.config == Last(r).config && Idle(s) && s.role != Primary
    ensures IsRun(r') && r'.states != [] && Standing(Last(r), Last(r'), n) && AddsNothing(r, r')
  {
    hide IsRun, Handle, After, Later, H1, H2, H3, H4, H5;
    var c, ev := Last(r), Local(n, ElectionTimeout);
    var t := Handle(c.nodes[n], ElectionTimeout);
    StandStep(c.nodes[n]);
    NotStoodYet(r, n);
    AfterLater(c, ev, t);
    AfterRecords(c, ev, t);
    StoodRecorded(c, ev, t);
    forall w | w in c.config && w != n ensures Letter(w, FirstRv(c.nodes[n], t.term), None) in After(c, ev, t).net {
      MailHas(c, ev, t, Packet(w, FirstRv(c.nodes[n], t.term)));
    }
    r' := Extend(r, ev, t);
  }

  function Grant(rv: Msg, v: Addr): Letter
    requires rv.RequestVote?
  {
    Letter(rv.from, RespVote(true, rv.term, 0, v), Some(rv))
  }

  ghost predicate Voted(c: Cluster, c': Cluster, v: Addr, rv: Msg)
    requires rv.RequestVote?
  {
    && Later(c, c', {v}) && v in c.nodes && v in c'.nodes
    && var s, t := c.nodes[v], c'.nodes[v];
    && t == s.(term := rv.term, role := Follower, voted := true, votes := t.votes, curLsn := t.curLsn,
               folLsn := t.folLsn)
    && Heard(s, t, rv.from, rv.term, 0)
    && Grant(rv, v) in c'.net
    && c'.hist.late == c.hist.late && c'.spent == c.spent
  }

  /** The grant would pass the comparison of section 5.4.1. */
  ghost predicate Deserved(c: Cluster, n: Addr, v: Addr, term: int) {
    v in c.nodes && (n, term) in c.hist.stood && UpToDate(c.nodes[v].log, c.hist.stood[(n, term)])
  }

  lemma Vote(r: Run, n: Addr, v: Addr, rv: Msg) returns (r': Run)
    requires IsRun(r) && r.states != [] && Pair(Last(r), n, v)
    requires rv.RequestVote? && rv.from == n && rv.lsn == 0 && Letter(v, rv, None) in Last(r).net
    requires Willing(Last(r).nodes[v], n, rv.term)
    ensures IsRun(r') && r'.states != [] && Voted(Last(r), Last(r'), v, rv)
    ensures Adds(r, r', (v, rv.term) !in Last(r).hist.late, true, true, Deserved(Last(r), n, v, rv.term), true)
  {
    hide IsRun, After, Handle, Later, Willing, UpToDate, H1, H2, H3, H4, H5;
    var c, ev := Last(r), Deliver(Letter(v, rv, None));
    var t := Handle(c.nodes[v], Receive(rv));
    VoteStep(c.nodes[v], rv);
    MailHas(c, ev, t, t.outbox[0]);
    AfterLater(c, ev, t);
    AfterRecords(c, ev, t);
    r' := Extend(r, ev, t);
  }

  ghost predicate Won(c: Cluster, c': Cluster, n: Addr, g: Letter) {
    && Later(c, c', {n}) && n in c.nodes && n in c'.nodes
    && var s, t := c.nodes[n], c'.nodes[n];
    && t == s.(role := Primary, votes := 2, curLsn := t.curLsn, next := Constant(c.config, |s.log|),
               saved := Constant(c.config, -1)[n := |s.log| - 1])
    && (forall w :: w in c.config && w != n ==>
          At(t.curLsn, w) == At(s.curLsn, w) + 1 && Letter(w, AeFor(t, w, At(s.curLsn, w)), None) in c'.net)
    && (n, t.term) in c'.hist.wins
    && c'.hist.late == c.hist.late && c'.spent == c.spent + {g}
  }

  lemma Win(r: Run, n: Addr, v: Addr, g: Letter) returns (r': Run)
    requires IsRun(r) && r.states != [] && Pair(Last(r), n, v) && g in Last(r).net && g !in Last(r).spent
    requires Last(r).nodes[n].role == Candidate && Last(r).nodes[n].votes == 1 && At(Last(r).nodes[n].curLsn, v) == 1
    requires g.to == n && g.msg == RespVote(true, Last(r).nodes[n].term, 0, v)
    ensures IsRun(r') && r'.states != [] && Won(Last(r), Last(r'), n, g) && AddsNothing(r, r')
  {
    hide IsRun, After, Handle, Constant, Later, AeFor, H1, H2, H3, H4, H5;
    var c, ev := Last(r), Deliver(g);
    var s := c.nodes[n];
    var t := Handle(s, Receive(g.msg));
    WinStep(s, g.msg);
    AfterLater(c, ev, t);
    AfterRecords(c, ev, t);
    AesMailed(c, ev, t, s);
    r' := Extend(r, ev, t);
  }

  lemma AesMailed(c: Cluster, ev: Event, t: Node, s: Node)
    requires NodeOf(ev) in c.nodes
    requires forall w :: w in c.config && w != NodeOf(ev) ==> Packet(w, AeFor(t, w, At(s.curLsn, w))) in t.outbox
    ensures forall w :: w in c.config && w != NodeOf(ev) ==>
              Letter(w, AeFor(t.(outbox := []), w, At(s.curLsn, w)), None) in After(c, ev, t).net
  {
    hide After, AeFor;
    forall w | w in c.config && w != NodeOf(ev)
      ensures Letter(w, AeFor(t.(outbox := []), w, At(s.curLsn, w)), None) in After(c, ev, t).net
    {
      MailHas(c, ev, t, Packet(w, AeFor(t, w, At(s.curLsn, w))));
      SentAe(t, t.(outbox := []), w, At(s.curLsn, w));
      AeIsRequest(t, w, At(s.curLsn, w));
    }
  }

  ghost predicate Elected(c: Cluster, c': Cluster, n: Addr, v: Addr)
    requires Pair(c, n, v)
  {
    && Later(c, c', {n, v}) && Pair(c', n, v)
    && var s, t, y, z := c.nodes[n], c'.nodes[n], c.nodes[v], c'.nodes[v];
    && t == s.(term := s.term + 1, role := Primary, votes := 2, curLsn := t.curLsn, folLsn := t.folLsn,
               next := Constant(c.config, |s.log|), saved := Constant(c.config, -1)[n := |s.log| - 1])
    && (forall w :: w in c.config && w != n ==> At(t.curLsn, w) == 2 && Letter(w, AeFor(t, w, 1), None) in c'.net)
    && z == y.(term := t.term, role := Follower, voted := true, votes := z.votes, curLsn := z.curLsn,
               folLsn := z.folLsn)
    && Heard(y, z, n, t.term, 0)
    && (n, t.term) in c'.hist.wins
    && c'.hist.late == c.hist.late && c'.spent == c.spent + {Grant(FirstRv(s, t.term), v)}
  }

  /** Three events elect n with the vote of v, wherever v has one left. */
  lemma Elect(r: Run, n: Addr, v: Addr) returns (r': Run)
    requires IsRun(r) && r.states != [] && Pair(Last(r), n, v) && Last(r).nodes[n].role != Primary
    requires Willing(Last(r).nodes[v], n, Last(r).nodes[n].term + 1)
    requires Grant(FirstRv(Last(r).nodes[n], Last(r).nodes[n].term + 1), v) !in Last(r).spent
    ensures IsRun(r') && r'.states != [] && Elected(Last(r), Last(r'), n, v)
    ensures var c := Last(r);
            Adds(r, r', (v, c.nodes[n].term + 1) !in c.hist.late, true, true,
                 UpToDate(c.nodes[v].log, c.nodes[n].log), true)
  {
    hide IsRun, Handle, Willing, Constant, AeFor, Last, Heard, UpToDate, H1, H2, H3, H4, H5, Later;
    var rv := FirstRv(Last(r).nodes[n], Last(r).nodes[n].term + 1);
    var r1 := Stand(r, n);
    LaterNode(Last(r), Last(r1), {n}, v);
    LaterParts(Last(r), Last(r1), {n});
    var r2 := Vote(r1, n, v, rv);
    LaterNode(Last(r1), Last(r2), {v}, n);
    LaterParts(Last(r1), Last(r2), {v});
    r' := Win(r2, n, v, Grant(rv, v));
    LaterNode(Last(r2), Last(r'), {n}, v);
    LaterParts(Last(r2), Last(r'), {n});
    LaterTwice(Last(r), Last(r1), Last(r2), {n}, {v});
    LaterTwice(Last(r), Last(r2), Last(r'), {n} + {v}, {n});
    assert {n} + {v} + {n} == {n, v};
  }

  // ----- commands and their way to a follower

  lemma Issue(r: Run, n: Addr, cmd: string) returns (r': Run)
    requires IsRun(r) && r.states != [] && n in Last(r).config && n in Last(r).nodes && Idle(Last(r).nodes[n])
    requires Last(r).nodes[n].role != Candidate
    ensures IsRun(r') && r'.states != []
    ensures var c, c' := Last(r), Last(r');
            && Later(c, c', {n}) && n in c'.nodes && c'.hist.late == c.hist.late && c'.spent == c.spent
            && var s := c.nodes[n];
            && c'.nodes[n] == s.(log := s.log + [Entry(s.term, |s.log|, cmd)], saved := s.saved[s.self := |s.log|])
    ensures Adds(r, r', true, Last(r).nodes[n].role == Primary, true, true, true)
  {
    hide IsRun, After, Later, H1, H2, H3, H4, H5;
    var c, ev := Last(r), Local(n, Command(cmd));
    var s := c.nodes[n];
    assert s.log[..|s.log|] == s.log;
    var t := Handle(s, Command(cmd));
    AfterLater(c, ev, t);
    AfterRecords(c, ev, t);
    r' := Extend(r, ev, t);
  }

  lemma Resend(r: Run, n: Addr, v: Addr) returns (r': Run)
    requires IsRun(r) && r.states != [] && Pair(Last(r), n, v)
    requires Last(r).nodes[n].role == Primary && 0 <= At(Last(r).nodes[n].next, v) <= |Last(r).nodes[n].log|
    ensures IsRun(r') && r'.states != [] && AddsNothing(r, r')
    ensures var c, c' := Last(r), Last(r');
            && Later(c, c', {n}) && n in c'.nodes && c'.hist.late == c.hist.late && c'.spent == c.spent
            && var s := c.nodes[n];
            && c'.nodes[n] == TakeLsn(s, v) && Letter(v, AeFor(s, v, At(s.curLsn, v)), None) in c'.net
  {
    hide IsRun, After, Later, H1, H2, H3, H4, H5;
    var c, ev := Last(r), Local(n, RetryAe(v));
    var t := Handle(c.nodes[n], RetryAe(v));
    assert t.outbox == [Packet(v, AeFor(c.nodes[n], v, At(c.nodes[n].curLsn, v)))];
    MailHas(c, ev, t, t.outbox[0]);
    AfterLater(c, ev, t);
    AfterRecords(c, ev, t);
    r' := Extend(r, ev, t);
  }

  ghost predicate Followed(c: Cluster, c': Cluster, v: Addr, m: Msg)
    requires m.AppendEntry?
  {
    && Later(c, c', {v}) && v in c.nodes && v in c'.nodes
    && var s, t := c.nodes[v], c'.nodes[v];
    && t == s.(term := m.term, role := Follower, voted := false, votes := 0, curLsn := t.curLsn, folLsn := t.folLsn,
               log := LogAfter(s.log, m), commit := CommitAfter(s, m), ctl := t.ctl)
    && Heard(s, t, m.from, m.term, m.lsn) && (t.commit == s.commit ==> t.ctl == s.ctl)
    && Letter(m.from, RespAppend(true, m.term, m.lsn, v, m.entries == []), Some(m)) in c'.net
    && c'.hist.late == c.hist.late + (if s.term == m.term then {(v, m.term)} else {}) && c'.spent == c.spent
  }

  lemma Follow(r: Run, n: Addr, v: Addr, m: Msg) returns (r': Run)
    requires IsRun(r) && r.states != [] && Pair(Last(r), n, v) && m.AppendEntry? && m.from == n
    requires Letter(v, m, None) in Last(r).net && Accepts(Last(r).nodes[v], Receive(m))
    requires Last(r).nodes[v].commit <= CommitAfter(Last(r).nodes[v], m)
    ensures IsRun(r') && r'.states != [] && Followed(Last(r), Last(r'), v, m) && AddsNothing(r, r')
  {
    hide IsRun, After, Handle, Later, NodeInv, Fresh, Matches, CommitAfter, LogAfter, H1, H2, H3, H4, H5;
    var c, ev := Last(r), Deliver(Letter(v, m, None));
    var t := Handle(c.nodes[v], Receive(m));
    Arrives(r, ev);
    AcceptStep(c.nodes[v], m);
    MailHas(c, ev, t, t.outbox[0]);
    AfterLater(c, ev, t);
    AfterRecords(c, ev, t);
    r' := Extend(r, ev, t);
  }

  ghost predicate Declined(c: Cluster, c': Cluster, v: Addr, m: Msg)
    requires m.AppendEntry?
  {
    && Later(c, c', {v}) && v in c.nodes && v in c'.nodes
    && var s, t := c.nodes[v], c'.nodes[v];
    && t == s.(term := m.term, role := Follower, voted := false, votes := 0, curLsn := t.curLsn, folLsn := t.folLsn)
    && Heard(s, t, m.from, m.term, m.lsn)
    && Letter(m.from, RespAppend(false, m.term, m.lsn, v, m.entries == []), Some(m)) in c'.net
    && c'.hist.late == c.hist.late + (if s.term == m.term then {(v, m.term)} else {}) && c'.spent == c.spent
  }

  lemma Decline(r: Run, n: Addr, v: Addr, m: Msg) returns (r': Run)
    requires IsRun(r) && r.states != [] && Pair(Last(r), n, v) && m.AppendEntry? && m.from == n
    requires Letter(v, m, None) in Last(r).net && Heeds(Last(r).nodes[v], Receive(m))
    requires !Matches(Last(r).nodes[v].log, m) && 0 <= m.prelogIndex && |m.entries| <= 1 && 0 <= m.lsn
    ensures IsRun(r') && r'.states != [] && Declined(Last(r), Last(r'), v, m) && AddsNothing(r, r')
  {
    hide IsRun, After, Handle, Later, Fresh, Matches, H1, H2, H3, H4, H5;
    var c, ev := Last(r), Deliver(Letter(v, m, None));
    var t := Handle(c.nodes[v], Receive(m));
    DeclineStep(c.nodes[v], m);
    MailHas(c, ev, t, t.outbox[0]);
    AfterLater(c, ev, t);
    AfterRecords(c, ev, t);
    r' := Extend(r, ev, t);
  }

  /** An AE of an older term is refused in the newer one. */
  lemma Refuse(r: Run, n: Addr, v: Addr, m: Msg) returns (r': Run)
    requires IsRun(r) && r.states != [] && Pair(Last(r), n, v) && m.AppendEntry? && m.from == n && |m.entries| <= 1
    requires Letter(v, m, None) in Last(r).net && m.term < Last(r).nodes[v].term
    ensures IsRun(r') && r'.states != [] && AddsNothing(r, r')
    ensures var c, c' := Last(r), Last(r');
            && Later(c, c', {v}) && v in c'.nodes && c'.nodes[v] == c.nodes[v]
            && c'.hist.late == c.hist.late && c'.spent == c.spent
            && Letter(n, RespAppend(false, c.nodes[v].term, m.lsn, v, m.entries == []), Some(m)) in c'.net
  {
    hide IsRun, After, Later, H1, H2, H3, H4, H5, Handle;
    var c, ev := Last(r), Deliver(Letter(v, m, None));
    var t := Handle(c.nodes[v], Receive(m));
    RefuseStep(c.nodes[v], m);
    MailHas(c, ev, t, t.outbox[0]);
    CandidateRecorded(r, v);
    AfterLater(c, ev, t);
    AfterRecords(c, ev, t);
    r' := Extend(r, ev, t);
  }

  ghost predicate SteppedBack(c: Cluster, c': Cluster, n: Addr, v: Addr) {
    && Later(c, c', {n}) && n in c.nodes && n in c'.nodes
    && var s, t := c.nodes[n], c'.nodes[n];
    && t == s.(next := s.next[v := At(s.next, v) - 1], curLsn := t.curLsn)
    && At(t.curLsn, v) == At(s.curLsn, v) + 1
    && Letter(v, AeFor(t, v, At(s.curLsn, v)), None) in c'.net
    && c'.hist.late == c.hist.late && c'.spent == c.spent
  }

  lemma StepBack(r: Run, n: Addr, v: Addr, m: Msg) returns (r': Run)
    requires IsRun(r) && r.states != [] && Pair(Last(r), n, v) && m.AppendEntry?
    requires var s := Last(r).nodes[n];
             && s.role == Primary && m.term == s.term && At(s.curLsn, v) == m.lsn + 1
             && 0 < At(s.next, v) <= |s.log| + 1
    requires Letter(n, RespAppend(false, m.term, m.lsn, v, m.entries == []), Some(m)) in Last(r).net
    ensures IsRun(r') && r'.states != [] && SteppedBack(Last(r), Last(r'), n, v) && AddsNothing(r, r')
  {
    hide IsRun, After, Handle, Later, AeFor, H1, H2, H3, H4, H5;
    var no := RespAppend(false, m.term, m.lsn, v, m.entries == []);
    var c, ev := Last(r), Deliver(Letter(n, no, Some(m)));
    var s := c.nodes[n];
    var t := Handle(s, Receive(no));
    StepBackStep(s, no);
    var s1 := s.(next := s.next[v := At(s.next, v) - 1]);
    SentAe(s1, t.(outbox := []), v, At(s.curLsn, v));
    AeIsRequest(s1, v, At(s.curLsn, v));
    MailHas(c, ev, t, t.outbox[0]);
    AfterLater(c, ev, t);
    AfterRecords(c, ev, t);
    r' := Extend(r, ev, t);
  }

  /** The recomputed commit index names an entry of the primary's term, if any. */
  ghost predicate CountsOwn(s: Node, v: Addr) {
    var k := CountedFor(s, v).commit; 0 <= k < |s.log| ==> s.log[k].term == s.term
  }

  ghost predicate CountedAt(c: Cluster, c': Cluster, n: Addr, v: Addr) {
    && Later(c, c', {n}) && n in c.nodes && n in c'.nodes
    && var s, t := c.nodes[n], c'.nodes[n];
    && t == CountedFor(s, v).(curLsn := t.curLsn) && At(t.curLsn, v) == At(s.curLsn, v) + 1
    && Letter(v, AeFor(t, v, At(s.curLsn, v)), None) in c'.net
    && HandedNow(s, t) <= c'.hist.handed
    && c'.hist.late == c.hist.late && c'.spent == c.spent
  }

  lemma Count(r: Run, n: Addr, v: Addr, m: Msg) returns (r': Run)
    requires IsRun(r) && r.states != [] && Pair(Last(r), n, v) && m.AppendEntry? && m.entries != []
    requires var s := Last(r).nodes[n];
             s.role == Primary && m.term == s.term && At(s.curLsn, v) == m.lsn + 1 && At(s.next, v) < |s.log|
    requires Letter(n, RespAppend(true, m.term, m.lsn, v, false), Some(m)) in Last(r).net
    ensures IsRun(r') && r'.states != [] && CountedAt(Last(r), Last(r'), n, v) && OneLonger(r, r')
    ensures Adds(r, r', true, true, true, true, CountsOwn(Last(r).nodes[n], v))
  {
    hide IsRun, After, Handle, Later, AeFor, NodeInv, H1, H2, H3, H4, H5, CommitRule, Update, OneLonger;
    var ok := RespAppend(true, m.term, m.lsn, v, false);
    var c, ev := Last(r), Deliver(Letter(n, ok, Some(m)));
    var s := c.nodes[n];
    var t := Handle(s, Receive(ok));
    Arrives(r, ev);
    CountStep(s, ok);
    SentAe(CountedFor(s, v), t.(outbox := []), v, At(s.curLsn, v));
    AeIsRequest(CountedFor(s, v), v, At(s.curLsn, v));
    MailHas(c, ev, t, t.outbox[0]);
    AfterLater(c, ev, t);
    AfterRecords(c, ev, t);
    r' := Extend(r, ev, t);
  }
}
