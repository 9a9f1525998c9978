/** What every step of one server keeps and what it may do, for any input of the right shape. */
module NodeFacts {
  import opened RaftTypes
  import opened OrderStatistic
  import opened ApplyControl
  import opened NodeSpec

  // ----- invariant of a node and shape of the messages

  ghost predicate LogShape(log: seq<Entry>, term: int) {
    && (forall i :: 0 <= i < |log| ==> log[i].index == i && 0 <= log[i].term <= term)
    && (forall i, j :: 0 <= i < j < |log| ==> log[i].term <= log[j].term)
  }

  /** A primary's bookkeeping stays inside its log. */
  ghost predicate PrimaryInv(s: Node) {
    s.role == Primary ==>
      && At(s.saved, s.self) == |s.log| - 1
      && forall v :: v in s.config ==> 0 <= At(s.next, v) <= |s.log| && -1 <= At(s.saved, v) < |s.log|
  }

  ghost predicate LsnInv(s: Node) {
    forall v :: v in s.config ==> 0 <= At(s.curLsn, v) && -1 <= At(s.folLsn, v)
  }

  ghost predicate NodeInv(s: Node) {
    && s.self in s.config
    && 0 <= s.term
    && LogShape(s.log, s.term)
    && -1 <= s.commit < |s.log|
    && InOrder(s.ctl)
    && PrimaryInv(s)
    && LsnInv(s)
  }

  lemma DeliveredInv(s: Node)
    requires NodeInv(s)
    ensures NodeInv(s.(outbox := []))
  {
  }

  ghost predicate AeShape(m: Msg)
    requires m.AppendEntry?
  {
    && 0 <= m.lsn
    && -1 <= m.prelogIndex && -1 <= m.commitIndex
    && (m.prelogIndex == -1 ==> m.prelogTerm == -1)
    && m.prelogTerm <= m.term
    && |m.entries| <= 1
    && (m.entries == [] ==> m.commitIndex <= m.prelogIndex)
    && (m.entries != [] ==>
          var e := m.entries[0];
          e.index == m.prelogIndex + 1 && 0 <= e.term <= m.term && m.prelogTerm <= e.term)
  }

  ghost predicate MsgShape(m: Msg) {
    && 0 <= m.term
    && (m.RequestVote? ==> 0 <= m.lsn)
    && (m.AppendEntry? ==> AeShape(m))
  }

  /** Requests and replies come from another server of the configuration. */
  ghost predicate InputShape(s: Node, inp: Input) {
    inp.Receive? ==> inp.msg.from in s.config && inp.msg.from != s.self && MsgShape(inp.msg)
  }

  /** The throws that real runs can reach; every other one is impossible. */
  predicate Reachable(f: Fault) {
    f == TwoPrimaries || f == RespToNonPrimary || f == RefusedAtZero || f == CommitDecreased
  }

  ghost predicate PacketShape(s: Node, p: Packet) {
    p.to in s.config && p.to != s.self && p.msg.from == s.self && p.msg.term == s.term && MsgShape(p.msg)
  }

  /** A step from s to t is sound: the invariant is kept, only well-shaped RPCs of the new term leave, the
      term never falls and only a reachable throw can occur. */
  ghost predicate Sound(s: Node, t: Node) {
    && t.self == s.self && t.config == s.config
    && s.term <= t.term
    && NodeInv(t)
    && (forall p :: p in t.outbox ==> PacketShape(t, p))
    && (t.fault.Some? ==> Reachable(t.fault.value))
  }

  // ----- broadcasts

  /** Only request counters and the outbox differ. */
  ghost predicate SendsOnly(s: Node, t: Node) {
    t == s.(curLsn := t.curLsn, outbox := t.outbox)
  }

  /** The request a primary or a candidate in state s sends to v under the given lsn. */
  function RequestFor(s: Node, v: Addr, lsn: int): Msg {
    if s.role == Primary then AeFor(s, v, lsn) else RvFor(s, lsn)
  }

  ghost predicate IsBroadcastTo(s: Node, peers: seq<Addr>, p: Packet) {
    p.to in peers && p.to != s.self && p.msg == RequestFor(s, p.to, At(s.curLsn, p.to))
  }

  /** From s to t one request went to each of the peers other than s itself, each taking one lsn. */
  ghost predicate Broadcast(s: Node, t: Node, peers: seq<Addr>) {
    && SendsOnly(s, t)
    && (forall p :: p in t.outbox <==> p in s.outbox || IsBroadcastTo(s, peers, p))
    && (forall v :: At(t.curLsn, v) == At(s.curLsn, v) + if v in peers && v != s.self then 1 else 0)
  }

  lemma SelfByPort(s: Node, v: Addr)
    requires s.self in s.config && v in s.config
    ensures v.port == s.self.port <==> v == s.self
  {
  }

  /** One request to v and then a broadcast to the rest is a broadcast to all. */
  lemma BroadcastCons(s: Node, s1: Node, t: Node, peers: seq<Addr>)
    requires peers != [] && DistinctPorts(peers)
    requires Broadcast(s1, t, peers[1..])
    requires var v := peers[0];
             s1 == if v == s.self then s
                   else Send(TakeLsn(s, v), v, RequestFor(s, v, At(s.curLsn, v)))
    ensures Broadcast(s, t, peers)
  {
    DistinctTail(peers);
    var v, rest := peers[0], peers[1..];
    assert forall w :: w in peers <==> w == v || w in rest;
    forall p ensures p in t.outbox <==> p in s.outbox || IsBroadcastTo(s, peers, p) {
      assert p in s1.outbox <==> p in s.outbox || (v != s.self && p == Packet(v, RequestFor(s, v, At(s.curLsn, v))));
    }
  }

  lemma {:induction false} AppendAllBroadcasts(s: Node, peers: seq<Addr>)
    requires s.self in s.config && s.fault.None? && s.role == Primary && DistinctPorts(peers)
    requires forall v :: v in peers ==> v in s.config && 0 <= At(s.next, v) <= |s.log|
    ensures Broadcast(s, AppendAll(s, peers), peers)
    decreases |peers|
  {
    if peers != [] {
      var v := peers[0];
      SelfByPort(s, v);
      DistinctTail(peers);
      var s1 := if v == s.self then s else AE(s, v);
      AppendAllBroadcasts(s1, peers[1..]);
      BroadcastCons(s, s1, AppendAll(s, peers), peers);
    }
  }

  lemma {:induction false} AskAllBroadcasts(s: Node, peers: seq<Addr>)
    requires s.self in s.config && s.role == Candidate && DistinctPorts(peers)
    requires forall v :: v in peers ==> v in s.config
    ensures Broadcast(s, AskAll(s, peers), peers)
    decreases |peers|
  {
    if peers != [] {
      var v := peers[0];
      SelfByPort(s, v);
      DistinctTail(peers);
      var s1 := if v == s.self then s else RV(s, v);
      AskAllBroadcasts(s1, peers[1..]);
      BroadcastCons(s, s1, AskAll(s, peers), peers);
    }
  }

  // ----- commit updates

  /** The controler was told the commit index k and has nothing left to hand over up to it. */
  predicate CaughtUp(c: Controler, k: int, r: Controler) {
    r.commit == k && r.applied == if c.applied < k then k else c.applied
  }

  lemma HandsOverSame(c: Controler, log: seq<Entry>)
    ensures HandsOver(c, log, c)
    ensures forall k, r :: HandsOver(c.(commit := k), log, r) ==> HandsOver(c, log, r)
    ensures forall k, r :: HandsOver(c.(commit := k), log, r) && r.tasks != c.tasks ==> |r.tasks| > |c.tasks|
  {
  }

  lemma FollowerCommitFacts(s: Node, rc: int)
    requires s.fault.None? && InOrder(s.ctl) && -1 <= rc
    ensures var t := FollowerCommit(s, rc);
            var k := if |s.log| - 1 < rc then |s.log| - 1 else rc;
            && t == s.(commit := k, ctl := t.ctl, fault := t.fault)
            && t.fault == (if k < s.commit then Some(CommitDecreased) else None)
            && InOrder(t.ctl) && HandsOver(s.ctl, s.log, t.ctl)
            && (t.ctl.tasks != s.ctl.tasks ==> |t.ctl.tasks| <= k + 1)
            && (k <= s.commit ==> t.ctl == s.ctl) && (s.commit < k ==> CaughtUp(s.ctl, k, t.ctl))
  {
    var k := if |s.log| - 1 < rc then |s.log| - 1 else rc;
    AdvanceHandsOver(s.ctl.(commit := k), s.log);
    assert Update(s.ctl, s.log, k) == Advance(s.ctl.(commit := k), s.log);
    HandsOverSame(s.ctl, s.log);
    hide HandsOver, Advance, Update;
  }

  lemma PrimaryCommitFacts(s: Node, v: Addr, index: int)
    requires s.fault.None? && InOrder(s.ctl) && -1 <= index < |s.log|
    requires forall w :: w in s.config ==> -1 <= At(s.saved, w) < |s.log|
    ensures var t := PrimaryCommit(s, v, index);
            && t == s.(saved := s.saved[v := index], commit := CommitRule(t.saved, s.config), ctl := t.ctl)
            && -1 <= t.commit < |s.log|
            && InOrder(t.ctl) && HandsOver(s.ctl, s.log, t.ctl)
            && (t.ctl.tasks != s.ctl.tasks ==> |t.ctl.tasks| <= t.commit + 1)
            && CaughtUp(s.ctl, t.commit, t.ctl)
  {
    var saved := s.saved[v := index];
    CommitRuleBounds(saved, s.config, -1, |s.log|);
    AdvanceHandsOver(s.ctl.(commit := CommitRule(saved, s.config)), s.log);
  }
}
