/** What acknowledgements, commits and applied commands are worth, in runs under H1 and H2. */
module Replication {
  import opened RaftTypes
  import opened NodeSpec
  import opened NodeFacts
  import opened NodeSteps
  import opened Cluster
  import opened Basics
  import opened Election
  import opened Logs

  /** The acknowledged prefix was the primary's. */
  ghost predicate AckTrue(plog: map<int, seq<Entry>>, a: Ack) {
    0 <= a.len && a.term in plog && Agree(a.log, plog[a.term], a.len)
  }

  /** The command is the one the term's primary holds at that index. */
  ghost predicate HandedTrue(plog: map<int, seq<Entry>>, h: Handed) {
    && h.term in plog && 0 <= h.task.index < |plog[h.term]|
    && plog[h.term][h.task.index].msg == h.task.msg
  }

  /** An ok in the network stands for a recorded acknowledgement. */
  ghost predicate OkBacked(c: Cluster, l: Letter) {
    l.msg.RespAppend? && l.msg.ok && l.re.Some? && l.re.value.AppendEntry? ==>
      exists a :: a in c.hist.acks && a.node == l.msg.from && a.primary == l.to && a.term == l.msg.term &&
                  a.lsn == l.msg.lsn && a.len == l.re.value.prelogIndex + 1 + |l.re.value.entries|
  }

  /** v acknowledged at least n entries in the term. */
  ghost predicate Held(acks: set<Ack>, v: Addr, term: int, n: int) {
    exists a :: a in acks && a.node == v && a.term == term && n <= a.len
  }

  /** What a primary counts for a peer, the peer acknowledged in the primary's term. */
  ghost predicate SavedBacked(c: Cluster, n: Addr, v: Addr)
    requires n in c.nodes
  {
    var s := c.nodes[n];
    s.role == Primary && v != n && 0 <= At(s.saved, v) ==> Held(c.hist.acks, v, s.term, At(s.saved, v) + 1)
  }

  ghost predicate ReplicaInv(c: Cluster)
    requires NodesOk(c)
  {
    && (forall a :: a in c.hist.acks ==> AckTrue(c.hist.plog, a))
    && (forall h :: h in c.hist.handed ==> HandedTrue(c.hist.plog, h))
    && (forall l :: l in c.net ==> OkBacked(c, l))
    && (forall n, v :: n in c.config && v in c.config ==> SavedBacked(c, n, v))
  }

  // ----- one step

  lemma NewAckTrue(c: Cluster, ev: Event, t: Node, a: Ack)
    requires Logging(c, ev, t) && a in After(c, ev, t).hist.acks && a !in c.hist.acks
    ensures AckTrue(After(c, ev, t).hist.plog, a)
  {
    hide LogInv, BasicInv, VoteInv, AllSingle, Sound, RequestFacts, Effects, Agree, AeShape;
    MoverCoherent(c, ev, t);
    PlogGrows(c, ev, t);
    AcceptedShape(c, ev, t);
    var m := InputOf(ev).msg;
    AgreeGrows(t.log, c.hist.plog[t.term], After(c, ev, t).hist.plog[t.term], m.prelogIndex + 1 + |m.entries|);
  }

  lemma AgreeGrows(a: seq<Entry>, b: seq<Entry>, b': seq<Entry>, n: int)
    requires Agree(a, b, n) && b <= b'
    ensures Agree(a, b', n)
  {
  }

  lemma AcceptedShape(c: Cluster, ev: Event, t: Node)
    requires Logging(c, ev, t) && Accepts(Mover(c, ev), InputOf(ev))
    ensures AeShape(InputOf(ev).msg) && t.term == InputOf(ev).msg.term
    ensures ev.Deliver? && ev.letter in c.net
  {
    hide NodeInv, VoteInv, AllSingle, Sound, RequestFacts, Requests, Replies, PrimariesLogged, LogsCoherent,
         AesKnown, AeShape, RoleFacts, VoteFacts, ReplyFacts, CommitFacts, PrimaryFacts, FreshPrimary, FaultFacts;
    assert LetterOk(c, ev.letter);
  }

  lemma NewHandedTrue(c: Cluster, ev: Event, t: Node, h: Handed)
    requires Logging(c, ev, t) && h in HandedNow(Mover(c, ev), t)
    ensures HandedTrue(After(c, ev, t).hist.plog, h)
  {
    hide LogInv, BasicInv, VoteInv, AllSingle, Sound, RequestFacts, VoteFacts, ReplyFacts, FaultFacts, LogFacts,
         FreshPrimary, AeShape;
    var s, inp := Mover(c, ev), InputOf(ev);
    var k :| |s.ctl.tasks| <= k < |t.ctl.tasks| && h == Handed(t.self, t.term, t.ctl.tasks[k]);
    assert t.ctl.tasks[k] == Task(k, t.log[k].msg) && k <= t.commit;
    if Accepts(s, inp) {
      MoverCoherent(c, ev, t);
      PlogGrows(c, ev, t);
      assert t.log[k] == c.hist.plog[t.term][k];
    } else {
      assert t.role == Primary && After(c, ev, t).hist.plog[t.term] == t.log;
    }
  }

  lemma NewOkBacked(c: Cluster, ev: Event, t: Node, l: Letter)
    requires Logging(c, ev, t)
    requires l in After(c, ev, t).net && l !in c.net && l.msg.RespAppend? && l.msg.ok
    ensures OkBacked(After(c, ev, t), l)
  {
    hide LogInv, VoteInv, AllSingle, RoleFacts, VoteFacts, RequestFacts, CommitFacts, PrimaryFacts, FreshPrimary;
    OkAcked(c, ev, t, l);
    var m := ev.letter.msg;
    assert Ack(NodeOf(ev), m.from, t.term, m.lsn, m.prelogIndex + 1 + |m.entries|, t.log) in After(c, ev, t).hist.acks;
  }

  /** An ok leaves only a step that accepted an AE without a throw. */
  lemma OkAcked(c: Cluster, ev: Event, t: Node, l: Letter)
    requires Logging(c, ev, t)
    requires l in After(c, ev, t).net && l !in c.net && l.msg.RespAppend? && l.msg.ok
    ensures ev.Deliver? && Accepts(Mover(c, ev), InputOf(ev)) && t.fault.None?
    ensures l.re == Some(ev.letter.msg) && l.msg.from == NodeOf(ev) && l.msg.term == t.term
    ensures l.to == ev.letter.msg.from && l.msg.lsn == ev.letter.msg.lsn
  {
    hide VoteInv, AllSingle, PrimariesLogged, LogsCoherent, AesKnown, NodeInv, RoleFacts, VoteFacts, RequestFacts,
         CommitFacts, PrimaryFacts, FreshPrimary, FaultFacts;
    NewReply(c, ev, t, l);
  }

  lemma HeldGrows(a: set<Ack>, b: set<Ack>, v: Addr, term: int, n: int)
    requires a <= b && Held(a, v, term, n)
    ensures Held(b, v, term, n)
  {
  }

  /** The acknowledgement behind an ok that a primary acts on. */
  lemma AckedAck(c: Cluster, ev: Event) returns (a: Ack)
    requires BasicInv(c) && Enabled(c, ev) && Acked(Mover(c, ev), InputOf(ev))
    requires forall l :: l in c.net ==> OkBacked(c, l)
    ensures var s, m := Mover(c, ev), InputOf(ev).msg;
            && a in c.hist.acks && a.node == m.from && a.primary == NodeOf(ev) && a.term == s.term
            && a.lsn == m.lsn == At(s.curLsn, m.from) - 1
            && (m.isEmptyAe ==> a.len == At(s.next, m.from)) && (!m.isEmptyAe ==> a.len > At(s.next, m.from))
  {
    hide BasicInv;
    var l, s := ev.letter, Mover(c, ev);
    AckedLast(c, ev);
    assert OkBacked(c, l);
    a :| a in c.hist.acks && a.node == l.msg.from && a.primary == l.to && a.term == l.msg.term &&
         a.lsn == l.msg.lsn && a.len == l.re.value.prelogIndex + 1 + |l.re.value.entries|;
  }

  /** The index a primary newly counts for a peer is one the peer's ok vouches for. */
  lemma CountedHeld(c: Cluster, ev: Event, t: Node)
    requires Logging(c, ev, t) && ReplicaInv(c) && Acked(Mover(c, ev), InputOf(ev))
    ensures Held(c.hist.acks, InputOf(ev).msg.from, t.term, At(t.saved, InputOf(ev).msg.from) + 1)
  {
    hide BasicInv, VoteInv, AllSingle, PrimariesLogged, LogsCoherent, AesKnown, VoteFacts, RequestFacts, LogFacts,
         ReplyFacts, CommitFacts, FreshPrimary, FaultFacts, AckTrue, HandedTrue, OkBacked, SavedBacked, Sound;
    var a := AckedAck(c, ev);
    assert t.role == Primary && t.term == Mover(c, ev).term;
    assert At(t.saved, a.node) + 1 <= a.len;
  }

  lemma AckedLast(c: Cluster, ev: Event)
    requires BasicInv(c) && Enabled(c, ev) && Acked(Mover(c, ev), InputOf(ev))
    ensures ev.Deliver? && ev.letter.re.Some? && ev.letter.re.value.AppendEntry?
    ensures ev.letter.re.value.prelogIndex == At(Mover(c, ev).next, ev.letter.msg.from) - 1
    ensures ev.letter.msg.isEmptyAe <==> ev.letter.re.value.entries == []
  {
    hide NodeInv, Numbered;
    assert Answered(c, ev.letter);
    Correlates(c, ev);
  }

  lemma SavedKept(c: Cluster, ev: Event, t: Node, v: Addr)
    requires Logging(c, ev, t) && ReplicaInv(c) && v in c.config && v != NodeOf(ev)
    requires t.role == Primary && 0 <= At(t.saved, v)
    ensures Held(c.hist.acks, v, t.term, At(t.saved, v) + 1)
  {
    hide LogInv, BasicInv, VoteInv, AllSingle, VoteFacts, RequestFacts, LogFacts, ReplyFacts, CommitFacts, Held,
         FaultFacts, AckTrue, HandedTrue, OkBacked, Sound;
    SavedKeptParts(c, ev, t);
    var s, inp := Mover(c, ev), InputOf(ev);
    if s.role == Primary {
      if Acked(s, inp) && inp.msg.from == v {
        CountedHeld(c, ev, t);
      } else {
        assert At(t.saved, v) == At(s.saved, v);
        assert SavedBacked(c, NodeOf(ev), v);
      }
    }
  }

  lemma SavedKeptParts(c: Cluster, ev: Event, t: Node)
    requires Logging(c, ev, t)
    ensures NodeOf(ev) in c.config && Mover(c, ev).self == NodeOf(ev) && Mover(c, ev).config == c.config
  {
    hide VoteInv, AllSingle, PrimariesLogged, LogsCoherent, AesKnown, NodeInv, StepFacts, Requests, Replies;
  }

  lemma ReplicaKept(c: Cluster, ev: Event, t: Node)
    requires Logging(c, ev, t) && ReplicaInv(c)
    ensures ReplicaInv(After(c, ev, t))
  {
    hide Logging, AckTrue, HandedTrue, OkBacked, Held, Grows, NodeInv, Accepts, LogsCoherent, AesKnown;
    LoggingParts(c, ev, t);
    PlogGrows(c, ev, t);
    var c' := After(c, ev, t);
    forall a | a in c'.hist.acks ensures AckTrue(c'.hist.plog, a) {
      if a in c.hist.acks {
        AckStays(c.hist.plog, c'.hist.plog, a);
      } else {
        NewAckTrue(c, ev, t, a);
      }
    }
    forall h | h in c'.hist.handed ensures HandedTrue(c'.hist.plog, h) {
      if h in c.hist.handed {
        HandedStays(c.hist.plog, c'.hist.plog, h);
      } else {
        NewHandedTrue(c, ev, t, h);
      }
    }
    forall l | l in c'.net ensures OkBacked(c', l) {
      OkStays(c, ev, t, l);
    }
    forall n, v | n in c.config && v in c.config ensures SavedBacked(c', n, v) {
      SavedStays(c, ev, t, n, v);
    }
  }

  lemma AckStays(plog: map<int, seq<Entry>>, plog': map<int, seq<Entry>>, a: Ack)
    requires AckTrue(plog, a) && Grows(plog, plog')
    ensures AckTrue(plog', a)
  {
  }

  lemma HandedStays(plog: map<int, seq<Entry>>, plog': map<int, seq<Entry>>, h: Handed)
    requires HandedTrue(plog, h) && Grows(plog, plog')
    ensures HandedTrue(plog', h)
  {
  }

  lemma OkStays(c: Cluster, ev: Event, t: Node, l: Letter)
    requires Logging(c, ev, t) && NodesOk(c) && ReplicaInv(c) && l in After(c, ev, t).net
    ensures OkBacked(After(c, ev, t), l)
  {
    hide Logging, AckTrue, HandedTrue, SavedBacked, NodesOk;
    LoggingParts(c, ev, t);
    if l in c.net {
      assert OkBacked(c, l);
    } else if l.msg.RespAppend? && l.msg.ok {
      NewOkBacked(c, ev, t, l);
    }
  }

  lemma SavedStays(c: Cluster, ev: Event, t: Node, n: Addr, v: Addr)
    requires Logging(c, ev, t) && NodesOk(c) && ReplicaInv(c) && n in c.config && v in c.config
    ensures n in After(c, ev, t).nodes && SavedBacked(After(c, ev, t), n, v)
  {
    hide Logging, AckTrue, HandedTrue, OkBacked, Held, NodeInv;
    LoggingParts(c, ev, t);
    var c' := After(c, ev, t);
    var s := c'.nodes[n];
    if s.role == Primary && v != n && 0 <= At(s.saved, v) {
      if n == NodeOf(ev) {
        SavedKept(c, ev, t, v);
      } else {
        assert SavedBacked(c, n, v);
      }
      HeldGrows(c.hist.acks, c'.hist.acks, v, s.term, At(s.saved, v) + 1);
    }
  }

  lemma {:induction false} ReplicaHolds(r: Run, i: nat)
    requires IsRun(r) && H1(r) && H2(r) && i < |r.states|
    ensures LogInv(r.states[i]) && ReplicaInv(r.states[i])
    ensures i < |r.events| ==> LoggingAt(r, i)
  {
    hide BasicInv, VoteInv, AllSingle, PrimariesLogged, LogsCoherent, AesKnown, Logging, Handle, H1, H2, Offered,
         After, OkBacked, AckTrue, HandedTrue, SavedBacked;
    LogsHold(r, i);
    if i == 0 {
      InitReplica(r.states[0]);
    } else {
      ReplicaHolds(r, i - 1);
      StepAt(r, i - 1);
      var c, ev := r.states[i - 1], r.events[i - 1];
      ReplicaKept(c, ev, Handle(Mover(c, ev), InputOf(ev)));
    }
  }

  lemma InitReplica(c: Cluster)
    requires Init(c)
    ensures NodesOk(c) && ReplicaInv(c)
  {
    BasicInit(c);
  }
}
