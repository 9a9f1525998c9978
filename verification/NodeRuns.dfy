/** One server alone, fed any sequence of well-shaped inputs: its votes and its at-most-once discipline. */
module NodeRuns {
  import opened RaftTypes
  import opened NodeSpec
  import opened NodeFacts
  import opened NodeSteps

  datatype NodeRun = NodeRun(states: seq<Node>, inputs: seq<Input>)

  ghost predicate IsNodeStep(s: Node, inp: Input, t: Node) {
    Offered(s, inp) && InputShape(s, inp) && t == Handle(s, inp).(outbox := [])
  }

  /** Each input is offered to the running node; sent RPCs leave the outbox between inputs. */
  ghost predicate IsNodeRun(r: NodeRun) {
    && |r.states| == |r.inputs| + 1
    && NodeInv(r.states[0]) && Idle(r.states[0])
    && forall i {:trigger IsNodeStep(r.states[i], r.inputs[i], r.states[i + 1])} :: 0 <= i < |r.inputs| ==>
         IsNodeStep(r.states[i], r.inputs[i], r.states[i + 1])
  }

  lemma NodeStepAt(r: NodeRun, i: nat)
    requires IsNodeRun(r) && i < |r.inputs|
    ensures |r.states| == |r.inputs| + 1 && IsNodeStep(r.states[i], r.inputs[i], r.states[i + 1])
  {
  }

  lemma {:induction false} RunFacts(r: NodeRun, i: nat)
    requires IsNodeRun(r) && i < |r.states|
    ensures NodeInv(r.states[i]) && r.states[i].outbox == []
    ensures i < |r.inputs| ==> StepFacts(r.states[i], r.inputs[i], Handle(r.states[i], r.inputs[i]))
  {
    hide NodeInv, StepFacts, Handle, InputShape;
    if i > 0 {
      RunFacts(r, i - 1);
      NodeStepAt(r, i - 1);
      KeptInv(r.states[i - 1], r.inputs[i - 1], Handle(r.states[i - 1], r.inputs[i - 1]));
    }
    if i < |r.inputs| {
      NodeStepAt(r, i);
      HandleFacts(r.states[i], r.inputs[i]);
    }
  }

  lemma KeptInv(s: Node, inp: Input, t: Node)
    requires StepFacts(s, inp, t)
    ensures NodeInv(t.(outbox := []))
  {
    hide NodeInv, RequestFacts, Effects;
    DeliveredInv(t);
  }

  // ----- votes

  predicate Grants(s: Node, inp: Input, term: int) {
    var t := Handle(s, inp);
    t.term == term && exists p :: p in t.outbox && p.msg.RespVote? && p.msg.ok
  }

  predicate Stands(s: Node, inp: Input, term: int) {
    inp.ElectionTimeout? && Handle(s, inp).term == term
  }

  /** Votes cast in the term by the first k steps: grants and the node's own candidacies. */
  ghost function VotesCast(r: NodeRun, k: nat, term: int): nat
    requires IsNodeRun(r) && k <= |r.inputs|
  {
    if k == 0 then 0 else
      VotesCast(r, k - 1, term)
      + (if Grants(r.states[k - 1], r.inputs[k - 1], term) then 1 else 0)
      + (if Stands(r.states[k - 1], r.inputs[k - 1], term) then 1 else 0)
  }

  /** AEs of the term that the first k steps handled while the node was already in it. */
  ghost function SameTermAes(r: NodeRun, k: nat, term: int): nat
    requires IsNodeRun(r) && k <= |r.inputs|
  {
    if k == 0 then 0 else
      SameTermAes(r, k - 1, term)
      + (if SameTermAe(r.states[k - 1], r.inputs[k - 1]) && r.states[k - 1].term == term then 1 else 0)
  }

  /** 1 if the node may still vote in the term. */
  function Ballot1(s: Node, term: int): nat {
    if s.term < term || (s.term == term && s.role == Follower && !s.voted) then 1 else 0
  }

  lemma VoteBudget(s: Node, inp: Input, t: Node, term: int)
    requires StepFacts(s, inp, t)
    ensures var granted := t.term == term && exists p :: p in t.outbox && p.msg.RespVote? && p.msg.ok;
            var stood := inp.ElectionTimeout? && t.term == term;
            (if granted then 1 else 0) + (if stood then 1 else 0) + Ballot1(t, term)
            <= Ballot1(s, term) + if SameTermAe(s, inp) && s.term == term then 1 else 0
  {
    hide NodeInv, RequestFacts, ReplyFacts, LogFacts, CommitFacts, PrimaryFacts, FreshPrimary, FaultFacts, PacketShape;
  }

  /** A node votes in a term at most once plus once for every AE of the term it handled while in it: trans2F
      forgets the vote even when the term did not grow. */
  lemma {:induction false} VoteAccounting(r: NodeRun, k: nat, term: int)
    requires IsNodeRun(r) && k <= |r.inputs|
    ensures VotesCast(r, k, term) + Ballot1(r.states[k], term) <= 1 + SameTermAes(r, k, term)
  {
    hide IsNodeRun, StepFacts, SameTermAe, NodeInv, Handle;
    if k > 0 {
      VoteAccounting(r, k - 1, term);
      NodeStepAt(r, k - 1);
      RunFacts(r, k - 1);
      VoteBudget(r.states[k - 1], r.inputs[k - 1], Handle(r.states[k - 1], r.inputs[k - 1]), term);
    }
  }

  // ----- at most once

  /** The request m has been overtaken: the node is past its term, or remembers its lsn or a later one. */
  predicate Stale(s: Node, m: Msg)
    requires IsRequest(m)
  {
    s.term > m.term || (s.term == m.term && At(s.folLsn, m.from) >= m.lsn)
  }

  lemma StaleStays(s: Node, inp: Input, t: Node, m: Msg)
    requires StepFacts(s, inp, t) && IsRequest(m) && Stale(s, m)
    ensures Stale(t.(outbox := []), m)
  {
    hide NodeInv, RequestFacts, RoleFacts, VoteFacts, ReplyFacts, CommitFacts, PrimaryFacts, FreshPrimary, FaultFacts,
         PacketShape;
  }

  /** Once a request has been handled without a throw it is stale. */
  lemma HandledIsStale(s: Node, m: Msg)
    requires NodeInv(s) && Idle(s) && InputShape(s, Receive(m)) && IsRequest(m)
    ensures var t := Handle(s, Receive(m));
            t.fault != Some(TwoPrimaries) ==> Stale(t.(outbox := []), m)
  {
    HandleFacts(s, Receive(m));
    var t := Handle(s, Receive(m));
    if m.RequestVote? {
      RvRemembered(s, m);
    } else if s.term <= m.term && Fresh(s, m) {
      assert LogFacts(s, Receive(m), t);
    } else {
      assert Sound(s, t) && s.term <= t.term && LogFacts(s, Receive(m), t);
    }
  }

  lemma RvRemembered(s: Node, m: Msg)
    requires NodeInv(s) && Idle(s) && InputShape(s, Receive(m)) && m.RequestVote?
    ensures Stale(React2Rv(s, m).(outbox := []), m)
  {
    hide NodeInv, MsgShape, Ballot, Trans2F;
    if s.term <= m.term {
      if s.term < m.term {
        Trans2FYields(s, m.term);
      }
      var s1 := if s.term < m.term then Trans2F(s, m.term) else s;
      BallotKeeps(Remember(s1, m.from, m.lsn), m);
    }
  }

  lemma BallotKeeps(s: Node, m: Msg)
    requires m.RequestVote?
    ensures Ballot(s, m).term == s.term && Ballot(s, m).folLsn == s.folLsn
  {
  }

  /** A stale AE changes neither the log, nor the commit index, nor what was handed to the state machine. */
  lemma StaleAeIdle(s: Node, m: Msg)
    requires NodeInv(s) && Idle(s) && InputShape(s, Receive(m)) && m.AppendEntry? && Stale(s, m)
    ensures var t := Handle(s, Receive(m)); t.log == s.log && t.commit == s.commit && t.ctl == s.ctl
  {
    HandleFacts(s, Receive(m));
    var t := Handle(s, Receive(m));
    assert LogFacts(s, Receive(m), t) && CommitFacts(s, Receive(m), t);
  }

  /** A stale RV is answered at most by a refusal. */
  lemma StaleRvIdle(s: Node, m: Msg)
    requires Idle(s) && m.RequestVote? && Stale(s, m)
    ensures var t := Handle(s, Receive(m));
            t.voted == s.voted && forall p :: p in t.outbox ==> p.msg.RespVote? && !p.msg.ok
  {
  }

  lemma {:induction false} StaleFrom(r: NodeRun, i: nat, j: nat, m: Msg)
    requires IsNodeRun(r) && i < j < |r.states| && IsRequest(m) && r.inputs[i] == Receive(m)
    ensures Stale(r.states[j], m) || r.states[i + 1].fault == Some(TwoPrimaries)
    decreases j
  {
    hide StepFacts, NodeInv, Handle, Stale, MsgShape;
    RunFacts(r, j - 1);
    NodeStepAt(r, j - 1);
    if j == i + 1 {
      HandledIsStale(r.states[i], m);
    } else {
      StaleFrom(r, i, j - 1, m);
      if Stale(r.states[j - 1], m) {
        StaleStays(r.states[j - 1], r.inputs[j - 1], Handle(r.states[j - 1], r.inputs[j - 1]), m);
      }
    }
  }

  /** At most once: after an AE was handled, no AE of the same sender and term with the same or an older lsn
      changes the log or the commit index, so a late duplicate cannot roll the log back. */
  lemma AeAtMostOnce(r: NodeRun, i: nat, j: nat, m: Msg, late: Msg)
    requires IsNodeRun(r) && i < j < |r.inputs|
    requires m.AppendEntry? && r.inputs[i] == Receive(m) && late.AppendEntry? && r.inputs[j] == Receive(late)
    requires late.from == m.from && late.term == m.term && late.lsn <= m.lsn
    ensures var s, t := r.states[j], r.states[j + 1]; t.log == s.log && t.commit == s.commit && t.ctl == s.ctl
  {
    hide StepFacts, NodeInv, Handle, MsgShape;
    RunFacts(r, j);
    NodeStepAt(r, j);
    StaleFrom(r, i, j, m);
    RunningBetween(r, i, j);
    StaleAeIdle(r.states[j], late);
  }

  /** The same for votes: an RV at or below a handled lsn gets no vote. */
  lemma RvAtMostOnce(r: NodeRun, i: nat, j: nat, m: Msg, late: Msg)
    requires IsNodeRun(r) && i < j < |r.inputs|
    requires IsRequest(m) && r.inputs[i] == Receive(m) && late.RequestVote? && r.inputs[j] == Receive(late)
    requires late.from == m.from && late.term == m.term && late.lsn <= m.lsn
    ensures !Grants(r.states[j], r.inputs[j], late.term)
  {
    hide StepFacts, NodeInv, Handle, MsgShape;
    RunFacts(r, j);
    NodeStepAt(r, j);
    StaleFrom(r, i, j, m);
    RunningBetween(r, i, j);
    StaleRvIdle(r.states[j], late);
  }

  /** The requests of one sender that pass the at-most-once check within a term carry increasing lsns. */
  lemma LsnsIncrease(r: NodeRun, i: nat, j: nat, m: Msg, next: Msg)
    requires IsNodeRun(r) && i < j < |r.inputs|
    requires IsRequest(m) && r.inputs[i] == Receive(m) && IsRequest(next) && r.inputs[j] == Receive(next)
    requires next.from == m.from && next.term == m.term && Fresh(r.states[j], next)
    ensures m.lsn < next.lsn
  {
    hide StepFacts, NodeInv, Handle, MsgShape;
    StaleFrom(r, i, j, m);
    RunningBetween(r, i, j);
  }

  lemma RunningBetween(r: NodeRun, i: nat, j: nat)
    requires IsNodeRun(r) && i < j < |r.inputs|
    ensures r.states[i + 1].fault.None?
  {
    hide NodeInv, Handle, InputShape;
    NodeStepAt(r, i + 1);
  }
}
