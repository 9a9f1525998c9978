/** In runs under H1, H2 and H3 a follower that once acknowledged its primary keeps what it acknowledged and
    never refuses again in that term, so catching up terminates and the commit index does not fall. */
module Retention {
  import opened RaftTypes
  import opened NodeSpec
  import opened NodeFacts
  import opened NodeSteps
  import opened Cluster
  import opened Basics
  import opened Election
  import opened Logs
  import opened Replication

  /** H3 at one step: a reply to an AE, handled in the term it carries, answers an AE of that term. */
  ghost predicate OwnAnswer(c: Cluster, ev: Event)
    requires NodeOf(ev) in c.nodes
  {
    ev.Deliver? && ev.letter.msg.RespAppend? && ev.letter.msg.term == Mover(c, ev).term ==>
      ev.letter.re.Some? && ev.letter.re.value.term == Mover(c, ev).term
  }

  ghost predicate H3(r: Run)
    requires IsRun(r)
  {
    forall i {:trigger IsStep(r.states[i], r.events[i], r.states[i + 1])} ::
      0 <= i < |r.events| && IsStep(r.states[i], r.events[i], r.states[i + 1]) ==>
        OwnAnswer(r.states[i], r.events[i])
  }

  // ----- acknowledgements and refusals of one follower to one primary

  /** A refusal by a follower that was in the primary's term. */
  predicate IsRefusal(l: Letter) {
    l.msg.RespAppend? && !l.msg.ok && l.re.Some? && l.re.value.AppendEntry? && l.re.value.term == l.msg.term
  }

  predicate RefusalOf(l: Letter, v: Addr, n: Addr, term: int) {
    IsRefusal(l) && l.msg.from == v && l.to == n && l.msg.term == term
  }

  predicate AckOf(a: Ack, v: Addr, n: Addr, term: int) {
    a.node == v && a.primary == n && a.term == term
  }

  predicate AeOf(l: Letter, v: Addr, n: Addr, term: int) {
    l.msg.AppendEntry? && l.to == v && l.msg.from == n && l.msg.term == term
  }

  ghost predicate AckPlaced(c: Cluster, a: Ack)
    requires NodesOk(c)
  {
    && a.node in c.config && a.primary in c.config && a.node != a.primary
    && (a.primary, a.term) in c.hist.wins && a.term in c.hist.plog
    && a.term <= c.nodes[a.node].term
    && (c.nodes[a.node].term == a.term ==>
          && a.lsn <= At(c.nodes[a.node].folLsn, a.primary)
          && Agree(c.nodes[a.node].log, c.hist.plog[a.term], a.len))
    && (c.nodes[a.primary].term == a.term ==> a.lsn < At(c.nodes[a.primary].curLsn, a.node))
  }

  ghost predicate RefusalPlaced(c: Cluster, l: Letter)
    requires NodesOk(c)
  {
    IsRefusal(l) && l.msg.from in c.config ==>
      && 0 <= l.re.value.prelogIndex
      && (c.nodes[l.msg.from].term == l.msg.term ==> l.msg.lsn <= At(c.nodes[l.msg.from].folLsn, l.to))
  }

  /** Every refusal came before every acknowledgement. */
  ghost predicate RefusedFirst(c: Cluster, l: Letter, a: Ack) {
    RefusalOf(l, a.node, a.primary, a.term) ==> l.msg.lsn < a.lsn
  }

  /** An acknowledgement with a smaller lsn reaches at least len. */
  ghost predicate Reached(acks: set<Ack>, v: Addr, n: Addr, term: int, lsn: int, len: int) {
    exists b :: b in acks && AckOf(b, v, n, term) && b.lsn < lsn && len <= b.len
  }

  /** An AE sent after an acknowledged one neither cuts into the acknowledged prefix nor looks beyond it. */
  ghost predicate AeAfterAck(c: Cluster, l: Letter, a: Ack) {
    AeOf(l, a.node, a.primary, a.term) && a.lsn < l.msg.lsn ==>
      && (l.msg.entries != [] ==> a.len <= l.msg.prelogIndex + 2)
      && Reached(c.hist.acks, a.node, a.primary, a.term, l.msg.lsn, l.msg.prelogIndex + 1)
  }

  /** The follower answered an AE with an lsn in [lo, hi). */
  ghost predicate Spoke(c: Cluster, v: Addr, n: Addr, term: int, lo: int, hi: int) {
    || (exists b :: b in c.hist.acks && AckOf(b, v, n, term) && lo <= b.lsn < hi)
    || (exists l :: l in c.net && RefusalOf(l, v, n, term) && lo <= l.msg.lsn < hi)
  }

  /** The position of the AEs to a follower moves only after an answer from it. */
  ghost predicate Ladder(c: Cluster, x: Letter, y: Letter) {
    x.msg.AppendEntry? && AeOf(y, x.to, x.msg.from, x.msg.term) && x.msg.lsn < y.msg.lsn
    && x.msg.prelogIndex != y.msg.prelogIndex ==>
      Spoke(c, x.to, x.msg.from, x.msg.term, x.msg.lsn, y.msg.lsn)
  }

  ghost predicate NextFits(c: Cluster, a: Ack)
    requires a.primary in c.nodes
  {
    var s := c.nodes[a.primary];
    s.role == Primary && s.term == a.term ==>
      && a.len - 1 <= At(s.next, a.node)
      && Reached(c.hist.acks, a.node, a.primary, a.term, At(s.curLsn, a.node), At(s.next, a.node))
  }

  ghost predicate AcksPlaced(c: Cluster)
    requires NodesOk(c)
  {
    forall a :: a in c.hist.acks ==> AckPlaced(c, a)
  }

  ghost predicate RefusalsPlaced(c: Cluster)
    requires NodesOk(c)
  {
    forall l :: l in c.net ==> RefusalPlaced(c, l)
  }

  ghost predicate RefusalsFirst(c: Cluster) {
    forall l, a :: l in c.net && a in c.hist.acks ==> RefusedFirst(c, l, a)
  }

  ghost predicate AesAfterAcks(c: Cluster) {
    forall l, a :: l in c.net && a in c.hist.acks ==> AeAfterAck(c, l, a)
  }

  ghost predicate Ladders(c: Cluster) {
    forall x, y :: x in c.net && y in c.net ==> Ladder(c, x, y)
  }

  ghost predicate NextsFit(c: Cluster) {
    forall a :: a in c.hist.acks ==> a.primary in c.nodes && NextFits(c, a)
  }

  ghost predicate Catching(c: Cluster) {
    && NodesOk(c)
    && AcksPlaced(c) && RefusalsPlaced(c) && RefusalsFirst(c) && AesAfterAcks(c) && Ladders(c) && NextsFit(c)
  }

  // ----- consequences in one state

  /** A step of a run under H1, H2 and H3. */
  ghost predicate Retaining(c: Cluster, ev: Event, t: Node) {
    Logging(c, ev, t) && ReplicaInv(c) && Catching(c) && OwnAnswer(c, ev)
  }

  lemma LoggingFacts(c: Cluster, ev: Event, t: Node)
    requires Logging(c, ev, t)
    ensures NodeOf(ev) in c.nodes && NodeOf(ev) in c.config && Enabled(c, ev) && CommandAtPrimary(c, ev)
    ensures Mover(c, ev).self == NodeOf(ev) && Mover(c, ev).config == c.config && t.self == NodeOf(ev)
    ensures BasicInv(c) && BasicInv(After(c, ev, t)) && LogInv(c)
    ensures var s, inp := Mover(c, ev), InputOf(ev);
            && Sound(s, t) && RequestFacts(s, t) && RoleFacts(s, inp, t) && ReplyFacts(s, inp, t)
            && LogFacts(s, inp, t) && CommitFacts(s, inp, t) && PrimaryFacts(s, inp, t) && FreshPrimary(s, t)
            && FaultFacts(s, inp, t)
  {
    hide NodeInv, Requests, Replies, PrimariesLogged, LogsCoherent, AesKnown, AllSingle, VoteInv, RequestFacts,
         RoleFacts, ReplyFacts, LogFacts, CommitFacts, PrimaryFacts, FreshPrimary, FaultFacts, VoteFacts;
  }

  /** A reply the mover has not yet given cannot have been given: answers stay at or below the remembered lsn. */
  lemma NotYetSpoken(c: Cluster, ev: Event, t: Node, hi: int)
    requires Retaining(c, ev, t) && Heeds(Mover(c, ev), InputOf(ev))
    ensures var m := InputOf(ev).msg; !Spoke(c, NodeOf(ev), m.from, m.term, m.lsn, hi)
  {
    hide Logging, ReplicaInv, RefusalsFirst, AesAfterAcks, Ladders, NextsFit, NodeInv, Agree, MsgShape, Requests,
         Replies, Sound, RequestFacts, Effects, LogInv, Offered;
    LoggingFacts(c, ev, t);
    var m, v := InputOf(ev).msg, NodeOf(ev);
    forall b | b in c.hist.acks && AckOf(b, v, m.from, m.term) ensures b.lsn < m.lsn {
      assert AckPlaced(c, b);
    }
    forall l | l in c.net && RefusalOf(l, v, m.from, m.term) ensures l.msg.lsn < m.lsn {
      assert RefusalPlaced(c, l) && LetterOk(c, l);
    }
  }

  /** When a follower gets to an AE, the AEs sent after it to this follower are at the same position. */
  lemma LaterAesWait(c: Cluster, ev: Event, t: Node, l: Letter)
    requires Retaining(c, ev, t) && Heeds(Mover(c, ev), InputOf(ev)) && l in c.net
    requires var m := InputOf(ev).msg; AeOf(l, NodeOf(ev), m.from, m.term) && m.lsn < l.msg.lsn
    ensures l.msg.prelogIndex == InputOf(ev).msg.prelogIndex
  {
    hide Logging, ReplicaInv, RefusalsFirst, AesAfterAcks, AcksPlaced, RefusalsPlaced, NextsFit, Spoke, BasicInv,
         Effects, Sound, Offered, NodesOk;
    LoggingFacts(c, ev, t);
    NotYetSpoken(c, ev, t, l.msg.lsn);
    assert Ladder(c, ev.letter, l);
  }

  lemma SamePrimary(c: Cluster, l: Letter, a: Ack)
    requires LogInv(c) && l in c.net && l.msg.AppendEntry? && a.term == l.msg.term
    requires AckPlaced(c, a)
    ensures a.primary == l.msg.from
  {
    hide BasicInv, VoteInv, Single, PrimariesLogged, LogsCoherent, Agree;
    assert AeKnown(c, l);
    OneWinner(c, a.primary, l.msg.from, a.term);
  }

  /** A follower that acknowledged an AE of its term finds every later AE of that term matching its log. */
  lemma NeverRefusesAgain(c: Cluster, ev: Event, t: Node, a: Ack)
    requires Retaining(c, ev, t) && Heeds(Mover(c, ev), InputOf(ev))
    requires a in c.hist.acks && a.node == NodeOf(ev) && a.term == InputOf(ev).msg.term
    ensures Matches(Mover(c, ev).log, InputOf(ev).msg)
    ensures Mover(c, ev).term == a.term && a.primary == InputOf(ev).msg.from && a.lsn < InputOf(ev).msg.lsn
    ensures InputOf(ev).msg.entries != [] ==> a.len <= InputOf(ev).msg.prelogIndex + 2
  {
    hide Logging, ReplicaInv, RefusalsFirst, RefusalsPlaced, Ladders, NextsFit, NodeInv, BasicInv, LogInv, NodesOk,
         Sound, RequestFacts, Effects, Offered;
    LoggingFacts(c, ev, t);
    var l := ev.letter;
    assert AckPlaced(c, a);
    SamePrimary(c, l, a);
    assert AeAfterAck(c, l, a);
    var b :| b in c.hist.acks && AckOf(b, a.node, a.primary, a.term) && b.lsn < l.msg.lsn && l.msg.prelogIndex + 1 <= b.len;
    assert AckPlaced(c, b);
    LetterFits(c, l);
  }

  lemma LetterFits(c: Cluster, l: Letter)
    requires LogInv(c) && l in c.net && l.msg.AppendEntry?
    ensures l.msg.term in c.hist.plog && AeFits(l.msg, c.hist.plog[l.msg.term])
  {
    hide BasicInv, VoteInv, AllSingle, PrimariesLogged, LogsCoherent, AeFits;
    assert AeKnown(c, l);
  }

  // ----- every part is kept

  /** The acknowledgement a step adds, if any. */
  lemma NewAck(c: Cluster, ev: Event, t: Node, a: Ack)
    requires Retaining(c, ev, t) && a in After(c, ev, t).hist.acks && a !in c.hist.acks
    ensures ev.Deliver? && ev.letter in c.net && Accepts(Mover(c, ev), InputOf(ev)) && t.term == ev.letter.msg.term
    ensures var m := ev.letter.msg;
            a == Ack(NodeOf(ev), m.from, m.term, m.lsn, m.prelogIndex + 1 + |m.entries|, t.log) && |m.entries| <= 1
    ensures NodeOf(ev) != ev.letter.msg.from && ev.letter.msg.from in c.config
  {
    hide LogInv, BasicInv, VoteInv, AllSingle, ReplicaInv, Catching, StepFacts, Fresh, Matches;
    AcceptedShape(c, ev, t);
    SenderOther(c, ev, t);
  }

  lemma SenderOther(c: Cluster, ev: Event, t: Node)
    requires Logging(c, ev, t) && ev.Deliver?
    ensures NodeOf(ev) != ev.letter.msg.from && ev.letter.msg.from in c.config && LetterOk(c, ev.letter)
    ensures IsRequest(ev.letter.msg) ==> Numbered(c, ev.letter)
  {
    hide NodesOk, VoteInv, AllSingle, PrimariesLogged, LogsCoherent, AesKnown, StepFacts, MsgShape;
    assert LetterOk(c, ev.letter);
  }

  lemma NewAckPlaced(c: Cluster, ev: Event, t: Node, a: Ack)
    requires Retaining(c, ev, t) && a in After(c, ev, t).hist.acks && a !in c.hist.acks
    ensures NodesOk(After(c, ev, t)) && AckPlaced(After(c, ev, t), a)
  {
    hide Logging, ReplicaInv, Catching, NodeInv, Agree, LogsCoherent, PrimariesLogged, AesKnown, LogInv, BasicInv,
         RequestFacts, RoleFacts, ReplyFacts, CommitFacts, PrimaryFacts, FreshPrimary, FaultFacts, AeFits, Accepts;
    NewAck(c, ev, t, a);
    LoggingParts(c, ev, t);
    LoggingFacts(c, ev, t);
    MoverCoherent(c, ev, t);
    PlogGrows(c, ev, t);
    SenderOther(c, ev, t);
    assert AeKnown(c, ev.letter) by {
      KnownLetter(c, ev.letter);
    }
    AcceptsMeans(Mover(c, ev), InputOf(ev));
    AgreeGrows(t.log, c.hist.plog[t.term], After(c, ev, t).hist.plog[t.term], a.len);
  }

  /** Read back where both definitions are hidden. */
  lemma AcceptsMeans(s: Node, inp: Input)
    ensures Heeds(s, inp) ==> IsAe(inp)
    ensures Accepts(s, inp) <==> Heeds(s, inp) && Matches(s.log, inp.msg)
  {
  }

  lemma KnownLetter(c: Cluster, l: Letter)
    requires LogInv(c) && l in c.net
    ensures AeKnown(c, l)
  {
    hide BasicInv, VoteInv, AllSingle, PrimariesLogged, LogsCoherent, AeKnown;
  }

  /** The mover, as the follower of an old acknowledgement, keeps the acknowledged prefix. */
  lemma PrefixKept(c: Cluster, ev: Event, t: Node, a: Ack)
    requires Retaining(c, ev, t) && a in c.hist.acks && a.node == NodeOf(ev) && t.term == a.term
    ensures a.term in After(c, ev, t).hist.plog && Agree(t.log, After(c, ev, t).hist.plog[a.term], a.len)
  {
    hide Logging, ReplicaInv, RefusalsFirst, RefusalsPlaced, Ladders, NextsFit, AesAfterAcks, NodeInv, BasicInv,
         LogInv, RequestFacts, RoleFacts, ReplyFacts, CommitFacts, PrimaryFacts, FreshPrimary, FaultFacts;
    LoggingFacts(c, ev, t);
    PlogGrows(c, ev, t);
    assert AckPlaced(c, a);
    var s, inp := Mover(c, ev), InputOf(ev);
    var plog, plog' := c.hist.plog[a.term], After(c, ev, t).hist.plog[a.term];
    if Accepts(s, inp) && inp.msg.entries != [] {
      NeverRefusesAgain(c, ev, t, a);
      MoverCoherent(c, ev, t);
      AgreeGrows(t.log, plog, plog', a.len);
    } else {
      assert s.log <= t.log;
      AgreeGrows(s.log, plog, plog', a.len);
    }
  }

  lemma OldAckPlaced(c: Cluster, ev: Event, t: Node, a: Ack)
    requires Retaining(c, ev, t) && a in c.hist.acks
    ensures NodesOk(After(c, ev, t)) && AckPlaced(After(c, ev, t), a)
  {
    hide Logging, ReplicaInv, RefusalsFirst, RefusalsPlaced, Ladders, NextsFit, AesAfterAcks, NodeInv, BasicInv,
         LogInv, RoleFacts, ReplyFacts, CommitFacts, PrimaryFacts, FreshPrimary, FaultFacts, LogsCoherent,
         PrimariesLogged, AesKnown, Agree, Reachable, Accepts, Heeds;
    LoggingParts(c, ev, t);
    LoggingFacts(c, ev, t);
    PlogGrows(c, ev, t);
    assert AckPlaced(c, a);
    if a.node == NodeOf(ev) {
      if t.term == a.term {
        PrefixKept(c, ev, t, a);
      }
    } else {
      var n := a.node;
      if c.nodes[n].term == a.term {
        AgreeGrows(c.nodes[n].log, c.hist.plog[a.term], After(c, ev, t).hist.plog[a.term], a.len);
      }
    }
    if a.primary == NodeOf(ev) && t.term == a.term {
      LsnGrows(c, ev, t, a.node);
      WinnerTerm(c, a.primary, a.term);
    }
  }

  lemma WinnerTerm(c: Cluster, n: Addr, term: int)
    requires LogInv(c) && (n, term) in c.hist.wins
    ensures n in c.config && n in c.nodes && term <= c.nodes[n].term
    ensures c.nodes[n].term == term ==> c.nodes[n].role == Primary
  {
    hide BasicInv, AllSingle, PrimariesLogged, LogsCoherent, AesKnown, NodeInv, NetOk, VotesRemembered,
         SingleUnlessLate, Tallied;
  }

  lemma LsnGrows(c: Cluster, ev: Event, t: Node, v: Addr)
    requires Logging(c, ev, t) && v in c.config && v != NodeOf(ev)
    ensures t.term == Mover(c, ev).term ==> At(Mover(c, ev).curLsn, v) <= At(t.curLsn, v)
    ensures Mover(c, ev).term <= t.term
  {
    hide Logging, BasicInv, LogInv, NodeInv, RoleFacts, ReplyFacts, CommitFacts, PrimaryFacts, FreshPrimary, FaultFacts,
         LogFacts, RequestFor;
    LoggingFacts(c, ev, t);
    assert Quiet(Mover(c, ev), t, v) || Asked(Mover(c, ev), t, v);
  }

  /** A refusal that is new comes from a node that heeded the AE, found no match, and never acknowledged. */
  lemma NewRefusal(c: Cluster, ev: Event, t: Node, l: Letter)
    requires Retaining(c, ev, t) && l in After(c, ev, t).net && l !in c.net && IsRefusal(l)
    ensures ev.Deliver? && Heeds(Mover(c, ev), InputOf(ev)) && l.re == Some(ev.letter.msg)
    ensures !Matches(Mover(c, ev).log, ev.letter.msg) && 0 <= ev.letter.msg.prelogIndex
    ensures l.msg.from == NodeOf(ev) && l.to == ev.letter.msg.from && l.msg.term == t.term == ev.letter.msg.term
    ensures l.msg.lsn == ev.letter.msg.lsn == At(t.folLsn, l.to)
    ensures forall a :: a in c.hist.acks ==> !(a.node == NodeOf(ev) && a.term == t.term)
  {
    hide ReplicaInv, Catching, NodeInv, RequestFacts, RoleFacts, CommitFacts, PrimaryFacts, FreshPrimary, FaultFacts,
         LogInv, VoteInv, AllSingle, Requests, Replies, VoteFacts, NodesOk, NetOk, Fresh;
    FreshReply(c, ev, t, l);
    forall a | a in c.hist.acks && a.node == NodeOf(ev) && a.term == t.term ensures false {
      NeverRefusesAgain(c, ev, t, a);
    }
    SenderOther(c, ev, t);
  }

  lemma FreshReply(c: Cluster, ev: Event, t: Node, l: Letter)
    requires Logging(c, ev, t) && l in After(c, ev, t).net && l !in c.net && IsRefusal(l)
    ensures ev.Deliver? && ev.letter.msg.AppendEntry? && l.re == Some(ev.letter.msg) && l.msg.from == NodeOf(ev)
    ensures l.msg.term == t.term && l.msg.lsn == ev.letter.msg.lsn && l.to == ev.letter.msg.from
    ensures Heeds(Mover(c, ev), InputOf(ev)) && !Matches(Mover(c, ev).log, ev.letter.msg)
  {
    hide VoteInv, AllSingle, PrimariesLogged, LogsCoherent, AesKnown, NodeInv, RoleFacts, VoteFacts, RequestFacts,
         CommitFacts, PrimaryFacts, FreshPrimary, FaultFacts, Matches, Fresh;
    NewReply(c, ev, t, l);
  }

  lemma AcksPlacedKept(c: Cluster, ev: Event, t: Node)
    requires Retaining(c, ev, t)
    ensures NodesOk(After(c, ev, t)) && AcksPlaced(After(c, ev, t))
  {
    hide Retaining, NodesOk, AckPlaced, Accepts;
    RetainingParts(c, ev, t);
    forall a | a in After(c, ev, t).hist.acks ensures AckPlaced(After(c, ev, t), a) {
      if a in c.hist.acks {
        OldAckPlaced(c, ev, t, a);
      } else {
        NewAckPlaced(c, ev, t, a);
      }
    }
  }

  lemma RetainingParts(c: Cluster, ev: Event, t: Node)
    requires Retaining(c, ev, t)
    ensures Logging(c, ev, t) && NodeOf(ev) in c.nodes && NodesOk(After(c, ev, t)) && NodesOk(c)
  {
    hide Logging, ReplicaInv, NodesOk, AcksPlaced, RefusalsPlaced;
    LoggingParts(c, ev, t);
  }

  lemma RefusalsPlacedKept(c: Cluster, ev: Event, t: Node)
    requires Retaining(c, ev, t)
    ensures NodesOk(After(c, ev, t)) && RefusalsPlaced(After(c, ev, t))
  {
    hide Retaining, NodesOk, RefusalPlaced;
    RetainingParts(c, ev, t);
    forall l | l in After(c, ev, t).net ensures RefusalPlaced(After(c, ev, t), l) {
      RefusalPlacedKept(c, ev, t, l);
    }
  }

  lemma RefusalPlacedKept(c: Cluster, ev: Event, t: Node, l: Letter)
    requires Retaining(c, ev, t) && l in After(c, ev, t).net
    ensures NodesOk(After(c, ev, t)) && RefusalPlaced(After(c, ev, t), l)
  {
    hide Logging, ReplicaInv, RefusalsFirst, AcksPlaced, Ladders, NextsFit, AesAfterAcks, NodeInv, BasicInv,
         LogInv, RoleFacts, ReplyFacts, CommitFacts, PrimaryFacts, FreshPrimary, FaultFacts, RequestFacts,
         Accepts, Heeds, Matches;
    RetainingParts(c, ev, t);
    LoggingFacts(c, ev, t);
    if l in c.net {
      assert RefusalPlaced(c, l);
      OldLetterTerm(c, l);
    } else if IsRefusal(l) {
      NewRefusal(c, ev, t, l);
    }
  }

  lemma OldLetterTerm(c: Cluster, l: Letter)
    requires BasicInv(c) && l in c.net
    ensures l.msg.from in c.nodes && l.msg.from in c.config && l.msg.term <= c.nodes[l.msg.from].term
  {
    hide Requests, Replies, NodesOk, MsgShape;
    assert LetterOk(c, l);
  }

  lemma RefusalsFirstKept(c: Cluster, ev: Event, t: Node)
    requires Retaining(c, ev, t)
    ensures RefusalsFirst(After(c, ev, t))
  {
    hide Retaining, RefusedFirst, Accepts;
    RetainingParts(c, ev, t);
    var c' := After(c, ev, t);
    forall l, a | l in c'.net && a in c'.hist.acks ensures RefusedFirst(c', l, a) {
      RefusedFirstKept(c, ev, t, l, a);
    }
  }

  lemma RefusedFirstKept(c: Cluster, ev: Event, t: Node, l: Letter, a: Ack)
    requires Retaining(c, ev, t) && l in After(c, ev, t).net && a in After(c, ev, t).hist.acks
    ensures RefusedFirst(After(c, ev, t), l, a)
  {
    hide Logging, ReplicaInv, AcksPlaced, RefusalsPlaced, Ladders, NextsFit, AesAfterAcks, NodesOk, Accepts, Heeds,
         Matches;
    RetainingParts(c, ev, t);
    if RefusalOf(l, a.node, a.primary, a.term) {
      if l !in c.net {
        NewRefusal(c, ev, t, l);
        if a !in c.hist.acks {
          NewAck(c, ev, t, a);
          AcceptsMeans(Mover(c, ev), InputOf(ev));
        }
      } else if a !in c.hist.acks {
        NewAck(c, ev, t, a);
        AcceptsMeans(Mover(c, ev), InputOf(ev));
        NotYetSpoken(c, ev, t, l.msg.lsn + 1);
      } else {
        assert RefusedFirst(c, l, a);
      }
    }
  }

  lemma ReachedGrows(a: set<Ack>, b: set<Ack>, v: Addr, n: Addr, term: int, lsn: int, lsn': int, len: int)
    requires a <= b && lsn <= lsn' && Reached(a, v, n, term, lsn, len)
    ensures Reached(b, v, n, term, lsn', len)
  {
  }

  /** A refusal the primary acts on, being of its own term, means no acknowledgement exists. */
  lemma RefusedMeansNone(c: Cluster, ev: Event, t: Node, a: Ack)
    requires Retaining(c, ev, t) && Refused(Mover(c, ev), InputOf(ev)) && a in c.hist.acks
    ensures ev.Deliver? && !AckOf(a, ev.letter.msg.from, NodeOf(ev), Mover(c, ev).term)
    ensures IsRefusal(ev.letter) && ev.letter in c.net && ev.letter.to == NodeOf(ev)
  {
    hide Logging, ReplicaInv, RefusalsPlaced, Ladders, NextsFit, AesAfterAcks, Agree, NodeInv, LogInv, Sound,
         RequestFacts, RoleFacts, ReplyFacts, CommitFacts, PrimaryFacts, FreshPrimary, FaultFacts, LogFacts, Requests, Shape;
    LoggingFacts(c, ev, t);
    assert Answered(c, ev.letter) && AckPlaced(c, a) && RefusedFirst(c, ev.letter, a);
  }

  lemma NextAfter(c: Cluster, ev: Event, t: Node, a: Ack)
    requires Retaining(c, ev, t) && a in c.hist.acks && a.primary == NodeOf(ev) && t.role == Primary && t.term == a.term
    ensures var s := Mover(c, ev);
            && s.role == Primary && s.term == t.term && a.node in c.config && a.node != NodeOf(ev)
            && a.len - 1 <= At(t.next, a.node)
            && Reached(c.hist.acks, a.node, a.primary, a.term, At(s.curLsn, a.node), At(t.next, a.node))
  {
    hide Logging, RefusalsPlaced, RefusalsFirst, Ladders, AesAfterAcks, Agree, NodeInv, LogInv, Sound, BasicInv,
         RequestFacts, ReplyFacts, CommitFacts, FreshPrimary, FaultFacts, LogFacts, OwnAnswer, NodesOk,
         OkBacked, AckTrue, HandedTrue, SavedBacked;
    LoggingFacts(c, ev, t);
    assert AckPlaced(c, a) && NextFits(c, a);
    WinnerTerm(c, a.primary, a.term);
    var s, inp := Mover(c, ev), InputOf(ev);
    if Acked(s, inp) && inp.msg.from == a.node {
      var b := AckedAck(c, ev);
      assert AckOf(b, a.node, a.primary, a.term) && b.lsn < At(s.curLsn, a.node);
      if Advances(s, inp.msg) {
        assert At(t.next, a.node) <= b.len;
      }
    } else if Refused(s, inp) && inp.msg.from == a.node {
      RefusedMeansNone(c, ev, t, a);
    }
  }

  /** A request that is new was built from the state after, under the lsn after the last one. */
  lemma NewAe(c: Cluster, ev: Event, t: Node, l: Letter)
    requires Logging(c, ev, t) && l in After(c, ev, t).net && l !in c.net && l.msg.AppendEntry?
    ensures t.role == Primary && l.msg.from == NodeOf(ev) && l.msg.term == t.term == Mover(c, ev).term
    ensures l.to in c.config && l.to != NodeOf(ev)
    ensures l.msg.prelogIndex == At(t.next, l.to) - 1 && l.msg.lsn == At(Mover(c, ev).curLsn, l.to)
    ensures At(t.curLsn, l.to) == l.msg.lsn + 1
  {
    hide VoteInv, AllSingle, PrimariesLogged, LogsCoherent, AesKnown, NodeInv, VoteFacts, ReplyFacts, LogFacts,
         CommitFacts, PrimaryFacts, FreshPrimary, FaultFacts, Requests, Replies, NetOk;
    NewRequest(c, ev, t, l);
  }

  lemma AeAfterAckKept(c: Cluster, ev: Event, t: Node, l: Letter, a: Ack)
    requires Retaining(c, ev, t) && l in After(c, ev, t).net && a in After(c, ev, t).hist.acks
    ensures AeAfterAck(After(c, ev, t), l, a)
  {
    hide Logging, ReplicaInv, AcksPlaced, RefusalsPlaced, RefusalsFirst, Ladders, NextsFit, NodesOk, Accepts, Heeds,
         Reached;
    RetainingParts(c, ev, t);
    var c' := After(c, ev, t);
    if AeOf(l, a.node, a.primary, a.term) && a.lsn < l.msg.lsn {
      if l in c.net && a in c.hist.acks {
        assert AeAfterAck(c, l, a);
        ReachedGrows(c.hist.acks, c'.hist.acks, a.node, a.primary, a.term, l.msg.lsn, l.msg.lsn, l.msg.prelogIndex + 1);
      } else if l in c.net {
        NewAck(c, ev, t, a);
        AcceptsMeans(Mover(c, ev), InputOf(ev));
        LaterAesWait(c, ev, t, l);
        ReachedBy(c'.hist.acks, a, l.msg.lsn, l.msg.prelogIndex + 1);
      } else {
        NewAe(c, ev, t, l);
        if a in c.hist.acks {
          NextAfter(c, ev, t, a);
          ReachedGrows(c.hist.acks, c'.hist.acks, a.node, a.primary, a.term, l.msg.lsn, l.msg.lsn, l.msg.prelogIndex + 1);
        } else {
          NewAck(c, ev, t, a);
        }
      }
    }
  }

  lemma ReachedBy(acks: set<Ack>, a: Ack, lsn: int, len: int)
    requires a in acks && a.lsn < lsn && len <= a.len
    ensures Reached(acks, a.node, a.primary, a.term, lsn, len)
  {
    assert AckOf(a, a.node, a.primary, a.term);
  }

  lemma AesAfterAcksKept(c: Cluster, ev: Event, t: Node)
    requires Retaining(c, ev, t)
    ensures AesAfterAcks(After(c, ev, t))
  {
    hide Retaining, AeAfterAck, NodesOk, Accepts;
    RetainingParts(c, ev, t);
    var c' := After(c, ev, t);
    forall l, a | l in c'.net && a in c'.hist.acks ensures AeAfterAck(c', l, a) {
      AeAfterAckKept(c, ev, t, l, a);
    }
  }

  lemma OldNextFits(c: Cluster, ev: Event, t: Node, a: Ack)
    requires Retaining(c, ev, t) && a in c.hist.acks
    ensures a.primary in After(c, ev, t).nodes && NextFits(After(c, ev, t), a)
  {
    hide Logging, ReplicaInv, AcksPlaced, RefusalsPlaced, RefusalsFirst, Ladders, AesAfterAcks, NodesOk, Accepts,
         Heeds, Reached;
    RetainingParts(c, ev, t);
    var c' := After(c, ev, t);
    var s := c'.nodes[a.primary];
    if s.role == Primary && s.term == a.term {
      if a.primary == NodeOf(ev) {
        NextAfter(c, ev, t, a);
        LsnGrows(c, ev, t, a.node);
        ReachedGrows(c.hist.acks, c'.hist.acks, a.node, a.primary, a.term, At(Mover(c, ev).curLsn, a.node),
                     At(t.curLsn, a.node), At(t.next, a.node));
      } else {
        assert NextFits(c, a);
        ReachedGrows(c.hist.acks, c'.hist.acks, a.node, a.primary, a.term, At(s.curLsn, a.node),
                     At(s.curLsn, a.node), At(s.next, a.node));
      }
    }
  }

  /** While a follower acknowledges, its primary still waits at the position of the AE in question. */
  lemma PrimaryWaits(c: Cluster, ev: Event, t: Node)
    requires Retaining(c, ev, t) && Heeds(Mover(c, ev), InputOf(ev))
    requires var n := InputOf(ev).msg.from;
             n in c.nodes && c.nodes[n].role == Primary && c.nodes[n].term == InputOf(ev).msg.term
    ensures var m := InputOf(ev).msg;
            m.lsn < At(c.nodes[m.from].curLsn, NodeOf(ev)) && At(c.nodes[m.from].next, NodeOf(ev)) == m.prelogIndex + 1
  {
    hide Logging, ReplicaInv, Catching, NodeInv, LogInv, Sound, RequestFacts, RoleFacts, ReplyFacts, CommitFacts,
         PrimaryFacts, FreshPrimary, FaultFacts, LogFacts, Replies, NetOk, MsgShape, Fresh;
    LoggingFacts(c, ev, t);
    SenderOther(c, ev, t);
    var l := ev.letter;
    var last :| last in c.net && IsLast(c.nodes[l.msg.from], l.to, last);
    if last.msg.lsn != l.msg.lsn {
      LaterAesWait(c, ev, t, last);
    } else {
      assert SameSlot(l, last);
    }
  }

  lemma NewNextFits(c: Cluster, ev: Event, t: Node, a: Ack)
    requires Retaining(c, ev, t) && a in After(c, ev, t).hist.acks && a !in c.hist.acks
    ensures a.primary in After(c, ev, t).nodes && NextFits(After(c, ev, t), a)
  {
    hide Logging, ReplicaInv, AcksPlaced, RefusalsPlaced, RefusalsFirst, Ladders, AesAfterAcks, NextsFit, Accepts,
         Heeds, Reached, NodeInv, Reachable;
    RetainingParts(c, ev, t);
    NewAck(c, ev, t, a);
    AcceptsMeans(Mover(c, ev), InputOf(ev));
    var c' := After(c, ev, t);
    var s := c'.nodes[a.primary];
    if s.role == Primary && s.term == a.term {
      PrimaryWaits(c, ev, t);
      ReachedBy(c'.hist.acks, a, At(s.curLsn, a.node), At(s.next, a.node));
    }
  }

  lemma NextsFitKept(c: Cluster, ev: Event, t: Node)
    requires Retaining(c, ev, t)
    ensures NextsFit(After(c, ev, t))
  {
    hide Retaining, NextFits, NodesOk, Accepts;
    RetainingParts(c, ev, t);
    var c' := After(c, ev, t);
    forall a | a in c'.hist.acks ensures a.primary in c'.nodes && NextFits(c', a) {
      if a in c.hist.acks {
        OldNextFits(c, ev, t, a);
      } else {
        NewNextFits(c, ev, t, a);
      }
    }
  }

  lemma SpokeGrows(c: Cluster, c': Cluster, v: Addr, n: Addr, term: int, lo: int, hi: int, lo': int, hi': int)
    requires c.net <= c'.net && c.hist.acks <= c'.hist.acks && lo' <= lo && hi <= hi'
    requires Spoke(c, v, n, term, lo, hi)
    ensures Spoke(c', v, n, term, lo', hi')
  {
  }

  /** If a primary moves its position for a peer, the peer answered the last AE. */
  lemma MovedMeansSpoke(c: Cluster, ev: Event, t: Node, v: Addr)
    requires Retaining(c, ev, t) && t.role == Primary && Mover(c, ev).role == Primary
    requires v in c.config && v != NodeOf(ev) && At(t.next, v) != At(Mover(c, ev).next, v)
    ensures var s := Mover(c, ev);
            t.term == s.term &&
            Spoke(c, v, NodeOf(ev), s.term, At(s.curLsn, v) - 1, At(s.curLsn, v))
  {
    hide Logging, Catching, NodeInv, LogInv, Sound, BasicInv, RequestFacts, ReplyFacts, CommitFacts, FreshPrimary,
         FaultFacts, LogFacts, OkBacked, AckTrue, HandedTrue, SavedBacked, NodesOk;
    LoggingFacts(c, ev, t);
    var s, inp := Mover(c, ev), InputOf(ev);
    if Acked(s, inp) {
      var b := AckedAck(c, ev);
      assert AckOf(b, v, NodeOf(ev), s.term);
    } else {
      RefusedHere(c, ev, t);
      assert RefusalOf(ev.letter, v, NodeOf(ev), s.term);
    }
  }

  lemma RefusedHere(c: Cluster, ev: Event, t: Node)
    requires Retaining(c, ev, t) && Refused(Mover(c, ev), InputOf(ev))
    ensures ev.Deliver? && RefusalOf(ev.letter, ev.letter.msg.from, NodeOf(ev), Mover(c, ev).term) && ev.letter in c.net
  {
    hide Logging, ReplicaInv, Catching, Shape, Requests, LogInv, Sound, RequestFacts, RoleFacts, ReplyFacts,
         CommitFacts, PrimaryFacts, FreshPrimary, FaultFacts, LogFacts;
    LoggingFacts(c, ev, t);
    assert Answered(c, ev.letter);
  }

  lemma NewRung(c: Cluster, ev: Event, t: Node, x: Letter, y: Letter)
    requires Retaining(c, ev, t) && x in c.net && y in After(c, ev, t).net && y !in c.net
    requires x.msg.AppendEntry? && AeOf(y, x.to, x.msg.from, x.msg.term) && x.msg.lsn < y.msg.lsn
    requires x.msg.prelogIndex != y.msg.prelogIndex
    ensures Spoke(After(c, ev, t), x.to, x.msg.from, x.msg.term, x.msg.lsn, y.msg.lsn)
  {
    hide Logging, ReplicaInv, AcksPlaced, RefusalsPlaced, RefusalsFirst, AesAfterAcks, NextsFit, NodeInv, LogInv,
         RequestFacts, RoleFacts, ReplyFacts, CommitFacts, PrimaryFacts, FreshPrimary, FaultFacts, LogFacts, Sound,
         Replies, NetOk, Spoke, Heeds, Accepts;
    LoggingFacts(c, ev, t);
    NewAe(c, ev, t, y);
    KnownLetter(c, x);
    WinnerTerm(c, x.msg.from, x.msg.term);
    var s, v, n := Mover(c, ev), x.to, NodeOf(ev);
    var last :| last in c.net && IsLast(s, v, last);
    if At(t.next, v) != At(s.next, v) {
      MovedMeansSpoke(c, ev, t, v);
      assert Numbered(c, x);
      SpokeGrows(c, After(c, ev, t), v, n, s.term, At(s.curLsn, v) - 1, At(s.curLsn, v), x.msg.lsn, y.msg.lsn);
    } else {
      assert Numbered(c, x);
      assert x != last;
      assert SameSlot(x, last);
      assert Ladder(c, x, last);
      SpokeGrows(c, After(c, ev, t), v, n, s.term, x.msg.lsn, last.msg.lsn, x.msg.lsn, y.msg.lsn);
    }
  }

  lemma LadderKept(c: Cluster, ev: Event, t: Node, x: Letter, y: Letter)
    requires Retaining(c, ev, t) && x in After(c, ev, t).net && y in After(c, ev, t).net
    ensures Ladder(After(c, ev, t), x, y)
  {
    hide Logging, ReplicaInv, AcksPlaced, RefusalsPlaced, RefusalsFirst, AesAfterAcks, NextsFit, NodesOk, Spoke,
         Heeds, Accepts;
    RetainingParts(c, ev, t);
    if x.msg.AppendEntry? && AeOf(y, x.to, x.msg.from, x.msg.term) && x.msg.lsn < y.msg.lsn
       && x.msg.prelogIndex != y.msg.prelogIndex {
      if x !in c.net {
        NewAe(c, ev, t, x);
        if y !in c.net {
          NewAe(c, ev, t, y);
        } else {
          BelowCounter(c, ev, t, y);
        }
      } else if y !in c.net {
        NewRung(c, ev, t, x, y);
      } else {
        assert Ladder(c, x, y);
        SpokeGrows(c, After(c, ev, t), x.to, x.msg.from, x.msg.term, x.msg.lsn, y.msg.lsn, x.msg.lsn, y.msg.lsn);
      }
    }
  }

  lemma BelowCounter(c: Cluster, ev: Event, t: Node, l: Letter)
    requires Logging(c, ev, t) && l in c.net && IsRequest(l.msg) && l.msg.from == NodeOf(ev)
    ensures l.msg.term == Mover(c, ev).term ==> l.msg.lsn < At(Mover(c, ev).curLsn, l.to)
  {
    hide Shape, Replies, VoteInv, AllSingle, PrimariesLogged, LogsCoherent, AesKnown, StepFacts;
    assert Numbered(c, l);
  }

  lemma LaddersKept(c: Cluster, ev: Event, t: Node)
    requires Retaining(c, ev, t)
    ensures Ladders(After(c, ev, t))
  {
    hide Retaining, Ladder, NodesOk, Accepts;
    RetainingParts(c, ev, t);
    var c' := After(c, ev, t);
    forall x, y | x in c'.net && y in c'.net ensures Ladder(c', x, y) {
      LadderKept(c, ev, t, x, y);
    }
  }

  lemma CatchingKept(c: Cluster, ev: Event, t: Node)
    requires Retaining(c, ev, t)
    ensures Catching(After(c, ev, t))
  {
    hide Retaining, NodesOk, AcksPlaced, RefusalsPlaced, RefusalsFirst, AesAfterAcks, Ladders, NextsFit, Accepts;
    RetainingParts(c, ev, t);
    AcksPlacedKept(c, ev, t);
    RefusalsPlacedKept(c, ev, t);
    RefusalsFirstKept(c, ev, t);
    AesAfterAcksKept(c, ev, t);
    LaddersKept(c, ev, t);
    NextsFitKept(c, ev, t);
  }
}
