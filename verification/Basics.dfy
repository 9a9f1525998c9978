/** What every run keeps, whatever is delivered, lost, repeated or reordered, and with no assumption on it. */
module Basics {
  import opened RaftTypes
  import opened NodeSpec
  import opened NodeFacts
  import opened NodeSteps
  import opened Cluster

  // ----- nodes and letters are well shaped

  ghost predicate NodesOk(c: Cluster) {
    forall v :: v in c.config ==>
      && v in c.nodes && c.nodes[v].self == v && c.nodes[v].config == c.config
      && c.nodes[v].outbox == [] && NodeInv(c.nodes[v])
      && (c.nodes[v].fault.Some? ==> Reachable(c.nodes[v].fault.value))
  }

  ghost predicate LetterOk(c: Cluster, l: Letter) {
    && l.to in c.config && l.msg.from in c.config && l.msg.from != l.to
    && MsgShape(l.msg)
    && l.msg.from in c.nodes && l.msg.term <= c.nodes[l.msg.from].term
  }

  ghost predicate NetOk(c: Cluster) {
    && (forall l :: l in c.net ==> LetterOk(c, l))
    && c.spent <= c.net
  }

  ghost predicate Shape(c: Cluster) {
    NodesOk(c) && NetOk(c)
  }

  /** The node of an event, before it. */
  function Mover(c: Cluster, ev: Event): Node
    requires NodeOf(ev) in c.nodes
  {
    c.nodes[NodeOf(ev)]
  }

  lemma InputOk(c: Cluster, ev: Event)
    requires Shape(c) && Enabled(c, ev)
    ensures NodeInv(Mover(c, ev)) && Idle(Mover(c, ev)) && InputShape(Mover(c, ev), InputOf(ev))
  {
    hide NodeInv, MsgShape;
  }

  lemma NewLetter(c: Cluster, ev: Event, t: Node, l: Letter)
    requires NodeOf(ev) in c.nodes && l in After(c, ev, t).net && l !in c.net
    ensures exists p :: p in t.outbox && l == Wrap(p, InputOf(ev))
  {
  }

  lemma ShapeKept(c: Cluster, ev: Event, t: Node)
    requires Shape(c) && Enabled(c, ev) && Sound(Mover(c, ev), t)
    ensures Shape(After(c, ev, t))
  {
    hide NodeInv, MsgShape;
    var c', n := After(c, ev, t), NodeOf(ev);
    DeliveredInv(t);
    forall l | l in c'.net ensures LetterOk(c', l) {
      if l !in c.net {
        NewLetter(c, ev, t, l);
      }
    }
  }

  // ----- requests: one lsn, one request

  ghost predicate SameSlot(a: Letter, b: Letter) {
    a.msg.from == b.msg.from && a.to == b.to && a.msg.term == b.msg.term
    && IsRequest(a.msg) && IsRequest(b.msg)
  }

  /** Within a term the lsns of the requests from one server to another are below the sender's counter. */
  ghost predicate Numbered(c: Cluster, l: Letter)
    requires l.msg.from in c.nodes
  {
    IsRequest(l.msg) ==>
      && l.re == None
      && (l.msg.term == c.nodes[l.msg.from].term ==> l.msg.lsn < At(c.nodes[l.msg.from].curLsn, l.to))
  }

  ghost predicate IsLast(s: Node, v: Addr, l: Letter) {
    && l.to == v && l.msg.from == s.self && l.msg.term == s.term
    && l.msg.AppendEntry? && l.msg.lsn == At(s.curLsn, v) - 1 && l.msg.prelogIndex == At(s.next, v) - 1
  }

  ghost predicate Requests(c: Cluster)
    requires NodesOk(c) && NetOk(c)
  {
    && (forall l :: l in c.net ==> Numbered(c, l))
    && (forall a, b :: a in c.net && b in c.net && SameSlot(a, b) && a.msg.lsn == b.msg.lsn ==> a == b)
    && (forall n, v :: n in c.config && v in c.config && v != n && c.nodes[n].role == Primary ==>
          exists l :: l in c.net && IsLast(c.nodes[n], v, l))
  }

  /** A new request from a node goes to a peer the step asked, and is the one described by RequestFor. */
  lemma NewRequest(c: Cluster, ev: Event, t: Node, l: Letter)
    requires Shape(c) && Enabled(c, ev) && Sound(Mover(c, ev), t) && RequestFacts(Mover(c, ev), t)
    requires l in After(c, ev, t).net && l !in c.net && IsRequest(l.msg)
    ensures l.to in c.config && l.to != t.self && Asked(Mover(c, ev), t, l.to)
    ensures l == Letter(l.to, RequestFor(t, l.to, At(t.curLsn, l.to) - 1), None)
  {
    hide NodeInv, MsgShape;
    NewLetter(c, ev, t, l);
    var p :| p in t.outbox && l == Wrap(p, InputOf(ev));
  }

  lemma NumberedKept(c: Cluster, ev: Event, t: Node, l: Letter)
    requires Shape(c) && Requests(c) && Enabled(c, ev) && Sound(Mover(c, ev), t) && RequestFacts(Mover(c, ev), t)
    requires Shape(After(c, ev, t)) && l in After(c, ev, t).net
    ensures Numbered(After(c, ev, t), l)
  {
    hide NodeInv, MsgShape, Offered, Sound, RequestFacts, Numbered;
    assert LetterOk(After(c, ev, t), l);
    if l in c.net {
      OldNumbered(c, ev, t, l);
    } else {
      NewNumbered(c, ev, t, l);
    }
  }

  lemma OldNumbered(c: Cluster, ev: Event, t: Node, l: Letter)
    requires Shape(c) && Enabled(c, ev) && Sound(Mover(c, ev), t) && RequestFacts(Mover(c, ev), t)
    requires l in c.net && Numbered(c, l) && l.msg.from in After(c, ev, t).nodes
    ensures Numbered(After(c, ev, t), l)
  {
    hide NodeInv, MsgShape, Offered;
    assert LetterOk(c, l);
  }

  lemma NewNumbered(c: Cluster, ev: Event, t: Node, l: Letter)
    requires Shape(c) && Enabled(c, ev) && Sound(Mover(c, ev), t) && RequestFacts(Mover(c, ev), t)
    requires l !in c.net && l in After(c, ev, t).net && l.msg.from in After(c, ev, t).nodes
    ensures Numbered(After(c, ev, t), l)
  {
    hide NodeInv, MsgShape, Offered, RequestFacts, LetterOk;
    if IsRequest(l.msg) {
      NewRequest(c, ev, t, l);
    }
  }

  lemma UniqueKept(c: Cluster, ev: Event, t: Node, a: Letter, b: Letter)
    requires Shape(c) && Requests(c) && Enabled(c, ev) && Sound(Mover(c, ev), t) && RequestFacts(Mover(c, ev), t)
    requires a in After(c, ev, t).net && b in After(c, ev, t).net
    requires SameSlot(a, b) && a.msg.lsn == b.msg.lsn
    ensures a == b
  {
    hide NodeInv, MsgShape;
    if a !in c.net {
      NewRequest(c, ev, t, a);
    }
    if b !in c.net {
      NewRequest(c, ev, t, b);
    }
  }

  lemma AskedLast(c: Cluster, ev: Event, t: Node, v: Addr)
    requires NodeOf(ev) in c.nodes && t.self == NodeOf(ev) && t.role == Primary
    requires Asked(Mover(c, ev), t, v)
    ensures exists l :: l in After(c, ev, t).net && IsLast(t.(outbox := []), v, l)
  {
    var p := Packet(v, RequestFor(t, v, At(t.curLsn, v) - 1));
    var l := Wrap(p, InputOf(ev));
    assert l in Mailed(t.outbox, InputOf(ev));
    assert IsLast(t.(outbox := []), v, l);
  }

  lemma QuietLast(c: Cluster, ev: Event, t: Node, v: Addr)
    requires NodeOf(ev) in c.nodes && Mover(c, ev).self == t.self && t.role == Primary
    requires Quiet(Mover(c, ev), t, v)
    requires exists l :: l in c.net && IsLast(Mover(c, ev), v, l)
    ensures exists l :: l in After(c, ev, t).net && IsLast(t.(outbox := []), v, l)
  {
    var l :| l in c.net && IsLast(Mover(c, ev), v, l);
    assert IsLast(t.(outbox := []), v, l);
  }

  lemma LastKept(c: Cluster, ev: Event, t: Node, n: Addr, v: Addr)
    requires Shape(c) && Requests(c) && Enabled(c, ev) && Sound(Mover(c, ev), t) && RequestFacts(Mover(c, ev), t)
    requires n in c.config && v in c.config && v != n && After(c, ev, t).nodes[n].role == Primary
    ensures exists l :: l in After(c, ev, t).net && IsLast(After(c, ev, t).nodes[n], v, l)
  {
    hide NodeInv, MsgShape, IsLast, Asked, Numbered;
    if n != NodeOf(ev) {
      var l :| l in c.net && IsLast(c.nodes[n], v, l);
      assert l in After(c, ev, t).net;
    } else if Quiet(Mover(c, ev), t, v) {
      QuietLast(c, ev, t, v);
    } else {
      AskedLast(c, ev, t, v);
    }
  }

  lemma RequestsKept(c: Cluster, ev: Event, t: Node)
    requires Shape(c) && Requests(c) && Enabled(c, ev) && Sound(Mover(c, ev), t) && RequestFacts(Mover(c, ev), t)
    requires Shape(After(c, ev, t))
    ensures Requests(After(c, ev, t))
  {
    hide NodeInv, MsgShape, IsLast, Numbered, Sound, RequestFacts;
    var c' := After(c, ev, t);
    forall l | l in c'.net ensures Numbered(c', l) {
      NumberedKept(c, ev, t, l);
    }
    forall a, b | a in c'.net && b in c'.net && SameSlot(a, b) && a.msg.lsn == b.msg.lsn ensures a == b {
      UniqueKept(c, ev, t, a, b);
    }
    forall n, v | n in c.config && v in c.config && v != n && c'.nodes[n].role == Primary
      ensures exists l :: l in c'.net && IsLast(c'.nodes[n], v, l)
    {
      LastKept(c, ev, t, n, v);
    }
  }

  // ----- replies answer a request that was sent

  ghost predicate Answered(c: Cluster, l: Letter) {
    l.msg.RespAppend? ==>
      && l.re.Some? && l.re.value.AppendEntry?
      && var m := l.re.value;
      && Letter(l.msg.from, m, None) in c.net
      && m.from == l.to && m.lsn == l.msg.lsn && (l.msg.isEmptyAe <==> m.entries == [])
      && m.term <= l.msg.term && (l.msg.ok ==> m.term == l.msg.term)
  }

  ghost predicate Replies(c: Cluster) {
    forall l :: l in c.net ==> Answered(c, l)
  }

  lemma NewReply(c: Cluster, ev: Event, t: Node, l: Letter)
    requires Shape(c) && Requests(c) && Enabled(c, ev) && Sound(Mover(c, ev), t)
    requires ReplyFacts(Mover(c, ev), InputOf(ev), t) && LogFacts(Mover(c, ev), InputOf(ev), t)
    requires l in After(c, ev, t).net && l !in c.net && l.msg.RespAppend?
    ensures Answered(After(c, ev, t), l)
    ensures ev.Deliver? && ev.letter.msg.AppendEntry? && l.re == Some(ev.letter.msg) && l.msg.from == NodeOf(ev)
    ensures l.msg.term == t.term && l.msg.lsn == ev.letter.msg.lsn && l.to == ev.letter.msg.from
    ensures if l.msg.ok then Accepts(Mover(c, ev), InputOf(ev))
            else ev.letter.msg.term < Mover(c, ev).term ||
                 (Heeds(Mover(c, ev), InputOf(ev)) && !Matches(Mover(c, ev).log, ev.letter.msg))
  {
    hide NodeInv, MsgShape, IsLast;
    NewLetter(c, ev, t, l);
    var p :| p in t.outbox && l == Wrap(p, InputOf(ev));
    assert Numbered(c, ev.letter);
  }

  lemma RepliesKept(c: Cluster, ev: Event, t: Node)
    requires Shape(c) && Requests(c) && Replies(c) && Enabled(c, ev) && Sound(Mover(c, ev), t)
    requires ReplyFacts(Mover(c, ev), InputOf(ev), t) && LogFacts(Mover(c, ev), InputOf(ev), t)
    ensures Replies(After(c, ev, t))
  {
    hide Shape, Requests, Sound, ReplyFacts, LogFacts, Offered;
    forall l | l in After(c, ev, t).net ensures Answered(After(c, ev, t), l) {
      if l in c.net {
        assert Answered(c, l);
      } else if l.msg.RespAppend? {
        NewReply(c, ev, t, l);
      }
    }
  }

  /** A reply that a primary acts on, to an AE of its current term, answers the last request it sent to that
      peer: the AE for the entry before next[peer]. */
  lemma Correlates(c: Cluster, ev: Event)
    requires Shape(c) && Requests(c) && Replies(c) && Enabled(c, ev) && ev.Deliver?
    requires Answers(Mover(c, ev), InputOf(ev)) && ev.letter.re.Some?
    requires ev.letter.re.value.term == Mover(c, ev).term
    ensures var l := ev.letter;
            && Letter(l.msg.from, l.re.value, None) in c.net
            && IsLast(Mover(c, ev), l.msg.from, Letter(l.msg.from, l.re.value, None))
            && (l.msg.isEmptyAe <==> l.re.value.entries == [])
  {
    hide NodeInv, MsgShape, Numbered;
    var l, s := ev.letter, Mover(c, ev);
    assert Answered(c, l);
    var asked := Letter(l.msg.from, l.re.value, None);
    var last :| last in c.net && IsLast(s, l.msg.from, last);
    assert SameSlot(asked, last);
  }

  // ----- the invariant of every run

  ghost predicate BasicInv(c: Cluster) {
    Shape(c) && Requests(c) && Replies(c)
  }

  lemma BasicInit(c: Cluster)
    requires Init(c)
    ensures BasicInv(c)
  {
  }

  lemma StepOk(c: Cluster, ev: Event)
    requires Shape(c) && Enabled(c, ev)
    ensures StepFacts(Mover(c, ev), InputOf(ev), Handle(Mover(c, ev), InputOf(ev)))
  {
    hide StepFacts, NodeInv;
    InputOk(c, ev);
    HandleFacts(Mover(c, ev), InputOf(ev));
  }

  lemma BasicKept(c: Cluster, ev: Event, t: Node)
    requires BasicInv(c) && Enabled(c, ev) && StepFacts(Mover(c, ev), InputOf(ev), t)
    ensures BasicInv(After(c, ev, t))
  {
    hide Shape, Requests, Replies, Sound, RequestFacts, ReplyFacts, RoleFacts, VoteFacts, LogFacts, CommitFacts,
         PrimaryFacts, FaultFacts;
    ShapeKept(c, ev, t);
    RequestsKept(c, ev, t);
    RepliesKept(c, ev, t);
  }

  lemma {:induction false} BasicsHold(r: Run, i: nat)
    requires IsRun(r) && i < |r.states|
    ensures BasicInv(r.states[i])
  {
    hide BasicInv, StepFacts, Init, Enabled, Handle;
    if i == 0 {
      BasicInit(r.states[0]);
    } else {
      BasicsHold(r, i - 1);
      StepAt(r, i - 1);
      BasicStep(r.states[i - 1], r.events[i - 1]);
    }
  }

  lemma BasicStep(c: Cluster, ev: Event)
    requires BasicInv(c) && Enabled(c, ev)
    ensures BasicInv(Step(c, ev))
  {
    hide StepFacts;
    StepOk(c, ev);
    BasicKept(c, ev, Handle(Mover(c, ev), InputOf(ev)));
  }
}
