/** The effect of each handler, as facts about the state s before a step, the input and the state t after. */
module NodeSteps {
  import opened RaftTypes
  import opened OrderStatistic
  import opened ApplyControl
  import opened NodeSpec
  import opened NodeFacts

  // ----- how an input meets a state

  predicate IsAe(inp: Input) {
    inp.Receive? && inp.msg.AppendEntry?
  }

  predicate IsRv(inp: Input) {
    inp.Receive? && inp.msg.RequestVote?
  }

  /** An AE of the term the node is already in, handled by a node that is not that term's primary. */
  predicate SameTermAe(s: Node, inp: Input) {
    IsAe(inp) && inp.msg.term == s.term && s.role != Primary
  }

  /** The request passes the term check and the at-most-once check of should_ignore_remote_rpc. */
  predicate Fresh(s: Node, m: Msg) {
    s.term < m.term || (s.term == m.term && At(s.folLsn, m.from) < m.lsn)
  }

  /** An AE that gets as far as the log check. */
  predicate Heeds(s: Node, inp: Input) {
    IsAe(inp) && Fresh(s, inp.msg) && !(s.role == Primary && s.term == inp.msg.term)
  }

  predicate Matches(log: seq<Entry>, m: Msg)
    requires m.AppendEntry?
  {
    m.prelogIndex == -1 || (0 <= m.prelogIndex < |log| && log[m.prelogIndex].term == m.prelogTerm)
  }

  predicate Accepts(s: Node, inp: Input) {
    Heeds(s, inp) && Matches(s.log, inp.msg)
  }

  function LogAfter(log: seq<Entry>, m: Msg): seq<Entry>
    requires m.AppendEntry?
  {
    if m.entries == [] || !(0 <= m.prelogIndex + 1 <= |log|) then log
    else log[..m.prelogIndex + 1] + [m.entries[0]]
  }

  /** A reply of the current term, at its primary, to the last request sent to that peer. */
  predicate Answers(s: Node, inp: Input) {
    && inp.Receive? && inp.msg.RespAppend?
    && s.role == Primary && inp.msg.term == s.term
    && At(s.curLsn, inp.msg.from) == inp.msg.lsn + 1
  }

  predicate Acked(s: Node, inp: Input) {
    Answers(s, inp) && inp.msg.ok
  }

  predicate Refused(s: Node, inp: Input) {
    Answers(s, inp) && !inp.msg.ok
  }

  /** The acknowledged AE carried an entry that the primary still had to count. */
  predicate Advances(s: Node, m: Msg)
    requires m.RespAppend?
  {
    At(s.next, m.from) < |s.log| && !m.isEmptyAe
  }

  /** A granted vote of the current term that a candidate counts. */
  predicate CountsBallot(s: Node, inp: Input) {
    && inp.Receive? && inp.msg.RespVote? && inp.msg.ok
    && s.role == Candidate && inp.msg.term == s.term
    && At(s.curLsn, inp.msg.from) == inp.msg.lsn + 1
  }

  // ----- facts about a step

  function BaseLsn(s: Node, t: Node, v: Addr): int {
    if t.term == s.term then At(s.curLsn, v) else 0
  }

  ghost predicate Quiet(s: Node, t: Node, v: Addr) {
    && (forall p :: p in t.outbox && p.to == v ==> !IsRequest(p.msg))
    && At(t.curLsn, v) == BaseLsn(s, t, v)
    && (t.role == Primary ==> s.role == Primary && s.term == t.term && At(t.next, v) == At(s.next, v))
  }

  ghost predicate Asked(s: Node, t: Node, v: Addr) {
    && t.role != Follower
    && At(t.curLsn, v) == BaseLsn(s, t, v) + 1
    && Packet(v, RequestFor(t, v, At(t.curLsn, v) - 1)) in t.outbox
    && (forall p :: p in t.outbox && p.to == v && IsRequest(p.msg) ==>
          p.msg == RequestFor(t, v, At(t.curLsn, v) - 1))
  }

  /** Each peer gets at most one request in a step; it takes the next lsn and reflects the state after. */
  ghost predicate RequestFacts(s: Node, t: Node) {
    forall v :: v in s.config && v != s.self ==> Quiet(s, t, v) || Asked(s, t, v)
  }

  ghost predicate RoleFacts(s: Node, inp: Input, t: Node) {
    && (t.role == Candidate && t.term == s.term ==> s.role == Candidate)
    && (t.role == Candidate && t.term != s.term ==> t.votes == 1)
    && (t.role == Primary ==> t.term == s.term)
    && (t.role == Primary && s.role != Primary ==>
          s.role == Candidate && CountsBallot(s, inp) && t.votes >= Majority(s.config) && t.log == s.log)
    && (t.role != Follower && t.term == s.term ==>
          t.votes == s.votes + if CountsBallot(s, inp) then 1 else 0)
    && (s.role == Primary && t.term == s.term ==> t.role == Primary)
    && (s.role == Candidate && t.term == s.term && t.role == Follower ==> SameTermAe(s, inp))
    && (CountsBallot(s, inp) ==> t.role != Follower && t.term == s.term)
    && (Answers(s, inp) ==> t.term == s.term)
    && (inp.ElectionTimeout? ==> t.role == Candidate && t.term == s.term + 1)
  }

  ghost predicate VoteFacts(s: Node, inp: Input, t: Node) {
    && (forall p :: p in t.outbox && p.msg.RespVote? ==>
          && IsRv(inp) && p.to == inp.msg.from
          && p.msg == RespVote(p.msg.ok, t.term, inp.msg.lsn, s.self)
          && (p.msg.ok ==>
                && t.term == inp.msg.term && t.role == Follower && t.voted
                && (s.term == t.term ==> s.role == Follower && !s.voted)))
    && (t.term == s.term && s.role == Follower && s.voted && !SameTermAe(s, inp) ==>
          t.role == Follower && t.voted)
  }

  ghost predicate ReplyFacts(s: Node, inp: Input, t: Node) {
    forall p :: p in t.outbox && p.msg.RespAppend? ==>
      && IsAe(inp) && p.to == inp.msg.from && inp.msg.term <= t.term
      && p.msg == RespAppend(p.msg.ok, t.term, inp.msg.lsn, s.self, inp.msg.entries == [])
      && (p.msg.ok ==> Accepts(s, inp) && t.fault.None?)
      && (!p.msg.ok ==> inp.msg.term < s.term || (Heeds(s, inp) && !Matches(s.log, inp.msg)))
  }

  ghost predicate LogFacts(s: Node, inp: Input, t: Node) {
    && (inp.Command? ==> t.log == s.log + [Entry(s.term, |s.log|, inp.cmd)] && t.term == s.term && t.role == s.role)
    && (Accepts(s, inp) ==> t.log == LogAfter(s.log, inp.msg))
    && (!inp.Command? && !Accepts(s, inp) ==> t.log == s.log)
    && (Heeds(s, inp) ==> t.term == inp.msg.term && t.role == Follower && At(t.folLsn, inp.msg.from) == inp.msg.lsn)
    && (t.term == s.term ==> forall w :: At(s.folLsn, w) <= At(t.folLsn, w))
  }

  ghost predicate CommitFacts(s: Node, inp: Input, t: Node) {
    && HandsOver(s.ctl, t.log, t.ctl)
    && (t.ctl != s.ctl ==> Accepts(s, inp) || Acked(s, inp))
    && (t.ctl.tasks != s.ctl.tasks ==> |t.ctl.tasks| <= t.commit + 1)
    && (t.commit != s.commit ==> Accepts(s, inp) || Acked(s, inp))
    && (Accepts(s, inp) ==>
          var last := inp.msg.prelogIndex + |inp.msg.entries|;
          t.commit == (if |t.log| - 1 < inp.msg.commitIndex then |t.log| - 1 else inp.msg.commitIndex)
          && t.commit <= last < |t.log|)
  }

  /** How the primary's view of a peer moves while it stays primary. */
  ghost predicate PrimaryFacts(s: Node, inp: Input, t: Node) {
    s.role == Primary && t.role == Primary && t.term == s.term ==>
      && (Acked(s, inp) ==>
            var v, last := inp.msg.from, At(s.next, inp.msg.from);
            && t.saved == s.saved[v := if Advances(s, inp.msg) then last else last - 1]
            && t.next == (if Advances(s, inp.msg) then s.next[v := last + 1] else s.next)
            && t.commit == CommitRule(t.saved, s.config) && t.fault.None?)
      && (Refused(s, inp) && t.fault.None? ==>
            && 0 < At(s.next, inp.msg.from) && t.saved == s.saved
            && t.next == s.next[inp.msg.from := At(s.next, inp.msg.from) - 1])
      && (!Acked(s, inp) && !(Refused(s, inp) && t.fault.None?) ==>
            t.next == s.next && (t.saved == s.saved || (inp.Command? && t.saved == s.saved[s.self := |s.log|])))
  }

  /** A node that has just become primary knows nothing yet of its peers' logs. */
  ghost predicate FreshPrimary(s: Node, t: Node) {
    t.role == Primary && s.role != Primary ==>
      forall v :: v in s.config && v != s.self ==> At(t.saved, v) == -1 && At(t.next, v) == |t.log|
  }

  /** Each reachable throw happens exactly under the guard of its branch. */
  ghost predicate FaultFacts(s: Node, inp: Input, t: Node) {
    t.fault ==
      if IsAe(inp) && inp.msg.term == s.term && s.role == Primary then Some(TwoPrimaries)
      else if inp.Receive? && inp.msg.RespAppend? && inp.msg.term == s.term && s.role != Primary then Some(RespToNonPrimary)
      else if Refused(s, inp) && At(s.next, inp.msg.from) == 0 then Some(RefusedAtZero)
      else if Accepts(s, inp) && t.commit < s.commit then Some(CommitDecreased)
      else None
  }

  ghost predicate StepFacts(s: Node, inp: Input, t: Node) {
    && Sound(s, t)
    && RequestFacts(s, t)
    && Effects(s, inp, t)
  }

  ghost predicate Effects(s: Node, inp: Input, t: Node) {
    && RoleFacts(s, inp, t)
    && VoteFacts(s, inp, t)
    && ReplyFacts(s, inp, t)
    && LogFacts(s, inp, t)
    && CommitFacts(s, inp, t)
    && PrimaryFacts(s, inp, t)
    && FreshPrimary(s, t)
    && FaultFacts(s, inp, t)
  }

  // ----- the facts hold of every handler

  predicate Idle(s: Node) {
    s.outbox == [] && s.fault.None?
  }

  lemma AeForShape(s: Node, v: Addr, lsn: int)
    requires LogShape(s.log, s.term) && 0 <= s.term && -1 <= s.commit < |s.log|
    requires 0 <= At(s.next, v) <= |s.log| && 0 <= lsn
    ensures MsgShape(AeFor(s, v, lsn))
  {
  }

  /** A single request, to v, after at most next[v] was moved. */
  lemma OneRequest(s: Node, s1: Node, v: Addr)
    requires s.outbox == s1.outbox == [] && s1.curLsn == s.curLsn && s1.term == s.term
    requires s1.role == s.role != Follower
    requires forall w :: w in s.config && w != v ==> At(s1.next, w) == At(s.next, w)
    ensures RequestFacts(s, Send(TakeLsn(s1, v), v, RequestFor(s1, v, At(s1.curLsn, v))))
  {
    var t := Send(TakeLsn(s1, v), v, RequestFor(s1, v, At(s1.curLsn, v)));
    forall w | w in s.config && w != s.self ensures Quiet(s, t, w) || Asked(s, t, w) {
      if w == v {
        assert t.outbox[0] == Packet(v, RequestFor(t, v, At(t.curLsn, v) - 1));
      }
    }
  }

  lemma BroadcastRequests(s: Node, s1: Node, t: Node)
    requires Broadcast(s1, t, s.config) && s1.outbox == []
    requires s1.self == s.self && s1.role != Follower
    requires forall v :: v in s.config ==> At(s1.curLsn, v) == BaseLsn(s, s1, v)
    ensures RequestFacts(s, t)
  {
    forall v | v in s.config && v != s.self ensures Asked(s, t, v) {
      assert IsBroadcastTo(s1, s.config, Packet(v, RequestFor(t, v, At(t.curLsn, v) - 1)));
    }
  }

  lemma BroadcastSound(s: Node, s1: Node, t: Node)
    requires Broadcast(s1, t, s.config) && s1.outbox == [] && s1.fault.None?
    requires s1.self == s.self && s1.config == s.config && s.term <= s1.term
    requires NodeInv(s1) && s1.role != Follower
    ensures Sound(s, t)
  {
    forall p | p in t.outbox ensures PacketShape(t, p) {
      assert IsBroadcastTo(s1, s.config, p);
      if s1.role == Primary {
        AeForShape(s1, p.to, At(s1.curLsn, p.to));
      }
    }
    assert LsnInv(t);
  }

  lemma OnlyRequests(s1: Node, t: Node, p: Packet)
    requires Broadcast(s1, t, s1.config) && s1.outbox == [] && p in t.outbox
    ensures IsRequest(p.msg)
  {
    assert IsBroadcastTo(s1, s1.config, p);
  }

  lemma TimeoutFacts(s: Node)
    requires NodeInv(s) && Idle(s) && s.role != Primary
    ensures StepFacts(s, ElectionTimeout, Trans2C(s))
  {
    hide StepFacts, Broadcast, LogShape, InOrder, LsnInv;
    var s1 := ResetBothLsn(s).(term := s.term + 1, role := Candidate, votes := 1);
    AskAllBroadcasts(s1, s.config);
    CandidateFacts(s, s1, Trans2C(s));
  }

  lemma CandidateFacts(s: Node, s1: Node, t: Node)
    requires NodeInv(s) && Idle(s) && s.role != Primary
    requires s1 == ResetBothLsn(s).(term := s.term + 1, role := Candidate, votes := 1)
    requires Broadcast(s1, t, s.config)
    ensures StepFacts(s, ElectionTimeout, t)
  {
    hide Effects, Quiet, Asked;
    BroadcastRequests(s, s1, t);
    BroadcastSound(s, s1, t);
    forall p | p in t.outbox ensures IsRequest(p.msg) {
      OnlyRequests(s1, t, p);
    }
    CandidateEffects(s, s1, t);
  }

  lemma CandidateEffects(s: Node, s1: Node, t: Node)
    requires Idle(s) && s.role != Primary
    requires s1 == ResetBothLsn(s).(term := s.term + 1, role := Candidate, votes := 1)
    requires SendsOnly(s1, t) && forall p :: p in t.outbox ==> IsRequest(p.msg)
    ensures Effects(s, ElectionTimeout, t)
  {
  }

  lemma RetryRvFacts(s: Node, v: Addr)
    requires NodeInv(s) && Idle(s) && Offered(s, RetryRv(v))
    ensures StepFacts(s, RetryRv(v), RV(s, v))
  {
    hide Effects, Quiet, Asked, LogShape, InOrder;
    OneRequest(s, s, v);
    ResendEffects(s, RetryRv(v), RV(s, v));
  }

  lemma RetryAeFacts(s: Node, v: Addr)
    requires NodeInv(s) && Idle(s) && Offered(s, RetryAe(v))
    ensures StepFacts(s, RetryAe(v), AE(s, v))
  {
    hide Effects, Quiet, Asked, InOrder, AeShape;
    OneRequest(s, s, v);
    AeForShape(s, v, At(s.curLsn, v));
    ResendEffects(s, RetryAe(v), AE(s, v));
  }

  lemma ResendEffects(s: Node, inp: Input, t: Node)
    requires Idle(s) && (inp.RetryRv? || inp.RetryAe?) && s.role != Follower
    requires SendsOnly(s, t) && forall p :: p in t.outbox ==> IsRequest(p.msg)
    ensures Effects(s, inp, t)
  {
  }

  lemma CommandFacts(s: Node, cmd: string)
    requires NodeInv(s) && Idle(s)
    ensures StepFacts(s, Command(cmd), ClientApply(s, cmd))
  {
    hide Effects, Asked, InOrder;
    CommandEffects(s, cmd);
  }

  lemma CommandEffects(s: Node, cmd: string)
    requires NodeInv(s) && Idle(s)
    ensures Effects(s, Command(cmd), ClientApply(s, cmd))
  {
    hide NodeInv;
  }

  /** The last ballot came in: the state s1 of the fresh primary and the state t after its first AEs. */
  ghost predicate Wins(s: Node, m: Msg, s1: Node, t: Node) {
    && NodeInv(s) && Idle(s) && InputShape(s, Receive(m)) && CountsBallot(s, Receive(m))
    && s.votes + 1 >= Majority(s.config)
    && s1 == s.(votes := s.votes + 1, role := Primary, next := Constant(s.config, |s.log|),
                saved := Constant(s.config, -1)[s.self := |s.log| - 1])
    && Broadcast(s1, t, s.config)
  }

  lemma WinsSound(s: Node, m: Msg, s1: Node, t: Node)
    requires Wins(s, m, s1, t)
    ensures Sound(s, t) && RequestFacts(s, t)
    ensures SendsOnly(s1, t) && forall p :: p in t.outbox ==> IsRequest(p.msg)
  {
    BroadcastRequests(s, s1, t);
    BroadcastSound(s, s1, t);
    forall p | p in t.outbox ensures IsRequest(p.msg) {
      OnlyRequests(s1, t, p);
    }
  }

  lemma ElectedFacts(s: Node, m: Msg, s1: Node, t: Node)
    requires Wins(s, m, s1, t)
    ensures StepFacts(s, Receive(m), t)
  {
    hide Sound, RequestFacts, Broadcast, NodeInv, InputShape, Effects;
    WinsSound(s, m, s1, t);
    WinsEffects(s, m, s1, t);
  }

  lemma WinsEffects(s: Node, m: Msg, s1: Node, t: Node)
    requires Wins(s, m, s1, t)
    requires SendsOnly(s1, t) && forall p :: p in t.outbox ==> IsRequest(p.msg)
    ensures Effects(s, Receive(m), t)
  {
    hide Broadcast, NodeInv, InputShape;
  }

  /** The state after Trans2F, spelled out. */
  ghost predicate Yielded(s: Node, term: int, t: Node) {
    && t == s.(votes := 0, voted := false, role := Follower, term := term, curLsn := t.curLsn, folLsn := t.folLsn)
    && (term == s.term ==> t.curLsn == s.curLsn && t.folLsn == s.folLsn)
    && (term != s.term ==> t.curLsn == Constant(s.config, 0) && t.folLsn == s.folLsn + Constant(s.config, -1))
  }

  lemma Trans2FYields(s: Node, term: int)
    requires Idle(s) && s.term <= term
    ensures Yielded(s, term, Trans2F(s, term))
  {
  }

  /** Learning a newer term from a reply. */
  lemma NewerTermFacts(s: Node, m: Msg, t: Node)
    requires NodeInv(s) && Idle(s) && InputShape(s, Receive(m)) && (m.RespVote? || m.RespAppend?)
    requires s.term < m.term && Yielded(s, m.term, t)
    ensures StepFacts(s, Receive(m), t)
  {
  }

  lemma ElectionFacts(s: Node, m: Msg)
    requires NodeInv(s) && Idle(s) && InputShape(s, Receive(m)) && CountsBallot(s, Receive(m))
    requires s.votes + 1 >= Majority(s.config)
    ensures StepFacts(s, Receive(m), Trans2P(s.(votes := s.votes + 1)))
  {
    hide StepFacts, Broadcast, LogShape, InOrder, LsnInv;
    var s1 := s.(votes := s.votes + 1, role := Primary, next := Constant(s.config, |s.log|),
                 saved := Constant(s.config, -1)[s.self := |s.log| - 1]);
    AppendAllBroadcasts(s1, s.config);
    ElectedFacts(s, m, s1, Trans2P(s.(votes := s.votes + 1)));
  }

  lemma RespRvFacts(s: Node, m: Msg)
    requires NodeInv(s) && Idle(s) && InputShape(s, Receive(m)) && m.RespVote?
    ensures StepFacts(s, Receive(m), React2RespRv(s, m))
  {
    hide StepFacts, NodeInv, InputShape, Yielded, Trans2P, Trans2F;
    if s.term < m.term {
      Trans2FYields(s, m.term);
      NewerTermFacts(s, m, Trans2F(s, m.term));
    } else if !CountsBallot(s, Receive(m)) {
      UnchangedFacts(s, m);
    } else if s.votes + 1 >= Majority(s.config) {
      ElectionFacts(s, m);
    } else {
      BallotCountedFacts(s, m);
    }
  }

  lemma UnchangedFacts(s: Node, m: Msg)
    requires NodeInv(s) && Idle(s) && InputShape(s, Receive(m))
    requires (m.RespVote? && !CountsBallot(s, Receive(m)))
          || (m.RespAppend? && !Answers(s, Receive(m)) && !(m.term == s.term && s.role != Primary))
    ensures StepFacts(s, Receive(m), s)
  {
  }

  lemma BallotCountedFacts(s: Node, m: Msg)
    requires NodeInv(s) && Idle(s) && InputShape(s, Receive(m)) && CountsBallot(s, Receive(m))
    ensures StepFacts(s, Receive(m), s.(votes := s.votes + 1))
  {
  }

  lemma HeededRvFacts(s: Node, m: Msg, s1: Node)
    requires NodeInv(s) && Idle(s) && InputShape(s, Receive(m)) && m.RequestVote? && s.term <= m.term
    requires if s.term < m.term then Yielded(s, m.term, s1) else s1 == s
    requires !ShouldIgnore(s1, m.from, m.lsn)
    ensures StepFacts(s, Receive(m), Ballot(Remember(s1, m.from, m.lsn), m))
  {
    hide StepFacts, NodeInv, MsgShape;
    var ok := s1.role == Follower && !s1.voted && ShouldVote(s1, m);
    BallotFacts(s, m, s1, Ballot(Remember(s1, m.from, m.lsn), m), ok);
  }

  lemma RvFacts(s: Node, m: Msg)
    requires NodeInv(s) && Idle(s) && InputShape(s, Receive(m)) && m.RequestVote?
    ensures StepFacts(s, Receive(m), React2Rv(s, m))
  {
    hide StepFacts;
    var t := React2Rv(s, m);
    if s.term > m.term {
      OldRvFacts(s, m, t);
    } else {
      var s1 := if s.term < m.term then Trans2F(s, m.term) else s;
      if s.term < m.term {
        Trans2FYields(s, m.term);
      }
      if ShouldIgnore(s1, m.from, m.lsn) {
        StaleRvFacts(s, m);
      } else {
        HeededRvFacts(s, m, s1);
      }
    }
  }

  lemma OldRvFacts(s: Node, m: Msg, t: Node)
    requires NodeInv(s) && Idle(s) && InputShape(s, Receive(m)) && m.RequestVote? && m.term < s.term
    requires t == ReplyRv(s, false, m)
    ensures StepFacts(s, Receive(m), t)
  {
    hide LogShape, InOrder, AeShape;
  }

  lemma StaleRvFacts(s: Node, m: Msg)
    requires NodeInv(s) && Idle(s) && InputShape(s, Receive(m)) && m.RequestVote? && m.term == s.term
    ensures StepFacts(s, Receive(m), s)
  {
  }

  ghost predicate Balloted(s: Node, m: Msg, s1: Node, t: Node, ok: bool) {
    && NodeInv(s) && Idle(s) && InputShape(s, Receive(m)) && m.RequestVote? && s.term <= m.term
    && (if s.term < m.term then Yielded(s, m.term, s1) else s1 == s)
    && (ok ==> s1.role == Follower && !s1.voted) && !ShouldIgnore(s1, m.from, m.lsn)
    && t == s1.(folLsn := s1.folLsn[m.from := m.lsn], voted := s1.voted || ok,
                outbox := [Packet(m.from, RespVote(ok, s1.term, m.lsn, s.self))])
  }

  lemma BallotSound(s: Node, m: Msg, s1: Node, t: Node, ok: bool)
    requires Balloted(s, m, s1, t, ok)
    ensures Sound(s, t)
  {
    hide NodeInv;
    BallotInv(s, m, s1, t, ok);
  }

  lemma BallotInv(s: Node, m: Msg, s1: Node, t: Node, ok: bool)
    requires Balloted(s, m, s1, t, ok)
    ensures NodeInv(t)
  {
    hide InOrder, MsgShape, LogShape, LsnInv, PrimaryInv;
    LaterTerm(s.log, s.term, t.term);
    BallotLsn(s, m, s1, t, ok);
    BallotPrimary(s, m, s1, t, ok);
  }

  lemma BallotLsn(s: Node, m: Msg, s1: Node, t: Node, ok: bool)
    requires Balloted(s, m, s1, t, ok)
    ensures LsnInv(t)
  {
    hide InOrder, LogShape, PrimaryInv, MsgShape;
    assert LsnInv(s1);
  }

  lemma BallotPrimary(s: Node, m: Msg, s1: Node, t: Node, ok: bool)
    requires Balloted(s, m, s1, t, ok)
    ensures PrimaryInv(t)
  {
    hide InOrder, MsgShape, LogShape, LsnInv;
  }

  lemma LaterTerm(log: seq<Entry>, a: int, b: int)
    requires LogShape(log, a) && a <= b
    ensures LogShape(log, b)
  {
  }

  lemma BallotRequests(s: Node, m: Msg, s1: Node, t: Node, ok: bool)
    requires Balloted(s, m, s1, t, ok)
    ensures RequestFacts(s, t)
  {
    hide NodeInv;
  }

  lemma BallotEffects(s: Node, m: Msg, s1: Node, t: Node, ok: bool)
    requires Balloted(s, m, s1, t, ok)
    ensures Effects(s, Receive(m), t)
  {
    hide NodeInv, MsgShape, ShouldVote, InOrder, HandsOver;
    HandsOverSame(s.ctl, s.log);
  }

  lemma BallotFacts(s: Node, m: Msg, s1: Node, t: Node, ok: bool)
    requires Balloted(s, m, s1, t, ok)
    ensures StepFacts(s, Receive(m), t)
  {
    hide Balloted, Sound, RequestFacts, Effects;
    BallotSound(s, m, s1, t, ok);
    BallotRequests(s, m, s1, t, ok);
    BallotEffects(s, m, s1, t, ok);
  }

  // ----- AE

  lemma OldAeFacts(s: Node, m: Msg, t: Node)
    requires NodeInv(s) && Idle(s) && InputShape(s, Receive(m)) && m.AppendEntry? && m.term < s.term
    requires t == ReplyAe(s, false, m)
    ensures StepFacts(s, Receive(m), t)
  {
    hide LogShape, InOrder, AeShape;
  }

  lemma SecondPrimaryFacts(s: Node, m: Msg, t: Node)
    requires NodeInv(s) && Idle(s) && InputShape(s, Receive(m)) && m.AppendEntry?
    requires m.term == s.term && s.role == Primary && t == Fail(s, TwoPrimaries)
    ensures StepFacts(s, Receive(m), t)
  {
  }

  lemma StaleAeFacts(s: Node, m: Msg, t: Node)
    requires NodeInv(s) && Idle(s) && InputShape(s, Receive(m)) && m.AppendEntry?
    requires m.term == s.term && s.role != Primary && !Fresh(s, m) && Yielded(s, m.term, t)
    ensures StepFacts(s, Receive(m), t)
  {
  }

  /** An AE that reached the log check and was refused there. */
  ghost predicate AeRefused(s: Node, m: Msg, s1: Node, t: Node) {
    && NodeInv(s) && Idle(s) && InputShape(s, Receive(m)) && Heeds(s, Receive(m)) && !Matches(s.log, m)
    && Yielded(s, m.term, s1)
    && t == s1.(folLsn := s1.folLsn[m.from := m.lsn],
                outbox := [Packet(m.from, RespAppend(false, s1.term, m.lsn, s.self, m.entries == []))])
  }

  lemma AeRefusedSound(s: Node, m: Msg, s1: Node, t: Node)
    requires AeRefused(s, m, s1, t)
    ensures Sound(s, t) && RequestFacts(s, t)
  {
  }

  lemma AeRefusedEffects(s: Node, m: Msg, s1: Node, t: Node)
    requires AeRefused(s, m, s1, t)
    ensures Effects(s, Receive(m), t)
  {
    hide NodeInv;
  }

  /** An AE that passed the log check: the log is cut and extended, the commit index follows, and unless that
      lowered the commit index an ok goes back. */
  ghost predicate AeAccepted(s: Node, m: Msg, s1: Node, t: Node) {
    && NodeInv(s) && Idle(s) && InputShape(s, Receive(m)) && Accepts(s, Receive(m))
    && Yielded(s, m.term, s1)
    && var log := LogAfter(s.log, m);
    && var k := if |log| - 1 < m.commitIndex then |log| - 1 else m.commitIndex;
    && t == s1.(folLsn := s1.folLsn[m.from := m.lsn], log := log, commit := k, ctl := t.ctl,
                outbox := if k < s.commit then []
                          else [Packet(m.from, RespAppend(true, s1.term, m.lsn, s.self, m.entries == []))],
                fault := if k < s.commit then Some(CommitDecreased) else None)
    && InOrder(t.ctl) && HandsOver(s.ctl, log, t.ctl)
    && (t.ctl.tasks != s.ctl.tasks ==> |t.ctl.tasks| <= k + 1)
    && (k <= s.commit ==> t.ctl == s.ctl) && (s.commit < k ==> CaughtUp(s.ctl, k, t.ctl))
  }

  lemma LogAfterShape(log: seq<Entry>, term: int, m: Msg)
    requires LogShape(log, term) && term <= m.term && m.AppendEntry? && MsgShape(m) && Matches(log, m)
    ensures LogShape(LogAfter(log, m), m.term)
    ensures m.prelogIndex + |m.entries| < |LogAfter(log, m)|
  {
  }

  lemma AeAcceptedSound(s: Node, m: Msg, s1: Node, t: Node)
    requires AeAccepted(s, m, s1, t)
    ensures Sound(s, t) && RequestFacts(s, t)
  {
    hide LogShape, InOrder, LsnInv;
    LogAfterShape(s.log, s.term, m);
    AcceptedLsn(s, m, s1, t);
  }

  lemma AcceptedLsn(s: Node, m: Msg, s1: Node, t: Node)
    requires AeAccepted(s, m, s1, t)
    ensures LsnInv(t)
  {
    hide LogShape, InOrder, PrimaryInv;
  }

  lemma AeAcceptedEffects(s: Node, m: Msg, s1: Node, t: Node)
    requires AeAccepted(s, m, s1, t)
    ensures Effects(s, Receive(m), t)
  {
    hide LogShape, InOrder, LsnInv, PrimaryInv;
    LogAfterShape(s.log, s.term, m);
  }

  lemma TakeEntriesAccepts(s: Node, m: Msg, s1: Node)
    requires NodeInv(s) && Idle(s) && InputShape(s, Receive(m)) && Accepts(s, Receive(m))
    requires Yielded(s, m.term, s1)
    ensures AeAccepted(s, m, s1, TakeEntries(Remember(s1, m.from, m.lsn), m))
  {
    hide FollowerCommit, InOrder, HandsOver, PrimaryInv, LsnInv;
    FollowerCommitFacts(Remember(s1, m.from, m.lsn).(log := LogAfter(s.log, m)), m.commitIndex);
  }

  lemma AeRefusedFacts(s: Node, m: Msg, s1: Node, t: Node)
    requires AeRefused(s, m, s1, t)
    ensures StepFacts(s, Receive(m), t)
  {
    hide AeRefused, Sound, RequestFacts, Effects;
    AeRefusedSound(s, m, s1, t);
    AeRefusedEffects(s, m, s1, t);
  }

  lemma AeAcceptedFacts(s: Node, m: Msg, s1: Node, t: Node)
    requires AeAccepted(s, m, s1, t)
    ensures StepFacts(s, Receive(m), t)
  {
    hide AeAccepted, Sound, RequestFacts, Effects;
    AeAcceptedSound(s, m, s1, t);
    AeAcceptedEffects(s, m, s1, t);
  }

  lemma AeFacts(s: Node, m: Msg)
    requires NodeInv(s) && Idle(s) && InputShape(s, Receive(m)) && m.AppendEntry?
    ensures StepFacts(s, Receive(m), React2Ae(s, m))
  {
    hide StepFacts, AeAccepted;
    if m.term < s.term {
      OldAeFacts(s, m, React2Ae(s, m));
    } else if s.role == Primary && m.term == s.term {
      SecondPrimaryFacts(s, m, React2Ae(s, m));
    } else {
      HeededAeFacts(s, m, Trans2F(s, m.term));
    }
  }

  lemma HeededAeFacts(s: Node, m: Msg, s1: Node)
    requires NodeInv(s) && Idle(s) && InputShape(s, Receive(m)) && m.AppendEntry?
    requires s.term <= m.term && !(s.role == Primary && m.term == s.term)
    requires s1 == Trans2F(s, m.term)
    ensures StepFacts(s, Receive(m), React2Ae(s, m))
  {
    hide StepFacts, AeAccepted, NodeInv, TakeEntries, Trans2F;
    Trans2FYields(s, m.term);
    var t := React2Ae(s, m);
    if ShouldIgnore(s1, m.from, m.lsn) {
      StaleAeFacts(s, m, t);
    } else if Matches(s.log, m) {
      TakeEntriesAccepts(s, m, s1);
      AeAcceptedFacts(s, m, s1, t);
    } else {
      AeRefusedFacts(s, m, s1, t);
    }
  }

  // ----- reply to an AE

  ghost predicate DealRequires(s: Node, m: Msg) {
    NodeInv(s) && Idle(s) && InputShape(s, Receive(m)) && Answers(s, Receive(m))
  }

  lemma RefusedAtZeroFacts(s: Node, m: Msg, t: Node)
    requires DealRequires(s, m) && !m.ok && At(s.next, m.from) == 0 && t == Fail(s, RefusedAtZero)
    ensures StepFacts(s, Receive(m), t)
  {
  }

  lemma SteppedBackFacts(s: Node, m: Msg, s1: Node, t: Node)
    requires DealRequires(s, m) && !m.ok && 0 < At(s.next, m.from)
    requires s1 == s.(next := s.next[m.from := At(s.next, m.from) - 1]) && t == AE(s1, m.from)
    ensures StepFacts(s, Receive(m), t)
  {
    hide Effects, Quiet, Asked, InOrder, AeShape;
    OneRequest(s, s1, m.from);
    AeForShape(s1, m.from, At(s1.curLsn, m.from));
    SteppedBackEffects(s, m, s1, t);
  }

  lemma SteppedBackEffects(s: Node, m: Msg, s1: Node, t: Node)
    requires Idle(s) && Answers(s, Receive(m)) && !m.ok && 0 < At(s.next, m.from)
    requires s1 == s.(next := s.next[m.from := At(s.next, m.from) - 1])
    requires SendsOnly(s1, t) && forall p :: p in t.outbox ==> IsRequest(p.msg)
    ensures Effects(s, Receive(m), t)
  {
  }

  /** The acknowledged case up to and including the commit update. */
  ghost predicate Counted(s: Node, m: Msg, t: Node) {
    && DealRequires(s, m) && m.ok
    && var v, last, adv := m.from, At(s.next, m.from), Advances(s, m);
    && t == s.(next := if adv then s.next[v := last + 1] else s.next,
               saved := s.saved[v := if adv then last else last - 1],
               commit := CommitRule(t.saved, s.config), ctl := t.ctl)
    && -1 <= t.commit < |s.log|
    && InOrder(t.ctl) && HandsOver(s.ctl, s.log, t.ctl)
    && (t.ctl.tasks != s.ctl.tasks ==> |t.ctl.tasks| <= t.commit + 1)
    && CaughtUp(s.ctl, t.commit, t.ctl)
  }

  lemma DealCounts(s: Node, m: Msg) returns (s1: Node)
    requires DealRequires(s, m) && m.ok
    ensures Counted(s, m, s1)
    ensures PrimaryDeal(s, m) == if At(s.next, m.from) < |s.log| then AE(s1, m.from) else s1
  {
    hide InOrder, HandsOver, CommitRule, LogShape, LsnInv, MsgShape, Update, AeFor;
    var v, last := m.from, At(s.next, m.from);
    if last < |s.log| && !m.isEmptyAe {
      var s0 := s.(next := s.next[v := last + 1]);
      s1 := PrimaryCommit(s0, v, last);
      PrimaryCommitFacts(s0, v, last);
    } else {
      s1 := PrimaryCommit(s, v, last - 1);
      PrimaryCommitFacts(s, v, last - 1);
    }
  }

  lemma CountedFacts(s: Node, m: Msg, s1: Node)
    requires Counted(s, m, s1) && At(s.next, m.from) == |s.log|
    ensures StepFacts(s, Receive(m), s1)
  {
    hide NodeInv, Effects, HandsOver, InOrder, CommitRule;
    CountedInv(s, m, s1);
    CountedEffects(s, m, s1, s1);
  }

  lemma CountedEffects(s: Node, m: Msg, s1: Node, t: Node)
    requires Counted(s, m, s1) && SendsOnly(s1, t) && forall p :: p in t.outbox ==> IsRequest(p.msg)
    ensures Effects(s, Receive(m), t)
  {
    hide NodeInv, InOrder, CommitRule, MsgShape;
  }

  lemma CountedInv(s: Node, m: Msg, s1: Node)
    requires Counted(s, m, s1)
    ensures NodeInv(s1)
  {
  }

  lemma CountedThenAeSound(s: Node, m: Msg, s1: Node, t: Node)
    requires Counted(s, m, s1) && t == AE(s1, m.from)
    ensures Sound(s, t) && RequestFacts(s, t)
    ensures t == Send(TakeLsn(s1, m.from), m.from, AeFor(s1, m.from, At(s1.curLsn, m.from)))
  {
    hide LogShape, InOrder, AeShape;
    CountedInv(s, m, s1);
    OneRequest(s, s1, m.from);
    AeForShape(s1, m.from, At(s1.curLsn, m.from));
  }

  lemma CountedThenAeFacts(s: Node, m: Msg, s1: Node, t: Node)
    requires Counted(s, m, s1) && t == AE(s1, m.from)
    ensures StepFacts(s, Receive(m), t)
  {
    hide NodeInv, Sound, RequestFacts, Effects, HandsOver, InOrder, CommitRule, AeFor;
    CountedThenAeSound(s, m, s1, t);
    AeIsRequest(s1, m.from, At(s1.curLsn, m.from));
    CountedEffects(s, m, s1, t);
  }

  lemma AeIsRequest(s: Node, v: Addr, lsn: int)
    ensures IsRequest(AeFor(s, v, lsn))
  {
  }

  lemma RespAeFacts(s: Node, m: Msg)
    requires NodeInv(s) && Idle(s) && InputShape(s, Receive(m)) && m.RespAppend?
    ensures StepFacts(s, Receive(m), React2RespAe(s, m))
  {
    hide StepFacts, Counted;
    var t := React2RespAe(s, m);
    if s.term < m.term {
      Trans2FYields(s, m.term);
      NewerTermFacts(s, m, t);
    } else if s.term > m.term {
      UnchangedFacts(s, m);
    } else if s.role != Primary {
      NonPrimaryFacts(s, m, t);
    } else if !Answers(s, Receive(m)) {
      UnchangedFacts(s, m);
    } else if m.ok {
      var s1 := DealCounts(s, m);
      if At(s.next, m.from) < |s.log| {
        CountedThenAeFacts(s, m, s1, t);
      } else {
        CountedFacts(s, m, s1);
      }
    } else if At(s.next, m.from) == 0 {
      RefusedAtZeroFacts(s, m, t);
    } else {
      SteppedBackFacts(s, m, s.(next := s.next[m.from := At(s.next, m.from) - 1]), t);
    }
  }

  lemma NonPrimaryFacts(s: Node, m: Msg, t: Node)
    requires NodeInv(s) && Idle(s) && InputShape(s, Receive(m)) && m.RespAppend?
    requires m.term == s.term && s.role != Primary && t == Fail(s, RespToNonPrimary)
    ensures StepFacts(s, Receive(m), t)
  {
  }

  // ----- every step

  lemma HandleFacts(s: Node, inp: Input)
    requires NodeInv(s) && Idle(s) && InputShape(s, inp) && Offered(s, inp)
    ensures StepFacts(s, inp, Handle(s, inp))
  {
    hide StepFacts, NodeInv;
    match inp
    case ElectionTimeout => TimeoutFacts(s);
    case RetryRv(v) => RetryRvFacts(s, v);
    case RetryAe(v) => RetryAeFacts(s, v);
    case Command(cmd) => CommandFacts(s, cmd);
    case Receive(m) =>
      match m
      case RequestVote(_, _, _, _, _) => RvFacts(s, m);
      case AppendEntry(_, _, _, _, _, _, _) => AeFacts(s, m);
      case RespVote(_, _, _, _) => RespRvFacts(s, m);
      case RespAppend(_, _, _, _, _) => RespAeFacts(s, m);
  }
}
