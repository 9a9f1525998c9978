/** What one event does to a server, field by field instead of handler by handler: for every field the value after
    the event, and exactly which RPCs leave. */
module Outcomes {
  import opened RaftTypes
  import opened OrderStatistic
  import opened ApplyControl
  import opened NodeSpec
  import opened NodeFacts
  import opened NodeSteps

  // ----- term, role and vote

  predicate Newer(s: Node, inp: Input) {
    inp.Receive? && s.term < inp.msg.term
  }

  /** Any message of a newer term makes a follower, and so does an AE of the node's own term. */
  predicate StepsDown(s: Node, inp: Input) {
    Newer(s, inp) || SameTermAe(s, inp)
  }

  predicate WinsElection(s: Node, inp: Input) {
    CountsBallot(s, inp) && s.votes + 1 >= Majority(s.config)
  }

  function TermAfter(s: Node, inp: Input): int {
    if inp.ElectionTimeout? then s.term + 1 else if Newer(s, inp) then inp.msg.term else s.term
  }

  function RoleAfter(s: Node, inp: Input): Role {
    if inp.ElectionTimeout? then Candidate
    else if StepsDown(s, inp) then Follower
    else if WinsElection(s, inp) then Primary
    else s.role
  }

  function VotesAfter(s: Node, inp: Input): int {
    if inp.ElectionTimeout? then 1
    else if StepsDown(s, inp) then 0
    else if CountsBallot(s, inp) then s.votes + 1
    else s.votes
  }

  predicate HasVote(s: Node, term: int) {
    s.term < term || (s.term == term && s.role == Follower && !s.voted)
  }

  /** The log comparison of the ballot: a last entry of the candidate's own new term is the only one that can cost
      it the vote, and then the longer log wins. */
  predicate MayElect(log: seq<Entry>, m: Msg)
    requires m.RequestVote?
  {
    log != [] && log[|log| - 1].term == m.term ==> |log| <= m.latestIndex + 1
  }

  predicate GivesVote(s: Node, inp: Input) {
    IsRv(inp) && Fresh(s, inp.msg) && HasVote(s, inp.msg.term) && MayElect(s.log, inp.msg)
  }

  function VotedAfter(s: Node, inp: Input): bool {
    GivesVote(s, inp) || (s.voted && !StepsDown(s, inp))
  }

  // ----- log, commit index and state machine

  function LogNow(s: Node, inp: Input): seq<Entry> {
    if inp.Command? then s.log + [Entry(s.term, |s.log|, inp.cmd)]
    else if Accepts(s, inp) then LogAfter(s.log, inp.msg)
    else s.log
  }

  function SavedAfter(s: Node, inp: Input): map<Addr, int> {
    if inp.Command? then s.saved[s.self := |s.log|]
    else if WinsElection(s, inp) then Constant(s.config, -1)[s.self := |s.log| - 1]
    else if Acked(s, inp) then
      var v := inp.msg.from;
      s.saved[v := if Advances(s, inp.msg) then At(s.next, v) else At(s.next, v) - 1]
    else s.saved
  }

  function NextAfter(s: Node, inp: Input): map<Addr, int> {
    if WinsElection(s, inp) then Constant(s.config, |s.log|)
    else if Acked(s, inp) && Advances(s, inp.msg) then s.next[inp.msg.from := At(s.next, inp.msg.from) + 1]
    else if StepsBack(s, inp) then s.next[inp.msg.from := At(s.next, inp.msg.from) - 1]
    else s.next
  }

  predicate StepsBack(s: Node, inp: Input) {
    Refused(s, inp) && 0 < At(s.next, inp.msg.from)
  }

  function CommitNow(s: Node, inp: Input): int {
    if Accepts(s, inp) then
      var last := |LogNow(s, inp)| - 1;
      if last < inp.msg.commitIndex then last else inp.msg.commitIndex
    else if Acked(s, inp) then CommitRule(SavedAfter(s, inp), s.config)
    else s.commit
  }

  /** When the state machine controler is told the commit index. */
  predicate TellsControler(s: Node, inp: Input) {
    Acked(s, inp) || (Accepts(s, inp) && s.commit < CommitNow(s, inp))
  }

  /** It hands over, in order, what the log holds from the next index on, up to the commit index and no further. */
  ghost predicate ControlerAfter(s: Node, inp: Input, c: Controler) {
    if !TellsControler(s, inp) then c == s.ctl
    else
      var k := CommitNow(s, inp);
      CaughtUp(s.ctl, k, c) && HandsOver(s.ctl, LogNow(s, inp), c)
  }

  function FaultAfter(s: Node, inp: Input): Option<Fault> {
    if IsAe(inp) && inp.msg.term == s.term && s.role == Primary then Some(TwoPrimaries)
    else if inp.Receive? && inp.msg.RespAppend? && inp.msg.term == s.term && s.role != Primary then Some(RespToNonPrimary)
    else if Refused(s, inp) && !StepsBack(s, inp) then Some(RefusedAtZero)
    else if Accepts(s, inp) && CommitNow(s, inp) < s.commit then Some(CommitDecreased)
    else None
  }

  // ----- RPCs and their counters

  /** A newer term restarts the counters of the configuration; a request that gets past the check is remembered. */
  function RememberedAfter(s: Node, inp: Input): map<Addr, int> {
    var base := if TermAfter(s, inp) == s.term then s.folLsn else s.folLsn + Constant(s.config, -1);
    if Heeds(s, inp) || (IsRv(inp) && Fresh(s, inp.msg)) then base[inp.msg.from := inp.msg.lsn] else base
  }

  /** Who gets a request: everybody at the start of a candidacy and of a primary's term, the peer whose timer
      fired, and the peer whose answer leaves something to send. */
  predicate Asks(s: Node, inp: Input, v: Addr) {
    && v in s.config && v != s.self
    && match inp
       case ElectionTimeout => true
       case RetryRv(w) => v == w
       case RetryAe(w) => v == w
       case Command(_) => false
       case Receive(m) =>
         || WinsElection(s, inp)
         || (v == m.from && StepsBack(s, inp))
         || (v == m.from && Acked(s, inp) && At(s.next, v) < |s.log|)
  }

  /** The request that node t has for v: a primary offers the entry at next[v] and names the one before it, a
      candidate tells the last index of its log. */
  ghost predicate RequestTo(t: Node, v: Addr, lsn: int, m: Msg) {
    && m.term == t.term && m.from == t.self && m.lsn == lsn
    && if t.role == Primary then
         var i := At(t.next, v);
         && m.AppendEntry? && m.prelogIndex == i - 1 && m.commitIndex == t.commit
         && m.prelogTerm == (if 0 < i <= |t.log| then t.log[i - 1].term else -1)
         && m.entries == if 0 <= i < |t.log| then [t.log[i]] else []
       else
         m.RequestVote? && m.latestIndex == |t.log| - 1 && m.latestTerm == 0
  }

  /** Which requests are answered: those of an older term, and those that get past the check without a throw. */
  predicate GetsReply(s: Node, inp: Input) {
    || (inp.Receive? && IsRequest(inp.msg) && inp.msg.term < s.term)
    || (IsRv(inp) && Fresh(s, inp.msg))
    || (Heeds(s, inp) && !(Accepts(s, inp) && CommitNow(s, inp) < s.commit))
  }

  function ReplyNow(s: Node, inp: Input): Msg
    requires inp.Receive? && IsRequest(inp.msg)
  {
    var m, term := inp.msg, TermAfter(s, inp);
    if m.RequestVote? then RespVote(GivesVote(s, inp), term, m.lsn, s.self)
    else RespAppend(Accepts(s, inp), term, m.lsn, s.self, m.entries == [])
  }

  /** The packet is one that the event sends. */
  ghost predicate Leaves(s: Node, inp: Input, t: Node, p: Packet) {
    || (Asks(s, inp, p.to) && RequestTo(t, p.to, At(t.curLsn, p.to) - 1, p.msg))
    || (GetsReply(s, inp) && p == Packet(inp.msg.from, ReplyNow(s, inp)))
  }

  ghost predicate SendsExactly(s: Node, inp: Input, t: Node) {
    && (forall v :: At(t.curLsn, v) ==
          (if TermAfter(s, inp) == s.term then At(s.curLsn, v) else 0) + if Asks(s, inp, v) then 1 else 0)
    && (forall p :: p in t.outbox <==> Leaves(s, inp, t, p))
    && (forall i, j :: 0 <= i < j < |t.outbox| ==> t.outbox[i] != t.outbox[j])
  }

  // ----- the whole state

  ghost predicate FieldsAfter(s: Node, inp: Input, t: Node) {
    && t == Node(s.self, s.config, TermAfter(s, inp), RoleAfter(s, inp), VotedAfter(s, inp), VotesAfter(s, inp),
                 t.curLsn, RememberedAfter(s, inp), CommitNow(s, inp), LogNow(s, inp), NextAfter(s, inp),
                 SavedAfter(s, inp), t.ctl, t.outbox, FaultAfter(s, inp))
    && ControlerAfter(s, inp, t.ctl)
  }

  ghost predicate Account(s: Node, inp: Input, t: Node) {
    FieldsAfter(s, inp, t) && SendsExactly(s, inp, t)
  }

  // ----- what leaves

  ghost predicate OneEach(outbox: seq<Packet>) {
    forall i, j :: 0 <= i < j < |outbox| ==> outbox[i].to != outbox[j].to
  }

  lemma {:induction false} AskAllOnce(s: Node, peers: seq<Addr>)
    requires DistinctPorts(peers) && OneEach(s.outbox) && forall p :: p in s.outbox ==> p.to !in peers
    ensures OneEach(AskAll(s, peers).outbox)
    decreases |peers|
  {
    if peers != [] {
      DistinctTail(peers);
      AskAllOnce(if peers[0].port == s.self.port then s else RV(s, peers[0]), peers[1..]);
    }
  }

  lemma {:induction false} AppendAllOnce(s: Node, peers: seq<Addr>)
    requires DistinctPorts(peers) && OneEach(s.outbox) && forall p :: p in s.outbox ==> p.to !in peers
    ensures OneEach(AppendAll(s, peers).outbox)
    decreases |peers|
  {
    if peers != [] && s.fault.None? {
      DistinctTail(peers);
      AppendAllOnce(if peers[0].port == s.self.port then s else AE(s, peers[0]), peers[1..]);
    }
  }

  lemma RequestIs(t: Node, v: Addr, lsn: int, m: Msg)
    ensures RequestTo(t, v, lsn, m) <==> m == RequestFor(t, v, lsn)
  {
  }

  /** A broadcast sends what it should when everybody is to be asked. */
  lemma BroadcastSends(s: Node, inp: Input, s1: Node, t: Node)
    requires Broadcast(s1, t, s.config) && s1.outbox == [] && s1.self == s.self && OneEach(t.outbox)
    requires forall v :: Asks(s, inp, v) <==> v in s.config && v != s.self
    requires forall v :: At(s1.curLsn, v) == if TermAfter(s, inp) == s.term then At(s.curLsn, v) else 0
    requires !GetsReply(s, inp)
    ensures SendsExactly(s, inp, t)
  {
    hide Asks, GetsReply, RequestTo, TermAfter;
    forall p ensures p in t.outbox <==> Leaves(s, inp, t, p) {
      RequestIs(t, p.to, At(t.curLsn, p.to) - 1, p.msg);
      assert p in t.outbox <==> IsBroadcastTo(s1, s.config, p);
      SameRequest(s1, t, p.to);
    }
  }

  lemma SameRequest(s1: Node, t: Node, v: Addr)
    requires SendsOnly(s1, t)
    ensures forall lsn :: RequestFor(s1, v, lsn) == RequestFor(t, v, lsn)
  {
  }

  /** One request, to v. */
  lemma OneSends(s: Node, inp: Input, s1: Node, t: Node, v: Addr)
    requires t == Send(TakeLsn(s1, v), v, RequestFor(s1, v, At(s1.curLsn, v))) && s1.outbox == []
    requires forall w :: Asks(s, inp, w) <==> w == v
    requires s1.curLsn == s.curLsn && TermAfter(s, inp) == s.term
    requires !GetsReply(s, inp)
    ensures SendsExactly(s, inp, t)
  {
    hide Asks, GetsReply, RequestTo, TermAfter;
    forall p ensures p in t.outbox <==> Leaves(s, inp, t, p) {
      RequestIs(t, p.to, At(t.curLsn, p.to) - 1, p.msg);
    }
  }

  /** No request, and a reply where one is due. */
  lemma ReplySends(s: Node, inp: Input, t: Node)
    requires forall v :: !Asks(s, inp, v)
    requires forall v :: At(t.curLsn, v) == if TermAfter(s, inp) == s.term then At(s.curLsn, v) else 0
    requires t.outbox == if GetsReply(s, inp) then [Packet(inp.msg.from, ReplyNow(s, inp))] else []
    ensures SendsExactly(s, inp, t)
  {
    hide Asks, GetsReply, TermAfter;
  }

  // ----- every handler

  lemma TimeoutOutcome(s: Node)
    requires NodeInv(s) && Idle(s) && s.role != Primary
    ensures Account(s, ElectionTimeout, Trans2C(s))
  {
    hide SendsExactly, FieldsAfter, Broadcast, LogShape, InOrder, LsnInv, OneEach, PrimaryInv, DistinctPorts, Asks, At,
         AskAll;
    AsksAll(s, ElectionTimeout);
    var s1 := ResetBothLsn(s).(term := s.term + 1, role := Candidate, votes := 1);
    AskAllBroadcasts(s1, s.config);
    NothingYet(s1);
    AskAllOnce(s1, s.config);
    TimeoutFields(s, s1, Trans2C(s));
    CountersRestart(s, s1);
    BroadcastSends(s, ElectionTimeout, s1, Trans2C(s));
  }

  lemma CountersRestart(s: Node, s1: Node)
    requires s1.curLsn == Constant(s.config, 0)
    ensures forall v :: At(s1.curLsn, v) == 0
  {
  }

  lemma AsksAll(s: Node, inp: Input)
    requires inp.ElectionTimeout? || WinsElection(s, inp)
    ensures forall v :: Asks(s, inp, v) <==> v in s.config && v != s.self
  {
  }

  lemma NothingYet(s: Node)
    requires s.outbox == []
    ensures OneEach(s.outbox)
  {
  }

  lemma TimeoutFields(s: Node, s1: Node, t: Node)
    requires Idle(s) && s1 == ResetBothLsn(s).(term := s.term + 1, role := Candidate, votes := 1)
    requires SendsOnly(s1, t)
    ensures FieldsAfter(s, ElectionTimeout, t)
  {
  }

  lemma ResendOutcome(s: Node, inp: Input, v: Addr, t: Node)
    requires Idle(s) && Offered(s, inp)
    requires (inp == RetryRv(v) && t == RV(s, v)) || (inp == RetryAe(v) && t == AE(s, v) && 0 <= At(s.next, v) <= |s.log|)
    ensures Account(s, inp, t)
  {
    hide SendsExactly;
    OneSends(s, inp, s, t, v);
  }

  lemma CommandOutcome(s: Node, cmd: string)
    requires Idle(s)
    ensures Account(s, Command(cmd), ClientApply(s, cmd))
  {
    hide SendsExactly;
    assert s.log[..|s.log|] == s.log;
    ReplySends(s, Command(cmd), ClientApply(s, cmd));
  }

  // ----- incoming RPCs

  lemma WinOutcome(s: Node, m: Msg)
    requires NodeInv(s) && Idle(s) && WinsElection(s, Receive(m))
    ensures Account(s, Receive(m), React2RespRv(s, m))
  {
    hide SendsExactly, FieldsAfter, Broadcast, LogShape, InOrder, LsnInv, OneEach, PrimaryInv, DistinctPorts, Asks,
         AppendAll, Majority;
    AsksAll(s, Receive(m));
    var s1 := s.(votes := s.votes + 1, role := Primary, next := Constant(s.config, |s.log|),
                 saved := Constant(s.config, -1)[s.self := |s.log| - 1]);
    AppendAllBroadcasts(s1, s.config);
    NothingYet(s1);
    AppendAllOnce(s1, s.config);
    WinFields(s, m, s1, AppendAll(s1, s.config));
    BroadcastSends(s, Receive(m), s1, AppendAll(s1, s.config));
  }

  lemma WinFields(s: Node, m: Msg, s1: Node, t: Node)
    requires Idle(s) && WinsElection(s, Receive(m)) && SendsOnly(s1, t)
    requires s1 == s.(votes := s.votes + 1, role := Primary, next := Constant(s.config, |s.log|),
                      saved := Constant(s.config, -1)[s.self := |s.log| - 1])
    ensures FieldsAfter(s, Receive(m), t)
  {
  }

  lemma RespRvOutcome(s: Node, m: Msg)
    requires NodeInv(s) && Idle(s) && m.RespVote?
    ensures Account(s, Receive(m), React2RespRv(s, m))
  {
    hide NodeInv, Account, Trans2F, Trans2P;
    if s.term < m.term {
      Trans2FYields(s, m.term);
      NewerOutcome(s, m, Trans2F(s, m.term));
    } else if WinsElection(s, Receive(m)) {
      WinOutcome(s, m);
    } else {
      BallotCountedOutcome(s, m);
    }
  }

  /** A reply of a newer term. */
  lemma NewerOutcome(s: Node, m: Msg, t: Node)
    requires Idle(s) && !IsRequest(m) && s.term < m.term && Yielded(s, m.term, t)
    ensures Account(s, Receive(m), t)
  {
    hide SendsExactly;
    ReplySends(s, Receive(m), t);
  }

  lemma BallotCountedOutcome(s: Node, m: Msg)
    requires Idle(s) && m.RespVote? && m.term <= s.term && !WinsElection(s, Receive(m))
    ensures Account(s, Receive(m), if CountsBallot(s, Receive(m)) then s.(votes := s.votes + 1) else s)
  {
    hide SendsExactly;
    ReplySends(s, Receive(m), if CountsBallot(s, Receive(m)) then s.(votes := s.votes + 1) else s);
  }

  lemma RvOutcome(s: Node, m: Msg)
    requires NodeInv(s) && Idle(s) && InputShape(s, Receive(m)) && m.RequestVote?
    ensures Account(s, Receive(m), React2Rv(s, m))
  {
    hide NodeInv, Account, Ballot, Trans2F, MsgShape;
    if m.term < s.term {
      IgnoredRvOutcome(s, m, React2Rv(s, m));
    } else {
      var s1 := if s.term < m.term then Trans2F(s, m.term) else s;
      if s.term < m.term {
        Trans2FYields(s, m.term);
      }
      if ShouldIgnore(s1, m.from, m.lsn) {
        NewTermHeard(s, m, s1);
        IgnoredRvOutcome(s, m, s);
      } else {
        HeededRvOutcome(s, m, s1);
      }
    }
  }

  /** Nothing of a newer term has been heard from the sender yet. */
  lemma NewTermHeard(s: Node, m: Msg, s1: Node)
    requires IsRequest(m) && InputShape(s, Receive(m)) && m.from in s.config
    requires s.term < m.term ==> Yielded(s, m.term, s1)
    ensures s.term < m.term ==> !ShouldIgnore(s1, m.from, m.lsn)
  {
  }

  lemma IgnoredRvOutcome(s: Node, m: Msg, t: Node)
    requires Idle(s) && m.RequestVote? && m.term <= s.term && (m.term == s.term ==> !Fresh(s, m))
    requires t == if m.term < s.term then ReplyRv(s, false, m) else s
    ensures Account(s, Receive(m), t)
  {
    hide SendsExactly;
    ReplySends(s, Receive(m), t);
  }

  lemma HeededRvOutcome(s: Node, m: Msg, s1: Node)
    requires NodeInv(s) && Idle(s) && m.RequestVote? && s.term <= m.term
    requires if s.term < m.term then Yielded(s, m.term, s1) else s1 == s
    requires !ShouldIgnore(s1, m.from, m.lsn)
    ensures Account(s, Receive(m), Ballot(Remember(s1, m.from, m.lsn), m))
  {
    hide SendsExactly, InOrder, PrimaryInv, LsnInv, Ballot, MayElect;
    var x := Remember(s1, m.from, m.lsn);
    BallotVotes(x, m);
    ReplySends(s, Receive(m), Ballot(x, m));
  }

  lemma BallotVotes(x: Node, m: Msg)
    requires m.RequestVote? && x.term == m.term
    requires forall i :: 0 <= i < |x.log| ==> x.log[i].index == i && x.log[i].term <= m.term
    ensures var ok := x.role == Follower && !x.voted && MayElect(x.log, m);
            Ballot(x, m) == Send(x, m.from, RespVote(ok, x.term, m.lsn, x.self)).(voted := x.voted || ok)
  {
  }

  lemma AeOutcome(s: Node, m: Msg)
    requires NodeInv(s) && Idle(s) && InputShape(s, Receive(m)) && m.AppendEntry?
    ensures Account(s, Receive(m), React2Ae(s, m))
  {
    hide NodeInv, Account, AeAccepted, TakeEntries, Trans2F;
    var t := React2Ae(s, m);
    if m.term < s.term || (s.role == Primary && m.term == s.term) {
      UnheededAeOutcome(s, m, t);
    } else {
      var s1 := Trans2F(s, m.term);
      Trans2FYields(s, m.term);
      NewTermHeard(s, m, s1);
      if ShouldIgnore(s1, m.from, m.lsn) {
        StaleAeOutcome(s, m, s1);
      } else if Matches(s.log, m) {
        TakeEntriesAccepts(s, m, s1);
        AcceptedOutcome(s, m, s1, t);
      } else {
        RefusedAeOutcome(s, m, s1, t);
      }
    }
  }

  lemma UnheededAeOutcome(s: Node, m: Msg, t: Node)
    requires Idle(s) && m.AppendEntry? && (m.term < s.term || (m.term == s.term && s.role == Primary))
    requires t == if m.term < s.term then ReplyAe(s, false, m) else Fail(s, TwoPrimaries)
    ensures Account(s, Receive(m), t)
  {
    hide SendsExactly;
    ReplySends(s, Receive(m), t);
  }

  lemma StaleAeOutcome(s: Node, m: Msg, t: Node)
    requires Idle(s) && m.AppendEntry? && m.term == s.term && s.role != Primary && !Fresh(s, m) && Yielded(s, m.term, t)
    ensures Account(s, Receive(m), t)
  {
    hide SendsExactly;
    ReplySends(s, Receive(m), t);
  }

  lemma RefusedAeOutcome(s: Node, m: Msg, s1: Node, t: Node)
    requires AeRefused(s, m, s1, t)
    ensures Account(s, Receive(m), t)
  {
    hide NodeInv, SendsExactly, Matches;
    ReplySends(s, Receive(m), t);
  }

  lemma AcceptedOutcome(s: Node, m: Msg, s1: Node, t: Node)
    requires AeAccepted(s, m, s1, t)
    ensures Account(s, Receive(m), t)
  {
    hide NodeInv, SendsExactly, InOrder, HandsOver, CaughtUp, Matches;
    ReplySends(s, Receive(m), t);
  }

  // ----- replies to an AE

  lemma RespAeOutcome(s: Node, m: Msg)
    requires NodeInv(s) && Idle(s) && InputShape(s, Receive(m)) && m.RespAppend?
    ensures Account(s, Receive(m), React2RespAe(s, m))
  {
    hide NodeInv, Account, Counted, InputShape, Trans2F;
    if s.term < m.term {
      Trans2FYields(s, m.term);
      NewerOutcome(s, m, Trans2F(s, m.term));
    } else if Answers(s, Receive(m)) {
      DealOutcome(s, m);
    } else {
      UndealtOutcome(s, m);
    }
  }

  lemma UndealtOutcome(s: Node, m: Msg)
    requires Idle(s) && m.RespAppend? && m.term <= s.term && !Answers(s, Receive(m))
    ensures Account(s, Receive(m), if m.term == s.term && s.role != Primary then Fail(s, RespToNonPrimary) else s)
  {
    hide SendsExactly;
    ReplySends(s, Receive(m), if m.term == s.term && s.role != Primary then Fail(s, RespToNonPrimary) else s);
  }

  lemma DealOutcome(s: Node, m: Msg)
    requires DealRequires(s, m)
    ensures Account(s, Receive(m), PrimaryDeal(s, m))
  {
    hide NodeInv, Account, Counted, InputShape;
    if m.ok {
      var s1 := DealCounts(s, m);
      CountedOutcome(s, m, s1, PrimaryDeal(s, m));
    } else {
      RefusalOutcome(s, m);
    }
  }

  lemma CountedOutcome(s: Node, m: Msg, s1: Node, t: Node)
    requires Counted(s, m, s1) && t == if At(s.next, m.from) < |s.log| then AE(s1, m.from) else s1
    ensures Account(s, Receive(m), t)
  {
    hide SendsExactly, InOrder, HandsOver, CaughtUp, CommitRule, LogShape, LsnInv, MsgShape;
    if At(s.next, m.from) < |s.log| {
      OneSends(s, Receive(m), s1, t, m.from);
    } else {
      ReplySends(s, Receive(m), t);
    }
  }

  lemma RefusalOutcome(s: Node, m: Msg)
    requires DealRequires(s, m) && !m.ok
    ensures Account(s, Receive(m), PrimaryDeal(s, m))
  {
    hide SendsExactly, InOrder, LogShape, LsnInv, MsgShape;
    var v := m.from;
    if At(s.next, v) == 0 {
      ReplySends(s, Receive(m), PrimaryDeal(s, m));
    } else {
      OneSends(s, Receive(m), s.(next := s.next[v := At(s.next, v) - 1]), PrimaryDeal(s, m), v);
    }
  }

  /** Every handler, whatever its branches, comes to the same as the field-by-field account. */
  lemma HandleOutcome(s: Node, inp: Input)
    requires NodeInv(s) && Idle(s) && InputShape(s, inp) && Offered(s, inp)
    ensures Account(s, inp, Handle(s, inp))
  {
    hide Account, LogShape, InOrder, LsnInv, InputShape;
    match inp
    case ElectionTimeout => TimeoutOutcome(s);
    case RetryRv(v) => ResendOutcome(s, inp, v, Handle(s, inp));
    case RetryAe(v) => ResendOutcome(s, inp, v, Handle(s, inp));
    case Command(cmd) => CommandOutcome(s, cmd);
    case Receive(m) =>
      match m
      case RequestVote(_, _, _, _, _) => RvOutcome(s, m);
      case AppendEntry(_, _, _, _, _, _, _) => AeOutcome(s, m);
      case RespVote(_, _, _, _) => RespRvOutcome(s, m);
      case RespAppend(_, _, _, _, _) => RespAeOutcome(s, m);
  }

  /** The account leaves no choice: two outcomes of one event agree in every field, every counter, what the state
      machine controler got and the RPCs that left. */
  lemma OutcomeUnique(s: Node, inp: Input, t: Node, u: Node)
    requires Account(s, inp, t) && Account(s, inp, u)
    ensures t == u.(curLsn := t.curLsn, outbox := t.outbox)
    ensures forall v :: At(t.curLsn, v) == At(u.curLsn, v)
    ensures multiset(t.outbox) == multiset(u.outbox)
  {
    hide FieldsAfter, Asks, GetsReply, ReplyNow;
    SameFields(s, inp, t, u);
    forall p ensures multiset(t.outbox)[p] == multiset(u.outbox)[p] {
      SameLeaves(s, inp, t, u, p);
      OnceEach(t.outbox, p);
      OnceEach(u.outbox, p);
    }
  }

  lemma SameFields(s: Node, inp: Input, t: Node, u: Node)
    requires FieldsAfter(s, inp, t) && FieldsAfter(s, inp, u)
    ensures t == u.(curLsn := t.curLsn, outbox := t.outbox)
  {
  }

  lemma SameLeaves(s: Node, inp: Input, t: Node, u: Node, p: Packet)
    requires t == u.(curLsn := t.curLsn, outbox := t.outbox) && At(t.curLsn, p.to) == At(u.curLsn, p.to)
    ensures Leaves(s, inp, t, p) <==> Leaves(s, inp, u, p)
  {
    hide Asks, GetsReply, ReplyNow;
  }

  lemma {:induction false} OnceEach<T>(a: seq<T>, x: T)
    requires forall i, j :: 0 <= i < j < |a| ==> a[i] != a[j]
    ensures multiset(a)[x] == if x in a then 1 else 0
  {
    if a != [] {
      assert a == [a[0]] + a[1..];
      OnceEach(a[1..], x);
    }
  }

  // ----- input that no run brings

  /** What is wrong with an AE of at most one entry, seen from this log. */
  function Defect(log: seq<Entry>, m: Msg): Option<Fault>
    requires m.AppendEntry?
  {
    if m.prelogIndex < -1 then Some(GetOutOfRange)
    else if m.prelogIndex == -1 && m.prelogTerm != -1 then Some(PrelogTermPresent)
    else if !Matches(log, m) then None
    else if m.entries == [] && |log| < m.commitIndex then Some(EmptyAeAheadOfLog)
    else if m.entries != [] && m.entries[0].index != m.prelogIndex + 1 then Some(EntryIndexMismatch)
    else None
  }

  /** What is left alone when the check throws. */
  ghost predicate Untouched(s: Node, t: Node) {
    t.log == s.log && t.commit == s.commit && t.ctl == s.ctl && t.outbox == s.outbox
  }

  /** An AE with more than one entry throws at once. One with a defect throws when the check finds it; log, commit
      index and state machine are untouched and nothing is answered. */
  lemma DefectiveAeThrows(s: Node, m: Msg)
    requires Idle(s) && m.AppendEntry? && m.from in s.config && 0 <= m.lsn
    ensures |m.entries| > 1 ==> React2Ae(s, m) == Fail(s, ManyEntries)
    ensures |m.entries| <= 1 && Heeds(s, Receive(m)) && Defect(s.log, m).Some? ==>
              React2Ae(s, m).fault == Defect(s.log, m) && Untouched(s, React2Ae(s, m))
  {
    hide Trans2F, CheckPrelog, Untouched, Defect;
    if |m.entries| <= 1 && Heeds(s, Receive(m)) && Defect(s.log, m).Some? {
      Trans2FYields(s, m.term);
      var s1 := Trans2F(s, m.term);
      NewTermHeardAe(s, m, s1);
      DefectFound(Remember(s1, m.from, m.lsn), m);
      assert Untouched(s, Remember(s1, m.from, m.lsn)) by {
        StillUntouched(s, m, s1);
      }
      UntouchedTwice(s, Remember(s1, m.from, m.lsn), CheckPrelog(Remember(s1, m.from, m.lsn), m));
    }
  }

  lemma NewTermHeardAe(s: Node, m: Msg, s1: Node)
    requires m.AppendEntry? && m.from in s.config && 0 <= m.lsn && Heeds(s, Receive(m)) && Yielded(s, m.term, s1)
    ensures !ShouldIgnore(s1, m.from, m.lsn)
  {
  }

  lemma StillUntouched(s: Node, m: Msg, s1: Node)
    requires Yielded(s, m.term, s1)
    ensures Untouched(s, Remember(s1, m.from, m.lsn))
  {
  }

  lemma UntouchedTwice(s: Node, t: Node, u: Node)
    requires Untouched(s, t) && Untouched(t, u)
    ensures Untouched(s, u)
  {
  }

  lemma DefectFound(s: Node, m: Msg)
    requires s.fault.None? && m.AppendEntry? && Defect(s.log, m).Some?
    ensures CheckPrelog(s, m).fault == Defect(s.log, m) && Untouched(s, CheckPrelog(s, m))
  {
    hide TakeEntries;
    if m.prelogIndex >= -1 && Matches(s.log, m) && (m.prelogIndex == -1 ==> m.prelogTerm == -1) {
      DefectTaken(s, m);
    }
  }

  lemma DefectTaken(s: Node, m: Msg)
    requires s.fault.None? && m.AppendEntry? && Defect(s.log, m).Some? && m.prelogIndex >= -1 && Matches(s.log, m)
    requires m.prelogIndex == -1 ==> m.prelogTerm == -1
    ensures TakeEntries(s, m).fault == Defect(s.log, m) && Untouched(s, TakeEntries(s, m))
  {
    hide FollowerCommit, Insert;
  }

  /** The term is never lowered: asked to, the node throws and stays as it was. A higher one restarts the counters. */
  lemma TermNeverLowered(s: Node, term: int)
    requires Idle(s)
    ensures var t := UpdateTerm(s, term);
            && (t.fault == Some(TermDecreased) <==> term < s.term) && t == s.(term := t.term, curLsn := t.curLsn,
                                                                              folLsn := t.folLsn, fault := t.fault)
            && t.term == (if term < s.term then s.term else term)
            && forall v :: v in s.config ==>
                 && At(t.curLsn, v) == (if s.term < term then 0 else At(s.curLsn, v))
                 && At(t.folLsn, v) == (if s.term < term then -1 else At(s.folLsn, v))
  {
  }

  /** A next index outside the log throws, whether an AE is to be built from it or an ok is counted against it. */
  lemma NextOutsideThrows(s: Node, v: Addr, m: Msg)
    requires Idle(s) && Acked(s, Receive(m)) && m.from == v
    ensures AE(s, v).fault == (if 0 <= At(s.next, v) <= |s.log| then None else Some(GetOutOfRange))
    ensures At(s.next, v) > |s.log| ==> PrimaryDeal(s, m) == Fail(s, NextBeyondLog)
  {
  }
}
