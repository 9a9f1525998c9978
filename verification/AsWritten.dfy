/** Theorems about every run of the cluster, with no assumption on what is delivered or when. */
module AsWritten {
  import opened RaftTypes
  import opened OrderStatistic
  import opened ApplyControl
  import opened NodeSpec
  import opened NodeFacts
  import opened NodeSteps
  import opened Cluster
  import opened Basics
  import opened Election
  import opened Logs
  import opened Retention

  /** Event i of the run, at a node that exists. */
  ghost predicate Happens(r: Run, i: nat) {
    && i < |r.events| && |r.states| == |r.events| + 1
    && NodeOf(r.events[i]) in r.states[i].nodes && NodeOf(r.events[i]) in r.states[i + 1].nodes
  }

  /** The node that moves in event i, before and after. */
  function Before(r: Run, i: nat): Node
    requires Happens(r, i)
  {
    r.states[i].nodes[NodeOf(r.events[i])]
  }

  function Behind(r: Run, i: nat): Node
    requires Happens(r, i)
  {
    r.states[i + 1].nodes[NodeOf(r.events[i])]
  }

  /** The same node with the RPCs it sent still in its outbox. */
  function Outcome(r: Run, i: nat): Node
    requires Happens(r, i)
  {
    Handle(Before(r, i), InputOf(r.events[i]))
  }

  lemma EventFacts(r: Run, i: nat)
    requires IsRun(r) && i < |r.events|
    ensures Happens(r, i) && Enabled(r.states[i], r.events[i])
    ensures Behind(r, i) == Outcome(r, i).(outbox := [])
    ensures BasicInv(r.states[i]) && VoteInv(r.states[i])
    ensures StepFacts(Before(r, i), InputOf(r.events[i]), Outcome(r, i))
    ensures InputShape(Before(r, i), InputOf(r.events[i])) && NodeInv(Before(r, i))
  {
    hide Handle, StepFacts, VoteInv, Requests, Replies, Offered, NodeInv, MsgShape;
    VotesHold(r, i);
    StepAt(r, i);
    StepOk(r.states[i], r.events[i]);
    InputOk(r.states[i], r.events[i]);
  }

  /** The throws the author calls impossible never happen, and neither do the bounds throws of the log. */
  lemma ImpossibleThrows(r: Run, i: nat, v: Addr)
    requires IsRun(r) && i < |r.states| && v in r.states[i].config
    ensures v in r.states[i].nodes
    ensures r.states[i].nodes[v].fault !in {Some(TermDecreased), Some(ManyEntries), Some(PrelogTermPresent),
              Some(EmptyAeAheadOfLog), Some(EntryIndexMismatch), Some(NextBeyondLog), Some(GetOutOfRange),
              Some(InsertOutOfRange)}
  {
    hide NodeInv, NetOk, Requests, Replies, IsRun;
    BasicsHold(r, i);
  }

  /** Each of the other throws happens exactly under the condition its branch tests. */
  lemma ThrowsExactly(r: Run, i: nat)
    requires IsRun(r) && Happens(r, i)
    ensures var s, inp, t := Before(r, i), InputOf(r.events[i]), Behind(r, i);
            && (t.fault == Some(TwoPrimaries) <==> IsAe(inp) && inp.msg.term == s.term && s.role == Primary)
            && (t.fault == Some(RespToNonPrimary) <==>
                  inp.Receive? && inp.msg.RespAppend? && inp.msg.term == s.term && s.role != Primary)
            && (t.fault == Some(RefusedAtZero) <==> Refused(s, inp) && At(s.next, inp.msg.from) == 0)
            && (t.fault == Some(CommitDecreased) <==>
                  Accepts(s, inp) && (inp.msg.commitIndex < s.commit || |LogAfter(s.log, inp.msg)| <= s.commit))
  {
    hide Handle, BasicInv, VoteInv, IsRun, Sound, RequestFacts, RoleFacts, VoteFacts, ReplyFacts, PrimaryFacts,
         FreshPrimary, NodeInv, MsgShape, Enabled;
    EventFacts(r, i);
  }

  /** Log shape: indices count up from 0, terms never decrease and none exceeds the current term. */
  lemma LogsWellShaped(r: Run, i: nat, v: Addr)
    requires IsRun(r) && i < |r.states| && v in r.states[i].config
    ensures v in r.states[i].nodes
    ensures var s := r.states[i].nodes[v];
            && (forall k :: 0 <= k < |s.log| ==> s.log[k].index == k && s.log[k].term <= s.term)
            && (forall j, k :: 0 <= j < k < |s.log| ==> s.log[j].term <= s.log[k].term)
            && -1 <= s.commit < |s.log|
  {
    hide NetOk, Requests, Replies, IsRun, InOrder, LsnInv;
    BasicsHold(r, i);
  }

  /** The same for every AE in flight; an empty one never commits past the entry it verifies. */
  lemma AesWellShaped(r: Run, i: nat, l: Letter)
    requires IsRun(r) && i < |r.states| && l in r.states[i].net && l.msg.AppendEntry?
    ensures var m := l.msg;
            && |m.entries| <= 1 && -1 <= m.prelogIndex && m.prelogTerm <= m.term
            && (m.entries == [] ==> m.commitIndex <= m.prelogIndex)
            && (m.entries != [] ==>
                  m.entries[0].index == m.prelogIndex + 1 && m.prelogTerm <= m.entries[0].term <= m.term)
  {
    hide NodesOk, Requests, Replies, IsRun;
    BasicsHold(r, i);
    assert LetterOk(r.states[i], l);
  }

  /** A moved commit index stays within what the AE m verified of the log of t. */
  ghost predicate WithinVerified(m: Msg, t: Node)
    requires m.AppendEntry?
  {
    && t.commit <= m.prelogIndex + |m.entries| < |t.log|
    && t.commit <= m.commitIndex
    && (m.prelogIndex >= 0 ==> t.log[m.prelogIndex].term == m.prelogTerm)
    && (m.entries != [] ==> m.prelogIndex >= -1 && t.log[m.prelogIndex + 1] == m.entries[0])
  }

  lemma CommitsVerified(s: Node, inp: Input, t: Node)
    requires LogFacts(s, inp, t) && CommitFacts(s, inp, t) && InputShape(s, inp) && IsAe(inp) && t.commit != s.commit
    ensures WithinVerified(inp.msg, t)
  {
    hide HandsOver;
  }

  lemma VerifiedSent(m: Msg, t: Node)
    requires m.AppendEntry? && WithinVerified(m, t)
    ensures WithinVerified(m, t.(outbox := []))
  {
  }

  /** A follower commits only what the AE verified. */
  lemma FollowerCommitsVerified(r: Run, i: nat)
    requires IsRun(r) && Happens(r, i) && IsAe(InputOf(r.events[i]))
    requires Behind(r, i).commit != Before(r, i).commit
    ensures WithinVerified(InputOf(r.events[i]).msg, Behind(r, i))
  {
    hide Handle, BasicInv, VoteInv, IsRun, Sound, RequestFacts, RoleFacts, VoteFacts, ReplyFacts, PrimaryFacts,
         FreshPrimary, NodeInv, Enabled, FaultFacts, LogFacts, CommitFacts, WithinVerified;
    EventFacts(r, i);
    CommitsVerified(Before(r, i), InputOf(r.events[i]), Outcome(r, i));
    assert WithinVerified(InputOf(r.events[i]).msg, Behind(r, i)) by {
      VerifiedSent(InputOf(r.events[i]).msg, Outcome(r, i));
    }
  }

  /** A primary's recomputed commit index is the greatest k that a majority of servers have saved. */
  lemma CommitIsMajoritySaved(r: Run, i: nat, k: int)
    requires IsRun(r) && Happens(r, i)
    requires Acked(Before(r, i), InputOf(r.events[i]))
    ensures var t := Behind(r, i);
            && (2 * |Holders(t.saved, t.config, k)| > |t.config| <==> k <= t.commit)
            && -1 <= t.commit < |t.log|
  {
    hide Handle, BasicInv, VoteInv, IsRun, RequestFacts, VoteFacts, ReplyFacts, FreshPrimary, Enabled, CommitRule,
         LogShape, InOrder, LsnInv, Majority, MsgShape, FaultFacts, HandsOver;
    EventFacts(r, i);
    CommitRuleIsGreatest(Behind(r, i).saved, Behind(r, i).config, k);
    MajorityIsMoreThanHalf(Behind(r, i).config, |Holders(Behind(r, i).saved, Behind(r, i).config, k)|);
  }

  /** An ok that a primary acts on answers the last RPC it sent to that peer in this term, an AE for the entry
      before next[peer] that was empty exactly when the reply says so. */
  lemma OkAnswersLastAe(r: Run, i: nat)
    requires IsRun(r) && Happens(r, i)
    requires Acked(Before(r, i), InputOf(r.events[i]))
    ensures r.events[i].Deliver?
    ensures var s, l, net := Before(r, i), r.events[i].letter, r.states[i].net;
            exists q :: q in net && AeOf(q, l.msg.from, s.self, s.term) && l.re == Some(q.msg)
              && q.msg.prelogIndex == At(s.next, l.msg.from) - 1 && (l.msg.isEmptyAe <==> q.msg.entries == [])
              && (forall p :: p in net && SameSlot(p, q) && p != q ==> p.msg.lsn < q.msg.lsn)
  {
    hide Handle, VoteInv, IsRun, StepFacts, NodeInv, Replies, Answered, Offered, MsgShape;
    EventFacts(r, i);
    var c, ev, s := r.states[i], r.events[i], Before(r, i);
    var l := ev.letter;
    AckedAnswersAe(c, ev);
    Correlates(c, ev);
    var q := Letter(l.msg.from, l.re.value, None);
    forall p | p in c.net && SameSlot(p, q) && p != q ensures p.msg.lsn < q.msg.lsn {
      assert Numbered(c, p);
    }
    assert AeOf(q, l.msg.from, s.self, s.term);
  }

  lemma AckedAnswersAe(c: Cluster, ev: Event)
    requires BasicInv(c) && Enabled(c, ev) && Acked(Mover(c, ev), InputOf(ev))
    ensures ev.Deliver? && ev.letter.re.Some? && ev.letter.re.value.AppendEntry?
    ensures ev.letter.re.value.term == Mover(c, ev).term && Mover(c, ev).self == NodeOf(ev)
  {
    hide Requests, NodeInv, NetOk;
    assert Answered(c, ev.letter);
  }

  /** A candidate's vote count is its own vote and the distinct grants of its term it consumed. */
  lemma VotesAreGrants(r: Run, i: nat, n: Addr)
    requires IsRun(r) && i < |r.states| && n in r.states[i].config
    ensures n in r.states[i].nodes
    ensures var c := r.states[i]; var s := c.nodes[n];
            && (s.role != Follower ==> s.votes == 1 + |Ballots(c, n, s.term)|)
            && (s.role == Primary ==> 2 * (1 + |Ballots(c, n, s.term)|) > |c.config|)
            && (forall l :: l in Ballots(c, n, s.term) ==>
                  l in c.spent && l.to == n && IsGrant(l.msg) && l.msg.term == s.term && l.msg.from != n)
  {
    hide NodeInv, Requests, Replies, IsRun, VotesRemembered, SingleUnlessLate, MsgShape;
    VotesHold(r, i);
    var c := r.states[i];
    MajorityIsMoreThanHalf(c.config, 1 + |Ballots(c, n, c.nodes[n].term)|);
    forall l | l in Ballots(c, n, c.nodes[n].term) ensures LetterOk(c, l) {
    }
  }

  /** Election safety as far as it holds: one primary per term, until a node handles an AE of a term it is in. */
  lemma ElectionSafetyUntilLate(r: Run, i: nat, n1: Addr, n2: Addr, term: int)
    requires IsRun(r) && i < |r.states|
    requires forall v :: (v, term) !in r.states[i].hist.late
    requires (n1, term) in r.states[i].hist.wins && (n2, term) in r.states[i].hist.wins
    ensures n1 == n2
  {
    hide NodesOk, NetOk, Requests, Replies, IsRun, VotesRemembered, RolesRecorded, Tallied, Single;
    VotesHold(r, i);
    OneWinner(r.states[i], n1, n2, term);
  }

  // ----- where AEs and refusals come from

  ghost predicate Traced(c: Cluster) {
    && (forall l :: l in c.net && l.msg.AppendEntry? ==> (l.msg.from, l.msg.term) in c.hist.wins)
    && (forall l :: l in c.net && IsRefusal(l) ==> 0 <= l.re.value.prelogIndex)
  }

  lemma TracedKept(c: Cluster, ev: Event, t: Node)
    requires BasicInv(c) && Traced(c) && Enabled(c, ev) && StepFacts(Mover(c, ev), InputOf(ev), t)
    ensures Traced(After(c, ev, t))
  {
    hide BasicInv, StepFacts, Offered, Accepts, SameTermAe, CountsBallot;
    var c' := After(c, ev, t);
    forall l | l in c'.net && l.msg.AppendEntry? ensures (l.msg.from, l.msg.term) in c'.hist.wins {
      if l !in c.net {
        NewAeWon(c, ev, t, l);
      }
    }
    forall l | l in c'.net && IsRefusal(l) ensures 0 <= l.re.value.prelogIndex {
      if l !in c.net {
        NewRefusalSeen(c, ev, t, l);
      }
    }
  }

  lemma NewAeWon(c: Cluster, ev: Event, t: Node, l: Letter)
    requires BasicInv(c) && Enabled(c, ev) && StepFacts(Mover(c, ev), InputOf(ev), t)
    requires l in After(c, ev, t).net && l !in c.net && l.msg.AppendEntry?
    ensures t.role == Primary && l.msg.from == NodeOf(ev) && l.msg.term == t.term
  {
    hide Requests, Replies, NodeInv, MsgShape, Effects, NetOk;
    NewRequest(c, ev, t, l);
  }

  lemma NewRefusalSeen(c: Cluster, ev: Event, t: Node, l: Letter)
    requires BasicInv(c) && Enabled(c, ev) && StepFacts(Mover(c, ev), InputOf(ev), t)
    requires l in After(c, ev, t).net && l !in c.net && IsRefusal(l)
    ensures 0 <= l.re.value.prelogIndex
  {
    hide Requests, NodeInv, RequestFacts, RoleFacts, VoteFacts, CommitFacts, PrimaryFacts, FreshPrimary, FaultFacts,
         NodesOk, LogFacts;
    NewReply(c, ev, t, l);
    assert LetterOk(c, ev.letter);
  }

  lemma {:induction false} TracedHolds(r: Run, i: nat)
    requires IsRun(r) && i < |r.states|
    ensures BasicInv(r.states[i]) && Traced(r.states[i])
  {
    hide BasicInv, VoteInv, StepFacts, Handle, Offered, After, NodeInv, InputShape;
    BasicsHold(r, i);
    if i == 0 {
      InitTraced(r.states[0]);
    } else {
      TracedHolds(r, i - 1);
      EventFacts(r, i - 1);
      StepAt(r, i - 1);
      TracedKept(r.states[i - 1], r.events[i - 1], Outcome(r, i - 1));
    }
  }

  lemma InitTraced(c: Cluster)
    requires Init(c)
    ensures Traced(c)
  {
  }

  /** Under H3 a reply never reaches a node that is not its term's primary, and none is refused at index 0. */
  lemma AnswersNeverThrow(r: Run, i: nat)
    requires IsRun(r) && Happens(r, i)
    requires OwnAnswer(r.states[i], r.events[i])
    ensures Behind(r, i).fault != Some(RespToNonPrimary) && Behind(r, i).fault != Some(RefusedAtZero)
  {
    hide Handle, IsRun, StepFacts, NodeInv, Offered, MsgShape, Numbered, Tallied, VotesRemembered, SingleUnlessLate;
    EventFacts(r, i);
    TracedHolds(r, i);
    ThrowsExactly(r, i);
    var c, ev, s := r.states[i], r.events[i], Before(r, i);
    if ev.Deliver? && ev.letter.msg.RespAppend? && ev.letter.msg.term == s.term {
      var l := ev.letter;
      assert Answered(c, l);
      assert l.re.value.term == s.term && (l.re.value.from, s.term) in c.hist.wins;
      assert s.role == Primary;
      if Refused(s, InputOf(ev)) {
        RefusedAboveZero(c, ev);
      }
    }
  }

  lemma RefusedAboveZero(c: Cluster, ev: Event)
    requires BasicInv(c) && Traced(c) && Enabled(c, ev) && OwnAnswer(c, ev) && Refused(Mover(c, ev), InputOf(ev))
    ensures 0 < At(Mover(c, ev).next, InputOf(ev).msg.from)
  {
    hide NodeInv, MsgShape, Numbered;
    assert Answered(c, ev.letter);
    Correlates(c, ev);
    assert IsRefusal(ev.letter);
  }
}
