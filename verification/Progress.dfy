/** What a run does whenever it may: committed entries reach the state machine, newer terms are followed, and a
    majority of votes makes a primary. */
module Progress {
  import opened RaftTypes
  import opened OrderStatistic
  import opened ApplyControl
  import opened NodeSpec
  import opened NodeFacts
  import opened NodeSteps
  import opened Outcomes
  import opened Cluster
  import opened Basics
  import opened Election
  import opened Logs
  import opened Retention
  import opened AsWritten
  import opened Completeness
  import opened Theorems

  /** Event i of a run, with the full account of what it does to its node. */
  lemma EventAccount(r: Run, i: nat)
    requires IsRun(r) && i < |r.events|
    ensures Happens(r, i) && r.states[i + 1] == After(r.states[i], r.events[i], Outcome(r, i))
    ensures Behind(r, i) == Outcome(r, i).(outbox := []) && Enabled(r.states[i], r.events[i])
    ensures NodeOf(r.events[i]) in r.states[i].config && r.states[i + 1].config == r.states[i].config
    ensures var s := Before(r, i);
            && NodeInv(s) && Idle(s) && InputShape(s, InputOf(r.events[i]))
            && s.self == NodeOf(r.events[i]) && s.config == r.states[i].config
            && Account(s, InputOf(r.events[i]), Outcome(r, i))
  {
    hide IsRun, Handle, StepFacts, VoteInv, Requests, Replies, NodeInv, MsgShape, Account, Record;
    EventFacts(r, i);
    StepAt(r, i);
    InputOk(r.states[i], r.events[i]);
    HandleOutcome(Before(r, i), InputOf(r.events[i]));
  }

  /** Servers other than the one that moves stay as they are. */
  lemma OthersStay(r: Run, i: nat, v: Addr)
    requires IsRun(r) && i < |r.events| && v != NodeOf(r.events[i])
    ensures |r.states| == |r.events| + 1
    ensures v in r.states[i].nodes <==> v in r.states[i + 1].nodes
    ensures v in r.states[i].nodes ==> r.states[i + 1].nodes[v] == r.states[i].nodes[v]
  {
    hide IsRun, Account, Record;
    EventAccount(r, i);
  }

  lemma ServerThere(r: Run, i: nat, v: Addr)
    requires IsRun(r) && i < |r.states| && v in r.states[i].config
    ensures v in r.states[i].nodes && NodeInv(r.states[i].nodes[v])
    ensures r.states[i].nodes[v].self == v && r.states[i].nodes[v].config == r.states[i].config
  {
    hide IsRun, NodeInv, NetOk, Requests, Replies;
    BasicsHold(r, i);
  }

  // ----- committed entries reach the state machine

  lemma AppliedKept(s: Node, inp: Input, t: Node)
    requires Account(s, inp, t) && s.commit <= s.ctl.applied
    ensures t.commit <= t.ctl.applied
  {
    hide SendsExactly, HandsOver, LogNow, SavedAfter;
  }

  lemma {:induction false} CommitApplied(r: Run, i: nat, v: Addr)
    requires IsRun(r) && i < |r.states| && v in r.states[i].config
    ensures v in r.states[i].nodes && r.states[i].nodes[v].commit <= r.states[i].nodes[v].ctl.applied
  {
    hide IsRun, Account, NodeInv, InputShape, Offered, After;
    FirstState(r);
    ServerThere(r, i, v);
    if i > 0 {
      EventAccount(r, i - 1);
      CommitApplied(r, i - 1, v);
      if v == NodeOf(r.events[i - 1]) {
        AppliedKept(Before(r, i - 1), InputOf(r.events[i - 1]), Outcome(r, i - 1));
      } else {
        OthersStay(r, i - 1, v);
      }
    }
  }

  /** In every reachable state every committed index of every server has been handed to its state machine. */
  lemma CommittedIsHandedOver(r: Run, i: nat, v: Addr)
    requires IsRun(r) && i < |r.states| && v in r.states[i].config
    ensures v in r.states[i].nodes
    ensures var s := r.states[i].nodes[v];
            s.commit < |s.ctl.tasks| && forall k :: 0 <= k <= s.commit ==> s.ctl.tasks[k].index == k
  {
    hide IsRun, LogShape, PrimaryInv, LsnInv;
    CommitApplied(r, i, v);
    ServerThere(r, i, v);
  }

  /** A step that raises a commit index hands over what the log holds up to it, all at once. */
  lemma RaisedCommitHandsOver(r: Run, i: nat)
    requires IsRun(r) && i < |r.events|
    ensures Happens(r, i)
    ensures var s, t := Before(r, i), Behind(r, i);
            && s.ctl.tasks <= t.ctl.tasks
            && (s.commit < t.commit ==> t.commit < |t.ctl.tasks|)
            && forall k :: |s.ctl.tasks| <= k < |t.ctl.tasks| ==>
                 k <= t.commit < |t.log| && t.ctl.tasks[k] == Task(k, t.log[k].msg)
  {
    hide IsRun, Handle, RequestFacts, RoleFacts, VoteFacts, ReplyFacts, LogFacts, PrimaryFacts, FreshPrimary, FaultFacts,
         BasicInv, VoteInv, Account, InputShape, Enabled, LogShape, LsnInv, PrimaryInv, After;
    EventFacts(r, i);
    EventAccount(r, i);
    CommittedIsHandedOver(r, i + 1, NodeOf(r.events[i]));
  }

  // ----- newer terms

  lemma {:induction false} TermsGrow(r: Run, i: nat, j: nat, n: Addr)
    requires IsRun(r) && i <= j < |r.states| && n in r.states[i].config
    ensures n in r.states[i].nodes && n in r.states[j].nodes && n in r.states[j].config
    ensures r.states[i].nodes[n].term <= r.states[j].nodes[n].term
    decreases j
  {
    hide IsRun, Account, NodeInv, InputShape, After, Enabled;
    FirstState(r);
    ServerThere(r, i, n);
    if i < j {
      TermsGrow(r, i, j - 1, n);
      EventAccount(r, j - 1);
      ServerThere(r, j, n);
      if n == NodeOf(r.events[j - 1]) {
        TermKept(Before(r, j - 1), InputOf(r.events[j - 1]), Outcome(r, j - 1));
      } else {
        OthersStay(r, j - 1, n);
      }
    }
  }

  lemma TermKept(s: Node, inp: Input, t: Node)
    requires Account(s, inp, t)
    ensures s.term <= t.term && (inp.Receive? ==> inp.msg.term <= t.term)
  {
    hide SendsExactly, ControlerAfter;
  }

  /** A message of a newer term, whatever it is, makes its receiver a follower of that term without votes. */
  lemma NewerTermFollowed(r: Run, i: nat)
    requires IsRun(r) && i < |r.events|
    ensures Happens(r, i)
    ensures var s, inp, t := Before(r, i), InputOf(r.events[i]), Behind(r, i);
            Newer(s, inp) ==> t.term == inp.msg.term && t.role == Follower && t.votes == 0
  {
    hide IsRun, SendsExactly, ControlerAfter, NodeInv, InputShape, After, Enabled;
    EventAccount(r, i);
  }

  /** Whoever handled a message of a term is in that term or a later one from then on. */
  lemma HandledTermReached(r: Run, i: nat, j: nat)
    requires IsRun(r) && i < |r.events| && i < j < |r.states| && r.events[i].Deliver?
    ensures var l := r.events[i].letter;
            l.to in r.states[j].nodes && l.msg.term <= r.states[j].nodes[l.to].term
  {
    hide IsRun, Account, NodeInv, InputShape, After, Enabled;
    EventAccount(r, i);
    TermKept(Before(r, i), InputOf(r.events[i]), Outcome(r, i));
    TermsGrow(r, i + 1, j, r.events[i].letter.to);
  }

  /** An AE of its own term makes any server but the term's primary a follower, even if it is a late one. */
  lemma OwnTermAeFollowed(r: Run, i: nat)
    requires IsRun(r) && i < |r.events|
    ensures Happens(r, i)
    ensures var s, inp, t := Before(r, i), InputOf(r.events[i]), Behind(r, i);
            SameTermAe(s, inp) ==> t.term == s.term && t.role == Follower && t.votes == 0 && !t.voted
  {
    hide IsRun, SendsExactly, ControlerAfter, NodeInv, InputShape, After, Enabled;
    EventAccount(r, i);
  }

  // ----- a majority of votes makes a primary

  ghost predicate BelowMajority(s: Node) {
    s.role == Candidate && 2 <= |s.config| ==> s.votes < Majority(s.config)
  }

  lemma BelowMajorityKept(s: Node, inp: Input, t: Node)
    requires Account(s, inp, t) && BelowMajority(s)
    ensures BelowMajority(t)
  {
    hide SendsExactly, ControlerAfter;
  }

  lemma {:induction false} CandidatesBelowMajority(r: Run, i: nat, v: Addr)
    requires IsRun(r) && i < |r.states| && v in r.states[i].config
    ensures v in r.states[i].nodes && BelowMajority(r.states[i].nodes[v])
  {
    hide IsRun, Account, NodeInv, InputShape, After, Enabled, BelowMajority;
    FirstState(r);
    ServerThere(r, i, v);
    if i == 0 {
      StartsBelowMajority(r.states[0], v);
    } else {
      EventAccount(r, i - 1);
      CandidatesBelowMajority(r, i - 1, v);
      if v == NodeOf(r.events[i - 1]) {
        BelowMajorityKept(Before(r, i - 1), InputOf(r.events[i - 1]), Outcome(r, i - 1));
        SameRole(Outcome(r, i - 1));
      } else {
        OthersStay(r, i - 1, v);
      }
    }
  }

  lemma SameRole(t: Node)
    ensures BelowMajority(t.(outbox := [])) <==> BelowMajority(t)
  {
  }

  lemma StartsBelowMajority(c: Cluster, v: Addr)
    requires Init(c) && v in c.config && v in c.nodes
    ensures BelowMajority(c.nodes[v])
  {
  }

  /** Elected exactly by a majority: of two servers or more, one that stood and is still no follower is the primary
      of its term if and only if, with its own vote, it has consumed the grants of a majority. */
  lemma MajorityElects(r: Run, i: nat, n: Addr)
    requires IsRun(r) && i < |r.states| && n in r.states[i].config && 2 <= |r.states[i].config|
    ensures n in r.states[i].nodes
    ensures var c := r.states[i]; var s := c.nodes[n];
            s.role != Follower ==>
              (s.role == Primary <==> 2 * (1 + |Ballots(c, n, s.term)|) > |c.config|)
  {
    hide IsRun, NodeInv, Ballots, Majority;
    VotesAreGrants(r, i, n);
    CandidatesBelowMajority(r, i, n);
    ServerThere(r, i, n);
    MajorityIsMoreThanHalf(r.states[i].config, 1 + |Ballots(r.states[i], n, r.states[i].nodes[n].term)|);
  }

  /** One server alone never gets there: it has a majority from the start, but only a grant makes it look. */
  lemma {:induction false} LoneServerNeverPrimary(r: Run, i: nat, n: Addr)
    requires IsRun(r) && i < |r.states| && n in r.states[i].config && |r.states[i].config| == 1
    ensures n in r.states[i].nodes && r.states[i].nodes[n].role != Primary
  {
    hide IsRun, NodeInv, SendsExactly, ControlerAfter, After, Enabled, MsgShape;
    FirstState(r);
    ServerThere(r, i, n);
    if i > 0 {
      EventAccount(r, i - 1);
      LoneServerNeverPrimary(r, i - 1, n);
      if n != NodeOf(r.events[i - 1]) {
        OthersStay(r, i - 1, n);
      }
    }
  }

  // ----- the same commands everywhere

  ghost predicate Recorded(c: Cluster, v: Addr, task: Task) {
    exists term :: Handed(v, term, task) in c.hist.handed
  }

  lemma RecordsStay(c: Cluster, ev: Event, t: Node, v: Addr, task: Task)
    requires NodeOf(ev) in c.nodes && Recorded(c, v, task)
    ensures Recorded(After(c, ev, t), v, task)
  {
    hide Mailed, HandedNow, Accepts, SameTermAe, CountsBallot, Acked, Refused;
    var term :| Handed(v, term, task) in c.hist.handed;
    assert Handed(v, term, task) in After(c, ev, t).hist.handed;
  }

  lemma NewTaskRecorded(c: Cluster, ev: Event, t: Node, k: nat)
    requires NodeOf(ev) in c.nodes && |c.nodes[NodeOf(ev)].ctl.tasks| <= k < |t.ctl.tasks|
    ensures Recorded(After(c, ev, t), t.self, t.ctl.tasks[k])
  {
    hide Mailed, Accepts, SameTermAe, CountsBallot, Acked, Refused;
    assert Handed(t.self, t.term, t.ctl.tasks[k]) in HandedNow(c.nodes[NodeOf(ev)], t);
    assert Handed(t.self, t.term, t.ctl.tasks[k]) in After(c, ev, t).hist.handed;
  }

  lemma NoTasksYet(c: Cluster, v: Addr)
    requires Init(c) && v in c.config && v in c.nodes
    ensures c.nodes[v].ctl.tasks == []
  {
  }

  lemma {:induction false} TasksRecorded(r: Run, i: nat, v: Addr, k: nat)
    requires IsRun(r) && i < |r.states| && v in r.states[i].config && v in r.states[i].nodes
    requires k < |r.states[i].nodes[v].ctl.tasks|
    ensures Recorded(r.states[i], v, r.states[i].nodes[v].ctl.tasks[k])
  {
    hide IsRun, Handle, Account, NodeInv, InputShape, Enabled, After, Recorded, Init;
    FirstState(r);
    ServerThere(r, i, v);
    if i == 0 {
      NoTasksYet(r.states[0], v);
    } else {
      EventAccount(r, i - 1);
      ServerThere(r, i - 1, v);
      RaisedCommitHandsOver(r, i - 1);
      var c, ev, t := r.states[i - 1], r.events[i - 1], Outcome(r, i - 1);
      if v != NodeOf(ev) {
        OthersStay(r, i - 1, v);
      }
      if k < |c.nodes[v].ctl.tasks| {
        TasksRecorded(r, i - 1, v, k);
        RecordsStay(c, ev, t, v, c.nodes[v].ctl.tasks[k]);
      } else {
        NewTaskRecorded(c, ev, t, k);
      }
    }
  }

  /** State Machine Safety on the servers themselves: of the command sequences that any two servers have handed to
      their state machines, one is a prefix of the other. */
  lemma SameCommands(r: Run, i: nat, a: Addr, b: Addr)
    requires IsRun(r) && H1(r) && H2(r) && H3(r) && H4(r) && H5(r) && i < |r.states|
    requires a in r.states[i].config && b in r.states[i].config
    ensures a in r.states[i].nodes && b in r.states[i].nodes
    ensures var x, y := r.states[i].nodes[a].ctl.tasks, r.states[i].nodes[b].ctl.tasks; x <= y || y <= x
  {
    hide IsRun, H1, H2, H3, H4, H5, LogShape, PrimaryInv, LsnInv;
    ServerThere(r, i, a);
    ServerThere(r, i, b);
    var x, y, h := r.states[i].nodes[a].ctl.tasks, r.states[i].nodes[b].ctl.tasks, r.states[i].hist.handed;
    forall k | 0 <= k < |x| && k < |y| ensures x[k] == y[k] {
      TasksRecorded(r, i, a, k);
      TasksRecorded(r, i, b, k);
      var ta :| Handed(a, ta, x[k]) in h;
      var tb :| Handed(b, tb, y[k]) in h;
      StateMachineSafety(r, i, Handed(a, ta, x[k]), Handed(b, tb, y[k]));
    }
  }
}
