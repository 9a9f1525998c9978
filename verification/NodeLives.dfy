/** What a run of the cluster is for one of its servers: a run of that server alone. The results about such runs
    then hold of every server of every cluster run. */
module NodeLives {
  import opened RaftTypes
  import opened NodeSpec
  import opened NodeFacts
  import opened NodeSteps
  import opened Cluster
  import opened Basics
  import opened AsWritten
  import opened NodeRuns

  ghost predicate AtNode(r: Run, i: nat, n: Addr) {
    i < |r.events| && NodeOf(r.events[i]) == n
  }

  ghost predicate Serves(r: Run, n: Addr) {
    |r.states| == |r.events| + 1 && forall i :: 0 <= i < |r.states| ==> n in r.states[i].nodes
  }

  lemma {:induction false} ServesFrom(r: Run, n: Addr, i: nat)
    requires IsRun(r) && n in r.states[0].config && i < |r.states|
    ensures n in r.states[i].nodes && n in r.states[i].config && |r.states| == |r.events| + 1
  {
    hide Handle, Record, Offered;
    FirstState(r);
    if i > 0 {
      ServesFrom(r, n, i - 1);
      StepAt(r, i - 1);
    }
  }

  lemma ServerServes(r: Run, n: Addr)
    requires IsRun(r) && n in r.states[0].config
    ensures Serves(r, n)
  {
    hide IsRun;
    FirstState(r);
    ServesFrom(r, n, 0);
    forall i | 0 <= i < |r.states| ensures n in r.states[i].nodes {
      ServesFrom(r, n, i);
    }
  }

  /** The first k events as server n lives them: its own, with its state before, between and after. */
  ghost function Life(r: Run, n: Addr, k: nat): NodeRun
    requires Serves(r, n) && k <= |r.events|
  {
    if k == 0 then NodeRun([r.states[0].nodes[n]], [])
    else
      var life := Life(r, n, k - 1);
      if NodeOf(r.events[k - 1]) != n then life
      else NodeRun(life.states + [r.states[k].nodes[n]], life.inputs + [InputOf(r.events[k - 1])])
  }

  /** The events of a server in any run of the cluster are a run of that server. */
  lemma {:induction false} LifeIsNodeRun(r: Run, n: Addr, k: nat)
    requires IsRun(r) && n in r.states[0].config && Serves(r, n) && k <= |r.events|
    ensures var life := Life(r, n, k);
            IsNodeRun(life) && life.states[|life.inputs|] == r.states[k].nodes[n]
  {
    hide IsRun, Handle, NodeInv, StepFacts, InputShape, Idle;
    FirstState(r);
    ServesFrom(r, n, 0);
    if k == 0 {
      FirstNode(r, n);
    } else {
      LifeIsNodeRun(r, n, k - 1);
      LifeStep(r, n, k - 1);
      if NodeOf(r.events[k - 1]) == n {
        LongerLife(Life(r, n, k - 1), InputOf(r.events[k - 1]), r.states[k].nodes[n]);
      }
    }
  }

  lemma FirstNode(r: Run, n: Addr)
    requires IsRun(r) && n in r.states[0].config && n in r.states[0].nodes
    ensures NodeInv(r.states[0].nodes[n]) && Idle(r.states[0].nodes[n])
  {
    hide NodeInv, IsRun, NetOk;
    FirstState(r);
    BasicsHold(r, 0);
  }

  lemma LifeStep(r: Run, n: Addr, i: nat)
    requires IsRun(r) && Serves(r, n) && i < |r.events|
    ensures if NodeOf(r.events[i]) == n
            then IsNodeStep(r.states[i].nodes[n], InputOf(r.events[i]), r.states[i + 1].nodes[n])
            else r.states[i + 1].nodes[n] == r.states[i].nodes[n]
  {
    hide IsRun, Handle, NodeInv, StepFacts, InputShape, BasicInv, Offered, Record;
    EventFacts(r, i);
    StepAt(r, i);
  }

  lemma LongerLife(life: NodeRun, inp: Input, t: Node)
    requires IsNodeRun(life) && IsNodeStep(life.states[|life.inputs|], inp, t)
    ensures IsNodeRun(NodeRun(life.states + [t], life.inputs + [inp]))
  {
    hide IsNodeStep, NodeInv;
    var more := NodeRun(life.states + [t], life.inputs + [inp]);
    forall i | 0 <= i < |more.inputs| ensures IsNodeStep(more.states[i], more.inputs[i], more.states[i + 1]) {
      if i < |life.inputs| {
        NodeStepAt(life, i);
      }
    }
  }

  /** Where event i of the run stands in the life of its server. */
  lemma {:induction false} LifeAt(r: Run, n: Addr, i: nat, k: nat)
    requires IsRun(r) && n in r.states[0].config && Serves(r, n) && AtNode(r, i, n) && i < k <= |r.events|
    ensures var at, life := |Life(r, n, i).inputs|, Life(r, n, k);
            && at < |life.inputs| && |life.states| == |life.inputs| + 1
            && life.inputs[at] == InputOf(r.events[i])
            && life.states[at] == r.states[i].nodes[n] && life.states[at + 1] == r.states[i + 1].nodes[n]
    decreases k
  {
    hide IsRun, IsNodeStep, NodeInv, Idle;
    LifeIsNodeRun(r, n, k);
    LifeIsNodeRun(r, n, k - 1);
    if i < k - 1 {
      LifeAt(r, n, i, k - 1);
    }
  }

  // ----- votes

  /** How often the first k events made n vote in the term: for others, and for itself by standing. */
  ghost function Votes(r: Run, n: Addr, k: nat, term: int): nat
    requires Serves(r, n) && k <= |r.events|
  {
    if k == 0 then 0
    else
      var s, ev := r.states[k - 1].nodes[n], r.events[k - 1];
      Votes(r, n, k - 1, term)
      + (if NodeOf(ev) == n && Grants(s, InputOf(ev), term) then 1 else 0)
      + (if NodeOf(ev) == n && Stands(s, InputOf(ev), term) then 1 else 0)
  }

  /** How many AEs of the term they made it handle while it was in that term. */
  ghost function AesHeard(r: Run, n: Addr, k: nat, term: int): nat
    requires Serves(r, n) && k <= |r.events|
  {
    if k == 0 then 0
    else
      var s, ev := r.states[k - 1].nodes[n], r.events[k - 1];
      AesHeard(r, n, k - 1, term) + (if NodeOf(ev) == n && SameTermAe(s, InputOf(ev)) && s.term == term then 1 else 0)
  }

  lemma {:induction false} CountsAgree(r: Run, n: Addr, k: nat, term: int)
    requires IsRun(r) && n in r.states[0].config && Serves(r, n) && k <= |r.events|
    ensures var life := Life(r, n, k);
            && IsNodeRun(life) && VotesCast(life, |life.inputs|, term) == Votes(r, n, k, term)
            && SameTermAes(life, |life.inputs|, term) == AesHeard(r, n, k, term)
  {
    hide IsRun, IsNodeRun, Grants, Stands, SameTermAe, IsNodeStep;
    LifeIsNodeRun(r, n, k);
    LifeLengths(r, n, k);
    if k > 0 {
      CountsAgree(r, n, k - 1, term);
      LifeIsNodeRun(r, n, k - 1);
      LifeLengths(r, n, k - 1);
      if NodeOf(r.events[k - 1]) == n {
        var less, life := Life(r, n, k - 1), Life(r, n, k);
        SamePast(less, life, |less.inputs|, term);
      }
    }
  }

  lemma LifeLengths(r: Run, n: Addr, k: nat)
    requires Serves(r, n) && k <= |r.events| && IsNodeRun(Life(r, n, k))
    ensures |Life(r, n, k).states| == |Life(r, n, k).inputs| + 1
  {
  }

  lemma {:induction false} SamePast(a: NodeRun, b: NodeRun, k: nat, term: int)
    requires IsNodeRun(a) && IsNodeRun(b) && k <= |a.inputs| && a.inputs <= b.inputs && a.states <= b.states
    ensures VotesCast(a, k, term) == VotesCast(b, k, term) && SameTermAes(a, k, term) == SameTermAes(b, k, term)
  {
    hide Grants, Stands, SameTermAe, IsNodeStep;
    if k > 0 {
      SamePast(a, b, k - 1, term);
    }
  }

  /** In every run a server votes in a term at most once plus once for every AE of the term it handled in it. */
  lemma VotesBounded(r: Run, n: Addr, k: nat, term: int)
    requires IsRun(r) && n in r.states[0].config && k <= |r.events|
    ensures Serves(r, n) && Votes(r, n, k, term) <= 1 + AesHeard(r, n, k, term)
  {
    hide IsRun, IsNodeRun;
    ServerServes(r, n);
    CountsAgree(r, n, k, term);
    VoteAccounting(Life(r, n, k), |Life(r, n, k).inputs|, term);
  }

  // ----- at most once

  /** Events i and j deliver to server n two requests of one sender and term, m and then late. */
  ghost predicate Delivers(r: Run, n: Addr, i: nat, j: nat, m: Msg, late: Msg) {
    && |r.states| == |r.events| + 1 && |r.states| > 0 && n in r.states[0].config
    && i < j && AtNode(r, i, n) && AtNode(r, j, n)
    && InputOf(r.events[i]) == Receive(m) && InputOf(r.events[j]) == Receive(late)
    && IsRequest(m) && IsRequest(late) && late.from == m.from && late.term == m.term
  }

  /** In every run, requests of one sender and term that pass the check of a server carry increasing lsns. */
  lemma RequestsIncrease(r: Run, n: Addr, i: nat, j: nat, m: Msg, late: Msg)
    requires IsRun(r) && Delivers(r, n, i, j, m, late)
    ensures n in r.states[j].nodes && (Fresh(r.states[j].nodes[n], late) ==> m.lsn < late.lsn)
  {
    hide IsRun, IsNodeRun, Fresh;
    ServerServes(r, n);
    var life, a, b := Life(r, n, j + 1), |Life(r, n, i).inputs|, |Life(r, n, j).inputs|;
    LifeIsNodeRun(r, n, j + 1);
    LifeAt(r, n, i, j);
    LifeAt(r, n, i, j + 1);
    LifeAt(r, n, j, j + 1);
    if Fresh(r.states[j].nodes[n], late) {
      LsnsIncrease(life, a, b, m, late);
    }
  }

  /** And one that does not exceed an earlier lsn moves neither log, commit index nor state machine, and gets no
      vote. */
  lemma LateRequestsIdle(r: Run, n: Addr, i: nat, j: nat, m: Msg, late: Msg)
    requires IsRun(r) && Delivers(r, n, i, j, m, late) && late.lsn <= m.lsn
    ensures n in r.states[j].nodes && n in r.states[j + 1].nodes
    ensures var s, t := r.states[j].nodes[n], r.states[j + 1].nodes[n];
            && (m.AppendEntry? && late.AppendEntry? ==> t.log == s.log && t.commit == s.commit && t.ctl == s.ctl)
            && (late.RequestVote? ==> !Grants(s, Receive(late), late.term))
  {
    hide IsRun, IsNodeRun, Grants;
    ServerServes(r, n);
    var life, a, b := Life(r, n, j + 1), |Life(r, n, i).inputs|, |Life(r, n, j).inputs|;
    LifeIsNodeRun(r, n, j + 1);
    LifeAt(r, n, i, j);
    LifeAt(r, n, i, j + 1);
    LifeAt(r, n, j, j + 1);
    if m.AppendEntry? && late.AppendEntry? {
      AeAtMostOnce(life, a, b, m, late);
    } else if late.RequestVote? {
      RvAtMostOnce(life, a, b, m, late);
    }
  }
}
