/** What the two guards the code lacks would buy. H4 is the election restriction and H5 the commit restriction of
    sections 5.4.1 and 5.4.2 of the Raft paper, each stated on the step that would have to test it. Under H1 to
    H4 an entry of a primary's own term that a majority held is in the log of every later primary. */
module Completeness {
  import opened RaftTypes
  import opened NodeSpec
  import opened NodeFacts
  import opened NodeSteps
  import opened Cluster
  import opened Basics
  import opened Election
  import opened Logs
  import opened Replication
  import opened Retention
  import opened CatchUp

  // ----- the two missing guards

  function LastTerm(log: seq<Entry>): int {
    if log == [] then -1 else log[|log| - 1].term
  }

  /** The comparison of section 5.4.1: later last term, or the same and no shorter. */
  predicate UpToDate(voter: seq<Entry>, candidate: seq<Entry>) {
    LastTerm(voter) < LastTerm(candidate) || (LastTerm(voter) == LastTerm(candidate) && |voter| <= |candidate|)
  }

  /** H4 at one step: a vote goes only to a candidate whose log, as it stood for election, is up to date. */
  ghost predicate UpToDateGrant(c: Cluster, ev: Event, t: Node)
    requires NodeOf(ev) in c.nodes
  {
    forall p :: p in t.outbox && IsGrant(p.msg) ==>
      && (p.to, p.msg.term) in c.hist.stood
      && UpToDate(Mover(c, ev).log, c.hist.stood[(p.to, p.msg.term)])
  }

  /** H5 at one step: a recomputed commit index names an entry of the primary's own term. */
  ghost predicate OwnTermCommit(c: Cluster, ev: Event, t: Node)
    requires NodeOf(ev) in c.nodes
  {
    Acked(Mover(c, ev), InputOf(ev)) && 0 <= t.commit < |t.log| ==> t.log[t.commit].term == t.term
  }

  ghost predicate H4(r: Run)
    requires IsRun(r)
  {
    forall i {:trigger IsStep(r.states[i], r.events[i], r.states[i + 1])} ::
      0 <= i < |r.events| && IsStep(r.states[i], r.events[i], r.states[i + 1]) ==>
        UpToDateGrant(r.states[i], r.events[i], Handle(Mover(r.states[i], r.events[i]), InputOf(r.events[i])))
  }

  ghost predicate H5(r: Run)
    requires IsRun(r)
  {
    forall i {:trigger IsStep(r.states[i], r.events[i], r.states[i + 1])} ::
      0 <= i < |r.events| && IsStep(r.states[i], r.events[i], r.states[i + 1]) ==>
        OwnTermCommit(r.states[i], r.events[i], Handle(Mover(r.states[i], r.events[i]), InputOf(r.events[i])))
  }

  // ----- who holds a prefix of a term's log

  function LogOf(h: History, term: int): seq<Entry> {
    if term in h.plog then h.plog[term] else []
  }

  /** In that term v held the first j entries of its primary's log: it acknowledged them or was the primary. */
  ghost predicate Holder(h: History, v: Addr, term: int, j: int) {
    || (exists a :: a in h.acks && a.node == v && a.term == term && j <= a.len)
    || ((v, term) in h.wins && term in h.plog && j <= |h.plog[term]|)
  }

  /** Every primary after the term and up to `upto` was elected with those j entries. */
  ghost predicate Sustained(h: History, term: int, upto: int, j: int) {
    forall n, w :: (n, w) in h.wins && term < w <= upto ==>
      (n, w) in h.stood && Agree(h.stood[(n, w)], LogOf(h, term), j)
  }

  ghost predicate Obliged(h: History, v: Addr, term: int, upto: int, j: int) {
    term <= upto && Holder(h, v, term, j) && Sustained(h, term, upto, j)
  }

  // ----- the invariant

  ghost predicate StoodOk(c: Cluster, key: (Addr, int))
    requires key in c.hist.stood
  {
    var log := c.hist.stood[key];
    Coherent(log, c.hist.plog) && forall k :: 0 <= k < |log| ==> log[k].term < key.1
  }

  ghost predicate StoodShape(c: Cluster)
    requires NodesOk(c)
  {
    && (forall key :: key in c.hist.stood <==> key in c.hist.cands)
    && (forall n :: n in c.config && c.nodes[n].role == Candidate ==>
          (n, c.nodes[n].term) in c.hist.stood && c.hist.stood[(n, c.nodes[n].term)] == c.nodes[n].log)
    && (forall n, w :: (n, w) in c.hist.wins ==>
          (n, w) in c.hist.stood && c.hist.stood[(n, w)] <= LogOf(c.hist, w))
    && (forall key :: key in c.hist.stood ==> StoodOk(c, key))
  }

  /** A server that held a prefix still has it, as long as every primary since was elected with it. */
  ghost predicate Survives(c: Cluster, v: Addr)
    requires v in c.nodes
  {
    forall term, j :: Obliged(c.hist, v, term, c.nodes[v].term, j) ==> Agree(c.nodes[v].log, LogOf(c.hist, term), j)
  }

  /** And it refuses only what lies behind that prefix. */
  ghost predicate RefusesBehind(c: Cluster, l: Letter) {
    IsRefusal(l) ==>
      forall term, j :: term < l.msg.term && Obliged(c.hist, l.msg.from, term, l.msg.term, j) ==>
        j <= l.re.value.prelogIndex
  }

  /** Primary n of term w steps below its log at election only as far as a refusal of v allows. */
  ghost predicate SteppedTo(c: Cluster, n: Addr, v: Addr, w: int, next: int) {
    || ((n, w) in c.hist.stood && |c.hist.stood[(n, w)]| <= next)
    || (exists x :: x in c.net && RefusalOf(x, v, n, w) && x.re.value.prelogIndex <= next)
  }

  ghost predicate AeStepped(c: Cluster, l: Letter) {
    l.msg.AppendEntry? ==> SteppedTo(c, l.msg.from, l.to, l.msg.term, l.msg.prelogIndex + 1)
  }

  ghost predicate NextStepped(c: Cluster, n: Addr, v: Addr)
    requires n in c.nodes
  {
    c.nodes[n].role == Primary && v != n ==> SteppedTo(c, n, v, c.nodes[n].term, At(c.nodes[n].next, v))
  }

  /** A candidate stood with every prefix it held. */
  ghost predicate StoodWith(c: Cluster, key: (Addr, int))
    requires key in c.hist.stood
  {
    forall term, j :: Obliged(c.hist, key.0, term, key.1 - 1, j) ==> Agree(c.hist.stood[key], LogOf(c.hist, term), j)
  }

  /** The grant may still help elect l.to, or did. */
  ghost predicate Counts(h: History, l: Letter) {
    forall n :: (n, l.msg.term) in h.wins ==> n == l.to && l in h.tally
  }

  /** A vote that counts went to a candidate that stood with every prefix of an entry of its own term that the
      voter held. */
  ghost predicate GrantedTo(c: Cluster, l: Letter) {
    IsGrant(l.msg) && Counts(c.hist, l) ==>
      forall term, j :: Obliged(c.hist, l.msg.from, term, l.msg.term - 1, j) && EndsOwn(c.hist, term, j) ==>
        (l.to, l.msg.term) in c.hist.stood && Agree(c.hist.stood[(l.to, l.msg.term)], LogOf(c.hist, term), j)
  }

  /** The j-th entry of the term's log is one of that term. */
  ghost predicate EndsOwn(h: History, term: int, j: int) {
    1 <= j <= |LogOf(h, term)| && LogOf(h, term)[j - 1].term == term
  }

  ghost predicate Surviving(c: Cluster)
    requires NodesOk(c)
  {
    forall v :: v in c.config ==> Survives(c, v)
  }

  ghost predicate Complete(c: Cluster) {
    && NodesOk(c) && StoodShape(c) && Surviving(c)
    && (forall l :: l in c.net ==> RefusesBehind(c, l) && AeStepped(c, l) && GrantedTo(c, l))
    && (forall n, v :: n in c.config && v in c.config ==> NextStepped(c, n, v))
    && (forall key :: key in c.hist.stood ==> StoodWith(c, key))
  }

  // ----- consequences in one state

  /** The layers below, in one state. */
  ghost predicate Grounded(c: Cluster) {
    LogInv(c) && ReplicaInv(c) && Catching(c)
  }

  lemma GroundedOk(c: Cluster)
    requires Grounded(c)
    ensures NodesOk(c) && BasicInv(c) && VoteInv(c) && AllSingle(c) && PrimariesLogged(c) && LogsCoherent(c)
  {
    hide ReplicaInv, Catching, BasicInv, VoteInv, AllSingle, PrimariesLogged, LogsCoherent, AesKnown, Requests, Replies,
         NodeInv;
    ShapeOf(c);
  }

  lemma ShapeOf(c: Cluster)
    requires BasicInv(c)
    ensures NodesOk(c) && NetOk(c)
  {
    hide NodesOk, NetOk, Requests, Replies;
  }

  lemma WinnerPrimary(c: Cluster, n: Addr, w: int)
    requires Grounded(c) && (n, w) in c.hist.wins
    ensures n in c.config && n in c.nodes && w <= c.nodes[n].term && w in c.hist.plog
    ensures c.nodes[n].term == w ==> c.nodes[n].role == Primary && c.nodes[n].log == c.hist.plog[w]
  {
    hide ReplicaInv, Catching, BasicInv, AllSingle, LogsCoherent, AesKnown, NodeInv, Requests, Replies, VoteInv;
    GroundedOk(c);
    WinnerTerm(c, n, w);
  }

  /** A holder is at or past the term, and while it is there its log has the prefix. */
  lemma HolderFacts(c: Cluster, v: Addr, term: int, j: int)
    requires Grounded(c) && Holder(c.hist, v, term, j)
    ensures v in c.config && v in c.nodes && term in c.hist.plog && j <= |c.hist.plog[term]|
    ensures term <= c.nodes[v].term
    ensures c.nodes[v].term == term ==> Agree(c.nodes[v].log, c.hist.plog[term], j)
  {
    hide LogInv, RefusalsPlaced, RefusalsFirst, AesAfterAcks, Ladders, NextsFit, NodesOk, HandedTrue, OkBacked,
         SavedBacked;
    if (v, term) in c.hist.wins && term in c.hist.plog && j <= |c.hist.plog[term]| {
      WinnerPrimary(c, v, term);
    } else {
      var a :| a in c.hist.acks && a.node == v && a.term == term && j <= a.len;
      assert AckPlaced(c, a) && AckTrue(c.hist.plog, a);
      NodeThere(c, v);
    }
  }

  lemma NodeThere(c: Cluster, v: Addr)
    requires NodesOk(c) && v in c.config
    ensures v in c.nodes && c.nodes[v].self == v && c.nodes[v].config == c.config
  {
    hide NodeInv;
  }

  lemma SustainedLess(h: History, term: int, upto: int, less: int, j: int)
    requires Sustained(h, term, upto, j) && less <= upto
    ensures Sustained(h, term, less, j)
  {
  }

  /** An AE to a holder leaves the held prefix alone. */
  lemma AeSpares(c: Cluster, l: Letter, term: int, j: int)
    requires Grounded(c) && Complete(c) && l in c.net && l.msg.AppendEntry?
    requires term < l.msg.term && Obliged(c.hist, l.to, term, l.msg.term, j)
    ensures j <= l.msg.prelogIndex + 1
  {
    hide ReplicaInv, Catching, LogInv, StoodShape, Surviving, NodesOk, Agree, Holder, GrantedTo;
    SenderWon(c, l);
    assert AeStepped(c, l);
    var n, w := l.msg.from, l.msg.term;
    if (n, w) in c.hist.stood && |c.hist.stood[(n, w)]| <= l.msg.prelogIndex + 1 {
      AgreeLength(c.hist.stood[(n, w)], LogOf(c.hist, term), j);
    } else {
      var x :| x in c.net && RefusalOf(x, l.to, n, w) && x.re.value.prelogIndex <= l.msg.prelogIndex + 1;
      assert RefusesBehind(c, x);
    }
  }

  lemma AgreeLength(a: seq<Entry>, b: seq<Entry>, j: int)
    requires Agree(a, b, j)
    ensures j <= |a| && j <= |b|
  {
  }

  lemma SenderWon(c: Cluster, l: Letter)
    requires Grounded(c) && l in c.net && l.msg.AppendEntry?
    ensures (l.msg.from, l.msg.term) in c.hist.wins && l.msg.term in c.hist.plog
    ensures AeFits(l.msg, c.hist.plog[l.msg.term])
  {
    hide ReplicaInv, Catching, BasicInv, VoteInv, AllSingle, PrimariesLogged, LogsCoherent, AeFits;
    assert AeKnown(c, l);
  }

  /** What an up-to-date candidate has: with the entry's own term last compared, everything the voter holds. */
  lemma UpToDateHolds(c: Cluster, voter: seq<Entry>, key: (Addr, int), term: int, j: int)
    requires Grounded(c) && Complete(c) && key in c.hist.stood && UpToDate(voter, c.hist.stood[key])
    requires EndsOwn(c.hist, term, j) && Agree(voter, LogOf(c.hist, term), j)
    requires forall i, k :: 0 <= i < k < |voter| ==> 0 <= voter[i].term <= voter[k].term
    requires voter != [] ==> 0 <= LastTerm(voter)
    requires Sustained(c.hist, term, key.1 - 1, j)
    ensures Agree(c.hist.stood[key], LogOf(c.hist, term), j)
  {
    hide Grounded, Surviving, RefusesBehind, AeStepped, GrantedTo, NextStepped, StoodWith, NodesOk, BasicInv, VoteInv,
         AllSingle, PrimariesLogged, LogsCoherent;
    var cand, h := c.hist.stood[key], c.hist;
    assert StoodOk(c, key);
    assert voter[j - 1].term == term && term <= LastTerm(voter) <= LastTerm(cand);
    assert cand != [];
    var last := |cand| - 1;
    var u := LastTerm(cand);
    assert CoherentAt(cand, h.plog, last);
    if u > term {
      LoggedWinner(c, u);
      var n :| (n, u) in h.wins;
      assert StoodOk(c, (n, u));
      ThroughWinner(cand, h.plog[u], h.stood[(n, u)], LogOf(h, term), j);
    }
  }

  /** A log that ends in an entry of a term has everything the primary of that term stood with. */
  lemma ThroughWinner(log: seq<Entry>, primary: seq<Entry>, stood: seq<Entry>, own: seq<Entry>, j: int)
    requires log != [] && Agree(log, primary, |log|) && Agree(stood, primary, |stood|) && Agree(stood, own, j)
    requires forall k :: 0 <= k < |stood| ==> stood[k].term < LastTerm(log)
    ensures Agree(log, own, j)
  {
    assert log[|log| - 1] == primary[|log| - 1];
  }

  lemma LoggedWinner(c: Cluster, term: int)
    requires Grounded(c) && term in c.hist.plog
    ensures exists n :: (n, term) in c.hist.wins
  {
    hide ReplicaInv, Catching, BasicInv, VoteInv, AllSingle, LogsCoherent, AesKnown;
    GroundedOk(c);
  }

  // ----- one step

  /** A step of a run under H1 to H4; the layers below are already known of the state after it. */
  ghost predicate Completing(c: Cluster, ev: Event, t: Node) {
    && Retaining(c, ev, t) && Complete(c) && UpToDateGrant(c, ev, t)
    && Grounded(After(c, ev, t))
  }

  ghost predicate HistoryGrows(c: Cluster, c': Cluster) {
    && c'.config == c.config && c.net <= c'.net
    && c.hist.acks <= c'.hist.acks && c.hist.wins <= c'.hist.wins && c.hist.tally <= c'.hist.tally
    && Grows(c.hist.plog, c'.hist.plog)
    && (forall key :: key in c.hist.stood ==> key in c'.hist.stood && c'.hist.stood[key] == c.hist.stood[key])
  }

  lemma CompletingParts(c: Cluster, ev: Event, t: Node)
    requires Completing(c, ev, t)
    ensures Retaining(c, ev, t) && Logging(c, ev, t) && Grounded(c) && Grounded(After(c, ev, t)) && Complete(c)
    ensures NodesOk(c) && NodesOk(After(c, ev, t)) && NodeOf(ev) in c.nodes && NodeOf(ev) in c.config
    ensures Mover(c, ev).self == NodeOf(ev) == t.self && Mover(c, ev).term <= t.term
    ensures NodeInv(Mover(c, ev)) && NodeInv(t) && Mover(c, ev).outbox == []
    ensures HistoryGrows(c, After(c, ev, t))
  {
    hide Complete, Catching, ReplicaInv, LogInv, Logging, BasicInv, NodesOk, NodeInv, Grows, RequestFacts, RoleFacts,
         ReplyFacts, LogFacts, CommitFacts, PrimaryFacts, FreshPrimary, FaultFacts;
    RetainingParts(c, ev, t);
    LoggingFacts(c, ev, t);
    PlogGrows(c, ev, t);
    StoodSame(c, ev, t);
    MoverIdle(c, NodeOf(ev));
  }

  lemma MoverIdle(c: Cluster, n: Addr)
    requires NodesOk(c) && n in c.config
    ensures n in c.nodes && c.nodes[n].outbox == [] && NodeInv(c.nodes[n])
  {
    hide NodeInv;
  }

  lemma StoodSame(c: Cluster, ev: Event, t: Node)
    requires Retaining(c, ev, t) && Complete(c)
    ensures forall key :: key in c.hist.stood ==>
              key in After(c, ev, t).hist.stood && After(c, ev, t).hist.stood[key] == c.hist.stood[key]
  {
    hide Catching, ReplicaInv, Logging, Surviving, NodesOk, RefusesBehind, AeStepped, GrantedTo, NextStepped,
         StoodWith, StoodOk, Accepts, SameTermAe, CountsBallot;
    RetainingParts(c, ev, t);
  }

  /** Who came to hold a prefix in this step is the mover, in its new term. */
  lemma HeldBefore(c: Cluster, ev: Event, t: Node, v: Addr, term: int, j: int)
    requires Completing(c, ev, t) && Holder(After(c, ev, t).hist, v, term, j)
    requires !(v == NodeOf(ev) && term == t.term)
    ensures Holder(c.hist, v, term, j)
  {
    hide Retaining, Grounded, Complete, NodesOk, Accepts, NodeInv;
    CompletingParts(c, ev, t);
    var c' := After(c, ev, t);
    if (v, term) in c'.hist.wins && term in c'.hist.plog && j <= |c'.hist.plog[term]| {
      PlogOfOthers(c, ev, t, v, term);
    } else {
      var a :| a in c'.hist.acks && a.node == v && a.term == term && j <= a.len;
      if a !in c.hist.acks {
        NewAck(c, ev, t, a);
      }
    }
  }

  /** The log of a term moves only with its one primary. */
  lemma PlogOfOthers(c: Cluster, ev: Event, t: Node, v: Addr, term: int)
    requires Completing(c, ev, t) && (v, term) in After(c, ev, t).hist.wins && !(v == NodeOf(ev) && term == t.term)
    requires term in After(c, ev, t).hist.plog
    ensures (v, term) in c.hist.wins && term in c.hist.plog && After(c, ev, t).hist.plog[term] == c.hist.plog[term]
  {
    hide Retaining, Complete, NodesOk, Accepts, NodeInv, Catching, ReplicaInv, BasicInv, PrimariesLogged, LogsCoherent,
         AesKnown, VoteInv, Single;
    CompletingParts(c, ev, t);
    WinnerPrimary(c, v, term);
    if t.role == Primary && t.term == term {
      var c' := After(c, ev, t);
      OneWinner(c', v, NodeOf(ev), term);
    }
  }

  lemma SustainedBefore(c: Cluster, c': Cluster, term: int, upto: int, j: int)
    requires HistoryGrows(c, c') && term in c.hist.plog && j <= |c.hist.plog[term]|
    requires Sustained(c'.hist, term, upto, j)
    requires forall n, w :: (n, w) in c.hist.wins ==> (n, w) in c.hist.stood
    ensures Sustained(c.hist, term, upto, j)
  {
    forall n, w | (n, w) in c.hist.wins && term < w <= upto
      ensures (n, w) in c.hist.stood && Agree(c.hist.stood[(n, w)], LogOf(c.hist, term), j)
    {
      assert Agree(c'.hist.stood[(n, w)], LogOf(c'.hist, term), j);
    }
  }

  lemma WinnersStood(c: Cluster)
    requires Complete(c)
    ensures forall n, w :: (n, w) in c.hist.wins ==> (n, w) in c.hist.stood
  {
    hide Surviving, NodesOk, RefusesBehind, AeStepped, GrantedTo, NextStepped, StoodWith, StoodOk;
  }

  /** An obligation after the step was one before it. */
  lemma ObligedBefore(c: Cluster, ev: Event, t: Node, v: Addr, term: int, upto: int, j: int)
    requires Completing(c, ev, t) && Obliged(After(c, ev, t).hist, v, term, upto, j)
    requires !(v == NodeOf(ev) && term == t.term)
    ensures Obliged(c.hist, v, term, upto, j) && v in c.nodes && term <= c.nodes[v].term
    ensures term in c.hist.plog && j <= |c.hist.plog[term]|
  {
    hide Completing, Grounded, Complete, NodesOk, Holder, Sustained, HistoryGrows, NodeInv;
    CompletingParts(c, ev, t);
    HeldBefore(c, ev, t, v, term, j);
    HolderFacts(c, v, term, j);
    WinnersStood(c);
    SustainedBefore(c, After(c, ev, t), term, upto, j);
  }

  lemma AgreeLater(c: Cluster, c': Cluster, log: seq<Entry>, term: int, j: int)
    requires HistoryGrows(c, c') && term in c.hist.plog && Agree(log, LogOf(c.hist, term), j)
    ensures Agree(log, LogOf(c'.hist, term), j)
  {
  }

  // ----- candidates and what they stood with

  /** How the mover's role, term and log bear on standing for election. */
  lemma StandingFacts(c: Cluster, ev: Event, t: Node)
    requires Completing(c, ev, t)
    ensures var s, h := Mover(c, ev), c.hist;
            && (t.role == Candidate ==> t.log == s.log)
            && (t.role == Candidate && t.term == s.term ==> s.role == Candidate)
            && (t.role == Candidate && t.term != s.term ==> (t.self, t.term) !in h.cands && s.term < t.term)
            && (t.role == Primary && s.role != Primary ==> s.role == Candidate && t.log == s.log && t.term == s.term)
  {
    hide Completing, Grounded, Complete, Logging, Retaining, NodeInv, RequestFacts, ReplyFacts, CommitFacts, PrimaryFacts,
         FreshPrimary, FaultFacts, Sound, Offered, Matches, Fresh;
    CompletingParts(c, ev, t);
    LoggingFacts(c, ev, t);
    CandidatesKnown(c);
  }

  lemma CandidatesKnown(c: Cluster)
    requires Grounded(c)
    ensures forall n, w :: (n, w) in c.hist.cands ==> n in c.config && n in c.nodes && w <= c.nodes[n].term
  {
    hide Grounded;
    RolesOf(c);
  }

  lemma RolesOf(c: Cluster)
    requires Grounded(c)
    ensures NodesOk(c) && RolesRecorded(c)
    ensures forall n :: n in c.config ==> n in c.nodes
  {
    hide ReplicaInv, Catching, BasicInv, AllSingle, LogsCoherent, AesKnown, PrimariesLogged, RolesRecorded,
         VotesRemembered, SingleUnlessLate, Tallied, NodeInv;
    GroundedOk(c);
  }

  lemma NewStood(c: Cluster, ev: Event, t: Node, key: (Addr, int))
    requires Completing(c, ev, t) && key in After(c, ev, t).hist.stood && key !in c.hist.stood
    ensures t.role == Candidate && key == (NodeOf(ev), t.term) && Mover(c, ev).term < t.term
    ensures After(c, ev, t).hist.stood[key] == t.log == Mover(c, ev).log
  {
    hide Completing, Grounded, Retaining, Complete, NodeInv, Accepts, SameTermAe, CountsBallot;
    CompletingParts(c, ev, t);
    StandingFacts(c, ev, t);
    CandidatesKnown(c);
    StoodKeys(c);
  }

  lemma StoodKeys(c: Cluster)
    requires Complete(c)
    ensures forall key :: key in c.hist.stood <==> key in c.hist.cands
    ensures NodesOk(c) && forall n :: n in c.config && c.nodes[n].role == Candidate ==>
              (n, c.nodes[n].term) in c.hist.stood && c.hist.stood[(n, c.nodes[n].term)] == c.nodes[n].log
    ensures forall n, w :: (n, w) in c.hist.wins ==>
              (n, w) in c.hist.stood && c.hist.stood[(n, w)] <= LogOf(c.hist, w)
  {
    hide Surviving, NodesOk, RefusesBehind, AeStepped, GrantedTo, NextStepped, StoodWith, StoodOk;
  }

  lemma StoodOkKept(c: Cluster, ev: Event, t: Node, key: (Addr, int))
    requires Completing(c, ev, t) && key in After(c, ev, t).hist.stood
    ensures StoodOk(After(c, ev, t), key)
  {
    hide Completing, Grounded, Retaining, Complete, Logging, Coherent, PrimaryInv, LsnInv, After, NodesOk;
    CompletingParts(c, ev, t);
    if key in c.hist.stood {
      StoodOkOf(c, key);
      CoherentGrows(c.hist.stood[key], c.hist.plog, After(c, ev, t).hist.plog);
    } else {
      NewStood(c, ev, t, key);
      MoverCoherent(c, ev, t);
    }
  }

  lemma StoodOkOf(c: Cluster, key: (Addr, int))
    requires Complete(c) && key in c.hist.stood
    ensures StoodOk(c, key)
  {
    hide Surviving, NodesOk, RefusesBehind, AeStepped, GrantedTo, NextStepped, StoodWith, StoodOk;
  }

  lemma CandidateStood(c: Cluster, ev: Event, t: Node, n: Addr)
    requires Completing(c, ev, t) && n in c.config && n in After(c, ev, t).nodes
    requires After(c, ev, t).nodes[n].role == Candidate
    ensures var c' := After(c, ev, t); var s := c'.nodes[n];
            (n, s.term) in c'.hist.stood && c'.hist.stood[(n, s.term)] == s.log
  {
    hide Completing, Grounded, Retaining, Complete, NodeInv, Accepts, SameTermAe, CountsBallot, NodesOk, Grows;
    CompletingParts(c, ev, t);
    StandingFacts(c, ev, t);
    CandidatesKnown(c);
    StoodKeys(c);
  }

  lemma WinnerStood(c: Cluster, ev: Event, t: Node, n: Addr, w: int)
    requires Completing(c, ev, t) && (n, w) in After(c, ev, t).hist.wins
    ensures var h := After(c, ev, t).hist; (n, w) in h.stood && h.stood[(n, w)] <= LogOf(h, w)
  {
    hide Completing, Grounded, Retaining, Complete, NodeInv, NodesOk, After;
    CompletingParts(c, ev, t);
    StoodKeys(c);
    if (n, w) in c.hist.wins {
      WinnerPrimary(c, n, w);
    } else {
      NewWinnerStood(c, ev, t, n, w);
    }
  }

  lemma NewWinnerStood(c: Cluster, ev: Event, t: Node, n: Addr, w: int)
    requires Completing(c, ev, t) && (n, w) in After(c, ev, t).hist.wins && (n, w) !in c.hist.wins
    ensures var h := After(c, ev, t).hist; (n, w) in h.stood && h.stood[(n, w)] == LogOf(h, w)
  {
    hide Completing, Grounded, Retaining, Complete, NodeInv, NodesOk, After, Grows;
    CompletingParts(c, ev, t);
    NewWinner(c, ev, t, n, w);
    if Mover(c, ev).role == Primary {
      PrimaryWon(c, NodeOf(ev));
      StandingFacts(c, ev, t);
      PrimaryTerm(c, ev, t);
    } else {
      StandingFacts(c, ev, t);
      CandidateOf(c, NodeOf(ev));
    }
  }

  lemma NewWinner(c: Cluster, ev: Event, t: Node, n: Addr, w: int)
    requires NodeOf(ev) in c.nodes && (n, w) in After(c, ev, t).hist.wins && (n, w) !in c.hist.wins
    ensures n == NodeOf(ev) && w == t.term && t.role == Primary && LogOf(After(c, ev, t).hist, w) == t.log
  {
    hide Accepts, SameTermAe, CountsBallot;
  }

  lemma PrimaryTerm(c: Cluster, ev: Event, t: Node)
    requires Logging(c, ev, t) && t.role == Primary
    ensures t.term == Mover(c, ev).term
  {
    hide Logging, RequestFacts, ReplyFacts, LogFacts, CommitFacts, PrimaryFacts, FreshPrimary, FaultFacts, BasicInv,
         LogInv, Offered, Accepts, SameTermAe, CountsBallot, Answers;
    LoggingFacts(c, ev, t);
  }

  lemma CandidateOf(c: Cluster, n: Addr)
    requires Complete(c) && n in c.config && n in c.nodes && c.nodes[n].role == Candidate
    ensures (n, c.nodes[n].term) in c.hist.stood && c.hist.stood[(n, c.nodes[n].term)] == c.nodes[n].log
  {
    hide Complete;
    StoodKeys(c);
  }

  lemma PrimaryWon(c: Cluster, n: Addr)
    requires Grounded(c) && n in c.config && n in c.nodes && c.nodes[n].role == Primary
    ensures (n, c.nodes[n].term) in c.hist.wins
  {
    hide Grounded;
    RolesOf(c);
  }

  lemma StoodKeysKept(c: Cluster, ev: Event, t: Node)
    requires Completing(c, ev, t)
    ensures forall key :: key in After(c, ev, t).hist.stood <==> key in After(c, ev, t).hist.cands
  {
    hide Completing, Grounded, Retaining, Complete, NodesOk, Accepts, SameTermAe, CountsBallot, NodeInv;
    CompletingParts(c, ev, t);
    StoodKeys(c);
  }

  lemma StoodShapeKept(c: Cluster, ev: Event, t: Node)
    requires Completing(c, ev, t)
    ensures NodesOk(After(c, ev, t)) && StoodShape(After(c, ev, t))
  {
    hide Completing, Grounded, Retaining, Complete, NodesOk, StoodOk, After, HistoryGrows, Logging, NodeInv,
         RolesRecorded;
    CompletingParts(c, ev, t);
    StoodKeysKept(c, ev, t);
    SameConfig(c, ev, t);
    var c' := After(c, ev, t);
    RolesOf(c');
    forall n | n in c'.config && c'.nodes[n].role == Candidate
      ensures (n, c'.nodes[n].term) in c'.hist.stood && c'.hist.stood[(n, c'.nodes[n].term)] == c'.nodes[n].log
    {
      CandidateStood(c, ev, t, n);
    }
    forall n, w | (n, w) in c'.hist.wins
      ensures (n, w) in c'.hist.stood && c'.hist.stood[(n, w)] <= LogOf(c'.hist, w)
    {
      WinnerStood(c, ev, t, n, w);
    }
    forall key | key in c'.hist.stood ensures StoodOk(c', key) {
      StoodOkKept(c, ev, t, key);
    }
  }

  lemma StoodWithKept(c: Cluster, ev: Event, t: Node, key: (Addr, int))
    requires Completing(c, ev, t) && key in After(c, ev, t).hist.stood
    ensures StoodWith(After(c, ev, t), key)
  {
    hide Completing, Grounded, Retaining, Complete, NodesOk, Obliged, After, HistoryGrows, NodeInv;
    CompletingParts(c, ev, t);
    var c' := After(c, ev, t);
    forall term, j | Obliged(c'.hist, key.0, term, key.1 - 1, j)
      ensures Agree(c'.hist.stood[key], LogOf(c'.hist, term), j)
    {
      StoodHolds(c, ev, t, key, term, j);
    }
  }

  lemma StoodHolds(c: Cluster, ev: Event, t: Node, key: (Addr, int), term: int, j: int)
    requires Completing(c, ev, t) && key in After(c, ev, t).hist.stood
    requires Obliged(After(c, ev, t).hist, key.0, term, key.1 - 1, j)
    ensures Agree(After(c, ev, t).hist.stood[key], LogOf(After(c, ev, t).hist, term), j)
  {
    hide Completing, Grounded, Retaining, Complete, NodesOk, After, NodeInv, Agree, Holder, Sustained,
         HistoryGrows, Logging;
    CompletingParts(c, ev, t);
    var c' := After(c, ev, t);
    if key in c.hist.stood {
      StoodInTerm(c, ev, t, key);
      ObligedBefore(c, ev, t, key.0, term, key.1 - 1, j);
      StoodWithOf(c, key);
      AgreeLaterAt(c, c', key, term, j);
    } else {
      NewStood(c, ev, t, key);
      ObligedBefore(c, ev, t, key.0, term, key.1 - 1, j);
      MoverHolds(c, ev, t, term, key.1 - 1, j);
      AgreeLater(c, c', t.log, term, j);
    }
  }

  lemma StoodInTerm(c: Cluster, ev: Event, t: Node, key: (Addr, int))
    requires Completing(c, ev, t) && key in c.hist.stood
    ensures key.0 == NodeOf(ev) ==> key.1 <= t.term
  {
    hide Completing, Grounded, Retaining, Complete, NodesOk, After, NodeInv;
    CompletingParts(c, ev, t);
    StandingFacts(c, ev, t);
    CandidatesKnown(c);
    StoodKeys(c);
  }

  lemma StoodWithOf(c: Cluster, key: (Addr, int))
    requires Complete(c) && key in c.hist.stood
    ensures StoodWith(c, key)
  {
    hide Surviving, NodesOk, RefusesBehind, AeStepped, GrantedTo, NextStepped, StoodWith, StoodShape;
  }

  /** The mover still had, before the step, whatever it is obliged to. */
  lemma MoverHolds(c: Cluster, ev: Event, t: Node, term: int, upto: int, j: int)
    requires Completing(c, ev, t) && Obliged(c.hist, NodeOf(ev), term, upto, j) && Mover(c, ev).term <= upto
    ensures Agree(Mover(c, ev).log, LogOf(c.hist, term), j)
  {
    hide Completing, Grounded, Retaining, StoodShape, RefusesBehind, AeStepped, GrantedTo, NextStepped,
         StoodWith, NodesOk, After, NodeInv, Agree, Holder, Sustained, HistoryGrows;
    CompletingParts(c, ev, t);
    HolderFacts(c, NodeOf(ev), term, j);
    SustainedLess(c.hist, term, upto, Mover(c, ev).term, j);
    assert Survives(c, NodeOf(ev));
    assert Obliged(c.hist, NodeOf(ev), term, Mover(c, ev).term, j);
  }

  // ----- holders keep what they hold

  lemma NodeAfter(c: Cluster, ev: Event, t: Node)
    requires NodeOf(ev) in c.nodes
    ensures NodeOf(ev) in After(c, ev, t).nodes && After(c, ev, t).nodes[NodeOf(ev)] == t.(outbox := [])
  {
  }

  lemma SurvivesKept(c: Cluster, ev: Event, t: Node, v: Addr)
    requires Completing(c, ev, t) && v in c.config && v in After(c, ev, t).nodes
    ensures Survives(After(c, ev, t), v)
  {
    hide Completing, Grounded, Retaining, Complete, NodesOk, Obliged, After, HistoryGrows, NodeInv;
    CompletingParts(c, ev, t);
    NodeAfter(c, ev, t);
    var c' := After(c, ev, t);
    forall term, j | Obliged(c'.hist, v, term, c'.nodes[v].term, j)
      ensures Agree(c'.nodes[v].log, LogOf(c'.hist, term), j)
    {
      if v == NodeOf(ev) {
        MoverSurvives(c, ev, t, term, j);
      } else {
        OtherSurvives(c, ev, t, v, term, j);
      }
    }
  }

  lemma OtherSurvives(c: Cluster, ev: Event, t: Node, v: Addr, term: int, j: int)
    requires Completing(c, ev, t) && v in c.config && v != NodeOf(ev) && v in After(c, ev, t).nodes
    requires Obliged(After(c, ev, t).hist, v, term, After(c, ev, t).nodes[v].term, j)
    ensures Agree(After(c, ev, t).nodes[v].log, LogOf(After(c, ev, t).hist, term), j)
  {
    hide Completing, Grounded, Retaining, StoodShape, RefusesBehind, AeStepped, GrantedTo, NextStepped,
         StoodWith, NodesOk, NodeInv, Agree, Obliged, HistoryGrows;
    CompletingParts(c, ev, t);
    ObligedBefore(c, ev, t, v, term, After(c, ev, t).nodes[v].term, j);
    assert Survives(c, v);
    AgreeLater(c, After(c, ev, t), c.nodes[v].log, term, j);
  }

  lemma MoverSurvives(c: Cluster, ev: Event, t: Node, term: int, j: int)
    requires Completing(c, ev, t) && Obliged(After(c, ev, t).hist, NodeOf(ev), term, t.term, j)
    ensures Agree(t.log, LogOf(After(c, ev, t).hist, term), j)
  {
    hide Completing, Grounded, Retaining, Complete, NodesOk, NodeInv, Agree, Holder, Sustained, HistoryGrows, Accepts;
    CompletingParts(c, ev, t);
    var c', v, s := After(c, ev, t), NodeOf(ev), Mover(c, ev);
    if term == t.term {
      HolderFacts(c', v, term, j);
    } else {
      ObligedBefore(c, ev, t, v, term, t.term, j);
      MoverHolds(c, ev, t, term, t.term, j);
      PrefixStays(c, ev, t, term, j);
      AgreeLater(c, c', t.log, term, j);
    }
  }

  /** The step leaves a held prefix of an earlier term in place. */
  lemma PrefixStays(c: Cluster, ev: Event, t: Node, term: int, j: int)
    requires Completing(c, ev, t) && Obliged(c.hist, NodeOf(ev), term, t.term, j) && term < t.term
    requires Agree(Mover(c, ev).log, LogOf(c.hist, term), j)
    ensures Agree(t.log, LogOf(c.hist, term), j)
  {
    hide Completing, Grounded, Retaining, Complete, NodesOk, NodeInv, Holder, Sustained, HistoryGrows, Logging, Sound,
         RequestFacts, RoleFacts, ReplyFacts, CommitFacts, PrimaryFacts, FreshPrimary, FaultFacts, BasicInv, LogInv,
         Offered, Fresh, Matches, Obliged;
    CompletingParts(c, ev, t);
    LoggingFacts(c, ev, t);
    var s, inp := Mover(c, ev), InputOf(ev);
    if Accepts(s, inp) {
      AcceptedShape(c, ev, t);
      AeSpares(c, ev.letter, term, j);
    }
  }

  // ----- refusals and how far back a primary goes

  lemma RefusesBehindKept(c: Cluster, ev: Event, t: Node, l: Letter)
    requires Completing(c, ev, t) && l in After(c, ev, t).net
    ensures RefusesBehind(After(c, ev, t), l)
  {
    hide Completing, Grounded, Retaining, Complete, NodesOk, Obliged, After, HistoryGrows, NodeInv;
    CompletingParts(c, ev, t);
    var c' := After(c, ev, t);
    if IsRefusal(l) {
      forall term, j | term < l.msg.term && Obliged(c'.hist, l.msg.from, term, l.msg.term, j)
        ensures j <= l.re.value.prelogIndex
      {
        RefusalHolds(c, ev, t, l, term, j);
      }
    }
  }

  lemma RefusalHolds(c: Cluster, ev: Event, t: Node, l: Letter, term: int, j: int)
    requires Completing(c, ev, t) && l in After(c, ev, t).net && IsRefusal(l)
    requires term < l.msg.term && Obliged(After(c, ev, t).hist, l.msg.from, term, l.msg.term, j)
    ensures j <= l.re.value.prelogIndex
  {
    hide Completing, Grounded, Retaining, Complete, NodesOk, NodeInv, Obliged, HistoryGrows, After, RefusesBehind;
    CompletingParts(c, ev, t);
    LetterTerm(After(c, ev, t), l);
    NodeAfter(c, ev, t);
    ObligedBefore(c, ev, t, l.msg.from, term, l.msg.term, j);
    if l in c.net {
      RefusesBehindOf(c, l, term, j);
    } else {
      NewRefusalHolds(c, ev, t, l, term, j);
    }
  }

  lemma RefusesBehindOf(c: Cluster, l: Letter, term: int, j: int)
    requires Complete(c) && l in c.net && IsRefusal(l)
    requires term < l.msg.term && Obliged(c.hist, l.msg.from, term, l.msg.term, j)
    ensures j <= l.re.value.prelogIndex
  {
    hide StoodShape, Surviving, AeStepped, GrantedTo, NextStepped, StoodWith, NodesOk, Obliged;
    assert RefusesBehind(c, l);
  }

  lemma NewRefusalHolds(c: Cluster, ev: Event, t: Node, l: Letter, term: int, j: int)
    requires Completing(c, ev, t) && l in After(c, ev, t).net && l !in c.net && IsRefusal(l)
    requires term < l.msg.term && Obliged(c.hist, l.msg.from, term, l.msg.term, j)
    ensures j <= l.re.value.prelogIndex
  {
    hide Completing, Grounded, Retaining, Complete, NodesOk, NodeInv, Agree, Obliged, HistoryGrows, Matches, After,
         Fresh;
    CompletingParts(c, ev, t);
    NewRefusal(c, ev, t, l);
    HeededDelivered(c, ev, t);
    MoverHolds(c, ev, t, term, t.term, j);
    if ev.letter.msg.prelogIndex < j {
      HeldMatches(c, ev, t, term, j);
    }
  }

  lemma HeededDelivered(c: Cluster, ev: Event, t: Node)
    requires Logging(c, ev, t) && Heeds(Mover(c, ev), InputOf(ev))
    ensures ev.Deliver? && ev.letter in c.net && ev.letter.msg.AppendEntry? && t.term == ev.letter.msg.term
  {
    hide LogInv, BasicInv, VoteInv, AllSingle, Sound, RequestFacts, RoleFacts, VoteFacts, ReplyFacts, CommitFacts,
         PrimaryFacts, FreshPrimary, FaultFacts, Fresh, Matches;
  }

  lemma LetterTerm(c: Cluster, l: Letter)
    requires Grounded(c) && l in c.net
    ensures l.msg.from in c.config && l.msg.from in c.nodes && l.msg.term <= c.nodes[l.msg.from].term
    ensures l.to in c.config
  {
    hide ReplicaInv, Catching, VoteInv, AllSingle, PrimariesLogged, LogsCoherent, AesKnown, Requests, Replies, NodesOk,
         MsgShape;
    assert LetterOk(c, l);
  }

  /** An AE whose entry before the first lies inside the prefix the mover holds matches its log. */
  lemma HeldMatches(c: Cluster, ev: Event, t: Node, term: int, j: int)
    requires Completing(c, ev, t) && ev.Deliver? && ev.letter in c.net && ev.letter.msg.AppendEntry?
    requires t.term == ev.letter.msg.term && term < t.term && Obliged(c.hist, NodeOf(ev), term, t.term, j)
    requires Agree(Mover(c, ev).log, LogOf(c.hist, term), j) && 0 <= ev.letter.msg.prelogIndex < j
    ensures Matches(Mover(c, ev).log, ev.letter.msg)
  {
    hide Completing, Grounded, Retaining, Complete, NodesOk, NodeInv, Holder, HistoryGrows, After;
    CompletingParts(c, ev, t);
    SenderWon(c, ev.letter);
    StoodKeys(c);
    var key, p := (ev.letter.msg.from, t.term), ev.letter.msg.prelogIndex;
    assert c.hist.stood[key][p] == LogOf(c.hist, term)[p];
  }

  lemma SteppedLater(c: Cluster, c': Cluster, n: Addr, v: Addr, w: int, next: int, next': int)
    requires HistoryGrows(c, c') && SteppedTo(c, n, v, w, next) && next <= next'
    ensures SteppedTo(c', n, v, w, next')
  {
  }

  /** The mover, as primary after the step, has stepped back no further than a refusal allows. */
  lemma MoverStepped(c: Cluster, ev: Event, t: Node, v: Addr)
    requires Completing(c, ev, t) && t.role == Primary && v in c.config && v != NodeOf(ev)
    ensures SteppedTo(After(c, ev, t), NodeOf(ev), v, t.term, At(t.next, v))
  {
    hide Completing, Grounded, Retaining, Complete, NodeInv, NodesOk, After, HistoryGrows, SteppedTo;
    CompletingParts(c, ev, t);
    if Mover(c, ev).role == Primary {
      PrimaryStepped(c, ev, t, v);
    } else {
      FreshStepped(c, ev, t, v);
      SteppedLater(c, After(c, ev, t), NodeOf(ev), v, t.term, At(t.next, v), At(t.next, v));
    }
  }

  lemma FreshStepped(c: Cluster, ev: Event, t: Node, v: Addr)
    requires Completing(c, ev, t) && t.role == Primary && Mover(c, ev).role != Primary
    requires v in c.config && v != NodeOf(ev)
    ensures SteppedTo(c, NodeOf(ev), v, t.term, At(t.next, v))
  {
    hide Completing, Grounded, Retaining, Complete, NodeInv, NodesOk, HistoryGrows, Logging, RequestFacts, RoleFacts,
         ReplyFacts, LogFacts, CommitFacts, PrimaryFacts, FaultFacts, BasicInv, LogInv, Enabled, Sound;
    CompletingParts(c, ev, t);
    LoggingFacts(c, ev, t);
    StandingFacts(c, ev, t);
    CandidateOf(c, NodeOf(ev));
  }

  lemma PrimaryStepped(c: Cluster, ev: Event, t: Node, v: Addr)
    requires Completing(c, ev, t) && t.role == Primary && Mover(c, ev).role == Primary
    requires v in c.config && v != NodeOf(ev)
    ensures SteppedTo(After(c, ev, t), NodeOf(ev), v, t.term, At(t.next, v))
  {
    hide Completing, Grounded, Retaining, Complete, NodeInv, NodesOk, HistoryGrows, Logging, RequestFacts, RoleFacts,
         ReplyFacts, LogFacts, CommitFacts, FreshPrimary, FaultFacts, BasicInv, LogInv, Enabled, Sound, SteppedTo,
         After;
    CompletingParts(c, ev, t);
    LoggingFacts(c, ev, t);
    PrimaryTerm(c, ev, t);
    var s, inp := Mover(c, ev), InputOf(ev);
    NextSteppedOf(c, NodeOf(ev), v);
    if Refused(s, inp) && t.fault.None? && inp.msg.from == v {
      RefusedStepped(c, ev, t);
    } else {
      SteppedLater(c, After(c, ev, t), NodeOf(ev), v, t.term, At(s.next, v), At(t.next, v));
    }
  }

  lemma NextSteppedOf(c: Cluster, n: Addr, v: Addr)
    requires Complete(c) && n in c.config && v in c.config && n in c.nodes
    ensures NextStepped(c, n, v)
  {
    hide StoodShape, Surviving, RefusesBehind, AeStepped, GrantedTo, StoodWith, NodesOk, NextStepped;
  }

  /** The refusal that a primary acts on is the one that lets it step back. */
  lemma RefusedStepped(c: Cluster, ev: Event, t: Node)
    requires Completing(c, ev, t) && Refused(Mover(c, ev), InputOf(ev)) && t.fault.None? && t.role == Primary
    ensures var v := InputOf(ev).msg.from; SteppedTo(After(c, ev, t), NodeOf(ev), v, t.term, At(t.next, v))
  {
    hide Completing, Grounded, Retaining, Complete, NodeInv, NodesOk, Logging, RequestFacts, RoleFacts,
         ReplyFacts, LogFacts, CommitFacts, FreshPrimary, FaultFacts, LogInv, Enabled, Sound, After,
         Requests, Replies, Shape;
    CompletingParts(c, ev, t);
    LoggingFacts(c, ev, t);
    PrimaryTerm(c, ev, t);
    RefusedHere(c, ev, t);
    Correlates(c, ev);
    var x := ev.letter;
    assert x in After(c, ev, t).net && RefusalOf(x, x.msg.from, NodeOf(ev), t.term);
  }

  lemma NextSteppedKept(c: Cluster, ev: Event, t: Node, n: Addr, v: Addr)
    requires Completing(c, ev, t) && n in c.config && v in c.config && n in After(c, ev, t).nodes
    ensures NextStepped(After(c, ev, t), n, v)
  {
    hide Completing, Grounded, Retaining, Complete, NodeInv, NodesOk, HistoryGrows, SteppedTo, Accepts, SameTermAe,
         CountsBallot;
    CompletingParts(c, ev, t);
    var c' := After(c, ev, t);
    if c'.nodes[n].role == Primary && v != n {
      if n == NodeOf(ev) {
        MoverStepped(c, ev, t, v);
      } else {
        NextSteppedOf(c, n, v);
        SteppedLater(c, c', n, v, c.nodes[n].term, At(c.nodes[n].next, v), At(c.nodes[n].next, v));
      }
    }
  }

  lemma AeSteppedKept(c: Cluster, ev: Event, t: Node, l: Letter)
    requires Completing(c, ev, t) && l in After(c, ev, t).net
    ensures AeStepped(After(c, ev, t), l)
  {
    hide Completing, Grounded, Retaining, Complete, NodeInv, NodesOk, HistoryGrows, SteppedTo, After, Logging,
         GrantedTo;
    CompletingParts(c, ev, t);
    if l.msg.AppendEntry? {
      if l in c.net {
        AeSteppedOf(c, l);
        SteppedLater(c, After(c, ev, t), l.msg.from, l.to, l.msg.term, l.msg.prelogIndex + 1, l.msg.prelogIndex + 1);
      } else {
        NewAeStepped(c, ev, t, l);
      }
    }
  }

  lemma NewAeStepped(c: Cluster, ev: Event, t: Node, l: Letter)
    requires Completing(c, ev, t) && l in After(c, ev, t).net && l !in c.net && l.msg.AppendEntry?
    ensures SteppedTo(After(c, ev, t), l.msg.from, l.to, l.msg.term, l.msg.prelogIndex + 1)
  {
    hide Completing, Grounded, Retaining, Complete, NodeInv, NodesOk, HistoryGrows, SteppedTo, After, Logging;
    CompletingParts(c, ev, t);
    NewAe(c, ev, t, l);
    MoverStepped(c, ev, t, l.to);
  }

  lemma AeSteppedOf(c: Cluster, l: Letter)
    requires Complete(c) && l in c.net
    ensures AeStepped(c, l) && GrantedTo(c, l)
  {
    hide StoodShape, Surviving, RefusesBehind, NextStepped, StoodWith, NodesOk, AeStepped, GrantedTo;
  }

  // ----- grants

  lemma GrantedToKept(c: Cluster, ev: Event, t: Node, l: Letter)
    requires Completing(c, ev, t) && l in After(c, ev, t).net
    ensures GrantedTo(After(c, ev, t), l)
  {
    hide Completing, Grounded, Retaining, Complete, NodesOk, Obliged, After, HistoryGrows, NodeInv, Counts, EndsOwn;
    CompletingParts(c, ev, t);
    var h' := After(c, ev, t).hist;
    if IsGrant(l.msg) && Counts(h', l) {
      forall term, j | Obliged(h', l.msg.from, term, l.msg.term - 1, j) && EndsOwn(h', term, j)
        ensures (l.to, l.msg.term) in h'.stood && Agree(h'.stood[(l.to, l.msg.term)], LogOf(h', term), j)
      {
        GrantHolds(c, ev, t, l, term, j);
      }
    }
  }

  lemma GrantHolds(c: Cluster, ev: Event, t: Node, l: Letter, term: int, j: int)
    requires Completing(c, ev, t) && l in After(c, ev, t).net && IsGrant(l.msg) && Counts(After(c, ev, t).hist, l)
    requires Obliged(After(c, ev, t).hist, l.msg.from, term, l.msg.term - 1, j) && EndsOwn(After(c, ev, t).hist, term, j)
    ensures var h' := After(c, ev, t).hist;
            (l.to, l.msg.term) in h'.stood && Agree(h'.stood[(l.to, l.msg.term)], LogOf(h', term), j)
  {
    hide Completing, Grounded, Retaining, Complete, NodesOk, Holder, Sustained, After, NodeInv, Counts, EndsOwn, Agree,
         GrantedTo, AeStepped, HistoryGrows;
    CompletingParts(c, ev, t);
    LetterTerm(After(c, ev, t), l);
    NodeAfter(c, ev, t);
    ObligedBefore(c, ev, t, l.msg.from, term, l.msg.term - 1, j);
    EndsOwnBefore(c, After(c, ev, t), term, j);
    if l in c.net {
      OldGrantHolds(c, ev, t, l, term, j);
    } else {
      NewGrantHolds(c, ev, t, l, term, j);
    }
    AgreeLaterAt(c, After(c, ev, t), (l.to, l.msg.term), term, j);
  }

  lemma EndsOwnBefore(c: Cluster, c': Cluster, term: int, j: int)
    requires HistoryGrows(c, c') && EndsOwn(c'.hist, term, j) && term in c.hist.plog && j <= |c.hist.plog[term]|
    ensures EndsOwn(c.hist, term, j)
  {
  }

  lemma AgreeLaterAt(c: Cluster, c': Cluster, key: (Addr, int), term: int, j: int)
    requires HistoryGrows(c, c') && term in c.hist.plog && key in c.hist.stood
    requires Agree(c.hist.stood[key], LogOf(c.hist, term), j)
    ensures key in c'.hist.stood && Agree(c'.hist.stood[key], LogOf(c'.hist, term), j)
  {
  }

  lemma OldGrantHolds(c: Cluster, ev: Event, t: Node, l: Letter, term: int, j: int)
    requires Completing(c, ev, t) && l in c.net && IsGrant(l.msg) && Counts(After(c, ev, t).hist, l)
    requires Obliged(c.hist, l.msg.from, term, l.msg.term - 1, j) && EndsOwn(c.hist, term, j)
    ensures (l.to, l.msg.term) in c.hist.stood && Agree(c.hist.stood[(l.to, l.msg.term)], LogOf(c.hist, term), j)
  {
    hide Completing, Grounded, Retaining, Complete, NodesOk, Obliged, After, NodeInv, Counts, EndsOwn, Agree, AeStepped,
         HistoryGrows, Logging, RefusesBehind;
    CompletingParts(c, ev, t);
    CountedBefore(c, ev, t, l);
    AeSteppedOf(c, l);
  }

  /** A grant to a term's primary was counted before it won. */
  lemma CountedBefore(c: Cluster, ev: Event, t: Node, l: Letter)
    requires Completing(c, ev, t) && Counts(After(c, ev, t).hist, l)
    ensures Counts(c.hist, l)
  {
    hide Completing, Grounded, Retaining, Complete, NodesOk, NodeInv, Logging, After, Grows;
    CompletingParts(c, ev, t);
    forall n | (n, l.msg.term) in c.hist.wins ensures n == l.to && l in c.hist.tally {
      assert n == l.to && l in After(c, ev, t).hist.tally;
      if l !in c.hist.tally {
        NewlyCounted(c, ev, t, l);
        WinnerPrimary(c, n, l.msg.term);
      }
    }
  }

  lemma NewlyCounted(c: Cluster, ev: Event, t: Node, l: Letter)
    requires NodeOf(ev) in c.nodes && l in After(c, ev, t).hist.tally && l !in c.hist.tally
    ensures l.to == NodeOf(ev) && Mover(c, ev).role == Candidate && Mover(c, ev).term == l.msg.term
  {
    hide Accepts, SameTermAe;
  }

  lemma NewGrantHolds(c: Cluster, ev: Event, t: Node, l: Letter, term: int, j: int)
    requires Completing(c, ev, t) && l in After(c, ev, t).net && l !in c.net && IsGrant(l.msg)
    requires Counts(After(c, ev, t).hist, l)
    requires Obliged(c.hist, l.msg.from, term, l.msg.term - 1, j) && EndsOwn(c.hist, term, j)
    ensures (l.to, l.msg.term) in c.hist.stood && Agree(c.hist.stood[(l.to, l.msg.term)], LogOf(c.hist, term), j)
  {
    hide Completing, Grounded, Retaining, Complete, NodesOk, Obliged, After, EndsOwn, Agree, HistoryGrows,
         UpToDate, Counts, PrimaryInv, LsnInv;
    CompletingParts(c, ev, t);
    Granted(c, ev, t, l);
    NoPrimaryYet(c, ev, t, l);
    ObligedThrough(c, l.msg.from, term, l.msg.term, j);
    MoverHolds(c, ev, t, term, l.msg.term, j);
    var voter := Mover(c, ev).log;
    ObligedParts(c.hist, l.msg.from, term, l.msg.term - 1, j);
    UpToDateHolds(c, voter, (l.to, l.msg.term), term, j);
  }

  lemma ObligedParts(h: History, v: Addr, term: int, upto: int, j: int)
    requires Obliged(h, v, term, upto, j)
    ensures Sustained(h, term, upto, j)
  {
  }

  /** Nobody has won the term, so what binds below it binds through it. */
  lemma ObligedThrough(c: Cluster, v: Addr, term: int, upto: int, j: int)
    requires Obliged(c.hist, v, term, upto - 1, j) && forall n :: (n, upto) !in c.hist.wins
    ensures Obliged(c.hist, v, term, upto, j)
  {
    hide Agree, Holder;
  }

  lemma NoPrimaryYet(c: Cluster, ev: Event, t: Node, l: Letter)
    requires Completing(c, ev, t) && l in After(c, ev, t).net && l !in c.net && IsGrant(l.msg)
    requires Counts(After(c, ev, t).hist, l)
    ensures forall n :: (n, l.msg.term) !in c.hist.wins
  {
    hide Completing, Grounded, Retaining, Complete, NodesOk, After, HistoryGrows, NodeInv;
    CompletingParts(c, ev, t);
    CountedBefore(c, ev, t, l);
    TallySent(c);
  }

  lemma TallySent(c: Cluster)
    requires Grounded(c)
    ensures c.hist.tally <= c.net
  {
    hide ReplicaInv, Catching, AllSingle, PrimariesLogged, LogsCoherent, AesKnown, Requests, Replies, NodesOk,
         RolesRecorded, VotesRemembered, SingleUnlessLate;
    GroundedOk(c);
  }

  /** A new grant comes from the mover, at least as up to date a candidate receiving it. */
  lemma Granted(c: Cluster, ev: Event, t: Node, l: Letter)
    requires Completing(c, ev, t) && l in After(c, ev, t).net && l !in c.net && IsGrant(l.msg)
    ensures l.msg.from == NodeOf(ev) && l.msg.term == t.term && (l.to, t.term) in c.hist.stood
    ensures UpToDate(Mover(c, ev).log, c.hist.stood[(l.to, t.term)])
  {
    hide Grounded, Retaining, Complete, NodesOk, NodeInv, UpToDate, Accepts;
    CompletingParts(c, ev, t);
    NewLetter(c, ev, t, l);
    LoggingMoves(c, ev, t);
    NewGrant(c, ev, t, l);
  }

  lemma LoggingMoves(c: Cluster, ev: Event, t: Node)
    requires Logging(c, ev, t)
    ensures Moves(c, ev, t)
  {
    hide VoteInv, AllSingle, PrimariesLogged, LogsCoherent, AesKnown, NodesOk, NetOk, Requests, Replies, Sound,
         RequestFacts, RoleFacts, VoteFacts, ReplyFacts, LogFacts, CommitFacts, PrimaryFacts, FreshPrimary, FaultFacts;
  }

  // ----- the invariant is kept

  lemma CompleteKept(c: Cluster, ev: Event, t: Node)
    requires Completing(c, ev, t)
    ensures Complete(After(c, ev, t))
  {
    hide Completing, Grounded, Retaining, StoodShape, Survives, RefusesBehind, AeStepped, GrantedTo, NextStepped,
         StoodWith, NodesOk, After, HistoryGrows, Logging, NodeInv, RolesRecorded;
    CompletingParts(c, ev, t);
    var c' := After(c, ev, t);
    StoodShapeKept(c, ev, t);
    RolesOf(c');
    SameConfig(c, ev, t);
    forall v | v in c'.config ensures Survives(c', v) {
      SurvivesKept(c, ev, t, v);
    }
    forall l | l in c'.net ensures RefusesBehind(c', l) && AeStepped(c', l) && GrantedTo(c', l) {
      LetterKept(c, ev, t, l);
    }
    forall n, v | n in c'.config && v in c'.config ensures NextStepped(c', n, v) {
      NextSteppedKept(c, ev, t, n, v);
    }
    forall key | key in c'.hist.stood ensures StoodWith(c', key) {
      StoodWithKept(c, ev, t, key);
    }
  }

  lemma LetterKept(c: Cluster, ev: Event, t: Node, l: Letter)
    requires Completing(c, ev, t) && l in After(c, ev, t).net
    ensures RefusesBehind(After(c, ev, t), l) && AeStepped(After(c, ev, t), l) && GrantedTo(After(c, ev, t), l)
  {
    hide Completing, RefusesBehind, AeStepped, GrantedTo, After;
    RefusesBehindKept(c, ev, t, l);
    AeSteppedKept(c, ev, t, l);
    GrantedToKept(c, ev, t, l);
  }

  lemma SameConfig(c: Cluster, ev: Event, t: Node)
    requires NodeOf(ev) in c.nodes
    ensures After(c, ev, t).config == c.config
  {
  }

  lemma InitComplete(c: Cluster)
    requires Init(c)
    ensures Complete(c)
  {
    hide Sustained, Agree, NodeInv, NetOk, LogOf;
    BasicInit(c);
  }

  lemma {:induction false} CompleteHolds(r: Run, i: nat)
    requires IsRun(r) && H1(r) && H2(r) && H3(r) && H4(r) && i < |r.states|
    ensures Complete(r.states[i]) && Grounded(r.states[i])
  {
    hide H1, H2, H3, H4, IsRun, Init, Complete, LogInv, ReplicaInv, Catching, Books, KeepingAt, Completing, Handle;
    FirstState(r);
    KeepingHolds(r, i);
    if i == 0 {
      InitComplete(r.states[0]);
    } else {
      CompleteHolds(r, i - 1);
      CompleteStep(r, i - 1);
    }
  }

  lemma CompleteStep(r: Run, i: nat)
    requires IsRun(r) && H1(r) && H2(r) && H3(r) && H4(r) && i < |r.events| && |r.states| == |r.events| + 1
    requires Complete(r.states[i]) && Grounded(r.states[i])
    ensures Complete(r.states[i + 1])
    ensures NodeOf(r.events[i]) in r.states[i].nodes
    ensures Completing(r.states[i], r.events[i], Handle(Mover(r.states[i], r.events[i]), InputOf(r.events[i])))
  {
    hide H1, H2, H3, IsRun, Complete, LogInv, ReplicaInv, Catching, Books, UpToDateGrant, Retaining, Handle, After, Offered;
    StepAt(r, i);
    KeepingHolds(r, i);
    KeepingHolds(r, i + 1);
    var c, ev := r.states[i], r.events[i];
    CompleteKept(c, ev, Handle(Mover(c, ev), InputOf(ev)));
  }

  lemma CompletingHolds(r: Run, i: nat)
    requires IsRun(r) && H1(r) && H2(r) && H3(r) && H4(r) && i < |r.events|
    ensures i < |r.states| && NodeOf(r.events[i]) in r.states[i].nodes
    ensures Completing(r.states[i], r.events[i], Handle(Mover(r.states[i], r.events[i]), InputOf(r.events[i])))
  {
    hide H1, H2, H3, H4, IsRun, Complete, Grounded, Completing, Handle;
    FirstState(r);
    CompleteHolds(r, i);
    CompleteStep(r, i);
  }

  // ----- every later primary

  /** A majority of servers held the first j entries of the term's log, the last of which is the term's own. */
  ghost predicate Chosen(c: Cluster, term: int, j: int) {
    && EndsOwn(c.hist, term, j)
    && exists q: set<Addr> :: q <= ServerSet(c.config) && |q| >= Majority(c.config) && Upheld(c.hist, q, term, j)
  }

  ghost predicate Upheld(h: History, q: set<Addr>, term: int, j: int) {
    forall v :: v in q ==> Holder(h, v, term, j)
  }

  /** By strong induction on terms: whoever was elected later stood with those entries. */
  lemma {:induction false} ElectedWith(c: Cluster, term: int, j: int, n: Addr, w: int)
    requires Grounded(c) && Complete(c) && Chosen(c, term, j) && term < w && (n, w) in c.hist.wins
    ensures (n, w) in c.hist.stood && Agree(c.hist.stood[(n, w)], LogOf(c.hist, term), j)
    decreases w - term
  {
    hide Grounded, Complete, Agree, Holder, Voters, EndsOwn;
    WinnersStood(c);
    forall n', w' | (n', w') in c.hist.wins && term < w' <= w - 1
      ensures (n', w') in c.hist.stood && Agree(c.hist.stood[(n', w')], LogOf(c.hist, term), j)
    {
      ElectedWith(c, term, j, n', w');
    }
    assert Sustained(c.hist, term, w - 1, j);
    var q: set<Addr> :| q <= ServerSet(c.config) && |q| >= Majority(c.config) && Upheld(c.hist, q, term, j);
    var v := SharedHolder(c, q, n, w);
    if v == n {
      StoodWithOf(c, (n, w));
      assert Obliged(c.hist, n, term, w - 1, j);
    } else {
      var l := BallotOf(c, n, v, w);
      AeSteppedOf(c, l);
      assert Obliged(c.hist, v, term, w - 1, j);
    }
  }

  /** The electing majority of n shares a server with any other majority. */
  lemma SharedHolder(c: Cluster, q: set<Addr>, n: Addr, w: int) returns (v: Addr)
    requires Grounded(c) && (n, w) in c.hist.wins && q <= ServerSet(c.config) && |q| >= Majority(c.config)
    ensures v in q && v in Voters(c, n, w)
  {
    hide ReplicaInv, Catching, BasicInv, PrimariesLogged, LogsCoherent, AesKnown, VoteInv, Single, Voters;
    VotersCount(c, n, w);
    Quorums(c.config, q, Voters(c, n, w));
    v :| v in q && v in Voters(c, n, w);
  }

  /** The counted grant of a voter, which counts in every sense. */
  lemma BallotOf(c: Cluster, n: Addr, v: Addr, w: int) returns (l: Letter)
    requires Grounded(c) && (n, w) in c.hist.wins && v in Voters(c, n, w) && v != n
    ensures l in c.net && l.msg.from == v && l.to == n && l.msg.term == w && IsGrant(l.msg) && Counts(c.hist, l)
  {
    hide ReplicaInv, Catching, BasicInv, PrimariesLogged, LogsCoherent, AesKnown, Single, RolesRecorded,
         VotesRemembered, SingleUnlessLate, Shape;
    TallySent(c);
    l :| l in Ballots(c, n, w) && l.msg.from == v;
    forall n' | (n', w) in c.hist.wins ensures n' == n {
      OneWinner(c, n', n, w);
    }
  }
}
