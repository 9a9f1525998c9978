/** The primary's books on its peers, in runs under H1, H2 and H3. */
module CatchUp {
  import opened RaftTypes
  import opened OrderStatistic
  import opened ApplyControl
  import opened NodeSpec
  import opened NodeFacts
  import opened NodeSteps
  import opened Cluster
  import opened Basics
  import opened Election
  import opened Logs
  import opened Replication
  import opened Retention

  /** How far back from its starting point primary n went for follower v in the term, and that start. */
  function Backs(h: History, n: Addr, term: int, v: Addr): int {
    At(h.backs, (n, term, v))
  }

  function Base(h: History, n: Addr, term: int): int {
    At(h.base, (n, term))
  }

  /** Before v's first counted ok the primary only went back; from then on next[v] is one past saved[v]. */
  ghost predicate Tracks(h: History, s: Node, v: Addr) {
    if (s.self, s.term, v) in h.counted then
      && At(s.next, v) == At(s.saved, v) + 1
      && exists a :: a in h.acks && AckOf(a, v, s.self, s.term)
    else
      At(s.saved, v) == -1 && Backs(h, s.self, s.term, v) + At(s.next, v) == Base(h, s.self, s.term)
  }

  ghost predicate Recounted(h: History, s: Node) {
    exists v :: (s.self, s.term, v) in h.counted
  }

  ghost predicate BookKept(h: History, s: Node) {
    s.role == Primary ==>
      && (forall v :: v in s.config && v != s.self ==> Tracks(h, s, v))
      && (Recounted(h, s) ==> s.commit <= CommitRule(s.saved, s.config))
  }

  ghost predicate Bounded(h: History) {
    && (forall n, term, v :: 0 <= Backs(h, n, term, v) <= Base(h, n, term))
    && (forall n, term, v :: (n, term, v) in h.backs ==> (n, term) in h.wins)
    && (forall n, term, v :: (n, term, v) in h.counted ==> (n, term) in h.wins)
  }

  ghost predicate Books(c: Cluster)
    requires NodesOk(c)
  {
    && Bounded(c.hist)
    && forall n :: n in c.config ==> BookKept(c.hist, c.nodes[n])
  }

  ghost predicate Keeping(c: Cluster, ev: Event, t: Node) {
    Retaining(c, ev, t) && Books(c)
  }

  /** What the history records about a step of a primary. */
  lemma KeepingParts(c: Cluster, ev: Event, t: Node)
    requires Keeping(c, ev, t)
    ensures Retaining(c, ev, t) && Logging(c, ev, t) && NodeOf(ev) in c.nodes && NodeOf(ev) in c.config
    ensures NodesOk(c) && NodesOk(After(c, ev, t))
    ensures Bounded(c.hist) && BookKept(c.hist, Mover(c, ev)) && Mover(c, ev).self == NodeOf(ev) == t.self
    ensures Mover(c, ev).config == t.config == c.config && NodeInv(Mover(c, ev)) && NodeInv(t)
    ensures After(c, ev, t).hist.acks >= c.hist.acks
  {
    hide Logging, ReplicaInv, Catching, Bounded, BookKept, NodeInv;
    RetainingParts(c, ev, t);
    LoggingFacts(c, ev, t);
  }

  lemma RefusedNotCounted(c: Cluster, ev: Event, t: Node)
    requires Keeping(c, ev, t) && Refused(Mover(c, ev), InputOf(ev))
    ensures var s, v := Mover(c, ev), InputOf(ev).msg.from;
            (s.self, s.term, v) !in c.hist.counted && v in c.config && v != NodeOf(ev)
  {
    hide Retaining, NodesOk, NodeInv, CommitRule, Recounted, Bounded, Logging;
    KeepingParts(c, ev, t);
    RefusedSender(c, ev, t);
    var s, v := Mover(c, ev), InputOf(ev).msg.from;
    assert Tracks(c.hist, s, v);
    if (s.self, s.term, v) in c.hist.counted {
      var a :| a in c.hist.acks && AckOf(a, v, s.self, s.term);
      RefusedMeansNone(c, ev, t, a);
    }
  }

  lemma RefusedSender(c: Cluster, ev: Event, t: Node)
    requires Logging(c, ev, t) && Answers(Mover(c, ev), InputOf(ev))
    ensures ev.Deliver? && InputOf(ev).msg.from in c.config && InputOf(ev).msg.from != NodeOf(ev)
  {
    hide Logging, StepFacts, Offered;
    LoggingFacts(c, ev, t);
    SenderOther(c, ev, t);
  }

  lemma TracksKept(c: Cluster, ev: Event, t: Node, v: Addr)
    requires Keeping(c, ev, t) && t.role == Primary && Mover(c, ev).role == Primary
    requires v in c.config && v != NodeOf(ev)
    ensures Tracks(After(c, ev, t).hist, t, v)
  {
    hide Retaining, NodesOk, NodeInv, CommitRule, Recounted, Bounded, Logging, Sound, RequestFacts, ReplyFacts,
         LogFacts, CommitFacts, FreshPrimary, FaultFacts, BasicInv, LogInv, Enabled, Accepts, SameTermAe;
    KeepingParts(c, ev, t);
    LoggingFacts(c, ev, t);
    var s, inp := Mover(c, ev), InputOf(ev);
    assert Tracks(c.hist, s, v);
    if Acked(s, inp) {
      AckedTracks(c, ev, t, v);
    } else if Refused(s, inp) && t.fault.None? {
      RefusedNotCounted(c, ev, t);
    }
  }

  lemma AckedTracks(c: Cluster, ev: Event, t: Node, v: Addr)
    requires Keeping(c, ev, t) && t.role == Primary && Acked(Mover(c, ev), InputOf(ev))
    requires v in c.config && v != NodeOf(ev)
    ensures Tracks(After(c, ev, t).hist, t, v)
  {
    hide NodesOk, NodeInv, CommitRule, Recounted, Bounded, Logging, Sound, RequestFacts, ReplyFacts, Catching,
         LogFacts, CommitFacts, FreshPrimary, FaultFacts, BasicInv, LogInv, Offered, Accepts, SameTermAe,
         OkBacked, AckTrue, HandedTrue, SavedBacked;
    KeepingParts(c, ev, t);
    LoggingFacts(c, ev, t);
    var s, inp := Mover(c, ev), InputOf(ev);
    assert Tracks(c.hist, s, v);
    if inp.msg.from == v {
      var a := AckedAck(c, ev);
      assert AckOf(a, v, s.self, s.term);
    }
  }

  lemma ElectedTracks(c: Cluster, ev: Event, t: Node, v: Addr)
    requires Keeping(c, ev, t) && t.role == Primary && Mover(c, ev).role != Primary
    requires v in c.config && v != NodeOf(ev)
    ensures Tracks(After(c, ev, t).hist, t, v) && !Recounted(After(c, ev, t).hist, t)
  {
    hide Retaining, NodesOk, NodeInv, CommitRule, Logging, Sound, RequestFacts, ReplyFacts, BookKept,
         LogFacts, CommitFacts, PrimaryFacts, FaultFacts, BasicInv, LogInv, Enabled, Accepts, SameTermAe;
    KeepingParts(c, ev, t);
    LoggingFacts(c, ev, t);
    NotYetWon(c, ev, t);
    var s := Mover(c, ev);
    assert Backs(c.hist, s.self, t.term, v) == 0;
  }

  lemma NotYetWon(c: Cluster, ev: Event, t: Node)
    requires Keeping(c, ev, t) && t.role == Primary && Mover(c, ev).role != Primary
    ensures t.term == Mover(c, ev).term && (t.self, t.term) !in c.hist.wins
  {
    hide Catching, ReplicaInv, NodesOk, NodeInv, Logging, Sound, RequestFacts, ReplyFacts, BookKept, Bounded,
         LogFacts, CommitFacts, PrimaryFacts, FaultFacts, BasicInv, LogInv, Enabled;
    KeepingParts(c, ev, t);
    LoggingFacts(c, ev, t);
    if (t.self, t.term) in c.hist.wins {
      WinnerTerm(c, t.self, t.term);
    }
  }

  /** Counting only ever raises what is known to be saved, so the commit rule does not fall. */
  lemma SavedGrows(c: Cluster, ev: Event, t: Node)
    requires Keeping(c, ev, t) && t.role == Primary && Mover(c, ev).role == Primary
    ensures CommitRule(Mover(c, ev).saved, c.config) <= CommitRule(t.saved, c.config)
  {
    hide Retaining, NodesOk, NodeInv, CommitRule, Logging, Sound, RequestFacts, ReplyFacts, BasicInv, LogInv,
         Enabled, Bounded, LogFacts, CommitFacts, FaultFacts, Recounted;
    KeepingParts(c, ev, t);
    LoggingFacts(c, ev, t);
    var s := Mover(c, ev);
    forall v | v in c.config ensures At(s.saved, v) <= At(t.saved, v) {
      SavedAtGrows(c, ev, t, v);
    }
    CommitRuleMonotone(s.saved, t.saved, c.config);
  }

  lemma SavedAtGrows(c: Cluster, ev: Event, t: Node, v: Addr)
    requires Keeping(c, ev, t) && t.role == Primary && Mover(c, ev).role == Primary && v in c.config
    ensures At(Mover(c, ev).saved, v) <= At(t.saved, v)
  {
    hide Retaining, NodesOk, CommitRule, Logging, Sound, RequestFacts, ReplyFacts, BasicInv, LogInv, LogShape,
         InOrder, LsnInv, Enabled, Bounded, LogFacts, CommitFacts, FaultFacts, Recounted;
    KeepingParts(c, ev, t);
    LoggingFacts(c, ev, t);
    var s, inp := Mover(c, ev), InputOf(ev);
    if v != NodeOf(ev) {
      assert Tracks(c.hist, s, v);
    } else if Acked(s, inp) {
      RefusedSender(c, ev, t);
    }
  }

  lemma PrimaryCommitMoves(c: Cluster, ev: Event, t: Node)
    requires Logging(c, ev, t) && t.role == Primary && Mover(c, ev).role == Primary
    ensures Acked(Mover(c, ev), InputOf(ev)) || t.commit == Mover(c, ev).commit
    ensures t.term == Mover(c, ev).term
  {
    hide Logging, Sound, RequestFacts, ReplyFacts, BasicInv, LogInv, Enabled, FaultFacts, HandsOver, PrimaryFacts;
    LoggingFacts(c, ev, t);
  }

  /** Once a primary has recomputed its commit index in its term, the index never falls while it is primary. */
  lemma CommitNeverFalls(c: Cluster, ev: Event, t: Node)
    requires Keeping(c, ev, t) && t.role == Primary && Mover(c, ev).role == Primary
    requires Recounted(c.hist, Mover(c, ev))
    ensures Mover(c, ev).commit <= t.commit
  {
    hide Retaining, NodesOk, NodeInv, CommitRule, Logging, Sound, RequestFacts, ReplyFacts, BasicInv, LogInv, Tracks,
         Enabled, Bounded, LogFacts, FaultFacts, Recounted, HandsOver, CommitFacts;
    KeepingParts(c, ev, t);
    LoggingFacts(c, ev, t);
    PrimaryCommitMoves(c, ev, t);
    SavedGrows(c, ev, t);
  }

  /** The index that an ok of the peer lets the primary record for it. */
  function CountedIndex(s: Node, m: Msg): int
    requires m.RespAppend?
  {
    if Advances(s, m) then At(s.next, m.from) else At(s.next, m.from) - 1
  }

  /** The first ok of a term makes the commit index what that one peer has where two servers are a majority, and
      -1 elsewhere, whatever was known to be committed before. */
  lemma FirstCount(c: Cluster, ev: Event, t: Node)
    requires Keeping(c, ev, t) && t.role == Primary && Acked(Mover(c, ev), InputOf(ev))
    requires !Recounted(c.hist, Mover(c, ev))
    ensures t.commit == if Majority(c.config) == 2 then CountedIndex(Mover(c, ev), InputOf(ev).msg) else -1
  {
    hide Retaining, NodesOk, CommitRule, Logging, Sound, RequestFacts, ReplyFacts, BasicInv, LogInv, LogShape, Majority,
         InOrder, LsnInv, Enabled, Bounded, LogFacts, CommitFacts, FaultFacts;
    KeepingParts(c, ev, t);
    LoggingFacts(c, ev, t);
    RefusedSender(c, ev, t);
    var s, v := Mover(c, ev), InputOf(ev).msg.from;
    forall w | w in c.config && w != NodeOf(ev) ensures At(s.saved, w) == -1 {
      assert Tracks(c.hist, s, w);
    }
    SecondBest(t.saved, c.config, NodeOf(ev), v);
  }

  /** A primary lowers its commit index exactly when it counts the first ok of its term and that one ok does not
      carry it as far. */
  lemma CommitFallsExactly(c: Cluster, ev: Event, t: Node)
    requires Keeping(c, ev, t) && t.role == Primary && Mover(c, ev).role == Primary
    ensures var s, inp := Mover(c, ev), InputOf(ev);
            t.commit < s.commit <==>
              && Acked(s, inp) && !Recounted(c.hist, s)
              && if Majority(c.config) == 2 then CountedIndex(s, inp.msg) < s.commit else 0 <= s.commit
  {
    hide Keeping, Recounted, Acked, Majority;
    KeepingParts(c, ev, t);
    PrimaryCommitMoves(c, ev, t);
    if Recounted(c.hist, Mover(c, ev)) {
      CommitNeverFalls(c, ev, t);
    } else if Acked(Mover(c, ev), InputOf(ev)) {
      FirstCount(c, ev, t);
    }
  }

  lemma MoverBook(c: Cluster, ev: Event, t: Node)
    requires Keeping(c, ev, t)
    ensures BookKept(After(c, ev, t).hist, t.(outbox := []))
  {
    hide Retaining, NodesOk, NodeInv, CommitRule, Logging, Sound, RequestFacts, ReplyFacts, BasicInv, LogInv, Tracks,
         Enabled, Bounded, LogFacts, FaultFacts, HandsOver, Accepts, SameTermAe, FreshPrimary;
    KeepingParts(c, ev, t);
    LoggingFacts(c, ev, t);
    var c', s := After(c, ev, t), Mover(c, ev);
    if t.role == Primary {
      forall v | v in t.config && v != t.self ensures Tracks(c'.hist, t.(outbox := []), v) {
        if s.role == Primary {
          TracksKept(c, ev, t, v);
        } else {
          ElectedTracks(c, ev, t, v);
        }
        OutboxApart(c'.hist, t, v);
      }
      if Recounted(c'.hist, t) {
        RecountedBook(c, ev, t);
      }
    }
  }

  lemma OutboxApart(h: History, t: Node, v: Addr)
    ensures Tracks(h, t, v) <==> Tracks(h, t.(outbox := []), v)
  {
  }

  lemma RecountedBook(c: Cluster, ev: Event, t: Node)
    requires Keeping(c, ev, t) && t.role == Primary && Recounted(After(c, ev, t).hist, t)
    ensures t.commit <= CommitRule(t.saved, t.config)
  {
    hide Retaining, NodesOk, NodeInv, CommitRule, Logging, Sound, RequestFacts, ReplyFacts, BasicInv, LogInv, Tracks,
         Enabled, LogFacts, FaultFacts, HandsOver, Accepts, SameTermAe, FreshPrimary;
    KeepingParts(c, ev, t);
    LoggingFacts(c, ev, t);
    var s := Mover(c, ev);
    if s.role != Primary {
      NotYetWon(c, ev, t);
    } else if !Acked(s, InputOf(ev)) {
      PrimaryCommitMoves(c, ev, t);
      SavedGrows(c, ev, t);
      var v :| (t.self, t.term, v) in After(c, ev, t).hist.counted;
      assert (s.self, s.term, v) in c.hist.counted;
    }
  }

  lemma BoundedKept(c: Cluster, ev: Event, t: Node)
    requires Keeping(c, ev, t)
    ensures Bounded(After(c, ev, t).hist)
  {
    hide Retaining, NodesOk, CommitRule, Logging, Sound, RequestFacts, ReplyFacts, BasicInv, LogInv, LogShape,
         InOrder, Enabled, LogFacts, FaultFacts, HandsOver, Accepts, SameTermAe, FreshPrimary, CommitFacts, LsnInv;
    KeepingParts(c, ev, t);
    LoggingFacts(c, ev, t);
    var h, h', s, inp := c.hist, After(c, ev, t).hist, Mover(c, ev), InputOf(ev);
    if t.role == Primary && s.role != Primary {
      NotYetWon(c, ev, t);
    }
    if Refused(s, inp) {
      RefusedNotCounted(c, ev, t);
      assert Tracks(h, s, inp.msg.from);
    }
    forall n, term, v ensures 0 <= Backs(h', n, term, v) <= Base(h', n, term) {
      assert 0 <= Backs(h, n, term, v) <= Base(h, n, term);
    }
  }

  lemma BooksKept(c: Cluster, ev: Event, t: Node)
    requires Keeping(c, ev, t)
    ensures NodesOk(After(c, ev, t)) && Books(After(c, ev, t))
  {
    hide Retaining, NodeInv, Logging, Bounded, Accepts, SameTermAe, Reachable;
    KeepingParts(c, ev, t);
    BoundedKept(c, ev, t);
    var c' := After(c, ev, t);
    forall n | n in c'.config ensures BookKept(c'.hist, c'.nodes[n]) {
      if n == NodeOf(ev) {
        MoverBook(c, ev, t);
      } else {
        OtherBook(c, ev, t, n);
      }
    }
  }

  lemma OtherBook(c: Cluster, ev: Event, t: Node, n: Addr)
    requires Keeping(c, ev, t) && n in c.config && n != NodeOf(ev)
    ensures n in c.nodes && BookKept(After(c, ev, t).hist, c.nodes[n])
  {
    hide Retaining, NodeInv, Logging, Bounded, Accepts, SameTermAe, Reachable, BookKept;
    KeepingParts(c, ev, t);
    SameBook(c.hist, After(c, ev, t).hist, c.nodes[n]);
  }

  lemma SameBook(h: History, h': History, s: Node)
    requires BookKept(h, s) && h.acks <= h'.acks
    requires forall term, v :: (s.self, term, v) in h'.counted <==> (s.self, term, v) in h.counted
    requires forall term, v :: Backs(h', s.self, term, v) == Backs(h, s.self, term, v)
    requires forall term :: Base(h', s.self, term) == Base(h, s.self, term)
    ensures BookKept(h', s)
  {
    hide CommitRule;
    if s.role == Primary {
      forall v | v in s.config && v != s.self ensures Tracks(h', s, v) {
        assert Tracks(h, s, v);
      }
      if Recounted(h', s) {
        var v :| (s.self, s.term, v) in h'.counted;
        assert (s.self, s.term, v) in h.counted;
      }
    }
  }

  lemma InitCatching(c: Cluster)
    requires Init(c)
    ensures Catching(c) && Books(c)
  {
    BasicInit(c);
  }

  ghost predicate KeepingAt(r: Run, i: nat) {
    i < |r.events| && i < |r.states| && NodeOf(r.events[i]) in r.states[i].nodes
    && Keeping(r.states[i], r.events[i], Handle(Mover(r.states[i], r.events[i]), InputOf(r.events[i])))
  }

  ghost predicate RetainInv(c: Cluster) {
    LogInv(c) && ReplicaInv(c) && Catching(c) && Books(c)
  }

  lemma {:induction false} KeepingHolds(r: Run, i: nat)
    requires IsRun(r) && H1(r) && H2(r) && H3(r) && i < |r.states|
    ensures RetainInv(r.states[i])
    ensures i < |r.events| ==> KeepingAt(r, i)
  {
    hide LogInv, ReplicaInv, Catching, Books, NodesOk, H1, H2, Init, Enabled, Handle, Logging, Step;
    ReplicaHolds(r, i);
    if i < |r.events| {
      StepAt(r, i);
    }
    if i == 0 {
      InitCatching(r.states[0]);
    } else {
      KeepingHolds(r, i - 1);
      KeepingStep(r, i - 1);
    }
  }

  lemma KeepingStep(r: Run, i: nat)
    requires IsRun(r) && i < |r.events| && KeepingAt(r, i)
    ensures NodesOk(r.states[i + 1]) && Catching(r.states[i + 1]) && Books(r.states[i + 1])
  {
    hide LogInv, ReplicaInv, Catching, Books, NodesOk, Init, Handle, Logging, OwnAnswer, After, Offered;
    StepAt(r, i);
    var c, ev := r.states[i], r.events[i];
    var t := Handle(Mover(c, ev), InputOf(ev));
    assert Retaining(c, ev, t);
    CatchingKept(c, ev, t);
    BooksKept(c, ev, t);
  }
}
