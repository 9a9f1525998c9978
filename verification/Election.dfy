/** Votes and primaries. A server that has not handled an AE of the term it was already in casts at most one
    vote in that term, its own candidacy included; that is what election safety rests on. */
module Election {
  import opened RaftTypes
  import opened OrderStatistic
  import opened NodeSpec
  import opened NodeFacts
  import opened NodeSteps
  import opened Cluster
  import opened Basics

  predicate GrantBy(l: Letter, v: Addr, term: int) {
    IsGrant(l.msg) && l.msg.from == v && l.msg.term == term
  }

  /** v cast at most one vote in the term: one grant, or its own candidacy, or none. */
  ghost predicate Single(c: Cluster, v: Addr, term: int) {
    && (forall a, b :: a in c.net && b in c.net && GrantBy(a, v, term) && GrantBy(b, v, term) ==> a == b)
    && (forall a :: a in c.net && GrantBy(a, v, term) ==> (v, term) !in c.hist.cands)
  }

  ghost predicate RolesRecorded(c: Cluster)
    requires NodesOk(c)
  {
    && (forall n, term :: (n, term) in c.hist.cands ==> n in c.config && term <= c.nodes[n].term)
    && (forall n, term :: (n, term) in c.hist.wins ==> (n, term) in c.hist.cands)
    && (forall n :: n in c.config && c.nodes[n].role != Follower ==> (n, c.nodes[n].term) in c.hist.cands)
    && (forall n :: n in c.config ==>
          (c.nodes[n].role == Primary <==> (n, c.nodes[n].term) in c.hist.wins))
  }

  /** What a server remembers of its vote in its current term, unless an AE of that term made it forget. */
  ghost predicate VotesRemembered(c: Cluster)
    requires NodesOk(c)
  {
    forall v :: v in c.config && (v, c.nodes[v].term) !in c.hist.late ==>
      && ((v, c.nodes[v].term) in c.hist.cands ==> c.nodes[v].role != Follower)
      && (forall l :: l in c.net && GrantBy(l, v, c.nodes[v].term) ==>
            c.nodes[v].role == Follower && c.nodes[v].voted)
  }

  ghost predicate SingleUnlessLate(c: Cluster) {
    forall v, term :: (v, term) !in c.hist.late ==> Single(c, v, term)
  }

  /** The counted votes for n in the term. */
  ghost function Ballots(c: Cluster, n: Addr, term: int): set<Letter> {
    set l | l in c.hist.tally && l.to == n && l.msg.term == term
  }

  ghost predicate Tallied(c: Cluster)
    requires NodesOk(c)
  {
    && c.hist.tally <= c.spent
    && (forall l :: l in c.hist.tally ==>
          IsGrant(l.msg) && l.to in c.config && l.msg.term <= c.nodes[l.to].term)
    && (forall n :: n in c.config && c.nodes[n].role != Follower ==>
          c.nodes[n].votes == 1 + |Ballots(c, n, c.nodes[n].term)|)
    && (forall n, term :: (n, term) in c.hist.wins ==> 1 + |Ballots(c, n, term)| >= Majority(c.config))
  }

  ghost predicate VoteInv(c: Cluster) {
    && Shape(c)
    && RolesRecorded(c)
    && VotesRemembered(c)
    && SingleUnlessLate(c)
    && Tallied(c)
  }

  // ----- each part is kept

  ghost predicate Moves(c: Cluster, ev: Event, t: Node) {
    && Shape(c) && Enabled(c, ev) && NodesOk(After(c, ev, t))
    && Sound(Mover(c, ev), t)
    && RoleFacts(Mover(c, ev), InputOf(ev), t)
    && VoteFacts(Mover(c, ev), InputOf(ev), t)
  }

  lemma RolesKept(c: Cluster, ev: Event, t: Node)
    requires Moves(c, ev, t) && RolesRecorded(c)
    ensures RolesRecorded(After(c, ev, t))
  {
    hide NodeInv, MsgShape, VoteFacts, Requests, Replies, NetOk;
  }

  /** A grant that is new in this step was cast by the mover, in its new term, as its only vote so far. */
  lemma NewGrant(c: Cluster, ev: Event, t: Node, l: Letter)
    requires Moves(c, ev, t)
    requires l in After(c, ev, t).net && l !in c.net && IsGrant(l.msg)
    ensures l == Letter(InputOf(ev).msg.from, RespVote(true, t.term, InputOf(ev).msg.lsn, t.self), Some(InputOf(ev).msg))
    ensures IsRv(InputOf(ev)) && t.term == InputOf(ev).msg.term && t.role == Follower && t.voted
    ensures Mover(c, ev).term == t.term ==> Mover(c, ev).role == Follower && !Mover(c, ev).voted
  {
    hide NodeInv, MsgShape, RoleFacts;
    NewLetter(c, ev, t, l);
    var p :| p in t.outbox && l == Wrap(p, InputOf(ev));
  }

  lemma RememberedKept(c: Cluster, ev: Event, t: Node, v: Addr)
    requires Moves(c, ev, t) && RolesRecorded(c) && VotesRemembered(c)
    requires v in c.config && (v, After(c, ev, t).nodes[v].term) !in After(c, ev, t).hist.late
    ensures var c' := After(c, ev, t);
            && ((v, c'.nodes[v].term) in c'.hist.cands ==> c'.nodes[v].role != Follower)
            && (forall l :: l in c'.net && GrantBy(l, v, c'.nodes[v].term) ==>
                  c'.nodes[v].role == Follower && c'.nodes[v].voted)
  {
    hide NodeInv, MsgShape;
    var c' := After(c, ev, t);
    forall l | l in c'.net && GrantBy(l, v, c'.nodes[v].term)
      ensures c'.nodes[v].role == Follower && c'.nodes[v].voted
    {
      if l !in c.net {
        NewGrant(c, ev, t, l);
      } else {
        assert LetterOk(c, l);
      }
    }
  }

  /** One more step keeps a server to one vote, if it does not vote in a term it is late in. */
  lemma SingleKept(c: Cluster, ev: Event, t: Node, v: Addr, term: int)
    requires Moves(c, ev, t) && RolesRecorded(c) && VotesRemembered(c) && Single(c, v, term)
    requires (exists l :: l in After(c, ev, t).net && l !in c.net && GrantBy(l, v, term)) ==> (v, term) !in c.hist.late
    ensures Single(After(c, ev, t), v, term)
  {
    hide NodeInv, MsgShape;
    var c' := After(c, ev, t);
    forall a | a in c'.net && GrantBy(a, v, term)
      ensures (v, term) !in c'.hist.cands
      ensures forall b :: b in c'.net && GrantBy(b, v, term) ==> a == b
    {
      if a !in c.net {
        NewGrant(c, ev, t, a);
        forall b | b in c'.net && GrantBy(b, v, term) ensures a == b {
          if b !in c.net {
            NewGrant(c, ev, t, b);
          }
        }
      } else {
        assert LetterOk(c, a);
        forall b | b in c'.net && GrantBy(b, v, term) ensures a == b {
          if b !in c.net {
            NewGrant(c, ev, t, b);
          }
        }
      }
    }
  }

  lemma SingleUnlessLateKept(c: Cluster, ev: Event, t: Node)
    requires Moves(c, ev, t) && RolesRecorded(c) && VotesRemembered(c) && SingleUnlessLate(c)
    ensures SingleUnlessLate(After(c, ev, t))
  {
    hide Moves, RolesRecorded, VotesRemembered, Single;
    MovesOk(c, ev, t);
    forall v, term | (v, term) !in After(c, ev, t).hist.late ensures Single(After(c, ev, t), v, term) {
      SingleKept(c, ev, t, v, term);
    }
  }

  lemma BallotsAfter(c: Cluster, ev: Event, t: Node, n: Addr, term: int)
    requires Moves(c, ev, t)
    ensures var counted := ev.Deliver? && CountsBallot(Mover(c, ev), InputOf(ev));
            Ballots(After(c, ev, t), n, term) ==
              if counted && n == NodeOf(ev) && term == t.term then Ballots(c, n, term) + {ev.letter}
              else Ballots(c, n, term)
  {
    hide NodeInv, MsgShape, VoteFacts;
  }

  lemma TallyKept(c: Cluster, ev: Event, t: Node)
    requires Moves(c, ev, t) && Tallied(c)
    ensures var c' := After(c, ev, t);
            && c'.hist.tally <= c'.spent
            && (forall l :: l in c'.hist.tally ==>
                  IsGrant(l.msg) && l.to in c'.config && l.msg.term <= c'.nodes[l.to].term)
  {
    hide NodeInv, MsgShape, VoteFacts, RoleFacts, Ballots;
  }

  lemma VotesCounted(c: Cluster, ev: Event, t: Node)
    requires Moves(c, ev, t) && Tallied(c) && t.role != Follower
    ensures t.votes == 1 + |Ballots(After(c, ev, t), NodeOf(ev), t.term)|
  {
    hide NodeInv, MsgShape, VoteFacts;
    var n, s := NodeOf(ev), Mover(c, ev);
    BallotsAfter(c, ev, t, n, t.term);
    if t.term != s.term {
      assert Ballots(c, n, t.term) == {};
    } else if CountsBallot(s, InputOf(ev)) {
      assert ev.letter !in Ballots(c, n, t.term);
    }
  }

  lemma WinKept(c: Cluster, ev: Event, t: Node, n: Addr, term: int)
    requires Moves(c, ev, t) && Tallied(c) && (n, term) in After(c, ev, t).hist.wins
    requires RolesRecorded(c)
    ensures 1 + |Ballots(After(c, ev, t), n, term)| >= Majority(c.config)
  {
    hide NodeInv, MsgShape, VoteFacts, Ballots;
    if (n, term) in c.hist.wins {
      BallotsAfter(c, ev, t, n, term);
      SubsetSize(Ballots(c, n, term), Ballots(After(c, ev, t), n, term));
    } else {
      VotesCounted(c, ev, t);
    }
  }

  lemma TalliedKept(c: Cluster, ev: Event, t: Node)
    requires Moves(c, ev, t) && RolesRecorded(c) && Tallied(c)
    ensures Tallied(After(c, ev, t))
  {
    hide NodeInv, MsgShape, VoteFacts, RoleFacts, Ballots, RolesRecorded;
    var c' := After(c, ev, t);
    TallyKept(c, ev, t);
    forall n | n in c'.config && c'.nodes[n].role != Follower
      ensures c'.nodes[n].votes == 1 + |Ballots(c', n, c'.nodes[n].term)|
    {
      if n == NodeOf(ev) {
        VotesCounted(c, ev, t);
      } else {
        BallotsAfter(c, ev, t, n, c.nodes[n].term);
      }
    }
    forall n, term | (n, term) in c'.hist.wins ensures 1 + |Ballots(c', n, term)| >= Majority(c'.config) {
      WinKept(c, ev, t, n, term);
    }
  }

  lemma VoteInvInit(c: Cluster)
    requires Init(c)
    ensures VoteInv(c) && forall v, term :: Single(c, v, term)
  {
    BasicInit(c);
    assert forall n, term :: Ballots(c, n, term) == {};
  }

  lemma VoteInvKept(c: Cluster, ev: Event, t: Node)
    requires VoteInv(c) && Moves(c, ev, t) && Shape(After(c, ev, t))
    ensures VoteInv(After(c, ev, t))
  {
    hide Moves, RolesRecorded, SingleUnlessLate, Tallied, Shape, After, GrantBy;
    MovesOk(c, ev, t);
    RolesKept(c, ev, t);
    SingleUnlessLateKept(c, ev, t);
    TalliedKept(c, ev, t);
    AllRemembered(c, ev, t);
  }

  lemma MovesOk(c: Cluster, ev: Event, t: Node)
    requires Moves(c, ev, t)
    ensures NodeOf(ev) in c.nodes && NodesOk(After(c, ev, t)) && t.self == NodeOf(ev)
  {
    hide NodeInv;
  }

  lemma AllRemembered(c: Cluster, ev: Event, t: Node)
    requires Moves(c, ev, t) && RolesRecorded(c) && VotesRemembered(c)
    ensures VotesRemembered(After(c, ev, t))
  {
    hide RoleFacts, VoteFacts, NodeInv, MsgShape, Shape, RolesRecorded, Sound;
    forall v | v in c.config && (v, After(c, ev, t).nodes[v].term) !in After(c, ev, t).hist.late
      ensures var c' := After(c, ev, t);
              && ((v, c'.nodes[v].term) in c'.hist.cands ==> c'.nodes[v].role != Follower)
              && (forall l :: l in c'.net && GrantBy(l, v, c'.nodes[v].term) ==>
                    c'.nodes[v].role == Follower && c'.nodes[v].voted)
    {
      RememberedKept(c, ev, t, v);
    }
  }

  // ----- at most one primary per term

  /** Those who voted for n in the term, n included. */
  ghost function Voters(c: Cluster, n: Addr, term: int): set<Addr> {
    {n} + set l | l in Ballots(c, n, term) :: l.msg.from
  }

  lemma {:induction false} SendersCount(b: set<Letter>)
    requires forall x, y :: x in b && y in b && x.msg.from == y.msg.from ==> x == y
    ensures |set l | l in b :: l.msg.from| == |b|
  {
    var f := set l | l in b :: l.msg.from;
    if b == {} {
      assert f == {};
    } else {
      var x :| x in b;
      SendersCount(b - {x});
      var g := set l | l in b - {x} :: l.msg.from;
      assert x.msg.from !in g;
      assert f == g + {x.msg.from};
    }
  }

  lemma VotersCount(c: Cluster, n: Addr, term: int)
    requires VoteInv(c) && (n, term) in c.hist.wins && forall v :: v in c.config ==> Single(c, v, term)
    ensures |Voters(c, n, term)| >= Majority(c.config) && Voters(c, n, term) <= ServerSet(c.config)
  {
    hide NodeInv, MsgShape, VotesRemembered, SingleUnlessLate;
    var b := Ballots(c, n, term);
    forall l | l in b ensures LetterOk(c, l) && GrantBy(l, l.msg.from, term) && l in c.net {
    }
    SendersCount(b);
    assert n !in set l | l in b :: l.msg.from;
  }

  function ServerSet(config: seq<Addr>): set<Addr> {
    set v | v in config
  }

  lemma {:induction false} ServerSetSize(config: seq<Addr>)
    ensures |ServerSet(config)| <= |config|
  {
    if config != [] {
      ServerSetSize(config[1..]);
      assert config == [config[0]] + config[1..];
      assert ServerSet(config) == {config[0]} + ServerSet(config[1..]);
    }
  }

  /** Two majorities of one configuration share a server. */
  lemma Quorums(config: Config, a: set<Addr>, b: set<Addr>)
    requires a <= ServerSet(config) && b <= ServerSet(config)
    requires |a| >= Majority(config) && |b| >= Majority(config)
    ensures exists v :: v in a && v in b
  {
    ServerSetSize(config);
    SubsetSize(a + b, ServerSet(config));
    assert |a * b| > 0;
    var v :| v in a * b;
  }

  lemma SharedVoter(c: Cluster, n1: Addr, n2: Addr, v: Addr, term: int)
    requires VoteInv(c) && Single(c, v, term)
    requires (n1, term) in c.hist.wins && (n2, term) in c.hist.wins
    requires v in Voters(c, n1, term) && v in Voters(c, n2, term)
    ensures n1 == n2
  {
    hide NodesOk, LetterOk, VotesRemembered, SingleUnlessLate;
  }

  lemma OneWinner(c: Cluster, n1: Addr, n2: Addr, term: int)
    requires VoteInv(c) && forall v :: v in c.config ==> Single(c, v, term)
    requires (n1, term) in c.hist.wins && (n2, term) in c.hist.wins
    ensures n1 == n2
  {
    hide Voters, VoteInv, Single;
    VotersCount(c, n1, term);
    VotersCount(c, n2, term);
    Quorums(c.config, Voters(c, n1, term), Voters(c, n2, term));
    var v :| v in Voters(c, n1, term) && v in Voters(c, n2, term);
    SharedVoter(c, n1, n2, v, term);
  }

  // ----- over whole runs

  /** H1 at one step: no vote is granted in a term whose AE the voter already handled while in that term. */
  ghost predicate NoLateGrant(c: Cluster, ev: Event, t: Node) {
    forall p :: p in t.outbox && IsGrant(p.msg) ==> (NodeOf(ev), t.term) !in c.hist.late
  }

  ghost predicate H1(r: Run)
    requires IsRun(r)
  {
    forall i {:trigger IsStep(r.states[i], r.events[i], r.states[i + 1])} ::
      0 <= i < |r.events| && IsStep(r.states[i], r.events[i], r.states[i + 1]) ==>
        NoLateGrant(r.states[i], r.events[i], Handle(Mover(r.states[i], r.events[i]), InputOf(r.events[i])))
  }

  ghost predicate AllSingle(c: Cluster) {
    forall v, term :: Single(c, v, term)
  }

  lemma AllSingleKept(c: Cluster, ev: Event, t: Node)
    requires Moves(c, ev, t) && RolesRecorded(c) && VotesRemembered(c) && AllSingle(c) && NoLateGrant(c, ev, t)
    ensures AllSingle(After(c, ev, t))
  {
    hide Moves, RolesRecorded, VotesRemembered, Single;
    MovesOk(c, ev, t);
    forall v, term ensures Single(After(c, ev, t), v, term) {
      forall l | l in After(c, ev, t).net && l !in c.net && GrantBy(l, v, term)
        ensures (v, term) !in c.hist.late
      {
        NewGrant(c, ev, t, l);
        NewLetter(c, ev, t, l);
      }
      SingleKept(c, ev, t, v, term);
    }
  }
}
