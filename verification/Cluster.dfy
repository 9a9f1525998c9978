/** A cluster of servers over an unordered, lossy network that may repeat requests, with the history that the
    properties speak about. Nothing in a step depends on the history. */
module Cluster {
  import opened RaftTypes
  import opened NodeSpec
  import opened NodeSteps

  /** An RPC in the network; a reply remembers the request it answers. */
  datatype Letter = Letter(to: Addr, msg: Msg, re: Option<Msg>)

  /** A follower's ok to the AE of `primary` with that lsn: in `term` it held `log`, of which the first `len`
      entries were verified. */
  datatype Ack = Ack(node: Addr, primary: Addr, term: int, lsn: int, len: int, log: seq<Entry>)

  /** A command handed to the state machine of `node` while it was in `term`. */
  datatype Handed = Handed(node: Addr, term: int, task: Task)

  datatype History = History(
    plog: map<int, seq<Entry>>,    // per term, the log of its primary as last seen
    cands: set<(Addr, int)>,       // who was a candidate in which term
    stood: map<(Addr, int), seq<Entry>>,    // the log each candidate stood with
    wins: set<(Addr, int)>,        // who was primary of which term
    tally: set<Letter>,            // the granted votes that candidates counted
    late: set<(Addr, int)>,        // who handled an AE of a term it was already in
    acks: set<Ack>,
    handed: set<Handed>,
    counted: set<(Addr, int, Addr)>,        // primary, term and follower of every ok the primary acted on
    backs: map<(Addr, int, Addr), int>,     // how many refusals the primary acted on
    base: map<(Addr, int), int>)            // the size of a primary's log when it was elected

  datatype Cluster = Cluster(
    config: Config,
    nodes: map<Addr, Node>,
    net: set<Letter>,              // everything ever sent
    spent: set<Letter>,            // granted votes already delivered
    hist: History)

  datatype Event = Local(at: Addr, input: Input) | Deliver(letter: Letter)

  function NodeOf(ev: Event): Addr {
    match ev
    case Local(n, _) => n
    case Deliver(l) => l.to
  }

  function InputOf(ev: Event): Input {
    match ev
    case Local(_, inp) => inp
    case Deliver(l) => Receive(l.msg)
  }

  predicate IsGrant(m: Msg) {
    m.RespVote? && m.ok
  }

  /** Letters may be lost, reordered and repeated; only a granted vote arrives at most once. */
  predicate Enabled(c: Cluster, ev: Event) {
    && NodeOf(ev) in c.config && NodeOf(ev) in c.nodes
    && Offered(c.nodes[NodeOf(ev)], InputOf(ev))
    && match ev
       case Local(_, inp) => !inp.Receive?
       case Deliver(l) => l in c.net && (IsGrant(l.msg) ==> l !in c.spent)
  }

  function Wrap(p: Packet, inp: Input): Letter {
    Letter(p.to, p.msg, if IsRequest(p.msg) || !inp.Receive? then None else Some(inp.msg))
  }

  function Mailed(outbox: seq<Packet>, inp: Input): set<Letter> {
    set p | p in outbox :: Wrap(p, inp)
  }

  function HandedNow(s: Node, t: Node): set<Handed> {
    set k | |s.ctl.tasks| <= k < |t.ctl.tasks| :: Handed(t.self, t.term, t.ctl.tasks[k])
  }

  function Record(h: History, ev: Event, s: Node, t: Node): History {
    var n, inp := NodeOf(ev), InputOf(ev);
    History(
      if t.role == Primary then h.plog[t.term := t.log] else h.plog,
      if t.role == Candidate then h.cands + {(n, t.term)} else h.cands,
      if t.role == Candidate && (n, t.term) !in h.cands then h.stood[(n, t.term) := t.log] else h.stood,
      if t.role == Primary then h.wins + {(n, t.term)} else h.wins,
      if ev.Deliver? && CountsBallot(s, inp) then h.tally + {ev.letter} else h.tally,
      if SameTermAe(s, inp) then h.late + {(n, s.term)} else h.late,
      if Accepts(s, inp) && t.fault.None?
      then h.acks + {Ack(n, inp.msg.from, t.term, inp.msg.lsn, inp.msg.prelogIndex + 1 + |inp.msg.entries|, t.log)}
      else h.acks,
      h.handed + HandedNow(s, t),
      if Acked(s, inp) then h.counted + {(n, s.term, inp.msg.from)} else h.counted,
      if Refused(s, inp) && t.fault.None? then
        var key := (n, s.term, inp.msg.from);
        h.backs[key := At(h.backs, key) + 1]
      else h.backs,
      if t.role == Primary && s.role != Primary then h.base[(n, t.term) := |t.log|] else h.base)
  }

  /** The cluster after the node of `ev` moved to state t. */
  function After(c: Cluster, ev: Event, t: Node): Cluster
    requires NodeOf(ev) in c.nodes
  {
    var n := NodeOf(ev);
    Cluster(c.config, c.nodes[n := t.(outbox := [])], c.net + Mailed(t.outbox, InputOf(ev)),
            if ev.Deliver? && IsGrant(ev.letter.msg) then c.spent + {ev.letter} else c.spent,
            Record(c.hist, ev, c.nodes[n], t))
  }

  function Step(c: Cluster, ev: Event): Cluster
    requires Enabled(c, ev)
  {
    After(c, ev, Handle(c.nodes[NodeOf(ev)], InputOf(ev)))
  }

  ghost predicate Init(c: Cluster) {
    && c.nodes == (map v | v in c.config :: NewNode(v, c.config))
    && c.net == {} && c.spent == {}
    && c.hist == History(map[], {}, map[], {}, {}, {}, {}, {}, {}, map[], map[])
  }

  ghost predicate IsStep(c: Cluster, ev: Event, c': Cluster) {
    Enabled(c, ev) && c' == Step(c, ev)
  }

  /** A run: the states it passes through and the events between them. */
  datatype Run = Run(states: seq<Cluster>, events: seq<Event>)

  ghost predicate IsRun(r: Run) {
    && |r.states| == |r.events| + 1
    && Init(r.states[0])
    && forall i {:trigger IsStep(r.states[i], r.events[i], r.states[i + 1])} :: 0 <= i < |r.events| ==>
         IsStep(r.states[i], r.events[i], r.states[i + 1])
  }

  lemma FirstState(r: Run)
    requires IsRun(r)
    ensures |r.states| == |r.events| + 1 && Init(r.states[0])
  {
  }

  lemma StepAt(r: Run, i: nat)
    requires IsRun(r) && i < |r.events|
    ensures |r.states| == |r.events| + 1
    ensures IsStep(r.states[i], r.events[i], r.states[i + 1])
  {
  }
}
