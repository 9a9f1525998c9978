/** Runs of any three servers: what goes wrong where a hypothesis is dropped, and what the code does not promise at
    all. Each says which of H1 to H5 hold in it. */
module Witness {
  import opened RaftTypes
  import opened OrderStatistic
  import opened ApplyControl
  import opened NodeSpec
  import opened NodeFacts
  import opened NodeSteps
  import opened Cluster
  import opened Election
  import opened Logs
  import opened Retention
  import opened Completeness
  import opened Scripts

  // ----- three servers

  /** All three servers are up. */
  ghost predicate Running(k: Cluster, config: Config) {
    && |config| == 3 && k.config == config
    && forall v :: v in config ==>
         v in k.nodes && k.nodes[v].self == v && k.nodes[v].config == config && Idle(k.nodes[v])
  }

  predicate Is(s: Node, role: Role, term: int, log: seq<Entry>, commit: int) {
    s.role == role && s.term == term && s.log == log && s.commit == commit
  }

  lemma ThreeServers(config: Config)
    requires |config| == 3
    ensures config[0] != config[1] && config[0] != config[2] && config[1] != config[2] && Majority(config) == 2
    ensures config[0] in config && config[1] in config && config[2] in config
  {
  }

  lemma Pairs(k: Cluster, n: Addr, v: Addr)
    requires Running(k, k.config) && n in k.config && v in k.config && n != v
    ensures Pair(k, n, v)
  {
  }

  lemma StillRunning(k: Cluster, k': Cluster, config: Config, moved: set<Addr>)
    requires Running(k, config) && Later(k, k', moved)
    requires forall v :: v in moved ==>
               v in k'.nodes && k'.nodes[v].self == v && k'.nodes[v].config == config && Idle(k'.nodes[v])
    ensures Running(k', config)
  {
    hide Idle, Keep;
    forall v | v in config
      ensures v in k'.nodes && k'.nodes[v].self == v && k'.nodes[v].config == config && Idle(k'.nodes[v])
    {
      if v !in moved {
        LaterNode(k, k', moved, v);
      }
    }
  }

  lemma PairRunning(k: Cluster, k': Cluster, config: Config, n: Addr, v: Addr)
    requires Running(k, config) && Later(k, k', {n, v}) && Pair(k', n, v)
    ensures Running(k', config)
  {
    hide Idle, Later, Running;
    LaterParts(k, k', {n, v});
    RunningConfig(k, config);
    StillRunning(k, k', config, {n, v});
  }

  lemma RunningConfig(k: Cluster, config: Config)
    requires Running(k, config)
    ensures k.config == config && |config| == 3
    ensures forall v :: v in config ==> v in k.nodes && k.nodes[v].self == v && k.nodes[v].config == config
    ensures forall v :: v in config ==> v in k.nodes && Idle(k.nodes[v])
  {
  }

  /** Server n stopped at this throw. */
  ghost predicate Threw(k: Cluster, n: Addr, fault: Fault) {
    n in k.nodes && k.nodes[n].fault == Some(fault)
  }

  /** Server n handed the command of its first entry to its state machine, in this term. */
  ghost predicate Applied(k: Cluster, n: Addr, term: int, cmd: string) {
    Handed(n, term, Task(0, cmd)) in k.hist.handed
  }

  // ----- an entry reaches a second server

  ghost predicate Settled(c: Cluster, c': Cluster, n: Addr, v: Addr, m: Msg)
    requires Pair(c, n, v) && m.AppendEntry?
  {
    && Later(c, c', {n, v}) && Pair(c', n, v)
    && var s, t, y, z := c.nodes[n], c'.nodes[n], c.nodes[v], c'.nodes[v];
    && t == CountedFor(s, v).(curLsn := t.curLsn) && At(t.curLsn, v) == At(s.curLsn, v) + 1
    && Letter(v, AeFor(t, v, At(s.curLsn, v)), None) in c'.net
    && z.role == Follower && z.term == m.term && z.log == LogAfter(y.log, m) && z.commit == CommitAfter(y, m)
    && At(z.folLsn, n) == m.lsn
    && HandedNow(s, t) <= c'.hist.handed && c'.spent == c.spent
    && c'.hist.late == c.hist.late + (if y.term == m.term then {(v, m.term)} else {})
  }

  /** v takes the entry of the AE m and n counts its ok. */
  lemma Settle(r: Run, n: Addr, v: Addr, m: Msg) returns (r': Run)
    requires IsRun(r) && r.states != [] && Pair(Last(r), n, v) && m.AppendEntry? && m.from == n && m.entries != []
    requires Letter(v, m, None) in Last(r).net && Accepts(Last(r).nodes[v], Receive(m))
    requires Last(r).nodes[v].commit <= CommitAfter(Last(r).nodes[v], m)
    requires var s := Last(r).nodes[n];
             s.role == Primary && m.term == s.term && At(s.curLsn, v) == m.lsn + 1 && At(s.next, v) < |s.log|
    ensures IsRun(r') && r'.states != [] && Settled(Last(r), Last(r'), n, v, m)
    ensures Adds(r, r', true, true, true, true, CountsOwn(Last(r).nodes[n], v))
  {
    hide IsRun, Last, Heard, Later, Heeds, Matches, H1, H2, H3, H4, H5, CountedFor, CountsOwn, CommitAfter, LogAfter,
         HandedNow, AeFor, Followed, CountedAt, Settled;
    var r1 := Follow(r, n, v, m);
    FollowedWaits(Last(r), Last(r1), n, v, m);
    r' := Count(r1, n, v, m);
    SettledBy(Last(r), Last(r1), Last(r'), n, v, m);
  }

  lemma FollowedWaits(c: Cluster, c1: Cluster, n: Addr, v: Addr, m: Msg)
    requires Pair(c, n, v) && m.AppendEntry? && Followed(c, c1, v, m) && m.from == n
    ensures Pair(c1, n, v) && c1.nodes[n] == c.nodes[n]
    ensures Letter(n, RespAppend(true, m.term, m.lsn, v, m.entries == []), Some(m)) in c1.net
  {
    hide Later, Heard, Majority, CommitAfter, LogAfter;
    LaterNode(c, c1, {v}, n);
    LaterParts(c, c1, {v});
  }

  lemma SettledBy(c: Cluster, c1: Cluster, c2: Cluster, n: Addr, v: Addr, m: Msg)
    requires Pair(c, n, v) && m.AppendEntry? && Followed(c, c1, v, m) && m.from == n && CountedAt(c1, c2, n, v)
    ensures Settled(c, c2, n, v, m)
  {
    hide Later, Heard, Majority, CommitAfter, LogAfter, CountedFor, HandedNow, AeFor;
    FollowedWaits(c, c1, n, v, m);
    LaterNode(c1, c2, {n}, v);
    LaterParts(c, c1, {v});
    LaterParts(c1, c2, {n});
    LaterTwice(c, c1, c2, {v}, {n});
    CountedKeeps(c.nodes[n], v);
    HeardAt(c.nodes[v], c1.nodes[v], n, m.term, m.lsn);
    assert {v} + {n} == {n, v};
  }

  lemma HeardAt(s: Node, t: Node, n: Addr, term: int, lsn: int)
    requires Heard(s, t, n, term, lsn)
    ensures At(t.folLsn, n) == lsn
  {
  }

  lemma CountedKeeps(s: Node, v: Addr)
    ensures var t := CountedFor(s, v);
            && t == s.(next := t.next, saved := t.saved, commit := t.commit, ctl := t.ctl)
            && t.next == s.next[v := At(s.next, v) + 1] && t.saved == s.saved[v := At(s.next, v)]
            && t.commit == CommitRule(t.saved, s.config) && t.ctl == Update(s.ctl, s.log, t.commit)
  {
    hide CommitRule, Update;
  }

  /** Among three, an entry that two have saved commits up to the lesser of them. */
  lemma CountCommits(s: Node, n: Addr, v: Addr)
    requires s.config != [] && Majority(s.config) == 2 && n in s.config && v in s.config && n != v && 0 <= At(s.next, v)
    requires At(s.next, v) <= At(s.saved, n)
    requires forall w :: w in s.config && w != n && w != v ==> At(s.saved, w) == -1
    ensures CountedFor(s, v).commit == At(s.next, v)
  {
    hide CommitRule, Update, Majority;
    SecondBest(s.saved[v := At(s.next, v)], s.config, n, v);
  }

  lemma FirstTask(s: Node, log: seq<Entry>)
    requires s.ctl == FRESH && s.log == log && |log| == 1
    ensures Update(s.ctl, s.log, 0) == Controler(0, 0, [Task(0, log[0].msg)])
  {
    var c := FRESH.(commit := 0);
    assert HandOne(c, log) == Controler(0, 0, [Task(0, log[0].msg)]);
    assert Advance(c, log) == Advance(HandOne(c, log), log);
  }

  lemma FirstHanded(s: Node, t: Node, task: Task)
    requires s.ctl.tasks == [] && t.ctl.tasks == [task]
    ensures Handed(t.self, t.term, task) in HandedNow(s, t)
  {
    assert t.ctl.tasks[0] == task;
  }

  // ----- the first election

  function FirstHeartbeat(a: Addr): Msg {
    AppendEntry(1, -1, -1, 1, a, [], -1)
  }

  /** Every run below begins with the election of a by b in term 1. */
  ghost predicate Opened(k: Cluster, config: Config) {
    && Running(k, config)
    && var a, b, c := config[0], config[1], config[2];
    && var s, t := k.nodes[a], k.nodes[b];
    && Is(s, Primary, 1, [], -1) && Is(t, Follower, 1, [], -1) && k.nodes[c] == NewNode(c, config)
    && s.ctl == FRESH && s.next == Constant(config, 0) && s.saved == Constant(config, -1)[a := -1]
    && At(s.curLsn, b) == 2 && At(t.folLsn, a) == 0 && At(t.folLsn, c) == -1
    && Letter(b, FirstHeartbeat(a), None) in k.net
    && (a, 1) in k.hist.wins && k.hist.late == {}
    && k.spent == {Grant(FirstRv(NewNode(a, config), 1), b)}
  }

  lemma BeginRunning(config: Config)
    requires |config| == 3
    ensures Running(Begin(config), config) && Begin(config).hist.late == {} && Begin(config).spent == {}
    ensures forall v :: v in config ==> Begin(config).nodes[v] == NewNode(v, config)
  {
  }

  lemma Opening(config: Config) returns (r: Run)
    requires |config| == 3
    ensures IsRun(r) && r.states != [] && AllHold(r) && Opened(Last(r), config)
  {
    hide IsRun, H1, H2, H3, H4, H5, Last, Elected, Begin, Running;
    var a, b := config[0], config[1];
    ThreeServers(config);
    BeginRunning(config);
    Pairs(Begin(config), a, b);
    var r0 := BeginRun(config);
    r := Elect(r0, a, b);
    OpenedBy(Begin(config), Last(r), config);
  }

  lemma OpenedBy(k0: Cluster, k: Cluster, config: Config)
    requires |config| == 3 && k0 == Begin(config) && Pair(k0, config[0], config[1])
    requires Elected(k0, k, config[0], config[1])
    ensures Opened(k, config)
  {
    hide Later, Running, Begin, AeFor;
    var a, b, c := config[0], config[1], config[2];
    ThreeServers(config);
    BeginRunning(config);
    PairRunning(k0, k, config, a, b);
    LaterNode(k0, k, {a, b}, c);
    OpenedAe(k.nodes[a], b);
    OpenedPrimary(config, a);
  }

  lemma OpenedAe(s: Node, v: Addr)
    requires s.term == 1 && s.log == [] && s.commit == -1 && At(s.next, v) == 0
    ensures AeFor(s, v, 1) == FirstHeartbeat(s.self)
  {
  }

  lemma OpenedPrimary(config: Config, a: Addr)
    requires a in config
    ensures forall v :: At(Constant(config, 0), v) == 0
  {
  }

  // ----- two primaries in one term

  /** b heard from its primary a and has, once more, a vote left in term 1. */
  ghost predicate VoteForgotten(k: Cluster, config: Config) {
    && Running(k, config)
    && var a, b, c := config[0], config[1], config[2];
    && Is(k.nodes[a], Primary, 1, [], -1) && k.nodes[c] == NewNode(c, config)
    && k.nodes[b].term == 1 && Willing(k.nodes[b], c, 1) && k.nodes[b].log == []
    && (a, 1) in k.hist.wins && (b, 1) in k.hist.late && Grant(FirstRv(k.nodes[c], 1), b) !in k.spent
  }

  lemma ForgottenBy(k0: Cluster, k: Cluster, config: Config)
    requires |config| == 3 && Opened(k0, config) && Followed(k0, k, config[1], FirstHeartbeat(config[0]))
    ensures VoteForgotten(k, config)
  {
    hide Later, Running;
    var a, b, c := config[0], config[1], config[2];
    ThreeServers(config);
    RunningConfig(k0, config);
    LaterNode(k0, k, {b}, a);
    LaterNode(k0, k, {b}, c);
    LaterParts(k0, k, {b});
    StillRunning(k0, k, config, {b});
  }

  lemma OpenedHeeds(k: Cluster, config: Config)
    requires |config| == 3 && Opened(k, config)
    ensures var m, t := FirstHeartbeat(config[0]), k.nodes[config[1]];
            && Pair(k, config[0], config[1]) && Accepts(t, Receive(m)) && t.commit == CommitAfter(t, m)
            && LogAfter(t.log, m) == t.log && Letter(config[1], m, None) in k.net
  {
    hide Running;
    ThreeServers(config);
    RunningConfig(k, config);
    Pairs(k, config[0], config[1]);
  }

  /** a and c are both primary of term 1, and the first AE of c to a is under way. */
  ghost predicate TwoPrimary(k: Cluster, config: Config) {
    && Running(k, config)
    && var a, c := config[0], config[2];
    && Is(k.nodes[a], Primary, 1, [], -1) && Is(k.nodes[c], Primary, 1, [], -1)
    && (a, 1) in k.hist.wins && (c, 1) in k.hist.wins
    && Letter(a, FirstHeartbeat(c), None) in k.net
  }

  lemma TwoPrimaryBy(k: Cluster, k': Cluster, config: Config)
    requires |config| == 3 && VoteForgotten(k, config) && Pair(k, config[2], config[1])
    requires Elected(k, k', config[2], config[1])
    ensures TwoPrimary(k', config)
  {
    hide Later, Running, Willing, AeFor;
    var a, b, c := config[0], config[1], config[2];
    ThreeServers(config);
    RunningConfig(k, config);
    PairRunning(k, k', config, c, b);
    LaterNode(k, k', {c, b}, a);
    LaterParts(k, k', {c, b});
    OpenedPrimary(config, a);
    OpenedAe(k'.nodes[c], a);
  }

  /** Election safety fails as written: an AE of the term makes a voter forget its vote. */
  lemma TwoPrimariesInOneTerm(config: Config) returns (r: Run)
    requires |config| == 3
    ensures IsRun(r) && r.states != []
    ensures (config[0], 1) in Last(r).hist.wins && (config[2], 1) in Last(r).hist.wins
    ensures TwoPrimary(Last(r), config)
    ensures AllHoldBut(r, 1)
  {
    hide IsRun, H1, H2, H3, H4, H5, Last, Followed, Elected, Opened, Running, Willing, FirstRv, Fresh, Matches;
    var a, b, c := config[0], config[1], config[2];
    ThreeServers(config);
    var r0 := Opening(config);
    OpenedHeeds(Last(r0), config);
    var r1 := Follow(r0, a, b, FirstHeartbeat(a));
    ForgottenBy(Last(r0), Last(r1), config);
    RunningConfig(Last(r1), config);
    Pairs(Last(r1), c, b);
    r := Elect(r1, c, b);
    TwoPrimaryBy(Last(r1), Last(r), config);
  }

  /** And then the throw about two primaries in one term is reached. */
  lemma SecondPrimaryThrows(config: Config) returns (r: Run)
    requires |config| == 3
    ensures IsRun(r) && r.states != []
    ensures Threw(Last(r), config[0], TwoPrimaries)
    ensures AllHoldBut(r, 1)
  {
    hide IsRun, H1, H2, H3, H4, H5;
    var a, c := config[0], config[2];
    ThreeServers(config);
    var r0 := TwoPrimariesInOneTerm(config);
    var s := Last(r0).nodes[a];
    r := Extend(r0, Deliver(Letter(a, FirstHeartbeat(c), None)), Fail(s, TwoPrimaries));
  }

  // ----- commands away from the primary

  /** Log Matching fails once two servers that are not primary append commands in one term. */
  lemma LogsDiverge(config: Config, x: string, y: string) returns (r: Run)
    requires |config| == 3
    ensures IsRun(r) && r.states != []
    ensures var k := Last(r);
            && config[0] in k.nodes && config[1] in k.nodes
            && k.nodes[config[0]].log == [Entry(0, 0, x)] && k.nodes[config[1]].log == [Entry(0, 0, y)]
    ensures AllHoldBut(r, 2)
  {
    hide IsRun, H1, H2, H3, H4, H5, Last, Later, Running, Begin;
    ThreeServers(config);
    BeginRunning(config);
    RunningConfig(Begin(config), config);
    var a, b := config[0], config[1];
    var r0 := BeginRun(config);
    var r1 := Issue(r0, a, x);
    LaterNode(Last(r0), Last(r1), {a}, b);
    LaterParts(Last(r0), Last(r1), {a});
    r := Issue(r1, b, y);
    LaterNode(Last(r1), Last(r), {b}, a);
  }

  // ----- the two missing guards

  /** The command of a is committed and applied in term 1; c has heard nothing. */
  ghost predicate Committed(k: Cluster, config: Config, cmd: string) {
    && Running(k, config)
    && var a, b, c := config[0], config[1], config[2];
    && Is(k.nodes[a], Primary, 1, [Entry(1, 0, cmd)], 0) && Is(k.nodes[b], Follower, 1, [Entry(1, 0, cmd)], -1)
    && k.nodes[c] == NewNode(c, config)
    && k.hist.late == {(b, 1)} && k.spent == {Grant(FirstRv(NewNode(a, config), 1), b)}
    && Handed(a, 1, Task(0, cmd)) in k.hist.handed
  }

  /** n has just been elected on an empty log; v will take its first entry, whatever its own log. */
  ghost predicate Ready(k: Cluster, n: Addr, v: Addr) {
    && Pair(k, n, v)
    && var s, y := k.nodes[n], k.nodes[v];
    && s.role == Primary && s.log == [] && s.ctl == FRESH && s.commit == -1 && y.commit == -1
    && s.next == Constant(k.config, 0) && s.saved == Constant(k.config, -1)[n := -1] && 0 <= At(s.curLsn, v)
    && (y.term < s.term || (y.term == s.term && y.role == Follower && At(y.folLsn, n) < At(s.curLsn, v)))
  }

  ghost predicate Replicated(k: Cluster, k': Cluster, n: Addr, v: Addr, cmd: string)
    requires Pair(k, n, v)
  {
    && Later(k, k', {n, v}) && Pair(k', n, v) && k'.spent == k.spent
    && var s, y, e := k.nodes[n], k.nodes[v], Entry(k.nodes[n].term, 0, cmd);
    && Is(k'.nodes[n], Primary, s.term, [e], 0) && Is(k'.nodes[v], Follower, s.term, [e], -1)
    && k'.hist.late == k.hist.late + (if y.term == s.term then {(v, s.term)} else {})
    && Handed(n, s.term, Task(0, cmd)) in k'.hist.handed
  }

  function FirstEntryAe(s: Node, v: Addr, e: Entry): Msg {
    AppendEntry(s.term, -1, -1, At(s.curLsn, v), s.self, [e], -1)
  }

  /** The command is in the log of n and on its way to v. */
  ghost predicate Offered1(k0: Cluster, k: Cluster, n: Addr, v: Addr, e: Entry)
    requires Pair(k0, n, v)
  {
    && Later(k0, k, {n}) && Pair(k, n, v) && k.hist.late == k0.hist.late && k.spent == k0.spent
    && var s, t := k0.nodes[n], k.nodes[n];
    && t == TakeLsn(s, v).(log := [e], saved := s.saved[n := 0]) && k.nodes[v] == k0.nodes[v]
    && Letter(v, FirstEntryAe(s, v, e), None) in k.net
  }

  lemma Offer(r: Run, n: Addr, v: Addr, cmd: string) returns (r': Run)
    requires IsRun(r) && r.states != [] && Ready(Last(r), n, v)
    ensures IsRun(r') && r'.states != [] && AddsNothing(r, r')
    ensures Offered1(Last(r), Last(r'), n, v, Entry(Last(r).nodes[n].term, 0, cmd))
  {
    hide IsRun, H1, H2, H3, H4, H5, Last, Constant, Heard, Later, AeFor;
    var k, s := Last(r), Last(r).nodes[n];
    ReadyNext(k, n, v);
    var r1 := Issue(r, n, cmd);
    LaterNode(k, Last(r1), {n}, v);
    LaterParts(k, Last(r1), {n});
    r' := Resend(r1, n, v);
    LaterNode(Last(r1), Last(r'), {n}, v);
    LaterParts(Last(r1), Last(r'), {n});
    LaterTwice(k, Last(r1), Last(r'), {n}, {n});
    assert {n} + {n} == {n};
    OfferedAe(Last(r1).nodes[n], v, Entry(s.term, 0, cmd));
  }

  lemma ReadyNext(k: Cluster, n: Addr, v: Addr)
    requires Ready(k, n, v)
    ensures At(k.nodes[n].next, v) == 0 && k.nodes[n].self == n
  {
  }

  lemma OfferedAe(s: Node, v: Addr, e: Entry)
    requires s.log == [e] && s.commit == -1 && At(s.next, v) == 0
    ensures AeFor(s, v, At(s.curLsn, v)) == FirstEntryAe(s, v, e)
  {
  }

  /** Four events commit the first command of n with the help of v. */
  lemma Replicate(r: Run, n: Addr, v: Addr, cmd: string) returns (r': Run)
    requires IsRun(r) && r.states != [] && Ready(Last(r), n, v)
    ensures IsRun(r') && r'.states != [] && AddsNothing(r, r') && Replicated(Last(r), Last(r'), n, v, cmd)
  {
    hide IsRun, H1, H2, H3, H4, H5, Last, Later, Ready, Offered1, Settled, Pair, Heeds, Matches, CountsOwn;
    var k := Last(r);
    ReadyPair(k, n, v);
    var e := Entry(k.nodes[n].term, 0, cmd);
    var m := FirstEntryAe(k.nodes[n], v, e);
    var r1 := Offer(r, n, v, cmd);
    OfferTaken(k, Last(r1), n, v, e);
    r' := Settle(r1, n, v, m);
    OfferSettled(k, Last(r1), Last(r'), n, v, cmd);
  }

  lemma ReadyPair(k: Cluster, n: Addr, v: Addr)
    requires Ready(k, n, v)
    ensures Pair(k, n, v) && n in k.nodes && k.nodes[n].self == n
  {
  }

  lemma OfferTaken(k0: Cluster, k: Cluster, n: Addr, v: Addr, e: Entry)
    requires Ready(k0, n, v) && Offered1(k0, k, n, v, e) && e.term == k0.nodes[n].term && e.index == 0
    ensures Pair(k, n, v)
    ensures var m, s, y := FirstEntryAe(k0.nodes[n], v, e), k.nodes[n], k.nodes[v];
            && Letter(v, m, None) in k.net && m.from == n && Accepts(y, Receive(m)) && y.commit <= CommitAfter(y, m)
            && s.role == Primary && m.term == s.term && At(s.curLsn, v) == m.lsn + 1 && At(s.next, v) < |s.log|
            && CountsOwn(s, v)
            && CountedFor(s, v).commit == 0 && CountedFor(s, v).ctl == Controler(0, 0, [Task(0, e.msg)])
            && LogAfter(y.log, m) == [e] && CommitAfter(y, m) == -1
  {
    hide Later, Majority, CommitRule, Update;
    var m, s, y := FirstEntryAe(k0.nodes[n], v, e), k.nodes[n], k.nodes[v];
    CountCommits(s, n, v);
    FirstTask(s, [e]);
    assert y.log[..0] + [e] == [e];
  }

  lemma OfferSettled(k0: Cluster, k: Cluster, k': Cluster, n: Addr, v: Addr, cmd: string)
    requires Ready(k0, n, v) && Offered1(k0, k, n, v, Entry(k0.nodes[n].term, 0, cmd))
    requires Pair(k, n, v) && Settled(k, k', n, v, FirstEntryAe(k0.nodes[n], v, Entry(k0.nodes[n].term, 0, cmd)))
    ensures Pair(k0, n, v) && Replicated(k0, k', n, v, cmd)
  {
    hide Later, CommitRule, Update, CommitAfter, LogAfter, HandedNow, CountedFor, Accepts, CountsOwn;
    var e := Entry(k0.nodes[n].term, 0, cmd);
    OfferTaken(k0, k, n, v, e);
    CountedKeeps(k.nodes[n], v);
    LaterTwice(k0, k, k', {n}, {n, v});
    assert {n} + {n, v} == {n, v};
    FirstHanded(k.nodes[n], k'.nodes[n], Task(0, cmd));
  }

  lemma OpenedReady(k: Cluster, config: Config)
    requires |config| == 3 && Opened(k, config)
    ensures Ready(k, config[0], config[1])
  {
    hide Running;
    ThreeServers(config);
    RunningConfig(k, config);
    Pairs(k, config[0], config[1]);
  }

  lemma CommittedBy(k0: Cluster, k: Cluster, config: Config, cmd: string)
    requires |config| == 3 && Opened(k0, config) && Ready(k0, config[0], config[1])
    requires Replicated(k0, k, config[0], config[1], cmd)
    ensures Committed(k, config, cmd)
  {
    hide Later, Running;
    var a, b, c := config[0], config[1], config[2];
    ThreeServers(config);
    RunningConfig(k0, config);
    PairRunning(k0, k, config, a, b);
    LaterNode(k0, k, {a, b}, c);
  }

  /** All five hypotheses can hold while an entry is committed and applied. */
  lemma Commit(config: Config, cmd: string) returns (r: Run)
    requires |config| == 3
    ensures IsRun(r) && r.states != [] && AllHold(r) && Committed(Last(r), config, cmd)
  {
    hide IsRun, H1, H2, H3, H4, H5, Last, Opened, Ready, Replicated, Committed;
    var r0 := Opening(config);
    OpenedReady(Last(r0), config);
    ReadyPair(Last(r0), config[0], config[1]);
    r := Replicate(r0, config[0], config[1], cmd);
    CommittedBy(Last(r0), Last(r), config, cmd);
  }

  /** c is primary of term 2 on an empty log, elected by a although a had committed its entry in term 1. */
  ghost predicate Overruled(k: Cluster, config: Config, cmd: string) {
    && Running(k, config)
    && var a, b, c := config[0], config[1], config[2];
    && Is(k.nodes[a], Follower, 2, [Entry(1, 0, cmd)], 0) && Is(k.nodes[b], Follower, 1, [Entry(1, 0, cmd)], -1)
    && Is(k.nodes[c], Primary, 2, [], -1) && Ready(k, c, b)
    && Handed(a, 1, Task(0, cmd)) in k.hist.handed
  }

  /** c stands in term 1, where nobody votes for it, but a would in term 2. */
  ghost predicate Contested(k: Cluster, config: Config, cmd: string) {
    && Running(k, config)
    && var a, b, c := config[0], config[1], config[2];
    && var p := k.nodes[c];
    && Is(k.nodes[a], Primary, 1, [Entry(1, 0, cmd)], 0) && Is(k.nodes[b], Follower, 1, [Entry(1, 0, cmd)], -1)
    && Is(p, Candidate, 1, [], -1) && p.ctl == FRESH
    && (a, 2) !in k.hist.late && Handed(a, 1, Task(0, cmd)) in k.hist.handed
    && Willing(k.nodes[a], c, 2) && Grant(FirstRv(p, 2), a) !in k.spent
  }

  lemma CommittedServers(k: Cluster, config: Config, cmd: string)
    requires |config| == 3 && Committed(k, config, cmd)
    ensures var s := k.nodes[config[2]];
            config[2] in k.nodes && s.self == config[2] && s.config == config && Idle(s) && s.role != Primary
    ensures k.config == config
  {
    hide Running;
    ThreeServers(config);
    RunningConfig(k, config);
  }

  lemma ContestedBy(k0: Cluster, k: Cluster, config: Config, cmd: string)
    requires |config| == 3 && Committed(k0, config, cmd) && Standing(k0, k, config[2])
    ensures Contested(k, config, cmd)
  {
    hide Later, Running;
    var a, b, c := config[0], config[1], config[2];
    ThreeServers(config);
    RunningConfig(k0, config);
    LaterNode(k0, k, {c}, a);
    LaterNode(k0, k, {c}, b);
    LaterParts(k0, k, {c});
    StillRunning(k0, k, config, {c});
  }

  lemma OverruledBy(k0: Cluster, k: Cluster, config: Config, cmd: string)
    requires |config| == 3 && Contested(k0, config, cmd) && Pair(k0, config[2], config[0])
    requires Elected(k0, k, config[2], config[0])
    ensures Overruled(k, config, cmd)
  {
    hide Later, Running, Willing, AeFor;
    var a, b, c := config[0], config[1], config[2];
    ThreeServers(config);
    RunningConfig(k0, config);
    PairRunning(k0, k, config, c, a);
    LaterNode(k0, k, {c, a}, b);
    LaterParts(k0, k, {c, a});
    RunningConfig(k, config);
    Pairs(k, c, b);
  }

  /** Leader Completeness fails without the election restriction: H4 is the only hypothesis this run breaks, and
      a later primary lacks a committed and applied entry. */
  lemma CommittedEntryMissing(config: Config, cmd: string) returns (r: Run)
    requires |config| == 3
    ensures IsRun(r) && r.states != []
    ensures Overruled(Last(r), config, cmd)
    ensures AllHoldBut(r, 4)
  {
    hide IsRun, H1, H2, H3, H4, H5, Last, Committed, Overruled, Standing, Elected, Running, Willing, FirstRv;
    var a, c := config[0], config[2];
    ThreeServers(config);
    var r0 := Commit(config, cmd);
    CommittedServers(Last(r0), config, cmd);
    var r1 := Stand(r0, c);
    ContestedBy(Last(r0), Last(r1), config, cmd);
    RunningConfig(Last(r1), config);
    Pairs(Last(r1), c, a);
    r := Elect(r1, c, a);
    OverruledBy(Last(r1), Last(r), config, cmd);
  }

  /** State Machine Safety fails without it too: two servers apply different commands at one index. */
  lemma DifferentCommandsApplied(config: Config, x: string, y: string) returns (r: Run)
    requires |config| == 3
    ensures IsRun(r) && r.states != []
    ensures Applied(Last(r), config[0], 1, x) && Applied(Last(r), config[2], 2, y)
    ensures AllHoldBut(r, 4)
  {
    hide IsRun, H1, H2, H3, H4, H5, Last, Overruled, Ready, Replicated;
    var r0 := CommittedEntryMissing(config, x);
    OverruledReady(Last(r0), config, x);
    ReadyPair(Last(r0), config[2], config[1]);
    r := Replicate(r0, config[2], config[1], y);
    ReplicatedHands(Last(r0), Last(r), config[2], config[1], y);
  }

  lemma OverruledReady(k: Cluster, config: Config, cmd: string)
    requires |config| == 3 && Overruled(k, config, cmd)
    ensures Ready(k, config[2], config[1]) && k.nodes[config[2]].term == 2
    ensures Handed(config[0], 1, Task(0, cmd)) in k.hist.handed
  {
  }

  lemma ReplicatedHands(k: Cluster, k': Cluster, n: Addr, v: Addr, cmd: string)
    requires Pair(k, n, v) && Replicated(k, k', n, v, cmd)
    ensures k.hist.handed <= k'.hist.handed && Handed(n, k.nodes[n].term, Task(0, cmd)) in k'.hist.handed
  {
  }

  // ----- a falling commit index

  /** b, up to date but not told of the commit, is primary of term 2, and its first AE to a is under way. */
  ghost predicate Untold(k: Cluster, config: Config, cmd: string) {
    && Running(k, config)
    && var a, b := config[0], config[1];
    && Is(k.nodes[a], Follower, 2, [Entry(1, 0, cmd)], 0) && At(k.nodes[a].folLsn, b) == 0
    && Letter(a, AppendEntry(2, 1, -1, 1, b, [], 0), None) in k.net
  }

  lemma UntoldBy(k0: Cluster, k: Cluster, config: Config, cmd: string)
    requires |config| == 3 && Committed(k0, config, cmd) && Pair(k0, config[1], config[0])
    requires Elected(k0, k, config[1], config[0])
    ensures Untold(k, config, cmd)
  {
    hide Later, Running, AeFor, Pair, Majority, Idle, Keep, FirstRv, Grant, Constant;
    var a, b := config[0], config[1];
    ThreeServers(config);
    RunningConfig(k0, config);
    PairRunning(k0, k, config, b, a);
    RunningConfig(k, config);
    UntoldAe(k.nodes[b], a, Entry(1, 0, cmd));
  }

  lemma UntoldAe(s: Node, v: Addr, e: Entry)
    requires s.log == [e] && s.commit == -1 && v in s.config && s.next == Constant(s.config, 1)
    ensures AeFor(s, v, 1) == AppendEntry(s.term, e.term, -1, 1, s.self, [], 0)
  {
  }

  lemma CommittedElects(k: Cluster, config: Config, cmd: string)
    requires |config| == 3 && Committed(k, config, cmd)
    ensures var a, b := config[0], config[1];
            && Pair(k, b, a) && k.nodes[b].role != Primary && k.nodes[b].term == 1 && Willing(k.nodes[a], b, 2)
            && k.nodes[a].log == k.nodes[b].log && (a, 2) !in k.hist.late
            && Grant(FirstRv(k.nodes[b], 2), a) !in k.spent
  {
    hide Running;
    ThreeServers(config);
    RunningConfig(k, config);
    Pairs(k, config[1], config[0]);
  }

  /** The throw about a falling commit index is reached even under all five hypotheses. */
  lemma CommitIndexThrows(config: Config) returns (r: Run)
    requires |config| == 3
    ensures IsRun(r) && r.states != []
    ensures Threw(Last(r), config[0], CommitDecreased)
    ensures AllHold(r)
  {
    hide IsRun, H1, H2, H3, H4, H5, Committed, Elected, Untold, Handle, Last, Willing, FirstRv;
    var a, b := config[0], config[1];
    var r0 := Commit(config, "x");
    CommittedElects(Last(r0), config, "x");
    var r1 := Elect(r0, b, a);
    UntoldBy(Last(r0), Last(r1), config, "x");
    r := ThrowAt(r1, config, "x");
  }

  lemma ThrowAt(r: Run, config: Config, cmd: string) returns (r': Run)
    requires IsRun(r) && r.states != [] && |config| == 3 && Untold(Last(r), config, cmd)
    ensures IsRun(r') && r'.states != [] && AddsNothing(r, r')
    ensures Threw(Last(r'), config[0], CommitDecreased)
  {
    hide IsRun, H1, H2, H3, H4, H5, Handle, NodeInv, Running;
    var k, a, m := Last(r), config[0], AppendEntry(2, 1, -1, 1, config[1], [], 0);
    ThreeServers(config);
    RunningConfig(k, config);
    var ev := Deliver(Letter(a, m, None));
    Arrives(r, ev);
    ThrowStep(k.nodes[a], m);
    r' := Extend(r, ev, Handle(k.nodes[a], Receive(m)));
  }

  // ----- a refusal that answers an older term

  /** Primary a still is in term 1, while b has stood up to term x and c up to term y; the first AE to b is still
      under way, or b has already refused it in term x. */
  ghost predicate Overtaken(k: Cluster, config: Config, x: int, y: int, refused: bool) {
    && Running(k, config)
    && var a, b, c := config[0], config[1], config[2];
    && var s, t, u := k.nodes[a], k.nodes[b], k.nodes[c];
    && s.role == Primary && s.term == 1 && s.log == t.log == u.log == []
    && t.role != Primary && t.term == x && u.role != Primary && u.term == y
    && Letter(b, FirstHeartbeat(a), None) in k.net
    && (x > 1 ==> Letter(a, RequestVote(x, -1, 0, 0, b), None) in k.net && Empty(k, (b, x)))
    && (y > 0 ==> Letter(a, RequestVote(y, -1, 0, 0, c), None) in k.net && Empty(k, (c, y)))
    && k.hist.late == {} && k.spent == {Grant(FirstRv(NewNode(a, config), 1), b)}
    && (refused ==> Letter(a, RespAppend(false, x, 1, b, true), Some(FirstHeartbeat(a))) in k.net)
  }

  ghost predicate Empty(k: Cluster, key: (Addr, int)) {
    key in k.hist.stood && k.hist.stood[key] == []
  }

  lemma OvertakenFirst(k: Cluster, config: Config)
    requires |config| == 3 && Opened(k, config)
    ensures Overtaken(k, config, 1, 0, false)
  {
    hide Running;
  }

  lemma OvertakenStands(k: Cluster, config: Config, x: int, y: int, refused: bool, n: Addr)
    requires |config| == 3 && Overtaken(k, config, x, y, refused) && n in {config[1], config[2]}
    ensures n in k.config && n in k.nodes && k.config == config
    ensures var s := k.nodes[n]; s.self == n && s.config == config && Idle(s) && s.role != Primary
  {
    hide Running;
    ThreeServers(config);
    RunningConfig(k, config);
  }

  lemma BStands(k: Cluster, k': Cluster, config: Config, x: int, y: int)
    requires |config| == 3 && x >= 1 && Overtaken(k, config, x, y, false) && Standing(k, k', config[1])
    ensures Overtaken(k', config, x + 1, y, false)
  {
    hide Later, Running;
    var a, b, c := config[0], config[1], config[2];
    ThreeServers(config);
    RunningConfig(k, config);
    LaterNode(k, k', {b}, a);
    LaterNode(k, k', {b}, c);
    LaterParts(k, k', {b});
    StillRunning(k, k', config, {b});
  }

  lemma CStands(k: Cluster, k': Cluster, config: Config, x: int, y: int)
    requires |config| == 3 && y >= 0 && Overtaken(k, config, x, y, true) && Standing(k, k', config[2])
    ensures Overtaken(k', config, x, y + 1, true)
  {
    hide Later, Running;
    var a, b, c := config[0], config[1], config[2];
    ThreeServers(config);
    RunningConfig(k, config);
    LaterNode(k, k', {c}, a);
    LaterNode(k, k', {c}, b);
    LaterParts(k, k', {c});
    StillRunning(k, k', config, {c});
  }

  /** b climbs to term x before it sees the first AE of a, and refuses it there. */
  lemma RefuseIn(config: Config, x: int) returns (r: Run)
    requires |config| == 3 && x >= 2
    ensures IsRun(r) && r.states != [] && AllHold(r) && Overtaken(Last(r), config, x, 0, true)
  {
    hide IsRun, H1, H2, H3, H4, H5, Last, Running, Later;
    var a, b, c := config[0], config[1], config[2];
    ThreeServers(config);
    var r0 := Climb(config, x);
    RunningConfig(Last(r0), config);
    Pairs(Last(r0), a, b);
    r := Refuse(r0, a, b, FirstHeartbeat(a));
    var k, k' := Last(r0), Last(r);
    LaterNode(k, k', {b}, a);
    LaterNode(k, k', {b}, c);
    LaterParts(k, k', {b});
    StillRunning(k, k', config, {b});
  }

  lemma {:induction false} Climb(config: Config, x: int) returns (r: Run)
    requires |config| == 3 && x >= 1
    ensures IsRun(r) && r.states != [] && AllHold(r) && Overtaken(Last(r), config, x, 0, false)
    decreases x
  {
    hide IsRun, H1, H2, H3, H4, H5, Last, Opened, Standing, Overtaken;
    if x == 1 {
      r := Opening(config);
      OvertakenFirst(Last(r), config);
    } else {
      var r0 := Climb(config, x - 1);
      OvertakenStands(Last(r0), config, x - 1, 0, false, config[1]);
      r := Stand(r0, config[1]);
      BStands(Last(r0), Last(r), config, x - 1, 0);
    }
  }

  /** a gives its vote, deservedly, to a server that stood on an empty log. */
  lemma AVotes(k: Cluster, config: Config, x: int, y: int, n: Addr, term: int)
    requires |config| == 3 && Overtaken(k, config, x, y, true)
    requires (n == config[1] && term == x > 1) || (n == config[2] && term == y > 1)
    ensures Pair(k, n, config[0]) && Willing(k.nodes[config[0]], n, term) && Deserved(k, n, config[0], term)
    ensures Letter(config[0], RequestVote(term, -1, 0, 0, n), None) in k.net && (config[0], term) !in k.hist.late
  {
    hide Running;
    ThreeServers(config);
    RunningConfig(k, config);
    Pairs(k, n, config[0]);
  }

  /** The author's "one term has two primaries" throw at a resp_ae is reached without two primaries: the refusal
      of an old AE carries the newer term in which a has stepped down meanwhile. */
  lemma RefusalMeetsNonPrimary(config: Config) returns (r: Run)
    requires |config| == 3
    ensures IsRun(r) && r.states != []
    ensures Threw(Last(r), config[0], RespToNonPrimary)
    ensures AllHoldBut(r, 3)
  {
    hide IsRun, H1, H2, H3, H4, H5, Later, Heard, Last, Overtaken, Deserved, Willing;
    var a, b := config[0], config[1];
    var r0 := RefuseIn(config, 2);
    AVotes(Last(r0), config, 2, 0, b, 2);
    var rv := RequestVote(2, -1, 0, 0, b);
    var r1 := Vote(r0, b, a, rv);
    NowFollower(Last(r0), Last(r1), config, rv);
    r := AnswerThrows(r1, config);
  }

  /** The old refusal is still under way to a, by now a follower in its term. */
  ghost predicate Surprised(k: Cluster, config: Config) {
    && Running(k, config)
    && var a, b := config[0], config[1];
    && k.nodes[a].role == Follower && k.nodes[a].term == 2
    && Letter(a, RespAppend(false, 2, 1, b, true), Some(FirstHeartbeat(a))) in k.net
  }

  lemma NowFollower(k: Cluster, k': Cluster, config: Config, rv: Msg)
    requires |config| == 3 && Overtaken(k, config, 2, 0, true) && rv == RequestVote(2, -1, 0, 0, config[1])
    requires Voted(k, k', config[0], rv)
    ensures Surprised(k', config)
  {
    hide Later, Heard, Running;
    ThreeServers(config);
    RunningConfig(k, config);
    LaterParts(k, k', {config[0]});
    StillRunning(k, k', config, {config[0]});
  }

  lemma AnswerThrows(r: Run, config: Config) returns (r': Run)
    requires IsRun(r) && r.states != [] && |config| == 3 && Surprised(Last(r), config)
    ensures IsRun(r') && r'.states != [] && Adds(r, r', true, true, false, true, true)
    ensures Threw(Last(r'), config[0], RespToNonPrimary)
  {
    hide IsRun, H1, H2, H3, H4, H5;
    var a := config[0];
    ThreeServers(config);
    var ev := Deliver(Letter(a, RespAppend(false, 2, 1, config[1], true), Some(FirstHeartbeat(a))));
    r' := Extend(r, ev, Fail(Last(r).nodes[a], RespToNonPrimary));
  }

  /** The "impossible" refusal of an AE for index 0 is reached as well: b refuses the first AE of a in term 3,
      and a, back as primary of term 3, takes the refusal for an answer to its second request there. */
  lemma RefusalAtIndexZero(config: Config) returns (r: Run)
    requires |config| == 3
    ensures IsRun(r) && r.states != []
    ensures Threw(Last(r), config[0], RefusedAtZero)
    ensures AllHoldBut(r, 3)
  {
    hide IsRun, H1, H2, H3, H4, H5, Last, Elected, Overtaken, Standing, Voted, Deserved, Willing, Waiting, Misled;
    var a, c := config[0], config[2];
    var r0 := RefuseIn(config, 3);
    OvertakenStands(Last(r0), config, 3, 0, true, c);
    var r1 := Stand(r0, c);
    CStands(Last(r0), Last(r1), config, 3, 0);
    OvertakenStands(Last(r1), config, 3, 1, true, c);
    var r2 := Stand(r1, c);
    CStands(Last(r1), Last(r2), config, 3, 1);
    AVotes(Last(r2), config, 3, 2, c, 2);
    var r3 := Vote(r2, c, a, RequestVote(2, -1, 0, 0, c));
    SteppedDown(Last(r2), Last(r3), config);
    WaitingElects(Last(r3), config);
    var r4 := Elect(r3, a, c);
    BackAgain(Last(r3), Last(r4), config);
    r := ZeroRefused(r4, config);
  }

  ghost predicate Waiting(k: Cluster, config: Config) {
    && Running(k, config)
    && var a, b, c := config[0], config[1], config[2];
    && var s, u := k.nodes[a], k.nodes[c];
    && s.role == Follower && s.term == 2 && s.log == u.log == [] && u.term == 2
    && k.hist.late == {} && k.spent == {Grant(FirstRv(NewNode(a, config), 1), b)}
    && Letter(a, RespAppend(false, 3, 1, b, true), Some(FirstHeartbeat(a))) in k.net
  }

  lemma SteppedDown(k: Cluster, k': Cluster, config: Config)
    requires |config| == 3 && Overtaken(k, config, 3, 2, true)
    requires Voted(k, k', config[0], RequestVote(2, -1, 0, 0, config[2]))
    ensures Waiting(k', config)
  {
    hide Later, Heard, Running;
    var a, c := config[0], config[2];
    ThreeServers(config);
    RunningConfig(k, config);
    LaterNode(k, k', {a}, c);
    LaterParts(k, k', {a});
    StillRunning(k, k', config, {a});
  }

  lemma WaitingElects(k: Cluster, config: Config)
    requires |config| == 3 && Waiting(k, config)
    ensures var a, c := config[0], config[2];
            && Pair(k, a, c) && k.nodes[a].role != Primary && k.nodes[a].term == 2 && Willing(k.nodes[c], a, 3)
            && k.nodes[c].log == k.nodes[a].log && (c, 3) !in k.hist.late
            && Grant(FirstRv(k.nodes[a], 3), c) !in k.spent
  {
    hide Running;
    ThreeServers(config);
    RunningConfig(k, config);
    Pairs(k, config[0], config[2]);
  }

  /** a is primary again and its two requests to b in term 3 have used the lsns 0 and 1. */
  ghost predicate Misled(k: Cluster, config: Config) {
    && Running(k, config)
    && var a, b := config[0], config[1];
    && var s := k.nodes[a];
    && s.role == Primary && s.term == 3 && At(s.next, b) == 0 && At(s.curLsn, b) == 2
    && Letter(a, RespAppend(false, 3, 1, b, true), Some(FirstHeartbeat(a))) in k.net
  }

  lemma BackAgain(k: Cluster, k': Cluster, config: Config)
    requires |config| == 3 && Waiting(k, config) && Pair(k, config[0], config[2])
    requires Elected(k, k', config[0], config[2])
    ensures Misled(k', config)
  {
    hide Later, Running, AeFor;
    ThreeServers(config);
    RunningConfig(k, config);
    PairRunning(k, k', config, config[0], config[2]);
    LaterParts(k, k', {config[0], config[2]});
  }

  lemma ZeroRefused(r: Run, config: Config) returns (r': Run)
    requires IsRun(r) && r.states != [] && |config| == 3 && Misled(Last(r), config)
    ensures IsRun(r') && r'.states != [] && Adds(r, r', true, true, false, true, true)
    ensures Threw(Last(r'), config[0], RefusedAtZero)
  {
    hide IsRun, H1, H2, H3, H4, H5;
    var a := config[0];
    ThreeServers(config);
    var ev := Deliver(Letter(a, RespAppend(false, 3, 1, config[1], true), Some(FirstHeartbeat(a))));
    r' := Extend(r, ev, Fail(Last(r).nodes[a], RefusedAtZero));
  }
}
