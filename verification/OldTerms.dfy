/** A run that breaks only H5: a primary commits an entry of an older term by counting servers, and the entry is
    overwritten. */
module OldTerms {
  import opened RaftTypes
  import opened OrderStatistic
  import opened ApplyControl
  import opened NodeSpec
  import opened NodeSteps
  import opened Cluster
  import opened Election
  import opened Logs
  import opened Retention
  import opened Completeness
  import opened Scripts
  import opened Witness

  // ----- a primary steps back

  /** n may act on the refusal of its AE m by v. */
  ghost predicate CanRetreat(k: Cluster, n: Addr, v: Addr, m: Msg)
    requires Pair(k, n, v)
  {
    && m.AppendEntry? && m.from == n && 0 <= m.prelogIndex && |m.entries| <= 1 && 0 <= m.lsn
    && var s := k.nodes[n];
    && s.role == Primary && m.term == s.term && At(s.curLsn, v) == m.lsn + 1
    && 0 < At(s.next, v) <= |s.log| + 1
  }

  ghost predicate Retreated(k: Cluster, k': Cluster, n: Addr, v: Addr, m: Msg)
    requires Pair(k, n, v)
  {
    && m.AppendEntry? && Later(k, k', {n, v}) && Pair(k', n, v)
    && var s, t, y, z := k.nodes[n], k'.nodes[n], k.nodes[v], k'.nodes[v];
    && t == s.(next := s.next[v := At(s.next, v) - 1], curLsn := t.curLsn)
    && At(t.curLsn, v) == At(s.curLsn, v) + 1
    && Letter(v, AeFor(t, v, At(s.curLsn, v)), None) in k'.net
    && z == y.(term := m.term, role := Follower, voted := false, votes := 0, curLsn := z.curLsn, folLsn := z.folLsn)
    && At(z.folLsn, n) == m.lsn
    && k'.hist.late == k.hist.late + (if y.term == m.term then {(v, m.term)} else {}) && k'.spent == k.spent
  }

  /** v refuses the AE m and n steps back. */
  lemma Retreat(r: Run, n: Addr, v: Addr, m: Msg) returns (r': Run)
    requires IsRun(r) && r.states != [] && Pair(Last(r), n, v) && CanRetreat(Last(r), n, v, m)
    requires Letter(v, m, None) in Last(r).net && Heeds(Last(r).nodes[v], Receive(m)) && !Matches(Last(r).nodes[v].log, m)
    ensures IsRun(r') && r'.states != [] && AddsNothing(r, r') && Retreated(Last(r), Last(r'), n, v, m)
  {
    hide IsRun, H1, H2, H3, H4, H5, Last, Later, Heeds, Matches, AeFor, Heard;
    var r1 := Decline(r, n, v, m);
    LaterNode(Last(r), Last(r1), {v}, n);
    LaterParts(Last(r), Last(r1), {v});
    HeardAt(Last(r).nodes[v], Last(r1).nodes[v], n, m.term, m.lsn);
    r' := StepBack(r1, n, v, m);
    LaterNode(Last(r1), Last(r'), {n}, v);
    LaterParts(Last(r1), Last(r'), {n});
    LaterTwice(Last(r), Last(r1), Last(r'), {v}, {n});
    assert {v} + {n} == {n, v};
  }

  // ----- a new primary pushes its old entry over what its voter has

  function Probe(n: Addr, term: int, e: Entry): Msg {
    AppendEntry(term, e.term, -1, 1, n, [], 0)
  }

  function Push(n: Addr, term: int, e: Entry): Msg {
    AppendEntry(term, -1, -1, 2, n, [e], -1)
  }

  /** n was elected by v with the one entry e, which v lacks. */
  ghost predicate Poised(k: Cluster, n: Addr, v: Addr, e: Entry) {
    && Pair(k, n, v)
    && var s, y := k.nodes[n], k.nodes[v];
    && Is(s, Primary, s.term, [e], -1) && e.index == 0 && s.ctl == FRESH && At(s.curLsn, v) == 2
    && s.next == Constant(k.config, 1) && s.saved == Constant(k.config, -1)[n := 0]
    && Is(y, Follower, s.term, y.log, -1) && (y.log == [] || y.log[0].term != e.term) && At(y.folLsn, n) == 0
    && Letter(v, Probe(n, s.term, e), None) in k.net
  }

  /** v now has e, and n has committed it. */
  ghost predicate Pushed(k: Cluster, k': Cluster, n: Addr, v: Addr, e: Entry)
    requires Pair(k, n, v)
  {
    && Later(k, k', {n, v}) && Pair(k', n, v) && k'.spent == k.spent
    && var term := k.nodes[n].term;
    && Is(k'.nodes[n], Primary, term, [e], 0) && Is(k'.nodes[v], Follower, term, [e], -1)
    && k'.hist.late == k.hist.late + {(v, term)}
    && Handed(n, term, Task(0, e.msg)) in k'.hist.handed
  }

  lemma PoisedHeeds(k: Cluster, n: Addr, v: Addr, e: Entry)
    requires Poised(k, n, v, e)
    ensures Pair(k, n, v)
    ensures var m, y := Probe(n, k.nodes[n].term, e), k.nodes[v];
            Heeds(y, Receive(m)) && !Matches(y.log, m) && Letter(v, m, None) in k.net && CanRetreat(k, n, v, m)
  {
  }

  /** v has refused the probe, and n has stepped back to the start of its log. */
  ghost predicate Aimed(k0: Cluster, k: Cluster, n: Addr, v: Addr, e: Entry)
    requires Pair(k0, n, v)
  {
    && Later(k0, k, {n, v}) && Pair(k, n, v) && k.spent == k0.spent
    && var s0, s, y := k0.nodes[n], k.nodes[n], k.nodes[v];
    && Is(s, Primary, s0.term, [e], -1) && s.ctl == FRESH && At(s.curLsn, v) == 3 && At(s.next, v) == 0
    && s.saved == Constant(k0.config, -1)[n := 0] && s.config == k0.config
    && Is(y, Follower, s0.term, k0.nodes[v].log, -1) && At(y.folLsn, n) == 1
    && Letter(v, Push(n, s0.term, e), None) in k.net
    && k.hist.late == k0.hist.late + {(v, s0.term)}
  }

  lemma Aim(r: Run, n: Addr, v: Addr, e: Entry) returns (r': Run)
    requires IsRun(r) && r.states != [] && Poised(Last(r), n, v, e)
    ensures IsRun(r') && r'.states != [] && AddsNothing(r, r')
    ensures Pair(Last(r), n, v) && Aimed(Last(r), Last(r'), n, v, e)
  {
    hide IsRun, H1, H2, H3, H4, H5, Last, Later, Poised, Pair, Retreated, Heeds, Matches;
    PoisedHeeds(Last(r), n, v, e);
    r' := Retreat(r, n, v, Probe(n, Last(r).nodes[n].term, e));
    AimedBy(Last(r), Last(r'), n, v, e);
  }

  lemma AimedBy(k: Cluster, k': Cluster, n: Addr, v: Addr, e: Entry)
    requires Poised(k, n, v, e) && Pair(k, n, v) && Retreated(k, k', n, v, Probe(n, k.nodes[n].term, e))
    ensures Aimed(k, k', n, v, e)
  {
    hide Later, AeFor;
    PushAe(k'.nodes[n], v, e);
  }

  lemma PushAe(s: Node, v: Addr, e: Entry)
    requires s.log == [e] && s.commit == -1 && At(s.next, v) == 0
    ensures AeFor(s, v, 2) == Push(s.self, s.term, e)
  {
  }

  /** Four events: refusal, step back, ok, and the commit by counting, which keeps H5 only for an own entry. */
  lemma Overwrite(r: Run, n: Addr, v: Addr, e: Entry) returns (r': Run)
    requires IsRun(r) && r.states != [] && Poised(Last(r), n, v, e)
    ensures IsRun(r') && r'.states != [] && Pair(Last(r), n, v) && Pushed(Last(r), Last(r'), n, v, e)
    ensures Adds(r, r', true, true, true, true, e.term == Last(r).nodes[n].term)
  {
    hide IsRun, H1, H2, H3, H4, H5, Last, Poised, Pair, Aimed, Settled, Heeds, Matches, CountsOwn, Later;
    var k := Last(r);
    PoisedHeeds(k, n, v, e);
    var r1 := Aim(r, n, v, e);
    AimedTakes(k, Last(r1), n, v, e);
    r' := Settle(r1, n, v, Push(n, k.nodes[n].term, e));
    PushedBy(k, Last(r1), Last(r'), n, v, e);
  }

  lemma AimedTakes(k0: Cluster, k: Cluster, n: Addr, v: Addr, e: Entry)
    requires Poised(k0, n, v, e) && Pair(k0, n, v) && Aimed(k0, k, n, v, e)
    ensures Pair(k, n, v)
    ensures var m, s, y := Push(n, k0.nodes[n].term, e), k.nodes[n], k.nodes[v];
            && Letter(v, m, None) in k.net && Accepts(y, Receive(m)) && y.commit <= CommitAfter(y, m)
            && s.role == Primary && m.term == s.term && At(s.curLsn, v) == m.lsn + 1 && At(s.next, v) < |s.log|
            && (CountsOwn(s, v) <==> e.term == s.term)
            && CountedFor(s, v).commit == 0 && CountedFor(s, v).ctl == Controler(0, 0, [Task(0, e.msg)])
            && LogAfter(y.log, m) == [e] && CommitAfter(y, m) == -1 && y.term == m.term
  {
    hide Later, Majority, CommitRule, Update;
    var m, s, y := Push(n, k0.nodes[n].term, e), k.nodes[n], k.nodes[v];
    CountCommits(s, n, v);
    FirstTask(s, [e]);
    assert y.log[..0] + [e] == [e];
  }

  lemma PushedBy(k0: Cluster, k: Cluster, k': Cluster, n: Addr, v: Addr, e: Entry)
    requires Poised(k0, n, v, e) && Pair(k0, n, v) && Aimed(k0, k, n, v, e)
    requires Pair(k, n, v) && Settled(k, k', n, v, Push(n, k0.nodes[n].term, e))
    ensures Pushed(k0, k', n, v, e)
  {
    hide Later, CommitRule, Update, CommitAfter, LogAfter, HandedNow, CountedFor, Accepts, CountsOwn;
    AimedTakes(k0, k, n, v, e);
    CountedKeeps(k.nodes[n], v);
    LaterTwice(k0, k, k', {n, v}, {n, v});
    assert {n, v} + {n, v} == {n, v};
    FirstHanded(k.nodes[n], k'.nodes[n], Task(0, e.msg));
  }

  // ----- a committed entry of an old term is overwritten

  /** Both a, in term 1, and c, in term 2, were elected by b and have one entry that nobody else has. */
  ghost predicate Rivals(k: Cluster, config: Config, x: string, y: string) {
    && Running(k, config)
    && var a, b, c := config[0], config[1], config[2];
    && Is(k.nodes[a], Primary, 1, [Entry(1, 0, x)], -1) && Is(k.nodes[b], Follower, 2, [], -1)
    && Is(k.nodes[c], Primary, 2, [Entry(2, 0, y)], -1) && k.nodes[a].ctl == k.nodes[c].ctl == FRESH
    && Letter(a, AppendEntry(2, -1, -1, 1, c, [], -1), None) in k.net
    && k.hist.late == {} && SpentBelow(k, 3)
  }

  /** Every grant delivered so far is of an earlier term. */
  ghost predicate SpentBelow(k: Cluster, term: int) {
    forall l :: l in k.spent ==> l.msg.term < term
  }

  ghost predicate Single1(k: Cluster, config: Config, x: string) {
    && Running(k, config)
    && var a, b, c := config[0], config[1], config[2];
    && Is(k.nodes[a], Primary, 1, [Entry(1, 0, x)], -1) && Is(k.nodes[b], Follower, 1, [], -1)
    && k.nodes[a].ctl == FRESH && k.nodes[c].ctl == FRESH && k.nodes[c].log == [] && k.nodes[c].commit == -1
    && k.nodes[c].role != Primary && k.nodes[c].term <= 1
    && k.hist.late == {} && SpentBelow(k, 2)
  }

  lemma OneIssued(k0: Cluster, k: Cluster, config: Config, x: string)
    requires |config| == 3 && Opened(k0, config) && Later(k0, k, {config[0]}) && config[0] in k.nodes
    requires var s := k0.nodes[config[0]];
             k.nodes[config[0]] == s.(log := s.log + [Entry(s.term, |s.log|, x)], saved := s.saved[s.self := |s.log|])
    requires k.hist.late == k0.hist.late && k.spent == k0.spent
    ensures Single1(k, config, x) && k.nodes[config[2]].term == 0
  {
    hide Later, Running;
    ThreeServers(config);
    RunningConfig(k0, config);
    LaterNode(k0, k, {config[0]}, config[1]);
    LaterNode(k0, k, {config[0]}, config[2]);
    StillRunning(k0, k, config, {config[0]});
  }

  lemma OneStands(k0: Cluster, k: Cluster, config: Config, x: string)
    requires |config| == 3 && Single1(k0, config, x) && k0.nodes[config[2]].term == 0 && Standing(k0, k, config[2])
    ensures Single1(k, config, x) && k.nodes[config[2]].term == 1
  {
    hide Later, Running;
    ThreeServers(config);
    RunningConfig(k0, config);
    LaterNode(k0, k, {config[2]}, config[0]);
    LaterNode(k0, k, {config[2]}, config[1]);
    StillRunning(k0, k, config, {config[2]});
  }

  lemma SingleServers(k: Cluster, config: Config, x: string)
    requires |config| == 3 && Single1(k, config, x)
    ensures k.config == config && Pair(k, config[2], config[1]) && k.nodes[config[2]].role != Primary
    ensures var s := k.nodes[config[2]]; s.self == config[2] && s.config == config && Idle(s)
    ensures Willing(k.nodes[config[1]], config[2], 2) && k.nodes[config[1]].log == k.nodes[config[2]].log == []
    ensures (config[1], 2) !in k.hist.late && forall rv: Msg :: rv.RequestVote? && rv.term >= 2 ==> Grant(rv, config[1]) !in k.spent
  {
    hide Running;
    ThreeServers(config);
    RunningConfig(k, config);
    Pairs(k, config[2], config[1]);
  }

  /** c has just won term 2 with b's vote. */
  ghost predicate SecondElected(k: Cluster, config: Config, x: string) {
    && Running(k, config)
    && var a, b, c := config[0], config[1], config[2];
    && Is(k.nodes[a], Primary, 1, [Entry(1, 0, x)], -1) && Is(k.nodes[b], Follower, 2, [], -1)
    && Is(k.nodes[c], Primary, 2, [], -1) && k.nodes[a].ctl == k.nodes[c].ctl == FRESH
    && Letter(a, AppendEntry(2, -1, -1, 1, c, [], -1), None) in k.net
    && k.hist.late == {} && SpentBelow(k, 3)
  }

  lemma SecondBy(k0: Cluster, k: Cluster, config: Config, x: string)
    requires |config| == 3 && Single1(k0, config, x) && k0.nodes[config[2]].term == 1
    requires Pair(k0, config[2], config[1]) && Elected(k0, k, config[2], config[1])
    ensures SecondElected(k, config, x)
  {
    hide Later, Running, AeFor;
    var a, b, c := config[0], config[1], config[2];
    ThreeServers(config);
    RunningConfig(k0, config);
    PairRunning(k0, k, config, c, b);
    LaterNode(k0, k, {c, b}, a);
    EmptyAe(k.nodes[c], a);
  }

  lemma EmptyAe(s: Node, v: Addr)
    requires s.log == [] && s.commit == -1 && v in s.config && s.next == Constant(s.config, 0)
    ensures AeFor(s, v, 1) == AppendEntry(s.term, -1, -1, 1, s.self, [], -1)
  {
  }

  lemma RivalsBy(k0: Cluster, k: Cluster, config: Config, x: string, y: string)
    requires |config| == 3 && SecondElected(k0, config, x) && Later(k0, k, {config[2]}) && config[2] in k.nodes
    requires var s := k0.nodes[config[2]];
             k.nodes[config[2]] == s.(log := s.log + [Entry(s.term, |s.log|, y)], saved := s.saved[s.self := |s.log|])
    requires k.hist.late == k0.hist.late && k.spent == k0.spent
    ensures Rivals(k, config, x, y)
  {
    hide Later, Running;
    ThreeServers(config);
    RunningConfig(k0, config);
    LaterNode(k0, k, {config[2]}, config[0]);
    LaterNode(k0, k, {config[2]}, config[1]);
    LaterParts(k0, k, {config[2]});
    StillRunning(k0, k, config, {config[2]});
  }

  lemma Rivalry(config: Config, x: string, y: string) returns (r: Run)
    requires |config| == 3
    ensures IsRun(r) && r.states != [] && AllHold(r) && Rivals(Last(r), config, x, y)
  {
    hide IsRun, H1, H2, H3, H4, H5, Last, Opened, Single1, SecondElected, Rivals, Standing, Elected, Later, Willing, FirstRv;
    var a, b, c := config[0], config[1], config[2];
    var r0 := Opening(config);
    OpenedServers(Last(r0), config);
    var r1 := Issue(r0, a, x);
    OneIssued(Last(r0), Last(r1), config, x);
    SingleServers(Last(r1), config, x);
    var r2 := Stand(r1, c);
    OneStands(Last(r1), Last(r2), config, x);
    SingleServers(Last(r2), config, x);
    FirstRvTerm(Last(r2).nodes[c], 2);
    var r3 := Elect(r2, c, b);
    SecondBy(Last(r2), Last(r3), config, x);
    SecondServers(Last(r3), config, x);
    r := Issue(r3, c, y);
    RivalsBy(Last(r3), Last(r), config, x, y);
  }

  lemma FirstRvTerm(s: Node, term: int)
    ensures FirstRv(s, term).RequestVote? && FirstRv(s, term).term == term
  {
  }

  lemma OpenedServers(k: Cluster, config: Config)
    requires |config| == 3 && Opened(k, config)
    ensures var s := k.nodes[config[0]];
            k.config == config && config[0] in config && config[0] in k.nodes && Idle(s) && s.role == Primary
  {
    hide Running;
    ThreeServers(config);
    RunningConfig(k, config);
  }

  lemma SecondServers(k: Cluster, config: Config, x: string)
    requires |config| == 3 && SecondElected(k, config, x)
    ensures var s := k.nodes[config[2]];
            k.config == config && config[2] in config && config[2] in k.nodes && Idle(s) && s.role == Primary
  {
    hide Running;
    ThreeServers(config);
    RunningConfig(k, config);
  }

  /** n, with the one entry e of an older term, has just been elected by v, which lacks it. */
  lemma PoisedBy(k0: Cluster, k: Cluster, n: Addr, v: Addr, e: Entry)
    requires Pair(k0, n, v) && Elected(k0, k, n, v) && e.index == 0
    requires k0.nodes[n].log == [e] && k0.nodes[n].commit == -1 && k0.nodes[n].ctl == FRESH
    requires k0.nodes[v].commit == -1 && (k0.nodes[v].log == [] || k0.nodes[v].log[0].term != e.term)
    ensures Poised(k, n, v, e)
    ensures forall w :: w in k.config && w != n ==> Letter(w, Probe(n, k0.nodes[n].term + 1, e), None) in k.net
  {
    hide Later, AeFor;
    LaterParts(k0, k, {n, v});
    forall w | w in k.config && w != n ensures AeFor(k.nodes[n], w, 1) == Probe(n, k0.nodes[n].term + 1, e) {
      UntoldAe(k.nodes[n], w, e);
    }
  }

  /** a has stepped down into term 2. */
  ghost predicate Deposed(k: Cluster, config: Config, x: string, y: string) {
    && Running(k, config)
    && var a, b, c := config[0], config[1], config[2];
    && Is(k.nodes[a], Follower, 2, [Entry(1, 0, x)], -1) && Is(k.nodes[b], Follower, 2, [], -1)
    && Is(k.nodes[c], Primary, 2, [Entry(2, 0, y)], -1) && k.nodes[a].ctl == k.nodes[c].ctl == FRESH
    && k.hist.late == {} && SpentBelow(k, 3)
  }

  lemma RivalHeeds(k: Cluster, config: Config, x: string, y: string)
    requires |config| == 3 && Rivals(k, config, x, y)
    ensures var a, c, m := config[0], config[2], AppendEntry(2, -1, -1, 1, config[2], [], -1);
            && Pair(k, c, a) && Letter(a, m, None) in k.net && Accepts(k.nodes[a], Receive(m))
            && k.nodes[a].commit == CommitAfter(k.nodes[a], m) == -1
            && LogAfter(k.nodes[a].log, m) == k.nodes[a].log
  {
    hide Running;
    ThreeServers(config);
    RunningConfig(k, config);
    Pairs(k, config[2], config[0]);
  }

  lemma DeposedBy(k0: Cluster, k: Cluster, config: Config, x: string, y: string)
    requires |config| == 3 && Rivals(k0, config, x, y)
    requires Followed(k0, k, config[0], AppendEntry(2, -1, -1, 1, config[2], [], -1))
    ensures Deposed(k, config, x, y)
  {
    hide Later, Running, LogAfter, CommitAfter;
    ThreeServers(config);
    RunningConfig(k0, config);
    RivalHeeds(k0, config, x, y);
    LaterNode(k0, k, {config[0]}, config[1]);
    LaterNode(k0, k, {config[0]}, config[2]);
    StillRunning(k0, k, config, {config[0]});
  }

  lemma DeposedServers(k: Cluster, config: Config, x: string, y: string)
    requires |config| == 3 && Deposed(k, config, x, y)
    ensures var a, b := config[0], config[1];
            && k.config == config && Pair(k, a, b) && Is(k.nodes[a], Follower, 2, [Entry(1, 0, x)], -1)
            && Willing(k.nodes[b], a, 3) && k.nodes[b].log == [] && (b, 3) !in k.hist.late
            && Grant(FirstRv(k.nodes[a], 3), b) !in k.spent
  {
    hide Running;
    ThreeServers(config);
    RunningConfig(k, config);
    Pairs(k, config[0], config[1]);
  }

  /** a is back as primary of term 3 with its old entry x, while c still has y. */
  ghost predicate Returned(k: Cluster, config: Config, x: string, y: string) {
    && Running(k, config)
    && var a, b, c := config[0], config[1], config[2];
    && Poised(k, a, b, Entry(1, 0, x)) && k.nodes[a].term == 3
    && Is(k.nodes[c], Primary, 2, [Entry(2, 0, y)], -1) && k.nodes[c].ctl == FRESH
    && Letter(c, Probe(a, 3, Entry(1, 0, x)), None) in k.net
    && k.hist.late == {} && SpentBelow(k, 4)
  }

  lemma ReturnedBy(k0: Cluster, k: Cluster, config: Config, x: string, y: string)
    requires |config| == 3 && Deposed(k0, config, x, y)
    requires Pair(k0, config[0], config[1]) && Elected(k0, k, config[0], config[1])
    ensures Returned(k, config, x, y)
  {
    hide Later, Running, AeFor, Poised, Elected;
    var a, b, c, e := config[0], config[1], config[2], Entry(1, 0, x);
    ThreeServers(config);
    RunningConfig(k0, config);
    ElectedParts(k0, k, a, b);
    PairRunning(k0, k, config, a, b);
    LaterNode(k0, k, {a, b}, c);
    PoisedBy(k0, k, a, b, e);
    RunningConfig(k, config);
  }

  lemma ElectedParts(k0: Cluster, k: Cluster, n: Addr, v: Addr)
    requires Pair(k0, n, v) && Elected(k0, k, n, v)
    ensures Later(k0, k, {n, v}) && Pair(k, n, v) && k.nodes[n].term == k0.nodes[n].term + 1
    ensures k.hist.late == k0.hist.late && k.spent == k0.spent + {Grant(FirstRv(k0.nodes[n], k.nodes[n].term), v)}
  {
  }

  /** a has committed and applied x in term 3; c holds y of the newer term 2. */
  ghost predicate OldCommitted(k: Cluster, config: Config, x: string, y: string) {
    && Running(k, config)
    && var a, b, c := config[0], config[1], config[2];
    && Is(k.nodes[a], Primary, 3, [Entry(1, 0, x)], 0) && Is(k.nodes[b], Follower, 3, [Entry(1, 0, x)], -1)
    && k.nodes[c].log == [Entry(2, 0, y)] && k.nodes[c].commit == -1 && k.nodes[c].ctl == FRESH
    && Handed(a, 3, Task(0, x)) in k.hist.handed && k.hist.late == {(b, 3)} && SpentBelow(k, 4)
  }

  ghost predicate OldUnheard(k: Cluster, config: Config, x: string, y: string) {
    && OldCommitted(k, config, x, y) && k.nodes[config[2]].term == 2
    && Letter(config[2], Probe(config[0], 3, Entry(1, 0, x)), None) in k.net
  }

  lemma OldCommittedBy(k0: Cluster, k: Cluster, config: Config, x: string, y: string)
    requires |config| == 3 && Returned(k0, config, x, y)
    requires Pair(k0, config[0], config[1]) && Pushed(k0, k, config[0], config[1], Entry(1, 0, x))
    ensures OldUnheard(k, config, x, y)
  {
    hide Later, Running, Poised;
    var a, b, c := config[0], config[1], config[2];
    ThreeServers(config);
    RunningConfig(k0, config);
    PairRunning(k0, k, config, a, b);
    LaterNode(k0, k, {a, b}, c);
    LaterParts(k0, k, {a, b});
  }

  lemma UnheardHeeds(k: Cluster, config: Config, x: string, y: string)
    requires |config| == 3 && OldUnheard(k, config, x, y)
    ensures var a, c, m := config[0], config[2], Probe(config[0], 3, Entry(1, 0, x));
            && Pair(k, a, c) && Letter(c, m, None) in k.net
            && Heeds(k.nodes[c], Receive(m)) && !Matches(k.nodes[c].log, m)
  {
    hide Running;
    ThreeServers(config);
    RunningConfig(k, config);
    Pairs(k, config[0], config[2]);
  }

  lemma HeardBy(k0: Cluster, k: Cluster, config: Config, x: string, y: string)
    requires |config| == 3 && OldUnheard(k0, config, x, y)
    requires Declined(k0, k, config[2], Probe(config[0], 3, Entry(1, 0, x)))
    ensures OldCommitted(k, config, x, y) && k.nodes[config[2]].role == Follower && k.nodes[config[2]].term == 3
  {
    hide Later, Running;
    var a, b, c := config[0], config[1], config[2];
    ThreeServers(config);
    RunningConfig(k0, config);
    LaterNode(k0, k, {c}, a);
    LaterNode(k0, k, {c}, b);
    LaterParts(k0, k, {c});
    StillRunning(k0, k, config, {c});
  }

  lemma OldServers(k: Cluster, config: Config, x: string, y: string)
    requires |config| == 3 && OldCommitted(k, config, x, y)
    ensures var b, c := config[1], config[2];
            && k.config == config && Pair(k, c, b) && Willing(k.nodes[b], c, 4)
            && UpToDate(k.nodes[b].log, k.nodes[c].log) && (b, 4) !in k.hist.late
            && (k.nodes[c].term == 3 ==> Grant(FirstRv(k.nodes[c], 4), b) !in k.spent)
  {
    hide Running;
    ThreeServers(config);
    RunningConfig(k, config);
    Pairs(k, config[2], config[1]);
  }

  lemma RivalPoised(k0: Cluster, k: Cluster, config: Config, x: string, y: string)
    requires |config| == 3 && OldCommitted(k0, config, x, y) && k0.nodes[config[2]].term == 3
    requires Pair(k0, config[2], config[1]) && Elected(k0, k, config[2], config[1])
    ensures Poised(k, config[2], config[1], Entry(2, 0, y)) && Pair(k, config[2], config[1])
    ensures k.nodes[config[2]].term == 4 && Handed(config[0], 3, Task(0, x)) in k.hist.handed
  {
    hide Later, Running, AeFor, Poised, Elected;
    ElectedParts(k0, k, config[2], config[1]);
    LaterParts(k0, k, {config[2], config[1]});
    PoisedBy(k0, k, config[2], config[1], Entry(2, 0, y));
  }

  /** a counts its entry of term 1 as committed in term 3, though c still holds one of term 2. */
  lemma OldTermCommit(config: Config, x: string, y: string) returns (r: Run)
    requires |config| == 3
    ensures IsRun(r) && r.states != []
    ensures OldUnheard(Last(r), config, x, y)
    ensures AllHoldBut(r, 5)
  {
    hide IsRun, H1, H2, H3, H4, H5, Last, Rivals, Deposed, Returned, Poised, Pushed, Followed, Elected, Willing,
         FirstRv, Heeds, Matches, Pair, OldUnheard, CommitAfter, LogAfter;
    var a, b, c := config[0], config[1], config[2];
    var r0 := Rivalry(config, x, y);
    RivalHeeds(Last(r0), config, x, y);
    var r1 := Follow(r0, c, a, AppendEntry(2, -1, -1, 1, c, [], -1));
    DeposedBy(Last(r0), Last(r1), config, x, y);
    DeposedServers(Last(r1), config, x, y);
    var r2 := Elect(r1, a, b);
    ReturnedBy(Last(r1), Last(r2), config, x, y);
    ReturnedPoised(Last(r2), config, x, y);
    r := Overwrite(r2, a, b, Entry(1, 0, x));
    OldCommittedBy(Last(r2), Last(r), config, x, y);
  }

  lemma ReturnedPoised(k: Cluster, config: Config, x: string, y: string)
    requires |config| == 3 && Returned(k, config, x, y)
    ensures Poised(k, config[0], config[1], Entry(1, 0, x)) && Pair(k, config[0], config[1])
    ensures k.nodes[config[0]].term == 3
  {
  }

  /** State Machine Safety fails without the commit restriction: H5 is the only hypothesis this run breaks. */
  lemma OldTermCommitOverwritten(config: Config, x: string, y: string) returns (r: Run)
    requires |config| == 3
    ensures IsRun(r) && r.states != []
    ensures Applied(Last(r), config[0], 3, x) && Applied(Last(r), config[2], 4, y)
    ensures AllHoldBut(r, 5)
  {
    hide IsRun, H1, H2, H3, H4, H5, Last, OldUnheard, OldCommitted, Poised, Pushed, Declined, Elected, Willing,
         FirstRv, Heeds, Matches, Pair;
    var a, b, c := config[0], config[1], config[2];
    var r0 := OldTermCommit(config, x, y);
    UnheardHeeds(Last(r0), config, x, y);
    var r1 := Decline(r0, a, c, Probe(a, 3, Entry(1, 0, x)));
    HeardBy(Last(r0), Last(r1), config, x, y);
    OldServers(Last(r1), config, x, y);
    var r2 := Elect(r1, c, b);
    RivalPoised(Last(r1), Last(r2), config, x, y);
    r := Overwrite(r2, c, b, Entry(2, 0, y));
    PushedHands(Last(r2), Last(r), c, b, Entry(2, 0, y));
  }

  lemma PushedHands(k: Cluster, k': Cluster, n: Addr, v: Addr, e: Entry)
    requires Pair(k, n, v) && Pushed(k, k', n, v, e)
    ensures k.hist.handed <= k'.hist.handed && Handed(n, k.nodes[n].term, Task(0, e.msg)) in k'.hist.handed
  {
  }
}
