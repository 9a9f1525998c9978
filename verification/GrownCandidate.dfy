/** A run in which a candidate gets a vote from a server that is ahead of the log it stood with: a client command
    reached it while it was a candidate, and its next RV tells of the longer log. */
module GrownCandidate {
  import opened RaftTypes
  import opened NodeSpec
  import opened NodeSteps
  import opened Cluster
  import opened Election
  import opened Logs
  import opened Retention
  import opened AsWritten
  import opened Completeness
  import opened Scripts
  import opened Voting
  import opened Witness

  /** b, follower of term 1 with an entry of that term, has a vote left. */
  ghost predicate VoterAhead(k: Cluster, config: Config, x: string) {
    && Running(k, config)
    && var b, c := config[1], config[2];
    && Undecided(k.nodes[b], c, x) && k.nodes[c] == NewNode(c, config)
  }

  predicate Undecided(s: Node, c: Addr, x: string) {
    Is(s, Follower, 1, [Entry(1, 0, x)], -1) && !s.voted && At(s.folLsn, c) < 0
  }

  lemma VoterAheadBy(k0: Cluster, k: Cluster, config: Config, x: string)
    requires |config| == 3 && VoteForgotten(k0, config) && k0.nodes[config[1]].commit == -1
    requires Later(k0, k, {config[1]}) && config[1] in k.nodes
    requires var s := k0.nodes[config[1]];
             k.nodes[config[1]] == s.(log := s.log + [Entry(s.term, |s.log|, x)], saved := s.saved[s.self := |s.log|])
    ensures VoterAhead(k, config, x)
  {
    hide Later, Running;
    ThreeServers(config);
    RunningConfig(k0, config);
    LaterNode(k0, k, {config[1]}, config[2]);
    StillRunning(k0, k, config, {config[1]});
  }

  /** c stands in term 1 with an empty log and then has grown by that many entries. */
  ghost predicate CandidateGrown(k: Cluster, config: Config, x: string, log: seq<Entry>, sent: bool) {
    && Running(k, config)
    && var b, c := config[1], config[2];
    && Undecided(k.nodes[b], c, x) && k.nodes[c].role == Candidate && k.nodes[c].term == 1 && k.nodes[c].log == log
    && At(k.nodes[c].curLsn, b) == (if sent then 2 else 1)
    && (c, 1) in k.hist.stood && k.hist.stood[(c, 1)] == []
    && (sent ==> Letter(b, RequestVote(1, |log| - 1, 0, 1, c), None) in k.net)
  }

  lemma GrownByStanding(k0: Cluster, k: Cluster, config: Config, x: string)
    requires |config| == 3 && VoterAhead(k0, config, x) && Standing(k0, k, config[2])
    ensures CandidateGrown(k, config, x, [], false)
  {
    hide Later, Running;
    ThreeServers(config);
    RunningConfig(k0, config);
    LaterNode(k0, k, {config[2]}, config[1]);
    StillRunning(k0, k, config, {config[2]});
  }

  lemma GrownServers(k: Cluster, config: Config, x: string, log: seq<Entry>, sent: bool)
    requires |config| == 3 && CandidateGrown(k, config, x, log, sent)
    ensures config[1] != config[2] && config[1] in k.nodes && config[2] in k.nodes && k.config == config
    ensures config[1] in config && config[2] in config && Idle(k.nodes[config[1]]) && Idle(k.nodes[config[2]])
    ensures k.nodes[config[1]].self == config[1] && k.nodes[config[2]].self == config[2]
    ensures k.nodes[config[1]].config == k.nodes[config[2]].config == config
  {
    hide Running;
    ThreeServers(config);
    RunningConfig(k, config);
  }

  lemma Grow(r: Run, config: Config, x: string, y: string) returns (r': Run)
    requires IsRun(r) && r.states != [] && |config| == 3 && CandidateGrown(Last(r), config, x, [], false)
    ensures IsRun(r') && r'.states != [] && CandidateGrown(Last(r'), config, x, [Entry(1, 0, y)], false)
    ensures !H2(r')
  {
    hide IsRun, H1, H2, H3, H4, H5, Running, OneLonger, Later, After;
    var k, c := Last(r), config[2];
    GrownServers(k, config, x, [], false);
    CandidateRecorded(r, c);
    var ev := Local(c, Command(y));
    var t := Handle(k.nodes[c], Command(y));
    AfterLater(k, ev, t);
    LaterNode(k, After(k, ev, t), {c}, config[1]);
    LaterParts(k, After(k, ev, t), {c});
    StillRunning(k, After(k, ev, t), config, {c});
    r' := Extend(r, ev, t);
  }

  lemma AskAgain(r: Run, config: Config, x: string, log: seq<Entry>) returns (r': Run)
    requires IsRun(r) && r.states != [] && |config| == 3 && CandidateGrown(Last(r), config, x, log, false)
    ensures IsRun(r') && r'.states != [] && CandidateGrown(Last(r'), config, x, log, true)
    ensures H2(r') <==> H2(r)
  {
    hide IsRun, H1, H2, H3, H4, H5, Running, OneLonger, Later, After;
    var k, b, c := Last(r), config[1], config[2];
    GrownServers(k, config, x, log, false);
    CandidateRecorded(r, c);
    var ev := Local(c, RetryRv(b));
    var t := Handle(k.nodes[c], RetryRv(b));
    assert t.outbox == [Packet(b, RequestVote(1, |log| - 1, 0, 1, c))];
    MailHas(k, ev, t, t.outbox[0]);
    AfterLater(k, ev, t);
    LaterNode(k, After(k, ev, t), {c}, b);
    LaterParts(k, After(k, ev, t), {c});
    StillRunning(k, After(k, ev, t), config, {c});
    r' := Extend(r, ev, t);
  }

  /** Without H2 a vote can go against the logs that were stood with. */
  lemma GrownCandidateGetsVote(config: Config, x: string, y: string) returns (r: Run, i: nat)
    requires |config| == 3
    ensures IsRun(r) && !H2(r)
    ensures Polled(r, i, RequestVote(1, 0, 0, 1, config[2])) && VotesFor(r, i, RequestVote(1, 0, 0, 1, config[2]))
    ensures (config[2], 1) in r.states[i].hist.stood
    ensures Ahead(Before(r, i).log, 1, |r.states[i].hist.stood[(config[2], 1)]|)
  {
    hide IsRun, H1, H2, H3, H4, H5, Last, CandidateGrown, VotesFor, Polled, OneLonger, Handle;
    var r1 := GrownUp(config, x, y);
    r := DeliverRv(r1, config, x, [Entry(1, 0, y)]);
    i := |r1.events|;
    VoteCast(r, i, RequestVote(1, 0, 0, 1, config[2]), config[2], x);
  }

  lemma GrownUp(config: Config, x: string, y: string) returns (r: Run)
    requires |config| == 3
    ensures IsRun(r) && r.states != [] && !H2(r) && CandidateGrown(Last(r), config, x, [Entry(1, 0, y)], true)
  {
    hide IsRun, H1, H2, H3, H4, H5, Last, CandidateGrown, VoterAhead, VoteForgotten, Followed, Opened, Standing, Fresh,
         Matches, Later;
    var a, b, c := config[0], config[1], config[2];
    var r0 := Opening(config);
    OpenedHeeds(Last(r0), config);
    var r1 := Follow(r0, a, b, FirstHeartbeat(a));
    ForgottenBy(Last(r0), Last(r1), config);
    FollowedIdle(Last(r0), Last(r1), config);
    var r2 := Issue(r1, b, x);
    VoterAheadBy(Last(r1), Last(r2), config, x);
    AheadStands(Last(r2), config, x);
    var r3 := Stand(r2, c);
    GrownByStanding(Last(r2), Last(r3), config, x);
    var r4 := Grow(r3, config, x, y);
    r := AskAgain(r4, config, x, [Entry(1, 0, y)]);
  }

  lemma FollowedIdle(k0: Cluster, k: Cluster, config: Config)
    requires |config| == 3 && Opened(k0, config) && Followed(k0, k, config[1], FirstHeartbeat(config[0]))
    requires VoteForgotten(k, config)
    ensures config[1] in k.nodes && config[1] in k.config && Idle(k.nodes[config[1]])
    ensures k.nodes[config[1]].role == Follower && k.nodes[config[1]].commit == -1
  {
    hide Later, Running;
    ThreeServers(config);
    RunningConfig(k, config);
    OpenedHeeds(k0, config);
  }

  lemma AheadStands(k: Cluster, config: Config, x: string)
    requires |config| == 3 && VoterAhead(k, config, x)
    ensures config[2] in k.config && config[2] in k.nodes
    ensures var s := k.nodes[config[2]]; s.self == config[2] && s.config == k.config && Idle(s) && s.role != Primary
  {
    hide Running;
    ThreeServers(config);
    RunningConfig(k, config);
  }

  lemma DeliverRv(r: Run, config: Config, x: string, log: seq<Entry>) returns (r': Run)
    requires IsRun(r) && r.states != [] && |config| == 3 && CandidateGrown(Last(r), config, x, log, true)
    ensures IsRun(r') && |r.states| == |r.events| + 1 && |r'.events| == |r.events| + 1 && (H2(r') <==> H2(r))
    ensures var i, m := |r.events|, RequestVote(1, |log| - 1, 0, 1, config[2]);
            && Polled(r', i, m) && Undecided(Before(r', i), config[2], x)
            && (config[2], 1) in r'.states[i].hist.stood && r'.states[i].hist.stood[(config[2], 1)] == []
  {
    hide IsRun, H1, H2, H3, H4, H5, Running, Handle, IsStep, StepFacts, After;
    var k, b, c := Last(r), config[1], config[2];
    GrownServers(k, config, x, log, true);
    var ev := Deliver(Letter(b, RequestVote(1, |log| - 1, 0, 1, c), None));
    r' := Extend(r, ev, Handle(k.nodes[b], InputOf(ev)));
    EventFacts(r', |r.events|);
    assert r'.states[|r.events|] == k;
  }

  lemma VoteCast(r: Run, i: nat, m: Msg, c: Addr, x: string)
    requires IsRun(r) && Polled(r, i, m) && Undecided(Before(r, i), c, x) && m == RequestVote(1, 0, 0, 1, c)
    ensures VotesFor(r, i, m) && Ahead(Before(r, i).log, 1, 0)
  {
    hide IsRun, Handle, VotesFor;
    VoteGivenExactly(r, i, m);
  }
}
