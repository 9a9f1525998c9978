/** A run in which the commit index of a primary falls: back in office, it recomputes the index from the servers
    that have answered in the new term alone. */
module FallingCommit {
  import opened RaftTypes
  import opened OrderStatistic
  import opened ApplyControl
  import opened NodeSpec
  import opened NodeSteps
  import opened Cluster
  import opened Election
  import opened Logs
  import opened Retention
  import opened Completeness
  import opened Scripts
  import opened Witness
  import opened OldTerms

  function First(cmd: string): Entry {
    Entry(1, 0, cmd)
  }

  function Second(cmd: string): Entry {
    Entry(1, 1, cmd)
  }

  // ----- two entries are committed in term 1

  /** How far b has the two entries of primary a: that many have been acknowledged, and the AE with the next is
      under way. */
  ghost predicate Stocked(k: Cluster, config: Config, x: string, y: string, done: int) {
    && Running(k, config)
    && var a, b, c, both := config[0], config[1], config[2], [First(x), Second(y)];
    && var s, t := k.nodes[a], k.nodes[b];
    && 0 <= done <= 2 && Is(s, Primary, 1, both, done - 1) && t.role == Follower && t.term == 1
    && t.log == both[..done] && t.commit == (if done == 2 then 0 else -1) && k.nodes[c] == NewNode(c, config)
    && At(s.next, b) == done && At(s.curLsn, b) == done + 3 && At(t.folLsn, a) == (if done == 0 then 0 else done + 1)
    && At(s.saved, a) == 1 && At(s.saved, c) == -1
    && (done < 2 ==> Letter(b, NextAe(a, both, done), None) in k.net)
    && k.hist.late == (if done == 0 then {} else {(b, 1)}) && SpentBelow(k, 2)
  }

  function NextAe(a: Addr, both: seq<Entry>, done: int): Msg
    requires |both| == 2 && 0 <= done < 2
  {
    AppendEntry(1, if done == 0 then -1 else both[0].term, done - 1, done + 2, a, [both[done]], done - 1)
  }

  lemma NextIsAe(s: Node, v: Addr, x: string, y: string, done: int)
    requires Is(s, Primary, 1, [First(x), Second(y)], done - 1) && 0 <= done < 2 && At(s.next, v) == done
    ensures AeFor(s, v, done + 2) == NextAe(s.self, [First(x), Second(y)], done)
  {
  }

  /** a has appended both entries and sent the first. */
  ghost predicate Fetched(k0: Cluster, k: Cluster, config: Config, x: string, y: string)
    requires |config| == 3
  {
    var a, b := config[0], config[1];
    && Later(k0, k, {a}) && a in k0.nodes && a in k.nodes && k.hist.late == k0.hist.late && k.spent == k0.spent
    && var s, t := k0.nodes[a], k.nodes[a];
    && t == TakeLsn(s, b).(log := [First(x), Second(y)], saved := s.saved[a := 0][a := 1])
    && Letter(b, NextAe(a, [First(x), Second(y)], 0), None) in k.net
  }

  lemma StockedBy(k0: Cluster, k: Cluster, config: Config, x: string, y: string)
    requires |config| == 3 && Opened(k0, config) && Fetched(k0, k, config, x, y)
    ensures Stocked(k, config, x, y, 0)
  {
    hide Later, Running;
    ThreeServers(config);
    RunningConfig(k0, config);
    var a, b, c := config[0], config[1], config[2];
    LaterNode(k0, k, {a}, b);
    LaterNode(k0, k, {a}, c);
    StillRunning(k0, k, config, {a});
  }

  lemma Stock(config: Config, x: string, y: string) returns (r: Run)
    requires |config| == 3
    ensures IsRun(r) && r.states != [] && AllHold(r) && Stocked(Last(r), config, x, y, 0)
  {
    hide IsRun, H1, H2, H3, H4, H5, Last, Opened, Running, Stocked, Later, AeFor;
    var a, b := config[0], config[1];
    var r0 := Opening(config);
    OpenedPair(Last(r0), config);
    var r1 := Issue(r0, a, x);
    LaterNode(Last(r0), Last(r1), {a}, b);
    LaterParts(Last(r0), Last(r1), {a});
    var r2 := Issue(r1, a, y);
    LaterNode(Last(r1), Last(r2), {a}, b);
    LaterParts(Last(r1), Last(r2), {a});
    r := Resend(r2, a, b);
    NextIsAe(Last(r2).nodes[a], b, x, y, 0);
    LaterTwice(Last(r0), Last(r1), Last(r2), {a}, {a});
    LaterTwice(Last(r0), Last(r2), Last(r), {a} + {a}, {a});
    assert {a} + {a} + {a} == {a};
    StockedBy(Last(r0), Last(r), config, x, y);
  }

  lemma OpenedPair(k: Cluster, config: Config)
    requires |config| == 3 && Opened(k, config)
    ensures var a, b := config[0], config[1];
            && k.config == config && Pair(k, a, b) && Is(k.nodes[a], Primary, 1, [], -1)
            && At(k.nodes[a].next, b) == 0 && At(k.nodes[a].curLsn, b) == 2
  {
    hide Running;
    ThreeServers(config);
    RunningConfig(k, config);
    Pairs(k, config[0], config[1]);
  }

  lemma StockedTakes(k: Cluster, config: Config, x: string, y: string, done: int)
    requires |config| == 3 && Stocked(k, config, x, y, done) && done < 2
    ensures Pair(k, config[0], config[1])
    ensures var a, b, both := config[0], config[1], [First(x), Second(y)];
            var m, s, t := NextAe(a, both, done), k.nodes[a], k.nodes[b];
            && Letter(b, m, None) in k.net && m.from == a && m.entries != [] && m.term == s.term == t.term == 1
            && Accepts(t, Receive(m)) && t.commit <= CommitAfter(t, m) == (if done == 1 then 0 else -1)
            && s.role == Primary && At(s.curLsn, b) == m.lsn + 1 && At(s.next, b) < |s.log|
            && CountsOwn(s, b) && CountedFor(s, b).commit == done && LogAfter(t.log, m) == both[..done + 1]
  {
    hide Running, Majority, CommitRule, Update;
    var a, b, both := config[0], config[1], [First(x), Second(y)];
    ThreeServers(config);
    RunningConfig(k, config);
    Pairs(k, a, b);
    CountCommits(k.nodes[a], a, b);
    assert both[..done + 1] == both[..done] + [both[done]];
  }

  lemma StockedNext(k: Cluster, k': Cluster, config: Config, x: string, y: string, done: int)
    requires |config| == 3 && Stocked(k, config, x, y, done) && done < 2 && Pair(k, config[0], config[1])
    requires Settled(k, k', config[0], config[1], NextAe(config[0], [First(x), Second(y)], done))
    ensures Stocked(k', config, x, y, done + 1)
  {
    hide Later, Running, CommitRule, Update, CommitAfter, LogAfter, HandedNow, CountedFor, Heeds, Matches, CountsOwn,
         AeFor, Majority, Idle, Keep, Constant, NewNode, ServerSet, Pair;
    var a, b, c := config[0], config[1], config[2];
    ThreeServers(config);
    RunningConfig(k, config);
    StockedTakes(k, config, x, y, done);
    CountedKeeps(k.nodes[a], b);
    LaterNode(k, k', {a, b}, c);
    PairRunning(k, k', config, a, b);
    PairSelf(k, a, b);
    PairSelf(k', a, b);
    if done == 0 {
      NextIsAe(k'.nodes[a], b, x, y, 1);
    }
  }

  lemma PairSelf(k: Cluster, n: Addr, v: Addr)
    requires Pair(k, n, v)
    ensures n != v && n in k.nodes && v in k.nodes && k.nodes[n].self == n && k.nodes[v].self == v
  {
  }

  lemma Acknowledge(r: Run, config: Config, x: string, y: string, done: int) returns (r': Run)
    requires |config| == 3 && IsRun(r) && r.states != [] && Stocked(Last(r), config, x, y, done) && 0 <= done < 2
    ensures IsRun(r') && r'.states != [] && AddsNothing(r, r') && Stocked(Last(r'), config, x, y, done + 1)
  {
    hide IsRun, H1, H2, H3, H4, H5, Last, Stocked, Settled, Pair, Heeds, Matches, CommitAfter, LogAfter, CountedFor,
         CountsOwn;
    StockedTakes(Last(r), config, x, y, done);
    r' := Settle(r, config[0], config[1], NextAe(config[0], [First(x), Second(y)], done));
    StockedNext(Last(r), Last(r'), config, x, y, done);
  }

  // ----- the primary is voted out and back in

  /** b stands in term 2 and asks a for its vote. */
  ghost predicate Challenged(k: Cluster, config: Config, x: string, y: string) {
    && Running(k, config)
    && var a, b, c, both := config[0], config[1], config[2], [First(x), Second(y)];
    && Is(k.nodes[a], Primary, 1, both, 1) && k.nodes[b].role == Candidate && k.nodes[b].term == 2
    && k.nodes[b].log == both && k.nodes[c] == NewNode(c, config)
    && Letter(a, RequestVote(2, 1, 0, 0, b), None) in k.net && Deserved(k, b, a, 2)
    && k.hist.late == {(b, 1)} && SpentBelow(k, 2)
  }

  lemma StockedServers(k: Cluster, config: Config, x: string, y: string)
    requires |config| == 3 && Stocked(k, config, x, y, 2)
    ensures var s := k.nodes[config[1]];
            && k.config == config && config[1] in config && config[1] in k.nodes && s.self == config[1]
            && s.config == config && Idle(s) && s.role != Primary
  {
    hide Running;
    ThreeServers(config);
    RunningConfig(k, config);
  }

  lemma ChallengedBy(k0: Cluster, k: Cluster, config: Config, x: string, y: string)
    requires |config| == 3 && Stocked(k0, config, x, y, 2) && Standing(k0, k, config[1])
    ensures Challenged(k, config, x, y)
  {
    hide Later, Running;
    var a, b, c := config[0], config[1], config[2];
    ThreeServers(config);
    RunningConfig(k0, config);
    LaterNode(k0, k, {b}, a);
    LaterNode(k0, k, {b}, c);
    LaterParts(k0, k, {b});
    StillRunning(k0, k, config, {b});
  }

  lemma ChallengedVotes(k: Cluster, config: Config, x: string, y: string)
    requires |config| == 3 && Challenged(k, config, x, y)
    ensures var a, b := config[0], config[1];
            && Pair(k, b, a) && Willing(k.nodes[a], b, 2) && Deserved(k, b, a, 2) && (a, 2) !in k.hist.late
            && Letter(a, RequestVote(2, 1, 0, 0, b), None) in k.net
  {
    hide Running, UpToDate;
    ThreeServers(config);
    RunningConfig(k, config);
    Pairs(k, config[1], config[0]);
  }

  /** a has stepped down into term 2 with its log and its commit index. */
  ghost predicate VotedOut(k: Cluster, config: Config, x: string, y: string) {
    && Running(k, config)
    && var a, b, c, both := config[0], config[1], config[2], [First(x), Second(y)];
    && Is(k.nodes[a], Follower, 2, both, 1) && k.nodes[b].term == 2 && k.nodes[b].log == both
    && k.nodes[c] == NewNode(c, config) && k.hist.late == {(b, 1)} && SpentBelow(k, 2)
  }

  lemma VotedOutBy(k0: Cluster, k: Cluster, config: Config, x: string, y: string)
    requires |config| == 3 && Challenged(k0, config, x, y)
    requires Voted(k0, k, config[0], RequestVote(2, 1, 0, 0, config[1]))
    ensures VotedOut(k, config, x, y)
  {
    hide Later, Running, Deserved;
    var a, b, c := config[0], config[1], config[2];
    ThreeServers(config);
    RunningConfig(k0, config);
    LaterNode(k0, k, {a}, b);
    LaterNode(k0, k, {a}, c);
    StillRunning(k0, k, config, {a});
  }

  lemma VotedOutServers(k: Cluster, config: Config, x: string, y: string)
    requires |config| == 3 && VotedOut(k, config, x, y)
    ensures var a, b := config[0], config[1];
            && a in k.nodes && Pair(k, a, b) && k.nodes[a].role != Primary && k.nodes[a].term == 2
            && Willing(k.nodes[b], a, 3) && k.nodes[b].log == k.nodes[a].log && (b, 3) !in k.hist.late
            && Grant(FirstRv(k.nodes[a], 3), b) !in k.spent
  {
    hide Running;
    ThreeServers(config);
    RunningConfig(k, config);
    Pairs(k, config[0], config[1]);
  }

  // ----- it meets the server that has nothing

  /** a, primary of term 3 with commit index 1, has stepped back that often for c, which still has nothing. */
  ghost predicate Meeting(k: Cluster, config: Config, x: string, y: string, gap: int) {
    && Running(k, config)
    && var a, b, c, both := config[0], config[1], config[2], [First(x), Second(y)];
    && var s, u := k.nodes[a], k.nodes[c];
    && 0 <= gap <= 2 && Is(s, Primary, 3, both, 1)
    && At(s.next, c) == 2 - gap && At(s.curLsn, c) == gap + 2 && At(s.saved, a) == 1 && At(s.saved, b) == -1
    && u.role == Follower && u.log == [] && u.commit == -1
    && (if gap == 0 then u.term < 3 else u.term == 3 && At(u.folLsn, a) == gap)
    && Letter(c, BackAe(a, both, gap), None) in k.net
  }

  function BackAe(a: Addr, both: seq<Entry>, gap: int): Msg
    requires |both| == 2 && 0 <= gap <= 2
  {
    AppendEntry(3, if gap == 2 then -1 else 1, 1, gap + 1, a, if gap == 0 then [] else [both[2 - gap]], 1 - gap)
  }

  lemma BackIsAe(s: Node, v: Addr, x: string, y: string, gap: int)
    requires Is(s, Primary, 3, [First(x), Second(y)], 1) && 0 <= gap <= 2 && At(s.next, v) == 2 - gap
    ensures AeFor(s, v, gap + 1) == BackAe(s.self, [First(x), Second(y)], gap)
  {
  }

  lemma MeetingBy(k0: Cluster, k: Cluster, config: Config, x: string, y: string)
    requires |config| == 3 && VotedOut(k0, config, x, y)
    requires Pair(k0, config[0], config[1]) && Elected(k0, k, config[0], config[1])
    ensures Meeting(k, config, x, y, 0)
  {
    hide Later, Running, AeFor;
    var a, b, c := config[0], config[1], config[2];
    ThreeServers(config);
    RunningConfig(k0, config);
    PairRunning(k0, k, config, a, b);
    LaterNode(k0, k, {a, b}, c);
    BackIsAe(k.nodes[a], c, x, y, 0);
  }

  lemma MeetingHeeds(k: Cluster, config: Config, x: string, y: string, gap: int)
    requires |config| == 3 && Meeting(k, config, x, y, gap)
    ensures Pair(k, config[0], config[2])
    ensures var a, c, m := config[0], config[2], BackAe(config[0], [First(x), Second(y)], gap);
            && Letter(c, m, None) in k.net && Heeds(k.nodes[c], Receive(m))
            && if gap < 2 then !Matches(k.nodes[c].log, m) && CanRetreat(k, a, c, m)
               else Accepts(k.nodes[c], Receive(m)) && k.nodes[c].commit <= CommitAfter(k.nodes[c], m)
  {
    hide Running;
    ThreeServers(config);
    RunningConfig(k, config);
    Pairs(k, config[0], config[2]);
  }

  lemma MeetingNext(k: Cluster, k': Cluster, config: Config, x: string, y: string, gap: int)
    requires |config| == 3 && Meeting(k, config, x, y, gap) && gap < 2 && Pair(k, config[0], config[2])
    requires Retreated(k, k', config[0], config[2], BackAe(config[0], [First(x), Second(y)], gap))
    ensures Meeting(k', config, x, y, gap + 1)
  {
    hide Later, Running, AeFor;
    ThreeServers(config);
    RunningConfig(k, config);
    PairRunning(k, k', config, config[0], config[2]);
    BackIsAe(k'.nodes[config[0]], config[2], x, y, gap + 1);
  }

  lemma BackOff(r: Run, config: Config, x: string, y: string, gap: int) returns (r': Run)
    requires |config| == 3 && IsRun(r) && r.states != [] && Meeting(Last(r), config, x, y, gap) && 0 <= gap < 2
    ensures IsRun(r') && r'.states != [] && AddsNothing(r, r') && Meeting(Last(r'), config, x, y, gap + 1)
  {
    hide IsRun, H1, H2, H3, H4, H5, Last, Meeting, Retreated, Heeds, Matches, Pair, CanRetreat;
    MeetingHeeds(Last(r), config, x, y, gap);
    r' := Retreat(r, config[0], config[2], BackAe(config[0], [First(x), Second(y)], gap));
    MeetingNext(Last(r), Last(r'), config, x, y, gap);
  }

  // ----- and counts its first ok of the term

  lemma Meet(config: Config, x: string, y: string) returns (r: Run)
    requires |config| == 3
    ensures IsRun(r) && r.states != [] && AllHold(r) && Meeting(Last(r), config, x, y, 2)
  {
    hide IsRun, H1, H2, H3, H4, H5, Last, Stocked, Challenged, VotedOut, Meeting, Pair, Standing, Voted, Elected,
         Willing, Deserved, FirstRv, UpToDate;
    var a, b := config[0], config[1];
    var r0 := Stock(config, x, y);
    var r1 := Acknowledge(r0, config, x, y, 0);
    var r2 := Acknowledge(r1, config, x, y, 1);
    StockedServers(Last(r2), config, x, y);
    var r3 := Stand(r2, b);
    ChallengedBy(Last(r2), Last(r3), config, x, y);
    ChallengedVotes(Last(r3), config, x, y);
    var r4 := Vote(r3, b, a, RequestVote(2, 1, 0, 0, b));
    VotedOutBy(Last(r3), Last(r4), config, x, y);
    VotedOutServers(Last(r4), config, x, y);
    SameUpToDate(Last(r4).nodes[a].log);
    var r5 := Elect(r4, a, b);
    MeetingBy(Last(r4), Last(r5), config, x, y);
    var r6 := BackOff(r5, config, x, y, 0);
    r := BackOff(r6, config, x, y, 1);
  }

  lemma SameUpToDate(log: seq<Entry>)
    ensures UpToDate(log, log)
  {
  }

  lemma MeetingCounts(k: Cluster, k': Cluster, config: Config, x: string, y: string)
    requires |config| == 3 && Meeting(k, config, x, y, 2)
    requires Followed(k, k', config[2], BackAe(config[0], [First(x), Second(y)], 2))
    ensures Pair(k', config[0], config[2])
    ensures var a, c, s := config[0], config[2], k'.nodes[config[0]];
            && s.role == Primary && s.term == 3 && s.commit == 1
            && At(s.curLsn, c) == 4 && At(s.next, c) < |s.log|
            && Letter(a, RespAppend(true, 3, 3, c, false), Some(BackAe(a, [First(x), Second(y)], 2))) in k'.net
            && CountedFor(s, c).commit == 0 && !CountsOwn(s, c)
  {
    hide Later, Running, CommitRule, Update, Majority, CommitAfter, LogAfter;
    ThreeServers(config);
    RunningConfig(k, config);
    LaterNode(k, k', {config[2]}, config[0]);
    StillRunning(k, k', config, {config[2]});
    LaterParts(k, k', {config[2]});
    Pairs(k', config[0], config[2]);
    CountCommits(k'.nodes[config[0]], config[0], config[2]);
  }

  /** In the last event n stays primary, and its commit index falls from k to k1. */
  ghost predicate FallsLast(r: Run, n: Addr, k: int, k1: int) {
    var last := |r.events|;
    && last > 0 && |r.states| == last + 1 && n in r.states[last - 1].nodes && n in r.states[last].nodes
    && var s, t := r.states[last - 1].nodes[n], r.states[last].nodes[n];
    && s.role == t.role == Primary && s.term == t.term && s.commit == k && t.commit == k1
  }

  /** The commit index of a primary falls from 1 to 0; only H5 is broken. */
  lemma CommitIndexFalls(config: Config) returns (r: Run)
    requires |config| == 3
    ensures IsRun(r) && FallsLast(r, config[0], 1, 0)
    ensures AllHoldBut(r, 5)
  {
    hide IsRun, H1, H2, H3, H4, H5, Meeting, Pair, Followed, CountedAt, Heeds, Matches, CountedFor, CountsOwn,
         CommitAfter, LogAfter, OneLonger, FallsLast, Last;
    var a, c, m := config[0], config[2], BackAe(config[0], [First("x"), Second("y")], 2);
    var r0 := Meet(config, "x", "y");
    MeetingHeeds(Last(r0), config, "x", "y", 2);
    var r1 := Follow(r0, a, c, m);
    MeetingCounts(Last(r0), Last(r1), config, "x", "y");
    PairSelf(Last(r1), a, c);
    r := Count(r1, a, c, m);
    CountedCommit(Last(r1), Last(r), a, c);
    LastFalls(r1, r, a, 1, 0);
  }

  lemma LastFalls(r: Run, r': Run, n: Addr, k: int, k1: int)
    requires OneLonger(r, r') && n in Last(r).nodes && n in Last(r').nodes
    requires var s, t := Last(r).nodes[n], Last(r').nodes[n];
             s.role == t.role == Primary && s.term == t.term && s.commit == k && t.commit == k1
    ensures FallsLast(r', n, k, k1)
  {
    hide IsStep;
    assert r'.states[|r.events|] == r.states[|r.events|];
  }

  lemma CountedCommit(k: Cluster, k': Cluster, n: Addr, v: Addr)
    requires CountedAt(k, k', n, v)
    ensures n in k.nodes && n in k'.nodes
    ensures var s, t := k.nodes[n], k'.nodes[n];
            t.role == s.role && t.term == s.term && t.commit == CountedFor(s, v).commit
  {
    hide CommitRule, Update;
    CountedKeeps(k.nodes[n], v);
  }
}
