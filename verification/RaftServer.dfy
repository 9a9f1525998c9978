/** The server object: each method of RaftServer.cpp in place, proved against its function in NodeSpec. */
module RaftServer {
  import opened RaftTypes
  import opened OrderStatistic
  import opened ApplyControl
  import opened NodeSpec
  import opened StoredLog
  import opened StateMachineControl

  ghost predicate Covers(m: map<Addr, int>, c: Config) {
    forall v :: v in m <==> v in c
  }

  lemma CoversUpdate(m: map<Addr, int>, c: Config, v: Addr, x: int)
    requires Covers(m, c) && v in c
    ensures Covers(m[v := x], c) && At(m, v) == m[v]
  {
  }

  lemma CoversHas(m: map<Addr, int>, c: Config, v: Addr)
    requires Covers(m, c) && v in c
    ensures v in m
  {
  }

  lemma CoversOnly(m: map<Addr, int>, c: Config)
    requires Covers(m, c)
    ensures forall v :: v in m ==> v in c
  {
  }

  lemma CoversNot(m: map<Addr, int>, c: Config, v: Addr)
    requires Covers(m, c) && v !in c
    ensures At(m, v) == 0
  {
  }

  lemma UpdateSetsCommit(c: Controler, log: seq<Entry>, k: int)
    ensures Update(c, log, k).commit == k
  {
    AdvanceKeepsCommit(c.(commit := k), log);
  }

  lemma {:induction false} AdvanceKeepsCommit(c: Controler, log: seq<Entry>)
    ensures Advance(c, log).commit == c.commit
    decreases c.commit - c.applied
  {
    if CanHand(c, log) {
      AdvanceKeepsCommit(HandOne(c, log), log);
    }
  }

  // ----- the copy of the saved indices

  lemma KeysAreConfig(m: map<Addr, int>, c: Config)
    requires Covers(m, c)
    ensures multiset(m.Keys) == multiset(c) && |m.Keys| == |c|
  {
    DistinctServers(c);
    assert m.Keys == set v | v in c;
    assert |multiset(c)| == |c|;
  }

  lemma {:induction false} DistinctServers(c: seq<Addr>)
    requires DistinctPorts(c)
    ensures multiset(c) == multiset(set v | v in c)
  {
    if c != [] {
      DistinctTail(c);
      DistinctServers(c[1..]);
      assert c == [c[0]] + c[1..];
      ServersCons(c[0], c[1..]);
    }
  }

  lemma ServersCons(v: Addr, rest: seq<Addr>)
    requires v !in rest
    ensures multiset(set w | w in [v] + rest) == multiset{v} + multiset(set w | w in rest)
  {
    assert (set w | w in [v] + rest) == {v} + set w | w in rest;
  }

  lemma CopyStep(order: seq<Addr>, rest: set<Addr>, ele: Addr)
    requires ele in rest
    ensures multiset(order + [ele]) + multiset(rest - {ele}) == multiset(order) + multiset(rest)
    ensures |rest - {ele}| == |rest| - 1
  {
    assert rest == (rest - {ele}) + {ele};
  }

  lemma ValuesNone(m: map<Addr, int>)
    ensures Values(m, []) == []
  {
  }

  lemma ValuesAppend(m: map<Addr, int>, order: seq<Addr>, v: Addr)
    ensures Values(m, order + [v]) == Values(m, order) + [At(m, v)]
  {
  }

  ghost function Without(s: seq<Addr>, j: nat): (r: seq<Addr>)
    requires j < |s|
    ensures |r| == |s| - 1
  {
    s[..j] + s[j + 1..]
  }

  lemma WithoutLosesOne(s: seq<Addr>, j: nat)
    requires j < |s|
    ensures multiset(s) == multiset(Without(s, j)) + multiset{s[j]}
  {
    assert s == s[..j] + [s[j]] + s[j + 1..];
  }

  lemma ValuesWithout(m: map<Addr, int>, s: seq<Addr>, j: nat)
    requires j < |s|
    ensures multiset(Values(m, s)) == multiset(Values(m, Without(s, j))) + multiset{At(m, s[j])}
  {
    var all, rest := Values(m, s), Values(m, Without(s, j));
    assert rest == rest[..j] + rest[j..];
    assert all == rest[..j] + [At(m, s[j])] + rest[j..];
  }

  lemma {:induction false} ValuesPermute(m: map<Addr, int>, a: seq<Addr>, b: seq<Addr>)
    requires multiset(a) == multiset(b)
    ensures multiset(Values(m, a)) == multiset(Values(m, b))
    decreases |a|
  {
    hide Values, Without;
    if a == [] {
      assert |multiset(b)| == 0;
    } else {
      assert a[0] in multiset(b);
      var j :| 0 <= j < |b| && b[j] == a[0];
      WithoutLosesOne(a, 0);
      WithoutLosesOne(b, j);
      ValuesWithout(m, a, 0);
      ValuesWithout(m, b, j);
      assert multiset(Without(a, 0)) == multiset(a) - multiset{a[0]};
      assert multiset(Without(b, j)) == multiset(a) - multiset{a[0]};
      ValuesPermute(m, Without(a, 0), Without(b, j));
    }
  }

  /** std::sort forgets the order in which the map was walked. */
  lemma SortIgnoresOrder(m: map<Addr, int>, a: seq<Addr>, b: seq<Addr>)
    requires multiset(a) == multiset(b)
    ensures SortDesc(Values(m, a)) == SortDesc(Values(m, b))
  {
    ValuesPermute(m, a, b);
    SortDescSorts(Values(m, a));
    SortDescSorts(Values(m, b));
    DescendingUnique(SortDesc(Values(m, a)), SortDesc(Values(m, b)));
  }

  /** The map after a loop over the configuration has stored x for its first i servers. */
  ghost predicate Merged(m: map<Addr, int>, was: map<Addr, int>, c: Config, i: nat, x: int) {
    && i <= |c|
    && (forall v :: v in m <==> v in was || v in c[..i])
    && (forall v :: v in m ==> m[v] == if v in c[..i] then x else was[v])
  }

  lemma MergeNone(was: map<Addr, int>, c: Config, x: int)
    ensures Merged(was, was, c, 0, x)
  {
  }

  lemma MergeNext(m: map<Addr, int>, was: map<Addr, int>, c: Config, i: nat, x: int)
    requires Merged(m, was, c, i, x) && i < |c|
    ensures Merged(m[c[i] := x], was, c, i + 1, x)
  {
    assert c[..i + 1] == c[..i] + [c[i]];
  }

  lemma MergeDone(m: map<Addr, int>, was: map<Addr, int>, c: Config, x: int)
    requires Merged(m, was, c, |c|, x)
    ensures m == was + Constant(c, x)
    ensures (forall v :: v in was ==> v in c) ==> m == Constant(c, x) && Covers(m, c)
  {
    assert c[..|c|] == c;
  }

  lemma ConstantAt(c: Config)
    ensures forall v, x :: v in c ==> At(Constant(c, x), v) == x
  {
  }

  class RaftServer {
    const server: Addr
    const configuration: Config
    const entries: Entries
    const smc: StateMachineControler
    var term: int
    var state: Role
    var alreadyVoted: bool
    var winnedVotes: int
    var currentRpcLsn: map<Addr, int>
    var followerRpcLsn: map<Addr, int>
    var commitIndex: int
    var nextIndex: map<Addr, int>
    var followerSavedIndex: map<Addr, int>
    var outbox: seq<Packet>
    var fault: Option<Fault>

    /** The state of this object as the specification sees it. */
    ghost function View(): Node
      reads this, entries, smc
    {
      Node(server, configuration, term, state, alreadyVoted, winnedVotes, currentRpcLsn, followerRpcLsn,
           commitIndex, entries.Log(), nextIndex, followerSavedIndex, smc.View(), outbox, fault)
    }

    ghost predicate Valid()
      reads this, entries, entries.data, smc
    {
      && entries.Valid() && smc.entries == entries && -1 <= smc.appliedIndex
      && server in configuration
      && Covers(currentRpcLsn, configuration)
      && Covers(nextIndex, configuration) && Covers(followerSavedIndex, configuration)
    }

    constructor (server: Addr, configuration: Config, entries: Entries)
      requires server in configuration && entries.Valid()
      ensures Valid() && View() == NewNode(server, configuration).(log := entries.Log())
      ensures this.entries == entries && fresh(smc)
      ensures term == 0 && state == Follower && commitIndex == -1 && !alreadyVoted
      ensures forall v :: v in configuration ==>
                && At(nextIndex, v) == At(currentRpcLsn, v) == 0
                && At(followerSavedIndex, v) == At(followerRpcLsn, v) == -1
    {
      hide Covers, Entries.Valid, Constant;
      this.server, this.configuration, this.entries := server, configuration, entries;
      smc := new StateMachineControler(entries);
      term, state, alreadyVoted, winnedVotes, commitIndex := 0, Follower, false, 0, -1;
      outbox, fault := [], None;
      new;
      FillMaps();
      ConstantAt(configuration);
    }

    /** The loop of the constructor over the configuration. */
    method FillMaps()
      modifies this`nextIndex, this`followerSavedIndex, this`currentRpcLsn, this`followerRpcLsn
      ensures nextIndex == currentRpcLsn == Constant(configuration, 0)
      ensures followerSavedIndex == followerRpcLsn == Constant(configuration, -1)
      ensures Covers(nextIndex, configuration) && Covers(followerSavedIndex, configuration)
    {
      hide Merged, Constant;
      nextIndex, followerSavedIndex, currentRpcLsn, followerRpcLsn := map[], map[], map[], map[];
      MergeNone(map[], configuration, 0);
      MergeNone(map[], configuration, -1);
      for i := 0 to |configuration|
        invariant Merged(nextIndex, map[], configuration, i, 0)
        invariant Merged(followerSavedIndex, map[], configuration, i, -1)
        invariant Merged(currentRpcLsn, map[], configuration, i, 0)
        invariant Merged(followerRpcLsn, map[], configuration, i, -1)
      {
        var v := configuration[i];
        MergeNext(nextIndex, map[], configuration, i, 0);
        MergeNext(followerSavedIndex, map[], configuration, i, -1);
        MergeNext(currentRpcLsn, map[], configuration, i, 0);
        MergeNext(followerRpcLsn, map[], configuration, i, -1);
        nextIndex := nextIndex[v := 0];
        followerSavedIndex := followerSavedIndex[v := -1];
        currentRpcLsn := currentRpcLsn[v := 0];
        followerRpcLsn := followerRpcLsn[v := -1];
      }
      MergeDone(nextIndex, map[], configuration, 0);
      MergeDone(followerSavedIndex, map[], configuration, -1);
      MergeDone(currentRpcLsn, map[], configuration, 0);
      MergeDone(followerRpcLsn, map[], configuration, -1);
    }

    method Throw(f: Fault)
      modifies this`fault
      ensures fault == Some(f)
    {
      fault := Some(f);
    }

    // ----- terms and roles

    method ResetBothRpcLsn()
      requires Valid()
      modifies this`currentRpcLsn, this`followerRpcLsn
      ensures Valid() && View() == ResetBothLsn(old(View()))
    {
      hide Merged, Covers, Entries.Valid, Constant;
      MergeNone(currentRpcLsn, configuration, 0);
      MergeNone(followerRpcLsn, configuration, -1);
      for i := 0 to |configuration|
        invariant Merged(currentRpcLsn, old(currentRpcLsn), configuration, i, 0)
        invariant Merged(followerRpcLsn, old(followerRpcLsn), configuration, i, -1)
      {
        MergeNext(currentRpcLsn, old(currentRpcLsn), configuration, i, 0);
        MergeNext(followerRpcLsn, old(followerRpcLsn), configuration, i, -1);
        currentRpcLsn := currentRpcLsn[configuration[i] := 0];
        followerRpcLsn := followerRpcLsn[configuration[i] := -1];
      }
      CoversOnly(old(currentRpcLsn), configuration);
      MergeDone(currentRpcLsn, old(currentRpcLsn), configuration, 0);
      MergeDone(followerRpcLsn, old(followerRpcLsn), configuration, -1);
    }

    method UpdateTerm(newTerm: int)
      requires Valid()
      modifies this`currentRpcLsn, this`followerRpcLsn, this`term, this`fault
      ensures Valid() && View() == NodeSpec.UpdateTerm(old(View()), newTerm)
    {
      hide Covers, Entries.Valid;
      if newTerm > term {
        ResetBothRpcLsn();
        term := newTerm;
      } else if term == newTerm {
      } else {
        Throw(TermDecreased);
      }
    }

    method Trans2F(newTerm: int)
      requires Valid() && fault.None?
      modifies this`currentRpcLsn, this`followerRpcLsn, this`term, this`fault, this`winnedVotes, this`alreadyVoted, this`state
      ensures Valid() && View() == NodeSpec.Trans2F(old(View()), newTerm)
    {
      hide Covers, Entries.Valid, NodeSpec.UpdateTerm;
      winnedVotes := 0;
      UpdateTerm(newTerm);
      if fault.Some? {
        return;
      }
      alreadyVoted := false;
      state := Follower;
    }

    method Trans2C()
      requires Valid() && fault.None?
      modifies this`term, this`currentRpcLsn, this`followerRpcLsn, this`fault, this`state, this`winnedVotes, this`outbox
      ensures Valid() && View() == NodeSpec.Trans2C(old(View()))
    {
      hide Covers, Entries.Valid, NodeSpec.UpdateTerm, AskAll;
      UpdateTerm(term + 1);
      if fault.Some? {
        return;
      }
      state := Candidate;
      winnedVotes := 1;
      AskPeers();
    }

    method AskPeers()
      requires Valid()
      modifies this`currentRpcLsn, this`outbox
      ensures Valid() && View() == AskAll(old(View()), configuration)
    {
      hide Covers, Entries.Valid, NodeSpec.RV;
      assert configuration[0..] == configuration;
      for i := 0 to |configuration|
        invariant Valid() && AskAll(View(), configuration[i..]) == AskAll(old(View()), configuration)
      {
        assert configuration[i..][1..] == configuration[i + 1..];
        if configuration[i].port != server.port {
          RV(configuration[i]);
        }
      }
    }

    method Trans2P()
      requires Valid() && fault.None?
      modifies this`state, this`nextIndex, this`followerSavedIndex, this`currentRpcLsn, this`outbox, this`fault
      ensures Valid() && View() == NodeSpec.Trans2P(old(View()))
    {
      hide Covers, Entries.Valid, AppendAll, Constant;
      state := Primary;
      var entrySize := entries.Size();
      ResetPeers(entrySize);
      CoversUpdate(followerSavedIndex, configuration, server, entrySize - 1);
      followerSavedIndex := followerSavedIndex[server := entrySize - 1];
      AppendPeers();
    }

    method ResetPeers(entrySize: int)
      requires Valid()
      modifies this`nextIndex, this`followerSavedIndex
      ensures Valid() && nextIndex == Constant(configuration, entrySize)
      ensures followerSavedIndex == Constant(configuration, -1)
    {
      hide Merged, Covers, Entries.Valid, Constant;
      MergeNone(nextIndex, configuration, entrySize);
      MergeNone(followerSavedIndex, configuration, -1);
      for i := 0 to |configuration|
        invariant Merged(nextIndex, old(nextIndex), configuration, i, entrySize)
        invariant Merged(followerSavedIndex, old(followerSavedIndex), configuration, i, -1)
      {
        MergeNext(nextIndex, old(nextIndex), configuration, i, entrySize);
        MergeNext(followerSavedIndex, old(followerSavedIndex), configuration, i, -1);
        nextIndex := nextIndex[configuration[i] := entrySize];
        followerSavedIndex := followerSavedIndex[configuration[i] := -1];
      }
      CoversOnly(old(nextIndex), configuration);
      CoversOnly(old(followerSavedIndex), configuration);
      MergeDone(nextIndex, old(nextIndex), configuration, entrySize);
      MergeDone(followerSavedIndex, old(followerSavedIndex), configuration, -1);
    }

    method AppendPeers()
      requires Valid() && fault.None?
      modifies this`currentRpcLsn, this`outbox, this`fault
      ensures Valid() && View() == AppendAll(old(View()), configuration)
    {
      hide Covers, Entries.Valid, NodeSpec.AE;
      assert configuration[0..] == configuration;
      var i := 0;
      while i < |configuration| && fault.None?
        invariant 0 <= i <= |configuration| && Valid()
        invariant AppendAll(View(), configuration[i..]) == AppendAll(old(View()), configuration)
      {
        assert configuration[i..][1..] == configuration[i + 1..];
        if configuration[i].port != server.port {
          AE(configuration[i]);
        }
        i := i + 1;
      }
    }

    // ----- outgoing requests

    method MakeRpcCall(to: Addr, m: Msg)
      modifies this`outbox
      ensures outbox == old(outbox) + [Packet(to, m)]
    {
      outbox := outbox + [Packet(to, m)];
    }

    /** The counter of v before it was advanced. */
    method NextLsn(v: Addr) returns (lsn: int)
      requires Valid() && v in configuration
      modifies this`currentRpcLsn
      ensures Valid() && View() == TakeLsn(old(View()), v) && lsn == At(old(currentRpcLsn), v)
    {
      hide Covers, Entries.Valid;
      CoversUpdate(currentRpcLsn, configuration, v, At(currentRpcLsn, v) + 1);
      assert v in currentRpcLsn by {
        CoversHas(currentRpcLsn, configuration, v);
      }
      lsn := currentRpcLsn[v];
      currentRpcLsn := currentRpcLsn[v := lsn + 1];
    }

    /** None where Entries::get throws. */
    method BuildRpcAe(v: Addr) returns (rpc: Option<Msg>)
      requires Valid() && v in configuration
      modifies this`currentRpcLsn
      ensures Valid() && View() == TakeLsn(old(View()), v)
      ensures rpc == if 0 <= At(nextIndex, v) <= |entries.Log()|
                     then Some(AeFor(old(View()), v, At(old(currentRpcLsn), v))) else None
    {
      hide Covers, Entries.Valid, TakeLsn;
      var lsn := NextLsn(v);
      assert v in nextIndex by {
        CoversHas(nextIndex, configuration, v);
      }
      var indexToSend := nextIndex[v];
      var prelogTerm := -1;
      if indexToSend > 0 {
        var prev := entries.Get(indexToSend - 1);
        if prev.None? {
          return None;
        }
        prelogTerm := prev.value.term;
      }
      var toSend: seq<Entry> := [];
      var size := entries.Size();
      if indexToSend != size {
        if indexToSend < 0 {
          return None;
        }
        var entry := entries.Get(indexToSend);
        if entry.None? {
          return None;
        }
        toSend := [Entry(entry.value.term, entry.value.index, entry.value.msg)];
      }
      rpc := Some(AppendEntry(term, prelogTerm, commitIndex, lsn, server, toSend, indexToSend - 1));
    }

    method AE(v: Addr)
      requires Valid() && fault.None? && v in configuration
      modifies this`currentRpcLsn, this`outbox, this`fault
      ensures Valid() && View() == NodeSpec.AE(old(View()), v)
    {
      hide Covers, Entries.Valid, TakeLsn, AeFor;
      var rpc := BuildRpcAe(v);
      if rpc.None? {
        Throw(GetOutOfRange);
        return;
      }
      MakeRpcCall(v, rpc.value);
    }

    method RV(v: Addr)
      requires Valid() && v in configuration
      modifies this`currentRpcLsn, this`outbox
      ensures Valid() && View() == NodeSpec.RV(old(View()), v)
    {
      hide Covers, Entries.Valid, TakeLsn;
      var lsn := NextLsn(v);
      var size := entries.Size();
      MakeRpcCall(v, RequestVote(term, size - 1, 0, lsn, server));
    }

    // ----- log, commit index and client commands

    method AppendClientApplyToEntries(cmd: string)
      requires Valid() && fault.None?
      modifies this`followerSavedIndex, entries, entries.data
      ensures Valid() && View() == ClientApply(old(View()), cmd)
    {
      hide Covers, Entries.Valid;
      var index := entries.Size();
      var inserted := entries.Insert(index, Entry(term, index, cmd));
      CoversUpdate(followerSavedIndex, configuration, server, index);
      followerSavedIndex := followerSavedIndex[server := index];
    }

    method ApplyToStateMachine(newCommitIndex: int)
      requires Valid()
      modifies this`fault, smc
      ensures Valid() && View() == NodeSpec.ApplyToStateMachine(old(View()), newCommitIndex)
    {
      hide Covers, Entries.Valid, Update;
      var done := smc.UpdateCommitIndexAndApply(newCommitIndex);
      UpdateSetsCommit(old(smc.View()), entries.Log(), newCommitIndex);
      if !done {
        Throw(GetOutOfRange);
      }
    }

    method PrimaryUpdateCommitIndex(v: Addr, index: int)
      requires Valid() && fault.None? && v in configuration
      modifies this`followerSavedIndex, this`commitIndex, this`fault, smc
      ensures Valid() && View() == PrimaryCommit(old(View()), v, index)
    {
      hide Covers, Entries.Valid, CommitRule, NodeSpec.ApplyToStateMachine;
      CoversUpdate(followerSavedIndex, configuration, v, index);
      followerSavedIndex := followerSavedIndex[v := index];
      commitIndex := MajoritySaved();
      ApplyToStateMachine(commitIndex);
    }

    /** Copies the saved indices in whatever order the map yields them, sorts and picks. */
    method MajoritySaved() returns (k: int)
      requires Valid()
      ensures k == CommitRule(followerSavedIndex, configuration)
    {
      hide Entries.Valid, Values, SortDesc;
      var tempSort := new int[|configuration|];
      var rest := followerSavedIndex.Keys;
      ghost var order: seq<Addr> := [];
      KeysAreConfig(followerSavedIndex, configuration);
      var i := 0;
      ValuesNone(followerSavedIndex);
      while rest != {}
        invariant multiset(order) + multiset(rest) == multiset(configuration)
        invariant i == |order| && i + |rest| == |configuration| && rest <= followerSavedIndex.Keys
        invariant tempSort[..i] == Values(followerSavedIndex, order)
        decreases |rest|
      {
        var ele :| ele in rest;
        ValuesAppend(followerSavedIndex, order, ele);
        CopyStep(order, rest, ele);
        tempSort[i] := followerSavedIndex[ele];
        order := order + [ele];
        rest := rest - {ele};
        i := i + 1;
      }
      assert tempSort[..] == tempSort[..i];
      SortIgnoresOrder(followerSavedIndex, order, configuration);
      var sorted := SortDesc(tempSort[..]);
      k := sorted[Majority(configuration) - 1];
    }

    method FollowerUpdateCommitIndex(remoteCommitIndex: int)
      requires Valid() && fault.None?
      modifies this`commitIndex, this`fault, smc
      ensures Valid() && View() == FollowerCommit(old(View()), remoteCommitIndex)
    {
      hide Covers, Entries.Valid, NodeSpec.ApplyToStateMachine;
      var prevCommitIndex := commitIndex;
      var size := entries.Size();
      var latestIndex := size - 1;
      if latestIndex < remoteCommitIndex {
        commitIndex := latestIndex;
      } else {
        commitIndex := remoteCommitIndex;
      }
      if commitIndex < prevCommitIndex {
        Throw(CommitDecreased);
      } else if commitIndex > prevCommitIndex {
        ApplyToStateMachine(commitIndex);
      }
    }

    // ----- incoming requests

    method ShouldIgnoreRemoteRpc(remote: Addr, newLsn: int) returns (ignore: bool)
      requires Valid()
      modifies this`followerRpcLsn
      ensures Valid() && ignore == ShouldIgnore(old(View()), remote, newLsn)
      ensures View() == if ignore then old(View()) else Remember(old(View()), remote, newLsn)
    {
      hide Covers, Entries.Valid;
      var prev := At(followerRpcLsn, remote);
      if prev >= newLsn {
        return true;
      }
      followerRpcLsn := followerRpcLsn[remote := newLsn];
      return false;
    }

    method MakeRespAe(ok: bool, to: Addr, lsn: int, isEmptyAe: bool)
      requires Valid()
      modifies this`outbox
      ensures Valid() && View() == Send(old(View()), to, RespAppend(ok, term, lsn, server, isEmptyAe))
    {
      hide Covers, Entries.Valid;
      MakeRpcCall(to, RespAppend(ok, term, lsn, server, isEmptyAe));
    }

    method MakeRespRv(vote: bool, to: Addr, lsn: int)
      requires Valid()
      modifies this`outbox
      ensures Valid() && View() == Send(old(View()), to, RespVote(vote, term, lsn, server))
    {
      hide Covers, Entries.Valid;
      MakeRpcCall(to, RespVote(vote, term, lsn, server));
    }

    method React2Ae(rpc: Msg)
      requires Valid() && fault.None? && rpc.AppendEntry?
      modifies this, entries, entries.data, smc
      ensures Valid() && View() == NodeSpec.React2Ae(old(View()), rpc)
    {
      hide Covers, Entries.Valid, NodeSpec.Trans2F, NodeSpec.CheckPrelog;
      if |rpc.entries| > 1 {
        Throw(ManyEntries);
        return;
      }
      if term > rpc.term {
        MakeRespAe(false, rpc.from, rpc.lsn, rpc.entries == []);
        return;
      }
      if state == Primary && term == rpc.term {
        Throw(TwoPrimaries);
        return;
      }
      Trans2F(rpc.term);
      if fault.Some? {
        return;
      }
      var ignore := ShouldIgnoreRemoteRpc(rpc.from, rpc.lsn);
      if ignore {
        return;
      }
      CheckPrelog(rpc);
    }

    method CheckPrelog(rpc: Msg)
      requires Valid() && fault.None? && rpc.AppendEntry?
      modifies this, entries, entries.data, smc
      ensures Valid() && View() == NodeSpec.CheckPrelog(old(View()), rpc)
    {
      hide Covers, Entries.Valid, NodeSpec.TakeEntries;
      if rpc.prelogIndex == -1 {
        if rpc.prelogTerm != -1 {
          Throw(PrelogTermPresent);
          return;
        }
      } else {
        var size := entries.Size();
        if rpc.prelogIndex >= size {
          MakeRespAe(false, rpc.from, rpc.lsn, rpc.entries == []);
          return;
        }
        if rpc.prelogIndex < 0 {
          Throw(GetOutOfRange);
          return;
        }
        var prev := entries.Get(rpc.prelogIndex);
        if rpc.prelogTerm != prev.value.term {
          MakeRespAe(false, rpc.from, rpc.lsn, rpc.entries == []);
          return;
        }
      }
      TakeEntries(rpc);
    }

    method TakeEntries(rpc: Msg)
      requires Valid() && fault.None? && rpc.AppendEntry?
      modifies this, entries, entries.data, smc
      ensures Valid() && View() == NodeSpec.TakeEntries(old(View()), rpc)
    {
      hide Covers, Entries.Valid, NodeSpec.FollowerCommit;
      if rpc.entries == [] {
        var size := entries.Size();
        if size < rpc.commitIndex {
          Throw(EmptyAeAheadOfLog);
          return;
        }
      } else {
        var entry := rpc.entries[0];
        if entry.index != rpc.prelogIndex + 1 {
          Throw(EntryIndexMismatch);
          return;
        }
        InsertEntry(rpc.prelogIndex + 1, entry);
        if fault.Some? {
          return;
        }
      }
      FollowerUpdateCommitIndex(rpc.commitIndex);
      if fault.Some? {
        return;
      }
      MakeRespAe(true, rpc.from, rpc.lsn, rpc.entries == []);
    }

    method InsertEntry(index: int, entry: Entry)
      requires Valid() && fault.None?
      modifies this`fault, entries, entries.data
      ensures Valid() && View() == NodeSpec.Insert(old(View()), index, entry)
    {
      hide Covers, Entries.Valid;
      if index < 0 {
        Throw(InsertOutOfRange);
        return;
      }
      var inserted := entries.Insert(index, entry);
      if !inserted {
        Throw(InsertOutOfRange);
      }
    }

    method React2Rv(rpc: Msg)
      requires Valid() && fault.None? && rpc.RequestVote?
      modifies this
      ensures Valid() && View() == NodeSpec.React2Rv(old(View()), rpc)
    {
      hide Covers, Entries.Valid, NodeSpec.Trans2F, NodeSpec.Ballot;
      if term > rpc.term {
        MakeRespRv(false, rpc.from, rpc.lsn);
        return;
      } else if term < rpc.term {
        Trans2F(rpc.term);
        if fault.Some? {
          return;
        }
      }
      var ignore := ShouldIgnoreRemoteRpc(rpc.from, rpc.lsn);
      if ignore {
        return;
      }
      Ballot(rpc);
    }

    method Ballot(rpc: Msg)
      requires Valid() && fault.None? && rpc.RequestVote?
      modifies this`outbox, this`alreadyVoted
      ensures Valid() && View() == NodeSpec.Ballot(old(View()), rpc)
    {
      hide Covers, Entries.Valid;
      if state == Candidate || state == Primary {
        MakeRespRv(false, rpc.from, rpc.lsn);
      } else if !alreadyVoted {
        var shouldVote := false;
        var size := entries.Size();
        if size == 0 {
          shouldVote := true;
        } else {
          var last := entries.Get(size - 1);
          if last.value.term > rpc.term {
            shouldVote := false;
          } else if last.value.term < rpc.term {
            shouldVote := true;
          } else if last.value.index > rpc.latestIndex {
            shouldVote := false;
          } else {
            shouldVote := true;
          }
        }
        if shouldVote {
          MakeRespRv(true, rpc.from, rpc.lsn);
          alreadyVoted := true;
        } else {
          MakeRespRv(false, rpc.from, rpc.lsn);
        }
      } else {
        MakeRespRv(false, rpc.from, rpc.lsn);
      }
    }

    // ----- incoming replies

    /** An ok that a primary counts comes from its configuration: for any other sender the copy of the saved
        indices would be written past its end (RaftServer.cpp:779-786). */
    ghost predicate Countable(resp: Msg)
      reads this
    {
      (resp.RespAppend? && resp.ok && state == Primary && term == resp.term
       && At(currentRpcLsn, resp.from) == resp.lsn + 1) ==> resp.from in configuration
    }

    method React2RespAe(resp: Msg)
      requires Valid() && fault.None? && resp.RespAppend? && Countable(resp)
      modifies this, smc
      ensures Valid() && View() == NodeSpec.React2RespAe(old(View()), resp)
    {
      hide Covers, Entries.Valid, NodeSpec.Trans2F, NodeSpec.PrimaryDeal;
      if term < resp.term {
        Trans2F(resp.term);
      } else if term > resp.term {
      } else if state == Primary {
        PrimaryDealRespAeWithSameTerm(resp);
      } else {
        Throw(RespToNonPrimary);
      }
    }

    method PrimaryDealRespAeWithSameTerm(resp: Msg)
      requires Valid() && fault.None? && resp.RespAppend? && state == Primary && term == resp.term && Countable(resp)
      modifies this, smc
      ensures Valid() && View() == PrimaryDeal(old(View()), resp)
    {
      hide Covers, Entries.Valid, NodeSpec.PrimaryCommit, NodeSpec.AE;
      var v := resp.from;
      if At(currentRpcLsn, v) != resp.lsn + 1 {
        return;
      }
      var lastSendIndex := At(nextIndex, v);
      assert v in configuration || lastSendIndex == 0 by {
        if v !in configuration {
          CoversNot(nextIndex, configuration, v);
        }
      }
      if resp.ok {
        var size := entries.Size();
        if lastSendIndex > size {
          Throw(NextBeyondLog);
        } else if lastSendIndex == size {
          PrimaryUpdateCommitIndex(v, lastSendIndex - 1);
        } else {
          if resp.isEmptyAe {
            PrimaryUpdateCommitIndex(v, lastSendIndex - 1);
          } else {
            SetNextIndex(v, lastSendIndex + 1);
            PrimaryUpdateCommitIndex(v, lastSendIndex);
          }
          if fault.Some? {
            return;
          }
          AE(v);
        }
      } else if lastSendIndex == 0 {
        Throw(RefusedAtZero);
      } else {
        SetNextIndex(v, lastSendIndex - 1);
        AE(v);
      }
    }

    method SetNextIndex(v: Addr, index: int)
      requires Valid() && v in configuration
      modifies this`nextIndex
      ensures Valid() && View() == old(View()).(next := old(nextIndex)[v := index])
    {
      hide Covers, Entries.Valid;
      CoversUpdate(nextIndex, configuration, v, index);
      nextIndex := nextIndex[v := index];
    }

    method React2RespRv(resp: Msg)
      requires Valid() && fault.None? && resp.RespVote?
      modifies this
      ensures Valid() && View() == NodeSpec.React2RespRv(old(View()), resp)
    {
      hide Covers, Entries.Valid, NodeSpec.Trans2F, NodeSpec.CandidateDeal;
      if term < resp.term {
        Trans2F(resp.term);
      } else if term > resp.term {
      } else if state == Candidate {
        CandidateDealRespRvWithSameTerm(resp);
      }
    }

    method CandidateDealRespRvWithSameTerm(resp: Msg)
      requires Valid() && fault.None? && resp.RespVote?
      modifies this
      ensures Valid() && View() == CandidateDeal(old(View()), resp)
    {
      hide Covers, Entries.Valid, NodeSpec.Trans2P;
      if At(currentRpcLsn, resp.from) != resp.lsn + 1 {
        return;
      }
      if resp.ok {
        winnedVotes := winnedVotes + 1;
        if winnedVotes >= Majority(configuration) {
          Trans2P();
        }
      }
    }

    // ----- the events of the io thread

    /** The network has taken over what was handed to it. */
    method Flush() returns (sent: seq<Packet>)
      requires Valid()
      modifies this`outbox
      ensures sent == old(outbox) && Valid() && View() == old(View()).(outbox := [])
    {
      hide Covers, Entries.Valid;
      sent := outbox;
      outbox := [];
    }

    method ReactToIncomingMsg(msg: Msg)
      requires Valid() && fault.None? && Countable(msg)
      modifies this, entries, entries.data, smc
      ensures Valid() && View() == Handle(old(View()), Receive(msg))
    {
      hide Covers, Entries.Valid, NodeSpec.React2Rv, NodeSpec.React2Ae, NodeSpec.React2RespRv, NodeSpec.React2RespAe;
      match msg
      case RequestVote(_, _, _, _, _) => React2Rv(msg);
      case AppendEntry(_, _, _, _, _, _, _) => React2Ae(msg);
      case RespVote(_, _, _, _) => React2RespRv(msg);
      case RespAppend(_, _, _, _, _) => React2RespAe(msg);
    }

    /** Whatever the timers, the clients or the network may offer next. */
    method Next(inp: Input)
      requires Valid() && Offered(View(), inp) && (inp.Receive? ==> Countable(inp.msg))
      modifies this, entries, entries.data, smc
      ensures Valid() && View() == Handle(old(View()), inp)
    {
      hide Covers, Entries.Valid, NodeSpec.React2Rv, NodeSpec.React2Ae, NodeSpec.React2RespRv, NodeSpec.React2RespAe,
        NodeSpec.Trans2C, NodeSpec.RV, NodeSpec.AE, NodeSpec.ClientApply;
      match inp
      case ElectionTimeout => Trans2C();
      case RetryRv(v) => RV(v);
      case RetryAe(v) => AE(v);
      case Command(cmd) => AppendClientApplyToEntries(cmd);
      case Receive(msg) => ReactToIncomingMsg(msg);
    }

    /** A whole event: handle the input, then hand every RPC to the network. This is the move of one server in a
        step of the cluster. */
    method Move(inp: Input) returns (sent: seq<Packet>)
      requires Valid() && Offered(View(), inp) && (inp.Receive? ==> Countable(inp.msg))
      modifies this, entries, entries.data, smc
      ensures Valid() && View() == Handle(old(View()), inp).(outbox := [])
      ensures sent == Handle(old(View()), inp).outbox
    {
      hide Covers, Entries.Valid, Handle, Offered;
      Next(inp);
      sent := Flush();
    }
  }
}
