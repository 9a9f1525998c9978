/** One Raft server as a state and the handlers of RaftServer.cpp as functions on it. A throw sets `fault`
    and leaves the state as it was at the throw; sent RPCs are appended to `outbox`. */
module NodeSpec {
  import opened RaftTypes
  import opened OrderStatistic
  import opened ApplyControl

  datatype Role = Follower | Candidate | Primary

  /** The throw sites a handler can reach in the text of the program. */
  datatype Fault =
    | TermDecreased       // RaftServer.cpp:200
    | ManyEntries         // RaftServer.cpp:465
    | TwoPrimaries        // RaftServer.cpp:474
    | PrelogTermPresent   // RaftServer.cpp:496
    | EmptyAeAheadOfLog   // RaftServer.cpp:524
    | EntryIndexMismatch  // RaftServer.cpp:533
    | RespToNonPrimary    // RaftServer.cpp:623
    | NextBeyondLog       // RaftServer.cpp:689
    | RefusedAtZero       // RaftServer.cpp:729
    | CommitDecreased     // RaftServer.cpp:808
    | GetOutOfRange       // entry.cpp:85, or an index below 0
    | InsertOutOfRange    // entry.cpp:97

  datatype Node = Node(
    self: Addr,
    config: Config,
    term: int,
    role: Role,
    voted: bool,
    votes: int,
    curLsn: map<Addr, int>,
    folLsn: map<Addr, int>,
    commit: int,
    log: seq<Entry>,
    next: map<Addr, int>,
    saved: map<Addr, int>,
    ctl: Controler,
    outbox: seq<Packet>,
    fault: Option<Fault>)

  function Constant(config: Config, v: int): map<Addr, int> {
    map a | a in config :: v
  }

  /** A server as constructed with no stored log. */
  function NewNode(self: Addr, config: Config): Node {
    Node(self, config, 0, Follower, false, 0, Constant(config, 0), Constant(config, -1), -1, [],
         Constant(config, 0), Constant(config, -1), FRESH, [], None)
  }

  function Fail(s: Node, f: Fault): Node {
    s.(fault := Some(f))
  }

  function Send(s: Node, to: Addr, m: Msg): Node {
    s.(outbox := s.outbox + [Packet(to, m)])
  }

  // ----- terms and roles

  /** The loop visits the configuration only: what was remembered of other senders stays. */
  function ResetBothLsn(s: Node): Node {
    s.(curLsn := Constant(s.config, 0), folLsn := s.folLsn + Constant(s.config, -1))
  }

  function UpdateTerm(s: Node, term: int): Node {
    if term > s.term then ResetBothLsn(s).(term := term)
    else if term == s.term then s
    else Fail(s, TermDecreased)
  }

  function Trans2F(s: Node, term: int): Node {
    var s1 := UpdateTerm(s.(votes := 0), term);
    if s1.fault.Some? then s1 else s1.(voted := false, role := Follower)
  }

  function Trans2C(s: Node): Node {
    var s1 := UpdateTerm(s, s.term + 1);
    if s1.fault.Some? then s1 else AskAll(s1.(role := Candidate, votes := 1), s.config)
  }

  function Trans2P(s: Node): Node {
    var size := |s.log|;
    AppendAll(s.(role := Primary, next := Constant(s.config, size),
                 saved := Constant(s.config, -1)[s.self := size - 1]), s.config)
  }

  // ----- outgoing requests

  /** The AE for peer v carrying the given lsn; meaningful while 0 <= next[v] <= |log|. */
  function AeFor(s: Node, v: Addr, lsn: int): Msg {
    var i := At(s.next, v);
    AppendEntry(s.term, if 0 < i <= |s.log| then s.log[i - 1].term else -1, s.commit, lsn, s.self,
                if 0 <= i < |s.log| then [s.log[i]] else [], i - 1)
  }

  function RvFor(s: Node, lsn: int): Msg {
    RequestVote(s.term, |s.log| - 1, 0, lsn, s.self)
  }

  function TakeLsn(s: Node, v: Addr): Node {
    s.(curLsn := s.curLsn[v := At(s.curLsn, v) + 1])
  }

  function AE(s: Node, v: Addr): Node {
    var i := At(s.next, v);
    var s1 := TakeLsn(s, v);
    if 0 <= i <= |s.log| then Send(s1, v, AeFor(s, v, At(s.curLsn, v))) else Fail(s1, GetOutOfRange)
  }

  function RV(s: Node, v: Addr): Node {
    Send(TakeLsn(s, v), v, RvFor(s, At(s.curLsn, v)))
  }

  function AppendAll(s: Node, peers: seq<Addr>): Node
    decreases |peers|
  {
    if peers == [] || s.fault.Some? then s
    else if peers[0].port == s.self.port then AppendAll(s, peers[1..])
    else AppendAll(AE(s, peers[0]), peers[1..])
  }

  function AskAll(s: Node, peers: seq<Addr>): Node
    decreases |peers|
  {
    if peers == [] then s
    else if peers[0].port == s.self.port then AskAll(s, peers[1..])
    else AskAll(RV(s, peers[0]), peers[1..])
  }

  // ----- log, commit index and client commands

  function Insert(s: Node, i: int, e: Entry): Node {
    if 0 <= i <= |s.log| then s.(log := s.log[..i] + [e]) else Fail(s, InsertOutOfRange)
  }

  function ClientApply(s: Node, cmd: string): Node {
    var i := |s.log|;
    var s1 := Insert(s, i, Entry(s.term, i, cmd));
    if s1.fault.Some? then s1 else s1.(saved := s1.saved[s.self := i])
  }

  function ApplyToStateMachine(s: Node, newCommit: int): Node {
    var ctl := Update(s.ctl, s.log, newCommit);
    var s1 := s.(ctl := ctl);
    if ctl.applied < ctl.commit then Fail(s1, GetOutOfRange) else s1
  }

  function PrimaryCommit(s: Node, v: Addr, index: int): Node {
    var saved := s.saved[v := index];
    var k := CommitRule(saved, s.config);
    ApplyToStateMachine(s.(saved := saved, commit := k), k)
  }

  function FollowerCommit(s: Node, remoteCommit: int): Node {
    var k := if |s.log| - 1 < remoteCommit then |s.log| - 1 else remoteCommit;
    var s1 := s.(commit := k);
    if k < s.commit then Fail(s1, CommitDecreased)
    else if k > s.commit then ApplyToStateMachine(s1, k)
    else s1
  }

  // ----- incoming requests

  predicate ShouldIgnore(s: Node, from: Addr, lsn: int) {
    At(s.folLsn, from) >= lsn
  }

  function Remember(s: Node, from: Addr, lsn: int): Node {
    s.(folLsn := s.folLsn[from := lsn])
  }

  function ReplyAe(s: Node, ok: bool, m: Msg): Node
    requires m.AppendEntry?
  {
    Send(s, m.from, RespAppend(ok, s.term, m.lsn, s.self, m.entries == []))
  }

  function ReplyRv(s: Node, ok: bool, m: Msg): Node
    requires m.RequestVote?
  {
    Send(s, m.from, RespVote(ok, s.term, m.lsn, s.self))
  }

  function React2Ae(s: Node, m: Msg): Node
    requires m.AppendEntry?
  {
    if |m.entries| > 1 then Fail(s, ManyEntries)
    else if s.term > m.term then ReplyAe(s, false, m)
    else if s.role == Primary && s.term == m.term then Fail(s, TwoPrimaries)
    else
      var s1 := Trans2F(s, m.term);
      if s1.fault.Some? then s1
      else if ShouldIgnore(s1, m.from, m.lsn) then s1
      else CheckPrelog(Remember(s1, m.from, m.lsn), m)
  }

  function CheckPrelog(s: Node, m: Msg): Node
    requires m.AppendEntry?
  {
    var p := m.prelogIndex;
    if p == -1 then
      if m.prelogTerm != -1 then Fail(s, PrelogTermPresent) else TakeEntries(s, m)
    else if p >= |s.log| then ReplyAe(s, false, m)
    else if p < 0 then Fail(s, GetOutOfRange)
    else if m.prelogTerm != s.log[p].term then ReplyAe(s, false, m)
    else TakeEntries(s, m)
  }

  function TakeEntries(s: Node, m: Msg): Node
    requires m.AppendEntry?
  {
    if m.entries == [] then
      if |s.log| < m.commitIndex then Fail(s, EmptyAeAheadOfLog)
      else
        var s1 := FollowerCommit(s, m.commitIndex);
        if s1.fault.Some? then s1 else ReplyAe(s1, true, m)
    else if m.entries[0].index != m.prelogIndex + 1 then Fail(s, EntryIndexMismatch)
    else
      var s1 := Insert(s, m.prelogIndex + 1, m.entries[0]);
      if s1.fault.Some? then s1
      else
        var s2 := FollowerCommit(s1, m.commitIndex);
        if s2.fault.Some? then s2 else ReplyAe(s2, true, m)
  }

  predicate ShouldVote(s: Node, m: Msg)
    requires m.RequestVote?
  {
    if s.log == [] then true
    else
      var last := s.log[|s.log| - 1];
      if last.term > m.term then false
      else if last.term < m.term then true
      else last.index <= m.latestIndex
  }

  function React2Rv(s: Node, m: Msg): Node
    requires m.RequestVote?
  {
    if s.term > m.term then ReplyRv(s, false, m)
    else
      var s1 := if s.term < m.term then Trans2F(s, m.term) else s;
      if s1.fault.Some? then s1
      else if ShouldIgnore(s1, m.from, m.lsn) then s1
      else Ballot(Remember(s1, m.from, m.lsn), m)
  }

  function Ballot(s: Node, m: Msg): Node
    requires m.RequestVote?
  {
    if s.role != Follower || s.voted || !ShouldVote(s, m) then ReplyRv(s, false, m)
    else ReplyRv(s, true, m).(voted := true)
  }

  // ----- incoming replies

  function React2RespAe(s: Node, m: Msg): Node
    requires m.RespAppend?
  {
    if s.term < m.term then Trans2F(s, m.term)
    else if s.term > m.term then s
    else if s.role == Primary then PrimaryDeal(s, m)
    else Fail(s, RespToNonPrimary)
  }

  function PrimaryDeal(s: Node, m: Msg): Node
    requires m.RespAppend?
  {
    var v := m.from;
    var last := At(s.next, v);
    if At(s.curLsn, v) != m.lsn + 1 then s
    else if m.ok then
      if last > |s.log| then Fail(s, NextBeyondLog)
      else if last == |s.log| then PrimaryCommit(s, v, last - 1)
      else
        var s1 := if m.isEmptyAe then PrimaryCommit(s, v, last - 1)
                  else PrimaryCommit(s.(next := s.next[v := last + 1]), v, last);
        if s1.fault.Some? then s1 else AE(s1, v)
    else if last == 0 then Fail(s, RefusedAtZero)
    else AE(s.(next := s.next[v := last - 1]), v)
  }

  function React2RespRv(s: Node, m: Msg): Node
    requires m.RespVote?
  {
    if s.term < m.term then Trans2F(s, m.term)
    else if s.term > m.term then s
    else if s.role == Candidate then CandidateDeal(s, m)
    else s
  }

  function CandidateDeal(s: Node, m: Msg): Node
    requires m.RespVote?
  {
    if At(s.curLsn, m.from) != m.lsn + 1 || !m.ok then s
    else
      var s1 := s.(votes := s.votes + 1);
      if s1.votes >= Majority(s.config) then Trans2P(s1) else s1
  }

  // ----- one step of a node

  datatype Input =
    | ElectionTimeout
    | RetryRv(peer: Addr)
    | RetryAe(peer: Addr)
    | Command(cmd: string)
    | Receive(msg: Msg)

  /** When the timers and the network may offer this input: the election timer runs unless primary, the
      RV retry timers only for a candidate and the AE retry timers only for a primary. */
  predicate Offered(s: Node, inp: Input) {
    && s.fault.None?
    && match inp
       case ElectionTimeout => s.role != Primary
       case RetryRv(v) => s.role == Candidate && v in s.config && v != s.self
       case RetryAe(v) => s.role == Primary && v in s.config && v != s.self
       case Command(_) => true
       case Receive(_) => true
  }

  function Handle(s: Node, inp: Input): Node {
    match inp
    case ElectionTimeout => Trans2C(s)
    case RetryRv(v) => RV(s, v)
    case RetryAe(v) => AE(s, v)
    case Command(cmd) => ClientApply(s, cmd)
    case Receive(m) =>
      match m
      case RequestVote(_, _, _, _, _) => React2Rv(s, m)
      case AppendEntry(_, _, _, _, _, _, _) => React2Ae(s, m)
      case RespVote(_, _, _, _) => React2RespRv(s, m)
      case RespAppend(_, _, _, _, _) => React2RespAe(s, m)
  }
}
