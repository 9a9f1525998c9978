/** The key/value machine as a fold over its calls, and the object that holds it. */
module KeyValue {
  import opened RaftTypes

  datatype Call = Call(key: string, v: int)

  /** The protobuf encodings of apply_call and query_call, left abstract up to the round trip. */
  datatype Wire = Wire(buildApply: Call -> string, parseApply: string -> Call,
                       buildQuery: string -> string, parseQuery: string -> string)

  ghost predicate RoundTrips(w: Wire) {
    && (forall c :: w.parseApply(w.buildApply(c)) == c)
    && (forall k :: w.parseQuery(w.buildQuery(k)) == k)
  }

  type Machine = map<string, int>

  datatype Op = Apply(call: Call) | Get(key: string)

  /** A get inserts 0 for a key it does not find. */
  function Perform(m: Machine, op: Op): Machine {
    match op
    case Apply(c) => m[c.key := c.v]
    case Get(k) => if k in m then m else m[k := 0]
  }

  function PerformAll(m: Machine, ops: seq<Op>): Machine {
    if ops == [] then m else Perform(PerformAll(m, ops[..|ops| - 1]), ops[|ops| - 1])
  }

  function Calls(ops: seq<Op>): seq<Call> {
    if ops == [] then []
    else
      var op := ops[|ops| - 1];
      Calls(ops[..|ops| - 1]) + if op.Apply? then [op.call] else []
  }

  /** The value of the latest call that names the key, and 0 when none does. */
  function Latest(calls: seq<Call>, key: string): int {
    if calls == [] then 0
    else
      var c := calls[|calls| - 1];
      if c.key == key then c.v else Latest(calls[..|calls| - 1], key)
  }

  /** Seen through a lookup that defaults to 0, the machine is the fold of the calls alone. */
  lemma {:induction false} LookupIsLatest(ops: seq<Op>, key: string)
    ensures At(PerformAll(map[], ops), key) == Latest(Calls(ops), key)
  {
    if ops != [] {
      var before, op := ops[..|ops| - 1], ops[|ops| - 1];
      LookupIsLatest(before, key);
      if op.Apply? {
        assert Calls(ops)[..|Calls(ops)| - 1] == Calls(before);
      } else {
        assert Calls(ops) == Calls(before);
      }
    }
  }

  /** Queries never change a later answer: only the calls count, wherever queries came between them. */
  lemma QueriesDoNotMatter(a: seq<Op>, b: seq<Op>, key: string)
    requires Calls(a) == Calls(b)
    ensures At(PerformAll(map[], a), key) == At(PerformAll(map[], b), key)
  {
    LookupIsLatest(a, key);
    LookupIsLatest(b, key);
  }

  /** The keys that calls and queries named. */
  function Named(ops: seq<Op>): set<string> {
    set i | 0 <= i < |ops| :: match ops[i] case Apply(c) => c.key case Get(k) => k
  }

  /** The machine knows exactly the keys it was asked about or told: a query for a missing key inserts it. */
  lemma {:induction false} KeysAreNamed(ops: seq<Op>)
    ensures PerformAll(map[], ops).Keys == Named(ops)
  {
    if ops != [] {
      var before, op := ops[..|ops| - 1], ops[|ops| - 1];
      KeysAreNamed(before);
      assert forall i :: 0 <= i < |before| ==> before[i] == ops[i];
      assert Named(ops) == Named(before) + {match op case Apply(c) => c.key case Get(k) => k};
    }
  }

  class EasyStateMachine {
    const wire: Wire
    var mockStateMachine: Machine

    constructor (wire: Wire)
      ensures this.wire == wire && mockStateMachine == map[]
    {
      this.wire := wire;
      mockStateMachine := map[];
    }

    method Apply(encodedApplyStr: string) returns (ok: bool)
      modifies this
      ensures ok && mockStateMachine == Perform(old(mockStateMachine), Op.Apply(wire.parseApply(encodedApplyStr)))
    {
      var call := wire.parseApply(encodedApplyStr);
      mockStateMachine := mockStateMachine[call.key := call.v];
      ok := true;
    }

    /** map::operator[]: the answer is read after a missing key was given the value 0. */
    method Get(encodedGetStr: string) returns (ok: bool, v: int)
      modifies this
      ensures ok && v == At(old(mockStateMachine), wire.parseQuery(encodedGetStr))
      ensures mockStateMachine == Perform(old(mockStateMachine), Op.Get(wire.parseQuery(encodedGetStr)))
    {
      var key := wire.parseQuery(encodedGetStr);
      if key !in mockStateMachine {
        mockStateMachine := mockStateMachine[key := 0];
      }
      ok, v := true, mockStateMachine[key];
    }
  }
}

/** The apply pipeline: the controler feeds the single write worker while queries read the same machine. */
module ApplyPipeline {
  import opened RaftTypes
  import opened ApplyControl
  import opened PoolSteps
  import opened KeyValue

  datatype Pipeline = Pipeline(ctl: Controler, pool: Pool<Task>, ops: seq<Op>)

  datatype Move =
    | SetCommit(index: int)
    | Hand(log: seq<Entry>)      // one round of the catch-up loop, on the log of that moment
    | Write(event: Event<Task>)  // the write worker moves, or the pool is stopped
    | Read(key: string)

  function Start(): Pipeline {
    Pipeline(FRESH, NewPool(1), [])
  }

  predicate Possible(s: Pipeline, m: Move) {
    match m
    case SetCommit(_) => true
    case Hand(log) => CanHand(s.ctl, log) && !s.pool.stop
    case Write(e) => !e.Enqueue? && Enabled(s.pool, e)
    case Read(_) => true
  }

  function Do(w: Wire, s: Pipeline, m: Move): Pipeline
    requires Possible(s, m)
  {
    match m
    case SetCommit(k) => s.(ctl := s.ctl.(commit := k))
    case Hand(log) =>
      var ctl := HandOne(s.ctl, log);
      s.(ctl := ctl, pool := After(s.pool, Enqueue(ctl.tasks[|ctl.tasks| - 1])))
    case Write(e) =>
      s.(pool := After(s.pool, e),
         ops := s.ops + if e.Finish? then [Apply(w.parseApply(s.pool.workers[e.worker].task.msg))] else [])
    case Read(key) => s.(ops := s.ops + [Get(key)])
  }

  function CallsOf(w: Wire, tasks: seq<Task>): (r: seq<Call>)
    ensures |r| == |tasks|
  {
    seq(|tasks|, i requires 0 <= i < |tasks| => w.parseApply(tasks[i].msg))
  }

  ghost predicate PipelineInv(w: Wire, s: Pipeline) {
    && InOrder(s.ctl)
    && PoolInv(s.pool) && |s.pool.workers| == 1
    && s.pool.accepted == s.ctl.tasks
    && Calls(s.ops) == CallsOf(w, s.pool.executed)
  }

  lemma CallsAppend(ops: seq<Op>, op: Op)
    ensures Calls(ops + [op]) == Calls(ops) + if op.Apply? then [op.call] else []
  {
    assert (ops + [op])[..|ops|] == ops;
  }

  lemma MoveKeeps(w: Wire, s: Pipeline, m: Move)
    requires PipelineInv(w, s) && Possible(s, m)
    ensures PipelineInv(w, Do(w, s, m))
  {
    hide PoolInv, Calls;
    match m
    case SetCommit(_) =>
    case Hand(log) =>
      StepKeepsPool(s.pool, Enqueue(HandOne(s.ctl, log).tasks[|s.ctl.tasks|]));
    case Write(e) =>
      StepKeepsPool(s.pool, e);
      if e.Finish? {
        CallsAppend(s.ops, Apply(w.parseApply(s.pool.workers[e.worker].task.msg)));
      } else {
        assert s.ops + [] == s.ops;
      }
    case Read(key) => CallsAppend(s.ops, Get(key));
  }

  ghost predicate Moves(w: Wire, s: Pipeline, ms: seq<Move>, t: Pipeline)
    decreases |ms|
  {
    if ms == [] then s == t else Possible(s, ms[0]) && Moves(w, Do(w, s, ms[0]), ms[1..], t)
  }

  lemma {:induction false} MovesKeep(w: Wire, s: Pipeline, ms: seq<Move>, t: Pipeline)
    requires PipelineInv(w, s) && Moves(w, s, ms, t)
    ensures PipelineInv(w, t)
    decreases |ms|
  {
    hide PipelineInv;
    if ms != [] {
      MoveKeeps(w, s, ms[0]);
      MovesKeep(w, Do(w, s, ms[0]), ms[1..], t);
    }
  }

  /** In every interleaving of commit updates, the write worker and queries: the commands of the entries
      0, 1, ..., |executed| - 1 were applied, each exactly once and in log order, and every lookup answers as
      the fold of exactly those commands. */
  lemma AppliedInLogOrder(w: Wire, ms: seq<Move>, t: Pipeline, key: string)
    requires Moves(w, Start(), ms, t)
    ensures t.pool.executed <= t.ctl.tasks
    ensures forall k :: 0 <= k < |t.pool.executed| ==> t.pool.executed[k].index == k
    ensures At(PerformAll(map[], t.ops), key) == Latest(CallsOf(w, t.pool.executed), key)
    ensures Joined(t.pool) ==> t.pool.executed == t.ctl.tasks
  {
    NewPoolInv<Task>(1);
    MovesKeep(w, Start(), ms, t);
    LookupIsLatest(t.ops, key);
  }

  function Queried(ops: seq<Op>): seq<string> {
    if ops == [] then []
    else
      var op := ops[|ops| - 1];
      Queried(ops[..|ops| - 1]) + if op.Get? then [op.key] else []
  }

  function Reads(ms: seq<Move>): seq<string> {
    if ms == [] then [] else (if ms[0].Read? then [ms[0].key] else []) + Reads(ms[1..])
  }

  lemma QueriedAppend(ops: seq<Op>, op: Op)
    ensures Queried(ops + [op]) == Queried(ops) + if op.Get? then [op.key] else []
  {
    assert (ops + [op])[..|ops|] == ops;
  }

  /** The machine performs each get once, at its own moment, whatever is written meanwhile. */
  lemma {:induction false} QueriesServed(w: Wire, s: Pipeline, ms: seq<Move>, t: Pipeline)
    requires Moves(w, s, ms, t)
    ensures Queried(t.ops) == Queried(s.ops) + Reads(ms)
    decreases |ms|
  {
    hide Queried;
    if ms != [] {
      var u := Do(w, s, ms[0]);
      QueriesServed(w, u, ms[1..], t);
      match ms[0]
      case Read(key) => QueriedAppend(s.ops, Get(key));
      case Write(e) =>
        if e.Finish? {
          QueriedAppend(s.ops, Apply(w.parseApply(s.pool.workers[e.worker].task.msg)));
        } else {
          assert u.ops == s.ops;
        }
      case _ =>
    }
  }

  /** The catch-up loop of the controler is a sequence of Hand moves. */
  lemma {:induction false} LoopIsHands(w: Wire, s: Pipeline, log: seq<Entry>) returns (ms: seq<Move>, t: Pipeline)
    requires !s.pool.stop
    ensures Moves(w, s, ms, t) && t.ctl == Advance(s.ctl, log)
    ensures forall m :: m in ms ==> m == Hand(log)
    decreases s.ctl.commit - s.ctl.applied
  {
    if CanHand(s.ctl, log) {
      var s1 := Do(w, s, Hand(log));
      ms, t := LoopIsHands(w, s1, log);
      assert ([Hand(log)] + ms)[1..] == ms;
      ms := [Hand(log)] + ms;
    } else {
      ms, t := [], s;
    }
  }

  /** With its one worker idle or running, a pool that is not stopped can execute all it has accepted. */
  lemma {:induction false} WorkerCatchesUp(w: Wire, s: Pipeline) returns (ms: seq<Move>, t: Pipeline)
    requires PipelineInv(w, s) && !s.pool.stop
    ensures Moves(w, s, ms, t) && PipelineInv(w, t) && t.ctl == s.ctl && t.pool.executed == t.ctl.tasks
    decreases 2 * |s.pool.tasks| + Work(s.pool.workers[0])
  {
    hide InHand;
    if s.pool.workers[0].Idle? && s.pool.tasks == [] {
      return [], s;
    }
    assert s.pool.workers[0].Returned? ==> Returned in s.pool.workers;
    var m := Write(if s.pool.workers[0].Running? then Finish(0) else Take(0));
    MoveKeeps(w, s, m);
    var rest;
    rest, t := WorkerCatchesUp(w, Do(w, s, m));
    ms := [m] + rest;
    assert ms[1..] == rest;
  }

  lemma {:induction false} MovesOn(w: Wire, s: Pipeline, a: seq<Move>, t: Pipeline, b: seq<Move>, u: Pipeline)
    requires Moves(w, s, a, t) && Moves(w, t, b, u)
    ensures Moves(w, s, a + b, u)
    decreases |a|
  {
    if a == [] {
      assert a + b == b;
    } else {
      MovesOn(w, Do(w, s, a[0]), a[1..], t, b, u);
      assert (a + b)[1..] == a[1..] + b;
    }
  }

  /** Committed entries take effect: from every state of a pipeline that is not stopped, once the commit index is set
      to an index of the log the entries up to it get applied, and lookups answer as the fold over them. */
  lemma CommittedGetApplied(w: Wire, before: seq<Move>, s: Pipeline, log: seq<Entry>, k: nat, key: string)
    returns (ms: seq<Move>, t: Pipeline)
    requires Moves(w, Start(), before, s) && !s.pool.stop && k < |log|
    ensures Moves(w, s, [SetCommit(k)] + ms, t) && k < |t.pool.executed|
    ensures forall j :: |s.ctl.tasks| <= j <= k ==> t.pool.executed[j] == Task(j, log[j].msg)
    ensures At(PerformAll(map[], t.ops), key) == Latest(CallsOf(w, t.pool.executed), key)
  {
    hide PoolInv, Calls, PerformAll, CallsOf, Latest;
    NewPoolInv<Task>(1);
    StartKeeps(w);
    MovesKeep(w, Start(), before, s);
    MoveKeeps(w, s, SetCommit(k));
    var s1 := Do(w, s, SetCommit(k));
    var hands, s2 := LoopIsHands(w, s1, log);
    AdvanceHandsOver(s1.ctl, log);
    MovesKeep(w, s1, hands, s2);
    HandsKeepStop(w, s1, hands, s2, log);
    var works;
    works, t := WorkerCatchesUp(w, s2);
    MovesOn(w, s1, hands, s2, works, t);
    ms := hands + works;
    assert ([SetCommit(k)] + ms)[1..] == ms;
    MovesOn(w, Start(), before, s, [SetCommit(k)] + ms, t);
    AppliedInLogOrder(w, before + ([SetCommit(k)] + ms), t, key);
  }

  lemma StartKeeps(w: Wire)
    ensures PipelineInv(w, Start())
  {
    NewPoolInv<Task>(1);
  }

  lemma {:induction false} HandsKeepStop(w: Wire, s: Pipeline, ms: seq<Move>, t: Pipeline, log: seq<Entry>)
    requires Moves(w, s, ms, t) && forall m :: m in ms ==> m == Hand(log)
    ensures t.pool.stop == s.pool.stop
    decreases |ms|
  {
    if ms != [] {
      assert ms[0] in ms;
      assert forall m :: m in ms[1..] ==> m in ms;
      HandsKeepStop(w, Do(w, s, ms[0]), ms[1..], t, log);
    }
  }

  /** A command built by a client is the one that takes effect. */
  lemma CommandTakesEffect(w: Wire, ms: seq<Move>, t: Pipeline, call: Call)
    requires RoundTrips(w) && Moves(w, Start(), ms, t) && t.pool.executed != []
    requires t.pool.executed[|t.pool.executed| - 1].msg == w.buildApply(call)
    ensures At(PerformAll(map[], t.ops), call.key) == call.v
  {
    AppliedInLogOrder(w, ms, t, call.key);
  }
}
