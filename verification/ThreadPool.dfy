/** The thread pool as steps of its workers between lock operations, in any interleaving. */
module PoolSteps {

  datatype Worker<T> = Idle | Running(task: T) | Returned

  /** Workers, queue and stop flag, with the tasks accepted, started and executed so far in that order. */
  datatype Pool<T> = Pool(workers: seq<Worker<T>>, tasks: seq<T>, stop: bool,
                          accepted: seq<T>, started: seq<T>, executed: seq<T>)

  datatype Event<T> =
    | Enqueue(task: T)
    | Take(worker: nat)     // a worker passes the wait and pops the front of the queue
    | Finish(worker: nat)   // its task() ends
    | Return(worker: nat)   // a worker passes the wait with nothing left to do
    | Stop                  // the destructor sets the flag

  function NewPool<T>(n: nat): Pool<T> {
    Pool(seq(n, _ => Idle), [], false, [], [], [])
  }

  /** An enqueue on a stopped pool throws and a waiting worker stays blocked: neither is a step. */
  predicate Enabled<T>(p: Pool<T>, e: Event<T>) {
    match e
    case Enqueue(_) => !p.stop
    case Take(i) => i < |p.workers| && p.workers[i].Idle? && p.tasks != []
    case Finish(i) => i < |p.workers| && p.workers[i].Running?
    case Return(i) => i < |p.workers| && p.workers[i].Idle? && p.stop && p.tasks == []
    case Stop => true
  }

  function After<T>(p: Pool<T>, e: Event<T>): Pool<T>
    requires Enabled(p, e)
  {
    match e
    case Enqueue(t) => p.(tasks := p.tasks + [t], accepted := p.accepted + [t])
    case Take(i) =>
      p.(workers := p.workers[i := Running(p.tasks[0])], tasks := p.tasks[1..], started := p.started + [p.tasks[0]])
    case Finish(i) => p.(workers := p.workers[i := Idle], executed := p.executed + [p.workers[i].task])
    case Return(i) => p.(workers := p.workers[i := Returned])
    case Stop => p.(stop := true)
  }

  predicate IsWorkerStep<T>(e: Event<T>) {
    e.Take? || e.Finish? || e.Return?
  }

  /** q is reached from p by the events, in this order. */
  ghost predicate Leads<T>(p: Pool<T>, events: seq<Event<T>>, q: Pool<T>)
    decreases |events|
  {
    if events == [] then p == q else Enabled(p, events[0]) && Leads(After(p, events[0]), events[1..], q)
  }

  lemma LeadsNowhere<T>(p: Pool<T>)
    ensures Leads(p, [], p)
  {
  }

  lemma {:induction false} LeadsOn<T>(p: Pool<T>, a: seq<Event<T>>, q: Pool<T>, b: seq<Event<T>>, r: Pool<T>)
    requires Leads(p, a, q) && Leads(q, b, r)
    ensures Leads(p, a + b, r)
    decreases |a|
  {
    if a == [] {
      assert a + b == b;
    } else {
      LeadsOn(After(p, a[0]), a[1..], q, b, r);
      assert (a + b)[1..] == a[1..] + b;
    }
  }

  lemma Extend<T>(p: Pool<T>, events: seq<Event<T>>, q: Pool<T>, e: Event<T>) returns (more: seq<Event<T>>)
    requires Leads(p, events, q) && Enabled(q, e)
    ensures more == events + [e] && Leads(p, more, After(q, e))
  {
    more := events + [e];
    assert Leads(After(q, e), [], After(q, e));
    assert Leads(q, [e], After(q, e));
    LeadsOn(p, events, q, [e], After(q, e));
  }

  function Held<T>(w: Worker<T>): multiset<T> {
    if w.Running? then multiset{w.task} else multiset{}
  }

  /** The tasks being executed right now. */
  function InHand<T>(workers: seq<Worker<T>>): multiset<T> {
    if workers == [] then multiset{} else Held(workers[0]) + InHand(workers[1..])
  }

  lemma Regroup<T>(h: multiset<T>, a: multiset<T>, x: multiset<T>, b: multiset<T>, y: multiset<T>)
    requires a + x == b + y
    ensures h + a + x == h + b + y
  {
    assert h + a + x == h + (a + x);
    assert h + b + y == h + (b + y);
  }

  lemma {:induction false} InHandUpdate<T>(workers: seq<Worker<T>>, i: nat, w: Worker<T>)
    requires i < |workers|
    ensures InHand(workers[i := w]) + Held(workers[i]) == InHand(workers) + Held(w)
  {
    hide Held;
    var rest := workers[1..];
    if i == 0 {
      assert workers[i := w][1..] == rest;
    } else {
      InHandUpdate(rest, i - 1, w);
      assert workers[i := w][1..] == rest[i - 1 := w];
      Regroup(Held(workers[0]), InHand(rest[i - 1 := w]), Held(rest[i - 1]), InHand(rest), Held(w));
    }
  }

  // ----- conservation

  function Current<T>(w: Worker<T>): seq<T> {
    if w.Running? then [w.task] else []
  }

  ghost predicate PoolInv<T>(p: Pool<T>) {
    && multiset(p.accepted) == multiset(p.executed) + InHand(p.workers) + multiset(p.tasks)
    && p.accepted == p.started + p.tasks
    && (Returned in p.workers ==> p.stop && p.tasks == [])
    && (|p.workers| == 1 ==> p.started == p.executed + Current(p.workers[0]))
  }

  lemma StepKeepsPool<T>(p: Pool<T>, e: Event<T>)
    requires PoolInv(p) && Enabled(p, e)
    ensures PoolInv(After(p, e))
  {
    hide InHand;
    if IsWorkerStep(e) {
      WorkerStepKeeps(p, e);
    }
  }

  lemma WorkerStepKeeps<T>(p: Pool<T>, e: Event<T>)
    requires PoolInv(p) && Enabled(p, e) && IsWorkerStep(e)
    ensures PoolInv(After(p, e))
  {
    hide InHand, Held, Current;
    WorkerStepConserves(p, e);
    WorkerStepOrders(p, e);
    WorkerStepReturns(p, e);
  }

  lemma WorkerStepReturns<T>(p: Pool<T>, e: Event<T>)
    requires Enabled(p, e) && IsWorkerStep(e) && (Returned in p.workers ==> p.stop && p.tasks == [])
    ensures var q := After(p, e); Returned in q.workers ==> q.stop && q.tasks == []
  {
    var q := After(p, e);
    if Returned in q.workers {
      var j :| 0 <= j < |q.workers| && q.workers[j].Returned?;
      assert j != e.worker ==> p.workers[j] == q.workers[j];
      assert p.workers[j] == Returned ==> Returned in p.workers;
    }
  }

  lemma WorkerStepConserves<T>(p: Pool<T>, e: Event<T>)
    requires multiset(p.accepted) == multiset(p.executed) + InHand(p.workers) + multiset(p.tasks)
    requires Enabled(p, e) && IsWorkerStep(e)
    ensures var q := After(p, e);
            multiset(q.accepted) == multiset(q.executed) + InHand(q.workers) + multiset(q.tasks)
  {
    hide InHand;
    var q := After(p, e);
    var i := e.worker;
    InHandUpdate(p.workers, i, q.workers[i]);
    var a, b := InHand(p.workers), InHand(q.workers);
    match e
    case Take(_) =>
      assert p.tasks == [p.tasks[0]] + p.tasks[1..];
      assert b == b + Held(p.workers[i]);
    case Finish(_) =>
      assert a == a + Held(q.workers[i]);
    case Return(_) =>
      assert a == a + Held(q.workers[i]);
      assert b == b + Held(p.workers[i]);
  }

  lemma WorkerStepOrders<T>(p: Pool<T>, e: Event<T>)
    requires Enabled(p, e) && IsWorkerStep(e)
    requires p.accepted == p.started + p.tasks
    requires |p.workers| == 1 ==> p.started == p.executed + Current(p.workers[0])
    ensures var q := After(p, e);
            && q.accepted == q.started + q.tasks
            && (|q.workers| == 1 ==> q.started == q.executed + Current(q.workers[0]))
  {
    hide InHand;
  }

  lemma {:induction false} NewPoolHoldsNothing<T>(workers: seq<Worker<T>>)
    requires forall j :: 0 <= j < |workers| ==> workers[j].Idle?
    ensures InHand(workers) == multiset{}
  {
    if workers != [] {
      NewPoolHoldsNothing(workers[1..]);
    }
  }

  lemma {:induction false} RunKeepsPool<T>(p: Pool<T>, events: seq<Event<T>>, q: Pool<T>)
    requires PoolInv(p) && Leads(p, events, q)
    ensures PoolInv(q) && |q.workers| == |p.workers|
    decreases |events|
  {
    hide PoolInv;
    if events != [] {
      StepKeepsPool(p, events[0]);
      RunKeepsPool(After(p, events[0]), events[1..], q);
    }
  }

  lemma NewPoolInv<T>(n: nat)
    ensures PoolInv(NewPool<T>(n))
  {
    NewPoolHoldsNothing(NewPool<T>(n).workers);
  }

  /** In every interleaving of any number of workers no task is lost, duplicated or invented, and tasks are
      started in the order they were enqueued. */
  lemma Conservation<T>(n: nat, events: seq<Event<T>>, q: Pool<T>)
    requires Leads(NewPool(n), events, q)
    ensures multiset(q.accepted) == multiset(q.executed) + InHand(q.workers) + multiset(q.tasks)
    ensures q.accepted == q.started + q.tasks
  {
    NewPoolInv<T>(n);
    RunKeepsPool(NewPool(n), events, q);
  }

  /** A single worker executes in the order of enqueueing. */
  lemma OneWorkerInOrder<T>(events: seq<Event<T>>, q: Pool<T>)
    requires Leads(NewPool(1), events, q)
    ensures |q.workers| == 1 && q.executed <= q.accepted
    ensures q.accepted == q.executed + Current(q.workers[0]) + q.tasks
  {
    NewPoolInv<T>(1);
    RunKeepsPool(NewPool(1), events, q);
  }

  // ----- the destructor

  ghost predicate Joined<T>(p: Pool<T>) {
    forall j :: 0 <= j < |p.workers| ==> p.workers[j].Returned?
  }

  lemma {:induction false} JoinedHoldsNothing<T>(workers: seq<Worker<T>>)
    requires forall j :: 0 <= j < |workers| ==> workers[j].Returned?
    ensures InHand(workers) == multiset{}
  {
    if workers != [] {
      JoinedHoldsNothing(workers[1..]);
    }
  }

  /** Once the destructor has joined every worker, each accepted task was executed exactly once. */
  lemma JoinedRanEverything<T>(n: nat, events: seq<Event<T>>, q: Pool<T>)
    requires n >= 1 && Leads(NewPool(n), events, q) && Joined(q)
    ensures q.tasks == [] && multiset(q.executed) == multiset(q.accepted)
  {
    hide InHand;
    NewPoolInv<T>(n);
    RunKeepsPool(NewPool(n), events, q);
    assert q.workers[0] in q.workers;
    JoinedHoldsNothing(q.workers);
  }

  function Work<T>(w: Worker<T>): nat {
    match w
    case Idle => 1
    case Running(_) => 2
    case Returned => 0
  }

  function WorkOf<T>(workers: seq<Worker<T>>): nat {
    if workers == [] then 0 else Work(workers[0]) + WorkOf(workers[1..])
  }

  /** How many worker steps a stopped pool has left. */
  function Remaining<T>(p: Pool<T>): nat {
    2 * |p.tasks| + WorkOf(p.workers)
  }

  lemma {:induction false} WorkUpdate<T>(workers: seq<Worker<T>>, i: nat, w: Worker<T>)
    requires i < |workers|
    ensures WorkOf(workers[i := w]) + Work(workers[i]) == WorkOf(workers) + Work(w)
  {
    if i == 0 {
      assert workers[i := w][1..] == workers[1..];
    } else {
      WorkUpdate(workers[1..], i - 1, w);
      assert workers[i := w][1..] == workers[1..][i - 1 := w];
    }
  }

  lemma {:induction false} NoWorkLeft<T>(workers: seq<Worker<T>>)
    ensures WorkOf(workers) == 0 <==> forall j :: 0 <= j < |workers| ==> workers[j].Returned?
  {
    if workers != [] {
      NoWorkLeft(workers[1..]);
      if WorkOf(workers) == 0 {
        forall j | 0 <= j < |workers| ensures workers[j].Returned? {
          assert j > 0 ==> workers[1..][j - 1] == workers[j];
        }
      }
    }
  }

  /** Whatever order the workers run in, a stopped pool is joined after exactly `Remaining` worker steps: it
      cannot be joined earlier, it cannot run longer, and until then some worker can move. */
  lemma {:induction false} JoinTerminates<T>(p: Pool<T>, events: seq<Event<T>>, q: Pool<T>)
    requires PoolInv(p) && p.workers != [] && p.stop
    requires Leads(p, events, q) && forall e :: e in events ==> IsWorkerStep(e)
    ensures |events| + Remaining(q) == Remaining(p)
    ensures |events| == Remaining(p) <==> Joined(q)
    ensures Joined(q) || exists e :: IsWorkerStep(e) && Enabled(q, e)
    decreases |events|
  {
    hide PoolInv;
    if events == [] {
      StoppedMovesOrJoined(p);
    } else {
      WorkerStepRemaining(p, events[0]);
      StepKeepsPool(p, events[0]);
      JoinTerminates(After(p, events[0]), events[1..], q);
    }
  }

  lemma WorkerStepRemaining<T>(p: Pool<T>, e: Event<T>)
    requires Enabled(p, e) && IsWorkerStep(e)
    ensures Remaining(After(p, e)) + 1 == Remaining(p)
  {
    WorkUpdate(p.workers, e.worker, After(p, e).workers[e.worker]);
  }

  lemma StoppedMovesOrJoined<T>(p: Pool<T>)
    requires PoolInv(p) && p.workers != [] && p.stop
    ensures Remaining(p) == 0 <==> Joined(p)
    ensures Joined(p) || exists e :: IsWorkerStep(e) && Enabled(p, e)
  {
    NoWorkLeft(p.workers);
    if Joined(p) {
      assert p.workers[0] in p.workers;
    } else {
      var i :| 0 <= i < |p.workers| && !p.workers[i].Returned?;
      var e: Event<T> := if p.workers[i].Running? then Finish(i) else if p.tasks == [] then Return(i) else Take(i);
      assert IsWorkerStep(e) && Enabled(p, e);
    }
  }

  // ----- from the stop to the end

  lemma StepOfWorker<T>(p: Pool<T>, e: Event<T>)
    requires PoolInv(p) && Enabled(p, e) && IsWorkerStep(e)
    ensures var q := After(p, e);
            PoolInv(q) && q.stop == p.stop && q.accepted == p.accepted && |q.workers| == |p.workers|
    ensures Remaining(After(p, e)) < Remaining(p)
  {
    hide PoolInv, InHand, WorkOf;
    StepKeepsPool(p, e);
    WorkerStepRemaining(p, e);
  }

  /** A stopped pool has a way to its end by steps of its workers alone. */
  lemma {:induction false} Drains<T>(p: Pool<T>) returns (more: seq<Event<T>>, q: Pool<T>)
    requires PoolInv(p) && p.workers != [] && p.stop
    ensures Leads(p, more, q) && Joined(q) && PoolInv(q) && |q.workers| == |p.workers| && q.accepted == p.accepted
    ensures forall e :: e in more ==> IsWorkerStep(e)
    decreases Remaining(p)
  {
    hide PoolInv, InHand, Remaining;
    if Joined(p) {
      return [], p;
    }
    StoppedMovesOrJoined(p);
    var e :| IsWorkerStep(e) && Enabled(p, e);
    StepOfWorker(p, e);
    var rest;
    rest, q := Drains(After(p, e));
    more := [e] + rest;
    assert more[1..] == rest;
  }

  /** Destroyed at whatever moment, a pool with workers can be joined, and then has executed everything it had
      accepted. */
  lemma StopJoins<T>(n: nat, events: seq<Event<T>>, p: Pool<T>) returns (more: seq<Event<T>>, q: Pool<T>)
    requires n >= 1 && Leads(NewPool(n), events, p)
    ensures Enabled(p, Stop) && Leads(After(p, Stop), more, q) && Joined(q)
    ensures multiset(q.executed) == multiset(p.accepted) && q.tasks == []
    ensures forall e :: e in more ==> IsWorkerStep(e)
  {
    hide InHand;
    NewPoolInv<T>(n);
    RunKeepsPool(NewPool(n), events, p);
    StepKeepsPool(p, Event<T>.Stop);
    more, q := Drains(After(p, Stop));
    assert q.workers[0] in q.workers;
    JoinedHoldsNothing(q.workers);
  }

  /** Nothing is accepted any more once the pool was destroyed. */
  lemma {:induction false} NothingAfterStop<T>(p: Pool<T>, events: seq<Event<T>>, q: Pool<T>)
    requires p.stop && Leads(p, events, q)
    ensures q.stop && q.accepted == p.accepted && forall t :: !Enabled(q, Enqueue(t))
    decreases |events|
  {
    if events != [] {
      NothingAfterStop(After(p, events[0]), events[1..], q);
    }
  }

  /** In particular after any run and the destructor. */
  lemma DestroyedAcceptsNothing<T>(p: Pool<T>, events: seq<Event<T>>, q: Pool<T>)
    requires Leads(After(p, Stop), events, q)
    ensures q.accepted == p.accepted && forall t :: !Enabled(q, Enqueue(t))
  {
    NothingAfterStop(After(p, Stop), events, q);
  }
}

/** The pool object: each critical section in place, proved against the steps. */
module ThreadPools {
  import opened PoolSteps

  class ThreadPool<T> {
    var workers: seq<Worker<T>>
    var tasks: seq<T>
    var stop: bool
    ghost var accepted: seq<T>
    ghost var started: seq<T>
    ghost var executed: seq<T>

    ghost function View(): Pool<T>
      reads this
    {
      Pool(workers, tasks, stop, accepted, started, executed)
    }

    constructor (threads: nat)
      ensures View() == NewPool(threads) && |workers| == threads
    {
      tasks, stop, accepted, started, executed := [], false, [], [], [];
      var launched: seq<Worker<T>> := [];
      for i := 0 to threads
        invariant launched == NewPool(i).workers
      {
        launched := launched + [Idle];
      }
      workers := launched;
    }

    /** False where the program throws: no task is accepted after the stop. */
    method Enqueue(task: T) returns (ok: bool)
      modifies this
      ensures ok <==> Enabled(old(View()), Event.Enqueue(task))
      ensures View() == if ok then After(old(View()), Event.Enqueue(task)) else old(View())
    {
      if stop {
        return false;
      }
      tasks := tasks + [task];
      accepted := accepted + [task];
      return true;
    }

    /** The locked part of one round of the worker loop, once the wait has let worker i through. */
    method TakeOrReturn(i: nat) returns (returned: bool)
      requires i < |workers| && workers[i].Idle? && (stop || tasks != [])
      modifies this
      ensures returned <==> old(stop) && old(tasks) == []
      ensures var e := if returned then Return(i) else Take(i);
              Enabled(old(View()), e) && View() == After(old(View()), e)
    {
      if stop && tasks == [] {
        workers := workers[i := Returned];
        return true;
      }
      var task := tasks[0];
      tasks := tasks[1..];
      workers := workers[i := Running(task)];
      started := started + [task];
      return false;
    }

    /** The unlocked call task(). */
    method Execute(i: nat)
      requires i < |workers| && workers[i].Running?
      modifies this
      ensures Enabled(old(View()), Finish(i)) && View() == After(old(View()), Finish(i))
    {
      executed := executed + [workers[i].task];
      workers := workers[i := Idle];
    }

    method SetStop()
      modifies this
      ensures View() == After(old(View()), Stop)
    {
      stop := true;
    }

    /** What other threads do with the pool meanwhile, one call after the other; a worker that waits passes. */
    method Interfere(calls: seq<Event<T>>, i: nat) returns (ghost trace: seq<Event<T>>)
      requires i < |workers| && forall e :: e in calls && IsWorkerStep(e) ==> e.worker != i
      modifies this
      ensures Leads(old(View()), trace, View())
      ensures |workers| == |old(workers)| && workers[i] == old(workers[i])
      ensures calls == [] ==> View() == old(View()) && trace == []
    {
      hide Leads;
      trace := [];
      LeadsNowhere(View());
      for k := 0 to |calls|
        invariant Leads(old(View()), trace, View())
        invariant |workers| == |old(workers)| && workers[i] == old(workers[i])
        invariant k == 0 ==> View() == old(View()) && trace == []
      {
        ghost var before := View();
        match calls[k]
        case Enqueue(task) =>
          var ok := Enqueue(task);
          if ok {
            trace := Extend(old(View()), trace, before, Event.Enqueue(task));
          }
        case Finish(j) =>
          if j < |workers| && workers[j].Running? {
            Execute(j);
            trace := Extend(old(View()), trace, before, Finish(j));
          }
        case Stop =>
          SetStop();
          trace := Extend(old(View()), trace, before, Stop);
        case _ =>
          var j := calls[k].worker;
          if j < |workers| && workers[j].Idle? && (stop || tasks != []) {
            var returned := TakeOrReturn(j);
            trace := Extend(old(View()), trace, before, if returned then Return(j) else Take(j));
          }
      }
    }

    /** The loop of worker i, among others: world[k] is what other threads do before it gets the lock or while it
        executes a task for the k-th time. Whatever they do, the interleaving is a run of the pool. The worker
        ends only on a stopped pool without tasks; otherwise it waits for the next one. */
    method WorkerLoop(i: nat, world: seq<seq<Event<T>>>) returns (ghost trace: seq<Event<T>>)
      requires i < |workers| && workers[i].Idle?
      requires forall k, e :: 0 <= k < |world| && e in world[k] && IsWorkerStep(e) ==> e.worker != i
      modifies this
      ensures Leads(old(View()), trace, View())
      ensures |workers| == |old(workers)| && tasks == [] && workers[i] == if stop then Returned else Idle
      ensures world == [] ==>
                && executed == old(executed) + old(tasks) && started == old(started) + old(tasks)
                && workers == old(workers)[i := workers[i]] && stop == old(stop) && accepted == old(accepted)
    {
      hide Leads;
      trace := [];
      LeadsNowhere(View());
      var k, returned := 0, false;
      while !returned && (stop || tasks != [] || k < |world|)
        invariant k <= |world| && |workers| == |old(workers)|
        invariant Leads(old(View()), trace, View())
        invariant workers[i] == if returned then Returned else Idle
        invariant returned ==> stop && tasks == []
        invariant world == [] ==>
                    && executed + tasks == old(executed) + old(tasks) && started + tasks == old(started) + old(tasks)
                    && workers == old(workers)[i := workers[i]] && stop == old(stop) && accepted == old(accepted)
        decreases |world| - k, |tasks|, !returned
      {
        if k < |world| {
          ghost var before := View();
          ghost var more := Interfere(world[k], i);
          LeadsOn(old(View()), trace, before, more, View());
          trace, k := trace + more, k + 1;
        }
        if stop || tasks != [] {
          ghost var before := View();
          returned := TakeOrReturn(i);
          trace := Extend(old(View()), trace, before, if returned then Return(i) else Take(i));
        }
        if workers[i].Running? {
          if k < |world| {
            ghost var before := View();
            ghost var more := Interfere(world[k], i);
            LeadsOn(old(View()), trace, before, more, View());
            trace, k := trace + more, k + 1;
          }
          ghost var before := View();
          Execute(i);
          trace := Extend(old(View()), trace, before, Finish(i));
        }
      }
    }
  }
}
