/**
 The scheduler itself: the fields of the Go struct and its locked and unlocked sections as methods
 that update them, each proved to move the protocol along exactly the actions it stands for.
 */
module Scheduler {
  import opened Protocol
  import opened ProtocolInvariant
  import opened TaskHeap

  /** The items of the queue are the entries of the heap map, one item for each run. */
  ghost predicate Holds(q: seq<QueuedTask>, heap: map<RunId, Task>) {
    && (forall x | x in q :: x.runID in heap && heap[x.runID] == x.task)
    && (forall x, y | x in q && y in q && x.runID == y.runID :: x == y)
    && (forall id | id in heap :: exists x :: x in q && x.runID == id)
  }

  lemma PushHolds(q: seq<QueuedTask>, heap: map<RunId, Task>, r: seq<QueuedTask>, item: QueuedTask)
    requires Holds(q, heap) && item.runID !in heap
    requires forall x :: x in r <==> x in q || x == item
    ensures Holds(r, heap[item.runID := item.task])
  {
    var next := heap[item.runID := item.task];
    forall id | id in next
      ensures exists x :: x in r && x.runID == id
    {
      if id == item.runID {
        assert item in r;
      } else {
        var x :| x in q && x.runID == id;
        assert x in r;
      }
    }
  }

  lemma PopHolds(q: seq<QueuedTask>, heap: map<RunId, Task>, r: seq<QueuedTask>, item: QueuedTask)
    requires Holds(q, heap) && item in q
    requires forall x :: x in r <==> x in q && x != item
    ensures Holds(r, heap - {item.runID})
  {
    var next := heap - {item.runID};
    forall id | id in next
      ensures exists x :: x in r && x.runID == id
    {
      var x :| x in q && x.runID == id;
      assert x in r;
    }
  }

  lemma EntryOf(q: seq<QueuedTask>, heap: map<RunId, Task>, item: QueuedTask)
    requires Holds(q, heap) && item in q
    ensures item.runID in heap && heap[item.runID] == item.task
  {
  }

  lemma Emptied(q: seq<QueuedTask>, heap: map<RunId, Task>)
    requires Holds(q, heap)
    ensures q == [] ==> heap == map[]
  {
  }

  lemma FirstOf(q: seq<QueuedTask>, heap: map<RunId, Task>, item: QueuedTask)
    requires Holds(q, heap) && item in q
    requires forall x | x in q :: !Before(x.task, item.task)
    ensures First(heap, item.runID)
  {
    forall other | other in heap
      ensures !Before(heap[other], heap[item.runID])
    {
      var x :| x in q && x.runID == other;
    }
  }

  // What single actions do to the fields of the scheduler.

  predicate SameFields(s: Sched, t: Sched) {
    && t.agents == s.agents && t.max == s.max && t.running == s.running && t.sequence == s.sequence
    && t.waiters == s.waiters && t.cancels == s.cancels && t.closed == s.closed && t.store == s.store
    && t.chans == s.chans
  }

  lemma PopFields(s: Sched, id: RunId)
    requires Enabled(s, DispatchPop(id))
    ensures var t := Step(s, DispatchPop(id));
            SameFields(s, t) && t.lock == Inspecting(id, s.heap[id]) && t.heap == s.heap - {id}
  {
  }

  lemma InspectFields(s: Sched)
    requires Enabled(s, DispatchInspect)
    ensures var t := Step(s, DispatchInspect);
            var id := s.lock.id;
            && SameFields(s, t) && t.heap == s.heap
            && t.lock == (if id in s.store && s.store[id].state.Queued? && s.lock.task.agentId in s.agents
                          then Offering(s.store[id]) else Dispatching)
  {
    hide First, Deliver, Write, NotifyLocked, Enabled;
    assert Step(s, DispatchInspect) == DispatchStep(s, DispatchInspect);
  }

  lemma InspectedRun(s: Sched)
    requires Inv(s) && s.lock.Inspecting?
    ensures var id := s.lock.id; (id in s.store ==> s.store[id].id == id) && id !in s.cancels
  {
  }

  lemma AcceptFields(s: Sched)
    requires s.lock.Offering?
    ensures var t := Step(s, PoolAccept);
            && SameFields(s, t.(running := s.running, cancels := s.cancels)) && t.heap == s.heap
            && t.lock == Dispatching
            && t.running == s.running + 1 && t.cancels == s.cancels + {s.lock.run.id}
  {
  }

  lemma RejectFields(s: Sched, reason: string)
    requires s.lock.Offering?
    ensures var t := Step(s, PoolReject(reason));
            SameFields(s, t) && t.heap == s.heap && t.lock == Failing(s.lock.run.(error := reason))
  {
  }

  lemma FailFields(s: Sched)
    requires s.lock.Failing?
    ensures var t := Step(s, FailWrite);
            && Enabled(t, FailNotify) && DispatchFailed(s) == Step(t, FailNotify)
            && DispatchFailed(s).lock == Dispatching && DispatchFailed(s).heap == s.heap
            && DispatchFailed(s).running == s.running && DispatchFailed(s).max == s.max
            && DispatchFailed(s).closed == s.closed
  {
  }

  lemma FailWriteFields(s: Sched)
    requires s.lock.Failing?
    ensures var t := Step(s, FailWrite);
            var run := s.lock.run.(state := Failed);
            SameFields(s.(store := Write(s.store, run)), t) && t.lock == Announcing(run) && t.heap == s.heap
  {
  }

  lemma FailNotifyFields(s: Sched)
    requires s.lock.Announcing?
    ensures var t := Step(s, FailNotify);
            var run := s.lock.run;
            && SameFields(s.(waiters := s.waiters - {run.id},
                             chans := Deliver(s.chans, if run.id in s.waiters then s.waiters[run.id] else [], run)), t)
            && t.heap == s.heap
  {
  }

  lemma DoneFields(s: Sched)
    requires Enabled(s, DispatchDone)
    ensures SameFields(s, Step(s, DispatchDone)) && Step(s, DispatchDone).lock == Free
    ensures Step(s, DispatchDone).heap == s.heap
  {
  }

  /** Both halves of `failDispatch`. */
  function DispatchFailed(s: Sched): Sched
    requires s.lock.Failing?
  {
    Step(Step(s, FailWrite), FailNotify)
  }

  predicate OfLoop(a: Action, pool: RunId -> bool, s: Sched)
    requires Enabled(s, a)
  {
    match a
    case DispatchPop(_) => true
    case DispatchInspect => true
    case PoolAccept => pool(s.lock.run.id)
    case PoolReject(_) => !pool(s.lock.run.id)
    case FailWrite => true
    case FailNotify => true
    case DispatchDone => true
    case _ => false
  }

  /** A run of the dispatch loop against a pool that gives the answers `pool`. */
  ghost predicate LoopRun(s: Sched, acts: seq<Action>, pool: RunId -> bool)
    requires Legal(s, acts)
    decreases |acts|
  {
    acts == [] || (OfLoop(acts[0], pool, s) && LoopRun(Step(s, acts[0]), acts[1..], pool))
  }

  ghost predicate LoopReaches(s: Sched, acts: seq<Action>, pool: RunId -> bool, t: Sched) {
    Legal(s, acts) && LoopRun(s, acts, pool) && Exec(s, acts) == t
  }

  lemma LoopStart(s: Sched, pool: RunId -> bool)
    ensures LoopReaches(s, [], pool, s)
  {
  }

  lemma {:induction false} LoopExtend(s: Sched, acts: seq<Action>, pool: RunId -> bool, t: Sched, a: Action)
    requires LoopReaches(s, acts, pool, t) && Enabled(t, a) && OfLoop(a, pool, t)
    ensures LoopReaches(s, acts + [a], pool, Step(t, a))
    decreases |acts|
  {
    hide Step, Enabled, OfLoop;
    if acts == [] {
      assert acts + [a] == [a];
      assert [a][1..] == [];
      LoopStart(Step(t, a), pool);
    } else {
      LoopExtend(Step(s, acts[0]), acts[1..], pool, t, a);
      assert (acts + [a])[1..] == acts[1..] + [a];
    }
  }

  lemma LoopOne(s: Sched, pool: RunId -> bool, a: Action)
    requires Enabled(s, a) && OfLoop(a, pool, s)
    ensures LoopReaches(s, [a], pool, Step(s, a))
  {
    hide Step, Enabled, OfLoop;
    LoopStart(s, pool);
    LoopExtend(s, [], pool, s, a);
    assert [] + [a] == [a];
  }

  /** The three actions of a refused offer. */
  function Refusal(reason: string): seq<Action> {
    [PoolReject(reason), FailWrite, FailNotify]
  }

  lemma RefusalLoop(s: Sched, pool: RunId -> bool, reason: string)
    requires s.lock.Offering? && !pool(s.lock.run.id)
    ensures Step(s, PoolReject(reason)).lock.Failing?
    ensures LoopReaches(s, Refusal(reason), pool, DispatchFailed(Step(s, PoolReject(reason))))
  {
    hide Step, LoopReaches;
    RejectFields(s, reason);
    var t := Step(s, PoolReject(reason));
    FailFields(t);
    LoopOne(s, pool, PoolReject(reason));
    LoopExtend(s, [PoolReject(reason)], pool, t, FailWrite);
    LoopExtend(s, [PoolReject(reason)] + [FailWrite], pool, Step(t, FailWrite), FailNotify);
    assert [PoolReject(reason)] + [FailWrite] + [FailNotify] == Refusal(reason);
  }

  lemma {:induction false} LoopConcat(s: Sched, a: seq<Action>, m: Sched, b: seq<Action>, t: Sched, pool: RunId -> bool)
    requires LoopReaches(s, a, pool, m) && LoopReaches(m, b, pool, t)
    ensures LoopReaches(s, a + b, pool, t)
    decreases |a|
  {
    hide Step, Enabled, OfLoop;
    if a == [] {
      assert a + b == b;
    } else {
      LoopConcat(Step(s, a[0]), a[1..], m, b, t, pool);
      assert (a + b)[1..] == a[1..] + b;
    }
  }

  /** What `agent.Run` returns: a result, an error that wraps `context.Canceled`, or any other error. */
  datatype Answer = Result | ContextCanceled | AgentFails

  function OutcomeOf(a: Answer): (state: RunState)
    ensures Terminal(state)
  {
    match a
    case Result => Succeeded
    case ContextCanceled => Cancelled
    case AgentFails => Failed
  }

  /** A success leaves the error code of the run as it is. */
  function ErrorOf(run: Run, a: Answer): string {
    match a
    case Result => run.error
    case ContextCanceled => "cancelled"
    case AgentFails => "agent_failed"
  }

  class Scheduler {
    var agents: set<string>            // the registry
    const queue: TaskPriorityQueue
    var running: int
    const maxConcurrent: nat
    var sequence: nat
    var waiters: map<RunId, seq<ChanId>>
    var cancels: set<RunId>
    var closed: bool
    var store: map<RunId, Run>         // InMemoryStore.runs
    var chans: map<ChanId, Chan>       // the waiter channels handed out
    ghost var model: Sched             // the protocol state, with the other goroutines in it

    /** The fields are the protocol state, and the protocol state is one of its reachable kind. */
    ghost predicate Valid()
      reads this, queue, queue.q
    {
      && queue.Valid()
      && Holds(queue.q, model.heap)
      && model.agents == agents && model.max == maxConcurrent && model.running == running
      && model.sequence == sequence && model.waiters == waiters && model.cancels == cancels
      && model.closed == closed && model.store == store && model.chans == chans
      && Inv(model)
    }

    constructor (maxConcurrent: int)
      ensures Valid() && model == New(maxConcurrent)
      ensures fresh(queue) && !closed && store == map[] && running == 0
      ensures if maxConcurrent > 0 then this.maxConcurrent == maxConcurrent else this.maxConcurrent == 2
    {
      this.maxConcurrent := if maxConcurrent <= 0 then 2 else maxConcurrent;
      queue := new TaskPriorityQueue();
      agents, running, sequence, waiters, cancels, closed := {}, 0, 0, map[], {}, false;
      store, chans := map[], map[];
      model := New(maxConcurrent);
      new;
      NewInv(maxConcurrent);
    }

    /** `notifyLocked`: take the waiters of the run out of the map, send to each and close it. */
    method NotifyLocked(run: Run)
      modifies this`waiters, this`chans
      ensures waiters == old(waiters) - {run.id}
      ensures chans == Deliver(old(chans), if run.id in old(waiters) then old(waiters)[run.id] else [], run)
    {
      var list := if run.id in waiters then waiters[run.id] else [];
      waiters := waiters - {run.id};
      ghost var left := waiters;
      ghost var was := chans;
      var i := 0;
      while i < |list|
        invariant i <= |list| && waiters == left
        invariant Deliver(chans, list[i..], run) == Deliver(was, list, run)
      {
        var ch := list[i];
        ghost var here := chans;
        if ch in chans {
          chans := chans[ch := chans[ch].(sent := chans[ch].sent + [run])];
          chans := chans[ch := chans[ch].(closes := chans[ch].closes + 1)];
          assert chans == here[ch := here[ch].(sent := here[ch].sent + [run], closes := here[ch].closes + 1)];
        }
        assert list[i..][0] == ch && list[i..][1..] == list[i + 1..];
        i := i + 1;
      }
    }

    /** The write of `failDispatch`. */
    method WriteFailed(failed: Run)
      requires Enabled(model, FailWrite) && failed == model.lock.run.(state := Failed)
      requires Valid()
      modifies this`store, this`model
      ensures model == Step(old(model), FailWrite) && model.lock == Announcing(failed) && Valid()
      ensures store == Write(old(store), failed)
    {
      hide Inv, Holds, Deliver, Step, Write;
      FailWriteFields(model);
      FailWriteKept(model);
      model := Step(model, FailWrite);
      UpdateRun(failed);
    }

    /** The notification of `failDispatch`. */
    method AnnounceFailed(failed: Run)
      requires Enabled(model, FailNotify) && failed == model.lock.run
      requires Valid()
      modifies this`waiters, this`chans, this`model
      ensures model == Step(old(model), FailNotify) && Valid()
    {
      hide Inv, Holds, Deliver, Step;
      FailNotifyFields(model);
      FailNotifyKept(model);
      model := Step(model, FailNotify);
      NotifyLocked(failed);
    }

    /** `failDispatch`, called with the lock held. */
    method FailDispatch(run: Run, reason: string)
      requires Valid() && model.lock == Failing(run.(error := reason))
      modifies this`waiters, this`chans, this`store, this`model
      ensures model == DispatchFailed(old(model)) && Valid()
      ensures run.id in old(store) ==> store == old(store)[run.id := run.(state := Failed, error := reason)]
    {
      hide Step, Scheduler.Valid;
      var failed := run.(state := Failed, error := reason);
      WriteFailed(failed);
      AnnounceFailed(failed);
    }

    /** Give a run that was read as queued to the pool; on refusal take the slot back and fail the run. */
    method Offer(run: Run, pool: RunId -> bool, reason: string) returns (ghost acts: seq<Action>)
      requires Valid() && model.lock == Offering(run) && run.id !in cancels
      modifies this
      ensures LoopReaches(old(model), acts, pool, model) && model.lock.Dispatching? && closed == old(closed)
      ensures Valid()
    {
      hide Inv, Holds, LoopReaches, Deliver, Step, DispatchFailed, Refusal;
      running := running + 1;
      cancels := cancels + {run.id};
      if pool(run.id) {
        AcceptFields(model);
        PoolAcceptKept(model);
        LoopOne(model, pool, PoolAccept);
        acts, model := [PoolAccept], Step(model, PoolAccept);
      } else {
        cancels := cancels - {run.id};
        running := running - 1;
        assert cancels == old(cancels);
        OfferRefused(run, pool, reason);
        acts := Refusal(reason);
      }
    }

    /** What follows a refusal, once the slot is given back. */
    method OfferRefused(run: Run, pool: RunId -> bool, reason: string)
      requires Valid() && model.lock == Offering(run) && !pool(run.id)
      modifies this`waiters, this`chans, this`store, this`model
      ensures LoopReaches(old(model), Refusal(reason), pool, model) && model.lock.Dispatching? && Valid()
    {
      hide Inv, Holds, LoopReaches, Deliver, Step, DispatchFailed, Refusal;
      RejectFields(model, reason);
      PoolRejectKept(model, reason);
      RefusalLoop(model, pool, reason);
      model := Step(model, PoolReject(reason));
      FailFields(model);
      FailDispatch(run, reason);
    }

    /** One round of the loop of `dispatchLocked`: pop, look the run up, and offer it to the pool. */
    method DispatchOne(pool: RunId -> bool, reason: string) returns (ghost acts: seq<Action>)
      requires Valid() && model.lock.Dispatching? && running < maxConcurrent && queue.q != []
      modifies this, queue, queue.q
      ensures LoopReaches(old(model), acts, pool, model) && model.lock.Dispatching? && closed == old(closed)
      ensures |queue.q| < |old(queue.q)| && forall k | 0 <= k < |queue.q| :: queue.q[k] in old(queue.q)
      ensures Valid()
    {
      hide Inv, Holds, LoopReaches, Deliver, Step, First, DispatchFailed;
      ghost var start := model;
      LoopStart(model, pool);
      var item := queue.Pop();
      var id := item.runID;
      EntryOf(old(queue.q), model.heap, item);
      FirstOf(old(queue.q), model.heap, item);
      PopHolds(old(queue.q), model.heap, queue.q, item);
      PopFields(model, id);
      DispatchPopKept(model, id);
      LoopExtend(start, [], pool, model, DispatchPop(id));
      acts, model := [] + [DispatchPop(id)], Step(model, DispatchPop(id));

      InspectFields(model);
      InspectedRun(model);
      DispatchInspectKept(model);
      LoopExtend(start, acts, pool, model, DispatchInspect);
      acts, model := acts + [DispatchInspect], Step(model, DispatchInspect);
      if id !in store || !store[id].state.Queued? {
        return;
      }
      var run := store[id];
      if item.task.agentId !in agents {
        return;
      }
      ghost var mid := model;
      ghost var more := Offer(run, pool, reason);
      LoopConcat(start, acts, mid, more, model, pool);
      acts := acts + more;
    }

    /** `dispatchLocked`: the priority loop, up to the unlock that follows every call of it. */
    method DispatchLocked(pool: RunId -> bool, reason: string) returns (ghost acts: seq<Action>)
      requires Valid() && (if closed then model.lock.Free? else model.lock.Dispatching?)
      modifies this, queue, queue.q
      ensures LoopReaches(old(model), acts, pool, model) && model.lock.Free?
      ensures old(closed) ==> acts == []
      ensures Valid()
    {
      hide Inv, Holds, LoopReaches, Deliver, Step;
      ghost var start := model;
      acts := [];
      LoopStart(model, pool);
      if closed {
        return;
      }
      while running < maxConcurrent && queue.Len() > 0
        invariant Valid() && model.lock.Dispatching? && LoopReaches(start, acts, pool, model)
        invariant forall k | 0 <= k < |queue.q| :: queue.q[k] in old(queue.q)
        decreases |queue.q|
      {
        ghost var mid := model;
        ghost var more := DispatchOne(pool, reason);
        LoopConcat(start, acts, mid, more, model, pool);
        acts := acts + more;
      }
      Emptied(queue.q, model.heap);
      DoneFields(model);
      DispatchDoneKept(model);
      LoopExtend(start, acts, pool, model, DispatchDone);
      acts, model := acts + [DispatchDone], Step(model, DispatchDone);
    }

    // ---------------------------------------------------------------- Submit

    method Register(agent: string)
      requires Valid()
      modifies this`agents, this`model
      ensures model == Step(old(model), Action.Register(agent)) && Valid()
    {
      hide Inv, Holds;
      RegisterKept(model, agent);
      agents := agents + {agent};
      model := Step(model, Action.Register(agent));
    }

    /** The agent lookup and the first critical section of Submit. */
    method SubmitEnter(agent: string, priority: int) returns (admitted: bool)
      requires Valid() && model.lock.Free?
      modifies this`model
      ensures admitted <==> agent in old(agents) && !old(closed)
      ensures model == (if admitted then Step(old(model), Action.SubmitEnter(agent, priority)) else old(model))
      ensures Valid()
    {
      hide Inv, Holds;
      if agent !in agents || closed {
        return false;
      }
      SubmitEnterKept(model, agent, priority);
      model := Step(model, Action.SubmitEnter(agent, priority));
      return true;
    }

    /** CreateRun, under a fresh id. */
    method SubmitCreate(agent: string, priority: int, id: RunId) returns (run: Run)
      requires Valid() && Enabled(model, Action.SubmitCreate(agent, priority, id))
      modifies this`store, this`model
      ensures model == Step(old(model), Action.SubmitCreate(agent, priority, id)) && Valid()
      ensures run == Run(id, agent, priority, Queued, "") && At(model, id) == Submitting(run)
      ensures store == old(store)[id := run]
    {
      hide Inv, Holds;
      run := Run(id, agent, priority, Queued, "");
      SubmitCreateKept(model, agent, priority, id);
      store := store[id := run];
      model := Step(model, Action.SubmitCreate(agent, priority, id));
    }

    /** The second critical section of Submit: refuse, or push and dispatch. */
    method SubmitQueue(run: Run, pool: RunId -> bool, reason: string) returns (accepted: bool, ghost acts: seq<Action>)
      requires Valid() && model.lock.Free? && At(model, run.id) == Submitting(run)
      modifies this, queue, queue.q
      ensures accepted <==> !old(closed)
      ensures !accepted ==> model == Step(old(model), SubmitRefuse(run.id))
      ensures accepted ==> Enabled(old(model), SubmitEnqueue(run.id)) &&
                           LoopReaches(Step(old(model), SubmitEnqueue(run.id)), acts, pool, model)
      ensures model.lock.Free? && Valid()
    {
      hide Inv, Holds, LoopReaches, Step;
      acts := [];
      if closed {
        RefuseFields(model, run.id);
        SubmitRefuseKept(model, run.id);
        model := Step(model, SubmitRefuse(run.id));
        return false, acts;
      }
      SubmitIds(model, run.id);
      sequence := sequence + 1;
      var task := Task(run.agentId, run.priority, sequence);
      var item := new QueuedTask(run.id, task);
      ghost var items := queue.q;
      queue.Push(item);
      PushHolds(items, model.heap, queue.q, item);
      EnqueueFields(model, run.id);
      SubmitEnqueueKept(model, run.id);
      model := Step(model, SubmitEnqueue(run.id));
      assert forall k | 0 <= k < |queue.q| :: queue.q[k] in old(queue.q) || queue.q[k] == item;
      acts := DispatchLocked(pool, reason);
      return true, acts;
    }

    /** `cancelRun` up to its notify, for a Submit that found the scheduler closed. */
    method RefuseWrite(run: Run) returns (cancelled: Run)
      requires Enabled(model, Action.RefuseWrite(run.id)) && At(model, run.id) == Refused(run) && Valid()
      modifies this`store, this`model
      ensures model == Step(old(model), Action.RefuseWrite(run.id)) && Valid()
      ensures cancelled in model.notifying && cancelled == run.(state := Cancelled, error := "scheduler_closed")
      ensures run.id in store && store[run.id] == cancelled
    {
      hide Inv, Holds;
      SubmitIds(model, run.id);
      OwnCopy(model, run.id);
      RefuseWriteKept(model, run.id);
      cancelled := run.(state := Cancelled, error := "scheduler_closed");
      UpdateRun(cancelled);
      model := Step(model, Action.RefuseWrite(run.id));
    }

    /** `InMemoryStore.UpdateRun` with its error dropped. */
    method UpdateRun(run: Run)
      modifies this`store
      ensures store == Write(old(store), run)
      ensures store == if run.id in old(store) then old(store)[run.id := run] else old(store)
    {
      if run.id in store {
        store := store[run.id := run];
      }
    }

    /** `notify`. */
    method Notify(run: Run)
      requires Valid() && Enabled(model, Action.Notify(run))
      modifies this`waiters, this`chans, this`model
      ensures model == Step(old(model), Action.Notify(run)) && Valid()
    {
      hide Inv, Holds, Deliver;
      NotifyKept(model, run);
      NotifyLocked(run);
      model := Step(model, Action.Notify(run));
    }

    // ---------------------------------------------------------------- Cancel, Wait

    /** What Cancel decides from its read of the store: write, look for a context to stop, or refuse. */
    method CancelRead(id: RunId) returns (decision: CancelDecision)
      requires Valid()
      modifies this`model
      ensures decision.NotFound? <==> id !in store
      ensures decision.WriteCancelled? <==> id in store && store[id].state.Queued?
      ensures decision.LookUp? <==> id in store && store[id].state.Running?
      ensures decision.WriteCancelled? ==> decision.read == store[id]
      ensures model == (if Enabled(old(model), Action.CancelRead(id))
                        then Step(old(model), Action.CancelRead(id)) else old(model))
      ensures Valid()
    {
      hide Inv, Holds;
      if id !in store {
        return NotFound;
      }
      var run := store[id];
      match run.state
      case Queued =>
        CancelReadKept(model, id);
        model := Step(model, Action.CancelRead(id));
        return WriteCancelled(run);
      case Running =>
        return LookUp;
      case _ =>
        return NotCancellable;
    }

    /** The locked lookup that follows for a run read as running: its context is stopped if it is still in flight. */
    method CancelLookUp(id: RunId) returns (stopped: bool)
      requires Valid() && model.lock.Free?
      ensures stopped <==> id in model.place && InFlight(model.place[id])
    {
      stopped := id in cancels;
    }

    method CancelWrite(read: Run) returns (cancelled: Run)
      requires Valid() && Enabled(model, Action.CancelWrite(read))
      modifies this`store, this`model
      ensures model == Step(old(model), Action.CancelWrite(read)) && Valid()
      ensures cancelled in model.notifying && cancelled == read.(state := Cancelled, error := "cancelled")
      ensures read.id in store && store[read.id] == cancelled
    {
      hide Inv, Holds;
      ReadIsStored(model, read);
      CancelWriteKept(model, read);
      cancelled := read.(state := Cancelled, error := "cancelled");
      UpdateRun(cancelled);
      model := Step(model, Action.CancelWrite(read));
    }

    /** The check of Wait: an answer at once, an error, or a registration to come. */
    method WaitCheck(id: RunId) returns (known: bool, done: bool, run: Run)
      requires Valid()
      modifies this`model
      ensures known <==> id in store
      ensures done <==> id in store && store[id].state in {Succeeded, Failed, Cancelled}
      ensures known ==> run == store[id]
      ensures known && !done <==> Enabled(old(model), Action.WaitCheck(id))
      ensures model == (if Enabled(old(model), Action.WaitCheck(id))
                        then Step(old(model), Action.WaitCheck(id)) else old(model))
      ensures Valid()
    {
      hide Inv, Holds;
      if id !in store {
        return false, false, Run(id, "", 0, Queued, "");
      }
      run := store[id];
      if Terminal(run.state) {
        return true, true, run;
      }
      WaitCheckKept(model, id);
      model := Step(model, Action.WaitCheck(id));
      return true, false, run;
    }

    method WaitRegister(id: RunId, ch: ChanId)
      requires Valid() && Enabled(model, Action.WaitRegister(id, ch))
      modifies this`waiters, this`chans, this`model
      ensures model == Step(old(model), Action.WaitRegister(id, ch)) && Valid()
    {
      hide Inv, Holds, Step;
      RegisterFields(model, id, ch);
      WaitRegisterKept(model, id, ch);
      chans := chans[ch := Chan(id, [], 0)];
      waiters := waiters[id := (if id in waiters then waiters[id] else []) + [ch]];
      model := Step(model, Action.WaitRegister(id, ch));
    }

    // ---------------------------------------------------------------- execute

    method ExecStart(run: Run) returns (started: Run)
      requires Enabled(model, Action.ExecStart(run.id)) && At(model, run.id) == Handed(run) && Valid()
      modifies this`store, this`model
      ensures model == Step(old(model), Action.ExecStart(run.id)) && Valid()
      ensures At(model, run.id) == Executing(started)
      ensures run.id in store && store[run.id] == started == run.(state := Running)
    {
      hide Inv, Holds;
      OwnCopy(model, run.id);
      ExecStartKept(model, run.id);
      started := run.(state := Running);
      UpdateRun(started);
      model := Step(model, Action.ExecStart(run.id));
    }

    /** What `agent.Run` answers decides the outcome that is written. */
    method ExecFinish(run: Run, answer: Answer) returns (finished: Run)
      requires At(model, run.id) == Executing(run) && Valid()
      modifies this`store, this`model
      ensures Enabled(old(model), Action.ExecFinish(run.id, OutcomeOf(answer), ErrorOf(run, answer)))
      ensures model == Step(old(model), Action.ExecFinish(run.id, OutcomeOf(answer), ErrorOf(run, answer))) && Valid()
      ensures At(model, run.id) == Finished(finished)
      ensures run.id in store && store[run.id] == finished
      ensures match answer
              case Result => finished == run.(state := Succeeded)
              case ContextCanceled => finished == run.(state := Cancelled, error := "cancelled")
              case AgentFails => finished == run.(state := Failed, error := "agent_failed")
    {
      hide Inv, Holds;
      ghost var a := Action.ExecFinish(run.id, OutcomeOf(answer), ErrorOf(run, answer));
      OwnCopy(model, run.id);
      ExecFinishKept(model, run.id, a.outcome, a.error);
      if answer.ContextCanceled? {
        finished := run.(state := Cancelled, error := "cancelled");
      } else if answer.AgentFails? {
        finished := run.(state := Failed, error := "agent_failed");
      } else {
        finished := run.(state := Succeeded);
      }
      UpdateRun(finished);
      model := Step(model, a);
    }

    /** The locked epilogue: give the slot back and dispatch. */
    method ExecEpilogue(run: Run, pool: RunId -> bool, reason: string) returns (ghost acts: seq<Action>)
      requires Enabled(model, Action.ExecEpilogue(run.id)) && At(model, run.id) == Finished(run) && Valid()
      modifies this, queue, queue.q
      ensures Enabled(old(model), Action.ExecEpilogue(run.id))
      ensures LoopReaches(Step(old(model), Action.ExecEpilogue(run.id)), acts, pool, model)
      ensures model.lock.Free? && Valid()
    {
      hide Inv, Holds, LoopReaches;
      ExecEpilogueKept(model, run.id);
      cancels := cancels - {run.id};
      running := running - 1;
      model := Step(model, Action.ExecEpilogue(run.id));
      acts := DispatchLocked(pool, reason);
    }

    // ---------------------------------------------------------------- Close

    /** The locked half of Close: the drained runs come in the order of the heap. */
    method CloseDrain() returns (drained: seq<RunId>)
      requires Valid() && model.lock.Free?
      modifies this, queue, queue.q
      ensures closed && (old(closed) ==> drained == [] && model == old(model))
      ensures !old(closed) ==> model == Step(old(model), Action.CloseDrain)
      ensures !old(closed) ==> forall id :: id in drained <==> id in old(model.heap)
      ensures !old(closed) ==> forall i, j | 0 <= i < j < |drained| ::
                drained[i] != drained[j] && !Before(old(model.heap)[drained[j]], old(model.heap)[drained[i]])
      ensures !old(closed) ==> forall i, j | 0 <= i < j < |drained| ::
                var a, b := old(model.heap)[drained[i]], old(model.heap)[drained[j]];
                a.priority > b.priority || (a.priority == b.priority && a.sequence <= b.sequence)
      ensures Valid()
    {
      hide Inv, Holds, Step, DrainedSoFar;
      drained := [];
      if closed {
        return;
      }
      closed := true;
      ghost var all := model.heap;
      ghost var left := model.heap;
      NothingDrained(all);
      while queue.Len() > 0
        invariant queue.Valid() && Holds(queue.q, left) && model == old(model) && all == old(model.heap)
        invariant forall k | 0 <= k < |queue.q| :: queue.q[k] in old(queue.q)
        invariant DrainedSoFar(all, left, drained)
        decreases |queue.q|
        modifies queue, queue.q
      {
        ghost var items := queue.q;
        var item := queue.Pop();
        EntryOf(items, left, item);
        FirstOf(items, left, item);
        PopHolds(items, left, queue.q, item);
        DrainOne(all, left, drained, item.runID);
        assert forall k | 0 <= k < |queue.q| :: queue.q[k] in items;
        left := left - {item.runID};
        drained := drained + [item.runID];
      }
      Emptied(queue.q, left);
      AllIn(all, drained);
      forall i, j | 0 <= i < j < |drained|
        ensures all[drained[i]].priority > all[drained[j]].priority ||
                (all[drained[i]].priority == all[drained[j]].priority &&
                 all[drained[i]].sequence <= all[drained[j]].sequence)
      {
        NotBefore(all[drained[j]], all[drained[i]]);
      }
      DrainFields(model);
      CloseDrainKept(model);
      model := Step(model, Action.CloseDrain);
    }

    /** Close looks at one drained run: cancel it if it is still queued. */
    method CloseRead(id: RunId) returns (pending: bool)
      requires Enabled(model, Action.CloseRead(id)) && Valid()
      modifies this`model
      ensures model == Step(old(model), Action.CloseRead(id)) && Valid()
      ensures pending <==> At(model, id).Closing?
      ensures pending <==> id in store && store[id].state == Queued
    {
      hide Inv, Holds;
      CloseReadKept(model, id);
      model := Step(model, Action.CloseRead(id));
      return id in store && store[id].state.Queued?;
    }

    method CloseWrite(run: Run) returns (cancelled: Run)
      requires Enabled(model, Action.CloseWrite(run.id)) && At(model, run.id) == Closing(run) && Valid()
      modifies this`store, this`model
      ensures model == Step(old(model), Action.CloseWrite(run.id)) && Valid()
      ensures cancelled in model.notifying && cancelled == run.(state := Cancelled, error := "scheduler_closed")
      ensures run.id in store && store[run.id] == cancelled
    {
      hide Inv, Holds;
      OwnCopy(model, run.id);
      CloseWriteKept(model, run.id);
      cancelled := run.(state := Cancelled, error := "scheduler_closed");
      UpdateRun(cancelled);
      model := Step(model, Action.CloseWrite(run.id));
    }
  }

  datatype CancelDecision = NotFound | WriteCancelled(read: Run) | LookUp | NotCancellable

  lemma ReadIsStored(s: Sched, read: Run)
    requires Inv(s) && read in s.cancelling
    ensures read.id in s.store
  {
  }

  lemma SubmitIds(s: Sched, id: RunId)
    requires Inv(s) && (At(s, id).Submitting? || At(s, id).Refused?)
    ensures id in s.place && s.place[id].run.id == id && id !in s.heap
  {
    assert LocalCopy(s.agents, id, s.place[id]);
  }

  lemma EnqueueFields(s: Sched, id: RunId)
    requires Enabled(s, SubmitEnqueue(id))
    ensures var t := Step(s, SubmitEnqueue(id));
            var run := s.place[id].run;
            && SameFields(s.(sequence := s.sequence + 1), t) && t.lock == Dispatching
            && t.heap == s.heap[id := Task(run.agentId, run.priority, s.sequence + 1)]
  {
    assert Step(s, SubmitEnqueue(id)) == CallerStep(s, SubmitEnqueue(id));
  }

  lemma RefuseFields(s: Sched, id: RunId)
    requires Enabled(s, SubmitRefuse(id))
    ensures var t := Step(s, SubmitRefuse(id)); SameFields(s, t) && t.lock == s.lock && t.heap == s.heap
  {
    assert Step(s, SubmitRefuse(id)) == CallerStep(s, SubmitRefuse(id));
  }

  lemma RegisterFields(s: Sched, id: RunId, ch: ChanId)
    requires Enabled(s, Action.WaitRegister(id, ch))
    ensures var t := Step(s, Action.WaitRegister(id, ch));
            && SameFields(s.(chans := s.chans[ch := Chan(id, [], 0)],
                             waiters := s.waiters[id := (if id in s.waiters then s.waiters[id] else []) + [ch]]), t)
            && t.heap == s.heap
  {
    assert Step(s, Action.WaitRegister(id, ch)) == CallerStep(s, Action.WaitRegister(id, ch));
  }

  lemma DrainFields(s: Sched)
    requires Enabled(s, CloseDrain)
    ensures SameFields(s.(closed := true), Step(s, CloseDrain)) && Step(s, CloseDrain).heap == map[]
  {
  }

  /** `drained` and `left` split `all`, and nothing left comes before anything drained. */
  ghost predicate DrainedSoFar(all: map<RunId, Task>, left: map<RunId, Task>, drained: seq<RunId>) {
    && (forall id :: id in all <==> id in left || id in drained)
    && (forall id | id in left :: id !in drained && id in all && left[id] == all[id])
    && (forall i, j | 0 <= i < j < |drained| :: drained[i] != drained[j] && !Before(all[drained[j]], all[drained[i]]))
    && (forall id, k | id in left && 0 <= k < |drained| :: !Before(left[id], all[drained[k]]))
  }

  lemma NothingDrained(all: map<RunId, Task>)
    ensures DrainedSoFar(all, all, [])
  {
  }

  lemma AllIn(all: map<RunId, Task>, drained: seq<RunId>)
    requires DrainedSoFar(all, map[], drained)
    ensures forall id :: id in drained <==> id in all
    ensures forall i, j | 0 <= i < j < |drained| ::
              drained[i] != drained[j] && !Before(all[drained[j]], all[drained[i]])
  {
  }

  lemma DrainOne(all: map<RunId, Task>, left: map<RunId, Task>, drained: seq<RunId>, id: RunId)
    requires DrainedSoFar(all, left, drained) && First(left, id)
    ensures DrainedSoFar(all, left - {id}, drained + [id])
  {
    assert forall x :: x in drained + [id] <==> x in drained || x == id;
  }
}
