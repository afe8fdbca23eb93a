/** What the scheduler guarantees over every run of the protocol, and where its promises end. */
module ProtocolTheorems {
  import opened Protocol
  import opened ProtocolInvariant

  /** Every state that `NewScheduler` and any sequence of actions can reach satisfies the invariant. */
  lemma Reachable(maxConcurrent: int, acts: seq<Action>)
    requires Legal(New(maxConcurrent), acts)
    ensures Inv(Exec(New(maxConcurrent), acts))
  {
    NewInv(maxConcurrent);
    RunKept(New(maxConcurrent), acts);
  }

  // ---------------------------------------------------------------- no stranded run

  /** Somebody is still going to move the queued run `id` on. */
  predicate Owned(s: Sched, id: RunId) {
    || id in s.heap
    || At(s, id).Submitting?
    || At(s, id).Refused?
    || At(s, id).Handed?
    || At(s, id).Drained?
    || At(s, id).Closing?
    || (s.lock.Inspecting? && s.lock.id == id)
    || (s.lock.Offering? && s.lock.run.id == id)
    || (s.lock.Failing? && s.lock.run.id == id)
  }

  lemma NoStrandedRun(maxConcurrent: int, acts: seq<Action>, id: RunId)
    requires Legal(New(maxConcurrent), acts)
    ensures var s := Exec(New(maxConcurrent), acts);
            id in s.store && s.store[id].state.Queued? ==> Owned(s, id)
  {
    Reachable(maxConcurrent, acts);
    var s := Exec(New(maxConcurrent), acts);
    if id in s.store && s.store[id].state.Queued? {
      assert id in s.place && Held(s.lock, s.place[id], id) && !PastQueued(s.place[id]);
    }
  }

  /** The dispatch loop drops a popped run only when its stored state is no longer queued: the branch
      for an agent that is not registered is never taken. */
  lemma DropsOnlyDecidedRuns(maxConcurrent: int, acts: seq<Action>)
    requires Legal(New(maxConcurrent), acts)
    requires Exec(New(maxConcurrent), acts).lock.Inspecting?
    ensures var s := Exec(New(maxConcurrent), acts);
            s.lock.task.agentId in s.agents && s.lock.id in s.store &&
            (Step(s, DispatchInspect).place[s.lock.id].Settled? <==> !s.store[s.lock.id].state.Queued?)
  {
    hide Legal, Exec;
    Reachable(maxConcurrent, acts);
  }

  // ---------------------------------------------------------------- capacity

  lemma CapacityAndWorkConservation(maxConcurrent: int, acts: seq<Action>)
    requires Legal(New(maxConcurrent), acts)
    ensures var s := Exec(New(maxConcurrent), acts);
            && s.cancels == (set id | id in s.place && InFlight(s.place[id]))
            && s.running == |s.cancels|
            && s.running <= s.max
            && s.cancels !! s.heap.Keys
            && (s.lock.Free? ==> s.heap == map[] || s.running == s.max)
            && (s.closed ==> s.heap == map[])
  {
    hide Legal, Exec;
    Reachable(maxConcurrent, acts);
  }

  /** What stays closed in one action. */
  predicate StaysClosed(s: Sched, t: Sched) {
    t.closed && t.heap == s.heap && t.running <= s.running && t.cancels <= s.cancels && t.offers == s.offers
  }

  lemma ClosedOwnerStep(s: Sched, a: Action)
    requires s.closed && Enabled(s, a) && OfOwner(a)
    ensures StaysClosed(s, Step(s, a))
  {
    assert Step(s, a) == OwnerStep(s, a);
  }

  lemma ClosedCallerStep(s: Sched, a: Action)
    requires s.closed && Enabled(s, a) && !OfOwner(a) && !OfDispatch(a)
    ensures StaysClosed(s, Step(s, a))
  {
    assert Step(s, a) == CallerStep(s, a);
  }

  lemma LoopHoldsLock(s: Sched, a: Action)
    requires Enabled(s, a) && OfDispatch(a)
    ensures !s.lock.Free?
  {
  }

  lemma ClosedStep(s: Sched, a: Action)
    requires Inv(s) && s.closed && Enabled(s, a)
    ensures StaysClosed(s, Step(s, a)) && s.heap == map[]
  {
    hide Step, Enabled;
    if OfDispatch(a) {
      LoopHoldsLock(s, a);
      assert false;
    } else if OfOwner(a) {
      ClosedOwnerStep(s, a);
    } else {
      ClosedCallerStep(s, a);
    }
  }

  /** After Close the heap stays empty, nothing more is given to the pool, and `running` only falls. */
  lemma {:induction false} ClosedForGood(s: Sched, acts: seq<Action>)
    requires Inv(s) && s.closed && Legal(s, acts)
    ensures var t := Exec(s, acts);
            t.closed && t.heap == map[] && t.running <= s.running && t.cancels <= s.cancels && t.offers == s.offers
    decreases |acts|
  {
    if acts != [] {
      ClosedStep(s, acts[0]);
      StepKept(s, acts[0]);
      ClosedForGood(Step(s, acts[0]), acts[1..]);
    }
  }

  // ---------------------------------------------------------------- pool hand-over

  lemma OfferedAtMostOnce(maxConcurrent: int, acts: seq<Action>)
    requires Legal(New(maxConcurrent), acts)
    ensures var s := Exec(New(maxConcurrent), acts);
            && (forall i, j | 0 <= i < j < |s.offers| :: s.offers[i] != s.offers[j])
            && (forall id | id in s.offers :: id !in s.heap && id in s.store)
  {
    hide Legal, Exec;
    Reachable(maxConcurrent, acts);
  }

  // ---------------------------------------------------------------- what one action can change

  /** The life of a run: every edge its place can follow. */
  predicate Edge(p: Place, q: Place) {
    match p
    case Submitting(_) => q.InHeap? || q.Refused?
    case Refused(_) => q.Settled?
    case InHeap => q.Inspected? || q.Drained?
    case Inspected => q.Offered? || q.Settled?
    case Offered => q.Handed? || q.Rejected?
    case Rejected => q.Settled?
    case Handed(_) => q.Executing?
    case Executing(_) => q.Finished?
    case Finished(_) => q.Settled?
    case Drained => q.Closing? || q.Settled?
    case Closing(_) => q.Settled?
    case Settled => false
  }

  datatype Wrote = Nothing | Wrote(run: Run)

  /** The run an action hands to `UpdateRun`, if any. */
  function Updated(s: Sched, a: Action): (r: Wrote)
    requires Enabled(s, a)
  {
    match a
    case RefuseWrite(id) => Wrote(Cancelling(s.place[id].run, "scheduler_closed"))
    case CancelWrite(read) => Wrote(Cancelling(read, "cancelled"))
    case FailWrite => Wrote(s.lock.run.(state := Failed))
    case ExecStart(id) => Wrote(s.place[id].run.(state := Running))
    case ExecFinish(id, outcome, error) => Wrote(s.place[id].run.(state := outcome, error := error))
    case CloseWrite(id) => Wrote(Cancelling(s.place[id].run, "scheduler_closed"))
    case _ => Nothing
  }

  /** The store after an action: one write of `UpdateRun`, a new queued run, or nothing new. */
  function Stored(s: Sched, a: Action): map<RunId, Run>
    requires Enabled(s, a)
  {
    if a.SubmitCreate? then s.store[a.id := Run(a.id, a.agent, a.priority, Queued, "")]
    else match Updated(s, a)
         case Wrote(run) => Write(s.store, run)
         case Nothing => s.store
  }

  lemma DispatchStores(s: Sched, a: Action)
    requires Enabled(s, a) && OfDispatch(a)
    ensures Step(s, a).store == Stored(s, a)
  {
    hide First, Deliver, Write;
    assert Step(s, a) == DispatchStep(s, a);
  }

  lemma OwnerStores(s: Sched, a: Action)
    requires Enabled(s, a) && OfOwner(a)
    ensures Step(s, a).store == Stored(s, a)
  {
    hide Write, AllDrained;
    assert Step(s, a) == OwnerStep(s, a);
  }

  lemma CallerStores(s: Sched, a: Action)
    requires Enabled(s, a) && !OfDispatch(a) && !OfOwner(a)
    ensures Step(s, a).store == Stored(s, a)
  {
    hide Deliver, Write;
    assert Step(s, a) == CallerStep(s, a);
  }

  lemma Stores(s: Sched, a: Action)
    requires Enabled(s, a)
    ensures Step(s, a).store == Stored(s, a)
  {
    hide Step, Enabled, Stored;
    if OfDispatch(a) {
      DispatchStores(s, a);
    } else if OfOwner(a) {
      OwnerStores(s, a);
    } else {
      CallerStores(s, a);
    }
  }

  lemma WritesDecided(s: Sched, a: Action)
    requires Enabled(s, a) && Updated(s, a).Wrote?
    ensures !Updated(s, a).run.state.Queued? && (!a.ExecStart? ==> Terminal(Updated(s, a).run.state))
  {
  }

  lemma CreateIsNew(s: Sched, a: Action)
    requires Enabled(s, a) && a.SubmitCreate?
    ensures a.id !in s.store
  {
  }

  /** How an action moves runs: not at all, one run, or the whole heap to Close's list. */
  datatype Movement = Stays | Moves(id: RunId, to: Place) | Drains

  function Moving(s: Sched, a: Action): (m: Movement)
    requires Enabled(s, a)
  {
    match a
    case SubmitCreate(agent, priority, id) => Moves(id, Submitting(Run(id, agent, priority, Queued, "")))
    case SubmitEnqueue(id) => Moves(id, InHeap)
    case SubmitRefuse(id) => Moves(id, Refused(s.place[id].run))
    case RefuseWrite(id) => Moves(id, Settled)
    case DispatchPop(id) => Moves(id, Inspected)
    case DispatchInspect =>
      var id := s.lock.id;
      Moves(id, if id in s.store && s.store[id].state.Queued? && s.lock.task.agentId in s.agents then Offered
                else Settled)
    case PoolAccept => Moves(s.lock.run.id, Handed(s.lock.run))
    case PoolReject(_) => Moves(s.lock.run.id, Rejected)
    case FailWrite => Moves(s.lock.run.id, Settled)
    case ExecStart(id) => Moves(id, Executing(s.place[id].run.(state := Running)))
    case ExecFinish(id, outcome, error) => Moves(id, Finished(s.place[id].run.(state := outcome, error := error)))
    case ExecEpilogue(id) => Moves(id, Settled)
    case CloseDrain => Drains
    case CloseRead(id) =>
      Moves(id, if id in s.store && s.store[id].state.Queued? then Closing(s.store[id]) else Settled)
    case CloseWrite(id) => Moves(id, Settled)
    case _ => Stays
  }

  function Placed(place: map<RunId, Place>, heap: map<RunId, Task>, m: Movement): map<RunId, Place> {
    match m
    case Stays => place
    case Moves(id, to) => place[id := to]
    case Drains => AllDrained(place, heap)
  }

  lemma DispatchPlaces(s: Sched, a: Action)
    requires Enabled(s, a) && OfDispatch(a)
    ensures Step(s, a).place == Placed(s.place, s.heap, Moving(s, a))
  {
    hide First, Deliver, Write;
    assert Step(s, a) == DispatchStep(s, a);
  }

  lemma ExecutionPlaces(s: Sched, a: Action)
    requires Enabled(s, a) && (a.ExecStart? || a.ExecFinish? || a.ExecEpilogue?)
    ensures Step(s, a).place == Placed(s.place, s.heap, Moving(s, a))
  {
    hide Write, AllDrained;
    assert Step(s, a) == OwnerStep(s, a);
  }

  lemma ClosePlaces(s: Sched, a: Action)
    requires Enabled(s, a) && (a.CloseDrain? || a.CloseRead? || a.CloseWrite?)
    ensures Step(s, a).place == Placed(s.place, s.heap, Moving(s, a))
  {
    hide Write, AllDrained;
    assert Step(s, a) == OwnerStep(s, a);
  }

  lemma OwnerPlaces(s: Sched, a: Action)
    requires Enabled(s, a) && OfOwner(a)
    ensures Step(s, a).place == Placed(s.place, s.heap, Moving(s, a))
  {
    hide Step, Enabled, Moving, Placed;
    if a.ExecStart? || a.ExecFinish? || a.ExecEpilogue? {
      ExecutionPlaces(s, a);
    } else {
      ClosePlaces(s, a);
    }
  }

  lemma CallerPlaces(s: Sched, a: Action)
    requires Enabled(s, a) && !OfDispatch(a) && !OfOwner(a)
    ensures Step(s, a).place == Placed(s.place, s.heap, Moving(s, a))
  {
    hide Deliver, Write;
    assert Step(s, a) == CallerStep(s, a);
  }

  /** The places after an action. */
  lemma Places(s: Sched, a: Action)
    requires Enabled(s, a)
    ensures Step(s, a).place == Placed(s.place, s.heap, Moving(s, a))
  {
    hide Step, Enabled, Moving, Placed;
    if OfDispatch(a) {
      DispatchPlaces(s, a);
    } else if OfOwner(a) {
      OwnerPlaces(s, a);
    } else {
      CallerPlaces(s, a);
    }
  }

  /** The goroutines about to call notify after an action. */
  function Noted(s: Sched, a: Action): multiset<Run>
    requires Enabled(s, a)
  {
    match a
    case ExecEpilogue(id) => s.notifying + multiset{s.place[id].run}
    case RefuseWrite(id) => s.notifying + multiset{Cancelling(s.place[id].run, "scheduler_closed")}
    case CloseWrite(id) => s.notifying + multiset{Cancelling(s.place[id].run, "scheduler_closed")}
    case CancelWrite(read) => s.notifying + multiset{Cancelling(read, "cancelled")}
    case Notify(run) => s.notifying - multiset{run}
    case _ => s.notifying
  }

  /** The Cancels that have read a queued run, after an action. */
  function Reading(s: Sched, a: Action): multiset<Run>
    requires Enabled(s, a)
  {
    match a
    case CancelRead(id) => s.cancelling + multiset{s.store[id]}
    case CancelWrite(read) => s.cancelling - multiset{read}
    case _ => s.cancelling
  }

  /** The lock after an action. */
  function Locking(s: Sched, a: Action): Lock
    requires Enabled(s, a)
  {
    match a
    case SubmitEnqueue(_) => Dispatching
    case ExecEpilogue(_) => if s.closed then Free else Dispatching
    case DispatchPop(id) => Inspecting(id, s.heap[id])
    case DispatchInspect =>
      var id := s.lock.id;
      if id in s.store && s.store[id].state.Queued? && s.lock.task.agentId in s.agents then Offering(s.store[id])
      else Dispatching
    case PoolReject(reason) => Failing(s.lock.run.(error := reason))
    case FailWrite => Announcing(s.lock.run.(state := Failed))
    case PoolAccept => Dispatching
    case FailNotify => Dispatching
    case DispatchDone => Free
    case _ => s.lock
  }

  lemma FailNotifyBooks(s: Sched)
    requires Enabled(s, FailNotify)
    ensures var t, a := Step(s, FailNotify), FailNotify;
            t.notifying == Noted(s, a) && t.cancelling == Reading(s, a) && t.closed == s.closed &&
            t.lock == Locking(s, a)
  {
    hide Deliver;
  }

  lemma InspectBooks(s: Sched)
    requires Enabled(s, DispatchInspect)
    ensures var t, a := Step(s, DispatchInspect), DispatchInspect;
            t.notifying == Noted(s, a) && t.cancelling == Reading(s, a) && t.closed == s.closed &&
            t.lock == Locking(s, a)
  {
    assert Step(s, DispatchInspect) == DispatchStep(s, DispatchInspect);
  }

  lemma LoopBooks(s: Sched, a: Action)
    requires Enabled(s, a) && OfDispatch(a) && !a.FailNotify? && !a.DispatchInspect?
    ensures Step(s, a).notifying == Noted(s, a) && Step(s, a).cancelling == Reading(s, a)
    ensures Step(s, a).closed == s.closed && Step(s, a).lock == Locking(s, a)
  {
    hide First, NotifyLocked, Write;
    assert Step(s, a) == DispatchStep(s, a);
  }

  lemma DispatchBooks(s: Sched, a: Action)
    requires Enabled(s, a) && OfDispatch(a)
    ensures Step(s, a).notifying == Noted(s, a) && Step(s, a).cancelling == Reading(s, a)
    ensures Step(s, a).closed == s.closed && Step(s, a).lock == Locking(s, a)
  {
    hide Step, Enabled, Noted, Reading, Locking;
    if a.FailNotify? {
      FailNotifyBooks(s);
    } else if a.DispatchInspect? {
      InspectBooks(s);
    } else {
      LoopBooks(s, a);
    }
  }

  lemma OwnerBooks(s: Sched, a: Action)
    requires Enabled(s, a) && OfOwner(a)
    ensures Step(s, a).notifying == Noted(s, a) && Step(s, a).cancelling == Reading(s, a)
    ensures Step(s, a).closed == (s.closed || a.CloseDrain?) && Step(s, a).lock == Locking(s, a)
  {
    hide Write, AllDrained;
    assert Step(s, a) == OwnerStep(s, a);
  }

  lemma CallerBooks(s: Sched, a: Action)
    requires Enabled(s, a) && !OfDispatch(a) && !OfOwner(a)
    ensures Step(s, a).notifying == Noted(s, a) && Step(s, a).cancelling == Reading(s, a)
    ensures Step(s, a).closed == s.closed && Step(s, a).lock == Locking(s, a)
  {
    hide Deliver, Write;
    assert Step(s, a) == CallerStep(s, a);
  }

  /** What is left to announce and to cancel, the lock, and whether the scheduler is closed, after an action. */
  lemma Books(s: Sched, a: Action)
    requires Enabled(s, a)
    ensures Step(s, a).notifying == Noted(s, a) && Step(s, a).cancelling == Reading(s, a)
    ensures Step(s, a).closed == (s.closed || a.CloseDrain?) && Step(s, a).lock == Locking(s, a)
  {
    hide Step, Enabled, Noted, Reading, Locking;
    if OfDispatch(a) {
      DispatchBooks(s, a);
    } else if OfOwner(a) {
      OwnerBooks(s, a);
    } else {
      CallerBooks(s, a);
    }
  }

  predicate Carries(s: Sched, a: Action, id: RunId)
    requires Enabled(s, a)
  {
    match Moving(s, a)
    case Stays => false
    case Moves(moved, _) => moved == id
    case Drains => id in s.heap
  }

  lemma PlaceEffect(s: Sched, a: Action, id: RunId)
    requires Enabled(s, a) && id in s.place
    ensures id in Step(s, a).place && (!Carries(s, a, id) ==> Step(s, a).place[id] == s.place[id])
  {
    hide Step, Enabled, Moving;
    Places(s, a);
  }

  lemma MovesAlongEdge(s: Sched, a: Action, id: RunId)
    requires s.store.Keys == s.place.Keys && HeapPlaces(s.heap, s.place) && HoldsRun(s.agents, s.lock, s.place)
    requires id in s.place && Enabled(s, a) && Moving(s, a).Moves? && Moving(s, a).id == id
    ensures Edge(s.place[id], Moving(s, a).to)
  {
    hide Step;
  }

  lemma PlaceFollowsEdge(s: Sched, a: Action, id: RunId)
    requires s.store.Keys == s.place.Keys && HeapPlaces(s.heap, s.place) && HoldsRun(s.agents, s.lock, s.place)
    requires Enabled(s, a) && id in s.place
    ensures var t := Step(s, a);
            id in t.place && (t.place[id] == s.place[id] || Edge(s.place[id], t.place[id]))
  {
    hide Step, Enabled, Moving, HoldsRun;
    Places(s, a);
    if Moving(s, a).Moves? && Moving(s, a).id == id {
      MovesAlongEdge(s, a, id);
    }
  }

  lemma QueuedNeverReturns(s: Sched, a: Action, id: RunId)
    requires Enabled(s, a) && id in s.store && !s.store[id].state.Queued?
    ensures id in Step(s, a).store && !Step(s, a).store[id].state.Queued?
  {
    hide Step, Enabled, Updated;
    Stores(s, a);
    if a.SubmitCreate? {
      CreateIsNew(s, a);
    } else if Updated(s, a).Wrote? {
      WritesDecided(s, a);
    }
  }

  lemma DispatchOffersGrow(s: Sched, a: Action)
    requires Enabled(s, a) && OfDispatch(a)
    ensures var t := Step(s, a);
            t.offers == s.offers || (s.lock.Offering? && t.offers == s.offers + [s.lock.run.id])
  {
    assert Step(s, a) == DispatchStep(s, a);
  }

  lemma OwnerOffersGrow(s: Sched, a: Action)
    requires Enabled(s, a) && OfOwner(a)
    ensures var t := Step(s, a);
            t.offers == s.offers || (s.lock.Offering? && t.offers == s.offers + [s.lock.run.id])
  {
    assert Step(s, a) == OwnerStep(s, a);
  }

  lemma CallerOffersGrow(s: Sched, a: Action)
    requires Enabled(s, a) && !OfDispatch(a) && !OfOwner(a)
    ensures var t := Step(s, a);
            t.offers == s.offers || (s.lock.Offering? && t.offers == s.offers + [s.lock.run.id])
  {
    assert Step(s, a) == CallerStep(s, a);
  }

  lemma OffersGrow(s: Sched, a: Action)
    requires Enabled(s, a)
    ensures var t := Step(s, a);
            t.offers == s.offers || (s.lock.Offering? && t.offers == s.offers + [s.lock.run.id])
  {
    hide Step, Enabled;
    if OfDispatch(a) {
      DispatchOffersGrow(s, a);
    } else if OfOwner(a) {
      OwnerOffersGrow(s, a);
    } else {
      CallerOffersGrow(s, a);
    }
  }

  /** The only actions that move a run out of a given place. */
  lemma CarrierOf(s: Sched, a: Action, id: RunId)
    requires HoldsRun(s.agents, s.lock, s.place) && HeapPlaces(s.heap, s.place) && s.store.Keys == s.place.Keys
    requires Enabled(s, a) && id in s.place && Carries(s, a, id)
    ensures s.place[id].Inspected? ==> a.DispatchInspect? && s.lock.id == id
    ensures s.place[id].Drained? ==> a == CloseRead(id)
    ensures s.place[id].InHeap? ==> a == DispatchPop(id) || a.CloseDrain?
  {
    hide Step;
  }

  /** Dispatch and Close go on with a run only if they have read it as queued. */
  lemma OnlyQueuedGoesOn(s: Sched, a: Action, id: RunId)
    requires HoldsRun(s.agents, s.lock, s.place) && HeapPlaces(s.heap, s.place) && s.store.Keys == s.place.Keys
    requires Enabled(s, a) && id in s.place && (s.place[id].Inspected? || s.place[id].Drained?)
    requires id in Step(s, a).place && (Step(s, a).place[id].Offered? || Step(s, a).place[id].Closing?)
    ensures id in s.store && s.store[id].state.Queued?
  {
    hide Step, Enabled, HoldsRun;
    Places(s, a);
    if Carries(s, a, id) {
      CarrierOf(s, a, id);
    }
  }

  /** A run that was decided before the dispatch loop read it. */
  predicate Decided(s: Sched, id: RunId) {
    && id in s.place && id in s.store
    && !s.store[id].state.Queued?
    && (s.place[id].InHeap? || s.place[id].Inspected? || s.place[id].Drained? || s.place[id].Settled?)
    && id !in s.offers
  }

  lemma DecidedStep(s: Sched, a: Action, id: RunId)
    requires Inv(s) && Decided(s, id) && Enabled(s, a)
    ensures Decided(Step(s, a), id)
  {
    hide Step, Enabled;
    QueuedNeverReturns(s, a, id);
    PlaceFollowsEdge(s, a, id);
    OffersGrow(s, a);
    var t := Step(s, a);
    if (s.place[id].Inspected? || s.place[id].Drained?) && (t.place[id].Offered? || t.place[id].Closing?) {
      OnlyQueuedGoesOn(s, a, id);
    }
  }

  lemma {:induction false} DecidedForGood(s: Sched, acts: seq<Action>, id: RunId)
    requires Inv(s) && Decided(s, id) && Legal(s, acts)
    ensures Decided(Exec(s, acts), id)
    decreases |acts|
  {
    if acts != [] {
      DecidedStep(s, acts[0], id);
      StepKept(s, acts[0]);
      DecidedForGood(Step(s, acts[0]), acts[1..], id);
    }
  }

  /** A run whose stored state became terminal while it was still in the heap is never given to the pool. */
  lemma CancelledInHeapNeverOffered(maxConcurrent: int, before: seq<Action>, after: seq<Action>, id: RunId)
    requires Legal(New(maxConcurrent), before)
    requires var s := Exec(New(maxConcurrent), before);
             id in s.heap && id in s.store && Terminal(s.store[id].state) && Legal(s, after)
    ensures id !in Exec(Exec(New(maxConcurrent), before), after).offers
  {
    Reachable(maxConcurrent, before);
    var s := Exec(New(maxConcurrent), before);
    assert s.place[id].InHeap?;
    DecidedForGood(s, after, id);
  }

  // ---------------------------------------------------------------- priority, first in first out

  /** `a` never stands after `b` among the runs given to the pool. */
  predicate InOrder(offers: seq<RunId>, a: RunId, b: RunId) {
    forall i, j | 0 <= i < |offers| && 0 <= j < |offers| && offers[i] == a && offers[j] == b :: i < j
  }

  predicate Pledged(p: Place) {
    p.InHeap? || p.Inspected? || p.Offered?
  }

  /** `a` is ahead of `b` in the heap, or has left it first, or can no longer be offered. */
  predicate Ahead(s: Sched, a: RunId, b: RunId) {
    && a in s.place && b in s.place && a != b
    && !s.place[a].Submitting? && !s.place[b].Submitting?
    && InOrder(s.offers, a, b)
    && (Pledged(s.place[a]) ==> b !in s.offers)
    && (s.place[a].InHeap? ==> a in s.heap && (b in s.heap ==> Before(s.heap[a], s.heap[b])))
    && (Pledged(s.place[a]) ==> s.place[b].InHeap? || s.place[b].Drained? || s.place[b].Closing? || s.place[b].Settled?)
  }

  lemma DispatchHeapEffect(s: Sched, act: Action, id: RunId)
    requires HeapPlaces(s.heap, s.place)
    requires Enabled(s, act) && OfDispatch(act) && id in s.heap && id in Step(s, act).heap
    ensures Step(s, act).heap[id] == s.heap[id]
  {
    hide Deliver, Write;
    assert Step(s, act) == DispatchStep(s, act);
  }

  lemma ExecutionHeapEffect(s: Sched, act: Action, id: RunId)
    requires HeapPlaces(s.heap, s.place)
    requires Enabled(s, act) && (act.ExecStart? || act.ExecFinish? || act.ExecEpilogue?)
    requires id in s.heap && id in Step(s, act).heap
    ensures Step(s, act).heap[id] == s.heap[id]
  {
    hide Write, AllDrained;
    assert Step(s, act) == OwnerStep(s, act);
  }

  lemma CloseHeapEffect(s: Sched, act: Action, id: RunId)
    requires HeapPlaces(s.heap, s.place)
    requires Enabled(s, act) && (act.CloseDrain? || act.CloseRead? || act.CloseWrite?)
    requires id in s.heap && id in Step(s, act).heap
    ensures Step(s, act).heap[id] == s.heap[id]
  {
    hide Write, AllDrained;
    assert Step(s, act) == OwnerStep(s, act);
  }

  lemma OwnerHeapEffect(s: Sched, act: Action, id: RunId)
    requires HeapPlaces(s.heap, s.place)
    requires Enabled(s, act) && OfOwner(act) && id in s.heap && id in Step(s, act).heap
    ensures Step(s, act).heap[id] == s.heap[id]
  {
    hide Step, Enabled, Moving, Placed;
    if act.ExecStart? || act.ExecFinish? || act.ExecEpilogue? {
      ExecutionHeapEffect(s, act, id);
    } else {
      CloseHeapEffect(s, act, id);
    }
  }

  lemma CallerHeapEffect(s: Sched, act: Action, id: RunId)
    requires HeapPlaces(s.heap, s.place)
    requires Enabled(s, act) && !OfDispatch(act) && !OfOwner(act) && id in s.heap && id in Step(s, act).heap
    ensures Step(s, act).heap[id] == s.heap[id]
  {
    assert Step(s, act) == CallerStep(s, act);
  }

  lemma HeapEffect(s: Sched, act: Action, id: RunId)
    requires HeapPlaces(s.heap, s.place)
    requires Enabled(s, act) && id in s.heap && id in Step(s, act).heap
    ensures Step(s, act).heap[id] == s.heap[id]
  {
    hide Step, Enabled;
    if OfDispatch(act) {
      DispatchHeapEffect(s, act, id);
    } else if OfOwner(act) {
      OwnerHeapEffect(s, act, id);
    } else {
      CallerHeapEffect(s, act, id);
    }
  }

  lemma DrainMoves(s: Sched, id: RunId)
    requires Enabled(s, CloseDrain) && id in s.heap && id in s.place
    ensures id in Step(s, CloseDrain).place && Step(s, CloseDrain).place[id].Drained?
  {
  }

  /** While `a` is in the heap, `b` behind it is not popped. */
  lemma NotOvertaken(s: Sched, act: Action, a: RunId, b: RunId)
    requires HeapPlaces(s.heap, s.place) && HoldsRun(s.agents, s.lock, s.place) && s.store.Keys == s.place.Keys
    requires Enabled(s, act) && a in s.heap && b in s.heap && Before(s.heap[a], s.heap[b])
    ensures b in Step(s, act).place && !Step(s, act).place[b].Inspected?
  {
    hide Step, Moving;
    if Carries(s, act, b) {
      CarrierOf(s, act, b);
      assert act != DispatchPop(b);
      DrainMoves(s, b);
    } else {
      PlaceEffect(s, act, b);
    }
  }

  /** While the dispatch loop holds a run it pops no other. */
  lemma OneAtATime(s: Sched, act: Action, a: RunId, b: RunId)
    requires HeapPlaces(s.heap, s.place) && LockShape(s.agents, s.lock, s.place, s.closed)
        && s.store.Keys == s.place.Keys
    requires Enabled(s, act) && a in s.place && (s.place[a].Inspected? || s.place[a].Offered?)
    requires b in s.place && s.place[b].InHeap?
    ensures b in Step(s, act).place && Step(s, act).place[b].InHeap?
  {
    hide Step, Moving;
    if Carries(s, act, b) {
      CarrierOf(s, act, b);
    } else {
      PlaceEffect(s, act, b);
    }
  }

  lemma Parts(s: Sched)
    requires Inv(s)
    ensures HeapPlaces(s.heap, s.place) && LockShape(s.agents, s.lock, s.place, s.closed)
    ensures s.store.Keys == s.place.Keys && OfferShape(s.offers, s.place)
  {
  }

  lemma AheadStep(s: Sched, act: Action, a: RunId, b: RunId)
    requires Inv(s) && Ahead(s, a, b) && Enabled(s, act)
    ensures Ahead(Step(s, act), a, b)
  {
    hide Step, Enabled, Inv;
    var t := Step(s, act);
    StepKept(s, act);
    Parts(s);
    Parts(t);
    PlaceFollowsEdge(s, act, a);
    PlaceFollowsEdge(s, act, b);
    OffersGrow(s, act);
    if s.place[a].InHeap? && s.place[b].InHeap? {
      NotOvertaken(s, act, a, b);
      if t.place[a].InHeap? && t.place[b].InHeap? {
        HeapEffect(s, act, a);
        HeapEffect(s, act, b);
      }
    } else if (s.place[a].Inspected? || s.place[a].Offered?) && s.place[b].InHeap? {
      OneAtATime(s, act, a, b);
    }
  }

  lemma {:induction false} AheadForGood(s: Sched, acts: seq<Action>, a: RunId, b: RunId)
    requires Inv(s) && Ahead(s, a, b) && Legal(s, acts)
    ensures Ahead(Exec(s, acts), a, b)
    decreases |acts|
  {
    if acts != [] {
      AheadStep(s, acts[0], a, b);
      StepKept(s, acts[0]);
      AheadForGood(Step(s, acts[0]), acts[1..], a, b);
    }
  }

  /** Of two runs in the heap at the same time the pool never gets the one behind before the one ahead. */
  lemma PoolSeesHeapOrder(s: Sched, acts: seq<Action>, a: RunId, b: RunId)
    requires Inv(s) && Legal(s, acts)
    requires a in s.heap && b in s.heap && Before(s.heap[a], s.heap[b])
    ensures InOrder(Exec(s, acts).offers, a, b)
  {
    hide Legal, Exec;
    AheadForGood(s, acts, a, b);
  }

  /** In every reachable state: of two runs in the heap the one of lower priority is not given to the pool before
      the one of higher priority, whatever happens afterwards. */
  lemma HigherPriorityFirst(maxConcurrent: int, before: seq<Action>, after: seq<Action>, a: RunId, b: RunId)
    requires Legal(New(maxConcurrent), before) && Legal(Exec(New(maxConcurrent), before), after)
    requires var s := Exec(New(maxConcurrent), before);
             a in s.heap && b in s.heap && s.heap[a].priority > s.heap[b].priority
    ensures var offers := Exec(Exec(New(maxConcurrent), before), after).offers;
            forall i, j | 0 <= i < |offers| && 0 <= j < |offers| && offers[i] == a && offers[j] == b :: i < j
    ensures var t := Exec(Exec(New(maxConcurrent), before), after);
            a in t.heap ==> b !in t.offers
  {
    hide Legal, Exec, Inv;
    Reachable(maxConcurrent, before);
    var s := Exec(New(maxConcurrent), before);
    InHeapIsPledged(s, a);
    InHeapIsPledged(s, b);
    AheadForGood(s, after, a, b);
    RunKept(s, after);
    Parts(Exec(s, after));
  }

  lemma InHeapIsPledged(s: Sched, id: RunId)
    requires Inv(s) && id in s.heap
    ensures id in s.place && s.place[id].InHeap? && id !in s.offers
  {
    hide Copies, LockShape, Capacity, StoreShape, Pending, Waiters;
  }

  lemma SequencesSoFar(s: Sched, id: RunId)
    requires Inv(s) && id in s.heap
    ensures id in s.place && s.place[id].InHeap? && s.heap[id].sequence <= s.sequence
  {
    hide Copies, LockShape, Capacity, StoreShape, Pending, OfferShape, Waiters;
  }

  /** Equal priorities are first in, first out: a run queued now stays behind every run of its priority
      that is already in the heap, whatever happens afterwards. */
  lemma EqualPrioritiesStayInOrder(s: Sched, a: RunId, b: RunId, acts: seq<Action>)
    requires Inv(s) && a in s.heap && Enabled(s, SubmitEnqueue(b))
    requires s.place[b].run.priority == s.heap[a].priority
    requires Legal(Step(s, SubmitEnqueue(b)), acts)
    ensures InOrder(Exec(Step(s, SubmitEnqueue(b)), acts).offers, a, b)
  {
    hide Legal, Exec, Inv;
    var t := Step(s, SubmitEnqueue(b));
    StepKept(s, SubmitEnqueue(b));
    SequencesSoFar(s, a);
    PoolSeesHeapOrder(t, acts, a, b);
  }

  // ---------------------------------------------------------------- waiters

  lemma WaitersServedOnce(maxConcurrent: int, acts: seq<Action>, ch: ChanId)
    requires Legal(New(maxConcurrent), acts) && ch in Exec(New(maxConcurrent), acts).chans
    ensures var s := Exec(New(maxConcurrent), acts);
            var c := s.chans[ch];
            && |c.sent| <= 1 && c.closes <= 1
            && (c.sent != [] ==> c.sent[0].id == c.runId && Terminal(c.sent[0].state) && c.closes == 1)
            && (c.sent == [] <==> c.runId in s.waiters && ch in s.waiters[c.runId])
  {
    hide Legal, Exec;
    Reachable(maxConcurrent, acts);
    var s := Exec(New(maxConcurrent), acts);
    assert Served(s.chans[ch]) || Waiting(s.waiters, s.chans[ch], ch);
    var id := s.chans[ch].runId;
    if id in s.waiters && ch in s.waiters[id] {
      assert Listed(s.chans, id, s.waiters[id]);
    }
  }

  lemma DispatchChansEffect(s: Sched, a: Action, ch: ChanId)
    requires Enabled(s, a) && OfDispatch(a) && ch in s.chans && !a.Notify? && !a.FailNotify?
    ensures ch in Step(s, a).chans && Step(s, a).chans[ch] == s.chans[ch]
  {
    assert Step(s, a) == DispatchStep(s, a);
  }

  lemma OwnerChansEffect(s: Sched, a: Action, ch: ChanId)
    requires Enabled(s, a) && OfOwner(a) && ch in s.chans && !a.Notify? && !a.FailNotify?
    ensures ch in Step(s, a).chans && Step(s, a).chans[ch] == s.chans[ch]
  {
    assert Step(s, a) == OwnerStep(s, a);
  }

  lemma CallerChansEffect(s: Sched, a: Action, ch: ChanId)
    requires Enabled(s, a) && !OfDispatch(a) && !OfOwner(a) && ch in s.chans && !a.Notify? && !a.FailNotify?
    ensures ch in Step(s, a).chans && Step(s, a).chans[ch] == s.chans[ch]
  {
    assert Step(s, a) == CallerStep(s, a);
  }

  lemma ChansEffect(s: Sched, a: Action, ch: ChanId)
    requires Enabled(s, a) && ch in s.chans && !a.Notify? && !a.FailNotify?
    ensures ch in Step(s, a).chans && Step(s, a).chans[ch] == s.chans[ch]
  {
    hide Step, Enabled;
    if OfDispatch(a) {
      DispatchChansEffect(s, a, ch);
    } else if OfOwner(a) {
      OwnerChansEffect(s, a, ch);
    } else {
      CallerChansEffect(s, a, ch);
    }
  }

  lemma NotifyKeepsServed(s: Sched, run: Run, ch: ChanId)
    requires Waiters(s.waiters, s.chans) && Terminal(run.state) && ch in s.chans && Served(s.chans[ch])
    ensures ch in NotifyLocked(s, run).chans && NotifyLocked(s, run).chans[ch] == s.chans[ch]
  {
    if run.id in s.waiters {
      assert Listed(s.chans, run.id, s.waiters[run.id]);
      DeliverServes(s.chans, run.id, s.waiters[run.id], run);
    }
  }

  lemma ServedStep(s: Sched, a: Action, ch: ChanId)
    requires Inv(s) && Enabled(s, a) && ch in s.chans && Served(s.chans[ch])
    ensures ch in Step(s, a).chans && Step(s, a).chans[ch] == s.chans[ch]
  {
    hide Step, Inv, Enabled, Served;
    match a
    case Notify(run) => NotifyStepServed(s, run, ch);
    case FailNotify => FailNotifyStepServed(s, ch);
    case _ => ChansEffect(s, a, ch);
  }

  lemma NotifyStepServed(s: Sched, run: Run, ch: ChanId)
    requires Inv(s) && Enabled(s, Notify(run)) && ch in s.chans && Served(s.chans[ch])
    ensures ch in Step(s, Notify(run)).chans && Step(s, Notify(run)).chans[ch] == s.chans[ch]
  {
    NotifyKeepsServed(s.(notifying := s.notifying - multiset{run}), run, ch);
  }

  lemma FailNotifyStepServed(s: Sched, ch: ChanId)
    requires Inv(s) && Enabled(s, FailNotify) && ch in s.chans && Served(s.chans[ch])
    ensures ch in Step(s, FailNotify).chans && Step(s, FailNotify).chans[ch] == s.chans[ch]
  {
    NotifyKeepsServed(s.(lock := Dispatching), s.lock.run, ch);
  }

  /** Once a channel has left the waiter map nothing is sent on it and it is not closed again. */
  lemma {:induction false} ServedForGood(s: Sched, acts: seq<Action>, ch: ChanId)
    requires Inv(s) && Legal(s, acts) && ch in s.chans && Served(s.chans[ch])
    ensures ch in Exec(s, acts).chans && Exec(s, acts).chans[ch] == s.chans[ch]
    decreases |acts|
  {
    if acts != [] {
      ServedStep(s, acts[0], ch);
      StepKept(s, acts[0]);
      ServedForGood(Step(s, acts[0]), acts[1..], ch);
    }
  }
}
