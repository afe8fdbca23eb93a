/** The priority and the agent that a caller submits reach the heap unchanged, and decide the order of dispatch. */
module ProtocolPriority {
  import opened Protocol
  import opened ProtocolInvariant
  import opened ProtocolTheorems

  predicate Asked(run: Run, agent: string, priority: int) {
    run.agentId == agent && run.priority == priority
  }

  predicate AskedPlace(p: Place, agent: string, priority: int) {
    match p
    case Submitting(run) => Asked(run, agent, priority)
    case Refused(run) => Asked(run, agent, priority)
    case Handed(run) => Asked(run, agent, priority)
    case Executing(run) => Asked(run, agent, priority)
    case Finished(run) => Asked(run, agent, priority)
    case Closing(run) => Asked(run, agent, priority)
    case _ => true
  }

  predicate AskedLock(lock: Lock, id: RunId, agent: string, priority: int) {
    match lock
    case Offering(run) => run.id == id ==> Asked(run, agent, priority)
    case Failing(run) => run.id == id ==> Asked(run, agent, priority)
    case _ => true
  }

  /** Every copy of the run that can still be written or queued has the agent and the priority asked for. */
  ghost predicate AsAsked(s: Sched, id: RunId, agent: string, priority: int) {
    && id in s.store && Asked(s.store[id], agent, priority)
    && id in s.place && AskedPlace(s.place[id], agent, priority)
    && (id in s.heap ==> s.heap[id].agentId == agent && s.heap[id].priority == priority)
    && AskedLock(s.lock, id, agent, priority)
    && (forall r | r in s.cancelling && r.id == id :: Asked(r, agent, priority))
  }

  lemma StoreAsAsked(s: Sched, a: Action, id: RunId, agent: string, priority: int)
    requires Enabled(s, a) && Inv(s) && AsAsked(s, id, agent, priority)
    ensures id in Stored(s, a) && Asked(Stored(s, a)[id], agent, priority)
  {
    hide Inv;
    if a.RefuseWrite? || a.CloseWrite? || a.ExecStart? || a.ExecFinish? {
      OwnCopy(s, a.id);
    }
  }

  lemma PlaceAsAsked(s: Sched, a: Action, id: RunId, agent: string, priority: int)
    requires Enabled(s, a) && Inv(s) && AsAsked(s, id, agent, priority)
    ensures id in Step(s, a).place && AskedPlace(Step(s, a).place[id], agent, priority)
  {
    hide Inv, Step;
    Parts(s);
    Places(s, a);
    if Carries(s, a, id) && Moving(s, a).Moves? {
      MoveAsAsked(s, a, id, agent, priority);
    }
  }

  lemma MoveAsAsked(s: Sched, a: Action, id: RunId, agent: string, priority: int)
    requires s.store.Keys == s.place.Keys
    requires Enabled(s, a) && AsAsked(s, id, agent, priority) && Moving(s, a).Moves? && Moving(s, a).id == id
    ensures AskedPlace(Moving(s, a).to, agent, priority)
  {
  }

  lemma QueuedByEnqueue(s: Sched, a: Action, id: RunId)
    requires Enabled(s, a) && HeapPlaces(s.heap, s.place) && HeapPlaces(Step(s, a).heap, Step(s, a).place)
    requires id in s.place && id !in s.heap && id in Step(s, a).heap
    ensures a == SubmitEnqueue(id)
  {
    hide Step;
    Places(s, a);
  }

  lemma HeapAsAsked(s: Sched, a: Action, id: RunId, agent: string, priority: int)
    requires Enabled(s, a) && Inv(s) && AsAsked(s, id, agent, priority) && id in Step(s, a).heap
    ensures Step(s, a).heap[id].agentId == agent && Step(s, a).heap[id].priority == priority
  {
    hide Inv, Step, Enabled;
    StepKept(s, a);
    Parts(s);
    Parts(Step(s, a));
    if id in s.heap {
      HeapEffect(s, a, id);
    } else {
      QueuedByEnqueue(s, a, id);
      EnqueuedAsAsked(s, id, agent, priority);
    }
  }

  lemma EnqueuedAsAsked(s: Sched, id: RunId, agent: string, priority: int)
    requires Enabled(s, SubmitEnqueue(id)) && AsAsked(s, id, agent, priority)
    ensures var t := Step(s, SubmitEnqueue(id));
            id in t.heap && t.heap[id].agentId == agent && t.heap[id].priority == priority
  {
    assert Step(s, SubmitEnqueue(id)) == CallerStep(s, SubmitEnqueue(id));
  }

  lemma BooksAsAsked(s: Sched, a: Action, id: RunId, agent: string, priority: int)
    requires Enabled(s, a) && Inv(s) && AsAsked(s, id, agent, priority)
    ensures AskedLock(Locking(s, a), id, agent, priority)
    ensures forall r | r in Reading(s, a) && r.id == id :: Asked(r, agent, priority)
  {
    hide Inv;
    if a.CancelRead? {
      StoredCopy(s, a.id);
    } else if a.DispatchInspect? {
      HeldRun(s);
      StoredCopy(s, s.lock.id);
    }
  }

  lemma AsAskedStep(s: Sched, a: Action, id: RunId, agent: string, priority: int)
    requires Enabled(s, a) && Inv(s) && AsAsked(s, id, agent, priority)
    ensures AsAsked(Step(s, a), id, agent, priority)
  {
    hide Step, Enabled, Inv, Stored, Locking, Reading, Asked, AskedPlace, AskedLock;
    Stores(s, a);
    StoreAsAsked(s, a, id, agent, priority);
    PlaceAsAsked(s, a, id, agent, priority);
    if id in Step(s, a).heap {
      HeapAsAsked(s, a, id, agent, priority);
    }
    Books(s, a);
    BooksAsAsked(s, a, id, agent, priority);
  }

  lemma {:induction false} AsAskedForGood(s: Sched, acts: seq<Action>, id: RunId, agent: string, priority: int)
    requires Inv(s) && AsAsked(s, id, agent, priority) && Legal(s, acts)
    ensures AsAsked(Exec(s, acts), id, agent, priority)
    decreases |acts|
  {
    hide Step, Enabled, Inv, AsAsked;
    if acts != [] {
      AsAskedStep(s, acts[0], id, agent, priority);
      StepKept(s, acts[0]);
      AsAskedForGood(Step(s, acts[0]), acts[1..], id, agent, priority);
    }
  }

  lemma CreatedAsAsked(s: Sched, agent: string, priority: int, id: RunId)
    requires Enabled(s, SubmitCreate(agent, priority, id)) && Inv(s)
    ensures AsAsked(Step(s, SubmitCreate(agent, priority, id)), id, agent, priority)
  {
    hide Capacity, StoreShape, OfferShape, Waiters;
    assert Step(s, SubmitCreate(agent, priority, id)) == CallerStep(s, SubmitCreate(agent, priority, id));
  }

  /** What a Submit asked for is what the store and the heap say about the run ever after. */
  lemma {:induction false} SubmittedAsAsked(s: Sched, acts: seq<Action>, k: nat)
    requires Inv(s) && Legal(s, acts) && k < |acts| && acts[k].SubmitCreate?
    ensures var t := Exec(s, acts);
            var id := acts[k].id;
            && id in t.store && t.store[id].agentId == acts[k].agent && t.store[id].priority == acts[k].priority
            && (id in t.heap ==> t.heap[id].agentId == acts[k].agent && t.heap[id].priority == acts[k].priority)
    decreases k
  {
    hide Step, Enabled, Inv;
    StepKept(s, acts[0]);
    if k == 0 {
      CreatedAsAsked(s, acts[0].agent, acts[0].priority, acts[0].id);
      AsAskedForGood(Step(s, acts[0]), acts[1..], acts[0].id, acts[0].agent, acts[0].priority);
    } else {
      SubmittedAsAsked(Step(s, acts[0]), acts[1..], k - 1);
    }
  }

  /** The caller's priority decides: of two submitted runs that are in the heap at the same time the pool gets the
      one submitted with the higher priority first, whatever happens afterwards. */
  lemma SubmittedPriorityDecides(maxConcurrent: int, before: seq<Action>, after: seq<Action>, k: nat, m: nat)
    requires Legal(New(maxConcurrent), before) && Legal(Exec(New(maxConcurrent), before), after)
    requires k < |before| && before[k].SubmitCreate? && m < |before| && before[m].SubmitCreate?
    requires before[k].priority > before[m].priority
    requires var heap := Exec(New(maxConcurrent), before).heap; before[k].id in heap && before[m].id in heap
    ensures var offers := Exec(Exec(New(maxConcurrent), before), after).offers;
            forall i, j | 0 <= i < |offers| && 0 <= j < |offers| ::
              offers[i] == before[k].id && offers[j] == before[m].id ==> i < j
  {
    hide Legal, Exec;
    NewInv(maxConcurrent);
    SubmittedAsAsked(New(maxConcurrent), before, k);
    SubmittedAsAsked(New(maxConcurrent), before, m);
    HigherPriorityFirst(maxConcurrent, before, after, before[k].id, before[m].id);
  }
}
