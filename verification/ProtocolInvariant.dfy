/** The invariant of the scheduler protocol, and the proof that every action keeps it. */
module ProtocolInvariant {
  import opened Protocol

  predicate InFlight(p: Place) {
    p.Handed? || p.Executing? || p.Finished?
  }

  /** Places of a run that has been given to `pool.Submit`, whatever the pool answered. */
  predicate AfterOffer(p: Place) {
    InFlight(p) || p.Rejected? || p.Settled?
  }

  /** Places in which nothing that writes the run's first state change is still to come. */
  predicate PastQueued(p: Place) {
    p.Executing? || p.Finished? || p.Settled?
  }

  predicate IsCopy(agents: set<string>, id: RunId, run: Run) {
    run.id == id && run.agentId in agents
  }

  predicate LocalCopy(agents: set<string>, id: RunId, p: Place) {
    match p
    case Submitting(run) => IsCopy(agents, id, run) && run.state.Queued?
    case Refused(run) => IsCopy(agents, id, run) && run.state.Queued?
    case Closing(run) => IsCopy(agents, id, run) && run.state.Queued?
    case Handed(run) => IsCopy(agents, id, run) && run.state.Queued?
    case Executing(run) => IsCopy(agents, id, run) && run.state.Running?
    case Finished(run) => IsCopy(agents, id, run) && Terminal(run.state)
    case _ => true
  }

  /** Store and places know the same runs, and a goroutine's local copy is a copy of its own run. */
  ghost predicate Copies(agents: set<string>, store: map<RunId, Run>, place: map<RunId, Place>) {
    && store.Keys == place.Keys
    && (forall id | id in store :: IsCopy(agents, id, store[id]))
    && (forall id | id in place :: LocalCopy(agents, id, place[id]))
  }

  /** The heap holds exactly the runs whose place is the heap, under distinct sequence numbers. */
  ghost predicate HeapPlaces(heap: map<RunId, Task>, place: map<RunId, Place>) {
    forall id :: id in heap <==> id in place && place[id].InHeap?
  }

  ghost predicate HeapShape(agents: set<string>, heap: map<RunId, Task>, place: map<RunId, Place>, sequence: nat) {
    && HeapPlaces(heap, place)
    && (forall id | id in heap :: heap[id].agentId in agents && heap[id].sequence <= sequence)
    && (forall a, b | a in heap && b in heap && a != b :: heap[a].sequence != heap[b].sequence)
  }

  predicate Held(lock: Lock, p: Place, id: RunId) {
    match p
    case Inspected => lock.Inspecting? && lock.id == id
    case Offered => lock.Offering? && lock.run.id == id
    case Rejected => lock.Failing? && lock.run.id == id
    case _ => true
  }

  ghost predicate HoldsRun(agents: set<string>, lock: Lock, place: map<RunId, Place>) {
    match lock
    case Free => true
    case Dispatching => true
    case Inspecting(id, task) => id in place && place[id].Inspected? && task.agentId in agents
    case Offering(run) => run.id in place && place[run.id].Offered? && run.agentId in agents && run.state.Queued?
    case Failing(run) => run.id in place && place[run.id].Rejected? && run.agentId in agents
    case Announcing(run) => run.id in place && place[run.id].Settled? && Terminal(run.state)
  }

  /** The dispatch loop and the places of the runs it holds agree. */
  ghost predicate LockShape(agents: set<string>, lock: Lock, place: map<RunId, Place>, closed: bool) {
    && HoldsRun(agents, lock, place)
    && (forall id | id in place :: Held(lock, place[id], id))
    && (closed ==> lock.Free?)
  }

  /** `cancels` and `running` count the runs in flight, within the limit, and no slot is left idle. */
  ghost predicate Capacity(s: Sched) {
    && (forall id :: id in s.cancels <==> id in s.place && InFlight(s.place[id]))
    && s.running == |s.cancels|
    && 0 <= s.running <= s.max && 0 < s.max
    && (s.lock.Inspecting? || s.lock.Offering? ==> s.running < s.max)
    && (s.lock.Free? ==> s.heap == map[] || s.running == s.max)
    && (s.closed ==> s.heap == map[])
  }

  /** A stored run is no longer queued once its owner is past every point where it is pending. */
  ghost predicate StoreShape(store: map<RunId, Run>, place: map<RunId, Place>) {
    forall id | id in place && id in store && PastQueued(place[id]) :: !store[id].state.Queued?
  }

  ghost predicate Pending(s: Sched) {
    && (forall r | r in s.cancelling :: r.id in s.store && IsCopy(s.agents, r.id, r))
    && (forall r | r in s.notifying :: r.id in s.store && Terminal(r.state))
    && (forall p | p in s.admitted :: p.0 in s.agents)
  }

  /** No run is offered to the pool twice. */
  ghost predicate OfferShape(offers: seq<RunId>, place: map<RunId, Place>) {
    && (forall i, j | 0 <= i < j < |offers| :: offers[i] != offers[j])
    && (forall id | id in offers :: id in place && AfterOffer(place[id]))
  }

  ghost predicate Listed(chans: map<ChanId, Chan>, id: RunId, chs: seq<ChanId>) {
    && (forall k | 0 <= k < |chs| :: chs[k] in chans && Idle(chans[chs[k]]) && chans[chs[k]].runId == id)
    && (forall i, j | 0 <= i < j < |chs| :: chs[i] != chs[j])
  }

  predicate Waiting(waiters: map<RunId, seq<ChanId>>, c: Chan, ch: ChanId) {
    Idle(c) && c.runId in waiters && ch in waiters[c.runId]
  }

  /** A channel in the waiter list of `id` is untouched and waits for `id`; one that left the map is served. */
  ghost predicate Waiters(waiters: map<RunId, seq<ChanId>>, chans: map<ChanId, Chan>) {
    && (forall id | id in waiters :: Listed(chans, id, waiters[id]))
    && (forall ch | ch in chans :: Served(chans[ch]) || Waiting(waiters, chans[ch], ch))
  }

  ghost predicate Inv(s: Sched) {
    && Copies(s.agents, s.store, s.place)
    && HeapShape(s.agents, s.heap, s.place, s.sequence)
    && LockShape(s.agents, s.lock, s.place, s.closed)
    && Capacity(s)
    && StoreShape(s.store, s.place)
    && Pending(s)
    && OfferShape(s.offers, s.place)
    && Waiters(s.waiters, s.chans)
  }

  lemma NewInv(maxConcurrent: int)
    ensures Inv(New(maxConcurrent))
  {
  }

  // ---------------------------------------------------------------- one run moves, or is written

  predicate LockPlace(p: Place) {
    p.Inspected? || p.Offered? || p.Rejected?
  }

  /** Moving a run between places outside the heap and the dispatch loop. */
  ghost predicate FreeMove(s: Sched, id: RunId, p: Place) {
    && id in s.place
    && !s.place[id].InHeap? && !LockPlace(s.place[id]) && !s.place[id].Settled?
    && !p.InHeap? && !LockPlace(p)
    && LocalCopy(s.agents, id, p)
    && (AfterOffer(s.place[id]) ==> AfterOffer(p))
  }

  lemma FreeMoveHeap(s: Sched, id: RunId, p: Place)
    requires HeapShape(s.agents, s.heap, s.place, s.sequence) && FreeMove(s, id, p)
    ensures HeapShape(s.agents, s.heap, s.place[id := p], s.sequence)
  {
  }

  lemma FreeMoveLock(s: Sched, id: RunId, p: Place)
    requires LockShape(s.agents, s.lock, s.place, s.closed) && FreeMove(s, id, p)
    ensures LockShape(s.agents, s.lock, s.place[id := p], s.closed)
  {
  }

  lemma MoveOffers(offers: seq<RunId>, place: map<RunId, Place>, id: RunId, p: Place)
    requires OfferShape(offers, place) && (id in place && AfterOffer(place[id]) ==> AfterOffer(p))
    ensures OfferShape(offers, place[id := p])
  {
  }

  lemma WriteKeys(store: map<RunId, Run>, run: Run)
    ensures Write(store, run).Keys == store.Keys
  {
  }

  lemma MoveCopies(agents: set<string>, store: map<RunId, Run>, place: map<RunId, Place>, id: RunId, p: Place)
    requires Copies(agents, store, place) && id in store && LocalCopy(agents, id, p)
    ensures Copies(agents, store, place[id := p])
  {
  }

  lemma WriteCopies(agents: set<string>, store: map<RunId, Run>, place: map<RunId, Place>, run: Run)
    requires Copies(agents, store, place) && run.agentId in agents
    ensures Copies(agents, Write(store, run), place)
  {
  }

  lemma MoveStore(store: map<RunId, Run>, place: map<RunId, Place>, id: RunId, p: Place)
    requires StoreShape(store, place)
    requires id in store && PastQueued(p) ==> !store[id].state.Queued?
    ensures StoreShape(store, place[id := p])
  {
  }

  lemma WriteStore(store: map<RunId, Run>, place: map<RunId, Place>, run: Run)
    requires StoreShape(store, place) && !run.state.Queued?
    ensures StoreShape(Write(store, run), place)
  {
  }

  /** A move that does not change what is in flight keeps the counts. */
  lemma MoveCapacity(s: Sched, t: Sched, id: RunId, p: Place)
    requires Capacity(s) && id in s.place && InFlight(p) == InFlight(s.place[id]) && t.place == s.place[id := p]
    requires t.cancels == s.cancels && t.running == s.running && t.max == s.max && t.heap == s.heap
        && t.closed == s.closed
    requires t.lock.Inspecting? || t.lock.Offering? ==> t.running < t.max
    requires t.lock.Free? ==> s.lock.Free?
    ensures Capacity(t)
  {
  }

  /** A goroutine writes its run, moves it, and may leave a notification behind. */
  lemma WriteMove(s: Sched, t: Sched, run: Run, p: Place, notes: multiset<Run>)
    requires Inv(s) && FreeMove(s, run.id, p) && InFlight(p) == InFlight(s.place[run.id])
    requires !run.state.Queued? && run.agentId in s.agents
    requires forall r | r in notes :: r.id in s.store && Terminal(r.state)
    requires t == s.(store := Write(s.store, run), place := s.place[run.id := p], notifying := s.notifying + notes)
    ensures Inv(t)
  {
    FreeMoveHeap(s, run.id, p);
    FreeMoveLock(s, run.id, p);
    MoveOffers(s.offers, s.place, run.id, p);
    WriteCopies(s.agents, s.store, s.place, run);
    MoveCopies(s.agents, t.store, s.place, run.id, p);
    WriteStore(s.store, s.place, run);
    MoveStore(t.store, s.place, run.id, p);
    MoveCapacity(s, t, run.id, p);
  }

  lemma PlainMove(s: Sched, id: RunId, p: Place)
    requires Inv(s) && FreeMove(s, id, p) && InFlight(p) == InFlight(s.place[id])
    requires PastQueued(p) ==> !s.store[id].state.Queued?
    ensures Inv(Moved(s, id, p))
  {
    FreeMoveHeap(s, id, p);
    FreeMoveLock(s, id, p);
    MoveOffers(s.offers, s.place, id, p);
    MoveCopies(s.agents, s.store, s.place, id, p);
    MoveStore(s.store, s.place, id, p);
    MoveCapacity(s, Moved(s, id, p), id, p);
  }

  // ---------------------------------------------------------------- Register, Submit

  lemma RegisterKept(s: Sched, agent: string)
    requires Inv(s)
    ensures Inv(Step(s, Register(agent)))
  {
    hide Inv;
    Registers(s, Step(s, Register(agent)), agent);
  }

  lemma Registers(s: Sched, t: Sched, agent: string)
    requires Inv(s) && t == s.(agents := s.agents + {agent})
    ensures Inv(t)
  {
    hide Copies, HeapShape, LockShape, Capacity, StoreShape, Pending, OfferShape, Waiters;
    AgentsGrow(s, t.agents);
    PendingGrows(s, t);
    SameCounts(s, t);
  }

  lemma AgentsGrow(s: Sched, agents: set<string>)
    requires s.agents <= agents
    requires Copies(s.agents, s.store, s.place) && HeapShape(s.agents, s.heap, s.place, s.sequence)
    requires LockShape(s.agents, s.lock, s.place, s.closed)
    ensures Copies(agents, s.store, s.place) && HeapShape(agents, s.heap, s.place, s.sequence)
    ensures LockShape(agents, s.lock, s.place, s.closed)
  {
  }

  lemma SameCounts(s: Sched, t: Sched)
    requires Capacity(s) && t == s.(agents := t.agents)
    ensures Capacity(t)
  {
  }

  lemma SubmitEnterKept(s: Sched, agent: string, priority: int)
    requires Inv(s) && Enabled(s, SubmitEnter(agent, priority))
    ensures Inv(Step(s, SubmitEnter(agent, priority)))
  {
    assert Step(s, SubmitEnter(agent, priority)) == CallerStep(s, SubmitEnter(agent, priority));
  }

  lemma CreateCopies(agents: set<string>, store: map<RunId, Run>, place: map<RunId, Place>, run: Run)
    requires Copies(agents, store, place) && run.id !in store && run.agentId in agents && run.state.Queued?
    ensures Copies(agents, store[run.id := run], place[run.id := Submitting(run)])
  {
  }

  lemma CreateHeap(s: Sched, id: RunId, p: Place)
    requires HeapShape(s.agents, s.heap, s.place, s.sequence) && id !in s.place && p.Submitting?
    ensures HeapShape(s.agents, s.heap, s.place[id := p], s.sequence)
  {
  }

  lemma CreateLock(s: Sched, id: RunId, p: Place)
    requires LockShape(s.agents, s.lock, s.place, s.closed) && id !in s.place && p.Submitting?
    ensures LockShape(s.agents, s.lock, s.place[id := p], s.closed)
  {
  }

  lemma CreateCapacity(s: Sched, t: Sched, id: RunId, p: Place)
    requires Capacity(s) && id !in s.place && p.Submitting? && t.place == s.place[id := p]
    requires t.cancels == s.cancels && t.running == s.running && t.max == s.max && t.lock == s.lock
    requires t.heap == s.heap && t.closed == s.closed
    ensures Capacity(t)
  {
  }

  /** What `Pending` needs of a state that differs elsewhere. */
  lemma PendingGrows(s: Sched, t: Sched)
    requires Pending(s) && s.store.Keys <= t.store.Keys && s.agents <= t.agents
    requires t.cancelling == s.cancelling && t.notifying == s.notifying && t.admitted <= s.admitted
    ensures Pending(t)
  {
  }

  lemma SubmitCreateKept(s: Sched, agent: string, priority: int, id: RunId)
    requires Inv(s) && Enabled(s, SubmitCreate(agent, priority, id))
    ensures Inv(Step(s, SubmitCreate(agent, priority, id)))
  {
    hide Inv;
    Creates(s, Step(s, SubmitCreate(agent, priority, id)), agent, priority, id);
  }

  lemma CreateStore(store: map<RunId, Run>, place: map<RunId, Place>, run: Run)
    requires StoreShape(store, place) && run.id !in place
    ensures StoreShape(store[run.id := run], place[run.id := Submitting(run)])
  {
  }

  lemma AdmittedAgent(s: Sched, agent: string, priority: int)
    requires Pending(s) && (agent, priority) in s.admitted
    ensures agent in s.agents
  {
    assert (agent, priority).0 in s.agents;
  }

  lemma Creates(s: Sched, t: Sched, agent: string, priority: int, id: RunId)
    requires Inv(s) && (agent, priority) in s.admitted && id !in s.store
    requires var run := Run(id, agent, priority, Queued, "");
             t == s.(store := s.store[id := run], admitted := s.admitted - multiset{(agent, priority)},
                     place := s.place[id := Submitting(run)])
    ensures Inv(t)
  {
    hide HeapShape, LockShape, Capacity, StoreShape, Pending, OfferShape, Waiters;
    var run := Run(id, agent, priority, Queued, "");
    AdmittedAgent(s, agent, priority);
    CreateCopies(s.agents, s.store, s.place, run);
    CreateHeap(s, id, Submitting(run));
    CreateLock(s, id, Submitting(run));
    CreateStore(s.store, s.place, run);
    MoveOffers(s.offers, s.place, id, Submitting(run));
    PendingGrows(s, t);
    CreateCapacity(s, t, id, Submitting(run));
  }

  lemma EnqueueHeap(agents: set<string>, heap: map<RunId, Task>, place: map<RunId, Place>, sequence: nat, id: RunId,
          task: Task)
    requires HeapShape(agents, heap, place, sequence)
    requires id !in heap && task.agentId in agents && task.sequence == sequence + 1
    ensures HeapShape(agents, heap[id := task], place[id := InHeap], sequence + 1)
  {
  }

  lemma MoveLock(agents: set<string>, lock: Lock, place: map<RunId, Place>, closed: bool, next: Lock, id: RunId,
          p: Place)
    requires LockShape(agents, lock, place, closed)
    requires id in place
    requires match lock
             case Inspecting(held, _) => held == id
             case Offering(run) => run.id == id
             case Failing(run) => run.id == id
             case _ => true
    requires Held(next, p, id) && (closed ==> next.Free?)
    requires HoldsRun(agents, next, place[id := p])
    ensures LockShape(agents, next, place[id := p], closed)
  {
  }

  lemma SubmittingIsNotQueued(s: Sched, id: RunId)
    requires HeapShape(s.agents, s.heap, s.place, s.sequence) && id in s.place && s.place[id].Submitting?
    ensures id !in s.heap
  {
  }

  lemma EnqueueCapacity(s: Sched, t: Sched, id: RunId)
    requires Capacity(s) && s.lock.Free? && !s.closed && id in s.place && s.place[id].Submitting?
    requires t.cancels == s.cancels && t.running == s.running && t.max == s.max && t.closed == s.closed
    requires t.lock == Dispatching && t.place == s.place[id := InHeap]
    ensures Capacity(t)
  {
  }

  lemma SubmitEnqueueKept(s: Sched, id: RunId)
    requires Inv(s) && Enabled(s, SubmitEnqueue(id))
    ensures Inv(Step(s, SubmitEnqueue(id)))
  {
    hide Inv;
    var run := s.place[id].run;
    var task := Task(run.agentId, run.priority, s.sequence + 1);
    Enqueues(s, Step(s, SubmitEnqueue(id)), id, task);
  }

  lemma Enqueues(s: Sched, t: Sched, id: RunId, task: Task)
    requires Inv(s) && s.lock.Free? && !s.closed && id in s.place && s.place[id].Submitting?
    requires task == Task(s.place[id].run.agentId, s.place[id].run.priority, s.sequence + 1)
    requires t == s.(sequence := s.sequence + 1, heap := s.heap[id := task], lock := Dispatching,
        place := s.place[id := InHeap])
    ensures Inv(t)
  {
    hide HeapShape, LockShape, Capacity, StoreShape, Pending, OfferShape, Waiters;
    SubmittingIsNotQueued(s, id);
    EnqueueCapacity(s, t, id);
    PendingGrows(s, t);
    MoveCopies(s.agents, s.store, s.place, id, InHeap);
    EnqueueHeap(s.agents, s.heap, s.place, s.sequence, id, task);
    MoveLock(s.agents, s.lock, s.place, s.closed, Dispatching, id, InHeap);
    MoveStore(s.store, s.place, id, InHeap);
    MoveOffers(s.offers, s.place, id, InHeap);
  }

  lemma SubmitRefuseKept(s: Sched, id: RunId)
    requires Inv(s) && Enabled(s, SubmitRefuse(id))
    ensures Inv(Step(s, SubmitRefuse(id)))
  {
    hide Inv;
    OwnCopy(s, id);
    PlainMove(s, id, Refused(s.place[id].run));
  }

  lemma RefuseWriteKept(s: Sched, id: RunId)
    requires Inv(s) && Enabled(s, RefuseWrite(id))
    ensures Inv(Step(s, RefuseWrite(id)))
  {
    hide Inv;
    OwnCopy(s, id);
    var run := Cancelling(s.place[id].run, "scheduler_closed");
    WriteMove(s, Step(s, RefuseWrite(id)), run, Settled, multiset{run});
  }

  // ---------------------------------------------------------------- Cancel, Wait

  lemma CancelReadKept(s: Sched, id: RunId)
    requires Inv(s) && Enabled(s, CancelRead(id))
    ensures Inv(Step(s, CancelRead(id)))
  {
  }

  lemma CancelWriteKept(s: Sched, read: Run)
    requires Inv(s) && Enabled(s, CancelWrite(read))
    ensures Inv(Step(s, CancelWrite(read)))
  {
    hide Inv;
    Overwrites(s, Step(s, CancelWrite(read)), read, Cancelling(read, "cancelled"));
  }

  lemma Overwrites(s: Sched, t: Sched, read: Run, run: Run)
    requires Inv(s) && read in s.cancelling && run.id == read.id && run.agentId == read.agentId && Terminal(run.state)
    requires t == s.(store := Write(s.store, run), cancelling := s.cancelling - multiset{read},
                     notifying := s.notifying + multiset{run})
    ensures Inv(t)
  {
    WriteCopies(s.agents, s.store, s.place, run);
    WriteStore(s.store, s.place, run);
    WriteKeys(s.store, run);
  }

  lemma WaitCheckKept(s: Sched, id: RunId)
    requires Inv(s) && Enabled(s, WaitCheck(id))
    ensures Inv(Step(s, WaitCheck(id)))
  {
  }

  lemma RegisterWaiter(waiters: map<RunId, seq<ChanId>>, chans: map<ChanId, Chan>, id: RunId, ch: ChanId)
    requires Waiters(waiters, chans) && ch !in chans
    ensures var chs := if id in waiters then waiters[id] else [];
            Waiters(waiters[id := chs + [ch]], chans[ch := Chan(id, [], 0)])
  {
    var chs := if id in waiters then waiters[id] else [];
    var waiters' := waiters[id := chs + [ch]];
    var chans' := chans[ch := Chan(id, [], 0)];
    assert ch in waiters'[id] by { assert waiters'[id][|chs|] == ch; }
    forall other | other in waiters'
      ensures Listed(chans', other, waiters'[other])
    {
      assert other in waiters ==> Listed(chans, other, waiters[other]);
    }
    forall c | c in chans'
      ensures Served(chans'[c]) || Waiting(waiters', chans'[c], c)
    {
    }
  }

  lemma WaitRegisterKept(s: Sched, id: RunId, ch: ChanId)
    requires Inv(s) && Enabled(s, WaitRegister(id, ch))
    ensures Inv(Step(s, WaitRegister(id, ch)))
  {
    RegisterWaiter(s.waiters, s.chans, id, ch);
  }

  // ---------------------------------------------------------------- notify

  /** The delivery loop serves each listed channel once and touches no other. */
  lemma {:induction false} DeliverServes(chans: map<ChanId, Chan>, id: RunId, chs: seq<ChanId>, run: Run)
    requires Listed(chans, id, chs) && run.id == id && Terminal(run.state)
    ensures Deliver(chans, chs, run).Keys == chans.Keys
    ensures forall ch | ch in chans && ch !in chs :: Deliver(chans, chs, run)[ch] == chans[ch]
    ensures forall ch | ch in chans && ch in chs ::
              Deliver(chans, chs, run)[ch] == Chan(id, [run], 1) && Served(Deliver(chans, chs, run)[ch])
    decreases |chs|
  {
    if chs != [] {
      var ch := chs[0];
      var next := chans[ch := Chan(id, [run], 1)];
      assert chans[ch].sent + [run] == [run];
      assert Listed(next, id, chs[1..]);
      DeliverServes(next, id, chs[1..], run);
      assert ch !in chs[1..];
    }
  }

  lemma NotifyWaiters(s: Sched, run: Run)
    requires Waiters(s.waiters, s.chans) && Terminal(run.state)
    ensures Waiters(NotifyLocked(s, run).waiters, NotifyLocked(s, run).chans)
  {
    if run.id in s.waiters {
      var chs := s.waiters[run.id];
      var chans := Deliver(s.chans, chs, run);
      var waiters := s.waiters - {run.id};
      DeliverServes(s.chans, run.id, chs, run);
      forall id | id in waiters
        ensures Listed(chans, id, waiters[id])
      {
        assert Listed(s.chans, id, s.waiters[id]) && Listed(s.chans, run.id, chs);
      }
      forall ch | ch in chans
        ensures Served(chans[ch]) || Waiting(waiters, chans[ch], ch)
      {
      }
    } else {
      assert s.waiters - {run.id} == s.waiters;
    }
  }

  lemma NotifyKept(s: Sched, run: Run)
    requires Inv(s) && Enabled(s, Notify(run))
    ensures Inv(Step(s, Notify(run)))
  {
    hide Inv;
    Notifies(s, Step(s, Notify(run)), s.(notifying := s.notifying - multiset{run}), run);
  }

  lemma Notifies(s: Sched, t: Sched, mid: Sched, run: Run)
    requires Inv(s) && run in s.notifying
    requires mid == s.(notifying := s.notifying - multiset{run}) && t == NotifyLocked(mid, run)
    ensures Inv(t)
  {
    hide HeapShape, LockShape, StoreShape, OfferShape, Waiters, Deliver;
    NotifyWaiters(mid, run);
  }

  // ---------------------------------------------------------------- dispatchLocked

  lemma PopHeap(agents: set<string>, heap: map<RunId, Task>, place: map<RunId, Place>, sequence: nat, id: RunId)
    requires HeapShape(agents, heap, place, sequence) && id in heap
    ensures HeapShape(agents, heap - {id}, place[id := Inspected], sequence)
  {
  }

  lemma DispatchPopKept(s: Sched, id: RunId)
    requires Inv(s) && Enabled(s, DispatchPop(id))
    ensures Inv(Step(s, DispatchPop(id)))
  {
    hide Inv;
    Pops(s, Step(s, DispatchPop(id)), id);
  }

  lemma Pops(s: Sched, t: Sched, id: RunId)
    requires Inv(s) && s.lock.Dispatching? && s.running < s.max && id in s.heap
    requires t == s.(lock := Inspecting(id, s.heap[id]), heap := s.heap - {id}, place := s.place[id := Inspected])
    ensures Inv(t)
  {
    MoveCopies(s.agents, s.store, s.place, id, Inspected);
    PopHeap(s.agents, s.heap, s.place, s.sequence, id);
    MoveLock(s.agents, s.lock, s.place, s.closed, Inspecting(id, s.heap[id]), id, Inspected);
    MoveStore(s.store, s.place, id, Inspected);
    MoveOffers(s.offers, s.place, id, Inspected);
  }

  lemma MoveHeap(agents: set<string>, heap: map<RunId, Task>, place: map<RunId, Place>, sequence: nat, id: RunId,
          p: Place)
    requires HeapShape(agents, heap, place, sequence) && id in place && !place[id].InHeap? && !p.InHeap?
    ensures HeapShape(agents, heap, place[id := p], sequence)
  {
  }

  /** The dispatch loop moves the run it holds, without changing what is in flight. */
  lemma HeldMove(s: Sched, t: Sched, id: RunId, p: Place, lock: Lock)
    requires Inv(s) && id in s.place && s.place[id].Inspected?
    requires !p.InHeap? && !InFlight(p) && LocalCopy(s.agents, id, p)
    requires PastQueued(p) ==> !s.store[id].state.Queued?
    requires Held(lock, p, id) && HoldsRun(s.agents, lock, s.place[id := p]) && !lock.Free? && !lock.Inspecting?
    requires lock.Offering? ==> s.running < s.max
    requires t == s.(place := s.place[id := p], lock := lock)
    ensures Inv(t)
  {
    hide HeapShape, Capacity, StoreShape, OfferShape, Waiters;
    MoveCopies(s.agents, s.store, s.place, id, p);
    MoveHeap(s.agents, s.heap, s.place, s.sequence, id, p);
    MoveLock(s.agents, s.lock, s.place, s.closed, lock, id, p);
    MoveStore(s.store, s.place, id, p);
    MoveOffers(s.offers, s.place, id, p);
    MoveCapacity(s, t, id, p);
  }

  lemma DispatchInspectKept(s: Sched)
    requires Inv(s) && Enabled(s, DispatchInspect)
    ensures Inv(Step(s, DispatchInspect))
  {
    hide Inv;
    var id := s.lock.id;
    HeldRun(s);
    if s.store[id].state.Queued? {
      Looks(s, Step(s, DispatchInspect), id, Offered, Offering(s.store[id]));
    } else {
      Looks(s, Step(s, DispatchInspect), id, Settled, Dispatching);
    }
  }

  /** The run that the loop is looking up is stored, and its agent is registered. */
  lemma HeldRun(s: Sched)
    requires Inv(s) && s.lock.Inspecting?
    ensures s.lock.id in s.store && s.lock.id in s.place && s.lock.task.agentId in s.agents
  {
  }

  lemma Looks(s: Sched, t: Sched, id: RunId, p: Place, lock: Lock)
    requires Inv(s) && s.lock.Inspecting? && s.lock.id == id && id in s.store
    requires if s.store[id].state.Queued? then p == Offered && lock == Offering(s.store[id])
             else p == Settled && lock == Dispatching
    requires t == s.(place := s.place[id := p], lock := lock)
    ensures Inv(t)
  {
    assert id in s.place && s.place[id].Inspected?;
    HeldMove(s, t, id, p, lock);
  }

  lemma AddOffer(offers: seq<RunId>, place: map<RunId, Place>, id: RunId, p: Place)
    requires OfferShape(offers, place) && id !in offers && AfterOffer(p)
    ensures OfferShape(offers + [id], place[id := p])
  {
  }

  lemma AcceptCapacity(s: Sched, run: Run)
    requires Capacity(s) && s.running < s.max && !s.closed && !s.lock.Free?
    requires run.id in s.place && !InFlight(s.place[run.id])
    ensures Capacity(s.(lock := Dispatching, running := s.running + 1, cancels := s.cancels + {run.id},
                        offers := s.offers + [run.id], place := s.place[run.id := Handed(run)]))
  {
  }

  lemma PoolAcceptKept(s: Sched)
    requires Inv(s) && Enabled(s, PoolAccept)
    ensures Inv(Step(s, PoolAccept))
  {
    hide Inv;
    Accepts(s, Step(s, PoolAccept), s.lock.run);
  }

  lemma Accepts(s: Sched, t: Sched, run: Run)
    requires Inv(s) && s.lock == Offering(run)
    requires t == s.(lock := Dispatching, running := s.running + 1, cancels := s.cancels + {run.id},
                     offers := s.offers + [run.id], place := s.place[run.id := Handed(run)])
    ensures Inv(t)
  {
    assert s.place[run.id].Offered?;
    MoveCopies(s.agents, s.store, s.place, run.id, Handed(run));
    MoveHeap(s.agents, s.heap, s.place, s.sequence, run.id, Handed(run));
    MoveLock(s.agents, s.lock, s.place, s.closed, Dispatching, run.id, Handed(run));
    MoveStore(s.store, s.place, run.id, Handed(run));
    AddOffer(s.offers, s.place, run.id, Handed(run));
    AcceptCapacity(s, run);
  }

  lemma PoolRejectKept(s: Sched, reason: string)
    requires Inv(s) && Enabled(s, PoolReject(reason))
    ensures Inv(Step(s, PoolReject(reason)))
  {
    hide Inv;
    var run := s.lock.run;
    Rejects(s, Step(s, PoolReject(reason)), run, run.(error := reason));
  }

  lemma Rejects(s: Sched, t: Sched, run: Run, failed: Run)
    requires Inv(s) && s.lock == Offering(run) && failed == run.(error := failed.error)
    requires t == s.(lock := Failing(failed), offers := s.offers + [run.id], place := s.place[run.id := Rejected])
    ensures Inv(t)
  {
    assert s.place[run.id].Offered?;
    MoveCopies(s.agents, s.store, s.place, run.id, Rejected);
    MoveHeap(s.agents, s.heap, s.place, s.sequence, run.id, Rejected);
    MoveLock(s.agents, s.lock, s.place, s.closed, Failing(failed), run.id, Rejected);
    MoveStore(s.store, s.place, run.id, Rejected);
    AddOffer(s.offers, s.place, run.id, Rejected);
    MoveCapacity(s, t, run.id, Rejected);
  }

  lemma FailWriteKept(s: Sched)
    requires Inv(s) && Enabled(s, FailWrite)
    ensures Inv(Step(s, FailWrite))
  {
    hide Inv;
    Fails(s, Step(s, FailWrite), s.lock.run.(state := Failed));
  }

  lemma Fails(s: Sched, t: Sched, run: Run)
    requires Inv(s) && s.lock.Failing? && run == s.lock.run.(state := Failed)
    requires t == s.(store := Write(s.store, run), lock := Announcing(run), place := s.place[run.id := Settled])
    ensures Inv(t)
  {
    var id := run.id;
    var store := Write(s.store, run);
    WriteKeys(s.store, run);
    WriteCopies(s.agents, s.store, s.place, run);
    MoveCopies(s.agents, store, s.place, id, Settled);
    MoveHeap(s.agents, s.heap, s.place, s.sequence, id, Settled);
    MoveLock(s.agents, s.lock, s.place, s.closed, Announcing(run), id, Settled);
    WriteStore(s.store, s.place, run);
    MoveStore(store, s.place, id, Settled);
    MoveOffers(s.offers, s.place, id, Settled);
    MoveCapacity(s, t, id, Settled);
  }

  lemma FailNotifyKept(s: Sched)
    requires Inv(s) && Enabled(s, FailNotify)
    ensures Inv(Step(s, FailNotify))
  {
    assert Step(s, FailNotify) == DispatchStep(s, FailNotify);
    NotifyWaiters(s, s.lock.run);
  }

  lemma DispatchDoneKept(s: Sched)
    requires Inv(s) && Enabled(s, DispatchDone)
    ensures Inv(Step(s, DispatchDone))
  {
    assert Step(s, DispatchDone) == DispatchStep(s, DispatchDone);
  }

  // ---------------------------------------------------------------- execute

  /** The owner of a run holds a copy of it. */
  lemma OwnCopy(s: Sched, id: RunId)
    requires Inv(s) && id in s.place
    ensures LocalCopy(s.agents, id, s.place[id]) && id in s.store
  {
  }

  lemma ExecStartKept(s: Sched, id: RunId)
    requires Inv(s) && Enabled(s, ExecStart(id))
    ensures Inv(Step(s, ExecStart(id)))
  {
    hide Inv;
    OwnCopy(s, id);
    var run := s.place[id].run.(state := Running);
    WriteMove(s, Step(s, ExecStart(id)), run, Executing(run), multiset{});
  }

  lemma ExecFinishKept(s: Sched, id: RunId, outcome: RunState, error: string)
    requires Inv(s) && Enabled(s, ExecFinish(id, outcome, error))
    ensures Inv(Step(s, ExecFinish(id, outcome, error)))
  {
    hide Inv;
    OwnCopy(s, id);
    var run := s.place[id].run.(state := outcome, error := error);
    WriteMove(s, Step(s, ExecFinish(id, outcome, error)), run, Finished(run), multiset{});
  }

  lemma ExecEpilogueKept(s: Sched, id: RunId)
    requires Inv(s) && Enabled(s, ExecEpilogue(id))
    ensures Inv(Step(s, ExecEpilogue(id)))
  {
    hide Inv;
    Ends(s, Step(s, ExecEpilogue(id)), id);
  }

  lemma EndCapacity(s: Sched, t: Sched, id: RunId)
    requires Capacity(s) && s.lock.Free? && id in s.place && s.place[id].Finished?
    requires t.cancels == s.cancels - {id} && t.running == s.running - 1 && t.place == s.place[id := Settled]
        && t.max == s.max
    requires t.lock == (if s.closed then Free else Dispatching) && t.heap == s.heap && t.closed == s.closed
    ensures Capacity(t)
  {
  }

  /** A run past its execution's start is no longer stored as queued. */
  lemma StartedIsNotQueued(s: Sched, id: RunId)
    requires StoreShape(s.store, s.place) && id in s.place && id in s.store && PastQueued(s.place[id])
    ensures !s.store[id].state.Queued?
  {
  }

  lemma NoteAdded(s: Sched, t: Sched, run: Run)
    requires Pending(s) && run.id in s.store && Terminal(run.state)
    requires t.store == s.store && t.agents == s.agents && t.cancelling == s.cancelling && t.admitted == s.admitted
    requires t.notifying == s.notifying + multiset{run}
    ensures Pending(t)
  {
  }

  lemma Ends(s: Sched, t: Sched, id: RunId)
    requires Inv(s) && s.lock.Free? && id in s.place && s.place[id].Finished?
    requires t == s.(cancels := s.cancels - {id}, running := s.running - 1,
                     notifying := s.notifying + multiset{s.place[id].run},
                     lock := if s.closed then Free else Dispatching, place := s.place[id := Settled])
    ensures Inv(t)
  {
    hide HeapShape, LockShape, Capacity, StoreShape, Pending, OfferShape, Waiters;
    EndCapacity(s, t, id);
    StartedIsNotQueued(s, id);
    NoteAdded(s, t, s.place[id].run);
    MoveCopies(s.agents, s.store, s.place, id, Settled);
    MoveHeap(s.agents, s.heap, s.place, s.sequence, id, Settled);
    MoveLock(s.agents, s.lock, s.place, s.closed, if s.closed then Free else Dispatching, id, Settled);
    MoveStore(s.store, s.place, id, Settled);
    MoveOffers(s.offers, s.place, id, Settled);
  }

  // ---------------------------------------------------------------- Close

  lemma DrainCopies(s: Sched)
    requires Copies(s.agents, s.store, s.place)
    ensures Copies(s.agents, s.store, AllDrained(s.place, s.heap))
  {
  }

  lemma DrainHeap(s: Sched)
    requires HeapShape(s.agents, s.heap, s.place, s.sequence)
    ensures HeapShape(s.agents, map[], AllDrained(s.place, s.heap), s.sequence)
  {
  }

  lemma DrainLock(s: Sched)
    requires LockShape(s.agents, s.lock, s.place, s.closed) && s.lock.Free?
    ensures LockShape(s.agents, s.lock, AllDrained(s.place, s.heap), true)
  {
  }

  lemma DrainStore(s: Sched)
    requires StoreShape(s.store, s.place)
    ensures StoreShape(s.store, AllDrained(s.place, s.heap))
  {
  }

  lemma DrainOffers(s: Sched)
    requires OfferShape(s.offers, s.place) && HeapShape(s.agents, s.heap, s.place, s.sequence)
    ensures OfferShape(s.offers, AllDrained(s.place, s.heap))
  {
  }

  lemma CloseDrainKept(s: Sched)
    requires Inv(s) && Enabled(s, CloseDrain)
    ensures Inv(Step(s, CloseDrain))
  {
    hide Inv;
    Drains(s, Step(s, CloseDrain));
  }

  lemma Drains(s: Sched, t: Sched)
    requires Inv(s) && s.lock.Free? && !s.closed
    requires t == s.(closed := true, heap := map[], place := AllDrained(s.place, s.heap))
    ensures Inv(t)
  {
    DrainCopies(s);
    DrainHeap(s);
    DrainLock(s);
    DrainStore(s);
    DrainOffers(s);
  }

  lemma CloseReadKept(s: Sched, id: RunId)
    requires Inv(s) && Enabled(s, CloseRead(id))
    ensures Inv(Step(s, CloseRead(id)))
  {
    hide Inv;
    OwnCopy(s, id);
    StoredCopy(s, id);
    PlainMove(s, id, if s.store[id].state.Queued? then Closing(s.store[id]) else Settled);
  }

  lemma StoredCopy(s: Sched, id: RunId)
    requires Inv(s) && id in s.store
    ensures IsCopy(s.agents, id, s.store[id])
  {
  }

  lemma CloseWriteKept(s: Sched, id: RunId)
    requires Inv(s) && Enabled(s, CloseWrite(id))
    ensures Inv(Step(s, CloseWrite(id)))
  {
    hide Inv;
    OwnCopy(s, id);
    var run := Cancelling(s.place[id].run, "scheduler_closed");
    WriteMove(s, Step(s, CloseWrite(id)), run, Settled, multiset{run});
  }

  // ---------------------------------------------------------------- every action

  lemma StepKept(s: Sched, a: Action)
    requires Inv(s) && Enabled(s, a)
    ensures Inv(Step(s, a))
  {
    hide Inv, Step, Enabled;
    match a
    case Register(agent) => RegisterKept(s, agent);
    case SubmitEnter(agent, priority) => SubmitEnterKept(s, agent, priority);
    case SubmitCreate(agent, priority, id) => SubmitCreateKept(s, agent, priority, id);
    case SubmitEnqueue(id) => SubmitEnqueueKept(s, id);
    case SubmitRefuse(id) => SubmitRefuseKept(s, id);
    case RefuseWrite(id) => RefuseWriteKept(s, id);
    case CancelRead(id) => CancelReadKept(s, id);
    case CancelWrite(run) => CancelWriteKept(s, run);
    case WaitCheck(id) => WaitCheckKept(s, id);
    case WaitRegister(id, ch) => WaitRegisterKept(s, id, ch);
    case DispatchPop(id) => DispatchPopKept(s, id);
    case DispatchInspect => DispatchInspectKept(s);
    case PoolAccept => PoolAcceptKept(s);
    case PoolReject(reason) => PoolRejectKept(s, reason);
    case FailWrite => FailWriteKept(s);
    case FailNotify => FailNotifyKept(s);
    case DispatchDone => DispatchDoneKept(s);
    case ExecStart(id) => ExecStartKept(s, id);
    case ExecFinish(id, outcome, error) => ExecFinishKept(s, id, outcome, error);
    case ExecEpilogue(id) => ExecEpilogueKept(s, id);
    case CloseDrain => CloseDrainKept(s);
    case CloseRead(id) => CloseReadKept(s, id);
    case CloseWrite(id) => CloseWriteKept(s, id);
    case Notify(run) => NotifyKept(s, run);
  }

  lemma {:induction false} RunKept(s: Sched, acts: seq<Action>)
    requires Inv(s) && Legal(s, acts)
    ensures Inv(Exec(s, acts))
    decreases |acts|
  {
    if acts != [] {
      StepKept(s, acts[0]);
      RunKept(Step(s, acts[0]), acts[1..]);
    }
  }
}
