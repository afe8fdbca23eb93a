/**
 The agent scheduler (internal/agent/orchestrator.go) as a transition system.

 One `Action` is one atomic section of the Go code: a store operation, one
 critical section of `Scheduler.mu`, or, inside `dispatchLocked`, one step between
 two accesses to state that other goroutines can change.  The store has a lock of
 its own, so unlocked writes of other goroutines do interleave with a dispatch loop.
 */
module Protocol {
  type RunId = nat
  type ChanId = nat

  datatype RunState = Queued | Running | Succeeded | Failed | Cancelled

  predicate Terminal(state: RunState) {
    state.Succeeded? || state.Failed? || state.Cancelled?
  }

  datatype Run = Run(id: RunId, agentId: string, priority: int, state: RunState, error: string)

  datatype Task = Task(agentId: string, priority: int, sequence: nat)

  /** The order of the heap: higher priority first, then lower sequence. */
  predicate Before(a: Task, b: Task) {
    a.priority > b.priority || (a.priority == b.priority && a.sequence < b.sequence)
  }

  /** One waiter channel with everything that was ever done to it. */
  datatype Chan = Chan(runId: RunId, sent: seq<Run>, closes: nat)

  predicate Idle(c: Chan) { c.sent == [] && c.closes == 0 }

  predicate Served(c: Chan) {
    && |c.sent| == 1
    && c.closes == 1
    && c.sent[0].id == c.runId
    && Terminal(c.sent[0].state)
  }

  /** Where the goroutine (or list) that owns a run currently stands; `run` is its local copy. */
  datatype Place =
    | Submitting(run: Run)  // Submit, after CreateRun and before its second critical section
    | Refused(run: Run)     // Submit found the scheduler closed; cancelRun has not written yet
    | InHeap
    | Inspected             // popped by dispatchLocked, stored state not yet read
    | Offered               // read as queued, not yet given to the pool
    | Rejected              // the pool refused it; failDispatch has not written yet
    | Handed(run: Run)      // accepted by the pool, execute not begun
    | Executing(run: Run)   // execute has written running
    | Finished(run: Run)    // execute has written the outcome, epilogue pending
    | Drained               // in the list Close took from the heap
    | Closing(run: Run)     // Close read it as queued and has not written yet
    | Settled

  /** Who holds Scheduler.mu, and how far the dispatch loop is. */
  datatype Lock =
    | Free
    | Dispatching
    | Inspecting(id: RunId, task: Task)
    | Offering(run: Run)
    | Failing(run: Run)
    | Announcing(run: Run)

  datatype Sched = Sched(
    agents: set<string>,
    max: nat,
    heap: map<RunId, Task>,
    running: int,
    sequence: nat,
    waiters: map<RunId, seq<ChanId>>,
    cancels: set<RunId>,
    closed: bool,
    store: map<RunId, Run>,
    chans: map<ChanId, Chan>,
    lock: Lock,
    place: map<RunId, Place>,
    admitted: multiset<(string, int)>,  // Submits between their first section and CreateRun
    cancelling: multiset<Run>,          // Cancels that have read a queued run
    notifying: multiset<Run>,           // goroutines about to call notify
    checked: multiset<RunId>,           // Waits between their check and their registration
    offers: seq<RunId>                  // every pool.Submit, in order
  )

  datatype Action =
    | Register(agent: string)
    | SubmitEnter(agent: string, priority: int)
    | SubmitCreate(agent: string, priority: int, id: RunId)
    | SubmitEnqueue(id: RunId)
    | SubmitRefuse(id: RunId)
    | RefuseWrite(id: RunId)
    | CancelRead(id: RunId)
    | CancelWrite(run: Run)
    | WaitCheck(id: RunId)
    | WaitRegister(id: RunId, ch: ChanId)
    | DispatchPop(id: RunId)
    | DispatchInspect
    | PoolAccept
    | PoolReject(reason: string)
    | FailWrite
    | FailNotify
    | DispatchDone
    | ExecStart(id: RunId)
    | ExecFinish(id: RunId, outcome: RunState, error: string)
    | ExecEpilogue(id: RunId)
    | CloseDrain
    | CloseRead(id: RunId)
    | CloseWrite(id: RunId)
    | Notify(run: Run)

  predicate First(heap: map<RunId, Task>, id: RunId) {
    id in heap && forall other | other in heap :: !Before(heap[other], heap[id])
  }

  predicate Enabled(s: Sched, a: Action) {
    match a
    case Register(agent) => true
    case SubmitEnter(agent, priority) => s.lock.Free? && !s.closed && agent in s.agents
    case SubmitCreate(agent, priority, id) => (agent, priority) in s.admitted && id !in s.store
    case SubmitEnqueue(id) => s.lock.Free? && !s.closed && At(s, id).Submitting?
    case SubmitRefuse(id) => s.lock.Free? && s.closed && At(s, id).Submitting?
    case RefuseWrite(id) => At(s, id).Refused?
    case CancelRead(id) => id in s.store && s.store[id].state.Queued?
    case CancelWrite(run) => run in s.cancelling
    case WaitCheck(id) => id in s.store && !Terminal(s.store[id].state)
    case WaitRegister(id, ch) => s.lock.Free? && id in s.checked && ch !in s.chans
    case DispatchPop(id) => s.lock.Dispatching? && s.running < s.max && First(s.heap, id)
    case DispatchInspect => s.lock.Inspecting?
    case PoolAccept => s.lock.Offering?
    case PoolReject(reason) => s.lock.Offering?
    case FailWrite => s.lock.Failing?
    case FailNotify => s.lock.Announcing?
    case DispatchDone => s.lock.Dispatching? && (s.running >= s.max || s.heap == map[])
    case ExecStart(id) => At(s, id).Handed?
    case ExecFinish(id, outcome, error) => At(s, id).Executing? && Terminal(outcome)
    case ExecEpilogue(id) => s.lock.Free? && At(s, id).Finished?
    case CloseDrain => s.lock.Free? && !s.closed
    case CloseRead(id) => At(s, id).Drained?
    case CloseWrite(id) => At(s, id).Closing?
    case Notify(run) => s.lock.Free? && run in s.notifying
  }

  function At(s: Sched, id: RunId): Place {
    if id in s.place then s.place[id] else Settled
  }

  /** `InMemoryStore.UpdateRun`: a run the store does not hold is refused, every caller drops that error. */
  function Write(store: map<RunId, Run>, run: Run): map<RunId, Run> {
    if run.id in store then store[run.id := run] else store
  }

  function Cancelling(run: Run, code: string): Run {
    run.(state := Cancelled, error := code)
  }

  /** The loop of `notifyLocked`: send the run on every channel in turn, and close it. */
  function Deliver(chans: map<ChanId, Chan>, chs: seq<ChanId>, run: Run): map<ChanId, Chan> {
    if chs == [] then chans
    else
      var ch := chs[0];
      var next := if ch in chans
                  then chans[ch := chans[ch].(sent := chans[ch].sent + [run], closes := chans[ch].closes + 1)]
                  else chans;
      Deliver(next, chs[1..], run)
  }

  function NotifyLocked(s: Sched, run: Run): Sched {
    var chs := if run.id in s.waiters then s.waiters[run.id] else [];
    s.(chans := Deliver(s.chans, chs, run), waiters := s.waiters - {run.id})
  }

  function Moved(s: Sched, id: RunId, place: Place): Sched {
    s.(place := s.place[id := place])
  }

  /** The actions of the goroutine that holds the lock and runs the dispatch loop. */
  predicate OfDispatch(a: Action) {
    || a.DispatchPop? || a.DispatchInspect? || a.PoolAccept? || a.PoolReject? || a.FailWrite? || a.FailNotify?
    || a.DispatchDone?
  }

  /** The actions of a run's execution and of Close. */
  predicate OfOwner(a: Action) {
    a.ExecStart? || a.ExecFinish? || a.ExecEpilogue? || a.CloseDrain? || a.CloseRead? || a.CloseWrite?
  }

  /** Every queued run moves to the list that Close works off. */
  function AllDrained(place: map<RunId, Place>, heap: map<RunId, Task>): map<RunId, Place> {
    map id | id in place :: if id in heap then Drained else place[id]
  }

  /** What the dispatch loop does. */
  function DispatchStep(s: Sched, a: Action): Sched
    requires Enabled(s, a) && OfDispatch(a)
  {
    match a
    case DispatchPop(id) =>
      Moved(s.(lock := Inspecting(id, s.heap[id]), heap := s.heap - {id}), id, Inspected)
    case DispatchInspect =>
      var id := s.lock.id;
      if id !in s.store || !s.store[id].state.Queued? then Moved(s.(lock := Dispatching), id, Settled)
      else if s.lock.task.agentId !in s.agents then Moved(s.(lock := Dispatching), id, Settled)
      else Moved(s.(lock := Offering(s.store[id])), id, Offered)
    case PoolAccept =>
      var run := s.lock.run;
      Moved(s.(lock := Dispatching, running := s.running + 1, cancels := s.cancels + {run.id},
               offers := s.offers + [run.id]), run.id, Handed(run))
    case PoolReject(reason) =>
      var run := s.lock.run;
      Moved(s.(lock := Failing(run.(error := reason)), offers := s.offers + [run.id]), run.id, Rejected)
    case FailWrite =>
      var run := s.lock.run.(state := Failed);
      Moved(s.(store := Write(s.store, run), lock := Announcing(run)), run.id, Settled)
    case FailNotify => NotifyLocked(s.(lock := Dispatching), s.lock.run)
    case DispatchDone => s.(lock := Free)
  }

  /** What an execution and Close do. */
  function OwnerStep(s: Sched, a: Action): Sched
    requires Enabled(s, a) && OfOwner(a)
  {
    match a
    case ExecStart(id) =>
      var run := s.place[id].run.(state := Running);
      Moved(s.(store := Write(s.store, run)), id, Executing(run))
    case ExecFinish(id, outcome, error) =>
      var run := s.place[id].run.(state := outcome, error := error);
      Moved(s.(store := Write(s.store, run)), id, Finished(run))
    case ExecEpilogue(id) =>
      Moved(s.(cancels := s.cancels - {id}, running := s.running - 1,
               notifying := s.notifying + multiset{s.place[id].run},
               lock := if s.closed then Free else Dispatching), id, Settled)
    case CloseDrain =>
      s.(closed := true, place := AllDrained(s.place, s.heap), heap := map[])
    case CloseRead(id) =>
      if id in s.store && s.store[id].state.Queued? then Moved(s, id, Closing(s.store[id]))
      else Moved(s, id, Settled)
    case CloseWrite(id) =>
      var run := Cancelling(s.place[id].run, "scheduler_closed");
      Moved(s.(store := Write(s.store, run), notifying := s.notifying + multiset{run}), id, Settled)
  }

  /** What Register, Submit, Cancel, Wait and notify do. */
  function CallerStep(s: Sched, a: Action): Sched
    requires Enabled(s, a) && !OfDispatch(a) && !OfOwner(a)
  {
    match a
    case Register(agent) => s.(agents := s.agents + {agent})
    case SubmitEnter(agent, priority) => s.(admitted := s.admitted + multiset{(agent, priority)})
    case SubmitCreate(agent, priority, id) =>
      var run := Run(id, agent, priority, Queued, "");
      Moved(s.(store := s.store[id := run], admitted := s.admitted - multiset{(agent, priority)}), id, Submitting(run))
    case SubmitEnqueue(id) =>
      var run := s.place[id].run;
      var task := Task(run.agentId, run.priority, s.sequence + 1);
      Moved(s.(sequence := s.sequence + 1, heap := s.heap[id := task], lock := Dispatching), id, InHeap)
    case SubmitRefuse(id) => Moved(s, id, Refused(s.place[id].run))
    case RefuseWrite(id) =>
      var run := Cancelling(s.place[id].run, "scheduler_closed");
      Moved(s.(store := Write(s.store, run), notifying := s.notifying + multiset{run}), id, Settled)
    case CancelRead(id) => s.(cancelling := s.cancelling + multiset{s.store[id]})
    case CancelWrite(read) =>
      var run := Cancelling(read, "cancelled");
      s.(store := Write(s.store, run),
         cancelling := s.cancelling - multiset{read},
         notifying := s.notifying + multiset{run})
    case WaitCheck(id) => s.(checked := s.checked + multiset{id})
    case WaitRegister(id, ch) =>
      var chs := if id in s.waiters then s.waiters[id] else [];
      s.(checked := s.checked - multiset{id},
         chans := s.chans[ch := Chan(id, [], 0)],
         waiters := s.waiters[id := chs + [ch]])
    case Notify(run) => NotifyLocked(s.(notifying := s.notifying - multiset{run}), run)
  }

  /** What one action does. */
  function Step(s: Sched, a: Action): Sched
    requires Enabled(s, a)
  {
    if OfDispatch(a) then DispatchStep(s, a) else if OfOwner(a) then OwnerStep(s, a) else CallerStep(s, a)
  }

  /** `NewScheduler`: a non-positive limit becomes 2. */
  function New(maxConcurrent: int): Sched {
    Sched({}, if maxConcurrent <= 0 then 2 else maxConcurrent, map[], 0, 0, map[], {}, false, map[], map[],
          Free, map[], multiset{}, multiset{}, multiset{}, multiset{}, [])
  }

  /** A run of the system: every action is enabled where it is taken. */
  predicate Legal(s: Sched, acts: seq<Action>)
    decreases |acts|
  {
    acts == [] || (Enabled(s, acts[0]) && Legal(Step(s, acts[0]), acts[1..]))
  }

  function Exec(s: Sched, acts: seq<Action>): Sched
    requires Legal(s, acts)
    decreases |acts|
  {
    if acts == [] then s else Exec(Step(s, acts[0]), acts[1..])
  }

  lemma {:induction false} ExecConcat(s: Sched, a: seq<Action>, b: seq<Action>)
    requires Legal(s, a) && Legal(Exec(s, a), b)
    ensures Legal(s, a + b) && Exec(s, a + b) == Exec(Exec(s, a), b)
    decreases |a|
  {
    hide Step, Enabled;
    if a == [] {
      assert a + b == b;
    } else {
      ExecConcat(Step(s, a[0]), a[1..], b);
      assert (a + b)[1..] == a[1..] + b;
    }
  }
}
