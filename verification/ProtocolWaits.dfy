/**
 When a registered Wait returns.  Not always: Cancel may write and notify between a Wait's check and its
 registration, and nobody announces the run again.  This module gives the exact condition, for a Wait that
 is left alone, for a Wait that others can help, and for a Wait that others can leave hanging.
 */
module ProtocolWaits {
  import opened Protocol
  import opened ProtocolInvariant
  import opened ProtocolTheorems
  import opened ProtocolLimits

  predicate WaitsFor(s: Sched, ch: ChanId, id: RunId) {
    ch in s.chans && s.chans[ch].runId == id && Waiting(s.waiters, s.chans[ch], ch)
  }

  predicate IsServed(s: Sched, ch: ChanId) {
    ch in s.chans && Served(s.chans[ch])
  }

  ghost predicate NoteDue(s: Sched, id: RunId) {
    HasRun(s.notifying, id) || (s.lock.Announcing? && s.lock.run.id == id)
  }

  ghost predicate NotifyDue(s: Sched, id: RunId) {
    NoteDue(s, id) || HasRun(s.cancelling, id)
  }

  /** Places whose owner lets go of a decided run without telling anyone. */
  predicate LetsGo(p: Place) {
    p.Settled? || p.InHeap? || p.Inspected? || p.Drained?
  }

  /** Somebody is going to announce the run: it is still queued, or a notification about it is due, or its owner
      announces what it does. */
  ghost predicate Told(s: Sched, id: RunId) {
    && id in s.store && id in s.place
    && (|| s.store[id].state.Queued?
        || NotifyDue(s, id)
        || (!LetsGo(s.place[id]) && (s.place[id].Submitting? ==> s.closed)))
  }

  /** The channel waits for a run that somebody is going to announce. */
  ghost predicate Covered(s: Sched, ch: ChanId, id: RunId) {
    WaitsFor(s, ch, id) && Told(s, id)
  }

  // ---------------------------------------------------------------- a covered Wait stays covered until it is served

  /** The action calls notify with the run. */
  predicate Announces(s: Sched, a: Action, id: RunId) {
    (a.Notify? && a.run.id == id) || (a.FailNotify? && s.lock.Announcing? && s.lock.run.id == id)
  }

  lemma Holds(s: Sched)
    requires Inv(s)
    ensures s.store.Keys == s.place.Keys && Waiters(s.waiters, s.chans)
    ensures forall r | r in s.notifying :: Terminal(r.state)
    ensures s.lock.Announcing? ==> Terminal(s.lock.run.state)
  {
    hide HeapShape, Capacity, StoreShape, OfferShape, Waiters;
  }

  lemma NotifyServes(s: Sched, run: Run, ch: ChanId)
    requires Waiters(s.waiters, s.chans) && Terminal(run.state) && WaitsFor(s, ch, run.id)
    ensures IsServed(NotifyLocked(s, run), ch)
  {
    assert Listed(s.chans, run.id, s.waiters[run.id]);
    DeliverServes(s.chans, run.id, s.waiters[run.id], run);
  }

  lemma AnnouncedIsServed(s: Sched, a: Action, ch: ChanId, id: RunId)
    requires Inv(s) && Enabled(s, a) && WaitsFor(s, ch, id) && Announces(s, a, id)
    ensures IsServed(Step(s, a), ch)
  {
    hide Inv, IsServed, NotifyLocked;
    Holds(s);
    match a
    case Notify(run) => NotifyServes(s.(notifying := s.notifying - multiset{run}), run, ch);
    case FailNotify => NotifyServes(s.(lock := Dispatching), s.lock.run, ch);
  }

  lemma OwnerKeepsWaiters(s: Sched, a: Action)
    requires Enabled(s, a) && OfOwner(a)
    ensures Step(s, a).waiters == s.waiters
  {
    hide Write, AllDrained;
    assert Step(s, a) == OwnerStep(s, a);
  }

  lemma DispatchKeepsWaiters(s: Sched, a: Action)
    requires Enabled(s, a) && OfDispatch(a) && !a.FailNotify?
    ensures Step(s, a).waiters == s.waiters
  {
    hide First, NotifyLocked, Write;
    assert Step(s, a) == DispatchStep(s, a);
  }

  lemma CallerKeepsWaiters(s: Sched, a: Action)
    requires Enabled(s, a) && !OfDispatch(a) && !OfOwner(a) && !a.Notify? && !a.WaitRegister?
    ensures Step(s, a).waiters == s.waiters
  {
    hide NotifyLocked, Write;
    assert Step(s, a) == CallerStep(s, a);
  }

  lemma WaitersEffect(s: Sched, a: Action)
    requires Enabled(s, a) && !a.Notify? && !a.FailNotify? && !a.WaitRegister?
    ensures Step(s, a).waiters == s.waiters
  {
    hide Step, Enabled;
    if OfDispatch(a) {
      DispatchKeepsWaiters(s, a);
    } else if OfOwner(a) {
      OwnerKeepsWaiters(s, a);
    } else {
      CallerKeepsWaiters(s, a);
    }
  }

  lemma RegisterKeepsWaiting(s: Sched, id: RunId, fresh': ChanId, ch: ChanId)
    requires Enabled(s, WaitRegister(id, fresh')) && ch in s.chans && Waiting(s.waiters, s.chans[ch], ch)
    ensures var t := Step(s, WaitRegister(id, fresh'));
            ch in t.chans && t.chans[ch] == s.chans[ch] && Waiting(t.waiters, t.chans[ch], ch)
  {
  }

  lemma NotifyKeepsOthers(s: Sched, run: Run, ch: ChanId)
    requires Waiters(s.waiters, s.chans) && Terminal(run.state) && ch in s.chans
    requires Waiting(s.waiters, s.chans[ch], ch) && s.chans[ch].runId != run.id
    ensures var t := NotifyLocked(s, run);
            ch in t.chans && t.chans[ch] == s.chans[ch] && Waiting(t.waiters, t.chans[ch], ch)
  {
    if run.id in s.waiters {
      assert Listed(s.chans, run.id, s.waiters[run.id]);
      DeliverServes(s.chans, run.id, s.waiters[run.id], run);
    }
  }

  /** A channel leaves the waiter list of `id` only through a notification about `id`. */
  lemma WaitsOn(s: Sched, a: Action, ch: ChanId, id: RunId)
    requires Inv(s) && Enabled(s, a) && WaitsFor(s, ch, id) && !Announces(s, a, id)
    ensures WaitsFor(Step(s, a), ch, id)
  {
    hide Step, Inv, Enabled;
    if a.Notify? {
      NotifyWaitsOn(s, a.run, ch, id);
    } else if a.FailNotify? {
      FailNotifyWaitsOn(s, ch, id);
    } else if a.WaitRegister? {
      RegisterKeepsWaiting(s, a.id, a.ch, ch);
    } else {
      ChansEffect(s, a, ch);
      WaitersEffect(s, a);
    }
  }

  lemma NotifyWaitsOn(s: Sched, run: Run, ch: ChanId, id: RunId)
    requires Inv(s) && Enabled(s, Notify(run)) && WaitsFor(s, ch, id) && run.id != id
    ensures WaitsFor(Step(s, Notify(run)), ch, id)
  {
    hide Inv, NotifyLocked;
    Holds(s);
    NotifyKeepsOthers(s.(notifying := s.notifying - multiset{run}), run, ch);
  }

  lemma FailNotifyWaitsOn(s: Sched, ch: ChanId, id: RunId)
    requires Inv(s) && Enabled(s, FailNotify) && WaitsFor(s, ch, id) && !Announces(s, FailNotify, id)
    ensures WaitsFor(Step(s, FailNotify), ch, id)
  {
    hide Inv, NotifyLocked;
    Holds(s);
    NotifyKeepsOthers(s.(lock := Dispatching), s.lock.run, ch);
  }

  /** The action writes an outcome of the run, or ends its execution, and leaves a notification behind. */
  predicate LeavesNote(s: Sched, a: Action, id: RunId) {
    match a
    case RefuseWrite(other) => other == id
    case CloseWrite(other) => other == id
    case ExecEpilogue(other) => other == id
    case CancelWrite(read) => read.id == id
    case FailWrite => s.lock.Failing? && s.lock.run.id == id
    case _ => false
  }

  lemma NoteLeft(s: Sched, a: Action, id: RunId)
    requires Inv(s) && Enabled(s, a) && LeavesNote(s, a, id)
    ensures NoteDue(Step(s, a), id)
  {
    hide Step, Inv, HasRun;
    Books(s, a);
    if a.CancelWrite? {
      RunIn(Noted(s, a), Cancelling(a.run, "cancelled"));
    } else if a.ExecEpilogue? {
      OwnCopy(s, id);
      RunIn(Noted(s, a), s.place[id].run);
    } else if !a.FailWrite? {
      OwnCopy(s, id);
      RunIn(Noted(s, a), Cancelling(s.place[id].run, "scheduler_closed"));
    }
  }

  lemma NoteStays(s: Sched, a: Action, r: Run)
    requires Enabled(s, a) && r in s.notifying && !(a.Notify? && a.run.id == r.id)
    ensures r in Noted(s, a)
  {
  }

  lemma ReadStays(s: Sched, a: Action, r: Run)
    requires Enabled(s, a) && r in s.cancelling && !(a.CancelWrite? && a.run.id == r.id)
    ensures r in Reading(s, a)
  {
  }

  lemma AnnouncingStays(s: Sched, a: Action)
    requires Enabled(s, a) && s.lock.Announcing? && !a.FailNotify?
    ensures Locking(s, a) == s.lock
  {
  }

  /** A notification that is due stays due until it is made. */
  lemma DueStays(s: Sched, a: Action, id: RunId)
    requires Enabled(s, a) && Inv(s) && NotifyDue(s, id) && !Announces(s, a, id)
    ensures NotifyDue(Step(s, a), id)
  {
    hide Step, Inv, Enabled, Noted, Reading, Locking;
    Books(s, a);
    if LeavesNote(s, a, id) {
      NoteLeft(s, a, id);
    } else if HasRun(s.notifying, id) {
      var r :| r in s.notifying && r.id == id;
      NoteStays(s, a, r);
    } else if HasRun(s.cancelling, id) {
      var r :| r in s.cancelling && r.id == id;
      ReadStays(s, a, r);
    } else {
      AnnouncingStays(s, a);
    }
  }

  /** Whoever decides a queued run leaves a notification behind, or has the execution in hand. */
  lemma DecidingIsTold(s: Sched, a: Action, id: RunId)
    requires Enabled(s, a) && Inv(s) && id in s.store && s.store[id].state.Queued?
    requires id in Stored(s, a) && !Stored(s, a)[id].state.Queued?
    ensures LeavesNote(s, a, id) || (id in Step(s, a).place && PlaceTells(Step(s, a).place[id]))
  {
    hide Step, Inv;
    Places(s, a);
    if a.ExecStart? || a.ExecFinish? || a.RefuseWrite? || a.CloseWrite? {
      OwnCopy(s, a.id);
    }
  }

  predicate PlaceTells(p: Place) {
    p.Executing? || p.Finished?
  }

  /** An owner that announces what it does goes on to one that does, or leaves a notification behind. */
  lemma OwnerTells(s: Sched, a: Action, id: RunId)
    requires Inv(s) && Enabled(s, a) && id in s.place && !LetsGo(s.place[id])
    requires s.place[id].Submitting? ==> s.closed
    ensures var t := Step(s, a);
            id in t.place &&
            (LeavesNote(s, a, id) || (!LetsGo(t.place[id]) && (t.place[id].Submitting? ==> t.closed)))
  {
    hide Step, Inv, LetsGo;
    Parts(s);
    Books(s, a);
    PlaceFollowsEdge(s, a, id);
    var t := Step(s, a);
    if t.place[id] != s.place[id] {
      Places(s, a);
      MoverLeavesNote(s, a, id);
    }
  }

  lemma MoverLeavesNote(s: Sched, a: Action, id: RunId)
    requires s.store.Keys == s.place.Keys && HeapPlaces(s.heap, s.place) && HoldsRun(s.agents, s.lock, s.place)
    requires Enabled(s, a) && id in s.place && !LetsGo(s.place[id]) && (s.place[id].Submitting? ==> s.closed)
    requires Carries(s, a, id)
    ensures Moving(s, a).Moves? && (LeavesNote(s, a, id) || !(LetsGo(Moving(s, a).to) || Moving(s, a).to.Submitting?))
  {
    hide Step;
  }

  /** Every action keeps a covered channel covered, or serves it. */
  lemma CoveredStep(s: Sched, a: Action, ch: ChanId, id: RunId)
    requires Inv(s) && Covered(s, ch, id) && Enabled(s, a)
    ensures Covered(Step(s, a), ch, id) || IsServed(Step(s, a), ch)
  {
    hide Step, Inv, Enabled, WaitsFor, NotifyDue, LetsGo, LeavesNote, Announces;
    if Announces(s, a, id) {
      AnnouncedIsServed(s, a, ch, id);
    } else {
      WaitsOn(s, a, ch, id);
      ToldStep(s, a, id);
    }
  }

  lemma ToldStep(s: Sched, a: Action, id: RunId)
    requires Inv(s) && Told(s, id) && Enabled(s, a) && !Announces(s, a, id)
    ensures Told(Step(s, a), id)
  {
    hide Step, Inv, Enabled, NoteDue, LeavesNote, Announces;
    StepKept(s, a);
    Holds(Step(s, a));
    Parts(s);
    PlaceFollowsEdge(s, a, id);
    if LeavesNote(s, a, id) {
      NoteLeft(s, a, id);
    } else if NotifyDue(s, id) {
      DueStays(s, a, id);
    } else if s.store[id].state.Queued? {
      if !Step(s, a).store[id].state.Queued? {
        Stores(s, a);
        DecidingIsTold(s, a, id);
      }
    } else {
      OwnerTells(s, a, id);
    }
  }

  lemma {:induction false} CoveredForGood(s: Sched, acts: seq<Action>, ch: ChanId, id: RunId)
    requires Inv(s) && Legal(s, acts) && (Covered(s, ch, id) || IsServed(s, ch))
    ensures Covered(Exec(s, acts), ch, id) || IsServed(Exec(s, acts), ch)
    decreases |acts|
  {
    hide Step, Enabled, Inv, Covered, Served;
    if acts != [] {
      if Covered(s, ch, id) {
        CoveredStep(s, acts[0], ch, id);
      } else {
        ServedStep(s, acts[0], ch);
      }
      StepKept(s, acts[0]);
      CoveredForGood(Step(s, acts[0]), acts[1..], ch, id);
    }
  }

  // ---------------------------------------------------------------- at rest nobody is owed an answer

  /** Nothing that has begun is still going on: the lock is free, no Cancel, notify, Submit or execution is under
      way, and Close has worked off its list. */
  ghost predicate Quiescent(s: Sched) {
    && s.lock.Free?
    && s.cancelling == multiset{} && s.notifying == multiset{}
    && forall id | id in s.place :: s.place[id].Settled? || s.place[id].InHeap?
  }

  lemma HeapWaitsForSlots(s: Sched)
    requires HeapPlaces(s.heap, s.place) && Capacity(s) && s.lock.Free? && s.heap != map[]
    ensures exists id :: id in s.place && InFlight(s.place[id])
  {
    var id :| id in s.cancels;
  }

  lemma QueuedIsPending(s: Sched, id: RunId)
    requires Inv(s) && id in s.place && id in s.store && s.store[id].state.Queued?
    ensures !s.place[id].Settled? && Capacity(s) && (s.place[id].InHeap? ==> id in s.heap)
  {
  }

  lemma NothingOwedAtRest(s: Sched, ch: ChanId, id: RunId)
    requires Inv(s) && Quiescent(s)
    ensures !Covered(s, ch, id)
  {
    hide Inv, Capacity, WaitsFor;
    if Covered(s, ch, id) {
      Parts(s);
      QueuedIsPending(s, id);
      HeapWaitsForSlots(s);
    }
  }

  /** A covered Wait has returned by the time the scheduler is at rest, whatever was called meanwhile. */
  lemma CoveredIsServedAtRest(s: Sched, acts: seq<Action>, ch: ChanId, id: RunId)
    requires Inv(s) && Covered(s, ch, id) && Legal(s, acts) && Quiescent(Exec(s, acts))
    ensures IsServed(Exec(s, acts), ch)
  {
    hide Step, Enabled, Inv, Covered;
    CoveredForGood(s, acts, ch, id);
    RunKept(s, acts);
    NothingOwedAtRest(Exec(s, acts), ch, id);
  }

  // ---------------------------------------------------------------- a Wait nobody announces to

  /** The run is decided, everyone who announced it has done so, and its owner will drop it silently. */
  ghost predicate Silent(s: Sched, id: RunId) {
    id in s.store && id in s.place && !s.store[id].state.Queued? && !NotifyDue(s, id) && LetsGo(s.place[id])
  }

  /** A notification becomes due only through a queued stored state or an owner that will announce. */
  lemma DueComes(s: Sched, a: Action, id: RunId)
    requires Enabled(s, a) && Inv(s) && id in s.place && id in s.store && NotifyDue(Step(s, a), id)
    ensures NotifyDue(s, id) || s.store[id].state.Queued? || !(LetsGo(s.place[id]) || s.place[id].Submitting?)
  {
    hide Step, Inv, Enabled, Noted, Reading, Locking;
    Books(s, a);
    if HasRun(Noted(s, a), id) {
      var r :| r in Noted(s, a) && r.id == id;
      if r !in s.notifying {
        NoteComes(s, a, r);
      }
    } else if HasRun(Reading(s, a), id) {
      var r :| r in Reading(s, a) && r.id == id;
      if r !in s.cancelling {
        CancellingComes(s, a, r);
        StoredIds(s, a.id);
      }
    } else {
      AnnouncingComes(s, a);
    }
  }

  lemma NoteComes(s: Sched, a: Action, r: Run)
    requires Enabled(s, a) && Inv(s) && r in Noted(s, a) && r !in s.notifying
    ensures HasRun(s.cancelling, r.id) || At(s, r.id).Finished? || At(s, r.id).Refused? || At(s, r.id).Closing?
  {
    hide Inv;
    if a.CancelWrite? {
      RunIn(s.cancelling, a.run);
    } else if a.ExecEpilogue? || a.RefuseWrite? || a.CloseWrite? {
      OwnCopy(s, a.id);
    }
  }

  lemma AnnouncingComes(s: Sched, a: Action)
    requires Enabled(s, a) && Inv(s) && Locking(s, a).Announcing?
    ensures Locking(s, a) == s.lock || At(s, Locking(s, a).run.id).Rejected?
  {
  }

  /** Nobody comes to announce a decided run that nobody is about to announce, unless Close begins while its
      Submit is still under way. */
  lemma UntoldStep(s: Sched, a: Action, id: RunId)
    requires Inv(s) && Enabled(s, a) && id in s.store && id in s.place && !Told(s, id)
    requires a.CloseDrain? ==> LetsGo(s.place[id])
    ensures var t := Step(s, a);
            id in t.store && id in t.place && !Told(t, id) && (LetsGo(s.place[id]) ==> LetsGo(t.place[id]))
  {
    hide Step, Inv, NotifyDue;
    Parts(s);
    QueuedNeverReturns(s, a, id);
    UntoldPlace(s, a, id);
    if NotifyDue(Step(s, a), id) {
      DueComes(s, a, id);
    }
  }

  lemma UntoldPlace(s: Sched, a: Action, id: RunId)
    requires HeapPlaces(s.heap, s.place) && HoldsRun(s.agents, s.lock, s.place) && s.store.Keys == s.place.Keys
    requires Enabled(s, a) && id in s.store && id in s.place && !s.store[id].state.Queued?
    requires LetsGo(s.place[id]) || (s.place[id].Submitting? && !s.closed && !a.CloseDrain?)
    ensures var t := Step(s, a);
            id in t.place && (LetsGo(t.place[id]) || (s.place[id].Submitting? && t.place[id].Submitting? && !t.closed))
  {
    hide Step, HoldsRun;
    Books(s, a);
    PlaceFollowsEdge(s, a, id);
    var q := Step(s, a).place[id];
    if q.Offered? || q.Closing? {
      OnlyQueuedGoesOn(s, a, id);
    } else if q.Refused? {
      Places(s, a);
    }
  }

  lemma NotAnnounced(s: Sched, a: Action, id: RunId)
    requires Enabled(s, a) && !NotifyDue(s, id)
    ensures !Announces(s, a, id)
  {
  }

  lemma {:induction false} SilentForGood(s: Sched, acts: seq<Action>, ch: ChanId, id: RunId)
    requires Inv(s) && Silent(s, id) && WaitsFor(s, ch, id) && Legal(s, acts)
    ensures WaitsFor(Exec(s, acts), ch, id)
    decreases |acts|
  {
    hide Step, Enabled, Inv, WaitsFor, NotifyDue, Announces;
    if acts != [] {
      UntoldStep(s, acts[0], id);
      NotAnnounced(s, acts[0], id);
      WaitsOn(s, acts[0], ch, id);
      StepKept(s, acts[0]);
      SilentForGood(Step(s, acts[0]), acts[1..], ch, id);
    }
  }

  // ---------------------------------------------------------------- what has begun comes to an end

  /** Actions that begin something; every other action goes on with what has begun. */
  predicate Begins(a: Action) {
    a.Register? || a.SubmitEnter? || a.CancelRead? || a.WaitCheck? || a.CloseDrain?
  }

  predicate LeftAlone(acts: seq<Action>) {
    forall a | a in acts :: !Begins(a)
  }

  /** Everything that has begun has been gone through. */
  ghost predicate Stuck(s: Sched) {
    forall a | Enabled(s, a) :: Begins(a)
  }

  function Weight(p: Place): nat {
    match p
    case Submitting(_) => 20
    case InHeap => 16
    case Inspected => 14
    case Offered => 12
    case Rejected => 10
    case Handed(_) => 10
    case Executing(_) => 8
    case Drained => 6
    case Finished(_) => 5
    case Closing(_) => 4
    case Refused(_) => 4
    case Settled => 0
  }

  ghost function Load(place: map<RunId, Place>): nat
    decreases |place|
  {
    if place == map[] then 0
    else
      var id :| id in place;
      assert (place - {id}).Keys == place.Keys - {id};
      Weight(place[id]) + Load(place - {id})
  }

  lemma {:induction false} LoadAt(place: map<RunId, Place>, id: RunId)
    requires id in place
    ensures Load(place) == Weight(place[id]) + Load(place - {id})
    decreases |place|
  {
    var first :| first in place && Load(place) == Weight(place[first]) + Load(place - {first});
    if first != id {
      assert (place - {first}).Keys == place.Keys - {first} && (place - {id}).Keys == place.Keys - {id};
      LoadAt(place - {first}, id);
      LoadAt(place - {id}, first);
      assert place - {first} - {id} == place - {id} - {first};
    }
  }

  lemma LoadMoves(place: map<RunId, Place>, id: RunId, p: Place)
    ensures Load(place[id := p]) == Load(place) + Weight(p) - (if id in place then Weight(place[id]) else 0)
  {
    LoadAt(place[id := p], id);
    if id in place {
      LoadAt(place, id);
      assert place[id := p] - {id} == place - {id};
    } else {
      assert place[id := p] - {id} == place;
    }
  }

  function LockWeight(lock: Lock): nat {
    match lock
    case Dispatching => 1
    case Announcing(_) => 2
    case _ => 0
  }

  /** What is still to be done before everything that has begun is over. */
  ghost function Measure(s: Sched): nat {
    Load(s.place) + LockWeight(s.lock) + |s.notifying| + 2 * |s.cancelling| + |s.checked| + 21 * |s.admitted|
  }

  /** The callers that stand between two sections, after an action. */
  function Checking(s: Sched, a: Action): multiset<RunId> {
    if a.WaitCheck? then s.checked + multiset{a.id}
    else if a.WaitRegister? then s.checked - multiset{a.id}
    else s.checked
  }

  function Admitting(s: Sched, a: Action): multiset<(string, int)> {
    if a.SubmitEnter? then s.admitted + multiset{(a.agent, a.priority)}
    else if a.SubmitCreate? then s.admitted - multiset{(a.agent, a.priority)}
    else s.admitted
  }

  lemma LoopCallers(s: Sched, a: Action)
    requires Enabled(s, a) && OfDispatch(a) && !a.FailNotify? && !a.DispatchInspect?
    ensures Step(s, a).checked == s.checked && Step(s, a).admitted == s.admitted
  {
    hide First, NotifyLocked, Write;
    assert Step(s, a) == DispatchStep(s, a);
  }

  lemma InspectCallers(s: Sched)
    requires Enabled(s, DispatchInspect)
    ensures Step(s, DispatchInspect).checked == s.checked && Step(s, DispatchInspect).admitted == s.admitted
  {
  }

  lemma FailNotifyCallers(s: Sched)
    requires Enabled(s, FailNotify)
    ensures Step(s, FailNotify).checked == s.checked && Step(s, FailNotify).admitted == s.admitted
  {
    hide Deliver;
  }

  lemma DispatchCallers(s: Sched, a: Action)
    requires Enabled(s, a) && OfDispatch(a)
    ensures Step(s, a).checked == Checking(s, a) && Step(s, a).admitted == Admitting(s, a)
  {
    hide Step, Enabled;
    if a.FailNotify? {
      FailNotifyCallers(s);
    } else if a.DispatchInspect? {
      InspectCallers(s);
    } else {
      LoopCallers(s, a);
    }
  }

  lemma OwnerCallers(s: Sched, a: Action)
    requires Enabled(s, a) && OfOwner(a)
    ensures Step(s, a).checked == Checking(s, a) && Step(s, a).admitted == Admitting(s, a)
  {
    hide Write, AllDrained;
    assert Step(s, a) == OwnerStep(s, a);
  }

  lemma CallerCallers(s: Sched, a: Action)
    requires Enabled(s, a) && !OfDispatch(a) && !OfOwner(a)
    ensures Step(s, a).checked == Checking(s, a) && Step(s, a).admitted == Admitting(s, a)
  {
    hide Deliver, Write;
    assert Step(s, a) == CallerStep(s, a);
  }

  lemma Callers(s: Sched, a: Action)
    requires Enabled(s, a)
    ensures Step(s, a).checked == Checking(s, a) && Step(s, a).admitted == Admitting(s, a)
  {
    hide Step, Enabled, Checking, Admitting;
    if OfDispatch(a) {
      DispatchCallers(s, a);
    } else if OfOwner(a) {
      OwnerCallers(s, a);
    } else {
      CallerCallers(s, a);
    }
  }

  /** By how much an action lightens the places. */
  function Relief(a: Action): int {
    match a
    case SubmitCreate(_, _, _) => -20
    case SubmitEnqueue(_) => 4
    case RefuseWrite(_) => 4
    case SubmitRefuse(_) => 2
    case DispatchPop(_) => 2
    case DispatchInspect => 2
    case PoolAccept => 2
    case PoolReject(_) => 2
    case FailWrite => 4
    case ExecStart(_) => 2
    case ExecFinish(_, _, _) => 2
    case ExecEpilogue(_) => 4
    case CloseRead(_) => 2
    case CloseWrite(_) => 4
    case _ => 0
  }

  lemma MoverIsRelieved(s: Sched, a: Action)
    requires s.store.Keys == s.place.Keys && HeapPlaces(s.heap, s.place) && HoldsRun(s.agents, s.lock, s.place)
    requires Enabled(s, a) && !Begins(a) && Moving(s, a).Moves?
    ensures var m := Moving(s, a);
            Weight(m.to) - (if m.id in s.place then Weight(s.place[m.id]) else 0) <= -Relief(a)
  {
    hide Step;
  }

  lemma PlacesRelieved(s: Sched, a: Action)
    requires Enabled(s, a) && Inv(s) && !Begins(a)
    ensures Load(Step(s, a).place) <= Load(s.place) - Relief(a)
  {
    hide Step, Inv, Load, Enabled, Moving, Relief;
    Parts(s);
    Places(s, a);
    match Moving(s, a)
    case Moves(id, to) =>
      LoadMoves(s.place, id, to);
      MoverIsRelieved(s, a);
    case _ => OthersStay(s, a);
  }

  lemma OthersStay(s: Sched, a: Action)
    requires Enabled(s, a) && !Begins(a) && !Moving(s, a).Moves?
    ensures Moving(s, a).Stays? && Relief(a) == 0
  {
  }

  /** By how much an action can raise the rest of the measure. */
  function LockBurden(a: Action): int {
    match a
    case SubmitEnqueue(_) => 1
    case DispatchPop(_) => -1
    case DispatchInspect => 1
    case PoolAccept => 1
    case FailWrite => 2
    case FailNotify => -1
    case DispatchDone => -1
    case ExecEpilogue(_) => 1
    case _ => 0
  }

  function NoteBurden(a: Action): int {
    match a
    case RefuseWrite(_) => 1
    case CloseWrite(_) => 1
    case ExecEpilogue(_) => 1
    case CancelWrite(_) => -1
    case Notify(_) => -1
    case _ => 0
  }

  function CallerBurden(a: Action): int {
    if a.SubmitCreate? then -21 else if a.WaitRegister? then -1 else 0
  }

  lemma LockBurdened(s: Sched, a: Action)
    requires Enabled(s, a) && !Begins(a)
    ensures LockWeight(Locking(s, a)) <= LockWeight(s.lock) + LockBurden(a)
  {
  }

  lemma NotesBurdened(s: Sched, a: Action)
    requires Enabled(s, a) && !Begins(a)
    ensures |Noted(s, a)| + 2 * |Reading(s, a)| <= |s.notifying| + 2 * |s.cancelling| + NoteBurden(a)
  {
  }

  lemma CallersBurdened(s: Sched, a: Action)
    requires Enabled(s, a) && !Begins(a)
    ensures |Checking(s, a)| + 21 * |Admitting(s, a)| <= |s.checked| + 21 * |s.admitted| + CallerBurden(a)
  {
  }

  lemma ReliefOutweighs(a: Action)
    requires !Begins(a)
    ensures LockBurden(a) + NoteBurden(a) + CallerBurden(a) < Relief(a)
  {
  }

  lemma MeasureFalls(s: Sched, a: Action)
    requires Enabled(s, a) && Inv(s) && !Begins(a)
    ensures Measure(Step(s, a)) < Measure(s)
  {
    hide Step, Inv, Enabled, Load, LockWeight, Relief, LockBurden, NoteBurden, CallerBurden;
    hide Locking, Noted, Reading, Checking, Admitting, Begins;
    Books(s, a);
    Callers(s, a);
    PlacesRelieved(s, a);
    LockBurdened(s, a);
    NotesBurdened(s, a);
    CallersBurdened(s, a);
    ReliefOutweighs(a);
  }

  /** Left alone, the scheduler comes to an end: no run without new calls is longer than the measure. */
  lemma {:induction false} LeftAloneEnds(s: Sched, acts: seq<Action>)
    requires Inv(s) && Legal(s, acts) && LeftAlone(acts)
    ensures |acts| <= Measure(s)
    decreases |acts|
  {
    hide Step, Enabled, Inv, Measure, Begins;
    if acts != [] {
      MeasureFalls(s, acts[0]);
      StepKept(s, acts[0]);
      LeftAloneEnds(Step(s, acts[0]), acts[1..]);
    }
  }

  /** What the scheduler does when nothing new is asked of it, to the end. */
  lemma {:induction false} RunsOut(s: Sched) returns (acts: seq<Action>)
    requires Inv(s)
    ensures Legal(s, acts) && LeftAlone(acts) && Stuck(Exec(s, acts))
    decreases Measure(s)
  {
    hide Step, Enabled, Inv, Measure, Begins;
    if Stuck(s) {
      acts := [];
    } else {
      var a :| Enabled(s, a) && !Begins(a);
      MeasureFalls(s, a);
      StepKept(s, a);
      var rest := RunsOut(Step(s, a));
      Prepended(s, a, rest);
      acts := [a] + rest;
    }
  }

  lemma {:induction false} FirstExists(heap: map<RunId, Task>)
    requires heap != map[]
    ensures exists id :: First(heap, id)
    decreases |heap|
  {
    var a :| a in heap;
    var rest := heap - {a};
    if rest == map[] {
      assert forall other | other in heap :: other == a by {
        assert forall other | other in heap && other != a :: other in rest;
      }
      assert First(heap, a);
    } else {
      assert |rest.Keys| < |heap.Keys| by { assert rest.Keys == heap.Keys - {a}; }
      FirstExists(rest);
      var b :| First(rest, b);
      assert forall other | other in heap && other != a :: other in rest && rest[other] == heap[other];
      assert First(heap, if Before(heap[a], heap[b]) then a else b);
    }
  }

  /** The dispatch loop can always go on. */
  lemma LoopGoesOn(s: Sched) returns (a: Action)
    requires !s.lock.Free?
    ensures Enabled(s, a) && OfDispatch(a)
  {
    match s.lock
    case Dispatching =>
      if s.running >= s.max || s.heap == map[] {
        a := DispatchDone;
      } else {
        FirstExists(s.heap);
        var id :| First(s.heap, id);
        a := DispatchPop(id);
      }
    case Inspecting(_, _) => a := DispatchInspect;
    case Offering(_) => a := PoolAccept;
    case Failing(_) => a := FailWrite;
    case Announcing(_) => a := FailNotify;
  }

  /** So can the owner of a run that is neither settled nor queued. */
  lemma OwnerGoesOn(s: Sched, id: RunId) returns (a: Action)
    requires Inv(s) && s.lock.Free? && id in s.place && !s.place[id].Settled? && !s.place[id].InHeap?
    ensures Enabled(s, a) && !Begins(a)
  {
    hide Inv;
    Parts(s);
    assert Held(s.lock, s.place[id], id);
    match s.place[id]
    case Submitting(_) => a := if s.closed then SubmitRefuse(id) else SubmitEnqueue(id);
    case Refused(_) => a := RefuseWrite(id);
    case Handed(_) => a := ExecStart(id);
    case Executing(_) => a := ExecFinish(id, Failed, "");
    case Finished(_) => a := ExecEpilogue(id);
    case Drained => a := CloseRead(id);
    case Closing(_) => a := CloseWrite(id);
  }

  lemma StuckIsQuiescent(s: Sched)
    requires Inv(s) && Stuck(s)
    ensures Quiescent(s)
  {
    hide Inv, Enabled;
    if !s.lock.Free? {
      var a := LoopGoesOn(s);
    } else {
      forall id | id in s.place
        ensures s.place[id].Settled? || s.place[id].InHeap?
      {
        if !s.place[id].Settled? && !s.place[id].InHeap? {
          var a := OwnerGoesOn(s, id);
        }
      }
      CallersGoOn(s);
    }
  }

  lemma CallersGoOn(s: Sched)
    requires s.lock.Free? && Stuck(s)
    ensures s.cancelling == multiset{} && s.notifying == multiset{}
  {
    forall r: Run
      ensures r !in s.cancelling && r !in s.notifying
    {
      assert !Begins(CancelWrite(r)) && !Begins(Notify(r));
      assert !Enabled(s, CancelWrite(r)) && !Enabled(s, Notify(r));
    }
  }

  // ---------------------------------------------------------------- at rest everything is decided

  /** A run is stored as running only while it is executed. */
  predicate RunsInPlace(s: Sched, id: RunId) {
    id in s.store && s.store[id].state.Running? ==> At(s, id).Executing?
  }

  /** Executing ends with a write of the outcome. */
  lemma ExecutingEnds(s: Sched, a: Action, id: RunId)
    requires s.store.Keys == s.place.Keys && HeapPlaces(s.heap, s.place) && HoldsRun(s.agents, s.lock, s.place)
    requires Enabled(s, a) && id in s.place && s.place[id].Executing? && Carries(s, a, id)
    ensures a.ExecFinish? && a.id == id && Updated(s, a).Wrote? && Updated(s, a).run.id == s.place[id].run.id
    ensures Terminal(Updated(s, a).run.state)
  {
    hide Step;
  }

  lemma RunsInPlaceStep(s: Sched, a: Action, id: RunId)
    requires Inv(s) && RunsInPlace(s, id) && Enabled(s, a)
    ensures RunsInPlace(Step(s, a), id)
  {
    hide Step, Enabled, Updated, Moving, Inv;
    Parts(s);
    Stores(s, a);
    if a.SubmitCreate? {
      CreateIsNew(s, a);
    } else if a.ExecStart? {
      StartMoves(s, a.id);
    } else if Updated(s, a).Wrote? {
      WritesDecided(s, a);
    }
    if id in s.place {
      PlaceEffect(s, a, id);
      if s.place[id].Executing? && Carries(s, a, id) {
        ExecutingEnds(s, a, id);
        OwnCopy(s, id);
      }
    }
  }

  lemma StartMoves(s: Sched, id: RunId)
    requires Inv(s) && Enabled(s, ExecStart(id))
    ensures Updated(s, ExecStart(id)).run.id == id && At(Step(s, ExecStart(id)), id).Executing?
    ensures forall other | other in s.place && other != id :: !Carries(s, ExecStart(id), other)
  {
    hide Inv;
    OwnCopy(s, id);
  }

  lemma {:induction false} RunsInPlaceForGood(s: Sched, acts: seq<Action>, id: RunId)
    requires Inv(s) && RunsInPlace(s, id) && Legal(s, acts)
    ensures RunsInPlace(Exec(s, acts), id)
    decreases |acts|
  {
    hide Step, Enabled, Inv, RunsInPlace;
    if acts != [] {
      RunsInPlaceStep(s, acts[0], id);
      StepKept(s, acts[0]);
      RunsInPlaceForGood(Step(s, acts[0]), acts[1..], id);
    }
  }

  lemma NewRunsInPlace(maxConcurrent: int, id: RunId)
    ensures RunsInPlace(New(maxConcurrent), id)
  {
  }

  lemma RestEmptiesHeap(s: Sched)
    requires Inv(s) && Quiescent(s)
    ensures s.heap == map[]
  {
    hide Copies, HeapShape, LockShape, StoreShape, Pending, OfferShape, Waiters;
    if s.heap != map[] {
      Parts(s);
      HeapWaitsForSlots(s);
    }
  }

  /** In every reachable state at rest nothing waits in the heap, and the store holds an outcome for every run. */
  lemma RestIsDecided(maxConcurrent: int, acts: seq<Action>)
    requires Legal(New(maxConcurrent), acts) && Quiescent(Exec(New(maxConcurrent), acts))
    ensures var s := Exec(New(maxConcurrent), acts);
            s.heap == map[] && forall id | id in s.store :: s.store[id].state in {Succeeded, Failed, Cancelled}
  {
    hide Step, Enabled, Legal, Exec, Inv, Capacity;
    Reachable(maxConcurrent, acts);
    NewInv(maxConcurrent);
    var s := Exec(New(maxConcurrent), acts);
    RestEmptiesHeap(s);
    Holds(s);
    forall id | id in s.store
      ensures s.store[id].state in {Succeeded, Failed, Cancelled}
    {
      NewRunsInPlace(maxConcurrent, id);
      RunsInPlaceForGood(New(maxConcurrent), acts, id);
      if s.store[id].state.Queued? {
        QueuedIsPending(s, id);
      }
    }
  }

  lemma {:induction false} StoredForGood(s: Sched, acts: seq<Action>)
    requires Legal(s, acts)
    ensures s.store.Keys <= Exec(s, acts).store.Keys
    decreases |acts|
  {
    hide Step, Enabled, Updated;
    if acts != [] {
      Stores(s, acts[0]);
      StoredForGood(Step(s, acts[0]), acts[1..]);
    }
  }

  /** No submitted run is left undecided: from any reachable state the scheduler, left alone, comes to an end with
      an outcome for every run that was stored. */
  lemma LeftAloneDecides(maxConcurrent: int, before: seq<Action>, acts: seq<Action>)
    requires Legal(New(maxConcurrent), before) && Legal(Exec(New(maxConcurrent), before), acts) && LeftAlone(acts)
    ensures var s := Exec(New(maxConcurrent), before);
            var t := Exec(s, acts);
            && |acts| <= Measure(s)
            && (Stuck(t) ==>
                  t.heap == map[] && s.store.Keys <= t.store.Keys &&
                  forall id | id in t.store :: t.store[id].state in {Succeeded, Failed, Cancelled})
  {
    hide Step, Enabled, Legal, Exec, Inv, Measure, LeftAlone, Stuck, Quiescent;
    Reachable(maxConcurrent, before);
    var s := Exec(New(maxConcurrent), before);
    LeftAloneEnds(s, acts);
    StoredForGood(s, acts);
    if Stuck(Exec(s, acts)) {
      RunKept(s, acts);
      StuckIsQuiescent(Exec(s, acts));
      ExecConcat(New(maxConcurrent), before, acts);
      RestIsDecided(maxConcurrent, before + acts);
    }
  }

  // ---------------------------------------------------------------- when a Wait returns

  lemma {:induction false} UntoldForGood(s: Sched, acts: seq<Action>, ch: ChanId, id: RunId)
    requires Inv(s) && WaitsFor(s, ch, id) && id in s.store && id in s.place && !Told(s, id)
    requires Legal(s, acts) && LeftAlone(acts)
    ensures var t := Exec(s, acts); WaitsFor(t, ch, id) && id in t.store && id in t.place && !Told(t, id)
    decreases |acts|
  {
    hide Step, Enabled, Inv, WaitsFor, Told, Announces;
    if acts != [] {
      assert acts[0] in acts;
      UntoldStep(s, acts[0], id);
      UntoldIsNotAnnounced(s, acts[0], id);
      WaitsOn(s, acts[0], ch, id);
      StepKept(s, acts[0]);
      UntoldForGood(Step(s, acts[0]), acts[1..], ch, id);
    }
  }

  lemma UntoldIsNotAnnounced(s: Sched, a: Action, id: RunId)
    requires Enabled(s, a) && id in s.store && id in s.place && !Told(s, id)
    ensures !Announces(s, a, id)
  {
    NotAnnounced(s, a, id);
  }

  /** A registered Wait that is left alone has returned when everything that has begun is over if and only if it
      is covered: its run is stored as queued, a notification about the run is due, or the owner of the run
      announces what it does. */
  lemma LeftAloneServed(s: Sched, acts: seq<Action>, ch: ChanId, id: RunId)
    requires Inv(s) && WaitsFor(s, ch, id) && id in s.store
    requires Legal(s, acts) && LeftAlone(acts) && Stuck(Exec(s, acts))
    ensures IsServed(Exec(s, acts), ch) <==> Covered(s, ch, id)
  {
    hide Step, Enabled, Inv, Stuck, Told, Served, Quiescent;
    Holds(s);
    RunKept(s, acts);
    StuckIsQuiescent(Exec(s, acts));
    if Covered(s, ch, id) {
      CoveredIsServedAtRest(s, acts, ch, id);
    } else {
      UntoldForGood(s, acts, ch, id);
      WaitsUnserved(Exec(s, acts), ch, id);
    }
  }

  lemma WaitsUnserved(s: Sched, ch: ChanId, id: RunId)
    requires WaitsFor(s, ch, id)
    ensures !IsServed(s, ch)
  {
  }

  /** Some continuation serves the channel. */
  ghost predicate CanServe(s: Sched, ch: ChanId) {
    exists acts :: Legal(s, acts) && IsServed(Exec(s, acts), ch)
  }

  /** In some continuation the channel is past all hope. */
  ghost predicate MayHang(s: Sched, ch: ChanId) {
    exists acts :: Legal(s, acts) && !CanServe(Exec(s, acts), ch)
  }

  lemma SilentIsHopeless(s: Sched, ch: ChanId, id: RunId)
    requires Inv(s) && Silent(s, id) && WaitsFor(s, ch, id)
    ensures !CanServe(s, ch)
  {
    hide Step, Enabled, Inv, Silent;
    forall acts | Legal(s, acts)
      ensures !IsServed(Exec(s, acts), ch)
    {
      SilentForGood(s, acts, ch, id);
      WaitsUnserved(Exec(s, acts), ch, id);
    }
  }

  lemma CoveredCanBeServed(s: Sched, ch: ChanId, id: RunId)
    requires Inv(s) && Covered(s, ch, id)
    ensures CanServe(s, ch)
  {
    hide Step, Enabled, Inv, NotifyDue, IsServed, WaitsFor, Stuck;
    var acts := RunsOut(s);
    LeftAloneServed(s, acts, ch, id);
  }

  /** Whatever is called meanwhile: a registered Wait can be left hanging for good if and only if it is not
      covered. */
  lemma MayHangUnlessCovered(s: Sched, ch: ChanId, id: RunId)
    requires Inv(s) && WaitsFor(s, ch, id) && id in s.store
    ensures MayHang(s, ch) <==> !Covered(s, ch, id)
  {
    hide Step, Enabled, Inv, Told, CanServe, IsServed, Stuck;
    Holds(s);
    if Covered(s, ch, id) {
      forall acts | Legal(s, acts)
        ensures CanServe(Exec(s, acts), ch)
      {
        CoveredForGood(s, acts, ch, id);
        RunKept(s, acts);
        if IsServed(Exec(s, acts), ch) {
          ServedNow(Exec(s, acts), ch);
        } else {
          CoveredCanBeServed(Exec(s, acts), ch, id);
        }
      }
    } else {
      var acts := RunsOut(s);
      UntoldForGood(s, acts, ch, id);
      RunKept(s, acts);
      UntoldAtRestIsSilent(Exec(s, acts), id);
      SilentIsHopeless(Exec(s, acts), ch, id);
    }
  }

  lemma UntoldAtRestIsSilent(s: Sched, id: RunId)
    requires Inv(s) && Stuck(s) && id in s.store && id in s.place && !Told(s, id)
    ensures Silent(s, id)
  {
    hide Inv, Stuck;
    StuckIsQuiescent(s);
  }

  lemma ServeLater(s: Sched, a: Action, ch: ChanId)
    requires Enabled(s, a) && CanServe(Step(s, a), ch)
    ensures CanServe(s, ch)
  {
    hide Step, Enabled, IsServed;
    var acts :| Legal(Step(s, a), acts) && IsServed(Exec(Step(s, a), acts), ch);
    Prepended(s, a, acts);
  }

  lemma ServedNow(s: Sched, ch: ChanId)
    requires IsServed(s, ch)
    ensures CanServe(s, ch)
  {
    assert Legal(s, []) && Exec(s, []) == s;
  }

  /** A Wait whose run's Submit is still under way can be helped by Close. */
  lemma {:induction false} CloseHelps(s: Sched, ch: ChanId, id: RunId)
    requires Inv(s) && WaitsFor(s, ch, id) && At(s, id).Submitting? && !s.closed
    ensures CanServe(s, ch)
    decreases Measure(s)
  {
    hide Step, Enabled, Inv, CanServe, Measure, WaitsFor;
    Holds(s);
    if Told(s, id) {
      CoveredCanBeServed(s, ch, id);
    } else if s.lock.Free? {
      DrainCovers(s, ch, id);
      StepKept(s, CloseDrain);
      CoveredCanBeServed(Step(s, CloseDrain), ch, id);
      ServeLater(s, CloseDrain, ch);
    } else {
      var a := LoopGoesOn(s);
      LoopKeepsSubmit(s, a, id);
      UntoldIsNotAnnounced(s, a, id);
      WaitsOn(s, a, ch, id);
      MeasureFalls(s, a);
      StepKept(s, a);
      CloseHelps(Step(s, a), ch, id);
      ServeLater(s, a, ch);
    }
  }

  lemma DrainCovers(s: Sched, ch: ChanId, id: RunId)
    requires Inv(s) && WaitsFor(s, ch, id) && At(s, id).Submitting? && s.lock.Free? && !s.closed
    ensures Enabled(s, CloseDrain) && Covered(Step(s, CloseDrain), ch, id)
  {
    hide Inv, NotifyDue;
    Parts(s);
  }

  lemma LoopKeepsSubmit(s: Sched, a: Action, id: RunId)
    requires Enabled(s, a) && OfDispatch(a) && Inv(s) && At(s, id).Submitting? && !s.closed
    ensures !Begins(a) && At(Step(s, a), id).Submitting? && !Step(s, a).closed
  {
    hide Step, Inv, Moving;
    Parts(s);
    Books(s, a);
    PlaceFollowsEdge(s, a, id);
    if Carries(s, a, id) {
      LoopCarriesNoSubmit(s, a, id);
    } else {
      PlaceEffect(s, a, id);
    }
  }

  lemma LoopCarriesNoSubmit(s: Sched, a: Action, id: RunId)
    requires HeapPlaces(s.heap, s.place) && HoldsRun(s.agents, s.lock, s.place) && s.store.Keys == s.place.Keys
    requires Enabled(s, a) && OfDispatch(a) && id in s.place && Carries(s, a, id)
    ensures !s.place[id].Submitting?
  {
  }

  /** With the help of others a registered Wait can still return if and only if its run is not silent. */
  lemma CanBeServedUnlessSilent(s: Sched, ch: ChanId, id: RunId)
    requires Inv(s) && WaitsFor(s, ch, id) && id in s.store
    ensures CanServe(s, ch) <==> !Silent(s, id)
  {
    hide Step, Enabled, Inv, CanServe, NotifyDue, WaitsFor;
    Holds(s);
    if Silent(s, id) {
      SilentIsHopeless(s, ch, id);
    } else if Told(s, id) {
      CoveredCanBeServed(s, ch, id);
    } else {
      CloseHelps(s, ch, id);
    }
  }

  // ---------------------------------------------------------------- runs that show both

  const DECIDED: Run := SAMPLE.(state := Cancelled, error := "cancelled")

  /** Cancel has written and notified while one Wait stands between its check and its registration. */
  function DecidedSample(sequence: nat, p: Place): Sched {
    Sample(multiset{}, multiset{0}).(sequence := sequence, store := map[0 := DECIDED], place := map[0 := p])
  }

  lemma CancelOvertakesWait()
    ensures Reached(DecidedSample(0, Submitting(SAMPLE)), 1)
  {
    hide Reached;
    SampleRead();
    var s0 := Sample(multiset{SAMPLE}, multiset{});
    ReachedStep(s0, WaitCheck(0), 1);
    var s1 := Sample(multiset{SAMPLE}, multiset{0});
    assert Step(s0, WaitCheck(0)) == s1;
    ReachedStep(s1, CancelWrite(SAMPLE), 1);
    var s2 := DecidedSample(0, Submitting(SAMPLE)).(notifying := multiset{DECIDED});
    assert Step(s1, CancelWrite(SAMPLE)) == s2;
    ReachedStep(s2, Notify(DECIDED), 1);
    assert Step(s2, Notify(DECIDED)) == DecidedSample(0, Submitting(SAMPLE));
  }

  lemma DispatchLetsGo()
    ensures Reached(DecidedSample(1, Settled), 1)
  {
    hide Reached;
    CancelOvertakesWait();
    var s3 := DecidedSample(0, Submitting(SAMPLE));
    ReachedStep(s3, SubmitEnqueue(0), 1);
    var s4 := Step(s3, SubmitEnqueue(0));
    ReachedStep(s4, DispatchPop(0), 1);
    var s5 := Step(s4, DispatchPop(0));
    ReachedStep(s5, DispatchInspect, 1);
    var s6 := Step(s5, DispatchInspect);
    ReachedStep(s6, DispatchDone, 1);
    assert Step(s6, DispatchDone) == DecidedSample(1, Settled);
  }

  /** The hanging Wait in one run: it checks while the run is queued, and registers after Cancel has
      written and notified. */
  lemma WaitCanHang()
    ensures exists s, ch :: Reached(s, 1) && WaitsFor(s, ch, 0) && !CanServe(s, ch)
  {
    hide Reached, CanServe, IsServed;
    DispatchLetsGo();
    var s7 := DecidedSample(1, Settled);
    ReachedStep(s7, WaitRegister(0, 0), 1);
    var s8 := Step(s7, WaitRegister(0, 0));
    ReachedInv(s8, 1);
    CanBeServedUnlessSilent(s8, 0, 0);
  }

  /** The same Wait registered while the run's Submit is still under way: it can be helped, and it can hang. */
  lemma WaitCanBeLeftHanging()
    ensures exists s, ch :: Reached(s, 1) && WaitsFor(s, ch, 0) && CanServe(s, ch) && MayHang(s, ch)
  {
    hide Reached, CanServe, MayHang, IsServed;
    CancelOvertakesWait();
    var s3 := DecidedSample(0, Submitting(SAMPLE));
    ReachedStep(s3, WaitRegister(0, 0), 1);
    var s4 := Step(s3, WaitRegister(0, 0));
    ReachedInv(s4, 1);
    CanBeServedUnlessSilent(s4, 0, 0);
    MayHangUnlessCovered(s4, 0, 0);
  }
}
