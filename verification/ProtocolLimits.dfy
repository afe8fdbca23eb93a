/**
 A terminal stored state is not always final.  This module gives the exact condition under which the
 stored outcome of a run can still change, and under which the run can even start running again.
 */
module ProtocolLimits {
  import opened Protocol
  import opened ProtocolInvariant
  import opened ProtocolTheorems

  // ---------------------------------------------------------------- running again

  /** Some continuation takes the stored run out of its terminal state. */
  ghost predicate CanRevive(s: Sched, id: RunId) {
    exists acts :: Legal(s, acts) && id in Exec(s, acts).store && !Terminal(Exec(s, acts).store[id].state)
  }

  predicate OnItsWayToThePool(s: Sched, id: RunId) {
    At(s, id).Offered? || At(s, id).Handed?
  }

  predicate Final(s: Sched, id: RunId) {
    id in s.store && id in s.place && Terminal(s.store[id].state) && !OnItsWayToThePool(s, id)
  }

  lemma StartWritesItsOwnRun(s: Sched, id: RunId)
    requires Inv(s) && Enabled(s, ExecStart(id))
    ensures Updated(s, ExecStart(id)).run.id == id && At(s, id).Handed?
  {
  }

  lemma FinalStep(s: Sched, a: Action, id: RunId)
    requires Inv(s) && Final(s, id) && Enabled(s, a)
    ensures Final(Step(s, a), id)
  {
    hide Step, Enabled, Updated, Inv;
    Parts(s);
    PlaceFollowsEdge(s, a, id);
    if s.place[id].Inspected? && Step(s, a).place[id].Offered? {
      OnlyQueuedGoesOn(s, a, id);
    }
    Stores(s, a);
    if a.SubmitCreate? {
      CreateIsNew(s, a);
    } else if a.ExecStart? {
      StartWritesItsOwnRun(s, a.id);
    } else if Updated(s, a).Wrote? {
      WritesDecided(s, a);
    }
  }

  lemma {:induction false} FinalForGood(s: Sched, acts: seq<Action>, id: RunId)
    requires Inv(s) && Final(s, id) && Legal(s, acts)
    ensures Final(Exec(s, acts), id)
    decreases |acts|
  {
    if acts != [] {
      FinalStep(s, acts[0], id);
      StepKept(s, acts[0]);
      FinalForGood(Step(s, acts[0]), acts[1..], id);
    }
  }

  lemma Prepended(s: Sched, a: Action, acts: seq<Action>)
    requires Enabled(s, a) && Legal(Step(s, a), acts)
    ensures Legal(s, [a] + acts) && Exec(s, [a] + acts) == Exec(Step(s, a), acts)
  {
    hide Step, Enabled;
    assert ([a] + acts)[1..] == acts;
  }

  lemma ReviveLater(s: Sched, a: Action, id: RunId)
    requires Enabled(s, a) && CanRevive(Step(s, a), id)
    ensures CanRevive(s, id)
  {
    hide Step, Enabled;
    var acts :| Legal(Step(s, a), acts) && id in Exec(Step(s, a), acts).store &&
                !Terminal(Exec(Step(s, a), acts).store[id].state);
    Prepended(s, a, acts);
  }

  lemma NotTerminalNow(s: Sched, id: RunId)
    requires id in s.store && !Terminal(s.store[id].state)
    ensures CanRevive(s, id)
  {
    assert Legal(s, []) && Exec(s, []) == s;
  }

  lemma AcceptHands(s: Sched)
    requires Enabled(s, PoolAccept)
    ensures At(Step(s, PoolAccept), s.lock.run.id).Handed? && Step(s, PoolAccept).store == s.store
  {
  }

  lemma StartRuns(s: Sched, id: RunId)
    requires Inv(s) && At(s, id).Handed?
    ensures Enabled(s, ExecStart(id)) && id in Step(s, ExecStart(id)).store
    ensures Step(s, ExecStart(id)).store[id].state == Running
  {
  }

  lemma PoolRevives(s: Sched, id: RunId)
    requires Inv(s) && id in s.store && OnItsWayToThePool(s, id)
    ensures CanRevive(s, id)
    decreases At(s, id).Offered?
  {
    hide Step, CanRevive;
    if At(s, id).Handed? {
      StartRuns(s, id);
      NotTerminalNow(Step(s, ExecStart(id)), id);
      ReviveLater(s, ExecStart(id), id);
    } else {
      assert s.lock.Offering? && s.lock.run.id == id;
      StepKept(s, PoolAccept);
      AcceptHands(s);
      PoolRevives(Step(s, PoolAccept), id);
      ReviveLater(s, PoolAccept, id);
    }
  }

  /** A run with a terminal stored state can go back to running exactly while it is between the dispatch
      loop's read and the start of its execution. */
  lemma RunsAgainOnlyIfOffered(s: Sched, id: RunId)
    requires Inv(s) && id in s.store && Terminal(s.store[id].state)
    ensures CanRevive(s, id) <==> OnItsWayToThePool(s, id)
  {
    hide Step, Enabled;
    if OnItsWayToThePool(s, id) {
      PoolRevives(s, id);
    } else {
      Parts(s);
      forall acts | Legal(s, acts)
        ensures id in Exec(s, acts).store && Terminal(Exec(s, acts).store[id].state)
      {
        FinalForGood(s, acts, id);
      }
    }
  }

  // ---------------------------------------------------------------- the stored outcome

  ghost predicate HasRun(runs: multiset<Run>, id: RunId) {
    exists r :: r in runs && r.id == id
  }

  lemma RunIn(runs: multiset<Run>, r: Run)
    requires r in runs
    ensures HasRun(runs, r.id)
  {
  }

  /** Some continuation leaves another state in the store. */
  ghost predicate OutcomeCanChange(s: Sched, id: RunId)
    requires id in s.store
  {
    exists acts :: Legal(s, acts) && id in Exec(s, acts).store && Exec(s, acts).store[id].state != s.store[id].state
  }

  /** The run's execution or its failed dispatch has still to write, or a Cancel has read it as queued and
      has still to write over another outcome. */
  ghost predicate StillOpen(s: Sched, id: RunId)
    requires id in s.store
  {
    || OnItsWayToThePool(s, id) || At(s, id).Executing? || At(s, id).Rejected?
    || (!s.store[id].state.Cancelled? && HasRun(s.cancelling, id))
  }

  /** The execution of the run has not begun and its dispatch has not failed. */
  predicate Unstarted(p: Place) {
    !p.Executing? && !p.Finished? && !p.Settled?
  }

  /** Before its execution begins a run is stored as queued or cancelled. */
  ghost predicate Early(s: Sched, id: RunId) {
    id in s.place && id in s.store && Unstarted(s.place[id]) ==>
      s.store[id].state.Queued? || s.store[id].state.Cancelled?
  }

  /** A write of another outcome than cancelled ends the early part of the run it is about. */
  lemma OtherOutcomesComeLate(s: Sched, a: Action)
    requires Inv(s) && Enabled(s, a) && Updated(s, a).Wrote? && !Updated(s, a).run.state.Cancelled?
    ensures Moving(s, a).Moves? && Moving(s, a).id == Updated(s, a).run.id && !Unstarted(Moving(s, a).to)
    ensures var p := At(s, Updated(s, a).run.id); p.Handed? || p.Executing? || p.Rejected?
  {
    hide Step, HeapShape, Capacity, StoreShape, Pending, OfferShape, Waiters;
    if a.ExecStart? || a.ExecFinish? {
      assert LocalCopy(s.agents, a.id, s.place[a.id]);
    }
  }

  lemma EarlyStep(s: Sched, a: Action, id: RunId)
    requires Inv(s) && Early(s, id) && Enabled(s, a)
    ensures Early(Step(s, a), id)
  {
    hide Step, Enabled, Updated, Moving, Inv, HeapPlaces, OfferShape, LockShape;
    Parts(s);
    Stores(s, a);
    Places(s, a);
    if id in s.place {
      PlaceFollowsEdge(s, a, id);
    }
    if a.SubmitCreate? {
      CreateIsNew(s, a);
    } else if Updated(s, a).Wrote? && !Updated(s, a).run.state.Cancelled? {
      OtherOutcomesComeLate(s, a);
    }
  }

  lemma {:induction false} EarlyForGood(s: Sched, acts: seq<Action>, id: RunId)
    requires Inv(s) && Early(s, id) && Legal(s, acts)
    ensures Early(Exec(s, acts), id)
    decreases |acts|
  {
    if acts != [] {
      EarlyStep(s, acts[0], id);
      StepKept(s, acts[0]);
      EarlyForGood(Step(s, acts[0]), acts[1..], id);
    }
  }

  /** A Cancel that joins in has read the run as queued. */
  lemma CancellingComes(s: Sched, a: Action, r: Run)
    requires Enabled(s, a) && r in Step(s, a).cancelling && r !in s.cancelling
    ensures a.CancelRead? && a.id in s.store && r == s.store[a.id] && r.state.Queued?
  {
    hide Step;
    Books(s, a);
  }

  lemma LocalIds(s: Sched, id: RunId)
    requires Inv(s) && id in s.place
    ensures id in s.store && s.store[id].id == id
    ensures s.place[id].Refused? || s.place[id].Closing? || s.place[id].Finished? ==> s.place[id].run.id == id
  {
    assert LocalCopy(s.agents, id, s.place[id]);
  }

  /** The outcome is decided for good. */
  ghost predicate Closed(s: Sched, id: RunId, outcome: RunState) {
    id in s.store && id in s.place && s.store[id].state == outcome && Terminal(outcome) && !StillOpen(s, id)
  }

  lemma ClosedPlaces(s: Sched, a: Action, id: RunId)
    requires Inv(s) && Enabled(s, a) && id in s.store && id in s.place && !s.store[id].state.Queued?
    requires !OnItsWayToThePool(s, id) && !At(s, id).Executing? && !At(s, id).Rejected?
    ensures var t := Step(s, a);
            id in t.place && !OnItsWayToThePool(t, id) && !At(t, id).Executing? && !At(t, id).Rejected?
  {
    hide Step, Enabled, Inv;
    Parts(s);
    PlaceFollowsEdge(s, a, id);
    if s.place[id].Inspected? && Step(s, a).place[id].Offered? {
      OnlyQueuedGoesOn(s, a, id);
    }
  }

  lemma ClosedStep(s: Sched, a: Action, id: RunId, outcome: RunState)
    requires Inv(s) && Early(s, id) && Closed(s, id, outcome) && Enabled(s, a)
    ensures Closed(Step(s, a), id, outcome)
  {
    hide Step, Enabled, Inv, Updated, Moving;
    ClosedPlaces(s, a, id);
    Stores(s, a);
    var t := Step(s, a);
    if a.SubmitCreate? {
      CreateIsNew(s, a);
    } else if Updated(s, a).Wrote? && Updated(s, a).run.id == id {
      if Updated(s, a).run.state.Cancelled? {
        CancelledWriter(s, a);
      } else {
        OtherOutcomesComeLate(s, a);
      }
    }
    if HasRun(t.cancelling, id) && !HasRun(s.cancelling, id) {
      var r :| r in t.cancelling && r.id == id;
      CancellingComes(s, a, r);
      LocalIds(s, id);
      StoredIds(s, a.id);
    }
  }

  lemma StoredIds(s: Sched, id: RunId)
    requires Inv(s) && id in s.store
    ensures s.store[id].id == id
  {
  }

  /** Who writes cancelled: a Cancel that has read the run, the owner of an unstarted run, or its execution. */
  lemma CancelledWriter(s: Sched, a: Action)
    requires Inv(s) && Enabled(s, a) && Updated(s, a).Wrote? && Updated(s, a).run.state.Cancelled?
    ensures var id := Updated(s, a).run.id;
            HasRun(s.cancelling, id) || At(s, id).Refused? || At(s, id).Closing? || At(s, id).Executing?
  {
    hide Step, Inv;
    if a.CancelWrite? {
      RunIn(s.cancelling, a.run);
    } else if !a.FailWrite? {
      OwnCopy(s, a.id);
    }
  }

  lemma {:induction false} ClosedOutcomeStays(s: Sched, acts: seq<Action>, id: RunId, outcome: RunState)
    requires Inv(s) && Early(s, id) && Closed(s, id, outcome) && Legal(s, acts)
    ensures Closed(Exec(s, acts), id, outcome)
    decreases |acts|
  {
    if acts != [] {
      ClosedStep(s, acts[0], id, outcome);
      EarlyStep(s, acts[0], id);
      StepKept(s, acts[0]);
      ClosedOutcomeStays(Step(s, acts[0]), acts[1..], id, outcome);
    }
  }

  lemma ChangesNow(s: Sched, a: Action, id: RunId)
    requires Enabled(s, a) && id in s.store && id in Step(s, a).store && Step(s, a).store[id].state != s.store[id].state
    ensures OutcomeCanChange(s, id)
  {
    hide Step, Enabled;
    assert Legal(Step(s, a), []) && Exec(Step(s, a), []) == Step(s, a);
    Prepended(s, a, []);
  }

  lemma RevivalChanges(s: Sched, id: RunId)
    requires id in s.store && Terminal(s.store[id].state) && CanRevive(s, id)
    ensures OutcomeCanChange(s, id)
  {
    hide Step, Enabled;
  }

  lemma OpenChanges(s: Sched, id: RunId)
    requires Inv(s) && Early(s, id) && id in s.store && Terminal(s.store[id].state) && StillOpen(s, id)
    ensures OutcomeCanChange(s, id)
  {
    hide Step, Inv, OutcomeCanChange, CanRevive;
    LocalKeys(s);
    if OnItsWayToThePool(s, id) {
      PoolRevives(s, id);
      RevivalChanges(s, id);
    } else if At(s, id).Executing? {
      var a := ExecFinish(id, if s.store[id].state.Succeeded? then Failed else Succeeded, "");
      LocalRunIds(s, id);
      Stores(s, a);
      ChangesNow(s, a, id);
    } else if At(s, id).Rejected? {
      RejectedHeld(s, id);
      Stores(s, FailWrite);
      ChangesNow(s, FailWrite, id);
    } else {
      var r :| r in s.cancelling && r.id == id;
      Stores(s, CancelWrite(r));
      ChangesNow(s, CancelWrite(r), id);
    }
  }

  lemma LocalKeys(s: Sched)
    requires Inv(s)
    ensures s.store.Keys == s.place.Keys
  {
  }

  lemma LocalRunIds(s: Sched, id: RunId)
    requires Inv(s) && At(s, id).Executing?
    ensures s.place[id].run.id == id
  {
    assert LocalCopy(s.agents, id, s.place[id]);
  }

  lemma RejectedHeld(s: Sched, id: RunId)
    requires Inv(s) && At(s, id).Rejected?
    ensures s.lock.Failing? && s.lock.run.id == id
  {
    assert Held(s.lock, s.place[id], id);
  }

  /** In every reachable state a terminal stored outcome can still change exactly while it is open: its dispatch
      or execution has still to write, or a Cancel that read it as queued has still to write over another outcome. */
  lemma OutcomeIsFinalUnlessOpen(maxConcurrent: int, acts: seq<Action>, id: RunId)
    requires Legal(New(maxConcurrent), acts)
    requires var s := Exec(New(maxConcurrent), acts); id in s.store && Terminal(s.store[id].state)
    ensures var s := Exec(New(maxConcurrent), acts); OutcomeCanChange(s, id) <==> StillOpen(s, id)
  {
    hide Step, Enabled, Legal, Exec, StillOpen, OutcomeCanChange, Inv, Early;
    NewIsEarly(maxConcurrent, id);
    NewInv(maxConcurrent);
    EarlyForGood(New(maxConcurrent), acts, id);
    Reachable(maxConcurrent, acts);
    var s := Exec(New(maxConcurrent), acts);
    if StillOpen(s, id) {
      OpenChanges(s, id);
    } else {
      LocalKeys(s);
      NeverChanges(s, id);
    }
  }

  lemma NewIsEarly(maxConcurrent: int, id: RunId)
    ensures Early(New(maxConcurrent), id)
  {
  }

  lemma NeverChanges(s: Sched, id: RunId)
    requires Inv(s) && Early(s, id) && id in s.store && id in s.place && Terminal(s.store[id].state)
    requires !StillOpen(s, id)
    ensures !OutcomeCanChange(s, id)
  {
    hide Step, Enabled, StillOpen;
    forall acts | Legal(s, acts)
      ensures id in Exec(s, acts).store && Exec(s, acts).store[id].state == s.store[id].state
    {
      ClosedOutcomeStays(s, acts, id, s.store[id].state);
    }
  }

  // ---------------------------------------------------------------- runs that show both

  /** The states that runs of a scheduler with the given limit reach. */
  ghost predicate Reached(s: Sched, maxConcurrent: int) {
    exists acts :: Legal(New(maxConcurrent), acts) && Exec(New(maxConcurrent), acts) == s
  }

  lemma ReachedNew(maxConcurrent: int)
    ensures Reached(New(maxConcurrent), maxConcurrent)
  {
    assert Legal(New(maxConcurrent), []) && Exec(New(maxConcurrent), []) == New(maxConcurrent);
  }

  lemma ReachedStep(s: Sched, a: Action, maxConcurrent: int)
    requires Reached(s, maxConcurrent) && Enabled(s, a)
    ensures Reached(Step(s, a), maxConcurrent)
  {
    hide Step, Enabled;
    var acts :| Legal(New(maxConcurrent), acts) && Exec(New(maxConcurrent), acts) == s;
    assert Legal(Step(s, a), []) && Exec(Step(s, a), []) == Step(s, a);
    Prepended(s, a, []);
    ExecConcat(New(maxConcurrent), acts, [a]);
  }

  lemma ReachedInv(s: Sched, maxConcurrent: int)
    requires Reached(s, maxConcurrent)
    ensures Inv(s)
  {
    var acts :| Legal(New(maxConcurrent), acts) && Exec(New(maxConcurrent), acts) == s;
    Reachable(maxConcurrent, acts);
  }

  const SAMPLE: Run := Run(0, "a", 0, Queued, "")

  function Sample(cancelling: multiset<Run>, checked: multiset<RunId>): Sched {
    Sched({"a"}, 1, map[], 0, 0, map[], {}, false, map[0 := SAMPLE], map[], Free, map[0 := Submitting(SAMPLE)],
          multiset{}, cancelling, multiset{}, checked, [])
  }

  lemma SampleReached()
    ensures Reached(Sample(multiset{}, multiset{}), 1)
  {
    hide Reached;
    var s0 := New(1);
    ReachedNew(1);
    ReachedStep(s0, Register("a"), 1);
    var s1 := Step(s0, Register("a"));
    ReachedStep(s1, SubmitEnter("a", 0), 1);
    var s2 := Step(s1, SubmitEnter("a", 0));
    ReachedStep(s2, SubmitCreate("a", 0, 0), 1);
    assert Step(s2, SubmitCreate("a", 0, 0)) == Sample(multiset{}, multiset{});
  }

  lemma SampleRead()
    ensures Reached(Sample(multiset{SAMPLE}, multiset{}), 1)
  {
    hide Reached;
    SampleReached();
    var s := Sample(multiset{}, multiset{});
    ReachedStep(s, CancelRead(0), 1);
    assert Step(s, CancelRead(0)) == Sample(multiset{SAMPLE}, multiset{});
  }

  /** The race in one run: Cancel reads the run as queued, the pool gets it, Cancel writes, and the
      start of the execution can still overwrite the terminal state. */
  lemma CancelledRunCanStart()
    ensures exists s :: Reached(s, 1) && 0 in s.store && s.store[0].state == Cancelled && CanRevive(s, 0)
  {
    hide Reached;
    SampleRead();
    var s0 := Sample(multiset{SAMPLE}, multiset{});
    ReachedStep(s0, SubmitEnqueue(0), 1);
    var s1 := Step(s0, SubmitEnqueue(0));
    ReachedStep(s1, DispatchPop(0), 1);
    var s2 := Step(s1, DispatchPop(0));
    ReachedStep(s2, DispatchInspect, 1);
    var s3 := Step(s2, DispatchInspect);
    ReachedStep(s3, PoolAccept, 1);
    var s4 := Step(s3, PoolAccept);
    ReachedStep(s4, CancelWrite(SAMPLE), 1);
    var s5 := Step(s4, CancelWrite(SAMPLE));
    assert s5.store[0].state == Cancelled && At(s5, 0).Handed?;
    ReachedInv(s5, 1);
    RunsAgainOnlyIfOffered(s5, 0);
  }

  const STARTED: Run := SAMPLE.(state := Running)
  const SUCCEEDED: Run := SAMPLE.(state := Succeeded)

  function StaleSample(stored: Run, p: Place, cancels: set<RunId>): Sched {
    Sample(multiset{SAMPLE}, multiset{}).(sequence := 1, store := map[0 := stored], place := map[0 := p],
                                          running := |cancels|, cancels := cancels, lock := Dispatching, offers := [0])
  }

  lemma StaleReached()
    ensures Reached(StaleSample(SAMPLE, Handed(SAMPLE), {0}), 1)
  {
    hide Reached;
    SampleRead();
    var s0 := Sample(multiset{SAMPLE}, multiset{});
    ReachedStep(s0, SubmitEnqueue(0), 1);
    var s1 := Step(s0, SubmitEnqueue(0));
    ReachedStep(s1, DispatchPop(0), 1);
    var s2 := Step(s1, DispatchPop(0));
    ReachedStep(s2, DispatchInspect, 1);
    var s3 := Step(s2, DispatchInspect);
    ReachedStep(s3, PoolAccept, 1);
    assert Step(s3, PoolAccept) == StaleSample(SAMPLE, Handed(SAMPLE), {0});
  }

  lemma SucceededReached()
    ensures Reached(StaleSample(SUCCEEDED, Finished(SUCCEEDED), {0}), 1)
  {
    hide Reached;
    StaleReached();
    var s4 := StaleSample(SAMPLE, Handed(SAMPLE), {0});
    ReachedStep(s4, ExecStart(0), 1);
    var s5 := StaleSample(STARTED, Executing(STARTED), {0});
    assert Step(s4, ExecStart(0)) == s5;
    ReachedStep(s5, ExecFinish(0, Succeeded, ""), 1);
    assert Step(s5, ExecFinish(0, Succeeded, "")) == StaleSample(SUCCEEDED, Finished(SUCCEEDED), {0});
  }

  /** A stale Cancel stores `cancelled` over `succeeded`: it read the run as queued before the execution began. */
  lemma SucceededRunCanBecomeCancelled()
    ensures exists s :: Reached(s, 1) && 0 in s.store && s.store[0].state == Succeeded && OutcomeCanChange(s, 0) &&
                        !CanRevive(s, 0)
  {
    hide Reached, Step, OutcomeCanChange, CanRevive;
    SucceededReached();
    var s := StaleSample(SUCCEEDED, Finished(SUCCEEDED), {0});
    ReachedInv(s, 1);
    Stores(s, CancelWrite(SAMPLE));
    ChangesNow(s, CancelWrite(SAMPLE), 0);
    RunsAgainOnlyIfOffered(s, 0);
  }
}
