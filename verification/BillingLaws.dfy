/** What the billing service does to a stored row and to an invoice, event by event, in the words of Stripe. */
module BillingLaws {
  import opened Text
  import opened Billing
  import opened BillingTheorems

  // ---------------------------------------------------------------- moves

  /** The nine moves there are. */
  const MOVES: set<(State, Transition, State)> := {
    (Trialing, Activate, Active), (Trialing, Cancel, Canceled),
    (Active, MarkPastDue, PastDue), (Active, Pause, Paused), (Active, Cancel, Canceled),
    (PastDue, Recover, Active), (PastDue, Cancel, Canceled),
    (Paused, Resume, Active), (Paused, Cancel, Canceled)}

  lemma TableIsMoves(from: State, t: Transition)
    ensures NextState(from, t).Some? ==> (from, t, NextState(from, t).value) in MOVES
    ensures NextState(from, t).None? ==> forall to :: (from, t, to) !in MOVES
  {
  }

  lemma OneTarget(from: State, t: Transition, a: State, b: State)
    requires (from, t, a) in MOVES && (from, t, b) in MOVES
    ensures a == b
  {
  }

  /** A move of a stored row succeeds exactly for the nine moves; it changes state and time of this row alone. */
  lemma MoveLaw(r: Repo, tenant: string, id: string, t: Transition, now: int, wall: int, to: State)
    requires Inv(r) && At(r.subs, tenant, id).Some?
    ensures var row, done := At(r.subs, tenant, id).value, Move(r, tenant, id, t, now, wall);
            var at := if now != ZERO_TIME then now else wall;
            && ((row.state, t, to) in MOVES ==>
                  done.error == None && At(done.repo.subs, tenant, id) == Some(row.(state := to, updatedAt := at)))
            && (done.error.None? ==> exists next :: (row.state, t, next) in MOVES)
            && (done.error.Some? ==> done.error == Some(InvalidTransition) && done.repo == r)
  {
    hide At, Put, IndexSound, IndexComplete, NextState, MOVES;
    var row := At(r.subs, tenant, id).value;
    RowIsKeyed(r, tenant, id);
    TableIsMoves(row.state, t);
    if NextState(row.state, t).Some? && (row.state, t, to) in MOVES {
      OneTarget(row.state, t, to, NextState(row.state, t).value);
    }
  }

  /** Activation makes a trial and a past-due subscription active, and no other one. */
  lemma ActivationLaw(r: Repo, tenant: string, id: string, c: Clock)
    requires Inv(r) && At(r.subs, tenant, id).Some?
    ensures var row, done := At(r.subs, tenant, id).value, ActivateSub(r, tenant, id, c);
            if row.state == Trialing || row.state == PastDue then
              && done.error == None && At(done.repo.subs, tenant, id).Some?
              && At(done.repo.subs, tenant, id).value.state == Active
            else done.error == Some(InvalidTransition) && done.repo == r
  {
    hide At, Move, IndexSound, IndexComplete, MOVES;
    RowIsKeyed(r, tenant, id);
    MoveLaw(r, tenant, id, Activate, c.first, c.wall, Active);
    MoveLaw(r, tenant, id, Recover, c.first, c.wall, Active);
    ActiveMoves();
  }

  lemma ActiveMoves()
    ensures (Trialing, Activate, Active) in MOVES && (PastDue, Recover, Active) in MOVES
    ensures forall s, to | (s, Activate, to) in MOVES :: s == Trialing
  {
  }

  // ---------------------------------------------------------------- new rows

  predicate Given(s: string) {
    TrimSpace(s) != ""
  }

  /** What a factory input becomes: the row that a creation inserts, or the first thing that is wrong. */
  lemma CreationLaw(r: Repo, i: Input, c: Clock)
    ensures var done := CreateSubscription(r, i, true, c);
            var at := if i.now != ZERO_TIME then i.now else if c.first != ZERO_TIME then c.first else c.wall;
            if !Given(i.id) then done == Step(r, Some(NotFound))
            else if !Given(i.tenantID) then done == Step(r, Some(TenantRequired))
            else if !Given(i.planID) then done == Step(r, Some(PlanNotFound))
            else if i.state.Unlisted? && i.state.text != "" then done == Step(r, Some(InvalidState))
            else if At(r.subs, i.tenantID, i.id).Some? then done == Step(r, Some(AlreadyExists))
            else
              && done.error == None
              && At(done.repo.subs, i.tenantID, i.id) ==
                 Some(Subscription(i.id, i.tenantID, i.planID, if i.state.Unlisted? then Trialing else i.state,
                                   TrimSpace(i.stripeID), TrimSpace(i.customerID), i.periodStart, i.periodEnd, false,
                                   at, at))
              && (TrimSpace(i.stripeID) != "" ==>
                    At(done.repo.index, i.tenantID, TrimSpace(i.stripeID)) == Some(i.id))
  {
    hide TrimSpace, At, Put;
    EmptyTrims();
  }

  // ---------------------------------------------------------------- subscription events

  /** An event that has not been delivered before. */
  predicate Unseen(r: Repo, b: Body) {
    b.Event? && b.id != "" && b.id !in r.events
  }

  predicate Updates(b: Body) {
    b.Event? && (b.typ.SubscriptionCreated? || b.typ.SubscriptionUpdated?) && b.sub.Some?
  }

  /** The state that Stripe's word for it stands for. */
  ghost predicate Means(status: string, state: State) {
    && (status == "trialing" ==> state == Trialing)
    && (status == "active" ==> state == Active)
    && (status in {"past_due", "unpaid"} ==> state == PastDue)
    && (status == "paused" ==> state == Paused)
    && (status in {"canceled", "incomplete_expired"} ==> state == Canceled)
    && (status !in {"trialing", "active", "past_due", "unpaid", "paused", "canceled", "incomplete_expired"} ==>
          state == Active)
  }

  lemma MappedMeans(status: string)
    ensures Means(status, MapStripeStatus(status))
  {
  }

  /** An unseen subscription event for a known Stripe id leaves the row in the state that the status names, takes
      over the periods that are given, and changes nothing else of it but the time of the update. */
  lemma UpdateLaw(r: Repo, b: Body, c: Clock)
    requires Inv(r) && Unseen(r, b) && Updates(b) && GetByStripeID(r, b.sub.value.tenantID, b.sub.value.id).Ok?
    ensures var s, done := b.sub.value, Process(r, b, c);
            var row := GetByStripeID(r, s.tenantID, s.id).value;
            var after := At(done.repo.subs, s.tenantID, row.id);
            && done.error == None && after.Some? && Means(s.status, after.value.state)
            && after.value == row.(state := after.value.state, updatedAt := c.second,
                                   periodStart := if s.periodStart == ZERO_TIME then row.periodStart else s.periodStart,
                                   periodEnd := if s.periodEnd == ZERO_TIME then row.periodEnd else s.periodEnd)
            && GetByStripeID(done.repo, s.tenantID, s.id) == Ok(after.value) && Inv(done.repo)
            && done.repo.events == r.events[b.id := EventRow(b.typ, c.wall)]
  {
    hide At, Put, Inv, TrimSpace, MapStripeStatus, GetByStripeID, Means, Refreshed;
    var s := b.sub.value;
    var row := GetByStripeID(r, s.tenantID, s.id).value;
    LookupIsStored(r, s.tenantID, s.id);
    NoTenantNoLookup(r, s.id);
    MappedMeans(s.status);
    RefreshLaw(row, s, c);
    ActKeeps(r, Deliver(b, c));
    FoundAgain(r, Process(r, b, c).repo, row, Refreshed(row, UpsertInput(s), c.second));
  }

  lemma RefreshLaw(row: Subscription, s: StripeSubscription, c: Clock)
    ensures Refreshed(row, UpsertInput(s), c.second) ==
            row.(state := MapStripeStatus(s.status), updatedAt := c.second,
                 periodStart := if s.periodStart == ZERO_TIME then row.periodStart else s.periodStart,
                 periodEnd := if s.periodEnd == ZERO_TIME then row.periodEnd else s.periodEnd)
  {
  }

  /** A row that is stored again under its own Stripe id is found again. */
  lemma FoundAgain(r: Repo, q: Repo, row: Subscription, next: Subscription)
    requires Inv(r) && GetByStripeID(r, row.tenantID, row.stripeID) == Ok(row)
    requires next.id == row.id && next.tenantID == row.tenantID && next.stripeID == row.stripeID
    requires q.subs == Store(r, next).subs && q.index == Store(r, next).index
    ensures At(q.subs, next.tenantID, next.id) == Some(next)
    ensures GetByStripeID(q, next.tenantID, next.stripeID) == Ok(next)
  {
    hide At, Put;
    LookupIsStored(r, row.tenantID, row.stripeID);
  }

  /** An unseen subscription event for an unknown Stripe id creates the row under that id. */
  lemma ArrivalLaw(r: Repo, b: Body, c: Clock)
    requires Inv(r) && Unseen(r, b) && Updates(b)
    requires var s := b.sub.value;
             && Given(s.id) && Given(s.tenantID) && Given(s.planID)
             && GetByStripeID(r, s.tenantID, s.id) == Err(NotFound) && At(r.subs, s.tenantID, s.id).None?
    ensures var s, done := b.sub.value, Process(r, b, c);
            var at := if c.first != ZERO_TIME then c.first else c.wall;
            var after := At(done.repo.subs, s.tenantID, s.id);
            && done.error == None && after.Some? && Means(s.status, after.value.state)
            && after.value == Subscription(s.id, s.tenantID, s.planID, after.value.state, TrimSpace(s.id),
                                           TrimSpace(s.customer), s.periodStart, s.periodEnd, false, at, at)
  {
    hide At, Put, Inv, TrimSpace, MapStripeStatus, GetByStripeID, Means, NewSubscription, Store, Given;
    var s := b.sub.value;
    EmptyIsNotGiven();
    MappedMeans(s.status);
    FactoryLaw(s, c);
    StoredRow(r, NewSubscription(Stamped(UpsertInput(s), c), c.wall).value);
  }

  lemma EmptyIsNotGiven()
    ensures !Given("")
  {
    EmptyTrims();
  }

  lemma FactoryLaw(s: StripeSubscription, c: Clock)
    requires Given(s.id) && Given(s.tenantID) && Given(s.planID)
    ensures var at := if c.first != ZERO_TIME then c.first else c.wall;
            NewSubscription(Stamped(UpsertInput(s), c), c.wall) ==
            Ok(Subscription(s.id, s.tenantID, s.planID, MapStripeStatus(s.status), TrimSpace(s.id),
                            TrimSpace(s.customer), s.periodStart, s.periodEnd, false, at, at))
  {
    hide TrimSpace, MapStripeStatus;
  }

  lemma StoredRow(r: Repo, s: Subscription)
    ensures At(Store(r, s).subs, s.tenantID, s.id) == Some(s)
  {
    hide At, Put;
  }

  /** An unseen deletion cancels the row of a known Stripe id and accepts an unknown one. */
  lemma DeletionLaw(r: Repo, b: Body, c: Clock)
    requires Inv(r) && Unseen(r, b) && b.typ == SubscriptionDeleted && b.sub.Some?
    requires b.sub.value.id != "" && b.sub.value.tenantID != ""
    ensures var s, done := b.sub.value, Process(r, b, c);
            match GetByStripeID(r, s.tenantID, s.id)
            case Err(_) => done.error == None && done.repo.subs == r.subs
            case Ok(row) =>
              if row.state == Canceled then done == Step(r, Some(InvalidTransition))
              else
                && done.error == None && At(done.repo.subs, s.tenantID, row.id).Some?
                && At(done.repo.subs, s.tenantID, row.id).value.state == Canceled
  {
    hide At, Put, Inv, GetByStripeID, Move, MOVES;
    var s := b.sub.value;
    if GetByStripeID(r, s.tenantID, s.id).Err? {
      OnlyNotFound(r, s.tenantID, s.id);
    } else {
      LookupIsStored(r, s.tenantID, s.id);
      var row := GetByStripeID(r, s.tenantID, s.id).value;
      MoveLaw(r, s.tenantID, row.id, Cancel, c.first, c.wall, Canceled);
      CancelMoves(row.state);
    }
  }

  lemma OnlyNotFound(r: Repo, tenant: string, stripeID: string)
    requires tenant != "" && GetByStripeID(r, tenant, stripeID).Err?
    ensures GetByStripeID(r, tenant, stripeID) == Err(NotFound)
  {
  }

  lemma CancelMoves(s: State)
    ensures (s, Cancel, Canceled) in MOVES <==> s in {Trialing, Active, PastDue, Paused}
    ensures s == Canceled ==> forall t, to :: (s, t, to) !in MOVES
  {
  }

  // ---------------------------------------------------------------- payment events

  predicate Pays(r: Repo, b: Body) {
    && Unseen(r, b) && (b.typ.PaymentSucceeded? || b.typ.PaymentFailed?)
    && b.inv.Some? && b.inv.value.id != "" && b.inv.value.tenantID != ""
  }

  /** A payment event stores the invoice as Stripe reports it, paid or uncollectible; the first creation time of an
      invoice stays. */
  lemma InvoiceLaw(r: Repo, b: Body, c: Clock)
    requires Pays(r, b)
    ensures var i, done := b.inv.value, Process(r, b, c);
            var old_ := At(r.invoices, i.tenantID, i.id);
            var created := if old_.Some? && old_.value.createdAt != ZERO_TIME then old_.value.createdAt else c.first;
            && done.error == None
            && At(done.repo.invoices, i.tenantID, i.id) ==
               Some(Invoice(i.id, i.tenantID, i.subscription, i.amountDue, i.currency,
                            if b.typ.PaymentSucceeded? then Paid else Uncollectible, i.periodStart, i.periodEnd,
                            created, c.first))
  {
    hide At, Put, Move, GetByStripeID;
    var i := b.inv.value;
    InvoiceTouches(r, b.inv, Paid, {PastDue}, Recover, c);
    InvoiceTouches(r, b.inv, Uncollectible, {Active, Trialing}, MarkPastDue, c);
  }

  /** A successful payment makes a past-due subscription active and moves no other row; a failed one makes an active
      subscription past due and moves no other row. */
  lemma PaymentLaw(r: Repo, b: Body, c: Clock)
    requires Inv(r) && Pays(r, b)
    ensures var i, done := b.inv.value, Process(r, b, c);
            var got := GetByStripeID(r, i.tenantID, i.subscription);
            var moved := got.Ok? && got.value.state == if b.typ.PaymentSucceeded? then PastDue else Active;
            if moved then
              At(done.repo.subs, i.tenantID, got.value.id) ==
              Some(got.value.(state := if b.typ.PaymentSucceeded? then Active else PastDue,
                              updatedAt := if c.second != ZERO_TIME then c.second else c.wall))
            else done.repo.subs == r.subs
  {
    hide At, Put, Inv, GetByStripeID, Move, MOVES;
    var i := b.inv.value;
    var (status, from, t) := if b.typ.PaymentSucceeded? then (Paid, {PastDue}, Recover)
                             else (Uncollectible, {Active, Trialing}, MarkPastDue);
    var stored := UpsertInvoice(r, InvoiceOf(i, status), c.first).repo;
    LookupSkipsInvoices(r, stored, i.tenantID, i.subscription);
    InvoiceKeepsRows(r, stored);
    if GetByStripeID(r, i.tenantID, i.subscription).Ok? {
      LookupIsStored(r, i.tenantID, i.subscription);
      var row := GetByStripeID(r, i.tenantID, i.subscription).value;
      MoveLaw(stored, i.tenantID, row.id, t, c.second, c.wall, if b.typ.PaymentSucceeded? then Active else PastDue);
      PaymentMoves();
    } else {
      NothingUnder(r, i.tenantID);
    }
  }

  lemma InvoiceKeepsRows(r: Repo, q: Repo)
    requires Inv(r) && q.subs == r.subs && q.index == r.index
    ensures Inv(q)
  {
  }

  lemma NothingUnder(r: Repo, tenant: string)
    requires Inv(r)
    ensures GetByStripeID(r, tenant, "").Err?
  {
    hide At;
  }

  lemma PaymentMoves()
    ensures (PastDue, Recover, Active) in MOVES && (Active, MarkPastDue, PastDue) in MOVES
    ensures forall to :: (Trialing, MarkPastDue, to) !in MOVES
  {
  }

  // ---------------------------------------------------------------- events that are refused

  /** A delivery is refused as malformed exactly when its event has no id, or is new and lacks what its type needs: a
      subscription with id and tenant, or an invoice with an id. */
  lemma MalformedLaw(r: Repo, b: Body, c: Clock)
    ensures Process(r, b, c).error == Some(BadPayload) <==>
            || b.Garbled? || b.id == ""
            || (b.id !in r.events &&
                match b.typ
                case SubscriptionCreated => b.sub.None? || b.sub.value.id == "" || b.sub.value.tenantID == ""
                case SubscriptionUpdated => b.sub.None? || b.sub.value.id == "" || b.sub.value.tenantID == ""
                case SubscriptionDeleted => b.sub.None? || b.sub.value.id == "" || b.sub.value.tenantID == ""
                case PaymentSucceeded => b.inv.None? || b.inv.value.id == ""
                case PaymentFailed => b.inv.None? || b.inv.value.id == ""
                case Other(_) => false)
  {
    hide Move, GetByStripeID, UpsertFromStripe, At, Put, UpsertInput;
    if Unseen(r, b) {
      if b.sub.Some? {
        NoMalformedUpsert(r, UpsertInput(b.sub.value), c);
        NoMalformedDeletion(r, b.sub.value, c);
      }
    }
  }

  lemma NoMalformedUpsert(r: Repo, i: Input, c: Clock)
    ensures UpsertFromStripe(r, i, c).error != Some(BadPayload)
  {
    hide At, Put, Store;
  }

  lemma NoMalformedDeletion(r: Repo, s: StripeSubscription, c: Clock)
    ensures GetByStripeID(r, s.tenantID, s.id) != Err(BadPayload)
    ensures forall tenant, id :: Move(r, tenant, id, Cancel, c.first, c.wall).error != Some(BadPayload)
  {
    hide At, Put, Store, NextState;
  }

  /** A new payment event without a tenant is refused for that. Any other type of event is recorded, and nothing
      else happens. A delivery that was seen before changes nothing. */
  lemma OtherDeliveries(r: Repo, b: Body, c: Clock)
    requires b.Event? && b.id != ""
    ensures (&& Unseen(r, b) && (b.typ.PaymentSucceeded? || b.typ.PaymentFailed?)
             && b.inv.Some? && b.inv.value.id != "" && b.inv.value.tenantID == "") ==>
              Process(r, b, c) == Step(r, Some(TenantRequired))
    ensures Unseen(r, b) && b.typ.Other? ==>
              Process(r, b, c) == Step(r.(events := r.events[b.id := EventRow(b.typ, c.wall)]), None)
    ensures !Unseen(r, b) ==> Process(r, b, c) == Step(r, None)
  {
    hide At, Put, Move, GetByStripeID;
  }

  // ---------------------------------------------------------------- events in a row

  /** An event that says past due or unpaid, and then a successful payment: the subscription is active. */
  lemma PastDueThenPaid(r: Repo, b: Body, c: Clock, paid: Body, d: Clock)
    requires Inv(r) && Unseen(r, b) && Updates(b) && GetByStripeID(r, b.sub.value.tenantID, b.sub.value.id).Ok?
    requires b.sub.value.status == "past_due" || b.sub.value.status == "unpaid"
    requires Pays(Process(r, b, c).repo, paid) && paid.typ == PaymentSucceeded
    requires paid.inv.value.tenantID == b.sub.value.tenantID && paid.inv.value.subscription == b.sub.value.id
    ensures var got := GetByStripeID(r, b.sub.value.tenantID, b.sub.value.id).value;
            var after := At(Process(Process(r, b, c).repo, paid, d).repo.subs, b.sub.value.tenantID, got.id);
            after.Some? && after.value.state == Active
  {
    hide Inv, Process, GetByStripeID, At, Unseen;
    UpdateLaw(r, b, c);
    PaymentLaw(Process(r, b, c).repo, paid, d);
    SameRow(r, b, c);
  }

  lemma SameRow(r: Repo, b: Body, c: Clock)
    requires Inv(r) && Unseen(r, b) && Updates(b) && GetByStripeID(r, b.sub.value.tenantID, b.sub.value.id).Ok?
    ensures var s := b.sub.value;
            var after := GetByStripeID(Process(r, b, c).repo, s.tenantID, s.id);
            after.Ok? && after.value.id == GetByStripeID(r, s.tenantID, s.id).value.id
  {
    hide Inv, Process, GetByStripeID, At;
    UpdateLaw(r, b, c);
  }

  /** An event that says paused, and then Resume: the subscription is active. */
  lemma PausedThenResumed(r: Repo, b: Body, c: Clock, now: int, wall: int)
    requires Inv(r) && Unseen(r, b) && Updates(b) && GetByStripeID(r, b.sub.value.tenantID, b.sub.value.id).Ok?
    requires b.sub.value.status == "paused"
    ensures var got := GetByStripeID(r, b.sub.value.tenantID, b.sub.value.id).value;
            var done := Move(Process(r, b, c).repo, b.sub.value.tenantID, got.id, Resume, now, wall);
            var after := At(done.repo.subs, b.sub.value.tenantID, got.id);
            done.error == None && after.Some? && after.value.state == Active
  {
    hide Inv, Process, GetByStripeID, At, Unseen, Move, MOVES;
    UpdateLaw(r, b, c);
    var got := GetByStripeID(r, b.sub.value.tenantID, b.sub.value.id).value;
    MoveLaw(Process(r, b, c).repo, b.sub.value.tenantID, got.id, Resume, now, wall, Active);
    assert (Paused, Resume, Active) in MOVES by { ResumeMoves(); }
  }

  lemma ResumeMoves()
    ensures (Paused, Resume, Active) in MOVES
  {
  }

  /** After an event that says canceled every move of the subscription fails and changes nothing. */
  lemma CanceledThenStuck(r: Repo, b: Body, c: Clock, t: Transition, now: int, wall: int)
    requires Inv(r) && Unseen(r, b) && Updates(b) && GetByStripeID(r, b.sub.value.tenantID, b.sub.value.id).Ok?
    requires b.sub.value.status == "canceled" || b.sub.value.status == "incomplete_expired"
    ensures var got := GetByStripeID(r, b.sub.value.tenantID, b.sub.value.id).value;
            var after := Process(r, b, c).repo;
            Move(after, b.sub.value.tenantID, got.id, t, now, wall) == Step(after, Some(InvalidTransition))
  {
    hide Inv, Process, GetByStripeID, At, Unseen, Move, MOVES;
    UpdateLaw(r, b, c);
    var got := GetByStripeID(r, b.sub.value.tenantID, b.sub.value.id).value;
    MoveLaw(Process(r, b, c).repo, b.sub.value.tenantID, got.id, t, now, wall, Active);
    CancelMoves(Canceled);
  }
}
