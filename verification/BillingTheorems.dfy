/** What every run of the billing service keeps, and that replayed webhooks are invisible. */
module BillingTheorems {
  import opened Text
  import opened Billing

  // ---------------------------------------------------------------- the invariant

  /** A row that the factory could have made. */
  predicate Fit(s: Subscription) {
    !s.cancelAtPeriodEnd && !s.state.Unlisted?
  }

  /** Every row sits under its own tenant and id. */
  ghost predicate Keyed(subs: Table<Subscription>) {
    forall t, id :: At(subs, t, id).Some? ==>
                      && t != "" && At(subs, t, id).value.tenantID == t && At(subs, t, id).value.id == id
                      && Fit(At(subs, t, id).value)
  }

  /** The index names only rows that carry the Stripe id. */
  ghost predicate IndexSound(subs: Table<Subscription>, index: Table<string>) {
    forall t, s :: At(index, t, s).Some? ==>
                     && s != "" && At(subs, t, At(index, t, s).value).Some?
                     && At(subs, t, At(index, t, s).value).value.stripeID == s
  }

  /** Every row that carries a Stripe id can be found by it. */
  ghost predicate IndexComplete(subs: Table<Subscription>, index: Table<string>) {
    forall t, id :: At(subs, t, id).Some? && At(subs, t, id).value.stripeID != "" ==>
                      At(index, t, At(subs, t, id).value.stripeID).Some?
  }

  ghost predicate Inv(r: Repo) {
    Keyed(r.subs) && IndexSound(r.subs, r.index) && IndexComplete(r.subs, r.index)
  }

  lemma EmptyHolds()
    ensures Inv(EMPTY)
  {
  }

  /** The index still names the row by a Stripe id that the new row no longer carries. */
  predicate Orphans(r: Repo, s: Subscription) {
    && At(r.subs, s.tenantID, s.id).Some?
    && var old_ := At(r.subs, s.tenantID, s.id).value.stripeID;
       old_ != s.stripeID && At(r.index, s.tenantID, old_) == Some(s.id)
  }

  /** Storing a row keeps the invariant exactly when the row is fit and its old Stripe id is not left behind. */
  lemma StoreKeeps(r: Repo, s: Subscription)
    requires Inv(r) && s.tenantID != ""
    ensures Inv(Store(r, s)) <==> Fit(s) && !Orphans(r, s)
  {
    hide At, Put, Fit;
    var next := Store(r, s);
    assert At(next.subs, s.tenantID, s.id) == Some(s);
    if Orphans(r, s) {
      var stale := At(r.subs, s.tenantID, s.id).value.stripeID;
      assert At(next.index, s.tenantID, stale) == Some(s.id);
    }
  }

  lemma CreateKeeps(r: Repo, s: Subscription)
    requires Inv(r)
    ensures Inv(Create(r, s).repo) <==> Create(r, s).error.Some? || Fit(s)
  {
    hide Inv, Store, At, Fit;
    if Create(r, s).error.None? {
      StoreKeeps(r, s);
    }
  }

  lemma MoveKeeps(r: Repo, tenant: string, id: string, t: Transition, now: int, wall: int)
    requires Inv(r)
    ensures Inv(Move(r, tenant, id, t, now, wall).repo)
  {
    hide IndexSound, IndexComplete, Store, At, NextState, Inv;
    var got := Get(r, tenant, id);
    if got.Ok? {
      RowIsKeyed(r, tenant, id);
      if Apply(got.value, t, now, wall).Ok? {
        TableIsListed(got.value.state, t);
        StoreKeeps(r, Apply(got.value, t, now, wall).value);
      }
    }
  }

  lemma TableIsListed(from: State, t: Transition)
    requires NextState(from, t).Some?
    ensures !NextState(from, t).value.Unlisted?
  {
  }

  lemma RowIsKeyed(r: Repo, tenant: string, id: string)
    requires Inv(r) && At(r.subs, tenant, id).Some?
    ensures var s := At(r.subs, tenant, id).value;
            s.tenantID == tenant && s.id == id && tenant != "" && Fit(s)
  {
    hide At, IndexSound, IndexComplete;
  }

  /** A successful lookup by Stripe id returns a stored row that carries it. */
  lemma LookupIsStored(r: Repo, tenant: string, stripeID: string)
    requires Inv(r) && GetByStripeID(r, tenant, stripeID).Ok?
    ensures var s := GetByStripeID(r, tenant, stripeID).value;
            && s.tenantID == tenant && At(r.subs, tenant, s.id) == Some(s) && s.stripeID == stripeID && stripeID != ""
            && tenant != "" && Fit(s)
  {
    hide At, IndexComplete;
  }

  /** An upsert keeps the invariant unless it writes a state that is none of the five over a known row. */
  lemma UpsertKeeps(r: Repo, i: Input, c: Clock)
    requires Inv(r)
    ensures Inv(UpsertFromStripe(r, i, c).repo) <==>
            !(i.state.Unlisted? && i.state != NO_STATE && GetByStripeID(r, i.tenantID, i.stripeID).Ok?)
  {
    hide Inv, Store, At, Create, GetByStripeID, TrimSpace;
    var got := GetByStripeID(r, i.tenantID, i.stripeID);
    if got.Ok? {
      LookupIsStored(r, i.tenantID, i.stripeID);
      StoreKeeps(r, Refreshed(got.value, i, c.second));
    } else if NewSubscription(Stamped(i, c), c.wall).Ok? {
      CreateKeeps(r, NewSubscription(Stamped(i, c), c.wall).value);
    }
  }

  lemma DispatchKeeps(r: Repo, b: Body, c: Clock)
    requires Inv(r)
    ensures Inv(Dispatch(r, b, c).repo)
  {
    hide Inv, UpsertFromStripe, GetByStripeID, Move, At, Put, MapStripeStatus;
    if !b.Garbled? && b.id != "" {
      match b.typ
      case SubscriptionCreated => UpsertHandled(r, b.sub, c);
      case SubscriptionUpdated => UpsertHandled(r, b.sub, c);
      case SubscriptionDeleted =>
        if b.sub.Some? && GetByStripeID(r, b.sub.value.tenantID, b.sub.value.id).Ok? {
          var s := GetByStripeID(r, b.sub.value.tenantID, b.sub.value.id).value;
          MoveKeeps(r, s.tenantID, s.id, Cancel, c.first, c.wall);
        }
      case PaymentSucceeded => InvoiceHandled(r, b.inv, Paid, {PastDue}, Recover, c);
      case PaymentFailed => InvoiceHandled(r, b.inv, Uncollectible, {Active, Trialing}, MarkPastDue, c);
      case Other(_) =>
    }
  }

  lemma UpsertHandled(r: Repo, sub: Option<StripeSubscription>, c: Clock)
    requires Inv(r)
    ensures Inv(HandleUpsert(r, sub, c).repo)
  {
    hide Inv, UpsertFromStripe, MapStripeStatus;
    if sub.Some? {
      UpsertKeeps(r, UpsertInput(sub.value), c);
    }
  }

  lemma InvoiceHandled(r: Repo, inv: Option<StripeInvoice>, status: InvoiceStatus, from: set<State>, t: Transition,
          c: Clock)
    requires Inv(r)
    ensures Inv(HandleInvoice(r, inv, status, from, t, c).repo)
  {
    hide Move, At, Put, GetByStripeID, Keyed, IndexSound, IndexComplete;
    if inv.Some? {
      var stored := UpsertInvoice(r, InvoiceOf(inv.value, status), c.first);
      var got := GetByStripeID(stored.repo, inv.value.tenantID, inv.value.subscription);
      if got.Ok? {
        MoveKeeps(stored.repo, got.value.tenantID, got.value.id, t, c.second, c.wall);
      }
    }
  }

  lemma ActKeeps(r: Repo, a: Action)
    requires Inv(r)
    ensures Inv(Act(r, a).repo)
  {
    hide Keyed, IndexSound, IndexComplete, Create, Move, Dispatch, Get, TrimSpace;
    match a
    case CreateSub(i, known, c) =>
      var made := NewSubscription(Stamped(i, c), c.wall);
      if made.Ok? {
        CreateKeeps(r, made.value);
      }
    case MoveSub(t, id, tr, c) => MoveKeeps(r, t, id, tr, c.first, c.wall);
    case Activation(t, id, c) =>
      MoveKeeps(r, t, id, Recover, c.first, c.wall);
      MoveKeeps(r, t, id, Transition.Activate, c.first, c.wall);
    case Deliver(b, c) => DispatchKeeps(r, b, c);
  }

  lemma {:induction false} RunKeeps(r: Repo, actions: seq<Action>)
    requires Inv(r)
    ensures Inv(Run(r, actions))
    decreases |actions|
  {
    hide Inv, Act;
    if actions != [] {
      ActKeeps(r, actions[0]);
      RunKeeps(Act(r, actions[0]).repo, actions[1..]);
    }
  }

  /** Saving fails for unknown rows only, and keeps the invariant exactly when storing does. */
  lemma SaveFinds(r: Repo, s: Subscription)
    requires Inv(r)
    ensures Save(r, s).error.None? <==> At(r.subs, s.tenantID, s.id).Some?
    ensures Inv(Save(r, s).repo) <==> Save(r, s).error.Some? || (Fit(s) && !Orphans(r, s))
  {
    hide At, Store, Orphans, Fit, IndexSound, IndexComplete;
    if s.tenantID != "" {
      StoreKeeps(r, s);
    }
  }

  lemma GetFinds(r: Repo, tenant: string, id: string)
    requires Inv(r)
    ensures Get(r, tenant, id).Ok? <==> At(r.subs, tenant, id).Some?
  {
    hide At, IndexSound, IndexComplete;
  }

  lemma InvoicesAreApart(r: Repo, q: Repo)
    requires Inv(r) && q.subs == r.subs && q.index == r.index
    ensures Inv(q)
  {
  }

  // ---------------------------------------------------------------- the index agrees with a scan

  /** No two rows of the tenant carry the same Stripe id. */
  ghost predicate Unshared(r: Repo, tenant: string) {
    forall i, j :: At(r.subs, tenant, i).Some? && At(r.subs, tenant, j).Some? && i != j
                   && At(r.subs, tenant, i).value.stripeID != "" ==>
                     At(r.subs, tenant, i).value.stripeID != At(r.subs, tenant, j).value.stripeID
  }

  /** In every reachable state the lookup finds a row exactly when a scan of the tenant's rows would. */
  lemma IndexAgreesWithScan(actions: seq<Action>, tenant: string, stripeID: string)
    ensures var r := Run(EMPTY, actions);
            var got := GetByStripeID(r, tenant, stripeID);
            && (got.Ok? <==>
                  stripeID != "" &&
                  exists id :: At(r.subs, tenant, id).Some? && At(r.subs, tenant, id).value.stripeID == stripeID)
            && (got.Ok? ==> At(r.subs, tenant, got.value.id) == Some(got.value) && got.value.stripeID == stripeID)
            && (got.Ok? && Unshared(r, tenant) ==>
                  forall id :: At(r.subs, tenant, id).Some? && At(r.subs, tenant, id).value.stripeID == stripeID ==>
                      id == got.value.id)
  {
    hide At, Run;
    EmptyHolds();
    RunKeeps(EMPTY, actions);
    var r := Run(EMPTY, actions);
    if GetByStripeID(r, tenant, stripeID).Ok? {
      LookupIsStored(r, tenant, stripeID);
    }
  }

  /** The row an action would insert. */
  function NewRow(r: Repo, a: Action): Option<Subscription> {
    var made :=
      match a
      case CreateSub(i, known, c) =>
        if known then NewSubscription(Stamped(i, c), c.wall) else Err(PlanNotFound)
      case Deliver(b, c) =>
        if b.Event? && b.id != "" && b.id !in r.events && (b.typ.SubscriptionCreated? || b.typ.SubscriptionUpdated?)
           && b.sub.Some? && b.sub.value.id != "" && b.sub.value.tenantID != ""
           && GetByStripeID(r, b.sub.value.tenantID, b.sub.value.id) == Err(NotFound) then
          NewSubscription(Stamped(UpsertInput(b.sub.value), c), c.wall)
        else Err(NotFound)
      case _ => Err(NotFound);
    if made.Ok? && At(r.subs, made.value.tenantID, made.value.id).None? && made.value.tenantID != "" then
      Some(made.value)
    else None
  }

  /** The action inserts a second row with an indexed Stripe id. */
  predicate Doubles(r: Repo, a: Action, tenant: string) {
    var row := NewRow(r, a);
    row.Some? && row.value.tenantID == tenant && row.value.stripeID != ""
        && At(r.index, tenant, row.value.stripeID).Some?
  }

  /** Nothing but the state and the times of stored rows changes, and at most one row is new. */
  ghost predicate OnlyRefreshes(before: Table<Subscription>, after: Table<Subscription>, row: Option<Subscription>) {
    forall t, id ::
      if row.Some? && row.value.tenantID == t && row.value.id == id then
        At(before, t, id).None? && At(after, t, id) == row
      else
        && (At(before, t, id).Some? <==> At(after, t, id).Some?)
        && (At(before, t, id).Some? ==> SameIdentity(At(before, t, id).value, At(after, t, id).value))
  }

  predicate SameIdentity(a: Subscription, b: Subscription) {
    b == a.(state := b.state, periodStart := b.periodStart, periodEnd := b.periodEnd, updatedAt := b.updatedAt)
  }

  lemma MoveRefreshes(r: Repo, tenant: string, id: string, t: Transition, now: int, wall: int)
    requires Inv(r)
    ensures OnlyRefreshes(r.subs, Move(r, tenant, id, t, now, wall).repo.subs, None)
  {
    hide At, Put, IndexSound, IndexComplete, NextState;
  }

  lemma UpsertRefreshes(r: Repo, i: Input, c: Clock)
    requires Inv(r)
    ensures OnlyRefreshes(r.subs, UpsertFromStripe(r, i, c).repo.subs,
                          if GetByStripeID(r, i.tenantID, i.stripeID) == Err(NotFound)
                             && NewSubscription(Stamped(i, c), c.wall).Ok?
                             && At(r.subs, i.tenantID, i.id).None? then
                            Some(NewSubscription(Stamped(i, c), c.wall).value) else None)
  {
    hide At, Put, Inv, GetByStripeID, TrimSpace;
    if GetByStripeID(r, i.tenantID, i.stripeID).Ok? {
      LookupIsStored(r, i.tenantID, i.stripeID);
    }
    EmptyTrims();
  }

  lemma EmptyTrims()
    ensures TrimSpace("") == ""
  {
  }

  lemma ActRefreshes(r: Repo, a: Action)
    requires Inv(r)
    ensures OnlyRefreshes(r.subs, Act(r, a).repo.subs, NewRow(r, a))
  {
    hide OnlyRefreshes, At, Put, Inv, Move, UpsertFromStripe, GetByStripeID, TrimSpace, MapStripeStatus;
    Unmoved(r.subs);
    match a
    case CreateSub(i, known, c) => Created(r, i, known, c);
    case MoveSub(t, id, tr, c) => MoveRefreshes(r, t, id, tr, c.first, c.wall);
    case Activation(t, id, c) =>
      MoveRefreshes(r, t, id, Recover, c.first, c.wall);
      MoveRefreshes(r, t, id, Transition.Activate, c.first, c.wall);
    case Deliver(b, c) =>
      if b.Event? && b.id != "" && b.id !in r.events {
        match b.typ
        case SubscriptionDeleted =>
          if b.sub.Some? && GetByStripeID(r, b.sub.value.tenantID, b.sub.value.id).Ok? {
            var s := GetByStripeID(r, b.sub.value.tenantID, b.sub.value.id).value;
            MoveRefreshes(r, s.tenantID, s.id, Cancel, c.first, c.wall);
          }
        case PaymentSucceeded => InvoiceRefreshes(r, b.inv, Paid, {PastDue}, Recover, c);
        case PaymentFailed => InvoiceRefreshes(r, b.inv, Uncollectible, {Active, Trialing}, MarkPastDue, c);
        case Other(_) =>
        case _ =>
          if b.sub.Some? {
            UpsertRefreshes(r, UpsertInput(b.sub.value), c);
          }
      }
  }

  lemma Unmoved(subs: Table<Subscription>)
    ensures OnlyRefreshes(subs, subs, None)
  {
  }

  lemma Created(r: Repo, i: Input, known: bool, c: Clock)
    ensures OnlyRefreshes(r.subs, CreateSubscription(r, i, known, c).repo.subs, NewRow(r, CreateSub(i, known, c)))
  {
    hide At, Put, TrimSpace, GetByStripeID;
  }

  lemma InvoiceRefreshes(r: Repo, inv: Option<StripeInvoice>, status: InvoiceStatus, from: set<State>, t: Transition,
          c: Clock)
    requires Inv(r)
    ensures OnlyRefreshes(r.subs, HandleInvoice(r, inv, status, from, t, c).repo.subs, None)
  {
    hide OnlyRefreshes, At, Put, Move, GetByStripeID, Keyed, IndexSound, IndexComplete;
    Unmoved(r.subs);
    if inv.Some? {
      var stored := UpsertInvoice(r, InvoiceOf(inv.value, status), c.first);
      var got := GetByStripeID(stored.repo, inv.value.tenantID, inv.value.subscription);
      if got.Ok? {
        MoveRefreshes(stored.repo, got.value.tenantID, got.value.id, t, c.second, c.wall);
      }
    }
  }

  /** Two rows come to share a Stripe id exactly when one of them is inserted with an id that is already indexed. */
  lemma SharingComesFromInsertion(r: Repo, a: Action, tenant: string)
    requires Inv(r) && Unshared(r, tenant)
    ensures Unshared(Act(r, a).repo, tenant) <==> !Doubles(r, a, tenant)
  {
    hide At, Act, NewRow, Keyed;
    ActRefreshes(r, a);
    var next := Act(r, a).repo;
    var row := NewRow(r, a);
    if Doubles(r, a, tenant) {
      var other := At(r.index, tenant, row.value.stripeID).value;
      assert At(next.subs, tenant, other).Some? && At(next.subs, tenant, row.value.id) == row;
      assert At(next.subs, tenant, other).value.stripeID == row.value.stripeID;
      assert other != row.value.id;
    }
  }

  // ---------------------------------------------------------------- failure and replay

  /** What an action wrote before it failed is nothing: a failed action leaves the repository as it was. */
  lemma FailureChangesNothing(r: Repo, a: Action)
    ensures Act(r, a).error.Some? ==> Act(r, a).repo == r
  {
    hide At, Put, TrimSpace, MapStripeStatus, NextState, Apply, NewSubscription;
  }

  /** A subscription event for a known Stripe id always succeeds: the looked-up row is there to be saved. */
  lemma KnownUpsertSucceeds(r: Repo, b: Body, c: Clock)
    requires Inv(r) && b.Event? && b.id != "" && (b.typ.SubscriptionCreated? || b.typ.SubscriptionUpdated?)
    requires b.sub.Some? && GetByStripeID(r, b.sub.value.tenantID, b.sub.value.id).Ok?
    ensures Process(r, b, c).error.None?
  {
    hide At, Put, Inv, TrimSpace, MapStripeStatus, GetByStripeID;
    LookupIsStored(r, b.sub.value.tenantID, b.sub.value.id);
    NoTenantNoLookup(r, b.sub.value.id);
  }

  lemma NoTenantNoLookup(r: Repo, stripeID: string)
    ensures GetByStripeID(r, "", stripeID).Err?
  {
  }

  /** Whether the action has any effect of its own: it succeeds, and a delivery is not a repeat. */
  predicate Effective(r: Repo, a: Action) {
    Act(r, a).error.None? && !(a.Deliver? && a.body.Event? && a.body.id in r.events)
  }

  /** The effective actions of a run: failures and repeated deliveries are dropped. */
  function Kept(r: Repo, actions: seq<Action>): seq<Action>
    decreases |actions|
  {
    if actions == [] then []
    else
      var rest := Kept(Act(r, actions[0]).repo, actions[1..]);
      if Effective(r, actions[0]) then [actions[0]] + rest else rest
  }

  function DeliveredIDs(actions: seq<Action>): seq<string>
    decreases |actions|
  {
    if actions == [] then []
    else
      (if actions[0].Deliver? && actions[0].body.Event? then [actions[0].body.id] else [])
      + DeliveredIDs(actions[1..])
  }

  lemma IneffectiveChangesNothing(r: Repo, a: Action)
    requires !Effective(r, a)
    ensures Act(r, a).repo == r
  {
    hide Dispatch, CreateSubscription, Move, ActivateSub;
    FailureChangesNothing(r, a);
  }

  lemma MoveTouchesOnlyRows(r: Repo, tenant: string, id: string, t: Transition, now: int, wall: int)
    ensures var next := Move(r, tenant, id, t, now, wall).repo; next.events == r.events && next.invoices == r.invoices
  {
    hide At, Put, NextState;
  }

  lemma UpsertTouchesOnlyRows(r: Repo, i: Input, c: Clock)
    ensures var next := UpsertFromStripe(r, i, c).repo; next.events == r.events && next.invoices == r.invoices
  {
    hide At, Put, NewSubscription, GetByStripeID;
  }

  /** Apart from the two payment events, nothing touches invoices; dispatching never touches the event log. */
  lemma DispatchTouches(r: Repo, b: Body, c: Clock)
    ensures Dispatch(r, b, c).repo.events == r.events
    ensures !(b.Event? && (b.typ.PaymentSucceeded? || b.typ.PaymentFailed?)) ==>
        Dispatch(r, b, c).repo.invoices == r.invoices
  {
    hide At, Put, Move, UpsertFromStripe, GetByStripeID, MapStripeStatus;
    if b.Event? {
      if b.sub.Some? {
        UpsertTouchesOnlyRows(r, UpsertInput(b.sub.value), c);
        var got := GetByStripeID(r, b.sub.value.tenantID, b.sub.value.id);
        if got.Ok? {
          MoveTouchesOnlyRows(r, got.value.tenantID, got.value.id, Cancel, c.first, c.wall);
        }
      }
      InvoiceTouches(r, b.inv, Paid, {PastDue}, Recover, c);
      InvoiceTouches(r, b.inv, Uncollectible, {Active, Trialing}, MarkPastDue, c);
    }
  }

  lemma InvoiceTouches(r: Repo, inv: Option<StripeInvoice>, status: InvoiceStatus, from: set<State>, t: Transition,
          c: Clock)
    ensures HandleInvoice(r, inv, status, from, t, c).repo.events == r.events
    ensures HandleInvoice(r, inv, status, from, t, c).repo.invoices ==
            if inv.Some? && inv.value.id != "" then
              UpsertInvoice(r, InvoiceOf(inv.value, status), c.first).repo.invoices
            else r.invoices
  {
    hide At, Put, Move, GetByStripeID;
    if inv.Some? {
      var stored := UpsertInvoice(r, InvoiceOf(inv.value, status), c.first);
      var got := GetByStripeID(stored.repo, inv.value.tenantID, inv.value.subscription);
      if got.Ok? {
        MoveTouchesOnlyRows(stored.repo, got.value.tenantID, got.value.id, t, c.second, c.wall);
      }
    }
  }

  lemma EventsAfter(r: Repo, a: Action)
    ensures Act(r, a).repo.events.Keys ==
            r.events.Keys + if Effective(r, a) && a.Deliver? && a.body.Event? then {a.body.id} else {}
  {
    hide At, Put, Move, Dispatch, NewSubscription;
    match a
    case CreateSub(_, _, _) =>
    case MoveSub(t, id, tr, c) => MoveTouchesOnlyRows(r, t, id, tr, c.first, c.wall);
    case Activation(t, id, c) =>
      MoveTouchesOnlyRows(r, t, id, Recover, c.first, c.wall);
      MoveTouchesOnlyRows(r, t, id, Transition.Activate, c.first, c.wall);
    case Deliver(b, c) => DispatchTouches(r, b, c);
  }

  /** Duplicated and failed deliveries are invisible: the run ends where its effective actions alone end. */
  lemma {:induction false} ReplayIsInvisible(r: Repo, actions: seq<Action>)
    ensures Run(r, actions) == Run(r, Kept(r, actions))
    ensures forall i, j | 0 <= i < j < |DeliveredIDs(Kept(r, actions))| ::
              DeliveredIDs(Kept(r, actions))[i] != DeliveredIDs(Kept(r, actions))[j]
    ensures forall id | id in DeliveredIDs(Kept(r, actions)) :: id !in r.events
    decreases |actions|
  {
    hide Act;
    if actions != [] {
      var a := actions[0];
      var next := Act(r, a).repo;
      ReplayIsInvisible(next, actions[1..]);
      EventsAfter(r, a);
      var rest := Kept(next, actions[1..]);
      if Effective(r, a) {
        assert ([a] + rest)[1..] == rest;
      } else {
        IneffectiveChangesNothing(r, a);
      }
    }
  }

  /** An event id ends up in the log exactly when one of the kept deliveries carried it, or it was there before. */
  lemma {:induction false} RecordedExactlyOnce(r: Repo, actions: seq<Action>, id: string)
    ensures id in Run(r, actions).events <==> id in r.events || id in DeliveredIDs(Kept(r, actions))
    decreases |actions|
  {
    hide Act, Effective;
    if actions != [] {
      var a := actions[0];
      EventsAfter(r, a);
      RecordedExactlyOnce(Act(r, a).repo, actions[1..], id);
      var rest := Kept(Act(r, a).repo, actions[1..]);
      if Effective(r, a) {
        assert ([a] + rest)[1..] == rest;
      }
    }
  }

  // ---------------------------------------------------------------- lifecycle

  /** The new state of a row that a Stripe subscription event would overwrite. */
  function Overwrite(r: Repo, a: Action, tenant: string, id: string): Option<State> {
    if a.Deliver? && a.body.Event? && a.body.id != "" && a.body.id !in r.events
       && (a.body.typ.SubscriptionCreated? || a.body.typ.SubscriptionUpdated?)
       && a.body.sub.Some? && a.body.sub.value.id != "" && a.body.sub.value.tenantID == tenant != ""
       && At(r.index, tenant, a.body.sub.value.id) == Some(id) then
      Some(MapStripeStatus(a.body.sub.value.status))
    else None
  }

  ghost predicate InTable(from: State, to: State) {
    exists t :: NextState(from, t) == Some(to)
  }

  /** Of the five states `canceled` is the only terminal one, and every other can still be canceled. */
  lemma OnlyCanceledIsTerminal(s: State)
    ensures IsTerminal(s) <==> forall t :: NextState(s, t).None?
    ensures IsTerminal(s) <==> s == Canceled || s.Unlisted?
    ensures !IsTerminal(s) ==> NextState(s, Cancel) == Some(Canceled)
  {
    if s != Canceled && !s.Unlisted? {
      assert NextState(s, Cancel).Some?;
    }
  }

  /** How the state of one row may change: as a Stripe event says, or along the transition table. */
  ghost predicate Lawful(before: Table<Subscription>, after: Table<Subscription>) {
    forall t, id :: At(before, t, id).Some? && At(after, t, id).Some? ==>
                      var from, to := At(before, t, id).value.state, At(after, t, id).value.state;
                      from == to || InTable(from, to)
  }

  lemma MoveIsLawful(r: Repo, tenant: string, id: string, t: Transition, now: int, wall: int)
    requires Inv(r)
    ensures Lawful(r.subs, Move(r, tenant, id, t, now, wall).repo.subs)
  {
    hide At, Put, IndexSound, IndexComplete, NextState;
  }

  lemma InvoiceIsLawful(r: Repo, inv: Option<StripeInvoice>, status: InvoiceStatus, from: set<State>, t: Transition,
          c: Clock)
    requires Inv(r)
    ensures Lawful(r.subs, HandleInvoice(r, inv, status, from, t, c).repo.subs)
  {
    hide Lawful, At, Put, Move, GetByStripeID, Keyed, IndexSound, IndexComplete;
    LawfulRest(r.subs);
    if inv.Some? {
      var stored := UpsertInvoice(r, InvoiceOf(inv.value, status), c.first);
      var got := GetByStripeID(stored.repo, inv.value.tenantID, inv.value.subscription);
      if got.Ok? {
        MoveIsLawful(stored.repo, got.value.tenantID, got.value.id, t, c.second, c.wall);
      }
    }
  }

  lemma LawfulRest(subs: Table<Subscription>)
    ensures Lawful(subs, subs)
  {
    hide NextState;
  }

  lemma CreateIsLawful(r: Repo, i: Input, known: bool, c: Clock)
    ensures Lawful(r.subs, CreateSubscription(r, i, known, c).repo.subs)
  {
    hide At, Put, TrimSpace, NextState;
  }

  lemma UpsertOverwrites(r: Repo, i: Input, c: Clock, tenant: string, id: string)
    requires Inv(r) && i.tenantID != "" && At(r.subs, tenant, id).Some?
    ensures var after := UpsertFromStripe(r, i, c).repo.subs;
            && At(after, tenant, id).Some?
            && At(after, tenant, id).value.state ==
               if i.tenantID == tenant && At(r.index, tenant, i.stripeID) == Some(id) && i.state != NO_STATE then
                 i.state
               else At(r.subs, tenant, id).value.state
  {
    hide At, Put, TrimSpace, IndexComplete;
  }

  lemma ActIsLawful(r: Repo, a: Action)
    requires Inv(r)
    requires a.Deliver? && a.body.Event? ==> !a.body.typ.SubscriptionCreated? && !a.body.typ.SubscriptionUpdated?
    ensures Lawful(r.subs, Act(r, a).repo.subs)
  {
    hide Lawful, At, Put, Inv, Move, GetByStripeID, CreateSubscription, HandleInvoice;
    LawfulRest(r.subs);
    match a
    case CreateSub(i, known, c) => CreateIsLawful(r, i, known, c);
    case MoveSub(t, id, tr, c) => MoveIsLawful(r, t, id, tr, c.first, c.wall);
    case Activation(t, id, c) =>
      MoveIsLawful(r, t, id, Recover, c.first, c.wall);
      MoveIsLawful(r, t, id, Transition.Activate, c.first, c.wall);
    case Deliver(b, c) =>
      if b.Event? && b.id != "" && b.id !in r.events {
        if b.typ.SubscriptionDeleted? && b.sub.Some? && GetByStripeID(r, b.sub.value.tenantID, b.sub.value.id).Ok? {
          var s := GetByStripeID(r, b.sub.value.tenantID, b.sub.value.id).value;
          MoveIsLawful(r, s.tenantID, s.id, Cancel, c.first, c.wall);
        }
        InvoiceIsLawful(r, b.inv, Paid, {PastDue}, Recover, c);
        InvoiceIsLawful(r, b.inv, Uncollectible, {Active, Trialing}, MarkPastDue, c);
      }
  }

  /** A stored row never disappears; its state changes as the Stripe event names it, otherwise only along the table. */
  lemma StateChanges(r: Repo, a: Action, tenant: string, id: string)
    requires Inv(r) && At(r.subs, tenant, id).Some?
    ensures var after := At(Act(r, a).repo.subs, tenant, id);
            && after.Some?
            && var from, to := At(r.subs, tenant, id).value.state, after.value.state;
               match Overwrite(r, a, tenant, id)
               case Some(named) => to == named
               case None => from == to || InTable(from, to)
  {
    hide At, Put, Inv, UpsertFromStripe, GetByStripeID, MapStripeStatus, NextState, CreateSubscription, HandleInvoice,
        Move;
    ActRefreshes(r, a);
    if a.Deliver? && a.body.Event? && (a.body.typ.SubscriptionCreated? || a.body.typ.SubscriptionUpdated?) {
      var sub := a.body.sub;
      if a.body.id != "" && a.body.id !in r.events && sub.Some? && sub.value.id != "" && sub.value.tenantID != "" {
        UpsertOverwrites(r, UpsertInput(sub.value), a.clock, tenant, id);
      }
    } else {
      ActIsLawful(r, a);
    }
  }

  /** A canceled subscription is revived by exactly one thing: a Stripe event for it with another status. */
  lemma CanceledIsLeftOnlyByStripe(r: Repo, a: Action, tenant: string, id: string)
    requires Inv(r) && At(r.subs, tenant, id).Some? && At(r.subs, tenant, id).value.state == Canceled
    ensures At(Act(r, a).repo.subs, tenant, id).Some?
    ensures At(Act(r, a).repo.subs, tenant, id).value.state != Canceled <==>
            Overwrite(r, a, tenant, id).Some? && Overwrite(r, a, tenant, id).value != Canceled
  {
    hide Act, At, Overwrite;
    StateChanges(r, a, tenant, id);
    assert forall t :: NextState(Canceled, t) == None;
  }

  /** A failed payment stores its invoice, reports success and is recorded; it moves the looked-up row, to past due,
      if and only if that row is active: a trial goes on. */
  lemma FailedPaymentMovesOnlyActive(r: Repo, b: Body, c: Clock)
    requires Inv(r) && b.Event? && b.id != "" && b.id !in r.events && b.typ == PaymentFailed
    requires b.inv.Some? && b.inv.value.id != "" && b.inv.value.tenantID != ""
    ensures var (tenant, stripeID) := (b.inv.value.tenantID, b.inv.value.subscription);
            var done, got := Process(r, b, c), GetByStripeID(r, tenant, stripeID);
            && done.error.None? && b.id in done.repo.events
            && At(done.repo.invoices, tenant, b.inv.value.id).Some?
            && (done.repo.subs != r.subs <==> got.Ok? && got.value.state == Active)
            && (got.Ok? && got.value.state == Active ==>
                  At(done.repo.subs, tenant, got.value.id).Some? &&
                  At(done.repo.subs, tenant, got.value.id).value.state == PastDue)
  {
    hide At, Put, Inv, GetByStripeID;
    var tenant, stripeID := b.inv.value.tenantID, b.inv.value.subscription;
    if GetByStripeID(r, tenant, stripeID).Ok? {
      LookupIsStored(r, tenant, stripeID);
    }
    LookupSkipsInvoices(r, UpsertInvoice(r, InvoiceOf(b.inv.value, Uncollectible), c.first).repo, tenant, stripeID);
    assert NextState(Active, MarkPastDue) == Some(PastDue) && NextState(Trialing, MarkPastDue) == None;
  }

  lemma LookupSkipsInvoices(r: Repo, q: Repo, tenant: string, stripeID: string)
    requires q.subs == r.subs && q.index == r.index
    ensures GetByStripeID(q, tenant, stripeID) == GetByStripeID(r, tenant, stripeID)
  {
  }

  /** A deletion event for a subscription that is already canceled fails every time it is delivered. */
  lemma DeletionOfCanceledFails(r: Repo, b: Body, c: Clock)
    requires Inv(r) && b.Event? && b.id != "" && b.id !in r.events && b.typ == SubscriptionDeleted
    requires b.sub.Some? && GetByStripeID(r, b.sub.value.tenantID, b.sub.value.id).Ok?
    ensures Process(r, b, c).error.Some? <==>
            GetByStripeID(r, b.sub.value.tenantID, b.sub.value.id).value.state == Canceled
  {
    hide At, Put, Inv;
    LookupIsStored(r, b.sub.value.tenantID, b.sub.value.id);
    NoTenantNoLookup(r, b.sub.value.id);
    assert forall s :: NextState(s, Cancel).None? <==> s == Canceled || s.Unlisted?;
  }

  // ---------------------------------------------------------------- tenants

  /** The tenant an action names. */
  function TenantOf(a: Action): string {
    match a
    case CreateSub(i, _, _) => i.tenantID
    case MoveSub(t, _, _, _) => t
    case Activation(t, _, _) => t
    case Deliver(b, _) =>
      if b.Garbled? then ""
      else match b.typ
           case PaymentSucceeded => if b.inv.Some? then b.inv.value.tenantID else ""
           case PaymentFailed => if b.inv.Some? then b.inv.value.tenantID else ""
           case _ => if b.sub.Some? then b.sub.value.tenantID else ""
  }

  /** Nothing of this tenant differs. */
  ghost predicate SameTenant(a: Repo, b: Repo, tenant: string) {
    && (forall id :: At(a.subs, tenant, id) == At(b.subs, tenant, id))
    && (forall s :: At(a.index, tenant, s) == At(b.index, tenant, s))
    && (forall id :: At(a.invoices, tenant, id) == At(b.invoices, tenant, id))
  }

  lemma StoreElsewhere(r: Repo, s: Subscription, tenant: string)
    requires s.tenantID != tenant
    ensures SameTenant(r, Store(r, s), tenant)
  {
    hide At, Put;
  }

  lemma MoveElsewhere(r: Repo, t: string, id: string, tr: Transition, now: int, wall: int, tenant: string)
    requires Inv(r) && t != tenant
    ensures SameTenant(r, Move(r, t, id, tr, now, wall).repo, tenant)
  {
    hide At, Store, Inv, SameTenant, NextState;
    SameAsItself(r, tenant);
    if Get(r, t, id).Ok? {
      RowIsKeyed(r, t, id);
      var s := Apply(Get(r, t, id).value, tr, now, wall);
      if s.Ok? {
        StoreElsewhere(r, s.value, tenant);
      }
    }
  }

  lemma SameAsItself(r: Repo, tenant: string)
    ensures SameTenant(r, r, tenant)
  {
  }

  lemma UpsertElsewhere(r: Repo, i: Input, c: Clock, tenant: string)
    requires Inv(r) && i.tenantID != tenant
    ensures SameTenant(r, UpsertFromStripe(r, i, c).repo, tenant)
  {
    hide At, Store, Inv, SameTenant, GetByStripeID, TrimSpace;
    SameAsItself(r, tenant);
    var got := GetByStripeID(r, i.tenantID, i.stripeID);
    if got.Ok? {
      LookupIsStored(r, i.tenantID, i.stripeID);
      StoreElsewhere(r, Refreshed(got.value, i, c.second), tenant);
    } else {
      var made := NewSubscription(Stamped(i, c), c.wall);
      if made.Ok? {
        StoreElsewhere(r, made.value, tenant);
      }
    }
  }

  lemma InvoiceElsewhere(r: Repo, inv: Option<StripeInvoice>, status: InvoiceStatus, from: set<State>, t: Transition,
          c: Clock, tenant: string)
    requires Inv(r) && inv.Some? && inv.value.tenantID != tenant
    ensures SameTenant(r, HandleInvoice(r, inv, status, from, t, c).repo, tenant)
  {
    hide At, Put, Move, GetByStripeID, Keyed, IndexSound, IndexComplete;
    var stored := UpsertInvoice(r, InvoiceOf(inv.value, status), c.first);
    var got := GetByStripeID(stored.repo, inv.value.tenantID, inv.value.subscription);
    if got.Ok? {
      LookupIsStored(stored.repo, inv.value.tenantID, inv.value.subscription);
      MoveElsewhere(stored.repo, got.value.tenantID, got.value.id, t, c.second, c.wall, tenant);
    }
  }

  /** An action touches the tenant it names and no other: rows, index and invoices. */
  lemma TenantsAreApart(r: Repo, a: Action, tenant: string)
    requires Inv(r) && tenant != "" && tenant != TenantOf(a)
    ensures SameTenant(r, Act(r, a).repo, tenant)
  {
    hide At, Put, Inv, SameTenant, Move, GetByStripeID, UpsertFromStripe, MapStripeStatus, TrimSpace, Store,
        HandleInvoice;
    SameAsItself(r, tenant);
    match a
    case CreateSub(i, known, c) =>
      var made := NewSubscription(Stamped(i, c), c.wall);
      if made.Ok? {
        StoreElsewhere(r, made.value, tenant);
      }
    case MoveSub(t, id, tr, c) => MoveElsewhere(r, t, id, tr, c.first, c.wall, tenant);
    case Activation(t, id, c) =>
      MoveElsewhere(r, t, id, Recover, c.first, c.wall, tenant);
      MoveElsewhere(r, t, id, Transition.Activate, c.first, c.wall, tenant);
    case Deliver(b, c) =>
      if b.Event? && b.id != "" && b.id !in r.events {
        DispatchElsewhere(r, b, c, tenant);
        Recorded(Dispatch(r, b, c).repo, b, c, tenant, r);
      }
  }

  lemma Recorded(r: Repo, b: Body, c: Clock, tenant: string, before: Repo)
    requires b.Event? && SameTenant(before, r, tenant)
    ensures SameTenant(before, r.(events := r.events[b.id := EventRow(b.typ, c.wall)]), tenant)
  {
  }

  lemma DispatchElsewhere(r: Repo, b: Body, c: Clock, tenant: string)
    requires Inv(r) && b.Event? && tenant != "" && tenant != TenantOf(Deliver(b, c))
    ensures SameTenant(r, Dispatch(r, b, c).repo, tenant)
  {
    hide At, Put, Inv, SameTenant, Move, GetByStripeID, UpsertFromStripe, MapStripeStatus, UpsertInvoice;
    SameAsItself(r, tenant);
    match b.typ
    case PaymentSucceeded =>
      if b.inv.Some? {
        InvoiceElsewhere(r, b.inv, Paid, {PastDue}, Recover, c, tenant);
      }
    case PaymentFailed =>
      if b.inv.Some? {
        InvoiceElsewhere(r, b.inv, Uncollectible, {Active, Trialing}, MarkPastDue, c, tenant);
      }
    case SubscriptionDeleted =>
      if b.sub.Some? && GetByStripeID(r, b.sub.value.tenantID, b.sub.value.id).Ok? {
        LookupIsStored(r, b.sub.value.tenantID, b.sub.value.id);
        var s := GetByStripeID(r, b.sub.value.tenantID, b.sub.value.id).value;
        MoveElsewhere(r, s.tenantID, s.id, Cancel, c.first, c.wall, tenant);
      }
    case Other(_) =>
    case _ =>
      if b.sub.Some? {
        UpsertElsewhere(r, UpsertInput(b.sub.value), c, tenant);
      }
  }

  /** A run touches only the tenants its actions name. */
  lemma {:induction false} RunsOfTenantsAreApart(r: Repo, actions: seq<Action>, tenant: string)
    requires Inv(r) && tenant != "" && forall a | a in actions :: TenantOf(a) != tenant
    ensures SameTenant(r, Run(r, actions), tenant)
    decreases |actions|
  {
    hide Inv, Act, At, TenantOf, SameTenant;
    SameAsItself(r, tenant);
    if actions != [] {
      assert actions[0] in actions;
      var next := Act(r, actions[0]).repo;
      TenantsAreApart(r, actions[0], tenant);
      ActKeeps(r, actions[0]);
      RunsOfTenantsAreApart(next, actions[1..], tenant);
      SameInTurn(r, next, Run(next, actions[1..]), tenant);
    }
  }

  lemma SameInTurn(a: Repo, b: Repo, c: Repo, tenant: string)
    requires SameTenant(a, b, tenant) && SameTenant(b, c, tenant)
    ensures SameTenant(a, c, tenant)
  {
    hide At;
  }

  // ---------------------------------------------------------------- invoices

  lemma UpsertInvoiceKeepsCreation(r: Repo, inv: Invoice, now: int, tenant: string, id: string)
    requires At(r.invoices, tenant, id).Some? && At(r.invoices, tenant, id).value.createdAt != ZERO_TIME
    ensures At(UpsertInvoice(r, inv, now).repo.invoices, tenant, id).Some?
    ensures At(UpsertInvoice(r, inv, now).repo.invoices, tenant, id).value.createdAt ==
            At(r.invoices, tenant, id).value.createdAt
  {
    hide At, Put;
  }

  /** An invoice is stored with the time of the call as its update time and with its first creation time: the stored
      one, else its own, else the time of the call. */
  lemma UpsertedInvoice(r: Repo, inv: Invoice, now: int)
    ensures var done := UpsertInvoice(r, inv, now);
            var was := At(r.invoices, inv.tenantID, inv.id);
            var created := if was.Some? && was.value.createdAt != ZERO_TIME then was.value.createdAt
                           else if inv.createdAt != ZERO_TIME then inv.createdAt
                           else now;
            && done.error == (if inv.tenantID == "" then Some(TenantRequired) else None)
            && (done.error.None? ==>
                  At(done.repo.invoices, inv.tenantID, inv.id) == Some(inv.(createdAt := created, updatedAt := now)))
  {
    hide At, Put;
  }

  /** An invoice, once stored with a creation time, keeps it through every later event. */
  lemma InvoiceKeepsItsCreation(r: Repo, a: Action, tenant: string, id: string)
    requires At(r.invoices, tenant, id).Some? && At(r.invoices, tenant, id).value.createdAt != ZERO_TIME
    ensures At(Act(r, a).repo.invoices, tenant, id).Some?
    ensures At(Act(r, a).repo.invoices, tenant, id).value.createdAt == At(r.invoices, tenant, id).value.createdAt
  {
    hide At, Put, Move, HandleInvoice, HandleUpsert, HandleDeleted, NewSubscription, UpsertInvoice;
    match a
    case CreateSub(_, _, _) =>
    case MoveSub(t, i, tr, c) => MoveTouchesOnlyRows(r, t, i, tr, c.first, c.wall);
    case Activation(t, i, c) =>
      MoveTouchesOnlyRows(r, t, i, Recover, c.first, c.wall);
      MoveTouchesOnlyRows(r, t, i, Transition.Activate, c.first, c.wall);
    case Deliver(b, c) =>
      DispatchTouches(r, b, c);
      if b.Event? && b.inv.Some? {
        UpsertInvoiceKeepsCreation(r, InvoiceOf(b.inv.value, Paid), c.first, tenant, id);
        UpsertInvoiceKeepsCreation(r, InvoiceOf(b.inv.value, Uncollectible), c.first, tenant, id);
      }
      if b.Event? {
        InvoiceTouches(r, b.inv, Paid, {PastDue}, Recover, c);
        InvoiceTouches(r, b.inv, Uncollectible, {Active, Trialing}, MarkPastDue, c);
      }
  }

  // ---------------------------------------------------------------- runs that show the failures

  const READINGS: Clock := Clock(0, 0, 0)

  /** A new subscription `id` of tenant `t` under the Stripe id `s`. */
  function Sample(id: string, state: State): Action {
    CreateSub(Input(id, "t", "p", "s", "", state, 0, 0, 0), true, READINGS)
  }

  function SampleRow(id: string, state: State): Subscription {
    Subscription(id, "t", "p", state, "s", "", 0, 0, false, 0, 0)
  }

  lemma PlainTexts()
    ensures TrimSpace("a") == "a" && TrimSpace("b") == "b" && TrimSpace("t") == "t" && TrimSpace("p") == "p"
    ensures TrimSpace("s") == "s" && TrimSpace("") == ""
  {
  }

  lemma SampleStored(r: Repo, id: string, state: State)
    requires (id == "a" || id == "b") && !state.Unlisted? && At(r.subs, "t", id).None?
    ensures Act(r, Sample(id, state)) == Step(Store(r, SampleRow(id, state)), None)
  {
    hide TrimSpace, At, Put;
    PlainTexts();
  }

  lemma OneAction(r: Repo, a: Action)
    ensures Run(r, [a]) == Act(r, a).repo
  {
    hide Act;
    assert [a][1..] == [];
  }

  /** After one creation the row is found by its Stripe id. */
  lemma SampleFound(state: State)
    requires !state.Unlisted?
    ensures Inv(Run(EMPTY, [Sample("a", state)]))
    ensures Run(EMPTY, [Sample("a", state)]) == Store(EMPTY, SampleRow("a", state))
    ensures GetByStripeID(Run(EMPTY, [Sample("a", state)]), "t", "s") == Ok(SampleRow("a", state))
  {
    hide Inv, Act;
    EmptyHolds();
    RunKeeps(EMPTY, [Sample("a", state)]);
    OneAction(EMPTY, Sample("a", state));
    SampleStored(EMPTY, "a", state);
  }

  /** A subscription that is created as canceled: the deletion that Stripe delivers for it fails. */
  lemma DeletionCanFail()
    ensures var gone := Event("e", SubscriptionDeleted,
                              Some(StripeSubscription("s", "canceled", "", 0, 0, "t", "p")), None);
            Process(Run(EMPTY, [Sample("a", Canceled)]), gone, READINGS).error == Some(InvalidTransition)
  {
    hide Inv, Run, Act, GetByStripeID, At, Put, Store;
    var gone := Event("e", SubscriptionDeleted, Some(StripeSubscription("s", "canceled", "", 0, 0, "t", "p")), None);
    var r := Run(EMPTY, [Sample("a", Canceled)]);
    SampleFound(Canceled);
    LookupIsStored(r, "t", "s");
    NothingLogged(SampleRow("a", Canceled));
    assert NextState(Canceled, Cancel) == None;
  }

  lemma NothingLogged(s: Subscription)
    ensures Store(EMPTY, s).events == map[]
  {
  }

  /** A state that is none of the five gets into the repository through an upsert of a known row. */
  lemma UpsertCanStoreUnlistedState()
    ensures var r := Run(EMPTY, [Sample("a", Active)]);
            var i := Input("a", "t", "p", "s", "", Unlisted("frozen"), 0, 0, 0);
            Inv(r) && UpsertFromStripe(r, i, READINGS).error.None? && !Inv(UpsertFromStripe(r, i, READINGS).repo)
  {
    hide Inv, Run, Act, GetByStripeID, At, Put, Store;
    var r := Run(EMPTY, [Sample("a", Active)]);
    SampleFound(Active);
    LookupIsStored(r, "t", "s");
    assert |"frozen"| != |""|;
    UpsertKeeps(r, Input("a", "t", "p", "s", "", Unlisted("frozen"), 0, 0, 0), READINGS);
  }

  /** Two creations under one Stripe id: the rows share it, and the lookup finds the later one only. */
  lemma StripeIdCanBeShared()
    ensures var r := Run(EMPTY, [Sample("a", Active), Sample("b", Active)]);
            !Unshared(r, "t") && GetByStripeID(r, "t", "s") == Ok(SampleRow("b", Active))
  {
    hide Act;
    var once := Run(EMPTY, [Sample("a", Active)]);
    SampleFound(Active);
    assert |"a"| == 1 && "a"[0] != "b"[0];
    SampleStored(once, "b", Active);
    OneAction(EMPTY, Sample("a", Active));
    OneAction(once, Sample("b", Active));
    assert [Sample("a", Active), Sample("b", Active)][1..] == [Sample("b", Active)];
    var r := Store(once, SampleRow("b", Active));
    assert At(r.subs, "t", "a") == Some(SampleRow("a", Active)) && At(r.subs, "t", "b") == Some(SampleRow("b", Active));
  }
}
