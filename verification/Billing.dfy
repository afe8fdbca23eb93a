/** Subscriptions, invoices and Stripe webhooks (internal/billing, cmd/mc-api/stripe_webhook_handlers.go). */
module Billing {
  import opened Text

  // ---------------------------------------------------------------- lifecycle (state.go)

  /** The five states, and any other string, of which the empty one means that no state is given. */
  datatype State = Trialing | Active | PastDue | Paused | Canceled | Unlisted(text: string)

  const NO_STATE: State := Unlisted("")

  datatype Transition = Activate | MarkPastDue | Recover | Pause | Resume | Cancel

  const TRANSITION_TABLE: map<State, map<Transition, State>> := map[
    Trialing := map[Activate := Active, Cancel := Canceled],
    Active := map[MarkPastDue := PastDue, Pause := Paused, Cancel := Canceled],
    PastDue := map[Recover := Active, Cancel := Canceled],
    Paused := map[Resume := Active, Cancel := Canceled]]

  function NextState(from: State, t: Transition): Option<State> {
    if from in TRANSITION_TABLE && t in TRANSITION_TABLE[from] then Some(TRANSITION_TABLE[from][t]) else None
  }

  predicate IsTerminal(s: State) {
    s !in TRANSITION_TABLE
  }

  // ---------------------------------------------------------------- entities (subscription.go)

  datatype Subscription = Subscription(id: string, tenantID: string, planID: string, state: State, stripeID: string,
                                       customerID: string, periodStart: int, periodEnd: int, cancelAtPeriodEnd: bool,
                                       createdAt: int, updatedAt: int)

  datatype InvoiceStatus = Open | Paid | Void | Uncollectible

  datatype Invoice = Invoice(id: string, tenantID: string, subscriptionID: string, amount: int, currency: string,
                             status: InvoiceStatus, periodStart: int, periodEnd: int, createdAt: int, updatedAt: int)

  datatype Error =
    | TenantRequired | NotFound | PlanNotFound | InvalidState | InvalidTransition | AlreadyExists | BadPayload

  datatype Result<+T> = Ok(value: T) | Err(error: Error)

  datatype Input = Input(id: string, tenantID: string, planID: string, stripeID: string, customerID: string,
                         state: State, periodStart: int, periodEnd: int, now: int)

  /** Clock readings of one call: the service's clock, read for a missing time and for an update, and the wall clock. */
  datatype Clock = Clock(first: int, second: int, wall: int)

  function NewSubscription(i: Input, wall: int): Result<Subscription> {
    if TrimSpace(i.id) == "" then Err(NotFound)
    else if TrimSpace(i.tenantID) == "" then Err(TenantRequired)
    else if TrimSpace(i.planID) == "" then Err(PlanNotFound)
    else if i.state.Unlisted? && i.state != NO_STATE then Err(InvalidState)
    else
      var now := if i.now == ZERO_TIME then wall else i.now;
      var state := if i.state == NO_STATE then Trialing else i.state;
      Ok(Subscription(i.id, i.tenantID, i.planID, state,
                      TrimSpace(i.stripeID), TrimSpace(i.customerID), i.periodStart, i.periodEnd, false, now, now))
  }

  function Apply(s: Subscription, t: Transition, now: int, wall: int): Result<Subscription> {
    match NextState(s.state, t)
    case None => Err(InvalidTransition)
    case Some(to) => Ok(s.(state := to, updatedAt := if now == ZERO_TIME then wall else now))
  }

  // ---------------------------------------------------------------- the repository (inmemory.go)

  type Table<V> = map<string, map<string, V>>

  function At<V>(m: Table<V>, tenant: string, key: string): Option<V> {
    if tenant in m && key in m[tenant] then Some(m[tenant][key]) else None
  }

  function Put<V>(m: Table<V>, tenant: string, key: string, v: V): (r: Table<V>)
    ensures forall t, k :: At(r, t, k) == if t == tenant && k == key then Some(v) else At(m, t, k)
  {
    m[tenant := (if tenant in m then m[tenant] else map[])[key := v]]
  }

  datatype EventType =
    | SubscriptionCreated | SubscriptionUpdated | SubscriptionDeleted | PaymentSucceeded | PaymentFailed
    | Other(name: string)

  datatype EventRow = EventRow(typ: EventType, occurredAt: int)

  datatype Repo = Repo(subs: Table<Subscription>, index: Table<string>, invoices: Table<Invoice>,
                       events: map<string, EventRow>)

  const EMPTY: Repo := Repo(map[], map[], map[], map[])

  function Store(r: Repo, s: Subscription): Repo {
    r.(subs := Put(r.subs, s.tenantID, s.id, s),
       index := if s.stripeID != "" then Put(r.index, s.tenantID, s.stripeID, s.id) else r.index)
  }

  /** A state change together with the error it returned: what was written before the error stays written. */
  datatype Step = Step(repo: Repo, error: Option<Error>)

  function Create(r: Repo, s: Subscription): Step {
    if s.tenantID == "" then Step(r, Some(TenantRequired))
    else if At(r.subs, s.tenantID, s.id).Some? then Step(r, Some(AlreadyExists))
    else Step(Store(r, s), None)
  }

  function Save(r: Repo, s: Subscription): Step {
    if s.tenantID == "" then Step(r, Some(TenantRequired))
    else if At(r.subs, s.tenantID, s.id).None? then Step(r, Some(NotFound))
    else Step(Store(r, s), None)
  }

  function Get(r: Repo, tenant: string, id: string): Result<Subscription> {
    if tenant == "" then Err(TenantRequired)
    else match At(r.subs, tenant, id) case None => Err(NotFound) case Some(s) => Ok(s)
  }

  const ZERO_SUBSCRIPTION: Subscription := Subscription("", "", "", NO_STATE, "", "", ZERO_TIME, ZERO_TIME, false,
      ZERO_TIME, ZERO_TIME)

  /** The indexed row, or the zero value when the index names a row that is not there. */
  function GetByStripeID(r: Repo, tenant: string, stripeID: string): Result<Subscription> {
    if tenant == "" then Err(TenantRequired)
    else match At(r.index, tenant, stripeID)
         case None => Err(NotFound)
         case Some(id) => Ok(match At(r.subs, tenant, id) case None => ZERO_SUBSCRIPTION case Some(s) => s)
  }

  function PutInvoice(r: Repo, inv: Invoice): Step {
    if inv.tenantID == "" then Step(r, Some(TenantRequired))
    else
      var old_ := At(r.invoices, inv.tenantID, inv.id);
      var kept := if old_.Some? && old_.value.createdAt != ZERO_TIME then inv.(createdAt := old_.value.createdAt)
                  else inv;
      Step(r.(invoices := Put(r.invoices, inv.tenantID, inv.id, kept)), None)
  }

  // ---------------------------------------------------------------- the service (service.go)

  /** A missing time is read from the service's clock. */
  function Stamped(i: Input, c: Clock): Input {
    if i.now == ZERO_TIME then i.(now := c.first) else i
  }

  function CreateSubscription(r: Repo, i: Input, planKnown: bool, c: Clock): Step {
    if !planKnown then Step(r, Some(PlanNotFound))
    else match NewSubscription(Stamped(i, c), c.wall)
         case Err(e) => Step(r, Some(e))
         case Ok(s) => Create(r, s)
  }

  function Move(r: Repo, tenant: string, id: string, t: Transition, now: int, wall: int): Step {
    match Get(r, tenant, id)
    case Err(e) => Step(r, Some(e))
    case Ok(s) => match Apply(s, t, now, wall)
                  case Err(e) => Step(r, Some(e))
                  case Ok(updated) => Save(r, updated)
  }

  function ActivateSub(r: Repo, tenant: string, id: string, c: Clock): Step {
    match Get(r, tenant, id)
    case Err(e) => Step(r, Some(e))
    case Ok(s) => Move(r, tenant, id, if s.state == PastDue then Recover else Activate, c.first, c.wall)
  }

  /** The row a known subscription becomes: its state is written without asking the transition table. */
  function Refreshed(existing: Subscription, i: Input, now: int): Subscription {
    existing.(state := if i.state != NO_STATE then i.state else existing.state,
              periodEnd := if i.periodEnd != ZERO_TIME then i.periodEnd else existing.periodEnd,
              periodStart := if i.periodStart != ZERO_TIME then i.periodStart else existing.periodStart,
              updatedAt := now)
  }

  function UpsertFromStripe(r: Repo, i: Input, c: Clock): Step {
    match GetByStripeID(r, i.tenantID, i.stripeID)
    case Ok(existing) => Save(r, Refreshed(existing, i, c.second))
    case Err(e) =>
      if e != NotFound then Step(r, Some(e))
      else match NewSubscription(Stamped(i, c), c.wall)
           case Err(e) => Step(r, Some(e))
           case Ok(s) => Create(r, s)
  }

  function UpsertInvoice(r: Repo, inv: Invoice, now: int): Step {
    if inv.tenantID == "" then Step(r, Some(TenantRequired))
    else PutInvoice(r, inv.(createdAt := if inv.createdAt == ZERO_TIME then now else inv.createdAt, updatedAt := now))
  }

  // ---------------------------------------------------------------- the dispatcher (dispatcher.go)

  datatype StripeSubscription = StripeSubscription(id: string, status: string, customer: string, periodStart: int,
                                                   periodEnd: int, tenantID: string, planID: string)

  datatype StripeInvoice = StripeInvoice(id: string, subscription: string, amountDue: int, currency: string,
                                         periodStart: int, periodEnd: int, tenantID: string)

  /** A verified body, and what the two object decoders make of its data. */
  datatype Body = Garbled | Event(id: string, typ: EventType, sub: Option<StripeSubscription>,
                                  inv: Option<StripeInvoice>)

  function MapStripeStatus(status: string): (s: State)
    ensures !s.Unlisted?
  {
    if status == "trialing" then Trialing
    else if status == "active" then Active
    else if status == "past_due" || status == "unpaid" then PastDue
    else if status == "paused" then Paused
    else if status == "canceled" || status == "incomplete_expired" then Canceled
    else Active
  }

  function UpsertInput(s: StripeSubscription): Input {
    Input(s.id, s.tenantID, s.planID, s.id, s.customer, MapStripeStatus(s.status), s.periodStart, s.periodEnd,
        ZERO_TIME)
  }

  function HandleUpsert(r: Repo, sub: Option<StripeSubscription>, c: Clock): Step {
    if sub.None? || sub.value.id == "" || sub.value.tenantID == "" then Step(r, Some(BadPayload))
    else UpsertFromStripe(r, UpsertInput(sub.value), c)
  }

  function HandleDeleted(r: Repo, sub: Option<StripeSubscription>, c: Clock): Step {
    if sub.None? || sub.value.id == "" || sub.value.tenantID == "" then Step(r, Some(BadPayload))
    else match GetByStripeID(r, sub.value.tenantID, sub.value.id)
         case Err(e) => Step(r, if e == NotFound then None else Some(e))
         case Ok(existing) => Move(r, existing.tenantID, existing.id, Cancel, c.first, c.wall)
  }

  function InvoiceOf(i: StripeInvoice, status: InvoiceStatus): Invoice {
    Invoice(i.id, i.tenantID, i.subscription, i.amountDue, i.currency, status, i.periodStart, i.periodEnd, ZERO_TIME,
        ZERO_TIME)
  }

  /** Both invoice handlers: the invoice is stored, then the subscription moves if its state calls for it; that error
      is dropped. */
  function HandleInvoice(r: Repo, inv: Option<StripeInvoice>, status: InvoiceStatus, from: set<State>, t: Transition,
          c: Clock): Step {
    if inv.None? || inv.value.id == "" then Step(r, Some(BadPayload))
    else
      var stored := UpsertInvoice(r, InvoiceOf(inv.value, status), c.first);
      if stored.error.Some? then stored
      else if inv.value.subscription == "" then Step(stored.repo, None)
      else match GetByStripeID(stored.repo, inv.value.tenantID, inv.value.subscription)
           case Err(_) => Step(stored.repo, None)
           case Ok(existing) =>
             if existing.state in from then
               Step(Move(stored.repo, existing.tenantID, existing.id, t, c.second, c.wall).repo, None)
             else Step(stored.repo, None)
  }

  function Dispatch(r: Repo, b: Body, c: Clock): Step {
    if b.Garbled? || b.id == "" then Step(r, Some(BadPayload))
    else match b.typ
         case SubscriptionCreated => HandleUpsert(r, b.sub, c)
         case SubscriptionUpdated => HandleUpsert(r, b.sub, c)
         case SubscriptionDeleted => HandleDeleted(r, b.sub, c)
         case PaymentSucceeded => HandleInvoice(r, b.inv, Paid, {PastDue}, Recover, c)
         case PaymentFailed => HandleInvoice(r, b.inv, Uncollectible, {Active, Trialing}, MarkPastDue, c)
         case Other(_) => Step(r, None)
  }

  /** `processStripeWebhook`: seen, dispatch, record. */
  function Process(r: Repo, b: Body, c: Clock): Step {
    if b.Garbled? || b.id == "" then Step(r, Some(BadPayload))
    else if b.id in r.events then Step(r, None)
    else
      var done := Dispatch(r, b, c);
      if done.error.Some? then done
      else Step(done.repo.(events := done.repo.events[b.id := EventRow(b.typ, c.wall)]), None)
  }

  // ---------------------------------------------------------------- everything that changes the repository

  datatype Action =
    | CreateSub(input: Input, planKnown: bool, clock: Clock)
    | MoveSub(tenantID: string, id: string, transition: Transition, clock: Clock)
    | Activation(tenantID: string, id: string, clock: Clock)
    | Deliver(body: Body, clock: Clock)

  function Act(r: Repo, a: Action): Step {
    match a
    case CreateSub(i, known, c) => CreateSubscription(r, i, known, c)
    case MoveSub(t, id, tr, c) => Move(r, t, id, tr, c.first, c.wall)
    case Activation(t, id, c) => ActivateSub(r, t, id, c)
    case Deliver(b, c) => Process(r, b, c)
  }

  function Run(r: Repo, actions: seq<Action>): Repo
    decreases |actions|
  {
    if actions == [] then r else Run(Act(r, actions[0]).repo, actions[1..])
  }
}
