/** The in-memory repository and the service that drives it, method by method against module Billing. */
module BillingRepository {
  import opened Text
  import opened Billing
  import opened BillingTheorems

  /** Making the inner map first comes to the same as `Put`. */
  lemma PutInside<V>(m: Table<V>, tenant: string, key: string, v: V)
    ensures var n := if tenant in m then m else m[tenant := map[]];
            n[tenant := n[tenant][key := v]] == Put(m, tenant, key, v)
  {
  }

  class InMemoryRepository {
    var subs: Table<Subscription>
    var subStripe: Table<string>
    var invoices: Table<Invoice>
    var events: map<string, EventRow>

    ghost function View(): Repo
      reads this
    {
      Repo(subs, subStripe, invoices, events)
    }

    /** Rows sit under their own keys, and the index is sound and complete. */
    ghost predicate Valid()
      reads this
    {
      Inv(View())
    }

    constructor ()
      ensures Valid() && View() == EMPTY
    {
      subs, subStripe, invoices, events := map[], map[], map[], map[];
    }

    /** The common tail of create and save: the row, then the index. */
    method Write(s: Subscription)
      modifies this
      ensures View() == Store(old(View()), s)
    {
      hide Put;
      PutInside(subs, s.tenantID, s.id, s);
      PutInside(subStripe, s.tenantID, s.stripeID, s.id);
      if s.tenantID !in subs {
        subs := subs[s.tenantID := map[]];
      }
      subs := subs[s.tenantID := subs[s.tenantID][s.id := s]];
      if s.stripeID != "" {
        if s.tenantID !in subStripe {
          subStripe := subStripe[s.tenantID := map[]];
        }
        subStripe := subStripe[s.tenantID := subStripe[s.tenantID][s.stripeID := s.id]];
      }
    }

    method CreateSubscription(s: Subscription) returns (err: Option<Error>)
      requires Valid()
      modifies this
      ensures Step(View(), err) == Create(old(View()), s)
      ensures Valid() <==> err.Some? || Fit(s)
      ensures err.Some? ==> View() == old(View())
      ensures err == if s.tenantID == "" then Some(TenantRequired)
                     else if At(old(View()).subs, s.tenantID, s.id).Some? then Some(AlreadyExists)
                     else None
    {
      hide Store, Inv, Fit;
      CreateKeeps(View(), s);
      if s.tenantID == "" {
        return Some(TenantRequired);
      }
      if s.tenantID in subs && s.id in subs[s.tenantID] {
        return Some(AlreadyExists);
      }
      Write(s);
      return None;
    }

    method GetSubscription(tenant: string, id: string) returns (r: Result<Subscription>)
      requires Valid()
      ensures r == Get(View(), tenant, id)
      ensures r.Ok? ==> r.value.tenantID == tenant && r.value.id == id
      ensures r.Err? ==> r.error == if tenant == "" then TenantRequired else NotFound
    {
      hide Inv;
      if At(View().subs, tenant, id).Some? {
        RowIsKeyed(View(), tenant, id);
      }
      if tenant == "" {
        return Err(TenantRequired);
      }
      if tenant !in subs {
        return Err(NotFound);
      }
      var rows := subs[tenant];
      if id !in rows {
        return Err(NotFound);
      }
      return Ok(rows[id]);
    }

    method GetSubscriptionByStripeID(tenant: string, stripeID: string) returns (r: Result<Subscription>)
      requires Valid()
      ensures r == GetByStripeID(View(), tenant, stripeID)
      ensures r.Ok? ==> r.value.stripeID == stripeID && At(View().subs, tenant, r.value.id) == Some(r.value)
      ensures r == Err(TenantRequired) <==> tenant == ""
      ensures r.Err? ==> forall id | At(View().subs, tenant, id).Some? && stripeID != "" ::
                           At(View().subs, tenant, id).value.stripeID != stripeID
    {
      if tenant == "" {
        return Err(TenantRequired);
      }
      if tenant !in subStripe {
        return Err(NotFound);
      }
      var rows := subStripe[tenant];
      if stripeID !in rows {
        return Err(NotFound);
      }
      var id := rows[stripeID];
      return Ok(if tenant in subs && id in subs[tenant] then subs[tenant][id] else ZERO_SUBSCRIPTION);
    }

    method SaveSubscription(s: Subscription) returns (err: Option<Error>)
      requires Valid()
      modifies this
      ensures Step(View(), err) == Save(old(View()), s)
      ensures Valid() <==> err.Some? || (Fit(s) && !Orphans(old(View()), s))
      ensures err.Some? ==> View() == old(View())
      ensures err == if s.tenantID == "" then Some(TenantRequired)
                     else if At(old(View()).subs, s.tenantID, s.id).None? then Some(NotFound)
                     else None
    {
      hide Store, Inv, Fit, Orphans;
      SaveFinds(View(), s);
      if s.tenantID == "" {
        return Some(TenantRequired);
      }
      if s.tenantID !in subs {
        return Some(NotFound);
      }
      if s.id !in subs[s.tenantID] {
        return Some(NotFound);
      }
      Write(s);
      return None;
    }

    method UpsertInvoice(invoice: Invoice) returns (err: Option<Error>)
      requires Valid()
      modifies this
      ensures Valid()
      ensures Step(View(), err) == PutInvoice(old(View()), invoice)
      ensures err == if invoice.tenantID == "" then Some(TenantRequired) else None
      ensures err.Some? ==> View() == old(View())
    {
      hide Inv;
      InvoicesAreApart(View(), PutInvoice(View(), invoice).repo);
      if invoice.tenantID == "" {
        return Some(TenantRequired);
      }
      var inv := invoice;
      if inv.tenantID !in invoices {
        invoices := invoices[inv.tenantID := map[]];
      }
      if inv.id in invoices[inv.tenantID] {
        var existing := invoices[inv.tenantID][inv.id];
        if existing.createdAt != ZERO_TIME {
          inv := inv.(createdAt := existing.createdAt);
        }
      }
      invoices := invoices[inv.tenantID := invoices[inv.tenantID][inv.id := inv]];
      assert invoices == Put(old(invoices), inv.tenantID, inv.id, inv);
      return None;
    }

    method StripeEventSeen(id: string) returns (seen: bool)
      ensures seen == (id in events)
    {
      seen := id in events;
    }

    method StripeEventRecord(id: string, typ: EventType, occurredAt: int) returns (ok: bool)
      requires Valid()
      modifies this
      ensures Valid()
      ensures ok <==> id != ""
      ensures View() == if ok then old(View()).(events := old(events)[id := EventRow(typ, occurredAt)]) else old(View())
    {
      if id == "" {
        return false;
      }
      events := events[id := EventRow(typ, occurredAt)];
      return true;
    }
  }

  class Service {
    const repo: InMemoryRepository

    constructor (repo: InMemoryRepository)
      requires repo.Valid()
      ensures this.repo == repo && repo.Valid()
    {
      this.repo := repo;
    }

    method CreateSub(input: Input, planKnown: bool, c: Clock) returns (err: Option<Error>)
      requires repo.Valid()
      modifies repo
      ensures repo.Valid()
      ensures Step(repo.View(), err) == CreateSubscription(old(repo.View()), input, planKnown, c)
      ensures err.Some? ==> repo.View() == old(repo.View())
    {
      hide Create, TrimSpace, InMemoryRepository.View, Inv;
      if !planKnown {
        return Some(PlanNotFound);
      }
      var i := input;
      if i.now == ZERO_TIME {
        i := i.(now := c.first);
      }
      var sub := NewSubscription(i, c.wall);
      if sub.Err? {
        return Some(sub.error);
      }
      err := repo.CreateSubscription(sub.value);
    }

    /** A save after a successful lookup cannot fail, so the table alone decides. */
    method MoveSubscription(tenant: string, id: string, t: Transition, now: int, wall: int) returns (err: Option<Error>)
      requires repo.Valid()
      modifies repo
      ensures repo.Valid()
      ensures Step(repo.View(), err) == Move(old(repo.View()), tenant, id, t, now, wall)
      ensures err.Some? ==> repo.View() == old(repo.View())
      ensures err.None? <==> At(old(repo.View()).subs, tenant, id).Some? &&
                             NextState(At(old(repo.View()).subs, tenant, id).value.state, t).Some?
    {
      hide Save, InMemoryRepository.View, NextState, Inv;
      MoveKeeps(repo.View(), tenant, id, t, now, wall);
      GetFinds(repo.View(), tenant, id);
      if tenant == "" {
        return Some(TenantRequired);
      }
      var sub := repo.GetSubscription(tenant, id);
      if sub.Err? {
        return Some(sub.error);
      }
      var updated := Apply(sub.value, t, now, wall);
      if updated.Err? {
        return Some(updated.error);
      }
      err := repo.SaveSubscription(updated.value);
    }

    method ActivateSubscription(tenant: string, id: string, c: Clock) returns (err: Option<Error>)
      requires repo.Valid()
      modifies repo
      ensures repo.Valid()
      ensures Step(repo.View(), err) == ActivateSub(old(repo.View()), tenant, id, c)
      ensures err.Some? ==> repo.View() == old(repo.View())
      ensures err.None? <==> At(old(repo.View()).subs, tenant, id).Some? &&
                             At(old(repo.View()).subs, tenant, id).value.state in {Trialing, PastDue}
    {
      hide Move, InMemoryRepository.View, Inv;
      GetFinds(repo.View(), tenant, id);
      var sub := repo.GetSubscription(tenant, id);
      if sub.Err? {
        return Some(sub.error);
      }
      var t := Activate;
      if sub.value.state == PastDue {
        t := Recover;
      }
      err := MoveSubscription(tenant, id, t, c.first, c.wall);
    }

    method UpsertSubscriptionFromStripe(input: Input, c: Clock) returns (err: Option<Error>)
      requires repo.Valid()
      modifies repo
      ensures Step(repo.View(), err) == UpsertFromStripe(old(repo.View()), input, c)
      ensures repo.Valid() <==>
              !(input.state.Unlisted? && input.state != NO_STATE &&
                GetByStripeID(old(repo.View()), input.tenantID, input.stripeID).Ok?)
      ensures err.Some? ==> repo.View() == old(repo.View())
      ensures GetByStripeID(old(repo.View()), input.tenantID, input.stripeID).Ok? ==> err.None?
    {
      hide Save, Create, TrimSpace, InMemoryRepository.View, GetByStripeID, Inv;
      UpsertKeeps(repo.View(), input, c);
      var i := input;
      if i.now == ZERO_TIME {
        i := i.(now := c.first);
      }
      var existing := repo.GetSubscriptionByStripeID(i.tenantID, i.stripeID);
      if existing.Ok? {
        LookupIsStored(repo.View(), i.tenantID, i.stripeID);
        var updated := existing.value;
        if i.state != NO_STATE {
          updated := updated.(state := i.state);
        }
        if i.periodEnd != ZERO_TIME {
          updated := updated.(periodEnd := i.periodEnd);
        }
        if i.periodStart != ZERO_TIME {
          updated := updated.(periodStart := i.periodStart);
        }
        updated := updated.(updatedAt := c.second);
        err := repo.SaveSubscription(updated);
      } else if existing.error != NotFound {
        err := Some(existing.error);
      } else {
        var sub := NewSubscription(i, c.wall);
        if sub.Err? {
          return Some(sub.error);
        }
        err := repo.CreateSubscription(sub.value);
      }
    }

    method StoreInvoice(invoice: Invoice, now: int) returns (err: Option<Error>)
      requires repo.Valid()
      modifies repo
      ensures repo.Valid()
      ensures Step(repo.View(), err) == UpsertInvoice(old(repo.View()), invoice, now)
      ensures err.Some? ==> repo.View() == old(repo.View())
      ensures err == if invoice.tenantID == "" then Some(TenantRequired) else None
      ensures var was := At(old(repo.View()).invoices, invoice.tenantID, invoice.id);
              var created := if was.Some? && was.value.createdAt != ZERO_TIME then was.value.createdAt
                             else if invoice.createdAt != ZERO_TIME then invoice.createdAt
                             else now;
              err.None? ==> At(repo.View().invoices, invoice.tenantID, invoice.id)
                            == Some(invoice.(createdAt := created, updatedAt := now))
    {
      hide InMemoryRepository.View, Inv, Put, At;
      UpsertedInvoice(repo.View(), invoice, now);
      if invoice.tenantID == "" {
        return Some(TenantRequired);
      }
      var inv := invoice;
      if inv.createdAt == ZERO_TIME {
        inv := inv.(createdAt := now);
      }
      inv := inv.(updatedAt := now);
      err := repo.UpsertInvoice(inv);
    }

    // -------------------------------------------------------------- the dispatcher

    method SubscriptionUpsert(sub: Option<StripeSubscription>, c: Clock) returns (err: Option<Error>)
      requires repo.Valid()
      modifies repo
      ensures repo.Valid()
      ensures Step(repo.View(), err) == HandleUpsert(old(repo.View()), sub, c)
      ensures err.Some? ==> repo.View() == old(repo.View())
    {
      hide UpsertFromStripe, MapStripeStatus, InMemoryRepository.View, Inv;
      if sub.None? || sub.value.id == "" || sub.value.tenantID == "" {
        return Some(BadPayload);
      }
      err := UpsertSubscriptionFromStripe(UpsertInput(sub.value), c);
    }

    method SubscriptionGone(sub: Option<StripeSubscription>, c: Clock) returns (err: Option<Error>)
      requires repo.Valid()
      modifies repo
      ensures repo.Valid()
      ensures Step(repo.View(), err) == HandleDeleted(old(repo.View()), sub, c)
      ensures err.Some? ==> repo.View() == old(repo.View())
    {
      hide Move, GetByStripeID, InMemoryRepository.View, Inv;
      if sub.None? || sub.value.id == "" || sub.value.tenantID == "" {
        return Some(BadPayload);
      }
      var existing := repo.GetSubscriptionByStripeID(sub.value.tenantID, sub.value.id);
      if existing.Err? {
        return if existing.error == NotFound then None else Some(existing.error);
      }
      err := MoveSubscription(existing.value.tenantID, existing.value.id, Cancel, c.first, c.wall);
    }

    method InvoiceEvent(inv: Option<StripeInvoice>, status: InvoiceStatus, from: set<State>, t: Transition, c: Clock)
      returns (err: Option<Error>)
      requires repo.Valid()
      modifies repo
      ensures repo.Valid()
      ensures Step(repo.View(), err) == HandleInvoice(old(repo.View()), inv, status, from, t, c)
      ensures err.Some? ==> repo.View() == old(repo.View())
      ensures err.None? <==> inv.Some? && inv.value.id != "" && inv.value.tenantID != ""
    {
      hide Move, GetByStripeID, UpsertInvoice, InMemoryRepository.View, Inv;
      if inv.None? || inv.value.id == "" {
        return Some(BadPayload);
      }
      err := StoreInvoice(InvoiceOf(inv.value, status), c.first);
      if err.Some? || inv.value.subscription == "" {
        return;
      }
      var existing := repo.GetSubscriptionByStripeID(inv.value.tenantID, inv.value.subscription);
      if existing.Ok? && existing.value.state in from {
        var dropped := MoveSubscription(existing.value.tenantID, existing.value.id, t, c.second, c.wall);
      }
    }

    method DispatchEvent(b: Body, c: Clock) returns (err: Option<Error>)
      requires repo.Valid()
      modifies repo
      ensures repo.Valid()
      ensures Step(repo.View(), err) == Dispatch(old(repo.View()), b, c)
      ensures repo.events == old(repo.events)
      ensures err.Some? ==> repo.View() == old(repo.View())
    {
      hide HandleUpsert, HandleDeleted, HandleInvoice, Inv;
      DispatchTouches(repo.View(), b, c);
      if b.Garbled? || b.id == "" {
        return Some(BadPayload);
      }
      match b.typ
      case SubscriptionCreated => err := SubscriptionUpsert(b.sub, c);
      case SubscriptionUpdated => err := SubscriptionUpsert(b.sub, c);
      case SubscriptionDeleted => err := SubscriptionGone(b.sub, c);
      case PaymentSucceeded => err := InvoiceEvent(b.inv, Paid, {PastDue}, Recover, c);
      case PaymentFailed => err := InvoiceEvent(b.inv, Uncollectible, {Active, Trialing}, MarkPastDue, c);
      case Other(_) => err := None;
    }

    /** `processStripeWebhook`. */
    method ProcessStripeWebhook(b: Body, c: Clock) returns (err: Option<Error>)
      requires repo.Valid()
      modifies repo
      ensures repo.Valid()
      ensures Step(repo.View(), err) == Process(old(repo.View()), b, c)
      ensures err.Some? || (b.Event? && b.id in old(repo.events)) ==> repo.View() == old(repo.View())
      ensures b.Event? && b.id in old(repo.events) && b.id != "" ==> err.None?
      ensures err.None? ==> b.Event? && repo.events.Keys == old(repo.events.Keys) + {b.id}
    {
      hide Dispatch, Inv;
      if b.Garbled? || b.id == "" {
        return Some(BadPayload);
      }
      var seen := repo.StripeEventSeen(b.id);
      if seen {
        return None;
      }
      err := DispatchEvent(b, c);
      if err.Some? {
        return;
      }
      var recorded := repo.StripeEventRecord(b.id, b.typ, c.wall);
    }
  }
}
