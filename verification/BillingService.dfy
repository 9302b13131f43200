/** The webhook and reconciliation use cases (internal/billing/service.go) over the tables they
    write (internal/billing/gorm_repository.go). */
module BillingServices {
  import opened Tables
  import opened Sorting
  import opened Purchases
  import opened Catalog
  import L = Licences
  import opened EntitlementRepositories
  import opened Billing
  import opened Reconciliation

  class BillingService {
    const entitlements: EntitlementRepository
    var purchases: map<Id, Purchase>
    var records: map<string, RecordStatus>
    var flags: map<Id, EventBilling>

    ghost function State(): Ledger reads this, entitlements {
      Ledger(purchases, records, flags, entitlements.State())
    }

    constructor (entitlements: EntitlementRepository, s: Ledger)
      requires s.books == entitlements.State()
      ensures this.entitlements == entitlements && State() == s
    {
      this.entitlements := entitlements;
      purchases, records, flags := s.purchases, s.records, s.flags;
    }

    /** True for a delivery whose key was already handled; a failed one is taken over. */
    method InsertProviderEvent(key: string) returns (duplicate: bool)
      modifies this`records
      ensures duplicate <==> key in old(records) && old(records)[key] != FailedRecord
      ensures records == if duplicate then old(records) else old(records)[key := Received]
    {
      if key !in records {
        records := records[key := Received];
        return false;
      }
      if records[key].FailedRecord? {
        records := records[key := Received];
        return false;
      }
      duplicate := true;
    }

    method SettlePurchase(id: Id, d: Delivery, now: Time) returns (ok: bool)
      requires id in purchases && purchases[id].id == id && !purchases[id].status.Settled?
      modifies this`purchases
      ensures ok <==> d.subtotal >= 0 && d.tax >= 0 && d.total >= 0 && NobodyElses(old(purchases), id, d.transaction)
      ensures var settlement := Settlement(d.subtotal, d.tax, d.total, d.totalCurrency, d.transaction, now);
        purchases == if !ok then old(purchases)
          else old(purchases)[id := old(purchases[id]).(status := PurchaseStatus.Settled, settlement := Some(settlement))]
    {
      ok := d.subtotal >= 0 && d.tax >= 0 && d.total >= 0 && !TransactionTaken(purchases, id, d.transaction);
      if ok {
        purchases := purchases[id := purchases[id].(status := PurchaseStatus.Settled, settlement := Some(SettlementOf(d, now)))];
      }
    }

    method ApplyEntitlement(p: Purchase, at: Time, x: World) returns (ok: bool)
      modifies this, entitlements
      ensures (State(), ok) == Billing.ApplyEntitlement(entitlements.cat, old(State()), p, at, x)
    {
      if p.appliedAt.Some? {
        return true;
      }
      var r := entitlements.ActivatePurchase(LicenceInput(p, at), x.licenceId, x.grantId, x.now);
      if r.Refused? {
        assert entitlements.State() == old(entitlements.State());
        return false;
      }
      if !x.markFails {
        purchases := purchases[p.id := p.(appliedAt := Some(x.now))];
      }
      ok := true;
    }

    method HandleSettlement(p: Purchase, d: Delivery, x: World) returns (ok: bool)
      requires Row(State(), p)
      modifies this, entitlements
      ensures (State(), ok) == Billing.HandleSettlement(entitlements.cat, old(State()), p, d, x)
    {
      if p.status.Settled? {
        ok := ApplyEntitlement(p, OccurredAt(d, x), x);
        return;
      }
      if PostSettlement(p.status) {
        return true;
      }
      if p.priceId != "" && d.priceId != p.priceId {
        return false;
      }
      if d.subtotalCurrency != p.currency || d.totalCurrency != p.currency || d.subtotal != p.quoted {
        return false;
      }
      var settled := SettlePurchase(p.id, d, x.now);
      if !settled {
        return false;
      }
      ok := ApplyEntitlement(purchases[p.id], OccurredAt(d, x), x);
    }

    method HandleFailure(p: Purchase, status: PurchaseStatus) returns (ok: bool)
      requires Row(State(), p)
      modifies this`purchases
      ensures (State(), ok) == Billing.HandleFailure(old(State()), p, status)
    {
      if PostSettlement(p.status) || p.status == status {
        return true;
      }
      purchases := purchases[p.id := p.(status := status)];
      ok := true;
    }

    method SetEventBillingStatus(e: Id, flag: EventBilling)
      modifies this`flags
      ensures State() == SetFlag(old(State()), e, flag)
    {
      if e in flags {
        flags := flags[e := flag];
      }
    }

    method HandleReversal(p: Purchase, d: Delivery, dispute: bool, x: World) returns (ok: bool)
      requires Row(State(), p)
      modifies this, entitlements
      ensures (State(), ok) == Billing.HandleReversal(old(State()), p, d, dispute, x)
    {
      if !PostSettlement(p.status) {
        if Open(p.status) {
          purchases := purchases[p.id := p.(status := Canceled)];
        }
        return true;
      }
      var total := Total(p);
      var returned := if d.amount <= 0 then total else d.amount;
      var cumulative := p.refunded + returned;
      if total > 0 && cumulative > total {
        cumulative := total;
      }
      var status := PartiallyRefunded;
      if dispute {
        status := Disputed;
      } else if total <= 0 || cumulative >= total {
        status := PurchaseStatus.Refunded;
      }
      purchases := purchases[p.id := p.(status := status, refunded := cumulative)];
      if x.withdrawFails {
        return false;
      }
      var revoked := entitlements.RevokeUnconsumed(p.id, x.now);
      if revoked {
        return true;
      }
      if !dispute && status.PartiallyRefunded? {
        return true;
      }
      if x.flagFails {
        return false;
      }
      SetEventBillingStatus(p.eventId, if dispute then PaymentReview else BillingRefunded);
      ok := true;
    }

    method HandleDisputeReversed(p: Purchase, d: Delivery, x: World) returns (ok: bool)
      requires Row(State(), p)
      modifies this`purchases, this`flags
      ensures (State(), ok) == Billing.HandleDisputeReversed(old(State()), p, d, x)
    {
      if !p.status.Disputed? {
        return true;
      }
      var remaining := p.refunded - d.amount;
      if d.amount <= 0 || remaining < 0 {
        remaining := 0;
      }
      purchases := purchases[p.id := p.(status := PurchaseStatus.Settled, refunded := remaining)];
      if x.flagFails {
        return false;
      }
      SetEventBillingStatus(p.eventId, BillingOk);
      ok := true;
    }

    method HandleProviderEvent(d: Delivery, x: World) returns (ok: bool)
      requires Valid(State())
      modifies this, entitlements
      ensures (State(), ok) == Billing.HandleProviderEvent(entitlements.cat, old(State()), d, x)
      ensures Valid(State()) && Evolved(old(State()), State())
    {
      DeliverKeeps(entitlements.cat, State(), d, x);
      var duplicate := InsertProviderEvent(d.key);
      if duplicate {
        return true;
      }
      ok := Dispatch(d, x);
      if !x.recordFails {
        records := records[d.key := if ok then Processed else FailedRecord];
      }
    }

    method Dispatch(d: Delivery, x: World) returns (ok: bool)
      requires forall id :: id in purchases ==> purchases[id].id == id
      modifies this, entitlements
      ensures (State(), ok) == Route(entitlements.cat, old(State()), d, x)
    {
      if d.kind.IgnoredKind? {
        return true;
      }
      if d.purchaseId.None? {
        return false;
      }
      if d.kind.UnknownKind? {
        return true;
      }
      if d.purchaseId.value !in purchases {
        return false;
      }
      var p := purchases[d.purchaseId.value];
      ok := true;
      match d.kind
      case PaymentSettled => ok := HandleSettlement(p, d, x);
      case PaymentFailed => ok := HandleFailure(p, PurchaseStatus.Failed);
      case PaymentCanceled => ok := HandleFailure(p, Canceled);
      case PaymentRefunded => ok := HandleReversal(p, d, false, x);
      case PaymentDisputed => ok := HandleReversal(p, d, true, x);
      case DisputeReversed => ok := HandleDisputeReversed(p, d, x);
      case _ =>
    }

    /** The settled purchases whose plan is still owed, those settled longest ago first. */
    method UnappliedSettled(limit: int) returns (rows: seq<Purchase>)
      requires Valid(State())
      ensures rows == Owed(purchases, limit)
    {
      rows := Owed(purchases, limit);
    }

    /** One purchase of the list: applied, or still owed, and no other purchase touched. */
    method RetryOne(p: Purchase, x: World) returns (ok: bool)
      requires Valid(State()) && Row(State(), p) && Unapplied()(p)
      modifies this, entitlements
      ensures Valid(State()) && Evolved(old(State()), State())
      ensures (State(), ok) == Billing.ApplyEntitlement(entitlements.cat, old(State()), p, RetryTime(p, x), x)
      ensures Retried(State(), p.id, !ok, x.markFails)
      ensures purchases.Keys == old(purchases.Keys)
      ensures forall q :: q in old(purchases) && q != p.id ==> q in purchases && purchases[q] == old(purchases)[q]
    {
      ApplyKeeps(entitlements.cat, State(), p, RetryTime(p, x), x);
      ok := ApplyEntitlement(p, RetryTime(p, x), x);
    }

    /** Apply what settled purchases are still owed, oldest settlement first. Every one on the list is
        counted as applied or reported, once; the others stay as they are. Reported are exactly those
        that are not the first one deliverable of their event. When the list has room for all of them
        and no mark fails, what is owed afterwards is what was reported. */
    method ReconcileUnapplied(limit: int, worlds: Id -> World) returns (applied: nat, errs: seq<Id>)
      requires Valid(State())
      modifies this, entitlements
      ensures Valid(State()) && Evolved(old(State()), State()) && purchases.Keys == old(purchases.Keys)
      ensures var rows := Owed(old(purchases), limit);
        && applied + |errs| == |rows| && AllRetried(State(), rows, worlds, errs, |rows|)
        && State() == Reconciled(entitlements.cat, old(State()), rows, worlds, |rows|)
        && forall q :: q in old(purchases) && old(purchases)[q] !in rows ==> purchases[q] == old(purchases)[q]
      ensures FreshWorlds(old(State()).books, Owed(old(purchases), limit), worlds) ==>
        ReportedRight(entitlements.cat, old(State()).books, Owed(old(purchases), limit), errs, |Owed(old(purchases), limit)|)
      ensures |OwedIds(old(purchases))| <= (if limit <= 0 then 50 else limit) && (forall id :: !worlds(id).markFails) ==>
        forall id :: id in OwedIds(purchases) <==> id in errs
    {
      applied, errs := 0, [];
      ghost var s0 := State();
      var rows := UnappliedSettled(limit);
      ProgressBegins(entitlements.cat, s0, rows, worlds, limit);
      for i := 0 to |rows|
        invariant Valid(State()) && applied + |errs| == i
        invariant Progress(entitlements.cat, s0, State(), rows, worlds, errs, i)
      {
        var ok := RetryAt(rows, i, worlds, errs, s0);
        if ok {
          applied := applied + 1;
        } else {
          errs := errs + [rows[i].id];
        }
      }
      ProgressEnds(entitlements.cat, s0, State(), rows, worlds, errs, limit);
    }

    /** The i-th purchase of the list. */
    method RetryAt(rows: seq<Purchase>, i: nat, worlds: Id -> World, ghost errs: seq<Id>, ghost s0: Ledger) returns (ok: bool)
      requires Valid(State()) && i < |rows| && Progress(entitlements.cat, s0, State(), rows, worlds, errs, i)
      modifies this, entitlements
      ensures Valid(State())
      ensures Progress(entitlements.cat, s0, State(), rows, worlds, if ok then errs else errs + [rows[i].id], i + 1)
    {
      ghost var s := State();
      ok := RetryOne(rows[i], worlds(rows[i].id));
      ProgressStep(entitlements.cat, s0, s, State(), rows, worlds, errs, i, ok);
    }
  }

  // ---- The retry loop ----

  /** How far a run over the list has come. */
  ghost predicate Progress(cat: PlanCatalog, s0: Ledger, s: Ledger, rows: seq<Purchase>, worlds: Id -> World, errs: seq<Id>, i: nat) {
    && i <= |rows| && L.Linked(s0.books) && RowsUnder(s0, rows) && Listing(rows)
    && Evolved(s0, s) && s.purchases.Keys == s0.purchases.Keys && s == Reconciled(cat, s0, rows, worlds, i)
    && Reported(rows, errs, i) && Waiting(s, rows, i) && AllRetried(s, rows, worlds, errs, i) && Untouched(s0, s, rows)
    && (FreshWorlds(s0.books, rows, worlds) ==> ReportedRight(cat, s0.books, rows, errs, i))
  }

  lemma ProgressBegins(cat: PlanCatalog, s0: Ledger, rows: seq<Purchase>, worlds: Id -> World, limit: int)
    requires Valid(s0) && rows == Owed(s0.purchases, limit)
    ensures Progress(cat, s0, s0, rows, worlds, [], 0)
  {
    EvolvedSelf(s0);
    OwedRows(s0, limit);
    OwedIsListing(s0, limit);
  }

  lemma ProgressEnds(cat: PlanCatalog, s0: Ledger, s: Ledger, rows: seq<Purchase>, worlds: Id -> World, errs: seq<Id>, limit: int)
    requires Valid(s0) && Valid(s) && rows == Owed(s0.purchases, limit) && Progress(cat, s0, s, rows, worlds, errs, |rows|)
    ensures forall q :: q in s0.purchases && s0.purchases[q] !in rows ==> q in s.purchases && s.purchases[q] == s0.purchases[q]
    ensures |OwedIds(s0.purchases)| <= ListLimit(limit) && (forall id :: !worlds(id).markFails) ==>
      forall id :: id in OwedIds(s.purchases) <==> id in errs
  {
    if |OwedIds(s0.purchases)| <= ListLimit(limit) {
      AllListed(s0, limit);
      OwedAfter(s0, s, rows, worlds, errs);
    }
  }

  lemma ProgressStep(cat: PlanCatalog, s0: Ledger, s: Ledger, s': Ledger, rows: seq<Purchase>, worlds: Id -> World,
                     before: seq<Id>, i: nat, ok: bool)
    requires i < |rows| && Progress(cat, s0, s, rows, worlds, before, i) && Evolved(s, s') && s'.purchases.Keys == s.purchases.Keys
    requires (s', ok) == Billing.ApplyEntitlement(cat, s, rows[i], RetryTime(rows[i], worlds(rows[i].id)), worlds(rows[i].id))
    requires Retried(s', rows[i].id, !ok, worlds(rows[i].id).markFails)
    requires forall q :: q in s.purchases && q != rows[i].id ==> q in s'.purchases && s'.purchases[q] == s.purchases[q]
    ensures Progress(cat, s0, s', rows, worlds, if ok then before else before + [rows[i].id], i + 1)
  {
    var errs := if ok then before else before + [rows[i].id];
    assert rows[i] in rows && Row(s0, rows[i]);
    EvolvedThen(s0, s, s');
    OneRetried(s, s', rows, worlds, before, errs, i, ok);
    StillUntouched(s0, s, s', rows, i);
    OneReported(cat, s0, rows, worlds, before, errs, i, ok);
  }

  /** The listed purchases from the i-th on are as the list found them. */
  ghost predicate Waiting(s: Ledger, rows: seq<Purchase>, i: nat) {
    && (forall j, k :: 0 <= j < k < |rows| ==> rows[j].id != rows[k].id)
    && forall j :: i <= j < |rows| ==> Row(s, rows[j]) && Unapplied()(rows[j])
  }

  ghost predicate Reported(rows: seq<Purchase>, errs: seq<Id>, n: nat)
    requires n <= |rows|
  {
    forall e :: e in errs ==> exists j :: 0 <= j < n && rows[j].id == e
  }

  ghost predicate AllRetried(s: Ledger, rows: seq<Purchase>, worlds: Id -> World, errs: seq<Id>, n: nat)
    requires n <= |rows|
  {
    forall j :: 0 <= j < n ==> Retried(s, rows[j].id, rows[j].id in errs, worlds(rows[j].id).markFails)
  }

  /** The reported ones of the first n are those that are not their event's first deliverable one. */
  ghost predicate ReportedRight(cat: PlanCatalog, b: L.Books, rows: seq<Purchase>, errs: seq<Id>, n: nat)
    requires n <= |rows|
  {
    forall i :: 0 <= i < n ==> (rows[i].id in errs <==> !FirstDeliverable(cat, b, rows, i))
  }

  lemma OneReported(cat: PlanCatalog, s0: Ledger, rows: seq<Purchase>, worlds: Id -> World, before: seq<Id>, errs: seq<Id>,
                    i: nat, ok: bool)
    requires i < |rows| && L.Linked(s0.books) && Listing(rows) && Reported(rows, before, i)
    requires errs == if ok then before else before + [rows[i].id]
    requires ok == Delivered(cat, s0, rows, worlds, i)
    requires FreshWorlds(s0.books, rows, worlds) ==> ReportedRight(cat, s0.books, rows, before, i)
    ensures FreshWorlds(s0.books, rows, worlds) ==> ReportedRight(cat, s0.books, rows, errs, i + 1)
  {
    if FreshWorlds(s0.books, rows, worlds) {
      ReconcileOutcome(cat, s0, rows, worlds, i);
      assert rows[i].id !in before;
    }
  }

  lemma OneRetried(s: Ledger, s': Ledger, rows: seq<Purchase>, worlds: Id -> World, before: seq<Id>, errs: seq<Id>, i: nat, ok: bool)
    requires i < |rows| && Waiting(s, rows, i) && AllRetried(s, rows, worlds, before, i) && Reported(rows, before, i)
    requires errs == if ok then before else before + [rows[i].id]
    requires Retried(s', rows[i].id, !ok, worlds(rows[i].id).markFails)
    requires forall q :: q in s.purchases && q != rows[i].id ==> q in s'.purchases && s'.purchases[q] == s.purchases[q]
    ensures Waiting(s', rows, i + 1) && AllRetried(s', rows, worlds, errs, i + 1) && Reported(rows, errs, i + 1)
  {
    forall e | e in errs ensures exists j :: 0 <= j < i + 1 && rows[j].id == e {
      if e in before {
        var j :| 0 <= j < i && rows[j].id == e;
      } else {
        assert rows[i].id == e;
      }
    }
  }

  /** What a listed purchase came to: reported and still owed, or applied unless marking it failed. */
  ghost predicate Retried(s: Ledger, id: Id, reported: bool, markFails: bool) {
    id in s.purchases && if reported then Unapplied()(s.purchases[id]) else markFails || s.purchases[id].appliedAt.Some?
  }

  /** Rows that are not on the list stay as they are. */
  ghost predicate Untouched(s0: Ledger, s: Ledger, rows: seq<Purchase>) {
    forall q :: q in s0.purchases && s0.purchases[q] !in rows ==> q in s.purchases && s.purchases[q] == s0.purchases[q]
  }

  lemma StillUntouched(s0: Ledger, s: Ledger, s': Ledger, rows: seq<Purchase>, i: nat)
    requires i < |rows| && Untouched(s0, s, rows) && Row(s0, rows[i])
    requires forall q :: q in s.purchases && q != rows[i].id ==> q in s'.purchases && s'.purchases[q] == s.purchases[q]
    ensures Untouched(s0, s', rows)
  {
  }

  lemma OwedAfter(s0: Ledger, s: Ledger, rows: seq<Purchase>, worlds: Id -> World, errs: seq<Id>)
    requires Valid(s0) && s.purchases.Keys == s0.purchases.Keys && RowsUnder(s0, rows) && Untouched(s0, s, rows)
    requires forall id :: id in OwedIds(s0.purchases) ==> s0.purchases[id] in rows
    requires AllRetried(s, rows, worlds, errs, |rows|) && Reported(rows, errs, |rows|)
    ensures (forall id :: !worlds(id).markFails) ==> forall id :: id in OwedIds(s.purchases) <==> id in errs
  {
    forall id | id in OwedIds(s.purchases) ensures id in errs || worlds(id).markFails {
      assert s0.purchases[id] in rows;
      var j :| 0 <= j < |rows| && rows[j] == s0.purchases[id];
      assert Row(s0, rows[j]);
    }
    forall id | id in errs ensures id in OwedIds(s.purchases) {
      var j :| 0 <= j < |rows| && rows[j].id == id;
    }
  }

  lemma EvolvedSelf(s: Ledger)
    ensures Evolved(s, s)
  {
  }
}
