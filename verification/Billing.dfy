/** The purchase machine behind the payment webhooks (internal/billing/service.go and the writes of
    gorm_repository.go). Notifications arrive duplicated, late and out of order; each is handled as
    one step. The functions say what a handler does, `BillingService` is the handler. */
module Billing {
  import opened Tables
  import opened Purchases
  import opened Catalog
  import opened Grants
  import opened Licences

  datatype EventKind =
    | PaymentSettled | PaymentFailed | PaymentCanceled | PaymentRefunded | PaymentDisputed | DisputeReversed
    | IgnoredKind | UnknownKind

  /** A verified notification, with the purchase it was found to be about and its dedupe key. */
  datatype Delivery = Delivery(
    kind: EventKind, purchaseId: Option<Id>, key: string, transaction: string, priceId: string,
    subtotal: int, subtotalCurrency: string, tax: int, total: int, totalCurrency: string,
    amount: int, occurredAt: Option<Time>)

  datatype RecordStatus = Received | Processed | FailedRecord

  datatype EventBilling = BillingOk | PaymentReview | BillingRefunded

  /** What one delivery draws from outside: fresh ids, the clock, and which calls fail. */
  datatype World = World(licenceId: Id, grantId: Id, now: Time,
                         markFails: bool, withdrawFails: bool, flagFails: bool, recordFails: bool)

  datatype Ledger = Ledger(purchases: map<Id, Purchase>, records: map<string, RecordStatus>,
                           flags: map<Id, EventBilling>, books: Books)

  // ---- Repository writes ----

  function Put(s: Ledger, p: Purchase): Ledger { s.(purchases := s.purchases[p.id := p]) }

  /** UNIQUE (provider, provider_transaction_id). */
  predicate TransactionTaken(purchases: map<Id, Purchase>, id: Id, transaction: string) {
    exists q :: q in purchases && q != id && purchases[q].settlement.Some? && purchases[q].settlement.value.transaction == transaction
  }

  function SettlementOf(d: Delivery, now: Time): Settlement {
    Settlement(d.subtotal, d.tax, d.total, d.totalCurrency, d.transaction, now)
  }

  function SetFlag(s: Ledger, e: Id, flag: EventBilling): Ledger {
    if e in s.flags then s.(flags := s.flags[e := flag]) else s
  }

  // ---- Handlers: the new state, and whether the handler succeeded ----

  function LicenceInput(p: Purchase, at: Time): PurchaseInput {
    PurchaseInput(p.id, p.hostId, p.eventId, p.versionId, Some(at))
  }

  function ApplyEntitlement(cat: PlanCatalog, s: Ledger, p: Purchase, at: Time, x: World): (Ledger, bool) {
    if p.appliedAt.Some? then (s, true)
    else
      var (books, r) := ActivatePurchase(cat, s.books, LicenceInput(p, at), x.licenceId, x.grantId, x.now);
      if r.Refused? then (s, false)
      else (if x.markFails then s.(books := books) else Put(s.(books := books), p.(appliedAt := Some(x.now))), true)
  }

  function OccurredAt(d: Delivery, x: World): Time { if d.occurredAt.Some? then d.occurredAt.value else x.now }

  /** The payment is the one that was quoted. */
  predicate Matches(p: Purchase, d: Delivery) {
    && (p.priceId == "" || d.priceId == p.priceId)
    && d.subtotalCurrency == p.currency && d.totalCurrency == p.currency && d.subtotal == p.quoted
  }

  function HandleSettlement(cat: PlanCatalog, s: Ledger, p: Purchase, d: Delivery, x: World): (Ledger, bool) {
    if p.status.Settled? then ApplyEntitlement(cat, s, p, OccurredAt(d, x), x)
    else if PostSettlement(p.status) then (s, true)
    else if !Matches(p, d) then (s, false)
    else if d.subtotal < 0 || d.tax < 0 || d.total < 0 || TransactionTaken(s.purchases, p.id, d.transaction) then (s, false)
    else
      var settled := p.(status := PurchaseStatus.Settled, settlement := Some(SettlementOf(d, x.now)));
      ApplyEntitlement(cat, Put(s, settled), settled, OccurredAt(d, x), x)
  }

  function HandleFailure(s: Ledger, p: Purchase, status: PurchaseStatus): (Ledger, bool) {
    if PostSettlement(p.status) || p.status == status then (s, true) else (Put(s, p.(status := status)), true)
  }

  /** A reversal without an amount is a full one. */
  function Effective(amount: int, total: int): int { if amount <= 0 then total else amount }

  function Cumulative(p: Purchase, amount: int): int {
    var sum := p.refunded + Effective(amount, Total(p));
    if Total(p) > 0 && sum > Total(p) then Total(p) else sum
  }

  function Reversed(p: Purchase, amount: int, dispute: bool): Purchase {
    p.(status := if dispute then Disputed
                 else if Total(p) <= 0 || Cumulative(p, amount) >= Total(p) then PurchaseStatus.Refunded
                 else PartiallyRefunded,
       refunded := Cumulative(p, amount))
  }

  function HandleReversal(s: Ledger, p: Purchase, d: Delivery, dispute: bool, x: World): (Ledger, bool) {
    if !PostSettlement(p.status) then
      (if Open(p.status) then Put(s, p.(status := Canceled)) else s, true)
    else
      var r := Reversed(p, d.amount, dispute);
      var s1 := Put(s, r);
      if x.withdrawFails then (s1, false)
      else
        var (books, revoked) := RevokeUnconsumed(s.books, p.id, x.now);
        var s2 := s1.(books := books);
        if revoked || (!dispute && r.status.PartiallyRefunded?) then (s2, true)
        else if x.flagFails then (s2, false)
        else (SetFlag(s2, p.eventId, if dispute then PaymentReview else BillingRefunded), true)
  }

  function HandleDisputeReversed(s: Ledger, p: Purchase, d: Delivery, x: World): (Ledger, bool) {
    if !p.status.Disputed? then (s, true)
    else
      var remaining := if d.amount <= 0 || p.refunded - d.amount < 0 then 0 else p.refunded - d.amount;
      var s1 := Put(s, p.(status := PurchaseStatus.Settled, refunded := remaining));
      if x.flagFails then (s1, false) else (SetFlag(s1, p.eventId, BillingOk), true)
  }

  /** The handler of one kind of notification about purchase p. */
  function Handle(cat: PlanCatalog, s: Ledger, p: Purchase, d: Delivery, x: World): (Ledger, bool) {
    match d.kind
    case PaymentSettled => HandleSettlement(cat, s, p, d, x)
    case PaymentFailed => HandleFailure(s, p, PurchaseStatus.Failed)
    case PaymentCanceled => HandleFailure(s, p, Canceled)
    case PaymentRefunded => HandleReversal(s, p, d, false, x)
    case PaymentDisputed => HandleReversal(s, p, d, true, x)
    case DisputeReversed => HandleDisputeReversed(s, p, d, x)
    case _ => (s, true)
  }

  function Route(cat: PlanCatalog, s: Ledger, d: Delivery, x: World): (Ledger, bool) {
    if d.kind.IgnoredKind? then (s, true)
    else if d.purchaseId.None? then (s, false)
    else if d.kind.UnknownKind? then (s, true)
    else if d.purchaseId.value !in s.purchases then (s, false)
    else Handle(cat, s, s.purchases[d.purchaseId.value], d, x)
  }

  /** A key is handled once; a delivery that failed may be handled again. */
  predicate Claimable(records: map<string, RecordStatus>, key: string) {
    key !in records || records[key].FailedRecord?
  }

  function Claimed(s: Ledger, key: string): Ledger { s.(records := s.records[key := Received]) }

  function Closed(s: Ledger, key: string, ok: bool, x: World): Ledger {
    if x.recordFails then s else s.(records := s.records[key := if ok then Processed else FailedRecord])
  }

  function HandleProviderEvent(cat: PlanCatalog, s: Ledger, d: Delivery, x: World): (Ledger, bool) {
    if !Claimable(s.records, d.key) then (s, true)
    else
      var (s', ok) := Route(cat, Claimed(s, d.key), d, x);
      (Closed(s', d.key, ok, x), ok)
  }

  // ---- What every state keeps ----

  ghost predicate PurchaseOk(p: Purchase) {
    && (PostSettlement(p.status) <==> p.settlement.Some?)
    && (p.settlement.Some? ==>
         p.settlement.value.subtotal == p.quoted && p.settlement.value.tax >= 0 && p.settlement.value.total >= 0)
    && (!PostSettlement(p.status) ==> p.refunded == 0 && p.appliedAt.None?)
    && p.refunded >= 0
    && (Total(p) > 0 ==>
         && p.refunded <= Total(p)
         && (p.status.Refunded? ==> p.refunded == Total(p))
         && (p.status.PartiallyRefunded? ==> 0 < p.refunded < Total(p)))
  }

  /** Marked as applied only when its own licence was consumed for its own event. */
  ghost predicate Entitled(books: Books, p: Purchase) {
    p.appliedAt.Some? ==>
      && p.id in books.licences
      && var l := books.licences[p.id];
      && l.consumedEventId == Some(p.eventId) && l.accountId == p.hostId && l.versionId == p.versionId
  }

  ghost predicate Valid(s: Ledger) {
    && Linked(s.books)
    && forall id :: id in s.purchases ==>
         s.purchases[id].id == id && PurchaseOk(s.purchases[id]) && Entitled(s.books, s.purchases[id])
  }

  /** What one step may do to a purchase: never leave the settled statuses, never rewrite what was
      settled, never unmark it, never touch what was sold. */
  ghost predicate Evolves(p: Purchase, q: Purchase) {
    && q.id == p.id && q.eventId == p.eventId && q.hostId == p.hostId && q.versionId == p.versionId
    && q.quoted == p.quoted && q.base == p.base && q.discount == p.discount && q.credit == p.credit
    && q.context == p.context && q.currency == p.currency
    && (PostSettlement(p.status) ==> PostSettlement(q.status) && q.settlement == p.settlement)
    && (p.appliedAt.Some? ==> q.appliedAt == p.appliedAt)
  }

  ghost predicate Evolved(s: Ledger, s': Ledger) {
    && LicencesKept(s.books, s'.books)
    && forall id :: id in s.purchases ==> id in s'.purchases && Evolves(s.purchases[id], s'.purchases[id])
  }

  ghost predicate Kept(s: Ledger, s': Ledger) { Valid(s') && Evolved(s, s') }

  ghost predicate Row(s: Ledger, p: Purchase) { p.id in s.purchases && s.purchases[p.id] == p }

  lemma KeptTables(s: Ledger, s1: Ledger, s2: Ledger)
    requires Kept(s, s1) && s2.purchases == s1.purchases && s2.books == s1.books
    ensures Kept(s, s2)
  {
  }

  /** A write to one known purchase. */
  lemma PutKeeps(s: Ledger, p: Purchase)
    requires Valid(s) && p.id in s.purchases && Evolves(s.purchases[p.id], p)
    requires PurchaseOk(p) && Entitled(s.books, p)
    ensures Kept(s, Put(s, p))
  {
  }

  lemma BooksKeep(s: Ledger, books: Books)
    requires Valid(s) && Linked(books) && LicencesKept(s.books, books)
    ensures Kept(s, s.(books := books))
  {
  }

  lemma EvolvedThen(a: Ledger, b: Ledger, c: Ledger)
    requires Evolved(a, b) && Evolved(b, c)
    ensures Evolved(a, c)
  {
  }

  /** A licence activation that is not refused leaves the licence this purchase asked for. */
  lemma ActivatedLicence(cat: PlanCatalog, b: Books, input: PurchaseInput, licenceId: Id, grantId: Id, now: Time)
    ensures var (b', r) := ActivatePurchase(cat, b, input, licenceId, grantId, now);
      !r.Refused? ==>
        && input.purchaseId in b'.licences
        && var l := b'.licences[input.purchaseId];
        && l.consumedEventId == Some(input.eventId) && l.accountId == input.accountId && l.versionId == input.versionId
  {
  }

  lemma ApplyKeeps(cat: PlanCatalog, s: Ledger, p: Purchase, at: Time, x: World)
    requires Valid(s) && Row(s, p) && PostSettlement(p.status)
    ensures var s' := ApplyEntitlement(cat, s, p, at, x).0; Kept(s, s')
  {
    if p.appliedAt.None? {
      var input := LicenceInput(p, at);
      var (books, r) := ActivatePurchase(cat, s.books, input, x.licenceId, x.grantId, x.now);
      PurchaseKeepsLinked(cat, s.books, input, x.licenceId, x.grantId, x.now);
      PurchaseKeepsLicences(cat, s.books, input, x.licenceId, x.grantId, x.now);
      ActivatedLicence(cat, s.books, input, x.licenceId, x.grantId, x.now);
      BooksKeep(s, books);
      if !r.Refused? && !x.markFails { MarkKeeps(s, books, p, x.now); }
    }
  }

  lemma MarkKeeps(s: Ledger, books: Books, p: Purchase, at: Time)
    requires Kept(s, s.(books := books)) && Row(s, p)
    requires PostSettlement(p.status) && p.appliedAt.None? && Entitled(books, p.(appliedAt := Some(at)))
    ensures var s' := Put(s.(books := books), p.(appliedAt := Some(at))); Kept(s, s')
  {
  }

  lemma SettlementKeeps(cat: PlanCatalog, s: Ledger, p: Purchase, d: Delivery, x: World)
    requires Valid(s) && Row(s, p)
    ensures var s' := HandleSettlement(cat, s, p, d, x).0; Kept(s, s')
  {
    if p.status.Settled? {
      ApplyKeeps(cat, s, p, OccurredAt(d, x), x);
    } else if !PostSettlement(p.status) && Matches(p, d) && d.subtotal >= 0 && d.tax >= 0 && d.total >= 0 {
      var settled := p.(status := PurchaseStatus.Settled, settlement := Some(SettlementOf(d, x.now)));
      PutKeeps(s, settled);
      ApplyKeeps(cat, Put(s, settled), settled, OccurredAt(d, x), x);
      EvolvedThen(s, Put(s, settled), ApplyEntitlement(cat, Put(s, settled), settled, OccurredAt(d, x), x).0);
    }
  }

  lemma ReversalKeeps(s: Ledger, p: Purchase, d: Delivery, dispute: bool, x: World)
    requires Valid(s) && Row(s, p)
    ensures var s' := HandleReversal(s, p, d, dispute, x).0; Kept(s, s')
  {
    NothingToWithdraw(s.books, p.id, x.now);
    if !PostSettlement(p.status) {
      PutKeeps(s, p.(status := Canceled));
    } else {
      var s1 := Put(s, Reversed(p, d.amount, dispute));
      PutKeeps(s, Reversed(p, d.amount, dispute));
      KeptTables(s, s1, HandleReversal(s, p, d, dispute, x).0);
    }
  }

  lemma DisputeReversedKeeps(s: Ledger, p: Purchase, d: Delivery, x: World)
    requires Valid(s) && Row(s, p)
    ensures var s' := HandleDisputeReversed(s, p, d, x).0; Kept(s, s')
  {
    if p.status.Disputed? {
      var remaining := if d.amount <= 0 || p.refunded - d.amount < 0 then 0 else p.refunded - d.amount;
      var q := p.(status := PurchaseStatus.Settled, refunded := remaining);
      PutKeeps(s, q);
      KeptTables(s, Put(s, q), HandleDisputeReversed(s, p, d, x).0);
    }
  }

  lemma FailureKeeps(s: Ledger, p: Purchase, status: PurchaseStatus)
    requires Valid(s) && Row(s, p) && !PostSettlement(status)
    ensures Kept(s, HandleFailure(s, p, status).0)
  {
    if !PostSettlement(p.status) { PutKeeps(s, p.(status := status)); }
  }

  lemma HandleKeeps(cat: PlanCatalog, s: Ledger, p: Purchase, d: Delivery, x: World)
    requires Valid(s) && Row(s, p)
    ensures Kept(s, Handle(cat, s, p, d, x).0)
  {
    match d.kind
    case PaymentSettled => SettlementKeeps(cat, s, p, d, x);
    case PaymentFailed => FailureKeeps(s, p, PurchaseStatus.Failed);
    case PaymentCanceled => FailureKeeps(s, p, Canceled);
    case PaymentRefunded => ReversalKeeps(s, p, d, false, x);
    case PaymentDisputed => ReversalKeeps(s, p, d, true, x);
    case DisputeReversed => DisputeReversedKeeps(s, p, d, x);
    case _ =>
  }

  lemma RouteKeeps(cat: PlanCatalog, s: Ledger, d: Delivery, x: World)
    requires Valid(s)
    ensures Kept(s, Route(cat, s, d, x).0)
  {
    if d.kind.IgnoredKind? || d.kind.UnknownKind? || d.purchaseId.None? || d.purchaseId.value !in s.purchases {
      KeptTables(s, s, s);
    } else {
      HandleKeeps(cat, s, s.purchases[d.purchaseId.value], d, x);
    }
  }

  // ---- Runs ----

  /** Webhooks, reconciler retries, other changes to plans and licences, and new checkouts. */
  datatype Step =
    | DeliverStep(d: Delivery, x: World)
    | ReconcileStep(id: Id, x: World)
    | PlansStep(step: Licences.Step)
    | OpenStep(p: Purchase)
    | CheckoutStep(id: Id, checkout: string, priceId: string)

  /** A row of the UnappliedSettled query: only the settled status is asked for. */
  function Unapplied(): Purchase -> bool { (p: Purchase) => p.status.Settled? && p.appliedAt.None? }

  function RetryTime(p: Purchase, x: World): Time { if p.settlement.Some? then p.settlement.value.at else x.now }

  function Retry(cat: PlanCatalog, s: Ledger, id: Id, x: World): (Ledger, bool) {
    if id in s.purchases && Unapplied()(s.purchases[id]) then
      ApplyEntitlement(cat, s, s.purchases[id], RetryTime(s.purchases[id], x), x)
    else (s, true)
  }

  /** UNIQUE (event_id) WHERE status IN ('pending', 'checkout_created'): another purchase has e's place. */
  predicate OpenElsewhere(purchases: map<Id, Purchase>, id: Id, e: Id) {
    exists q :: q in purchases && q != id && purchases[q].eventId == e && Open(purchases[q].status)
  }

  /** UpdateCheckout names its row by id alone; the index may refuse it. */
  function UpdateCheckout(s: Ledger, id: Id, checkout: string, priceId: string): Ledger {
    if id in s.purchases && !OpenElsewhere(s.purchases, id, s.purchases[id].eventId) then
      var p := s.purchases[id].(status := CheckoutCreated, checkout := Some(checkout), priceId := priceId);
      s.(purchases := s.purchases[id := p])
    else s
  }

  /** The insert of CreateCheckout: the event's row exists and the event has no other open purchase. */
  predicate Insertable(s: Ledger, p: Purchase) {
    && p.id !in s.purchases && p.eventId in s.books.plans.events
    && (Open(p.status) ==> !OpenElsewhere(s.purchases, p.id, p.eventId))
  }

  function Next(cat: PlanCatalog, s: Ledger, step: Step): Ledger {
    match step
    case DeliverStep(d, x) => HandleProviderEvent(cat, s, d, x).0
    case ReconcileStep(id, x) => Retry(cat, s, id, x).0
    case PlansStep(step) => s.(books := Licences.Next(cat, s.books, step))
    case OpenStep(p) => if Insertable(s, p) then Put(s, p) else s
    case CheckoutStep(id, checkout, priceId) => UpdateCheckout(s, id, checkout, priceId)
  }

  /** Each step is the call of its name. */
  lemma StepIsCall(cat: PlanCatalog, s: Ledger, step: Step)
    ensures match step
            case DeliverStep(d, x) => Next(cat, s, step) == HandleProviderEvent(cat, s, d, x).0
            case ReconcileStep(id, x) => Next(cat, s, step) == Retry(cat, s, id, x).0
            case PlansStep(other) => Next(cat, s, step) == s.(books := Licences.Next(cat, s.books, other))
            case OpenStep(p) => Next(cat, s, step) == if Insertable(s, p) then s.(purchases := s.purchases[p.id := p]) else s
            case CheckoutStep(id, checkout, priceId) => Next(cat, s, step) == UpdateCheckout(s, id, checkout, priceId)
  {
  }

  function Run(cat: PlanCatalog, s: Ledger, steps: seq<Step>): Ledger
    decreases |steps|
  {
    if steps == [] then s else Run(cat, Next(cat, s, steps[0]), steps[1..])
  }

  /** Recording a checkout does no harm: the payment has not settled, or the index refuses the write. */
  predicate Reopenable(s: Ledger, id: Id)
    requires id in s.purchases
  {
    !PostSettlement(s.purchases[id].status) || OpenElsewhere(s.purchases, id, s.purchases[id].eventId)
  }

  /** A new purchase is pending; a checkout is recorded before its payment settles. */
  predicate Guarded(s: Ledger, step: Step) {
    match step
    case OpenStep(p) => p.status.Pending? && p.settlement.None? && p.refunded == 0 && p.appliedAt.None?
    case CheckoutStep(id, checkout, priceId) => id in s.purchases ==> Reopenable(s, id)
    case _ => true
  }

  /** Notifications, retries and changes of plans may come at any time. */
  lemma GuardedIff(s: Ledger, step: Step)
    ensures Guarded(s, step) <==>
      match step
      case OpenStep(p) => p.status == PurchaseStatus.Pending && p.settlement == None && p.refunded == 0 && p.appliedAt == None
      case CheckoutStep(id, checkout, priceId) => id !in s.purchases || Reopenable(s, id)
      case _ => true
  {
  }

  predicate GuardedRun(cat: PlanCatalog, s: Ledger, steps: seq<Step>)
    decreases |steps|
  {
    steps == [] || (Guarded(s, steps[0]) && GuardedRun(cat, Next(cat, s, steps[0]), steps[1..]))
  }

  /** A run is guarded when each of its steps is, in the state the steps before it left. */
  lemma {:induction false} GuardedRunIff(cat: PlanCatalog, s: Ledger, steps: seq<Step>)
    ensures GuardedRun(cat, s, steps) <==> forall i :: 0 <= i < |steps| ==> Guarded(Run(cat, s, steps[..i]), steps[i])
    decreases |steps|
  {
    if steps != [] {
      var next, rest := Next(cat, s, steps[0]), steps[1..];
      GuardedRunIff(cat, next, rest);
      assert steps[..0] == [];
      forall i | 0 < i < |steps| ensures Run(cat, s, steps[..i]) == Run(cat, next, rest[..i - 1]) && rest[i - 1] == steps[i] {
        assert steps[..i][1..] == rest[..i - 1];
      }
      assert forall i :: 0 <= i < |rest| ==> rest[i] == steps[i + 1] && Run(cat, next, rest[..i]) == Run(cat, s, steps[..i + 1]);
    }
  }

  lemma DeliverKeeps(cat: PlanCatalog, s: Ledger, d: Delivery, x: World)
    requires Valid(s)
    ensures Kept(s, HandleProviderEvent(cat, s, d, x).0)
  {
    KeptTables(s, s, s);
    if Claimable(s.records, d.key) {
      var s1 := Claimed(s, d.key);
      RouteKeeps(cat, s1, d, x);
      EvolvedThen(s, s1, Route(cat, s1, d, x).0);
      KeptTables(s, Route(cat, s1, d, x).0, HandleProviderEvent(cat, s, d, x).0);
    }
  }

  lemma OpenKeeps(s: Ledger, p: Purchase)
    requires Valid(s) && p.id !in s.purchases && Guarded(s, OpenStep(p))
    ensures Kept(s, Put(s, p))
  {
  }

  lemma CheckoutKeeps(s: Ledger, id: Id, checkout: string, priceId: string)
    requires Valid(s) && id in s.purchases && Reopenable(s, id)
    ensures Kept(s, UpdateCheckout(s, id, checkout, priceId))
  {
  }

  lemma NextKeepsValid(cat: PlanCatalog, s: Ledger, step: Step)
    requires Valid(s) && Guarded(s, step)
    ensures Kept(s, Next(cat, s, step))
  {
    match step
    case DeliverStep(d, x) => DeliverKeeps(cat, s, d, x);
    case ReconcileStep(id, x) =>
      if id in s.purchases && Unapplied()(s.purchases[id]) {
        ApplyKeeps(cat, s, s.purchases[id], RetryTime(s.purchases[id], x), x);
      }
    case PlansStep(step) =>
      NextKeepsLinked(cat, s.books, step);
      BooksKeep(s, Licences.Next(cat, s.books, step));
    case OpenStep(p) => if Insertable(s, p) { OpenKeeps(s, p); }
    case CheckoutStep(id, checkout, priceId) => if id in s.purchases { CheckoutKeeps(s, id, checkout, priceId); }
  }

  /** For every order, delay and repetition of webhooks, reconciler runs and failing calls: settled
      statuses are never left, settled amounts are written once and match the quote, refunds stay
      within the settled total, and a purchase is marked as applied only with its own consumed
      licence, of which it has one. */
  lemma {:induction false} PurchasesStayConsistent(cat: PlanCatalog, s: Ledger, steps: seq<Step>)
    requires Valid(s) && GuardedRun(cat, s, steps)
    ensures Kept(s, Run(cat, s, steps))
    decreases |steps|
  {
    if steps != [] {
      NextKeepsValid(cat, s, steps[0]);
      PurchasesStayConsistent(cat, Next(cat, s, steps[0]), steps[1..]);
      EvolvedThen(s, Next(cat, s, steps[0]), Run(cat, s, steps));
    }
  }

  /** A purchase marked as applied has exactly one grant, on its own event. */
  lemma AppliedMeansOneGrant(s: Ledger, id: Id)
    requires Valid(s) && id in s.purchases && s.purchases[id].appliedAt.Some?
    ensures id in s.books.licences && HasGrant(s.books.plans.grants, id, s.books.licences[id])
    ensures forall g, h :: g in s.books.plans.grants && h in s.books.plans.grants && Pays(g, id) && Pays(h, id) ==> g == h
    ensures forall g :: g in s.books.plans.grants && Pays(g, id) ==> g.eventId == s.purchases[id].eventId
  {
  }

  ghost predicate Pays(g: Grant, id: Id) { g.source == SourcePurchase && g.reference == Some(BillingPurchase(id)) }

  /** UpdateCheckout has no status guard: it keeps the invariant exactly when the payment has not
      settled or another purchase of the event is open, whose place in the index refuses the write. */
  lemma LateCheckoutReopens(s: Ledger, id: Id, checkout: string, priceId: string)
    requires Valid(s) && id in s.purchases
    ensures Valid(UpdateCheckout(s, id, checkout, priceId)) <==>
      !PostSettlement(s.purchases[id].status)
      || exists q :: q in s.purchases && q != id && s.purchases[q].eventId == s.purchases[id].eventId && Open(s.purchases[q].status)
  {
    if Reopenable(s, id) {
      CheckoutKeeps(s, id, checkout, priceId);
    } else {
      assert !PurchaseOk(UpdateCheckout(s, id, checkout, priceId).purchases[id]);
    }
  }

  // ---- One open purchase per event ----

  ghost predicate Keyed(s: Ledger) { forall id :: id in s.purchases ==> s.purchases[id].id == id }

  ghost predicate OneOpen(s: Ledger) {
    forall p, q :: p in s.purchases && q in s.purchases && p != q && s.purchases[p].eventId == s.purchases[q].eventId ==>
      !Open(s.purchases[p].status) || !Open(s.purchases[q].status)
  }

  /** No purchase opened, and none is new. */
  ghost predicate NoneOpened(s: Ledger, s': Ledger) {
    && s'.purchases.Keys == s.purchases.Keys
    && forall id :: id in s.purchases ==>
         && s'.purchases[id].id == s.purchases[id].id && s'.purchases[id].eventId == s.purchases[id].eventId
         && (Open(s'.purchases[id].status) ==> Open(s.purchases[id].status))
  }

  lemma ApplyOpensNone(cat: PlanCatalog, s: Ledger, p: Purchase, at: Time, x: World)
    requires Row(s, p)
    ensures NoneOpened(s, ApplyEntitlement(cat, s, p, at, x).0)
  {
  }

  lemma SettlementOpensNone(cat: PlanCatalog, s: Ledger, p: Purchase, d: Delivery, x: World)
    requires Row(s, p)
    ensures NoneOpened(s, HandleSettlement(cat, s, p, d, x).0)
  {
    if p.status.Settled? {
      ApplyOpensNone(cat, s, p, OccurredAt(d, x), x);
    } else if !PostSettlement(p.status) {
      var settled := SettledRow(p, d, x.now);
      ApplyOpensNone(cat, Put(s, settled), settled, OccurredAt(d, x), x);
    }
  }

  lemma PutOpensNone(s: Ledger, p: Purchase, p': Purchase, s': Ledger)
    requires Row(s, p) && p'.id == p.id && p'.eventId == p.eventId && (Open(p'.status) ==> Open(p.status))
    requires s'.purchases == s.purchases[p.id := p']
    ensures NoneOpened(s, s')
  {
  }

  lemma ReversalOpensNone(s: Ledger, p: Purchase, d: Delivery, dispute: bool, x: World)
    requires Row(s, p)
    ensures NoneOpened(s, HandleReversal(s, p, d, dispute, x).0)
  {
    var s' := HandleReversal(s, p, d, dispute, x).0;
    if PostSettlement(p.status) {
      PutOpensNone(s, p, Reversed(p, d.amount, dispute), s');
    } else if Open(p.status) {
      PutOpensNone(s, p, p.(status := Canceled), s');
    }
  }

  lemma DisputeReversedOpensNone(s: Ledger, p: Purchase, d: Delivery, x: World)
    requires Row(s, p)
    ensures NoneOpened(s, HandleDisputeReversed(s, p, d, x).0)
  {
    var s' := HandleDisputeReversed(s, p, d, x).0;
    if p.status.Disputed? { PutOpensNone(s, p, s'.purchases[p.id], s'); }
  }

  lemma HandleOpensNone(cat: PlanCatalog, s: Ledger, p: Purchase, d: Delivery, x: World)
    requires Row(s, p)
    ensures NoneOpened(s, Handle(cat, s, p, d, x).0)
  {
    match d.kind
    case PaymentSettled => SettlementOpensNone(cat, s, p, d, x);
    case PaymentRefunded => ReversalOpensNone(s, p, d, false, x);
    case PaymentDisputed => ReversalOpensNone(s, p, d, true, x);
    case DisputeReversed => DisputeReversedOpensNone(s, p, d, x);
    case _ =>
  }

  lemma DeliverOpensNone(cat: PlanCatalog, s: Ledger, d: Delivery, x: World)
    requires Keyed(s)
    ensures NoneOpened(s, HandleProviderEvent(cat, s, d, x).0)
  {
    RouteOpensNone(cat, Claimed(s, d.key), d, x);
  }

  lemma RouteOpensNone(cat: PlanCatalog, s: Ledger, d: Delivery, x: World)
    requires Keyed(s)
    ensures NoneOpened(s, Route(cat, s, d, x).0)
  {
    if d.purchaseId.Some? && d.purchaseId.value in s.purchases {
      HandleOpensNone(cat, s, s.purchases[d.purchaseId.value], d, x);
    }
  }

  lemma NextKeepsOneOpen(cat: PlanCatalog, s: Ledger, step: Step)
    requires Keyed(s) && OneOpen(s)
    ensures Keyed(Next(cat, s, step)) && OneOpen(Next(cat, s, step))
  {
    match step
    case DeliverStep(d, x) => DeliverOpensNone(cat, s, d, x);
    case ReconcileStep(id, x) =>
      if id in s.purchases && Unapplied()(s.purchases[id]) {
        ApplyOpensNone(cat, s, s.purchases[id], RetryTime(s.purchases[id], x), x);
      }
    case _ =>
  }

  /** Whatever is opened, paid, canceled and recorded, in every run: an event has one checkout in
      flight at most. */
  lemma {:induction false} OneOpenPerEvent(cat: PlanCatalog, s: Ledger, steps: seq<Step>)
    requires Keyed(s) && OneOpen(s)
    ensures OneOpen(Run(cat, s, steps))
    decreases |steps|
  {
    if steps != [] {
      NextKeepsOneOpen(cat, s, steps[0]);
      OneOpenPerEvent(cat, Next(cat, s, steps[0]), steps[1..]);
    }
  }

  /** Once one purchase of an event is applied no other purchase of that event ever is, whatever is
      retried: a paid upgrade of a paid event settles and is never granted. */
  lemma SecondPaidPurchaseStaysOwed(cat: PlanCatalog, s: Ledger, steps: seq<Step>, first: Id, second: Id)
    requires Valid(s) && GuardedRun(cat, s, steps)
    requires first in s.purchases && second in s.purchases && first != second
    requires s.purchases[first].eventId == s.purchases[second].eventId && s.purchases[first].appliedAt.Some?
    ensures second in Run(cat, s, steps).purchases && Run(cat, s, steps).purchases[second].appliedAt.None?
  {
    PurchasesStayConsistent(cat, s, steps);
    var s' := Run(cat, s, steps);
    assert Entitled(s'.books, s'.purchases[first]) && Entitled(s'.books, s'.purchases[second]);
  }

  /** The flag a reversal puts on the event: review for a dispute, refunded once everything went
      back, nothing for a partial refund; a dispute decided for the host clears it. No reversal
      touches a licence, a plan or a grant. */
  lemma ReversalsOnlyFlag(s: Ledger, p: Purchase, d: Delivery, dispute: bool, x: World)
    requires Valid(s) && Row(s, p) && PostSettlement(p.status) && p.eventId in s.flags && !x.withdrawFails && !x.flagFails
    ensures var (s', ok) := HandleReversal(s, p, d, dispute, x);
      && ok && s'.books == s.books && s'.flags.Keys == s.flags.Keys
      && s'.flags[p.eventId] ==
           (if dispute then PaymentReview
            else if Total(p) <= 0 || p.refunded + Effective(d.amount, Total(p)) >= Total(p) then BillingRefunded
            else s.flags[p.eventId])
    ensures var (s', ok) := HandleDisputeReversed(s, p, d, x);
      && ok && s'.books == s.books && s'.flags.Keys == s.flags.Keys
      && s'.flags[p.eventId] == if p.status.Disputed? then BillingOk else s.flags[p.eventId]
  {
    NothingToWithdraw(s.books, p.id, x.now);
  }

  /** Some event was activated with what the purchase bought. */
  predicate ConsumedFor(b: Books, purchaseId: Id) {
    purchaseId in b.licences && b.licences[purchaseId].status.Consumed?
  }

  /** Some event got a grant that this purchase's licence paid for. */
  ghost predicate BoughtAGrant(b: Books, purchaseId: Id) {
    exists g :: g in b.plans.grants && g.licenceId.Some? && Pays(g, purchaseId)
  }

  /** The policy of a reversal: the event is flagged only when the purchase bought a grant. A clean full
      refund or dispute flags it although none was ever bought exactly when the purchase has no
      licence, that is, while it settled and was not applied. */
  lemma FlagsUnconsumedIff(s: Ledger, p: Purchase, d: Delivery, dispute: bool, x: World)
    requires Valid(s) && Row(s, p) && PostSettlement(p.status) && p.eventId in s.flags && !x.withdrawFails && !x.flagFails
    requires dispute || Reversed(p, d.amount, false).status.Refunded?
    ensures var s' := HandleReversal(s, p, d, dispute, x).0;
      (s'.flags[p.eventId] == (if dispute then PaymentReview else BillingRefunded) && !BoughtAGrant(s'.books, p.id))
        <==> p.id !in s.books.licences
    ensures p.id !in s.books.licences ==> p.appliedAt.None?
  {
    NothingToWithdraw(s.books, p.id, x.now);
    if p.id in s.books.licences {
      var g :| g in s.books.plans.grants && PaidBy(g, p.id, s.books.licences[p.id]);
      assert g.licenceId.Some? && Pays(g, p.id);
    } else {
      NoLicenceNoGrant(s.books, p.id);
    }
  }

  lemma NoLicenceNoGrant(b: Books, purchaseId: Id)
    requires Linked(b) && purchaseId !in b.licences
    ensures !BoughtAGrant(b, purchaseId)
  {
    forall g | g in b.plans.grants && g.licenceId.Some? ensures !Pays(g, purchaseId) {
      assert HasLicence(b.licences, g);
      var q :| q in b.licences && PaidBy(g, q, b.licences[q]);
    }
  }

  /** A dispute decided for the host, after the dispute itself. */
  function Redisputed(s: Ledger, p: Purchase, d: Delivery, d': Delivery, x: World, y: World): Ledger
    requires p.id in HandleReversal(s, p, d, true, x).0.purchases
  {
    var s1 := HandleReversal(s, p, d, true, x).0;
    HandleDisputeReversed(s1, s1.purchases[p.id], d', y).0
  }

  /** What a dispute took is given back by its reversal exactly when the purchase was settled and the
      amounts did not meet the cap; otherwise a partial refund is forgotten, as a status or as an
      amount. The flag comes back exactly when there was none: a flag put there for another reason
      is cleared too. */
  lemma DisputeUndoneIff(s: Ledger, p: Purchase, d: Delivery, d': Delivery, x: World, y: World)
    requires Valid(s) && Row(s, p) && PostSettlement(p.status) && Total(p) > 0 && p.eventId in s.flags && d'.amount == d.amount
    requires !x.withdrawFails && !x.flagFails && !y.flagFails
    ensures p.id in HandleReversal(s, p, d, true, x).0.purchases
    ensures var s' := Redisputed(s, p, d, d', x, y);
      && p.id in s'.purchases && p.eventId in s'.flags && s'.books == s.books
      && (s'.purchases[p.id] == p <==>
           p.status.Settled? && (p.refunded == 0 || (d.amount > 0 && p.refunded + d.amount <= Total(p))))
      && (s'.flags == s.flags <==> s.flags[p.eventId] == BillingOk)
  {
    NothingToWithdraw(s.books, p.id, x.now);
    DisputeArithmetic(p.refunded, d.amount, Total(p));
  }

  lemma DisputeArithmetic(refunded: int, amount: int, total: int)
    requires 0 <= refunded <= total && total > 0
    ensures var sum := refunded + Effective(amount, total);
      var taken := if sum > total then total else sum;
      (if amount <= 0 || taken - amount < 0 then 0 else taken - amount) == refunded <==>
        refunded == 0 || (amount > 0 && refunded + amount <= total)
  {
  }

  lemma ReversalRoute(cat: PlanCatalog, s: Ledger, id: Id, d: Delivery, x: World)
    requires id in s.purchases && d.kind.PaymentRefunded? && d.purchaseId == Some(id)
    ensures Route(cat, Claimed(s, d.key), d, x) == HandleReversal(Claimed(s, d.key), s.purchases[id], d, false, x)
  {
  }

  // ---- The first notification of a payment ----

  /** What the purchase still needs from the plans when its payment settles. */
  ghost predicate Applicable(cat: PlanCatalog, b: Books, p: Purchase) {
    var e := p.eventId;
    && p.versionId in cat.versions
    && e in b.plans.events && !b.plans.events[e].removed && b.plans.events[e].hostId == p.hostId
    && CheckTransition(cat.reg, PlanOf(ActiveGrant(b.plans.grants, e)), cat.versions[p.versionId].code) == Allowed
    && Unpaid(b.licences, e)
  }

  /** A payment notification that settles a purchase. */
  ghost predicate Settles(s: Ledger, p: Purchase, d: Delivery, x: World) {
    && Row(s, p) && !PostSettlement(p.status) && p.id !in s.books.licences && Fresh(s.books, p.id, x.licenceId, x.grantId)
    && d.kind.PaymentSettled? && d.purchaseId == Some(p.id) && Claimable(s.records, d.key) && Matches(p, d)
    && d.subtotal >= 0 && d.tax >= 0 && d.total >= 0 && !TransactionTaken(s.purchases, p.id, d.transaction)
  }

  function SettledRow(p: Purchase, d: Delivery, now: Time): Purchase {
    p.(status := PurchaseStatus.Settled, settlement := Some(SettlementOf(d, now)))
  }

  lemma NotRepeated(cat: PlanCatalog, b: Books, input: PurchaseInput, licenceId: Id, grantId: Id, now: Time)
    requires input.purchaseId !in b.licences
    ensures var (b', r) := ActivatePurchase(cat, b, input, licenceId, grantId, now);
      && !r.AlreadyApplied? && (r.Refused? ==> b' == b)
      && (r.Applied? ==> input.purchaseId in b'.licences && b'.licences[input.purchaseId].status.Consumed?)
      && (r.Applied? ==> b'.licences == b.licences[input.purchaseId := b'.licences[input.purchaseId]])
  {
  }

  function BooksAfter(cat: PlanCatalog, b: Books, p: Purchase, at: Time, x: World): Books {
    ActivatePurchase(cat, b, LicenceInput(p, at), x.licenceId, x.grantId, x.now).0
  }

  /** What the first attempt to apply a purchase leaves. */
  ghost predicate AppliedTo(s: Ledger, p: Purchase, now: Time, books: Books, s': Ledger) {
    && s' == Put(s.(books := books), p.(appliedAt := Some(now)))
    && ConsumedFor(books, p.id) && books.licences == s.books.licences[p.id := books.licences[p.id]]
    && books.licences[p.id].consumedEventId == Some(p.eventId)
  }

  lemma FirstApplyIff(cat: PlanCatalog, s: Ledger, p: Purchase, at: Time, x: World)
    requires Linked(s.books) && p.appliedAt.None? && !x.markFails
    requires p.id !in s.books.licences && Fresh(s.books, p.id, x.licenceId, x.grantId)
    ensures var (s', ok) := ApplyEntitlement(cat, s, p, at, x);
      && (ok <==> Applicable(cat, s.books, p))
      && if ok then AppliedTo(s, p, x.now, BooksAfter(cat, s.books, p, at, x), s') else s' == s
  {
    var input := LicenceInput(p, at);
    PurchaseAppliesIff(cat, s.books, input, x.licenceId, x.grantId, x.now);
    ActivatedLicence(cat, s.books, input, x.licenceId, x.grantId, x.now);
    NotRepeated(cat, s.books, input, x.licenceId, x.grantId, x.now);
  }

  lemma SettlementRoute(cat: PlanCatalog, s: Ledger, p: Purchase, d: Delivery, x: World)
    requires Valid(s) && Settles(s, p, d, x)
    ensures Route(cat, Claimed(s, d.key), d, x) ==
      ApplyEntitlement(cat, Put(Claimed(s, d.key), SettledRow(p, d, x.now)), SettledRow(p, d, x.now), OccurredAt(d, x), x)
  {
  }

  /** The record and the rows after a settlement that was applied or not. */
  ghost predicate SettledAs(s: Ledger, p: Purchase, key: string, now: Time, ok: bool, books: Books, s': Ledger) {
    && s'.records == s.records[key := if ok then Processed else FailedRecord]
    && s'.purchases == s.purchases[p.id := if ok then p.(appliedAt := Some(now)) else p]
    && s'.flags == s.flags
    && s'.books == (if ok then books else s.books)
    && (ok ==> ConsumedFor(books, p.id) && books.licences[p.id].consumedEventId == Some(p.eventId))
    && (ok ==> books.licences == s.books.licences[p.id := books.licences[p.id]])
  }

  lemma SettlementClosed(s: Ledger, p: Purchase, key: string, x: World, books: Books, s2: Ledger, ok: bool)
    requires !x.recordFails
    requires var s1 := Put(Claimed(s, key), p); if ok then AppliedTo(s1, p, x.now, books, s2) else s2 == s1
    ensures SettledAs(s, p, key, x.now, ok, books, Closed(s2, key, ok, x))
  {
  }

  /** The payment is recorded in any case; the plan comes with it exactly when the plans allow, and
      otherwise the purchase is owed and its notification may come again. */
  lemma SettlementAppliesIff(cat: PlanCatalog, s: Ledger, p: Purchase, d: Delivery, x: World)
    requires Valid(s) && Settles(s, p, d, x) && !x.markFails && !x.recordFails
    ensures var (s', ok) := HandleProviderEvent(cat, s, d, x);
      var books := BooksAfter(cat, s.books, p, OccurredAt(d, x), x);
      (ok <==> Applicable(cat, s.books, p)) && SettledAs(s, SettledRow(p, d, x.now), d.key, x.now, ok, books, s')
  {
    var q := SettledRow(p, d, x.now);
    var s1 := Put(Claimed(s, d.key), q);
    var (s2, ok) := ApplyEntitlement(cat, s1, q, OccurredAt(d, x), x);
    FirstApplyIff(cat, s1, q, OccurredAt(d, x), x);
    SettlementRoute(cat, s, p, d, x);
    SettlementClosed(s, q, d.key, x, BooksAfter(cat, s.books, p, OccurredAt(d, x), x), s2, ok);
  }

  /** A purchase paid whose plan the plans do not allow is recorded and owed. */
  lemma PaidAndOwed(cat: PlanCatalog, s: Ledger, p: Purchase, d: Delivery, x: World)
    requires Valid(s) && Settles(s, p, d, x) && !Applicable(cat, s.books, p) && !x.markFails && !x.recordFails
    ensures var s' := HandleProviderEvent(cat, s, d, x).0;
      && Valid(s') && s'.books == s.books && s'.flags == s.flags
      && s'.purchases == s.purchases[p.id := SettledRow(p, d, x.now)] && s'.records == s.records[d.key := FailedRecord]
  {
    SettlementAppliesIff(cat, s, p, d, x);
    DeliverKeeps(cat, s, d, x);
  }

  // ---- What one notification writes, on the columns ----

  /** A payment is recorded once, for the price, amount and currency that were quoted, under a
      transaction no other purchase has. */
  ghost predicate PaymentAccepted(s: Ledger, p: Purchase, d: Delivery) {
    && p.status !in {PurchaseStatus.Settled, PartiallyRefunded, PurchaseStatus.Refunded, Disputed}
    && (p.priceId == "" || d.priceId == p.priceId)
    && d.subtotal == p.quoted && d.subtotalCurrency == p.currency && d.totalCurrency == p.currency
    && d.subtotal >= 0 && d.tax >= 0 && d.total >= 0 && NobodyElses(s.purchases, p.id, d.transaction)
  }

  ghost predicate NobodyElses(purchases: map<Id, Purchase>, id: Id, transaction: string) {
    forall q :: q in purchases && q != id && purchases[q].settlement.Some? ==> purchases[q].settlement.value.transaction != transaction
  }

  /** The row afterwards, but for the mark that its plan was applied: the amounts are the notification's. */
  ghost predicate PaymentRecorded(s: Ledger, p: Purchase, q: Purchase, d: Delivery, now: Time) {
    if PaymentAccepted(s, p, d) then
      && q == p.(status := PurchaseStatus.Settled, settlement := q.settlement, appliedAt := q.appliedAt) && q.settlement.Some?
      && var t := q.settlement.value;
      t.subtotal == d.subtotal && t.tax == d.tax && t.total == d.total && t.currency == d.totalCurrency
      && t.transaction == d.transaction && t.at == now
    else q == p.(appliedAt := q.appliedAt)
  }

  /** A refund or dispute takes its amount, or everything if it names none, and never more than was
      paid; before the payment it only closes the checkout. */
  ghost predicate ReversalRecorded(p: Purchase, q: Purchase, amount: int, dispute: bool) {
    var total := if p.settlement.Some? then p.settlement.value.total else 0;
    var sum := p.refunded + if amount > 0 then amount else total;
    var taken := if total > 0 && sum > total then total else sum;
    && q == p.(status := q.status, refunded := q.refunded)
    && if p.status in {PurchaseStatus.Settled, PartiallyRefunded, PurchaseStatus.Refunded, Disputed} then
         && q.refunded == taken
         && q.status == if dispute then Disputed else if total <= 0 || taken == total then PurchaseStatus.Refunded else PartiallyRefunded
       else
         && q.refunded == p.refunded
         && q.status == if p.status in {PurchaseStatus.Pending, CheckoutCreated} then Canceled else p.status
  }

  /** A won dispute gives its amount back. */
  ghost predicate DisputeWon(p: Purchase, q: Purchase, amount: int) {
    if p.status == Disputed then
      && q == p.(status := PurchaseStatus.Settled, refunded := q.refunded)
      && q.refunded == if 0 < amount <= p.refunded then p.refunded - amount else 0
    else q == p
  }

  ghost predicate ClosedAs(p: Purchase, q: Purchase, status: PurchaseStatus) {
    if p.status in {PurchaseStatus.Settled, PartiallyRefunded, PurchaseStatus.Refunded, Disputed} then q == p
    else q == p.(status := status)
  }

  /** What each kind of notification makes of the purchase it is about. */
  ghost predicate Recorded(s: Ledger, p: Purchase, q: Purchase, d: Delivery, now: Time) {
    match d.kind
    case PaymentSettled => PaymentRecorded(s, p, q, d, now)
    case PaymentFailed => ClosedAs(p, q, PurchaseStatus.Failed)
    case PaymentCanceled => ClosedAs(p, q, Canceled)
    case PaymentRefunded => ReversalRecorded(p, q, d.amount, false)
    case PaymentDisputed => ReversalRecorded(p, q, d.amount, true)
    case DisputeReversed => DisputeWon(p, q, d.amount)
    case _ => q == p
  }

  /** No other purchase is written, and this one is marked as applied at most once. */
  ghost predicate OnlyRow(s: Ledger, s': Ledger, p: Purchase, now: Time) {
    && s'.purchases.Keys == s.purchases.Keys && p.id in s.purchases
    && (forall id :: id in s.purchases && id != p.id ==> s'.purchases[id] == s.purchases[id])
    && (s'.purchases[p.id].appliedAt == p.appliedAt || (p.appliedAt == None && s'.purchases[p.id].appliedAt == Some(now)))
  }

  lemma ApplyRow(cat: PlanCatalog, s: Ledger, p: Purchase, at: Time, x: World)
    requires Row(s, p)
    ensures var s' := ApplyEntitlement(cat, s, p, at, x).0;
      OnlyRow(s, s', p, x.now) && s'.purchases[p.id] == p.(appliedAt := s'.purchases[p.id].appliedAt)
      && s'.records == s.records && s'.flags == s.flags
  {
  }

  lemma SettlementRow(cat: PlanCatalog, s: Ledger, p: Purchase, d: Delivery, x: World)
    requires Row(s, p)
    ensures var (s', ok) := HandleSettlement(cat, s, p, d, x);
      && OnlyRow(s, s', p, x.now) && PaymentRecorded(s, p, s'.purchases[p.id], d, x.now)
      && s'.records == s.records && s'.flags == s.flags
      && (PostSettlement(p.status) && p.status != PurchaseStatus.Settled ==> ok && s' == s)
      && (!PostSettlement(p.status) && !PaymentAccepted(s, p, d) ==> !ok && s' == s)
  {
    if p.status.Settled? {
      ApplyRow(cat, s, p, OccurredAt(d, x), x);
    } else if PaymentAccepted(s, p, d) {
      ApplyRow(cat, Put(s, SettledRow(p, d, x.now)), SettledRow(p, d, x.now), OccurredAt(d, x), x);
    }
  }

  /** The flag a notification about a purchase puts on its event, if any. */
  ghost function FlagOf(p: Purchase, q: Purchase, kind: EventKind): Option<EventBilling> {
    var paid := p.status in {PurchaseStatus.Settled, PartiallyRefunded, PurchaseStatus.Refunded, Disputed};
    if kind.PaymentRefunded? && paid && q.status == PurchaseStatus.Refunded then Some(BillingRefunded)
    else if kind.PaymentDisputed? && paid then Some(PaymentReview)
    else if kind.DisputeReversed? && p.status == Disputed then Some(BillingOk)
    else None
  }

  /** A payment aside, a notification changes no plan and no licence, at most its event's flag, and
      fails only when a call does. */
  ghost predicate OnlyFlags(s: Ledger, s': Ledger, p: Purchase, q: Purchase, d: Delivery, x: World, ok: bool) {
    var flag, reversal := FlagOf(p, q, d.kind), d.kind in {PaymentRefunded, PaymentDisputed};
    var paid := p.status in {PurchaseStatus.Settled, PartiallyRefunded, PurchaseStatus.Refunded, Disputed};
    var withdrawn := !(reversal && paid && x.withdrawFails);
    && s'.books == s.books
    && (ok <==> withdrawn && !(flag.Some? && x.flagFails))
    && s'.flags == if flag.Some? && ok && p.eventId in s.flags then s.flags[p.eventId := flag.value] else s.flags
  }

  lemma ReversalRow(s: Ledger, p: Purchase, d: Delivery, dispute: bool, x: World)
    requires Row(s, p) && Linked(s.books) && (PostSettlement(p.status) || p.refunded == 0)
    requires d.kind == if dispute then PaymentDisputed else PaymentRefunded
    ensures var (s', ok) := HandleReversal(s, p, d, dispute, x);
      && OnlyRow(s, s', p, x.now) && ReversalRecorded(p, s'.purchases[p.id], d.amount, dispute)
      && s'.records == s.records && OnlyFlags(s, s', p, s'.purchases[p.id], d, x, ok)
  {
    NothingToWithdraw(s.books, p.id, x.now);
  }

  /** Whatever the licences are: a reversal of a payment withdraws its purchase's own, if it is still
      unconsumed, and then flags nothing. */
  lemma ReversalWithdraws(s: Ledger, p: Purchase, d: Delivery, dispute: bool, x: World)
    requires PostSettlement(p.status) && !x.withdrawFails
    ensures var s', l := HandleReversal(s, p, d, dispute, x).0, s.books.licences;
      var withdrawn := p.id in l && l[p.id].status !in {Consumed, Withdrawn, Expired};
      && s'.books.plans == s.books.plans && s'.books.licences.Keys == l.Keys && (withdrawn ==> s'.flags == s.flags)
      && forall q :: q in l ==>
           s'.books.licences[q] == if q == p.id && withdrawn then l[q].(status := Withdrawn, revokedAt := Some(x.now)) else l[q]
  {
    WithdrawStatement(s.books, p.id, x.now);
  }

  lemma DisputeReversedRow(s: Ledger, p: Purchase, d: Delivery, x: World)
    requires Row(s, p) && d.kind.DisputeReversed?
    ensures var (s', ok) := HandleDisputeReversed(s, p, d, x);
      && OnlyRow(s, s', p, x.now) && DisputeWon(p, s'.purchases[p.id], d.amount)
      && s'.records == s.records && OnlyFlags(s, s', p, s'.purchases[p.id], d, x, ok)
  {
  }

  lemma FailureRow(s: Ledger, p: Purchase, d: Delivery, status: PurchaseStatus, x: World)
    requires Row(s, p) && d.kind in {PaymentFailed, PaymentCanceled}
    ensures var (s', ok) := HandleFailure(s, p, status);
      && OnlyRow(s, s', p, x.now) && ClosedAs(p, s'.purchases[p.id], status)
      && s'.records == s.records && OnlyFlags(s, s', p, s'.purchases[p.id], d, x, ok)
  {
  }

  /** What one handled notification leaves of the purchase it is about and beside it. */
  ghost predicate HandledAs(s: Ledger, s': Ledger, p: Purchase, d: Delivery, x: World, ok: bool) {
    && OnlyRow(s, s', p, x.now) && Recorded(s, p, s'.purchases[p.id], d, x.now)
    && if d.kind.PaymentSettled? then s'.flags == s.flags else OnlyFlags(s, s', p, s'.purchases[p.id], d, x, ok)
  }

  lemma HandleRow(cat: PlanCatalog, s: Ledger, p: Purchase, d: Delivery, x: World)
    requires Row(s, p) && Linked(s.books) && (PostSettlement(p.status) || p.refunded == 0)
    ensures var (s', ok) := Handle(cat, s, p, d, x);
      HandledAs(s, s', p, d, x, ok) && s'.records == s.records
  {
    match d.kind
    case PaymentSettled => SettlementRow(cat, s, p, d, x);
    case PaymentFailed => FailureRow(s, p, d, PurchaseStatus.Failed, x);
    case PaymentCanceled => FailureRow(s, p, d, Canceled, x);
    case PaymentRefunded => ReversalRow(s, p, d, false, x);
    case PaymentDisputed => ReversalRow(s, p, d, true, x);
    case DisputeReversed => DisputeReversedRow(s, p, d, x);
    case _ =>
  }

  /** What a delivery with a key to be handled leaves. */
  ghost predicate DeliveredAs(s: Ledger, s': Ledger, d: Delivery, x: World, ok: bool) {
    if d.kind.IgnoredKind? || d.purchaseId == None || d.purchaseId.value !in s.purchases then
      && s'.purchases == s.purchases && s'.books == s.books && s'.flags == s.flags
      && (ok <==> d.kind.IgnoredKind? || (d.kind.UnknownKind? && d.purchaseId.Some?))
    else HandledAs(s, s', s.purchases[d.purchaseId.value], d, x, ok)
  }

  lemma RouteRow(cat: PlanCatalog, s: Ledger, d: Delivery, x: World)
    requires Valid(s)
    ensures var (s', ok) := Route(cat, s, d, x); DeliveredAs(s, s', d, x, ok) && s'.records == s.records
  {
    if d.purchaseId.Some? && d.purchaseId.value in s.purchases {
      HandleRow(cat, s, s.purchases[d.purchaseId.value], d, x);
    }
  }

  lemma RecordsApart(s: Ledger, s1: Ledger, s2: Ledger, s3: Ledger, d: Delivery, x: World, ok: bool)
    requires s1.purchases == s.purchases && s1.flags == s.flags && s1.books == s.books && DeliveredAs(s1, s2, d, x, ok)
    requires s3.purchases == s2.purchases && s3.flags == s2.flags && s3.books == s2.books
    ensures DeliveredAs(s, s3, d, x, ok)
  {
  }

  /** A key is handled once, unless handling it failed; a notification about no known purchase changes
      nothing but its own record, and fails unless it is one to ignore. */
  lemma DeliveryStatement(cat: PlanCatalog, s: Ledger, d: Delivery, x: World)
    requires Valid(s)
    ensures var (s', ok) := HandleProviderEvent(cat, s, d, x);
      if d.key in s.records && s.records[d.key] != FailedRecord then ok && s' == s
      else
        && s'.records == s.records[d.key := if x.recordFails then Received else if ok then Processed else FailedRecord]
        && DeliveredAs(s, s', d, x, ok)
  {
    var s1 := Claimed(s, d.key);
    RouteRow(cat, s1, d, x);
    var (s2, ok) := Route(cat, s1, d, x);
    RecordsApart(s, s1, s2, Closed(s2, d.key, ok, x), d, x, ok);
  }

  // ---- What a payment brings, on the columns ----

  /** The plans let this purchase be applied. */
  ghost predicate MayApply(cat: PlanCatalog, b: Books, p: Purchase) {
    var e := p.eventId;
    && p.versionId in cat.versions
    && e in b.plans.events && !b.plans.events[e].removed && b.plans.events[e].hostId == p.hostId
    && Dearer(cat, b.plans.grants, e, p.versionId)
    && forall q :: q in b.licences ==> b.licences[q].consumedEventId != Some(e)
  }

  /** Applied at a time: the licence and the grant of what was bought, dated then; or neither. */
  ghost predicate AppliedAs(cat: PlanCatalog, b: Books, b': Books, p: Purchase, q: Purchase, at: Time, x: World, ok: bool) {
    && (ok <==> MayApply(cat, b, p))
    && (ok ==>
         && q.appliedAt == (if x.markFails then None else Some(x.now))
         && exists g :: BoughtBy(cat, b, b', PurchaseInput(p.id, p.hostId, p.eventId, p.versionId, Some(at)),
                               x.licenceId, x.grantId, at, g))
    && (!ok ==> q.appliedAt == None && b' == b)
  }

  lemma ApplyStatement(cat: PlanCatalog, s: Ledger, p: Purchase, at: Time, x: World)
    requires Linked(s.books) && Row(s, p) && p.appliedAt.None?
    requires p.id !in s.books.licences && Fresh(s.books, p.id, x.licenceId, x.grantId)
    ensures var (s', ok) := ApplyEntitlement(cat, s, p, at, x);
      && OnlyRow(s, s', p, x.now) && s'.purchases[p.id] == p.(appliedAt := s'.purchases[p.id].appliedAt)
      && AppliedAs(cat, s.books, s'.books, p, s'.purchases[p.id], at, x, ok)
  {
    ApplyRow(cat, s, p, at, x);
    PurchaseStatement(cat, s.books, LicenceInput(p, at), x.licenceId, x.grantId, x.now);
  }

  /** An attempt after the licence was issued repeats it: it succeeds exactly if it is for the same
      plan and event, and only sets the mark. */
  lemma RepeatStatement(cat: PlanCatalog, s: Ledger, p: Purchase, at: Time, x: World)
    requires Linked(s.books) && Row(s, p) && p.appliedAt.None? && p.id in s.books.licences
    ensures var (s', ok), l := ApplyEntitlement(cat, s, p, at, x), s.books.licences[p.id];
      && s'.books == s.books
      && (ok <==> p.versionId in cat.versions && l.accountId == p.hostId && l.versionId == p.versionId && l.consumedEventId == Some(p.eventId))
      && s'.purchases == s.purchases[p.id := if ok && !x.markFails then p.(appliedAt := Some(x.now)) else p]
  {
    RepeatIsNoOp(cat, s.books, LicenceInput(p, at), x.licenceId, x.grantId, x.now);
  }

  /** The first notification of a payment that was quoted: its amounts are recorded in any case, and
      the plan comes with it, dated when the payment was made, exactly when the plans allow. */
  lemma PaymentStatement(cat: PlanCatalog, s: Ledger, p: Purchase, d: Delivery, x: World)
    requires Valid(s) && Row(s, p) && PaymentAccepted(s, p, d) && d.kind.PaymentSettled? && d.purchaseId == Some(p.id)
    requires d.key in s.records ==> s.records[d.key] == FailedRecord
    requires p.id !in s.books.licences && Fresh(s.books, p.id, x.licenceId, x.grantId)
    ensures var (s', ok) := HandleProviderEvent(cat, s, d, x);
      var at := if d.occurredAt.Some? then d.occurredAt.value else x.now;
      && OnlyRow(s, s', p, x.now) && PaymentRecorded(s, p, s'.purchases[p.id], d, x.now)
      && AppliedAs(cat, s.books, s'.books, p, s'.purchases[p.id], at, x, ok)
  {
    var q := SettledRow(p, d, x.now);
    var s1 := Put(Claimed(s, d.key), q);
    PaymentRoute(cat, s, p, d, x);
    ApplyStatement(cat, s1, q, OccurredAt(d, x), x);
    SameApplied(cat, s.books, q, p, OccurredAt(d, x), x);
    OnlyRowTwice(s, s1, ApplyEntitlement(cat, s1, q, OccurredAt(d, x), x).0, p, q, x.now);
  }

  lemma PaymentRoute(cat: PlanCatalog, s: Ledger, p: Purchase, d: Delivery, x: World)
    requires Row(s, p) && PaymentAccepted(s, p, d) && d.kind.PaymentSettled? && d.purchaseId == Some(p.id)
    requires d.key in s.records ==> s.records[d.key] == FailedRecord
    ensures var q := SettledRow(p, d, x.now);
      var (s', ok), (s2, ok2) := HandleProviderEvent(cat, s, d, x), ApplyEntitlement(cat, Put(Claimed(s, d.key), q), q, OccurredAt(d, x), x);
      ok == ok2 && s'.purchases == s2.purchases && s'.books == s2.books
  {
  }

  lemma OnlyRowTwice(s: Ledger, s1: Ledger, s2: Ledger, p: Purchase, q: Purchase, now: Time)
    requires Row(s, p) && q.id == p.id && q.appliedAt == p.appliedAt
    requires s1.purchases == s.purchases[p.id := q] && OnlyRow(s1, s2, q, now)
    ensures OnlyRow(s, s2, p, now)
  {
  }

  /** What is applied depends on what was sold alone. */
  lemma SameApplied(cat: PlanCatalog, b: Books, q: Purchase, p: Purchase, at: Time, x: World)
    requires q.id == p.id && q.hostId == p.hostId && q.eventId == p.eventId && q.versionId == p.versionId
    ensures forall b', r, ok :: AppliedAs(cat, b, b', q, r, at, x, ok) ==> AppliedAs(cat, b, b', p, r, at, x, ok)
  {
  }

  /** A retry of an owed purchase is its first notification over again, dated when it settled. */
  lemma RetryStatement(cat: PlanCatalog, s: Ledger, p: Purchase, x: World)
    requires Valid(s) && Row(s, p)
    ensures var (s', ok) := Retry(cat, s, p.id, x);
      if p.status != PurchaseStatus.Settled || p.appliedAt != None then ok && s' == s
      else
        && OnlyRow(s, s', p, x.now) && p.settlement.Some?
        && (p.id !in s.books.licences && Fresh(s.books, p.id, x.licenceId, x.grantId) ==>
             AppliedAs(cat, s.books, s'.books, p, s'.purchases[p.id], p.settlement.value.at, x, ok))
  {
    if p.status.Settled? && p.appliedAt.None? {
      ApplyRow(cat, s, p, RetryTime(p, x), x);
      if p.id !in s.books.licences && Fresh(s.books, p.id, x.licenceId, x.grantId) { ApplyStatement(cat, s, p, RetryTime(p, x), x); }
    }
  }

  // ---- Checkouts ----

  /** The event's place for a checkout is free. */
  ghost predicate NoCheckout(s: Ledger, e: Id) {
    forall q :: q in s.purchases && s.purchases[q].eventId == e ==> s.purchases[q].status !in {PurchaseStatus.Pending, CheckoutCreated}
  }

  /** A purchase can be opened exactly for an event without one, and then nothing else changes. */
  lemma OpenStatement(cat: PlanCatalog, s: Ledger, p: Purchase)
    requires p.status.Pending? && p.id !in s.purchases
    ensures Next(cat, s, OpenStep(p)) ==
      if p.eventId in s.books.plans.events && NoCheckout(s, p.eventId) then s.(purchases := s.purchases[p.id := p]) else s
  {
  }

  /** Recording a checkout writes the row it names, unless another purchase of the event is open. */
  lemma CheckoutStatement(s: Ledger, p: Purchase, checkout: string, priceId: string)
    requires Row(s, p)
    ensures UpdateCheckout(s, p.id, checkout, priceId) ==
      if exists q :: q in s.purchases && q != p.id && s.purchases[q].eventId == p.eventId
           && s.purchases[q].status in {PurchaseStatus.Pending, CheckoutCreated} then s
      else s.(purchases := s.purchases[p.id := p.(status := CheckoutCreated, checkout := Some(checkout), priceId := priceId)])
  {
  }

  /** A failed or canceled payment closes the open checkout and frees its event for another one. */
  lemma ClosingFrees(cat: PlanCatalog, s: Ledger, p: Purchase, d: Delivery, x: World)
    requires Valid(s) && OneOpen(s) && Row(s, p) && p.status in {PurchaseStatus.Pending, CheckoutCreated}
    requires d.kind in {PaymentFailed, PaymentCanceled} && d.purchaseId == Some(p.id)
    requires d.key in s.records ==> s.records[d.key] == FailedRecord
    ensures var (s', ok) := HandleProviderEvent(cat, s, d, x);
      && ok && s'.books == s.books && s'.flags == s.flags
      && s'.purchases == s.purchases[p.id :=
           p.(status := if d.kind.PaymentFailed? then PurchaseStatus.Failed else Canceled)]
      && !NoCheckout(s, p.eventId) && NoCheckout(s', p.eventId)
  {
    var q := p.(status := if d.kind.PaymentFailed? then PurchaseStatus.Failed else Canceled);
    ClosingRow(cat, s, p, q, d, x);
    PlaceFreed(s, p, q, HandleProviderEvent(cat, s, d, x).0);
  }

  lemma ClosingRow(cat: PlanCatalog, s: Ledger, p: Purchase, q: Purchase, d: Delivery, x: World)
    requires d.key in s.records ==> s.records[d.key] == FailedRecord
    requires p.status in {PurchaseStatus.Pending, CheckoutCreated}
    requires q == p.(status := if d.kind.PaymentFailed? then PurchaseStatus.Failed else Canceled)
    requires Row(s, p) && d.kind in {PaymentFailed, PaymentCanceled} && d.purchaseId == Some(p.id)
    ensures var (s', ok) := HandleProviderEvent(cat, s, d, x);
      ok && s'.books == s.books && s'.flags == s.flags && s'.purchases == s.purchases[p.id := q]
  {
  }

  lemma PlaceFreed(s: Ledger, p: Purchase, q: Purchase, s': Ledger)
    requires OneOpen(s) && Row(s, p) && p.status in {PurchaseStatus.Pending, CheckoutCreated}
    requires q.eventId == p.eventId && !Open(q.status) && s'.purchases == s.purchases[p.id := q]
    ensures !NoCheckout(s, p.eventId) && NoCheckout(s', p.eventId)
  {
  }
}
