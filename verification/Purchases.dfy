/** The purchase row and its status classes (internal/billing/billing.go), and the queries on it
    (internal/billing/gorm_repository.go). */
module Purchases {
  import opened Tables
  import opened Sorting
  import MediaModel

  type Id = MediaModel.Id
  type Time = MediaModel.Time

  function Min(a: int, b: int): int { if b < a then b else a }

  datatype PurchaseStatus = Pending | CheckoutCreated | Settled | Failed | Canceled | PartiallyRefunded | Refunded | Disputed

  /** A checkout is still in flight. */
  predicate Open(s: PurchaseStatus) { s.Pending? || s.CheckoutCreated? }

  /** Money was taken and not fully returned. */
  predicate Paid(s: PurchaseStatus) { s.Settled? || s.PartiallyRefunded? }

  /** Only reached after the payment settled. */
  predicate PostSettlement(s: PurchaseStatus) { Paid(s) || s.Refunded? || s.Disputed? }

  datatype PricingContext = FirstContext | ReturningContext

  datatype Settlement = Settlement(subtotal: int, tax: int, total: int, currency: string, transaction: string, at: Time)

  datatype Purchase = Purchase(
    id: Id, eventId: Id, hostId: Id, versionId: nat,
    quoted: int, base: int, discount: int, credit: int, context: PricingContext, currency: string,
    status: PurchaseStatus, priceId: string, checkout: Option<string>, settlement: Option<Settlement>, refunded: int,
    createdAt: Time, appliedAt: Option<Time>)

  /** The amounts the table's CHECK constraints accept. */
  ghost predicate Storable(p: Purchase) {
    && p.quoted >= 0 && p.base >= 0 && p.discount >= 0 && p.quoted == p.base - p.discount
    && 0 <= p.credit <= p.discount && p.refunded >= 0
    && (p.settlement.Some? ==> p.settlement.value.subtotal >= 0 && p.settlement.value.tax >= 0 && p.settlement.value.total >= 0)
  }

  function Total(p: Purchase): int { if p.settlement.Some? then p.settlement.value.total else 0 }

  function SoldOn(e: Id): Purchase -> bool { (p: Purchase) => p.eventId == e && PostSettlement(p.status) }

  /** ORDER BY settled_at DESC NULLS LAST, created_at DESC. */
  predicate SoldLater(a: Purchase, b: Purchase) {
    if a.settlement.Some? && b.settlement.Some? then
      a.settlement.value.at > b.settlement.value.at
      || (a.settlement.value.at == b.settlement.value.at && a.createdAt > b.createdAt)
    else if a.settlement.Some? then true
    else b.settlement.None? && a.createdAt > b.createdAt
  }

  function LatestSale(): (Purchase, Purchase) -> bool { (a: Purchase, b: Purchase) => SoldLater(a, b) }

  function LatestEventPurchase(rows: seq<Purchase>, e: Id): Option<Purchase> {
    First(Sort(Where(rows, SoldOn(e)), LatestSale()))
  }

  function Commercial(host: Id, exclude: Id): Purchase -> bool {
    (p: Purchase) => p.hostId == host && p.eventId != exclude && Paid(p.status) && Total(p) > 0
  }

  predicate HasEligibleCommercialPurchase(rows: seq<Purchase>, host: Id, exclude: Id) {
    Count(rows, Commercial(host, exclude)) > 0
  }

  lemma LatestWeak()
    ensures WeakOrder(LatestSale())
  {
  }

  /** The sale every other one precedes comes last in settlement order. */
  lemma LatestIsLast(rows: seq<Purchase>, e: Id)
    requires var sold := Where(rows, SoldOn(e));
      sold != [] && forall i :: 0 <= i < |sold| - 1 ==> SoldLater(sold[|sold| - 1], sold[i])
    ensures LatestEventPurchase(rows, e) == Some(Where(rows, SoldOn(e))[|Where(rows, SoldOn(e))| - 1])
  {
    var sold := Where(rows, SoldOn(e));
    LatestWeak();
    SortHead(sold, LatestSale());
    assert sold[|sold| - 1] in sold;
    var i :| 0 <= i < |sold| && sold[i] == Sort(sold, LatestSale())[0];
  }
}
