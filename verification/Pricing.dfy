/** Consumer event pricing (internal/billing/pricing.go). */
module Pricing {
  import opened Tables
  import opened Sorting
  import opened Catalog
  import opened Purchases

  datatype CatalogPrice = CatalogPrice(amount: int, returning: Option<int>)

  datatype PricingReason = FirstPurchase | ReturningCustomer | Upgrade | Promotion

  datatype Quote = Quote(
    base: int, credit: int, discount: int, final: int, context: PricingContext, reason: PricingReason)

  function TierValue(context: PricingContext, price: CatalogPrice): int {
    if context.ReturningContext? && price.returning.Some? then price.returning.value else price.amount
  }

  function NewContext(rows: seq<Purchase>, host: Id, e: Id): PricingContext {
    if HasEligibleCommercialPurchase(rows, host, e) then ReturningContext else FirstContext
  }

  /** The first paid plan on an event. */
  function NewPurchaseQuote(rows: seq<Purchase>, host: Id, e: Id, price: CatalogPrice): Quote {
    var context := NewContext(rows, host, e);
    var value := TierValue(context, price);
    Quote(value, 0, 0, value, context, if context.ReturningContext? then ReturningCustomer else FirstPurchase)
  }

  /** The context an upgrade is priced in, and what the tier the event holds is worth there. */
  function Funding(rows: seq<Purchase>, host: Id, e: Id, held: CatalogPrice): (PricingContext, int) {
    var funding := LatestEventPurchase(rows, e);
    if funding.Some? && Paid(funding.value.status) then (funding.value.context, funding.value.base)
    else if funding.Some? then (funding.value.context, 0)
    else (NewContext(rows, host, e), TierValue(NewContext(rows, host, e), held))
  }

  /** A move between paid tiers on one event. */
  function UpgradeQuote(rows: seq<Purchase>, host: Id, e: Id, held: CatalogPrice, price: CatalogPrice): Quote {
    var (context, worth) := Funding(rows, host, e, held);
    var value := TierValue(context, price);
    var credit := Min(worth, value);
    Quote(value, credit, credit, value - credit, context, Upgrade)
  }

  datatype QuoteError = NotSellable | NotOwner | NotAnUpgrade | NoVersion | NoPrice

  datatype QuoteResult = Quoted(quote: Quote) | NotQuoted(error: QuoteError)

  /** What the quote reads: who asks, the plan the event is on, the plan asked for, and prices. */
  datatype Order = Order(hostId: Id, eventId: Id, owner: bool, current: PlanCode, target: PlanCode,
                         price: Option<CatalogPrice>, held: Option<CatalogPrice>)

  /** A plan nobody can buy makes this a first purchase, any other makes it an upgrade; the held
      tier's own price matters only when no purchase funded it. */
  function EventQuote(cat: PlanCatalog, rows: seq<Purchase>, o: Order): QuoteResult {
    if !Sellable(cat.reg, o.target) then NotQuoted(NotSellable)
    else if !o.owner then NotQuoted(NotOwner)
    else if CheckTransition(cat.reg, Some(o.current), o.target) != Allowed then NotQuoted(NotAnUpgrade)
    else if ActiveVersion(cat, o.target).None? then NotQuoted(NoVersion)
    else if o.price.None? then NotQuoted(NoPrice)
    else if !Sellable(cat.reg, o.current) then Quoted(NewPurchaseQuote(rows, o.hostId, o.eventId, o.price.value))
    else if LatestEventPurchase(rows, o.eventId).Some? then
      Quoted(UpgradeQuote(rows, o.hostId, o.eventId, o.price.value, o.price.value))
    else if ActiveVersion(cat, o.current).None? then NotQuoted(NoVersion)
    else if o.held.None? then NotQuoted(NoPrice)
    else Quoted(UpgradeQuote(rows, o.hostId, o.eventId, o.held.value, o.price.value))
  }

  /** When an order is quoted, exactly: an upward move to a plan on sale, by the owner, with a price;
      and where the tier held was not bought, its own list price too. A first purchase gets no credit. */
  lemma QuotedIff(cat: PlanCatalog, rows: seq<Purchase>, o: Order)
    ensures var r := EventQuote(cat, rows, o);
      && (r.Quoted? <==>
           && Sellable(cat.reg, o.target) && Rank(cat.reg, o.target) > Rank(cat.reg, o.current)
           && o.owner && ActiveVersion(cat, o.target).Some? && o.price.Some?
           && (Sellable(cat.reg, o.current) && Count(rows, SoldOn(o.eventId)) == 0 ==> ActiveVersion(cat, o.current).Some? && o.held.Some?))
      && (r.Quoted? && !Sellable(cat.reg, o.current) ==>
           r.quote.credit == 0 && r.quote.final == TierValue(r.quote.context, o.price.value))
  {
    LatestWeak();
    SortHead(Where(rows, SoldOn(o.eventId)), LatestSale());
  }

  // ---- The quote, on the columns ----

  ghost predicate OffSale(reg: Registry, code: PlanCode) { code in reg.byCode ==> !reg.byCode[code].sellable }

  /** The host paid, and was not paid back, for another event: only that earns the loyalty prices. */
  ghost predicate Loyal(rows: seq<Purchase>, host: Id, e: Id) {
    exists p :: p in rows && p.hostId == host && p.eventId != e && p.status in {PurchaseStatus.Settled, PartiallyRefunded}
      && p.settlement.Some? && p.settlement.value.total > 0
  }

  ghost predicate Sold(p: Purchase, e: Id) {
    p.eventId == e && p.status in {PurchaseStatus.Settled, PartiallyRefunded, PurchaseStatus.Refunded, Disputed}
  }

  /** The sale of e that settled last, the one opened last among those. */
  ghost predicate Funds(rows: seq<Purchase>, e: Id, p: Purchase) {
    && p in rows && Sold(p, e)
    && forall o :: o in rows && Sold(o, e) ==>
         match (p.settlement, o.settlement)
         case (Some(a), Some(b)) => b.at < a.at || (b.at == a.at && o.createdAt <= p.createdAt)
         case (None, None) => o.createdAt <= p.createdAt
         case _ => p.settlement.Some?
  }

  /** The list price, or the loyalty price where there is one and it was earned. */
  ghost predicate ListedAt(context: PricingContext, price: CatalogPrice, value: int) {
    value == if context == ReturningContext && price.returning != None then price.returning.value else price.amount
  }

  /** What a quote charges: the tier's value less the credit for the tier the event holds. A first
      purchase gets none; a tier that was bought counts at its own base price, and for nothing once
      the money went back; one that was given counts at its list price. */
  ghost predicate QuotedFor(cat: PlanCatalog, rows: seq<Purchase>, o: Order, q: Quote) {
    && o.price.Some? && ListedAt(q.context, o.price.value, q.base) && q.discount == q.credit && q.final == q.base - q.credit
    && if OffSale(cat.reg, o.current) then
         && (q.context == ReturningContext <==> Loyal(rows, o.hostId, o.eventId)) && q.credit == 0
         && q.reason == if q.context == ReturningContext then ReturningCustomer else FirstPurchase
       else
         && q.reason == Upgrade && q.credit <= q.base
         && ((exists p :: Funds(rows, o.eventId, p) && q.context == p.context
               && var worth := if p.status in {PurchaseStatus.Settled, PartiallyRefunded} then p.base else 0;
               q.credit == if worth > q.base then q.base else worth)
             || ((forall p :: p in rows ==> !Sold(p, o.eventId)) && o.held.Some?
               && (q.context == ReturningContext <==> Loyal(rows, o.hostId, o.eventId))
               && exists worth :: ListedAt(q.context, o.held.value, worth) && q.credit == if worth > q.base then q.base else worth))
  }

  /** Why an order gets no quote. */
  ghost predicate QuoteRefused(cat: PlanCatalog, rows: seq<Purchase>, o: Order, error: QuoteError) {
    if OffSale(cat.reg, o.target) then error == NotSellable
    else if !o.owner then error == NotOwner
    else if !MayMove(cat.reg, Some(o.current), o.target) then error == NotAnUpgrade
    else if !OnSale(cat, o.target) then error == QuoteError.NoVersion
    else if o.price.None? then error == NoPrice
    else
      && !OffSale(cat.reg, o.current) && (forall p :: p in rows ==> !Sold(p, o.eventId))
      && if !OnSale(cat, o.current) then error == QuoteError.NoVersion else o.held.None? && error == NoPrice
  }

  lemma LoyalIff(rows: seq<Purchase>, host: Id, e: Id)
    ensures HasEligibleCommercialPurchase(rows, host, e) <==> Loyal(rows, host, e)
  {
    var picked := Where(rows, Commercial(host, e));
    WhereMembers(rows, Commercial(host, e));
    assert picked != [] ==> picked[0] in picked;
    if Loyal(rows, host, e) {
      var p :| p in rows && Commercial(host, e)(p);
      assert p in picked;
    }
  }

  lemma FundsIs(rows: seq<Purchase>, e: Id)
    ensures var funding := LatestEventPurchase(rows, e);
      && (funding.None? <==> forall p :: p in rows ==> !Sold(p, e))
      && (funding.Some? ==> Funds(rows, e, funding.value))
  {
    var sold := Where(rows, SoldOn(e));
    WhereMembers(rows, SoldOn(e));
    LatestWeak();
    SortHead(sold, LatestSale());
    assert sold != [] ==> sold[0] in sold;
    forall o, p | o in sold && p in sold && !LatestSale()(o, p)
      ensures match (p.settlement, o.settlement)
              case (Some(a), Some(b)) => b.at < a.at || (b.at == a.at && o.createdAt <= p.createdAt)
              case (None, None) => o.createdAt <= p.createdAt
              case _ => p.settlement.Some?
    {
    }
  }

  /** Every order gets the quote its columns say, or the error. */
  lemma QuoteStatement(cat: PlanCatalog, rows: seq<Purchase>, o: Order)
    ensures match EventQuote(cat, rows, o)
            case Quoted(q) =>
              && o.owner && !OffSale(cat.reg, o.target) && MayMove(cat.reg, Some(o.current), o.target)
              && OnSale(cat, o.target) && QuotedFor(cat, rows, o, q)
            case NotQuoted(error) => QuoteRefused(cat, rows, o, error)
  {
    LoyalIff(rows, o.hostId, o.eventId);
    FundsIs(rows, o.eventId);
    if EventQuote(cat, rows, o).Quoted? && o.held.Some? {
      var q := EventQuote(cat, rows, o).quote;
      assert ListedAt(q.context, o.held.value, TierValue(q.context, o.held.value));
    }
  }

  /** The quote under construction, filled in place. */
  class Draft {
    var base: int
    var credit: int
    var discount: int
    var final: int
    var context: PricingContext
    var reason: PricingReason

    ghost function Value(): Quote reads this { Quote(base, credit, discount, final, context, reason) }

    constructor ()
      ensures credit == 0 && discount == 0
    {
      base, credit, discount, final, context, reason := 0, 0, 0, 0, FirstContext, FirstPurchase;
    }

    method QuoteNewPurchase(rows: seq<Purchase>, host: Id, e: Id, price: CatalogPrice)
      requires credit == 0 && discount == 0
      modifies this
      ensures Value() == NewPurchaseQuote(rows, host, e, price)
    {
      context, reason := FirstContext, FirstPurchase;
      if HasEligibleCommercialPurchase(rows, host, e) {
        context, reason := ReturningContext, ReturningCustomer;
      }
      base := TierValue(context, price);
      final := base;
    }

    method QuoteEventPurchase(cat: PlanCatalog, rows: seq<Purchase>, o: Order) returns (error: Option<QuoteError>)
      requires credit == 0 && discount == 0
      modifies this
      ensures EventQuote(cat, rows, o) == if error.None? then Quoted(Value()) else NotQuoted(error.value)
    {
      if !Sellable(cat.reg, o.target) {
        return Some(NotSellable);
      }
      if !o.owner {
        return Some(NotOwner);
      }
      if CheckTransition(cat.reg, Some(o.current), o.target) != Allowed {
        return Some(NotAnUpgrade);
      }
      if ActiveVersion(cat, o.target).None? {
        return Some(NoVersion);
      }
      if o.price.None? {
        return Some(NoPrice);
      }
      if !Sellable(cat.reg, o.current) {
        QuoteNewPurchase(rows, o.hostId, o.eventId, o.price.value);
        return None;
      }
      if LatestEventPurchase(rows, o.eventId).None? {
        if ActiveVersion(cat, o.current).None? {
          return Some(NoVersion);
        }
        if o.held.None? {
          return Some(NoPrice);
        }
      }
      QuoteUpgrade(rows, o.hostId, o.eventId, if o.held.Some? then o.held.value else o.price.value, o.price.value);
      error := None;
    }

    method QuoteUpgrade(rows: seq<Purchase>, host: Id, e: Id, held: CatalogPrice, price: CatalogPrice)
      modifies this
      ensures Value() == UpgradeQuote(rows, host, e, held, price)
    {
      var funding := LatestEventPurchase(rows, e);
      var worth := 0;
      if funding.Some? {
        context := funding.value.context;
        if Paid(funding.value.status) {
          worth := funding.value.base;
        }
      } else {
        context := if HasEligibleCommercialPurchase(rows, host, e) then ReturningContext else FirstContext;
        worth := TierValue(context, held);
      }
      base := TierValue(context, price);
      if worth > base {
        worth := base;
      }
      credit, discount, final, reason := worth, worth, base - worth, Upgrade;
    }
  }

  // ---- The arithmetic every quote keeps ----

  ghost predicate Sound(q: Quote) {
    && q.base == q.final + q.discount
    && 0 <= q.credit <= q.discount
    && 0 <= q.final <= q.base
  }

  ghost predicate Priced(price: CatalogPrice) { price.amount >= 0 && (price.returning.Some? ==> price.returning.value >= 0) }

  lemma QuotesAreSound(rows: seq<Purchase>, host: Id, e: Id, held: CatalogPrice, price: CatalogPrice)
    requires Priced(price) && Priced(held) && forall p :: p in rows ==> Storable(p)
    ensures Sound(NewPurchaseQuote(rows, host, e, price)) && Sound(UpgradeQuote(rows, host, e, held, price))
  {
    LatestIsStored(rows, e);
  }

  lemma LatestIsStored(rows: seq<Purchase>, e: Id)
    ensures LatestEventPurchase(rows, e).Some? ==> LatestEventPurchase(rows, e).value in rows
  {
    LatestWeak();
    Sorting.SortHead(Where(rows, SoldOn(e)), LatestSale());
    WhereMembers(rows, SoldOn(e));
  }

  // ---- Promotions ----

  const TWO63 := 0x8000_0000_0000_0000

  /** The int64 a mathematical integer wraps to. */
  function Int64(n: int): int { (n + TWO63) % (2 * TWO63) - TWO63 }

  /** Integer division truncates toward zero. */
  function Quotient(a: int, b: int): int
    requires b > 0
  {
    if a >= 0 then a / b else -((-a) / b)
  }

  /** None is the error for a percentage outside 0..100. */
  function ApplyPercentagePromotion(q: Quote, percent: int): Option<Quote> {
    if percent < 0 || percent > 100 then None
    else
      var cut := Quotient(Int64(q.final * percent), 100);
      Some(q.(discount := q.discount + cut, final := q.final - cut, reason := Promotion))
  }

  /** w is what an int64 makes of n. */
  ghost predicate Wraps(n: int, w: int) {
    -0x8000_0000_0000_0000 <= w < 0x8000_0000_0000_0000 && (n - w) % 0x1_0000_0000_0000_0000 == 0
  }

  /** cut is a hundredth of w without its fraction. */
  ghost predicate Hundredth(w: int, cut: int) { if w >= 0 then 0 <= w - 100 * cut < 100 else -100 < w - 100 * cut <= 0 }

  ghost function CutBy(q: Quote, cut: int): Quote { q.(discount := q.discount + cut, final := q.final - cut, reason := Promotion) }

  lemma Int64Wraps(n: int)
    ensures Wraps(n, Int64(n))
  {
    assert n - Int64(n) == 2 * TWO63 * ((n + TWO63) / (2 * TWO63));
  }

  /** A promotion takes its percentage off what is charged and off nothing else, in int64 arithmetic,
      and is refused exactly outside 0 to 100. */
  lemma PromotionStatement(q: Quote, percent: int)
    ensures var r := ApplyPercentagePromotion(q, percent);
      && (r.None? <==> percent < 0 || percent > 100)
      && (r.Some? ==> exists w, cut :: Wraps(q.final * percent, w) && Hundredth(w, cut) && r.value == CutBy(q, cut))
  {
    var w := Int64(q.final * percent);
    Int64Wraps(q.final * percent);
    QuotientIsHundredth(w);
    assert Wraps(q.final * percent, w) && Hundredth(w, Quotient(w, 100));
  }

  lemma QuotientIsHundredth(w: int)
    ensures Hundredth(w, Quotient(w, 100))
  {
  }

  function Promote(q: Quote, percents: seq<int>): Option<Quote>
    decreases |percents|
  {
    if percents == [] then Some(q)
    else
      var step := ApplyPercentagePromotion(q, percents[0]);
      if step.None? then None else Promote(step.value, percents[1..])
  }

  /** What one promotion leaves of an amount, and what several leave, exactly. */
  ghost function Reduced(amount: real, percent: int): real { amount - amount * percent as real / 100.0 }

  ghost function Exact(amount: real, percents: seq<int>): real
    decreases |percents|
  {
    if percents == [] then amount else Exact(Reduced(amount, percents[0]), percents[1..])
  }

  /** What promotions leave of one minor unit. */
  ghost function Factor(percents: seq<int>): real {
    if percents == [] then 1.0 else Factor(percents[1..]) * Reduced(1.0, percents[0])
  }

  lemma Int64Exact(n: int)
    requires 0 <= n < TWO63
    ensures Int64(n) == n
  {
  }

  /** One promotion rounds the amount up, by less than one minor unit. */
  lemma PromotionStep(q: Quote, percent: int)
    requires Sound(q) && 0 <= percent <= 100 && q.final * percent < TWO63
    ensures var r := ApplyPercentagePromotion(q, percent);
      && r.Some? && Sound(r.value) && r.value.base == q.base && r.value.credit == q.credit && r.value.final <= q.final
      && Reduced(q.final as real, percent) <= r.value.final as real < Reduced(q.final as real, percent) + 1.0
  {
    var n := q.final * percent;
    assert n >= 0;
    Int64Exact(n);
    CutBounds(q.final, percent, n);
    var cut := n / 100;
    assert 100 * (q.final - cut) >= q.final * 100 - n;
    RoundedUp(q.final, percent, cut, n);
  }

  lemma CutBounds(final: int, percent: int, n: int)
    requires final >= 0 && 0 <= percent <= 100 && n == final * percent
    ensures 0 <= n / 100 <= final && 100 * (n / 100) <= n < 100 * (n / 100) + 100
  {
  }

  lemma RoundedUp(final: int, percent: int, cut: int, n: int)
    requires n == final * percent && 100 * cut <= n < 100 * cut + 100
    ensures var exact := Reduced(final as real, percent);
      exact <= (final - cut) as real < exact + 1.0
  {
  }

  lemma Fraction(d: real, p: real)
    requires d >= 0.0 && 0.0 <= p <= 100.0
    ensures 0.0 <= d * p <= d * 100.0
  {
  }

  lemma Closer(x: real, y: real, percent: int)
    requires x <= y && 0 <= percent <= 100
    ensures 0.0 <= Reduced(y, percent) - Reduced(x, percent) <= y - x
  {
    var d, p := y - x, percent as real;
    assert y * p == x * p + d * p;
    Fraction(d, p);
  }

  lemma WithinThen(x: real, y: real, x1: real, y1: real, percents: seq<int>)
    requires 0.0 <= y1 - x1 <= y - x && Exact(x1, percents) <= Exact(y1, percents) <= Exact(x1, percents) + (y1 - x1)
    ensures Exact(x1, percents) <= Exact(y1, percents) <= Exact(x1, percents) + (y - x)
  {
  }

  /** Two amounts come no further apart under the same promotions. */
  lemma {:induction false} ExactWithin(x: real, y: real, percents: seq<int>)
    requires x <= y && forall i :: 0 <= i < |percents| ==> 0 <= percents[i] <= 100
    ensures Exact(x, percents) <= Exact(y, percents) <= Exact(x, percents) + (y - x)
    decreases |percents|
  {
    if percents != [] {
      var x1, y1 := Reduced(x, percents[0]), Reduced(y, percents[0]);
      Closer(x, y, percents[0]);
      ExactWithin(x1, y1, percents[1..]);
      WithinThen(x, y, x1, y1, percents[1..]);
    }
  }

  lemma OneTimes(x: real)
    ensures 1.0 * x == x
  {
  }

  lemma Regroup(f: real, k: real, x: real)
    ensures (f * k) * x == f * (k * x)
  {
  }

  lemma ReducedScales(x: real, percent: int)
    ensures Reduced(1.0, percent) * x == Reduced(x, percent)
  {
  }

  /** The exact amount is the amount times the product of what each promotion leaves. */
  lemma {:induction false} ExactIsProduct(x: real, percents: seq<int>)
    ensures Exact(x, percents) == Factor(percents) * x
    decreases |percents|
  {
    if percents == [] {
      OneTimes(x);
    } else {
      ExactIsProduct(Reduced(x, percents[0]), percents[1..]);
      ReducedScales(x, percents[0]);
      Regroup(Factor(percents[1..]), Reduced(1.0, percents[0]), x);
    }
  }

  /** r is q after n promotions that leave this amount of it: same base and credit, sound, and
      charging the exact amount rounded up by less than one minor unit per promotion. */
  ghost predicate Near(q: Quote, exact: real, n: nat, r: Quote) {
    && Sound(r) && r.base == q.base && r.credit == q.credit && r.final <= q.final
    && exact <= r.final as real
    && if n == 0 then r == q else r.final as real < exact + n as real
  }

  ghost predicate Bounded(q: Quote, percents: seq<int>, r: Quote) { Near(q, Exact(q.final as real, percents), |percents|, r) }

  lemma PromotionBounded(q: Quote, percent: int)
    requires Sound(q) && 0 <= percent <= 100 && q.final * 100 < TWO63
    ensures var r := ApplyPercentagePromotion(q, percent); r.Some? && Near(q, Reduced(q.final as real, percent), 1, r.value)
  {
    Within(q.final, percent);
    PromotionStep(q, percent);
  }

  lemma BoundedThen(q: Quote, exact: real, q1: Quote, percents: seq<int>, r: Quote)
    requires forall i :: 0 <= i < |percents| ==> 0 <= percents[i] <= 100
    requires Near(q, exact, 1, q1) && Bounded(q1, percents, r)
    ensures Near(q, Exact(exact, percents), |percents| + 1, r)
  {
    ExactWithin(exact, q1.final as real, percents);
  }

  /** Any sequence of promotions keeps the quote's arithmetic and its base, and rounds its amount up. */
  lemma {:induction false} PromotionsBounded(q: Quote, percents: seq<int>)
    requires Sound(q) && q.final * 100 < TWO63
    requires forall i :: 0 <= i < |percents| ==> 0 <= percents[i] <= 100
    ensures Promote(q, percents).Some? && Bounded(q, percents, Promote(q, percents).value)
    decreases |percents|
  {
    if percents != [] {
      PromotionBounded(q, percents[0]);
      var q1 := ApplyPercentagePromotion(q, percents[0]).value;
      PromotionsBounded(q1, percents[1..]);
      BoundedThen(q, Reduced(q.final as real, percents[0]), q1, percents[1..], Promote(q1, percents[1..]).value);
    }
  }

  lemma Within(final: int, percent: int)
    requires 0 <= percent <= 100 && final >= 0
    ensures final * percent <= final * 100
  {
  }

  /** A percentage outside 0..100 anywhere refuses the whole sequence, and nothing else does. */
  lemma {:induction false} PromotionsRefused(q: Quote, percents: seq<int>)
    ensures Promote(q, percents).None? <==> exists i :: 0 <= i < |percents| && !(0 <= percents[i] <= 100)
    decreases |percents|
  {
    if percents != [] {
      var step := ApplyPercentagePromotion(q, percents[0]);
      if step.Some? {
        PromotionsRefused(step.value, percents[1..]);
        assert forall i :: 1 <= i < |percents| ==> percents[i] == percents[1..][i - 1];
        assert forall i :: 0 <= i < |percents[1..]| ==> percents[1..][i] == percents[i + 1];
      }
    }
  }

  // ---- A chain of purchases on one event ----

  /** One settled purchase, with the catalogue, the table and the order it was quoted from. */
  datatype Deal = Deal(cat: PlanCatalog, rows: seq<Purchase>, order: Order, sale: Purchase)

  /** The event's plan was not on sale then: it was still waiting for what it had bought, or had bought nothing. */
  predicate Anew(d: Deal) { !Sellable(d.cat.reg, d.order.current) }

  /** The order was quoted, and the sale recorded the quote and was paid. */
  ghost predicate SoldAs(d: Deal, e: Id) {
    var r := EventQuote(d.cat, d.rows, d.order);
    && r.Quoted? && d.order.eventId == e && d.sale.eventId == e && d.sale.hostId == d.order.hostId
    && d.sale.base == r.quote.base && d.sale.credit == r.quote.credit && d.sale.quoted == r.quote.final
    && d.sale.context == r.quote.context && Paid(d.sale.status) && d.sale.settlement.Some?
  }

  function Sales(deals: seq<Deal>): seq<Purchase> {
    if deals == [] then [] else Sales(deals[..|deals| - 1]) + [deals[|deals| - 1].sale]
  }

  /** Each deal was quoted when exactly the deals before it were sold on the event. The catalogue and
      the rows of other events are whatever they are each time. */
  ghost predicate Chain(deals: seq<Deal>, e: Id) {
    deals == [] ||
    var n := |deals| - 1;
    && Chain(deals[..n], e) && SoldAs(deals[n], e)
    && Where(deals[n].rows, SoldOn(e)) == Sales(deals[..n])
    && forall i :: 0 <= i < n ==> SoldLater(deals[n].sale, deals[i].sale)
  }

  function Charged(deals: seq<Deal>): int {
    if deals == [] then 0 else Charged(deals[..|deals| - 1]) + deals[|deals| - 1].sale.quoted
  }

  /** What a deal gives no credit for of the value the one before it had: all of it when the deal was
      sold as a first purchase again, and otherwise what exceeds its own value. */
  function LostBy(before: Deal, d: Deal): int {
    if Anew(d) then before.sale.base else before.sale.base - Min(before.sale.base, d.sale.base)
  }

  function Lost(deals: seq<Deal>): int {
    if |deals| < 2 then 0 else Lost(deals[..|deals| - 1]) + LostBy(deals[|deals| - 2], deals[|deals| - 1])
  }

  /** The last deal that was not an upgrade of what the deal before it sold. */
  function Start(deals: seq<Deal>): nat
    requires deals != []
  {
    if |deals| == 1 || Anew(deals[|deals| - 1]) then |deals| - 1 else Start(deals[..|deals| - 1])
  }

  lemma {:induction false} SalesAt(deals: seq<Deal>)
    ensures |Sales(deals)| == |deals| && forall i :: 0 <= i < |deals| ==> Sales(deals)[i] == deals[i].sale
  {
    if deals != [] { SalesAt(deals[..|deals| - 1]); }
  }

  /** The last sale of a chain is the purchase that funds the next upgrade. */
  lemma FundedByLast(deals: seq<Deal>, e: Id, rows: seq<Purchase>)
    requires Chain(deals, e) && deals != [] && Where(rows, SoldOn(e)) == Sales(deals)
    ensures LatestEventPurchase(rows, e) == Some(deals[|deals| - 1].sale)
  {
    SalesAt(deals);
    LatestIsLast(rows, e);
  }

  /** What a deal charges, from what had been sold before it. */
  lemma DealQuote(d: Deal, e: Id)
    requires SoldAs(d, e)
    ensures d.order.price.Some? && d.sale.base == TierValue(d.sale.context, d.order.price.value)
    ensures d.sale.quoted == d.sale.base - d.sale.credit
    ensures Anew(d) ==> d.sale.credit == 0 && d.sale.context == NewContext(d.rows, d.order.hostId, e)
    ensures !Anew(d) && LatestEventPurchase(d.rows, e).None? ==>
      && d.sale.context == NewContext(d.rows, d.order.hostId, e)
      && d.order.held.Some? && d.sale.credit == Min(TierValue(d.sale.context, d.order.held.value), d.sale.base)
    ensures var funding := LatestEventPurchase(d.rows, e);
      !Anew(d) && funding.Some? && Paid(funding.value.status) ==>
        d.sale.context == funding.value.context && d.sale.credit == Min(funding.value.base, d.sale.base)
  {
  }

  lemma FirstDeal(deals: seq<Deal>, e: Id)
    requires Chain(deals, e) && |deals| == 1
    ensures LatestEventPurchase(deals[0].rows, e).None?
  {
    assert Sort(Where(deals[0].rows, SoldOn(e)), LatestSale()) == [];
  }

  /** Every sale of a chain is priced in the context the host had when the event last bought a plan
      that was not an upgrade, and records its own tier's value there. */
  lemma {:induction false} OneContext(deals: seq<Deal>, e: Id)
    requires Chain(deals, e) && deals != []
    ensures var n, j := |deals| - 1, Start(deals);
      && j <= n && deals[n].order.price.Some?
      && deals[n].sale.context == NewContext(deals[j].rows, deals[j].order.hostId, e)
      && deals[n].sale.base == TierValue(deals[n].sale.context, deals[n].order.price.value)
  {
    var n := |deals| - 1;
    DealQuote(deals[n], e);
    if n == 0 {
      FirstDeal(deals, e);
    } else if !Anew(deals[n]) {
      OneContext(deals[..n], e);
      FundedByLast(deals[..n], e, deals[n].rows);
    }
  }

  /** What the last deal of a chain charges. */
  lemma LastStep(deals: seq<Deal>, e: Id)
    requires Chain(deals, e) && |deals| >= 2
    ensures var before, d := deals[|deals| - 2], deals[|deals| - 1];
      d.sale.quoted == d.sale.base - before.sale.base + LostBy(before, d)
  {
    var n := |deals| - 1;
    DealQuote(deals[n], e);
    if !Anew(deals[n]) { FundedByLast(deals[..n], e, deals[n].rows); }
  }

  /** All that an event was ever charged, with the credit the first deal gave for a tier nobody had
      bought, is what the last tier is worth plus everything lost along the way. */
  lemma {:induction false} UpgradesTelescope(deals: seq<Deal>, e: Id)
    requires Chain(deals, e) && deals != []
    ensures Charged(deals) + deals[0].sale.credit == deals[|deals| - 1].sale.base + Lost(deals)
  {
    var n := |deals| - 1;
    if n == 0 {
      DealQuote(deals[0], e);
    } else {
      UpgradesTelescope(deals[..n], e);
      LastStep(deals, e);
    }
  }

  /** The deal after i kept what deal i was worth: it was an upgrade to a tier worth no less, or there
      was nothing to keep. */
  ghost predicate KeptFrom(deals: seq<Deal>, i: nat)
    requires i + 1 < |deals|
  {
    if Anew(deals[i + 1]) then deals[i].sale.base == 0 else deals[i].sale.base <= deals[i + 1].sale.base
  }

  /** The chain costs exactly its last tier's value when each deal keeps what the one before it was
      worth, and more otherwise. */
  lemma {:induction false} NothingLostIff(deals: seq<Deal>, e: Id)
    requires Chain(deals, e) && forall i :: 0 <= i < |deals| && deals[i].order.price.Some? ==> Priced(deals[i].order.price.value)
    ensures Lost(deals) >= 0 && (Lost(deals) == 0 <==> forall i :: 0 <= i < |deals| - 1 ==> KeptFrom(deals, i))
  {
    if |deals| >= 2 {
      var n := |deals| - 1;
      NothingLostIff(deals[..n], e);
      BaseNotNegative(deals[..n], e);
      OneLoss(deals);
      KeptSplits(deals);
    }
  }

  lemma BaseNotNegative(deals: seq<Deal>, e: Id)
    requires Chain(deals, e) && deals != []
    requires var d := deals[|deals| - 1]; d.order.price.Some? ==> Priced(d.order.price.value)
    ensures deals[|deals| - 1].sale.base >= 0
  {
    DealQuote(deals[|deals| - 1], e);
  }

  lemma KeptSplits(deals: seq<Deal>)
    requires |deals| >= 2
    ensures var n := |deals| - 1;
      (forall i :: 0 <= i < n ==> KeptFrom(deals, i)) <==>
        (forall i :: 0 <= i < n - 1 ==> KeptFrom(deals[..n], i)) && KeptFrom(deals, n - 1)
  {
    var n := |deals| - 1;
    assert forall i :: 0 <= i < n - 1 ==> KeptFrom(deals, i) == KeptFrom(deals[..n], i);
  }

  lemma OneLoss(deals: seq<Deal>)
    requires |deals| >= 2 && deals[|deals| - 2].sale.base >= 0
    ensures var loss := LostBy(deals[|deals| - 2], deals[|deals| - 1]); loss >= 0 && (loss == 0 <==> KeptFrom(deals, |deals| - 2))
  {
  }
}
