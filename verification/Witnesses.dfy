/** Short runs from empty tables in which a promise of the billing and plan code is not kept. Each is
    the failing side of an if-and-only-if proved for all inputs where the code is modelled. */
module Witnesses {
  import opened Tables
  import opened Sorting
  import opened Purchases
  import opened Catalog
  import opened Grants
  import L = Licences
  import MediaModel
  import P = Pricing
  import S = Reconciliation
  import opened Billing
  import opened Refunds

  const SIGNATURE: PlanCode := "signature"

  function Amounts(): Limits { Limits(1000, 0, 0, 0, 30) }

  /** The three plans of the first registry, one version each. */
  function ThreePlans(): PlanCatalog {
    var free, experience, signature :=
      PlanDefinition(FREE, 0, false, false), PlanDefinition(EXPERIENCE, 1, true, false), PlanDefinition(SIGNATURE, 2, true, false);
    PlanCatalog(
      Registry(map[FREE := free, EXPERIENCE := experience, SIGNATURE := signature], [free, experience, signature]),
      map[1 := Version(1, FREE, Amounts()), 2 := Version(2, EXPERIENCE, Amounts()), 3 := Version(3, SIGNATURE, Amounts())],
      map[FREE := 1, EXPERIENCE := 2, SIGNATURE := 3])
  }

  lemma PlansInOrder()
    ensures var cat := ThreePlans();
      && ActiveVersion(cat, FREE) == Some(Version(1, FREE, Amounts()))
      && ActiveVersion(cat, EXPERIENCE) == Some(Version(2, EXPERIENCE, Amounts()))
      && ActiveVersion(cat, SIGNATURE) == Some(Version(3, SIGNATURE, Amounts()))
      && CheckTransition(cat.reg, Some(FREE), EXPERIENCE) == Allowed
      && CheckTransition(cat.reg, Some(EXPERIENCE), SIGNATURE) == Allowed
      && CheckTransition(cat.reg, Some(SIGNATURE), EXPERIENCE) == NotUpward
      && CheckTransition(cat.reg, Some(FREE), SIGNATURE) == Allowed
      && !Sellable(cat.reg, FREE) && Sellable(cat.reg, EXPERIENCE) && Sellable(cat.reg, SIGNATURE)
  {
    assert |FREE| == 4 && |EXPERIENCE| == 10 && |SIGNATURE| == 9;
  }

  function NewEvent(): EventPlan { EventPlan(7, None, false, MediaModel.HotLimits(0, 0, 0, 0), 0) }

  /** No plans and no purchases; the flag column of event 1 has its default. */
  function Empty(): Ledger { Ledger(map[], map[], map[1 := BillingOk], L.Books(Plans(map[], [], []), map[])) }

  /** Event 1 is the only one, and on Free since time 10. */
  ghost predicate OnFree(s: Plans) {
    && s.events.Keys == {1} && s.events[1].hostId == 7 && !s.events[1].removed
    && |s.grants| == 1 && ActiveGrant(s.grants, 1) == Some(s.grants[0])
    && var g := s.grants[0];
    g.id == 11 && g.plan == FREE && g.source.SourceSystem? && g.licenceId.None? && g.reference.None? && g.activatedAt == 10
  }

  lemma FirstGrant(s: Plans, s1: Plans, r: PlanResult)
    requires s == Plans(map[], [], []) && (s1, r) == Provision(ThreePlans(), s, 1, NewEvent(), 11, 10)
    ensures r.Granted? && r.grant.id == 11 && r.grant.source.SourceSystem? && r.grant.licenceId.None? && r.grant.reference.None?
    ensures r.grant.activatedAt == 10 && s1.grants == [r.grant]
    ensures s1.events.Keys == {1} && s1.events[1].hostId == 7 && !s1.events[1].removed
  {
    PlansInOrder();
  }

  lemma Created(s: Plans, s1: Plans)
    requires s == Plans(map[], [], []) && s1 == Provision(ThreePlans(), s, 1, NewEvent(), 11, 10).0
    ensures OnFree(s1) && Grants.Valid(ThreePlans(), s1) && Stack(s1.grants, 1) == s1.grants
  {
    var r := Provision(ThreePlans(), s, 1, NewEvent(), 11, 10).1;
    FirstGrant(s, s1, r);
    assert Grants.Valid(ThreePlans(), s);
    ProvisionStarts(ThreePlans(), s, 1, NewEvent(), 11, 10);
    ProvisionWrites(ThreePlans(), s, 1, NewEvent(), 11, 10);
    ActiveRow(s1.grants, r.grant);
  }

  // ---- A dated activation is passed over ----

  /** Experience, dated before the event was created; Signature, now. */
  function Dated(): ActivateInput { ActivateInput(1, EXPERIENCE, SourceManual, FreeText("a"), "dated", Some(5)) }

  function Undated(): ActivateInput { ActivateInput(1, SIGNATURE, SourceManual, FreeText("b"), "now", None) }

  /** The table has one more row, under this id and reference; of the others only a status changed. */
  ghost predicate NewRows(after: seq<Grant>, before: seq<Grant>, id: Id, reference: Reference) {
    forall g :: g in after ==>
      (g.id == id && g.reference == Some(reference)) || exists o :: o in before && g == o.(status := g.status)
  }

  lemma Activated(s: Plans, input: ActivateInput, id: Id, from: PlanCode)
    requires GrantsUnique(s.grants) && 1 in s.events && PlanOf(ActiveGrant(s.grants, 1)) == Some(from)
    requires input.eventId == 1 && input.source.SourceManual? && input.reference != FreeText("")
    requires ActiveVersion(ThreePlans(), input.target).Some?
    requires CheckTransition(ThreePlans().reg, Some(from), input.target) == Allowed
    requires forall g :: g in s.grants ==> g.id != id && g.reference != Some(input.reference)
    ensures var (s', r) := Activate(ThreePlans(), s, input, id, 20);
      && r.Granted? && GrantsUnique(s'.grants) && 1 in s'.events && ActiveGrant(s'.grants, 1) == Some(r.grant)
      && r.grant.id == id && r.grant.plan == input.target
      && NewRows(s'.grants, s.grants, id, input.reference)
  {
    ActivateGrantedIff(ThreePlans(), s, input, id, 20);
    ActivateWrites(ThreePlans(), s, input, id, 20);
    var (s', r) := Activate(ThreePlans(), s, input, id, 20);
    WriteKeepsPlan(s, r.grant, input.reason, 1);
    var current := ActiveGrant(s.grants, 1).value;
    UpdateMembers(s.grants, ActiveById(current.id), SetStatus(Superseded));
  }

  lemma NextIsFree(after: seq<Grant>, before: seq<Grant>)
    requires NewRows(after, before, 12, FreeText("a")) && |before| == 1 && before[0].id == 11 && before[0].reference.None?
    ensures forall g :: g in after ==> g.id != 13 && g.reference != Some(FreeText("b"))
  {
    assert "a" != "b";
  }

  lemma DatedGranted(s: Plans)
    requires OnFree(s) && GrantsUnique(s.grants)
    ensures var (s', r) := Activate(ThreePlans(), s, Dated(), 12, 20);
      && r.Granted? && r.grant.id == 12 && GrantsUnique(s'.grants) && 1 in s'.events
      && PlanOf(ActiveGrant(s'.grants, 1)) == Some(EXPERIENCE)
      && forall g :: g in s'.grants ==> g.id != 13 && g.reference != Some(FreeText("b"))
  {
    PlansInOrder();
    Activated(s, Dated(), 12, FREE);
    NextIsFree(Activate(ThreePlans(), s, Dated(), 12, 20).0.grants, s.grants);
  }

  /** Revoking Signature does not give Experience back: the event is on Free. */
  lemma SkippedTo(s: Plans, s2: Plans, s3: Plans)
    requires OnFree(s) && Grants.Valid(ThreePlans(), s) && Stack(s.grants, 1) == s.grants
    requires s2 == Activate(ThreePlans(), s, Dated(), 12, 20).0
    requires s3 == Activate(ThreePlans(), s2, Undated(), 13, 20).0
    ensures PlanOf(ActiveGrant(s2.grants, 1)) == Some(EXPERIENCE) && PlanOf(ActiveGrant(s3.grants, 1)) == Some(SIGNATURE)
    ensures var r := Revoke(s3, 1, "mistake", 30).1; r.Restored? && r.revoked.plan == SIGNATURE && r.restored.plan == FREE
  {
    PlansInOrder();
    DatedGranted(s);
    Activated(s2, Undated(), 13, EXPERIENCE);
    var g, h := Activate(ThreePlans(), s, Dated(), 12, 20).1.grant, Activate(ThreePlans(), s2, Undated(), 13, 20).1.grant;
    assert EventOk(ThreePlans().reg, s.events[1], Stack(s.grants, 1));
    BackdatedIsSkipped(ThreePlans(), s, s2, s3, Dated(), Undated(), g, h, 20, "mistake", 30);
  }

  function DatedRun(): seq<L.Step> {
    [L.ProvisionStep(1, NewEvent(), 11, 10), L.ActivateStep(Dated(), 12, 20), L.ActivateStep(Undated(), 13, 20)]
  }

  lemma DatedStates(b: L.Books, s1: Plans, s2: Plans, s3: Plans)
    requires s1 == Provision(ThreePlans(), b.plans, 1, NewEvent(), 11, 10).0
    requires s2 == Activate(ThreePlans(), s1, Dated(), 12, 20).0 && s3 == Activate(ThreePlans(), s2, Undated(), 13, 20).0
    ensures L.Run(ThreePlans(), b, DatedRun()[..2]).plans == s2 && L.Run(ThreePlans(), b, DatedRun()).plans == s3
  {
    ThreeSteps(ThreePlans(), b, DatedRun());
  }

  /** Free, then an Experience dated before it, then Signature, then a revocation. */
  lemma RevokeSkipsExperience()
    ensures PlanOf(ActiveGrant(L.Run(ThreePlans(), Empty().books, DatedRun()[..2]).plans.grants, 1)) == Some(EXPERIENCE)
    ensures var r := Revoke(L.Run(ThreePlans(), Empty().books, DatedRun()).plans, 1, "mistake", 30).1;
      r.Restored? && r.revoked.plan == SIGNATURE && r.restored.plan == FREE
  {
    var b := Empty().books;
    var s1 := Provision(ThreePlans(), b.plans, 1, NewEvent(), 11, 10).0;
    var s2 := Activate(ThreePlans(), s1, Dated(), 12, 20).0;
    var s3 := Activate(ThreePlans(), s2, Undated(), 13, 20).0;
    Created(b.plans, s1);
    SkippedTo(s1, s2, s3);
    DatedStates(b, s1, s2, s3);
  }

  lemma ThreeSteps(cat: PlanCatalog, b: L.Books, steps: seq<L.Step>)
    requires |steps| == 3
    ensures L.Run(cat, b, steps[..2]) == L.Next(cat, L.Next(cat, b, steps[0]), steps[1])
    ensures L.Run(cat, b, steps) == L.Next(cat, L.Run(cat, b, steps[..2]), steps[2])
  {
    L.RunThen(cat, b, [], steps[0]);
    L.RunThen(cat, b, steps[..1], steps[1]);
    L.RunThen(cat, b, steps[..2], steps[2]);
    assert [] + [steps[0]] == steps[..1] && steps[..1] + [steps[1]] == steps[..2] && steps[..2] + [steps[2]] == steps;
  }

  // ---- A plan given and taken back by staff ----

  function Staff(e: Id): ActivateInput { ActivateInput(e, SIGNATURE, SourceManual, FreeText("staff"), "courtesy", None) }

  /** e is on Free since before 52. */
  ghost predicate Free(s: Plans, e: Id) {
    && e in s.events && s.events[e].hostId == 7 && !s.events[e].removed
    && var g := ActiveGrant(s.grants, e); g.Some? && g.value.plan == FREE && g.value.activatedAt < 52
  }

  /** No grant has id 14 or the staff's reference. */
  ghost predicate Unclaimed(rows: seq<Grant>) { forall g :: g in rows ==> g.id != 14 && g.reference != Some(FreeText("staff")) }

  lemma StaffGranted(s: Plans, e: Id)
    requires GrantsUnique(s.grants) && Free(s, e) && Unclaimed(s.grants)
    ensures var (s', r) := Activate(ThreePlans(), s, Staff(e), 14, 52);
      r.Granted? && r.grant.plan == SIGNATURE && ActiveGrant(s'.grants, e) == Some(r.grant) && SameEvent(s, s', e)
  {
    PlansInOrder();
    ActivateGrantedIff(ThreePlans(), s, Staff(e), 14, 52);
    ActivateWrites(ThreePlans(), s, Staff(e), 14, 52);
    WriteKeepsPlan(s, Activate(ThreePlans(), s, Staff(e), 14, 52).1.grant, "courtesy", e);
  }

  ghost predicate SameEvent(s: Plans, s': Plans, e: Id) {
    && e in s.events && e in s'.events && s'.events.Keys == s.events.Keys
    && s'.events[e].hostId == s.events[e].hostId && s'.events[e].removed == s.events[e].removed
  }

  lemma StaffReady(s: Plans, e: Id)
    requires Grants.Valid(ThreePlans(), s) && Free(s, e)
    ensures TimeAhead(s.grants, e, 52) && Stack(s.grants, e) != []
  {
    assert EventOk(ThreePlans().reg, s.events[e], Stack(s.grants, e));
    TopIsActive(s.grants, e);
  }

  /** The staff's revocation puts the event back on the plan it had. */
  lemma StaffRevokes(s: Plans, s1: Plans, s2: Plans, e: Id)
    requires Grants.Valid(ThreePlans(), s) && Free(s, e) && Unclaimed(s.grants)
    requires s1 == Activate(ThreePlans(), s, Staff(e), 14, 52).0 && s2 == Revoke(s1, e, "mistake", 61).0
    ensures ActiveGrant(s2.grants, e) == ActiveGrant(s.grants, e)
  {
    StaffReady(s, e);
    StaffGranted(s, e);
    RevokeUndoesActivate(ThreePlans(), s, Staff(e), 14, 52, "mistake", 61);
    SameActive(s2.grants, s.grants, e);
  }

  lemma RevokeKeepsEvent(s: Plans, e: Id, reason: string, at: Time)
    requires e in s.events
    ensures SameEvent(s, Revoke(s, e, reason, at).0, e)
  {
    RevokeWrites(s, e, reason, at);
  }

  // ---- Purchases and what they were quoted ----

  /** A pending purchase by host 7 for what was quoted. */
  function Bought(id: Id, e: Id, versionId: nat, q: P.Quote): Purchase {
    Purchase(id, e, 7, versionId, q.final, q.base, q.discount, q.credit, q.context, "USD", PurchaseStatus.Pending, "", None, None, 0, 0, None)
  }

  function ExperiencePrice(): P.CatalogPrice { P.CatalogPrice(100, None) }

  function SignaturePrice(): P.CatalogPrice { P.CatalogPrice(200, None) }

  /** Experience for event 1, Signature for event 1 once that is paid, Experience for event 2 after both. */
  function First(): Purchase { Bought(1, 1, 2, P.Quote(100, 0, 0, 100, FirstContext, P.FirstPurchase)) }

  function Second(): Purchase { Bought(2, 1, 3, P.Quote(200, 100, 100, 100, FirstContext, P.Upgrade)) }

  function Third(): Purchase { Bought(3, 2, 2, P.Quote(100, 0, 0, 100, ReturningContext, P.ReturningCustomer)) }

  /** The payment of a purchase of 100, and a refund of it: an amount of 0 is all of it. */
  function Payment(id: Id, key: string): Delivery {
    Delivery(PaymentSettled, Some(id), key, key, "", 100, "USD", 0, 100, "USD", 0, None)
  }

  function Refund(id: Id, key: string, amount: int): Delivery {
    Delivery(PaymentRefunded, Some(id), key, key, "", 0, "", 0, 0, "", amount, None)
  }

  /** Nothing fails; the ids drawn are 30 and 20 more than the purchase's. */
  function Fine(id: Id): World { World(30 + id, 20 + id, 50, false, false, false, false) }

  function FirstPaid(): Purchase { SettledRow(First(), Payment(1, "a"), 50).(appliedAt := Some(50)) }

  function SecondPaid(): Purchase { SettledRow(Second(), Payment(2, "b"), 50) }

  lemma OneRow()
    ensures S.Table(map[1 := FirstPaid()]) == [FirstPaid()]
  {
    var keys := KeysInOrder({1});
    KeysAscending({1});
    assert keys == [1] by {
      assert 1 in keys;
      assert forall i :: 0 <= i < |keys| ==> keys[i] in keys;
    }
    assert map[1 := FirstPaid()].Keys == {1};
  }

  /** What each purchase was quoted on the table as it stood. */
  lemma FirstIsQuoted()
    ensures P.EventQuote(ThreePlans(), [], P.Order(7, 1, true, FREE, EXPERIENCE, Some(ExperiencePrice()), None)) ==
      P.Quoted(P.Quote(100, 0, 0, 100, FirstContext, P.FirstPurchase))
  {
    PlansInOrder();
  }

  lemma FirstFunds()
    ensures LatestEventPurchase([FirstPaid()], 1) == Some(FirstPaid())
  {
    Single(FirstPaid(), SoldOn(1), (p: Purchase) => p);
    LatestIsLast([FirstPaid()], 1);
  }

  lemma SecondIsQuoted()
    ensures P.EventQuote(ThreePlans(), S.Table(map[1 := FirstPaid()]),
                         P.Order(7, 1, true, EXPERIENCE, SIGNATURE, Some(SignaturePrice()), Some(ExperiencePrice()))) ==
      P.Quoted(P.Quote(200, 100, 100, 100, FirstContext, P.Upgrade))
  {
    PlansInOrder();
    OneRow();
    FirstFunds();
    UpgradePrice();
  }

  lemma UpgradePrice()
    ensures P.UpgradeQuote([FirstPaid()], 7, 1, SignaturePrice(), SignaturePrice()) == P.Quote(200, 100, 100, 100, FirstContext, P.Upgrade)
  {
    FirstFunds();
  }

  lemma ThirdIsQuoted(rows: seq<Purchase>)
    requires FirstPaid() in rows
    ensures P.EventQuote(ThreePlans(), rows, P.Order(7, 2, true, FREE, EXPERIENCE, Some(ExperiencePrice()), None)) ==
      P.Quoted(P.Quote(100, 0, 0, 100, ReturningContext, P.ReturningCustomer))
  {
    PlansInOrder();
    WhereMembers(rows, Commercial(7, 2));
    assert FirstPaid() in Where(rows, Commercial(7, 2));
  }

  // ---- Event 1 and its first purchase ----

  /** The event on Free, with purchase 1 waiting for its payment. */
  ghost predicate Offered(s: Ledger) {
    && OnFree(s.books.plans) && s.books.licences == map[] && s.purchases == map[1 := First()]
    && s.records == map[] && s.flags == map[1 := BillingOk]
  }

  lemma EmptyIsValid()
    ensures Billing.Valid(Empty())
  {
  }

  /** The event on Free and nothing sold. */
  ghost predicate Unsold(s: Ledger) {
    && OnFree(s.books.plans) && s.books.licences == map[] && s.purchases == map[]
    && s.records == map[] && s.flags == map[1 := BillingOk]
  }

  lemma EventCreated(s1: Ledger)
    requires s1 == Next(ThreePlans(), Empty(), PlansStep(L.ProvisionStep(1, NewEvent(), 11, 10)))
    ensures Billing.Valid(s1) && Unsold(s1) && Grants.Valid(ThreePlans(), s1.books.plans)
  {
    EmptyIsValid();
    Billing.NextKeepsValid(ThreePlans(), Empty(), PlansStep(L.ProvisionStep(1, NewEvent(), 11, 10)));
    Created(Empty().books.plans, s1.books.plans);
  }

  lemma Offering(s1: Ledger, s2: Ledger)
    requires Billing.Valid(s1) && Unsold(s1) && s2 == Next(ThreePlans(), s1, OpenStep(First()))
    ensures Billing.Valid(s2) && Offered(s2) && s2.books == s1.books
  {
    OpenKeeps(s1, First());
  }

  /** The grants carry these ids and no reference but purchase 1's. */
  ghost predicate GrantIds(rows: seq<Grant>, ids: set<Id>) {
    forall g :: g in rows ==> g.id in ids && (g.reference.None? || g.reference == Some(BillingPurchase(1)))
  }

  /** Only purchase 1 has a licence, consumed by event 1. */
  ghost predicate PaidByFirst(b: L.Books) {
    b.licences.Keys == {1} && b.licences[1].consumedEventId == Some(1) && b.licences[1].id == 31
  }

  lemma IsFresh(b: L.Books, id: Id)
    requires GrantIds(b.plans.grants, {11, 12, 21}) && (b.licences == map[] || PaidByFirst(b)) && 2 <= id < 10
    ensures L.Fresh(b, id, 30 + id, 20 + id) && id !in b.licences
  {
  }

  /** Purchase 1 paid and applied. */
  ghost predicate PaidOnce(s: Ledger) {
    && s.purchases == map[1 := FirstPaid()] && s.flags == map[1 := BillingOk] && s.records == map["a" := Processed]
    && PaidByFirst(s.books) && GrantIds(s.books.plans.grants, {11, 21}) && s.books.plans.events.Keys == {1}
  }

  lemma FirstIsNew(s: Ledger)
    requires Offered(s)
    ensures L.Fresh(s.books, 1, 31, 21) && GrantIds(s.books.plans.grants, {11})
  {
    assert forall g :: g in s.books.plans.grants ==> g == s.books.plans.grants[0];
  }

  lemma FirstSettles(s: Ledger)
    requires Offered(s) && L.Fresh(s.books, 1, 31, 21)
    ensures Settles(s, First(), Payment(1, "a"), Fine(1))
  {
  }

  lemma FirstFits(s: Ledger)
    requires Offered(s)
    ensures Applicable(ThreePlans(), s.books, First())
  {
    PlansInOrder();
  }

  lemma FirstBooks(b: L.Books, b': L.Books)
    requires b.licences == map[] && GrantIds(b.plans.grants, {11}) && b.plans.events.Keys == {1}
    requires b' == BooksAfter(ThreePlans(), b, First(), 50, Fine(1)) && b'.licences.Keys == {1}
    requires L.ActivatePurchase(ThreePlans(), b, LicenceInput(First(), 50), 31, 21, 50).1.Applied?
    ensures GrantIds(b'.plans.grants, {11, 21}) && b'.plans.events.Keys == {1} && b'.licences[1].id == 31
    ensures PlanOf(ActiveGrant(b'.plans.grants, 1)) == Some(EXPERIENCE) || !GrantsUnique(b.plans.grants)
  {
    var input := LicenceInput(First(), 50);
    PlansInOrder();
    L.PurchaseKeepsEvents(ThreePlans(), b, input, 31, 21, 50);
    L.PurchaseWrites(ThreePlans(), b, input, 31, 21, 50);
    var current := ActiveGrant(b.plans.grants, 1);
    if current.Some? { UpdateMembers(b.plans.grants, ActiveById(current.value.id), SetStatus(Superseded)); }
    if GrantsUnique(b.plans.grants) {
      WriteKeepsPlan(b.plans, L.PaidGrant(ThreePlans(), b, input, 31, 21, 50), "paid event package purchase", 1);
    }
  }

  lemma FirstApplied(s: Ledger)
    requires Billing.Valid(s) && Offered(s) && L.Fresh(s.books, 1, 31, 21)
    ensures L.ActivatePurchase(ThreePlans(), s.books, LicenceInput(First(), 50), 31, 21, 50).1.Applied?
  {
    FirstFits(s);
    L.PurchaseAppliesIff(ThreePlans(), s.books, LicenceInput(First(), 50), 31, 21, 50);
  }

  lemma FirstRows(s: Ledger, s': Ledger)
    requires Offered(s) && L.Fresh(s.books, 1, 31, 21) && GrantIds(s.books.plans.grants, {11})
    requires L.ActivatePurchase(ThreePlans(), s.books, LicenceInput(First(), 50), 31, 21, 50).1.Applied?
    requires SettledAs(s, SettledRow(First(), Payment(1, "a"), 50), "a", 50, true, BooksAfter(ThreePlans(), s.books, First(), 50, Fine(1)), s')
    ensures PaidOnce(s')
    ensures PlanOf(ActiveGrant(s'.books.plans.grants, 1)) == Some(EXPERIENCE) || !GrantsUnique(s.books.plans.grants)
  {
    FirstBooks(s.books, s'.books);
  }

  lemma FirstIsApplied(s: Ledger, s': Ledger)
    requires Billing.Valid(s) && Offered(s) && s' == HandleProviderEvent(ThreePlans(), s, Payment(1, "a"), Fine(1)).0
    ensures Billing.Valid(s') && PaidOnce(s') && PlanOf(ActiveGrant(s'.books.plans.grants, 1)) == Some(EXPERIENCE)
    ensures s'.books == BooksAfter(ThreePlans(), s.books, First(), 50, Fine(1))
  {
    FirstIsNew(s);
    FirstSettles(s);
    FirstFits(s);
    FirstApplied(s);
    SettlementAppliesIff(ThreePlans(), s, First(), Payment(1, "a"), Fine(1));
    FirstRows(s, s');
    DeliverKeeps(ThreePlans(), s, Payment(1, "a"), Fine(1));
  }

  lemma FirstInOrder(b: L.Books)
    requires Grants.Valid(ThreePlans(), b.plans) && OnFree(b.plans)
    ensures Grants.Valid(ThreePlans(), BooksAfter(ThreePlans(), b, First(), 50, Fine(1)).plans)
  {
    L.PurchaseKeepsValid(ThreePlans(), b, LicenceInput(First(), 50), 31, 21, 50);
  }

  // ---- A second purchase on event 1 ----

  /** Purchase 2 paid on the same event, and not applied. */
  ghost predicate PaidTwice(s: Ledger) {
    && s.purchases == map[1 := FirstPaid(), 2 := SecondPaid()] && s.flags == map[1 := BillingOk]
    && s.records == map["a" := Processed, "b" := FailedRecord]
    && PaidByFirst(s.books) && GrantIds(s.books.plans.grants, {11, 21}) && s.books.plans.events.Keys == {1}
  }

  lemma SecondSettles(s: Ledger)
    requires PaidOnce(s)
    ensures Settles(Put(s, Second()), Second(), Payment(2, "b"), Fine(2))
  {
    IsFresh(s.books, 2);
    assert "a" != "b";
  }

  lemma SecondDoesNotFit(b: L.Books)
    requires PaidByFirst(b)
    ensures !Applicable(ThreePlans(), b, Second())
  {
    assert !L.Unpaid(b.licences, 1);
  }

  /** The tables after the second payment, from what it wrote. */
  lemma PaidTwiceIf(s: Ledger, s': Ledger)
    requires PaidOnce(s) && s'.books == s.books && s'.flags == s.flags
    requires s'.purchases == s.purchases[2 := SecondPaid()] && s'.records == s.records["b" := FailedRecord]
    ensures PaidTwice(s')
  {
  }

  lemma OpenedAndPaid(s: Ledger, p: Purchase, d: Delivery, x: World, s': Ledger)
    requires Billing.Valid(s) && Insertable(s, p) && Guarded(s, OpenStep(p)) && !x.markFails && !x.recordFails
    requires Settles(Put(s, p), p, d, x) && !Applicable(ThreePlans(), s.books, p)
    requires s' == HandleProviderEvent(ThreePlans(), Next(ThreePlans(), s, OpenStep(p)), d, x).0
    ensures Billing.Valid(s') && s'.books == s.books && s'.flags == s.flags
    ensures s'.purchases == s.purchases[p.id := SettledRow(p, d, x.now)] && s'.records == s.records[d.key := FailedRecord]
  {
    OpenNew(s, p);
    PaidAndOwed(ThreePlans(), Put(s, p), p, d, x);
    Overwritten(s.purchases, p.id, p, SettledRow(p, d, x.now));
  }

  lemma Overwritten<K, V>(m: map<K, V>, k: K, a: V, b: V)
    ensures m[k := a][k := b] == m[k := b]
  {
  }

  lemma SecondOpens(s: Ledger)
    requires PaidOnce(s)
    ensures Insertable(s, Second()) && Guarded(s, OpenStep(Second()))
  {
  }

  lemma SecondIsOwed(s: Ledger, s': Ledger)
    requires Billing.Valid(s) && PaidOnce(s)
    requires s' == HandleProviderEvent(ThreePlans(), Next(ThreePlans(), s, OpenStep(Second())), Payment(2, "b"), Fine(2)).0
    ensures Billing.Valid(s') && PaidTwice(s') && s'.books == s.books
  {
    SecondOpens(s);
    SecondSettles(s);
    SecondDoesNotFit(s.books);
    OpenedAndPaid(s, Second(), Payment(2, "b"), Fine(2), s');
    PaidTwiceIf(s, s');
  }

  lemma RefundClaimed(s: Ledger)
    requires PaidTwice(s)
    ensures Claimable(s.records, "r")
  {
    assert "r" != "a" && "r" != "b";
  }

  /** Purchase 2 refunded, the event flagged, and no grant ever bought with it. */
  ghost predicate FlaggedForNothing(s: Ledger) {
    && 2 in s.purchases && s.purchases[2].status.Refunded? && s.purchases[2].appliedAt.None? && !BoughtAGrant(s.books, 2)
    && 1 in s.flags && s.flags[1] == BillingRefunded
  }

  lemma OwedReversal(s: Ledger)
    requires Billing.Valid(s) && PaidTwice(s)
    ensures FlaggedForNothing(HandleReversal(Claimed(s, "r"), SecondPaid(), Refund(2, "r", 0), false, Fine(2)).0)
  {
    var s1 := Claimed(s, "r");
    KeptTables(s, s, s1);
    FlagsUnconsumedIff(s1, SecondPaid(), Refund(2, "r", 0), false, Fine(2));
    L.NothingToWithdraw(s.books, 2, 50);
  }

  lemma OwedRefundFlags(s: Ledger, s': Ledger)
    requires Billing.Valid(s) && PaidTwice(s) && s' == HandleProviderEvent(ThreePlans(), s, Refund(2, "r", 0), Fine(2)).0
    ensures FlaggedForNothing(s')
  {
    RefundClaimed(s);
    ReversalRoute(ThreePlans(), s, 2, Refund(2, "r", 0), Fine(2));
    OwedReversal(s);
  }

  // ---- A third purchase, on event 2, paid while staff had upgraded it ----

  function ThirdPaid(): Purchase { SettledRow(Third(), Payment(3, "c"), 60) }

  function LateWorld(): World { Fine(3).(now := 60) }

  /** Event 2 is there and on Free. */
  ghost predicate TwoEvents(b: L.Books) {
    Free(b.plans, 2) && PaidByFirst(b) && GrantIds(b.plans.grants, {11, 12, 21})
  }

  lemma EventTwoGranted(s: Plans, r: PlanResult, s1: Plans)
    requires GrantsUnique(s.grants) && GrantIds(s.grants, {11, 21}) && s.events.Keys == {1}
    requires forall g :: g in s.grants ==> g.eventId in s.events
    requires (s1, r) == Provision(ThreePlans(), s, 2, NewEvent(), 12, 51)
    ensures r.Granted? && s1.grants == s.grants + [r.grant] && GrantsUnique(s1.grants)
    ensures 2 in s1.events && s1.events[2].hostId == 7 && !s1.events[2].removed
    ensures var g := r.grant; g.id == 12 && g.reference.None? && g.activatedAt == 51 && g.plan == FREE && g.eventId == 2 && g.status.Active?
  {
    PlansInOrder();
    NewRowFits(s.grants, NewGrant(12, 2, ActiveVersion(ThreePlans(), FREE).value, None, SourceSystem, None, None, 51, None));
  }

  /** A grant of a new event under a new id, without licence or reference, clashes with nothing. */
  lemma NewRowFits(rows: seq<Grant>, g: Grant)
    requires GrantsUnique(rows) && g.licenceId.None? && g.reference.None?
    requires forall o :: o in rows ==> o.id != g.id && o.eventId != g.eventId
    ensures GrantsUnique(rows + [g])
  {
    assert forall i :: 0 <= i < |rows| ==> rows[i] in rows;
  }

  lemma EventTwo(s: Plans, s1: Plans)
    requires GrantsUnique(s.grants) && GrantIds(s.grants, {11, 21}) && s.events.Keys == {1}
    requires forall g :: g in s.grants ==> g.eventId in s.events
    requires s1 == Provision(ThreePlans(), s, 2, NewEvent(), 12, 51).0
    ensures Free(s1, 2) && GrantIds(s1.grants, {11, 12, 21})
  {
    var r := Provision(ThreePlans(), s, 2, NewEvent(), 12, 51).1;
    EventTwoGranted(s, r, s1);
    ActiveRow(s1.grants, r.grant);
  }

  /** A step on the plans leaves the purchases alone. */
  lemma PlansOnly(s: Ledger, step: L.Step)
    requires Billing.Valid(s)
    ensures var s' := Next(ThreePlans(), s, PlansStep(step));
      Billing.Valid(s') && s' == s.(books := L.Next(ThreePlans(), s.books, step))
  {
    L.NextKeepsLinked(ThreePlans(), s.books, step);
    BooksKeep(s, L.Next(ThreePlans(), s.books, step));
  }

  lemma EventTwoBooks(b: L.Books)
    requires PaidByFirst(b) && GrantIds(b.plans.grants, {11, 21}) && b.plans.events.Keys == {1} && Grants.Valid(ThreePlans(), b.plans)
    ensures var b' := L.Next(ThreePlans(), b, L.ProvisionStep(2, NewEvent(), 12, 51));
      Grants.Valid(ThreePlans(), b'.plans) && TwoEvents(b')
  {
    EventTwo(b.plans, Provision(ThreePlans(), b.plans, 2, NewEvent(), 12, 51).0);
    ProvisionStarts(ThreePlans(), b.plans, 2, NewEvent(), 12, 51);
  }

  lemma OpenThird(s: Ledger)
    requires Billing.Valid(s) && 2 in s.books.plans.events && s.purchases == map[1 := FirstPaid(), 2 := SecondPaid()]
    ensures var s' := Next(ThreePlans(), s, OpenStep(Third())); Billing.Valid(s') && s' == Put(s, Third())
  {
    OpenNew(s, Third());
  }

  lemma OpenNew(s: Ledger, p: Purchase)
    requires Billing.Valid(s) && Insertable(s, p) && Guarded(s, OpenStep(p))
    ensures var s' := Next(ThreePlans(), s, OpenStep(p)); Billing.Valid(s') && s' == Put(s, p)
  {
    OpenKeeps(s, p);
  }

  /** Event 2 created, and purchase 3 opened for it. */
  lemma ThirdOpened(s: Ledger, s1: Ledger, s2: Ledger)
    requires Billing.Valid(s) && PaidTwice(s) && Grants.Valid(ThreePlans(), s.books.plans)
    requires s1 == Next(ThreePlans(), s, PlansStep(L.ProvisionStep(2, NewEvent(), 12, 51)))
    requires s2 == Next(ThreePlans(), s1, OpenStep(Third()))
    ensures Billing.Valid(s2) && Grants.Valid(ThreePlans(), s2.books.plans) && TwoEvents(s2.books)
    ensures s2.purchases == map[1 := FirstPaid(), 2 := SecondPaid(), 3 := Third()] && s2.records == s.records
  {
    PlansOnly(s, L.ProvisionStep(2, NewEvent(), 12, 51));
    EventTwoBooks(s.books);
    OpenThird(s1);
  }

  lemma ThirdSettles(s: Ledger)
    requires s.purchases == map[1 := FirstPaid(), 2 := SecondPaid(), 3 := Third()]
    requires s.records == map["a" := Processed, "b" := FailedRecord] && TwoEvents(s.books)
    ensures Settles(s, Third(), Payment(3, "c"), LateWorld())
  {
    IsFresh(s.books, 3);
    assert "c" != "a" && "c" != "b";
  }

  // ---- A payment that arrives while staff have the event on a higher plan ----

  lemma StaffFresh(b: L.Books, e: Id, id: Id, licenceId: Id, grantId: Id)
    requires GrantsUnique(b.plans.grants) && Free(b.plans, e) && Unclaimed(b.plans.grants)
    requires L.Fresh(b, id, licenceId, grantId) && grantId != 14
    ensures L.Fresh(L.Next(ThreePlans(), b, L.ActivateStep(Staff(e), 14, 52)), id, licenceId, grantId)
  {
    StaffGranted(b.plans, e);
    ActivateWrites(ThreePlans(), b.plans, Staff(e), 14, 52);
    UpdateMembers(b.plans.grants, ActiveById(ActiveGrant(b.plans.grants, e).value.id), SetStatus(Superseded));
  }

  lemma StaffInTheWay(b: L.Books, p: Purchase)
    requires GrantsUnique(b.plans.grants) && Free(b.plans, p.eventId) && Unclaimed(b.plans.grants) && p.versionId == 2
    ensures !Applicable(ThreePlans(), L.Next(ThreePlans(), b, L.ActivateStep(Staff(p.eventId), 14, 52)), p)
  {
    PlansInOrder();
    StaffGranted(b.plans, p.eventId);
  }

  lemma OwedUnderStaff(s: Ledger, p: Purchase, d: Delivery, x: World, s1: Ledger, s2: Ledger)
    requires Billing.Valid(s) && Free(s.books.plans, p.eventId) && Unclaimed(s.books.plans.grants)
    requires p.versionId == 2 && Settles(s, p, d, x) && x.grantId != 14 && !x.markFails && !x.recordFails
    requires s1 == Next(ThreePlans(), s, PlansStep(L.ActivateStep(Staff(p.eventId), 14, 52)))
    requires s2 == HandleProviderEvent(ThreePlans(), s1, d, x).0
    ensures Billing.Valid(s2) && s2.books == s1.books && s2.flags == s.flags
    ensures s2.purchases == s.purchases[p.id := SettledRow(p, d, x.now)] && s2.records == s.records[d.key := FailedRecord]
  {
    StaffFresh(s.books, p.eventId, p.id, x.licenceId, x.grantId);
    StaffInTheWay(s.books, p);
    PlansOnly(s, L.ActivateStep(Staff(p.eventId), 14, 52));
    SettlementAppliesIff(ThreePlans(), s1, p, d, x);
    DeliverKeeps(ThreePlans(), s1, d, x);
  }

  /** Once staff take the plan back the purchase fits again. */
  lemma FitsAgain(b: L.Books, p: Purchase)
    requires Grants.Valid(ThreePlans(), b.plans) && Free(b.plans, p.eventId) && Unclaimed(b.plans.grants)
    requires p.versionId == 2 && p.hostId == 7 && L.Unpaid(b.licences, p.eventId)
    ensures var b1 := L.Next(ThreePlans(), b, L.ActivateStep(Staff(p.eventId), 14, 52));
      Applicable(ThreePlans(), L.Next(ThreePlans(), b1, L.RevokeStep(p.eventId, "mistake", 61)), p)
  {
    var b1 := L.Next(ThreePlans(), b, L.ActivateStep(Staff(p.eventId), 14, 52));
    var b2 := L.Next(ThreePlans(), b1, L.RevokeStep(p.eventId, "mistake", 61));
    StaffBackToFree(b, p.eventId, b1, b2);
    FitsFree(b, b2, p);
  }

  /** Staff granting and revoking a plan leave the event as it was. */
  lemma StaffBackToFree(b: L.Books, e: Id, b1: L.Books, b2: L.Books)
    requires Grants.Valid(ThreePlans(), b.plans) && Free(b.plans, e) && Unclaimed(b.plans.grants)
    requires b1 == L.Next(ThreePlans(), b, L.ActivateStep(Staff(e), 14, 52))
    requires b2 == L.Next(ThreePlans(), b1, L.RevokeStep(e, "mistake", 61))
    ensures b2.licences == b.licences && SameEvent(b.plans, b2.plans, e)
    ensures ActiveGrant(b2.plans.grants, e) == ActiveGrant(b.plans.grants, e)
  {
    StaffGranted(b.plans, e);
    StaffRevokes(b.plans, b1.plans, b2.plans, e);
    RevokeKeepsEvent(b1.plans, e, "mistake", 61);
  }

  /** An event still on Free takes Experience. */
  lemma FitsFree(b: L.Books, b2: L.Books, p: Purchase)
    requires Free(b.plans, p.eventId) && p.versionId == 2 && p.hostId == 7 && L.Unpaid(b.licences, p.eventId)
    requires b2.licences == b.licences && SameEvent(b.plans, b2.plans, p.eventId)
    requires ActiveGrant(b2.plans.grants, p.eventId) == ActiveGrant(b.plans.grants, p.eventId)
    ensures Applicable(ThreePlans(), b2, p)
  {
    PlansInOrder();
  }

  /** Staff upgrade the event of a purchase, its payment arrives, and they take the plan back. */
  function PaidMeanwhile(s: Ledger, p: Purchase, d: Delivery, x: World): Ledger {
    var s1 := Next(ThreePlans(), s, PlansStep(L.ActivateStep(Staff(p.eventId), 14, 52)));
    var s2 := Next(ThreePlans(), s1, DeliverStep(d, x));
    Next(ThreePlans(), s2, PlansStep(L.RevokeStep(p.eventId, "mistake", 61)))
  }

  /** The event is on Free and no purchase was used up for it. */
  ghost predicate Vacant(b: L.Books, e: Id) { Free(b.plans, e) && Unclaimed(b.plans.grants) && L.Unpaid(b.licences, e) }

  /** The purchase waits for this payment on an event that is on Free. */
  ghost predicate Awaits(s: Ledger, p: Purchase, d: Delivery, x: World) {
    && Vacant(s.books, p.eventId) && p.hostId == 7 && p.versionId == 2
    && Settles(s, p, d, x) && x.grantId != 14 && !x.markFails && !x.recordFails
  }

  /** It ends owed, and its event would take it. */
  lemma PaidUnderStaff(s: Ledger, p: Purchase, d: Delivery, x: World, s': Ledger)
    requires Billing.Valid(s) && Grants.Valid(ThreePlans(), s.books.plans) && Awaits(s, p, d, x)
    requires s' == PaidMeanwhile(s, p, d, x)
    ensures Billing.Valid(s') && s'.purchases == s.purchases[p.id := SettledRow(p, d, x.now)]
    ensures Applicable(ThreePlans(), s'.books, SettledRow(p, d, x.now))
  {
    var s1 := Next(ThreePlans(), s, PlansStep(L.ActivateStep(Staff(p.eventId), 14, 52)));
    var s2 := Next(ThreePlans(), s1, DeliverStep(d, x));
    OwedUnderStaff(s, p, d, x, s1, s2);
    PlansOnly(s2, L.RevokeStep(p.eventId, "mistake", 61));
    PlansOnly(s, L.ActivateStep(Staff(p.eventId), 14, 52));
    FitsAgain(s.books, p);
  }

  // ---- Purchase 2 keeps purchase 3 from being retried ----

  /** Purchases 2 and 3 paid and owed, 3 settled later. */
  ghost predicate TwoOwed(s: Ledger) { s.purchases == map[1 := FirstPaid(), 2 := SecondPaid(), 3 := ThirdPaid()] }

  lemma SecondInTheWay(s: Ledger)
    requires TwoOwed(s)
    ensures S.SecondOn(s, 2, 1) && S.SettledEarlier(s.purchases[2], s.purchases[3]) && s.purchases[3].settlement.Some?
  {
  }

  lemma ThirdIsCrowdedOut(s: Ledger, more: seq<Step>, s': Ledger)
    requires Billing.Valid(s) && S.SecondOn(s, 2, 1) && 3 in s.purchases && s.purchases[3].settlement.Some?
    requires S.SettledEarlier(s.purchases[2], s.purchases[3])
    requires GuardedRun(ThreePlans(), s, more) && s' == Run(ThreePlans(), s, more)
    requires 2 in s'.purchases && s'.purchases[2].status.Settled?
    ensures 3 in s'.purchases && s'.purchases[3] !in S.Owed(s'.purchases, 1)
  {
    S.NeverReached(ThreePlans(), s, more, s', 1, {2}, (t: Id) => 1, 3);
  }

  lemma SecondIsVacant(b: L.Books)
    requires TwoEvents(b)
    ensures Vacant(b, 2)
  {
  }

  lemma ThirdAwaits(s: Ledger)
    requires TwoEvents(s.books) && s.purchases == map[1 := FirstPaid(), 2 := SecondPaid(), 3 := Third()]
    requires s.records == map["a" := Processed, "b" := FailedRecord]
    ensures Awaits(s, Third(), Payment(3, "c"), LateWorld())
  {
    SecondIsVacant(s.books);
    ThirdSettles(s);
  }

  // ---- A partial refund before the plan was given ----

  /** Purchase 1 paid while staff had the event on Signature, and 40 of it returned. */
  function FirstReturned(): Purchase { Reversed(SettledRow(First(), Payment(1, "a"), 60), 40, false) }

  function SlowWorld(): World { Fine(1).(now := 60) }

  lemma FirstOwed(s: Ledger, s1: Ledger, s2: Ledger)
    requires Billing.Valid(s) && Offered(s) && Grants.Valid(ThreePlans(), s.books.plans)
    requires s1 == Next(ThreePlans(), s, PlansStep(L.ActivateStep(Staff(1), 14, 52)))
    requires s2 == HandleProviderEvent(ThreePlans(), s1, Payment(1, "a"), SlowWorld()).0
    ensures Billing.Valid(s2) && s2.books == s1.books && s2.records == map["a" := FailedRecord]
    ensures s2.purchases == map[1 := SettledRow(First(), Payment(1, "a"), 60)]
  {
    FirstIsNew(s);
    FirstSettlesSlowly(s);
    OwedUnderStaff(s, First(), Payment(1, "a"), SlowWorld(), s1, s2);
  }

  lemma FirstSettlesSlowly(s: Ledger)
    requires Offered(s) && L.Fresh(s.books, 1, 31, 21)
    ensures Settles(s, First(), Payment(1, "a"), SlowWorld())
  {
  }

  lemma OnlyRefunded(s: Ledger, p: Purchase, d: Delivery, x: World, s': Ledger)
    requires Billing.Valid(s) && s.purchases == map[p.id := p] && PostSettlement(p.status)
    requires CleanRefund(DeliverStep(d, x), p.id) && Claimable(s.records, d.key)
    requires s' == HandleProviderEvent(ThreePlans(), s, d, x).0
    ensures s'.books == s.books && s'.purchases == map[p.id := Reversed(p, d.amount, false)]
  {
    CleanStep(ThreePlans(), s, p.id, DeliverStep(d, x));
  }

  lemma PartlyReturned(s: Ledger, s': Ledger)
    requires Billing.Valid(s) && s.records == map["a" := FailedRecord]
    requires s.purchases == map[1 := SettledRow(First(), Payment(1, "a"), 60)]
    requires s' == HandleProviderEvent(ThreePlans(), s, Refund(1, "r", 40), Fine(1)).0
    ensures Billing.Valid(s') && s'.books == s.books && s'.purchases == map[1 := FirstReturned()]
  {
    assert "r" != "a";
    OnlyRefunded(s, SettledRow(First(), Payment(1, "a"), 60), Refund(1, "r", 40), Fine(1), s');
    DeliverKeeps(ThreePlans(), s, Refund(1, "r", 40), Fine(1));
  }

  lemma ReturnedIsForgotten(s: Ledger, limit: int)
    requires Billing.Valid(s) && s.purchases == map[1 := FirstReturned()]
    ensures S.Forgotten(s, 1) && Paid(s.purchases[1].status) && s.purchases[1] !in S.Owed(s.purchases, limit)
  {
    S.ForgottenNotListed(s, 1, limit);
  }

  // ---- A refund that arrives before its payment ----

  lemma ReturnedEarly(s: Ledger, s1: Ledger)
    requires Billing.Valid(s) && Offered(s) && s1 == HandleProviderEvent(ThreePlans(), s, Refund(1, "r", 40), Fine(1)).0
    ensures Billing.Valid(s1) && s1 == Ledger(map[1 := First().(status := Canceled)], map["r" := Processed], s.flags, s.books)
  {
    DeliverKeeps(ThreePlans(), s, Refund(1, "r", 40), Fine(1));
  }

  lemma CanceledSettles(s: Ledger)
    requires s.purchases == map[1 := First().(status := Canceled)] && s.records == map["r" := Processed]
    requires s.books.licences == map[] && L.Fresh(s.books, 1, 31, 21)
    ensures Settles(s, First().(status := Canceled), Payment(1, "a"), Fine(1))
  {
    assert "r" != "a";
  }

  /** Paid after all: nothing was returned, and sending the refund again changes nothing. */
  lemma PaidAfterReturn(s: Ledger, s': Ledger)
    requires Billing.Valid(s) && Settles(s, First().(status := Canceled), Payment(1, "a"), Fine(1))
    requires s.records == map["r" := Processed] && s' == HandleProviderEvent(ThreePlans(), s, Payment(1, "a"), Fine(1)).0
    ensures 1 in s'.purchases && s'.purchases[1].status.Settled? && s'.purchases[1].refunded == 0
    ensures Next(ThreePlans(), s', DeliverStep(Refund(1, "r", 40), Fine(1))) == s'
  {
    assert "r" != "a";
    SettlementAppliesIff(ThreePlans(), s, First().(status := Canceled), Payment(1, "a"), Fine(1));
  }

  lemma ReturnedLate(s: Ledger)
    requires Billing.Valid(s) && PaidOnce(s)
    ensures var s' := Next(ThreePlans(), s, DeliverStep(Refund(1, "r", 40), Fine(1)));
      1 in s'.purchases && s'.purchases[1].refunded == 40
  {
    assert "r" != "a";
    CleanStep(ThreePlans(), s, 1, DeliverStep(Refund(1, "r", 40), Fine(1)));
  }

  // ---- A payment with tax ----

  /** 100 quoted, and 120 paid. */
  function Taxed(): Delivery { Payment(1, "a").(tax := 20, total := 120) }

  ghost predicate TaxedRow(p: Purchase) {
    && p.id == 1 && p.status.Settled? && p.refunded == 0 && p.eventId == 1
    && p.settlement == Some(Settlement(100, 20, 120, "USD", "a", 50))
  }

  lemma TaxedPayment(s: Ledger, s1: Ledger)
    requires Billing.Valid(s) && Offered(s) && s1 == HandleProviderEvent(ThreePlans(), s, Taxed(), Fine(1)).0
    ensures Billing.Valid(s1) && 1 in s1.purchases && TaxedRow(s1.purchases[1]) && "r" !in s1.records
  {
    FirstIsNew(s);
    assert "r" != "a";
    DeliverKeeps(ThreePlans(), s, Taxed(), Fine(1));
    PaymentStatement(ThreePlans(), s, First(), Taxed(), Fine(1));
    DeliveryStatement(ThreePlans(), s, Taxed(), Fine(1));
  }

  lemma TaxedRefund(s: Ledger, p: Purchase, amount: int, s': Ledger)
    requires Billing.Valid(s) && 1 in s.purchases && s.purchases[1] == p && TaxedRow(p) && "r" !in s.records && amount in {100, 120}
    requires s' == HandleProviderEvent(ThreePlans(), s, Refund(1, "r", amount), Fine(1)).0
    ensures 1 in s'.purchases && s'.purchases[1].refunded == amount
    ensures s'.purchases[1].status == if amount == 100 then PartiallyRefunded else PurchaseStatus.Refunded
  {
    DeliveryStatement(ThreePlans(), s, Refund(1, "r", amount), Fine(1));
    assert Recorded(s, p, s'.purchases[1], Refund(1, "r", amount), 50);
  }

  // ---- A partial refund, and a dispute of the rest that is decided for the host ----

  function Dispute(kind: EventKind, key: string): Delivery {
    Delivery(kind, Some(1), key, key, "", 0, "", 0, 0, "", 60, None)
  }

  lemma DisputedRefund(s: Ledger, s1: Ledger)
    requires Billing.Valid(s) && s.purchases == map[1 := FirstPaid()]
    requires s1 == HandleReversal(s, FirstPaid(), Refund(1, "r", 40), false, Fine(1)).0
    ensures 1 in s1.purchases && s1.purchases[1].status.PartiallyRefunded? && s1.purchases[1].refunded == 40
    ensures var s2 := HandleReversal(s1, s1.purchases[1], Dispute(PaymentDisputed, "d"), true, Fine(1)).0;
      && 1 in s2.purchases
      && var s3 := HandleDisputeReversed(s2, s2.purchases[1], Dispute(EventKind.DisputeReversed, "v"), Fine(1)).0;
      1 in s3.purchases && s3.purchases[1].status.Settled? && s3.purchases[1].refunded == 40
  {
    L.NothingToWithdraw(s.books, 1, 50);
  }

  // ---- The whole runs ----

  function Created1(): Ledger { Next(ThreePlans(), Empty(), PlansStep(L.ProvisionStep(1, NewEvent(), 11, 10))) }

  function Opened(): Ledger { Next(ThreePlans(), Created1(), OpenStep(First())) }

  /** Purchase 1 paid; purchase 2 opened and paid. */
  function AfterOne(): Ledger { Next(ThreePlans(), Opened(), DeliverStep(Payment(1, "a"), Fine(1))) }

  function AfterTwo(): Ledger {
    Next(ThreePlans(), Next(ThreePlans(), AfterOne(), OpenStep(Second())), DeliverStep(Payment(2, "b"), Fine(2)))
  }

  /** Event 2 created and purchase 3 opened for it; then staff upgrade it, the payment arrives, and they
      take the plan back. */
  function OpenedThree(): Ledger {
    Next(ThreePlans(), Next(ThreePlans(), AfterTwo(), PlansStep(L.ProvisionStep(2, NewEvent(), 12, 51))), OpenStep(Third()))
  }

  function AfterThree(): Ledger { PaidMeanwhile(OpenedThree(), Third(), Payment(3, "c"), LateWorld()) }

  /** Purchase 1 paid while staff had event 1 on Signature, partly refunded, and the plan taken back. */
  function AfterReturn(): Ledger {
    var s1 := Next(ThreePlans(), Opened(), PlansStep(L.ActivateStep(Staff(1), 14, 52)));
    var s2 := Next(ThreePlans(), s1, DeliverStep(Payment(1, "a"), SlowWorld()));
    var s3 := Next(ThreePlans(), s2, DeliverStep(Refund(1, "r", 40), Fine(1)));
    Next(ThreePlans(), s3, PlansStep(L.RevokeStep(1, "mistake", 61)))
  }

  lemma OpenedRun()
    ensures Billing.Valid(Opened()) && Offered(Opened()) && Grants.Valid(ThreePlans(), Opened().books.plans)
  {
    EventCreated(Created1());
    Offering(Created1(), Opened());
  }

  lemma OncePaidRun()
    ensures Billing.Valid(AfterOne()) && PaidOnce(AfterOne()) && Grants.Valid(ThreePlans(), AfterOne().books.plans)
    ensures PlanOf(ActiveGrant(AfterOne().books.plans.grants, 1)) == Some(EXPERIENCE)
  {
    OpenedRun();
    FirstIsApplied(Opened(), AfterOne());
    FirstInOrder(Opened().books);
  }

  /** The event is on Experience and its upgrade is quoted at what purchase 2 is opened with. It is paid,
      and owed. It is refunded: the event is flagged, though no grant was ever bought with it. */
  lemma SecondPurchaseRun()
    ensures PlanOf(ActiveGrant(AfterOne().books.plans.grants, 1)) == Some(EXPERIENCE)
    ensures P.EventQuote(ThreePlans(), S.Table(AfterOne().purchases),
                         P.Order(7, 1, true, EXPERIENCE, SIGNATURE, Some(SignaturePrice()), Some(ExperiencePrice()))) ==
      P.Quoted(P.Quote(Second().base, Second().credit, Second().discount, Second().quoted, Second().context, P.Upgrade))
    ensures PaidTwice(AfterTwo())
    ensures FlaggedForNothing(Next(ThreePlans(), AfterTwo(), DeliverStep(Refund(2, "r", 0), Fine(2))))
  {
    OncePaidRun();
    SecondIsQuoted();
    SecondIsOwed(AfterOne(), AfterTwo());
    OwedRefundFlags(AfterTwo(), Next(ThreePlans(), AfterTwo(), DeliverStep(Refund(2, "r", 0), Fine(2))));
  }

  lemma ThreeOpened()
    ensures var s := OpenedThree();
      && Billing.Valid(s) && Grants.Valid(ThreePlans(), s.books.plans) && TwoEvents(s.books)
      && s.purchases == map[1 := FirstPaid(), 2 := SecondPaid(), 3 := Third()]
      && s.records == map["a" := Processed, "b" := FailedRecord]
  {
    OncePaidRun();
    SecondIsOwed(AfterOne(), AfterTwo());
    ThirdOpened(AfterTwo(), Next(ThreePlans(), AfterTwo(), PlansStep(L.ProvisionStep(2, NewEvent(), 12, 51))), OpenedThree());
  }

  lemma ThirdReplaced<T>(a: T, b: T, c: T, d: T)
    ensures map[1 := a, 2 := b, 3 := c][3 := d] == map[1 := a, 2 := b, 3 := d]
  {
  }

  lemma ThirdPaidRun(s: Ledger, s': Ledger)
    requires Billing.Valid(s) && Grants.Valid(ThreePlans(), s.books.plans) && TwoEvents(s.books)
    requires s.purchases == map[1 := FirstPaid(), 2 := SecondPaid(), 3 := Third()]
    requires s.records == map["a" := Processed, "b" := FailedRecord]
    requires s' == PaidMeanwhile(s, Third(), Payment(3, "c"), LateWorld())
    ensures Billing.Valid(s') && TwoOwed(s') && Applicable(ThreePlans(), s'.books, ThirdPaid())
  {
    ThirdReplaced(FirstPaid(), SecondPaid(), Third(), ThirdPaid());
    ThirdAwaits(s);
    PaidUnderStaff(s, Third(), Payment(3, "c"), LateWorld(), s');
  }

  lemma ThreeRun()
    ensures Billing.Valid(AfterThree()) && TwoOwed(AfterThree())
    ensures Applicable(ThreePlans(), AfterThree().books, ThirdPaid())
  {
    ThreeOpened();
    ThirdPaidRun(OpenedThree(), AfterThree());
  }

  /** Purchase 3 is owed and its event would take it, and whatever runs afterwards, with lists of one
      the reconciler never gets to it while purchase 2 is owed. */
  lemma NeverRetriedRun(more: seq<Step>)
    requires GuardedRun(ThreePlans(), AfterThree(), more)
    ensures TwoOwed(AfterThree()) && Applicable(ThreePlans(), AfterThree().books, ThirdPaid())
    ensures var s := Run(ThreePlans(), AfterThree(), more);
      2 in s.purchases && s.purchases[2].status.Settled? ==> 3 in s.purchases && s.purchases[3] !in S.Owed(s.purchases, 1)
  {
    ThreeRun();
    SecondInTheWay(AfterThree());
    var s := Run(ThreePlans(), AfterThree(), more);
    if 2 in s.purchases && s.purchases[2].status.Settled? { ThirdIsCrowdedOut(AfterThree(), more, s); }
  }

  /** Purchase 1 is paid and its event would take it, but no list of any length holds it, and it stays
      that way in every run in which no dispute of it is decided for the host. */
  lemma PartialRefundRun(more: seq<Step>, limit: int)
    requires GuardedRun(ThreePlans(), AfterReturn(), more) && forall i :: 0 <= i < |more| ==> !S.Wins(more[i], 1)
    ensures 1 in AfterReturn().purchases && Paid(AfterReturn().purchases[1].status)
    ensures Applicable(ThreePlans(), AfterReturn().books, AfterReturn().purchases[1])
    ensures var s := Run(ThreePlans(), AfterReturn(), more);
      1 in s.purchases && s.purchases[1].appliedAt.None? && s.purchases[1] !in S.Owed(s.purchases, limit)
  {
    ReturnRun();
    ReturnedIsForgotten(AfterReturn(), limit);
    var s := Run(ThreePlans(), AfterReturn(), more);
    S.ReversedIsForgotten(ThreePlans(), AfterReturn(), more, 1);
    PurchasesStayConsistent(ThreePlans(), AfterReturn(), more);
    S.ForgottenNotListed(s, 1, limit);
  }

  lemma ReturnStates(s: Ledger, s1: Ledger, s2: Ledger, s3: Ledger, s4: Ledger)
    requires Billing.Valid(s) && Offered(s) && Grants.Valid(ThreePlans(), s.books.plans)
    requires s1 == Next(ThreePlans(), s, PlansStep(L.ActivateStep(Staff(1), 14, 52)))
    requires s2 == HandleProviderEvent(ThreePlans(), s1, Payment(1, "a"), SlowWorld()).0
    requires s3 == HandleProviderEvent(ThreePlans(), s2, Refund(1, "r", 40), Fine(1)).0
    requires s4 == Next(ThreePlans(), s3, PlansStep(L.RevokeStep(1, "mistake", 61)))
    ensures Billing.Valid(s4) && s4.purchases == map[1 := FirstReturned()]
    ensures s4.books == L.Next(ThreePlans(), L.Next(ThreePlans(), s.books, L.ActivateStep(Staff(1), 14, 52)), L.RevokeStep(1, "mistake", 61))
  {
    PlansOnly(s, L.ActivateStep(Staff(1), 14, 52));
    FirstOwed(s, s1, s2);
    PartlyReturned(s2, s3);
    PlansOnly(s3, L.RevokeStep(1, "mistake", 61));
  }

  lemma FirstFitsAgain(s: Ledger)
    requires Offered(s) && Grants.Valid(ThreePlans(), s.books.plans)
    ensures var b1 := L.Next(ThreePlans(), s.books, L.ActivateStep(Staff(1), 14, 52));
      Applicable(ThreePlans(), L.Next(ThreePlans(), b1, L.RevokeStep(1, "mistake", 61)), FirstReturned())
  {
    FirstIsNew(s);
    FitsAgain(s.books, FirstReturned());
  }

  lemma ReturnRun()
    ensures Billing.Valid(AfterReturn()) && AfterReturn().purchases == map[1 := FirstReturned()]
    ensures Applicable(ThreePlans(), AfterReturn().books, FirstReturned())
  {
    OpenedRun();
    FirstFitsAgain(Opened());
    var s1 := Next(ThreePlans(), Opened(), PlansStep(L.ActivateStep(Staff(1), 14, 52)));
    var s2 := Next(ThreePlans(), s1, DeliverStep(Payment(1, "a"), SlowWorld()));
    var s3 := Next(ThreePlans(), s2, DeliverStep(Refund(1, "r", 40), Fine(1)));
    ReturnStates(Opened(), s1, s2, s3, AfterReturn());
  }

  /** After a refund of 40, a dispute of the other 60 that is decided for the host leaves the purchase
      settled, as if nothing had been refunded, with 40 returned. */
  lemma DisputedRefundRun()
    ensures 1 in AfterOne().purchases && AfterOne().purchases[1] == FirstPaid()
    ensures var s1 := HandleReversal(AfterOne(), FirstPaid(), Refund(1, "r", 40), false, Fine(1)).0;
      && 1 in s1.purchases && s1.purchases[1].status.PartiallyRefunded? && s1.purchases[1].refunded == 40
      && var s2 := HandleReversal(s1, s1.purchases[1], Dispute(PaymentDisputed, "d"), true, Fine(1)).0;
      && 1 in s2.purchases
      && var s3 := HandleDisputeReversed(s2, s2.purchases[1], Dispute(EventKind.DisputeReversed, "v"), Fine(1)).0;
      1 in s3.purchases && s3.purchases[1].status.Settled? && s3.purchases[1].refunded == 40
  {
    OncePaidRun();
    DisputedRefund(AfterOne(), HandleReversal(AfterOne(), FirstPaid(), Refund(1, "r", 40), false, Fine(1)).0);
  }

  /** 100 quoted, and 120 paid with its tax: the total is what can be returned, so a refund of 100 is a
      partial one and one of 120 is full. */
  lemma TaxedRun()
    ensures var s := Next(ThreePlans(), Opened(), DeliverStep(Taxed(), Fine(1)));
      && 1 in s.purchases && s.purchases[1].settlement == Some(Settlement(100, 20, 120, "USD", "a", 50))
      && var part, full := Next(ThreePlans(), s, DeliverStep(Refund(1, "r", 100), Fine(1))),
                           Next(ThreePlans(), s, DeliverStep(Refund(1, "r", 120), Fine(1)));
      && 1 in part.purchases && part.purchases[1].status == PartiallyRefunded && part.purchases[1].refunded == 100
      && 1 in full.purchases && full.purchases[1].status == PurchaseStatus.Refunded && full.purchases[1].refunded == 120
  {
    OpenedRun();
    var s := Next(ThreePlans(), Opened(), DeliverStep(Taxed(), Fine(1)));
    TaxedPayment(Opened(), s);
    TaxedRefund(s, s.purchases[1], 100, Next(ThreePlans(), s, DeliverStep(Refund(1, "r", 100), Fine(1))));
    TaxedRefund(s, s.purchases[1], 120, Next(ThreePlans(), s, DeliverStep(Refund(1, "r", 120), Fine(1))));
  }

  /** The payment and a refund of 40, in either order: 40 is returned, or nothing ever is. */
  lemma EarlyRefundRun()
    ensures var late := Next(ThreePlans(), AfterOne(), DeliverStep(Refund(1, "r", 40), Fine(1)));
      1 in late.purchases && late.purchases[1].refunded == 40
    ensures var s1 := Next(ThreePlans(), Opened(), DeliverStep(Refund(1, "r", 40), Fine(1)));
      var early := Next(ThreePlans(), s1, DeliverStep(Payment(1, "a"), Fine(1)));
      && 1 in early.purchases && early.purchases[1].status.Settled? && early.purchases[1].refunded == 0
      && Next(ThreePlans(), early, DeliverStep(Refund(1, "r", 40), Fine(1))) == early
  {
    OpenedRun();
    OncePaidRun();
    ReturnedLate(AfterOne());
    EarlyThenPaid(Opened());
  }

  lemma EarlyThenPaid(s: Ledger)
    requires Billing.Valid(s) && Offered(s)
    ensures var s1 := Next(ThreePlans(), s, DeliverStep(Refund(1, "r", 40), Fine(1)));
      var s2 := Next(ThreePlans(), s1, DeliverStep(Payment(1, "a"), Fine(1)));
      && 1 in s2.purchases && s2.purchases[1].status.Settled? && s2.purchases[1].refunded == 0
      && Next(ThreePlans(), s2, DeliverStep(Refund(1, "r", 40), Fine(1))) == s2
  {
    var s1 := Next(ThreePlans(), s, DeliverStep(Refund(1, "r", 40), Fine(1)));
    FirstIsNew(s);
    ReturnedEarly(s, s1);
    CanceledSettles(s1);
    PaidAfterReturn(s1, Next(ThreePlans(), s1, DeliverStep(Payment(1, "a"), Fine(1))));
  }

  lemma RetriedRefund(s: Ledger, d: Delivery, x: World)
    requires Billing.Valid(s) && PaidOnce(s) && d == Refund(1, "r", 40) && x == Fine(1).(withdrawFails := true)
    ensures var s' := Run(ThreePlans(), s, Tries(d, [x] + [Fine(1)])); 1 in s'.purchases && s'.purchases[1].refunded == 80
  {
    assert "r" != "a";
    RetriesAddUp(ThreePlans(), s, 1, d, [x], Fine(1));
  }

  /** A refund of 40 out of 100 whose licence call fails once returns 80. */
  lemma RetriedRefundRun()
    ensures var s := Run(ThreePlans(), AfterOne(), Tries(Refund(1, "r", 40), [Fine(1).(withdrawFails := true)] + [Fine(1)]));
      1 in s.purchases && s.purchases[1].refunded == 80
  {
    OncePaidRun();
    RetriedRefund(AfterOne(), Refund(1, "r", 40), Fine(1).(withdrawFails := true));
  }

  /** The purchase is applied and its checkout is open. */
  ghost predicate Reopened(s: Ledger) {
    !Billing.Valid(s) && 1 in s.purchases && Open(s.purchases[1].status) && s.purchases[1].appliedAt.Some?
  }

  lemma LateCheckout(s: Ledger)
    requires Billing.Valid(s) && s.purchases == map[1 := FirstPaid()]
    ensures Reopened(UpdateCheckout(s, 1, "late", ""))
  {
    LateCheckoutReopens(s, 1, "late", "");
  }

  lemma LateCheckoutRefused(s: Ledger)
    requires s.purchases == map[1 := FirstPaid(), 2 := Second()]
    ensures UpdateCheckout(s, 1, "late", "") == s
  {
    assert OpenElsewhere(s.purchases, 1, 1) by { assert 2 in s.purchases && Open(s.purchases[2].status); }
  }

  lemma SecondOpened(s: Ledger)
    requires PaidOnce(s)
    ensures Next(ThreePlans(), s, OpenStep(Second())).purchases == map[1 := FirstPaid(), 2 := Second()]
  {
  }

  /** A checkout recorded once the purchase is paid reopens it; with the next one open it is refused. */
  lemma LateCheckoutRun()
    ensures Billing.Valid(AfterOne()) && Reopened(UpdateCheckout(AfterOne(), 1, "late", ""))
    ensures var s := Next(ThreePlans(), AfterOne(), OpenStep(Second())); UpdateCheckout(s, 1, "late", "") == s
  {
    OncePaidRun();
    LateCheckout(AfterOne());
    SecondOpened(AfterOne());
    LateCheckoutRefused(Next(ThreePlans(), AfterOne(), OpenStep(Second())));
  }
}
