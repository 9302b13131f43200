/** The licence a settled purchase issues (internal/entitlement/license.go): issued, reserved,
    consumed and turned into a grant in one transaction, at most once per purchase. */
module Licences {
  import opened Tables
  import opened Catalog
  import opened Grants

  datatype LicenceStatus = Available | Reserved | Consumed | Withdrawn | Expired

  datatype Licence = Licence(
    id: Id, accountId: Id, versionId: nat, status: LicenceStatus, reservedEventId: Option<Id>, consumedEventId: Option<Id>,
    createdAt: Time, consumedAt: Option<Time>, revokedAt: Option<Time>)

  /** Licences are looked up by the purchase that issued them, which is a unique column. */
  datatype Books = Books(plans: Plans, licences: map<Id, Licence>)

  datatype PurchaseInput = PurchaseInput(
    purchaseId: Id, accountId: Id, eventId: Id, versionId: nat, activatedAt: Option<Time>)

  datatype Refusal = NoVersion | Ownership | Unavailable | NoEvent | NotAllowed | Clash

  datatype LicenceResult = Applied | AlreadyApplied | Refused(why: Refusal)

  /** Another licence has this id, or was consumed by this event: both columns are unique. */
  predicate LicenceTaken(licences: map<Id, Licence>, purchaseId: Id, l: Licence) {
    exists p :: p in licences && p != purchaseId
      && (licences[p].id == l.id || (l.consumedEventId.Some? && licences[p].consumedEventId == l.consumedEventId))
  }

  function Candidate(input: PurchaseInput, id: Id, at: Time): Licence {
    Licence(id, input.accountId, input.versionId, Available, None, None, at, None, None)
  }

  function Issued(b: Books, input: PurchaseInput, id: Id, at: Time): Licence {
    if input.purchaseId in b.licences then b.licences[input.purchaseId] else Candidate(input, id, at)
  }

  function PurchaseTime(input: PurchaseInput, now: Time): Time {
    if input.activatedAt.Some? then input.activatedAt.value else now
  }

  function Consuming(l: Licence, e: Id, at: Time): Licence {
    l.(status := Consumed, reservedEventId := Some(e), consumedEventId := Some(e), consumedAt := Some(at))
  }

  function PurchaseGrant(s: Plans, v: Version, input: PurchaseInput, licenceId: Id, grantId: Id, at: Time): Grant
    requires input.eventId in s.events
  {
    NewGrant(grantId, input.eventId, v, Some(licenceId), SourcePurchase, Some(BillingPurchase(input.purchaseId)),
             s.events[input.eventId].eventDate, at, ActiveGrant(s.grants, input.eventId))
  }

  /** One transaction: any refusal rolls everything back, the licence insert included. */
  function ActivatePurchase(cat: PlanCatalog, b: Books, input: PurchaseInput, licenceId: Id, grantId: Id, now: Time)
    : (Books, LicenceResult)
  {
    var at, p := PurchaseTime(input, now), input.purchaseId;
    var l := Issued(b, input, licenceId, at);
    if input.versionId !in cat.versions then (b, Refused(NoVersion))
    else if p !in b.licences && LicenceTaken(b.licences, p, l) then (b, Refused(Clash))
    else if l.accountId != input.accountId || l.versionId != input.versionId then (b, Refused(Ownership))
    else if l.status.Consumed? then
      (b, if l.consumedEventId == Some(input.eventId) then AlreadyApplied else Refused(Unavailable))
    else if !l.status.Available? && !l.status.Reserved? then (b, Refused(Unavailable))
    else if input.eventId !in b.plans.events || b.plans.events[input.eventId].removed then (b, Refused(NoEvent))
    else if b.plans.events[input.eventId].hostId != input.accountId then (b, Refused(Ownership))
    else
      var v, current := cat.versions[input.versionId], ActiveGrant(b.plans.grants, input.eventId);
      if CheckTransition(cat.reg, PlanOf(current), v.code) != Allowed then (b, Refused(NotAllowed))
      else
        var g := PurchaseGrant(b.plans, v, input, l.id, grantId, at);
        var (plans, r) := WriteGrant(b.plans, g, current, "paid event package purchase");
        var consumed := Consuming(l, input.eventId, at);
        if !r.Granted? || LicenceTaken(b.licences, p, consumed) then (b, Refused(Clash))
        else (Books(plans, b.licences[p := consumed]), Applied)
  }

  /** Withdraw the purchase's licence unless an event consumed it. */
  function RevokeUnconsumed(b: Books, purchaseId: Id, at: Time): (Books, bool) {
    if purchaseId in b.licences && (b.licences[purchaseId].status.Available? || b.licences[purchaseId].status.Reserved?) then
      (b.(licences := b.licences[purchaseId := b.licences[purchaseId].(status := Withdrawn, revokedAt := Some(at))]), true)
    else (b, false)
  }

  // ---- One licence, one grant, one event per purchase ----

  /** g is the grant this purchase's licence was consumed for. */
  ghost predicate PaidBy(g: Grant, purchaseId: Id, l: Licence) {
    && g.licenceId == Some(l.id) && Some(g.eventId) == l.consumedEventId
    && g.source == SourcePurchase && g.reference == Some(BillingPurchase(purchaseId))
  }

  ghost predicate HasGrant(rows: seq<Grant>, purchaseId: Id, l: Licence) {
    exists g :: g in rows && PaidBy(g, purchaseId, l)
  }

  ghost predicate HasLicence(licences: map<Id, Licence>, g: Grant) {
    exists p :: p in licences && PaidBy(g, p, licences[p])
  }

  /** Every licence in the table is consumed and has its grant, every licensed grant has its licence. */
  ghost predicate Linked(b: Books) {
    && GrantsUnique(b.plans.grants)
    && (forall p, q :: p in b.licences && q in b.licences && p != q ==>
         b.licences[p].id != b.licences[q].id && b.licences[p].consumedEventId != b.licences[q].consumedEventId)
    && (forall p :: p in b.licences ==> b.licences[p].status.Consumed? && HasGrant(b.plans.grants, p, b.licences[p]))
    && (forall g :: g in b.plans.grants && g.licenceId.Some? ==> HasLicence(b.licences, g))
  }

  /** Statements that only move statuses keep the links. */
  ghost predicate SameButStatus(after: seq<Grant>, before: seq<Grant>) {
    |after| == |before| && forall i :: 0 <= i < |before| ==> after[i] == before[i].(status := after[i].status)
  }

  lemma StatusOnly(rows: seq<Grant>, p: Grant -> bool, status: GrantStatus)
    ensures SameButStatus(Update(rows, p, SetStatus(status)), rows)
  {
  }

  lemma LinksSurvive(b: Books, after: seq<Grant>, p: Id)
    requires p in b.licences && HasGrant(b.plans.grants, p, b.licences[p]) && SameButStatus(after, b.plans.grants)
    ensures HasGrant(after, p, b.licences[p])
  {
    var g :| g in b.plans.grants && PaidBy(g, p, b.licences[p]);
    var i :| 0 <= i < |b.plans.grants| && b.plans.grants[i] == g;
    assert after[i] in after && PaidBy(after[i], p, b.licences[p]);
  }

  /** A step on the plans that moves statuses and may add a grant without a licence. */
  lemma PlansStep(b: Books, plans: Plans, kept: seq<Grant>, added: seq<Grant>)
    requires Linked(b) && GrantsUnique(plans.grants)
    requires plans.grants == kept + added && SameButStatus(kept, b.plans.grants)
    requires forall g :: g in added ==> g.licenceId.None?
    ensures Linked(b.(plans := plans))
  {
    forall p | p in b.licences ensures HasGrant(plans.grants, p, b.licences[p]) {
      LinksSurvive(b, kept, p);
    }
    forall g | g in plans.grants && g.licenceId.Some? ensures HasLicence(b.licences, g) {
      LicenceSurvives(b, kept, g);
    }
  }

  lemma LicenceSurvives(b: Books, kept: seq<Grant>, g: Grant)
    requires Linked(b) && SameButStatus(kept, b.plans.grants) && g in kept && g.licenceId.Some?
    ensures HasLicence(b.licences, g)
  {
  }

  ghost predicate LicencesKept(b: Books, b': Books) {
    forall p :: p in b.licences ==> p in b'.licences && b'.licences[p] == b.licences[p]
  }

  lemma PurchaseKeepsLinked(cat: PlanCatalog, b: Books, input: PurchaseInput, licenceId: Id, grantId: Id, now: Time)
    requires Linked(b)
    ensures Linked(ActivatePurchase(cat, b, input, licenceId, grantId, now).0)
  {
    var (b', r) := ActivatePurchase(cat, b, input, licenceId, grantId, now);
    if r.Applied? {
      var p, current := input.purchaseId, ActiveGrant(b.plans.grants, input.eventId);
      var l := Candidate(input, licenceId, PurchaseTime(input, now));
      assert b'.licences == b.licences[p := Consuming(l, input.eventId, PurchaseTime(input, now))];
      var kept := Superseding(b.plans.grants, current);
      var g := b'.plans.grants[|kept|];
      if current.Some? { StatusOnly(b.plans.grants, ActiveById(current.value.id), Superseded); }
      AddLink(b, b', kept, g, p);
    }
  }

  lemma PurchaseKeepsLicences(cat: PlanCatalog, b: Books, input: PurchaseInput, licenceId: Id, grantId: Id, now: Time)
    requires Linked(b)
    ensures LicencesKept(b, ActivatePurchase(cat, b, input, licenceId, grantId, now).0)
  {
    if input.purchaseId in b.licences { NotIssuedAgain(cat, b, input, licenceId, grantId, now); }
  }

  /** A purchase that has its licence changes nothing any more. */
  lemma NotIssuedAgain(cat: PlanCatalog, b: Books, input: PurchaseInput, licenceId: Id, grantId: Id, now: Time)
    requires Linked(b) && input.purchaseId in b.licences
    ensures ActivatePurchase(cat, b, input, licenceId, grantId, now).0 == b
  {
    assert b.licences[input.purchaseId].status.Consumed?;
  }

  lemma AddLink(b: Books, b': Books, kept: seq<Grant>, g: Grant, p: Id)
    requires Linked(b) && GrantsUnique(b'.plans.grants) && p !in b.licences && p in b'.licences
    requires b'.plans.grants == kept + [g] && SameButStatus(kept, b.plans.grants)
    requires b'.licences == b.licences[p := b'.licences[p]] && b'.licences[p].status.Consumed?
    requires PaidBy(g, p, b'.licences[p]) && !LicenceTaken(b.licences, p, b'.licences[p])
    ensures Linked(b')
  {
    assert g in b'.plans.grants;
    AddDistinct(b.licences, p, b'.licences[p]);
    forall q | q in b'.licences ensures HasGrant(b'.plans.grants, q, b'.licences[q]) {
      if q != p { LinksSurvive(b, kept, q); }
    }
    forall o | o in b'.plans.grants && o.licenceId.Some? ensures HasLicence(b'.licences, o) {
      if o in kept { StillLicensed(b, kept, o, p, b'.licences[p]); }
    }
  }

  lemma AddDistinct(licences: map<Id, Licence>, p: Id, l: Licence)
    requires p !in licences && !LicenceTaken(licences, p, l) && l.consumedEventId.Some?
    requires forall q, r :: q in licences && r in licences && q != r ==>
      licences[q].id != licences[r].id && licences[q].consumedEventId != licences[r].consumedEventId
    ensures var after := licences[p := l];
      forall q, r :: q in after && r in after && q != r ==>
        after[q].id != after[r].id && after[q].consumedEventId != after[r].consumedEventId
  {
  }

  lemma StillLicensed(b: Books, kept: seq<Grant>, o: Grant, p: Id, l: Licence)
    requires Linked(b) && SameButStatus(kept, b.plans.grants) && o in kept && o.licenceId.Some? && p !in b.licences
    ensures HasLicence(b.licences[p := l], o)
  {
    LicenceSurvives(b, kept, o);
    var q :| q in b.licences && PaidBy(o, q, b.licences[q]);
    assert PaidBy(o, q, b.licences[p := l][q]);
  }

  /** No other purchase has paid for this event. */
  ghost predicate Unpaid(licences: map<Id, Licence>, e: Id) {
    forall q :: q in licences ==> licences[q].consumedEventId != Some(e)
  }

  /** The uuids the call draws, and the reference it writes, are nobody else's. */
  ghost predicate Fresh(b: Books, purchaseId: Id, licenceId: Id, grantId: Id) {
    && (forall q :: q in b.licences ==> b.licences[q].id != licenceId)
    && (forall g :: g in b.plans.grants ==>
         g.id != grantId && !(g.source == SourcePurchase && g.reference == Some(BillingPurchase(purchaseId))))
  }

  /** What a first attempt to activate a purchase needs, exactly. A plan bought for an event that an
      earlier purchase paid for is refused, however far up it moves: licences are unique per event. */
  lemma PurchaseAppliesIff(cat: PlanCatalog, b: Books, input: PurchaseInput, licenceId: Id, grantId: Id, now: Time)
    requires Linked(b) && input.purchaseId !in b.licences && Fresh(b, input.purchaseId, licenceId, grantId)
    ensures var e := input.eventId;
      ActivatePurchase(cat, b, input, licenceId, grantId, now).1 == Applied <==>
        && input.versionId in cat.versions
        && e in b.plans.events && !b.plans.events[e].removed && b.plans.events[e].hostId == input.accountId
        && CheckTransition(cat.reg, PlanOf(ActiveGrant(b.plans.grants, e)), cat.versions[input.versionId].code) == Allowed
        && Unpaid(b.licences, e)
  {
    var e, at := input.eventId, PurchaseTime(input, now);
    if e in b.plans.events && input.versionId in cat.versions {
      var g := PurchaseGrant(b.plans, cat.versions[input.versionId], input, licenceId, grantId, at);
      forall o | o in b.plans.grants ensures o.licenceId.None? || o.licenceId != g.licenceId {
        if o.licenceId.Some? {
          assert HasLicence(b.licences, o);
          var q :| q in b.licences && PaidBy(o, q, b.licences[q]);
        }
      }
      NewKeyFits(b.plans.grants, e, g);
    }
  }

  lemma PurchaseKeepsEvents(cat: PlanCatalog, b: Books, input: PurchaseInput, licenceId: Id, grantId: Id, now: Time)
    ensures ActivatePurchase(cat, b, input, licenceId, grantId, now).0.plans.events.Keys == b.plans.events.Keys
  {
    PurchaseWrites(cat, b, input, licenceId, grantId, now);
  }

  /** Ids nobody had before an applied purchase and that are not its own are nobody's after it. */
  lemma FreshAfter(cat: PlanCatalog, b: Books, input: PurchaseInput, licenceId: Id, grantId: Id, now: Time,
                   other: Id, otherLicence: Id, otherGrant: Id)
    requires Fresh(b, other, otherLicence, otherGrant) && input.purchaseId !in b.licences
    requires other != input.purchaseId && otherLicence != licenceId && otherGrant != grantId
    ensures Fresh(ActivatePurchase(cat, b, input, licenceId, grantId, now).0, other, otherLicence, otherGrant)
  {
    var (b', r) := ActivatePurchase(cat, b, input, licenceId, grantId, now);
    PurchaseWrites(cat, b, input, licenceId, grantId, now);
    if r.Applied? {
      var current := ActiveGrant(b.plans.grants, input.eventId);
      if current.Some? { UpdateMembers(b.plans.grants, ActiveById(current.value.id), SetStatus(Superseded)); }
    }
  }

  /** A repeated activation changes nothing, and succeeds exactly when it repeats the first one. */
  lemma RepeatIsNoOp(cat: PlanCatalog, b: Books, input: PurchaseInput, licenceId: Id, grantId: Id, now: Time)
    requires Linked(b) && input.purchaseId in b.licences
    ensures var (b', r) := ActivatePurchase(cat, b, input, licenceId, grantId, now);
      var l := b.licences[input.purchaseId];
      && b' == b
      && (r == AlreadyApplied <==>
           input.versionId in cat.versions && l.accountId == input.accountId && l.versionId == input.versionId
           && l.consumedEventId == Some(input.eventId))
      && r != Applied
  {
  }

  /** Withdrawing writes the one licence of the purchase, and only one not consumed, withdrawn or expired. */
  lemma WithdrawStatement(b: Books, purchaseId: Id, at: Time)
    ensures var (b', withdrawn) := RevokeUnconsumed(b, purchaseId, at);
      && (withdrawn <==> purchaseId in b.licences && b.licences[purchaseId].status !in {Consumed, Withdrawn, Expired})
      && b'.plans == b.plans && b'.licences.Keys == b.licences.Keys
      && forall p :: p in b.licences ==>
           b'.licences[p] ==
             if p == purchaseId && withdrawn then b.licences[p].(status := Withdrawn, revokedAt := Some(at)) else b.licences[p]
  {
  }

  /** No licence is ever committed unconsumed, so there is never one to withdraw. */
  lemma NothingToWithdraw(b: Books, purchaseId: Id, at: Time)
    requires Linked(b)
    ensures RevokeUnconsumed(b, purchaseId, at) == (b, false)
  {
  }

  // ---- Runs ----

  datatype Step =
    | ProvisionStep(e: Id, row: EventPlan, id: Id, now: Time)
    | ActivateStep(input: ActivateInput, id: Id, now: Time)
    | RevokeStep(e: Id, reason: string, at: Time)
    | PurchaseStep(bought: PurchaseInput, licenceId: Id, grantId: Id, now: Time)
    | WithdrawStep(purchaseId: Id, at: Time)
    | RemoveEventStep(e: Id)
    | MoveEventStep(e: Id, eventDate: Option<int>)

  function Next(cat: PlanCatalog, b: Books, step: Step): Books {
    match step
    case ProvisionStep(e, row, id, now) => b.(plans := Provision(cat, b.plans, e, row, id, now).0)
    case ActivateStep(input, id, now) => b.(plans := Activate(cat, b.plans, input, id, now).0)
    case RevokeStep(e, reason, at) => b.(plans := Revoke(b.plans, e, reason, at).0)
    case PurchaseStep(bought, licenceId, grantId, now) => ActivatePurchase(cat, b, bought, licenceId, grantId, now).0
    case WithdrawStep(purchaseId, at) => RevokeUnconsumed(b, purchaseId, at).0
    case RemoveEventStep(e) => b.(plans := WithEvent(b.plans, e, (row: EventPlan) => row.(removed := true)))
    case MoveEventStep(e, eventDate) => b.(plans := WithEvent(b.plans, e, (row: EventPlan) => row.(eventDate := eventDate)))
  }

  function WithEvent(s: Plans, e: Id, f: EventPlan -> EventPlan): Plans {
    if e in s.events then s.(events := s.events[e := f(s.events[e])]) else s
  }

  /** Each step is the call of its name; an event may also be removed, or moved to another date. */
  lemma StepIsCall(cat: PlanCatalog, b: Books, step: Step)
    ensures match step
            case ProvisionStep(e, row, id, now) => Next(cat, b, step) == b.(plans := Provision(cat, b.plans, e, row, id, now).0)
            case ActivateStep(input, id, now) => Next(cat, b, step) == b.(plans := Activate(cat, b.plans, input, id, now).0)
            case RevokeStep(e, reason, at) => Next(cat, b, step) == b.(plans := Revoke(b.plans, e, reason, at).0)
            case PurchaseStep(bought, l, g, now) => Next(cat, b, step) == ActivatePurchase(cat, b, bought, l, g, now).0
            case WithdrawStep(purchaseId, at) => Next(cat, b, step) == RevokeUnconsumed(b, purchaseId, at).0
            case RemoveEventStep(e) => Edited(b, Next(cat, b, step), e, (row: EventPlan) => row.(removed := true))
            case MoveEventStep(e, day) => Edited(b, Next(cat, b, step), e, (row: EventPlan) => row.(eventDate := day))
  {
  }

  ghost predicate Edited(b: Books, b': Books, e: Id, f: EventPlan -> EventPlan) {
    b' == b.(plans := b.plans.(events := if e in b.plans.events then b.plans.events[e := f(b.plans.events[e])] else b.plans.events))
  }

  function Run(cat: PlanCatalog, b: Books, steps: seq<Step>): Books
    decreases |steps|
  {
    if steps == [] then b else Run(cat, Next(cat, b, steps[0]), steps[1..])
  }

  lemma {:induction false} RunThen(cat: PlanCatalog, b: Books, steps: seq<Step>, step: Step)
    ensures Run(cat, b, steps + [step]) == Next(cat, Run(cat, b, steps), step)
    decreases |steps|
  {
    if steps == [] {
      assert [] + [step] == [step] && [step][1..] == [];
      assert Run(cat, b, [step]) == Run(cat, Next(cat, b, step), []);
    } else {
      assert (steps + [step])[1..] == steps[1..] + [step];
      RunThen(cat, Next(cat, b, steps[0]), steps[1..], step);
    }
  }

  lemma NextKeepsLinked(cat: PlanCatalog, b: Books, step: Step)
    requires Linked(b)
    ensures Linked(Next(cat, b, step)) && LicencesKept(b, Next(cat, b, step))
  {
    match step
    case ProvisionStep(e, row, id, now) => ProvisionKeepsLinked(cat, b, e, row, id, now);
    case ActivateStep(input, id, now) => ActivateKeepsLinked(cat, b, input, id, now);
    case RevokeStep(e, reason, at) => RevokeKeepsLinked(b, e, reason, at);
    case PurchaseStep(bought, licenceId, grantId, now) =>
      PurchaseKeepsLinked(cat, b, bought, licenceId, grantId, now);
      PurchaseKeepsLicences(cat, b, bought, licenceId, grantId, now);
    case WithdrawStep(purchaseId, at) => NothingToWithdraw(b, purchaseId, at);
    case _ =>
  }

  lemma ProvisionKeepsLinked(cat: PlanCatalog, b: Books, e: Id, row: EventPlan, id: Id, now: Time)
    requires Linked(b)
    ensures Linked(b.(plans := Provision(cat, b.plans, e, row, id, now).0))
  {
  }

  lemma ActivateKeepsLinked(cat: PlanCatalog, b: Books, input: ActivateInput, id: Id, now: Time)
    requires Linked(b)
    ensures Linked(b.(plans := Activate(cat, b.plans, input, id, now).0))
  {
    var (s', r) := Activate(cat, b.plans, input, id, now);
    ActivateWrites(cat, b.plans, input, id, now);
    if r.Granted? {
      var current := ActiveGrant(b.plans.grants, input.eventId);
      if current.Some? { StatusOnly(b.plans.grants, ActiveById(current.value.id), Superseded); }
      PlansStep(b, s', Superseding(b.plans.grants, current), [r.grant]);
    }
  }

  lemma RevokeKeepsLinked(b: Books, e: Id, reason: string, at: Time)
    requires Linked(b)
    ensures Linked(b.(plans := Revoke(b.plans, e, reason, at).0))
  {
    var (s', r) := Revoke(b.plans, e, reason, at);
    RevokeWrites(b.plans, e, reason, at);
    if r.Restored? {
      var previous := LatestSuperseded(b.plans.grants, e).value;
      StatusOnly(b.plans.grants, ById(r.revoked.id), Revoked);
      StatusOnly(Update(b.plans.grants, ById(r.revoked.id), SetStatus(Revoked)), ById(previous.id), Active);
      PlansStep(b, s', s'.grants, []);
    }
  }

  /** Over any run, in any order and with any repetition: a purchase has at most one licence and
      exactly one grant with it, and what a consumed licence says never changes again. */
  lemma {:induction false} OneGrantPerPurchase(cat: PlanCatalog, b: Books, steps: seq<Step>)
    requires Linked(b)
    ensures Linked(Run(cat, b, steps))
    ensures LicencesKept(b, Run(cat, b, steps))
    decreases |steps|
  {
    if steps != [] {
      NextKeepsLinked(cat, b, steps[0]);
      OneGrantPerPurchase(cat, Next(cat, b, steps[0]), steps[1..]);
    }
  }

  /** Once a purchase has paid for an event, no later purchase for that event is ever applied:
      not an upgrade, and not on any number of retries. */
  lemma SecondPurchaseNeverApplies(cat: PlanCatalog, b: Books, paid: Id, steps: seq<Step>, input: PurchaseInput,
                                   licenceId: Id, grantId: Id, now: Time)
    requires Linked(b) && paid in b.licences && b.licences[paid].consumedEventId == Some(input.eventId)
    requires input.purchaseId != paid
    ensures var b' := Run(cat, b, steps);
      var (b'', r) := ActivatePurchase(cat, b', input, licenceId, grantId, now);
      b'' == b' && r.Refused?
  {
    OneGrantPerPurchase(cat, b, steps);
    TakenRefuses(cat, Run(cat, b, steps), paid, input, licenceId, grantId, now);
  }

  /** An event one purchase paid for takes no other. */
  lemma TakenRefuses(cat: PlanCatalog, b: Books, paid: Id, input: PurchaseInput, licenceId: Id, grantId: Id, now: Time)
    requires Linked(b) && paid in b.licences && b.licences[paid].consumedEventId == Some(input.eventId)
    requires input.purchaseId != paid
    ensures var (b', r) := ActivatePurchase(cat, b, input, licenceId, grantId, now); b' == b && r.Refused?
  {
    if input.purchaseId in b.licences { RepeatIsNoOp(cat, b, input, licenceId, grantId, now); }
  }

  // ---- Every stack stays in order ----

  /** Activations and purchases on an event carry a later time than its current grant's. */
  predicate Guarded(b: Books, step: Step) {
    match step
    case ActivateStep(input, id, now) => TimeAhead(b.plans.grants, input.eventId, ActivationTime(input, now))
    case PurchaseStep(bought, licenceId, grantId, now) => TimeAhead(b.plans.grants, bought.eventId, PurchaseTime(bought, now))
    case _ => true
  }

  /** On the columns: only activations and purchases are asked anything. */
  lemma GuardedIff(b: Books, step: Step)
    requires GrantsUnique(b.plans.grants)
    ensures Guarded(b, step) <==>
      match step
      case ActivateStep(input, id, now) =>
        DatedAfter(b.plans.grants, input.eventId, if input.activatedAt.Some? then input.activatedAt.value else now)
      case PurchaseStep(bought, licenceId, grantId, now) =>
        DatedAfter(b.plans.grants, bought.eventId, if bought.activatedAt.Some? then bought.activatedAt.value else now)
      case _ => true
  {
    match step
    case ActivateStep(input, id, now) => TimeAheadIff(b.plans.grants, input.eventId, ActivationTime(input, now));
    case PurchaseStep(bought, licenceId, grantId, now) => TimeAheadIff(b.plans.grants, bought.eventId, PurchaseTime(bought, now));
    case _ =>
  }

  ghost predicate DatedAfter(rows: seq<Grant>, e: Id, at: Time) { forall g :: g in rows && InForce(g, e) ==> g.activatedAt < at }

  predicate GuardedRun(cat: PlanCatalog, b: Books, steps: seq<Step>)
    decreases |steps|
  {
    steps == [] || (Guarded(b, steps[0]) && GuardedRun(cat, Next(cat, b, steps[0]), steps[1..]))
  }

  /** A run is guarded when each of its steps is, in the state the steps before it left. */
  lemma {:induction false} GuardedRunIff(cat: PlanCatalog, b: Books, steps: seq<Step>)
    ensures GuardedRun(cat, b, steps) <==> forall i :: 0 <= i < |steps| ==> Guarded(Run(cat, b, steps[..i]), steps[i])
    decreases |steps|
  {
    if steps != [] {
      var next, rest := Next(cat, b, steps[0]), steps[1..];
      GuardedRunIff(cat, next, rest);
      assert steps[..0] == [];
      forall i | 0 < i < |steps| ensures Run(cat, b, steps[..i]) == Run(cat, next, rest[..i - 1]) && rest[i - 1] == steps[i] {
        assert steps[..i][1..] == rest[..i - 1];
      }
      assert forall i :: 0 <= i < |rest| ==> rest[i] == steps[i + 1] && Run(cat, next, rest[..i]) == Run(cat, b, steps[..i + 1]);
    }
  }

  /** The LimitMismatch query of the reconciler. */
  ghost predicate LimitMismatch(s: Plans, e: Id)
    requires e in s.events
  {
    var hot := s.events[e].hot;
    exists g :: g in s.grants && g.eventId == e && g.status.Active?
      && (hot.maxItems != g.limits.maxItems || hot.maxPhotos != g.limits.maxPhotos || hot.maxVideos != g.limits.maxVideos
          || (g.limits.maxBytes > 0 && hot.maxBytes != g.limits.maxBytes))
  }

  ghost predicate InOrder(cat: PlanCatalog, s: Plans) { Valid(cat, s) && Audited(s) }

  lemma PurchaseWrites(cat: PlanCatalog, b: Books, input: PurchaseInput, licenceId: Id, grantId: Id, now: Time)
    ensures var (b', r) := ActivatePurchase(cat, b, input, licenceId, grantId, now);
      var e, at := input.eventId, PurchaseTime(input, now);
      if r.Applied? then
        && e in b.plans.events && input.versionId in cat.versions
        && CheckTransition(cat.reg, PlanOf(ActiveGrant(b.plans.grants, e)), cat.versions[input.versionId].code) == Allowed
        && var g := PurchaseGrant(b.plans, cat.versions[input.versionId], input, Issued(b, input, licenceId, at).id, grantId, at);
        WriteGrant(b.plans, g, ActiveGrant(b.plans.grants, e), "paid event package purchase") == (b'.plans, Granted(g))
      else b' == b
  {
  }

  lemma PurchaseKeepsValid(cat: PlanCatalog, b: Books, input: PurchaseInput, licenceId: Id, grantId: Id, now: Time)
    requires Valid(cat, b.plans) && TimeAhead(b.plans.grants, input.eventId, PurchaseTime(input, now))
    ensures Valid(cat, ActivatePurchase(cat, b, input, licenceId, grantId, now).0.plans)
  {
    var (b', r) := ActivatePurchase(cat, b, input, licenceId, grantId, now);
    PurchaseWrites(cat, b, input, licenceId, grantId, now);
    if r.Applied? {
      var e, at := input.eventId, PurchaseTime(input, now);
      var v, l := cat.versions[input.versionId], Issued(b, input, licenceId, at);
      TopIsActive(b.plans.grants, e);
      NewGrantIsAbove(cat, grantId, e, v, Some(l.id), SourcePurchase, Some(BillingPurchase(input.purchaseId)),
                      b.plans.events[e].eventDate, at, ActiveGrant(b.plans.grants, e));
      WriteKeepsValid(cat, b.plans, PurchaseGrant(b.plans, v, input, l.id, grantId, at), "paid event package purchase");
    }
  }

  lemma PurchaseKeepsOrder(cat: PlanCatalog, b: Books, input: PurchaseInput, licenceId: Id, grantId: Id, now: Time)
    requires InOrder(cat, b.plans) && TimeAhead(b.plans.grants, input.eventId, PurchaseTime(input, now))
    ensures InOrder(cat, ActivatePurchase(cat, b, input, licenceId, grantId, now).0.plans)
  {
    PurchaseKeepsValid(cat, b, input, licenceId, grantId, now);
    PurchaseWrites(cat, b, input, licenceId, grantId, now);
    if ActivatePurchase(cat, b, input, licenceId, grantId, now).1.Applied? {
      var at := PurchaseTime(input, now);
      WriteAudits(b.plans, PurchaseGrant(b.plans, cat.versions[input.versionId], input, Issued(b, input, licenceId, at).id, grantId, at),
                  "paid event package purchase");
    }
  }

  /** The grant an applied purchase wrote. */
  ghost function PaidGrant(cat: PlanCatalog, b: Books, input: PurchaseInput, licenceId: Id, grantId: Id, now: Time): Grant
    requires input.versionId in cat.versions && input.eventId in b.plans.events
  {
    var at := PurchaseTime(input, now);
    PurchaseGrant(b.plans, cat.versions[input.versionId], input, Issued(b, input, licenceId, at).id, grantId, at)
  }

  /** An applied purchase is a push of the plan it bought, paid for by its own licence. */
  lemma PurchasePushes(cat: PlanCatalog, b: Books, input: PurchaseInput, licenceId: Id, grantId: Id, now: Time)
    requires GrantsUnique(b.plans.grants) && StatusOk(Stack(b.plans.grants, input.eventId))
    requires ActivatePurchase(cat, b, input, licenceId, grantId, now).1.Applied?
    ensures var e, b' := input.eventId, ActivatePurchase(cat, b, input, licenceId, grantId, now).0;
      && e in b.plans.events && input.versionId in cat.versions && input.purchaseId in b'.licences
      && var g := PaidGrant(cat, b, input, licenceId, grantId, now);
      && g.plan == cat.versions[input.versionId].code && g.eventId == e && PaidBy(g, input.purchaseId, b'.licences[input.purchaseId])
      && Pushed(Stack(b'.plans.grants, e), Stack(b.plans.grants, e), g)
      && forall x :: x != e ==> Stack(b'.plans.grants, x) == Stack(b.plans.grants, x)
  {
    PurchaseWrites(cat, b, input, licenceId, grantId, now);
    WriteStacks(b.plans, PaidGrant(cat, b, input, licenceId, grantId, now), "paid event package purchase");
  }

  /** The plan bought is dearer than the one in force. */
  ghost predicate Dearer(cat: PlanCatalog, rows: seq<Grant>, e: Id, versionId: nat)
    requires versionId in cat.versions
  {
    && cat.versions[versionId].code in cat.reg.byCode
    && forall g :: g in rows && InForce(g, e) ==> MayMove(cat.reg, Some(g.plan), cat.versions[versionId].code)
  }

  /** Why a first attempt is refused. */
  ghost predicate PurchaseRefused(cat: PlanCatalog, b: Books, input: PurchaseInput, why: Refusal) {
    var e := input.eventId;
    if input.versionId !in cat.versions then why == NoVersion
    else if e !in b.plans.events || b.plans.events[e].removed then why == NoEvent
    else if b.plans.events[e].hostId != input.accountId then why == Ownership
    else if !Dearer(cat, b.plans.grants, e, input.versionId) then why == NotAllowed
    else why == Clash && exists q :: q in b.licences && b.licences[q].consumedEventId == Some(e)
  }

  /** What an applied purchase leaves: its licence consumed by the event, and the event on a grant with
      the terms of the version bought. */
  ghost predicate BoughtBy(cat: PlanCatalog, b: Books, b': Books, input: PurchaseInput, licenceId: Id, grantId: Id, at: Time, g: Grant)
    requires input.versionId in cat.versions && input.eventId in b.plans.events
  {
    var e, p := input.eventId, input.purchaseId;
    && b'.licences == b.licences[p :=
         Licence(licenceId, input.accountId, input.versionId, Consumed, Some(e), Some(e), at, Some(at), None)]
    && g.id == grantId && g.eventId == e && g.licenceId == Some(licenceId)
    && g.source == SourcePurchase && g.reference == Some(BillingPurchase(p)) && g.activatedAt == at
    && OnTerms(g, b.plans.grants, cat.versions[input.versionId], b.plans.events[e].eventDate)
    && Written(b.plans, b'.plans, g, "paid event package purchase")
  }

  /** When a first attempt is applied, what it writes then, and why it is refused otherwise. */
  lemma PurchaseStatement(cat: PlanCatalog, b: Books, input: PurchaseInput, licenceId: Id, grantId: Id, now: Time)
    requires Linked(b) && input.purchaseId !in b.licences && Fresh(b, input.purchaseId, licenceId, grantId)
    ensures var e, (b', r) := input.eventId, ActivatePurchase(cat, b, input, licenceId, grantId, now);
      if r == Applied then
        && input.versionId in cat.versions
        && e in b.plans.events && !b.plans.events[e].removed && b.plans.events[e].hostId == input.accountId
        && Dearer(cat, b.plans.grants, e, input.versionId)
        && (forall q :: q in b.licences ==> b.licences[q].consumedEventId != Some(e))
        && var at := if input.activatedAt.Some? then input.activatedAt.value else now;
        exists g :: BoughtBy(cat, b, b', input, licenceId, grantId, at, g)
      else r.Refused? && b' == b && PurchaseRefused(cat, b, input, r.why)
  {
    InForceIs(b.plans.grants, input.eventId);
    PurchaseAppliesIff(cat, b, input, licenceId, grantId, now);
    PurchaseWrites(cat, b, input, licenceId, grantId, now);
    if ActivatePurchase(cat, b, input, licenceId, grantId, now).1.Applied? {
      BoughtRows(cat, b, input, licenceId, grantId, now);
    }
  }

  /** An id another licence has is refused before anything else is looked at but the version. */
  lemma TakenIdRefused(cat: PlanCatalog, b: Books, input: PurchaseInput, other: Id, grantId: Id, now: Time)
    requires input.purchaseId !in b.licences && other in b.licences && input.versionId in cat.versions
    ensures ActivatePurchase(cat, b, input, b.licences[other].id, grantId, now) == (b, Refused(Clash))
  {
  }

  lemma BoughtRows(cat: PlanCatalog, b: Books, input: PurchaseInput, licenceId: Id, grantId: Id, now: Time)
    requires Linked(b) && input.purchaseId !in b.licences && ActivatePurchase(cat, b, input, licenceId, grantId, now).1.Applied?
    ensures input.versionId in cat.versions && input.eventId in b.plans.events
    ensures BoughtBy(cat, b, ActivatePurchase(cat, b, input, licenceId, grantId, now).0, input, licenceId, grantId,
                   if input.activatedAt.Some? then input.activatedAt.value else now,
                   PaidGrant(cat, b, input, licenceId, grantId, now))
  {
    var e, at := input.eventId, PurchaseTime(input, now);
    PurchaseWrites(cat, b, input, licenceId, grantId, now);
    NewGrantTerms(b.plans.grants, grantId, e, cat.versions[input.versionId], Some(licenceId), SourcePurchase,
                  Some(BillingPurchase(input.purchaseId)), b.plans.events[e].eventDate, at);
    WriteStatement(b.plans, ActivatePurchase(cat, b, input, licenceId, grantId, now).0.plans,
                   PaidGrant(cat, b, input, licenceId, grantId, now), "paid event package purchase");
  }

  /** Revoking a purchased plan takes the grant away and not the licence: the event is where it was,
      and delivering the purchase again does not bring the plan back. */
  lemma RevokeUndoesPurchase(cat: PlanCatalog, b: Books, input: PurchaseInput, licenceId: Id, grantId: Id, now: Time,
                             reason: string, at: Time, b1: Books, b2: Books)
    requires Linked(b) && Valid(cat, b.plans) && reason != ""
    requires TimeAhead(b.plans.grants, input.eventId, PurchaseTime(input, now)) && Stack(b.plans.grants, input.eventId) != []
    requires ActivatePurchase(cat, b, input, licenceId, grantId, now) == (b1, Applied)
    requires b2 == Next(cat, b1, RevokeStep(input.eventId, reason, at))
    ensures input.versionId in cat.versions && input.eventId in b.plans.events
    ensures Undone(b.plans, PaidGrant(cat, b, input, licenceId, grantId, now), b2.plans, Revoke(b1.plans, input.eventId, reason, at).1)
    ensures ActivatePurchase(cat, b2, input, licenceId, grantId, now) == (b2, AlreadyApplied)
  {
    PurchaseUndone(cat, b, input, licenceId, grantId, now, reason, at);
    StillConsumed(cat, b, input, licenceId, grantId, now, reason, at);
  }

  lemma PurchaseUndone(cat: PlanCatalog, b: Books, input: PurchaseInput, licenceId: Id, grantId: Id, now: Time,
                       reason: string, at: Time)
    requires Valid(cat, b.plans) && reason != ""
    requires TimeAhead(b.plans.grants, input.eventId, PurchaseTime(input, now)) && Stack(b.plans.grants, input.eventId) != []
    requires ActivatePurchase(cat, b, input, licenceId, grantId, now).1.Applied?
    ensures input.versionId in cat.versions && input.eventId in b.plans.events
    ensures var (s', r) := Revoke(ActivatePurchase(cat, b, input, licenceId, grantId, now).0.plans, input.eventId, reason, at);
      Undone(b.plans, PaidGrant(cat, b, input, licenceId, grantId, now), s', r)
  {
    var b1 := ActivatePurchase(cat, b, input, licenceId, grantId, now).0;
    PurchaseWrites(cat, b, input, licenceId, grantId, now);
    PurchaseKeepsValid(cat, b, input, licenceId, grantId, now);
    RevokeUndoesWrite(cat, b.plans, PaidGrant(cat, b, input, licenceId, grantId, now), "paid event package purchase", b1.plans, reason, at);
  }

  /** The revocation leaves the licence consumed, so a repeat of the purchase finds it applied. */
  lemma StillConsumed(cat: PlanCatalog, b: Books, input: PurchaseInput, licenceId: Id, grantId: Id, now: Time,
                      reason: string, at: Time)
    requires Linked(b) && ActivatePurchase(cat, b, input, licenceId, grantId, now).1.Applied?
    ensures var b2 := Next(cat, ActivatePurchase(cat, b, input, licenceId, grantId, now).0, RevokeStep(input.eventId, reason, at));
      ActivatePurchase(cat, b2, input, licenceId, grantId, now) == (b2, AlreadyApplied)
  {
    var b1 := ActivatePurchase(cat, b, input, licenceId, grantId, now).0;
    PurchaseKeepsLinked(cat, b, input, licenceId, grantId, now);
    RevokeKeepsLinked(b1, input.eventId, reason, at);
    BoughtLicence(cat, b, input, licenceId, grantId, now);
    RepeatIsNoOp(cat, Next(cat, b1, RevokeStep(input.eventId, reason, at)), input, licenceId, grantId, now);
  }

  lemma BoughtLicence(cat: PlanCatalog, b: Books, input: PurchaseInput, licenceId: Id, grantId: Id, now: Time)
    requires ActivatePurchase(cat, b, input, licenceId, grantId, now).1.Applied?
    ensures var b' := ActivatePurchase(cat, b, input, licenceId, grantId, now).0;
      && input.purchaseId in b'.licences && input.versionId in cat.versions
      && var l := b'.licences[input.purchaseId];
      && l.consumedEventId == Some(input.eventId) && l.accountId == input.accountId && l.versionId == input.versionId
  {
  }

  lemma ActivateKeepsOrder(cat: PlanCatalog, s: Plans, input: ActivateInput, id: Id, now: Time)
    requires InOrder(cat, s) && TimeAhead(s.grants, input.eventId, ActivationTime(input, now))
    ensures InOrder(cat, Activate(cat, s, input, id, now).0)
  {
    ActivateKeepsValid(cat, s, input, id, now);
    ActivateWrites(cat, s, input, id, now);
    var (s', r) := Activate(cat, s, input, id, now);
    if r.Granted? { WriteAudits(s, r.grant, input.reason); }
  }

  lemma ProvisionKeepsOrder(cat: PlanCatalog, s: Plans, e: Id, row: EventPlan, id: Id, now: Time)
    requires InOrder(cat, s)
    ensures InOrder(cat, Provision(cat, s, e, row, id, now).0)
  {
    ProvisionStarts(cat, s, e, row, id, now);
    var (s', r) := Provision(cat, s, e, row, id, now);
    if r.Granted? {
      NoEventNoStack(cat, s, e);
      var s1 := s.(events := s.events[e := row]);
      NewEventAudited(s, s1, e);
      TopIsActive(s.grants, e);
      WriteAudits(s1, r.grant, "event created");
    }
  }

  lemma NewEventAudited(s: Plans, s1: Plans, e: Id)
    requires Audited(s) && Stack(s.grants, e) == [] && e !in s.events && e in s1.events
    requires s1.grants == s.grants && s1.audits == s.audits && s1.events == s.events[e := s1.events[e]]
    ensures Audited(s1)
  {
    NoTrail(s, e);
    forall x | x in s1.events ensures TrailOk(s1, x) {
      if x != e { assert TrailOk(s, x); }
      SameTrail(s, s1, x);
    }
  }

  /** An event without a row has no grant and no audit. */
  lemma NoTrail(s: Plans, e: Id)
    requires (forall a :: a in s.audits ==> a.eventId in s.events) && Stack(s.grants, e) == [] && e !in s.events
    ensures TrailOk(s, e)
  {
    TopIsActive(s.grants, e);
    assert forall i :: 0 <= i < |s.audits| ==> s.audits[i] in s.audits;
    WhereNone(s.audits, AuditFor(e));
  }

  lemma SameTrail(s: Plans, s1: Plans, x: Id)
    requires s1.grants == s.grants && s1.audits == s.audits
    ensures TrailOk(s1, x) == TrailOk(s, x)
  {
  }

  lemma EventEditKeepsOrder(cat: PlanCatalog, s: Plans, e: Id, f: EventPlan -> EventPlan)
    requires InOrder(cat, s) && forall row: EventPlan :: f(row).hot == row.hot
    ensures InOrder(cat, WithEvent(s, e, f))
  {
    var s' := WithEvent(s, e, f);
    forall x | x in s'.events ensures EventOk(cat.reg, s'.events[x], Stack(s'.grants, x)) && TrailOk(s', x) {
      SameHot(cat, s, s', x);
    }
  }

  lemma SameHot(cat: PlanCatalog, s: Plans, s': Plans, x: Id)
    requires InOrder(cat, s) && x in s.events && x in s'.events && s'.events[x].hot == s.events[x].hot
    requires s'.grants == s.grants && s'.audits == s.audits
    ensures EventOk(cat.reg, s'.events[x], Stack(s'.grants, x)) && TrailOk(s', x)
  {
    assert EventOk(cat.reg, s.events[x], Stack(s.grants, x)) && TrailOk(s, x);
    SameTrail(s, s', x);
  }

  lemma NextKeepsOrder(cat: PlanCatalog, b: Books, step: Step)
    requires InOrder(cat, b.plans) && Guarded(b, step)
    ensures InOrder(cat, Next(cat, b, step).plans)
  {
    match step
    case ProvisionStep(e, row, id, now) => ProvisionKeepsOrder(cat, b.plans, e, row, id, now);
    case ActivateStep(input, id, now) => ActivateKeepsOrder(cat, b.plans, input, id, now);
    case RevokeStep(e, reason, at) =>
      RevokeKeepsValid(cat, b.plans, e, reason, at);
      RevokeAudits(cat, b.plans, e, reason, at);
    case PurchaseStep(bought, licenceId, grantId, now) => PurchaseKeepsOrder(cat, b, bought, licenceId, grantId, now);
    case RemoveEventStep(e) => EventEditKeepsOrder(cat, b.plans, e, (row: EventPlan) => row.(removed := true));
    case MoveEventStep(e, eventDate) => EventEditKeepsOrder(cat, b.plans, e, (row: EventPlan) => row.(eventDate := eventDate));
    case WithdrawStep(purchaseId, at) =>
  }

  /** Over any run whose activation times increase per event, every event's grants stay one stack,
      rising in plan and in time with expiries that never shrink, the active grant on top; its audit
      trail leads from nothing to that plan; and no event's limits differ from its grant's. */
  lemma {:induction false} PlansStayInOrder(cat: PlanCatalog, b: Books, steps: seq<Step>)
    requires InOrder(cat, b.plans) && GuardedRun(cat, b, steps)
    ensures InOrder(cat, Run(cat, b, steps).plans)
    ensures forall e :: e in Run(cat, b, steps).plans.events ==> !LimitMismatch(Run(cat, b, steps).plans, e)
    decreases |steps|
  {
    if steps == [] {
      forall e | e in b.plans.events ensures !LimitMismatch(b.plans, e) { HotMatches(cat, b.plans, e); }
    } else {
      NextKeepsOrder(cat, b, steps[0]);
      PlansStayInOrder(cat, Next(cat, b, steps[0]), steps[1..]);
    }
  }

  lemma HotMatches(cat: PlanCatalog, s: Plans, e: Id)
    requires Valid(cat, s) && e in s.events
    ensures !LimitMismatch(s, e)
  {
    assert EventOk(cat.reg, s.events[e], Stack(s.grants, e));
    TopIsActive(s.grants, e);
    OnlyActive(s.grants, e);
    TopMatches(s, e, Stack(s.grants, e));
  }

  /** The limits of the only active grant are the event's, so none differs from them. */
  lemma TopMatches(s: Plans, e: Id, stack: seq<Grant>)
    requires e in s.events && HotOk(s.events[e].hot, stack)
    requires forall g :: g in s.grants && g.eventId == e && g.status.Active? ==> stack != [] && g == stack[|stack| - 1]
    ensures !LimitMismatch(s, e)
  {
  }

  lemma OnlyActive(rows: seq<Grant>, e: Id)
    requires GrantsUnique(rows)
    ensures forall g :: g in rows && g.eventId == e && g.status.Active? ==> ActiveGrant(rows, e) == Some(g)
  {
    forall g | g in rows && g.eventId == e && g.status.Active? ensures ActiveGrant(rows, e) == Some(g) {
      ActiveRow(rows, g);
    }
  }

  /** The first grant of e is still at the bottom of its stack. */
  ghost predicate BottomKept(s: Plans, s': Plans, e: Id) {
    Stack(s.grants, e) != [] ==>
      Stack(s'.grants, e) != [] && Stack(s'.grants, e)[0].id == Stack(s.grants, e)[0].id
  }

  lemma NextKeepsBottom(cat: PlanCatalog, b: Books, step: Step, e: Id)
    requires Valid(cat, b.plans) && e in b.plans.events
    ensures e in Next(cat, b, step).plans.events && BottomKept(b.plans, Next(cat, b, step).plans, e)
  {
    match step
    case ProvisionStep(x, row, id, now) => ProvisionStarts(cat, b.plans, x, row, id, now);
    case ActivateStep(input, id, now) => ActivateKeepsBottom(cat, b.plans, input, id, now, e);
    case RevokeStep(x, reason, at) => RevokeKeepsBottom(cat, b.plans, x, reason, at, e);
    case PurchaseStep(bought, licenceId, grantId, now) => PurchaseKeepsBottom(cat, b, bought, licenceId, grantId, now, e);
    case _ =>
  }

  lemma ActivateKeepsBottom(cat: PlanCatalog, s: Plans, input: ActivateInput, id: Id, now: Time, e: Id)
    requires Valid(cat, s) && e in s.events
    ensures e in Activate(cat, s, input, id, now).0.events && BottomKept(s, Activate(cat, s, input, id, now).0, e)
  {
    ActivateWrites(cat, s, input, id, now);
    if Activate(cat, s, input, id, now).1.Granted? { ActivatePushes(cat, s, input, id, now); }
  }

  lemma RevokeKeepsBottom(cat: PlanCatalog, s: Plans, x: Id, reason: string, at: Time, e: Id)
    requires Valid(cat, s) && e in s.events
    ensures e in Revoke(s, x, reason, at).0.events && BottomKept(s, Revoke(s, x, reason, at).0, e)
  {
    RevokeWrites(s, x, reason, at);
    RevokeElsewhere(cat, s, x, reason, at);
    if Revoke(s, x, reason, at).1.Restored? { RevokePops(cat, s, x, reason, at); }
  }

  lemma PurchaseKeepsBottom(cat: PlanCatalog, b: Books, input: PurchaseInput, licenceId: Id, grantId: Id, now: Time, e: Id)
    requires Valid(cat, b.plans) && e in b.plans.events
    ensures var b' := ActivatePurchase(cat, b, input, licenceId, grantId, now).0;
      e in b'.plans.events && BottomKept(b.plans, b'.plans, e)
  {
    PurchaseWrites(cat, b, input, licenceId, grantId, now);
    if ActivatePurchase(cat, b, input, licenceId, grantId, now).1.Applied? {
      assert EventOk(cat.reg, b.plans.events[input.eventId], Stack(b.plans.grants, input.eventId));
      PurchasePushes(cat, b, input, licenceId, grantId, now);
    }
  }

  /** An event that has a plan never loses its last one: its first grant is never popped. */
  lemma {:induction false} FirstGrantIsForever(cat: PlanCatalog, b: Books, steps: seq<Step>, e: Id)
    requires InOrder(cat, b.plans) && GuardedRun(cat, b, steps) && e in b.plans.events
    ensures e in Run(cat, b, steps).plans.events && BottomKept(b.plans, Run(cat, b, steps).plans, e)
    decreases |steps|
  {
    if steps != [] {
      NextKeepsBottom(cat, b, steps[0], e);
      NextKeepsOrder(cat, b, steps[0]);
      FirstGrantIsForever(cat, Next(cat, b, steps[0]), steps[1..], e);
    }
  }

  lemma NextKeepsPlan(cat: PlanCatalog, b: Books, step: Step, x: Id)
    requires Linked(b) && OnPlan(b.plans, x)
    ensures OnPlan(Next(cat, b, step).plans, x)
  {
    match step
    case ProvisionStep(e, row, id, now) => ProvisionKeepsPlan(cat, b.plans, e, row, id, now, x);
    case ActivateStep(input, id, now) =>
      ActivateWrites(cat, b.plans, input, id, now);
      var (s', r) := Activate(cat, b.plans, input, id, now);
      if r.Granted? { WriteKeepsPlan(b.plans, r.grant, input.reason, x); }
    case RevokeStep(e, reason, at) => RevokeKeepsPlan(b.plans, e, reason, at, x);
    case PurchaseStep(bought, licenceId, grantId, now) =>
      PurchaseWrites(cat, b, bought, licenceId, grantId, now);
      if ActivatePurchase(cat, b, bought, licenceId, grantId, now).1.Applied? {
        WriteKeepsPlan(b.plans, PaidGrant(cat, b, bought, licenceId, grantId, now), "paid event package purchase", x);
      }
    case _ =>
  }

  lemma ProvisionKeepsPlan(cat: PlanCatalog, s: Plans, e: Id, row: EventPlan, id: Id, now: Time, x: Id)
    requires GrantsUnique(s.grants) && OnPlan(s, x)
    ensures OnPlan(Provision(cat, s, e, row, id, now).0, x)
  {
    ProvisionWrites(cat, s, e, row, id, now);
    var (s', r) := Provision(cat, s, e, row, id, now);
    if r.Granted? {
      WhereAppend(s.grants, [r.grant], ActiveOf(x));
      assert s'.grants == s.grants + [r.grant];
    }
  }

  /** In every run, whatever dates its activations carry: an event on a plan is never left without
      one. */
  lemma {:induction false} EventsKeepAPlan(cat: PlanCatalog, b: Books, steps: seq<Step>, x: Id)
    requires Linked(b) && OnPlan(b.plans, x)
    ensures OnPlan(Run(cat, b, steps).plans, x)
    decreases |steps|
  {
    if steps != [] {
      NextKeepsPlan(cat, b, steps[0], x);
      NextKeepsLinked(cat, b, steps[0]);
      EventsKeepAPlan(cat, Next(cat, b, steps[0]), steps[1..], x);
    }
  }
}
