/** The entitlement tables as fields, one method per transaction
    (internal/entitlement/repository.go, provision.go, license.go). */
module EntitlementRepositories {
  import opened Tables
  import opened Catalog
  import opened Grants
  import opened Licences

  lemma TakenByOthersOnly(a: map<Id, Licence>, b: map<Id, Licence>, p: Id, l: Licence)
    requires forall q :: q != p ==> (q in a <==> q in b)
    requires forall q :: q != p && q in a ==> a[q] == b[q]
    ensures LicenceTaken(a, p, l) == LicenceTaken(b, p, l)
  {
  }

  class EntitlementRepository {
    const cat: PlanCatalog
    var events: map<Id, EventPlan>
    var grants: seq<Grant>
    var audits: seq<Audit>
    var licences: map<Id, Licence>

    ghost function State(): Books reads this { Books(Plans(events, grants, audits), licences) }

    constructor (cat: PlanCatalog, b: Books)
      ensures this.cat == cat && State() == b
    {
      this.cat, events, grants, audits, licences := cat, b.plans.events, b.plans.grants, b.plans.audits, b.licences;
    }

    /** The four statements every plan change ends with. The caller's transaction rolls back on a
        key clash, so the rows are put back. */
    method WriteGrant(g: Grant, previous: Option<Grant>, reason: string) returns (r: PlanResult)
      modifies this`events, this`grants, this`audits
      ensures (State().plans, r) == Grants.WriteGrant(old(State().plans), g, previous, reason)
    {
      var before := grants;
      if previous.Some? {
        grants := Update(grants, ActiveById(previous.value.id), SetStatus(Superseded));
      }
      grants := grants + [g];
      if !GrantsUnique(grants) {
        grants := before;
        return Failed(KeyTaken);
      }
      events := ApplyHotLimits(events, g.eventId, g.limits);
      audits := audits + [AuditOf(g, PlanOf(previous), g.plan, reason)];
      r := Granted(g);
    }

    method Provision(e: Id, row: EventPlan, id: Id, now: Time) returns (r: PlanResult)
      modifies this
      ensures (State().plans, r) == Grants.Provision(cat, old(State().plans), e, row, id, now)
      ensures licences == old(licences)
    {
      var version := ActiveVersion(cat, FREE);
      if version.None? {
        return Failed(UnknownVersion);
      }
      if e in events {
        return Failed(KeyTaken);
      }
      var before := events;
      events := events[e := row];
      r := WriteGrant(NewGrant(id, e, version.value, None, SourceSystem, None, row.eventDate, now, None), None, "event created");
      if !r.Granted? {
        events := before;
      }
    }

    method Activate(input: ActivateInput, id: Id, now: Time) returns (r: PlanResult)
      modifies this
      ensures (State().plans, r) == Grants.Activate(cat, old(State().plans), input, id, now)
      ensures licences == old(licences)
    {
      if !ValidSource(input.source) || input.source.SourceSystem? {
        return Failed(InvalidSource);
      }
      if input.reference == FreeText("") {
        return Failed(ReferenceRequired);
      }
      var version := ActiveVersion(cat, input.target);
      if version.None? {
        return Failed(UnknownVersion);
      }
      if input.eventId !in events {
        return Failed(EventNotFound);
      }
      var existing := Count(grants, ReferenceRow(input.source, input.reference));
      if existing > 0 {
        return Failed(DuplicateReference);
      }
      var current := ActiveGrant(grants, input.eventId);
      if CheckTransition(cat.reg, PlanOf(current), version.value.code) != Allowed {
        return Failed(InvalidTransition);
      }
      r := WriteGrant(NewGrant(id, input.eventId, version.value, None, input.source, Some(input.reference),
        events[input.eventId].eventDate, ActivationTime(input, now), current), current, input.reason);
      if r == Failed(KeyTaken) {
        r := Failed(DuplicateReference);
      }
    }

    method Revoke(e: Id, reason: string, at: Time) returns (r: PlanResult)
      modifies this
      ensures (State().plans, r) == Grants.Revoke(old(State().plans), e, reason, at)
      ensures licences == old(licences)
    {
      if reason == "" {
        return Failed(ReasonRequired);
      }
      if e !in events {
        return Failed(EventNotFound);
      }
      var current := ActiveGrant(grants, e);
      if current.None? {
        return Failed(NoActiveGrant);
      }
      var previous := LatestSuperseded(grants, e);
      if previous.None? {
        return Failed(NothingToRestore);
      }
      var before := grants;
      grants := Update(grants, ById(current.value.id), SetStatus(Revoked));
      if !GrantsUnique(grants) {
        grants := before;
        return Failed(KeyTaken);
      }
      grants := Update(grants, ById(previous.value.id), SetStatus(Active));
      if !GrantsUnique(grants) {
        grants := before;
        return Failed(KeyTaken);
      }
      events := ApplyHotLimits(events, e, previous.value.limits);
      var noted := previous.value.(status := Active, source := SourceManual, reference := None, activatedAt := at);
      audits := audits + [AuditOf(noted, Some(current.value.plan), previous.value.plan, "revoked: " + reason)];
      r := Restored(current.value, previous.value.(status := Active));
    }

    method ActivatePurchase(input: PurchaseInput, licenceId: Id, grantId: Id, now: Time) returns (r: LicenceResult)
      modifies this
      ensures (State(), r) == Licences.ActivatePurchase(cat, old(State()), input, licenceId, grantId, now)
    {
      var at, p := PurchaseTime(input, now), input.purchaseId;
      if input.versionId !in cat.versions {
        return Refused(NoVersion);
      }
      var version, before := cat.versions[input.versionId], licences;
      if p !in licences {
        if LicenceTaken(licences, p, Candidate(input, licenceId, at)) {
          return Refused(Clash);
        }
        licences := licences[p := Candidate(input, licenceId, at)];
      }
      var licence := licences[p];
      var current := ActiveGrant(grants, input.eventId);
      if licence.accountId != input.accountId || licence.versionId != input.versionId {
        r := Refused(Ownership);
      } else if licence.status.Consumed? {
        r := if licence.consumedEventId == Some(input.eventId) then AlreadyApplied else Refused(Unavailable);
      } else if !licence.status.Available? && !licence.status.Reserved? {
        r := Refused(Unavailable);
      } else if input.eventId !in events || events[input.eventId].removed {
        r := Refused(NoEvent);
      } else if events[input.eventId].hostId != input.accountId {
        r := Refused(Ownership);
      } else if CheckTransition(cat.reg, PlanOf(current), version.code) != Allowed {
        r := Refused(NotAllowed);
      } else {
        r := Consume(input, version, current, grantId, at, before);
        assert r.Applied? ==> licences == before[p := Consuming(licence, input.eventId, at)];
      }
      if r.Refused? {
        licences := before;
      }
    }

    /** Reserve the licence for the event, write the grant, consume the licence. */
    method Consume(input: PurchaseInput, version: Version, current: Option<Grant>, grantId: Id, at: Time,
                   ghost before: map<Id, Licence>)
      returns (r: LicenceResult)
      requires input.purchaseId in licences && input.eventId in events && current == ActiveGrant(grants, input.eventId)
      requires forall p :: p in before || p == input.purchaseId <==> p in licences
      requires forall p :: p in before && p != input.purchaseId ==> before[p] == licences[p]
      requires !licences[input.purchaseId].status.Consumed?
      modifies this
      ensures var p, l := input.purchaseId, old(licences[input.purchaseId]);
        var g := PurchaseGrant(old(State().plans), version, input, l.id, grantId, at);
        var (plans, w) := Grants.WriteGrant(old(State().plans), g, current, "paid event package purchase");
        var consumed := Consuming(l, input.eventId, at);
        if !w.Granted? || LicenceTaken(before, p, consumed) then State().plans == old(State().plans) && r == Refused(Clash)
        else State() == Books(plans, old(licences)[p := consumed]) && r == Applied
    {
      var p := input.purchaseId;
      var events0, grants0, audits0 := events, grants, audits;
      licences := licences[p := licences[p].(status := Reserved, reservedEventId := Some(input.eventId))];
      var w := WriteGrant(PurchaseGrant(Plans(events, grants, audits), version, input, licences[p].id, grantId, at),
                          current, "paid event package purchase");
      if !w.Granted? {
        return Refused(Clash);
      }
      var consumed := licences[p].(status := Consumed, consumedEventId := Some(input.eventId), consumedAt := Some(at));
      TakenByOthersOnly(licences, before, p, consumed);
      if LicenceTaken(licences, p, consumed) {
        events, grants, audits := events0, grants0, audits0;
        return Refused(Clash);
      }
      licences := licences[p := consumed];
      r := Applied;
    }

    method RevokeUnconsumed(purchaseId: Id, at: Time) returns (revoked: bool)
      modifies this`licences
      ensures (State(), revoked) == Licences.RevokeUnconsumed(old(State()), purchaseId, at)
    {
      revoked := purchaseId in licences && (licences[purchaseId].status.Available? || licences[purchaseId].status.Reserved?);
      if revoked {
        licences := licences[purchaseId := licences[purchaseId].(status := Withdrawn, revokedAt := Some(at))];
      }
    }
  }
}
