/** The grant lifecycle of an event (internal/entitlement/repository.go, grant_service.go,
    entitlement.go and provision.go). The grants table is meant to be one stack per event:
    activation pushes, revocation pops. `Stack` is that stack, and the lemmas are the refinement. */
module Grants {
  import opened Tables
  import opened Sorting
  import opened Catalog
  import MediaModel

  type Id = MediaModel.Id
  type Time = MediaModel.Time
  type HotLimits = MediaModel.HotLimits

  const DAY: Time := 86_400_000_000_000

  datatype Source =
    | SourceSystem | SourceManual | SourceMigration | SourcePromotion | SourceExternal
    | SourcePurchase | SourceReferral | SourceAdmin | SourceBusiness | OtherSource(name: string)

  predicate ValidSource(source: Source) { !source.OtherSource? }

  /** A source reference, told apart by the two prefixes the program itself writes. */
  datatype Reference = BillingPurchase(id: Id) | LegacyBackfill(id: Id) | FreeText(text: string)

  datatype GrantStatus = Active | Superseded | Revoked

  datatype Grant = Grant(
    id: Id, eventId: Id, plan: PlanCode, versionId: nat, licenceId: Option<Id>, status: GrantStatus,
    source: Source, reference: Option<Reference>, limits: Limits,
    activatedAt: Time, uploadExpiresAt: Time, retentionExpiresAt: Time, createdAt: Time)

  datatype Audit = Audit(
    eventId: Id, grantId: Id, previous: Option<PlanCode>, target: PlanCode, source: Source,
    reference: Option<Reference>, reason: string, at: Time)

  /** The event columns grants read and write; a date is a day number. */
  datatype EventPlan = EventPlan(hostId: Id, eventDate: Option<int>, removed: bool, hot: HotLimits, createdAt: Time)

  datatype Plans = Plans(events: map<Id, EventPlan>, grants: seq<Grant>, audits: seq<Audit>)

  datatype PlanError =
    | InvalidSource | ReferenceRequired | UnknownVersion | EventNotFound | DuplicateReference
    | InvalidTransition | NoActiveGrant | NothingToRestore | ReasonRequired | KeyTaken

  datatype PlanResult = Granted(grant: Grant) | Restored(revoked: Grant, restored: Grant) | Failed(error: PlanError)

  // ---- The unique indexes ----

  /** Primary key, (source, source_reference), event_license_id, and one active grant per event. */
  predicate SameGrantKey(a: Grant, b: Grant) {
    || a.id == b.id
    || (a.reference.Some? && a.source == b.source && a.reference == b.reference)
    || (a.licenceId.Some? && a.licenceId == b.licenceId)
    || (a.status.Active? && b.status.Active? && a.eventId == b.eventId)
  }

  predicate GrantsUnique(rows: seq<Grant>) {
    forall i, j :: 0 <= i < j < |rows| ==> !SameGrantKey(rows[i], rows[j])
  }

  // ---- Expiry ----

  function Later(a: Time, b: Time): Time { if b > a then b else a }

  /** Uploads and storage both end retentionDays after the later of the activation and the start
      of the day after the event. */
  function Expiry(eventDate: Option<int>, activatedAt: Time, retentionDays: int): (r: (Time, Time))
    ensures r.0 == r.1 >= activatedAt + retentionDays * DAY
    ensures eventDate.Some? ==> r.1 >= (eventDate.value + 1 + retentionDays) * DAY
    ensures r.1 == activatedAt + retentionDays * DAY || (eventDate.Some? && r.1 == (eventDate.value + 1 + retentionDays) * DAY)
  {
    var anchor := if eventDate.Some? && (eventDate.value + 1) * DAY > activatedAt then (eventDate.value + 1) * DAY else activatedAt;
    (anchor + retentionDays * DAY, anchor + retentionDays * DAY)
  }

  // ---- Statements ----

  function ActiveOf(e: Id): Grant -> bool { (g: Grant) => g.eventId == e && g.status.Active? }

  function SupersededOf(e: Id): Grant -> bool { (g: Grant) => g.eventId == e && g.status.Superseded? }

  function ById(id: Id): Grant -> bool { (g: Grant) => g.id == id }

  function ActiveById(id: Id): Grant -> bool { (g: Grant) => g.id == id && g.status.Active? }

  function SetStatus(status: GrantStatus): Grant -> Grant { (g: Grant) => g.(status := status) }

  /** ORDER BY activated_at DESC, created_at DESC. */
  function LatestFirst(): (Grant, Grant) -> bool {
    (a: Grant, b: Grant) =>
      a.activatedAt > b.activatedAt || (a.activatedAt == b.activatedAt && a.createdAt > b.createdAt)
  }

  function ActiveGrant(rows: seq<Grant>, e: Id): Option<Grant> { First(Where(rows, ActiveOf(e))) }

  function LatestSuperseded(rows: seq<Grant>, e: Id): Option<Grant> {
    First(Sort(Where(rows, SupersededOf(e)), LatestFirst()))
  }

  /** A grant without a positive byte limit leaves the event's byte limit as it was. */
  function HotAfter(hot: HotLimits, limits: Limits): HotLimits {
    MediaModel.HotLimits(if limits.maxBytes > 0 then limits.maxBytes else hot.maxBytes,
                         limits.maxItems, limits.maxPhotos, limits.maxVideos)
  }

  function ApplyHotLimits(events: map<Id, EventPlan>, e: Id, limits: Limits): map<Id, EventPlan> {
    if e in events then events[e := events[e].(hot := HotAfter(events[e].hot, limits))] else events
  }

  function PlanOf(g: Option<Grant>): Option<PlanCode> { if g.Some? then Some(g.value.plan) else None }

  function AuditOf(g: Grant, previous: Option<PlanCode>, target: PlanCode, reason: string): Audit {
    Audit(g.eventId, g.id, previous, target, g.source, g.reference, reason, g.activatedAt)
  }

  function Superseding(rows: seq<Grant>, previous: Option<Grant>): seq<Grant> {
    if previous.Some? then Update(rows, ActiveById(previous.value.id), SetStatus(Superseded)) else rows
  }

  /** Supersede the previous grant, insert the new one, copy its limits to the event, audit it. */
  function WriteGrant(s: Plans, g: Grant, previous: Option<Grant>, reason: string): (Plans, PlanResult) {
    var rows := Superseding(s.grants, previous) + [g];
    if !GrantsUnique(rows) then (s, Failed(KeyTaken))
    else
      (Plans(ApplyHotLimits(s.events, g.eventId, g.limits), rows,
             s.audits + [AuditOf(g, PlanOf(previous), g.plan, reason)]), Granted(g))
  }

  // ---- The operations ----

  datatype ActivateInput = ActivateInput(
    eventId: Id, target: PlanCode, source: Source, reference: Reference, reason: string, activatedAt: Option<Time>)

  function ReferenceRow(source: Source, reference: Reference): Grant -> bool {
    (g: Grant) => g.source == source && g.reference == Some(reference)
  }

  /** An upgrade never shortens what the host already had. */
  function NewGrant(id: Id, e: Id, v: Version, licenceId: Option<Id>, source: Source, reference: Option<Reference>,
                    eventDate: Option<int>, at: Time, current: Option<Grant>): Grant {
    var (upload, retention) := Expiry(eventDate, at, v.limits.retentionDays);
    Grant(id, e, v.code, v.id, licenceId, Active, source, reference, v.limits, at,
          if current.Some? then Later(upload, current.value.uploadExpiresAt) else upload,
          if current.Some? then Later(retention, current.value.retentionExpiresAt) else retention, at)
  }

  function ActivationTime(input: ActivateInput, now: Time): Time {
    if input.activatedAt.Some? then input.activatedAt.value else now
  }

  function Activate(cat: PlanCatalog, s: Plans, input: ActivateInput, id: Id, now: Time): (Plans, PlanResult) {
    if !ValidSource(input.source) || input.source.SourceSystem? then (s, Failed(InvalidSource))
    else if input.reference == FreeText("") then (s, Failed(ReferenceRequired))
    else if ActiveVersion(cat, input.target).None? then (s, Failed(UnknownVersion))
    else if input.eventId !in s.events then (s, Failed(EventNotFound))
    else if Count(s.grants, ReferenceRow(input.source, input.reference)) > 0 then (s, Failed(DuplicateReference))
    else
      var v, current := ActiveVersion(cat, input.target).value, ActiveGrant(s.grants, input.eventId);
      if CheckTransition(cat.reg, PlanOf(current), v.code) != Allowed then (s, Failed(InvalidTransition))
      else
        var (s', r) := WriteGrant(s, NewGrant(id, input.eventId, v, None, input.source, Some(input.reference),
          s.events[input.eventId].eventDate, ActivationTime(input, now), current), current, input.reason);
        (s', if r == Failed(KeyTaken) then Failed(DuplicateReference) else r)
  }

  /** The first grant, in the transaction that inserts the event; if it fails there is no event. */
  function Provision(cat: PlanCatalog, s: Plans, e: Id, row: EventPlan, id: Id, now: Time): (Plans, PlanResult) {
    if ActiveVersion(cat, FREE).None? then (s, Failed(UnknownVersion))
    else if e in s.events then (s, Failed(KeyTaken))
    else
      var g := NewGrant(id, e, ActiveVersion(cat, FREE).value, None, SourceSystem, None, row.eventDate, now, None);
      var (s', r) := WriteGrant(s.(events := s.events[e := row]), g, None, "event created");
      (if r.Granted? then s' else s, r)
  }

  function Revoke(s: Plans, e: Id, reason: string, at: Time): (Plans, PlanResult) {
    if reason == "" then (s, Failed(ReasonRequired))
    else if e !in s.events then (s, Failed(EventNotFound))
    else if ActiveGrant(s.grants, e).None? then (s, Failed(NoActiveGrant))
    else if LatestSuperseded(s.grants, e).None? then (s, Failed(NothingToRestore))
    else
      var current, previous := ActiveGrant(s.grants, e).value, LatestSuperseded(s.grants, e).value;
      var revoked := Update(s.grants, ById(current.id), SetStatus(Revoked));
      var restored := Update(revoked, ById(previous.id), SetStatus(Active));
      if !GrantsUnique(revoked) || !GrantsUnique(restored) then (s, Failed(KeyTaken))
      else
        var noted := previous.(status := Active, source := SourceManual, reference := None, activatedAt := at);
        (Plans(ApplyHotLimits(s.events, e, previous.limits), restored,
               s.audits + [AuditOf(noted, Some(current.plan), previous.plan, "revoked: " + reason)]),
         Restored(current, previous.(status := Active)))
  }

  // ---- The stack ----

  function OnStack(e: Id): Grant -> bool { (g: Grant) => g.eventId == e && !g.status.Revoked? }

  /** The grants of e that are still in play, in the order they were made. */
  function Stack(rows: seq<Grant>, e: Id): seq<Grant> { Where(rows, OnStack(e)) }

  /** b was granted on top of a. */
  ghost predicate Above(reg: Registry, b: Grant, a: Grant) {
    && Rank(reg, b.plan) > Rank(reg, a.plan)
    && b.activatedAt > a.activatedAt
    && b.uploadExpiresAt >= a.uploadExpiresAt
    && b.retentionExpiresAt >= a.retentionExpiresAt
  }

  /** What a grant alone promises: never less storage than the plan's days, and uploads for as long. */
  ghost predicate Honoured(g: Grant) {
    && g.uploadExpiresAt == g.retentionExpiresAt >= g.activatedAt + g.limits.retentionDays * DAY
    && g.createdAt == g.activatedAt
  }

  ghost predicate StatusOk(stack: seq<Grant>) {
    forall i :: 0 <= i < |stack| ==> stack[i].status == if i == |stack| - 1 then Active else Superseded
  }

  ghost predicate StackOk(reg: Registry, stack: seq<Grant>) {
    && StatusOk(stack)
    && (forall i, j :: 0 <= i < j < |stack| ==> Above(reg, stack[j], stack[i]))
    && (forall i :: 0 <= i < |stack| ==> Honoured(stack[i]))
  }

  /** The hot limits of e are those of the grant on top. */
  ghost predicate HotOk(hot: HotLimits, stack: seq<Grant>) {
    stack != [] ==>
      var limits := stack[|stack| - 1].limits;
      && hot.maxItems == limits.maxItems && hot.maxPhotos == limits.maxPhotos && hot.maxVideos == limits.maxVideos
      && (limits.maxBytes > 0 ==> hot.maxBytes == limits.maxBytes)
  }

  ghost predicate EventOk(reg: Registry, row: EventPlan, stack: seq<Grant>) {
    StackOk(reg, stack) && HotOk(row.hot, stack)
  }

  ghost predicate Valid(cat: PlanCatalog, s: Plans) {
    && GrantsUnique(s.grants)
    && (forall g :: g in s.grants ==> g.eventId in s.events)
    && (forall e :: e in s.events ==> EventOk(cat.reg, s.events[e], Stack(s.grants, e)))
  }

  // ---- Statements seen from one stack ----

  lemma OnlyRow(rows: seq<Grant>, k: Grant)
    requires GrantsUnique(rows) && k in rows
    ensures forall g :: g in rows && g.id == k.id ==> g == k
  {
  }

  /** A SET status on rows of other events is invisible to the stack of x. */
  lemma OtherStack(rows: seq<Grant>, p: Grant -> bool, status: GrantStatus, x: Id)
    requires forall i :: 0 <= i < |rows| && p(rows[i]) ==> rows[i].eventId != x
    ensures Where(Update(rows, p, SetStatus(status)), OnStack(x)) == Where(rows, OnStack(x))
  {
    WhereUpdateKept(rows, p, SetStatus(status), OnStack(x));
    var stack := Where(rows, OnStack(x));
    WhereMembers(rows, OnStack(x));
    forall i | 0 <= i < |stack| ensures !p(stack[i]) { assert stack[i] in stack; }
    WhereNone(stack, p);
    UpdateNone(stack, p, SetStatus(status));
  }

  lemma StackMembers(rows: seq<Grant>, e: Id)
    ensures forall g :: g in Stack(rows, e) <==> g in rows && g.eventId == e && !g.status.Revoked?
  {
    WhereMembers(rows, OnStack(e));
  }

  /** The active grant is the top of the stack and the superseded ones are the rest. */
  lemma TopIsActive(rows: seq<Grant>, e: Id)
    requires StatusOk(Stack(rows, e))
    ensures var stack := Stack(rows, e);
      && ActiveGrant(rows, e) == (if stack == [] then None else Some(stack[|stack| - 1]))
      && Where(rows, SupersededOf(e)) == if stack == [] then [] else stack[..|stack| - 1]
  {
    var stack := Stack(rows, e);
    WhereWhere(rows, ActiveOf(e), OnStack(e));
    WhereWhere(rows, SupersededOf(e), OnStack(e));
    StackMembers(rows, e);
    if stack != [] {
      var rest, top := stack[..|stack| - 1], stack[|stack| - 1];
      assert top in stack;
      WhereNone(rest, ActiveOf(e));
      assert forall i :: 0 <= i < |rest| ==> rest[i] == stack[i] && stack[i] in stack;
      AllMatch(rest, SupersededOf(e));
    }
  }

  lemma {:induction false} AllMatch(rows: seq<Grant>, p: Grant -> bool)
    requires forall i :: 0 <= i < |rows| ==> p(rows[i])
    ensures Where(rows, p) == rows
  {
    if rows != [] { AllMatch(rows[..|rows| - 1], p); }
  }

  // ---- Activation is a push ----

  /** What writing g over the top of a stack leaves. */
  ghost predicate Pushed(after: seq<Grant>, before: seq<Grant>, g: Grant) {
    && |after| == |before| + 1 && after[|before|] == g
    && forall i :: 0 <= i < |before| ==> after[i] == before[i].(status := Superseded)
  }

  lemma SupersedeTop(rows: seq<Grant>, e: Id)
    requires GrantsUnique(rows) && StatusOk(Stack(rows, e))
    ensures var after, before := Stack(Superseding(rows, ActiveGrant(rows, e)), e), Stack(rows, e);
      |after| == |before| && forall i :: 0 <= i < |before| ==> after[i] == before[i].(status := Superseded)
  {
    var stack, current := Stack(rows, e), ActiveGrant(rows, e);
    TopIsActive(rows, e);
    StackMembers(rows, e);
    if current.Some? {
      var p := ActiveById(current.value.id);
      assert stack[|stack| - 1] in stack;
      OnlyRow(rows, current.value);
      WhereUpdateKept(rows, p, SetStatus(Superseded), OnStack(e));
      UpdateAt(stack, p, SetStatus(Superseded));
    }
  }

  lemma SupersedeElsewhere(rows: seq<Grant>, e: Id, x: Id)
    requires GrantsUnique(rows) && x != e
    ensures Stack(Superseding(rows, ActiveGrant(rows, e)), x) == Stack(rows, x)
  {
    var current := ActiveGrant(rows, e);
    WhereMembers(rows, ActiveOf(e));
    if current.Some? {
      assert current.value in Where(rows, ActiveOf(e));
      OnlyRow(rows, current.value);
      OtherStack(rows, ActiveById(current.value.id), Superseded, x);
    }
  }

  lemma WriteElsewhere(s: Plans, g: Grant, reason: string, x: Id)
    requires GrantsUnique(s.grants) && x != g.eventId
    ensures Stack(WriteGrant(s, g, ActiveGrant(s.grants, g.eventId), reason).0.grants, x) == Stack(s.grants, x)
  {
    var rows := Superseding(s.grants, ActiveGrant(s.grants, g.eventId));
    WhereAppend(rows, [g], OnStack(x));
    Single(g, OnStack(x), SetStatus(Active));
    SupersedeElsewhere(s.grants, g.eventId, x);
  }

  /** A unique key admits one active row per event, so an active row is what the event is on. */
  lemma ActiveRow(rows: seq<Grant>, g: Grant)
    requires GrantsUnique(rows) && g in rows && g.status.Active?
    ensures ActiveGrant(rows, g.eventId) == Some(g)
  {
    WhereMembers(rows, ActiveOf(g.eventId));
    assert g in Where(rows, ActiveOf(g.eventId));
    OneActive(rows, g);
    assert Where(rows, ActiveOf(g.eventId))[0] in Where(rows, ActiveOf(g.eventId));
  }

  lemma WritePushes(s: Plans, g: Grant, reason: string, x: Id)
    requires GrantsUnique(s.grants) && StatusOk(Stack(s.grants, g.eventId)) && g.status.Active?
    ensures var (s', r) := WriteGrant(s, g, ActiveGrant(s.grants, g.eventId), reason);
      var after, before := Stack(s'.grants, x), Stack(s.grants, x);
      r.Granted? ==> if x == g.eventId then Pushed(after, before, g) else after == before
  {
    if x == g.eventId {
      WriteOwn(s.grants, g);
    } else {
      WriteElsewhere(s, g, reason, x);
    }
  }

  lemma WriteOwn(rows: seq<Grant>, g: Grant)
    requires GrantsUnique(rows) && StatusOk(Stack(rows, g.eventId)) && g.status.Active?
    ensures Pushed(Stack(Superseding(rows, ActiveGrant(rows, g.eventId)) + [g], g.eventId), Stack(rows, g.eventId), g)
  {
    var e := g.eventId;
    WhereAppend(Superseding(rows, ActiveGrant(rows, e)), [g], OnStack(e));
    Single(g, OnStack(e), SetStatus(Active));
    SupersedeTop(rows, e);
  }

  // ---- Revocation is a pop ----

  ghost predicate Popped(after: seq<Grant>, before: seq<Grant>) {
    && |after| == |before| - 1
    && forall i :: 0 <= i < |after| ==> after[i] == before[i].(status := if i == |after| - 1 then Active else Superseded)
  }

  /** In a stack the layer on top is the only one no other is newer than. */
  lemma NewestIsTop(reg: Registry, stack: seq<Grant>, n: nat, h: Grant)
    requires StackOk(reg, stack) && 0 < n <= |stack| && h in stack[..n]
    requires forall g :: g in stack[..n] ==> !LatestFirst()(g, h)
    ensures h == stack[n - 1]
  {
    var k :| 0 <= k < n && stack[..n][k] == h;
    assert stack[..n][n - 1] in stack[..n];
    assert k < n - 1 ==> Above(reg, stack[n - 1], stack[k]);
  }

  /** What Revoke restores is the layer under the top. */
  lemma RestoresUnderTop(reg: Registry, rows: seq<Grant>, e: Id)
    requires StackOk(reg, Stack(rows, e))
    ensures var stack := Stack(rows, e);
      LatestSuperseded(rows, e) == if |stack| < 2 then None else Some(stack[|stack| - 2])
  {
    var stack := Stack(rows, e);
    TopIsActive(rows, e);
    var rest := if stack == [] then [] else stack[..|stack| - 1];
    SortHead(rest, LatestFirst());
    if |stack| >= 2 { NewestIsTop(reg, stack, |stack| - 1, LatestSuperseded(rows, e).value); }
  }

  /** The two status updates of a revocation, seen from its own stack and from any other. */
  function Reinstate(rows: seq<Grant>, current: Grant, previous: Grant): seq<Grant> {
    Update(Update(rows, ById(current.id), SetStatus(Revoked)), ById(previous.id), SetStatus(Active))
  }

  lemma UpdatedRows(rows: seq<Grant>, k: Grant, status: GrantStatus)
    requires GrantsUnique(rows) && k in rows
    ensures forall g :: g in Update(rows, ById(k.id), SetStatus(status)) ==>
      if g.id == k.id then g == k.(status := status) else g in rows
    ensures forall g :: g in rows && g.id != k.id ==> g in Update(rows, ById(k.id), SetStatus(status))
  {
    OnlyRow(rows, k);
    UpdateAt(rows, ById(k.id), SetStatus(status));
    forall g | g in rows && g.id != k.id ensures g in Update(rows, ById(k.id), SetStatus(status)) {
      UpdateHas(rows, ById(k.id), SetStatus(status), g);
    }
  }

  lemma {:induction false} DeleteLast(rows: seq<Grant>, p: Grant -> bool)
    requires rows != [] && p(rows[|rows| - 1])
    requires forall i :: 0 <= i < |rows| - 1 ==> !p(rows[i])
    ensures Delete(rows, p) == rows[..|rows| - 1]
  {
    DeleteNone(rows[..|rows| - 1], p);
  }

  lemma RevokeTop(reg: Registry, rows: seq<Grant>, e: Id)
    requires GrantsUnique(rows) && StackOk(reg, Stack(rows, e)) && Stack(rows, e) != []
    ensures var stack := Stack(rows, e);
      Stack(Update(rows, ById(stack[|stack| - 1].id), SetStatus(Revoked)), e) == stack[..|stack| - 1]
  {
    var stack := Stack(rows, e);
    var current := stack[|stack| - 1];
    StackIds(rows, e);
    WhereUpdateDropped(rows, ById(current.id), SetStatus(Revoked), OnStack(e));
    DeleteLast(stack, ById(current.id));
  }

  lemma ReviveTop(rows: seq<Grant>, e: Id, k: Grant)
    requires forall g :: g in rows && g.id == k.id ==> g == k
    requires k in Stack(rows, e)
    ensures Stack(Update(rows, ById(k.id), SetStatus(Active)), e) == Update(Stack(rows, e), ById(k.id), SetStatus(Active))
  {
    StackMembers(rows, e);
    WhereUpdateKept(rows, ById(k.id), SetStatus(Active), OnStack(e));
  }

  lemma ReinstatePops(reg: Registry, rows: seq<Grant>, e: Id)
    requires GrantsUnique(rows) && StackOk(reg, Stack(rows, e)) && |Stack(rows, e)| >= 2
    ensures var stack := Stack(rows, e);
      Popped(Stack(Reinstate(rows, stack[|stack| - 1], stack[|stack| - 2]), e), stack)
  {
    var stack := Stack(rows, e);
    var n := |stack| - 1;
    var current, previous := stack[n], stack[n - 1];
    StackMembers(rows, e);
    assert current in stack && previous in stack;
    StackIds(rows, e);
    UpdatedRows(rows, current, Revoked);
    RevokeTop(reg, rows, e);
    OnlyRow(rows, previous);
    assert previous in stack[..n] by { assert stack[..n][n - 1] == previous; }
    ReviveTop(Update(rows, ById(current.id), SetStatus(Revoked)), e, previous);
    UpdateAt(stack[..n], ById(previous.id), SetStatus(Active));
  }

  lemma StackIds(rows: seq<Grant>, e: Id)
    requires GrantsUnique(rows)
    ensures var stack := Stack(rows, e); forall i, j :: 0 <= i < j < |stack| ==> stack[i].id != stack[j].id
  {
    var stack := Stack(rows, e);
    forall i, j | 0 <= i < j < |stack| ensures stack[i].id != stack[j].id {
      WhereSplits(rows, OnStack(e), i, j);
      var k, l :| 0 <= k < l < |rows| && rows[k] == stack[i] && rows[l] == stack[j];
      assert !SameGrantKey(rows[k], rows[l]);
    }
  }

  lemma ReinstateElsewhere(rows: seq<Grant>, current: Grant, previous: Grant, x: Id)
    requires GrantsUnique(rows) && current in rows && previous in rows
    requires current.eventId != x && previous.eventId != x
    ensures Stack(Reinstate(rows, current, previous), x) == Stack(rows, x)
  {
    OnlyRow(rows, current);
    OtherStack(rows, ById(current.id), Revoked, x);
    UpdatedRows(rows, current, Revoked);
    OnlyRow(rows, previous);
    var revoked := Update(rows, ById(current.id), SetStatus(Revoked));
    assert forall i :: 0 <= i < |revoked| ==> revoked[i] in revoked;
    OtherStack(revoked, ById(previous.id), Active, x);
  }

  // ---- The operations keep every stack in order ----

  /** A caller that names its own activation time names one after the current grant's. */
  predicate TimeAhead(rows: seq<Grant>, e: Id, at: Time) {
    ActiveGrant(rows, e).Some? ==> at > ActiveGrant(rows, e).value.activatedAt
  }

  lemma NewGrantIsAbove(cat: PlanCatalog, id: Id, e: Id, v: Version, licenceId: Option<Id>, source: Source,
                        reference: Option<Reference>, eventDate: Option<int>, at: Time, current: Option<Grant>)
    requires current.Some? ==> Honoured(current.value) && at > current.value.activatedAt
    requires CheckTransition(cat.reg, PlanOf(current), v.code) == Allowed
    ensures var g := NewGrant(id, e, v, licenceId, source, reference, eventDate, at, current);
      Honoured(g) && (current.Some? ==> Above(cat.reg, g, current.value))
  {
  }

  lemma PushEvent(reg: Registry, hot: HotLimits, after: seq<Grant>, before: seq<Grant>, g: Grant)
    requires StackOk(reg, before) && Pushed(after, before, g) && g.status.Active? && Honoured(g)
    requires before != [] ==> Above(reg, g, before[|before| - 1])
    ensures StackOk(reg, after) && HotOk(HotAfter(hot, g.limits), after)
  {
  }

  /** A step on event e alone keeps the invariant when it keeps it for e. */
  lemma OneEventChanged(cat: PlanCatalog, s: Plans, s': Plans, e: Id)
    requires Valid(cat, s) && e in s.events && e in s'.events && s'.events == s.events[e := s'.events[e]]
    requires EventOk(cat.reg, s'.events[e], Stack(s'.grants, e))
    requires forall x :: x != e ==> Stack(s'.grants, x) == Stack(s.grants, x)
    requires GrantsUnique(s'.grants) && forall o :: o in s'.grants ==> o.eventId in s'.events
    ensures Valid(cat, s')
  {
  }

  lemma WriteKeepsRows(s: Plans, g: Grant, reason: string)
    requires GrantsUnique(s.grants) && g.eventId in s.events
    requires forall o :: o in s.grants ==> o.eventId in s.events
    ensures var s' := WriteGrant(s, g, ActiveGrant(s.grants, g.eventId), reason).0;
      GrantsUnique(s'.grants) && forall o :: o in s'.grants ==> o.eventId in s'.events
  {
    var current := ActiveGrant(s.grants, g.eventId);
    if current.Some? { StatusKeepsEvents(s.grants, ActiveById(current.value.id), Superseded, s.events.Keys); }
  }

  lemma WriteEventOk(cat: PlanCatalog, s: Plans, g: Grant, reason: string)
    requires Valid(cat, s) && g.eventId in s.events && g.status.Active? && Honoured(g)
    requires var current := ActiveGrant(s.grants, g.eventId); current.Some? ==> Above(cat.reg, g, current.value)
    requires WriteGrant(s, g, ActiveGrant(s.grants, g.eventId), reason).1.Granted?
    ensures var e, s' := g.eventId, WriteGrant(s, g, ActiveGrant(s.grants, g.eventId), reason).0;
      && e in s'.events && s'.events == s.events[e := s'.events[e]]
      && EventOk(cat.reg, s'.events[e], Stack(s'.grants, e))
  {
    var e := g.eventId;
    assert EventOk(cat.reg, s.events[e], Stack(s.grants, e));
    TopIsActive(s.grants, e);
    WriteStacks(s, g, reason);
    PushEvent(cat.reg, s.events[e].hot, Stack(WriteGrant(s, g, ActiveGrant(s.grants, e), reason).0.grants, e), Stack(s.grants, e), g);
  }

  /** Writing a grant built on the current one pushes it and keeps everything in order. */
  lemma WriteKeepsValid(cat: PlanCatalog, s: Plans, g: Grant, reason: string)
    requires Valid(cat, s) && g.eventId in s.events && g.status.Active? && Honoured(g)
    requires var current := ActiveGrant(s.grants, g.eventId); current.Some? ==> Above(cat.reg, g, current.value)
    ensures Valid(cat, WriteGrant(s, g, ActiveGrant(s.grants, g.eventId), reason).0)
  {
    var (s', r) := WriteGrant(s, g, ActiveGrant(s.grants, g.eventId), reason);
    if r.Granted? {
      WriteKeepsRows(s, g, reason);
      assert EventOk(cat.reg, s.events[g.eventId], Stack(s.grants, g.eventId));
      WriteStacks(s, g, reason);
      WriteEventOk(cat, s, g, reason);
      OneEventChanged(cat, s, s', g.eventId);
    }
  }

  lemma StatusKeepsUnique(rows: seq<Grant>, k: Grant, status: GrantStatus)
    requires GrantsUnique(rows) && k in rows
    requires status.Active? ==> forall g :: g in rows && g.eventId == k.eventId ==> !g.status.Active?
    ensures GrantsUnique(Update(rows, ById(k.id), SetStatus(status)))
  {
    var updated := Update(rows, ById(k.id), SetStatus(status));
    OnlyRow(rows, k);
    UpdateAt(rows, ById(k.id), SetStatus(status));
    forall i, j | 0 <= i < j < |rows| ensures !SameGrantKey(updated[i], updated[j]) {
      assert !SameGrantKey(rows[i], rows[j]);
      assert rows[i] in rows && rows[j] in rows;
    }
  }

  lemma OneActive(rows: seq<Grant>, k: Grant)
    requires GrantsUnique(rows) && k in rows && k.status.Active?
    ensures forall g :: g in rows && g.eventId == k.eventId && g.status.Active? ==> g == k
  {
  }

  lemma ReinstateUnique(rows: seq<Grant>, current: Grant, previous: Grant)
    requires GrantsUnique(rows) && current in rows && previous in rows && current.id != previous.id
    requires current.status.Active? && current.eventId == previous.eventId
    ensures GrantsUnique(Update(rows, ById(current.id), SetStatus(Revoked)))
    ensures GrantsUnique(Reinstate(rows, current, previous))
  {
    var revoked := Update(rows, ById(current.id), SetStatus(Revoked));
    StatusKeepsUnique(rows, current, Revoked);
    UpdatedRows(rows, current, Revoked);
    OneActive(rows, current);
    StatusKeepsUnique(revoked, previous, Active);
  }

  lemma PopUnique(reg: Registry, rows: seq<Grant>, e: Id)
    requires GrantsUnique(rows) && StackOk(reg, Stack(rows, e)) && |Stack(rows, e)| >= 2
    ensures var stack := Stack(rows, e);
      var current, previous := stack[|stack| - 1], stack[|stack| - 2];
      && GrantsUnique(Update(rows, ById(current.id), SetStatus(Revoked)))
      && GrantsUnique(Reinstate(rows, current, previous))
  {
    var stack := Stack(rows, e);
    StackMembers(rows, e);
    assert stack[|stack| - 1] in stack && stack[|stack| - 2] in stack;
    StackIds(rows, e);
    ReinstateUnique(rows, stack[|stack| - 1], stack[|stack| - 2]);
  }

  /** Revoke succeeds exactly on two grants or more, and then the top is gone, the grant under it
      is active again, and no other event's stack has moved. */
  lemma RevokePops(cat: PlanCatalog, s: Plans, e: Id, reason: string, at: Time)
    requires e in s.events && GrantsUnique(s.grants) && StackOk(cat.reg, Stack(s.grants, e)) && reason != ""
    ensures var stack := Stack(s.grants, e);
      var (s', r) := Revoke(s, e, reason, at);
      if stack == [] then (s', r) == (s, Failed(NoActiveGrant))
      else if |stack| == 1 then (s', r) == (s, Failed(NothingToRestore))
      else
        && r == Restored(stack[|stack| - 1], stack[|stack| - 2].(status := Active))
        && Popped(Stack(s'.grants, e), stack)
        && s'.grants == Reinstate(s.grants, stack[|stack| - 1], stack[|stack| - 2])
  {
    TopIsActive(s.grants, e);
    RestoresUnderTop(cat.reg, s.grants, e);
    if |Stack(s.grants, e)| >= 2 { PopTop(cat.reg, s, e, reason, at); }
  }

  lemma PopTop(reg: Registry, s: Plans, e: Id, reason: string, at: Time)
    requires e in s.events && GrantsUnique(s.grants) && StackOk(reg, Stack(s.grants, e)) && reason != "" && |Stack(s.grants, e)| >= 2
    ensures var stack, (s', r) := Stack(s.grants, e), Revoke(s, e, reason, at);
      && r == Restored(stack[|stack| - 1], stack[|stack| - 2].(status := Active))
      && s'.grants == Reinstate(s.grants, stack[|stack| - 1], stack[|stack| - 2])
      && Popped(Stack(s'.grants, e), stack)
  {
    TopIsActive(s.grants, e);
    RestoresUnderTop(reg, s.grants, e);
    PopUnique(reg, s.grants, e);
    ReinstatePops(reg, s.grants, e);
  }

  lemma RevokeElsewhere(cat: PlanCatalog, s: Plans, e: Id, reason: string, at: Time)
    requires Valid(cat, s)
    ensures forall x :: x != e ==> Stack(Revoke(s, e, reason, at).0.grants, x) == Stack(s.grants, x)
  {
    var (s', r) := Revoke(s, e, reason, at);
    if r.Restored? {
      RevokePops(cat, s, e, reason, at);
      var stack := Stack(s.grants, e);
      StackMembers(s.grants, e);
      assert stack[|stack| - 1] in stack && stack[|stack| - 2] in stack;
      forall x | x != e ensures Stack(s'.grants, x) == Stack(s.grants, x) {
        ReinstateElsewhere(s.grants, stack[|stack| - 1], stack[|stack| - 2], x);
      }
    }
  }

  lemma StatusKeepsEvents(rows: seq<Grant>, p: Grant -> bool, status: GrantStatus, events: set<Id>)
    requires forall g :: g in rows ==> g.eventId in events
    ensures forall g :: g in Update(rows, p, SetStatus(status)) ==> g.eventId in events
  {
  }

  lemma ReinstateKeepsEvents(rows: seq<Grant>, current: Grant, previous: Grant, events: set<Id>)
    requires forall g :: g in rows ==> g.eventId in events
    ensures forall g :: g in Reinstate(rows, current, previous) ==> g.eventId in events
  {
    StatusKeepsEvents(rows, ById(current.id), Revoked, events);
    StatusKeepsEvents(Update(rows, ById(current.id), SetStatus(Revoked)), ById(previous.id), Active, events);
  }

  lemma RevokeWrites(s: Plans, e: Id, reason: string, at: Time)
    ensures var (s', r) := Revoke(s, e, reason, at);
      if r.Restored? then
        && e in s.events && LatestSuperseded(s.grants, e).Some?
        && s'.grants == Reinstate(s.grants, r.revoked, LatestSuperseded(s.grants, e).value)
        && s'.events == ApplyHotLimits(s.events, e, r.restored.limits)
        && GrantsUnique(s'.grants)
      else s' == s && r.Failed?
  {
  }

  lemma PopEvent(reg: Registry, hot: HotLimits, after: seq<Grant>, before: seq<Grant>)
    requires StackOk(reg, before) && Popped(after, before) && |before| >= 2
    ensures StackOk(reg, after) && HotOk(HotAfter(hot, before[|before| - 2].limits), after)
  {
  }

  lemma RevokeEventOk(cat: PlanCatalog, s: Plans, e: Id, reason: string, at: Time)
    requires Valid(cat, s) && Revoke(s, e, reason, at).1.Restored?
    ensures var s' := Revoke(s, e, reason, at).0;
      e in s'.events && EventOk(cat.reg, s'.events[e], Stack(s'.grants, e))
  {
    RevokeWrites(s, e, reason, at);
    RevokePops(cat, s, e, reason, at);
    PopEvent(cat.reg, s.events[e].hot, Stack(Revoke(s, e, reason, at).0.grants, e), Stack(s.grants, e));
  }

  lemma RevokeKeepsValid(cat: PlanCatalog, s: Plans, e: Id, reason: string, at: Time)
    requires Valid(cat, s)
    ensures Valid(cat, Revoke(s, e, reason, at).0)
  {
    var (s', r) := Revoke(s, e, reason, at);
    RevokeWrites(s, e, reason, at);
    if r.Restored? {
      RevokeEventOk(cat, s, e, reason, at);
      RevokeElsewhere(cat, s, e, reason, at);
      ReinstateKeepsEvents(s.grants, r.revoked, LatestSuperseded(s.grants, e).value, s.events.Keys);
      OneEventChanged(cat, s, s', e);
    }
  }

  lemma WriteStacks(s: Plans, g: Grant, reason: string)
    requires GrantsUnique(s.grants) && StatusOk(Stack(s.grants, g.eventId)) && g.status.Active?
    requires WriteGrant(s, g, ActiveGrant(s.grants, g.eventId), reason).1.Granted?
    ensures var s' := WriteGrant(s, g, ActiveGrant(s.grants, g.eventId), reason).0;
      && Pushed(Stack(s'.grants, g.eventId), Stack(s.grants, g.eventId), g)
      && forall x :: x != g.eventId ==> Stack(s'.grants, x) == Stack(s.grants, x)
  {
    forall x { WritePushes(s, g, reason, x); }
  }

  lemma ActivateWrites(cat: PlanCatalog, s: Plans, input: ActivateInput, id: Id, now: Time)
    ensures var (s', r) := Activate(cat, s, input, id, now);
      if r.Granted? then
        && input.eventId in s.events && r.grant.eventId == input.eventId && r.grant.status.Active?
        && r.grant.plan == input.target && r.grant.reference == Some(input.reference) && r.grant.id == id
        && r.grant.activatedAt == r.grant.createdAt == ActivationTime(input, now)
        && WriteGrant(s, r.grant, ActiveGrant(s.grants, input.eventId), input.reason) == (s', r)
      else s' == s && r.Failed?
  {
  }

  lemma ActivateOwn(cat: PlanCatalog, s: Plans, input: ActivateInput, id: Id, now: Time)
    requires GrantsUnique(s.grants) && StatusOk(Stack(s.grants, input.eventId)) && Activate(cat, s, input, id, now).1.Granted?
    ensures var (s', r) := Activate(cat, s, input, id, now);
      && r.grant.status.Active? && r.grant.activatedAt == r.grant.createdAt == ActivationTime(input, now)
      && GrantsUnique(s'.grants) && Pushed(Stack(s'.grants, input.eventId), Stack(s.grants, input.eventId), r.grant)
      && input.eventId in s'.events
  {
    ActivateWrites(cat, s, input, id, now);
    WritePushes(s, Activate(cat, s, input, id, now).1.grant, input.reason, input.eventId);
  }

  /** A successful activation is a push of the plan asked for, under its own reference. */
  lemma ActivatePushes(cat: PlanCatalog, s: Plans, input: ActivateInput, id: Id, now: Time)
    requires GrantsUnique(s.grants) && StatusOk(Stack(s.grants, input.eventId)) && Activate(cat, s, input, id, now).1.Granted?
    ensures var e := input.eventId;
      var (s', r) := Activate(cat, s, input, id, now);
      && e in s.events && r.grant.status.Active? && r.grant.plan == input.target && r.grant.reference == Some(input.reference)
      && Pushed(Stack(s'.grants, e), Stack(s.grants, e), r.grant)
      && forall x :: x != e ==> Stack(s'.grants, x) == Stack(s.grants, x)
  {
    ActivateWrites(cat, s, input, id, now);
    WriteStacks(s, Activate(cat, s, input, id, now).1.grant, input.reason);
  }

  lemma NewKeyFits(rows: seq<Grant>, e: Id, g: Grant)
    requires GrantsUnique(rows) && g.eventId == e && g.status.Active?
    requires forall o :: o in rows ==> o.id != g.id && (o.licenceId.None? || o.licenceId != g.licenceId)
    requires g.reference.Some? ==> forall o :: o in rows ==> !(o.source == g.source && o.reference == g.reference)
    ensures GrantsUnique(Superseding(rows, ActiveGrant(rows, e)) + [g])
  {
    var current := ActiveGrant(rows, e);
    var kept := Superseding(rows, current);
    WhereMembers(rows, ActiveOf(e));
    if current.Some? {
      var p := ActiveById(current.value.id);
      assert current.value in Where(rows, ActiveOf(e));
      OneActive(rows, current.value);
      UpdateAt(rows, p, SetStatus(Superseded));
    } else {
      assert forall o :: o in rows && o.eventId == e && o.status.Active? ==> o in Where(rows, ActiveOf(e));
    }
    forall i, j | 0 <= i < j < |rows| + 1 ensures !SameGrantKey((kept + [g])[i], (kept + [g])[j]) {
      assert rows[i] in rows;
      if j < |rows| { assert !SameGrantKey(rows[i], rows[j]); }
    }
  }

  /** What an activation under an id nobody has needs, exactly. */
  lemma ActivateGrantedIff(cat: PlanCatalog, s: Plans, input: ActivateInput, id: Id, now: Time)
    requires GrantsUnique(s.grants) && forall g :: g in s.grants ==> g.id != id
    ensures Activate(cat, s, input, id, now).1.Granted? <==>
      && ValidSource(input.source) && !input.source.SourceSystem? && input.reference != FreeText("")
      && ActiveVersion(cat, input.target).Some? && input.eventId in s.events
      && (forall g :: g in s.grants ==> !(g.source == input.source && g.reference == Some(input.reference)))
      && CheckTransition(cat.reg, PlanOf(ActiveGrant(s.grants, input.eventId)), input.target) == Allowed
  {
    var p := ReferenceRow(input.source, input.reference);
    WhereMembers(s.grants, p);
    assert Count(s.grants, p) > 0 ==> Where(s.grants, p)[0] in Where(s.grants, p);
    if input.eventId in s.events && ActiveVersion(cat, input.target).Some?
       && forall g :: g in s.grants ==> !(g.source == input.source && g.reference == Some(input.reference)) {
      var current := ActiveGrant(s.grants, input.eventId);
      NewKeyFits(s.grants, input.eventId,
                 NewGrant(id, input.eventId, ActiveVersion(cat, input.target).value, None, input.source, Some(input.reference),
                          s.events[input.eventId].eventDate, ActivationTime(input, now), current));
      assert forall g :: g in s.grants ==> g !in Where(s.grants, p);
    }
  }

  // ---- What a plan change writes, on the columns ----

  ghost predicate InForce(g: Grant, e: Id) { g.eventId == e && g.status == Active }

  /** The plan e is on, if any. */
  ghost predicate Before(rows: seq<Grant>, e: Id, plan: Option<PlanCode>) {
    && (plan.Some? ==> exists g :: g in rows && InForce(g, e) && g.plan == plan.value)
    && (plan.None? ==> forall g :: g in rows ==> !InForce(g, e))
  }

  /** What a grant takes from its plan's version: the version, its limits, and its days of uploads
      and storage, counted from the later of the activation and the day after the event, and ending
      no earlier than those of the grant in force. */
  ghost predicate OnTerms(g: Grant, rows: seq<Grant>, v: Version, eventDate: Option<int>) {
    var day := 24 * 60 * 60 * 1_000_000_000;
    var after := if eventDate.Some? then (eventDate.value + 1) * day else g.activatedAt;
    var ends := (if after > g.activatedAt then after else g.activatedAt) + v.limits.retentionDays * day;
    && g.plan == v.code && g.versionId == v.id && g.limits == v.limits && g.status == Active && g.createdAt == g.activatedAt
    && (forall o :: o in rows && InForce(o, g.eventId) ==>
         && g.uploadExpiresAt == (if o.uploadExpiresAt > ends then o.uploadExpiresAt else ends)
         && g.retentionExpiresAt == (if o.retentionExpiresAt > ends then o.retentionExpiresAt else ends))
    && ((forall o :: o in rows ==> !InForce(o, g.eventId)) ==> g.uploadExpiresAt == g.retentionExpiresAt == ends)
  }

  /** The limits an event has under a grant; one without a byte limit leaves that column alone. */
  ghost predicate HotColumns(hot: HotLimits, before: HotLimits, limits: Limits) {
    && hot.maxItems == limits.maxItems && hot.maxPhotos == limits.maxPhotos && hot.maxVideos == limits.maxVideos
    && hot.maxBytes == if limits.maxBytes > 0 then limits.maxBytes else before.maxBytes
  }

  /** The event takes the limits over, and no other event changes. */
  ghost predicate EventTakes(events: map<Id, EventPlan>, events': map<Id, EventPlan>, e: Id, limits: Limits) {
    && e in events && events'.Keys == events.Keys && (forall x :: x in events && x != e ==> events'[x] == events[x])
    && events'[e] == events[e].(hot := events'[e].hot) && HotColumns(events'[e].hot, events[e].hot, limits)
  }

  /** The grant in force is superseded, the new one inserted, the event's limits are its own, and one
      audit entry says what it replaced. */
  ghost predicate Written(s: Plans, s': Plans, g: Grant, reason: string) {
    && |s'.grants| == |s.grants| + 1 && s'.grants[|s.grants|] == g
    && (forall i :: 0 <= i < |s.grants| ==>
         s'.grants[i] == if InForce(s.grants[i], g.eventId) then s.grants[i].(status := Superseded) else s.grants[i])
    && EventTakes(s.events, s'.events, g.eventId, g.limits)
    && exists plan :: Before(s.grants, g.eventId, plan)
         && s'.audits == s.audits + [Audit(g.eventId, g.id, plan, g.plan, g.source, g.reference, reason, g.activatedAt)]
  }

  lemma InForceIs(rows: seq<Grant>, e: Id)
    requires GrantsUnique(rows)
    ensures var current := ActiveGrant(rows, e);
      && Before(rows, e, PlanOf(current))
      && forall g :: g in rows ==> (InForce(g, e) <==> current == Some(g))
  {
    WhereMembers(rows, ActiveOf(e));
    var active := Where(rows, ActiveOf(e));
    assert active != [] ==> active[0] in active;
    forall g | g in rows && InForce(g, e) ensures ActiveGrant(rows, e) == Some(g) { ActiveRow(rows, g); }
  }

  lemma SupersedesInForce(rows: seq<Grant>, e: Id)
    requires GrantsUnique(rows)
    ensures var rows' := Superseding(rows, ActiveGrant(rows, e));
      |rows'| == |rows| && forall i :: 0 <= i < |rows| ==>
        rows'[i] == if InForce(rows[i], e) then rows[i].(status := Superseded) else rows[i]
  {
    var current := ActiveGrant(rows, e);
    InForceIs(rows, e);
    if current.Some? {
      var p := ActiveById(current.value.id);
      UpdateAt(rows, p, SetStatus(Superseded));
      WhereMembers(rows, ActiveOf(e));
      assert current.value in Where(rows, ActiveOf(e));
      OnlyRow(rows, current.value);
      assert forall i :: 0 <= i < |rows| ==> rows[i] in rows;
    }
  }

  lemma WriteStatement(s: Plans, s': Plans, g: Grant, reason: string)
    requires GrantsUnique(s.grants) && g.eventId in s.events
    requires WriteGrant(s, g, ActiveGrant(s.grants, g.eventId), reason) == (s', Granted(g))
    ensures Written(s, s', g, reason)
  {
    SupersedesInForce(s.grants, g.eventId);
    InForceIs(s.grants, g.eventId);
  }

  lemma TimeAheadIff(rows: seq<Grant>, e: Id, at: Time)
    requires GrantsUnique(rows)
    ensures TimeAhead(rows, e, at) <==> forall g :: g in rows && InForce(g, e) ==> g.activatedAt < at
  {
    InForceIs(rows, e);
    var active := Where(rows, ActiveOf(e));
    WhereMembers(rows, ActiveOf(e));
    assert active != [] ==> active[0] in active;
  }

  lemma NewGrantTerms(rows: seq<Grant>, id: Id, e: Id, v: Version, licenceId: Option<Id>, source: Source,
                      reference: Option<Reference>, eventDate: Option<int>, at: Time)
    requires GrantsUnique(rows)
    ensures OnTerms(NewGrant(id, e, v, licenceId, source, reference, eventDate, at, ActiveGrant(rows, e)), rows, v, eventDate)
  {
    InForceIs(rows, e);
  }

  /** An activation is granted exactly for a plan on sale that is dearer than the one in force, by a
      source other than the system and under a reference never used; then its grant has the terms of
      that plan's active version, and nothing but the change of plan is written. */
  lemma ActivateStatement(cat: PlanCatalog, s: Plans, input: ActivateInput, id: Id, now: Time)
    requires GrantsUnique(s.grants) && forall g :: g in s.grants ==> g.id != id
    ensures var (s', r), e, to := Activate(cat, s, input, id, now), input.eventId, input.target;
      && (r.Granted? <==>
           && !input.source.OtherSource? && input.source != SourceSystem && input.reference != FreeText("")
           && OnSale(cat, to) && e in s.events
           && (forall g :: g in s.grants ==> !(g.source == input.source && g.reference == Some(input.reference)))
           && forall g :: g in s.grants && InForce(g, e) ==> MayMove(cat.reg, Some(g.plan), to))
      && (r.Granted? ==>
           && r.grant.id == id && r.grant.eventId == e && r.grant.licenceId == None
           && r.grant.source == input.source && r.grant.reference == Some(input.reference)
           && r.grant.activatedAt == (if input.activatedAt.Some? then input.activatedAt.value else now)
           && OnTerms(r.grant, s.grants, cat.versions[cat.active[to]], s.events[e].eventDate)
           && Written(s, s', r.grant, input.reason))
      && (!r.Granted? ==> s' == s)
  {
    InForceIs(s.grants, input.eventId);
    ActivateGrantedIff(cat, s, input, id, now);
    ActivateWrites(cat, s, input, id, now);
    var (s', r) := Activate(cat, s, input, id, now);
    if r.Granted? {
      NewGrantTerms(s.grants, id, input.eventId, ActiveVersion(cat, input.target).value, None, input.source,
                    Some(input.reference), s.events[input.eventId].eventDate, ActivationTime(input, now));
      WriteStatement(s, s', r.grant, input.reason);
    }
  }

  lemma ActivateAbove(cat: PlanCatalog, s: Plans, input: ActivateInput, id: Id, now: Time)
    requires TimeAhead(s.grants, input.eventId, ActivationTime(input, now))
    requires var current := ActiveGrant(s.grants, input.eventId); current.Some? ==> Honoured(current.value)
    ensures var r, current := Activate(cat, s, input, id, now).1, ActiveGrant(s.grants, input.eventId);
      r.Granted? ==> Honoured(r.grant) && (current.Some? ==> Above(cat.reg, r.grant, current.value))
  {
  }

  lemma TopHonoured(cat: PlanCatalog, s: Plans, e: Id)
    requires Valid(cat, s) && e in s.events
    ensures ActiveGrant(s.grants, e).Some? ==> Honoured(ActiveGrant(s.grants, e).value)
  {
    assert EventOk(cat.reg, s.events[e], Stack(s.grants, e));
    TopIsActive(s.grants, e);
  }

  lemma ActivateKeepsValid(cat: PlanCatalog, s: Plans, input: ActivateInput, id: Id, now: Time)
    requires Valid(cat, s) && TimeAhead(s.grants, input.eventId, ActivationTime(input, now))
    ensures Valid(cat, Activate(cat, s, input, id, now).0)
  {
    var (s', r) := Activate(cat, s, input, id, now);
    ActivateWrites(cat, s, input, id, now);
    if r.Granted? {
      TopHonoured(cat, s, input.eventId);
      ActivateAbove(cat, s, input, id, now);
      WriteKeepsValid(cat, s, r.grant, input.reason);
    }
  }

  lemma NoEventNoStack(cat: PlanCatalog, s: Plans, e: Id)
    requires Valid(cat, s) && e !in s.events
    ensures Stack(s.grants, e) == []
  {
    assert forall i :: 0 <= i < |s.grants| ==> s.grants[i] in s.grants;
    WhereNone(s.grants, OnStack(e));
  }

  lemma ProvisionWrites(cat: PlanCatalog, s: Plans, e: Id, row: EventPlan, id: Id, now: Time)
    ensures var (s', r) := Provision(cat, s, e, row, id, now);
      if r.Granted? then
        && e !in s.events && r.grant.eventId == e && r.grant.plan == FREE && r.grant.status.Active? && Honoured(r.grant)
        && WriteGrant(s.(events := s.events[e := row]), r.grant, None, "event created") == (s', r)
      else s' == s && r.Failed?
  {
  }

  lemma NewEventValid(cat: PlanCatalog, s: Plans, e: Id, row: EventPlan)
    requires Valid(cat, s) && e !in s.events
    ensures Valid(cat, s.(events := s.events[e := row])) && Stack(s.grants, e) == [] && ActiveGrant(s.grants, e).None?
  {
    NoEventNoStack(cat, s, e);
    TopIsActive(s.grants, e);
    EventAdded(cat, s, s.(events := s.events[e := row]), e);
  }

  lemma EventAdded(cat: PlanCatalog, s: Plans, s': Plans, e: Id)
    requires Valid(cat, s) && e !in s.events && e in s'.events && Stack(s.grants, e) == []
    requires s'.grants == s.grants && s'.events == s.events[e := s'.events[e]]
    ensures Valid(cat, s')
  {
  }

  /** A new event starts on the Free plan, and an event that cannot is not created. */
  lemma ProvisionStarts(cat: PlanCatalog, s: Plans, e: Id, row: EventPlan, id: Id, now: Time)
    requires Valid(cat, s)
    ensures var (s', r) := Provision(cat, s, e, row, id, now);
      && Valid(cat, s') && !r.Restored?
      && (r.Failed? ==> s' == s)
      && (r.Granted? ==> e !in s.events && Stack(s'.grants, e) == [r.grant] && r.grant.plan == FREE)
      && forall x :: x != e ==> Stack(s'.grants, x) == Stack(s.grants, x)
  {
    var (s', r) := Provision(cat, s, e, row, id, now);
    ProvisionWrites(cat, s, e, row, id, now);
    if r.Granted? {
      var s1 := s.(events := s.events[e := row]);
      NewEventValid(cat, s, e, row);
      WriteStacks(s1, r.grant, "event created");
      WriteKeepsValid(cat, s1, r.grant, "event created");
    }
  }

  /** An event is created exactly when the Free plan is on sale, and with a Free grant on its terms. */
  lemma ProvisionStatement(cat: PlanCatalog, s: Plans, e: Id, row: EventPlan, id: Id, now: Time)
    requires GrantsUnique(s.grants) && forall g :: g in s.grants ==> g.eventId in s.events && g.id != id
    ensures var (s', r) := Provision(cat, s, e, row, id, now);
      && (r.Granted? <==> OnSale(cat, "free") && e !in s.events)
      && (r.Granted? ==>
           && r.grant.id == id && r.grant.eventId == e && r.grant.licenceId == None
           && r.grant.source == SourceSystem && r.grant.reference == None && r.grant.activatedAt == now
           && OnTerms(r.grant, s.grants, cat.versions[cat.active["free"]], row.eventDate)
           && Written(s.(events := s.events[e := row]), s', r.grant, "event created"))
      && (!r.Granted? ==> s' == s)
  {
    InForceIs(s.grants, e);
    ProvisionWrites(cat, s, e, row, id, now);
    var (s', r) := Provision(cat, s, e, row, id, now);
    if OnSale(cat, FREE) && e !in s.events {
      assert ActiveGrant(s.grants, e) == None;
      var v := cat.versions[cat.active[FREE]];
      NewKeyFits(s.grants, e, NewGrant(id, e, v, None, SourceSystem, None, row.eventDate, now, None));
      NewGrantTerms(s.grants, id, e, v, None, SourceSystem, None, row.eventDate, now);
      WriteStatement(s.(events := s.events[e := row]), s', r.grant, "event created");
    }
  }

  /** Hot limits after a push and a pop. */
  lemma HotThereAndBack(hot: HotLimits, stack: seq<Grant>, limits: Limits)
    requires HotOk(hot, stack) && stack != []
    ensures var old_, back := stack[|stack| - 1].limits, HotAfter(HotAfter(hot, limits), stack[|stack| - 1].limits);
      && back == hot.(maxBytes := back.maxBytes)
      && (back.maxBytes == hot.maxBytes <==> old_.maxBytes > 0 || limits.maxBytes <= 0 || limits.maxBytes == hot.maxBytes)
  {
  }

  lemma PushPop(reg: Registry, after: seq<Grant>, during: seq<Grant>, before: seq<Grant>, g: Grant)
    requires StackOk(reg, before) && before != [] && Pushed(during, before, g) && Popped(after, during)
    ensures after == before
  {
  }

  /** Revoking the grant just written gives back the plan, expiry and item limits it replaced. The
      byte limit comes back too, except when the old plan names none and the new one named another. */
  ghost predicate Undone(before: Plans, g: Grant, after: Plans, r: PlanResult) {
    var e, stack := g.eventId, Stack(before.grants, g.eventId);
    && stack != [] && e in before.events && e in after.events
    && r == Restored(g, stack[|stack| - 1])
    && Stack(after.grants, e) == stack
    && after.events[e].hot == before.events[e].hot.(maxBytes := after.events[e].hot.maxBytes)
    && (after.events[e].hot.maxBytes == before.events[e].hot.maxBytes <==>
         stack[|stack| - 1].limits.maxBytes > 0 || g.limits.maxBytes <= 0 || g.limits.maxBytes == before.events[e].hot.maxBytes)
  }

  lemma RevokeUndoesWrite(cat: PlanCatalog, s: Plans, g: Grant, written: string, s1: Plans, reason: string, at: Time)
    requires Valid(cat, s) && Valid(cat, s1) && g.eventId in s.events && g.status.Active? && reason != ""
    requires WriteGrant(s, g, ActiveGrant(s.grants, g.eventId), written) == (s1, Granted(g)) && Stack(s.grants, g.eventId) != []
    ensures Undone(s, g, Revoke(s1, g.eventId, reason, at).0, Revoke(s1, g.eventId, reason, at).1)
  {
    var e, stack, s' := g.eventId, Stack(s.grants, g.eventId), Revoke(s1, g.eventId, reason, at).0;
    assert EventOk(cat.reg, s.events[e], stack) && EventOk(cat.reg, s1.events[e], Stack(s1.grants, e));
    WriteStacks(s, g, written);
    RevokePops(cat, s1, e, reason, at);
    RevokeWrites(s1, e, reason, at);
    PushPop(cat.reg, Stack(s'.grants, e), Stack(s1.grants, e), stack, g);
    HotThereAndBack(s.events[e].hot, stack, g.limits);
  }

  /** Activate, then revoke: the event is where it was. */
  lemma RevokeUndoesActivate(cat: PlanCatalog, s: Plans, input: ActivateInput, id: Id, now: Time, reason: string, at: Time)
    requires Valid(cat, s) && TimeAhead(s.grants, input.eventId, ActivationTime(input, now)) && reason != ""
    requires Activate(cat, s, input, id, now).1.Granted? && Stack(s.grants, input.eventId) != []
    ensures var (s1, r1) := Activate(cat, s, input, id, now);
      r1.grant.eventId == input.eventId
      && Undone(s, r1.grant, Revoke(s1, input.eventId, reason, at).0, Revoke(s1, input.eventId, reason, at).1)
  {
    var (s1, r1) := Activate(cat, s, input, id, now);
    ActivateWrites(cat, s, input, id, now);
    ActivateKeepsValid(cat, s, input, id, now);
    RevokeUndoesWrite(cat, s, r1.grant, input.reason, s1, reason, at);
  }

  // ---- An event that is on a plan stays on one ----

  ghost predicate OnPlan(s: Plans, e: Id) { ActiveGrant(s.grants, e).Some? }

  lemma WriteKeepsPlan(s: Plans, g: Grant, reason: string, x: Id)
    requires GrantsUnique(s.grants) && g.status.Active?
    requires WriteGrant(s, g, ActiveGrant(s.grants, g.eventId), reason).1.Granted?
    ensures var s' := WriteGrant(s, g, ActiveGrant(s.grants, g.eventId), reason).0;
      ActiveGrant(s'.grants, x) == if x == g.eventId then Some(g) else ActiveGrant(s.grants, x)
  {
    var s' := WriteGrant(s, g, ActiveGrant(s.grants, g.eventId), reason).0;
    if x == g.eventId {
      ActiveRow(s'.grants, g);
    } else {
      WriteElsewhere(s, g, reason, x);
      SameActive(s'.grants, s.grants, x);
    }
  }

  /** Whatever the dates, what Revoke restores is active afterwards. */
  lemma RevokeKeepsPlan(s: Plans, e: Id, reason: string, at: Time, x: Id)
    requires GrantsUnique(s.grants) && OnPlan(s, x)
    ensures OnPlan(Revoke(s, e, reason, at).0, x)
  {
    var (s', r) := Revoke(s, e, reason, at);
    RevokeWrites(s, e, reason, at);
    if r.Restored? {
      var current, previous := r.revoked, LatestSuperseded(s.grants, e).value;
      RevokedRows(s, e, reason, at);
      if x == e {
        UpdatedRows(s.grants, current, Revoked);
        var revoked := Update(s.grants, ById(current.id), SetStatus(Revoked));
        UpdateHas(revoked, ById(previous.id), SetStatus(Active), previous);
        ActiveRow(s'.grants, previous.(status := Active));
      } else {
        ReinstateElsewhere(s.grants, current, previous, x);
        SameActive(s'.grants, s.grants, x);
      }
    }
  }

  lemma RevokedRows(s: Plans, e: Id, reason: string, at: Time)
    requires GrantsUnique(s.grants) && Revoke(s, e, reason, at).1.Restored?
    ensures var current, previous := Revoke(s, e, reason, at).1.revoked, LatestSuperseded(s.grants, e);
      && current in s.grants && current.eventId == e
      && previous.Some? && previous.value in s.grants && previous.value.eventId == e && current.id != previous.value.id
  {
    var current := Revoke(s, e, reason, at).1.revoked;
    WhereMembers(s.grants, ActiveOf(e));
    WhereMembers(s.grants, SupersededOf(e));
    assert current in Where(s.grants, ActiveOf(e));
    SortHead(Where(s.grants, SupersededOf(e)), LatestFirst());
    OnlyRow(s.grants, current);
  }

  // ---- Activations dated before the plan they replace ----

  ghost predicate Newest(rows: seq<Grant>, g: Grant) {
    && g in rows
    && forall o :: o in rows ==>
         o.activatedAt <= g.activatedAt && (o.activatedAt == g.activatedAt ==> o.createdAt <= g.createdAt)
  }

  ghost predicate OnlyNewest(rows: seq<Grant>, id: Id) { forall g :: Newest(rows, g) ==> g.id == id }

  /** A superseded grant of e that no other one precedes: the rows ORDER BY ... LIMIT 1 may pick. */
  ghost predicate MayRestore(rows: seq<Grant>, e: Id, g: Grant) { Newest(Where(rows, SupersededOf(e)), g) }

  /** On the columns. */
  lemma MayRestoreIff(rows: seq<Grant>, e: Id, g: Grant)
    ensures MayRestore(rows, e, g) <==>
      && g in rows && g.eventId == e && g.status == Superseded
      && forall o :: o in rows && o.eventId == e && o.status == Superseded ==>
           o.activatedAt < g.activatedAt || (o.activatedAt == g.activatedAt && o.createdAt <= g.createdAt)
  {
    WhereMembers(rows, SupersededOf(e));
  }

  /** A revocation of e can bring back no other grant than this one. */
  ghost predicate OnlyRestores(rows: seq<Grant>, e: Id, id: Id) { OnlyNewest(Where(rows, SupersededOf(e)), id) }

  lemma RevokePicks(s: Plans, e: Id)
    ensures LatestSuperseded(s.grants, e).Some? ==> MayRestore(s.grants, e, LatestSuperseded(s.grants, e).value)
  {
    SortHead(Where(s.grants, SupersededOf(e)), LatestFirst());
  }

  /** The grant in force is revoked and the one before it is in force again, with its limits, and one
      audit entry says so. */
  ghost predicate TakenBack(s: Plans, s': Plans, revoked: Grant, restored: Grant, reason: string, at: Time) {
    var e := revoked.eventId;
    && |s'.grants| == |s.grants|
    && (forall i :: 0 <= i < |s.grants| ==>
         s'.grants[i] == if s.grants[i] == revoked then revoked.(status := Revoked)
                         else if s.grants[i] == restored then restored.(status := Active)
                         else s.grants[i])
    && EventTakes(s.events, s'.events, e, restored.limits)
    && s'.audits == s.audits
         + [Audit(e, restored.id, Some(revoked.plan), restored.plan, SourceManual, None, "revoked: " + reason, at)]
  }

  ghost predicate RevokeRefused(s: Plans, e: Id, reason: string, error: PlanError) {
    match error
    case ReasonRequired => reason == ""
    case EventNotFound => reason != "" && e !in s.events
    case NoActiveGrant => reason != "" && e in s.events && forall g :: g in s.grants ==> !InForce(g, e)
    case NothingToRestore =>
      && reason != "" && e in s.events && (exists g :: g in s.grants && InForce(g, e))
      && forall g :: g in s.grants ==> !(g.eventId == e && g.status == Superseded)
    case _ => false
  }

  lemma SupersededIs(rows: seq<Grant>, e: Id)
    ensures LatestSuperseded(rows, e).None? <==> forall g :: g in rows ==> !(g.eventId == e && g.status == Superseded)
    ensures LatestSuperseded(rows, e).Some? ==> MayRestore(rows, e, LatestSuperseded(rows, e).value)
  {
    var picked := Where(rows, SupersededOf(e));
    WhereMembers(rows, SupersededOf(e));
    SortHead(picked, LatestFirst());
    assert picked != [] ==> picked[0] in picked;
  }

  lemma ReinstatedRows(rows: seq<Grant>, current: Grant, previous: Grant)
    requires GrantsUnique(rows) && current in rows && previous in rows && current.id != previous.id
    ensures var rows' := Reinstate(rows, current, previous);
      |rows'| == |rows| && forall i :: 0 <= i < |rows| ==>
        rows'[i] == if rows[i] == current then current.(status := Revoked)
                    else if rows[i] == previous then previous.(status := Active) else rows[i]
  {
    var revoked := Update(rows, ById(current.id), SetStatus(Revoked));
    UpdateAt(rows, ById(current.id), SetStatus(Revoked));
    UpdateAt(revoked, ById(previous.id), SetStatus(Active));
    IdIsRow(rows, current);
    IdIsRow(rows, previous);
    forall i | 0 <= i < |rows|
      ensures Reinstate(rows, current, previous)[i] ==
        if rows[i] == current then current.(status := Revoked)
        else if rows[i] == previous then previous.(status := Active) else rows[i]
    {
      assert revoked[i].id == rows[i].id;
    }
  }

  lemma IdIsRow(rows: seq<Grant>, k: Grant)
    requires GrantsUnique(rows) && k in rows
    ensures forall i :: 0 <= i < |rows| ==> (rows[i].id == k.id <==> rows[i] == k)
  {
  }

  /** A revocation goes through exactly with a reason, a grant in force and a superseded one, and takes
      back the newest of those; each refusal has its own error and writes nothing. */
  lemma RevokeStatement(s: Plans, e: Id, reason: string, at: Time)
    requires GrantsUnique(s.grants)
    ensures var (s', r) := Revoke(s, e, reason, at);
      if r.Restored? then
        && reason != "" && e in s.events && r.revoked in s.grants && InForce(r.revoked, e)
        && exists g :: MayRestore(s.grants, e, g) && r.restored == g.(status := Active) && TakenBack(s, s', r.revoked, g, reason, at)
      else r.Failed? && s' == s && RevokeRefused(s, e, reason, r.error)
  {
    InForceIs(s.grants, e);
    SupersededIs(s.grants, e);
    RevokeWrites(s, e, reason, at);
    if reason != "" && e in s.events && ActiveGrant(s.grants, e).Some? && LatestSuperseded(s.grants, e).Some? {
      RestoresTwo(s, e, reason, at);
      RevokeTakesBack(s, e, reason, at);
    }
  }

  lemma RevokeTakesBack(s: Plans, e: Id, reason: string, at: Time)
    requires GrantsUnique(s.grants) && Revoke(s, e, reason, at).1.Restored?
    ensures var (s', r), previous := Revoke(s, e, reason, at), LatestSuperseded(s.grants, e);
      && previous.Some? && r.restored == previous.value.(status := Active)
      && TakenBack(s, s', r.revoked, previous.value, reason, at)
  {
    var r, previous := Revoke(s, e, reason, at).1, LatestSuperseded(s.grants, e);
    RevokedRows(s, e, reason, at);
    RevokeWrites(s, e, reason, at);
    ReinstatedRows(s.grants, r.revoked, previous.value);
  }

  /** One granted activation. */
  lemma PushedBy(cat: PlanCatalog, s: Plans, s': Plans, input: ActivateInput, g: Grant, now: Time)
    requires GrantsUnique(s.grants) && StatusOk(Stack(s.grants, input.eventId)) && Activate(cat, s, input, g.id, now) == (s', Granted(g))
    ensures GrantsUnique(s'.grants) && Pushed(Stack(s'.grants, input.eventId), Stack(s.grants, input.eventId), g)
    ensures g.status.Active? && g.activatedAt == g.createdAt == ActivationTime(input, now) && input.eventId in s'.events
    ensures StatusOk(Stack(s'.grants, input.eventId))
  {
    ActivateOwn(cat, s, input, g.id, now);
  }

  lemma PushedTwice(cat: PlanCatalog, s: Plans, s1: Plans, s2: Plans, a: ActivateInput, b: ActivateInput,
                    g: Grant, h: Grant, now: Time)
    requires GrantsUnique(s.grants) && StatusOk(Stack(s.grants, a.eventId)) && a.eventId == b.eventId
    requires Activate(cat, s, a, g.id, now) == (s1, Granted(g)) && Activate(cat, s1, b, h.id, now) == (s2, Granted(h))
    ensures var e := a.eventId;
      && Pushed(Stack(s1.grants, e), Stack(s.grants, e), g) && Pushed(Stack(s2.grants, e), Stack(s1.grants, e), h)
      && g.activatedAt == g.createdAt == ActivationTime(a, now) && h.status.Active?
      && GrantsUnique(s2.grants) && e in s2.events
      && forall i, j :: 0 <= i < j < |Stack(s1.grants, e)| ==> Stack(s1.grants, e)[i].id != Stack(s1.grants, e)[j].id
  {
    PushedBy(cat, s, s1, a, g, now);
    PushedBy(cat, s1, s2, b, h, now);
    StackIds(s1.grants, a.eventId);
  }

  /** Callers may date an activation themselves. Once another plan is on top of it, revoking that
      plan is sure to give the dated one back exactly when its date is after the plan it replaced;
      otherwise the older plan may come back in its place. */
  lemma RestoresLastPushedIff(cat: PlanCatalog, s: Plans, s1: Plans, s2: Plans, a: ActivateInput, b: ActivateInput,
                              g: Grant, h: Grant, now: Time)
    requires GrantsUnique(s.grants) && StackOk(cat.reg, Stack(s.grants, a.eventId)) && Stack(s.grants, a.eventId) != []
    requires a.eventId == b.eventId && Activate(cat, s, a, g.id, now) == (s1, Granted(g))
    requires Activate(cat, s1, b, h.id, now) == (s2, Granted(h))
    ensures var stack := Stack(s.grants, a.eventId);
      OnlyRestores(s2.grants, a.eventId, g.id) <==> ActivationTime(a, now) > stack[|stack| - 1].activatedAt
  {
    PushedTwice(cat, s, s1, s2, a, b, g, h, now);
    TwoPushes(cat.reg, s2.grants, a.eventId, Stack(s.grants, a.eventId), Stack(s1.grants, a.eventId), g, h);
  }

  lemma TwoPushes(reg: Registry, rows: seq<Grant>, e: Id, stack: seq<Grant>, stack1: seq<Grant>, g: Grant, h: Grant)
    requires StackOk(reg, stack) && stack != [] && g.createdAt == g.activatedAt && h.status.Active?
    requires Pushed(stack1, stack, g) && Pushed(Stack(rows, e), stack1, h)
    requires forall i, j :: 0 <= i < j < |stack1| ==> stack1[i].id != stack1[j].id
    ensures OnlyRestores(rows, e, g.id) <==> g.activatedAt > stack[|stack| - 1].activatedAt
  {
    var n := |stack|;
    TopIsActive(rows, e);
    Layers(Stack(rows, e), stack1, stack, g, h);
    assert stack1[n - 1].id != stack1[n].id;
    LatestOf(reg, stack, g, Stack(rows, e)[..n + 1]);
  }

  /** Two pushes leave the old stack superseded, and the first grant pushed with it. */
  lemma Layers(stack2: seq<Grant>, stack1: seq<Grant>, stack: seq<Grant>, g: Grant, h: Grant)
    requires Pushed(stack1, stack, g) && Pushed(stack2, stack1, h)
    ensures |stack2| == |stack| + 2 && stack2[|stack|] == g.(status := Superseded) && stack2[|stack| + 1] == h
    ensures forall i :: 0 <= i < |stack| ==> stack2[i] == stack[i].(status := Superseded)
  {
  }

  /** The newest of an ordered stack and one more grant. */
  lemma LatestOf(reg: Registry, stack: seq<Grant>, g: Grant, below: seq<Grant>)
    requires StackOk(reg, stack) && stack != [] && g.createdAt == g.activatedAt
    requires |below| == |stack| + 1 && below[|stack|] == g.(status := Superseded) && stack[|stack| - 1].id != g.id
    requires forall i :: 0 <= i < |stack| ==> below[i] == stack[i].(status := Superseded)
    ensures OnlyNewest(below, g.id) <==> g.activatedAt > stack[|stack| - 1].activatedAt
  {
    var n := |stack| - 1;
    var c, top := below[n], below[n + 1];
    assert c in below && top in below;
    forall i | 0 <= i < n ensures below[i].activatedAt < c.activatedAt {
      assert Above(reg, stack[n], stack[i]);
    }
    assert Honoured(stack[n]);
    if g.activatedAt > c.activatedAt {
      forall o | Newest(below, o) ensures o.id == g.id {
        assert !LatestFirst()(top, o);
      }
    } else {
      forall q | q in below ensures !LatestFirst()(q, c) {
        var k :| 0 <= k < |below| && below[k] == q;
        if k < n { assert below[k].activatedAt < c.activatedAt; }
      }
    }
  }

  /** An activation dated before the plan it replaced is passed over: revoking the plan on top of it
      goes back to the older one. */
  lemma BackdatedIsSkipped(cat: PlanCatalog, s: Plans, s1: Plans, s2: Plans, a: ActivateInput, b: ActivateInput,
                           g: Grant, h: Grant, now: Time, reason: string, at: Time)
    requires GrantsUnique(s.grants) && StackOk(cat.reg, Stack(s.grants, a.eventId)) && Stack(s.grants, a.eventId) != []
    requires a.eventId == b.eventId && Activate(cat, s, a, g.id, now) == (s1, Granted(g))
    requires Activate(cat, s1, b, h.id, now) == (s2, Granted(h)) && reason != ""
    requires var stack := Stack(s.grants, a.eventId); ActivationTime(a, now) < stack[|stack| - 1].activatedAt
    ensures var stack := Stack(s.grants, a.eventId);
      Revoke(s2, a.eventId, reason, at).1 == Restored(h, stack[|stack| - 1])
  {
    PushedTwice(cat, s, s1, s2, a, b, g, h, now);
    SkippedOnRevoke(cat.reg, s2, a.eventId, Stack(s.grants, a.eventId), Stack(s1.grants, a.eventId), g, h, reason, at);
  }

  lemma SkippedOnRevoke(reg: Registry, s: Plans, e: Id, stack: seq<Grant>, stack1: seq<Grant>, g: Grant, h: Grant,
                        reason: string, at: Time)
    requires StackOk(reg, stack) && stack != [] && h.status.Active? && g.activatedAt < stack[|stack| - 1].activatedAt
    requires Pushed(stack1, stack, g) && Pushed(Stack(s.grants, e), stack1, h)
    requires GrantsUnique(s.grants) && e in s.events && reason != ""
    ensures Revoke(s, e, reason, at).1 == Restored(h, stack[|stack| - 1])
  {
    SkipsTo(reg, s, e, stack, stack1, g, h);
    RestoresTwo(s, e, reason, at);
  }

  lemma SkipsTo(reg: Registry, s: Plans, e: Id, stack: seq<Grant>, stack1: seq<Grant>, g: Grant, h: Grant)
    requires StackOk(reg, stack) && stack != [] && h.status.Active? && g.activatedAt < stack[|stack| - 1].activatedAt
    requires Pushed(stack1, stack, g) && Pushed(Stack(s.grants, e), stack1, h)
    ensures ActiveGrant(s.grants, e) == Some(h)
    ensures LatestSuperseded(s.grants, e) == Some(stack[|stack| - 1].(status := Superseded))
  {
    var stack2 := Stack(s.grants, e);
    Layers(stack2, stack1, stack, g, h);
    TopIsActive(s.grants, e);
    var below := stack2[..|stack2| - 1];
    SortHead(below, LatestFirst());
    OlderNewest(reg, stack, g, below, LatestSuperseded(s.grants, e).value);
  }

  /** With an active grant and a superseded one, a revocation goes through. */
  lemma RestoresTwo(s: Plans, e: Id, reason: string, at: Time)
    requires GrantsUnique(s.grants) && reason != "" && e in s.events
    requires ActiveGrant(s.grants, e).Some? && LatestSuperseded(s.grants, e).Some?
    ensures Revoke(s, e, reason, at).1 ==
      Restored(ActiveGrant(s.grants, e).value, LatestSuperseded(s.grants, e).value.(status := Active))
  {
    var current, previous := ActiveGrant(s.grants, e).value, LatestSuperseded(s.grants, e).value;
    WhereMembers(s.grants, ActiveOf(e));
    WhereMembers(s.grants, SupersededOf(e));
    assert current in Where(s.grants, ActiveOf(e));
    SortHead(Where(s.grants, SupersededOf(e)), LatestFirst());
    OnlyRow(s.grants, current);
    ReinstateUnique(s.grants, current, previous);
  }

  lemma OlderNewest(reg: Registry, stack: seq<Grant>, g: Grant, below: seq<Grant>, o: Grant)
    requires StackOk(reg, stack) && stack != [] && |below| == |stack| + 1 && below[|stack|] == g.(status := Superseded)
    requires forall i :: 0 <= i < |stack| ==> below[i] == stack[i].(status := Superseded)
    requires g.activatedAt < stack[|stack| - 1].activatedAt && Newest(below, o)
    ensures o == below[|stack| - 1]
  {
    var n := |stack| - 1;
    assert below[n] in below;
    var k :| 0 <= k < |below| && below[k] == o;
    assert k < n ==> Above(reg, stack[n], stack[k]);
  }

  // ---- The audit trail ----

  function AuditFor(e: Id): Audit -> bool { (a: Audit) => a.eventId == e }

  /** Every entry starts from the plan the entry before it led to, and the last one led to plan. */
  ghost predicate Chained(trail: seq<Audit>, plan: Option<PlanCode>) {
    if trail == [] then plan.None?
    else
      var last := trail[|trail| - 1];
      plan == Some(last.target) && Chained(trail[..|trail| - 1], last.previous)
  }

  ghost predicate Audited(s: Plans) {
    && (forall a :: a in s.audits ==> a.eventId in s.events)
    && (forall e :: e in s.events ==> TrailOk(s, e))
  }

  ghost predicate TrailOk(s: Plans, e: Id) {
    Chained(Where(s.audits, AuditFor(e)), PlanOf(ActiveGrant(s.grants, e)))
  }

  lemma SameActive(rows: seq<Grant>, rows': seq<Grant>, e: Id)
    requires Stack(rows, e) == Stack(rows', e)
    ensures ActiveGrant(rows, e) == ActiveGrant(rows', e)
  {
    WhereWhere(rows, ActiveOf(e), OnStack(e));
    WhereWhere(rows', ActiveOf(e), OnStack(e));
  }

  lemma TrailGrows(audits: seq<Audit>, a: Audit, plan: Option<PlanCode>, x: Id)
    requires Chained(Where(audits, AuditFor(x)), plan)
    ensures x != a.eventId ==> Chained(Where(audits + [a], AuditFor(x)), plan)
    ensures x == a.eventId && a.previous == plan ==> Chained(Where(audits + [a], AuditFor(x)), Some(a.target))
  {
    var trail := Where(audits, AuditFor(x));
    WhereAppend(audits, [a], AuditFor(x));
    Single(a, AuditFor(x), (o: Audit) => o);
    assert x == a.eventId ==> (trail + [a])[..|trail|] == trail;
    assert trail + [] == trail;
  }

  /** A step that changes one event's stack and appends one entry from its old plan to its new one. */
  lemma OneEntryAudits(s: Plans, s': Plans, a: Audit)
    requires Audited(s) && s'.audits == s.audits + [a] && a.eventId in s.events && s'.events.Keys == s.events.Keys
    requires a.previous == PlanOf(ActiveGrant(s.grants, a.eventId))
    requires Some(a.target) == PlanOf(ActiveGrant(s'.grants, a.eventId))
    requires forall x :: x != a.eventId ==> Stack(s'.grants, x) == Stack(s.grants, x)
    ensures Audited(s')
  {
    forall x | x in s'.events ensures TrailOk(s', x) {
      assert TrailOk(s, x);
      TrailGrows(s.audits, a, PlanOf(ActiveGrant(s.grants, x)), x);
      if x != a.eventId { SameActive(s.grants, s'.grants, x); }
    }
  }

  lemma WriteAudits(s: Plans, g: Grant, reason: string)
    requires Audited(s) && GrantsUnique(s.grants) && StatusOk(Stack(s.grants, g.eventId)) && g.eventId in s.events
    requires g.status.Active?
    ensures Audited(WriteGrant(s, g, ActiveGrant(s.grants, g.eventId), reason).0)
  {
    var e, current := g.eventId, ActiveGrant(s.grants, g.eventId);
    var (s', r) := WriteGrant(s, g, current, reason);
    if r.Granted? {
      WriteStacks(s, g, reason);
      TopIsActive(s'.grants, e);
      OneEntryAudits(s, s', AuditOf(g, PlanOf(current), g.plan, reason));
    }
  }

  lemma RevokeAudits(cat: PlanCatalog, s: Plans, e: Id, reason: string, at: Time)
    requires Valid(cat, s) && Audited(s)
    ensures Audited(Revoke(s, e, reason, at).0)
  {
    RevokeWrites(s, e, reason, at);
    RevokeElsewhere(cat, s, e, reason, at);
    if Revoke(s, e, reason, at).1.Restored? {
      RevokeEntry(cat, s, e, reason, at);
      var a :| Entry(s, Revoke(s, e, reason, at).0, e, a);
      OneEntryAudits(s, Revoke(s, e, reason, at).0, a);
    }
  }

  /** s' has one more audit entry, for e, from its plan before to its plan after. */
  ghost predicate Entry(s: Plans, s': Plans, e: Id, a: Audit) {
    && s'.audits == s.audits + [a] && a.eventId == e && e in s.events && s'.events.Keys == s.events.Keys
    && a.previous == PlanOf(ActiveGrant(s.grants, e)) && Some(a.target) == PlanOf(ActiveGrant(s'.grants, e))
  }

  lemma RevokeEntry(cat: PlanCatalog, s: Plans, e: Id, reason: string, at: Time)
    requires Valid(cat, s) && Revoke(s, e, reason, at).1.Restored?
    ensures exists a :: Entry(s, Revoke(s, e, reason, at).0, e, a)
  {
    var s' := Revoke(s, e, reason, at).0;
    RevokeNotes(s, e, reason, at);
    RevokePops(cat, s, e, reason, at);
    RestoredIsActive(s'.grants, Stack(s.grants, e), e);
    RestoresUnderTop(cat.reg, s.grants, e);
    StackMembers(s.grants, e);
    assert Stack(s.grants, e)[|Stack(s.grants, e)| - 2] in Stack(s.grants, e);
    assert Entry(s, s', e, s'.audits[|s.audits|]);
  }

  lemma RevokeNotes(s: Plans, e: Id, reason: string, at: Time)
    requires Revoke(s, e, reason, at).1.Restored?
    ensures var s', previous := Revoke(s, e, reason, at).0, LatestSuperseded(s.grants, e);
      && previous.Some? && e in s.events && s'.events.Keys == s.events.Keys && |s'.audits| == |s.audits| + 1
      && var a := s'.audits[|s.audits|];
      s'.audits == s.audits + [a] && a.eventId == previous.value.eventId && a.target == previous.value.plan
      && a.previous == PlanOf(ActiveGrant(s.grants, e))
  {
  }

  lemma RestoredIsActive(rows: seq<Grant>, before: seq<Grant>, e: Id)
    requires Popped(Stack(rows, e), before) && |before| >= 2
    ensures PlanOf(ActiveGrant(rows, e)) == Some(before[|before| - 2].plan)
  {
    TopIsActive(rows, e);
  }
}
