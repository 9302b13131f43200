/** BackfillLegacy (internal/entitlement/grant_service.go) walks the candidate query of
    repository.go page by page while the events it upgrades drop out of that query. */
module Backfill {
  import opened Tables
  import opened Sorting
  import opened Catalog
  import opened Grants
  import opened Licences
  import opened EntitlementRepositories
  import MediaModel

  /** An event the backfill query lists: old enough, and on no plan or on Free. */
  predicate Candidate(s: Plans, cutoff: Time, e: Id) {
    && e in s.events && s.events[e].createdAt < cutoff
    && (ActiveGrant(s.grants, e).None? || ActiveGrant(s.grants, e).value.plan == FREE)
  }

  function Candidates(s: Plans, cutoff: Time, after: Id): set<Id> {
    set e | e in s.events && Candidate(s, cutoff, e) && e > after
  }

  datatype BackfillReport = BackfillReport(upgraded: nat, skipped: nat, failed: seq<Id>)

  datatype Verdict = Upgrade | Skip | Fail

  function Reference(e: Id): Grant -> bool { ReferenceRow(SourceMigration, LegacyBackfill(e)) }

  /** What becomes of one candidate, told from the tables before the run. A candidate is skipped
      exactly when an earlier run already granted it and that grant was taken back since. */
  function VerdictOn(cat: PlanCatalog, s: Plans, broken: set<Id>, e: Id): Verdict {
    if e in broken || ActiveVersion(cat, EXPERIENCE).None? then Fail
    else if Count(s.grants, Reference(e)) > 0 then Skip
    else if CheckTransition(cat.reg, PlanOf(ActiveGrant(s.grants, e)), EXPERIENCE) != Allowed then Fail
    else Upgrade
  }

  function Having(cat: PlanCatalog, s: Plans, broken: set<Id>, rows: set<Id>, v: Verdict): set<Id> {
    set e | e in rows && VerdictOn(cat, s, broken, e) == v
  }

  function BackfillInput(e: Id): ActivateInput {
    ActivateInput(e, EXPERIENCE, SourceMigration, LegacyBackfill(e),
                  "existing event moved to Experience before plan enforcement", None)
  }

  ghost predicate Unused(rows: seq<Grant>, id: Id) { forall g :: g in rows ==> g.id != id }

  lemma CountZero(rows: seq<Grant>, e: Id)
    ensures Count(rows, Reference(e)) == 0 <==>
      forall g :: g in rows ==> !(g.source == SourceMigration && g.reference == Some(LegacyBackfill(e)))
  {
    WhereMembers(rows, Reference(e));
    if Count(rows, Reference(e)) > 0 { assert Where(rows, Reference(e))[0] in Where(rows, Reference(e)); }
  }

  /** One activation of the backfill does what the verdict says. */
  lemma ActivateOne(cat: PlanCatalog, s: Plans, e: Id, id: Id, now: Time)
    requires GrantsUnique(s.grants) && e in s.events && Unused(s.grants, id)
    ensures var r := Activate(cat, s, BackfillInput(e), id, now).1;
      match VerdictOn(cat, s, {}, e)
      case Upgrade => r.Granted?
      case Skip => r == Failed(DuplicateReference)
      case Fail => r.Failed? && r.error != DuplicateReference && r.error != EventNotFound
  {
    if VerdictOn(cat, s, {}, e).Upgrade? {
      CountZero(s.grants, e);
      var v := ActiveVersion(cat, EXPERIENCE).value;
      NewKeyFits(s.grants, e, NewGrant(id, e, v, None, SourceMigration, Some(LegacyBackfill(e)), s.events[e].eventDate, now,
                                       ActiveGrant(s.grants, e)));
    }
  }

  // ---- On the columns ----

  /** The query lists the events created before the cutoff and past the cursor that are on no plan, or
      on Free. */
  lemma CandidateIff(s: Plans, cutoff: Time, after: Id, e: Id)
    requires GrantsUnique(s.grants)
    ensures e in Candidates(s, cutoff, after) <==>
      && e in s.events && e > after && s.events[e].createdAt < cutoff
      && forall g :: g in s.grants && InForce(g, e) ==> g.plan == "free"
  {
    InForceIs(s.grants, e);
  }

  ghost predicate Migrated(g: Grant, e: Id) { g.source == SourceMigration && g.reference == Some(LegacyBackfill(e)) }

  /** A candidate is upgraded exactly when its transaction works, Experience is on sale and dearer than
      what it is on, and no earlier run granted it; one an earlier run granted is skipped. */
  lemma VerdictStatement(cat: PlanCatalog, s: Plans, broken: set<Id>, e: Id)
    requires GrantsUnique(s.grants)
    ensures var v, ready := VerdictOn(cat, s, broken, e), e !in broken && OnSale(cat, "experience");
      && (v == Skip <==> ready && exists g :: g in s.grants && Migrated(g, e))
      && (v == Upgrade <==>
           && ready && (forall g :: g in s.grants ==> !Migrated(g, e))
           && forall g :: g in s.grants && InForce(g, e) ==> MayMove(cat.reg, Some(g.plan), "experience"))
  {
    InForceIs(s.grants, e);
    CountZero(s.grants, e);
  }

  /** An upgrade is a grant of Experience on its terms, under the event's own reference. */
  lemma UpgradeStatement(cat: PlanCatalog, s: Plans, e: Id, id: Id, now: Time)
    requires GrantsUnique(s.grants) && Unused(s.grants, id) && e in s.events && VerdictOn(cat, s, {}, e) == Upgrade
    ensures OnSale(cat, "experience")
    ensures var (s', r) := Activate(cat, s, BackfillInput(e), id, now);
      && r.Granted? && Migrated(r.grant, e) && r.grant.activatedAt == now
      && OnTerms(r.grant, s.grants, cat.versions[cat.active["experience"]], s.events[e].eventDate)
      && Written(s, s', r.grant, "existing event moved to Experience before plan enforcement")
  {
    ActivateOne(cat, s, e, id, now);
    ActivateStatement(cat, s, BackfillInput(e), id, now);
  }

  method BackfillCandidates(repo: EntitlementRepository, cutoff: Time, after: Id, limit: nat) returns (ids: seq<Id>)
    ensures ids == Limit(KeysInOrder(Candidates(repo.State().plans, cutoff, after)), limit)
  {
    ids := Limit(KeysInOrder(Candidates(Plans(repo.events, repo.grants, repo.audits), cutoff, after)), limit);
  }

  lemma PageFacts(rows: set<Id>, limit: nat)
    requires limit > 0
    ensures var ids := Limit(KeysInOrder(rows), limit);
      && (ids == [] <==> rows == {})
      && (forall i :: 0 <= i < |ids| ==> ids[i] in rows)
      && (forall i, j :: 0 <= i < j < |ids| ==> ids[i] < ids[j])
      && (ids != [] ==> forall e :: e in rows ==> e in ids || e > ids[|ids| - 1])
  {
    var all := KeysInOrder(rows);
    KeysAscending(rows);
    assert all != [] ==> all[0] in all;
    if rows != {} {
      var x :| x in rows;
      assert x in all;
    }
    PageTakesFirst(all, limit);
    var ids := Limit(all, limit);
    forall e | e in rows && ids != [] ensures e in ids || e > ids[|ids| - 1] { assert e in all; }
    forall i | 0 <= i < |ids| ensures ids[i] in rows { assert all[i] in all; }
  }

  lemma PageTakesFirst(all: seq<Id>, limit: nat)
    requires limit > 0 && forall i, j :: 0 <= i < j < |all| ==> all[i] < all[j]
    ensures var ids := Limit(all, limit);
      && |ids| <= |all| && (ids == [] <==> all == [])
      && (forall i :: 0 <= i < |ids| ==> ids[i] == all[i])
      && (ids != [] ==> forall e :: e in all ==> e in ids || e > ids[|ids| - 1])
  {
    var ids := Limit(all, limit);
    forall e | e in all && ids != [] ensures e in ids || e > ids[|ids| - 1] {
      var k :| 0 <= k < |all| && all[k] == e;
      if k < |ids| { assert ids[k] == e; }
    }
  }

  /** Where the walk stands: what the run has done to the tables it started from. */
  ghost predicate Walked(s0: Plans, s: Plans, upgraded: set<Id>, done: set<Id>, uuid: Id -> Id) {
    && GrantsUnique(s.grants) && s.events.Keys == s0.events.Keys && upgraded <= done
    && (forall e :: e in s0.events ==> s.events[e].createdAt == s0.events[e].createdAt)
    && (forall e :: e !in upgraded ==> Stack(s.grants, e) == Stack(s0.grants, e))
    && (forall e :: e in upgraded ==> PlanOf(ActiveGrant(s.grants, e)) == Some(EXPERIENCE))
    && (forall e :: e !in upgraded ==> Count(s.grants, Reference(e)) == Count(s0.grants, Reference(e)))
    && (forall e :: e !in done ==> Unused(s.grants, uuid(e)))
  }

  lemma SameVerdict(cat: PlanCatalog, s0: Plans, s: Plans, upgraded: set<Id>, done: set<Id>, uuid: Id -> Id, e: Id)
    requires Walked(s0, s, upgraded, done, uuid) && e !in upgraded
    ensures forall broken :: VerdictOn(cat, s, broken, e) == VerdictOn(cat, s0, broken, e)
    ensures forall cutoff :: Candidate(s, cutoff, e) == Candidate(s0, cutoff, e)
  {
    SameActive(s.grants, s0.grants, e);
  }

  lemma {:induction false} SameCount(after: seq<Grant>, before: seq<Grant>, e: Id)
    requires SameButStatus(after, before)
    ensures Count(after, Reference(e)) == Count(before, Reference(e))
  {
    if before != [] { SameCount(after[..|after| - 1], before[..|before| - 1], e); }
  }

  lemma RowsAfter(rows: seq<Grant>, kept: seq<Grant>, g: Grant, e: Id, id: Id)
    requires SameButStatus(kept, rows) && g.reference == Some(LegacyBackfill(e)) && g.id == id
    ensures forall x :: x != e ==> Count(kept + [g], Reference(x)) == Count(rows, Reference(x))
    ensures forall i :: i != id && Unused(rows, i) ==> Unused(kept + [g], i)
  {
    forall x | x != e ensures Count(kept + [g], Reference(x)) == Count(rows, Reference(x)) {
      SameCount(kept, rows, x);
      WhereAppend(kept, [g], Reference(x));
      Single(g, Reference(x), (o: Grant) => o);
    }
    forall i | i != id && Unused(rows, i) ensures Unused(kept + [g], i) {
      forall o | o in kept + [g] ensures o.id != i {
        if o in kept {
          var k :| 0 <= k < |kept| && kept[k] == o;
          assert rows[k] in rows;
        }
      }
    }
  }

  /** One activation as the walk sees it. */
  ghost predicate UpgradesOnly(s: Plans, s': Plans, e: Id, id: Id) {
    && GrantsUnique(s'.grants) && s'.events.Keys == s.events.Keys && (forall x :: x in s.events ==> s'.events[x].createdAt == s.events[x].createdAt)
    && (forall x :: x != e ==> Stack(s'.grants, x) == Stack(s.grants, x))
    && PlanOf(ActiveGrant(s'.grants, e)) == Some(EXPERIENCE)
    && (forall x :: x != e ==> Count(s'.grants, Reference(x)) == Count(s.grants, Reference(x)))
    && (forall i :: i != id && Unused(s.grants, i) ==> Unused(s'.grants, i))
  }

  lemma ActivateUpgrades(cat: PlanCatalog, s: Plans, e: Id, id: Id, now: Time)
    requires GrantsUnique(s.grants) && Activate(cat, s, BackfillInput(e), id, now).1.Granted?
    ensures UpgradesOnly(s, Activate(cat, s, BackfillInput(e), id, now).0, e, id)
  {
    var (s', r) := Activate(cat, s, BackfillInput(e), id, now);
    var current := ActiveGrant(s.grants, e);
    ActivateWrites(cat, s, BackfillInput(e), id, now);
    if current.Some? { StatusOnly(s.grants, ActiveById(current.value.id), Superseded); }
    RowsAfter(s.grants, Superseding(s.grants, current), r.grant, e, id);
    WriteKeepsPlan(s, r.grant, BackfillInput(e).reason, e);
    forall x | x != e { WriteElsewhere(s, r.grant, BackfillInput(e).reason, x); }
  }

  /** One more candidate upgraded. */
  lemma WalkUpgrades(s0: Plans, s: Plans, s': Plans, upgraded: set<Id>, done: set<Id>, uuid: Id -> Id, e: Id)
    requires Walked(s0, s, upgraded, done, uuid) && e !in done && UpgradesOnly(s, s', e, uuid(e))
    requires forall x, y :: x != y ==> uuid(x) != uuid(y)
    ensures Walked(s0, s', upgraded + {e}, done + {e}, uuid)
  {
    assert forall x :: x !in done + {e} ==> uuid(x) != uuid(e);
    forall x | x in upgraded + {e} ensures PlanOf(ActiveGrant(s'.grants, x)) == Some(EXPERIENCE) {
      if x != e { SameActive(s.grants, s'.grants, x); }
    }
  }

  // ---- The walk ----

  function Below(all: set<Id>, after: Id): set<Id> { set e | e in all && e <= after }

  ghost predicate Reports(r: BackfillReport, cat: PlanCatalog, s0: Plans, broken: set<Id>, done: set<Id>) {
    && r.upgraded == |Having(cat, s0, broken, done, Upgrade)|
    && r.skipped == |Having(cat, s0, broken, done, Skip)|
    && |r.failed| == |Having(cat, s0, broken, done, Fail)|
    && (forall e :: e in r.failed <==> e in Having(cat, s0, broken, done, Fail))
    && r.upgraded + r.skipped + |r.failed| == |done|
  }

  function Counted(r: BackfillReport, v: Verdict, e: Id): BackfillReport {
    match v
    case Upgrade => r.(upgraded := r.upgraded + 1)
    case Skip => r.(skipped := r.skipped + 1)
    case Fail => r.(failed := r.failed + [e])
  }

  lemma OneMore(cat: PlanCatalog, s0: Plans, broken: set<Id>, done: set<Id>, e: Id, v: Verdict)
    requires e !in done
    ensures var before, after := Having(cat, s0, broken, done, v), Having(cat, s0, broken, done + {e}, v);
      if VerdictOn(cat, s0, broken, e) == v then after == before + {e} && |after| == |before| + 1 else after == before
  {
    var before, after := Having(cat, s0, broken, done, v), Having(cat, s0, broken, done + {e}, v);
    assert after == before + if VerdictOn(cat, s0, broken, e) == v then {e} else {};
  }

  lemma CountOne(r: BackfillReport, cat: PlanCatalog, s0: Plans, broken: set<Id>, done: set<Id>, e: Id)
    requires Reports(r, cat, s0, broken, done) && e !in done
    ensures Reports(Counted(r, VerdictOn(cat, s0, broken, e), e), cat, s0, broken, done + {e})
  {
    OneMore(cat, s0, broken, done, e, Upgrade);
    OneMore(cat, s0, broken, done, e, Skip);
    OneMore(cat, s0, broken, done, e, Fail);
    assert |done + {e}| == |done| + 1;
  }

  /** The query still lists exactly the initial candidates past the cursor. */
  lemma StillListed(s0: Plans, s: Plans, upgraded: set<Id>, done: set<Id>, uuid: Id -> Id, cutoff: Time, after: Id)
    requires Walked(s0, s, upgraded, done, uuid)
    requires forall e :: e in done ==> e <= after
    ensures Candidates(s, cutoff, after) == set e | e in Candidates(s0, cutoff, MediaModel.NIL) && e > after
  {
    forall e | e > after ensures Candidate(s, cutoff, e) == Candidate(s0, cutoff, e) {
      SameActive(s.grants, s0.grants, e);
    }
  }

  /** Activate one candidate: what became of it, a failed transaction among it. */
  method ActivateCandidate(repo: EntitlementRepository, e: Id, broken: set<Id>, uuid: Id -> Id, now: Time,
                           ghost s0: Plans, ghost done: set<Id>)
    returns (v: Verdict)
    requires Walked(s0, repo.State().plans, Having(repo.cat, s0, broken, done, Upgrade), done, uuid)
    requires e !in done && e in s0.events
    requires forall x, y :: x != y ==> uuid(x) != uuid(y)
    modifies repo
    ensures v == VerdictOn(repo.cat, s0, broken, e)
    ensures Walked(s0, repo.State().plans, Having(repo.cat, s0, broken, done + {e}, Upgrade), done + {e}, uuid)
  {
    var cat := repo.cat;
    ghost var s, upgraded := repo.State().plans, Having(cat, s0, broken, done, Upgrade);
    SameVerdict(cat, s0, s, upgraded, done, uuid, e);
    OneMore(cat, s0, broken, done, e, Upgrade);
    if e in broken {
      return Fail;
    }
    ActivateOne(cat, s, e, uuid(e), now);
    assert VerdictOn(cat, s, {}, e) == VerdictOn(cat, s0, broken, e);
    var result := repo.Activate(BackfillInput(e), uuid(e), now);
    if result.Granted? {
      ActivateUpgrades(cat, s, e, uuid(e), now);
      WalkUpgrades(s0, s, repo.State().plans, upgraded, done, uuid, e);
      return Upgrade;
    }
    ActivateWrites(cat, s, BackfillInput(e), uuid(e), now);
    v := if result == Failed(DuplicateReference) || result == Failed(EventNotFound) then Skip else Fail;
  }

  /** Activate one candidate, and count it. */
  method BackfillEvent(repo: EntitlementRepository, e: Id, broken: set<Id>, uuid: Id -> Id, now: Time,
                       report: BackfillReport, ghost s0: Plans, ghost done: set<Id>)
    returns (r: BackfillReport)
    requires Walked(s0, repo.State().plans, Having(repo.cat, s0, broken, done, Upgrade), done, uuid)
    requires e !in done && e in s0.events && Reports(report, repo.cat, s0, broken, done)
    requires forall x, y :: x != y ==> uuid(x) != uuid(y)
    modifies repo
    ensures Walked(s0, repo.State().plans, Having(repo.cat, s0, broken, done + {e}, Upgrade), done + {e}, uuid)
    ensures Reports(r, repo.cat, s0, broken, done + {e})
  {
    CountOne(report, repo.cat, s0, broken, done, e);
    var v := ActivateCandidate(repo, e, broken, uuid, now, s0, done);
    match v
    case Upgrade => r := report.(upgraded := report.upgraded + 1);
    case Skip => r := report.(skipped := report.skipped + 1);
    case Fail => r := report.(failed := report.failed + [e]);
  }

  /** How far a run has come: what it reports and what it did, over the candidates it handled. */
  ghost predicate Progress(dryRun: bool, cat: PlanCatalog, b0: Books, b: Books, broken: set<Id>, done: set<Id>,
                           uuid: Id -> Id, report: BackfillReport) {
    if dryRun then b == b0 && report == BackfillReport(|done|, 0, [])
    else
      && Walked(b0.plans, b.plans, Having(cat, b0.plans, broken, done, Upgrade), done, uuid)
      && Reports(report, cat, b0.plans, broken, done)
  }

  lemma PageListed(dryRun: bool, cat: PlanCatalog, b0: Books, b: Books, broken: set<Id>, uuid: Id -> Id,
                   report: BackfillReport, cutoff: Time, after: Id)
    requires Progress(dryRun, cat, b0, b, broken, Below(Candidates(b0.plans, cutoff, MediaModel.NIL), after), uuid, report)
    ensures Candidates(b.plans, cutoff, after) == set e | e in Candidates(b0.plans, cutoff, MediaModel.NIL) && e > after
  {
    var done := Below(Candidates(b0.plans, cutoff, MediaModel.NIL), after);
    if !dryRun { StillListed(b0.plans, b.plans, Having(cat, b0.plans, broken, done, Upgrade), done, uuid, cutoff, after); }
  }

  /** Having handled a page, the run has handled everything up to its last event. */
  lemma PageDone(all: set<Id>, after: Id, ids: seq<Id>)
    requires ids != [] && forall i :: 0 <= i < |ids| ==> ids[i] in all && after < ids[i]
    requires forall i, j :: 0 <= i < j < |ids| ==> ids[i] < ids[j]
    requires forall e :: e in all && e > after ==> e in ids || e > ids[|ids| - 1]
    ensures Upto(all, after, ids) == Below(all, ids[|ids| - 1])
  {
  }

  function Upto(all: set<Id>, after: Id, ids: seq<Id>): set<Id> { Below(all, after) + set e | e in ids }

  lemma UptoNext(all: set<Id>, after: Id, ids: seq<Id>, i: nat)
    requires i < |ids| && after < ids[i] && forall j, k :: 0 <= j < k < |ids| ==> ids[j] < ids[k]
    ensures Upto(all, after, ids[..i + 1]) == Upto(all, after, ids[..i]) + {ids[i]}
    ensures ids[i] !in Upto(all, after, ids[..i])
  {
  }

  method BackfillOne(repo: EntitlementRepository, e: Id, dryRun: bool, broken: set<Id>, uuid: Id -> Id, now: Time,
                     report: BackfillReport, ghost b0: Books, ghost done: set<Id>)
    returns (r: BackfillReport)
    requires Progress(dryRun, repo.cat, b0, repo.State(), broken, done, uuid, report) && e !in done && e in b0.plans.events
    requires forall x, y :: x != y ==> uuid(x) != uuid(y)
    modifies repo
    ensures Progress(dryRun, repo.cat, b0, repo.State(), broken, done + {e}, uuid, r)
  {
    if dryRun {
      r := report.(upgraded := report.upgraded + 1);
    } else {
      r := BackfillEvent(repo, e, broken, uuid, now, report, b0.plans, done);
    }
  }

  /** One page of the walk. */
  method BackfillPage(repo: EntitlementRepository, ids: seq<Id>, dryRun: bool, broken: set<Id>, uuid: Id -> Id, now: Time,
                      report: BackfillReport, ghost b0: Books, ghost all: set<Id>, ghost after: Id)
    returns (r: BackfillReport)
    requires Progress(dryRun, repo.cat, b0, repo.State(), broken, Below(all, after), uuid, report)
    requires all <= b0.plans.events.Keys && forall i :: 0 <= i < |ids| ==> ids[i] in all && after < ids[i]
    requires forall i, j :: 0 <= i < j < |ids| ==> ids[i] < ids[j]
    requires forall x, y :: x != y ==> uuid(x) != uuid(y)
    modifies repo
    ensures Progress(dryRun, repo.cat, b0, repo.State(), broken, Upto(all, after, ids), uuid, r)
  {
    r := report;
    ghost var done := Below(all, after);
    for i := 0 to |ids|
      invariant done == Upto(all, after, ids[..i])
      invariant Progress(dryRun, repo.cat, b0, repo.State(), broken, done, uuid, r)
    {
      UptoNext(all, after, ids, i);
      r := BackfillOne(repo, ids[i], dryRun, broken, uuid, now, r, b0, done);
      done := done + {ids[i]};
    }
    assert ids[..|ids|] == ids;
  }

  /** The page behind the cursor: candidates past it in order, none of them only when all are done. */
  ghost predicate PageOf(all: set<Id>, after: Id, ids: seq<Id>) {
    if ids == [] then Below(all, after) == all
    else
      && (forall i :: 0 <= i < |ids| ==> ids[i] in all && after < ids[i])
      && (forall i, j :: 0 <= i < j < |ids| ==> ids[i] < ids[j])
      && Upto(all, after, ids) == Below(all, ids[|ids| - 1])
      && Below(all, after) < Below(all, ids[|ids| - 1])
  }

  lemma NextPage(all: set<Id>, rows: set<Id>, after: Id, limit: nat)
    requires limit > 0 && rows == set e | e in all && e > after
    ensures PageOf(all, after, Limit(KeysInOrder(rows), limit))
  {
    PageFacts(rows, limit);
    var ids := Limit(KeysInOrder(rows), limit);
    if ids == [] {
      assert forall e :: e in all && e > after ==> e in rows;
    } else {
      PageDone(all, after, ids);
      assert ids[|ids| - 1] in Below(all, ids[|ids| - 1]) - Below(all, after);
    }
  }

  lemma PageListedOf(dryRun: bool, cat: PlanCatalog, b0: Books, b: Books, broken: set<Id>, uuid: Id -> Id,
                     report: BackfillReport, cutoff: Time, after: Id, size: nat)
    requires Progress(dryRun, cat, b0, b, broken, Below(Candidates(b0.plans, cutoff, MediaModel.NIL), after), uuid, report) && size > 0
    ensures PageOf(Candidates(b0.plans, cutoff, MediaModel.NIL), after, Limit(KeysInOrder(Candidates(b.plans, cutoff, after)), size))
  {
    PageListed(dryRun, cat, b0, b, broken, uuid, report, cutoff, after);
    NextPage(Candidates(b0.plans, cutoff, MediaModel.NIL), Candidates(b.plans, cutoff, after), after, size);
  }

  /** Move the events created before cutoff that are on no plan or on Free to Experience. Every
      candidate is handled once although upgraded events leave the query mid-walk; a failing event
      stops nobody else; a dry run counts and writes nothing. */
  method BackfillLegacy(repo: EntitlementRepository, cutoff: Time, dryRun: bool, batch: int, broken: set<Id>,
                        uuid: Id -> Id, now: Time)
    returns (report: BackfillReport)
    requires GrantsUnique(repo.grants) && forall e :: Unused(repo.grants, uuid(e))
    requires forall x, y :: x != y ==> uuid(x) != uuid(y)
    modifies repo
    ensures Progress(dryRun, repo.cat, old(repo.State()), repo.State(), broken,
                     Candidates(old(repo.State().plans), cutoff, MediaModel.NIL), uuid, report)
  {
    var size := if batch < 1 then 200 else batch;
    ghost var b0 := repo.State();
    ghost var all := Candidates(b0.plans, cutoff, MediaModel.NIL);
    report := BackfillReport(0, 0, []);
    var after := MediaModel.NIL;
    assert Below(all, after) == {};
    while true
      invariant Progress(dryRun, repo.cat, b0, repo.State(), broken, Below(all, after), uuid, report)
      decreases all - Below(all, after)
    {
      var ids := BackfillCandidates(repo, cutoff, after, size);
      PageListedOf(dryRun, repo.cat, b0, repo.State(), broken, uuid, report, cutoff, after, size);
      if |ids| == 0 {
        break;
      }
      report := BackfillPage(repo, ids, dryRun, broken, uuid, now, report, b0, all, after);
      after := ids[|ids| - 1];
    }
  }

  /** What that leaves: the report adds up to the initial candidates, every upgraded one is on
      Experience, the others' grants are untouched, and a second run has only the others to list. */
  lemma BackfillOutcome(cat: PlanCatalog, b0: Books, b: Books, broken: set<Id>, cutoff: Time, uuid: Id -> Id, r: BackfillReport)
    requires Progress(false, cat, b0, b, broken, Candidates(b0.plans, cutoff, MediaModel.NIL), uuid, r)
    ensures var all := Candidates(b0.plans, cutoff, MediaModel.NIL);
      var upgraded := Having(cat, b0.plans, broken, all, Upgrade);
      && r.upgraded + r.skipped + |r.failed| == |all| && r.upgraded == |upgraded|
      && (forall e :: e in upgraded ==> PlanOf(ActiveGrant(b.plans.grants, e)) == Some(EXPERIENCE))
      && (forall e :: e !in upgraded ==> Stack(b.plans.grants, e) == Stack(b0.plans.grants, e))
      && Candidates(b.plans, cutoff, MediaModel.NIL) == all - upgraded
  {
    var all := Candidates(b0.plans, cutoff, MediaModel.NIL);
    var upgraded := Having(cat, b0.plans, broken, all, Upgrade);
    forall e | e in b0.plans.events && e !in upgraded ensures Candidate(b.plans, cutoff, e) == Candidate(b0.plans, cutoff, e) {
      SameActive(b.plans.grants, b0.plans.grants, e);
    }
    assert EXPERIENCE != FREE;
  }
}
