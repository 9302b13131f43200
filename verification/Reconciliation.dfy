/** What a reconciler run comes to (ReconcileUnapplied in internal/billing/service.go), told from the
    state before it, and which purchases no run ever gets to. */
module Reconciliation {
  import opened Tables
  import opened Sorting
  import opened Purchases
  import opened Catalog
  import G = Grants
  import L = Licences
  import opened Billing

  /** Rows of the table under their own keys, each once. */
  ghost predicate RowsUnder(s: Ledger, rows: seq<Purchase>) {
    && (forall i, j :: 0 <= i < j < |rows| ==> rows[i].id != rows[j].id)
    && forall p :: p in rows ==> Row(s, p)
  }

  // ---- The UnappliedSettled query ----

  /** ORDER BY settled_at ASC, and NULL comes last. */
  predicate SettledEarlier(a: Purchase, b: Purchase) {
    a.settlement.Some? && (b.settlement.None? || a.settlement.value.at < b.settlement.value.at)
  }

  function OldestSettlement(): (Purchase, Purchase) -> bool { (a: Purchase, b: Purchase) => SettledEarlier(a, b) }

  function ListLimit(limit: int): nat { if limit <= 0 then 50 else limit }

  function RowsOf(purchases: map<Id, Purchase>, keys: seq<Id>): seq<Purchase>
    requires forall k :: k in keys ==> k in purchases
  {
    if keys == [] then [] else RowsOf(purchases, keys[..|keys| - 1]) + [purchases[keys[|keys| - 1]]]
  }

  function Table(purchases: map<Id, Purchase>): seq<Purchase> {
    KeysAscending(purchases.Keys);
    RowsOf(purchases, KeysInOrder(purchases.Keys))
  }

  function Owed(purchases: map<Id, Purchase>, limit: int): seq<Purchase> {
    Limit(Sort(Where(Table(purchases), Unapplied()), OldestSettlement()), ListLimit(limit))
  }

  function OwedIds(purchases: map<Id, Purchase>): set<Id> { set id | id in purchases && Unapplied()(purchases[id]) }

  lemma {:induction false} RowsOfAt(purchases: map<Id, Purchase>, keys: seq<Id>)
    requires forall k :: k in keys ==> k in purchases
    ensures |RowsOf(purchases, keys)| == |keys|
    ensures forall i :: 0 <= i < |keys| ==> RowsOf(purchases, keys)[i] == purchases[keys[i]]
  {
    if keys != [] { RowsOfAt(purchases, keys[..|keys| - 1]); }
  }

  lemma KeyedRows(s: Ledger, keys: seq<Id>)
    requires forall id :: id in s.purchases ==> s.purchases[id].id == id
    requires (forall k :: k in keys ==> k in s.purchases) && forall i, j :: 0 <= i < j < |keys| ==> keys[i] != keys[j]
    ensures RowsUnder(s, RowsOf(s.purchases, keys)) && forall k :: k in keys ==> s.purchases[k] in RowsOf(s.purchases, keys)
  {
    var rows := RowsOf(s.purchases, keys);
    RowsOfAt(s.purchases, keys);
    forall i | 0 <= i < |keys| ensures Row(s, rows[i]) && rows[i].id == keys[i] { assert keys[i] in keys; }
    forall k | k in keys ensures s.purchases[k] in rows {
      var i :| 0 <= i < |keys| && keys[i] == k;
      assert rows[i] == s.purchases[k];
    }
  }

  lemma TableRows(s: Ledger)
    requires Valid(s)
    ensures RowsUnder(s, Table(s.purchases)) && forall id :: id in s.purchases ==> s.purchases[id] in Table(s.purchases)
  {
    KeysAscending(s.purchases.Keys);
    KeyedRows(s, KeysInOrder(s.purchases.Keys));
  }

  lemma UnderWhere(s: Ledger, rows: seq<Purchase>)
    requires RowsUnder(s, rows)
    ensures RowsUnder(s, Where(rows, Unapplied())) && forall p :: p in Where(rows, Unapplied()) ==> Unapplied()(p)
  {
    var owed := Where(rows, Unapplied());
    WhereMembers(rows, Unapplied());
    forall i, j | 0 <= i < j < |owed| ensures owed[i].id != owed[j].id { WhereSplits(rows, Unapplied(), i, j); }
  }

  lemma UnderSort(s: Ledger, rows: seq<Purchase>)
    requires RowsUnder(s, rows)
    ensures RowsUnder(s, Sort(rows, OldestSettlement()))
  {
    var sorted := Sort(rows, OldestSettlement());
    SettlementsWeak();
    SortNoRepeats(rows, OldestSettlement());
    SortMembers(rows, OldestSettlement());
    forall i, j | 0 <= i < j < |sorted| ensures sorted[i].id != sorted[j].id {
      assert sorted[i] in sorted && sorted[j] in sorted;
    }
  }

  lemma SettlementsWeak()
    ensures WeakOrder(OldestSettlement())
  {
  }

  /** What the query lists: owed purchases, each once, those settled longest ago, and none is left out
      while there is room. */
  lemma OwedRows(s: Ledger, limit: int)
    requires Valid(s)
    ensures var rows := Owed(s.purchases, limit);
      && RowsUnder(s, rows) && |rows| <= ListLimit(limit) && (forall p :: p in rows ==> Unapplied()(p))
      && forall id :: id in OwedIds(s.purchases) && s.purchases[id] !in rows ==>
           |rows| == ListLimit(limit) && forall p :: p in rows ==> !SettledEarlier(s.purchases[id], p)
  {
    var owed := Where(Table(s.purchases), Unapplied());
    TableRows(s);
    UnderWhere(s, Table(s.purchases));
    UnderSort(s, owed);
    SettlementsWeak();
    LimitTakesFirst(owed, OldestSettlement(), ListLimit(limit));
    WhereMembers(Table(s.purchases), Unapplied());
    TakenUnder(s, Sort(owed, OldestSettlement()), ListLimit(limit));
  }

  /** On the columns: the settled purchases without the mark, those settled longest ago, 50 of them or
      the number asked for. */
  lemma ListStatement(s: Ledger, limit: int)
    requires Valid(s)
    ensures var rows, n := Owed(s.purchases, limit), if limit <= 0 then 50 else limit;
      && |rows| <= n && (forall i, j :: 0 <= i < j < |rows| ==> rows[i].id != rows[j].id)
      && (forall p :: p in rows ==>
           Row(s, p) && p.status == PurchaseStatus.Settled && p.appliedAt == None && p.settlement.Some?)
      && (forall i, j :: 0 <= i < j < |rows| ==> rows[i].settlement.value.at <= rows[j].settlement.value.at)
      && forall p :: Row(s, p) && p.status == PurchaseStatus.Settled && p.appliedAt == None && p !in rows ==>
           |rows| == n && p.settlement.Some? && forall q :: q in rows ==> q.settlement.value.at <= p.settlement.value.at
  {
    OwedRows(s, limit);
    SettlementsWeak();
    SortOrdered(Where(Table(s.purchases), Unapplied()), OldestSettlement());
    var rows := Owed(s.purchases, limit);
    forall i, j | 0 <= i < j < |rows| ensures !SettledEarlier(rows[j], rows[i]) {
      assert !OldestSettlement()(rows[j], rows[i]);
    }
    forall p | Row(s, p) && Unapplied()(p) && p !in rows
      ensures |rows| == ListLimit(limit) && forall q :: q in rows ==> !SettledEarlier(p, q)
    {
      assert p.id in OwedIds(s.purchases);
    }
  }

  /** What a purchase needs of the plans, on the columns. */
  lemma ApplicableIff(cat: PlanCatalog, b: L.Books, p: Purchase)
    requires L.Linked(b)
    ensures Applicable(cat, b, p) <==> MayApply(cat, b, p)
  {
    G.InForceIs(b.plans.grants, p.eventId);
  }

  lemma TakenUnder(s: Ledger, rows: seq<Purchase>, n: nat)
    requires RowsUnder(s, rows)
    ensures RowsUnder(s, Limit(rows, n))
  {
    assert forall i :: 0 <= i < |Limit(rows, n)| ==> Limit(rows, n)[i] == rows[i] && rows[i] in rows;
  }

  /** With room for all of them, every owed purchase is on the list. */
  lemma AllListed(s: Ledger, limit: int)
    requires Valid(s) && |OwedIds(s.purchases)| <= ListLimit(limit)
    ensures forall id :: id in OwedIds(s.purchases) ==> s.purchases[id] in Owed(s.purchases, limit)
  {
    var rows := Owed(s.purchases, limit);
    OwedRows(s, limit);
    forall id | id in OwedIds(s.purchases) ensures s.purchases[id] in rows {
      if s.purchases[id] !in rows {
        IdsCounted(rows);
        var ids := set p | p in rows :: p.id;
        assert ids <= OwedIds(s.purchases) - {id};
        SubsetSize(ids, OwedIds(s.purchases) - {id});
      }
    }
  }

  lemma {:induction false} IdsCounted(rows: seq<Purchase>)
    requires forall i, j :: 0 <= i < j < |rows| ==> rows[i].id != rows[j].id
    ensures |set p | p in rows :: p.id| == |rows|
  {
    var ids := set p | p in rows :: p.id;
    if rows == [] {
      assert ids == {};
    } else {
      var rest, last := rows[..|rows| - 1], rows[|rows| - 1];
      var restIds := set p | p in rest :: p.id;
      IdsCounted(rest);
      assert rows == rest + [last];
      assert ids == restIds + {last.id};
      assert last.id !in restIds;
    }
  }

  // ---- Who is never reached ----

  ghost function EarlierOwed(s: Ledger, id: Id): set<Id>
    requires id in s.purchases
  {
    set t | t in OwedIds(s.purchases) && SettledEarlier(s.purchases[t], s.purchases[id])
  }

  lemma ListedIds(s: Ledger, limit: int)
    requires Valid(s)
    ensures var rows := Owed(s.purchases, limit); var ids := set p | p in rows :: p.id;
      |ids| == |rows| && ids <= OwedIds(s.purchases) && forall id :: id in s.purchases ==> (id in ids <==> s.purchases[id] in rows)
  {
    OwedRows(s, limit);
    IdsCounted(Owed(s.purchases, limit));
  }

  /** No owed purchase settled at the same instant as this one, so the order of the list is decided. */
  ghost predicate NoTies(s: Ledger, id: Id)
    requires id in s.purchases
  {
    forall t :: t in OwedIds(s.purchases) && t != id ==>
      SettledEarlier(s.purchases[t], s.purchases[id]) || SettledEarlier(s.purchases[id], s.purchases[t])
  }

  /** A purchase that was paid and not applied is retried exactly when its status is still the settled
      one and fewer than the limit of the owed ones were settled before it. */
  lemma RetriedIff(s: Ledger, limit: int, id: Id)
    requires Valid(s) && id in s.purchases && PostSettlement(s.purchases[id].status) && s.purchases[id].appliedAt.None?
    requires NoTies(s, id)
    ensures s.purchases[id] in Owed(s.purchases, limit) <==>
      s.purchases[id].status.Settled? && |EarlierOwed(s, id)| < ListLimit(limit)
  {
    if s.purchases[id] in Owed(s.purchases, limit) {
      ListedEarly(s, limit, id);
    } else if s.purchases[id].status.Settled? {
      UnlistedLate(s, limit, id);
    }
  }

  lemma ListedEarly(s: Ledger, limit: int, id: Id)
    requires Valid(s) && id in s.purchases && s.purchases[id] in Owed(s.purchases, limit) && NoTies(s, id)
    ensures s.purchases[id].status.Settled? && |EarlierOwed(s, id)| < ListLimit(limit)
  {
    OwedRows(s, limit);
    ListedIds(s, limit);
    SubsetSize(EarlierOwed(s, id) + {id}, set p | p in Owed(s.purchases, limit) :: p.id);
  }

  lemma UnlistedLate(s: Ledger, limit: int, id: Id)
    requires Valid(s) && id in s.purchases && Unapplied()(s.purchases[id]) && s.purchases[id] !in Owed(s.purchases, limit) && NoTies(s, id)
    ensures |EarlierOwed(s, id)| >= ListLimit(limit)
  {
    OwedRows(s, limit);
    ListedIds(s, limit);
    SubsetSize(set p | p in Owed(s.purchases, limit) :: p.id, EarlierOwed(s, id));
  }

  lemma Crowded(s: Ledger, limit: int, stuck: set<Id>, id: Id)
    requires Valid(s) && id in s.purchases && |stuck| >= ListLimit(limit) && stuck <= EarlierOwed(s, id)
    ensures s.purchases[id] !in Owed(s.purchases, limit)
  {
    var rows := Owed(s.purchases, limit);
    var ids := set p | p in rows :: p.id;
    OwedRows(s, limit);
    ListedIds(s, limit);
    if s.purchases[id] in rows { SubsetSize(stuck + {id}, ids); }
  }

  /** Owed purchases of events another purchase paid for are retried in vain for ever, and they keep
      their place. Once there are as many as the list holds, a purchase settled later is never
      retried, whatever runs and however often. */
  lemma NeverReached(cat: PlanCatalog, s: Ledger, steps: seq<Step>, s': Ledger, limit: int, stuck: set<Id>, paidBy: Id -> Id, id: Id)
    requires Valid(s) && GuardedRun(cat, s, steps) && s' == Run(cat, s, steps) && |stuck| >= ListLimit(limit)
    requires id in s.purchases && forall t :: t in stuck ==> SecondOn(s, t, paidBy(t)) && SettledEarlier(s.purchases[t], s.purchases[id])
    requires s.purchases[id].settlement.Some? && forall t :: t in stuck ==> t in s'.purchases && s'.purchases[t].status.Settled?
    ensures id in s'.purchases && s'.purchases[id] !in Owed(s'.purchases, limit)
  {
    PurchasesStayConsistent(cat, s, steps);
    forall t | t in stuck ensures t in EarlierOwed(s', id) { SecondPaidPurchaseStaysOwed(cat, s, steps, paidBy(t), t); }
    Crowded(s', limit, stuck, id);
  }

  /** A settled purchase of an event that another one, applied, has paid for. */
  ghost predicate SecondOn(s: Ledger, second: Id, first: Id) {
    && first in s.purchases && second in s.purchases && first != second && PostSettlement(s.purchases[second].status)
    && s.purchases[first].eventId == s.purchases[second].eventId && s.purchases[first].appliedAt.Some?
  }

  // ---- One run over the list ----

  /** The first n listed purchases, retried one after the other. */
  function Reconciled(cat: PlanCatalog, s: Ledger, rows: seq<Purchase>, worlds: Id -> World, n: nat): Ledger
    requires n <= |rows|
  {
    if n == 0 then s
    else
      var p := rows[n - 1];
      ApplyEntitlement(cat, Reconciled(cat, s, rows, worlds, n - 1), p, RetryTime(p, worlds(p.id)), worlds(p.id)).0
  }

  /** The purchase already has its licence, consumed for what it bought. */
  ghost predicate OwnLicence(cat: PlanCatalog, b: L.Books, p: Purchase) {
    && p.id in b.licences && p.versionId in cat.versions
    && var l := b.licences[p.id];
    l.accountId == p.hostId && l.versionId == p.versionId && l.consumedEventId == Some(p.eventId)
  }

  /** A retry of this purchase alone would go through. */
  ghost predicate Deliverable(cat: PlanCatalog, b: L.Books, p: Purchase) {
    if p.id in b.licences then OwnLicence(cat, b, p) else Applicable(cat, b, p)
  }

  /** ... and no purchase before it on the list takes its event. */
  ghost predicate FirstDeliverable(cat: PlanCatalog, b: L.Books, rows: seq<Purchase>, i: nat)
    requires i < |rows|
  {
    Deliverable(cat, b, rows[i]) && !Taken(cat, b, rows, i, rows[i].eventId)
  }

  ghost predicate Taken(cat: PlanCatalog, b: L.Books, rows: seq<Purchase>, n: nat, e: Id)
    requires n <= |rows|
  {
    exists j :: 0 <= j < n && rows[j].eventId == e && Deliverable(cat, b, rows[j])
  }

  /** The uuids the run draws are nobody else's, and each retry's its own. */
  ghost predicate FreshWorlds(b: L.Books, rows: seq<Purchase>, worlds: Id -> World) {
    && (forall i :: 0 <= i < |rows| && rows[i].id !in b.licences ==>
         L.Fresh(b, rows[i].id, worlds(rows[i].id).licenceId, worlds(rows[i].id).grantId))
    && forall i, j :: 0 <= i < j < |rows| ==> OtherIds(worlds(rows[i].id), worlds(rows[j].id))
  }

  ghost predicate OtherIds(x: World, y: World) { x.licenceId != y.licenceId && x.grantId != y.grantId }

  // ---- What one retry does to the plans ----

  /** Nothing a purchase of event e asks about has changed. */
  ghost predicate SameFor(b: L.Books, b': L.Books, e: Id) {
    && (e in b.plans.events <==> e in b'.plans.events)
    && (e in b.plans.events ==>
         b'.plans.events[e].removed == b.plans.events[e].removed && b'.plans.events[e].hostId == b.plans.events[e].hostId)
    && G.ActiveGrant(b'.plans.grants, e) == G.ActiveGrant(b.plans.grants, e)
    && (L.Unpaid(b'.licences, e) <==> L.Unpaid(b.licences, e))
  }

  lemma SameApplicable(cat: PlanCatalog, b: L.Books, b': L.Books, p: Purchase)
    requires SameFor(b, b', p.eventId)
    ensures Applicable(cat, b', p) <==> Applicable(cat, b, p)
  {
  }

  lemma SameForThen(a: L.Books, b: L.Books, c: L.Books, e: Id)
    requires SameFor(a, b, e) && SameFor(b, c, e)
    ensures SameFor(a, c, e)
  {
  }

  lemma ElsewhereSame(cat: PlanCatalog, b: L.Books, input: L.PurchaseInput, licenceId: Id, grantId: Id, now: Time, e: Id)
    requires L.Linked(b) && input.purchaseId !in b.licences && e != input.eventId
    ensures SameFor(b, L.ActivatePurchase(cat, b, input, licenceId, grantId, now).0, e)
  {
    var (b', r) := L.ActivatePurchase(cat, b, input, licenceId, grantId, now);
    L.PurchaseWrites(cat, b, input, licenceId, grantId, now);
    NotRepeated(cat, b, input, licenceId, grantId, now);
    if r.Applied? {
      var g := L.PaidGrant(cat, b, input, licenceId, grantId, now);
      G.WriteElsewhere(b.plans, g, "paid event package purchase", e);
      G.SameActive(b'.plans.grants, b.plans.grants, e);
      L.BoughtLicence(cat, b, input, licenceId, grantId, now);
      UnpaidElsewhere(b.licences, b'.licences, input.purchaseId, e);
    }
  }

  lemma UnpaidElsewhere(before: map<Id, L.Licence>, after: map<Id, L.Licence>, p: Id, e: Id)
    requires p !in before && p in after && after == before[p := after[p]] && after[p].consumedEventId != Some(e)
    ensures L.Unpaid(after, e) <==> L.Unpaid(before, e)
  {
    if L.Unpaid(after, e) {
      forall q | q in before ensures before[q].consumedEventId != Some(e) { assert after[q] == before[q]; }
    }
  }

  // ---- The walk over the list ----

  /** Where a run stands after its first n retries: the plans of every event it gave nothing to are as
      they were, and an event it gave something to is paid for. */
  ghost predicate Walked(cat: PlanCatalog, b0: L.Books, b: L.Books, rows: seq<Purchase>, worlds: Id -> World, n: nat)
    requires n <= |rows|
  {
    && L.Linked(b)
    && (forall e :: if Taken(cat, b0, rows, n, e) then !L.Unpaid(b.licences, e) else SameFor(b0, b, e))
    && (forall k :: n <= k < |rows| ==> SameLicence(b0, b, rows[k].id))
    && (forall k :: n <= k < |rows| && rows[k].id !in b.licences ==>
         L.Fresh(b, rows[k].id, worlds(rows[k].id).licenceId, worlds(rows[k].id).grantId))
  }

  ghost predicate SameLicence(b: L.Books, b': L.Books, id: Id) {
    (id in b.licences <==> id in b'.licences) && (id in b.licences ==> b'.licences[id] == b.licences[id])
  }

  /** At its turn a listed purchase is deliverable exactly when it was the first one of its event that
      was deliverable before the run. */
  lemma TurnIff(cat: PlanCatalog, b0: L.Books, b: L.Books, rows: seq<Purchase>, worlds: Id -> World, n: nat)
    requires L.Linked(b0) && n < |rows| && Walked(cat, b0, b, rows, worlds, n)
    requires forall i, j :: 0 <= i < j < |rows| ==> rows[i].id != rows[j].id
    ensures Deliverable(cat, b, rows[n]) <==> FirstDeliverable(cat, b0, rows, n)
  {
    var p := rows[n];
    assert SameLicence(b0, b, p.id);
    if p.id in b0.licences {
      if OwnLicence(cat, b0, p) { OwnKeepsOthersOut(cat, b0, rows, n); }
    } else if !Taken(cat, b0, rows, n, p.eventId) {
      SameApplicable(cat, b0, b, p);
    }
  }

  lemma OwnKeepsOthersOut(cat: PlanCatalog, b: L.Books, rows: seq<Purchase>, n: nat)
    requires L.Linked(b) && n < |rows| && OwnLicence(cat, b, rows[n])
    requires forall i, j :: 0 <= i < j < |rows| ==> rows[i].id != rows[j].id
    ensures !Taken(cat, b, rows, n, rows[n].eventId)
  {
    forall j | 0 <= j < n && rows[j].eventId == rows[n].eventId ensures !Deliverable(cat, b, rows[j]) {
      assert rows[j].id != rows[n].id;
    }
  }

  lemma TakenNext(cat: PlanCatalog, b: L.Books, rows: seq<Purchase>, n: nat, e: Id)
    requires n < |rows|
    ensures Taken(cat, b, rows, n + 1, e) <==>
      Taken(cat, b, rows, n, e) || (rows[n].eventId == e && Deliverable(cat, b, rows[n]))
  {
  }

  /** The books after the n-th retry. */
  function Turn(cat: PlanCatalog, b: L.Books, p: Purchase, x: World): L.Books { BooksAfter(cat, b, p, RetryTime(p, x), x) }

  lemma TurnEvent(cat: PlanCatalog, b0: L.Books, b: L.Books, rows: seq<Purchase>, worlds: Id -> World, n: nat, e: Id)
    requires L.Linked(b0) && n < |rows| && Walked(cat, b0, b, rows, worlds, n)
    requires forall i, j :: 0 <= i < j < |rows| ==> rows[i].id != rows[j].id
    ensures var b' := Turn(cat, b, rows[n], worlds(rows[n].id));
      if Taken(cat, b0, rows, n + 1, e) then !L.Unpaid(b'.licences, e) else SameFor(b0, b', e)
  {
    var p, x := rows[n], worlds(rows[n].id);
    var input, b' := LicenceInput(p, RetryTime(p, x)), Turn(cat, b, p, x);
    TakenNext(cat, b0, rows, n, e);
    TurnIff(cat, b0, b, rows, worlds, n);
    if p.id in b.licences {
      L.RepeatIsNoOp(cat, b, input, x.licenceId, x.grantId, x.now);
      if OwnLicence(cat, b, p) && e == p.eventId { assert !L.Unpaid(b.licences, e); }
    } else {
      L.PurchaseAppliesIff(cat, b, input, x.licenceId, x.grantId, x.now);
      L.PurchaseKeepsLicences(cat, b, input, x.licenceId, x.grantId, x.now);
      NotRepeated(cat, b, input, x.licenceId, x.grantId, x.now);
      TurnOwnEvent(cat, b, p, x);
      if e != p.eventId {
        ElsewhereSame(cat, b, input, x.licenceId, x.grantId, x.now, e);
        if !Taken(cat, b0, rows, n, e) { SameForThen(b0, b, b', e); }
      }
    }
  }

  /** On its own event a first retry either pays for the event or changes nothing at all. */
  lemma TurnOwnEvent(cat: PlanCatalog, b: L.Books, p: Purchase, x: World)
    requires L.Linked(b) && p.id !in b.licences && L.Fresh(b, p.id, x.licenceId, x.grantId)
    ensures if Applicable(cat, b, p) then !L.Unpaid(Turn(cat, b, p, x).licences, p.eventId) else Turn(cat, b, p, x) == b
  {
    var input := LicenceInput(p, RetryTime(p, x));
    L.PurchaseAppliesIff(cat, b, input, x.licenceId, x.grantId, x.now);
    NotRepeated(cat, b, input, x.licenceId, x.grantId, x.now);
    ActivatedLicence(cat, b, input, x.licenceId, x.grantId, x.now);
  }

  lemma TurnElsewhere(cat: PlanCatalog, b: L.Books, p: Purchase, x: World, q: Id, y: World)
    requires L.Linked(b) && q != p.id && OtherIds(x, y) && (p.id !in b.licences ==> L.Fresh(b, p.id, x.licenceId, x.grantId))
    ensures var b' := Turn(cat, b, p, x);
      && L.Linked(b') && SameLicence(b, b', q)
      && (L.Fresh(b, q, y.licenceId, y.grantId) ==> L.Fresh(b', q, y.licenceId, y.grantId))
  {
    var input := LicenceInput(p, RetryTime(p, x));
    L.PurchaseKeepsLinked(cat, b, input, x.licenceId, x.grantId, x.now);
    if p.id in b.licences {
      L.RepeatIsNoOp(cat, b, input, x.licenceId, x.grantId, x.now);
    } else {
      NotRepeated(cat, b, input, x.licenceId, x.grantId, x.now);
      if L.Fresh(b, q, y.licenceId, y.grantId) {
        L.FreshAfter(cat, b, input, x.licenceId, x.grantId, x.now, q, y.licenceId, y.grantId);
      }
    }
  }

  lemma SameLicenceThen(a: L.Books, b: L.Books, c: L.Books, id: Id)
    requires SameLicence(a, b, id) && SameLicence(b, c, id)
    ensures SameLicence(a, c, id)
  {
  }

  lemma WalkStep(cat: PlanCatalog, b0: L.Books, b: L.Books, rows: seq<Purchase>, worlds: Id -> World, n: nat)
    requires L.Linked(b0) && n < |rows| && Walked(cat, b0, b, rows, worlds, n) && FreshWorlds(b0, rows, worlds)
    requires forall i, j :: 0 <= i < j < |rows| ==> rows[i].id != rows[j].id
    ensures Walked(cat, b0, Turn(cat, b, rows[n], worlds(rows[n].id)), rows, worlds, n + 1)
  {
    var p, x := rows[n], worlds(rows[n].id);
    var b' := Turn(cat, b, p, x);
    L.PurchaseKeepsLinked(cat, b, LicenceInput(p, RetryTime(p, x)), x.licenceId, x.grantId, x.now);
    forall e { TurnEvent(cat, b0, b, rows, worlds, n, e); }
    forall k | n + 1 <= k < |rows|
      ensures SameLicence(b0, b', rows[k].id)
      ensures rows[k].id !in b'.licences ==> L.Fresh(b', rows[k].id, worlds(rows[k].id).licenceId, worlds(rows[k].id).grantId)
    {
      TurnElsewhere(cat, b, p, x, rows[k].id, worlds(rows[k].id));
      SameLicenceThen(b0, b, b', rows[k].id);
    }
  }

  /** A retry goes through exactly when the purchase is deliverable, and does to the plans what the
      activation does. */
  lemma RetryIff(cat: PlanCatalog, s: Ledger, p: Purchase, x: World)
    requires L.Linked(s.books) && p.appliedAt.None?
    requires p.id !in s.books.licences ==> L.Fresh(s.books, p.id, x.licenceId, x.grantId)
    ensures var (s', ok) := ApplyEntitlement(cat, s, p, RetryTime(p, x), x);
      s'.books == Turn(cat, s.books, p, x) && (ok <==> Deliverable(cat, s.books, p))
  {
    var input := LicenceInput(p, RetryTime(p, x));
    if p.id in s.books.licences {
      L.RepeatIsNoOp(cat, s.books, input, x.licenceId, x.grantId, x.now);
    } else {
      L.PurchaseAppliesIff(cat, s.books, input, x.licenceId, x.grantId, x.now);
      NotRepeated(cat, s.books, input, x.licenceId, x.grantId, x.now);
    }
  }

  lemma WalkBegins(cat: PlanCatalog, b: L.Books, rows: seq<Purchase>, worlds: Id -> World)
    requires L.Linked(b) && FreshWorlds(b, rows, worlds)
    ensures Walked(cat, b, b, rows, worlds, 0)
  {
  }

  ghost predicate Listing(rows: seq<Purchase>) {
    && (forall i, j :: 0 <= i < j < |rows| ==> rows[i].id != rows[j].id)
    && forall i :: 0 <= i < |rows| ==> rows[i].appliedAt.None?
  }

  lemma WalkRetry(cat: PlanCatalog, b0: L.Books, s: Ledger, s': Ledger, rows: seq<Purchase>, worlds: Id -> World, n: nat)
    requires L.Linked(b0) && n < |rows| && FreshWorlds(b0, rows, worlds) && Listing(rows) && Walked(cat, b0, s.books, rows, worlds, n)
    requires var p := rows[n]; s' == ApplyEntitlement(cat, s, p, RetryTime(p, worlds(p.id)), worlds(p.id)).0
    ensures Walked(cat, b0, s'.books, rows, worlds, n + 1)
  {
    RetryIff(cat, s, rows[n], worlds(rows[n].id));
    WalkStep(cat, b0, s.books, rows, worlds, n);
  }

  lemma {:induction false} WalkTo(cat: PlanCatalog, s: Ledger, rows: seq<Purchase>, worlds: Id -> World, n: nat)
    requires L.Linked(s.books) && n <= |rows| && FreshWorlds(s.books, rows, worlds) && Listing(rows)
    ensures Walked(cat, s.books, Reconciled(cat, s, rows, worlds, n).books, rows, worlds, n)
  {
    if n == 0 {
      WalkBegins(cat, s.books, rows, worlds);
    } else {
      WalkTo(cat, s, rows, worlds, n - 1);
      WalkNext(cat, s, rows, worlds, n - 1);
    }
  }

  lemma WalkNext(cat: PlanCatalog, s: Ledger, rows: seq<Purchase>, worlds: Id -> World, n: nat)
    requires L.Linked(s.books) && n < |rows| && FreshWorlds(s.books, rows, worlds) && Listing(rows)
    requires Walked(cat, s.books, Reconciled(cat, s, rows, worlds, n).books, rows, worlds, n)
    ensures Walked(cat, s.books, Reconciled(cat, s, rows, worlds, n + 1).books, rows, worlds, n + 1)
  {
    WalkRetry(cat, s.books, Reconciled(cat, s, rows, worlds, n), Reconciled(cat, s, rows, worlds, n + 1), rows, worlds, n);
  }

  /** The i-th retry succeeds. */
  ghost predicate Delivered(cat: PlanCatalog, s: Ledger, rows: seq<Purchase>, worlds: Id -> World, i: nat)
    requires i < |rows|
  {
    var p := rows[i];
    ApplyEntitlement(cat, Reconciled(cat, s, rows, worlds, i), p, RetryTime(p, worlds(p.id)), worlds(p.id)).1
  }

  /** Which of the listed purchases go through is told from the state before the run: of every event
      the first one on the list that is deliverable. */
  lemma ReconcileOutcome(cat: PlanCatalog, s: Ledger, rows: seq<Purchase>, worlds: Id -> World, i: nat)
    requires L.Linked(s.books) && i < |rows| && FreshWorlds(s.books, rows, worlds) && Listing(rows)
    ensures Delivered(cat, s, rows, worlds, i) <==> FirstDeliverable(cat, s.books, rows, i)
  {
    var s1 := Reconciled(cat, s, rows, worlds, i);
    WalkTo(cat, s, rows, worlds, i);
    TurnIff(cat, s.books, s1.books, rows, worlds, i);
    RetryIff(cat, s1, rows[i], worlds(rows[i].id));
  }

  // ---- What a run makes of every purchase ----

  /** An attempt to apply touches its own row only, and marks it when it succeeds and the mark is written. */
  lemma ApplyOwnRow(cat: PlanCatalog, s: Ledger, p: Purchase, at: Time, x: World)
    requires Row(s, p) && p.appliedAt.None? && !x.markFails
    ensures var (s', ok) := ApplyEntitlement(cat, s, p, at, x);
      p.id in s'.purchases && (s'.purchases[p.id].appliedAt.Some? <==> ok)
  {
  }

  lemma ApplyOtherRow(cat: PlanCatalog, s: Ledger, p: Purchase, at: Time, x: World, q: Id)
    requires q != p.id
    ensures var s' := ApplyEntitlement(cat, s, p, at, x).0;
      (q in s'.purchases <==> q in s.purchases) && (q in s.purchases ==> s'.purchases[q] == s.purchases[q])
  {
  }

  ghost predicate SameRow(s: Ledger, s': Ledger, q: Id) {
    (q in s'.purchases <==> q in s.purchases) && (q in s.purchases ==> s'.purchases[q] == s.purchases[q])
  }

  /** A row the first n retries do not name is as it was. */
  lemma {:induction false} ReconciledElsewhere(cat: PlanCatalog, s: Ledger, rows: seq<Purchase>, worlds: Id -> World, n: nat, q: Id)
    requires n <= |rows| && forall i :: 0 <= i < n ==> rows[i].id != q
    ensures SameRow(s, Reconciled(cat, s, rows, worlds, n), q)
  {
    if n > 0 {
      var p := rows[n - 1];
      ReconciledElsewhere(cat, s, rows, worlds, n - 1, q);
      ApplyOtherRow(cat, Reconciled(cat, s, rows, worlds, n - 1), p, RetryTime(p, worlds(p.id)), worlds(p.id), q);
    }
  }

  /** The i-th row is marked afterwards exactly when its retry succeeded. */
  lemma {:induction false} ReconciledAt(cat: PlanCatalog, s: Ledger, rows: seq<Purchase>, worlds: Id -> World, n: nat, i: nat)
    requires RowsUnder(s, rows) && Listing(rows) && i < n <= |rows| && !worlds(rows[i].id).markFails
    ensures MarkedIff(Reconciled(cat, s, rows, worlds, n), rows[i].id, Delivered(cat, s, rows, worlds, i))
  {
    var p := rows[n - 1];
    if n - 1 == i {
      assert p in rows && Row(s, p);
      ReconciledElsewhere(cat, s, rows, worlds, i, p.id);
      ApplyOwnRow(cat, Reconciled(cat, s, rows, worlds, i), p, RetryTime(p, worlds(p.id)), worlds(p.id));
    } else {
      ReconciledAt(cat, s, rows, worlds, n - 1, i);
      ApplyOtherRow(cat, Reconciled(cat, s, rows, worlds, n - 1), p, RetryTime(p, worlds(p.id)), worlds(p.id), rows[i].id);
    }
  }

  ghost predicate MarkedIff(s: Ledger, id: Id, delivered: bool) {
    id in s.purchases && (s.purchases[id].appliedAt.Some? <==> delivered)
  }

  /** The whole list is decided: no two owed purchases settled at the same instant. */
  ghost predicate NoTiesAtAll(s: Ledger) { forall id :: id in OwedIds(s.purchases) ==> NoTies(s, id) }

  lemma OwedAscending(s: Ledger, limit: int)
    requires Valid(s) && NoTiesAtAll(s)
    ensures Ascending(Owed(s.purchases, limit), OldestSettlement())
  {
    var owed := Where(Table(s.purchases), Unapplied());
    TableRows(s);
    UnderWhere(s, Table(s.purchases));
    SettlementsWeak();
    forall i, j | 0 <= i < j < |owed| ensures Comparable(owed[j], owed[i], OldestSettlement()) {
      assert owed[i] in owed && owed[j] in owed;
      assert NoTies(s, owed[i].id) && owed[j].id in OwedIds(s.purchases);
    }
    SortAscending(owed, OldestSettlement());
  }

  /** An owed purchase of the same event, settled earlier, whose own retry would go through. */
  ghost predicate Overtaken(cat: PlanCatalog, s: Ledger, id: Id)
    requires id in s.purchases
  {
    exists t :: t in EarlierOwed(s, id) && s.purchases[t].eventId == s.purchases[id].eventId && Deliverable(cat, s.books, s.purchases[t])
  }

  /** On the list, the purchases in front of a row are those of the owed ones settled before it. */
  lemma InFront(s: Ledger, limit: int, i: nat)
    requires Valid(s) && NoTiesAtAll(s) && i < |Owed(s.purchases, limit)|
    ensures var rows := Owed(s.purchases, limit);
      rows[i].id in s.purchases && forall t :: t in EarlierOwed(s, rows[i].id) <==> exists j :: 0 <= j < i && rows[j].id == t
  {
    var rows := Owed(s.purchases, limit);
    OwedRows(s, limit);
    OwedAscending(s, limit);
    assert rows[i] in rows;
    forall t ensures t in EarlierOwed(s, rows[i].id) <==> exists j :: 0 <= j < i && rows[j].id == t {
      if t in EarlierOwed(s, rows[i].id) {
        assert s.purchases[t] in rows;
        var j :| 0 <= j < |rows| && rows[j] == s.purchases[t];
        assert j < i;
      }
      if j :| 0 <= j < i && rows[j].id == t {
        assert rows[j] in rows && OldestSettlement()(rows[j], rows[i]);
      }
    }
  }

  lemma OvertakenIsTaken(cat: PlanCatalog, s: Ledger, limit: int, i: nat)
    requires Valid(s) && NoTiesAtAll(s) && i < |Owed(s.purchases, limit)|
    ensures var rows := Owed(s.purchases, limit);
      rows[i].id in s.purchases && (Overtaken(cat, s, rows[i].id) <==> Taken(cat, s.books, rows, i, rows[i].eventId))
  {
    var rows := Owed(s.purchases, limit);
    InFront(s, limit, i);
    OwedRows(s, limit);
    assert forall j :: 0 <= j <= i ==> rows[j] in rows && Row(s, rows[j]);
    if Overtaken(cat, s, rows[i].id) {
      var t :| t in EarlierOwed(s, rows[i].id) && s.purchases[t].eventId == s.purchases[rows[i].id].eventId
        && Deliverable(cat, s.books, s.purchases[t]);
      var j :| 0 <= j < i && rows[j].id == t;
      assert rows[j] == s.purchases[t];
    }
    if j :| 0 <= j < i && rows[j].eventId == rows[i].eventId && Deliverable(cat, s.books, rows[j]) {
      assert rows[j].id in EarlierOwed(s, rows[i].id);
    }
  }

  /** What the reconciler's promise comes to. A purchase that was paid and not applied is applied by a
      clean run exactly when its status is still the settled one, fewer than the limit of the owed ones
      were settled before it, its own retry would go through, and no older one of its event's would. */
  lemma AppliedIff(cat: PlanCatalog, s: Ledger, limit: int, worlds: Id -> World, id: Id)
    requires Valid(s) && id in s.purchases && PostSettlement(s.purchases[id].status) && s.purchases[id].appliedAt.None?
    requires NoTiesAtAll(s) && (s.purchases[id].status.Settled? ==> NoTies(s, id)) && forall q :: !worlds(q).markFails
    requires FreshWorlds(s.books, Owed(s.purchases, limit), worlds)
    ensures var rows := Owed(s.purchases, limit);
      var s', p := Reconciled(cat, s, rows, worlds, |rows|), s.purchases[id];
      && id in s'.purchases
      && (s'.purchases[id].appliedAt.Some? <==>
           p.status.Settled? && |EarlierOwed(s, id)| < ListLimit(limit) && Deliverable(cat, s.books, p) && !Overtaken(cat, s, id))
  {
    var rows := Owed(s.purchases, limit);
    OwedIsListing(s, limit);
    if s.purchases[id] in rows {
      var i :| 0 <= i < |rows| && rows[i] == s.purchases[id];
      IsListed(s, limit, id, i);
      ReconciledAt(cat, s, rows, worlds, |rows|, i);
      ReconcileOutcome(cat, s, rows, worlds, i);
      OvertakenIsTaken(cat, s, limit, i);
    } else {
      NotListed(s, limit, id);
      ReconciledElsewhere(cat, s, rows, worlds, |rows|, id);
    }
  }

  lemma OwedIsListing(s: Ledger, limit: int)
    requires Valid(s)
    ensures RowsUnder(s, Owed(s.purchases, limit)) && Listing(Owed(s.purchases, limit))
  {
    var rows := Owed(s.purchases, limit);
    OwedRows(s, limit);
    assert forall i :: 0 <= i < |rows| ==> rows[i] in rows && Unapplied()(rows[i]);
  }

  lemma IsListed(s: Ledger, limit: int, id: Id, i: nat)
    requires Valid(s) && id in s.purchases && i < |Owed(s.purchases, limit)| && Owed(s.purchases, limit)[i] == s.purchases[id]
    requires NoTiesAtAll(s)
    ensures s.purchases[id].id == id && s.purchases[id].status.Settled? && |EarlierOwed(s, id)| < ListLimit(limit)
  {
    var rows := Owed(s.purchases, limit);
    OwedRows(s, limit);
    assert rows[i] in rows && Unapplied()(rows[i]);
    RetriedIff(s, limit, id);
  }

  lemma NotListed(s: Ledger, limit: int, id: Id)
    requires Valid(s) && id in s.purchases && s.purchases[id] !in Owed(s.purchases, limit)
    requires PostSettlement(s.purchases[id].status) && s.purchases[id].appliedAt.None?
    requires s.purchases[id].status.Settled? ==> NoTies(s, id)
    ensures var rows := Owed(s.purchases, limit);
      && (forall i :: 0 <= i < |rows| ==> rows[i].id != id)
      && !(s.purchases[id].status.Settled? && |EarlierOwed(s, id)| < ListLimit(limit))
  {
    var rows := Owed(s.purchases, limit);
    OwedRows(s, limit);
    assert forall i :: 0 <= i < |rows| ==> rows[i] in rows && Row(s, rows[i]);
    if s.purchases[id].status.Settled? { RetriedIff(s, limit, id); }
  }

  // ---- Purchases reversed before they were applied ----

  /** Money was taken, some of it went back, and the plan was never given. */
  ghost predicate Forgotten(s: Ledger, id: Id) {
    id in s.purchases && var p := s.purchases[id]; PostSettlement(p.status) && !p.status.Settled? && p.appliedAt.None?
  }

  /** A notification that a dispute of this purchase was decided for the host. */
  ghost predicate Wins(step: Step, id: Id) { step.DeliverStep? && step.d.kind.DisputeReversed? && step.d.purchaseId == Some(id) }

  lemma HandleForgets(cat: PlanCatalog, s: Ledger, id: Id, p: Purchase, d: Delivery, x: World)
    requires Forgotten(s, id) && Row(s, p) && (p.id == id ==> !d.kind.DisputeReversed?) && s.purchases[id].id == id
    ensures Forgotten(Handle(cat, s, p, d, x).0, id)
  {
    match d.kind
    case PaymentSettled => SettlementForgets(cat, s, id, p, d, x);
    case PaymentRefunded => ReversalForgets(s, id, p, d, false, x);
    case PaymentDisputed => ReversalForgets(s, id, p, d, true, x);
    case _ =>
  }

  lemma ApplyForgets(cat: PlanCatalog, s: Ledger, id: Id, p: Purchase, at: Time, x: World)
    requires Forgotten(s, id) && p.id != id
    ensures Forgotten(ApplyEntitlement(cat, s, p, at, x).0, id)
  {
  }

  lemma SettlementForgets(cat: PlanCatalog, s: Ledger, id: Id, p: Purchase, d: Delivery, x: World)
    requires Forgotten(s, id) && Row(s, p)
    ensures Forgotten(HandleSettlement(cat, s, p, d, x).0, id)
  {
    if p.id != id {
      ApplyForgets(cat, s, id, p, OccurredAt(d, x), x);
      var paid := SettledRow(p, d, x.now);
      ApplyForgets(cat, Put(s, paid), id, paid, OccurredAt(d, x), x);
    }
  }

  lemma ReversalForgets(s: Ledger, id: Id, p: Purchase, d: Delivery, dispute: bool, x: World)
    requires Forgotten(s, id) && Row(s, p)
    ensures Forgotten(HandleReversal(s, p, d, dispute, x).0, id)
  {
  }

  lemma RouteForgets(cat: PlanCatalog, s: Ledger, id: Id, d: Delivery, x: World)
    requires Keyed(s) && Forgotten(s, id) && !(d.kind.DisputeReversed? && d.purchaseId == Some(id))
    ensures Forgotten(Route(cat, s, d, x).0, id)
  {
    if d.purchaseId.Some? && d.purchaseId.value in s.purchases {
      HandleForgets(cat, s, id, s.purchases[d.purchaseId.value], d, x);
    }
  }

  lemma DeliverForgets(cat: PlanCatalog, s: Ledger, id: Id, d: Delivery, x: World)
    requires Keyed(s) && Forgotten(s, id) && !Wins(DeliverStep(d, x), id)
    ensures Forgotten(HandleProviderEvent(cat, s, d, x).0, id)
  {
    RouteForgets(cat, Claimed(s, d.key), id, d, x);
  }

  lemma StepForgets(cat: PlanCatalog, s: Ledger, id: Id, step: Step)
    requires Valid(s) && Guarded(s, step) && Forgotten(s, id) && !Wins(step, id)
    ensures Forgotten(Next(cat, s, step), id)
  {
    match step
    case DeliverStep(d, x) => DeliverForgets(cat, s, id, d, x);
    case ReconcileStep(q, x) =>
      if q in s.purchases && Unapplied()(s.purchases[q]) {
        ApplyForgets(cat, s, id, s.purchases[q], RetryTime(s.purchases[q], x), x);
      }
    case _ =>
  }

  /** A purchase some of whose money went back before its plan was given is never given it, whatever is
      delivered again and however often the reconciler runs, unless a dispute of it is decided for the
      host. */
  lemma {:induction false} ReversedIsForgotten(cat: PlanCatalog, s: Ledger, steps: seq<Step>, id: Id)
    requires Valid(s) && GuardedRun(cat, s, steps) && Forgotten(s, id)
    requires forall i :: 0 <= i < |steps| ==> !Wins(steps[i], id)
    ensures Forgotten(Run(cat, s, steps), id)
    decreases |steps|
  {
    if steps != [] {
      StepForgets(cat, s, id, steps[0]);
      NextKeepsValid(cat, s, steps[0]);
      ReversedIsForgotten(cat, Next(cat, s, steps[0]), steps[1..], id);
    }
  }

  lemma ForgottenNotListed(s: Ledger, id: Id, limit: int)
    requires Valid(s) && Forgotten(s, id)
    ensures s.purchases[id] !in Owed(s.purchases, limit)
  {
    OwedRows(s, limit);
  }

  /** A partial refund of an owed purchase does that: the purchase stays paid, but no list holds it
      and its payment notification does nothing any more. */
  lemma PartialRefundForgets(cat: PlanCatalog, s: Ledger, p: Purchase, d: Delivery, x: World, e: Delivery, y: World, limit: int)
    requires Valid(s) && Row(s, p) && Unapplied()(p) && Total(p) > 0
    requires p.refunded + Effective(d.amount, Total(p)) < Total(p)
    ensures var s' := HandleReversal(s, p, d, false, x).0;
      && Forgotten(s', p.id) && Paid(s'.purchases[p.id].status)
      && s'.purchases[p.id] !in Owed(s'.purchases, limit)
      && HandleSettlement(cat, s', s'.purchases[p.id], e, y) == (s', true)
  {
    var s' := HandleReversal(s, p, d, false, x).0;
    ReversalKeeps(s, p, d, false, x);
    ForgottenNotListed(s', p.id, limit);
  }
}
