/** The purge at the end of an event's storage period (internal/retention/retention.go and
    repository.go): archive copies first, then every hot object, then the rows. */
module Retention {
  import opened Tables
  import opened Sorting
  import opened MediaModel
  import MediaLedger
  import Grants

  datatype ReplicaKey = ReplicaKey(mediaId: Id, location: string)

  datatype ExportStatus = Queued | ProcessingExport | ReadyExport | FailedExport

  datatype Export = Export(eventId: Id, objectKey: Option<ObjectKey>, status: ExportStatus, completedAt: Option<Time>)

  /** The tables, the hot objects under every event's prefix, and the archive. A replica maps to
      whether it is still verified. */
  datatype Store = Store(
    ledger: MediaLedger.Ledger, replicas: map<ReplicaKey, bool>, exports: map<Id, Export>,
    hot: set<ObjectKey>, drive: set<string>)

  /** What a call came to; it may take effect and still report an error. */
  datatype Reply = Done | NotDone | DoneUnheard

  /** How one purge's calls end: the query of the copies, each archive deletion and each mark, the
      sweep with the objects it leaves when it reports a failure, and the last transaction. */
  datatype Luck = Luck(readFails: bool, deletes: ReplicaKey -> Reply, marks: ReplicaKey -> Reply,
                       sweepFails: bool, left: set<ObjectKey>, commit: Reply, now: Time)

  predicate MediaOf(s: Store, e: Id, id: Id) {
    exists i :: 0 <= i < |s.ledger.media| && s.ledger.media[i].id == id && s.ledger.media[i].eventId == e
  }

  function Archived(s: Store, e: Id): set<ReplicaKey> {
    set k | k in s.replicas && s.replicas[k] && MediaOf(s, e, k.mediaId)
  }

  function Under(hot: set<ObjectKey>, e: Id): set<ObjectKey> { set k | k in hot && k.eventId == e }

  function ClearedExport(x: Export, at: Time): Export {
    if x.objectKey.Some? || x.status.Queued? || x.status.ProcessingExport? then
      x.(status := FailedExport, objectKey := None, completedAt := if x.completedAt.Some? then x.completedAt else Some(at))
    else x
  }

  function ClearExports(exports: map<Id, Export>, e: Id, at: Time): map<Id, Export> {
    map i | i in exports :: if exports[i].eventId == e then ClearedExport(exports[i], at) else exports[i]
  }

  function MarkPurged(s: Store, e: Id, at: Time): Store {
    s.(ledger := MediaLedger.MarkPurged(s.ledger, e, at), exports := ClearExports(s.exports, e, at))
  }

  function Unverify(replicas: map<ReplicaKey, bool>, gone: set<ReplicaKey>): map<ReplicaKey, bool> {
    map k | k in replicas :: replicas[k] && k !in gone
  }

  function Locations(gone: set<ReplicaKey>): set<string> { set k | k in gone :: k.location }

  /** What a purge is for: no verified copy, no object, rows closed. */
  function PurgeResult(s: Store, e: Id, at: Time): Store {
    var gone := Archived(s, e);
    MarkPurged(s.(replicas := Unverify(s.replicas, gone), drive := s.drive - Locations(gone), hot := s.hot - Under(s.hot, e)), e, at)
  }

  /** s' is s after a purge of e that stopped somewhere before its last step. */
  ghost predicate Begun(s: Store, s': Store, e: Id) {
    && s'.ledger == s.ledger && s'.exports == s.exports
    && s'.replicas.Keys == s.replicas.Keys
    && (forall k :: k in s.replicas ==>
         if s'.replicas[k] != s.replicas[k] then k in Archived(s, e) && k.location !in s'.drive && !s'.replicas[k] else true)
    && s'.drive <= s.drive && s.drive - s'.drive <= Locations(Archived(s, e))
    && s'.hot <= s.hot && s.hot - s'.hot <= Under(s.hot, e)
  }

  ghost predicate Clear(s: Store, e: Id) { Archived(s, e) == {} && Under(s.hot, e) == {} }

  /** s' is s after a whole purge of e whose last transaction was not heard to commit. */
  ghost predicate Unheard(s: Store, s': Store, e: Id, luck: Luck) {
    luck.commit.DoneUnheard? && s' == PurgeResult(s, e, luck.now) && Clear(s', e)
  }

  lemma BegunThen(a: Store, b: Store, c: Store, e: Id)
    requires Begun(a, b, e) && Begun(b, c, e)
    ensures Begun(a, c, e)
  {
    assert Archived(b, e) <= Archived(a, e) && Under(b.hot, e) <= Under(a.hot, e);
    assert a.hot - c.hot <= (a.hot - b.hot) + (b.hot - c.hot);
    assert Locations(Archived(b, e)) <= Locations(Archived(a, e)) by {
      forall l | l in Locations(Archived(b, e)) ensures l in Locations(Archived(a, e)) {
        var k :| k in Archived(b, e) && k.location == l;
      }
    }
  }

  /** Wherever a purge stopped, purging again comes to the state an unbroken purge would have. */
  lemma SameResult(s: Store, s': Store, e: Id, at: Time)
    requires Begun(s, s', e)
    ensures PurgeResult(s', e, at) == PurgeResult(s, e, at)
  {
  }

  /** A purge that ran out of copies and objects to remove is finished by its last step. */
  lemma ClearResult(s: Store, s': Store, e: Id, at: Time)
    requires Begun(s, s', e) && Clear(s', e)
    ensures MarkPurged(s', e, at) == PurgeResult(s, e, at)
  {
    SameResult(s, s', e, at);
    assert Unverify(s'.replicas, {}) == s'.replicas;
    assert s'.drive - Locations({}) == s'.drive && s'.hot - {} == s'.hot;
  }

  /** What that is on the rows: no other event's object, copy, export or row is touched. */
  lemma PurgeLeaves(s: Store, e: Id, at: Time)
    ensures var s' := PurgeResult(s, e, at);
      && (forall k :: k in s'.hot <==> k in s.hot && k.eventId != e)
      && s'.replicas.Keys == s.replicas.Keys
      && (forall k :: k in s.replicas ==> (s'.replicas[k] <==>
           s.replicas[k] && forall m :: m in s.ledger.media && m.id == k.mediaId ==> m.eventId != e))
      && (forall l :: l in s'.drive <==> l in s.drive && forall k :: k in s.replicas && s.replicas[k] && k.location == l ==>
           forall m :: m in s.ledger.media && m.id == k.mediaId ==> m.eventId != e)
    ensures var s' := PurgeResult(s, e, at);
      && s'.exports.Keys == s.exports.Keys
      && forall i :: i in s.exports ==>
           var x, x' := s.exports[i], s'.exports[i];
           if x.eventId == e && (x.objectKey.Some? || x.status == ExportStatus.Queued || x.status == ProcessingExport) then
             x' == Export(e, None, FailedExport, Some(if x.completedAt.Some? then x.completedAt.value else at))
           else x' == x
    ensures var media, media' := s.ledger.media, PurgeResult(s, e, at).ledger.media;
      && |media'| == |media|
      && forall i :: 0 <= i < |media| ==>
           if media[i].eventId == e && media[i].status != MediaStatus.Deleted then
             media'[i] == media[i].(status := MediaStatus.Deleted, lastActivityAt := at)
           else media'[i] == media[i]
    ensures forall x :: x in s.ledger.events && x != e ==>
      x in PurgeResult(s, e, at).ledger.events && PurgeResult(s, e, at).ledger.events[x] == s.ledger.events[x]
  {
    UpdateAt(s.ledger.media, MediaLedger.LiveRow(e), MediaLedger.SetStatus(MediaStatus.Deleted, at));
    RowsOfEvent(s, e);
    forall l | l in s.drive && l in Locations(Archived(s, e))
      ensures exists k :: k in s.replicas && s.replicas[k] && k.location == l && exists m :: m in s.ledger.media && m.id == k.mediaId && m.eventId == e
    {
      var k :| k in Archived(s, e) && k.location == l;
    }
  }

  lemma RowsOfEvent(s: Store, e: Id)
    ensures forall id :: MediaOf(s, e, id) <==> exists m :: m in s.ledger.media && m.id == id && m.eventId == e
  {
    forall id ensures MediaOf(s, e, id) <==> exists m :: m in s.ledger.media && m.id == id && m.eventId == e {
      if m :| m in s.ledger.media && m.id == id && m.eventId == e {
        var i :| 0 <= i < |s.ledger.media| && s.ledger.media[i] == m;
      }
    }
  }

  // ---- The candidates ----

  function DueGrant(s: Store, cutoff: Time): Grants.Grant -> bool {
    (g: Grants.Grant) => g.status.Active? && g.retentionExpiresAt <= cutoff
      && g.eventId in s.ledger.events && !s.ledger.events[g.eventId].purged
  }

  function SoonestFirst(): (Grants.Grant, Grants.Grant) -> bool {
    (a: Grants.Grant, b: Grants.Grant) => a.retentionExpiresAt < b.retentionExpiresAt
  }

  function Candidates(grants: seq<Grants.Grant>, s: Store, cutoff: Time, limit: nat): seq<Grants.Grant> {
    Limit(Sort(Where(grants, DueGrant(s, cutoff)), SoonestFirst()), limit)
  }

  /** The grant is active, its storage ended by the cutoff, and its event's media is still there. */
  ghost predicate Ended(s: Store, cutoff: Time, g: Grants.Grant) {
    && g.status == Grants.GrantStatus.Active && g.retentionExpiresAt <= cutoff
    && g.eventId in s.ledger.events && !s.ledger.events[g.eventId].purged
  }

  /** The listed grants ended by the cutoff, oldest first, and none is left out while there is room. */
  lemma ListedOldest(grants: seq<Grants.Grant>, s: Store, cutoff: Time, limit: nat)
    ensures var due := Candidates(grants, s, cutoff, limit);
      && |due| <= limit && (forall g :: g in due ==> g in grants && Ended(s, cutoff, g))
      && (forall i, j :: 0 <= i < j < |due| ==> due[i].retentionExpiresAt <= due[j].retentionExpiresAt)
      && forall g :: g in grants && Ended(s, cutoff, g) && g !in due ==>
           |due| == limit && forall h :: h in due ==> h.retentionExpiresAt <= g.retentionExpiresAt
  {
    WhereMembers(grants, DueGrant(s, cutoff));
    LimitTakesFirst(Where(grants, DueGrant(s, cutoff)), SoonestFirst(), limit);
    SortOrdered(Where(grants, DueGrant(s, cutoff)), SoonestFirst());
  }

  /** One active grant per event: no event is listed twice. */
  lemma ListedOnce(grants: seq<Grants.Grant>, s: Store, cutoff: Time, limit: nat)
    requires Grants.GrantsUnique(grants)
    ensures var due := Candidates(grants, s, cutoff, limit);
      (forall i :: 0 <= i < |due| ==> DueGrant(s, cutoff)(due[i]))
      && forall i, j :: 0 <= i < j < |due| ==> due[i].eventId != due[j].eventId
  {
    var rows := Where(grants, DueGrant(s, cutoff));
    var sorted := Sort(rows, SoonestFirst());
    WhereMembers(grants, DueGrant(s, cutoff));
    SortMembers(rows, SoonestFirst());
    forall i, j | 0 <= i < j < |rows| ensures rows[i] != rows[j] {
      WhereSplits(grants, DueGrant(s, cutoff), i, j);
      var k, l :| 0 <= k < l < |grants| && grants[k] == rows[i] && grants[l] == rows[j];
      assert !Grants.SameGrantKey(grants[k], grants[l]);
    }
    SortNoRepeats(rows, SoonestFirst());
    forall i | 0 <= i < |sorted| ensures sorted[i] in grants && DueGrant(s, cutoff)(sorted[i]) {
      assert sorted[i] in sorted;
    }
    forall i, j | 0 <= i < j < |sorted| ensures sorted[i].eventId != sorted[j].eventId {
      Grants.OneActive(grants, sorted[i]);
    }
  }

  datatype Report = Report(due: nat, purged: nat, failed: seq<Id>)

  class RetentionService {
    const enforce: bool
    const hasArchive: bool
    const grace: Time
    var ledger: MediaLedger.Ledger
    var replicas: map<ReplicaKey, bool>
    var exports: map<Id, Export>
    var hot: set<ObjectKey>
    var drive: set<string>

    ghost function State(): Store reads this { Store(ledger, replicas, exports, hot, drive) }

    constructor (enforce: bool, hasArchive: bool, grace: Time, s: Store)
      ensures this.enforce == enforce && this.hasArchive == hasArchive && this.grace == grace && State() == s
    {
      this.enforce, this.hasArchive, this.grace := enforce, hasArchive, grace;
      ledger, replicas, exports, hot, drive := s.ledger, s.replicas, s.exports, s.hot, s.drive;
    }

    /** One archive copy: deleted, then marked. */
    method DropReplica(k: ReplicaKey, luck: Luck, ghost e: Id) returns (ok: bool)
      requires k in Archived(State(), e)
      modifies this`drive, this`replicas
      ensures Begun(old(State()), State(), e)
      ensures ok <==> luck.deletes(k).Done? && luck.marks(k).Done?
      ensures ok ==> Archived(State(), e) == Archived(old(State()), e) - {k}
    {
      if !luck.deletes(k).NotDone? {
        drive := drive - {k.location};
      }
      if !luck.deletes(k).Done? {
        return false;
      }
      if !luck.marks(k).NotDone? {
        replicas := replicas[k := false];
      }
      ok := luck.marks(k).Done?;
    }

    /** The archive copies of one event, one after the other; the first failure ends it. */
    method DropCopies(e: Id, copies: set<ReplicaKey>, luck: Luck) returns (ok: bool)
      requires copies == Archived(State(), e)
      modifies this`drive, this`replicas
      ensures Begun(old(State()), State(), e)
      ensures ok <==> forall k :: k in copies ==> luck.deletes(k).Done? && luck.marks(k).Done?
      ensures ok ==> Archived(State(), e) == {}
    {
      var rest := copies;
      ghost var s0 := State();
      while rest != {}
        invariant Begun(s0, State(), e) && Archived(State(), e) == rest && rest <= copies
        invariant forall k :: k in copies - rest ==> luck.deletes(k).Done? && luck.marks(k).Done?
        decreases |rest|
      {
        var k :| k in rest;
        ghost var s := State();
        var dropped := DropReplica(k, luck, e);
        BegunThen(s0, s, State(), e);
        if !dropped {
          return false;
        }
        rest := rest - {k};
      }
      ok := true;
    }

    /** Purge one event. It is marked purged only with no verified archive copy and no object left. A
        failure at any step leaves it a candidate with part of the work done, unless it is only the
        reply to the last transaction that was lost; and it succeeds if nothing fails. */
    method Purge(e: Id, luck: Luck) returns (ok: bool)
      modifies this
      ensures ok ==> State() == PurgeResult(old(State()), e, luck.now) && Clear(State(), e)
      ensures !ok ==> Begun(old(State()), State(), e) || Unheard(old(State()), State(), e, luck)
      ensures ok <==> CopiesGo(old(State()), e, luck, hasArchive) && !luck.sweepFails && luck.commit.Done?
      ensures hot == old(hot) - if CopiesGo(old(State()), e, luck, hasArchive) then Swept(old(hot), e, luck) else {}
    {
      if e == NIL || luck.readFails {
        return false;
      }
      var s0 := Store(ledger, replicas, exports, hot, drive);
      var rest := Archived(s0, e);
      if rest != {} && !hasArchive {
        return false;
      }
      var gone := DropCopies(e, rest, luck);
      if !gone {
        return false;
      }
      if luck.sweepFails {
        hot := hot - (Under(hot, e) - luck.left);
        return false;
      }
      hot := hot - Under(hot, e);
      assert Begun(s0, State(), e) && Clear(State(), e);
      if luck.commit.NotDone? {
        return false;
      }
      ClearResult(s0, State(), e, luck.now);
      StillClear(State(), e, luck.now);
      ledger, exports := MediaLedger.MarkPurged(ledger, e, luck.now), ClearExports(exports, e, luck.now);
      ok := luck.commit.Done?;
    }

    /** The i-th due event, and its place in the report. */
    method PurgeNext(due: seq<Grants.Grant>, i: nat, lucks: Id -> Luck, before: Report, ghost s0: Store) returns (report: Report)
      requires i < |due| && RunProgress(s0, State(), due, i, before, lucks)
      modifies this
      ensures RunProgress(s0, State(), due, i + 1, report, lucks) && report.due == before.due
    {
      ghost var s := State();
      var ok := Purge(due[i].eventId, lucks(due[i].eventId));
      if !ok {
        report := before.(failed := before.failed + [due[i].eventId]);
      } else {
        report := before.(purged := before.purged + 1);
      }
      RunStep(s0, s, State(), due, i, before, report, lucks, ok);
    }

    /** Purge up to limit due events, or only report them. Every due event is counted as purged, and
        then holds no bytes anywhere, or as failed, and then is still a candidate unless it was purged
        and its last reply lost. An event none of whose active grants ended a grace period ago keeps
        everything it has. */
    method Run(grants: seq<Grants.Grant>, limit: int, dryRun: bool, lucks: Id -> Luck, now: Time) returns (report: Report)
      requires Grants.GrantsUnique(grants)
      modifies this
      ensures var due := Candidates(grants, old(State()), now - grace, if limit < 1 then 50 else limit);
        && report.due == |due|
        && (dryRun || !enforce ==> State() == old(State()) && report == Report(|due|, 0, []))
        && (!dryRun && enforce ==>
             report.purged + |report.failed| == report.due
             && forall i :: 0 <= i < |due| ==> Handled(State(), due[i].eventId, due[i].eventId in report.failed, lucks(due[i].eventId)))
      ensures DistinctIds(old(State())) ==>
        forall x :: (forall g :: g in grants && g.eventId == x && g.status.Active? ==> g.retentionExpiresAt > now - grace) ==>
          Untouched(old(State()), State(), x)
    {
      var s0 := Store(ledger, replicas, exports, hot, drive);
      var due := Candidates(grants, s0, now - grace, if limit < 1 then 50 else limit);
      ListedOnce(grants, s0, now - grace, if limit < 1 then 50 else limit);
      ListedOldest(grants, s0, now - grace, if limit < 1 then 50 else limit);
      report := Report(|due|, 0, []);
      for i := 0 to |due|
        invariant report.due == |due|
        invariant dryRun || !enforce ==> State() == s0 && report == Report(|due|, 0, [])
        invariant !dryRun && enforce ==> RunProgress(s0, State(), due, i, report, lucks)
      {
        if dryRun || !enforce {
          continue;
        }
        report := PurgeNext(due, i, lucks, report, s0);
      }
      SameUntouched(s0);
      NotDueUntouched(grants, s0, State(), due, now - grace);
    }
  }

  /** The copies' part of a purge goes through. */
  predicate CopiesGo(s: Store, e: Id, luck: Luck, hasArchive: bool) {
    && e != NIL && !luck.readFails && (Archived(s, e) == {} || hasArchive)
    && forall k :: k in Archived(s, e) ==> luck.deletes(k).Done? && luck.marks(k).Done?
  }

  /** The objects a sweep removes. */
  function Swept(hot: set<ObjectKey>, e: Id, luck: Luck): set<ObjectKey> {
    (set k | k in hot && k.eventId == e) - if luck.sweepFails then luck.left else {}
  }

  /** x has its event row, media rows, exports, objects and archive copies; a copy at a location that
      another event's verified copy names as well is not counted. */
  ghost predicate Untouched(s: Store, s': Store, x: Id) {
    && (x in s.ledger.events ==> x in s'.ledger.events && s'.ledger.events[x] == s.ledger.events[x])
    && |s'.ledger.media| == |s.ledger.media|
    && (forall i :: 0 <= i < |s.ledger.media| ==>
         s'.ledger.media[i].id == s.ledger.media[i].id && s'.ledger.media[i].eventId == s.ledger.media[i].eventId
         && (s.ledger.media[i].eventId == x ==> s'.ledger.media[i] == s.ledger.media[i]))
    && (forall k: ObjectKey :: k.eventId == x ==> (k in s'.hot <==> k in s.hot))
    && s'.exports.Keys == s.exports.Keys && (forall i :: i in s.exports && s.exports[i].eventId == x ==> s'.exports[i] == s.exports[i])
    && (forall i :: i in s.exports ==> s'.exports[i].eventId == s.exports[i].eventId)
    && s'.replicas.Keys == s.replicas.Keys && (forall k :: k in s.replicas && s'.replicas[k] ==> s.replicas[k])
    && (forall k :: k in s.replicas && OwnCopy(s, x, k) ==> s'.replicas[k] == s.replicas[k])
    && forall l :: l in s.drive && (forall k :: k in s.replicas && s.replicas[k] && k.location == l ==> OwnCopy(s, x, k)) ==> l in s'.drive
  }

  /** media.id is a primary key. */
  ghost predicate DistinctIds(s: Store) {
    forall i, j :: 0 <= i < j < |s.ledger.media| ==> s.ledger.media[i].id != s.ledger.media[j].id
  }

  ghost predicate OwnCopy(s: Store, x: Id, k: ReplicaKey) {
    exists i :: 0 <= i < |s.ledger.media| && s.ledger.media[i].id == k.mediaId && s.ledger.media[i].eventId == x
  }

  ghost predicate OpenEvent(s: Store, e: Id) { e in s.ledger.events && !s.ledger.events[e].purged }

  /** Open and reported, or purged and empty; reported then only when the last reply was lost. */
  ghost predicate Handled(s: Store, e: Id, failed: bool, luck: Luck) {
    if OpenEvent(s, e) then failed
    else e in s.ledger.events && s.ledger.events[e].purged && Clear(s, e) && (failed ==> luck.commit.DoneUnheard?)
  }

  lemma SameMedia(s: Store, e: Id, at: Time)
    ensures forall x, id :: MediaOf(MarkPurged(s, e, at), x, id) == MediaOf(s, x, id)
  {
    UpdateAt(s.ledger.media, MediaLedger.LiveRow(e), MediaLedger.SetStatus(MediaStatus.Deleted, at));
    var s' := MarkPurged(s, e, at);
    forall x, id ensures MediaOf(s', x, id) == MediaOf(s, x, id) {
      forall i | 0 <= i < |s.ledger.media| ensures s'.ledger.media[i].id == s.ledger.media[i].id
        && s'.ledger.media[i].eventId == s.ledger.media[i].eventId {}
    }
  }

  lemma StillClear(s: Store, e: Id, at: Time)
    requires Clear(s, e)
    ensures Clear(MarkPurged(s, e, at), e)
  {
    SameMedia(s, e, at);
  }

  /** What a purge of e, finished or not, can change. */
  ghost predicate Shrinks(s: Store, s': Store, e: Id) {
    && s'.hot <= s.hot && s'.replicas.Keys == s.replicas.Keys
    && (forall k :: k in s.replicas && s'.replicas[k] ==> s.replicas[k])
    && (forall x, id :: MediaOf(s', x, id) == MediaOf(s, x, id))
    && s'.ledger.events.Keys == s.ledger.events.Keys
    && forall x :: x in s.ledger.events && x != e ==> s'.ledger.events[x] == s.ledger.events[x]
  }

  lemma PurgeShrinks(s: Store, s': Store, e: Id, luck: Luck, ok: bool)
    requires if ok then s' == PurgeResult(s, e, luck.now) else Begun(s, s', e) || Unheard(s, s', e, luck)
    ensures Shrinks(s, s', e)
    ensures ok && e in s.ledger.events ==> s'.ledger.events[e].purged
    ensures !ok && OpenEvent(s, e) && !OpenEvent(s', e) ==> luck.commit.DoneUnheard? && s'.ledger.events[e].purged && Clear(s', e)
  {
    if s' == PurgeResult(s, e, luck.now) {
      var gone := Archived(s, e);
      SameMedia(s.(replicas := Unverify(s.replicas, gone), drive := s.drive - Locations(gone), hot := s.hot - Under(s.hot, e)), e, luck.now);
    }
  }

  /** A purge of e, finished or not, leaves every other event untouched. */
  lemma PurgeElsewhere(s: Store, s': Store, e: Id, x: Id, at: Time)
    requires DistinctIds(s) && x != e && (s' == PurgeResult(s, e, at) || Begun(s, s', e))
    ensures Untouched(s, s', x)
  {
    OneOwner(s, e, x);
    if s' == PurgeResult(s, e, at) {
      PurgeLeaves(s, e, at);
    } else {
      BegunElsewhere(s, s', e, x);
    }
  }

  lemma BegunElsewhere(s: Store, s': Store, e: Id, x: Id)
    requires x != e && Begun(s, s', e) && forall k :: k in s.replicas && OwnCopy(s, x, k) ==> k !in Archived(s, e)
    ensures Untouched(s, s', x)
  {
    forall k | k in s.hot && k !in s'.hot ensures k.eventId == e {
      assert k in s.hot - s'.hot;
    }
    forall l | l in s.drive && l !in s'.drive
      ensures exists k :: k in s.replicas && s.replicas[k] && k.location == l && !OwnCopy(s, x, k)
    {
      assert l in s.drive - s'.drive;
      var k :| k in Archived(s, e) && k.location == l;
    }
  }

  /** A copy belongs to one event. */
  lemma OneOwner(s: Store, e: Id, x: Id)
    requires DistinctIds(s) && x != e
    ensures forall k :: k in s.replicas && OwnCopy(s, x, k) ==> k !in Archived(s, e)
  {
  }

  lemma UntouchedThen(a: Store, b: Store, c: Store, x: Id)
    requires Untouched(a, b, x) && Untouched(b, c, x)
    ensures Untouched(a, c, x)
  {
    forall k ensures OwnCopy(b, x, k) == OwnCopy(a, x, k) {}
  }

  lemma IdsStay(s: Store, s': Store, e: Id, at: Time)
    requires DistinctIds(s) && (s' == PurgeResult(s, e, at) || Begun(s, s', e))
    ensures DistinctIds(s')
  {
    if s' == PurgeResult(s, e, at) { PurgeLeaves(s, e, at); }
  }

  /** After the first i purges of a list. */
  ghost predicate OthersUntouched(s0: Store, s: Store, due: seq<Grants.Grant>, i: nat)
    requires i <= |due|
  {
    DistinctIds(s0) ==>
      DistinctIds(s) && forall x :: (forall j :: 0 <= j < i ==> due[j].eventId != x) ==> Untouched(s0, s, x)
  }

  lemma StillUntouched(s0: Store, s: Store, s': Store, due: seq<Grants.Grant>, i: nat, at: Time)
    requires i < |due| && (s' == PurgeResult(s, due[i].eventId, at) || Begun(s, s', due[i].eventId))
    requires OthersUntouched(s0, s, due, i)
    ensures OthersUntouched(s0, s', due, i + 1)
  {
    if DistinctIds(s0) {
      IdsStay(s, s', due[i].eventId, at);
      forall x | forall j :: 0 <= j < i + 1 ==> due[j].eventId != x ensures Untouched(s0, s', x) {
        assert due[i].eventId != x;
        PurgeElsewhere(s, s', due[i].eventId, x, at);
        UntouchedThen(s0, s, s', x);
      }
    }
  }

  /** How far a run over the list has come. */
  ghost predicate RunProgress(s0: Store, s: Store, due: seq<Grants.Grant>, i: nat, report: Report, lucks: Id -> Luck) {
    && i <= |due| && report.purged + |report.failed| == i
    && (forall id :: id in report.failed ==> exists j :: 0 <= j < i && due[j].eventId == id)
    && (forall j, k :: 0 <= j < k < |due| ==> due[j].eventId != due[k].eventId)
    && (forall j :: i <= j < |due| ==> OpenEvent(s, due[j].eventId))
    && (forall j :: 0 <= j < i ==> Handled(s, due[j].eventId, due[j].eventId in report.failed, lucks(due[j].eventId)))
    && OthersUntouched(s0, s, due, i)
  }

  lemma RunStep(s0: Store, s: Store, s': Store, due: seq<Grants.Grant>, i: nat, before: Report, report: Report,
                lucks: Id -> Luck, ok: bool)
    requires i < |due| && RunProgress(s0, s, due, i, before, lucks)
    requires var e := due[i].eventId;
      && (if ok then s' == PurgeResult(s, e, lucks(e).now) && Clear(s', e) else Begun(s, s', e) || Unheard(s, s', e, lucks(e)))
      && report.due == before.due && report.purged == before.purged + (if ok then 1 else 0)
      && report.failed == before.failed + if ok then [] else [e]
    ensures RunProgress(s0, s', due, i + 1, report, lucks)
  {
    var e := due[i].eventId;
    PurgeShrinks(s, s', e, lucks(e), ok);
    StillUntouched(s0, s, s', due, i, lucks(e).now);
    forall j | 0 <= j < |due| && j != i
      ensures OpenEvent(s', due[j].eventId) == OpenEvent(s, due[j].eventId)
      ensures Clear(s, due[j].eventId) ==> Clear(s', due[j].eventId)
    {
      OtherEvent(s, s', e, due[j].eventId);
    }
  }

  lemma SameUntouched(s: Store)
    ensures forall x :: Untouched(s, s, x)
  {
  }

  lemma NotDueUntouched(grants: seq<Grants.Grant>, s0: Store, s: Store, due: seq<Grants.Grant>, cutoff: Time)
    requires (OthersUntouched(s0, s, due, |due|) || s == s0) && forall g :: g in due ==> g in grants && Ended(s0, cutoff, g)
    ensures DistinctIds(s0) ==>
      forall x :: (forall g :: g in grants && g.eventId == x && g.status.Active? ==> g.retentionExpiresAt > cutoff) ==> Untouched(s0, s, x)
  {
    assert forall j :: 0 <= j < |due| ==> due[j] in due;
  }

  lemma OtherEvent(s: Store, s': Store, e: Id, x: Id)
    requires Shrinks(s, s', e) && x != e
    ensures OpenEvent(s', x) == OpenEvent(s, x)
    ensures Clear(s, x) ==> Clear(s', x)
  {
  }
}
