/** Moving originals from hot storage to the long-term archive (internal/archive/service.go and
    internal/platform/database/archive_repository.go): copy, read back and compare, record, delete.
    Every effect is one step of a trace, so a property of every state on the trace holds wherever the
    process stops, and a restart begins in one of those states. */
module Archive {
  import opened Tables
  import opened Sorting
  import opened MediaModel

  type Bytes = seq<bv8>

  datatype MediaRow = MediaRow(id: Id, key: string, status: MediaStatus, uploadedAt: Time, sourceDeletedAt: Option<Time>)

  /** The unique key (media_id, provider, location_reference) of a replica row. */
  datatype ReplicaKey = DriveCopy(mediaId: Id, location: string) | HotCopy(mediaId: Id, location: string)

  datatype ReplicaState = Verified | Gone

  datatype Store = Store(
    media: seq<MediaRow>, hot: map<string, Bytes>, drive: map<string, Bytes>, replicas: map<ReplicaKey, ReplicaState>)

  /** What a call to another system came to; it may take effect and still report an error. */
  datatype Reply = Done | NotDone | DoneUnheard

  /** What one candidate meets: where the upload lands, what arrives there, and how each call ends. */
  datatype Luck = Luck(openFails: bool, location: string, stored: Bytes, upload: Reply, readFails: bool,
                       cleanup: Reply, record: Reply, remove: Reply, mark: Reply, now: Time)

  predicate VerifiedCopy(s: Store, id: Id) {
    exists k :: k in s.replicas && k.DriveCopy? && k.mediaId == id && s.replicas[k].Verified?
  }

  predicate SourceGone(s: Store, m: MediaRow) {
    HotCopy(m.id, m.key) in s.replicas && s.replicas[HotCopy(m.id, m.key)].Gone?
  }

  function DueForArchive(s: Store, olderThan: Time): MediaRow -> bool {
    (m: MediaRow) => m.status.Ready? && m.uploadedAt <= olderThan && !VerifiedCopy(s, m.id)
  }

  function DeletionPending(s: Store): MediaRow -> bool {
    (m: MediaRow) => VerifiedCopy(s, m.id) && !SourceGone(s, m)
  }

  function OldestUpload(): (MediaRow, MediaRow) -> bool { (a: MediaRow, b: MediaRow) => a.uploadedAt < b.uploadedAt }

  // ---- What every state keeps ----

  /** A verified archive copy of id holds these bytes. */
  ghost predicate HasCopy(s: Store, id: Id, bytes: Bytes) {
    exists k :: k in s.replicas && k.DriveCopy? && k.mediaId == id && s.replicas[k].Verified?
      && k.location in s.drive && s.drive[k.location] == bytes
  }

  /** A live original is in hot storage unchanged, or a verified copy of it is in the archive. */
  ghost predicate Kept(s: Store, m: MediaRow, content: map<Id, Bytes>) {
    Stored(m.status) ==>
    && m.id in content
    && (m.key in s.hot ==> s.hot[m.key] == content[m.id])
    && (m.key in s.hot || HasCopy(s, m.id, content[m.id]))
  }

  ghost predicate TrueCopy(s: Store, k: ReplicaKey, content: map<Id, Bytes>) {
    k in s.replicas && k.DriveCopy? && s.replicas[k].Verified? ==>
      k.mediaId in content && k.location in s.drive && s.drive[k.location] == content[k.mediaId]
  }

  /** A row whose object the replica table calls deleted carries the mark. */
  ghost predicate MarkAgrees(s: Store, m: MediaRow) { SourceGone(s, m) ==> m.sourceDeletedAt.Some? }

  ghost predicate Safe(s: Store, content: map<Id, Bytes>) {
    && (forall i, j :: 0 <= i < j < |s.media| ==> s.media[i].id != s.media[j].id && s.media[i].key != s.media[j].key)
    && (forall m :: m in s.media ==> Kept(s, m, content))
    && (forall k :: k in s.replicas ==> TrueCopy(s, k, content))
    && (forall m :: m in s.media ==> MarkAgrees(s, m))
  }

  /** The row is still there, whatever its deletion mark says. */
  ghost predicate Known(s: Store, c: MediaRow) { exists m :: m in s.media && m.id == c.id && m.key == c.key && m.status == c.status }

  /** The original is archived and its hot copy is gone, and the tables say so. */
  ghost predicate Archived(s: Store, c: MediaRow) {
    && VerifiedCopy(s, c.id) && c.key !in s.hot && SourceGone(s, c)
    && forall m :: m in s.media && m.id == c.id ==> m.sourceDeletedAt.Some?
  }

  predicate Lasting(k: ReplicaKey, state: ReplicaState) { if k.DriveCopy? then state.Verified? else state.Gone? }

  /** What no step undoes. */
  ghost predicate Grows(s: Store, s': Store) {
    && s'.hot.Keys <= s.hot.Keys
    && (forall k :: k in s.replicas && Lasting(k, s.replicas[k]) ==> k in s'.replicas && s'.replicas[k] == s.replicas[k])
    && |s'.media| == |s.media|
    && forall i :: 0 <= i < |s.media| ==>
         s'.media[i] == s.media[i].(sourceDeletedAt := s'.media[i].sourceDeletedAt)
         && (s.media[i].sourceDeletedAt.Some? ==> s'.media[i] == s.media[i])
  }

  lemma GrowsThen(a: Store, b: Store, c: Store)
    requires Grows(a, b) && Grows(b, c)
    ensures Grows(a, c)
  {
  }

  lemma StaysKnown(s: Store, s': Store, c: MediaRow)
    requires Grows(s, s') && Known(s, c)
    ensures Known(s', c)
  {
  }

  // ---- A listing signs the keys of unmarked rows ----

  /** The gallery presigns this row's key. */
  predicate Signable(m: MediaRow) { Stored(m.status) && m.sourceDeletedAt.None? }

  /** The rows a listing signs although their object is gone. */
  ghost function Dangling(s: Store): set<Id> { set m | m in s.media && Signable(m) && m.key !in s.hot :: m.id }

  ghost predicate SignableId(s: Store, id: Id) { exists m :: m in s.media && m.id == id && Signable(m) }

  function HotRemoved(s: Store, key: string): Store { s.(hot := map k | k in s.hot && k != key :: s.hot[k]) }

  function Marked(s: Store, c: MediaRow, now: Time): Store {
    s.(replicas := s.replicas[HotCopy(c.id, c.key) := Gone], media := Update(s.media, Unmarked(c.id), SetDeleted(now)))
  }

  /** What deleteSource leaves, by what becomes of its two calls: the mark is only tried once the
      removal reported success. */
  function SourceDeleted(s: Store, c: MediaRow, luck: Luck): Store {
    if luck.remove.NotDone? then s
    else if luck.remove.DoneUnheard? || luck.mark.NotDone? then HotRemoved(s, c.key)
    else Marked(HotRemoved(s, c.key), c, luck.now)
  }

  /** The removal alone makes the row dangle exactly if it was signable, and no other row. */
  lemma RemovalOpensGap(s: Store, content: map<Id, Bytes>, c: MediaRow)
    requires Safe(s, content) && Known(s, c)
    ensures Dangling(HotRemoved(s, c.key)) == Dangling(s) + if SignableId(s, c.id) then {c.id} else {}
  {
    var s' := HotRemoved(s, c.key);
    var row :| row in s.media && row.id == c.id && row.key == c.key;
    forall id | id in Dangling(s') ensures id in Dangling(s) || (id == c.id && SignableId(s, c.id)) {
      var m :| m in s'.media && Signable(m) && m.key !in s'.hot && m.id == id;
      if m.key == c.key { SameRow(s, content, m, row); }
    }
    forall id | id in Dangling(s) ensures id in Dangling(s') {
      var m :| m in s.media && Signable(m) && m.key !in s.hot && m.id == id;
      assert m in s'.media;
    }
    if SignableId(s, c.id) {
      var m :| m in s.media && m.id == c.id && Signable(m);
      SameRow(s, content, m, row);
      assert m in s'.media && m.key !in s'.hot;
    }
  }

  /** The mark closes that gap and no other. */
  lemma MarkClosesGap(s: Store, content: map<Id, Bytes>, c: MediaRow, now: Time)
    requires Safe(s, content)
    ensures Dangling(Marked(s, c, now)) == Dangling(s) - {c.id}
  {
    var s' := Marked(s, c, now);
    UpdateAt(s.media, Unmarked(c.id), SetDeleted(now));
    forall id | id in Dangling(s') ensures id in Dangling(s) && id != c.id {
      var m :| m in s'.media && Signable(m) && m.key !in s'.hot && m.id == id;
      var i :| 0 <= i < |s'.media| && s'.media[i] == m;
      assert s.media[i] in s.media && s.media[i] == m;
    }
    forall id | id in Dangling(s) && id != c.id ensures id in Dangling(s') {
      var m :| m in s.media && Signable(m) && m.key !in s.hot && m.id == id;
      UpdateHas(s.media, Unmarked(c.id), SetDeleted(now), m);
    }
  }

  lemma SameRow(s: Store, content: map<Id, Bytes>, a: MediaRow, b: MediaRow)
    requires Safe(s, content) && a in s.media && b in s.media && (a.id == b.id || a.key == b.key)
    ensures a == b
  {
  }

  /** After deleteSource a listing can sign the key of this row's missing object exactly when the row
      was signable, its object is gone, and not both calls took effect with the first one heard of. */
  lemma GapIff(s: Store, content: map<Id, Bytes>, c: MediaRow, luck: Luck)
    requires Safe(s, content) && Known(s, c) && VerifiedCopy(s, c.id)
    ensures c.id in Dangling(SourceDeleted(s, c, luck)) <==>
      && SignableId(s, c.id) && (c.key !in s.hot || !luck.remove.NotDone?)
      && !(luck.remove.Done? && !luck.mark.NotDone?)
    ensures Dangling(SourceDeleted(s, c, luck)) - {c.id} == Dangling(s) - {c.id}
  {
    RemovalOpensGap(s, content, c);
    HotDeleted(s, HotRemoved(s, c.key), content, c);
    MarkClosesGap(HotRemoved(s, c.key), content, c, luck.now);
    DanglingOwn(s, content, c);
  }

  lemma DanglingOwn(s: Store, content: map<Id, Bytes>, c: MediaRow)
    requires Safe(s, content) && Known(s, c)
    ensures c.id in Dangling(s) <==> SignableId(s, c.id) && c.key !in s.hot
  {
    var row :| row in s.media && row.id == c.id && row.key == c.key;
    if c.id in Dangling(s) {
      var m :| m in s.media && Signable(m) && m.key !in s.hot && m.id == c.id;
      SameRow(s, content, m, row);
    }
    if SignableId(s, c.id) {
      var m :| m in s.media && m.id == c.id && Signable(m);
      SameRow(s, content, m, row);
    }
  }

  /** A row that dangles still awaits its deletion mark: the next run takes it up. */
  lemma DanglingIsPending(s: Store, content: map<Id, Bytes>, m: MediaRow)
    requires Safe(s, content) && m in s.media && Signable(m) && m.key !in s.hot
    ensures DeletionPending(s)(m)
  {
    assert Kept(s, m, content) && MarkAgrees(s, m);
  }

  /** One archived photo: its object is removed, and whatever becomes of the mark the gap was open. */
  lemma SignedThoughGone(s: Store, c: MediaRow, luck: Luck)
    requires c == MediaRow(1, "k", Ready, 0, None)
    requires s == Store([c], map["k" := [7]], map["d" := [7]], map[DriveCopy(1, "d") := Verified])
    ensures Safe(s, map[1 := [7]]) && DeletionPending(s)(c) && Dangling(s) == {}
    ensures Dangling(HotRemoved(s, c.key)) == {1}
    ensures luck.remove.Done? && luck.mark.NotDone? ==> Dangling(SourceDeleted(s, c, luck)) == {1}
  {
    assert c in s.media;
    assert DriveCopy(1, "d") in s.replicas;
    RemovalOpensGap(s, map[1 := [7]], c);
  }

  // ---- What is listed and what is written, on the columns ----

  /** Ready, old enough, and without a verified copy in the archive. */
  ghost predicate AwaitsArchive(s: Store, m: MediaRow, olderThan: Time) {
    && m in s.media && m.status == Ready && m.uploadedAt <= olderThan
    && forall k :: k in s.replicas && k.DriveCopy? && k.mediaId == m.id ==> s.replicas[k] != Verified
  }

  /** With a verified copy, and its object not recorded as deleted. */
  ghost predicate AwaitsDeletion(s: Store, m: MediaRow) {
    && m in s.media
    && (exists k :: k in s.replicas && k.DriveCopy? && k.mediaId == m.id && s.replicas[k] == Verified)
    && !(HotCopy(m.id, m.key) in s.replicas && s.replicas[HotCopy(m.id, m.key)] == Gone)
  }

  /** A run lists the rows that await archiving, those uploaded first, 50 of them or the number asked
      for, and leaves one out only when the list is full. */
  lemma DueStatement(s: Store, olderThan: Time, limit: int)
    ensures var due, n := Due(s, olderThan, limit), if limit < 1 then 50 else limit;
      && |due| <= n && (forall m :: m in due ==> AwaitsArchive(s, m, olderThan))
      && (forall i, j :: 0 <= i < j < |due| ==> due[i].uploadedAt <= due[j].uploadedAt)
      && forall m :: AwaitsArchive(s, m, olderThan) && m !in due ==>
           |due| == n && forall o :: o in due ==> o.uploadedAt <= m.uploadedAt
  {
    var picked := Where(s.media, DueForArchive(s, olderThan));
    AwaitingRows(s, olderThan);
    LimitTakesFirst(picked, OldestUpload(), RunLimit(limit));
    SortMembers(picked, OldestUpload());
    SortOrdered(picked, OldestUpload());
    var sorted := Sort(picked, OldestUpload());
    assert forall m :: m in Due(s, olderThan, limit) ==> m in sorted;
  }

  lemma AwaitingRows(s: Store, olderThan: Time)
    ensures forall m :: m in Where(s.media, DueForArchive(s, olderThan)) <==> AwaitsArchive(s, m, olderThan)
    ensures forall m :: m in Where(s.media, DeletionPending(s)) <==> AwaitsDeletion(s, m)
  {
    WhereMembers(s.media, DueForArchive(s, olderThan));
    WhereMembers(s.media, DeletionPending(s));
  }

  /** ... and first the deletions that are still to be done. */
  lemma PendingStatement(s: Store, limit: int)
    ensures var pending, n := Undeleted(s, limit), if limit < 1 then 50 else limit;
      && |pending| <= n && (forall m :: m in pending ==> AwaitsDeletion(s, m))
      && forall m :: AwaitsDeletion(s, m) && m !in pending ==> |pending| == n
  {
    var all := Where(s.media, DeletionPending(s));
    AwaitingRows(s, 0);
    assert forall m :: m in Undeleted(s, limit) ==> m in all;
    assert |all| <= RunLimit(limit) ==> Undeleted(s, limit) == all;
  }

  /** The object goes unless its removal failed, and only that one; then the row is marked, and recorded
      as deleted, unless that failed or the removal was not heard of. */
  lemma DeletionStatement(s: Store, c: MediaRow, luck: Luck)
    ensures var s', marked := SourceDeleted(s, c, luck), luck.remove == Done && luck.mark != NotDone;
      && s'.drive == s.drive
      && (forall k :: k in s'.hot <==> k in s.hot && (k == c.key ==> luck.remove == NotDone))
      && (forall k :: k in s'.hot ==> s'.hot[k] == s.hot[k])
      && s'.replicas == (if marked then s.replicas[HotCopy(c.id, c.key) := Gone] else s.replicas)
      && |s'.media| == |s.media|
      && forall i :: 0 <= i < |s.media| ==>
           s'.media[i] == if marked && s.media[i].id == c.id && s.media[i].sourceDeletedAt == None
                          then s.media[i].(sourceDeletedAt := Some(luck.now)) else s.media[i]
  {
    UpdateAt(s.media, Unmarked(c.id), SetDeleted(luck.now));
  }

  // ---- What finishing a deletion leaves alone ----

  /** No archive copy changes, and only rows with a verified one are marked. */
  ghost predicate OnlyMarks(s: Store, s': Store) {
    && (forall k: ReplicaKey :: k.DriveCopy? ==> (k in s.replicas <==> k in s'.replicas) && (k in s.replicas ==> s'.replicas[k] == s.replicas[k]))
    && |s'.media| == |s.media|
    && forall i :: 0 <= i < |s.media| ==> s'.media[i] == s.media[i] || (VerifiedCopy(s, s.media[i].id) && s'.media[i].id == s.media[i].id)
  }

  lemma OnlyMarksThen(a: Store, b: Store, c: Store)
    requires OnlyMarks(a, b) && OnlyMarks(b, c)
    ensures OnlyMarks(a, c)
  {
    forall id { SameCopies(a, b, id); }
  }

  lemma SameCopies(s: Store, s': Store, id: Id)
    requires OnlyMarks(s, s')
    ensures VerifiedCopy(s, id) <==> VerifiedCopy(s', id)
  {
    if VerifiedCopy(s, id) {
      var k :| k in s.replicas && k.DriveCopy? && k.mediaId == id && s.replicas[k].Verified?;
      assert k in s'.replicas;
    }
    if VerifiedCopy(s', id) {
      var k :| k in s'.replicas && k.DriveCopy? && k.mediaId == id && s'.replicas[k].Verified?;
      assert k in s.replicas;
    }
  }

  lemma DeletionOnlyMarks(s: Store, c: MediaRow, luck: Luck)
    requires VerifiedCopy(s, c.id)
    ensures OnlyMarks(s, SourceDeleted(s, c, luck))
  {
    UpdateAt(s.media, Unmarked(c.id), SetDeleted(luck.now));
  }

  /** So what is due afterwards is what was due before. */
  lemma DueStays(s: Store, s': Store, olderThan: Time, limit: int)
    requires OnlyMarks(s, s')
    ensures Due(s', olderThan, limit) == Due(s, olderThan, limit)
  {
    forall id { SameCopies(s, s', id); }
    WhereAgree(s.media, s'.media, DueForArchive(s, olderThan), DueForArchive(s', olderThan));
  }

  /** A row of the first n dangles, or one that dangled before. */
  ghost predicate NewlyDangling(s: Store, s': Store, rows: seq<MediaRow>, n: nat)
    requires n <= |rows|
  {
    forall id :: id in Dangling(s') ==> id in Dangling(s) || Named(rows, n, id)
  }

  ghost predicate Named(rows: seq<MediaRow>, n: nat, id: Id)
    requires n <= |rows|
  {
    exists i :: 0 <= i < n && rows[i].id == id
  }

  lemma NewlyThen(s: Store, s1: Store, s2: Store, rows: seq<MediaRow>, i: nat)
    requires i < |rows| && NewlyDangling(s, s1, rows, i) && Dangling(s2) <= Dangling(s1) + {rows[i].id}
    ensures NewlyDangling(s, s2, rows, i + 1)
  {
    forall id | id in Dangling(s2) ensures id in Dangling(s) || Named(rows, i + 1, id) {
      if id in Dangling(s1) && Named(rows, i, id) {
        var k :| 0 <= k < i && rows[k].id == id;
      }
    }
  }

  lemma ArchivedNotDangling(s: Store, rows: seq<MediaRow>, id: Id)
    requires AllArchived(s, rows, |rows|) && Named(rows, |rows|, id)
    ensures id !in Dangling(s)
  {
    var i :| 0 <= i < |rows| && rows[i].id == id;
    assert Archived(s, rows[i]);
  }

  lemma DanglingListed(s: Store, content: map<Id, Bytes>, pending: seq<MediaRow>, id: Id)
    requires Safe(s, content) && pending == Where(s.media, DeletionPending(s)) && id in Dangling(s)
    ensures Named(pending, |pending|, id)
  {
    var m :| m in s.media && Signable(m) && m.key !in s.hot && m.id == id;
    DanglingIsPending(s, content, m);
    WhereMembers(s.media, DeletionPending(s));
    assert m in pending;
  }

  /** A run that finished every deletion it listed, and everything due, leaves no row dangling. */
  lemma NoneDangles(s: Store, s1: Store, s2: Store, content: map<Id, Bytes>, pending: seq<MediaRow>, due: seq<MediaRow>)
    requires Safe(s, content) && pending == Where(s.media, DeletionPending(s))
    requires NewlyDangling(s, s1, pending, |pending|) && NewlyDangling(s1, s2, due, |due|)
    requires AllArchived(s2, pending, |pending|) && AllArchived(s2, due, |due|)
    ensures Dangling(s2) == {}
  {
    forall id ensures id !in Dangling(s2) {
      if id in Dangling(s) { DanglingListed(s, content, pending, id); }
      if Named(due, |due|, id) { ArchivedNotDangling(s2, due, id); }
      if Named(pending, |pending|, id) { ArchivedNotDangling(s2, pending, id); }
    }
  }

  lemma DeletionStep(s0: Store, s: Store, content: map<Id, Bytes>, rows: seq<MediaRow>, i: nat, luck: Luck)
    requires i < |rows| && Safe(s, content) && Known(s, rows[i]) && VerifiedCopy(s, rows[i].id)
    requires OnlyMarks(s0, s) && NewlyDangling(s0, s, rows, i)
    ensures OnlyMarks(s0, SourceDeleted(s, rows[i], luck))
    ensures NewlyDangling(s0, SourceDeleted(s, rows[i], luck), rows, i + 1)
  {
    var s' := SourceDeleted(s, rows[i], luck);
    DeletionOnlyMarks(s, rows[i], luck);
    OnlyMarksThen(s0, s, s');
    GapIff(s, content, rows[i], luck);
    ButOne(Dangling(s), Dangling(s'), rows[i].id);
    NewlyThen(s0, s, s', rows, i);
  }

  lemma ButOne(a: set<Id>, b: set<Id>, id: Id)
    requires b - {id} == a - {id}
    ensures b <= a + {id}
  {
    forall x | x in b ensures x in a + {id} { assert x == id || x in b - {id}; }
  }

  lemma SameDangling(s: Store, s': Store)
    requires s'.media == s.media && s'.hot == s.hot
    ensures Dangling(s') == Dangling(s)
  {
  }

  // ---- The effects, each one a step of the trace ----

  ghost predicate Injective(digest: Bytes -> string) { forall a, b :: digest(a) == digest(b) ==> a == b }

  /** The two stores and the replica table, as one archive process drives them. */
  class ArchiveService {
    const digest: Bytes -> string
    ghost const content: map<Id, Bytes>
    var media: seq<MediaRow>
    var hot: map<string, Bytes>
    var drive: map<string, Bytes>
    var replicas: map<ReplicaKey, ReplicaState>
    ghost var trace: seq<Store>

    ghost function State(): Store reads this { Store(media, hot, drive, replicas) }

    /** No two contents hash alike, and every state so far keeps every live original. */
    ghost predicate Valid() reads this {
      && Injective(digest) && trace != [] && trace[|trace| - 1] == State()
      && forall i :: 0 <= i < |trace| ==> Safe(trace[i], content)
    }

    /** A start, or a restart from any state an earlier process left. */
    constructor (digest: Bytes -> string, s: Store, ghost content: map<Id, Bytes>)
      requires Injective(digest) && Safe(s, content)
      ensures Valid() && State() == s && this.digest == digest && this.content == content
    {
      this.digest, this.content := digest, content;
      media, hot, drive, replicas, trace := s.media, s.hot, s.drive, s.replicas, [s];
    }

    ghost predicate Stepped(before: Store, past: seq<Store>) reads this {
      Valid() && Grows(before, State()) && past <= trace
    }

    method Upload(luck: Luck) returns (ok: bool)
      requires Valid() && luck.location !in drive
      modifies this`drive, this`trace
      ensures Stepped(old(State()), old(trace))
      ensures ok == luck.upload.Done?
      ensures drive == if luck.upload == NotDone then old(drive) else old(drive)[luck.location := luck.stored]
    {
      if !luck.upload.NotDone? {
        drive := drive[luck.location := luck.stored];
        StillSafe(trace[|trace| - 1], State(), content);
        trace := trace + [State()];
      }
      ok := luck.upload.Done?;
    }

    method DeleteCopy(location: string, reply: Reply)
      requires Valid() && forall k :: k in replicas && k.DriveCopy? && replicas[k].Verified? ==> k.location != location
      modifies this`drive, this`trace
      ensures Stepped(old(State()), old(trace))
      ensures forall l :: l in drive <==> l in old(drive) && (l == location ==> reply == NotDone)
      ensures forall l :: l in drive ==> drive[l] == old(drive)[l]
    {
      if !reply.NotDone? {
        drive := map l | l in drive && l != location :: drive[l];
        StillSafe(trace[|trace| - 1], State(), content);
        trace := trace + [State()];
      }
    }

    method RecordVerified(c: MediaRow, location: string, reply: Reply) returns (ok: bool)
      requires Valid() && c.id in content && location in drive && drive[location] == content[c.id]
      modifies this`replicas, this`trace
      ensures Stepped(old(State()), old(trace))
      ensures ok == reply.Done? && (ok ==> VerifiedCopy(State(), c.id))
      ensures replicas == if reply == NotDone then old(replicas) else old(replicas)[DriveCopy(c.id, location) := Verified]
    {
      if !reply.NotDone? {
        replicas := replicas[DriveCopy(c.id, location) := Verified];
        StillSafe(trace[|trace| - 1], State(), content);
        trace := trace + [State()];
      }
      ok := reply.Done?;
      if ok { assert DriveCopy(c.id, location) in replicas; }
    }

    method DeleteHot(c: MediaRow, reply: Reply) returns (ok: bool)
      requires Valid() && Known(State(), c) && VerifiedCopy(State(), c.id)
      modifies this`hot, this`trace
      ensures Stepped(old(State()), old(trace))
      ensures OnlyKey(old(hot), hot, c.key) && ok == reply.Done?
      ensures State() == if reply.NotDone? then old(State()) else HotRemoved(old(State()), c.key)
      ensures trace == old(trace) + if reply.NotDone? then [] else [State()]
    {
      if !reply.NotDone? {
        hot := map k | k in hot && k != c.key :: hot[k];
        HotDeleted(trace[|trace| - 1], State(), content, c);
        trace := trace + [State()];
      }
      ok := reply.Done?;
    }

    /** The gallery reads the mark this sets, one step after the object went. */
    method MarkSourceDeleted(c: MediaRow, reply: Reply, now: Time) returns (ok: bool)
      requires Valid() && Known(State(), c)
      modifies this`replicas, this`media, this`trace
      ensures Stepped(old(State()), old(trace))
      ensures ok == reply.Done?
      ensures State() == if reply.NotDone? then old(State()) else Marked(old(State()), c, now)
      ensures ok ==> SourceGone(State(), c) && forall m :: m in media && m.id == c.id ==> m.sourceDeletedAt.Some?
    {
      if !reply.NotDone? {
        MarkKeepsSafe(State(), content, c, now);
        replicas := replicas[HotCopy(c.id, c.key) := Gone];
        media := Update(media, Unmarked(c.id), SetDeleted(now));
        trace := trace + [State()];
      }
      ok := reply.Done?;
    }

    /** Remove the hot object of a row whose copy is verified, then say so. Between the two, and after
        a call that fails there, the row is unmarked: a listing then signs a key with no object. */
    method DeleteSource(c: MediaRow, luck: Luck) returns (ok: bool)
      requires Valid() && Known(State(), c) && VerifiedCopy(State(), c.id)
      modifies this`hot, this`replicas, this`media, this`trace
      ensures Stepped(old(State()), old(trace))
      ensures ok == (luck.remove.Done? && luck.mark.Done?) && (ok ==> Archived(State(), c))
      ensures State() == SourceDeleted(old(State()), c, luck) && OnlyKey(old(hot), hot, c.key)
      ensures !luck.remove.NotDone? ==> |trace| > |old(trace)| && trace[|old(trace)|] == HotRemoved(old(State()), c.key)
    {
      var removed := DeleteHot(c, luck.remove);
      if !removed {
        return false;
      }
      ghost var s := State();
      StaysKnown(old(State()), s, c);
      ok := MarkSourceDeleted(c, luck.mark, luck.now);
      GrowsThen(old(State()), s, State());
      StaysVerified(old(State()), State(), c.id);
    }

    /** Copy one original, read the copy back, and record it only when both hash alike. */
    method CopyVerified(c: MediaRow, luck: Luck) returns (ok: bool)
      requires Valid() && Known(State(), c) && Stored(c.status) && luck.location !in drive
      modifies this`drive, this`replicas, this`trace
      ensures Stepped(old(State()), old(trace))
      ensures ok ==> VerifiedCopy(State(), c.id)
      ensures drive.Keys <= old(drive.Keys) + {luck.location}
      ensures ok <==> c.key in hot && Copies(luck, hot[c.key])
      ensures replicas == old(replicas)
        || (c.key in hot && luck.stored == hot[c.key] && replicas == old(replicas)[DriveCopy(c.id, luck.location) := Verified])
    {
      if luck.openFails || c.key !in hot {
        return false;
      }
      var body := hot[c.key];
      ghost var s0 := State();
      KnownContent(s0, content, c);
      var uploaded := Upload(luck);
      if !uploaded {
        return false;
      }
      ghost var s1 := State();
      Unverified(s0, content, luck.location);
      if luck.readFails || digest(body) != digest(drive[luck.location]) {
        DeleteCopy(luck.location, luck.cleanup);
        GrowsThen(s0, s1, State());
        return false;
      }
      ok := RecordVerified(c, luck.location, luck.record);
      GrowsThen(s0, s1, State());
    }

    /** Archive one original: copy it, and only once the copy is verified and recorded delete it. */
    method ArchiveOne(c: MediaRow, luck: Luck) returns (ok: bool)
      requires Valid() && Known(State(), c) && Stored(c.status) && luck.location !in drive
      modifies this`hot, this`drive, this`replicas, this`media, this`trace
      ensures Stepped(old(State()), old(trace))
      ensures ok ==> Archived(State(), c)
      ensures OnlyKey(old(hot), hot, c.key) && drive.Keys <= old(drive.Keys) + {luck.location}
      ensures ok <==> c.key in old(hot) && Smooth(luck, old(hot)[c.key])
      ensures Dangling(State()) <= Dangling(old(State())) + {c.id}
    {
      ghost var s0 := State();
      var copied := CopyVerified(c, luck);
      ghost var s1 := State();
      SameDangling(s0, s1);
      if !copied {
        return false;
      }
      StaysKnown(s0, s1, c);
      ok := DeleteSource(c, luck);
      GapIff(s1, content, c, luck);
      ButOne(Dangling(s1), Dangling(State()), c.id);
      GrowsThen(s0, s1, State());
    }

    method DeletePendingOne(rows: seq<MediaRow>, i: nat, luck: Luck, ghost s0: Store, ghost past: seq<Store>) returns (ok: bool)
      requires Stepped(s0, past) && AllVerified(s0, rows) && i < |rows|
      modifies this`hot, this`replicas, this`media, this`trace
      requires OnlyMarks(s0, State()) && NewlyDangling(s0, State(), rows, i)
      ensures Stepped(s0, past)
      ensures OnlyMarks(s0, State()) && NewlyDangling(s0, State(), rows, i + 1)
      ensures ok && old(AllArchived(State(), rows, i)) ==> AllArchived(State(), rows, i + 1)
      ensures ok == (luck.remove == Done && luck.mark == Done)
    {
      ghost var s := State();
      StaysKnown(s0, s, rows[i]);
      StaysVerified(s0, s, rows[i].id);
      ok := DeleteSource(rows[i], luck);
      GrowsThen(s0, s, State());
      DeletionStep(s0, s, content, rows, i, luck);
      if AllArchived(s, rows, i) { AllStayArchived(s, State(), rows, i); }
    }

    /** Retry the deletions an earlier run left behind. */
    method DeletePending(rows: seq<MediaRow>, lucks: nat -> Luck, cancelled: nat -> bool) returns (failures: nat, stopped: bool)
      requires Valid() && AllVerified(State(), rows)
      modifies this`hot, this`replicas, this`media, this`trace
      ensures Stepped(old(State()), old(trace))
      ensures !stopped && failures == 0 ==> AllArchived(State(), rows, |rows|)
      ensures stopped <==> SomeOf(cancelled, |rows|)
      ensures !stopped ==> (failures == 0 <==> AllRemoved(lucks, |rows|))
      ensures OnlyMarks(old(State()), State())
      ensures !stopped ==> NewlyDangling(old(State()), State(), rows, |rows|)
    {
      failures, stopped := 0, false;
      ghost var s0 := State();
      for i := 0 to |rows|
        invariant Stepped(s0, old(trace)) && AllVerified(s0, rows)
        invariant OnlyMarks(s0, State()) && NewlyDangling(s0, State(), rows, i)
        invariant failures == 0 ==> AllArchived(State(), rows, i)
        invariant (failures == 0 <==> AllRemoved(lucks, i)) && !SomeOf(cancelled, i)
      {
        var ok := DeletePendingOne(rows, i, lucks(i), s0, old(trace));
        if !ok {
          failures := failures + 1;
        }
        if cancelled(i) {
          stopped := true;
          return;
        }
      }
    }

    /** The first i due rows are done with, and the others still have their originals. */
    ghost predicate DueRun(s0: Store, past: seq<Store>, rows: seq<MediaRow>, lucks: nat -> Luck, i: nat) reads this {
      && i <= |rows| && Stepped(s0, past) && Safe(s0, content) && DueRows(s0, rows)
      && FreshFrom(drive, lucks, i) && Waiting(hot, content, rows, i) && SmoothArchived(State(), content, rows, lucks, i)
      && NewlyDangling(s0, State(), rows, i)
    }

    /** The i-th due row, counted if it fails. */
    method ArchiveDueOne(rows: seq<MediaRow>, i: nat, lucks: nat -> Luck, failures: nat, ghost s0: Store, ghost past: seq<Store>)
      returns (more: nat)
      requires i < |rows| && DueRun(s0, past, rows, lucks, i) && Tally(failures, content, rows, lucks, i)
      modifies this`hot, this`drive, this`replicas, this`media, this`trace
      ensures DueRun(s0, past, rows, lucks, i + 1) && Tally(more, content, rows, lucks, i + 1)
    {
      ghost var s := State();
      StaysKnown(s0, s, rows[i]);
      var ok := ArchiveOne(rows[i], lucks(i));
      more := if ok then failures else failures + 1;
      GrowsThen(s0, s, State());
      OthersWait(s0, s.hot, hot, content, rows, i);
      FreshNext(old(drive), drive, lucks, i);
      OneMoreSmooth(s, State(), content, rows, lucks, i);
      NewlyThen(s0, s, State(), rows, i);
    }

    /** Archive every due row. A row that keeps failing stops none of the others: each one whose own
        calls go well ends up archived. */
    method ArchiveDue(rows: seq<MediaRow>, lucks: nat -> Luck, cancelled: nat -> bool) returns (failures: nat, stopped: bool)
      requires Valid() && Listing(State(), rows) && AllDue(State(), rows) && FreshFrom(drive, lucks, 0)
      modifies this`hot, this`drive, this`replicas, this`media, this`trace
      ensures Stepped(old(State()), old(trace))
      ensures !stopped && failures == 0 ==> AllArchived(State(), rows, |rows|)
      ensures !stopped ==> SmoothArchived(State(), content, rows, lucks, |rows|)
      ensures stopped <==> SomeOf(cancelled, |rows|)
      ensures !stopped ==> (failures == 0 <==> AllSmooth(content, rows, lucks, |rows|))
      ensures !stopped ==> NewlyDangling(old(State()), State(), rows, |rows|)
    {
      failures, stopped := 0, false;
      ghost var s0 := State();
      StillHot(s0, content, rows);
      for i := 0 to |rows|
        invariant DueRun(s0, old(trace), rows, lucks, i) && Tally(failures, content, rows, lucks, i) && !SomeOf(cancelled, i)
      {
        failures := ArchiveDueOne(rows, i, lucks, failures, s0, old(trace));
        if cancelled(i) {
          stopped := true;
          return;
        }
      }
      AllSmoothArchived(State(), content, rows, lucks);
    }

    /** One run: finish the deletions an earlier run left, then archive what is due. Wherever it is
        stopped, and from whatever state an earlier stop left, every live original stays recoverable. */
    method Run(limit: int, olderThan: Time, lucks: nat -> Luck, lucks': nat -> Luck, cancelled: nat -> bool, cancelled': nat -> bool)
      returns (r: RunResult)
      requires Valid() && FreshFrom(drive, lucks', 0)
      modifies this`hot, this`drive, this`replicas, this`media, this`trace
      ensures Stepped(old(State()), old(trace))
      ensures var pending, due := Undeleted(old(State()), limit), Due(old(State()), olderThan, limit);
        && (r == Cancelled <==> SomeOf(cancelled, |pending|) || SomeOf(cancelled', |due|))
        && (r == Completed(0) <==>
             && !SomeOf(cancelled, |pending|) && !SomeOf(cancelled', |due|)
             && AllRemoved(lucks, |pending|) && AllSmooth(content, due, lucks', |due|))
      ensures r == Completed(0) ==> AllArchived(State(), Undeleted(old(State()), limit), |Undeleted(old(State()), limit)|)
      ensures r == Completed(0) ==> AllArchived(State(), Due(old(State()), olderThan, limit), |Due(old(State()), olderThan, limit)|)
      ensures r == Completed(0) && Count(old(media), DeletionPending(old(State()))) <= (if limit < 1 then 50 else limit) ==>
        Dangling(State()) == {}
    {
      ghost var s0 := State();
      var pending := Limit(Where(media, DeletionPending(Store(media, hot, drive, replicas))), RunLimit(limit));
      assert pending == Undeleted(s0, limit);
      PendingKnown(s0, content, limit);
      var failures, stopped := DeletePending(pending, lucks, cancelled);
      if stopped {
        return Cancelled;
      }
      ghost var s1 := State();
      var due := Limit(Sort(Where(media, DueForArchive(Store(media, hot, drive, replicas), olderThan)), OldestUpload()), RunLimit(limit));
      assert due == Due(s1, olderThan, limit);
      DueListed(s1, content, olderThan, limit);
      DueStays(s0, s1, olderThan, limit);
      var more;
      more, stopped := ArchiveDue(due, lucks', cancelled');
      GrowsThen(s0, s1, State());
      if stopped {
        return Cancelled;
      }
      r := Completed(failures + more);
      if r == Completed(0) {
        AllStayArchived(s1, State(), pending, |pending|);
        if Count(s0.media, DeletionPending(s0)) <= RunLimit(limit) {
          NoneDangles(s0, s1, State(), content, pending, due);
        }
      }
    }
  }

  ghost predicate SomeOf(cancelled: nat -> bool, n: nat) { exists i :: 0 <= i < n && cancelled(i) }

  /** Both calls of each of the first n deletions went well. */
  ghost predicate AllRemoved(lucks: nat -> Luck, n: nat) {
    forall i :: 0 <= i < n ==> lucks(i).remove == Done && lucks(i).mark == Done
  }

  /** The failures counted over the first n rows: none exactly if nothing went wrong. */
  ghost predicate Tally(failures: nat, content: map<Id, Bytes>, rows: seq<MediaRow>, lucks: nat -> Luck, n: nat)
    requires n <= |rows|
  {
    failures == 0 <==> AllSmooth(content, rows, lucks, n)
  }

  /** Nothing went wrong for the first n rows. */
  ghost predicate AllSmooth(content: map<Id, Bytes>, rows: seq<MediaRow>, lucks: nat -> Luck, n: nat)
    requires n <= |rows|
  {
    forall i :: 0 <= i < n ==> rows[i].id in content && Smooth(lucks(i), content[rows[i].id])
  }

  ghost predicate AllVerified(s: Store, rows: seq<MediaRow>) {
    forall i :: 0 <= i < |rows| ==> Known(s, rows[i]) && VerifiedCopy(s, rows[i].id)
  }

  ghost predicate AllDue(s: Store, rows: seq<MediaRow>) {
    forall i :: 0 <= i < |rows| ==> rows[i].status.Ready? && !VerifiedCopy(s, rows[i].id)
  }

  ghost predicate DueRows(s: Store, rows: seq<MediaRow>) {
    Listing(s, rows) && forall i :: 0 <= i < |rows| ==> Known(s, rows[i]) && Stored(rows[i].status)
  }

  ghost predicate AllArchived(s: Store, rows: seq<MediaRow>, n: nat)
    requires n <= |rows|
  {
    forall i :: 0 <= i < n ==> Archived(s, rows[i])
  }

  lemma AllStayArchived(s: Store, s': Store, rows: seq<MediaRow>, n: nat)
    requires n <= |rows| && Grows(s, s') && AllArchived(s, rows, n)
    ensures AllArchived(s', rows, n)
  {
  }

  /** Every row whose own calls went well is archived. */
  ghost predicate SmoothArchived(s: Store, content: map<Id, Bytes>, rows: seq<MediaRow>, lucks: nat -> Luck, n: nat)
    requires n <= |rows|
  {
    forall i :: 0 <= i < n ==>
      rows[i].id in content && (Smooth(lucks(i), content[rows[i].id]) ==> Archived(s, rows[i]))
  }

  lemma SmoothStayArchived(s: Store, s': Store, content: map<Id, Bytes>, rows: seq<MediaRow>, lucks: nat -> Luck, n: nat)
    requires n <= |rows| && Grows(s, s') && SmoothArchived(s, content, rows, lucks, n)
    ensures SmoothArchived(s', content, rows, lucks, n)
  {
  }

  /** The archive names every upload from the i-th on anew. */
  ghost predicate FreshFrom(drive: map<string, Bytes>, lucks: nat -> Luck, i: nat) {
    && (forall j: nat :: i <= j ==> lucks(j).location !in drive)
    && (forall j: nat, k: nat :: j != k ==> lucks(j).location != lucks(k).location)
  }

  /** The rows from the i-th on still have their originals in hot storage. */
  ghost predicate Waiting(hot: map<string, Bytes>, content: map<Id, Bytes>, rows: seq<MediaRow>, i: nat) {
    forall j :: i <= j < |rows| ==>
      rows[j].id in content && rows[j].key in hot && hot[rows[j].key] == content[rows[j].id]
  }

  lemma FreshNext(before: map<string, Bytes>, after: map<string, Bytes>, lucks: nat -> Luck, i: nat)
    requires FreshFrom(before, lucks, i) && after.Keys <= before.Keys + {lucks(i).location}
    ensures FreshFrom(after, lucks, i + 1)
  {
  }

  lemma AllSmoothArchived(s: Store, content: map<Id, Bytes>, rows: seq<MediaRow>, lucks: nat -> Luck)
    requires SmoothArchived(s, content, rows, lucks, |rows|)
    ensures AllSmooth(content, rows, lucks, |rows|) ==> AllArchived(s, rows, |rows|)
  {
  }

  lemma OneMoreSmooth(s: Store, s': Store, content: map<Id, Bytes>, rows: seq<MediaRow>, lucks: nat -> Luck, i: nat)
    requires i < |rows| && Grows(s, s') && SmoothArchived(s, content, rows, lucks, i)
    requires rows[i].id in content && (Smooth(lucks(i), content[rows[i].id]) ==> Archived(s', rows[i]))
    ensures SmoothArchived(s', content, rows, lucks, i + 1)
  {
    SmoothStayArchived(s, s', content, rows, lucks, i);
  }

  lemma OthersWait(s: Store, before: map<string, Bytes>, after: map<string, Bytes>, content: map<Id, Bytes>,
                   rows: seq<MediaRow>, i: nat)
    requires Safe(s, content) && Listing(s, rows) && i < |rows|
    requires Waiting(before, content, rows, i) && OnlyKey(before, after, rows[i].key)
    ensures Waiting(after, content, rows, i + 1)
  {
  }

  function Undeleted(s: Store, limit: int): seq<MediaRow> { Limit(Where(s.media, DeletionPending(s)), RunLimit(limit)) }

  function Due(s: Store, olderThan: Time, limit: int): seq<MediaRow> {
    Limit(Sort(Where(s.media, DueForArchive(s, olderThan)), OldestUpload()), RunLimit(limit))
  }

  lemma PendingKnown(s: Store, content: map<Id, Bytes>, limit: int)
    requires Safe(s, content)
    ensures AllVerified(s, Undeleted(s, limit))
  {
    ListedWhere(s, content, DeletionPending(s));
    ListedLimit(s, Where(s.media, DeletionPending(s)), RunLimit(limit));
  }

  lemma DueListed(s: Store, content: map<Id, Bytes>, olderThan: Time, limit: int)
    requires Safe(s, content)
    ensures Listing(s, Due(s, olderThan, limit)) && AllDue(s, Due(s, olderThan, limit))
  {
    var rows := Where(s.media, DueForArchive(s, olderThan));
    ListedWhere(s, content, DueForArchive(s, olderThan));
    ListedSort(s, rows);
    ListedLimit(s, Sort(rows, OldestUpload()), RunLimit(limit));
  }

  /** Due rows are not archived yet, so their originals are still in hot storage. */
  lemma StillHot(s: Store, content: map<Id, Bytes>, rows: seq<MediaRow>)
    requires Safe(s, content) && Listing(s, rows) && AllDue(s, rows)
    ensures Waiting(s.hot, content, rows, 0) && DueRows(s, rows)
  {
  }

  /** No hot object but the one under key changed. */
  ghost predicate OnlyKey(before: map<string, Bytes>, after: map<string, Bytes>, key: string) {
    forall k :: k in before && k != key ==> k in after && after[k] == before[k]
  }

  lemma StaysVerified(s: Store, s': Store, id: Id)
    requires Grows(s, s') && VerifiedCopy(s, id)
    ensures VerifiedCopy(s', id)
  {
  }

  lemma KnownContent(s: Store, content: map<Id, Bytes>, c: MediaRow)
    requires Safe(s, content) && Known(s, c) && Stored(c.status) && c.key in s.hot
    ensures c.id in content && s.hot[c.key] == content[c.id]
  {
  }

  /** A location nothing is stored at is nobody's verified copy. */
  lemma Unverified(s: Store, content: map<Id, Bytes>, location: string)
    requires Safe(s, content) && location !in s.drive
    ensures forall k :: k in s.replicas && k.DriveCopy? && s.replicas[k].Verified? ==> k.location != location
  {
  }

  lemma MarkKeepsSafe(s: Store, content: map<Id, Bytes>, c: MediaRow, now: Time)
    requires Safe(s, content)
    ensures var s' := Marked(s, c, now);
      && Safe(s', content) && Grows(s, s')
      && forall m :: m in s'.media && m.id == c.id ==> m.sourceDeletedAt.Some?
  {
    UpdateAt(s.media, Unmarked(c.id), SetDeleted(now));
    var s' := Marked(s, c, now);
    forall k | k in s'.replicas ensures TrueCopy(s', k, content) {
      if k in s.replicas { assert TrueCopy(s, k, content); }
    }
    forall m | m in s'.media ensures MarkAgrees(s', m) {
      var i :| 0 <= i < |s'.media| && s'.media[i] == m;
      assert s.media[i] in s.media && MarkAgrees(s, s.media[i]);
    }
    StillSafe(s, s', content);
  }

  function Unmarked(id: Id): MediaRow -> bool { (m: MediaRow) => m.id == id && m.sourceDeletedAt.None? }

  function SetDeleted(now: Time): MediaRow -> MediaRow { (m: MediaRow) => m.(sourceDeletedAt := Some(now)) }

  /** A step that takes away no hot object, no verified copy and no byte of one. */
  lemma StillSafe(s: Store, s': Store, content: map<Id, Bytes>)
    requires Safe(s, content) && Grows(s, s') && s'.hot == s.hot
    requires forall k :: k in s'.replicas ==> TrueCopy(s', k, content)
    requires forall m :: m in s'.media ==> MarkAgrees(s', m)
    ensures Safe(s', content)
  {
    forall m | m in s'.media ensures Kept(s', m, content) {
      var i :| 0 <= i < |s'.media| && s'.media[i] == m;
      assert s.media[i] in s.media && Kept(s, s.media[i], content);
      if Stored(m.status) && m.key !in s.hot { CopySurvives(s, s', content, m.id); }
    }
  }

  lemma CopySurvives(s: Store, s': Store, content: map<Id, Bytes>, id: Id)
    requires Grows(s, s') && id in content && HasCopy(s, id, content[id])
    requires forall k :: k in s'.replicas ==> TrueCopy(s', k, content)
    ensures HasCopy(s', id, content[id])
  {
  }

  /** Deleting the hot object of a row that has a verified copy. */
  lemma HotDeleted(s: Store, s': Store, content: map<Id, Bytes>, c: MediaRow)
    requires Safe(s, content) && Known(s, c) && VerifiedCopy(s, c.id)
    requires s' == s.(hot := map k | k in s.hot && k != c.key :: s.hot[k])
    ensures Safe(s', content) && Grows(s, s')
  {
  }

  // ---- A whole run ----

  function RunLimit(limit: int): nat { if limit < 1 then 50 else limit }

  datatype RunResult = Cancelled | Completed(failures: nat)

  /** The copy arrives as it was sent and is read back and recorded. */
  ghost predicate Copies(luck: Luck, bytes: Bytes) {
    !luck.openFails && luck.upload == Done && luck.stored == bytes && !luck.readFails && luck.record == Done
  }

  /** Nothing goes wrong for this candidate: what arrives is what was sent. */
  ghost predicate Smooth(luck: Luck, bytes: Bytes) { Copies(luck, bytes) && luck.remove == Done && luck.mark == Done }

  /** The rows of one listing, each once, as the run found them. */
  ghost predicate Listing(s: Store, rows: seq<MediaRow>) {
    NoRepeats(rows) && forall i :: 0 <= i < |rows| ==> rows[i] in s.media
  }

  lemma ListedWhere(s: Store, content: map<Id, Bytes>, p: MediaRow -> bool)
    requires Safe(s, content)
    ensures Listing(s, Where(s.media, p)) && forall m :: m in Where(s.media, p) ==> p(m)
  {
    var rows := Where(s.media, p);
    WhereMembers(s.media, p);
    assert forall i :: 0 <= i < |rows| ==> rows[i] in rows;
    forall i, j | 0 <= i < j < |rows| ensures rows[i] != rows[j] {
      WhereSplits(s.media, p, i, j);
    }
  }

  lemma ListedSort(s: Store, rows: seq<MediaRow>)
    requires Listing(s, rows)
    ensures Listing(s, Sort(rows, OldestUpload()))
    ensures forall m :: m in Sort(rows, OldestUpload()) ==> m in rows
  {
    SortNoRepeats(rows, OldestUpload());
    SortMembers(rows, OldestUpload());
    var sorted := Sort(rows, OldestUpload());
    assert forall i :: 0 <= i < |sorted| ==> sorted[i] in sorted;
  }

  lemma ListedLimit(s: Store, rows: seq<MediaRow>, limit: nat)
    requires Listing(s, rows)
    ensures Listing(s, Limit(rows, limit))
    ensures forall i :: 0 <= i < |Limit(rows, limit)| ==> Limit(rows, limit)[i] in rows
  {
  }
}
