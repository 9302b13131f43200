/** The quota counters on the event row, kept in step with the media rows by one SQL transaction
    per operation (internal/platform/database/media_repository.go). The functions say what each
    statement does to both tables; `Agrees` is the CounterDrift query of the reconciler. */
module MediaLedger {
  import opened Tables
  import opened MediaModel

  datatype Ledger = Ledger(events: map<Id, EventRow>, media: seq<Media>)

  datatype Resource = ByteQuota | MediaQuota | PhotoQuota | VideoQuota

  datatype Outcome =
    | Done
    | NotFound
    | Duplicate
    | DuplicateKey
    | NotAccepting
    | Refused(resource: Resource, limit: int, usage: int)

  /** A reservation request: the row ReserveUpload is handed, always pending. */
  datatype Upload = Upload(
    id: Id, eventId: Id, sessionId: Id, clientUploadId: Id, filename: string,
    mimeType: string, expectedSize: nat, checksum: string, at: Time)

  function PendingRow(u: Upload): Media {
    Media(u.id, u.eventId, u.sessionId, u.clientUploadId, Original(u.eventId, u.id), u.filename,
          u.mimeType, u.expectedSize, None, u.checksum, Pending, u.at, u.at, None)
  }

  datatype ReserveLimits = ReserveLimits(maxEventBytes: int, enforceItems: bool)

  function Greatest(x: int, y: int): (r: int)
    ensures r >= x && r >= y && (r == x || r == y)
  {
    if x >= y then x else y
  }

  // ---- The unique indexes ----

  /** Primary key, and (event_id, guest_session_id, client_upload_id). */
  predicate SameKey(a: Media, b: Media) {
    a.id == b.id || (a.eventId == b.eventId && a.sessionId == b.sessionId && a.clientUploadId == b.clientUploadId)
  }

  predicate KeysUnique(rows: seq<Media>) {
    forall i, j :: 0 <= i < j < |rows| ==> !SameKey(rows[i], rows[j])
  }

  /** (event_id, checksum_sha256) WHERE status = 'ready'. */
  predicate ReadyClash(a: Media, b: Media) {
    a.status.Ready? && b.status.Ready? && a.eventId == b.eventId && a.checksum == b.checksum
  }

  predicate ReadyUnique(rows: seq<Media>) {
    forall i, j :: 0 <= i < j < |rows| ==> !ReadyClash(rows[i], rows[j])
  }

  // ---- ReserveUpload ----

  function ByteLimit(ev: EventRow, limits: ReserveLimits): int {
    if limits.maxEventBytes != 0 then limits.maxEventBytes else ev.limits.maxBytes
  }

  predicate Fits(ev: EventRow, u: Upload, limits: ReserveLimits) {
    var (photo, video) := MediaKind(u.mimeType);
    var c, max := ev.counters, ev.limits;
    && ev.status.Active?
    && c.usedBytes + c.reservedBytes + u.expectedSize <= ByteLimit(ev, limits)
    && (limits.enforceItems ==>
         && (max.maxItems == 0 || c.uploadedItems + c.reservedItems + 1 <= max.maxItems)
         && (photo == 0 || max.maxPhotos == 0 || c.uploadedPhotos + c.reservedPhotos + 1 <= max.maxPhotos)
         && (video == 0 || max.maxVideos == 0 || c.uploadedVideos + c.reservedVideos + 1 <= max.maxVideos))
  }

  function Reserve(c: Counters, u: Upload): Counters {
    var (photo, video) := MediaKind(u.mimeType);
    c.(reservedBytes := c.reservedBytes + u.expectedSize, reservedItems := c.reservedItems + 1,
       reservedPhotos := c.reservedPhotos + photo, reservedVideos := c.reservedVideos + video)
  }

  /** reservationRefusal: which limit applies, asked only once the UPDATE matched nothing. */
  function Refusal(s: Ledger, u: Upload, limits: ReserveLimits): Outcome {
    if u.eventId !in s.events then NotFound
    else
      var ev := s.events[u.eventId];
      var (photo, video) := MediaKind(u.mimeType);
      var c, max := ev.counters, ev.limits;
      if !ev.status.Active? then NotAccepting
      else if limits.enforceItems && video == 1 && max.maxVideos > 0 && c.uploadedVideos + c.reservedVideos + 1 > max.maxVideos then
        Refused(VideoQuota, max.maxVideos, c.uploadedVideos + c.reservedVideos)
      else if limits.enforceItems && photo == 1 && max.maxPhotos > 0 && c.uploadedPhotos + c.reservedPhotos + 1 > max.maxPhotos then
        Refused(PhotoQuota, max.maxPhotos, c.uploadedPhotos + c.reservedPhotos)
      else if limits.enforceItems && max.maxItems > 0 && c.uploadedItems + c.reservedItems + 1 > max.maxItems then
        Refused(MediaQuota, max.maxItems, c.uploadedItems + c.reservedItems)
      else
        Refused(ByteQuota, if limits.maxEventBytes > 0 then limits.maxEventBytes else max.maxBytes,
                c.usedBytes + c.reservedBytes)
  }

  predicate KeyTaken(rows: seq<Media>, m: Media) { exists i :: 0 <= i < |rows| && SameKey(rows[i], m) }

  function ReserveUpload(s: Ledger, u: Upload, limits: ReserveLimits): (Ledger, Outcome) {
    if u.eventId !in s.events || !Fits(s.events[u.eventId], u, limits) then (s, Refusal(s, u, limits))
    else if KeyTaken(s.media, PendingRow(u)) then (s, DuplicateKey)
    else
      var ev := s.events[u.eventId];
      (Ledger(s.events[u.eventId := ev.(counters := Reserve(ev.counters, u))], s.media + [PendingRow(u)]), Done)
  }

  // ---- MarkReady ----

  function UploadRow(e: Id, id: Id): Media -> bool {
    (m: Media) => m.id == id && m.eventId == e && InFlight(m.status)
  }

  function SetReady(size: nat, at: Time): Media -> Media {
    (m: Media) => m.(status := Ready, actualSize := Some(size), uploadedAt := Some(at), lastActivityAt := at)
  }

  function Complete(c: Counters, m: Media, size: nat): Counters {
    var (photo, video) := MediaKind(m.mimeType);
    Counters(
      c.usedBytes + size, Greatest(c.reservedBytes - m.expectedSize, 0),
      c.uploadedItems + 1, Greatest(c.reservedItems - 1, 0),
      c.uploadedPhotos + photo, Greatest(c.reservedPhotos - photo, 0),
      c.uploadedVideos + video, Greatest(c.reservedVideos - video, 0))
  }

  function MarkReady(s: Ledger, e: Id, id: Id, size: nat, at: Time): (Ledger, Outcome) {
    var updated := Update(s.media, UploadRow(e, id), SetReady(size, at));
    if !ReadyUnique(updated) then (s, Duplicate)
    else if Count(s.media, UploadRow(e, id)) != 1 then (s, NotFound)
    else if e !in s.events then (s.(media := updated), Done)
    else
      var m := Where(s.media, UploadRow(e, id))[0];
      var ev := s.events[e];
      (Ledger(s.events[e := ev.(counters := Complete(ev.counters, m, size))], updated), Done)
  }

  // ---- DeleteManyUploads ----

  function Listed(ids: seq<Id>): Media -> bool { (m: Media) => m.id in ids }

  function Released(ids: seq<Id>): Media -> bool { (m: Media) => m.id in ids && InFlight(m.status) }

  function Release(c: Counters, r: Counters): Counters {
    c.(reservedBytes := Greatest(c.reservedBytes - r.reservedBytes, 0),
       reservedItems := Greatest(c.reservedItems - r.reservedItems, 0),
       reservedPhotos := Greatest(c.reservedPhotos - r.reservedPhotos, 0),
       reservedVideos := Greatest(c.reservedVideos - r.reservedVideos, 0))
  }

  predicate HasRowOf(rows: seq<Media>, e: Id) { exists i :: 0 <= i < |rows| && rows[i].eventId == e }

  function DeleteManyUploads(s: Ledger, ids: seq<Id>): Ledger {
    var released := Where(s.media, Released(ids));
    Ledger(
      map e | e in s.events ::
        var ev := s.events[e];
        if HasRowOf(released, e) then ev.(counters := Release(ev.counters, Total(released, e))) else ev,
      Delete(s.media, Listed(ids)))
  }

  // ---- UpdateStatus, UpdateStatuses and deleteForEvent ----

  function StoredRow(e: Id, ids: seq<Id>): Media -> bool {
    (m: Media) => m.eventId == e && m.id in ids && Stored(m.status)
  }

  function SetStatus(status: MediaStatus, at: Time): Media -> Media {
    (m: Media) => m.(status := status, lastActivityAt := at)
  }

  /** One UPDATE outside any transaction: when fewer rows match than were named, the rows that did
      match stay moderated although the call reports ErrNotFound. */
  function UpdateStatuses(s: Ledger, e: Id, ids: seq<Id>, status: MediaStatus, at: Time): (Ledger, Outcome) {
    var updated := Update(s.media, StoredRow(e, ids), SetStatus(status, at));
    if !ReadyUnique(updated) then (s, DuplicateKey)
    else (s.(media := updated), if Count(s.media, StoredRow(e, ids)) == |ids| then Done else NotFound)
  }

  function DeleteForEvent(s: Ledger, e: Id, ids: seq<Id>, at: Time): (Ledger, Outcome) {
    var matched := Where(s.media, StoredRow(e, ids));
    if |matched| != |ids| then (s, NotFound)
    else
      var bytes := Total(matched, e).usedBytes;
      var media := Update(s.media, StoredRow(e, ids), SetStatus(Deleted, at));
      if e !in s.events then (s.(media := media), Done)
      else
        var ev := s.events[e];
        var c := ev.counters.(usedBytes := Greatest(ev.counters.usedBytes - bytes, 0));
        (Ledger(s.events[e := ev.(counters := c)], media), Done)
  }

  // ---- MarkPurged, and the event row's own lifecycle ----

  function LiveRow(e: Id): Media -> bool { (m: Media) => m.eventId == e && !m.status.Deleted? }

  function Purge(ev: EventRow): EventRow {
    ev.(status := if ev.status.Active? then Closed else ev.status,
        counters := ev.counters.(usedBytes := 0, reservedBytes := 0, reservedItems := 0,
                                 reservedPhotos := 0, reservedVideos := 0),
        purged := true)
  }

  function MarkPurged(s: Ledger, e: Id, at: Time): Ledger {
    Ledger(if e in s.events then s.events[e := Purge(s.events[e])] else s.events,
           Update(s.media, LiveRow(e), SetStatus(Deleted, at)))
  }

  function CreateEvent(s: Ledger, e: Id, limits: HotLimits): Ledger {
    if e in s.events then s else s.(events := s.events[e := EventRow(Active, limits, ZERO, false)])
  }

  function CloseEvent(s: Ledger, e: Id): Ledger {
    if e in s.events && s.events[e].status.Active? then s.(events := s.events[e := s.events[e].(status := Closed)]) else s
  }

  function DeleteEvent(s: Ledger, e: Id): Ledger {
    if e in s.events then s.(events := s.events[e := s.events[e].(status := EventDeleted)]) else s
  }

  /** applyHotLimits: a plan change rewrites the limits and never the counters. */
  function SetLimits(s: Ledger, e: Id, limits: HotLimits): Ledger {
    if e in s.events then s.(events := s.events[e := s.events[e].(limits := limits)]) else s
  }

  // ---- The invariant ----

  /** No CounterDrift row for e, and the three reserved columns the query leaves out agree too. */
  ghost predicate Agrees(c: Counters, rows: seq<Media>, e: Id) {
    forall column :: Get(c, column) == Sum(rows, Weight(e, column))
  }

  /** A purged event keeps its rows as deleted, holds no bytes and takes no uploads. */
  ghost predicate Retired(ev: EventRow, rows: seq<Media>, e: Id) {
    && !ev.status.Active?
    && ev.counters.usedBytes == ev.counters.reservedBytes == ev.counters.reservedItems
       == ev.counters.reservedPhotos == ev.counters.reservedVideos == 0
    && forall m :: m in rows && m.eventId == e ==> m.status.Deleted?
  }

  ghost predicate EventOk(ev: EventRow, rows: seq<Media>, e: Id) {
    if ev.purged then Retired(ev, rows, e) else Agrees(ev.counters, rows, e)
  }

  ghost predicate Valid(s: Ledger) {
    && KeysUnique(s.media) && ReadyUnique(s.media)
    && (forall m :: m in s.media ==> m.eventId in s.events)
    && (forall e :: e in s.events ==> EventOk(s.events[e], s.media, e))
  }

  // ---- Every operation keeps it ----

  /** The SET clauses above never touch a key column. */
  ghost predicate KeepsKey(rows: seq<Media>, f: Media -> Media) {
    forall i :: 0 <= i < |rows| ==>
      var m, n := rows[i], f(rows[i]);
      m.id == n.id && m.eventId == n.eventId && m.sessionId == n.sessionId && m.clientUploadId == n.clientUploadId
  }

  lemma UpdateKeepsKeys(rows: seq<Media>, p: Media -> bool, f: Media -> Media, events: set<Id>)
    requires KeysUnique(rows) && KeepsKey(rows, f)
    requires forall m :: m in rows ==> m.eventId in events
    ensures KeysUnique(Update(rows, p, f))
    ensures forall m :: m in Update(rows, p, f) ==> m.eventId in events
  {
    UpdateAt(rows, p, f);
  }

  /** An UPDATE of other events' rows is invisible to e. */
  lemma OtherEvent(ev: EventRow, rows: seq<Media>, p: Media -> bool, f: Media -> Media, e: Id)
    requires EventOk(ev, rows, e) && KeepsKey(rows, f)
    requires forall i :: 0 <= i < |rows| && p(rows[i]) ==> rows[i].eventId != e
    ensures EventOk(ev, Update(rows, p, f), e)
  {
    forall column { SumUpdateSame(rows, p, f, Weight(e, column)); }
    UpdateAt(rows, p, f);
  }

  lemma ReserveColumn(c: Counters, u: Upload, e: Id, column: Column)
    ensures Get(if e == u.eventId then Reserve(c, u) else c, column) == Get(c, column) + Weight(e, column)(PendingRow(u))
  {
  }

  lemma ReserveAgrees(c: Counters, rows: seq<Media>, u: Upload, e: Id)
    requires Agrees(c, rows, e)
    ensures Agrees(if e == u.eventId then Reserve(c, u) else c, rows + [PendingRow(u)], e)
  {
    forall column ensures Get(if e == u.eventId then Reserve(c, u) else c, column) == Sum(rows + [PendingRow(u)], Weight(e, column)) {
      SumAppend(rows, PendingRow(u), Weight(e, column));
      ReserveColumn(c, u, e, column);
    }
  }

  lemma ReserveKeepsValid(s: Ledger, u: Upload, limits: ReserveLimits)
    requires Valid(s)
    ensures Valid(ReserveUpload(s, u, limits).0)
  {
    var s' := ReserveUpload(s, u, limits).0;
    if s' != s {
      forall e | e in s'.events ensures EventOk(s'.events[e], s'.media, e) {
        if !s.events[e].purged { ReserveAgrees(s.events[e].counters, s.media, u, e); }
      }
    }
  }

  /** No counter of an event in step with its rows is smaller than what any of its rows add up to:
      subtracting them cannot go below 0. */
  lemma Covers(c: Counters, rows: seq<Media>, p: Media -> bool, e: Id)
    requires Agrees(c, rows, e)
    ensures forall column :: Get(c, column) >= Sum(Where(rows, p), Weight(e, column))
  {
    forall column { SumWhereAtMost(rows, p, Weight(e, column)); }
  }

  lemma CompleteMoves(c: Counters, rows: seq<Media>, e: Id, id: Id, size: nat, at: Time, m: Media)
    requires Agrees(c, rows, e) && Where(rows, UploadRow(e, id)) == [m]
    requires UploadRow(e, id)(m)
    ensures Agrees(Complete(c, m, size), Update(rows, UploadRow(e, id), SetReady(size, at)), e)
  {
    var p, f := UploadRow(e, id), SetReady(size, at);
    Covers(c, rows, p, e);
    forall column ensures Get(c, column) >= Weight(e, column)(m) {
      SumOne(m, Weight(e, column));
    }
    forall column
      ensures Get(Complete(c, m, size), column) == Sum(Update(rows, p, f), Weight(e, column))
    {
      SumUpdateOne(rows, p, f, Weight(e, column), m);
      CompleteColumn(c, m, size, at, e, column);
    }
  }

  lemma CompleteColumn(c: Counters, m: Media, size: nat, at: Time, e: Id, column: Column)
    requires m.eventId == e && InFlight(m.status)
    requires forall col :: Get(c, col) >= Weight(e, col)(m)
    ensures Get(Complete(c, m, size), column) ==
      Get(c, column) - Weight(e, column)(m) + Weight(e, column)(SetReady(size, at)(m))
  {
  }

  lemma MarkReadyKeepsValid(s: Ledger, e: Id, id: Id, size: nat, at: Time)
    requires Valid(s)
    ensures Valid(MarkReady(s, e, id, size, at).0)
  {
    var s' := MarkReady(s, e, id, size, at).0;
    var p, f := UploadRow(e, id), SetReady(size, at);
    if s' != s {
      UpdateKeepsKeys(s.media, p, f, s.events.Keys);
      WhereMembers(s.media, p);
      var m := Where(s.media, p)[0];
      assert m in Where(s.media, p);
      CompleteMoves(s.events[e].counters, s.media, e, id, size, at, m);
      forall x | x in s'.events && x != e ensures EventOk(s'.events[x], s'.media, x) {
        OtherEvent(s.events[x], s.media, p, f, x);
      }
    }
  }

  /** A SET that makes no row ready cannot break the ready-checksum index. */
  lemma ReadyOnlyShrinks(rows: seq<Media>, p: Media -> bool, f: Media -> Media)
    requires ReadyUnique(rows)
    requires forall i :: 0 <= i < |rows| ==> !f(rows[i]).status.Ready?
    ensures ReadyUnique(Update(rows, p, f))
  {
    UpdateAt(rows, p, f);
  }

  /** Deleting rows keeps both indexes. */
  lemma {:induction false} DeleteKeepsUnique(rows: seq<Media>, p: Media -> bool)
    requires KeysUnique(rows) && ReadyUnique(rows)
    ensures KeysUnique(Delete(rows, p)) && ReadyUnique(Delete(rows, p))
  {
    if rows != [] {
      var rest, last := rows[..|rows| - 1], rows[|rows| - 1];
      DeleteKeepsUnique(rest, p);
      DeleteMembers(rest, p);
      forall m | m in Delete(rest, p) ensures !SameKey(m, last) && !ReadyClash(m, last) {
        var i :| 0 <= i < |rest| && rest[i] == m;
        assert rows[i] == m && rows[|rows| - 1] == last;
      }
      var kept := Delete(rest, p);
      assert forall i :: 0 <= i < |kept| ==> kept[i] in kept;
    }
  }

  lemma ModerateKeepsValid(s: Ledger, e: Id, ids: seq<Id>, status: MediaStatus, at: Time)
    requires Valid(s) && Stored(status)
    ensures Valid(UpdateStatuses(s, e, ids, status, at).0)
  {
    var p, f := StoredRow(e, ids), SetStatus(status, at);
    UpdateKeepsKeys(s.media, p, f, s.events.Keys);
    forall x | x in s.events ensures EventOk(s.events[x], Update(s.media, p, f), x) {
      if s.events[x].purged {
        OtherEvent(s.events[x], s.media, p, f, x);
      } else {
        forall column { SumUpdateSame(s.media, p, f, Weight(x, column)); }
      }
    }
  }

  /** A deleted row still counts as an upload: it is worth what it was in every column but the bytes. */
  lemma SoftDeleteColumn(rows: seq<Media>, e: Id, ids: seq<Id>, at: Time, column: Column)
    requires column != UsedBytes
    ensures Sum(Update(rows, StoredRow(e, ids), SetStatus(Deleted, at)), Weight(e, column)) == Sum(rows, Weight(e, column))
  {
    SumUpdateSame(rows, StoredRow(e, ids), SetStatus(Deleted, at), Weight(e, column));
  }

  /** Soft deletion gives the bytes back and nothing else. */
  lemma SoftDeleteMoves(c: Counters, rows: seq<Media>, e: Id, ids: seq<Id>, at: Time)
    requires Agrees(c, rows, e)
    ensures Agrees(c.(usedBytes := Greatest(c.usedBytes - Total(Where(rows, StoredRow(e, ids)), e).usedBytes, 0)),
                   Update(rows, StoredRow(e, ids), SetStatus(Deleted, at)), e)
  {
    var p, f := StoredRow(e, ids), SetStatus(Deleted, at);
    Covers(c, rows, p, e);
    SumUpdateClear(rows, p, f, Weight(e, UsedBytes));
    assert Get(c, UsedBytes) >= Sum(Where(rows, p), Weight(e, UsedBytes));
    forall column | column != UsedBytes { SoftDeleteColumn(rows, e, ids, at, column); }
  }

  lemma SoftDeleteKeepsValid(s: Ledger, e: Id, ids: seq<Id>, at: Time)
    requires Valid(s)
    ensures Valid(DeleteForEvent(s, e, ids, at).0)
  {
    var p, f := StoredRow(e, ids), SetStatus(Deleted, at);
    var s' := DeleteForEvent(s, e, ids, at).0;
    if |Where(s.media, p)| == |ids| {
      UpdateKeepsKeys(s.media, p, f, s.events.Keys);
      ReadyOnlyShrinks(s.media, p, f);
      forall x | x in s'.events ensures EventOk(s'.events[x], s'.media, x) {
        if x == e && !s.events[e].purged {
          SoftDeleteMoves(s.events[e].counters, s.media, e, ids, at);
        } else {
          OtherEvent(s.events[x], s.media, p, f, x);
          if x == e { PurgedMatchesNothing(s, e, ids); }
        }
      }
    }
  }

  /** A purged event has no stored row left to match, so there is nothing to subtract. */
  lemma PurgedMatchesNothing(s: Ledger, e: Id, ids: seq<Id>)
    requires Valid(s) && e in s.events && s.events[e].purged
    ensures Where(s.media, StoredRow(e, ids)) == []
  {
    WhereNone(s.media, StoredRow(e, ids));
  }

  lemma PurgeKeepsValid(s: Ledger, e: Id, at: Time)
    requires Valid(s)
    ensures Valid(MarkPurged(s, e, at))
  {
    var p, f := LiveRow(e), SetStatus(Deleted, at);
    var s' := MarkPurged(s, e, at);
    UpdateKeepsKeys(s.media, p, f, s.events.Keys);
    ReadyOnlyShrinks(s.media, p, f);
    UpdateAt(s.media, p, f);
    forall x | x in s'.events && x != e ensures EventOk(s'.events[x], s'.media, x) {
      OtherEvent(s.events[x], s.media, p, f, x);
    }
  }

  lemma EventRowKeepsValid(s: Ledger, e: Id, limits: HotLimits)
    requires Valid(s)
    ensures Valid(CreateEvent(s, e, limits)) && Valid(CloseEvent(s, e))
    ensures Valid(DeleteEvent(s, e)) && Valid(SetLimits(s, e, limits))
  {
    if e !in s.events {
      forall column { SumZero(s.media, Weight(e, column)); }
    }
  }

  // ---- The statements, on the columns ----

  ghost predicate InTheWay(m: Media, u: Upload) {
    m.id == u.id || (m.eventId == u.eventId && m.sessionId == u.sessionId && m.clientUploadId == u.clientUploadId)
  }

  /** When a reservation is made, exactly: the event takes uploads, bytes used and reserved leave room
      for this one under the cap of the call or else of the event, so do the items if they are
      enforced, and neither its id nor its client upload has a row. Then the event holds that much
      more and the row is there; otherwise nothing changed. */
  lemma ReserveIff(s: Ledger, u: Upload, limits: ReserveLimits)
    ensures var (s', r) := ReserveUpload(s, u, limits);
      r == Done <==>
        && u.eventId in s.events && s.events[u.eventId].status == Active
        && var c, max := s.events[u.eventId].counters, s.events[u.eventId].limits;
        && c.usedBytes + c.reservedBytes + u.expectedSize <= (if limits.maxEventBytes == 0 then max.maxBytes else limits.maxEventBytes)
        && (limits.enforceItems && max.maxItems > 0 ==> c.uploadedItems + c.reservedItems < max.maxItems)
        && (limits.enforceItems && max.maxPhotos > 0 && "image/" <= u.mimeType ==> c.uploadedPhotos + c.reservedPhotos < max.maxPhotos)
        && (limits.enforceItems && max.maxVideos > 0 && "video/" <= u.mimeType ==> c.uploadedVideos + c.reservedVideos < max.maxVideos)
        && forall m :: m in s.media ==> !InTheWay(m, u)
    ensures var (s', r) := ReserveUpload(s, u, limits);
      if r != Done then s' == s
      else
        var ev := s.events[u.eventId];
        var c, photo, video := ev.counters, "image/" <= u.mimeType, "video/" <= u.mimeType;
        && s'.events == s.events[u.eventId := ev.(counters := Counters(
             c.usedBytes, c.reservedBytes + u.expectedSize, c.uploadedItems, c.reservedItems + 1,
             c.uploadedPhotos, if photo then c.reservedPhotos + 1 else c.reservedPhotos,
             c.uploadedVideos, if video then c.reservedVideos + 1 else c.reservedVideos))]
        && s'.media == s.media + [Media(u.id, u.eventId, u.sessionId, u.clientUploadId, Original(u.eventId, u.id), u.filename,
                                        u.mimeType, u.expectedSize, None, u.checksum, Pending, u.at, u.at, None)]
  {
    KeyTakenIff(s.media, u);
    NotBoth(u.mimeType);
  }

  lemma KeyTakenIff(rows: seq<Media>, u: Upload)
    ensures KeyTaken(rows, PendingRow(u)) <==> exists m :: m in rows && InTheWay(m, u)
  {
    if m :| m in rows && InTheWay(m, u) {
      var i :| 0 <= i < |rows| && rows[i] == m;
      assert SameKey(rows[i], PendingRow(u));
    }
    if i :| 0 <= i < |rows| && SameKey(rows[i], PendingRow(u)) { assert rows[i] in rows && InTheWay(rows[i], u); }
  }

  lemma NotBoth(mimeType: string)
    ensures !("image/" <= mimeType && "video/" <= mimeType)
  {
    assert "image/" <= mimeType ==> mimeType[0] == 'i';
  }

  /** Which refusal it is: of the limits the upload would pass the video one is named first, then the
      photo one, then the item one, then the bytes, each with the usage it was compared to. */
  lemma RefusalIs(s: Ledger, u: Upload, limits: ReserveLimits)
    requires ReserveUpload(s, u, limits).1 != Done
    ensures var r := ReserveUpload(s, u, limits).1;
      && (r == NotFound <==> u.eventId !in s.events)
      && (r == NotAccepting <==> u.eventId in s.events && s.events[u.eventId].status != Active)
      && (u.eventId in s.events && s.events[u.eventId].status == Active ==>
           var c, max := s.events[u.eventId].counters, s.events[u.eventId].limits;
           var video := limits.enforceItems && "video/" <= u.mimeType && 0 < max.maxVideos <= c.uploadedVideos + c.reservedVideos;
           var photo := limits.enforceItems && "image/" <= u.mimeType && 0 < max.maxPhotos <= c.uploadedPhotos + c.reservedPhotos;
           var items := limits.enforceItems && 0 < max.maxItems <= c.uploadedItems + c.reservedItems;
           var cap := if limits.maxEventBytes == 0 then max.maxBytes else limits.maxEventBytes;
           if video then r == Refused(VideoQuota, max.maxVideos, c.uploadedVideos + c.reservedVideos)
           else if photo then r == Refused(PhotoQuota, max.maxPhotos, c.uploadedPhotos + c.reservedPhotos)
           else if items then r == Refused(MediaQuota, max.maxItems, c.uploadedItems + c.reservedItems)
           else if c.usedBytes + c.reservedBytes + u.expectedSize > cap then
             r == Refused(ByteQuota, if limits.maxEventBytes > 0 then limits.maxEventBytes else max.maxBytes, c.usedBytes + c.reservedBytes)
           else r == DuplicateKey)
  {
    NotBoth(u.mimeType);
  }

  /** The row is one of e's uploads under this id and still in flight. */
  ghost predicate Waiting(m: Media, e: Id, id: Id) { m.id == id && m.eventId == e && m.status in {Pending, Uploading, Uploaded} }

  /** When a completion is recorded, exactly: the upload is in flight, and no other photo of the event
      with its checksum is ready. */
  lemma MarkReadyIff(s: Ledger, e: Id, id: Id, size: nat, at: Time, m: Media)
    requires Valid(s) && m in s.media && Waiting(m, e, id)
    ensures var (s', r) := MarkReady(s, e, id, size, at);
      r == if exists o :: o in s.media && o.status == Ready && o.eventId == e && o.checksum == m.checksum then Duplicate else Done
  {
    OneUpload(s.media, e, id, m);
    ReadyClashes(s.media, e, id, size, at, m);
    Single(m, UploadRow(e, id), SetReady(size, at));
  }

  lemma OneUpload(rows: seq<Media>, e: Id, id: Id, m: Media)
    requires KeysUnique(rows) && m in rows && Waiting(m, e, id)
    ensures Where(rows, UploadRow(e, id)) == [m]
  {
    var i :| 0 <= i < |rows| && rows[i] == m;
    forall j | 0 <= j < |rows| && j != i ensures !UploadRow(e, id)(rows[j]) {
      assert !SameKey(rows[if i < j then i else j], rows[if i < j then j else i]);
    }
    OnlyAt(rows, UploadRow(e, id), i);
  }

  lemma ReadyClashes(rows: seq<Media>, e: Id, id: Id, size: nat, at: Time, m: Media)
    requires KeysUnique(rows) && ReadyUnique(rows) && m in rows && Waiting(m, e, id)
    ensures ReadyUnique(Update(rows, UploadRow(e, id), SetReady(size, at))) <==>
      !exists o :: o in rows && o.status == Ready && o.eventId == e && o.checksum == m.checksum
  {
    if o :| o in rows && o.status == Ready && o.eventId == e && o.checksum == m.checksum {
      ClashesWith(rows, e, id, size, at, m, o);
    } else {
      ClashesWithNone(rows, e, id, size, at, m);
    }
  }

  lemma ClashesWith(rows: seq<Media>, e: Id, id: Id, size: nat, at: Time, m: Media, o: Media)
    requires m in rows && Waiting(m, e, id) && o in rows && o.status == Ready && o.eventId == e && o.checksum == m.checksum
    ensures !ReadyUnique(Update(rows, UploadRow(e, id), SetReady(size, at)))
  {
    var after := Update(rows, UploadRow(e, id), SetReady(size, at));
    UpdateAt(rows, UploadRow(e, id), SetReady(size, at));
    var i :| 0 <= i < |rows| && rows[i] == m;
    var j :| 0 <= j < |rows| && rows[j] == o;
    assert ReadyClash(after[if i < j then i else j], after[if i < j then j else i]);
  }

  lemma ClashesWithNone(rows: seq<Media>, e: Id, id: Id, size: nat, at: Time, m: Media)
    requires KeysUnique(rows) && ReadyUnique(rows) && m in rows && Waiting(m, e, id)
    requires forall o :: o in rows ==> !(o.status == Ready && o.eventId == e && o.checksum == m.checksum)
    ensures ReadyUnique(Update(rows, UploadRow(e, id), SetReady(size, at)))
  {
    var after := Update(rows, UploadRow(e, id), SetReady(size, at));
    UpdateAt(rows, UploadRow(e, id), SetReady(size, at));
    OnlyWaiting(rows, e, id, m);
    forall j, k | 0 <= j < k < |rows| ensures !ReadyClash(after[j], after[k]) {
      assert !SameKey(rows[j], rows[k]) && !ReadyClash(rows[j], rows[k]);
      assert rows[j] in rows && rows[k] in rows;
    }
  }

  lemma OnlyWaiting(rows: seq<Media>, e: Id, id: Id, m: Media)
    requires KeysUnique(rows) && m in rows && Waiting(m, e, id)
    ensures forall i :: 0 <= i < |rows| && UploadRow(e, id)(rows[i]) ==> rows[i] == m
  {
  }

  /** The counters once this upload's reservation is usage. */
  function Used(c: Counters, m: Media, size: nat): Counters {
    var photo, video := "image/" <= m.mimeType, "video/" <= m.mimeType;
    Counters(
      c.usedBytes + size, c.reservedBytes - m.expectedSize, c.uploadedItems + 1, c.reservedItems - 1,
      if photo then c.uploadedPhotos + 1 else c.uploadedPhotos, if photo then c.reservedPhotos - 1 else c.reservedPhotos,
      if video then c.uploadedVideos + 1 else c.uploadedVideos, if video then c.reservedVideos - 1 else c.reservedVideos)
  }

  /** What it writes: the row is ready with the size given, and the event's reservation is usage. */
  lemma MarkReadyWrites(s: Ledger, e: Id, id: Id, size: nat, at: Time, m: Media)
    requires Valid(s) && m in s.media && Waiting(m, e, id) && MarkReady(s, e, id, size, at).1 == Done
    ensures e in s.events
    ensures var s', ev := MarkReady(s, e, id, size, at).0, s.events[e];
      && s'.events == s.events[e := ev.(counters := Used(ev.counters, m, size))]
      && |s'.media| == |s.media|
    ensures var s' := MarkReady(s, e, id, size, at).0;
      var ready := m.(status := Ready, actualSize := Some(size), uploadedAt := Some(at), lastActivityAt := at);
      forall i :: 0 <= i < |s.media| ==> s'.media[i] == if s.media[i] == m then ready else s.media[i]
  {
    OneUpload(s.media, e, id, m);
    UpdateAt(s.media, UploadRow(e, id), SetReady(size, at));
    forall i | 0 <= i < |s.media| ensures UploadRow(e, id)(s.media[i]) <==> s.media[i] == m {
      assert s.media[i] in s.media;
      if UploadRow(e, id)(s.media[i]) { OneUpload(s.media, e, id, s.media[i]); }
    }
    CoversOne(s, e, m);
    CompleteUses(s.events[e].counters, m, size);
  }

  lemma CompleteUses(c: Counters, m: Media, size: nat)
    requires c.reservedBytes >= m.expectedSize && c.reservedItems >= 1
    requires ("image/" <= m.mimeType ==> c.reservedPhotos >= 1) && ("video/" <= m.mimeType ==> c.reservedVideos >= 1)
    requires c.reservedPhotos >= 0 && c.reservedVideos >= 0
    ensures Complete(c, m, size) == Used(c, m, size)
  {
    NotBoth(m.mimeType);
  }

  lemma CoversOne(s: Ledger, e: Id, m: Media)
    requires Valid(s) && m in s.media && m.eventId == e && InFlight(m.status)
    ensures e in s.events
    ensures var c := s.events[e].counters;
      && c.reservedBytes >= m.expectedSize && c.reservedItems >= 1
      && ("image/" <= m.mimeType ==> c.reservedPhotos >= 1) && ("video/" <= m.mimeType ==> c.reservedVideos >= 1)
      && c.reservedPhotos >= 0 && c.reservedVideos >= 0
  {
    var c := s.events[e].counters;
    assert EventOk(s.events[e], s.media, e);
    forall column ensures Get(c, column) >= Weight(e, column)(m) { SumAtLeast(s.media, Weight(e, column), m); }
    assert Get(c, ReservedBytes) >= Weight(e, ReservedBytes)(m) && Get(c, ReservedItems) >= Weight(e, ReservedItems)(m);
    assert Get(c, ReservedPhotos) >= Weight(e, ReservedPhotos)(m) && Get(c, ReservedVideos) >= Weight(e, ReservedVideos)(m);
  }

  /** With no such upload in flight nothing is recorded. */
  lemma NothingToComplete(s: Ledger, e: Id, id: Id, size: nat, at: Time)
    requires ReadyUnique(s.media) && forall m :: m in s.media ==> !Waiting(m, e, id)
    ensures MarkReady(s, e, id, size, at) == (s, NotFound)
  {
    assert forall i :: 0 <= i < |s.media| ==> s.media[i] in s.media;
    WhereNone(s.media, UploadRow(e, id));
    UpdateNone(s.media, UploadRow(e, id), SetReady(size, at));
  }

  /** The row is stored under one of these ids of e. */
  ghost predicate StoredAs(m: Media, e: Id, ids: seq<Id>) { m.eventId == e && m.id in ids && m.status in {Ready, Featured, Hidden} }

  /** The stored rows under these ids have this status, and nothing else changed. */
  ghost predicate Restated(before: seq<Media>, after: seq<Media>, e: Id, ids: seq<Id>, status: MediaStatus, at: Time) {
    && |after| == |before|
    && forall i :: 0 <= i < |before| ==>
         after[i] == if StoredAs(before[i], e, ids) then before[i].(status := status, lastActivityAt := at) else before[i]
  }

  /** Each of the ids is a stored row's. */
  ghost predicate AllStored(rows: seq<Media>, e: Id, ids: seq<Id>) {
    forall id :: id in ids ==> exists m :: m in rows && m.id == id && StoredAs(m, e, ids)
  }

  ghost predicate Distinct(ids: seq<Id>) { forall i, j :: 0 <= i < j < |ids| ==> ids[i] != ids[j] }

  /** A moderation that the checksum index does not refuse gives the stored rows among the named ones
      the status. It reports no failure exactly when the ids are distinct and each is one of them. */
  lemma ModeratesStored(s: Ledger, e: Id, ids: seq<Id>, status: MediaStatus, at: Time)
    requires KeysUnique(s.media)
    ensures var (s', r) := UpdateStatuses(s, e, ids, status, at);
      if r == DuplicateKey then s' == s
      else
        && s'.events == s.events && Restated(s.media, s'.media, e, ids, status, at)
        && (r == Done || r == NotFound) && (r == Done <==> Distinct(ids) && AllStored(s.media, e, ids))
  {
    UpdateAt(s.media, StoredRow(e, ids), SetStatus(status, at));
    AllCountedIff(s.media, e, ids);
  }

  /** A soft delete does that to all the named rows and gives their bytes back, or reports not found
      and does nothing. */
  lemma SoftDeletesAll(s: Ledger, e: Id, ids: seq<Id>, at: Time)
    requires KeysUnique(s.media)
    ensures var (s', r) := DeleteForEvent(s, e, ids, at);
      if Distinct(ids) && AllStored(s.media, e, ids) then r == Done && Restated(s.media, s'.media, e, ids, Deleted, at)
      else r == NotFound && s' == s
  {
    UpdateAt(s.media, StoredRow(e, ids), SetStatus(Deleted, at));
    AllCountedIff(s.media, e, ids);
  }

  /** As many stored rows as ids: the ids are distinct and each is one of them. */
  lemma AllCountedIff(rows: seq<Media>, e: Id, ids: seq<Id>)
    requires KeysUnique(rows)
    ensures Count(rows, StoredRow(e, ids)) == |ids| <==> Distinct(ids) && AllStored(rows, e, ids)
  {
    var picked := Where(rows, StoredRow(e, ids));
    var named, all := IdsOf(picked), SetOf(ids);
    PickedDistinct(rows, e, ids);
    IdsSize(ids);
    assert named <= all;
    if |picked| == |ids| {
      SubsetSize(named, all);
      SameSize(named, all);
      forall id | id in ids ensures exists m :: m in rows && m.id == id && StoredAs(m, e, ids) {
        assert id in named;
        var m :| m in picked && m.id == id;
      }
    }
    if AllStored(rows, e, ids) {
      forall id | id in all ensures id in named {
        var m :| m in rows && m.id == id && StoredAs(m, e, ids);
        assert m in picked;
      }
      assert named == all;
    }
  }

  function IdsOf(rows: seq<Media>): set<Id> { set m | m in rows :: m.id }

  lemma PickedDistinct(rows: seq<Media>, e: Id, ids: seq<Id>)
    requires KeysUnique(rows)
    ensures var picked := Where(rows, StoredRow(e, ids));
      && |IdsOf(picked)| == |picked| && forall m :: m in picked <==> m in rows && StoredAs(m, e, ids)
  {
    var picked := Where(rows, StoredRow(e, ids));
    WhereMembers(rows, StoredRow(e, ids));
    forall i, j | 0 <= i < j < |picked| ensures picked[i].id != picked[j].id {
      WhereSplits(rows, StoredRow(e, ids), i, j);
      var k, l :| 0 <= k < l < |rows| && rows[k] == picked[i] && rows[l] == picked[j];
      assert !SameKey(rows[k], rows[l]);
    }
    IdsCounted(picked);
  }

  lemma {:induction false} IdsCounted(rows: seq<Media>)
    requires forall i, j :: 0 <= i < j < |rows| ==> rows[i].id != rows[j].id
    ensures |IdsOf(rows)| == |rows|
  {
    if rows != [] {
      var rest, last := rows[..|rows| - 1], rows[|rows| - 1];
      IdsCounted(rest);
      assert rows == rest + [last];
      assert IdsOf(rows) == IdsOf(rest) + {last.id};
      assert last.id !in IdsOf(rest);
    }
  }

  function SetOf(ids: seq<Id>): set<Id> { set id | id in ids }

  lemma {:induction false} IdsSize(ids: seq<Id>)
    ensures |SetOf(ids)| <= |ids| && (|SetOf(ids)| == |ids| <==> Distinct(ids))
  {
    if ids != [] {
      var rest, last := ids[..|ids| - 1], ids[|ids| - 1];
      IdsSize(rest);
      assert ids == rest + [last];
      DistinctLast(rest, last);
      assert SetOf(ids) == SetOf(rest) + {last};
      if last in rest { assert SetOf(ids) == SetOf(rest); }
    }
  }

  lemma DistinctLast(rest: seq<Id>, last: Id)
    ensures Distinct(rest + [last]) <==> Distinct(rest) && last !in rest
  {
    var ids := rest + [last];
    if Distinct(ids) {
      forall i | 0 <= i < |rest| ensures rest[i] != last { assert ids[i] != ids[|rest|]; }
      forall i, j | 0 <= i < j < |rest| ensures rest[i] != rest[j] { assert ids[i] != ids[j]; }
    }
  }

  lemma SameSize(a: set<Id>, b: set<Id>)
    requires a <= b && |a| == |b|
    ensures a == b
  {
    if x :| x in b && x !in a { SubsetSize(a, b - {x}); }
  }

  /** A purge closes the event, empties its columns but for the uploads it ever had, and deletes its
      rows; the event's other statements touch the column they name and nothing else. */
  lemma EventStatements(s: Ledger, e: Id, at: Time, limits: HotLimits)
    requires e in s.events
    ensures var ev, s' := s.events[e], MarkPurged(s, e, at);
      s'.events == s.events[e := EventRow(
        if ev.status == Active then Closed else ev.status, ev.limits,
        Counters(0, 0, ev.counters.uploadedItems, 0, ev.counters.uploadedPhotos, 0, ev.counters.uploadedVideos, 0), true)]
    ensures var media, media' := s.media, MarkPurged(s, e, at).media;
      && |media'| == |media|
      && forall i :: 0 <= i < |media| ==>
           if media[i].eventId == e && media[i].status != Deleted then media'[i] == media[i].(status := Deleted, lastActivityAt := at)
           else media'[i] == media[i]
    ensures CreateEvent(s, e, limits) == s && DeleteEvent(s, e) == s.(events := s.events[e := s.events[e].(status := EventDeleted)])
    ensures CloseEvent(s, e) == if s.events[e].status == Active then s.(events := s.events[e := s.events[e].(status := Closed)]) else s
    ensures SetLimits(s, e, limits) == s.(events := s.events[e := s.events[e].(limits := limits)])
  {
    UpdateAt(s.media, LiveRow(e), SetStatus(Deleted, at));
  }

  lemma NoEventNoStatement(s: Ledger, e: Id, limits: HotLimits)
    requires e !in s.events
    ensures CreateEvent(s, e, limits) == s.(events := s.events[e := EventRow(Active, limits, Counters(0, 0, 0, 0, 0, 0, 0, 0), false)])
    ensures DeleteEvent(s, e) == CloseEvent(s, e) == SetLimits(s, e, limits) == s
  {
  }

  // ---- DeleteManyUploads has no status guard ----

  predicate Reserved(column: Column) {
    column.ReservedBytes? || column.ReservedItems? || column.ReservedPhotos? || column.ReservedVideos?
  }

  lemma ReleaseColumn(c: Counters, r: Counters, column: Column)
    requires Get(c, column) >= Get(r, column)
    ensures Get(Release(c, r), column) == Get(c, column) - if Reserved(column) then Get(r, column) else 0
  {
  }

  /** Uploads in flight are in the reserved columns alone. */
  lemma InFlightColumns(rows: seq<Media>, ids: seq<Id>, e: Id, column: Column)
    requires !Reserved(column)
    ensures Sum(Where(rows, Released(ids)), Weight(e, column)) == 0
  {
    var released := Where(rows, Released(ids));
    WhereMembers(rows, Released(ids));
    assert forall i :: 0 <= i < |released| ==> released[i] in released;
    SumZero(released, Weight(e, column));
  }

  /** Where no named row completed, the deleted rows of e are the released ones. */
  lemma ReleasedSum(rows: seq<Media>, ids: seq<Id>, e: Id, column: Column)
    requires forall m :: m in rows && m.id in ids && m.eventId == e ==> !Completed(m.status)
    ensures var w := Weight(e, column); Sum(Delete(rows, Listed(ids)), w) == Sum(rows, w) - Sum(Where(rows, Released(ids)), w)
  {
    var w := Weight(e, column);
    SumDelete(rows, Listed(ids), w);
    SumWhereSame(rows, Listed(ids), Released(ids), w);
  }

  lemma ReleaseMoves(c: Counters, rows: seq<Media>, ids: seq<Id>, e: Id, column: Column)
    requires Agrees(c, rows, e)
    requires forall m :: m in rows && m.id in ids && m.eventId == e ==> !Completed(m.status)
    ensures Get(Release(c, Total(Where(rows, Released(ids)), e)), column) == Sum(Delete(rows, Listed(ids)), Weight(e, column))
  {
    var released := Where(rows, Released(ids));
    Covers(c, rows, Released(ids), e);
    TotalColumn(released, e, column);
    ReleaseColumn(c, Total(released, e), column);
    ReleasedSum(rows, ids, e, column);
    if !Reserved(column) { InFlightColumns(rows, ids, e, column); }
  }

  /** An event none of whose uploads is released keeps its counters, and they stay right. */
  lemma ReleaseElsewhere(c: Counters, rows: seq<Media>, ids: seq<Id>, e: Id, column: Column)
    requires !HasRowOf(Where(rows, Released(ids)), e)
    requires forall m :: m in rows && m.id in ids && m.eventId == e ==> !Completed(m.status)
    ensures Sum(Delete(rows, Listed(ids)), Weight(e, column)) == Sum(rows, Weight(e, column))
  {
    ReleasedSum(rows, ids, e, column);
    SumZero(Where(rows, Released(ids)), Weight(e, column));
  }

  /** Deleting a completed upload takes it out of the lifetime total. */
  lemma DeletedItem(rows: seq<Media>, ids: seq<Id>, m: Media)
    requires m in rows && m.id in ids && Completed(m.status)
    ensures var w := Weight(m.eventId, UploadedItems); Sum(Delete(rows, Listed(ids)), w) < Sum(rows, w)
  {
    LifetimeWeight(m);
    SumDrops(rows, Listed(ids), Weight(m.eventId, UploadedItems), m);
  }

  lemma LifetimeWeight(m: Media)
    requires Completed(m.status)
    ensures Weight(m.eventId, UploadedItems)(m) == 1 && forall o: Media :: Weight(m.eventId, UploadedItems)(o) >= 0
  {
  }

  lemma ReleaseKeepsLifetime(s: Ledger, ids: seq<Id>, e: Id)
    requires e in s.events
    ensures var s' := DeleteManyUploads(s, ids);
      && e in s'.events && s'.events[e].purged == s.events[e].purged
      && Get(s'.events[e].counters, UploadedItems) == Get(s.events[e].counters, UploadedItems)
  {
  }

  /** Releasing a completed upload removes its row but not its place in the lifetime counters. */
  lemma ReleaseDrifts(s: Ledger, ids: seq<Id>, m: Media)
    requires Valid(s) && m in s.media && m.id in ids && Completed(m.status) && !s.events[m.eventId].purged
    ensures !Valid(DeleteManyUploads(s, ids))
  {
    var s' := DeleteManyUploads(s, ids);
    ReleaseKeepsLifetime(s, ids, m.eventId);
    DeletedItem(s.media, ids, m);
    assert EventOk(s.events[m.eventId], s.media, m.eventId);
    assert !Agrees(s'.events[m.eventId].counters, s'.media, m.eventId) by {
      assert Get(s'.events[m.eventId].counters, UploadedItems) != Sum(s'.media, Weight(m.eventId, UploadedItems));
    }
  }

  predicate NeverCompleted(s: Ledger, ids: seq<Id>) {
    forall m :: m in s.media && m.id in ids && Completed(m.status) ==> m.eventId in s.events && s.events[m.eventId].purged
  }

  lemma ReleaseKeepsValid(s: Ledger, ids: seq<Id>)
    requires Valid(s) && NeverCompleted(s, ids)
    ensures Valid(DeleteManyUploads(s, ids))
  {
    var s' := DeleteManyUploads(s, ids);
    var released := Where(s.media, Released(ids));
    DeleteKeepsUnique(s.media, Listed(ids));
    DeleteMembers(s.media, Listed(ids));
    WhereMembers(s.media, Released(ids));
    assert forall i :: 0 <= i < |released| ==> released[i] in released;
    forall e | e in s'.events ensures EventOk(s'.events[e], s'.media, e) {
      if !s.events[e].purged {
        forall column ensures Get(s'.events[e].counters, column) == Sum(s'.media, Weight(e, column)) {
          if HasRowOf(released, e) {
            ReleaseMoves(s.events[e].counters, s.media, ids, e, column);
          } else {
            ReleaseElsewhere(s.events[e].counters, s.media, ids, e, column);
          }
        }
      }
    }
  }

  /** DeleteManyUploads keeps the ledger exactly when it is given what its comment promises: rows
      that never completed (or whose event is purged, where the lifetime counters no longer follow
      the rows). */
  lemma ReleaseExactly(s: Ledger, ids: seq<Id>)
    requires Valid(s)
    ensures Valid(DeleteManyUploads(s, ids)) <==> NeverCompleted(s, ids)
  {
    if NeverCompleted(s, ids) {
      ReleaseKeepsValid(s, ids);
    } else {
      var m :| m in s.media && m.id in ids && Completed(m.status) && !s.events[m.eventId].purged;
      ReleaseDrifts(s, ids, m);
    }
  }

  // ---- UpdateStatuses reports a failure it does not undo ----

  lemma {:induction false} CountZero(rows: seq<Media>, p: Media -> bool)
    ensures Count(rows, p) == 0 <==> forall m :: m in rows ==> !p(m)
  {
    WhereMembers(rows, p);
    assert Count(rows, p) > 0 ==> Where(rows, p)[0] in Where(rows, p);
  }

  /** A call that reports ErrNotFound has changed nothing exactly when the rows it did match already
      carried what it writes. The write stamps the present, so in a table of past activity that means
      that none of the named rows is stored. */
  lemma NotFoundChangesNothingIff(s: Ledger, e: Id, ids: seq<Id>, status: MediaStatus, at: Time)
    requires UpdateStatuses(s, e, ids, status, at).1 == NotFound
    ensures UpdateStatuses(s, e, ids, status, at).0 == s <==>
      forall m :: m in s.media && StoredRow(e, ids)(m) ==> m.status == status && m.lastActivityAt == at
    ensures (forall m :: m in s.media ==> m.lastActivityAt < at) ==>
      (UpdateStatuses(s, e, ids, status, at).0 == s <==> Count(s.media, StoredRow(e, ids)) == 0)
  {
    var p, f := StoredRow(e, ids), SetStatus(status, at);
    UpdateAt(s.media, p, f);
    CountZero(s.media, p);
    if Update(s.media, p, f) == s.media {
      forall m | m in s.media && p(m) ensures m.status == status && m.lastActivityAt == at {
        var i :| 0 <= i < |s.media| && s.media[i] == m;
        assert Update(s.media, p, f)[i] == f(m);
      }
    }
  }

  function NoticedRow(id: Id, status: MediaStatus): Media {
    Media(id, 1, 2, id, Original(1, id), "a", "image/jpeg", 5, Some(5), if id == 10 then "c" else "d", status, 0, 0, Some(0))
  }

  /** One event, a ready photo and a deleted one. */
  function HalfDeleted(): Ledger {
    Ledger(map[1 := EventRow(Active, HotLimits(100, 0, 0, 0), Counters(5, 0, 2, 0, 2, 0, 0, 0), false)],
           [NoticedRow(10, Ready), NoticedRow(11, Deleted)])
  }

  lemma HalfDeletedAgrees(column: Column)
    ensures Get(HalfDeleted().events[1].counters, column) == Sum(HalfDeleted().media, Weight(1, column))
  {
    var a, b := NoticedRow(10, Ready), NoticedRow(11, Deleted);
    SumAppend([a], b, Weight(1, column));
    SumOne(a, Weight(1, column));
    assert HalfDeleted().media == [a] + [b];
    assert MediaKind("image/jpeg") == (1, 0);
  }

  lemma HalfDeletedValid()
    ensures Valid(HalfDeleted())
  {
    forall column { HalfDeletedAgrees(column); }
  }

  /** An UPDATE of two rows that matches the first only. */
  lemma FirstOfTwo(a: Media, b: Media, p: Media -> bool, f: Media -> Media)
    requires p(a) && !p(b)
    ensures Update([a, b], p, f) == [f(a), b] && Count([a, b], p) == 1
  {
    assert [a, b] == [a] + [b];
    UpdateAppend([a], b, p, f);
    WhereAppend([a], [b], p);
    Single(a, p, f);
    Single(b, p, f);
  }

  /** Hiding both reports that one is missing, and hides the other. */
  lemma NotFoundHidesOne(s: Ledger)
    requires s == HalfDeleted()
    ensures Valid(s)
    ensures UpdateStatuses(s, 1, [10, 11], Hidden, 7) ==
      (s.(media := [NoticedRow(10, Hidden).(lastActivityAt := 7), NoticedRow(11, Deleted)]), NotFound)
  {
    HalfDeletedValid();
    FirstOfTwo(NoticedRow(10, Ready), NoticedRow(11, Deleted), StoredRow(1, [10, 11]), SetStatus(Hidden, 7));
  }
}
