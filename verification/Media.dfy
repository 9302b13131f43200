/** The media and event rows every media use case reads and writes
    (internal/media/media.go, internal/event/event.go). */
module MediaModel {
  import opened Tables

  /** A uuid; 0 is uuid.Nil. uuids compare as numbers. */
  type Id = nat
  const NIL: Id := 0

  /** An instant, in nanoseconds. */
  type Time = int

  datatype MediaStatus = Pending | Uploading | Uploaded | Processing | Ready | Featured | Hidden | Failed | Deleted

  /** The upload holds reserved quota. */
  predicate InFlight(status: MediaStatus) { status.Pending? || status.Uploading? || status.Uploaded? }

  /** The upload completed and its bytes are kept. */
  predicate Stored(status: MediaStatus) { status.Ready? || status.Featured? || status.Hidden? }

  /** The upload completed at some point. */
  predicate Completed(status: MediaStatus) { Stored(status) || status.Deleted? }

  /** Objects of one event live under the event's prefix. */
  datatype ObjectKey = Original(eventId: Id, mediaId: Id) | Other(eventId: Id, name: string)

  datatype Media = Media(
    id: Id, eventId: Id, sessionId: Id, clientUploadId: Id,
    objectKey: ObjectKey, filename: string, mimeType: string,
    expectedSize: nat, actualSize: Option<nat>, checksum: string,
    status: MediaStatus, createdAt: Time, lastActivityAt: Time, uploadedAt: Option<Time>)

  predicate IsPhoto(mimeType: string) { "image/" <= mimeType }
  predicate IsVideo(mimeType: string) { "video/" <= mimeType }

  /** mediaKind: how many photos and how many videos one upload of this type is. */
  function MediaKind(mimeType: string): (kind: (nat, nat))
    ensures kind == (if IsPhoto(mimeType) then 1 else 0, if IsVideo(mimeType) then 1 else 0)
    ensures kind.0 + kind.1 <= 1
  {
    if IsPhoto(mimeType) then
      assert mimeType[0] == 'i';
      (1, 0)
    else if IsVideo(mimeType) then (0, 1)
    else (0, 0)
  }

  datatype EventStatus = Draft | Active | Closed | EventDeleted

  /** The plan limits copied onto the event row; an item limit of 0 means no limit. */
  datatype HotLimits = HotLimits(maxBytes: int, maxItems: nat, maxPhotos: nat, maxVideos: nat)

  /** The denormalised usage columns of one event row. */
  datatype Counters = Counters(
    usedBytes: int, reservedBytes: int,
    uploadedItems: int, reservedItems: int,
    uploadedPhotos: int, reservedPhotos: int,
    uploadedVideos: int, reservedVideos: int)

  const ZERO := Counters(0, 0, 0, 0, 0, 0, 0, 0)

  datatype Column =
    | UsedBytes | ReservedBytes | UploadedItems | ReservedItems
    | UploadedPhotos | ReservedPhotos | UploadedVideos | ReservedVideos

  function Get(c: Counters, column: Column): int {
    match column
    case UsedBytes => c.usedBytes
    case ReservedBytes => c.reservedBytes
    case UploadedItems => c.uploadedItems
    case ReservedItems => c.reservedItems
    case UploadedPhotos => c.uploadedPhotos
    case ReservedPhotos => c.reservedPhotos
    case UploadedVideos => c.uploadedVideos
    case ReservedVideos => c.reservedVideos
  }

  datatype EventRow = EventRow(status: EventStatus, limits: HotLimits, counters: Counters, purged: bool)

  function StoredSize(m: Media): nat { if m.actualSize.Some? then m.actualSize.value else 0 }

  /** What one media row is worth in each column of the CounterDrift query, and in the three
      reserved columns the query does not check. */
  function Contribution(m: Media): Counters {
    var (photo, video) := MediaKind(m.mimeType);
    if InFlight(m.status) then Counters(0, m.expectedSize, 0, 1, 0, photo, 0, video)
    else if Completed(m.status) then
      Counters(if Stored(m.status) then StoredSize(m) else 0, 0, 1, 0, photo, 0, video, 0)
    else ZERO
  }

  function Weight(e: Id, column: Column): Media -> int {
    (m: Media) => if m.eventId == e then Get(Contribution(m), column) else 0
  }

  /** SUM and COUNT ... FILTER over the media rows of event e. */
  function Total(rows: seq<Media>, e: Id): Counters {
    Counters(Sum(rows, Weight(e, UsedBytes)), Sum(rows, Weight(e, ReservedBytes)),
             Sum(rows, Weight(e, UploadedItems)), Sum(rows, Weight(e, ReservedItems)),
             Sum(rows, Weight(e, UploadedPhotos)), Sum(rows, Weight(e, ReservedPhotos)),
             Sum(rows, Weight(e, UploadedVideos)), Sum(rows, Weight(e, ReservedVideos)))
  }

  /** What one row is worth to an event, on its columns: a row in flight its reservation, a stored one
      its bytes and its place, a deleted one its place. */
  lemma WeightIs(m: Media, e: Id, column: Column)
    ensures Weight(e, column)(m) ==
      if m.eventId != e || m.status in {Processing, Failed} then 0
      else
        var photo, video := "image/" <= m.mimeType, "video/" <= m.mimeType;
        var flight, stored := m.status in {Pending, Uploading, Uploaded}, m.status in {Ready, Featured, Hidden};
        match column
        case UsedBytes => if stored && m.actualSize.Some? then m.actualSize.value else 0
        case ReservedBytes => if flight then m.expectedSize else 0
        case UploadedItems => if flight then 0 else 1
        case ReservedItems => if flight then 1 else 0
        case UploadedPhotos => if photo && !flight then 1 else 0
        case ReservedPhotos => if photo && flight then 1 else 0
        case UploadedVideos => if video && !flight then 1 else 0
        case ReservedVideos => if video && flight then 1 else 0
  {
  }

  lemma TotalColumn(rows: seq<Media>, e: Id, column: Column)
    ensures Get(Total(rows, e), column) == Sum(rows, Weight(e, column))
  {
  }
}
