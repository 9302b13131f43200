/** The PostgreSQL adapter: the two tables as fields, one method per transaction. A method that
    fails after writing leaves the fields alone, as its rollback would. */
module MediaRepositories {
  import opened Tables
  import opened Sorting
  import opened MediaModel
  import opened MediaLedger
  import opened LedgerRuns

  /** ORDER BY last_activity_at ASC. */
  function StalestFirst(): (Media, Media) -> bool { (a: Media, b: Media) => a.lastActivityAt < b.lastActivityAt }

  function StaleRow(before: Time): Media -> bool {
    (m: Media) => InFlight(m.status) && m.lastActivityAt < before
  }

  function StaleLimit(limit: int): nat { if limit < 1 || limit > 500 then 100 else limit }

  function ClientUploadRow(key: ClientKey): Media -> bool { (m: Media) => KeyOf(m) == key }

  function SessionRow(id: Id, e: Id, session: Id): Media -> bool {
    (m: Media) => m.id == id && m.eventId == e && m.sessionId == session && (InFlight(m.status) || m.status.Ready?)
  }

  class MediaRepository {
    var events: map<Id, EventRow>
    var media: seq<Media>

    ghost function State(): Ledger reads this { Ledger(events, media) }

    constructor (events: map<Id, EventRow>, media: seq<Media>)
      ensures State() == Ledger(events, media)
    {
      this.events, this.media := events, media;
    }

    method ReserveUpload(u: Upload, limits: ReserveLimits) returns (outcome: Outcome)
      modifies this
      ensures (State(), outcome) == MediaLedger.ReserveUpload(old(State()), u, limits)
    {
      if u.eventId !in events || !Fits(events[u.eventId], u, limits) {
        outcome := Refusal(Ledger(events, media), u, limits);
        return;
      }
      if KeyTaken(media, PendingRow(u)) {
        return DuplicateKey;
      }
      var ev := events[u.eventId];
      events := events[u.eventId := ev.(counters := Reserve(ev.counters, u))];
      media := media + [PendingRow(u)];
      outcome := Done;
    }

    method MarkReady(e: Id, id: Id, size: nat, at: Time) returns (outcome: Outcome)
      modifies this
      ensures (State(), outcome) == MediaLedger.MarkReady(old(State()), e, id, size, at)
    {
      var updated := Update(media, UploadRow(e, id), SetReady(size, at));
      if !ReadyUnique(updated) {
        return Duplicate;
      }
      var matched := Where(media, UploadRow(e, id));
      if |matched| != 1 {
        return NotFound;
      }
      media := updated;
      if e in events {
        events := events[e := events[e].(counters := Complete(events[e].counters, matched[0], size))];
      }
      outcome := Done;
    }

    method DeleteManyUploads(ids: seq<Id>)
      modifies this
      ensures State() == MediaLedger.DeleteManyUploads(old(State()), ids)
    {
      if |ids| == 0 {
        WhereNone(media, Released(ids));
        DeleteNone(media, Listed(ids));
        assert events == MediaLedger.DeleteManyUploads(State(), ids).events;
        return;
      }
      var released := Where(media, Released(ids));
      media := Delete(media, Listed(ids));
      events := map e | e in events ::
        if HasRowOf(released, e) then events[e].(counters := Release(events[e].counters, Total(released, e))) else events[e];
    }

    method UpdateStatuses(e: Id, ids: seq<Id>, status: MediaStatus, at: Time) returns (outcome: Outcome)
      modifies this
      ensures (State(), outcome) == MediaLedger.UpdateStatuses(old(State()), e, ids, status, at)
    {
      var affected := Count(media, StoredRow(e, ids));
      var updated := Update(media, StoredRow(e, ids), SetStatus(status, at));
      if !ReadyUnique(updated) {
        return DuplicateKey;
      }
      media := updated;
      outcome := if affected == |ids| then Done else NotFound;
    }

    method DeleteForEvent(e: Id, ids: seq<Id>, at: Time) returns (outcome: Outcome)
      modifies this
      ensures (State(), outcome) == MediaLedger.DeleteForEvent(old(State()), e, ids, at)
    {
      var matched := Where(media, StoredRow(e, ids));
      var bytes := Total(matched, e).usedBytes;
      if |matched| != |ids| {
        return NotFound;
      }
      media := Update(media, StoredRow(e, ids), SetStatus(Deleted, at));
      if e in events {
        var c := events[e].counters;
        events := events[e := events[e].(counters := c.(usedBytes := Greatest(c.usedBytes - bytes, 0)))];
      }
      outcome := Done;
    }

    method FindByClientUpload(key: ClientKey) returns (found: Option<Media>)
      ensures found == First(Where(media, ClientUploadRow(key)))
    {
      found := First(Where(media, ClientUploadRow(key)));
    }

    method FindUploadForSession(id: Id, e: Id, session: Id) returns (found: Option<Media>)
      ensures found == First(Where(media, SessionRow(id, e, session)))
    {
      found := First(Where(media, SessionRow(id, e, session)));
    }

    method HasReadyChecksum(e: Id, checksum: string) returns (found: bool)
      ensures found <==> exists m :: m in media && m.eventId == e && m.checksum == checksum && m.status.Ready?
    {
      var p := (m: Media) => m.eventId == e && m.checksum == checksum && m.status.Ready?;
      WhereMembers(media, p);
      var n := Count(media, p);
      found := n > 0;
      assert found ==> Where(media, p)[0] in Where(media, p);
    }

    method FindStale(before: Time, limit: int) returns (items: seq<Media>)
      ensures items == Limit(Sort(Where(media, StaleRow(before)), StalestFirst()), StaleLimit(limit))
    {
      items := Limit(Sort(Where(media, StaleRow(before)), StalestFirst()), StaleLimit(limit));
    }

    /** Transactions of other requests that commit between two calls of this one. */
    method Others(steps: seq<Step>)
      modifies this
      ensures State() == Run(old(State()), steps)
    {
      var s := Run(Ledger(events, media), steps);
      events, media := s.events, s.media;
    }
  }
}
