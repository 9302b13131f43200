/** The upload use cases (internal/media/service.go). Each call to the repository is one step;
    other requests' steps may commit between two calls, so a call's effect is a run of the ledger
    made of its own steps and theirs. */
module UploadService {
  import opened Tables
  import opened Sorting
  import opened MediaModel
  import opened MediaLedger
  import opened LedgerRuns
  import opened MediaRepositories

  datatype Scope = Scope(
    eventId: Id, sessionId: Id, accepting: bool, maxEventBytes: int, enforceItems: bool, uploadClosed: bool)

  datatype CreateInput = CreateInput(filename: string, mimeType: string, size: int, checksum: string, clientUploadId: Id)

  datatype CreateError =
    | NotAcceptingUploads | InvalidUpload | NoClientUploadId | WindowClosed | DuplicateUpload
    | LimiterUnavailable | RateLimited | ReserveFailed(outcome: Outcome) | PresignFailed

  datatype CreateResult = Target(mediaId: Id, key: ObjectKey) | CreateFailed(error: CreateError)

  datatype CompleteError = EventClosed | NoUpload | NoObject | Mismatch | Rejected(outcome: Outcome)

  datatype CompleteResult = Confirmed | CompleteFailed(error: CompleteError)

  datatype ObjectInfo = ObjectInfo(size: nat, contentType: string)

  datatype LimiterAnswer = Allowed | Denied | Unavailable

  /** What other requests commit while this one is between two repository calls. */
  datatype Between = Between(beforeWrite: seq<Step>, beforeLookup: seq<Step>, beforeDelete: seq<Step>)

  ghost predicate Alone(b: Between) { b.beforeWrite == [] && b.beforeLookup == [] && b.beforeDelete == [] }

  predicate AllowedType(mimeType: string) {
    mimeType in {"image/jpeg", "image/heic", "image/png", "image/webp", "video/mp4", "video/quicktime"}
  }

  function LimitByType(mimeType: string, maxImage: int, maxVideo: int): int {
    if IsPhoto(mimeType) then maxImage else maxVideo
  }

  predicate HexDigit(c: char) { '0' <= c <= '9' || 'a' <= c <= 'f' || 'A' <= c <= 'F' }

  predicate ValidSha256(value: string) { |value| == 64 && forall c :: c in value ==> HexDigit(c) }

  function Lower(value: string): string {
    seq(|value|, i requires 0 <= i < |value| => if 'A' <= value[i] <= 'Z' then value[i] - 'A' + 'a' else value[i])
  }

  // ---- Runs put end to end ----

  lemma {:induction false} RunAppend(s: Ledger, a: seq<Step>, b: seq<Step>)
    ensures Run(s, a + b) == Run(Run(s, a), b)
    decreases |a|
  {
    if a == [] {
      assert a + b == b;
    } else {
      assert (a + b)[1..] == a[1..] + b;
      RunAppend(Next(s, a[0]), a[1..], b);
    }
  }

  lemma RunOne(s: Ledger, step: Step)
    ensures Run(s, [step]) == Next(s, step)
  {
  }

  lemma RunThen(s: Ledger, a: seq<Step>, step: Step)
    ensures Run(s, a + [step]) == Next(Run(s, a), step)
  {
    RunAppend(s, a, [step]);
    RunOne(Run(s, a), step);
  }

  /** Every use case that gives reservations back does it last, after whatever else was committed
      since it chose them: the ledger agrees with its rows afterwards exactly when none of them
      completed meanwhile. */
  lemma LateReleaseIff(s: Ledger, past: seq<Step>, ids: seq<Id>)
    requires Valid(s) && GuardedRun(s, past)
    ensures Valid(Run(s, past + [ReleaseStep(ids)])) <==> NeverCompleted(Run(s, past), ids)
  {
    CountersNeverDrift(s, past);
    RunThen(s, past, ReleaseStep(ids));
    ReleaseExactly(Run(s, past), ids);
  }

  // ---- A reservation and its release cancel ----

  /** What a release takes off the counters is what the reservation put on them. */
  lemma ReserveThenReleaseCounters(c: Counters, u: Upload)
    requires c.reservedBytes >= 0 && c.reservedItems >= 0 && c.reservedPhotos >= 0 && c.reservedVideos >= 0
    ensures Release(Reserve(c, u), Total([PendingRow(u)], u.eventId)) == c
  {
    forall column { SumOne(PendingRow(u), Weight(u.eventId, column)); }
  }

  lemma OnlyTheNewRow(rows: seq<Media>, m: Media, ids: seq<Id>)
    requires KeysUnique(rows) && !KeyTaken(rows, m) && InFlight(m.status) && ids == [m.id]
    ensures Where(rows + [m], Released(ids)) == [m] && Delete(rows + [m], Listed(ids)) == rows
  {
    assert forall i :: 0 <= i < |rows| ==> !SameKey(rows[i], m);
    WhereNone(rows, Released(ids));
    DeleteNone(rows, Listed(ids));
    assert (rows + [m])[..|rows|] == rows;
  }

  lemma CancelTables(s: Ledger, u: Upload)
    requires u.eventId in s.events && KeysUnique(s.media) && !KeyTaken(s.media, PendingRow(u))
    requires var c := s.events[u.eventId].counters;
      c.reservedBytes >= 0 && c.reservedItems >= 0 && c.reservedPhotos >= 0 && c.reservedVideos >= 0
    ensures var ev := s.events[u.eventId];
      DeleteManyUploads(Ledger(s.events[u.eventId := ev.(counters := Reserve(ev.counters, u))],
                               s.media + [PendingRow(u)]), [u.id]) == s
  {
    var ev, m := s.events[u.eventId], PendingRow(u);
    var s1 := Ledger(s.events[u.eventId := ev.(counters := Reserve(ev.counters, u))], s.media + [m]);
    OnlyTheNewRow(s.media, m, [u.id]);
    ReserveThenReleaseCounters(ev.counters, u);
    var s2 := DeleteManyUploads(s1, [u.id]);
    assert HasRowOf([m], u.eventId) by { assert [m][0] == m; }
    forall e | e in s.events ensures s2.events[e] == s.events[e] {
      if e != u.eventId { assert !HasRowOf([m], e); }
    }
    assert s2.events == s.events;
  }

  /** Releasing a fresh reservation leaves both tables exactly as they were before it. */
  lemma ReserveThenRelease(s: Ledger, u: Upload, limits: ReserveLimits)
    requires Valid(s) && ReserveUpload(s, u, limits).1.Done?
    ensures DeleteManyUploads(ReserveUpload(s, u, limits).0, [u.id]) == s
  {
    var s1, m := ReserveUpload(s, u, limits).0, PendingRow(u);
    NonNegativeHeld(s, u.eventId);
    CancelTables(s, u);
  }

  function RequestKey(scope: Scope, input: CreateInput): ClientKey {
    ClientKey(scope.eventId, scope.sessionId, input.clientUploadId)
  }

  function Request(scope: Scope, input: CreateInput, id: Id, now: Time): Upload
    requires input.size > 0
  {
    Upload(id, scope.eventId, scope.sessionId, input.clientUploadId, input.filename,
           input.mimeType, input.size, Lower(input.checksum), now)
  }

  function RequestStep(scope: Scope, input: CreateInput, id: Id, now: Time): Step
    requires input.size > 0
  {
    ReserveStep(Request(scope, input, id, now), ReserveLimits(scope.maxEventBytes, scope.enforceItems))
  }

  /** The call's own write completes one of these rows with the size that row reserved. */
  ghost predicate Completes(rows: seq<Media>, e: Id, id: Id, now: Time, trace: seq<Step>, others: Between) {
    exists m :: m in rows && m.id == id && OwnSteps(trace, others, CompleteStep(e, id, m.expectedSize, now), id)
  }

  ghost predicate IsReady(rows: seq<Media>, id: Id) {
    exists m :: m in rows && m.id == id && m.status.Ready?
  }

  /** Some state of the run had the row ready. */
  ghost predicate WasReady(s: Ledger, trace: seq<Step>, id: Id) {
    exists n :: 0 <= n <= |trace| && IsReady(Run(s, trace[..n]).media, id)
  }

  lemma ReadyAtEnd(s: Ledger, trace: seq<Step>, id: Id)
    requires IsReady(Run(s, trace).media, id)
    ensures WasReady(s, trace, id)
  {
    assert trace[..|trace|] == trace;
  }

  lemma StillWasReady(s: Ledger, trace: seq<Step>, more: seq<Step>, id: Id)
    requires WasReady(s, trace, id)
    ensures WasReady(s, trace + more, id)
  {
    var n :| 0 <= n <= |trace| && IsReady(Run(s, trace[..n]).media, id);
    assert (trace + more)[..n] == trace[..n];
  }

  // ---- What the calls ask for, on the columns ----

  /** An upload this session may complete: in flight, and what storage has is what was announced. */
  ghost predicate Uploadable(m: Media, scope: Scope, id: Id, head: Option<ObjectInfo>) {
    && m.id == id && m.eventId == scope.eventId && m.sessionId == scope.sessionId
    && m.status in {Pending, Uploading, Uploaded} && head == Some(ObjectInfo(m.expectedSize, m.mimeType))
  }

  ghost predicate OwnRow(m: Media, scope: Scope, id: Id) {
    m.id == id && m.eventId == scope.eventId && m.sessionId == scope.sessionId && m.status in {Pending, Uploading, Uploaded, Ready}
  }

  ghost predicate ReadyFor(m: Media, scope: Scope, id: Id) {
    m.id == id && m.eventId == scope.eventId && m.sessionId == scope.sessionId && m.status == Ready
  }

  /** A ready row is not taken for a missing one: losing the race to another request is no failure. */
  ghost predicate NotReady(rows: seq<Media>, scope: Scope, id: Id) {
    KeysUnique(rows) ==> forall m :: m in rows ==> !ReadyFor(m, scope, id)
  }

  /** The row was ready already, or storage vouches for its object. */
  ghost predicate Vouched(rows: seq<Media>, scope: Scope, id: Id, head: Option<ObjectInfo>) {
    exists m :: m in rows && (ReadyFor(m, scope, id) || Uploadable(m, scope, id, head))
  }

  ghost predicate ChecksumReady(rows: seq<Media>, e: Id, checksum: string) {
    exists m :: m in rows && m.eventId == e && m.checksum == checksum && m.status == Ready
  }

  /** ... and no other photo of the event with its checksum is ready. */
  ghost predicate Completable(rows: seq<Media>, scope: Scope, id: Id, head: Option<ObjectInfo>) {
    exists m :: m in rows
      && (ReadyFor(m, scope, id) || (Uploadable(m, scope, id, head) && !ChecksumReady(rows, scope.eventId, m.checksum)))
  }

  /** What CreateUpload asks of the request itself. */
  ghost predicate WellFormed(input: CreateInput, maxImage: int, maxVideo: int) {
    && input.mimeType in {"image/jpeg", "image/heic", "image/png", "image/webp", "video/mp4", "video/quicktime"}
    && 0 < input.size <= (if "image/" <= input.mimeType then maxImage else maxVideo)
    && |input.checksum| == 64 && forall c :: c in input.checksum ==> '0' <= c <= '9' || 'a' <= c <= 'f' || 'A' <= c <= 'F'
  }

  ghost predicate ClientRow(m: Media, scope: Scope, input: CreateInput) {
    m.eventId == scope.eventId && m.sessionId == scope.sessionId && m.clientUploadId == input.clientUploadId
  }

  ghost predicate Known(rows: seq<Media>, scope: Scope, input: CreateInput) {
    exists m :: m in rows && ClientRow(m, scope, input)
  }

  /** The event has room for the upload. */
  ghost predicate Room(s: Ledger, scope: Scope, input: CreateInput) {
    && scope.eventId in s.events && s.events[scope.eventId].status == Active
    && var c, max := s.events[scope.eventId].counters, s.events[scope.eventId].limits;
    && c.usedBytes + c.reservedBytes + input.size <= (if scope.maxEventBytes == 0 then max.maxBytes else scope.maxEventBytes)
    && (scope.enforceItems && max.maxItems > 0 ==> c.uploadedItems + c.reservedItems < max.maxItems)
    && (scope.enforceItems && max.maxPhotos > 0 && "image/" <= input.mimeType ==> c.uploadedPhotos + c.reservedPhotos < max.maxPhotos)
    && (scope.enforceItems && max.maxVideos > 0 && "video/" <= input.mimeType ==> c.uploadedVideos + c.reservedVideos < max.maxVideos)
  }

  /** The row the reservation inserts: the checksum in lower case, the object under the event. */
  ghost predicate NewRow(m: Media, scope: Scope, input: CreateInput, id: Id, now: Time) {
    && m.id == id && ClientRow(m, scope, input) && m.objectKey == Original(scope.eventId, id)
    && m.filename == input.filename && m.mimeType == input.mimeType && m.expectedSize == input.size && m.actualSize == None
    && m.status == Pending && m.createdAt == m.lastActivityAt == now && m.uploadedAt == None
    && |m.checksum| == |input.checksum|
    && forall i :: 0 <= i < |m.checksum| ==>
         var c := input.checksum[i]; m.checksum[i] == if 'A' <= c <= 'Z' then c - 'A' + 'a' else c
  }

  ghost predicate Admitted(scope: Scope, input: CreateInput, maxImage: int, maxVideo: int) {
    scope.accepting && WellFormed(input, maxImage, maxVideo) && input.clientUploadId != NIL
  }

  /** A new client upload, in time, of a photo the event does not have yet. */
  ghost predicate Open(rows: seq<Media>, scope: Scope, input: CreateInput, maxImage: int, maxVideo: int) {
    && Admitted(scope, input, maxImage, maxVideo) && !Known(rows, scope, input)
    && !scope.uploadClosed && !ChecksumReady(rows, scope.eventId, input.checksum)
  }

  /** Which requests are turned away before anything is written, each with its own error, and that a
      known client upload gets its target again. */
  ghost predicate CreateAnswer(rows: seq<Media>, scope: Scope, input: CreateInput, maxImage: int, maxVideo: int,
                               limiter: LimiterAnswer, presigned: bool, r: CreateResult) {
    && (r.Target? ==> Admitted(scope, input, maxImage, maxVideo) && presigned)
    && (r == CreateFailed(NotAcceptingUploads) <==> !scope.accepting)
    && (r == CreateFailed(InvalidUpload) <==> scope.accepting && !WellFormed(input, maxImage, maxVideo))
    && (r == CreateFailed(NoClientUploadId) <==>
         scope.accepting && WellFormed(input, maxImage, maxVideo) && input.clientUploadId == NIL)
    && (r == CreateFailed(WindowClosed) <==>
         Admitted(scope, input, maxImage, maxVideo) && !Known(rows, scope, input) && scope.uploadClosed)
    && (r == CreateFailed(DuplicateUpload) <==>
         Admitted(scope, input, maxImage, maxVideo) && !Known(rows, scope, input) && !scope.uploadClosed
         && ChecksumReady(rows, scope.eventId, input.checksum))
    && (r == CreateFailed(RateLimited) <==> Open(rows, scope, input, maxImage, maxVideo) && limiter == Denied)
    && (r == CreateFailed(LimiterUnavailable) <==> Open(rows, scope, input, maxImage, maxVideo) && limiter == Unavailable)
    && (Admitted(scope, input, maxImage, maxVideo) && Known(rows, scope, input) ==> r.Target? == presigned)
  }

  /** Undisturbed, a reservation succeeds exactly when the event has room, the id is new and the
      upload can be signed; then its row is the only change to the media table. */
  ghost predicate ReserveAnswer(s: Ledger, s': Ledger, scope: Scope, input: CreateInput, id: Id, presigned: bool, now: Time,
                                r: CreateResult) {
    && (r.Target? <==> presigned && Room(s, scope, input) && forall m :: m in s.media ==> m.id != id)
    && (r.Target? ==>
         r.mediaId == id && exists m :: s'.media == s.media + [m] && NewRow(m, scope, input, id, now))
  }

  /** The target handed out is the row of this client upload. */
  ghost predicate HandsOut(rows: seq<Media>, r: CreateResult, key: ClientKey)
    requires r.Target?
  {
    exists m :: m in rows && m.id == r.mediaId && m.objectKey == r.key && KeyOf(m) == key
  }

  lemma MarkedReady(s: Ledger, e: Id, id: Id, size: nat, at: Time)
    requires MarkReady(s, e, id, size, at).1.Done?
    ensures IsReady(MarkReady(s, e, id, size, at).0.media, id)
  {
    var p, f := UploadRow(e, id), SetReady(size, at);
    WhereMembers(s.media, p);
    var m := Where(s.media, p)[0];
    assert m in Where(s.media, p);
    UpdateHas(s.media, p, f, m);
    assert f(m) in Update(s.media, p, f);
  }

  class MediaService {
    const repo: MediaRepository
    const maxImage: int
    const maxVideo: int

    constructor (repo: MediaRepository, maxImage: int, maxVideo: int)
      ensures this.repo == repo && this.maxImage == maxImage && this.maxVideo == maxVideo
    {
      this.repo, this.maxImage, this.maxVideo := repo, maxImage, maxVideo;
    }

    /** Reserve a client upload, or find the reservation an earlier try made. The run it takes part
        in holds at most one reservation of this call, and a failing call made alone leaves the
        ledger as it found it. */
    method CreateUpload(scope: Scope, input: CreateInput, id: Id, limiter: LimiterAnswer, presigned: bool,
                        now: Time, others: Between)
      returns (r: CreateResult, ghost trace: seq<Step>)
      modifies repo
      ensures repo.State() == Run(old(repo.State()), trace)
      ensures r.Target? ==> HandsOut(repo.media, r, RequestKey(scope, input))
      ensures (exists m :: m in old(repo.media) && KeyOf(m) == RequestKey(scope, input)) ==> trace == []
      ensures trace == [] || (input.size > 0 && OwnSteps(trace, others, RequestStep(scope, input, id, now), id))
      ensures Valid(old(repo.State())) && Alone(others) && r.CreateFailed? ==> repo.State() == old(repo.State())
      ensures CreateAnswer(old(repo.media), scope, input, maxImage, maxVideo, limiter, presigned, r)
      ensures trace != [] ==> Open(old(repo.media), scope, input, maxImage, maxVideo) && limiter == Allowed
      ensures Open(old(repo.media), scope, input, maxImage, maxVideo) && limiter == Allowed && Alone(others) ==>
        ReserveAnswer(old(repo.State()), repo.State(), scope, input, id, presigned, now, r)
    {
      trace := [];
      var error := Admit(scope, input);
      if error.Some? {
        return CreateFailed(error.value), [];
      }
      var found := Existing(scope, input);
      if found.Some? {
        r := if presigned then Target(found.value.id, found.value.objectKey) else CreateFailed(PresignFailed);
        return;
      }
      error := TurnAway(scope, input, limiter);
      if error.Some? {
        return CreateFailed(error.value), [];
      }
      r, trace := Reserve(scope, input, id, presigned, now, others);
    }

    /** What is wrong with the request itself. */
    method Admit(scope: Scope, input: CreateInput) returns (error: Option<CreateError>)
      ensures error == None <==> Admitted(scope, input, maxImage, maxVideo)
      ensures error == Some(NotAcceptingUploads) <==> !scope.accepting
      ensures error == Some(InvalidUpload) <==> scope.accepting && !WellFormed(input, maxImage, maxVideo)
      ensures error == Some(NoClientUploadId) <==>
        scope.accepting && WellFormed(input, maxImage, maxVideo) && input.clientUploadId == NIL
      ensures error.Some? ==> error.value in {NotAcceptingUploads, InvalidUpload, NoClientUploadId}
    {
      if !scope.accepting {
        return Some(NotAcceptingUploads);
      }
      if input.size <= 0 || !AllowedType(input.mimeType)
         || input.size > LimitByType(input.mimeType, maxImage, maxVideo) || !ValidSha256(input.checksum) {
        return Some(InvalidUpload);
      }
      error := if input.clientUploadId == NIL then Some(NoClientUploadId) else None;
    }

    /** The row an earlier request for the same client upload made. */
    method Existing(scope: Scope, input: CreateInput) returns (found: Option<Media>)
      ensures found.Some? <==> Known(repo.media, scope, input)
      ensures found.Some? ==> found.value in repo.media && ClientRow(found.value, scope, input)
    {
      var key := RequestKey(scope, input);
      found := repo.FindByClientUpload(key);
      WhereMembers(repo.media, ClientUploadRow(key));
      assert found.Some? ==> found.value in Where(repo.media, ClientUploadRow(key));
      assert forall m :: m in repo.media && KeyOf(m) == key ==> m in Where(repo.media, ClientUploadRow(key));
    }

    /** Why a new client upload is not let in. */
    method TurnAway(scope: Scope, input: CreateInput, limiter: LimiterAnswer) returns (error: Option<CreateError>)
      ensures var ready := ChecksumReady(repo.media, scope.eventId, input.checksum);
        error == if scope.uploadClosed then Some(WindowClosed)
                 else if ready then Some(DuplicateUpload)
                 else match limiter case Allowed => None case Denied => Some(RateLimited) case Unavailable => Some(LimiterUnavailable)
    {
      if scope.uploadClosed {
        return Some(WindowClosed);
      }
      var duplicate := repo.HasReadyChecksum(scope.eventId, input.checksum);
      if duplicate {
        return Some(DuplicateUpload);
      }
      if limiter != Allowed {
        return Some(if limiter.Denied? then RateLimited else LimiterUnavailable);
      }
      error := None;
    }

    /** The part of CreateUpload that writes, for a client upload with no row yet. */
    method Reserve(scope: Scope, input: CreateInput, id: Id, presigned: bool, now: Time, others: Between)
      returns (r: CreateResult, ghost trace: seq<Step>)
      requires input.size > 0
      modifies repo
      ensures repo.State() == Run(old(repo.State()), trace)
      ensures r.Target? ==> HandsOut(repo.media, r, RequestKey(scope, input))
      ensures OwnSteps(trace, others, RequestStep(scope, input, id, now), id)
      ensures Valid(old(repo.State())) && Alone(others) && r.CreateFailed? ==> repo.State() == old(repo.State())
      ensures r.CreateFailed? ==> r.error.ReserveFailed? || r.error.PresignFailed?
      ensures r.Target? ==> presigned
      ensures Alone(others) && !Known(old(repo.media), scope, input) ==>
        ReserveAnswer(old(repo.State()), repo.State(), scope, input, id, presigned, now, r)
    {
      ghost var s0 := repo.State();
      var u := Request(scope, input, id, now);
      var limits := ReserveLimits(scope.maxEventBytes, scope.enforceItems);
      repo.Others(others.beforeWrite);
      ghost var s1 := repo.State();
      var outcome := repo.ReserveUpload(u, limits);
      ReserveIff(s1, u, limits);
      trace := others.beforeWrite + [ReserveStep(u, limits)];
      RunThen(s0, others.beforeWrite, ReserveStep(u, limits));
      if !outcome.Done? {
        // A concurrent duplicate request may have won the unique client id.
        repo.Others(others.beforeLookup);
        RunAppend(s0, trace, others.beforeLookup);
        trace := trace + others.beforeLookup;
        var found := Existing(scope, input);
        if found.None? {
          return CreateFailed(ReserveFailed(outcome)), trace;
        }
        r := if presigned then Target(found.value.id, found.value.objectKey) else CreateFailed(PresignFailed);
        return;
      }
      if presigned {
        assert PendingRow(u) in repo.media;
        return Target(id, Original(scope.eventId, id)), trace;
      }
      trace := GiveBack(id, others, s0, trace);
      if Valid(s0) && Alone(others) {
        ReserveThenRelease(s0, u, limits);
      }
      r := CreateFailed(PresignFailed);
    }

    /** Delete the call's own row again, after whatever the others did since it was written. */
    method GiveBack(id: Id, others: Between, ghost s0: Ledger, ghost trace: seq<Step>) returns (ghost longer: seq<Step>)
      requires repo.State() == Run(s0, trace)
      modifies repo
      ensures longer == trace + others.beforeDelete + [ReleaseStep([id])] && repo.State() == Run(s0, longer)
      ensures others.beforeDelete == [] ==> repo.State() == DeleteManyUploads(old(repo.State()), [id])
    {
      repo.Others(others.beforeDelete);
      RunAppend(s0, trace, others.beforeDelete);
      repo.DeleteManyUploads([id]);
      RunThen(s0, trace + others.beforeDelete, ReleaseStep([id]));
      longer := trace + others.beforeDelete + [ReleaseStep([id])];
    }

    /** Turn a reservation into usage once storage confirms the object. Completion is only ever
        recorded with the size that was reserved, and a duplicate gives its reservation back. */
    method Complete(scope: Scope, mediaId: Id, head: Option<ObjectInfo>, now: Time, others: Between)
      returns (r: CompleteResult, ghost trace: seq<Step>)
      modifies repo
      ensures repo.State() == Run(old(repo.State()), trace)
      ensures trace == [] || Completes(old(repo.media), scope.eventId, mediaId, now, trace, others)
      ensures r.Confirmed? ==> IsReady(repo.media, mediaId)
      ensures Alone(others) ==> forall id :: id != mediaId && IsReady(old(repo.media), id) ==> IsReady(repo.media, id)
      ensures r == CompleteFailed(Rejected(Duplicate)) && Alone(others) ==>
        repo.State() == DeleteManyUploads(old(repo.State()), [mediaId])
      ensures r.CompleteFailed? && r.error != Rejected(Duplicate) && Alone(others) ==> repo.State() == old(repo.State())
      ensures r == CompleteFailed(Rejected(NotFound)) ==> NotReady(repo.media, scope, mediaId)
      ensures r == CompleteFailed(EventClosed) <==> !scope.accepting
      ensures r.Confirmed? ==> Vouched(old(repo.media), scope, mediaId, head)
      ensures trace != [] ==> exists m :: m in old(repo.media) && Uploadable(m, scope, mediaId, head)
      ensures Valid(old(repo.State())) && Alone(others) ==>
        Valid(repo.State()) && (r.Confirmed? <==> scope.accepting && Completable(old(repo.media), scope, mediaId, head))
    {
      trace := [];
      var answer, found := Check(scope, mediaId, head);
      if answer.Some? {
        return answer.value, [];
      }
      OneCompletable(repo.media, scope, mediaId, head, found.value);
      r, trace := Record(scope, found.value, now, others);
    }

    /** The session's own row, in flight or ready. */
    method OfSession(scope: Scope, mediaId: Id) returns (found: Option<Media>)
      ensures found.Some? ==> found.value in repo.media && OwnRow(found.value, scope, mediaId)
      ensures found.None? ==> forall m :: m in repo.media ==> !OwnRow(m, scope, mediaId)
    {
      var p := SessionRow(mediaId, scope.eventId, scope.sessionId);
      found := repo.FindUploadForSession(mediaId, scope.eventId, scope.sessionId);
      WhereMembers(repo.media, p);
      assert found.Some? ==> found.value in Where(repo.media, p);
      assert forall m :: m in repo.media && p(m) ==> m in Where(repo.media, p);
    }

    /** Whether there is anything to write: an upload in flight whose object is what was announced. */
    method Check(scope: Scope, mediaId: Id, head: Option<ObjectInfo>) returns (answer: Option<CompleteResult>, found: Option<Media>)
      ensures answer.None? ==> scope.accepting && found.Some? && found.value in repo.media && Uploadable(found.value, scope, mediaId, head)
      ensures answer == Some(Confirmed) ==> scope.accepting && exists m :: m in repo.media && ReadyFor(m, scope, mediaId)
      ensures answer == Some(CompleteFailed(EventClosed)) <==> !scope.accepting
      ensures answer.Some? && answer.value.CompleteFailed? ==> answer.value.error in {EventClosed, NoUpload, NoObject, Mismatch}
      ensures answer.Some? && answer.value.CompleteFailed? && scope.accepting && KeysUnique(repo.media) ==>
        !Vouched(repo.media, scope, mediaId, head)
      ensures answer == Some(CompleteFailed(NoObject)) ==> head == None
      ensures answer == Some(CompleteFailed(NoUpload)) ==>
        forall m :: m in repo.media ==> !OwnRow(m, scope, mediaId)
    {
      if !scope.accepting {
        return Some(CompleteFailed(EventClosed)), None;
      }
      found := OfSession(scope, mediaId);
      if found.None? {
        return Some(CompleteFailed(NoUpload)), found;
      }
      var m := found.value;
      if m.status.Ready? {
        return Some(Confirmed), found;
      }
      OnlyWithId(repo.media, m);
      if head.None? {
        return Some(CompleteFailed(NoObject)), found;
      }
      if head.value.size != m.expectedSize || head.value.contentType != m.mimeType {
        return Some(CompleteFailed(Mismatch)), found;
      }
      answer := None;
    }

    /** The part of Complete that writes, once storage vouched for the object. */
    method Record(scope: Scope, m: Media, now: Time, others: Between)
      returns (r: CompleteResult, ghost trace: seq<Step>)
      requires m in repo.media && m.eventId == scope.eventId && m.sessionId == scope.sessionId && InFlight(m.status)
      modifies repo
      ensures repo.State() == Run(old(repo.State()), trace)
      ensures OwnSteps(trace, others, CompleteStep(scope.eventId, m.id, m.expectedSize, now), m.id)
      ensures r.Confirmed? ==> IsReady(repo.media, m.id)
      ensures Alone(others) ==> forall id :: id != m.id && IsReady(old(repo.media), id) ==> IsReady(repo.media, id)
      ensures r == CompleteFailed(Rejected(Duplicate)) && Alone(others) ==>
        repo.State() == DeleteManyUploads(old(repo.State()), [m.id])
      ensures r.CompleteFailed? && r.error != Rejected(Duplicate) && Alone(others) ==> repo.State() == old(repo.State())
      ensures r.CompleteFailed? ==> r.error.Rejected?
      ensures r == CompleteFailed(Rejected(NotFound)) ==> NotReady(repo.media, scope, m.id)
      ensures Valid(old(repo.State())) && Alone(others) ==>
        Valid(repo.State()) && (r.Confirmed? <==> !ChecksumReady(old(repo.media), scope.eventId, m.checksum))
    {
      ghost var s0 := repo.State();
      var e, write := scope.eventId, CompleteStep(scope.eventId, m.id, m.expectedSize, now);
      repo.Others(others.beforeWrite);
      ghost var s1 := repo.State();
      var outcome := repo.MarkReady(e, m.id, m.expectedSize, now);
      if Valid(s0) && Alone(others) {
        MarkReadyIff(s0, e, m.id, m.expectedSize, now, m);
        MarkReadyKeepsValid(s0, e, m.id, m.expectedSize, now);
        InFlightReleases(s0, m);
      }
      trace := others.beforeWrite + [write];
      RunThen(s0, others.beforeWrite, write);
      if outcome.NotFound? {
        // Another complete request may have won the race; its success is this one's.
        repo.Others(others.beforeLookup);
        RunAppend(s0, trace, others.beforeLookup);
        trace := trace + others.beforeLookup;
        var current := OfSession(scope, m.id);
        if current.Some? { OnlyWithId(repo.media, current.value); }
        if current.Some? && current.value.status.Ready? {
          return Confirmed, trace;
        }
        return CompleteFailed(Rejected(outcome)), trace;
      }
      if outcome.Duplicate? {
        // The duplicate's object is removed from storage first; its outcome is not looked at.
        trace := GiveBack(m.id, others, s0, trace);
        if Alone(others) { DeleteMembers(s0.media, Listed([m.id])); }
        return CompleteFailed(Rejected(outcome)), trace;
      }
      MarkedReady(s1, e, m.id, m.expectedSize, now);
      if Alone(others) {
        forall n | n in s0.media && n.id != m.id ensures n in repo.media {
          UpdateHas(s0.media, UploadRow(e, m.id), SetReady(m.expectedSize, now), n);
        }
      }
      r := Confirmed;
    }
  }

  // ---- Batches ----

  const MAX_COMPLETE_BATCH := 50

  datatype BatchItem = BatchItem(mediaId: Id, confirmed: bool)

  ghost function IndexOf(ids: seq<Id>, id: Id): nat
    requires id in ids
  {
    if ids[0] == id then 0 else 1 + IndexOf(ids[1..], id)
  }

  lemma {:induction false} IndexOfFirst(ids: seq<Id>, id: Id, i: nat)
    requires i < |ids| && ids[i] == id && id !in ids[..i]
    ensures IndexOf(ids, id) == i
  {
    if i > 0 {
      assert ids[0] in ids[..i];
      assert ids[1..][..i - 1] == ids[..i][1..];
      IndexOfFirst(ids[1..], id, i - 1);
    }
  }

  /** Each id once, uuid.Nil never, in the order they were first named. */
  method UniqueMediaIds(ids: seq<Id>) returns (unique: seq<Id>)
    ensures forall id :: id in unique <==> id in ids && id != NIL
    ensures forall i, j :: 0 <= i < j < |unique| ==> unique[i] != unique[j]
    ensures forall i, j :: 0 <= i < j < |unique| ==> IndexOf(ids, unique[i]) < IndexOf(ids, unique[j])
  {
    var seen: set<Id> := {};
    unique := [];
    for i := 0 to |ids|
      invariant forall id :: id in seen <==> id in ids[..i] && id != NIL
      invariant forall id :: id in unique <==> id in seen
      invariant forall k :: 0 <= k < |unique| ==> unique[k] in ids && IndexOf(ids, unique[k]) < i
      invariant forall j, k :: 0 <= j < k < |unique| ==>
        unique[j] != unique[k] && IndexOf(ids, unique[j]) < IndexOf(ids, unique[k])
    {
      var id := ids[i];
      assert ids[..i + 1] == ids[..i] + [id];
      if id != NIL && id !in seen {
        IndexOfFirst(ids, id, i);
        seen := seen + {id};
        unique := unique + [id];
      }
    }
    assert ids[..|ids|] == ids;
  }

  ghost predicate Answered(results: seq<BatchItem>, id: Id) {
    exists k :: 0 <= k < |results| && results[k].mediaId == id
  }

  /** Everything confirmed was ready at some point. */
  ghost predicate WereReady(s: Ledger, trace: seq<Step>, items: seq<BatchItem>) {
    forall k :: 0 <= k < |items| && items[k].confirmed ==> WasReady(s, trace, items[k].mediaId)
  }

  lemma StillWereReady(s: Ledger, trace: seq<Step>, more: seq<Step>, items: seq<BatchItem>)
    requires WereReady(s, trace, items)
    ensures WereReady(s, trace + more, items)
  {
    forall k | 0 <= k < |items| && items[k].confirmed ensures WasReady(s, trace + more, items[k].mediaId) {
      StillWasReady(s, trace, more, items[k].mediaId);
    }
  }

  function HeadOf(heads: map<Id, ObjectInfo>, id: Id): Option<ObjectInfo> { if id in heads then Some(heads[id]) else None }

  /** What one item's answer was worth in the state its turn found. */
  ghost predicate Answers(s: Ledger, scope: Scope, item: BatchItem, heads: map<Id, ObjectInfo>, undisturbed: bool) {
    var head := if item.mediaId in heads then Some(heads[item.mediaId]) else None;
    && (item.confirmed ==> Vouched(s.media, scope, item.mediaId, head))
    && (undisturbed ==> (item.confirmed <==> Completable(s.media, scope, item.mediaId, head)))
  }

  /** The items had their turns one after the other along the trace. */
  ghost predicate Vetted(s: Ledger, trace: seq<Step>, turns: seq<nat>, scope: Scope, items: seq<BatchItem>,
                         heads: map<Id, ObjectInfo>, undisturbed: bool) {
    && |turns| == |items| && (forall k :: 0 <= k < |turns| ==> turns[k] <= |trace|)
    && (forall j, k :: 0 <= j < k < |turns| ==> turns[j] <= turns[k])
    && forall k :: 0 <= k < |turns| ==> Answers(Run(s, trace[..turns[k]]), scope, items[k], heads, undisturbed)
  }

  lemma VettedNext(s: Ledger, trace: seq<Step>, own: seq<Step>, turns: seq<nat>, scope: Scope, items: seq<BatchItem>,
                   heads: map<Id, ObjectInfo>, item: BatchItem, undisturbed: bool)
    requires Vetted(s, trace, turns, scope, items, heads, undisturbed) && Answers(Run(s, trace), scope, item, heads, undisturbed)
    ensures Vetted(s, trace + own, turns + [|trace|], scope, items + [item], heads, undisturbed)
  {
    assert (trace + own)[..|trace|] == trace;
    assert forall k :: 0 <= k < |turns| ==> (trace + own)[..turns[k]] == trace[..turns[k]];
  }

  /** One result for each id but uuid.Nil, in the order they were first named. */
  ghost predicate OncePerId(ids: seq<Id>, items: seq<BatchItem>) {
    && (forall id :: Answered(items, id) <==> id in ids && id != NIL)
    && forall j, k :: 0 <= j < k < |items| ==>
         items[j].mediaId in ids && items[k].mediaId in ids && IndexOf(ids, items[j].mediaId) < IndexOf(ids, items[k].mediaId)
  }

  lemma InOrder(ids: seq<Id>, unique: seq<Id>, items: seq<BatchItem>)
    requires forall id :: id in unique <==> id in ids && id != NIL
    requires forall i, j :: 0 <= i < j < |unique| ==> IndexOf(ids, unique[i]) < IndexOf(ids, unique[j])
    requires |items| == |unique| && forall k :: 0 <= k < |items| ==> items[k].mediaId == unique[k]
    ensures OncePerId(ids, items)
  {
    forall id ensures Answered(items, id) <==> id in unique {
      if id in unique {
        var k :| 0 <= k < |unique| && unique[k] == id;
        assert items[k].mediaId == id;
      }
      if Answered(items, id) {
        var k :| 0 <= k < |items| && items[k].mediaId == id;
        assert unique[k] == id;
      }
    }
    assert forall k :: 0 <= k < |items| ==> items[k].mediaId in unique;
  }

  lemma UniqueCounted(ids: seq<Id>, unique: seq<Id>)
    requires Distinct(unique) && forall id :: id in unique <==> id in ids && id != NIL
    ensures |set id | id in ids && id != NIL| == |unique|
  {
    IdsSize(unique);
    assert SetOf(unique) == set id | id in ids && id != NIL;
  }

  /** One result per requested id, in order, with other requests' steps around each item's own. What
      was confirmed was ready when its item ended, and is ready when the batch ends if no one else
      stepped in, whatever happened to the rest of it. An item is confirmed only if its row was ready
      or its object as announced when its turn came, and undisturbed exactly when it can be. */
  method CompleteMany(service: MediaService, scope: Scope, ids: seq<Id>, heads: map<Id, ObjectInfo>, now: Time,
                      others: nat -> Between)
    returns (results: Option<seq<BatchItem>>, ghost trace: seq<Step>, ghost turns: seq<nat>)
    modifies service.repo
    ensures service.repo.State() == Run(old(service.repo.State()), trace)
    ensures var n := |set id | id in ids && id != NIL|; results.None? <==> n == 0 || n > 50 || !scope.accepting
    ensures results.Some? ==>
      Vetted(old(service.repo.State()), trace, turns, scope, results.value, heads, Valid(old(service.repo.State())) && forall i :: Alone(others(i)))
    ensures results.Some? ==> OncePerId(ids, results.value) && WereReady(old(service.repo.State()), trace, results.value)
    ensures results.Some? && (forall i :: Alone(others(i))) ==> AreReady(service.repo.media, results.value)
  {
    var unique := UniqueMediaIds(ids);
    UniqueCounted(ids, unique);
    if |unique| == 0 || |unique| > MAX_COMPLETE_BATCH || !scope.accepting {
      return None, [], [];
    }
    var items;
    items, trace, turns := CompleteAll(service, scope, unique, heads, now, others, forall i :: Alone(others(i)));
    InOrder(ids, unique, items);
    results := Some(items);
  }

  /** The items' turns, one after the other. */
  method CompleteAll(service: MediaService, scope: Scope, unique: seq<Id>, heads: map<Id, ObjectInfo>, now: Time,
                     others: nat -> Between, ghost alone: bool)
    returns (items: seq<BatchItem>, ghost trace: seq<Step>, ghost turns: seq<nat>)
    requires Distinct(unique) && scope.accepting && (alone ==> forall i :: Alone(others(i)))
    modifies service.repo
    ensures |items| == |unique| && forall k :: 0 <= k < |items| ==> items[k].mediaId == unique[k]
    ensures BatchRun(old(service.repo.State()), service.repo.State(), trace, turns, scope, items, heads, alone)
  {
    items, trace, turns := [], [], [];
    ghost var s0 := service.repo.State();
    for i := 0 to |unique|
      invariant |items| == i && forall k :: 0 <= k < i ==> items[k].mediaId == unique[k]
      invariant BatchRun(s0, service.repo.State(), trace, turns, scope, items, heads, alone)
    {
      ghost var own;
      var item;
      item, own := CompleteItem(service, scope, unique[i], heads, now, others(i), s0, trace, turns, items, alone);
      turns := TurnsThen(turns, trace);
      trace := trace + own;
      items := items + [item];
    }
  }

  ghost function TurnsThen(turns: seq<nat>, trace: seq<Step>): seq<nat> { turns + [|trace|] }

  /** How far a batch has come: what it confirmed was ready, and still is if no one stepped in. */
  ghost predicate BatchRun(s0: Ledger, s: Ledger, trace: seq<Step>, turns: seq<nat>, scope: Scope, items: seq<BatchItem>,
                           heads: map<Id, ObjectInfo>, alone: bool) {
    && s == Run(s0, trace) && (alone && Valid(s0) ==> Valid(s)) && WereReady(s0, trace, items)
    && Vetted(s0, trace, turns, scope, items, heads, Valid(s0) && alone)
    && (alone ==> AreReady(s.media, items))
  }

  ghost predicate AreReady(rows: seq<Media>, items: seq<BatchItem>) {
    forall k :: 0 <= k < |items| && items[k].confirmed ==> IsReady(rows, items[k].mediaId)
  }

  lemma BatchNext(s0: Ledger, s: Ledger, s': Ledger, trace: seq<Step>, own: seq<Step>, turns: seq<nat>, scope: Scope,
                  items: seq<BatchItem>, heads: map<Id, ObjectInfo>, alone: bool, item: BatchItem)
    requires BatchRun(s0, s, trace, turns, scope, items, heads, alone) && scope.accepting && s' == Run(s, own)
    requires item.confirmed ==> IsReady(s'.media, item.mediaId) && Vouched(s.media, scope, item.mediaId, HeadOf(heads, item.mediaId))
    requires alone && Valid(s) ==>
      Valid(s') && (item.confirmed <==> Completable(s.media, scope, item.mediaId, HeadOf(heads, item.mediaId)))
    requires alone ==> forall id :: id != item.mediaId && IsReady(s.media, id) ==> IsReady(s'.media, id)
    requires forall k :: 0 <= k < |items| ==> items[k].mediaId != item.mediaId
    ensures BatchRun(s0, s', trace + own, TurnsThen(turns, trace), scope, items + [item], heads, alone)
  {
    RunAppend(s0, trace, own);
    StillWereReady(s0, trace, own, items);
    if item.confirmed { ReadyAtEnd(s0, trace + own, item.mediaId); }
    VettedNext(s0, trace, own, turns, scope, items, heads, item, Valid(s0) && alone);
  }

  /** One item's turn. */
  method CompleteItem(service: MediaService, scope: Scope, id: Id, heads: map<Id, ObjectInfo>, now: Time, others: Between,
                      ghost s0: Ledger, ghost trace: seq<Step>, ghost turns: seq<nat>, ghost items: seq<BatchItem>, ghost alone: bool)
    returns (item: BatchItem, ghost own: seq<Step>)
    requires BatchRun(s0, service.repo.State(), trace, turns, scope, items, heads, alone) && scope.accepting
    requires (alone ==> Alone(others)) && forall k :: 0 <= k < |items| ==> items[k].mediaId != id
    modifies service.repo
    ensures item.mediaId == id
    ensures BatchRun(s0, service.repo.State(), trace + own, TurnsThen(turns, trace), scope, items + [item], heads, alone)
  {
    ghost var s := service.repo.State();
    var r;
    r, own := service.Complete(scope, id, HeadOf(heads, id), now, others);
    item := BatchItem(id, r.Confirmed?);
    BatchNext(s0, s, service.repo.State(), trace, own, turns, scope, items, heads, alone, item);
  }

  // ---- Expiry ----

  /** The stale reservations whose object is gone are released, the rest keep theirs. Storage is
      called between listing and releasing, and other requests go on meanwhile: a listed upload that
      completes in that time is removed all the same, and then the counters drift. */
  method ExpireStale(repo: MediaRepository, before: Time, limit: int, unremoved: set<ObjectKey>, others: seq<Step>)
    returns (ok: bool)
    modifies repo
    ensures var items, s := Stale(old(repo.media), before, limit), Run(old(repo.State()), others);
      var ids := ExpiredIds(items, unremoved);
      && (ok <==> items == [] || unremoved == {})
      && repo.State() == (if items == [] then old(repo.State()) else DeleteManyUploads(s, ids))
      && (items != [] ==> forall m :: m in repo.media <==> m in s.media && m.id !in ids)
      && (Valid(old(repo.State())) && GuardedRun(old(repo.State()), others) ==>
           (Valid(repo.State()) <==> NeverCompleted(s, ids)))
    ensures others == [] && Valid(old(repo.State())) ==>
      && Valid(repo.State())
      && forall m :: m in Stale(old(repo.media), before, limit) ==> (m in repo.media <==> m.objectKey in unremoved)
  {
    ghost var s0 := repo.State();
    var items := repo.FindStale(before, limit);
    if |items| == 0 {
      return true;
    }
    var expired := RemovedIds(items, unremoved);
    repo.Others(others);
    ghost var s := repo.State();
    repo.DeleteManyUploads(expired);
    ok := unremoved == {};
    DeleteMembers(s.media, Listed(expired));
    LateDeleteIff(s0, others, expired);
    if Valid(s0) { ExpiryIsGuarded(s0, before, limit, unremoved); }
  }

  /** The listed rows storage did not report as stuck. */
  method RemovedIds(items: seq<Media>, unremoved: set<ObjectKey>) returns (expired: seq<Id>)
    ensures expired == ExpiredIds(items, unremoved)
  {
    expired := [];
    for i := 0 to |items|
      invariant expired == ExpiredIds(items[..i], unremoved)
    {
      assert items[..i + 1][..i] == items[..i];
      if items[i].objectKey !in unremoved {
        expired := expired + [items[i].id];
      }
    }
    assert items[..|items|] == items;
  }

  lemma LateDeleteIff(s: Ledger, past: seq<Step>, ids: seq<Id>)
    ensures Valid(s) && GuardedRun(s, past) ==>
      (Valid(DeleteManyUploads(Run(s, past), ids)) <==> NeverCompleted(Run(s, past), ids))
  {
    if Valid(s) && GuardedRun(s, past) {
      LateReleaseIff(s, past, ids);
      RunThen(s, past, ReleaseStep(ids));
    }
  }

  function Stale(rows: seq<Media>, before: Time, limit: int): seq<Media> {
    Limit(Sort(Where(rows, StaleRow(before)), StalestFirst()), StaleLimit(limit))
  }

  function ExpiredIds(items: seq<Media>, unremoved: set<ObjectKey>): seq<Id> {
    if items == [] then []
    else
      var last := items[|items| - 1];
      ExpiredIds(items[..|items| - 1], unremoved) + if last.objectKey in unremoved then [] else [last.id]
  }

  lemma {:induction false} ExpiredMembers(items: seq<Media>, unremoved: set<ObjectKey>)
    ensures forall id :: id in ExpiredIds(items, unremoved) <==>
      exists m :: m in items && m.id == id && m.objectKey !in unremoved
  {
    if items != [] {
      var rest, last := items[..|items| - 1], items[|items| - 1];
      ExpiredMembers(rest, unremoved);
      assert items == rest + [last];
    }
  }

  /** The stale uploads listed: in flight and untouched since before, those untouched longest, and none
      left out while there is room. */
  lemma StaleAreOldest(rows: seq<Media>, before: Time, limit: int)
    ensures var items, n := Stale(rows, before, limit), if limit < 1 || limit > 500 then 100 else limit;
      && |items| <= n
      && (forall m :: m in items ==> m in rows && m.status in {Pending, Uploading, Uploaded} && m.lastActivityAt < before)
      && (forall i, j :: 0 <= i < j < |items| ==> items[i].lastActivityAt <= items[j].lastActivityAt)
      && forall m :: m in rows && m !in items && m.status in {Pending, Uploading, Uploaded} && m.lastActivityAt < before ==>
           |items| == n && forall o :: o in items ==> o.lastActivityAt <= m.lastActivityAt
  {
    var picked := Where(rows, StaleRow(before));
    WhereMembers(rows, StaleRow(before));
    LimitTakesFirst(picked, StalestFirst(), StaleLimit(limit));
    SortOrdered(picked, StalestFirst());
  }

  lemma StaleRowsInFlight(rows: seq<Media>, before: Time, limit: int)
    ensures forall m :: m in Stale(rows, before, limit) ==> m in rows && InFlight(m.status)
  {
    SortMembers(Where(rows, StaleRow(before)), StalestFirst());
    WhereMembers(rows, StaleRow(before));
    var sorted := Sort(Where(rows, StaleRow(before)), StalestFirst());
    assert forall m :: m in Stale(rows, before, limit) ==> m in sorted;
  }

  lemma OnlyWithId(rows: seq<Media>, m: Media)
    requires m in rows
    ensures KeysUnique(rows) ==> forall o :: o in rows && o.id == m.id ==> o == m
  {
  }

  /** Releasing one upload in flight does no harm. */
  lemma InFlightReleases(s: Ledger, m: Media)
    requires Valid(s) && m in s.media && InFlight(m.status)
    ensures Valid(DeleteManyUploads(s, [m.id]))
  {
    OnlyWithId(s.media, m);
    ReleaseKeepsValid(s, [m.id]);
  }

  /** Whether the call may confirm is decided by the one row it found. */
  lemma OneCompletable(rows: seq<Media>, scope: Scope, id: Id, head: Option<ObjectInfo>, m: Media)
    requires m in rows && Uploadable(m, scope, id, head)
    ensures KeysUnique(rows) ==> (Completable(rows, scope, id, head) <==> !ChecksumReady(rows, scope.eventId, m.checksum))
  {
    OnlyWithId(rows, m);
  }

  lemma SameIdSameRow(rows: seq<Media>, a: Media, b: Media)
    requires KeysUnique(rows) && a in rows && b in rows && a.id == b.id
    ensures a == b
  {
  }

  lemma ExpiryIsGuarded(s: Ledger, before: Time, limit: int, unremoved: set<ObjectKey>)
    requires Valid(s)
    ensures var items := Stale(s.media, before, limit);
      var s' := DeleteManyUploads(s, ExpiredIds(items, unremoved));
      Valid(s') && forall m :: m in items ==> (m in s'.media <==> m.objectKey in unremoved)
  {
    var items := Stale(s.media, before, limit);
    var ids := ExpiredIds(items, unremoved);
    StaleRowsInFlight(s.media, before, limit);
    ExpiredMembers(items, unremoved);
    forall m, n | m in s.media && n in items && m.id == n.id ensures m == n { SameIdSameRow(s.media, m, n); }
    ReleaseKeepsValid(s, ids);
    DeleteMembers(s.media, Listed(ids));
  }

  /** The shape of one call's run: the other requests' steps around its own first write, then
      nothing, a look-up after it, or the release that takes it back. */
  ghost predicate OwnSteps(trace: seq<Step>, others: Between, write: Step, id: Id) {
    || trace == others.beforeWrite + [write]
    || trace == others.beforeWrite + [write] + others.beforeLookup
    || trace == others.beforeWrite + [write] + others.beforeDelete + [ReleaseStep([id])]
  }

  // ---- The release that loses a race ----

  function RaceUpload(id: Id): Upload { Upload(id, 1, 2, 3, "a", "image/jpeg", 5, "c", 0) }

  function RaceState(c: Counters, rows: seq<Media>): Ledger {
    Ledger(map[1 := EventRow(Active, HotLimits(100, 0, 0, 0), c, false)], rows)
  }

  function RaceRow(id: Id): Media { SetReady(5, 0)(PendingRow(RaceUpload(id))) }

  /** The late release finds a completed row: it removes it and releases nothing. */
  lemma RaceRelease(c: Counters)
    ensures DeleteManyUploads(RaceState(c, [RaceRow(10)]), [10]) == RaceState(c, [])
    ensures !NeverCompleted(RaceState(c, [RaceRow(10)]), [10])
  {
  }

  function RaceLost(): seq<Step> {
    [ReserveStep(RaceUpload(10), ReserveLimits(0, false)), CompleteStep(1, 10, 5, 0), ReleaseStep([10])]
  }

  function RaceAgain(): seq<Step> {
    [ReserveStep(RaceUpload(11), ReserveLimits(0, false)), CompleteStep(1, 11, 5, 0)]
  }

  /** The table with the reservation made, with it completed, and with the completed row gone. */
  function RaceMiddle(): Ledger {
    RaceState(Counters(0, 5, 0, 1, 0, 1, 0, 0), [PendingRow(RaceUpload(10))])
  }

  function RaceDone(): Ledger { RaceState(Counters(5, 0, 1, 0, 1, 0, 0, 0), [RaceRow(10)]) }

  function RaceGone(): Ledger { RaceState(Counters(5, 0, 1, 0, 1, 0, 0, 0), []) }

  lemma RaceReserved()
    ensures Next(RaceState(ZERO, []), RaceLost()[0]) == RaceMiddle()
  {
  }

  lemma RaceCompleted()
    ensures Next(RaceMiddle(), RaceLost()[1]) == RaceDone()
  {
  }

  lemma RaceCharged()
    ensures Charges(RaceMiddle(), RaceLost()[1], ClientKey(1, 2, 3))
  {
  }

  lemma RaceDrift()
    ensures CounterDrift(RaceState(Counters(5, 0, 1, 0, 1, 0, 0, 0), []), 1)
  {
  }

  /** CreateUpload deletes its row when no upload URL can be signed, whatever became of the row
      meanwhile. If a retry of the same client upload found the row, uploaded and completed it in
      between, that release takes a completed upload out, and the counters drift. */
  lemma UnguardedReleaseDrifts()
    ensures OwnSteps(RaceLost(), Between([], [], [CompleteStep(1, 10, 5, 0)]), RaceLost()[0], 10)
    ensures !GuardedRun(RaceState(ZERO, []), RaceLost())
    ensures Run(RaceState(ZERO, []), RaceLost()) == RaceGone()
    ensures 1 in Run(RaceState(ZERO, []), RaceLost()).events && CounterDrift(Run(RaceState(ZERO, []), RaceLost()), 1)
  {
    RaceShape();
    RaceReserved();
    RaceCompleted();
    RaceRelease(Counters(5, 0, 1, 0, 1, 0, 0, 0));
    RaceDrift();
    LostRun(RaceState(ZERO, []), RaceMiddle(), RaceDone(), RaceGone(), RaceLost());
  }

  /** After that the client can upload once more: one client upload is charged twice. */
  lemma UnguardedReleaseChargesTwice(s: Ledger, lost: seq<Step>, again: seq<Step>)
    requires s == RaceState(ZERO, []) && lost == RaceLost() && again == RaceAgain()
    ensures ChargeCount(s, lost + again, ClientKey(1, 2, 3)) >= 2
  {
    UnguardedReleaseDrifts();
    RaceReserved();
    RaceCharged();
    SecondCharges(s, RaceMiddle(), lost, ClientKey(1, 2, 3));
    AgainChargesOnce();
    ChargeAppend(s, lost, again, ClientKey(1, 2, 3));
  }

  lemma AgainChargesOnce()
    ensures ChargeCount(RaceGone(), RaceAgain(), ClientKey(1, 2, 3)) >= 1
  {
  }

  lemma SecondCharges(s: Ledger, s1: Ledger, steps: seq<Step>, key: ClientKey)
    requires |steps| >= 2 && s1 == Next(s, steps[0]) && Charges(s1, steps[1], key)
    ensures ChargeCount(s, steps, key) >= 1
  {
  }

  lemma {:induction false} ChargeAppend(s: Ledger, a: seq<Step>, b: seq<Step>, key: ClientKey)
    ensures ChargeCount(s, a + b, key) == ChargeCount(s, a, key) + ChargeCount(Run(s, a), b, key)
    decreases |a|
  {
    if a == [] {
      assert a + b == b;
    } else {
      assert (a + b)[1..] == a[1..] + b;
      ChargeAppend(Next(s, a[0]), a[1..], b, key);
    }
  }

  lemma RaceShape()
    ensures OwnSteps(RaceLost(), Between([], [], [CompleteStep(1, 10, 5, 0)]), RaceLost()[0], 10)
  {
  }

  lemma LostRun(s0: Ledger, s1: Ledger, s2: Ledger, s3: Ledger, lost: seq<Step>)
    requires |lost| == 3
    requires s1 == Next(s0, lost[0]) && s2 == Next(s1, lost[1]) && s3 == Next(s2, lost[2]) && !Guarded(s2, lost[2])
    ensures Run(s0, lost) == s3 && !GuardedRun(s0, lost)
  {
    assert lost[1..][1..] == lost[2..] && lost[2..][1..] == [];
    assert Run(s2, lost[2..]) == s3 && Run(s1, lost[1..]) == Run(s2, lost[2..]);
    assert !GuardedRun(s2, lost[2..]) && !GuardedRun(s1, lost[1..]);
  }

  /** ExpireStale loses the same race: the upload it listed completes while storage is asked to remove
      its object, and the row goes with its upload still counted. */
  lemma ExpiryDrifts(items: seq<Media>)
    requires items == Stale(RaceMiddle().media, 1, 10)
    ensures ExpiredIds(items, {}) == [10]
    ensures var s := Run(RaceMiddle(), [RaceLost()[1]]);
      && !NeverCompleted(s, [10]) && DeleteManyUploads(s, [10]) == RaceGone()
    ensures CounterDrift(RaceGone(), 1)
  {
    var m := PendingRow(RaceUpload(10));
    Single(m, StaleRow(1), (n: Media) => n);
    SortOne(m, StalestFirst(), 10);
    assert ExpiredIds([m], {}) == [10];
    RaceCompleted();
    RunOne(RaceMiddle(), RaceLost()[1]);
    RaceRelease(Counters(5, 0, 1, 0, 1, 0, 0, 0));
    RaceDrift();
  }
}
