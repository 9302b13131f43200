/** What the ledger keeps over whole runs: any interleaving of the repository's transactions. */
module LedgerRuns {
  import opened Tables
  import opened MediaModel
  import opened MediaLedger

  datatype Step =
    | ReserveStep(u: Upload, limits: ReserveLimits)
    | CompleteStep(e: Id, id: Id, size: nat, at: Time)
    | ReleaseStep(ids: seq<Id>)
    | ModerateStep(e: Id, ids: seq<Id>, status: MediaStatus, at: Time)
    | SoftDeleteStep(e: Id, ids: seq<Id>, at: Time)
    | PurgeStep(e: Id, at: Time)
    | CreateEventStep(e: Id, hot: HotLimits)
    | CloseEventStep(e: Id)
    | DeleteEventStep(e: Id)
    | LimitsStep(e: Id, hot: HotLimits)

  function Next(s: Ledger, step: Step): Ledger {
    match step
    case ReserveStep(u, limits) => ReserveUpload(s, u, limits).0
    case CompleteStep(e, id, size, at) => MarkReady(s, e, id, size, at).0
    case ReleaseStep(ids) => DeleteManyUploads(s, ids)
    case ModerateStep(e, ids, status, at) =>
      // The service refuses any other target status before it reaches the repository.
      if Stored(status) then UpdateStatuses(s, e, ids, status, at).0 else s
    case SoftDeleteStep(e, ids, at) => DeleteForEvent(s, e, ids, at).0
    case PurgeStep(e, at) => MarkPurged(s, e, at)
    case CreateEventStep(e, limits) => CreateEvent(s, e, limits)
    case CloseEventStep(e) => CloseEvent(s, e)
    case DeleteEventStep(e) => DeleteEvent(s, e)
    case LimitsStep(e, limits) => SetLimits(s, e, limits)
  }

  function Run(s: Ledger, steps: seq<Step>): Ledger
    decreases |steps|
  {
    if steps == [] then s else Run(Next(s, steps[0]), steps[1..])
  }

  /** Each step is the call of its name: what ReserveIff, MarkReadyWrites and the others say of a call they
      say of the step. */
  lemma StepIsCall(s: Ledger, step: Step)
    ensures match step
            case ReserveStep(u, limits) => Next(s, step) == ReserveUpload(s, u, limits).0
            case CompleteStep(e, id, size, at) => Next(s, step) == MarkReady(s, e, id, size, at).0
            case ReleaseStep(ids) => Next(s, step) == DeleteManyUploads(s, ids)
            case ModerateStep(e, ids, status, at) =>
              if status in {Ready, Featured, Hidden} then Next(s, step) == UpdateStatuses(s, e, ids, status, at).0 else Next(s, step) == s
            case SoftDeleteStep(e, ids, at) => Next(s, step) == DeleteForEvent(s, e, ids, at).0
            case PurgeStep(e, at) => Next(s, step) == MarkPurged(s, e, at)
            case CreateEventStep(e, hot) => Next(s, step) == CreateEvent(s, e, hot)
            case LimitsStep(e, hot) => Next(s, step) == SetLimits(s, e, hot)
            case CloseEventStep(e) => Next(s, step) == CloseEvent(s, e)
            case DeleteEventStep(e) => Next(s, step) == DeleteEvent(s, e)
  {
  }

  /** Uploads are only released while they have not completed, as DeleteManyUploads asks. */
  predicate Guarded(s: Ledger, step: Step) { step.ReleaseStep? ==> NeverCompleted(s, step.ids) }

  lemma GuardedIff(s: Ledger, step: Step)
    ensures Guarded(s, step) <==>
      step.ReleaseStep? ==> forall m :: m in s.media && m.id in step.ids && m.status in {Ready, Featured, Hidden, Deleted} ==>
        m.eventId in s.events && s.events[m.eventId].purged
  {
  }

  predicate GuardedRun(s: Ledger, steps: seq<Step>)
    decreases |steps|
  {
    steps == [] || (Guarded(s, steps[0]) && GuardedRun(Next(s, steps[0]), steps[1..]))
  }

  /** A run is guarded when each of its steps is, in the state the steps before it left. */
  lemma {:induction false} GuardedRunIff(s: Ledger, steps: seq<Step>)
    ensures GuardedRun(s, steps) <==> forall i :: 0 <= i < |steps| ==> Guarded(Run(s, steps[..i]), steps[i])
    decreases |steps|
  {
    if steps != [] {
      var next, rest := Next(s, steps[0]), steps[1..];
      GuardedRunIff(next, rest);
      assert steps[..0] == [];
      forall i | 0 < i < |steps| ensures Run(s, steps[..i]) == Run(next, rest[..i - 1]) && rest[i - 1] == steps[i] {
        assert steps[..i][1..] == rest[..i - 1];
      }
      assert forall i :: 0 <= i < |rest| ==> rest[i] == steps[i + 1] && Run(next, rest[..i]) == Run(s, steps[..i + 1]);
    }
  }

  lemma NextKeepsValid(s: Ledger, step: Step)
    requires Valid(s) && Guarded(s, step)
    ensures Valid(Next(s, step))
  {
    match step
    case ReserveStep(u, limits) => ReserveKeepsValid(s, u, limits);
    case CompleteStep(e, id, size, at) => MarkReadyKeepsValid(s, e, id, size, at);
    case ReleaseStep(ids) => ReleaseKeepsValid(s, ids);
    case ModerateStep(e, ids, status, at) => if Stored(status) { ModerateKeepsValid(s, e, ids, status, at); }
    case SoftDeleteStep(e, ids, at) => SoftDeleteKeepsValid(s, e, ids, at);
    case PurgeStep(e, at) => PurgeKeepsValid(s, e, at);
    case CreateEventStep(e, limits) => EventRowKeepsValid(s, e, limits);
    case CloseEventStep(e) => EventRowKeepsValid(s, e, HotLimits(0, 0, 0, 0));
    case DeleteEventStep(e) => EventRowKeepsValid(s, e, HotLimits(0, 0, 0, 0));
    case LimitsStep(e, limits) => EventRowKeepsValid(s, e, limits);
  }

  // ---- CounterDrift stays empty ----

  /** The reconciler's CounterDrift query for one event, read straight off the media table. */
  predicate CounterDrift(s: Ledger, e: Id)
    requires e in s.events
  {
    var c := s.events[e].counters;
    && !s.events[e].purged
    && (|| c.uploadedItems != Count(s.media, (m: Media) => m.eventId == e && Completed(m.status))
        || c.uploadedPhotos != Count(s.media, (m: Media) => m.eventId == e && Completed(m.status) && IsPhoto(m.mimeType))
        || c.uploadedVideos != Count(s.media, (m: Media) => m.eventId == e && Completed(m.status) && IsVideo(m.mimeType))
        || c.reservedItems != Count(s.media, (m: Media) => m.eventId == e && InFlight(m.status))
        || c.usedBytes != Sum(Where(s.media, (m: Media) => m.eventId == e && Stored(m.status)), (m: Media) => StoredSize(m)))
  }

  /** COUNT(*) FILTER is the sum of a 0/1 column. */
  lemma {:induction false} CountIsSum<T>(rows: seq<T>, p: T -> bool, w: T -> int)
    requires forall i :: 0 <= i < |rows| ==> w(rows[i]) == if p(rows[i]) then 1 else 0
    ensures Count(rows, p) == Sum(rows, w)
  {
    if rows != [] {
      CountIsSum(rows[..|rows| - 1], p, w);
      assert w(rows[|rows| - 1]) == if p(rows[|rows| - 1]) then 1 else 0;
    }
  }

  /** SUM(v) FILTER (WHERE p) is the sum of a column that is v where p holds and 0 elsewhere. */
  lemma {:induction false} FilterIsSum<T>(rows: seq<T>, p: T -> bool, v: T -> int, w: T -> int)
    requires forall i :: 0 <= i < |rows| ==> w(rows[i]) == if p(rows[i]) then v(rows[i]) else 0
    ensures Sum(Where(rows, p), v) == Sum(rows, w)
  {
    if rows != [] {
      var rest, last := rows[..|rows| - 1], rows[|rows| - 1];
      FilterIsSum(rest, p, v, w);
      SumAppend(Where(rest, p), last, v);
      assert Where(rows, p) == if p(last) then Where(rest, p) + [last] else Where(rest, p);
      assert w(last) == if p(last) then v(last) else 0;
    }
  }

  lemma AgreesMeansNoDrift(s: Ledger, e: Id)
    requires e in s.events && (!s.events[e].purged ==> Agrees(s.events[e].counters, s.media, e))
    ensures !CounterDrift(s, e)
  {
    var c := s.events[e].counters;
    if !s.events[e].purged {
      assert c.uploadedItems == Get(c, UploadedItems) && c.uploadedPhotos == Get(c, UploadedPhotos);
      assert c.uploadedVideos == Get(c, UploadedVideos) && c.reservedItems == Get(c, ReservedItems);
      assert c.usedBytes == Get(c, UsedBytes);
      CountIsSum(s.media, (m: Media) => m.eventId == e && Completed(m.status), Weight(e, UploadedItems));
      CountIsSum(s.media, (m: Media) => m.eventId == e && Completed(m.status) && IsPhoto(m.mimeType), Weight(e, UploadedPhotos));
      CountIsSum(s.media, (m: Media) => m.eventId == e && Completed(m.status) && IsVideo(m.mimeType), Weight(e, UploadedVideos));
      CountIsSum(s.media, (m: Media) => m.eventId == e && InFlight(m.status), Weight(e, ReservedItems));
      FilterIsSum(s.media, (m: Media) => m.eventId == e && Stored(m.status), (m: Media) => StoredSize(m), Weight(e, UsedBytes));
    }
  }

  /** The main result: whatever the interleaving, the counters agree with the rows and the
      reconciler has nothing to report. */
  lemma {:induction false} CountersNeverDrift(s: Ledger, steps: seq<Step>)
    requires Valid(s) && GuardedRun(s, steps)
    ensures Valid(Run(s, steps))
    ensures forall e :: e in Run(s, steps).events ==> !CounterDrift(Run(s, steps), e)
    decreases |steps|
  {
    if steps == [] {
      forall e | e in s.events ensures !CounterDrift(s, e) { AgreesMeansNoDrift(s, e); }
    } else {
      NextKeepsValid(s, steps[0]);
      CountersNeverDrift(Next(s, steps[0]), steps[1..]);
    }
  }

  // ---- No clamp ever takes effect ----

  /** Every GREATEST(column - x, 0) the step runs on event e is given x <= column. */
  ghost predicate ClampIdle(s: Ledger, step: Step, e: Id)
    requires e in s.events
  {
    var c := s.events[e].counters;
    match step
    case CompleteStep(e', id, size, at) =>
      e' == e ==> forall m :: m in s.media && UploadRow(e, id)(m) ==>
        var (photo, video) := MediaKind(m.mimeType);
        c.reservedBytes >= m.expectedSize && c.reservedItems >= 1 && c.reservedPhotos >= photo && c.reservedVideos >= video
    case ReleaseStep(ids) =>
      var r := Total(Where(s.media, Released(ids)), e);
      && c.reservedBytes >= r.reservedBytes && c.reservedItems >= r.reservedItems
      && c.reservedPhotos >= r.reservedPhotos && c.reservedVideos >= r.reservedVideos
    case SoftDeleteStep(e', ids, at) =>
      e' == e ==> c.usedBytes >= Total(Where(s.media, StoredRow(e, ids)), e).usedBytes
    case _ => true
  }

  lemma ClampsNeverFire(s: Ledger, step: Step, e: Id)
    requires Valid(s) && e in s.events
    ensures ClampIdle(s, step, e)
  {
    var c := s.events[e].counters;
    match step
    case CompleteStep(e', id, size, at) =>
      if e' == e {
        forall m | m in s.media && UploadRow(e, id)(m)
          ensures forall column :: Get(c, column) >= Weight(e, column)(m)
        {
          forall column { SumAtLeast(s.media, Weight(e, column), m); }
        }
        forall m | m in s.media && UploadRow(e, id)(m)
          ensures c.reservedBytes >= m.expectedSize && c.reservedItems >= 1
          ensures c.reservedPhotos >= MediaKind(m.mimeType).0 && c.reservedVideos >= MediaKind(m.mimeType).1
        {
          assert Get(c, ReservedBytes) >= Weight(e, ReservedBytes)(m);
          assert Get(c, ReservedItems) >= Weight(e, ReservedItems)(m);
          assert Get(c, ReservedPhotos) >= Weight(e, ReservedPhotos)(m);
          assert Get(c, ReservedVideos) >= Weight(e, ReservedVideos)(m);
        }
      }
    case ReleaseStep(ids) => SelectedAtMost(s, Released(ids), e);
    case SoftDeleteStep(e', ids, at) => if e' == e { SelectedAtMost(s, StoredRow(e, ids), e); }
    case _ =>
  }

  /** What any WHERE over rows that hold or keep bytes selects is covered, purged events included. */
  lemma SelectedAtMost(s: Ledger, p: Media -> bool, e: Id)
    requires Valid(s) && e in s.events
    requires forall m :: p(m) ==> !m.status.Deleted?
    ensures var c, t := s.events[e].counters, Total(Where(s.media, p), e);
      && c.usedBytes >= t.usedBytes && c.reservedBytes >= t.reservedBytes && c.reservedItems >= t.reservedItems
      && c.reservedPhotos >= t.reservedPhotos && c.reservedVideos >= t.reservedVideos
  {
    var c, picked := s.events[e].counters, Where(s.media, p);
    forall column: Column | column in {UsedBytes, ReservedBytes, ReservedItems, ReservedPhotos, ReservedVideos}
      ensures Get(c, column) >= Get(Total(picked, e), column)
    {
      TotalColumn(picked, e, column);
      if s.events[e].purged {
        WhereMembers(s.media, p);
        assert forall i :: 0 <= i < |picked| ==> picked[i] in picked;
        SumZero(picked, Weight(e, column));
      } else {
        Covers(c, s.media, p, e);
      }
    }
    assert Get(c, UsedBytes) >= Get(Total(picked, e), UsedBytes);
    assert Get(c, ReservedBytes) >= Get(Total(picked, e), ReservedBytes);
    assert Get(c, ReservedItems) >= Get(Total(picked, e), ReservedItems);
    assert Get(c, ReservedPhotos) >= Get(Total(picked, e), ReservedPhotos);
    assert Get(c, ReservedVideos) >= Get(Total(picked, e), ReservedVideos);
  }

  // ---- The byte and item limits hold over a run ----

  /** Completing an upload moves the bytes held by exactly the difference between the actual and the
      expected size. */
  lemma CompletionMovesSizeDifference(s: Ledger, e: Id, id: Id, size: nat, at: Time, m: Media)
    requires Valid(s) && MarkReady(s, e, id, size, at).1 == Done && m in s.media && Waiting(m, e, id)
    ensures e in s.events
    ensures var c, c' := s.events[e].counters, MarkReady(s, e, id, size, at).0.events[e].counters;
      c'.usedBytes + c'.reservedBytes == c.usedBytes + c.reservedBytes + size - m.expectedSize
  {
    MarkReadyWrites(s, e, id, size, at, m);
  }

  /** No more than before, or within the bound. */
  ghost predicate AtMost(now: int, before: int, bound: int) { now <= before || now <= bound }

  ghost predicate BytesWithin(c': Counters, c: Counters, bound: int) {
    AtMost(c'.usedBytes + c'.reservedBytes, c.usedBytes + c.reservedBytes, bound)
  }

  /** What the run must respect for a byte bound on event e: reservations are checked against at
      most bound, and completions come from Complete, which only accepts the expected size. */
  ghost predicate BoundedStep(s: Ledger, step: Step, e: Id, bound: int) {
    match step
    case ReserveStep(u, limits) =>
      // A cap of 0 in the request stands for the event's own.
      u.eventId == e && e in s.events ==> (if limits.maxEventBytes == 0 then s.events[e].limits.maxBytes else limits.maxEventBytes) <= bound
    case CompleteStep(e', id, size, at) => e' == e ==> forall m :: m in s.media && m.id == id ==> m.expectedSize == size
    case _ => true
  }

  ghost predicate BoundedRun(s: Ledger, steps: seq<Step>, e: Id, bound: int)
    decreases |steps|
  {
    steps == [] || (BoundedStep(s, steps[0], e, bound) && BoundedRun(Next(s, steps[0]), steps[1..], e, bound))
  }

  lemma ByteStep(s: Ledger, step: Step, e: Id, bound: int)
    requires Valid(s) && e in s.events && BoundedStep(s, step, e, bound)
    ensures e in Next(s, step).events
    ensures BytesWithin(Next(s, step).events[e].counters, s.events[e].counters, bound)
  {
    ClampsNeverFire(s, step, e);
    match step
    case ReserveStep(u, limits) => ReserveIff(s, u, limits);
    case CompleteStep(e', id, size, at) =>
      if MarkReady(s, e', id, size, at).1.Done? && e' == e {
        WhereMembers(s.media, UploadRow(e, id));
        var m := Where(s.media, UploadRow(e, id))[0];
        assert m in Where(s.media, UploadRow(e, id));
        CompletionMovesSizeDifference(s, e, id, size, at, m);
      }
    case ReleaseStep(ids) => NonNegativeTotal(Where(s.media, Released(ids)), e);
    case SoftDeleteStep(e', ids, at) => NonNegativeTotal(Where(s.media, StoredRow(e', ids)), e);
    case PurgeStep(e', at) => NonNegativeHeld(s, e);
    case _ =>
  }

  lemma NonNegativeTotal(rows: seq<Media>, e: Id)
    ensures var t := Total(rows, e);
      t.usedBytes >= 0 && t.reservedBytes >= 0 && t.reservedItems >= 0 && t.reservedPhotos >= 0 && t.reservedVideos >= 0
  {
    forall column { SumNonNegative(rows, Weight(e, column)); }
  }

  lemma NonNegativeHeld(s: Ledger, e: Id)
    requires Valid(s) && e in s.events
    ensures var c := s.events[e].counters;
      c.usedBytes + c.reservedBytes >= 0 && c.reservedBytes >= 0 && c.reservedItems >= 0 && c.reservedPhotos >= 0 && c.reservedVideos >= 0
  {
    SelectedAtMost(s, (m: Media) => false, e);
    NonNegativeTotal(Where(s.media, (m: Media) => false), e);
  }

  /** Bytes in use and reserved never pass the limit reservations were checked against. */
  lemma {:induction false} BytesStayBounded(s: Ledger, steps: seq<Step>, e: Id, bound: int)
    requires Valid(s) && e in s.events && GuardedRun(s, steps) && BoundedRun(s, steps, e, bound)
    ensures e in Run(s, steps).events
    ensures var c, c' := s.events[e].counters, Run(s, steps).events[e].counters;
      AtMost(c'.usedBytes + c'.reservedBytes, c.usedBytes + c.reservedBytes, bound)
    decreases |steps|
  {
    if steps != [] {
      ByteStep(s, steps[0], e, bound);
      NextKeepsValid(s, steps[0]);
      BytesStayBounded(Next(s, steps[0]), steps[1..], e, bound);
    }
  }

  datatype Kind = AnyItem | PhotoItem | VideoItem

  ghost function HeldItems(c: Counters, kind: Kind): int {
    match kind
    case AnyItem => c.uploadedItems + c.reservedItems
    case PhotoItem => c.uploadedPhotos + c.reservedPhotos
    case VideoItem => c.uploadedVideos + c.reservedVideos
  }

  /** A reservation on e enforces its item limit of this kind, and that is at most bound. */
  ghost predicate EnforcedStep(s: Ledger, step: Step, e: Id, kind: Kind, bound: int) {
    step.ReserveStep? && step.u.eventId == e && e in s.events ==>
      step.limits.enforceItems
      && match kind
         case AnyItem => 0 < s.events[e].limits.maxItems <= bound
         case PhotoItem => 0 < s.events[e].limits.maxPhotos <= bound
         case VideoItem => 0 < s.events[e].limits.maxVideos <= bound
  }

  ghost predicate EnforcedRun(s: Ledger, steps: seq<Step>, e: Id, kind: Kind, bound: int)
    decreases |steps|
  {
    steps == [] || (EnforcedStep(s, steps[0], e, kind, bound) && EnforcedRun(Next(s, steps[0]), steps[1..], e, kind, bound))
  }

  ghost predicate ItemsWithin(c': Counters, c: Counters, kind: Kind, bound: int) {
    AtMost(HeldItems(c', kind), HeldItems(c, kind), bound)
  }

  lemma ItemStep(s: Ledger, step: Step, e: Id, kind: Kind, bound: int)
    requires Valid(s) && e in s.events
    requires EnforcedStep(s, step, e, kind, bound)
    ensures e in Next(s, step).events
    ensures ItemsWithin(Next(s, step).events[e].counters, s.events[e].counters, kind, bound)
  {
    ClampsNeverFire(s, step, e);
    match step
    case CompleteStep(e', id, size, at) =>
      if MarkReady(s, e', id, size, at).1.Done? && e' == e {
        WhereMembers(s.media, UploadRow(e, id));
        assert Where(s.media, UploadRow(e, id))[0] in Where(s.media, UploadRow(e, id));
      }
    case ReleaseStep(ids) => NonNegativeTotal(Where(s.media, Released(ids)), e);
    case PurgeStep(e', at) => NonNegativeHeld(s, e);
    case _ =>
  }

  /** Items uploaded and reserved, and photos and videos alike, never pass an enforced limit. */
  lemma {:induction false} ItemsStayBounded(s: Ledger, steps: seq<Step>, e: Id, kind: Kind, bound: int)
    requires Valid(s) && e in s.events && GuardedRun(s, steps) && EnforcedRun(s, steps, e, kind, bound)
    ensures e in Run(s, steps).events
    ensures var c, c' := s.events[e].counters, Run(s, steps).events[e].counters;
      match kind
      case AnyItem => AtMost(c'.uploadedItems + c'.reservedItems, c.uploadedItems + c.reservedItems, bound)
      case PhotoItem => AtMost(c'.uploadedPhotos + c'.reservedPhotos, c.uploadedPhotos + c.reservedPhotos, bound)
      case VideoItem => AtMost(c'.uploadedVideos + c'.reservedVideos, c.uploadedVideos + c.reservedVideos, bound)
    decreases |steps|
  {
    if steps != [] {
      ItemStep(s, steps[0], e, kind, bound);
      NextKeepsValid(s, steps[0]);
      ItemsStayBounded(Next(s, steps[0]), steps[1..], e, kind, bound);
    }
  }

  /** Deleting media gives no upload allowance back: no run lowers a lifetime counter. */
  lemma {:induction false} LifetimeOnlyGrows(s: Ledger, steps: seq<Step>, e: Id)
    requires e in s.events
    ensures e in Run(s, steps).events
    ensures var c, c' := s.events[e].counters, Run(s, steps).events[e].counters;
      c'.uploadedItems >= c.uploadedItems && c'.uploadedPhotos >= c.uploadedPhotos && c'.uploadedVideos >= c.uploadedVideos
    decreases |steps|
  {
    if steps != [] {
      LifetimeOnlyGrows(Next(s, steps[0]), steps[1..], e);
    }
  }

  // ---- After a purge ----

  lemma PurgedStep(s: Ledger, step: Step, e: Id)
    requires Valid(s) && e in s.events && s.events[e].purged
    ensures e in Next(s, step).events && Next(s, step).events[e].purged
    ensures Next(s, step).events[e].counters == s.events[e].counters
  {
    match step
    case CompleteStep(e', id, size, at) =>
      if e' == e { WhereNone(s.media, UploadRow(e, id)); }
    case ReleaseStep(ids) =>
      WhereMembers(s.media, Released(ids));
      var released := Where(s.media, Released(ids));
      assert forall i :: 0 <= i < |released| ==> released[i] in released;
      assert !HasRowOf(released, e);
    case SoftDeleteStep(e', ids, at) =>
      if e' == e {
        PurgedMatchesNothing(s, e, ids);
        assert s.events[e].counters.usedBytes == 0;
      }
    case _ =>
  }

  /** Once an event is purged its used and reserved columns stay 0 and its lifetime columns stay
      what they were, whatever runs afterwards. */
  lemma {:induction false} PurgedStaysFrozen(s: Ledger, steps: seq<Step>, e: Id)
    requires Valid(s) && e in s.events && s.events[e].purged && GuardedRun(s, steps)
    ensures var s' := Run(s, steps);
      && e in s'.events && s'.events[e].purged
      && s'.events[e].counters == s.events[e].counters
      && var c := s'.events[e].counters;
      c.usedBytes == c.reservedBytes == c.reservedItems == c.reservedPhotos == c.reservedVideos == 0
    decreases |steps|
  {
    if steps != [] {
      PurgedStep(s, steps[0], e);
      NextKeepsValid(s, steps[0]);
      PurgedStaysFrozen(Next(s, steps[0]), steps[1..], e);
    }
  }

  // ---- One client upload is charged at most once ----

  datatype ClientKey = ClientKey(eventId: Id, sessionId: Id, clientUploadId: Id)

  function KeyOf(m: Media): ClientKey { ClientKey(m.eventId, m.sessionId, m.clientUploadId) }

  /** The step turns a reservation of this client upload into usage. */
  predicate Charges(s: Ledger, step: Step, key: ClientKey) {
    && step.CompleteStep? && MarkReady(s, step.e, step.id, step.size, step.at).1.Done?
    && exists i :: 0 <= i < |s.media| && UploadRow(step.e, step.id)(s.media[i]) && KeyOf(s.media[i]) == key
  }

  function ChargeCount(s: Ledger, steps: seq<Step>, key: ClientKey): nat
    decreases |steps|
  {
    if steps == [] then 0
    else (if Charges(s, steps[0], key) then 1 else 0) + ChargeCount(Next(s, steps[0]), steps[1..], key)
  }

  /** On the columns: a completion of an upload in flight of this client, of a photo no ready one equals. */
  lemma ChargesIff(s: Ledger, step: Step, key: ClientKey)
    requires Valid(s)
    ensures Charges(s, step, key) <==> step.CompleteStep? && exists m :: m in s.media && Chargeable(s.media, m, step.e, step.id, key)
  {
    if step.CompleteStep? {
      forall m | m in s.media && Waiting(m, step.e, step.id)
        ensures Charges(s, step, key) <==> Chargeable(s.media, m, step.e, step.id, key)
      {
        MarkReadyIff(s, step.e, step.id, step.size, step.at, m);
        OneUpload(s.media, step.e, step.id, m);
        var i :| 0 <= i < |s.media| && s.media[i] == m;
      }
      if Charges(s, step, key) {
        var i :| 0 <= i < |s.media| && UploadRow(step.e, step.id)(s.media[i]) && KeyOf(s.media[i]) == key;
        assert s.media[i] in s.media;
      }
    }
  }

  ghost predicate Chargeable(rows: seq<Media>, m: Media, e: Id, id: Id, key: ClientKey) {
    && Waiting(m, e, id) && m.eventId == key.eventId && m.sessionId == key.sessionId && m.clientUploadId == key.clientUploadId
    && !exists o :: o in rows && o.status == Ready && o.eventId == e && o.checksum == m.checksum
  }

  /** The client upload is over: one of its rows completed, or its event is purged. */
  ghost predicate Settled(s: Ledger, key: ClientKey) {
    || (exists m :: m in s.media && KeyOf(m) == key && Completed(m.status))
    || (key.eventId in s.events && s.events[key.eventId].purged)
  }

  /** Before the charge no row of this client upload completed. */
  lemma ChargeIsFirst(s: Ledger, step: Step, key: ClientKey)
    requires Valid(s) && Charges(s, step, key)
    ensures !Settled(s, key)
  {
  }

  lemma ChargeSettles(s: Ledger, step: Step, key: ClientKey)
    requires Charges(s, step, key)
    ensures Settled(Next(s, step), key)
  {
    var p, f := UploadRow(step.e, step.id), SetReady(step.size, step.at);
    var i :| 0 <= i < |s.media| && p(s.media[i]) && KeyOf(s.media[i]) == key;
    UpdateHas(s.media, p, f, s.media[i]);
    assert f(s.media[i]) in Next(s, step).media;
  }

  lemma CompletedRowStays(s: Ledger, step: Step, m: Media)
    requires Guarded(s, step) && m in s.media && Completed(m.status)
    requires m.eventId in s.events && !s.events[m.eventId].purged
    ensures exists n :: n in Next(s, step).media && KeyOf(n) == KeyOf(m) && Completed(n.status)
  {
    match step
    case CompleteStep(e, id, size, at) => UpdateHas(s.media, UploadRow(e, id), SetReady(size, at), m);
    case ReleaseStep(ids) => DeleteMembers(s.media, Listed(ids));
    case ModerateStep(e, ids, status, at) => UpdateHas(s.media, StoredRow(e, ids), SetStatus(status, at), m);
    case SoftDeleteStep(e, ids, at) => UpdateHas(s.media, StoredRow(e, ids), SetStatus(Deleted, at), m);
    case PurgeStep(e, at) => UpdateHas(s.media, LiveRow(e), SetStatus(Deleted, at), m);
    case _ =>
  }

  lemma SettledStays(s: Ledger, step: Step, key: ClientKey)
    requires Valid(s) && Guarded(s, step) && Settled(s, key)
    ensures Settled(Next(s, step), key)
  {
    if key.eventId in s.events && s.events[key.eventId].purged {
      PurgedStep(s, step, key.eventId);
    } else {
      var m :| m in s.media && KeyOf(m) == key && Completed(m.status);
      CompletedRowStays(s, step, m);
    }
  }

  /** Over any run, retries and races included, a client upload holds at most one row (so at most
      one reservation) at a time, and is charged at most once, never again once it is over. */
  lemma {:induction false} ChargedAtMostOnce(s: Ledger, steps: seq<Step>, key: ClientKey)
    requires Valid(s) && GuardedRun(s, steps)
    ensures ChargeCount(s, steps, key) <= if Settled(s, key) then 0 else 1
    ensures forall i, j :: 0 <= i < j < |Run(s, steps).media| ==>
      !(KeyOf(Run(s, steps).media[i]) == key == KeyOf(Run(s, steps).media[j]))
    decreases |steps|
  {
    if steps == [] {
      forall i, j | 0 <= i < j < |s.media| ensures !(KeyOf(s.media[i]) == key == KeyOf(s.media[j])) {
        assert !SameKey(s.media[i], s.media[j]);
      }
    } else {
      NextKeepsValid(s, steps[0]);
      if Charges(s, steps[0], key) {
        ChargeIsFirst(s, steps[0], key);
        ChargeSettles(s, steps[0], key);
      }
      if Settled(s, key) { SettledStays(s, steps[0], key); }
      ChargedAtMostOnce(Next(s, steps[0]), steps[1..], key);
    }
  }

  // ---- Refusals tell the truth ----

  /** A quota refusal names a limit this upload would have passed, with the usage it was compared
      to, whenever the request carries no negative byte cap. */
  lemma RefusalIsTrue(s: Ledger, u: Upload, limits: ReserveLimits)
    requires limits.maxEventBytes >= 0
    ensures var (s', outcome) := ReserveUpload(s, u, limits);
      outcome.Refused? ==>
        && s' == s
        && outcome.usage + (if outcome.resource.ByteQuota? then u.expectedSize else 1) > outcome.limit
        && (outcome.resource.VideoQuota? ==> IsVideo(u.mimeType))
        && (outcome.resource.PhotoQuota? ==> IsPhoto(u.mimeType))
  {
  }
}
