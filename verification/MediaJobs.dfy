/** The media job queue (internal/mediajob/worker.go and repository.go): batches claimed with SKIP
    LOCKED, failures rescheduled with a doubling delay, and a ceiling on attempts. */
module MediaJobs {
  import opened Tables
  import opened Sorting
  import MediaModel

  type Id = MediaModel.Id
  type Time = MediaModel.Time

  datatype Kind = Thumbnail | UnknownKind

  datatype JobStatus = Queued | Processing | DoneJob | FailedJob

  datatype Job = Job(id: Id, kind: Kind, status: JobStatus, attempts: int, runAfter: Time, lastError: Option<string>)

  datatype Config = Config(concurrency: int, idle: Time, maxAttempts: int, backoff: Time)

  const SECOND: Time := 1_000_000_000

  function WithDefaults(c: Config): (d: Config)
    ensures d.concurrency > 0 && d.idle > 0 && d.maxAttempts > 0 && d.backoff > 0
    ensures c.concurrency > 0 && c.idle > 0 && c.maxAttempts > 0 && c.backoff > 0 ==> d == c
  {
    Config(if c.concurrency <= 0 then 2 else c.concurrency, if c.idle <= 0 then 5 * SECOND else c.idle,
           if c.maxAttempts <= 0 then 5 else c.maxAttempts, if c.backoff <= 0 then 30 * SECOND else c.backoff)
  }

  /** What running a job comes to; a panic is recovered as a failure. */
  datatype Outcome = Succeeded | Errored(cause: string) | Panicked(cause: string)

  // ---- Statements ----

  function DueJob(now: Time): Job -> bool { (j: Job) => j.status.Queued? && j.runAfter <= now }

  function SoonestFirst(): (Job, Job) -> bool { (a: Job, b: Job) => a.runAfter < b.runAfter }

  function Batch(rows: seq<Job>, limit: int, now: Time): seq<Job> {
    Limit(Sort(Where(rows, DueJob(now)), SoonestFirst()), if limit < 1 then 1 else limit)
  }

  predicate HasId(jobs: seq<Job>, id: Id) { exists i :: 0 <= i < |jobs| && jobs[i].id == id }

  function InBatch(batch: seq<Job>): Job -> bool { (j: Job) => HasId(batch, j.id) }

  function Start(): Job -> Job { (j: Job) => j.(status := Processing, attempts := j.attempts + 1) }

  function ById(id: Id): Job -> bool { (j: Job) => j.id == id }

  function SetDone(): Job -> Job { (j: Job) => j.(status := DoneJob, lastError := None) }

  function SetFailed(cause: string): Job -> Job { (j: Job) => j.(status := FailedJob, lastError := Some(Truncate(cause))) }

  function SetQueued(at: Time, cause: string): Job -> Job {
    (j: Job) => j.(status := Queued, runAfter := at, lastError := Some(Truncate(cause)))
  }

  /** An error string is bounded before it is stored. */
  function Truncate(cause: string): (r: string)
    ensures |r| <= 500 && r <= cause && (|cause| <= 500 ==> r == cause)
  {
    if |cause| > 500 then cause[..500] else cause
  }

  /** The delay after the attempts-th failure: it doubles from backoff. */
  function Delay(c: Config, attempts: int): Time {
    c.backoff * Power(if attempts < 1 then 0 else attempts - 1)
  }

  function Power(n: nat): nat { if n == 0 then 1 else 2 * Power(n - 1) }

  predicate Fails(j: Job, o: Outcome) { j.kind.UnknownKind? || !o.Succeeded? }

  function Cause(j: Job, o: Outcome): string {
    if j.kind.UnknownKind? then "unknown job kind"
    else
      match o
      case Succeeded => ""
      case Errored(cause) => cause
      case Panicked(cause) => "panic: " + cause
  }

  /** What fail writes to the job's row. */
  function Failing(c: Config, j: Job, cause: string, now: Time): Job -> Job {
    if j.attempts >= c.maxAttempts then SetFailed(cause) else SetQueued(now + Delay(c, j.attempts), cause)
  }

  /** What running the claimed job j writes to its row. A job of an unknown kind fails like any other. */
  function Effect(c: Config, j: Job, o: Outcome, now: Time): Job -> Job {
    if Fails(j, o) then Failing(c, j, Cause(j, o), now) else SetDone()
  }

  function AfterRun(c: Config, rows: seq<Job>, j: Job, o: Outcome, now: Time): seq<Job> {
    Update(rows, ById(j.id), Effect(c, j, o, now))
  }

  // ---- The repository and the worker ----

  class JobRepository {
    var jobs: seq<Job>

    constructor (jobs: seq<Job>)
      ensures this.jobs == jobs
    {
      this.jobs := jobs;
    }

    /** Take due jobs; the copies handed out say what was just written. */
    method ClaimBatch(limit: int, now: Time) returns (claimed: seq<Job>)
      modifies this
      ensures claimed == Apply(Batch(old(jobs), limit, now), Start())
      ensures jobs == Update(old(jobs), InBatch(Batch(old(jobs), limit, now)), Start())
    {
      var batch := Batch(jobs, limit, now);
      claimed := [];
      if |batch| == 0 {
        WhereNone(jobs, InBatch(batch));
        UpdateNone(jobs, InBatch(batch), Start());
        return;
      }
      for i := 0 to |batch|
        invariant jobs == old(jobs) && claimed == Apply(batch[..i], Start())
      {
        assert batch[..i + 1] == batch[..i] + [batch[i]];
        ApplyAppend(batch[..i], batch[i], Start());
        claimed := claimed + [batch[i].(status := Processing, attempts := batch[i].attempts + 1)];
      }
      assert batch[..|batch|] == batch;
      jobs := Update(jobs, InBatch(batch), Start());
    }

    method MarkDone(id: Id)
      modifies this
      ensures jobs == Update(old(jobs), ById(id), SetDone())
    {
      jobs := Update(jobs, ById(id), SetDone());
    }

    method Reschedule(id: Id, at: Time, cause: string)
      modifies this
      ensures jobs == Update(old(jobs), ById(id), SetQueued(at, cause))
    {
      jobs := Update(jobs, ById(id), SetQueued(at, cause));
    }

    method MarkFailed(id: Id, cause: string)
      modifies this
      ensures jobs == Update(old(jobs), ById(id), SetFailed(cause))
    {
      jobs := Update(jobs, ById(id), SetFailed(cause));
    }
  }

  class Worker {
    const repo: JobRepository
    const cfg: Config

    constructor (repo: JobRepository, cfg: Config)
      ensures this.repo == repo && this.cfg == WithDefaults(cfg)
    {
      this.repo, this.cfg := repo, WithDefaults(cfg);
    }

    method Fail(job: Job, cause: string, now: Time)
      modifies repo
      ensures repo.jobs == Update(old(repo.jobs), ById(job.id), Failing(cfg, job, cause, now))
    {
      if job.attempts >= cfg.maxAttempts {
        repo.MarkFailed(job.id, cause);
        return;
      }
      repo.Reschedule(job.id, now + Delay(cfg, job.attempts), cause);
    }

    method Process(job: Job, o: Outcome, now: Time)
      modifies repo
      ensures repo.jobs == AfterRun(cfg, old(repo.jobs), job, o, now)
    {
      if job.kind.UnknownKind? {
        Fail(job, "unknown job kind", now);
        return;
      }
      match o
      case Succeeded => repo.MarkDone(job.id);
      case Errored(cause) => Fail(job, cause, now);
      case Panicked(cause) => Fail(job, "panic: " + cause, now);
    }
  }

  /** Claim one batch and run it. The jobs of a batch touch different rows, so running them one after
      the other leaves what running them at once does. */
  method DrainOnce(w: Worker, outcomes: nat -> Outcome, now: Time, ghost waited: map<Id, int>) returns (worked: bool)
    modifies w.repo
    ensures var batch := Batch(old(w.repo.jobs), w.cfg.concurrency, now);
      worked == (batch != [])
      && w.repo.jobs ==
           Drained(w.cfg, Next(w.cfg, Queue(old(w.repo.jobs), [], waited), ClaimStep(w.cfg.concurrency, now)), |batch|, outcomes, now).rows
  {
    var batch := w.repo.ClaimBatch(w.cfg.concurrency, now);
    Copies(Batch(old(w.repo.jobs), w.cfg.concurrency, now));
    ghost var q := Next(w.cfg, Queue(old(w.repo.jobs), [], waited), ClaimStep(w.cfg.concurrency, now));
    assert q.held == batch;
    RunBatch(w, batch, outcomes, now, q);
    worked := |batch| > 0;
  }

  method RunBatch(w: Worker, batch: seq<Job>, outcomes: nat -> Outcome, now: Time, ghost q: Queue)
    requires w.repo.jobs == q.rows && q.held == batch
    modifies w.repo
    ensures w.repo.jobs == Drained(w.cfg, q, |batch|, outcomes, now).rows
  {
    for i := 0 to |batch|
      invariant w.repo.jobs == Drained(w.cfg, q, i, outcomes, now).rows
      invariant Drained(w.cfg, q, i, outcomes, now).held == batch[i..]
    {
      DrainedNext(w.cfg, q, i, outcomes, now);
      w.Process(batch[i], outcomes(i), now);
    }
  }

  /** The first n jobs held, run one after the other. */
  function Drained(c: Config, q: Queue, n: nat, outcomes: nat -> Outcome, now: Time): Queue {
    if n == 0 then q else Next(c, Drained(c, q, n - 1, outcomes, now), FinishStep(0, outcomes(n - 1), now))
  }

  lemma DrainedNext(c: Config, q: Queue, n: nat, outcomes: nat -> Outcome, now: Time)
    requires Drained(c, q, n, outcomes, now).held != []
    ensures var before, after := Drained(c, q, n, outcomes, now), Drained(c, q, n + 1, outcomes, now);
      after.held == before.held[1..] && after.rows == AfterRun(c, before.rows, before.held[0], outcomes(n), now)
  {
    FinishFirst(c, Drained(c, q, n, outcomes, now), outcomes(n), now);
  }

  lemma FinishFirst(c: Config, q: Queue, o: Outcome, now: Time)
    requires q.held != []
    ensures var q' := Next(c, q, FinishStep(0, o, now)); q'.held == q.held[1..] && q'.rows == AfterRun(c, q.rows, q.held[0], o, now)
  {
    assert q.held[..0] + q.held[1..] == q.held[1..];
  }

  // ---- Any number of workers over one table ----

  /** The table, the copies claimed and not finished yet, and how long each job was told to wait. */
  datatype Queue = Queue(rows: seq<Job>, held: seq<Job>, waited: map<Id, int>)

  datatype Step =
    | EnqueueStep(id: Id, kind: Kind, at: Time)
    | ClaimStep(limit: int, now: Time)
    | FinishStep(i: nat, o: Outcome, now: Time)

  function Next(c: Config, q: Queue, step: Step): Queue {
    match step
    case EnqueueStep(id, kind, at) =>
      if HasId(q.rows, id) then q
      else Queue(q.rows + [Job(id, kind, Queued, 0, at, None)], q.held, q.waited[id := 0])
    case ClaimStep(limit, now) =>
      var batch := Batch(q.rows, limit, now);
      Queue(Update(q.rows, InBatch(batch), Start()), q.held + Apply(batch, Start()), q.waited)
    case FinishStep(i, o, now) =>
      if i >= |q.held| then q
      else
        var j := q.held[i];
        Queue(AfterRun(c, q.rows, j, o, now), q.held[..i] + q.held[i + 1..],
              if Fails(j, o) && j.attempts < c.maxAttempts && j.id in q.waited
              then q.waited[j.id := q.waited[j.id] + Delay(c, j.attempts)] else q.waited)
  }

  function Run(c: Config, q: Queue, steps: seq<Step>): Queue
    decreases |steps|
  {
    if steps == [] then q else Run(c, Next(c, q, steps[0]), steps[1..])
  }

  ghost predicate UniqueIds(jobs: seq<Job>) { forall i, j :: 0 <= i < j < |jobs| ==> jobs[i].id != jobs[j].id }

  /** The waits a job has been given after so many failures: backoff * (2^n - 1). */
  function Waits(c: Config, failures: nat): int { c.backoff * (Power(failures) - 1) }

  ghost predicate JobOk(c: Config, q: Queue, j: Job) {
    && j.id in q.waited
    && match j.status
       case Queued => 0 <= j.attempts < c.maxAttempts && q.waited[j.id] == Waits(c, j.attempts)
       case Processing => 1 <= j.attempts <= c.maxAttempts && q.waited[j.id] == Waits(c, j.attempts - 1) && j in q.held
       case DoneJob => 1 <= j.attempts <= c.maxAttempts
       case FailedJob => c.maxAttempts > 0 && j.attempts == c.maxAttempts && q.waited[j.id] == Waits(c, c.maxAttempts - 1)
  }

  /** No job is held twice, what is held is what the table says, and nothing is running unheld. */
  ghost predicate Valid(c: Config, q: Queue) {
    && c.maxAttempts > 0
    && UniqueIds(q.rows) && UniqueIds(q.held)
    && (forall j :: j in q.held ==> j in q.rows && j.status.Processing?)
    && (forall j :: j in q.rows ==> JobOk(c, q, j))
  }

  // ---- Every step keeps it ----

  lemma SameJob(jobs: seq<Job>, a: Job, b: Job)
    requires UniqueIds(jobs) && a in jobs && b in jobs && a.id == b.id
    ensures a == b
  {
  }

  /** A batch is queued rows of the table, each once. */
  lemma BatchRows(rows: seq<Job>, limit: int, now: Time)
    requires UniqueIds(rows)
    ensures var batch := Batch(rows, limit, now);
      UniqueIds(batch) && forall j :: j in batch ==> j in rows && j.status.Queued? && j.runAfter <= now
  {
    var due := Where(rows, DueJob(now));
    var sorted := Sort(due, SoonestFirst());
    WhereMembers(rows, DueJob(now));
    SortMembers(due, SoonestFirst());
    forall i, j | 0 <= i < j < |due| ensures due[i] != due[j] { WhereSplits(rows, DueJob(now), i, j); }
    SortNoRepeats(due, SoonestFirst());
    forall i, j | 0 <= i < j < |sorted| ensures sorted[i].id != sorted[j].id {
      assert sorted[i] in sorted && sorted[j] in sorted;
      if sorted[i].id == sorted[j].id { SameJob(rows, sorted[i], sorted[j]); }
    }
    assert forall i :: 0 <= i < |sorted| ==> sorted[i] in sorted;
  }

  /** A batch takes queued jobs whose time has come, those that have waited longest, and leaves one only
      when it is full. */
  lemma BatchIsOldest(rows: seq<Job>, limit: int, now: Time)
    ensures var batch, n := Batch(rows, limit, now), if limit < 1 then 1 else limit;
      && |batch| <= n
      && (forall j :: j in batch ==> j in rows && j.status == Queued && j.runAfter <= now)
      && (forall i, k :: 0 <= i < k < |batch| ==> batch[i].runAfter <= batch[k].runAfter)
      && forall j :: j in rows && j.status == Queued && j.runAfter <= now && j !in batch ==>
           |batch| == n && forall b :: b in batch ==> b.runAfter <= j.runAfter
  {
    var due := Where(rows, DueJob(now));
    WhereMembers(rows, DueJob(now));
    SortMembers(due, SoonestFirst());
    SortOrdered(due, SoonestFirst());
    LimitTakesFirst(due, SoonestFirst(), if limit < 1 then 1 else limit);
    var sorted := Sort(due, SoonestFirst());
    assert forall j :: j in Batch(rows, limit, now) ==> j in sorted;
  }

  lemma {:induction false} Copies(batch: seq<Job>)
    ensures |Apply(batch, Start())| == |batch| && forall i :: 0 <= i < |batch| ==> Apply(batch, Start())[i] == Start()(batch[i])
  {
    if batch != [] { Copies(batch[..|batch| - 1]); }
  }

  lemma UpdateKeepsIds(rows: seq<Job>, p: Job -> bool, f: Job -> Job)
    requires UniqueIds(rows) && forall j :: f(j).id == j.id
    ensures UniqueIds(Update(rows, p, f))
  {
    UpdateAt(rows, p, f);
  }

  lemma EnqueueKeeps(c: Config, q: Queue, id: Id, kind: Kind, at: Time)
    requires Valid(c, q) && !HasId(q.rows, id)
    ensures Valid(c, Next(c, q, EnqueueStep(id, kind, at)))
  {
  }

  /** A claimed job was nobody's: the claims are disjoint from everything held. */
  lemma ClaimedWasFree(c: Config, q: Queue, limit: int, now: Time)
    requires Valid(c, q)
    ensures UniqueIds(q.held + Apply(Batch(q.rows, limit, now), Start()))
    ensures forall j :: j in q.held ==> !HasId(Batch(q.rows, limit, now), j.id)
  {
    var batch := Batch(q.rows, limit, now);
    BatchRows(q.rows, limit, now);
    Copies(batch);
    forall j | j in q.held ensures !HasId(batch, j.id) {
      forall i | 0 <= i < |batch| ensures batch[i].id != j.id {
        assert batch[i] in batch;
        if batch[i].id == j.id { SameJob(q.rows, batch[i], j); }
      }
    }
    forall i, k | 0 <= i < |q.held| && 0 <= k < |batch| ensures q.held[i].id != batch[k].id {
      assert q.held[i] in q.held;
    }
  }

  lemma ClaimRowsOk(c: Config, q: Queue, limit: int, now: Time, j: Job)
    requires Valid(c, q) && j in q.rows
    ensures var batch := Batch(q.rows, limit, now);
      JobOk(c, Next(c, q, ClaimStep(limit, now)), if HasId(batch, j.id) then Start()(j) else j)
  {
    var batch := Batch(q.rows, limit, now);
    BatchRows(q.rows, limit, now);
    Copies(batch);
    assert JobOk(c, q, j);
    if HasId(batch, j.id) {
      var i :| 0 <= i < |batch| && batch[i].id == j.id;
      assert batch[i] in batch;
      SameJob(q.rows, batch[i], j);
      assert Apply(batch, Start())[i] == Start()(j);
    }
  }

  lemma ClaimHeld(c: Config, q: Queue, limit: int, now: Time, j: Job)
    requires Valid(c, q) && j in q.held + Apply(Batch(q.rows, limit, now), Start())
    ensures j in Next(c, q, ClaimStep(limit, now)).rows && j.status.Processing?
  {
    var batch := Batch(q.rows, limit, now);
    BatchRows(q.rows, limit, now);
    ClaimedWasFree(c, q, limit, now);
    Copies(batch);
    if j in q.held {
      UpdateHas(q.rows, InBatch(batch), Start(), j);
    } else {
      var i :| 0 <= i < |batch| && Start()(batch[i]) == j;
      assert batch[i] in batch && HasId(batch, batch[i].id);
      UpdateHas(q.rows, InBatch(batch), Start(), batch[i]);
    }
  }

  lemma ClaimKeeps(c: Config, q: Queue, limit: int, now: Time)
    requires Valid(c, q)
    ensures Valid(c, Next(c, q, ClaimStep(limit, now)))
  {
    var q', batch := Next(c, q, ClaimStep(limit, now)), Batch(q.rows, limit, now);
    UpdateKeepsIds(q.rows, InBatch(batch), Start());
    ClaimedWasFree(c, q, limit, now);
    forall j | j in q'.held ensures j in q'.rows && j.status.Processing? { ClaimHeld(c, q, limit, now, j); }
    forall j | j in q'.rows ensures JobOk(c, q', j) {
      UpdateMembers(q.rows, InBatch(batch), Start());
      var o :| o in q.rows && j == if HasId(batch, o.id) then Start()(o) else o;
      ClaimRowsOk(c, q, limit, now, o);
    }
  }

  /** Finishing a held job touches its own row only. */
  lemma FinishOne(c: Config, q: Queue, q': Queue, i: nat, f: Job -> Job)
    requires Valid(c, q) && i < |q.held|
    requires forall j: Job :: f(j).id == j.id
    requires q'.rows == Update(q.rows, ById(q.held[i].id), f) && q'.held == q.held[..i] + q.held[i + 1..]
    requires forall id :: id != q.held[i].id ==> (id in q'.waited <==> id in q.waited) && (id in q.waited ==> q'.waited[id] == q.waited[id])
    requires JobOk(c, q', f(q.held[i]))
    ensures Valid(c, q')
  {
    var j := q.held[i];
    assert j in q.held;
    UpdateKeepsIds(q.rows, ById(j.id), f);
    forall h | h in q'.held ensures h in q'.rows && h.status.Processing? { FinishHeld(c, q, i, f, h); }
    UpdateMembers(q.rows, ById(j.id), f);
    forall n | n in q'.rows ensures JobOk(c, q', n) {
      var o :| o in q.rows && n == if o.id == j.id then f(o) else o;
      if o.id == j.id { SameJob(q.rows, o, j); } else { OtherJobOk(c, q, q', i, o); }
    }
  }

  lemma OtherJobOk(c: Config, q: Queue, q': Queue, i: nat, o: Job)
    requires i < |q.held| && o != q.held[i] && JobOk(c, q, o)
    requires q'.held == q.held[..i] + q.held[i + 1..]
    requires (o.id in q'.waited <==> o.id in q.waited) && (o.id in q.waited ==> q'.waited[o.id] == q.waited[o.id])
    ensures JobOk(c, q', o)
  {
    if o in q.held { OthersHeld(q.held, i, o); }
  }

  lemma FinishHeld(c: Config, q: Queue, i: nat, f: Job -> Job, h: Job)
    requires Valid(c, q) && i < |q.held| && h in q.held[..i] + q.held[i + 1..]
    ensures h in Update(q.rows, ById(q.held[i].id), f) && h.status.Processing?
  {
    var others := q.held[..i] + q.held[i + 1..];
    var k :| 0 <= k < |others| && others[k] == h;
    assert h == q.held[if k < i then k else k + 1];
    UpdateHas(q.rows, ById(q.held[i].id), f, h);
  }

  lemma OthersHeld(held: seq<Job>, i: nat, o: Job)
    requires i < |held| && o in held && o != held[i]
    ensures o in held[..i] + held[i + 1..]
  {
  }

  lemma EffectKeepsId(c: Config, j: Job, o: Outcome, now: Time)
    ensures forall h: Job :: Effect(c, j, o, now)(h).id == h.id
  {
  }

  lemma EffectOk(c: Config, q: Queue, i: nat, o: Outcome, now: Time)
    requires Valid(c, q) && i < |q.held|
    ensures JobOk(c, Next(c, q, FinishStep(i, o, now)), Effect(c, q.held[i], o, now)(q.held[i]))
  {
  }

  lemma FinishKeeps(c: Config, q: Queue, i: nat, o: Outcome, now: Time)
    requires Valid(c, q) && i < |q.held|
    ensures Valid(c, Next(c, q, FinishStep(i, o, now)))
  {
    EffectKeepsId(c, q.held[i], o, now);
    EffectOk(c, q, i, o, now);
    FinishOne(c, q, Next(c, q, FinishStep(i, o, now)), i, Effect(c, q.held[i], o, now));
  }

  lemma NextKeepsValid(c: Config, q: Queue, step: Step)
    requires Valid(c, q)
    ensures Valid(c, Next(c, q, step))
  {
    match step
    case EnqueueStep(id, kind, at) => if !HasId(q.rows, id) { EnqueueKeeps(c, q, id, kind, at); }
    case ClaimStep(limit, now) => ClaimKeeps(c, q, limit, now);
    case FinishStep(i, o, now) => if i < |q.held| { FinishKeeps(c, q, i, o, now); }
  }

  // ---- Claims are bounded ----

  /** The attempts a job has left while it is open. */
  function Left(c: Config): Job -> int {
    (j: Job) => if j.status.Queued? || j.status.Processing? then c.maxAttempts - j.attempts else 0
  }

  function Claims(q: Queue, step: Step): nat {
    if step.ClaimStep? then |Batch(q.rows, step.limit, step.now)| else 0
  }

  function Adds(q: Queue, step: Step): nat { if step.EnqueueStep? && !HasId(q.rows, step.id) then 1 else 0 }

  function ClaimCount(c: Config, q: Queue, steps: seq<Step>): nat
    decreases |steps|
  {
    if steps == [] then 0 else Claims(q, steps[0]) + ClaimCount(c, Next(c, q, steps[0]), steps[1..])
  }

  function Enqueued(c: Config, q: Queue, steps: seq<Step>): nat
    decreases |steps|
  {
    if steps == [] then 0 else Adds(q, steps[0]) + Enqueued(c, Next(c, q, steps[0]), steps[1..])
  }

  lemma {:induction false} StartingCosts(c: Config, rows: seq<Job>, p: Job -> bool)
    requires forall i :: 0 <= i < |rows| && p(rows[i]) ==> rows[i].status.Queued?
    ensures Sum(Update(rows, p, Start()), Left(c)) == Sum(rows, Left(c)) - Count(rows, p)
  {
    if rows != [] {
      var rest, last := rows[..|rows| - 1], rows[|rows| - 1];
      StartingCosts(c, rest, p);
      SumAppend(Update(rest, p, Start()), if p(last) then Start()(last) else last, Left(c));
      assert Where(rows, p) == Where(rest, p) + if p(last) then [last] else [];
    }
  }

  lemma {:induction false} FinishingCosts(c: Config, rows: seq<Job>, p: Job -> bool, f: Job -> Job)
    requires forall i :: 0 <= i < |rows| && p(rows[i]) ==> Left(c)(f(rows[i])) <= Left(c)(rows[i])
    ensures Sum(Update(rows, p, f), Left(c)) <= Sum(rows, Left(c))
  {
    if rows != [] {
      var rest, last := rows[..|rows| - 1], rows[|rows| - 1];
      FinishingCosts(c, rest, p, f);
      SumAppend(Update(rest, p, f), if p(last) then f(last) else last, Left(c));
    }
  }

  function Ids(jobs: seq<Job>): set<Id> { set i | 0 <= i < |jobs| :: jobs[i].id }

  lemma IdsAppend(rest: seq<Job>, last: Job)
    ensures Ids(rest + [last]) == Ids(rest) + {last.id}
  {
    var jobs := rest + [last];
    forall id | id in Ids(jobs) ensures id in Ids(rest) + {last.id} {
      var i :| 0 <= i < |jobs| && jobs[i].id == id;
      if i < |rest| { assert rest[i].id == id; }
    }
    forall id | id in Ids(rest) ensures id in Ids(jobs) {
      var i :| 0 <= i < |rest| && rest[i].id == id;
      assert jobs[i].id == id;
    }
    assert jobs[|rest|].id == last.id;
  }

  lemma {:induction false} IdCount(jobs: seq<Job>)
    requires UniqueIds(jobs)
    ensures |Ids(jobs)| == |jobs|
  {
    if jobs != [] {
      var rest, last := jobs[..|jobs| - 1], jobs[|jobs| - 1];
      IdCount(rest);
      assert jobs == rest + [last];
      IdsAppend(rest, last);
      assert last.id !in Ids(rest);
    }
  }

  lemma BatchCounted(rows: seq<Job>, limit: int, now: Time)
    requires UniqueIds(rows)
    ensures Count(rows, InBatch(Batch(rows, limit, now))) == |Batch(rows, limit, now)|
    ensures forall i :: 0 <= i < |rows| && InBatch(Batch(rows, limit, now))(rows[i]) ==> rows[i].status.Queued?
  {
    var batch := Batch(rows, limit, now);
    var matched := Where(rows, InBatch(batch));
    BatchRows(rows, limit, now);
    WhereMembers(rows, InBatch(batch));
    forall i, j | 0 <= i < j < |matched| ensures matched[i].id != matched[j].id {
      WhereSplits(rows, InBatch(batch), i, j);
    }
    IdCount(batch);
    IdCount(matched);
    forall i | 0 <= i < |rows| && HasId(batch, rows[i].id) ensures rows[i] in batch {
      var k :| 0 <= k < |batch| && batch[k].id == rows[i].id;
      assert batch[k] in batch && rows[i] in rows;
      SameJob(rows, rows[i], batch[k]);
    }
    assert Ids(batch) == Ids(matched) by {
      forall id | id in Ids(batch) ensures id in Ids(matched) {
        var i :| 0 <= i < |batch| && batch[i].id == id;
        assert batch[i] in batch && HasId(batch, id) && batch[i] in matched;
        var k :| 0 <= k < |matched| && matched[k] == batch[i];
      }
      forall id | id in Ids(matched) ensures id in Ids(batch) {
        var i :| 0 <= i < |matched| && matched[i].id == id;
        assert matched[i] in matched;
      }
    }
  }

  lemma EnqueueCosts(c: Config, q: Queue, id: Id, kind: Kind, at: Time)
    requires !HasId(q.rows, id)
    ensures Sum(Next(c, q, EnqueueStep(id, kind, at)).rows, Left(c)) == Sum(q.rows, Left(c)) + c.maxAttempts
  {
  }

  lemma ClaimCosts(c: Config, q: Queue, limit: int, now: Time)
    requires Valid(c, q)
    ensures Sum(Next(c, q, ClaimStep(limit, now)).rows, Left(c)) == Sum(q.rows, Left(c)) - |Batch(q.rows, limit, now)|
  {
    BatchCounted(q.rows, limit, now);
    StartingCosts(c, q.rows, InBatch(Batch(q.rows, limit, now)));
  }

  /** A step takes the attempts it claims from what is left, and only a new job adds any. */
  lemma StepCosts(c: Config, q: Queue, step: Step)
    requires Valid(c, q)
    ensures Sum(Next(c, q, step).rows, Left(c)) + Claims(q, step) <=
      Sum(q.rows, Left(c)) + if Adds(q, step) == 1 then c.maxAttempts else 0
  {
    match step
    case EnqueueStep(id, kind, at) => if !HasId(q.rows, id) { EnqueueCosts(c, q, id, kind, at); }
    case ClaimStep(limit, now) => ClaimCosts(c, q, limit, now);
    case FinishStep(i, o, now) => if i < |q.held| { FinishCosts(c, q, i, o, now); }
  }

  lemma FinishCosts(c: Config, q: Queue, i: nat, o: Outcome, now: Time)
    requires Valid(c, q) && i < |q.held|
    ensures Sum(Next(c, q, FinishStep(i, o, now)).rows, Left(c)) <= Sum(q.rows, Left(c))
  {
    var j := q.held[i];
    assert j in q.held && JobOk(c, q, j);
    EffectCosts(c, j, o, now);
    forall k | 0 <= k < |q.rows| && q.rows[k].id == j.id ensures q.rows[k] == j {
      assert q.rows[k] in q.rows;
      SameJob(q.rows, q.rows[k], j);
    }
    FinishingCosts(c, q.rows, ById(j.id), Effect(c, j, o, now));
  }

  lemma EffectCosts(c: Config, j: Job, o: Outcome, now: Time)
    requires j.status.Processing? && j.attempts <= c.maxAttempts
    ensures Left(c)(Effect(c, j, o, now)(j)) <= Left(c)(j)
  {
  }

  lemma LeftNonNegative(c: Config, q: Queue)
    requires Valid(c, q)
    ensures Sum(q.rows, Left(c)) >= 0
  {
    forall i | 0 <= i < |q.rows| ensures Left(c)(q.rows[i]) >= 0 {
      assert q.rows[i] in q.rows && JobOk(c, q, q.rows[i]);
    }
    SumNonNegative(q.rows, Left(c));
  }

  /** However many workers claim, fail and finish in whatever order: no job is ever held twice, none
      is claimed more than maxAttempts times, a retired one was told to wait backoff * (2^(n-1) - 1)
      in all, and the claims never outnumber the attempts the jobs came with. */
  lemma {:induction false} ClaimsAreBounded(c: Config, q: Queue, steps: seq<Step>)
    requires Valid(c, q)
    ensures Valid(c, Run(c, q, steps))
    ensures ClaimCount(c, q, steps) <= Sum(q.rows, Left(c)) + c.maxAttempts * Enqueued(c, q, steps)
    decreases |steps|
  {
    if steps == [] {
      LeftNonNegative(c, q);
    } else {
      var q1 := Next(c, q, steps[0]);
      NextKeepsValid(c, q, steps[0]);
      StepCosts(c, q, steps[0]);
      ClaimsAreBounded(c, q1, steps[1..]);
      Distribute(c.maxAttempts, Adds(q, steps[0]), Enqueued(c, q1, steps[1..]));
    }
  }

  // ---- What was claimed is on the rows ----

  function Attempts(): Job -> int { (j: Job) => j.attempts }

  lemma {:induction false} StartingCounts(rows: seq<Job>, p: Job -> bool)
    ensures Sum(Update(rows, p, Start()), Attempts()) == Sum(rows, Attempts()) + Count(rows, p)
  {
    if rows != [] {
      var rest, last := rows[..|rows| - 1], rows[|rows| - 1];
      StartingCounts(rest, p);
      SumAppend(Update(rest, p, Start()), if p(last) then Start()(last) else last, Attempts());
      assert Where(rows, p) == Where(rest, p) + if p(last) then [last] else [];
    }
  }

  lemma StepCounts(c: Config, q: Queue, step: Step)
    requires Valid(c, q)
    ensures Sum(Next(c, q, step).rows, Attempts()) == Sum(q.rows, Attempts()) + Claims(q, step)
    ensures |Next(c, q, step).rows| == |q.rows| + Adds(q, step)
  {
    match step
    case EnqueueStep(id, kind, at) => if !HasId(q.rows, id) { SumAppend(q.rows, Job(id, kind, Queued, 0, at, None), Attempts()); }
    case ClaimStep(limit, now) =>
      BatchCounted(q.rows, limit, now);
      StartingCounts(q.rows, InBatch(Batch(q.rows, limit, now)));
      UpdateAt(q.rows, InBatch(Batch(q.rows, limit, now)), Start());
    case FinishStep(i, o, now) =>
      if i < |q.held| {
        SumUpdateSame(q.rows, ById(q.held[i].id), Effect(c, q.held[i], o, now), Attempts());
        UpdateAt(q.rows, ById(q.held[i].id), Effect(c, q.held[i], o, now));
      }
  }

  /** Every claim of a run is an attempt on a row, and every row was there or was enqueued. */
  lemma {:induction false} ClaimsAreAttempts(c: Config, q: Queue, steps: seq<Step>)
    requires Valid(c, q)
    ensures Sum(Run(c, q, steps).rows, (j: Job) => j.attempts) == Sum(q.rows, (j: Job) => j.attempts) + ClaimCount(c, q, steps)
    ensures |Run(c, q, steps).rows| == |q.rows| + Enqueued(c, q, steps)
    decreases |steps|
  {
    SameSum(q.rows);
    SameSum(Run(c, q, steps).rows);
    if steps != [] {
      NextKeepsValid(c, q, steps[0]);
      StepCounts(c, q, steps[0]);
      SameSum(Next(c, q, steps[0]).rows);
      ClaimsAreAttempts(c, Next(c, q, steps[0]), steps[1..]);
    }
  }

  lemma {:induction false} SameSum(rows: seq<Job>)
    ensures Sum(rows, (j: Job) => j.attempts) == Sum(rows, Attempts())
  {
    if rows != [] { SameSum(rows[..|rows| - 1]); }
  }

  lemma Distribute(m: int, a: int, b: int)
    ensures m * (a + b) == m * a + m * b
  {
  }

  /** With no attempt left and nothing running, every job is done or retired. */
  lemma NothingLeft(c: Config, q: Queue)
    requires Valid(c, q) && q.held == [] && Sum(q.rows, Left(c)) == 0
    ensures forall j :: j in q.rows ==> j.status.DoneJob? || j.status.FailedJob?
  {
    forall j | j in q.rows ensures j.status.DoneJob? || j.status.FailedJob? {
      assert JobOk(c, q, j);
      if j.status.Queued? { LeftCovers(c, q.rows, j); }
    }
  }

  lemma {:induction false} LeftCovers(c: Config, rows: seq<Job>, j: Job)
    requires j in rows && forall o :: o in rows ==> Left(c)(o) >= 0
    ensures Sum(rows, Left(c)) >= Left(c)(j)
  {
    var rest, last := rows[..|rows| - 1], rows[|rows| - 1];
    assert rows == rest + [last];
    if j == last {
      assert forall i :: 0 <= i < |rest| ==> rest[i] in rows;
      SumNonNegative(rest, Left(c));
    } else {
      assert last in rows;
      LeftCovers(c, rest, j);
    }
  }

  // ---- What a worker writes, on the columns ----

  /** A claim writes the rows of its batch and no others: running, one attempt more. */
  lemma ClaimStatement(c: Config, q: Queue, limit: int, now: Time)
    requires Valid(c, q)
    ensures var batch, q' := Batch(q.rows, limit, now), Next(c, q, ClaimStep(limit, now));
      && |q'.rows| == |q.rows|
      && forall i :: 0 <= i < |q.rows| ==>
           q'.rows[i] == if q.rows[i] in batch then q.rows[i].(status := Processing, attempts := q.rows[i].attempts + 1) else q.rows[i]
  {
    var batch := Batch(q.rows, limit, now);
    UpdateAt(q.rows, InBatch(batch), Start());
    BatchRows(q.rows, limit, now);
    forall i | 0 <= i < |q.rows| ensures HasId(batch, q.rows[i].id) <==> q.rows[i] in batch {
      if HasId(batch, q.rows[i].id) {
        var k :| 0 <= k < |batch| && batch[k].id == q.rows[i].id;
        assert batch[k] in batch && q.rows[i] in q.rows;
        SameJob(q.rows, q.rows[i], batch[k]);
      }
    }
  }

  /** The row after a claimed job ran: done, or retired with its last attempt, or waiting for the next. */
  ghost predicate RanTo(c: Config, j: Job, o: Outcome, now: Time, r: Job) {
    if j.kind == Thumbnail && o == Succeeded then r == j.(status := DoneJob, lastError := None)
    else
      var cause :=
        if j.kind == UnknownKind then "unknown job kind"
        else match o case Succeeded => "" case Errored(e) => e case Panicked(p) => "panic: " + p;
      var kept := Some(if |cause| > 500 then cause[..500] else cause);
      if j.attempts >= c.maxAttempts then r == j.(status := FailedJob, lastError := kept)
      else r == j.(status := Queued, runAfter := now + Delay(c, j.attempts), lastError := kept)
  }

  /** Finishing a held job writes that row and lets go of that job. */
  lemma FinishStatement(c: Config, q: Queue, i: nat, o: Outcome, now: Time)
    requires Valid(c, q) && i < |q.held|
    ensures var j, q' := q.held[i], Next(c, q, FinishStep(i, o, now));
      && |q'.rows| == |q.rows|
      && (forall k :: 0 <= k < |q.rows| ==> if q.rows[k] == j then RanTo(c, j, o, now, q'.rows[k]) else q'.rows[k] == q.rows[k])
      && j !in q'.held && forall h :: h in q.held && h != j ==> h in q'.held
  {
    var j := q.held[i];
    assert j in q.held;
    UpdateAt(q.rows, ById(j.id), Effect(c, j, o, now));
    forall k | 0 <= k < |q.rows| ensures q.rows[k].id == j.id <==> q.rows[k] == j {
      assert q.rows[k] in q.rows;
      if q.rows[k].id == j.id { SameJob(q.rows, q.rows[k], j); }
    }
    LetGo(q.held, i);
  }

  lemma LetGo(held: seq<Job>, i: nat)
    requires UniqueIds(held) && i < |held|
    ensures held[i] !in held[..i] + held[i + 1..]
    ensures forall h :: h in held && h != held[i] ==> h in held[..i] + held[i + 1..]
  {
    forall h | h in held && h != held[i] ensures h in held[..i] + held[i + 1..] { OthersHeld(held, i, h); }
  }

  /** The first wait is the backoff, and each one after it is twice the one before. */
  lemma DelayStatement(c: Config, n: nat)
    ensures Delay(c, 0) == Delay(c, 1) == c.backoff
    ensures n >= 1 ==> Delay(c, n + 1) == 2 * Delay(c, n)
  {
    if n >= 1 { Twice(c.backoff, Power(n - 1)); }
  }

  lemma Twice(a: int, b: int)
    ensures a * (2 * b) == 2 * (a * b)
  {
  }

  lemma DefaultsStatement()
    ensures WithDefaults(Config(0, 0, 0, 0)) == Config(2, 5 * 1_000_000_000, 5, 30 * 1_000_000_000)
    ensures forall c: Config :: c.concurrency > 0 && c.idle > 0 && c.maxAttempts > 0 && c.backoff > 0 ==> WithDefaults(c) == c
  {
  }

  /** Every claim of the run comes before this time. */
  ghost predicate ClaimsBefore(steps: seq<Step>, at: Time) {
    forall i :: 0 <= i < |steps| && steps[i].ClaimStep? ==> steps[i].now < at
  }

  /** Nobody takes a queued job before its time: whatever the workers do until then, its row stays. */
  lemma {:induction false} WaitsItsTurn(c: Config, q: Queue, steps: seq<Step>, j: Job)
    requires Valid(c, q) && j in q.rows && j.status == Queued && ClaimsBefore(steps, j.runAfter)
    ensures j in Run(c, q, steps).rows
    decreases |steps|
  {
    if steps != [] {
      NextKeepsValid(c, q, steps[0]);
      LeavesWaiting(c, q, steps[0], j);
      WaitsItsTurn(c, Next(c, q, steps[0]), steps[1..], j);
    }
  }

  lemma LeavesWaiting(c: Config, q: Queue, step: Step, j: Job)
    requires Valid(c, q) && j in q.rows && j.status == Queued && (step.ClaimStep? ==> step.now < j.runAfter)
    ensures j in Next(c, q, step).rows
  {
    match step
    case EnqueueStep(id, kind, at) =>
    case ClaimStep(limit, now) =>
      BatchIsOldest(q.rows, limit, now);
      ClaimStatement(c, q, limit, now);
      var i :| 0 <= i < |q.rows| && q.rows[i] == j;
      assert Next(c, q, step).rows[i] == j;
    case FinishStep(i, o, now) =>
      if i < |q.held| {
        FinishStatement(c, q, i, o, now);
        assert q.held[i] in q.held;
        var k :| 0 <= k < |q.rows| && q.rows[k] == j;
        assert Next(c, q, step).rows[k] == j;
      }
  }

  // ---- One job over a run ----

  function Find(rows: seq<Job>, id: Id): Option<Job> { First(Where(rows, ById(id))) }

  lemma FindIs(rows: seq<Job>, j: Job)
    requires UniqueIds(rows) && j in rows
    ensures Find(rows, j.id) == Some(j)
  {
    WhereMembers(rows, ById(j.id));
    assert j in Where(rows, ById(j.id));
    var k := Where(rows, ById(j.id))[0];
    assert k in Where(rows, ById(j.id));
    SameJob(rows, k, j);
  }

  lemma FoundRow(rows: seq<Job>, id: Id)
    requires Find(rows, id).Some?
    ensures Find(rows, id).value in rows && Find(rows, id).value.id == id
  {
    WhereMembers(rows, ById(id));
    assert Where(rows, ById(id))[0] in Where(rows, ById(id));
  }

  lemma FindUpdated(rows: seq<Job>, p: Job -> bool, f: Job -> Job, j: Job)
    requires UniqueIds(rows) && j in rows && forall o: Job :: f(o).id == o.id
    ensures Find(Update(rows, p, f), j.id) == Some(if p(j) then f(j) else j)
  {
    UpdateKeepsIds(rows, p, f);
    UpdateHas(rows, p, f, j);
    FindIs(Update(rows, p, f), if p(j) then f(j) else j);
  }

  predicate ClaimsJob(q: Queue, step: Step, id: Id) {
    step.ClaimStep? && HasId(Batch(q.rows, step.limit, step.now), id)
  }

  /** How many times a run claims one job. */
  function ClaimsOf(c: Config, q: Queue, steps: seq<Step>, id: Id): nat
    decreases |steps|
  {
    if steps == [] then 0
    else (if ClaimsJob(q, steps[0], id) then 1 else 0) + ClaimsOf(c, Next(c, q, steps[0]), steps[1..], id)
  }

  /** The job kept its kind and was claimed n times meanwhile; an unknown kind never gets done. */
  predicate Became(before: Job, n: nat, after: Job) {
    && after.id == before.id && after.kind == before.kind && after.attempts == before.attempts + n
    && (before.kind.UnknownKind? && !before.status.DoneJob? ==> !after.status.DoneJob?)
  }

  lemma StepOnJob(c: Config, q: Queue, step: Step, j: Job)
    requires Valid(c, q) && j in q.rows
    ensures var r := Find(Next(c, q, step).rows, j.id);
      r.Some? && Became(j, if ClaimsJob(q, step, j.id) then 1 else 0, r.value)
  {
    match step
    case EnqueueStep(id, kind, at) =>
      if HasId(q.rows, id) { FindIs(q.rows, j); } else { EnqueueKeeps(c, q, id, kind, at); FindIs(Next(c, q, step).rows, j); }
    case ClaimStep(limit, now) => FindUpdated(q.rows, InBatch(Batch(q.rows, limit, now)), Start(), j);
    case FinishStep(i, o, now) =>
      if i >= |q.held| {
        FindIs(q.rows, j);
      } else {
        EffectKeepsId(c, q.held[i], o, now);
        FindUpdated(q.rows, ById(q.held[i].id), Effect(c, q.held[i], o, now), j);
        assert q.held[i] in q.held;
        if j.id == q.held[i].id { SameJob(q.rows, j, q.held[i]); }
      }
  }

  /** The attempts on the row are the claims of the run. */
  lemma {:induction false} AttemptsAreClaims(c: Config, q: Queue, steps: seq<Step>, j: Job)
    requires Valid(c, q) && j in q.rows
    ensures var r := Find(Run(c, q, steps).rows, j.id);
      r.Some? && Became(j, ClaimsOf(c, q, steps, j.id), r.value)
    decreases |steps|
  {
    if steps == [] {
      FindIs(q.rows, j);
    } else {
      var q1 := Next(c, q, steps[0]);
      NextKeepsValid(c, q, steps[0]);
      StepOnJob(c, q, steps[0], j);
      FoundRow(q1.rows, j.id);
      AttemptsAreClaims(c, q1, steps[1..], Find(q1.rows, j.id).value);
    }
  }

  /** A run of a claimed job of an unknown kind retires it exactly when that was its last attempt;
      otherwise the job is queued again, later. */
  lemma UnknownKindRetiredIff(c: Config, q: Queue, i: nat, o: Outcome, now: Time)
    requires Valid(c, q) && i < |q.held| && q.held[i].kind.UnknownKind?
    ensures var j := q.held[i];
      Find(Next(c, q, FinishStep(i, o, now)).rows, j.id) ==
        Some(j.(status := if j.attempts >= c.maxAttempts then FailedJob else Queued,
                runAfter := if j.attempts >= c.maxAttempts then j.runAfter else now + Delay(c, j.attempts),
                lastError := Some("unknown job kind")))
  {
    var j := q.held[i];
    FindFinished(c, q, i, o, now);
    UnknownRan(c, j, o, now);
  }

  /** The row after a claimed job ran. */
  lemma FindFinished(c: Config, q: Queue, i: nat, o: Outcome, now: Time)
    requires Valid(c, q) && i < |q.held|
    ensures Find(Next(c, q, FinishStep(i, o, now)).rows, q.held[i].id) == Some(Effect(c, q.held[i], o, now)(q.held[i]))
  {
    var j := q.held[i];
    assert j in q.held;
    EffectKeepsId(c, j, o, now);
    FindUpdated(q.rows, ById(j.id), Effect(c, j, o, now), j);
  }

  lemma UnknownRan(c: Config, j: Job, o: Outcome, now: Time)
    requires j.kind.UnknownKind?
    ensures Effect(c, j, o, now)(j) ==
      j.(status := if j.attempts >= c.maxAttempts then FailedJob else Queued,
         runAfter := if j.attempts >= c.maxAttempts then j.runAfter else now + Delay(c, j.attempts),
         lastError := Some("unknown job kind"))
  {
    assert |"unknown job kind"| == 16;
  }

  lemma RetiredRow(c: Config, q: Queue, r: Job)
    requires Valid(c, q) && r in q.rows
    ensures r.attempts <= c.maxAttempts
    ensures r.status.FailedJob? <==> r.attempts == c.maxAttempts && r !in q.held && !r.status.DoneJob?
    ensures r.status.FailedJob? ==> r.id in q.waited && q.waited[r.id] == c.backoff * (Power(c.maxAttempts - 1) - 1)
  {
    assert JobOk(c, q, r);
  }

  /** A job ends retired exactly when it was claimed maxAttempts times, is not running and was not
      done, and then it waited backoff * (2^(maxAttempts-1) - 1) on the way. A job of an unknown kind
      is never done, so this is the only way it leaves the queue. */
  lemma RetiredIffAttemptsUsed(c: Config, q: Queue, id: Id, kind: Kind, at: Time, steps: seq<Step>, q0: Queue, q': Queue)
    requires Valid(c, q) && !HasId(q.rows, id)
    requires q0 == Next(c, q, EnqueueStep(id, kind, at)) && q' == Run(c, q0, steps)
    ensures var n, r := ClaimsOf(c, q0, steps, id), Find(q'.rows, id);
      && r.Some? && n <= c.maxAttempts
      && (r.value.status.FailedJob? <==> n == c.maxAttempts && r.value !in q'.held && !r.value.status.DoneJob?)
      && (r.value.status.FailedJob? ==> id in q'.waited && q'.waited[id] == c.backoff * (Power(c.maxAttempts - 1) - 1))
      && (kind.UnknownKind? ==> !r.value.status.DoneJob?)
  {
    var j := Job(id, kind, Queued, 0, at, None);
    EnqueueKeeps(c, q, id, kind, at);
    assert j in q0.rows;
    AttemptsAreClaims(c, q0, steps, j);
    ClaimsAreBounded(c, q0, steps);
    FoundRow(q'.rows, id);
    RetiredRow(c, q', Find(q'.rows, id).value);
  }

  function DefaultConfig(): Config { WithDefaults(Config(0, 0, 0, 0)) }

  lemma ClaimOnly(c: Config, j: Job, limit: nat, now: Time, waited: map<Id, int>)
    requires j.status.Queued? && j.runAfter <= now && limit > 0
    ensures Next(c, Queue([j], [], waited), ClaimStep(limit, now)) == Queue([Start()(j)], [Start()(j)], waited)
  {
    Single(j, DueJob(now), Start());
    SortOne(j, SoonestFirst(), limit);
    assert Batch([j], limit, now) == [j];
    assert HasId([j], j.id) by { assert [j][0].id == j.id; }
    Single(j, InBatch([j]), Start());
    ApplyAppend([], j, Start());
    assert [] + [j] == [j];
  }

  lemma FinishOnly(c: Config, j: Job, o: Outcome, now: Time, waited: map<Id, int>)
    ensures Next(c, Queue([j], [j], waited), FinishStep(0, o, now)).rows == [Effect(c, j, o, now)(j)]
  {
    Single(j, ById(j.id), Effect(c, j, o, now));
  }

  lemma RunThree(c: Config, q: Queue, steps: seq<Step>)
    requires |steps| == 3
    ensures Run(c, q, steps) == Next(c, Next(c, Next(c, q, steps[0]), steps[1]), steps[2])
  {
    var q1 := Next(c, q, steps[0]);
    var q2 := Next(c, q1, steps[1]);
    assert steps[1..][1..] == steps[2..] && steps[2..][1..] == [];
    assert Run(c, q2, steps[2..]) == Run(c, Next(c, q2, steps[2]), []);
    assert Run(c, q1, steps[1..]) == Run(c, q2, steps[2..]);
  }

  /** The first claim of a job of an unknown kind does not retire it: it is back in 30 seconds. */
  lemma UnknownKindIsRetried(steps: seq<Step>)
    requires steps == [EnqueueStep(1, UnknownKind, 0), ClaimStep(2, 0), FinishStep(0, Succeeded, 0)]
    ensures Run(DefaultConfig(), Queue([], [], map[]), steps).rows ==
      [Job(1, UnknownKind, Queued, 1, 30 * SECOND, Some("unknown job kind"))]
  {
    var c, j := DefaultConfig(), Job(1, UnknownKind, Queued, 0, 0, None);
    ClaimOnly(c, j, 2, 0, map[1 := 0]);
    FinishOnly(c, Start()(j), Succeeded, 0, map[1 := 0]);
    RunThree(c, Queue([], [], map[]), steps);
  }
}
