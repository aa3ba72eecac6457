// The in-memory job table of the backend (the AnalysisStatus class) and the
// life of a job in it: created pending, moved through the processing stages
// by the analysis worker, and ended completed with its report or failed with
// an error. Time is an integer number of seconds supplied by the caller.

module JobStore {
  import opened Common
  import opened Metrics
  import opened Combine

  datatype JobState = Pending | Processing | Completed | Failed

  /** The named stages the workers report; display-only. */
  datatype Stage = Initialization | BrandDetection | BrandAnalysis | ProcessingStage | MetricsStage | Finalizing

  /** The 'data' of a completed job: a single-video report or a combined report. */
  datatype Payload = Single(report: VideoReport) | Batch(combined: CombinedReport)

  /** One entry of the job table. Timestamps are seconds on the caller's clock. */
  datatype JobRecord = JobRecord(
    status: JobState,
    progress: int,
    message: string,
    stage: Option<Stage>,
    details: Option<string>,
    brandsFound: seq<string>,
    data: Option<Payload>,
    error: Option<string>,
    createdAt: int,
    updatedAt: int)

  /** The keys an update_job call sets; None leaves a key as it is. */
  datatype JobUpdate = JobUpdate(
    status: Option<JobState>,
    progress: Option<int>,
    message: Option<string>,
    stage: Option<Stage>,
    details: Option<string>,
    brandsFound: Option<seq<string>>,
    data: Option<Payload>,
    error: Option<string>)

  /** The record create_job stores. */
  function NewJob(now: int): (r: JobRecord)
    ensures r.status == Pending && r.progress == 0 && r.brandsFound == []
    ensures r.data.None? && r.error.None? && r.stage.None? && r.details.None?
    ensures r.createdAt == now && r.updatedAt == now
  {
    JobRecord(Pending, 0, "Analysis queued", None, None, [], None, None, now, now)
  }

  function Pick<T>(given: Option<T>, current: T): T {
    if given.Some? then given.value else current
  }

  /** `record.update(updates)` followed by the new updated_at. */
  function Merge(r: JobRecord, u: JobUpdate, now: int): JobRecord
  {
    JobRecord(
      Pick(u.status, r.status), Pick(u.progress, r.progress), Pick(u.message, r.message),
      if u.stage.Some? then u.stage else r.stage,
      if u.details.Some? then u.details else r.details,
      Pick(u.brandsFound, r.brandsFound),
      if u.data.Some? then u.data else r.data,
      if u.error.Some? then u.error else r.error,
      r.createdAt, now)
  }

  /**
   * An update overwrites exactly the keys it names: every other key keeps
   * its value, the creation time never changes, and updated_at is the time
   * of the call.
   */
  lemma MergeOnlyGiven(r: JobRecord, u: JobUpdate, now: int)
    ensures var m := Merge(r, u, now);
      (u.status.Some? ==> m.status == u.status.value) && (u.status.None? ==> m.status == r.status) &&
      (u.progress.Some? ==> m.progress == u.progress.value) && (u.progress.None? ==> m.progress == r.progress) &&
      (u.message.Some? ==> m.message == u.message.value) && (u.message.None? ==> m.message == r.message) &&
      (u.stage.Some? ==> m.stage == u.stage) && (u.stage.None? ==> m.stage == r.stage) &&
      (u.details.Some? ==> m.details == u.details) && (u.details.None? ==> m.details == r.details) &&
      (u.brandsFound.Some? ==> m.brandsFound == u.brandsFound.value) && (u.brandsFound.None? ==> m.brandsFound == r.brandsFound) &&
      (u.data.Some? ==> m.data == u.data) && (u.data.None? ==> m.data == r.data) &&
      (u.error.Some? ==> m.error == u.error) && (u.error.None? ==> m.error == r.error) &&
      m.createdAt == r.createdAt && m.updatedAt == now
  {
  }

  const NoUpdate: JobUpdate := JobUpdate(None, None, None, None, None, None, None, None)

  /** An update that names no key only moves updated_at. */
  lemma MergeNothing(r: JobRecord, now: int)
    ensures Merge(r, NoUpdate, now) == r.(updatedAt := now)
  {
  }

  /** The jobs that cleanup_old_jobs keeps: those created at or after the cutoff. */
  function Surviving(jobs: map<string, JobRecord>, cutoff: int): map<string, JobRecord>
  {
    map k | k in jobs && !(jobs[k].createdAt < cutoff) :: jobs[k]
  }

  /** A second cleanup with the same or an earlier cutoff removes nothing more. */
  lemma SurvivingIdempotent(jobs: map<string, JobRecord>, cutoff: int, earlier: int)
    requires earlier <= cutoff
    ensures Surviving(Surviving(jobs, cutoff), earlier) == Surviving(jobs, cutoff)
  {
  }

  /** A later cutoff keeps a subset of what an earlier one keeps. */
  lemma SurvivingMonotone(jobs: map<string, JobRecord>, earlier: int, later: int)
    requires earlier <= later
    ensures Surviving(jobs, later).Keys <= Surviving(jobs, earlier).Keys
  {
  }

  const SecondsPerHour: int := 3600

  /** The age, in hours, past which cleanup_old_jobs removes a job when no age is given. */
  const DefaultCleanupHours: int := 24

  // ---------------------------------------------------------------------------
  // The job table
  // ---------------------------------------------------------------------------

  /** AnalysisStatus: the job table, updated in place. Its lock is not modelled; each call is atomic. */
  class AnalysisStatus {
    var statuses: map<string, JobRecord>

    constructor ()
      ensures statuses == map[]
    {
      statuses := map[];
    }

    /** create_job: stores a fresh pending record, replacing any record under the same id. */
    method CreateJob(jobId: string, now: int)
      modifies this
      ensures statuses == old(statuses)[jobId := NewJob(now)]
    {
      statuses := statuses[jobId := NewJob(now)];
    }

    /** update_job: merges the update into a known job; an unknown id changes nothing. */
    method UpdateJob(jobId: string, updates: JobUpdate, now: int)
      modifies this
      ensures jobId in old(statuses) ==> statuses == old(statuses)[jobId := Merge(old(statuses)[jobId], updates, now)]
      ensures jobId !in old(statuses) ==> statuses == old(statuses)
    {
      if jobId in statuses {
        statuses := statuses[jobId := Merge(statuses[jobId], updates, now)];
      }
    }

    /** get_job: the record of a known id, None for an unknown one. */
    method GetJob(jobId: string) returns (r: Option<JobRecord>)
      ensures r.Some? <==> jobId in statuses
      ensures r.Some? ==> r.value == statuses[jobId]
    {
      if jobId in statuses {
        r := Some(statuses[jobId]);
      } else {
        r := None;
      }
    }

    /** The ids cleanup_old_jobs selects: the jobs created strictly before the cutoff. */
    method ExpiredJobs(cutoff: int) returns (toRemove: seq<string>)
      ensures forall k :: k in toRemove <==> k in statuses && statuses[k].createdAt < cutoff
    {
      toRemove := [];
      var unvisited := statuses.Keys;
      while unvisited != {}
        invariant unvisited <= statuses.Keys
        invariant forall k :: k in toRemove <==> k in statuses && k !in unvisited && statuses[k].createdAt < cutoff
        decreases |unvisited|
      {
        var jobId :| jobId in unvisited;
        if statuses[jobId].createdAt < cutoff {
          toRemove := toRemove + [jobId];
        }
        unvisited := unvisited - {jobId};
      }
    }

    /** cleanup_old_jobs: removes every job created more than `hours` hours before `now`. */
    method CleanupOldJobs(hours: int, now: int)
      modifies this
      ensures statuses == Surviving(old(statuses), now - hours * SecondsPerHour)
    {
      var cutoff := now - hours * SecondsPerHour;
      var toRemove := ExpiredJobs(cutoff);
      ghost var before := statuses;
      for i := 0 to |toRemove|
        invariant statuses == map k | k in before && k !in toRemove[..i] :: before[k]
      {
        TakeSnoc(toRemove, i);
        statuses := statuses - {toRemove[i]};
      }
      assert toRemove[..|toRemove|] == toRemove;
    }

    /** cleanup_old_jobs() with its default age: removes every job created more than a day before `now`. */
    method CleanupDefault(now: int)
      modifies this
      ensures statuses == Surviving(old(statuses), now - DefaultCleanupHours * SecondsPerHour)
    {
      CleanupOldJobs(DefaultCleanupHours, now);
    }
  }

  // ---------------------------------------------------------------------------
  // The life of a job
  // ---------------------------------------------------------------------------

  /** Folds a sequence of updates, all applied at time `now`, into a record. */
  function Run(r: JobRecord, us: seq<JobUpdate>, now: int): JobRecord
  {
    if us == [] then r else Merge(Run(r, us[..|us| - 1], now), us[|us| - 1], now)
  }

  /** The allowed moves of the status: pending to processing, processing to anything but pending. */
  predicate Step(from: JobState, to: JobState) {
    match from
    case Pending => to == Processing
    case Processing => to != Pending
    case Completed => false
    case Failed => false
  }

  function StatusUpdate(status: JobState, stage: Stage, progress: int, message: string, details: string): JobUpdate {
    JobUpdate(Some(status), Some(progress), Some(message), Some(stage), Some(details), None, None, None)
  }

  /** A progress report of a worker: status processing, no result, no error. */
  predicate IsProgressUpdate(u: JobUpdate) {
    u.status == Some(Processing) && u.progress.Some? && u.data.None? && u.error.None?
  }

  predicate AllProgress(us: seq<JobUpdate>) {
    forall i :: 0 <= i < |us| ==> IsProgressUpdate(us[i])
  }

  // The fixed texts of the single-video progress reports.
  const StartingMessage: string := "Starting video analysis..."
  const StartingDetails: string := "Initializing TwelveLabs connection"
  const ScanningMessage: string := "Analyzing brand appearances..."
  const ScanningDetails: string := "Scanning for logos, mentions, and placements"
  const ModelMessage: string := "Analyzing video with multimodal AI..."
  const ModelDetails: string := "Detecting brands, logos, and sponsorship content"
  const ResponseMessage: string := "Processing AI response..."
  const ResponseDetails: string := "Extracting brand detection data"
  const AppearancesMessage: string := "Processing brand appearances..."
  const MetricsMessage: string := "Calculating brand metrics..."
  const MetricsDetails: string := "Computing exposure scores and insights"
  const InsightsMessage: string := "Generating insights..."
  const InsightsDetails: string := "Creating executive summary"

  /** The percentages analyze_video_with_progress reports before the result: they only climb. */
  const SingleVideoPercents: seq<int> := [0, 25, 30, 35, 50, 60, 75, 90]

  /**
   * The progress reports of analyze_video_with_progress, in order. The
   * formatted texts (brand count, brand list, detection count) are inputs.
   */
  function SingleVideoProgress(brands: seq<string>, focusMessage: string, focusDetails: string, detectionsDetails: string)
    : (us: seq<JobUpdate>)
    ensures |us| == |SingleVideoPercents|
    ensures AllProgress(us)
    ensures forall i :: 0 <= i < |us| ==> us[i].progress == Some(SingleVideoPercents[i])
    ensures forall i :: 0 <= i < |us| ==> us[i].brandsFound == if i == 1 then Some(brands) else None
  {
    [ StatusUpdate(Processing, Initialization, 0, StartingMessage, StartingDetails),
      StatusUpdate(Processing, BrandDetection, 25, focusMessage, focusDetails).(brandsFound := Some(brands)),
      StatusUpdate(Processing, BrandAnalysis, 30, ScanningMessage, ScanningDetails),
      StatusUpdate(Processing, BrandAnalysis, 35, ModelMessage, ModelDetails),
      StatusUpdate(Processing, BrandAnalysis, 50, ResponseMessage, ResponseDetails),
      StatusUpdate(Processing, ProcessingStage, 60, AppearancesMessage, detectionsDetails),
      StatusUpdate(Processing, MetricsStage, 75, MetricsMessage, MetricsDetails),
      StatusUpdate(Processing, Finalizing, 90, InsightsMessage, InsightsDetails) ]
  }

  /** The final update of a successful analysis. */
  function CompleteUpdate(data: Payload, message: string): JobUpdate {
    JobUpdate(Some(Completed), Some(100), Some(message), None, None, None, Some(data), None)
  }

  /** The final update of a failed analysis: the exception text becomes the error. */
  function FailUpdate(message: string, error: string): JobUpdate {
    JobUpdate(Some(Failed), None, Some(message), None, None, None, None, Some(error))
  }

  /** Progress reports only: the status becomes processing and no result or error appears. */
  lemma {:induction false} RunProgress(r: JobRecord, us: seq<JobUpdate>, now: int)
    requires AllProgress(us)
    ensures us != [] ==> Run(r, us, now).status == Processing
    ensures us != [] ==> Some(Run(r, us, now).progress) == us[|us| - 1].progress
    ensures Run(r, us, now).data == r.data && Run(r, us, now).error == r.error
    ensures Run(r, us, now).createdAt == r.createdAt
  {
    if us != [] {
      RunProgress(r, us[..|us| - 1], now);
    }
  }

  lemma RunSnoc(r: JobRecord, us: seq<JobUpdate>, u: JobUpdate, now: int)
    ensures Run(r, us + [u], now) == Merge(Run(r, us, now), u, now)
  {
    SnocFront(us, u);
  }

  /** Every status the job passes through follows the previous one by an allowed move. */
  lemma {:induction false} RunSteps(r: JobRecord, us: seq<JobUpdate>, now: int, i: nat)
    requires r.status == Pending
    requires AllProgress(us)
    requires i < |us|
    ensures Step(Run(r, us[..i], now).status, Run(r, us[..i + 1], now).status)
  {
    TakeSnoc(us, i);
    RunSnoc(r, us[..i], us[i], now);
    if i > 0 {
      RunProgress(r, us[..i], now);
    } else {
      assert us[..0] == [];
    }
  }

  /** After the first k reports the job shows the k-th percentage (0 before any report). */
  lemma SingleVideoProgressAfter(created: int, now: int, brands: seq<string>, m: string, d: string, dd: string, k: nat)
    requires k <= |SingleVideoPercents|
    ensures var r := Run(NewJob(created), SingleVideoProgress(brands, m, d, dd)[..k], now);
      r.status == (if k == 0 then Pending else Processing) &&
      r.progress == (if k == 0 then 0 else SingleVideoPercents[k - 1]) &&
      r.data.None? && r.error.None? && r.createdAt == created
  {
    var us := SingleVideoProgress(brands, m, d, dd);
    var done := us[..k];
    RunProgress(NewJob(created), done, now);
    if k > 0 {
      assert done[k - 1] == us[k - 1];
    } else {
      assert done == [];
    }
  }

  lemma PercentsAscending(a: nat, b: nat)
    requires a <= b < |SingleVideoPercents|
    ensures SingleVideoPercents[a] <= SingleVideoPercents[b]
  {
  }

  /** The progress shown to a polling client never falls while the worker reports. */
  lemma SingleVideoProgressNeverFalls(created: int, now: int, brands: seq<string>, m: string, d: string, dd: string,
                                      i: nat, j: nat)
    requires i <= j <= |SingleVideoPercents|
    ensures var us := SingleVideoProgress(brands, m, d, dd);
      Run(NewJob(created), us[..i], now).progress <= Run(NewJob(created), us[..j], now).progress
  {
    var us := SingleVideoProgress(brands, m, d, dd);
    var before, after := Run(NewJob(created), us[..i], now), Run(NewJob(created), us[..j], now);
    SingleVideoProgressAfter(created, now, brands, m, d, dd, i);
    SingleVideoProgressAfter(created, now, brands, m, d, dd, j);
    if i > 0 {
      PercentsAscending(i - 1, j - 1);
      assert before.progress == SingleVideoPercents[i - 1] <= SingleVideoPercents[j - 1] == after.progress;
    } else if j > 0 {
      PercentsAscending(0, j - 1);
      assert before.progress == 0 == SingleVideoPercents[0] <= after.progress;
    }
  }

  /**
   * A single-video job that runs to the end is completed with its report at
   * 100%, with the requested brands as brands_found and no error.
   */
  lemma SingleVideoCompletes(created: int, now: int, brands: seq<string>, m: string, d: string, dd: string,
                             data: Payload, doneMessage: string)
    ensures var us := SingleVideoProgress(brands, m, d, dd);
      var r := Run(NewJob(created), us + [CompleteUpdate(data, doneMessage)], now);
      r.status == Completed && r.progress == 100 && r.data == Some(data) && r.error.None? &&
      r.brandsFound == brands && r.createdAt == created
  {
    var us := SingleVideoProgress(brands, m, d, dd);
    RunSnoc(NewJob(created), us, CompleteUpdate(data, doneMessage), now);
    RunProgress(NewJob(created), us, now);
    BrandsAfterProgress(created, now, brands, m, d, dd);
  }

  lemma {:induction false} RunConcat(r: JobRecord, us: seq<JobUpdate>, vs: seq<JobUpdate>, now: int)
    ensures Run(r, us + vs, now) == Run(Run(r, us, now), vs, now)
  {
    if vs == [] {
      assert us + vs == us;
    } else {
      assert (us + vs)[..|us + vs| - 1] == us + vs[..|vs| - 1];
      RunConcat(r, us, vs[..|vs| - 1], now);
    }
  }

  /** Updates that do not name brands_found leave it as it is. */
  lemma {:induction false} RunKeepsBrands(r: JobRecord, us: seq<JobUpdate>, now: int)
    requires forall i :: 0 <= i < |us| ==> us[i].brandsFound.None?
    ensures Run(r, us, now).brandsFound == r.brandsFound
  {
    if us != [] {
      RunKeepsBrands(r, us[..|us| - 1], now);
    }
  }

  lemma BrandsAfterProgress(created: int, now: int, brands: seq<string>, m: string, d: string, dd: string)
    ensures Run(NewJob(created), SingleVideoProgress(brands, m, d, dd), now).brandsFound == brands
  {
    var us := SingleVideoProgress(brands, m, d, dd);
    assert us == us[..2] + us[2..];
    RunConcat(NewJob(created), us[..2], us[2..], now);
    assert us[..2] == [us[0]] + [us[1]];
    RunSnoc(NewJob(created), [us[0]], us[1], now);
    RunKeepsBrands(Run(NewJob(created), us[..2], now), us[2..], now);
  }

  /**
   * A single-video job whose worker raises after any number of progress
   * reports is failed with the exception text and carries no result.
   */
  lemma SingleVideoFails(created: int, now: int, brands: seq<string>, m: string, d: string, dd: string,
                         k: nat, failMessage: string, error: string)
    requires k <= |SingleVideoPercents|
    ensures var us := SingleVideoProgress(brands, m, d, dd)[..k];
      var r := Run(NewJob(created), us + [FailUpdate(failMessage, error)], now);
      r.status == Failed && r.error == Some(error) && r.data.None? && r.createdAt == created &&
      r.progress == if k == 0 then 0 else SingleVideoPercents[k - 1]
  {
    var done := SingleVideoProgress(brands, m, d, dd)[..k];
    RunSnoc(NewJob(created), done, FailUpdate(failMessage, error), now);
    SingleVideoProgressAfter(created, now, brands, m, d, dd, k);
  }

  // ---------------------------------------------------------------------------
  // Batch progress
  // ---------------------------------------------------------------------------

  /** `int((completed / total) * 80)`: 80% of the bar is spent on the per-video analyses. */
  function BatchProgress(completed: nat, total: nat): (p: nat)
    requires total > 0
  {
    (completed * 80) / total
  }

  /** The batch progress stays within 0..80, reaches 80 with the last video and never goes back. */
  lemma BatchProgressBounds(completed: nat, later: nat, total: nat)
    requires total > 0 && completed <= later <= total
    ensures BatchProgress(completed, total) <= BatchProgress(later, total) <= 80
    ensures BatchProgress(total, total) == 80
    ensures BatchProgress(0, total) == 0
  {
    MulDivMonotone(completed * 80, later * 80, total);
    MulDivMonotone(later * 80, total * 80, total);
    assert (total * 80) / total == 80;
  }

  lemma MulDivMonotone(a: nat, b: nat, d: nat)
    requires d > 0 && a <= b
    ensures a / d <= b / d
  {
    var qa, qb := a / d, b / d;
    assert qa * d <= a;
    assert b < qb * d + d;
    MulCancel(qa, qb + 1, d);
  }

  lemma MulCancel(x: int, y: int, d: int)
    requires d > 0 && x * d < y * d
    ensures x < y
  {
    if x >= y {
      MulMonotone(y, x, d);
    }
  }

  lemma MulMonotone(x: int, y: int, d: int)
    requires x <= y && d >= 0
    ensures x * d <= y * d
  {
    assert y * d - x * d == (y - x) * d;
  }

}
