/**
 * The job list of the application as values: creating jobs for an upload
 * and the three per-job updates (settle, regenerate, unlock), each of which
 * rewrites every job carrying a given id and leaves the others alone.
 */
module Jobs {
  import opened Types

  /** The id given to a job: the file name, a dash and the upload timestamp. */
  function JobId(fileName: string, stamp: string): string
  {
    fileName + "-" + stamp
  }

  /** A job as an upload creates it. */
  function NewJob(file: File, stamp: string, previewUrl: string): Job
  {
    Job(JobId(file.name, stamp), file, previewUrl, None, Processing, false, None)
  }

  /** Processing, no result, no error, not unlocked. */
  predicate IsFresh(j: Job)
  {
    j.status == Processing && j.retouchedUrl == None && !j.isUnlocked && j.error == None
  }

  /**
   * One job per uploaded file, in file order. The clock is read once per
   * file, so each file has its own timestamp; timestamps and preview
   * handles come from the browser and are parameters.
   */
  function NewJobs(files: seq<File>, stamps: seq<string>, previewUrls: seq<string>): (r: seq<Job>)
    requires |stamps| == |files| && |previewUrls| == |files|
    ensures |r| == |files|
    ensures forall i :: 0 <= i < |r| ==>
      IsFresh(r[i]) && r[i].originalFile == files[i] && r[i].originalUrl == previewUrls[i]
      && r[i].id == JobId(files[i].name, stamps[i])
  {
    seq(|files|, i requires 0 <= i < |files| => NewJob(files[i], stamps[i], previewUrls[i]))
  }

  /** Whether some job carries the id. */
  predicate HasId(jobs: seq<Job>, id: string)
  {
    exists i :: 0 <= i < |jobs| && jobs[i].id == id
  }

  /** `x` sits at a position of `jobs` before which no job carries the id. */
  ghost predicate FirstWithId(jobs: seq<Job>, id: string, x: Job)
  {
    exists i :: 0 <= i < |jobs| && jobs[i] == x && forall k :: 0 <= k < i ==> jobs[k].id != id
  }

  /** The first job carrying the id, as the array `find` returns it. */
  function Find(jobs: seq<Job>, id: string): (r: Option<Job>)
    ensures r.Some? <==> HasId(jobs, id)
    ensures r.Some? ==> r.value.id == id && FirstWithId(jobs, id, r.value)
  {
    if jobs == [] then None
    else if jobs[0].id == id then Some(jobs[0])
    else
      HasIdTail(jobs, id);
      var r := Find(jobs[1..], id);
      if r.Some? then FirstInTailIsFirst(jobs, id, r.value); r else r
  }

  /** Behind a head that lacks the id, the first match of the tail is the first match of the list. */
  lemma FirstInTailIsFirst(jobs: seq<Job>, id: string, x: Job)
    requires jobs != [] && jobs[0].id != id
    requires FirstWithId(jobs[1..], id, x)
    ensures FirstWithId(jobs, id, x)
  {
    var i :| 0 <= i < |jobs[1..]| && jobs[1..][i] == x && forall k :: 0 <= k < i ==> jobs[1..][k].id != id;
    assert jobs[i + 1] == x;
    forall k | 0 <= k < i + 1
      ensures jobs[k].id != id
    {
      if k > 0 { assert jobs[k] == jobs[1..][k - 1]; }
    }
  }

  /** A list whose head lacks the id has it exactly when its tail has it. */
  lemma HasIdTail(jobs: seq<Job>, id: string)
    requires jobs != [] && jobs[0].id != id
    ensures HasId(jobs, id) <==> HasId(jobs[1..], id)
  {
    if HasId(jobs, id) {
      var i :| 0 <= i < |jobs| && jobs[i].id == id;
      assert jobs[1..][i - 1].id == id;
    }
    if HasId(jobs[1..], id) {
      var i :| 0 <= i < |jobs[1..]| && jobs[1..][i].id == id;
      assert jobs[i + 1].id == id;
    }
  }

  /**
   * `jobs.map(j => j.id === id ? f(j) : j)`: every job carrying the id is
   * replaced by its image under f; every other job stays as it was.
   */
  function MapById(jobs: seq<Job>, id: string, f: Job -> Job): (r: seq<Job>)
    ensures |r| == |jobs|
    ensures forall i :: 0 <= i < |jobs| && jobs[i].id != id ==> r[i] == jobs[i]
    ensures forall i :: 0 <= i < |jobs| && jobs[i].id == id ==> r[i] == f(jobs[i])
  {
    if jobs == [] then []
    else [if jobs[0].id == id then f(jobs[0]) else jobs[0]] + MapById(jobs[1..], id, f)
  }

  /**
   * A job after its transform settled: success completes it with the data
   * and keeps its old message; failure puts it in error with the message and
   * keeps its old result. Id, file, preview and unlock flag never change.
   */
  function Settled(j: Job, outcome: TransformOutcome): (r: Job)
    ensures r.id == j.id && r.originalFile == j.originalFile
    ensures r.originalUrl == j.originalUrl && r.isUnlocked == j.isUnlocked
    ensures outcome.Success? ==>
      r.status == Completed && r.retouchedUrl == Some(outcome.data) && r.error == j.error
    ensures outcome.Failure? ==>
      r.status == Error && r.error == Some(outcome.message) && r.retouchedUrl == j.retouchedUrl
  {
    match outcome
    case Success(data) => j.(status := Completed, retouchedUrl := Some(data))
    case Failure(message) => j.(status := Error, error := Some(message))
  }

  /**
   * A job reset for another transform attempt: processing again with no
   * result and no message, with id, file, preview and unlock flag kept.
   */
  function Reset(j: Job): (r: Job)
    ensures r.status == Processing && r.retouchedUrl == None && r.error == None
    ensures r.id == j.id && r.originalFile == j.originalFile
    ensures r.originalUrl == j.originalUrl && r.isUnlocked == j.isUnlocked
  {
    j.(status := Processing, retouchedUrl := None, error := None)
  }

  function Unlock(j: Job): Job
  {
    j.(isUnlocked := true)
  }

  /**
   * Settling a transform: only jobs with the id change; on success they are
   * completed with the data, on failure they are in error with the message;
   * id, file, preview and unlock flag are kept.
   */
  function SettleJobs(jobs: seq<Job>, id: string, outcome: TransformOutcome): (r: seq<Job>)
    ensures |r| == |jobs|
    ensures forall i :: 0 <= i < |jobs| && jobs[i].id != id ==> r[i] == jobs[i]
    ensures forall i :: 0 <= i < |jobs| && jobs[i].id == id ==>
      r[i].id == id && r[i].originalFile == jobs[i].originalFile
      && r[i].originalUrl == jobs[i].originalUrl && r[i].isUnlocked == jobs[i].isUnlocked
      && match outcome
         case Success(data) =>
           r[i].status == Completed && r[i].retouchedUrl == Some(data) && r[i].error == jobs[i].error
         case Failure(message) =>
           r[i].status == Error && r[i].error == Some(message) && r[i].retouchedUrl == jobs[i].retouchedUrl
  {
    MapById(jobs, id, (j: Job) => Settled(j, outcome))
  }

  /**
   * Regenerating: only jobs with the id change; they go back to processing
   * with no result and no error, keeping id, file, preview and unlock flag.
   */
  function RegenerateJobs(jobs: seq<Job>, id: string): (r: seq<Job>)
    ensures |r| == |jobs|
    ensures forall i :: 0 <= i < |jobs| && jobs[i].id != id ==> r[i] == jobs[i]
    ensures forall i :: 0 <= i < |jobs| && jobs[i].id == id ==>
      r[i].status == Processing && r[i].retouchedUrl == None && r[i].error == None
      && r[i].id == id && r[i].originalFile == jobs[i].originalFile
      && r[i].originalUrl == jobs[i].originalUrl && r[i].isUnlocked == jobs[i].isUnlocked
  {
    MapById(jobs, id, Reset)
  }

  /** Unlocking: only jobs with the id change, and only their unlock flag, which becomes true. */
  function UnlockJobs(jobs: seq<Job>, id: string): (r: seq<Job>)
    ensures |r| == |jobs|
    ensures forall i :: 0 <= i < |jobs| && jobs[i].id != id ==> r[i] == jobs[i]
    ensures forall i :: 0 <= i < |jobs| && jobs[i].id == id ==>
      r[i] == jobs[i].(isUnlocked := true)
  {
    MapById(jobs, id, Unlock)
  }

  /** Nothing happens to a list that holds no job with the id, e.g. after it was cleared. */
  lemma {:induction false} MapByIdAbsent(jobs: seq<Job>, id: string, f: Job -> Job)
    requires !HasId(jobs, id)
    ensures MapById(jobs, id, f) == jobs
  {
    if jobs != [] {
      assert jobs[0].id != id;
      HasIdTail(jobs, id);
      MapByIdAbsent(jobs[1..], id, f);
    }
  }

  /** A stale settlement, a regenerate or an unlock of an absent id leaves the list unchanged. */
  lemma AbsentIdChangesNothing(jobs: seq<Job>, id: string, outcome: TransformOutcome)
    requires !HasId(jobs, id)
    ensures SettleJobs(jobs, id, outcome) == jobs
    ensures RegenerateJobs(jobs, id) == jobs
    ensures UnlockJobs(jobs, id) == jobs
  {
    MapByIdAbsent(jobs, id, (j: Job) => Settled(j, outcome));
    MapByIdAbsent(jobs, id, Reset);
    MapByIdAbsent(jobs, id, Unlock);
  }

  /** Positions keep their ids and no unlocked job is locked again. */
  ghost predicate KeepsIdsAndUnlocks(before: seq<Job>, after: seq<Job>)
  {
    |after| == |before|
    && (forall i :: 0 <= i < |before| ==> after[i].id == before[i].id)
    && (forall i :: 0 <= i < |before| && before[i].isUnlocked ==> after[i].isUnlocked)
  }

  lemma UpdatesKeepIdsAndUnlocks(jobs: seq<Job>, id: string, outcome: TransformOutcome)
    ensures KeepsIdsAndUnlocks(jobs, SettleJobs(jobs, id, outcome))
    ensures KeepsIdsAndUnlocks(jobs, RegenerateJobs(jobs, id))
    ensures KeepsIdsAndUnlocks(jobs, UnlockJobs(jobs, id))
  {
  }

  /** A result is present exactly when completed, a message exactly when in error. */
  predicate WellFormed(j: Job)
  {
    (j.retouchedUrl.Some? <==> j.status == Completed) && (j.error.Some? <==> j.status == Error)
  }

  ghost predicate AllWellFormed(jobs: seq<Job>)
  {
    forall i :: 0 <= i < |jobs| ==> WellFormed(jobs[i])
  }

  /** Newly created jobs are well formed. */
  lemma NewJobsWellFormed(files: seq<File>, stamps: seq<string>, previewUrls: seq<string>)
    requires |stamps| == |files| && |previewUrls| == |files|
    ensures AllWellFormed(NewJobs(files, stamps, previewUrls))
  {
  }

  /** Regenerating keeps a well-formed list well formed, whatever state the job was in. */
  lemma RegeneratePreservesWellFormed(jobs: seq<Job>, id: string)
    requires AllWellFormed(jobs)
    ensures AllWellFormed(RegenerateJobs(jobs, id))
  {
  }

  /**
   * A settlement keeps a well-formed list well formed when every job it lands
   * on is still processing.
   */
  lemma SettlePreservesWellFormed(jobs: seq<Job>, id: string, outcome: TransformOutcome)
    requires AllWellFormed(jobs)
    requires forall i :: 0 <= i < |jobs| && jobs[i].id == id ==> jobs[i].status == Processing
    ensures AllWellFormed(SettleJobs(jobs, id, outcome))
  {
  }

  /**
   * Because the settled job is the old job with two fields replaced, a
   * failure landing on a completed job leaves its old result in place: the
   * job is in error and still has a result.
   */
  lemma SettleOnCompletedBreaksWellFormed(j: Job, message: string)
    requires WellFormed(j) && j.status == Completed
    ensures var r := SettleJobs([j], j.id, Failure(message))[0];
      r.status == Error && r.retouchedUrl == j.retouchedUrl && !WellFormed(r)
  {
  }

  /** Unlocking changes no status, result or message, so it keeps the list well formed. */
  lemma UnlockPreservesWellFormed(jobs: seq<Job>, id: string)
    requires AllWellFormed(jobs)
    ensures AllWellFormed(UnlockJobs(jobs, id))
  {
  }

  /** Appending new jobs after existing ones leaves the existing ones where they were. */
  lemma AppendKeepsExisting(jobs: seq<Job>, files: seq<File>, stamps: seq<string>, previewUrls: seq<string>)
    requires |stamps| == |files| && |previewUrls| == |files|
    ensures var r := jobs + NewJobs(files, stamps, previewUrls);
      |r| == |jobs| + |files| && r[..|jobs|] == jobs
      && forall i :: |jobs| <= i < |r| ==> IsFresh(r[i]) && r[i].originalFile == files[i - |jobs|]
  {
  }
}
