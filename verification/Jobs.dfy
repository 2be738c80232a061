/** What a job row records over its life (internal/store/postgres.go, UpdateJobStatus; internal/worker/server.go,
    failJob and completeJob). */
module Jobs {
  import opened Common
  import opened Store

  /** The updates the worker makes: running, completed without a message, failed with the error's text. */
  datatype Update = Start(at: int) | Complete(at: int) | Fail(message: string, at: int)

  function Apply(j: JobRow, u: Update): JobRow {
    match u
    case Start(at) => UpdatedJob(j, JobStatus.Running, "", at)
    case Complete(at) => UpdatedJob(j, JobStatus.Completed, "", at)
    case Fail(message, at) => UpdatedJob(j, JobStatus.Failed, message, at)
  }

  function Updated(j: JobRow, us: seq<Update>): JobRow {
    if us == [] then j else Apply(Updated(j, us[..|us| - 1]), us[|us| - 1])
  }

  /** A row as CreateJobRecord inserts it. */
  predicate IsNew(j: JobRow) {
    j.status.Queued? && j.error.None? && j.startedAt.None? && j.completedAt.None?
  }

  predicate ClockRuns(us: seq<Update>) {
    forall i, k :: 0 <= i <= k < |us| ==> us[i].at <= us[k].at
  }

  /** Index of the first Start, or the number of updates. */
  function FirstStart(us: seq<Update>): (i: nat)
    ensures i <= |us| && (forall k :: 0 <= k < i ==> !us[k].Start?)
    ensures i < |us| ==> us[i].Start?
  {
    if us == [] then 0
    else
      var i := FirstStart(us[..|us| - 1]);
      if i < |us| - 1 || us[|us| - 1].Start? then i else |us|
  }

  /** Index of the last Complete or Fail, or the number of updates. */
  function LastEnd(us: seq<Update>): (i: nat)
    ensures i <= |us| && (i < |us| ==> !us[i].Start? && forall k :: i < k < |us| ==> us[k].Start?)
    ensures i == |us| ==> forall k :: 0 <= k < |us| ==> us[k].Start?
  {
    if us == [] then 0
    else if !us[|us| - 1].Start? then |us| - 1
    else
      var i := LastEnd(us[..|us| - 1]);
      if i < |us| - 1 then i else |us|
  }

  /** The row after any number of updates, in terms of the updates. */
  lemma {:induction false} RowRecordsItsUpdates(j: JobRow, us: seq<Update>)
    requires IsNew(j) && us != []
    ensures var r, last := Updated(j, us), us[|us| - 1];
            && r.updatedAt == last.at
            && r.status == (match last case Start(_) => JobStatus.Running case Complete(_) => Completed
                                       case Fail(_, _) => JobStatus.Failed)
            && r.error == (if last.Fail? && last.message != "" then Some(last.message) else None)
            && r.startedAt == (if FirstStart(us) < |us| then Some(us[FirstStart(us)].at) else None)
            && r.completedAt == (if LastEnd(us) < |us| then Some(us[LastEnd(us)].at) else None)
            && r.kind == j.kind && r.cluster == j.cluster && r.deployment == j.deployment
  {
    if |us| == 1 {
      assert us[..0] == [];
    } else {
      RowRecordsItsUpdates(j, us[..|us| - 1]);
    }
  }

  /** In a terminal state the completion time is the time of the last update and no earlier than the start;
      running implies a start time; an error means failure. */
  lemma JobRowInvariant(j: JobRow, us: seq<Update>)
    requires IsNew(j) && ClockRuns(us)
    ensures var r := Updated(j, us);
            && (r.status.Completed? || r.status.Failed? ==>
                  && r.completedAt == Some(r.updatedAt)
                  && (r.startedAt.Some? ==> r.startedAt.value <= r.updatedAt))
            && (r.status.Running? ==> r.startedAt.Some?)
            && (r.error.Some? ==> r.status.Failed?)
  {
    if us != [] {
      RowRecordsItsUpdates(j, us);
    }
  }

  /** The start time, once set, never changes: a retry keeps the first one. */
  lemma {:induction false} StartIsKept(j: JobRow, us: seq<Update>, n: nat)
    requires n <= |us| && Updated(j, us[..n]).startedAt.Some?
    ensures Updated(j, us).startedAt == Updated(j, us[..n]).startedAt
  {
    if n == |us| {
      assert us[..n] == us;
    } else {
      assert us[..|us| - 1][..n] == us[..n];
      StartIsKept(j, us[..|us| - 1], n);
    }
  }

  /** A row that is not in a terminal state has a completion time if and only if the last update is a start and some
      earlier one completed or failed the job: the completion time of an attempt outlives its retry. */
  lemma {:induction false} CompletionTimeOutlivesAttempt(j: JobRow, us: seq<Update>)
    requires IsNew(j)
    ensures var r := Updated(j, us);
            r.completedAt.Some? && !r.status.Completed? && !r.status.Failed? <==>
              us != [] && us[|us| - 1].Start? && exists i :: 0 <= i < |us| && !us[i].Start?
  {
    if us != [] {
      RowRecordsItsUpdates(j, us);
      hide Updated;
    }
  }

  /** A completion time does not imply a terminal state: a retried job runs with the completion time of the attempt
      that failed. */
  lemma RetriedJobKeepsCompletionTime(j: JobRow, message: string, t0: int, t1: int, t2: int)
    requires IsNew(j) && t0 <= t1 <= t2
    ensures var r := Updated(j, [Start(t0), Fail(message, t1), Start(t2)]);
            r.status.Running? && r.completedAt == Some(t1) && r.startedAt == Some(t0)
  {
    var us := [Start(t0), Fail(message, t1), Start(t2)];
    assert us[..2] == [Start(t0), Fail(message, t1)] && us[..2][..1] == [Start(t0)];
    assert Updated(j, [Start(t0)]) == Apply(j, Start(t0));
    assert Updated(j, us[..2]) == Apply(Apply(j, Start(t0)), Fail(message, t1));
  }
}
