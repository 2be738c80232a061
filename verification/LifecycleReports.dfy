/** A job is reported as completed only after the final write for its resource has been committed. */
module LifecycleReports {
  import opened Common
  import opened Kubeconfig
  import opened Store
  import opened Lifecycle
  import opened LifecycleSafety
  import opened LifecycleCoupling

  // ----- The final write of a task -----

  /** Both columns hold what a run of this job for this cluster brought. */
  ghost predicate FromOwnRun(cipher: Option<Aead>, runs: seq<ProvisionRun>, j: Id, c: Id, row: ClusterRow) {
    exists run :: run in runs && run.job == j && FromRun(cipher, run, c, row.kubeconfig, row.publicIp)
  }

  /** The row image that the task's success stands for, written by an attempt of its own job. */
  ghost predicate IsFinal(cipher: Option<Aead>, runs: seq<ProvisionRun>, p: Payload, write: Write) {
    write.job == p.job &&
    match p
    case ProvisionTask(_, c, _) =>
      && write.ClusterWrite? && write.cluster == c && write.row.status.Active?
      && FromOwnRun(cipher, runs, p.job, c, write.row)
    case DeployTask(_, d, _, _, _) =>
      && write.DeploymentWrite? && write.deployment == d && write.deploymentRow.status.Active?
      && Reaches(runs, write.deploymentRow)
    case DeleteTask(_, d, _, _) =>
      write.DeploymentWrite? && write.deployment == d && write.deploymentRow.status.Deleted?
    case DestroyTask(_, t, _) =>
      t.Some? ==>
        && write.ClusterWrite? && write.cluster == t.value && write.row.status.Destroyed?
        && Cleared(write.row)
  }

  ghost predicate Committed(cipher: Option<Aead>, w: World, p: Payload) {
    (p.DestroyTask? && p.target.None?) || exists i :: 0 <= i < |w.writes| && IsFinal(cipher, w.runs, p, w.writes[i])
  }

  // ----- The invariant -----

  /** The payload is the one made for its job id. */
  ghost predicate Issued(w: World, p: Payload) {
    p.job in w.issued && w.issued[p.job] == p
  }

  /** The attempt reports only on its own job, and "completed" only when its write is there. */
  ghost predicate CallReports(cipher: Option<Aead>, w: World, p: Payload, s: Statement) {
    && !s.InsertJob?
    && (s.SetJobStatus? ==> s.job == p.job && (s.jobStatus == JobStatus.Completed ==> Committed(cipher, w, p)))
  }

  predicate StageFits(p: Payload, stage: Stage) {
    match stage
    case RunPulumi => p.ProvisionTask?
    case SaveCluster(_) => p.ProvisionTask?
    case ReadCluster => p.DeployTask? || p.DeleteTask?
    case ApplyModel(_) => p.DeployTask?
    case AwaitHealth(_) => p.DeployTask?
    case SaveUrl(_) => p.DeployTask?
    case RemoveModel => p.DeleteTask?
    case SaveDeleted => p.DeleteTask?
    case RunPulumiDestroy => p.DestroyTask?
    case SaveDestroyed => p.DestroyTask? && p.target.Some?
    case End(_) => true
  }

  ghost predicate ProcReports(cipher: Option<Aead>, w: World, p: Proc) {
    match p
    case AddJob(payload) => Issued(w, payload)
    case Enqueue(payload) => Issued(w, payload)
    case Attempt(payload, calls, stage) =>
      && Issued(w, payload) && StageFits(payload, stage)
      && forall i :: 0 <= i < |calls| ==> CallReports(cipher, w, payload, calls[i])
    case _ => true
  }

  ghost predicate JobReports(cipher: Option<Aead>, w: World, j: Id) {
    && j in w.db.jobs && j in w.issued
    && JobRecord(w.issued[j]).Some?
    && w.db.jobs[j].kind == JobRecord(w.issued[j]).value.kind
    && w.db.jobs[j].cluster == JobRecord(w.issued[j]).value.cluster
    && w.db.jobs[j].deployment == JobRecord(w.issued[j]).value.deployment
    && (w.db.jobs[j].status == JobStatus.Completed ==> Committed(cipher, w, w.issued[j]))
  }

  ghost predicate Reports(cipher: Option<Aead>, w: World) {
    && w.issued.Keys <= w.used
    && (forall j :: j in w.issued ==> w.issued[j].job == j)
    && (forall j :: j in w.db.jobs ==> JobReports(cipher, w, j))
    && (forall id :: id in w.queue ==> Issued(w, w.queue[id]))
    && (forall t :: t in w.procs ==> ProcReports(cipher, w, w.procs[t]))
  }

  // ----- The record of what happened only grows -----

  ghost predicate Grows(w: World, w': World) {
    && (forall j :: j in w.issued ==> j in w'.issued && w'.issued[j] == w.issued[j])
    && w.writes <= w'.writes && (forall run :: run in w.runs ==> run in w'.runs)
  }

  lemma StepGrows(cipher: Option<Aead>, w: World, t: nat, p: Proc, c: Choice)
    requires c.job !in w.issued
    ensures Grows(w, StepOf(cipher, w, t, p, c))
  {
    hide StatementOf, Called, After, Written, QueueAfter, Violates;
  }

  lemma FinalStays(cipher: Option<Aead>, w: World, w': World, p: Payload, write: Write)
    requires Grows(w, w') && IsFinal(cipher, w.runs, p, write)
    ensures IsFinal(cipher, w'.runs, p, write)
  {
    hide FromRun, ServiceUrl;
    assert forall c, ip :: Brought(w.runs, c, ip) ==> Brought(w'.runs, c, ip);
    hide Brought;
  }

  lemma CommittedStays(cipher: Option<Aead>, w: World, w': World, p: Payload)
    requires Grows(w, w') && Committed(cipher, w, p)
    ensures Committed(cipher, w', p)
  {
    hide IsFinal;
    if i :| 0 <= i < |w.writes| && IsFinal(cipher, w.runs, p, w.writes[i]) {
      FinalStays(cipher, w, w', p, w.writes[i]);
      assert w'.writes[i] == w.writes[i];
    }
  }

  lemma ProcStays(cipher: Option<Aead>, w: World, w': World, p: Proc)
    requires Grows(w, w') && ProcReports(cipher, w, p)
    ensures ProcReports(cipher, w', p)
  {
    hide Committed;
    if p.Attempt? {
      forall i | 0 <= i < |p.calls| ensures CallReports(cipher, w', p.payload, p.calls[i]) {
        if p.calls[i].SetJobStatus? && p.calls[i].jobStatus == JobStatus.Completed {
          CommittedStays(cipher, w, w', p.payload);
        }
      }
    }
  }

  // ----- One step -----

  /** What a statement may do to the jobs table. */
  ghost predicate KeepsJobs(cipher: Option<Aead>, w: World, s: Statement) {
    && (s.SetJobStatus? ==>
          s.job in w.issued && (s.jobStatus == JobStatus.Completed ==> Committed(cipher, w, w.issued[s.job])))
    && (s.InsertJob? ==> s.job in w.issued && JobRecord(w.issued[s.job]) == Some(s.jobRow) && s.jobRow.status.Queued?)
  }

  lemma SentStatementKeepsJobs(cipher: Option<Aead>, w: World, p: Proc, c: Choice)
    requires ProcReports(cipher, w, p) && StatementOf(cipher, p, c).Some?
    ensures KeepsJobs(cipher, w, StatementOf(cipher, p, c).value)
  {
    hide KubeconfigOf, ServiceUrl, Committed;
  }

  lemma StatementKeepsJobs(cipher: Option<Aead>, w: World, s: Statement, fault: Fault, now: int, j: Id)
    requires KeepsJobs(cipher, w, s) && (j in w.db.jobs ==> JobReports(cipher, w, j))
    requires j in Called(w.db, s, fault, now).jobs
    ensures JobReports(cipher, w.(db := Called(w.db, s, fault, now)), j)
  {
    hide Violates, IsFinal, JobRecord, Cascaded;
  }

  lemma JobStays(cipher: Option<Aead>, w: World, w': World, j: Id)
    requires Grows(w, w') && JobReports(cipher, w, j) && w'.db == w.db
    ensures JobReports(cipher, w', j)
  {
    if w.db.jobs[j].status == JobStatus.Completed {
      CommittedStays(cipher, w, w', w.issued[j]);
    }
    hide Committed, JobRecord;
    assert w'.issued[j] == w.issued[j];
  }

  predicate IsFinalStage(stage: Stage) {
    stage.SaveCluster? || stage.SaveUrl? || stage.SaveDeleted? || stage.SaveDestroyed?
  }

  /** The image that the last UPDATE of an attempt leaves is the final one. */
  lemma FinalWriteIsFinal(cipher: Option<Aead>, w: World, p: Proc, c: Choice) returns (write: Write)
    requires p.Attempt? && p.calls == [] && ProcFits(w.db, p) && ProcReports(cipher, w, p) && IsFinalStage(p.stage)
    requires StageKnown(w.runs, p)
    ensures StatementOf(cipher, p, c).Some?
    ensures !Violates(w.db, StatementOf(cipher, p, c).value)
    ensures var s := StatementOf(cipher, p, c).value; Written(Execute(w.db, s, c.now), s, p.payload.job) == [write]
    ensures IsFinal(cipher, w.runs, p.payload, write)
  {
    hide KubeconfigOf, ServiceUrl, Calls, Brought;
    if p.stage.SaveCluster? {
      assert FromRun(cipher, p.stage.run, p.payload.cluster, KubeconfigOf(cipher, p.stage.run), p.stage.run.outputs.ip);
    }
    var s := StatementOf(cipher, p, c).value;
    write := Written(Execute(w.db, s, c.now), s, p.payload.job)[0];
  }

  /** The write whose success leads to the report is in the log. */
  lemma FinalWriteIsLogged(cipher: Option<Aead>, w: World, t: nat, p: Proc, c: Choice)
    requires p.Attempt? && p.calls == [] && ProcFits(w.db, p) && ProcReports(cipher, w, p) && IsFinalStage(p.stage)
    requires StageKnown(w.runs, p)
    requires c.fault.Answered?
    ensures Committed(cipher, StepOf(cipher, w, t, p, c), p.payload)
  {
    var write := FinalWriteIsFinal(cipher, w, p, c);
    hide ProcFits, ProcReports, StatementOf, Execute, Written, Violates, IsFinal, After, QueueAfter, IssuedAfter, Following;
    var w' := StepOf(cipher, w, t, p, c);
    assert w'.runs == w.runs && w'.writes == w.writes + [write];
    assert w'.writes[|w.writes|] == write;
  }

  lemma FirstCallsReport(cipher: Option<Aead>, w: World, p: Payload)
    requires Issued(w, p)
    ensures ProcReports(cipher, w, Attempt(p, FirstCalls(p), FirstStage(p)))
  {
    hide Committed, Issued;
  }

  lemma FailuresReport(cipher: Option<Aead>, w: World, p: Payload, message: string)
    requires Issued(w, p)
    ensures ProcReports(cipher, w, Fails(p, message).value) && ProcReports(cipher, w, FailsJob(p, message).value)
  {
    hide Committed, Issued;
  }

  lemma CompletionReports(cipher: Option<Aead>, w: World, p: Payload, t: Id)
    requires Issued(w, p) && Committed(cipher, w, p)
    ensures ProcReports(cipher, w, Completes(p, []).value)
    ensures ProcReports(cipher, w, Completes(p, [SetStatusByCluster(t, Orphaned)]).value)
  {
    hide Committed, Issued;
  }

  lemma NothingToDestroy(cipher: Option<Aead>, w: World, p: Payload)
    ensures p.DestroyTask? && p.target.None? ==> Committed(cipher, w, p)
  {
  }

  lemma CallReportsNext(cipher: Option<Aead>, w: World, p: Proc)
    requires p.Attempt? && p.calls != [] && ProcReports(cipher, w, p)
    ensures ProcReports(cipher, w, Attempt(p.payload, p.calls[1..], p.stage))
  {
    hide Committed, Issued, CallReports, StageFits;
  }

  lemma MoveReports(cipher: Option<Aead>, w: World, p: Payload, stage: Stage)
    requires Issued(w, p) && StageFits(p, stage)
    ensures ProcReports(cipher, w, Attempt(p, [], stage))
    ensures p.DeployTask? ==> ProcReports(cipher, w, Attempt(p, [SetDeploymentStatus(p.deployment, Deploying)], stage))
  {
    hide Committed, Issued;
  }

  /** After an external call or a read the attempt moves on, fails, or has nothing to destroy. */
  lemma ExternalCallReports(cipher: Option<Aead>, w: World, w': World, p: Proc, c: Choice, ok: bool)
    requires p.Attempt? && p.calls == [] && !IsFinalStage(p.stage) && ProcReports(cipher, w', p)
    ensures After(w.db, p, c, ok).Some? ==> ProcReports(cipher, w', After(w.db, p, c, ok).value)
  {
    FailuresReport(cipher, w', p.payload, c.message);
    var next := After(w.db, p, c, ok);
    if p.stage.RunPulumiDestroy? && p.payload.target.None? {
      NothingToDestroy(cipher, w', p.payload);
      CompletionReports(cipher, w', p.payload, 0);
    } else if next.Some? && next != Fails(p.payload, c.message) && next != FailsJob(p.payload, c.message) {
      MoveReports(cipher, w', p.payload, next.value.stage);
    }
    hide ProcReports, Fails, FailsJob, Completes;
  }

  /** Given that the final write is logged if it has succeeded, the report is truthful. */
  lemma FinalReports(cipher: Option<Aead>, w: World, w': World, p: Proc, c: Choice, ok: bool)
    requires p.Attempt? && p.calls == [] && IsFinalStage(p.stage) && ProcReports(cipher, w', p)
    requires ok ==> Committed(cipher, w', p.payload)
    ensures After(w.db, p, c, ok).Some? ==> ProcReports(cipher, w', After(w.db, p, c, ok).value)
  {
    FailuresReport(cipher, w', p.payload, c.message);
    if ok {
      CompletionReports(cipher, w', p.payload, if p.stage.SaveDestroyed? then p.payload.target.value else 0);
    }
    hide Committed, Fails, FailsJob, Completes;
  }

  lemma HandlerReports(cipher: Option<Aead>, w: World, w': World, p: Proc, c: Choice, ok: bool)
    requires !p.Attempt? && ProcReports(cipher, w', p) && c.job !in w.issued
    requires p.AddJob? ==> p.payload.job != c.job
    requires w'.issued == IssuedAfter(w.issued, After(w.db, p, c, ok), c)
    ensures After(w.db, p, c, ok).Some? ==> ProcReports(cipher, w', After(w.db, p, c, ok).value)
  {
    hide OrgNamed, ClusterNamed;
  }

  lemma StepKeepsJobReports(cipher: Option<Aead>, w: World, t: nat, p: Proc, c: Choice, j: Id)
    requires Reports(cipher, w) && ProcReports(cipher, w, p) && c.job !in w.issued
    requires j in StepOf(cipher, w, t, p, c).db.jobs
    ensures JobReports(cipher, StepOf(cipher, w, t, p, c), j)
  {
    var s, w' := StatementOf(cipher, p, c), StepOf(cipher, w, t, p, c);
    StepGrows(cipher, w, t, p, c);
    hide StatementOf, Called, Written, Violates, After, QueueAfter, RunsAfter, IssuedAfter, Following, ProcReports, Grows;
    if s.Some? {
      SentStatementKeepsJobs(cipher, w, p, c);
      StatementKeepsJobs(cipher, w, s.value, c.fault, c.now, j);
    }
    hide KeepsJobs, JobReports;
    JobStays(cipher, w.(db := w'.db), w', j);
  }

  lemma AttemptReports(cipher: Option<Aead>, w: World, t: nat, c: Choice, w': World)
    requires t in w.procs && w.procs[t].Attempt? && w' == StepOf(cipher, w, t, w.procs[t], c)
    requires Unique(w) && AllCoupled(cipher, w) && ProcReports(cipher, w, w.procs[t]) && ProcReports(cipher, w', w.procs[t])
    ensures t in w'.procs ==> ProcReports(cipher, w', w'.procs[t])
  {
    var p, s := w.procs[t], StatementOf(cipher, w.procs[t], c);
    var ok := c.fault.Answered? && (s.Some? ==> !Violates(w.db, s.value));
    assert w'.procs == Following(w.procs, t, After(w.db, p, c, ok));
    if p.calls != [] {
      CallReportsNext(cipher, w', p);
    } else {
      if IsFinalStage(p.stage) {
        if ok {
          FinalWriteIsLogged(cipher, w, t, p, c);
        }
        FinalReports(cipher, w, w', p, c, ok);
      } else {
        ExternalCallReports(cipher, w, w', p, c, ok);
      }
      hide StatementOf, Called, Written, After, QueueAfter, IssuedAfter, ProcReports, Unique, AllCoupled;
    }
  }

  lemma StepKeepsProcReports(cipher: Option<Aead>, w: World, t: nat, c: Choice, u: nat)
    requires Unique(w) && AllCoupled(cipher, w) && Reports(cipher, w) && t in w.procs && c.job !in w.used
    requires u in StepOf(cipher, w, t, w.procs[t], c).procs
    ensures ProcReports(cipher, StepOf(cipher, w, t, w.procs[t], c), StepOf(cipher, w, t, w.procs[t], c).procs[u])
  {
    var p := w.procs[t];
    var s, w' := StatementOf(cipher, p, c), StepOf(cipher, w, t, p, c);
    var ok := c.fault.Answered? && (s.Some? ==> !Violates(w.db, s.value));
    StepGrows(cipher, w, t, p, c);
    assert w'.procs == Following(w.procs, t, After(w.db, p, c, ok));
    if u != t {
      ProcStays(cipher, w, w', w.procs[u]);
    } else {
      ProcStays(cipher, w, w', p);
      assert w'.issued == IssuedAfter(w.issued, After(w.db, p, c, ok), c);
      if p.Attempt? {
        AttemptReports(cipher, w, t, c, w');
      } else {
        HandlerReports(cipher, w, w', p, c, ok);
      }
    }
  }

  lemma QueuedReports(w: World, w': World, p: Proc, c: Choice, cipher: Option<Aead>, id: TaskId)
    requires Grows(w, w') && ProcReports(cipher, w, p) && id in QueueAfter(w.queue, p, c)
    requires forall i :: i in w.queue ==> Issued(w, w.queue[i])
    ensures Issued(w', QueueAfter(w.queue, p, c)[id])
  {
    hide TaskIdOf, CallReports, StageFits;
  }

  lemma StepKeepsReports(cipher: Option<Aead>, w: World, t: nat, c: Choice)
    requires Unique(w) && AllCoupled(cipher, w) && Reports(cipher, w) && t in w.procs && c.job !in w.used
    ensures Reports(cipher, StepOf(cipher, w, t, w.procs[t], c))
  {
    var p, w' := w.procs[t], StepOf(cipher, w, t, w.procs[t], c);
    StepGrows(cipher, w, t, p, c);
    forall j | j in w'.db.jobs ensures JobReports(cipher, w', j) {
      StepKeepsJobReports(cipher, w, t, p, c, j);
    }
    forall u | u in w'.procs ensures ProcReports(cipher, w', w'.procs[u]) {
      StepKeepsProcReports(cipher, w, t, c, u);
    }
    hide JobReports, ProcReports, Called, StatementOf, Written, Violates, After, RunsAfter, Following, Unique, AllCoupled;
    forall id | id in w'.queue ensures Issued(w', w'.queue[id]) {
      QueuedReports(w, w', p, c, cipher, id);
    }
  }

  lemma PickUpKeepsReports(cipher: Option<Aead>, w: World, t: nat, id: TaskId)
    requires Reports(cipher, w)
    ensures Reports(cipher, Next(cipher, w, PickUp(t, id)))
  {
    if id in w.queue {
      FirstCallsReport(cipher, w, w.queue[id]);
    }
    SameRecord(cipher, w, Next(cipher, w, PickUp(t, id)));
  }

  /** Nothing but processes and the queue has changed. */
  lemma SameRecord(cipher: Option<Aead>, w: World, w': World)
    requires w'.db == w.db && w'.issued == w.issued && w'.writes == w.writes && w'.runs == w.runs
    ensures forall j :: JobReports(cipher, w, j) ==> JobReports(cipher, w', j)
    ensures forall p :: Issued(w, p) ==> Issued(w', p)
    ensures forall p :: ProcReports(cipher, w, p) ==> ProcReports(cipher, w', p)
  {
    hide IsFinal, JobRecord;
    assert forall p :: Committed(cipher, w, p) <==> Committed(cipher, w', p);
    hide Committed;
  }

  lemma EventKeepsReports(cipher: Option<Aead>, w: World, e: Event)
    requires Unique(w) && AllCoupled(cipher, w) && Reports(cipher, w)
    ensures Reports(cipher, Next(cipher, w, e))
  {
    hide StepOf, Unique, AllCoupled, JobReports, Issued;
    match e
    case Step(t, c) =>
      if t in w.procs && c.job !in w.used {
        StepKeepsReports(cipher, w, t, c);
      }
      hide Reports;
    case PickUp(t, id) =>
      PickUpKeepsReports(cipher, w, t, id);
      hide Reports;
    case _ =>
      SameRecord(cipher, w, Next(cipher, w, e));
  }

  lemma {:induction false} ReportsHold(cipher: Option<Aead>, es: seq<Event>)
    ensures Reports(cipher, Run(cipher, es))
  {
    if es == [] {
    } else {
      hide Next, Unique, AllCoupled, Reports;
      var before := es[..|es| - 1];
      UniqueHolds(cipher, before);
      CoupledHolds(cipher, before);
      ReportsHold(cipher, before);
      EventKeepsReports(cipher, Run(cipher, before), es[|es| - 1]);
    }
  }

  /** In every reachable state, whichever calls have failed or been retried: an attempt of the completed job itself has
      committed the final write for its resource, with what its own run brought. */
  lemma CompletedJobsAreCommitted(cipher: Option<Aead>, es: seq<Event>, j: Id)
    requires j in Run(cipher, es).db.jobs && Run(cipher, es).db.jobs[j].status == JobStatus.Completed
    ensures var w := Run(cipher, es); var job := w.db.jobs[j];
            match job.kind
            case ProvisionCluster => job.cluster.Some? && exists row ::
              ClusterWrite(j, job.cluster.value, row) in w.writes && row.status.Active? &&
              FromOwnRun(cipher, w.runs, j, job.cluster.value, row)
            case DeployModel => job.deployment.Some? && exists row ::
              DeploymentWrite(j, job.deployment.value, row) in w.writes && row.status.Active? && Reaches(w.runs, row)
            case DestroyCluster => job.cluster.Some? && exists row ::
              ClusterWrite(j, job.cluster.value, row) in w.writes && row.status.Destroyed? && Cleared(row)
  {
    ReportsHold(cipher, es);
    var w := Run(cipher, es);
    hide Run, FromOwnRun, Reaches, Issued;
    assert JobReports(cipher, w, j);
    var p := w.issued[j];
    assert p.DestroyTask? ==> p.target.Some?;
    var i :| 0 <= i < |w.writes| && IsFinal(cipher, w.runs, p, w.writes[i]);
    assert w.writes[i] in w.writes;
    hide ProcReports;
    FinalWriteOf(cipher, w, p, w.writes[i]);
  }

  lemma FinalWriteOf(cipher: Option<Aead>, w: World, p: Payload, write: Write)
    requires IsFinal(cipher, w.runs, p, write)
    ensures p.ProvisionTask? ==> write == ClusterWrite(p.job, p.cluster, write.row)
    ensures p.DeployTask? ==> write == DeploymentWrite(p.job, p.deployment, write.deploymentRow)
    ensures p.DestroyTask? && p.target.Some? ==> write == ClusterWrite(p.job, p.target.value, write.row)
  {
  }

  /** Every job row has an id that was drawn for a request which makes a job record. */
  lemma RowsHaveRecords(cipher: Option<Aead>, w: World)
    requires Reports(cipher, w)
    ensures forall j :: j in w.db.jobs ==> j in w.used && j in w.issued && JobRecord(w.issued[j]).Some?
  {
    hide Committed, Issued, ProcReports;
    forall j | j in w.db.jobs ensures j in w.used && j in w.issued && JobRecord(w.issued[j]).Some? {
      assert JobReports(cipher, w, j);
    }
  }

  /** The job id that a delete request is answered with never has a row. */
  lemma DeletesHaveNoRow(cipher: Option<Aead>, es: seq<Event>, j: Id)
    requires j in Run(cipher, es).issued && Run(cipher, es).issued[j].DeleteTask?
    ensures j !in Run(cipher, es).db.jobs
  {
    ReportsHold(cipher, es);
    RowsHaveRecords(cipher, Run(cipher, es));
    hide Run, Reports;
  }
}
