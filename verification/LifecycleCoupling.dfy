/** The kubeconfig and the address of a cluster row belong together, and every active deployment is reached at an
    address that a provision run of its own cluster brought, whatever handlers and attempts interleave. */
module LifecycleCoupling {
  import opened Common
  import opened Kubeconfig
  import opened MigrationFiles
  import opened Store
  import opened Text
  import opened Lifecycle
  import opened LifecycleSafety

  /** Both columns hold what one provision run of the cluster brought. */
  predicate FromRun(cipher: Option<Aead>, run: ProvisionRun, c: Id, kubeconfig: StoredText, publicIp: string) {
    run.cluster == c && kubeconfig == KubeconfigOf(cipher, run) && publicIp == run.outputs.ip
  }

  ghost predicate FromSomeRun(cipher: Option<Aead>, runs: seq<ProvisionRun>, c: Id, kubeconfig: StoredText,
                              publicIp: string) {
    exists run :: run in runs && FromRun(cipher, run, c, kubeconfig, publicIp)
  }

  predicate Cleared(row: ClusterRow) {
    row.kubeconfig == NO_KUBECONFIG && row.publicIp == ""
  }

  /** In every status the pair is whole or empty. */
  ghost predicate Coupled(cipher: Option<Aead>, runs: seq<ProvisionRun>, c: Id, row: ClusterRow) {
    && (row.status.Active? ==> FromSomeRun(cipher, runs, c, row.kubeconfig, row.publicIp))
    && (row.status.Provisioning? || row.status.Destroyed? ==> Cleared(row))
    && (Cleared(row) || FromSomeRun(cipher, runs, c, row.kubeconfig, row.publicIp))
  }

  ghost predicate RowsCoupled(cipher: Option<Aead>, runs: seq<ProvisionRun>, db: Db) {
    forall c :: c in db.clusters ==> Coupled(cipher, runs, c, db.clusters[c])
  }

  /** A cluster whose kubeconfig has been cleared has no address. */
  ghost predicate Brought(runs: seq<ProvisionRun>, c: Id, ip: string) {
    ip == "" || exists run :: run in runs && run.cluster == c && run.outputs.ip == ip
  }

  ghost predicate Reaches(runs: seq<ProvisionRun>, d: DeploymentRow) {
    exists ip :: Brought(runs, d.cluster, ip) && d.serviceUrl == ServiceUrl(ip, d.nodePort)
  }

  ghost predicate UrlsReach(runs: seq<ProvisionRun>, db: Db) {
    forall d :: d in db.deployments && db.deployments[d].status.Active? ==> Reaches(runs, db.deployments[d])
  }

  ghost predicate StageKnown(runs: seq<ProvisionRun>, p: Proc) {
    p.Attempt? ==>
      && (p.stage.RunPulumi? || p.stage.SaveCluster? ==> p.payload.ProvisionTask?)
      && (p.stage.SaveCluster? ==>
            p.stage.run in runs && p.stage.run.cluster == p.payload.cluster && p.stage.run.job == p.payload.job)
      && (p.stage.ApplyModel? || p.stage.AwaitHealth? || p.stage.SaveUrl? ==>
            p.payload.DeployTask? && Brought(runs, p.payload.cluster, p.stage.ip))
  }

  ghost predicate AllCoupled(cipher: Option<Aead>, w: World) {
    && RowsCoupled(cipher, w.runs, w.db) && UrlsReach(w.runs, w.db)
    && forall t :: t in w.procs ==> StageKnown(w.runs, w.procs[t])
  }

  /** The only forms in which the system writes cluster rows. */
  ghost predicate KeepsPairs(cipher: Option<Aead>, runs: seq<ProvisionRun>, s: Statement) {
    match s
    case InsertCluster(_, row) => row.status.Provisioning? && Cleared(row)
    case SetClusterStatus(_, status) => status.Installing? || status.Failed? || status.Destroying?
    case SetClusterDetails(c, status, kubeconfig, ip) =>
      || (status.Active? && FromSomeRun(cipher, runs, c, kubeconfig, ip))
      || (status.Destroyed? && kubeconfig == NO_KUBECONFIG && ip == "")
    case ResetCluster(_, _, status) => status.Provisioning?
    case _ => true
  }

  lemma SentStatementKeepsPairs(cipher: Option<Aead>, runs: seq<ProvisionRun>, db: Db, p: Proc, c: Choice)
    requires ProcFits(db, p) && StageKnown(runs, p) && StatementOf(cipher, p, c).Some?
    ensures KeepsPairs(cipher, runs, StatementOf(cipher, p, c).value)
  {
    hide KubeconfigOf, ServiceUrl, PayloadFits;
    if p.Attempt? && p.calls == [] && p.stage.SaveCluster? {
      assert FromRun(cipher, p.stage.run, p.payload.cluster, KubeconfigOf(cipher, p.stage.run), p.stage.run.outputs.ip);
    }
  }

  lemma StatementKeepsPairs(cipher: Option<Aead>, runs: seq<ProvisionRun>, db: Db, s: Statement, fault: Fault, now: int)
    requires RowsCoupled(cipher, runs, db) && KeepsPairs(cipher, runs, s)
    ensures RowsCoupled(cipher, runs, Called(db, s, fault, now))
  {
    hide FromSomeRun, Violates, Cascaded, UpdatedJob;
  }

  /** The only forms in which the system writes the status and the URL of a deployment. */
  ghost predicate KeepsUrls(runs: seq<ProvisionRun>, db: Db, s: Statement) {
    match s
    case InsertDeployment(_, row) => !row.status.Active?
    case SetDeploymentStatus(_, status) => !status.Active?
    case SetStatusByCluster(_, status) => !status.Active?
    case SetServiceUrl(d, _, url) =>
      && d in db.deployments
      && exists ip :: Brought(runs, db.deployments[d].cluster, ip) && url == ServiceUrl(ip, db.deployments[d].nodePort)
    case _ => true
  }

  lemma SentStatementKeepsUrls(cipher: Option<Aead>, runs: seq<ProvisionRun>, db: Db, p: Proc, c: Choice)
    requires ProcFits(db, p) && StageKnown(runs, p) && StatementOf(cipher, p, c).Some?
    ensures KeepsUrls(runs, db, StatementOf(cipher, p, c).value)
  {
    hide KubeconfigOf, ServiceUrl, Brought;
  }

  lemma StatementKeepsUrls(runs: seq<ProvisionRun>, db: Db, s: Statement, fault: Fault, now: int)
    requires UrlsReach(runs, db) && KeepsUrls(runs, db, s)
    ensures UrlsReach(runs, Called(db, s, fault, now))
  {
    hide Brought, ServiceUrl, Violates, UpdatedJob;
  }

  lemma MoreRuns(cipher: Option<Aead>, runs: seq<ProvisionRun>, run: ProvisionRun)
    ensures forall c, row :: Coupled(cipher, runs, c, row) ==> Coupled(cipher, runs + [run], c, row)
    ensures forall d :: Reaches(runs, d) ==> Reaches(runs + [run], d)
    ensures forall p :: StageKnown(runs, p) ==> StageKnown(runs + [run], p)
  {
    hide FromRun, ServiceUrl;
    assert forall r :: r in runs ==> r in runs + [run];
    assert forall c, ip :: Brought(runs, c, ip) ==> Brought(runs + [run], c, ip);
    assert forall c, k, ip :: FromSomeRun(cipher, runs, c, k, ip) ==> FromSomeRun(cipher, runs + [run], c, k, ip);
    hide Brought, FromSomeRun;
  }

  lemma AddressIsBrought(cipher: Option<Aead>, runs: seq<ProvisionRun>, c: Id, row: ClusterRow)
    requires Coupled(cipher, runs, c, row)
    ensures Brought(runs, c, row.publicIp)
  {
    hide KubeconfigOf;
  }

  lemma NextStageKnown(cipher: Option<Aead>, w: World, p: Proc, c: Choice, ok: bool)
    requires RowsCoupled(cipher, w.runs, w.db) && StageKnown(w.runs, p)
    ensures After(w.db, p, c, ok).Some? ==> StageKnown(RunsAfter(w.runs, p, c), After(w.db, p, c, ok).value)
  {
    if p.Attempt? && p.stage.ReadCluster? {
      var id := if p.payload.DeployTask? || p.payload.DeleteTask? then p.payload.cluster else 0;
      if id in w.db.clusters {
        AddressIsBrought(cipher, w.runs, id, w.db.clusters[id]);
      }
    }
    hide FailCalls, OrgNamed, ClusterNamed, Brought, Coupled;
  }

  lemma RunsKeepCoupled(cipher: Option<Aead>, w: World, p: Proc, c: Choice)
    requires AllCoupled(cipher, w)
    ensures AllCoupled(cipher, w.(runs := RunsAfter(w.runs, p, c)))
  {
    if p.Attempt? {
      MoreRuns(cipher, w.runs, RunOf(p.payload, c.outputs));
    }
    hide Coupled, Reaches, StageKnown;
  }

  lemma StepKeepsCoupled(cipher: Option<Aead>, w: World, t: nat, c: Choice)
    requires Unique(w) && AllCoupled(cipher, w) && t in w.procs
    ensures AllCoupled(cipher, StepOf(cipher, w, t, w.procs[t], c))
  {
    var p := w.procs[t];
    var s := StatementOf(cipher, p, c);
    var db := StepOf(cipher, w, t, p, c).db;
    var ok := c.fault.Answered? && (s.Some? ==> !Violates(w.db, s.value));
    hide RowsCoupled, UrlsReach, StageKnown, OneOfEach, ProcFits, StatementOf, Called, After, Violates, Written, QueueAfter,
      IssuedAfter, RunsAfter;
    if s.Some? {
      SentStatementKeepsPairs(cipher, w.runs, w.db, p, c);
      StatementKeepsPairs(cipher, w.runs, w.db, s.value, c.fault, c.now);
      SentStatementKeepsUrls(cipher, w.runs, w.db, p, c);
      StatementKeepsUrls(w.runs, w.db, s.value, c.fault, c.now);
    }
    RunsKeepCoupled(cipher, w.(db := db), p, c);
    NextStageKnown(cipher, w, p, c, ok);
  }

  lemma EventKeepsCoupled(cipher: Option<Aead>, w: World, e: Event)
    requires Unique(w) && AllCoupled(cipher, w)
    ensures AllCoupled(cipher, Next(cipher, w, e))
  {
    if e.Step? && e.proc in w.procs {
      StepKeepsCoupled(cipher, w, e.proc, e.choice);
    }
    hide StepOf, RowsCoupled, UrlsReach, Unique, FirstCalls;
  }

  lemma {:induction false} CoupledHolds(cipher: Option<Aead>, es: seq<Event>)
    ensures AllCoupled(cipher, Run(cipher, es))
  {
    hide Next, Unique;
    if es == [] {
    } else {
      hide AllCoupled;
      var before := es[..|es| - 1];
      UniqueHolds(cipher, before);
      CoupledHolds(cipher, before);
      EventKeepsCoupled(cipher, Run(cipher, before), es[|es| - 1]);
    }
  }

  /** In every reachable state: the kubeconfig and the address of an active cluster were brought by one provision run of
      that cluster, and what a later task reads from the row is that run's file with the server address replaced by
      that run's address; a cluster that is being provisioned or is destroyed has neither; and no row ever holds one
      without the other. */
  lemma {:induction false} ClusterRowsComeFromOneRun(cipher: Option<Aead>, es: seq<Event>, c: Id)
    requires cipher.Some? ==> OpensWhatItSeals(cipher.value)
    requires cipher.Some? ==> forall run :: run in Run(cipher, es).runs ==> |run.outputs.nonce| == cipher.value.nonceSize
    requires c in Run(cipher, es).db.clusters
    ensures var w := Run(cipher, es); var row := w.db.clusters[c];
            && (row.status.Active? ==>
                  (exists run :: run in w.runs && run.cluster == c && row.publicIp == run.outputs.ip &&
                     Load(cipher, row.kubeconfig) == Some(Rewrite(run.outputs.fetched, AsciiBytes(run.outputs.ip)))))
            && (row.status.Provisioning? || row.status.Destroyed? ==> row.kubeconfig == NO_KUBECONFIG && row.publicIp == "")
            && ((row.kubeconfig == NO_KUBECONFIG && row.publicIp == "") ||
                (exists run :: run in w.runs && run.cluster == c && row.publicIp == run.outputs.ip &&
                   row.kubeconfig == KubeconfigOf(cipher, run)))
  {
    CoupledHolds(cipher, es);
    var w := Run(cipher, es);
    var row := w.db.clusters[c];
    assert Coupled(cipher, w.runs, c, row);
    hide Run, Load, Rewrite;
    if row.status.Active? {
      var run :| run in w.runs && FromRun(cipher, run, c, row.kubeconfig, row.publicIp);
      LoadUndoesStored(cipher, run.outputs.nonce, run.outputs.fetched, AsciiBytes(run.outputs.ip));
    }
  }

  /** In every reachable state an active deployment has its URL: the node port it was created with, at an address
      that a provision run of its cluster brought (or at none, when the cluster's address was cleared before the
      deploy read it). */
  lemma {:induction false} ActiveDeploymentsHaveUrls(cipher: Option<Aead>, es: seq<Event>, d: Id)
    requires d in Run(cipher, es).db.deployments && Run(cipher, es).db.deployments[d].status.Active?
    ensures var w := Run(cipher, es); var row := w.db.deployments[d];
            exists ip :: IsHttpUrl(row.serviceUrl, ip, row.nodePort) &&
              (ip == "" || exists run :: run in w.runs && run.cluster == row.cluster && run.outputs.ip == ip)
  {
    CoupledHolds(cipher, es);
    var w := Run(cipher, es);
    hide Run, ServiceUrl, IsHttpUrl;
    var row := w.db.deployments[d];
    assert Reaches(w.runs, row);
    var ip :| Brought(w.runs, row.cluster, ip) && row.serviceUrl == ServiceUrl(ip, row.nodePort);
    ServiceUrlIsHttp(ip, row.nodePort);
  }
}
