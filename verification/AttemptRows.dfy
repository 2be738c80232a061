/** What the calls of one worker attempt do to the tables, and the order of its store calls (internal/worker/server.go). */
module AttemptRows {
  import opened Common
  import opened Kubeconfig
  import opened Store
  import opened Lifecycle

  /** The payload; an id that is not a UUID is none. */
  datatype Task = Task(
    job: Id, deployment: Option<Id>, cluster: Option<Id>, namespace: string, model: string, modelUrl: string, nodePort: nat)

  /** The job has a start time. */
  ghost predicate Started(db: Db, j: Id) {
    j in db.jobs ==> db.jobs[j].startedAt.Some?
  }

  ghost predicate KeepsStart(db: Db, db': Db, j: Id) {
    db'.jobs.Keys == db.jobs.Keys && (Started(db, j) ==> Started(db', j))
  }

  /** Nothing but the row of the deployment and that of the job has changed. */
  ghost predicate OnlyTouches(db: Db, db': Db, d: Option<Id>, j: Id) {
    && db'.orgs == db.orgs && db'.clusters == db.clusters
    && db'.deployments.Keys == db.deployments.Keys && KeepsStart(db, db', j)
    && (forall x :: x in db.deployments && d != Some(x) ==> db'.deployments[x] == db.deployments[x])
    && (forall x :: x in db.jobs && x != j ==> db'.jobs[x] == db.jobs[x])
  }

  /** Nothing but the row of the cluster and that of the job has changed. */
  ghost predicate OnlyTouchesCluster(db: Db, db': Db, c: Option<Id>, j: Id) {
    && db'.orgs == db.orgs && db'.deployments == db.deployments
    && db'.clusters.Keys == db.clusters.Keys && KeepsStart(db, db', j)
    && (forall x :: x in db.clusters && c != Some(x) ==> db'.clusters[x] == db.clusters[x])
    && (forall x :: x in db.jobs && x != j ==> db'.jobs[x] == db.jobs[x])
  }

  /** Nothing but the row of the cluster, its deployments and the row of the job has changed. */
  ghost predicate TouchesAround(db: Db, db': Db, c: Option<Id>, j: Id) {
    && db'.orgs == db.orgs
    && db'.deployments.Keys == db.deployments.Keys && db'.clusters.Keys == db.clusters.Keys && KeepsStart(db, db', j)
    && (forall x :: x in db.deployments ==> db'.deployments[x].cluster == db.deployments[x].cluster)
    && (forall x :: x in db.deployments && c != Some(db.deployments[x].cluster) ==> db'.deployments[x] == db.deployments[x])
    && (forall x :: x in db.clusters && c != Some(x) ==> db'.clusters[x] == db.clusters[x])
    && (forall x :: x in db.jobs && x != j ==> db'.jobs[x] == db.jobs[x])
  }

  /** Every deployment of the cluster is deleted, failed or orphaned. */
  ghost predicate NoneRuns(db: Db, c: Id) {
    forall d :: d in db.deployments && db.deployments[d].cluster == c ==>
      db.deployments[d].status.Deleted? || db.deployments[d].status.Failed? || db.deployments[d].status.Orphaned?
  }

  ghost predicate ClusterIs(db: Db, c: Option<Id>, status: ClusterStatus) {
    c.Some? && c.value in db.clusters ==> db.clusters[c.value].status == status
  }

  ghost predicate DeploymentIs(db: Db, d: Option<Id>, status: DeploymentStatus) {
    d.Some? && d.value in db.deployments ==> db.deployments[d.value].status == status
  }

  ghost predicate UrlIs(db: Db, d: Option<Id>, url: string) {
    d.Some? && d.value in db.deployments ==> db.deployments[d.value].serviceUrl == url
  }

  ghost predicate JobIs(db: Db, j: Id, status: JobStatus, message: string) {
    j in db.jobs ==>
      && db.jobs[j].status == status && db.jobs[j].error == (if message == "" then None else Some(message))
      && (status.Completed? || status.Failed? ==> db.jobs[j].completedAt == Some(db.jobs[j].updatedAt))
  }

  lemma TouchesInTurn(db: Db, db1: Db, db2: Db, d: Option<Id>, j: Id)
    requires OnlyTouches(db, db1, d, j) && OnlyTouches(db1, db2, d, j)
    ensures OnlyTouches(db, db2, d, j)
  {
  }

  /** Whether the attempt is followed in the lifecycle machine, by which process, and for which payload. A task whose ids
      do not parse is not one that a handler has enqueued, and is not followed. */
  datatype Guide = Guide(following: bool, thread: nat, payload: Payload)

  /** The payload is what the task says. */
  predicate IsDeploy(g: Guide, t: Task) {
    g.following ==>
      && t.deployment.Some? && t.cluster.Some?
      && g.payload == DeployTask(t.job, t.deployment.value, t.cluster.value, t.model, t.nodePort)
  }

  predicate IsDelete(g: Guide, t: Task) {
    g.following ==>
      && t.deployment.Some? && t.cluster.Some?
      && g.payload == DeleteTask(t.job, t.deployment.value, t.cluster.value, t.model)
  }

  predicate IsProvision(g: Guide, job: Id, cluster: Option<Id>, stack: string) {
    g.following ==> cluster.Some? && g.payload == ProvisionTask(job, cluster.value, stack)
  }

  predicate IsDestroy(g: Guide, job: Id, cluster: Option<Id>, stack: string) {
    g.following ==> g.payload == DestroyTask(job, cluster, stack)
  }

  // The store calls of the attempts, in order.

  function Beginning(t: Task, status: DeploymentStatus): seq<Statement>
    requires t.deployment.Some?
  {
    [SetDeploymentStatus(t.deployment.value, status), SetJobStatus(t.job, JobStatus.Running, "")]
  }

  function BeginningDestroy(job: Id, cluster: Option<Id>): seq<Statement> {
    [SetJobStatus(job, JobStatus.Running, "")] + if cluster.Some? then [SetClusterStatus(cluster.value, Destroying)] else []
  }

  function GivingUp(t: Task, message: string): seq<Statement>
    requires t.deployment.Some?
  {
    [SetDeploymentStatus(t.deployment.value, DeploymentStatus.Failed), SetJobStatus(t.job, JobStatus.Failed, message)]
  }

  function GivingUpCluster(c: Id, job: Id, message: string): seq<Statement> {
    [SetClusterStatus(c, ClusterStatus.Failed), SetJobStatus(job, JobStatus.Failed, message)]
  }

  function SavedUrl(t: Task, ip: string): Statement
    requires t.deployment.Some?
  {
    SetServiceUrl(t.deployment.value, DeploymentStatus.Active, ServiceUrl(ip, t.nodePort))
  }

  function FinalReport(job: Id, ok: bool, message: string): Statement {
    if ok then SetJobStatus(job, JobStatus.Completed, "") else SetJobStatus(job, JobStatus.Failed, message)
  }

  lemma DeploymentIsSet(db: Db, d: Id, status: DeploymentStatus, j: Id, fault: Fault, now: int)
    ensures var db' := Called(db, SetDeploymentStatus(d, status), fault, now);
            && OnlyTouches(db, db', Some(d), j) && db'.jobs == db.jobs
            && (fault.Answered? ==> DeploymentIs(db', Some(d), status))
            && (d in db.deployments ==> db'.deployments[d].serviceUrl == db.deployments[d].serviceUrl)
  {
  }

  lemma UrlIsSet(db: Db, t: Task, url: string, fault: Fault, now: int)
    requires t.deployment.Some?
    ensures var db' := Called(db, SetServiceUrl(t.deployment.value, DeploymentStatus.Active, url), fault, now);
            && OnlyTouches(db, db', t.deployment, t.job)
            && (fault.Answered? ==>
                  DeploymentIs(db', t.deployment, DeploymentStatus.Active) && UrlIs(db', t.deployment, url))
  {
  }

  lemma JobIsSet(db: Db, j: Id, status: JobStatus, message: string, d: Option<Id>, fault: Fault, now: int)
    requires status.Completed? ==> message == ""
    ensures var db' := Called(db, SetJobStatus(j, status, message), fault, now);
            && OnlyTouches(db, db', d, j) && db'.deployments == db.deployments
            && (fault.Answered? ==> JobIs(db', j, status, message) && (status.Running? ==> Started(db', j)))
  {
  }

  lemma TouchesClusterToo(db: Db, db': Db, c: Option<Id>, j: Id)
    requires OnlyTouches(db, db', None, j) && db'.deployments == db.deployments
    ensures OnlyTouchesCluster(db, db', c, j) && db'.clusters == db.clusters
  {
  }

  lemma NoneRunsStays(db: Db, db': Db, c: Id)
    requires db.deployments == db'.deployments
    ensures NoneRuns(db, c) ==> NoneRuns(db', c)
  {
  }

  lemma ClusterIsSet(db: Db, c: Id, status: ClusterStatus, j: Id, fault: Fault)
    ensures var db' := Called(db, SetClusterStatus(c, status), fault, 0);
            && OnlyTouchesCluster(db, db', Some(c), j) && db'.jobs == db.jobs
            && (fault.Answered? ==> ClusterIs(db', Some(c), status))
  {
  }

  lemma DetailsAreSet(db: Db, c: Id, status: ClusterStatus, kubeconfig: StoredText, ip: string, j: Id, fault: Fault)
    ensures var db' := Called(db, SetClusterDetails(c, status, kubeconfig, ip), fault, 0);
            && OnlyTouchesCluster(db, db', Some(c), j) && db'.deployments == db.deployments
            && (fault.Answered? && c in db.clusters ==>
                  && c in db'.clusters && db'.clusters[c].status == status
                  && db'.clusters[c].kubeconfig == kubeconfig && db'.clusters[c].publicIp == ip)
  {
  }

  lemma DeploymentsAreOrphaned(db: Db, c: Id, j: Id, fault: Fault, now: int)
    ensures var db' := Called(db, SetStatusByCluster(c, Orphaned), fault, now);
            && TouchesAround(db, db', Some(c), j) && db'.clusters == db.clusters
            && (fault.Answered? ==> NoneRuns(db', c))
  {
  }

  lemma NoDeployment(db: Db)
    ensures forall status :: DeploymentIs(db, None, status)
  {
  }

  lemma SameDeployments(db: Db, db': Db, d: Option<Id>)
    requires db.deployments == db'.deployments
    ensures forall status :: DeploymentIs(db, d, status) ==> DeploymentIs(db', d, status)
  {
  }

  lemma NoCluster(db: Db)
    ensures forall status :: ClusterIs(db, None, status)
  {
  }

  lemma TouchesClusterInTurn(db: Db, db1: Db, db2: Db, c: Option<Id>, j: Id)
    requires OnlyTouchesCluster(db, db1, c, j) && OnlyTouchesCluster(db1, db2, c, j)
    ensures OnlyTouchesCluster(db, db2, c, j)
  {
  }

  lemma SameClusterIds(db: Db, db': Db, c: Option<Id>, j: Id)
    requires OnlyTouchesCluster(db, db', c, j)
    ensures db'.clusters.Keys == db.clusters.Keys
  {
  }

  lemma SameRows(db: Db, db': Db, c: Option<Id>, j: Id)
    requires OnlyTouchesCluster(db, db', c, j)
    ensures db'.deployments == db.deployments
  {
  }

  lemma TouchesAroundToo(db: Db, db': Db, c: Option<Id>, j: Id)
    requires OnlyTouchesCluster(db, db', c, j)
    ensures TouchesAround(db, db', c, j)
  {
  }

  lemma TouchesAroundInTurn(db: Db, db1: Db, db2: Db, c: Option<Id>, j: Id)
    requires TouchesAround(db, db1, c, j) && TouchesAround(db1, db2, c, j)
    ensures TouchesAround(db, db2, c, j)
  {
  }

  lemma StartedStays(db: Db, db': Db, d: Option<Id>, j: Id)
    requires OnlyTouches(db, db', d, j)
    ensures Started(db, j) ==> Started(db', j)
  {
  }

  lemma StartedStaysToo(db: Db, db': Db, c: Option<Id>, j: Id)
    requires OnlyTouchesCluster(db, db', c, j)
    ensures Started(db, j) ==> Started(db', j)
  {
  }

  lemma StartedStaysAround(db: Db, db': Db, c: Option<Id>, j: Id)
    requires TouchesAround(db, db', c, j)
    ensures Started(db, j) ==> Started(db', j)
  {
  }
}
