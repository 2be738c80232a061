/** The tables of Postgres and the statements the store runs against them (internal/store/postgres.go,
    internal/store/migrations/001_init.sql, internal/store/migrations/002_jobs.sql). */
module Store {
  import opened Common
  import opened Kubeconfig

  /** A UUID; only equality matters. */
  type Id = nat

  datatype ClusterStatus = Provisioning | Installing | Active | Failed | Destroying | Destroyed

  datatype DeploymentStatus = Pending | Building | Deploying | Active | Failed | Deleting | Deleted | Orphaned

  datatype JobStatus = Queued | Running | Completed | Failed

  datatype TaskKind = ProvisionCluster | DeployModel | DestroyCluster

  datatype ClusterRow = ClusterRow(
    org: Id, name: string, region: string, status: ClusterStatus, kubeconfig: StoredText, publicIp: string)

  datatype DeploymentRow = DeploymentRow(
    cluster: Id, model: string, namespace: string, nodePort: nat,
    status: DeploymentStatus, serviceUrl: string, updatedAt: int)

  datatype JobRow = JobRow(
    kind: TaskKind, cluster: Option<Id>, deployment: Option<Id>, status: JobStatus, error: Option<string>,
    updatedAt: int, startedAt: Option<int>, completedAt: Option<int>)

  /** The rows by primary key; jobs by their unique job_id. */
  datatype Db = Db(
    orgs: map<Id, string>, clusters: map<Id, ClusterRow>, deployments: map<Id, DeploymentRow>, jobs: map<Id, JobRow>)

  const EMPTY := Db(map[], map[], map[], map[])

  /** The empty string in the kubeconfig column. */
  const NO_KUBECONFIG := Plain([])

  datatype Statement =
    | InsertOrg(org: Id, orgName: string)
    | InsertCluster(cluster: Id, row: ClusterRow)
    | SetClusterStatus(cluster: Id, clusterStatus: ClusterStatus)
    | SetClusterDetails(cluster: Id, clusterStatus: ClusterStatus, kubeconfig: StoredText, publicIp: string)
    | ResetCluster(cluster: Id, region: string, clusterStatus: ClusterStatus)
    | InsertDeployment(deployment: Id, deploymentRow: DeploymentRow)
    | SetDeploymentStatus(deployment: Id, deploymentStatus: DeploymentStatus)
    | SetServiceUrl(deployment: Id, deploymentStatus: DeploymentStatus, url: string)
    | SetStatusByCluster(cluster: Id, deploymentStatus: DeploymentStatus)
    | InsertJob(job: Id, jobRow: JobRow)
    | SetJobStatus(job: Id, jobStatus: JobStatus, message: string)

  /** A primary key, UNIQUE or foreign key constraint forbids the statement. */
  ghost predicate Violates(db: Db, s: Statement) {
    match s
    case InsertOrg(id, name) => id in db.orgs || name in db.orgs.Values
    case InsertCluster(id, row) =>
      || id in db.clusters || row.org !in db.orgs
      || exists c :: c in db.clusters && db.clusters[c].org == row.org && db.clusters[c].name == row.name
    case InsertDeployment(id, row) => id in db.deployments || row.cluster !in db.clusters
    case InsertJob(id, row) =>
      || id in db.jobs || (row.cluster.Some? && row.cluster.value !in db.clusters)
      || (row.deployment.Some? && row.deployment.value !in db.deployments)
    case _ => false
  }

  /** UPDATE jobs SET ... of UpdateJobStatus. */
  function UpdatedJob(j: JobRow, status: JobStatus, message: string, now: int): JobRow {
    j.(status := status,
       error := if message == "" then None else Some(message),
       updatedAt := now,
       startedAt := if status == JobStatus.Running && j.startedAt.None? then Some(now) else j.startedAt,
       completedAt := if status == Completed || status == JobStatus.Failed then Some(now) else j.completedAt)
  }

  /** A status update by cluster spares rows that are deleted or failed. */
  function Cascaded(d: DeploymentRow, cluster: Id, status: DeploymentStatus, now: int): DeploymentRow {
    if d.cluster == cluster && !d.status.Deleted? && !d.status.Failed? then d.(status := status, updatedAt := now) else d
  }

  function Put<V>(rows: map<Id, V>, id: Id, row: V): map<Id, V> {
    rows[id := row]
  }

  /** The tables after a statement that violates no constraint; an UPDATE of a missing row changes nothing. */
  function Execute(db: Db, s: Statement, now: int): Db {
    match s
    case InsertOrg(id, name) => db.(orgs := db.orgs[id := name])
    case InsertCluster(id, row) => db.(clusters := db.clusters[id := row])
    case SetClusterStatus(id, status) =>
      if id !in db.clusters then db else db.(clusters := Put(db.clusters, id, db.clusters[id].(status := status)))
    case SetClusterDetails(id, status, kubeconfig, publicIp) =>
      if id !in db.clusters then db
      else db.(clusters := Put(db.clusters, id,
               db.clusters[id].(status := status, kubeconfig := kubeconfig, publicIp := publicIp)))
    case ResetCluster(id, region, status) =>
      if id !in db.clusters then db
      else db.(clusters := Put(db.clusters, id,
               db.clusters[id].(status := status, region := region, kubeconfig := NO_KUBECONFIG, publicIp := "")))
    case InsertDeployment(id, row) => db.(deployments := db.deployments[id := row])
    case SetDeploymentStatus(id, status) =>
      if id !in db.deployments then db
      else db.(deployments := Put(db.deployments, id, db.deployments[id].(status := status, updatedAt := now)))
    case SetServiceUrl(id, status, url) =>
      if id !in db.deployments then db
      else db.(deployments := Put(db.deployments, id,
               db.deployments[id].(status := status, serviceUrl := url, updatedAt := now)))
    case SetStatusByCluster(c, status) =>
      db.(deployments := map id | id in db.deployments :: Cascaded(db.deployments[id], c, status, now))
    case InsertJob(id, row) => db.(jobs := db.jobs[id := row])
    case SetJobStatus(id, status, message) =>
      if id !in db.jobs then db else db.(jobs := Put(db.jobs, id, UpdatedJob(db.jobs[id], status, message, now)))
  }

  /** The tables after a call of the store, whatever becomes of it. */
  ghost function Called(db: Db, s: Statement, fault: Fault, now: int): Db {
    if Violates(db, s) then db else Effect(fault, db, Execute(db, s, now))
  }

  /** The caller is told that the statement took effect. */
  ghost predicate Succeeds(db: Db, s: Statement, fault: Fault) {
    fault.Answered? && !Violates(db, s)
  }

  ghost predicate OtherClustersStay(db: Db, db': Db, id: Id) {
    && db'.clusters.Keys == db.clusters.Keys
    && forall c :: c in db.clusters ==>
         && db'.clusters[c].org == db.clusters[c].org && db'.clusters[c].name == db.clusters[c].name
         && (c == id || db'.clusters[c] == db.clusters[c])
  }

  ghost predicate OtherDeploymentsStay(db: Db, db': Db, id: Id) {
    && db'.deployments.Keys == db.deployments.Keys
    && forall d :: d in db.deployments ==>
         && db'.deployments[d].cluster == db.deployments[d].cluster && db'.deployments[d].model == db.deployments[d].model
         && db'.deployments[d].namespace == db.deployments[d].namespace
         && db'.deployments[d].nodePort == db.deployments[d].nodePort
         && (d == id || db'.deployments[d] == db.deployments[d])
  }

  ghost predicate OtherJobsStay(db: Db, db': Db, id: Id) {
    && db'.jobs.Keys == db.jobs.Keys
    && forall j :: j in db.jobs ==>
         && db'.jobs[j].kind == db.jobs[j].kind && db'.jobs[j].cluster == db.jobs[j].cluster
         && db'.jobs[j].deployment == db.jobs[j].deployment
         && (j == id || db'.jobs[j] == db.jobs[j])
  }

  predicate WritesCluster(s: Statement) {
    s.SetClusterStatus? || s.SetClusterDetails? || s.ResetCluster?
  }

  predicate WritesDeployment(s: Statement) {
    s.SetDeploymentStatus? || s.SetServiceUrl?
  }

  lemma ClusterUpdateTouchesOneRow(db: Db, s: Statement, fault: Fault, now: int)
    requires WritesCluster(s)
    ensures var db' := Called(db, s, fault, now);
            OtherClustersStay(db, db', s.cluster) && db' == db.(clusters := db'.clusters)
  {
    hide Cascaded, UpdatedJob;
  }

  lemma DeploymentUpdateTouchesOneRow(db: Db, s: Statement, fault: Fault, now: int)
    requires WritesDeployment(s)
    ensures var db' := Called(db, s, fault, now);
            OtherDeploymentsStay(db, db', s.deployment) && db' == db.(deployments := db'.deployments)
  {
    hide Cascaded, UpdatedJob;
  }

  lemma JobUpdateTouchesOneRow(db: Db, s: Statement, fault: Fault, now: int)
    requires s.SetJobStatus?
    ensures var db' := Called(db, s, fault, now); OtherJobsStay(db, db', s.job) && db' == db.(jobs := db'.jobs)
  {
  }

  /** What a statement makes of a cluster's kubeconfig and address: none of it, or both at once. */
  function PairAfter(row: ClusterRow, s: Statement): (StoredText, string) {
    match s
    case SetClusterDetails(_, _, kubeconfig, publicIp) => (kubeconfig, publicIp)
    case ResetCluster(_, _, _) => (NO_KUBECONFIG, "")
    case _ => (row.kubeconfig, row.publicIp)
  }

  /** No statement, however it ends, leaves one column of the pair old and the other one new. */
  lemma KubeconfigAndAddressChangeTogether(db: Db, s: Statement, fault: Fault, now: int, c: Id)
    requires c in db.clusters
    ensures var db' := Called(db, s, fault, now);
            && c in db'.clusters
            && var row, row' := db.clusters[c], db'.clusters[c];
               && ((row'.kubeconfig, row'.publicIp) == (row.kubeconfig, row.publicIp) ||
                   (WritesCluster(s) && s.cluster == c && (row'.kubeconfig, row'.publicIp) == PairAfter(row, s)))
               && (WritesCluster(s) && s.cluster == c && !fault.Refused? ==>
                     (row'.kubeconfig, row'.publicIp) == PairAfter(row, s) && row'.status == s.clusterStatus)
  {
    hide Cascaded, UpdatedJob;
  }

  // ----- Routing targets -----

  predicate IsTarget(db: Db, model: string, d: DeploymentRow) {
    && d.model == model && d.status.Active? && d.serviceUrl != ""
    && d.cluster in db.clusters && db.clusters[d.cluster].status.Active?
  }

  /** The order in which the query may return the rows: each matching row once, the latest update first. */
  ghost predicate IsCursor(db: Db, model: string, ids: seq<Id>) {
    && (forall i, j :: 0 <= i < j < |ids| ==> ids[i] != ids[j])
    && (forall id :: id in ids <==> id in db.deployments && IsTarget(db, model, db.deployments[id]))
    && (forall i, j :: 0 <= i < j < |ids| ==>
          (ids[i] in db.deployments && ids[j] in db.deployments &&
           db.deployments[ids[i]].updatedAt >= db.deployments[ids[j]].updatedAt))
  }

  ghost predicate IsListing(db: Db, model: string, targets: seq<string>) {
    exists ids :: IsCursor(db, model, ids) && |targets| == |ids| &&
      forall i :: 0 <= i < |ids| ==> targets[i] == db.deployments[ids[i]].serviceUrl
  }

  /** A listing names exactly the service URLs of the active deployments of the model on active clusters. */
  lemma ListingMembers(db: Db, model: string, targets: seq<string>, url: string)
    requires IsListing(db, model, targets)
    ensures url in targets <==>
              exists id :: id in db.deployments && IsTarget(db, model, db.deployments[id]) &&
                db.deployments[id].serviceUrl == url
  {
    var ids :| IsCursor(db, model, ids) && |targets| == |ids| &&
      forall i :: 0 <= i < |ids| ==> targets[i] == db.deployments[ids[i]].serviceUrl;
    hide IsTarget;
    if url in targets {
      var i :| 0 <= i < |targets| && targets[i] == url;
      assert ids[i] in ids;
    }
    if id :| id in db.deployments && IsTarget(db, model, db.deployments[id]) && db.deployments[id].serviceUrl == url {
      assert id in ids;
      var i :| 0 <= i < |ids| && ids[i] == id;
      assert targets[i] == url;
    }
  }

  /** The listed URLs, in the terms of the query. */
  lemma ListedUrls(db: Db, model: string, targets: seq<string>, url: string)
    requires IsListing(db, model, targets)
    ensures url in targets <==>
              exists id :: id in db.deployments && db.deployments[id].model == model && db.deployments[id].status.Active? &&
                db.deployments[id].serviceUrl == url && url != "" && db.deployments[id].cluster in db.clusters &&
                db.clusters[db.deployments[id].cluster].status.Active?
  {
    ListingMembers(db, model, targets, url);
    hide IsListing;
  }

  /** Each row is listed once, the latest update first. */
  lemma ListedLatestFirst(db: Db, model: string, targets: seq<string>) returns (ids: seq<Id>)
    requires IsListing(db, model, targets)
    ensures |ids| == |targets|
    ensures forall i :: 0 <= i < |ids| ==> ids[i] in db.deployments && db.deployments[ids[i]].serviceUrl == targets[i]
    ensures forall i, j :: 0 <= i < j < |ids| ==>
              ids[i] != ids[j] && db.deployments[ids[i]].updatedAt >= db.deployments[ids[j]].updatedAt
  {
    ids :| IsCursor(db, model, ids) && |targets| == |ids| &&
      forall i :: 0 <= i < |ids| ==> targets[i] == db.deployments[ids[i]].serviceUrl;
    hide IsTarget;
    assert forall i :: 0 <= i < |ids| ==> ids[i] in ids;
  }

  /** What deleted and failed deployments and those of other clusters say stays as it is; the others take the status. */
  lemma CascadeSpares(db: Db, c: Id, status: DeploymentStatus, fault: Fault, now: int)
    requires !fault.Refused?
    ensures var db' := Called(db, SetStatusByCluster(c, status), fault, now);
            && db' == db.(deployments := db'.deployments) && db'.deployments.Keys == db.deployments.Keys
            && forall d :: d in db.deployments ==>
                 var row, row' := db.deployments[d], db'.deployments[d];
                 if row.cluster != c || row.status.Deleted? || row.status.Failed? then row' == row
                 else row'.status == status && row' == row.(status := status, updatedAt := row'.updatedAt)
  {
  }

  /** Once the deployments of a cluster are orphaned, the listed URLs are exactly those of targets on other clusters. */
  lemma OrphanedAreNotListed(db: Db, c: Id, fault: Fault, now: int, model: string, targets: seq<string>, url: string)
    requires !fault.Refused?
    requires IsListing(Called(db, SetStatusByCluster(c, Orphaned), fault, now), model, targets)
    ensures url in targets <==>
              exists d :: d in db.deployments && IsTarget(db, model, db.deployments[d]) &&
                db.deployments[d].serviceUrl == url && db.deployments[d].cluster != c
  {
    var db' := Called(db, SetStatusByCluster(c, Orphaned), fault, now);
    ListingMembers(db', model, targets, url);
    CascadeSpares(db, c, Orphaned, fault, now);
    hide IsListing, Called;
    forall d | d in db.deployments
      ensures IsTarget(db', model, db'.deployments[d]) <==>
              IsTarget(db, model, db.deployments[d]) && db.deployments[d].cluster != c
      ensures db'.deployments[d].serviceUrl == db.deployments[d].serviceUrl
    {
    }
    hide IsTarget;
  }

  // ----- The store -----

  class PostgresStore {
    var orgs: map<Id, string>
    var clusters: map<Id, ClusterRow>
    var deployments: map<Id, DeploymentRow>
    var jobs: map<Id, JobRow>

    function Contents(): Db
      reads this
    {
      Db(orgs, clusters, deployments, jobs)
    }

    method CreateOrganization(id: Id, name: string, fault: Fault) returns (ok: bool)
      modifies this
      ensures Contents() == Called(old(Contents()), InsertOrg(id, name), fault, 0)
      ensures ok == Succeeds(old(Contents()), InsertOrg(id, name), fault)
    {
      if id in orgs || name in orgs.Values {
        return false;
      }
      if !fault.Refused? {
        orgs := orgs[id := name];
      }
      ok := fault.Answered?;
    }

    /** None: there is no such row, or the query failed. */
    method GetOrganizationByName(name: string, fault: Fault) returns (r: Option<Id>)
      ensures r.Some? ==> fault.Answered? && r.value in orgs && orgs[r.value] == name
      ensures r.None? ==> !fault.Answered? || forall o :: o in orgs ==> orgs[o] != name
    {
      if fault.Answered? && exists o :: o in orgs && orgs[o] == name {
        var o :| o in orgs && orgs[o] == name;
        return Some(o);
      }
      r := None;
    }

    method GetClusterByName(name: string, fault: Fault) returns (r: Option<Id>)
      ensures r.Some? ==> fault.Answered? && r.value in clusters && clusters[r.value].name == name
      ensures r.None? ==> !fault.Answered? || forall c :: c in clusters ==> clusters[c].name != name
    {
      if fault.Answered? && exists c :: c in clusters && clusters[c].name == name {
        var c :| c in clusters && clusters[c].name == name;
        return Some(c);
      }
      r := None;
    }

    method CreateCluster(id: Id, row: ClusterRow, fault: Fault) returns (ok: bool)
      modifies this
      ensures Contents() == Called(old(Contents()), InsertCluster(id, row), fault, 0)
      ensures ok == Succeeds(old(Contents()), InsertCluster(id, row), fault)
    {
      if id in clusters || row.org !in orgs ||
         exists c :: c in clusters && clusters[c].org == row.org && clusters[c].name == row.name {
        return false;
      }
      if !fault.Refused? {
        clusters := clusters[id := row];
      }
      ok := fault.Answered?;
    }

    method UpdateClusterStatus(id: Id, status: ClusterStatus, fault: Fault) returns (ok: bool)
      modifies this
      ensures Contents() == Called(old(Contents()), SetClusterStatus(id, status), fault, 0)
      ensures ok == fault.Answered?
    {
      if !fault.Refused? && id in clusters {
        clusters := clusters[id := clusters[id].(status := status)];
      }
      ok := fault.Answered?;
    }

    method UpdateClusterDetails(id: Id, status: ClusterStatus, kubeconfig: StoredText, publicIp: string, fault: Fault)
        returns (ok: bool)
      modifies this
      ensures Contents() == Called(old(Contents()), SetClusterDetails(id, status, kubeconfig, publicIp), fault, 0)
      ensures ok == fault.Answered?
    {
      if !fault.Refused? && id in clusters {
        clusters := clusters[id := clusters[id].(status := status, kubeconfig := kubeconfig, publicIp := publicIp)];
      }
      ok := fault.Answered?;
    }

    method ResetClusterRow(id: Id, region: string, status: ClusterStatus, fault: Fault) returns (ok: bool)
      modifies this
      ensures Contents() == Called(old(Contents()), ResetCluster(id, region, status), fault, 0)
      ensures ok == fault.Answered?
    {
      if !fault.Refused? && id in clusters {
        clusters := clusters[id := clusters[id].(status := status, region := region,
                                                 kubeconfig := NO_KUBECONFIG, publicIp := "")];
      }
      ok := fault.Answered?;
    }

    method CreateDeployment(id: Id, row: DeploymentRow, fault: Fault) returns (ok: bool)
      modifies this
      ensures Contents() == Called(old(Contents()), InsertDeployment(id, row), fault, 0)
      ensures ok == Succeeds(old(Contents()), InsertDeployment(id, row), fault)
    {
      if id in deployments || row.cluster !in clusters {
        return false;
      }
      if !fault.Refused? {
        deployments := deployments[id := row];
      }
      ok := fault.Answered?;
    }

    method UpdateDeploymentStatus(id: Id, status: DeploymentStatus, fault: Fault, now: int) returns (ok: bool)
      modifies this
      ensures Contents() == Called(old(Contents()), SetDeploymentStatus(id, status), fault, now)
      ensures ok == fault.Answered?
    {
      if !fault.Refused? && id in deployments {
        deployments := deployments[id := deployments[id].(status := status, updatedAt := now)];
      }
      ok := fault.Answered?;
    }

    method UpdateDeploymentServiceURL(id: Id, status: DeploymentStatus, url: string, fault: Fault, now: int)
        returns (ok: bool)
      modifies this
      ensures Contents() == Called(old(Contents()), SetServiceUrl(id, status, url), fault, now)
      ensures ok == fault.Answered?
    {
      if !fault.Refused? && id in deployments {
        deployments := deployments[id := deployments[id].(status := status, serviceUrl := url, updatedAt := now)];
      }
      ok := fault.Answered?;
    }

    method UpdateDeploymentsStatusByCluster(cluster: Id, status: DeploymentStatus, fault: Fault, now: int)
        returns (ok: bool)
      modifies this
      ensures Contents() == Called(old(Contents()), SetStatusByCluster(cluster, status), fault, now)
      ensures ok == fault.Answered?
    {
      if !fault.Refused? {
        deployments := map id | id in deployments :: Cascaded(deployments[id], cluster, status, now);
      }
      ok := fault.Answered?;
    }

    method CreateJob(id: Id, row: JobRow, fault: Fault) returns (ok: bool)
      modifies this
      ensures Contents() == Called(old(Contents()), InsertJob(id, row), fault, 0)
      ensures ok == Succeeds(old(Contents()), InsertJob(id, row), fault)
    {
      if id in jobs || (row.cluster.Some? && row.cluster.value !in clusters) ||
         (row.deployment.Some? && row.deployment.value !in deployments) {
        return false;
      }
      if !fault.Refused? {
        jobs := jobs[id := row];
      }
      ok := fault.Answered?;
    }

    method UpdateJobStatus(id: Id, status: JobStatus, message: string, fault: Fault, now: int) returns (ok: bool)
      modifies this
      ensures Contents() == Called(old(Contents()), SetJobStatus(id, status, message), fault, now)
      ensures ok == fault.Answered?
    {
      if !fault.Refused? && id in jobs {
        jobs := jobs[id := UpdatedJob(jobs[id], status, message, now)];
      }
      ok := fault.Answered?;
    }

    /** `cursor` is the order in which Postgres returns the matching rows; `opens` says that the query can be made,
        `scanned` how many rows arrive before the connection fails, if it does, and `closes` that no error follows
        the last row. */
    method ListActiveDeploymentTargets(model: string, cursor: seq<Id>, opens: bool, scanned: nat, closes: bool)
        returns (r: Option<seq<string>>)
      requires IsCursor(Contents(), model, cursor)
      ensures r.Some? <==> opens && scanned >= |cursor| && closes
      ensures r.Some? ==> IsListing(Contents(), model, r.value)
    {
      if !opens {
        return None;
      }
      var targets: seq<string> := [];
      for i := 0 to |cursor|
        invariant |targets| == i <= scanned
        invariant forall k :: 0 <= k < i ==> cursor[k] in deployments && targets[k] == deployments[cursor[k]].serviceUrl
      {
        assert cursor[i] in cursor;
        if i >= scanned {
          return None;
        }
        targets := targets + [deployments[cursor[i]].serviceUrl];
      }
      r := if closes then Some(targets) else None;
    }
  }
}
