/** The lifecycle protocol: request handlers and worker attempts, any number at once, as processes that take one
    store call, queue call or external call at a time; every call may fail and every process may crash
    (internal/http/handlers/provision.go, internal/http/handlers/deploy.go, internal/worker/server.go,
    internal/worker/client.go).

    The queue holds a task under its ID from the moment it is enqueued until it is done or dropped; while it is held
    it may be attempted any number of times, also by several workers at once. */
module Lifecycle {
  import opened Common
  import opened Kubeconfig
  import opened Store
  import opened Text
  import opened MigrationFiles

  /** What a task carries. A destroy request that finds no cluster row carries no cluster id. */
  datatype Payload =
    | ProvisionTask(job: Id, cluster: Id, stack: string)
    | DeployTask(job: Id, deployment: Id, cluster: Id, model: string, nodePort: nat)
    | DeleteTask(job: Id, deployment: Id, cluster: Id, model: string)
    | DestroyTask(job: Id, target: Option<Id>, stack: string)

  datatype TaskId = ProvisionId(cluster: Id) | DeployId(deployment: Id) | DeleteId(deployment: Id) | DestroyId(stack: string)

  function TaskIdOf(p: Payload): TaskId {
    match p
    case ProvisionTask(_, c, _) => ProvisionId(c)
    case DeployTask(_, d, _, _, _) => DeployId(d)
    case DeleteTask(_, d, _, _) => DeleteId(d)
    case DestroyTask(_, _, stack) => DestroyId(stack)
  }

  /** The job record of a request; without a cluster id the INSERT is rejected, and deletes never make one. */
  function JobRecord(p: Payload): Option<JobRow> {
    match p
    case ProvisionTask(_, c, _) => Some(QueuedJob(ProvisionCluster, Some(c), None))
    case DeployTask(_, d, c, _, _) => Some(QueuedJob(DeployModel, Some(c), Some(d)))
    case DeleteTask(_, _, _, _) => None
    case DestroyTask(_, t, _) => if t.Some? then Some(QueuedJob(DestroyCluster, t, None)) else None
  }

  function QueuedJob(kind: TaskKind, cluster: Option<Id>, deployment: Option<Id>): JobRow {
    JobRow(kind, cluster, deployment, Queued, None, 0, None, None)
  }

  /** What Pulumi and SSH bring, with the nonce the kubeconfig is sealed with. */
  datatype Outputs = Outputs(nonce: ByteString, fetched: ByteString, ip: Address)

  /** One run of Pulumi and SSH: whose job it was, for which cluster, and what it brought. */
  datatype ProvisionRun = ProvisionRun(job: Id, cluster: Id, outputs: Outputs)

  function RunOf(p: Payload, outputs: Outputs): ProvisionRun {
    ProvisionRun(p.job, if p.ProvisionTask? then p.cluster else 0, outputs)
  }

  function KubeconfigOf(cipher: Option<Aead>, run: ProvisionRun): StoredText {
    Stored(cipher, run.outputs.nonce, run.outputs.fetched, AsciiBytes(run.outputs.ip))
  }

  function ServiceUrl(ip: string, nodePort: nat): string {
    "http://" + JoinHostPort(ip, Decimal(nodePort))
  }

  /** The digits of a number, without a leading zero. */
  predicate IsPort(p: string, n: nat) {
    p != [] && AllDigits(p) && Value(p) == n && (p[0] == '0' ==> p == "0")
  }

  /** An http URL of a host, in brackets if it is an IPv6 address, and a port. */
  ghost predicate IsHttpUrl(url: string, host: string, port: nat) {
    exists p :: IsPort(p, port) &&
      url == if ':' !in host then "http://" + host + ":" + p else "http://[" + host + "]:" + p
  }

  /** What is stored is such a URL. */
  lemma ServiceUrlIsHttp(ip: string, nodePort: nat)
    ensures IsHttpUrl(ServiceUrl(ip, nodePort), ip, nodePort)
  {
    var p := Decimal(nodePort);
    NoLeadingZero(nodePort);
    assert IsPort(p, nodePort);
    hide Decimal, Value, AllDigits;
    assert "http://" + ("[" + ip + "]:" + p) == "http://[" + ip + "]:" + p;
    assert "http://" + (ip + ":" + p) == "http://" + ip + ":" + p;
  }

  /** Splitting it behind "http://" at the last colon gives the host, in its brackets if it has any, and the port. */
  lemma ServiceUrlSplits(ip: string, nodePort: nat, i: nat)
    requires 7 <= i < |ServiceUrl(ip, nodePort)| && ServiceUrl(ip, nodePort)[i] == ':'
    requires ':' !in ServiceUrl(ip, nodePort)[i + 1..]
    ensures IsPort(ServiceUrl(ip, nodePort)[i + 1..], nodePort)
    ensures ServiceUrl(ip, nodePort)[7..i] == if ':' !in ip then ip else "[" + ip + "]"
  {
    var p := Decimal(nodePort);
    NoLeadingZero(nodePort);
    assert forall k :: 0 <= k < |p| ==> IsDigit(p[k]);
    hide Decimal, Value;
    var url, t := ServiceUrl(ip, nodePort), JoinHostPort(ip, p);
    hide JoinHostPort;
    assert url[i + 1..] == t[i - 7 + 1..] && url[7..i] == t[..i - 7] && t[i - 7] == ':';
    HostAndPort(ip, p, i - 7);
  }

  // ----- Processes -----

  datatype Proc =
    | FindOrg(stack: string)
    | AddOrg(stack: string)
    | FindOrgAgain(stack: string)
    | FindCluster(stack: string, org: Id)
    | Reset(stack: string, cluster: Id)
    | AddCluster(stack: string, org: Id)
    | FindForDestroy(stack: string)
    | FindForDeploy(name: string, namespace: string, nodePort: nat)
    | AddDeployment(model: string, namespace: string, nodePort: nat, cluster: Id)
    | FindForDelete(deployment: Id)
    | AddJob(payload: Payload)
    | Enqueue(payload: Payload)
    | Attempt(payload: Payload, calls: seq<Statement>, stage: Stage)

  /** What an attempt does once the store calls whose results it ignores are made. */
  datatype Stage =
    | RunPulumi
    | SaveCluster(run: ProvisionRun)
    | ReadCluster
    | ApplyModel(ip: string)
    | AwaitHealth(ip: string)
    | SaveUrl(ip: string)
    | RemoveModel
    | SaveDeleted
    | RunPulumiDestroy
    | SaveDestroyed
    | End(ok: bool)

  /** What the environment decides in one step: how the store or queue call ends, whether an external call works and
      what it brings, which row a listing puts first, and fresh UUIDs. */
  datatype Choice = Choice(
    fault: Fault, works: bool, outputs: Outputs, pick: Id, message: string, region: string, now: int, row: Id, job: Id)

  /** The calls with which the worker begins an attempt. */
  function FirstCalls(p: Payload): seq<Statement> {
    match p
    case ProvisionTask(j, c, _) => [SetClusterStatus(c, Installing), SetJobStatus(j, JobStatus.Running, "")]
    case DeployTask(j, d, _, _, _) => [SetDeploymentStatus(d, Building), SetJobStatus(j, JobStatus.Running, "")]
    case DeleteTask(j, d, _, _) => [SetDeploymentStatus(d, Deleting), SetJobStatus(j, JobStatus.Running, "")]
    case DestroyTask(j, t, _) =>
      [SetJobStatus(j, JobStatus.Running, "")] + if t.Some? then [SetClusterStatus(t.value, Destroying)] else []
  }

  function FirstStage(p: Payload): Stage {
    match p
    case ProvisionTask(_, _, _) => RunPulumi
    case DeployTask(_, _, _, _, _) => ReadCluster
    case DeleteTask(_, _, _, _) => ReadCluster
    case DestroyTask(_, _, _) => RunPulumiDestroy
  }

  /** The calls with which an attempt gives up after an external failure. */
  function FailCalls(p: Payload, message: string): seq<Statement> {
    match p
    case ProvisionTask(j, c, _) => [SetClusterStatus(c, ClusterStatus.Failed), SetJobStatus(j, JobStatus.Failed, message)]
    case DeployTask(j, d, _, _, _) =>
      [SetDeploymentStatus(d, DeploymentStatus.Failed), SetJobStatus(j, JobStatus.Failed, message)]
    case DeleteTask(j, d, _, _) =>
      [SetDeploymentStatus(d, DeploymentStatus.Failed), SetJobStatus(j, JobStatus.Failed, message)]
    case DestroyTask(j, t, _) =>
      (if t.Some? then [SetClusterStatus(t.value, ClusterStatus.Failed)] else []) +
      [SetJobStatus(j, JobStatus.Failed, message)]
  }

  function Fails(p: Payload, message: string): Option<Proc> {
    Some(Attempt(p, FailCalls(p, message), End(false)))
  }

  /** failJob alone, where the source leaves the resource's row as it is. */
  function FailsJob(p: Payload, message: string): Option<Proc> {
    Some(Attempt(p, [SetJobStatus(p.job, JobStatus.Failed, message)], End(false)))
  }

  function Completes(p: Payload, before: seq<Statement>): Option<Proc> {
    Some(Attempt(p, before + [SetJobStatus(p.job, Completed, "")], End(true)))
  }

  // ----- One step of a process -----

  ghost function OrgNamed(db: Db, name: string): Option<Id> {
    if exists o :: o in db.orgs && db.orgs[o] == name then
      var o :| o in db.orgs && db.orgs[o] == name; Some(o)
    else None
  }

  ghost function ClusterNamed(db: Db, name: string): Option<Id> {
    if exists c :: c in db.clusters && db.clusters[c].name == name then
      var c :| c in db.clusters && db.clusters[c].name == name; Some(c)
    else None
  }

  const DEFAULT_ORG := "default"

  /** The name a deploy request is stored under. */
  function DeployedName(name: string): string {
    if name == "" then "vllm" else ToLower(UnderscoresToDashes(name))
  }

  function DeployedNamespace(namespace: string): string {
    if namespace == "" then "default" else namespace
  }

  function DeployedPort(nodePort: nat): nat {
    if nodePort == 0 then 30000 else nodePort
  }

  /** The write the next step sends to Postgres, if any. */
  function StatementOf(cipher: Option<Aead>, p: Proc, c: Choice): Option<Statement> {
    match p
    case AddOrg(_) => Some(InsertOrg(c.row, DEFAULT_ORG))
    case Reset(_, id) => Some(Statement.ResetCluster(id, c.region, Provisioning))
    case AddCluster(stack, org) =>
      Some(InsertCluster(c.row, ClusterRow(org, stack, c.region, Provisioning, NO_KUBECONFIG, "")))
    case AddDeployment(model, namespace, port, cluster) =>
      Some(InsertDeployment(c.row, DeploymentRow(cluster, model, namespace, port, Pending, "", c.now)))
    case AddJob(payload) =>
      if JobRecord(payload).Some? then Some(InsertJob(payload.job, JobRecord(payload).value)) else None
    case Attempt(payload, calls, stage) =>
      if calls != [] then Some(calls[0])
      else if stage.SaveCluster? && payload.ProvisionTask? then
        Some(SetClusterDetails(payload.cluster, ClusterStatus.Active, KubeconfigOf(cipher, stage.run), stage.run.outputs.ip))
      else if stage.SaveDestroyed? && payload.DestroyTask? && payload.target.Some? then
        Some(SetClusterDetails(payload.target.value, Destroyed, NO_KUBECONFIG, ""))
      else if stage.SaveUrl? && payload.DeployTask? then
        Some(SetServiceUrl(payload.deployment, DeploymentStatus.Active, ServiceUrl(stage.ip, payload.nodePort)))
      else if stage.SaveDeleted? && payload.DeleteTask? then
        Some(SetDeploymentStatus(payload.deployment, DeploymentStatus.Deleted))
      else None
    case _ => None
  }

  /** Where a handler goes; `ok` says that its call succeeded. None: the request is answered. */
  ghost function AfterHandler(db: Db, p: Proc, c: Choice, ok: bool): Option<Proc>
    requires !p.Attempt?
  {
    match p
    case FindOrg(stack) =>
      var o := OrgNamed(db, DEFAULT_ORG);
      if ok && o.Some? then Some(FindCluster(stack, o.value)) else Some(AddOrg(stack))
    case AddOrg(stack) =>
      if ok then Some(FindCluster(stack, c.row)) else Some(FindOrgAgain(stack))
    case FindOrgAgain(stack) =>
      var o := OrgNamed(db, DEFAULT_ORG);
      if ok && o.Some? then Some(FindCluster(stack, o.value)) else None
    case FindCluster(stack, org) =>
      var found := ClusterNamed(db, stack);
      if ok && found.Some? then
        var status := db.clusters[found.value].status;
        if status.Destroyed? || status.Failed? then Some(Reset(stack, found.value)) else None
      else Some(AddCluster(stack, org))
    case Reset(stack, cluster) =>
      if ok then Some(AddJob(ProvisionTask(c.job, cluster, stack))) else None
    case AddCluster(stack, _) =>
      if ok then Some(AddJob(ProvisionTask(c.job, c.row, stack))) else None
    case FindForDestroy(stack) =>
      var found := ClusterNamed(db, stack);
      if ok && found.Some? then
        var status := db.clusters[found.value].status;
        if status.Destroyed? || status.Provisioning? || status.Installing? then None
        else Some(AddJob(DestroyTask(c.job, found, stack)))
      else Some(AddJob(DestroyTask(c.job, None, stack)))
    case FindForDeploy(name, namespace, port) =>
      if ok && c.pick in db.clusters && db.clusters[c.pick].status.Active?
      then Some(AddDeployment(DeployedName(name), DeployedNamespace(namespace), DeployedPort(port), c.pick)) else None
    case AddDeployment(model, _, port, cluster) =>
      if ok then Some(AddJob(DeployTask(c.job, c.row, cluster, model, port))) else None
    case FindForDelete(d) =>
      if ok && d in db.deployments then
        var row := db.deployments[d];
        if row.status.Deleted? || row.status.Deleting? || row.status.Orphaned? then None
        else Some(Enqueue(DeleteTask(c.job, d, row.cluster, row.model)))
      else None
    case AddJob(payload) => Some(Enqueue(payload))
    case Enqueue(_) => None
  }

  /** Where a worker attempt goes. None: the attempt returns to the queue. */
  function AfterAttempt(db: Db, payload: Payload, calls: seq<Statement>, stage: Stage, c: Choice, ok: bool): Option<Proc> {
    if calls != [] then Some(Attempt(payload, calls[1..], stage))
    else
      match stage
      case RunPulumi =>
        if c.works then Some(Attempt(payload, [], SaveCluster(RunOf(payload, c.outputs)))) else Fails(payload, c.message)
      case SaveCluster(_) =>
        if ok then Completes(payload, []) else Fails(payload, c.message)
      case ReadCluster =>
        var cluster := if payload.DeployTask? || payload.DeleteTask? then payload.cluster else 0;
        if payload.DeployTask? then
          if ok && cluster in db.clusters then Some(Attempt(payload, [], ApplyModel(db.clusters[cluster].publicIp)))
          else Fails(payload, c.message)
        else if ok && cluster in db.clusters then Some(Attempt(payload, [], RemoveModel))
        else FailsJob(payload, c.message)
      case ApplyModel(ip) =>
        if c.works && payload.DeployTask?
        then Some(Attempt(payload, [SetDeploymentStatus(payload.deployment, Deploying)], AwaitHealth(ip)))
        else Fails(payload, c.message)
      case AwaitHealth(ip) =>
        if c.works then Some(Attempt(payload, [], SaveUrl(ip))) else Fails(payload, c.message)
      case SaveUrl(_) =>
        if ok then Completes(payload, []) else FailsJob(payload, c.message)
      case RemoveModel =>
        if c.works then Some(Attempt(payload, [], SaveDeleted)) else Fails(payload, c.message)
      case SaveDeleted =>
        if ok then Completes(payload, []) else Some(Attempt(payload, [], End(false)))
      case RunPulumiDestroy =>
        if !c.works || !payload.DestroyTask? then Fails(payload, c.message)
        else if payload.target.None? then Completes(payload, [])
        else Some(Attempt(payload, [], SaveDestroyed))
      case SaveDestroyed =>
        if ok && payload.DestroyTask? && payload.target.Some?
        then Completes(payload, [SetStatusByCluster(payload.target.value, Orphaned)])
        else FailsJob(payload, c.message)
      case End(_) => None
  }

  ghost function After(db: Db, p: Proc, c: Choice, ok: bool): Option<Proc> {
    if p.Attempt? then AfterAttempt(db, p.payload, p.calls, p.stage, c, ok) else AfterHandler(db, p, c, ok)
  }

  // ----- The whole system -----

  /** The image of a row that an attempt of the job has written. */
  datatype Write =
    | ClusterWrite(job: Id, cluster: Id, row: ClusterRow)
    | DeploymentWrite(job: Id, deployment: Id, deploymentRow: DeploymentRow)

  /** `used`, `issued`, `writes` and `runs` record what has happened: the UUIDs drawn, the payload made for each job
      id, the row images that attempts have written, and the runs of Pulumi and SSH. */
  datatype World = World(
    db: Db, queue: map<TaskId, Payload>, procs: map<nat, Proc>,
    used: set<Id>, issued: map<Id, Payload>, writes: seq<Write>, runs: seq<ProvisionRun>)

  const INIT := World(EMPTY, map[], map[], {}, map[], [], [])

  datatype Event =
    | Request(proc: nat, start: Proc)
    | PickUp(proc: nat, task: TaskId)
    | Step(proc: nat, choice: Choice)
    | Crash(proc: nat)
    | Release(task: TaskId)

  predicate IsStart(p: Proc) {
    p.FindOrg? || p.FindForDestroy? || p.FindForDeploy? || p.FindForDelete?
  }

  /** The row that an attempt's UPDATE of one row has left. */
  function Written(db: Db, s: Statement, job: Id): seq<Write> {
    if (s.SetClusterStatus? || s.SetClusterDetails?) && s.cluster in db.clusters
    then [ClusterWrite(job, s.cluster, db.clusters[s.cluster])]
    else if (s.SetDeploymentStatus? || s.SetServiceUrl?) && s.deployment in db.deployments
    then [DeploymentWrite(job, s.deployment, db.deployments[s.deployment])]
    else []
  }

  function Following(procs: map<nat, Proc>, t: nat, p: Option<Proc>): map<nat, Proc> {
    if p.Some? then procs[t := p.value] else procs - {t}
  }

  /** The queue after a step: an enqueue is refused while the ID is held; an attempt that succeeds removes its task. */
  function QueueAfter(queue: map<TaskId, Payload>, p: Proc, c: Choice): map<TaskId, Payload> {
    if p.Enqueue? && !c.fault.Refused? && TaskIdOf(p.payload) !in queue then queue[TaskIdOf(p.payload) := p.payload]
    else if p.Attempt? && p.calls == [] && p.stage == End(true) then queue - {TaskIdOf(p.payload)}
    else queue
  }

  function RunsAfter(runs: seq<ProvisionRun>, p: Proc, c: Choice): seq<ProvisionRun> {
    if p.Attempt? && p.calls == [] && p.stage.RunPulumi? && c.works
    then runs + [RunOf(p.payload, c.outputs)] else runs
  }

  function IssuedAfter(issued: map<Id, Payload>, next: Option<Proc>, c: Choice): map<Id, Payload> {
    if next.Some? && (next.value.AddJob? || next.value.Enqueue?) && next.value.payload.job == c.job
    then issued[c.job := next.value.payload] else issued
  }

  /** The tables after the step's write, if it makes one. */
  ghost function DbAfter(cipher: Option<Aead>, db: Db, p: Proc, c: Choice): Db {
    var s := StatementOf(cipher, p, c);
    if s.Some? then Called(db, s.value, c.fault, c.now) else db
  }

  ghost predicate CallOk(cipher: Option<Aead>, db: Db, p: Proc, c: Choice) {
    var s := StatementOf(cipher, p, c);
    c.fault.Answered? && (s.Some? ==> !Violates(db, s.value))
  }

  function WritesAfter(cipher: Option<Aead>, writes: seq<Write>, db: Db, p: Proc, c: Choice): seq<Write> {
    var s := StatementOf(cipher, p, c);
    if p.Attempt? && s.Some? && !c.fault.Refused? then writes + Written(db, s.value, p.payload.job) else writes
  }

  ghost function StepOf(cipher: Option<Aead>, w: World, t: nat, p: Proc, c: Choice): World {
    var db := DbAfter(cipher, w.db, p, c);
    var next := After(w.db, p, c, CallOk(cipher, w.db, p, c));
    World(db, QueueAfter(w.queue, p, c), Following(w.procs, t, next), w.used + {c.row, c.job},
          IssuedAfter(w.issued, next, c), WritesAfter(cipher, w.writes, db, p, c), RunsAfter(w.runs, p, c))
  }

  ghost function Next(cipher: Option<Aead>, w: World, e: Event): World {
    match e
    case Request(t, p) =>
      if t !in w.procs && IsStart(p) then w.(procs := w.procs[t := p]) else w
    case PickUp(t, id) =>
      if t !in w.procs && id in w.queue
      then w.(procs := w.procs[t := Attempt(w.queue[id], FirstCalls(w.queue[id]), FirstStage(w.queue[id]))])
      else w
    case Step(t, c) =>
      if t in w.procs && c.row !in w.used && c.job !in w.used && c.row != c.job
      then StepOf(cipher, w, t, w.procs[t], c) else w
    case Crash(t) => w.(procs := w.procs - {t})
    case Release(id) => w.(queue := w.queue - {id})
  }

  ghost function Run(cipher: Option<Aead>, es: seq<Event>): World {
    if es == [] then INIT else Next(cipher, Run(cipher, es[..|es| - 1]), es[|es| - 1])
  }
}
