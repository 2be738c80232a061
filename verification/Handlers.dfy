/** The request handlers, statement by statement, and the queue they enqueue into: each call is a run of one process of
    the lifecycle machine, so what holds of all its reachable states holds of them
    (internal/http/handlers/provision.go, internal/http/handlers/deploy.go, internal/worker/client.go). */
module Handlers {
  import opened Common
  import opened Kubeconfig
  import opened Store
  import opened Text
  import opened Lifecycle
  import opened LifecycleSafety
  import opened LifecycleCoupling
  import opened LifecycleReports
  import opened ModelNames
  import opened Tracking

  datatype Response = Accepted(job: Id, target: Option<Id>) | Conflict(resource: Id) | NotFound | StoreError | QueueError

  /** How the calls of a provision request end. */
  datatype ProvisionFaults = ProvisionFaults(
    findOrg: Fault, addOrg: Fault, findAgain: Fault, findCluster: Fault, reset: Fault, addCluster: Fault,
    addJob: Fault, enqueue: Fault)

  predicate AllAnswered(f: ProvisionFaults) {
    && f.findOrg.Answered? && f.addOrg.Answered? && f.findAgain.Answered? && f.findCluster.Answered?
    && f.reset.Answered? && f.addCluster.Answered? && f.enqueue.Answered?
  }

  /** How the calls of a destroy request end. */
  datatype DestroyFaults = DestroyFaults(findCluster: Fault, addJob: Fault, enqueue: Fault)

  /** How the calls of a deploy request end: the lookup of the named cluster or of the default organization, the list of
      its clusters, the two INSERTs and the enqueue. */
  datatype DeployFaults = DeployFaults(find: Fault, list: Fault, addDeployment: Fault, addJob: Fault, enqueue: Fault)

  /** How the calls of a delete request end. */
  datatype DeleteFaults = DeleteFaults(findDeployment: Fault, enqueue: Fault)

  lemma OrgIsTheOne(db: Db, id: Id, name: string)
    requires OneOfEach(db) && id in db.orgs && db.orgs[id] == name
    ensures OrgNamed(db, name) == Some(id)
  {
  }

  lemma ClusterIsTheOne(db: Db, id: Id, name: string)
    requires OneOfEach(db) && id in db.clusters && db.clusters[id].name == name
    ensures ClusterNamed(db, name) == Some(id)
  {
  }

  lemma NamedOrg(cipher: Option<Aead>, w: World, r: Option<Id>, fault: Fault)
    requires Sound(cipher, w)
    requires r.Some? ==> fault.Answered? && r.value in w.db.orgs && w.db.orgs[r.value] == DEFAULT_ORG
    requires r.None? ==> !fault.Answered? || forall o :: o in w.db.orgs ==> w.db.orgs[o] != DEFAULT_ORG
    ensures r == if fault.Answered? then OrgNamed(w.db, DEFAULT_ORG) else None
  {
    hide AllCoupled, Reports;
    if r.Some? {
      OrgIsTheOne(w.db, r.value, DEFAULT_ORG);
    }
  }

  lemma NamedCluster(cipher: Option<Aead>, w: World, name: string, r: Option<Id>, fault: Fault)
    requires Sound(cipher, w)
    requires r.Some? ==> fault.Answered? && r.value in w.db.clusters && w.db.clusters[r.value].name == name
    requires r.None? ==> !fault.Answered? || forall c :: c in w.db.clusters ==> w.db.clusters[c].name != name
    ensures r == if fault.Answered? then ClusterNamed(w.db, name) else None
  {
    hide AllCoupled, Reports;
    if r.Some? {
      ClusterIsTheOne(w.db, r.value, name);
    }
  }

  // ----- Which cluster a deploy request goes to -----

  /** The clusterId field of the request. */
  datatype ClusterField = Absent | Unparseable | Given(cluster: Id)

  /** The clusters of the default organization, as ListClusters orders them. */
  ghost predicate IsClusterList(db: Db, ids: seq<Id>) {
    && (forall i, j :: 0 <= i < j < |ids| ==> ids[i] != ids[j])
    && (forall c :: c in ids <==> c in db.clusters && OrgNamed(db, DEFAULT_ORG) == Some(db.clusters[c].org))
  }

  predicate IsActiveCluster(clusters: map<Id, ClusterRow>, c: Id) {
    c in clusters && clusters[c].status.Active?
  }

  /** The named cluster if it is active; without a name, the first active one of the list. */
  method ResolveClusterId(store: PostgresStore, field: ClusterField, listed: seq<Id>, find: Fault, list: Fault)
      returns (r: Option<Id>)
    requires IsClusterList(store.Contents(), listed)
    ensures r.Some? ==> IsActiveCluster(store.clusters, r.value)
    ensures field.Given? && find.Answered? && IsActiveCluster(store.clusters, field.cluster) ==> r == Some(field.cluster)
    ensures field.Given? && r.Some? ==> r.value == field.cluster
    ensures field.Unparseable? ==> r.None?
    ensures field.Absent? && r.Some? ==>
              (exists i :: 0 <= i < |listed| && listed[i] == r.value &&
                 forall k :: 0 <= k < i ==> !IsActiveCluster(store.clusters, listed[k]))
    ensures field.Absent? && find.Answered? && list.Answered? && OrgNamed(store.Contents(), DEFAULT_ORG).Some? && r.None? ==>
              forall c :: c in listed ==> !IsActiveCluster(store.clusters, c)
  {
    r := None;
    match field
    case Unparseable =>
    case Given(c) =>
      if find.Answered? && c in store.clusters && store.clusters[c].status.Active? {
        r := Some(c);
      }
    case Absent =>
      var org := store.GetOrganizationByName(DEFAULT_ORG, find);
      if org.None? || !list.Answered? {
        return;
      }
      for i := 0 to |listed|
        invariant r.None? && forall k :: 0 <= k < i ==> !IsActiveCluster(store.clusters, listed[k])
      {
        assert listed[i] in listed;
        if store.clusters[listed[i]].status.Active? {
          return Some(listed[i]);
        }
      }
  }

  /** The active cluster that the request names or, when it names none, the first active one of the list. */
  ghost predicate IsChosen(clusters: map<Id, ClusterRow>, field: ClusterField, listed: seq<Id>, c: Id) {
    && c in clusters && clusters[c].status.Active? && !field.Unparseable?
    && (field.Given? ==> c == field.cluster)
    && (field.Absent? ==>
          exists i :: (0 <= i < |listed| && listed[i] == c &&
                       forall k :: 0 <= k < i && listed[k] in clusters ==> !clusters[listed[k]].status.Active?))
  }

  /** There is a cluster to deploy to. */
  ghost predicate HasTarget(db: Db, field: ClusterField, listed: seq<Id>) {
    match field
    case Unparseable => false
    case Given(c) => IsActiveCluster(db.clusters, c)
    case Absent => OrgNamed(db, DEFAULT_ORG).Some? && exists c :: c in listed && IsActiveCluster(db.clusters, c)
  }

  /** The small letter of an ASCII capital; any other character itself. */
  predicate IsSmall(c: char, small: char, k: int) {
    && (c !in "ABCDEFGHIJKLMNOPQRSTUVWXYZ" ==> small == c)
    && (0 <= k < 26 && c == "ABCDEFGHIJKLMNOPQRSTUVWXYZ"[k] ==> small == "abcdefghijklmnopqrstuvwxyz"[k])
  }

  /** What a request's name is stored as: "vllm" when it is empty; otherwise each underscore has become a dash and each ASCII
      capital its small letter. */
  ghost predicate IsNormalised(name: string, model: string) {
    if name == "" then model == "vllm"
    else |model| == |name| && forall i, k :: 0 <= i < |name| ==>
           if name[i] == '_' then model[i] == '-' else IsSmall(name[i], model[i], k)
  }

  // ----- The handlers -----

  predicate IsOver(status: DeploymentStatus) {
    status.Deleted? || status.Deleting? || status.Orphaned?
  }

  predicate Destroyable(status: ClusterStatus) {
    !status.Destroyed? && !status.Provisioning? && !status.Installing?
  }

  /** A row that waits for a provision task. */
  predicate IsReset(row: ClusterRow, stack: string, region: string) {
    && row.name == stack && row.region == region && row.status.Provisioning?
    && row.kubeconfig == Plain([]) && row.publicIp == ""
  }

  predicate InUse(row: ClusterRow, stack: string) {
    row.name == stack && !row.status.Destroyed? && !row.status.Failed?
  }

  ghost predicate NoStack(clusters: map<Id, ClusterRow>, stack: string) {
    forall c :: c in clusters ==> clusters[c].name != stack
  }

  ghost predicate OnlyStack(clusters: map<Id, ClusterRow>, stack: string, id: Id) {
    forall c :: c in clusters && clusters[c].name == stack ==> c == id
  }

  /** The stack is in use. */
  ghost predicate IsBusy(clusters: map<Id, ClusterRow>, stack: string) {
    exists c :: c in clusters && InUse(clusters[c], stack)
  }

  /** Nothing stands in the way of provisioning the stack: its row, if it has one, is destroyed or failed, and no task of
      that row, or of the new one, is still held. */
  ghost predicate IsFree(clusters: map<Id, ClusterRow>, held: map<TaskId, Payload>, stack: string, cluster: Id) {
    && cluster !in clusters && ProvisionId(cluster) !in held
    && forall c :: c in clusters && clusters[c].name == stack ==> !InUse(clusters[c], stack) && ProvisionId(c) !in held
  }

  /** ProvisionHandler and DeployHandler, which share their fields. */
  class RequestHandler {
    /** The store and the queue client, and the process the current call is. */
    const run: Tracker

    constructor (run: Tracker)
      ensures this.run == run
    {
      this.run := run;
    }

    method FindOrganization(t: nat, stack: string, again: bool, fault: Fault) returns (org: Option<Id>)
      requires run.At(t, Some(if again then FindOrgAgain(stack) else FindOrg(stack)))
      modifies run`machine, run`trace, run`drawn
      ensures run.At(t, if org.Some? then Some(FindCluster(stack, org.value))
                        else if again then None else Some(AddOrg(stack)))
      ensures org.Some? ==> org.value in run.store.orgs && run.store.orgs[org.value] == "default"
      ensures org.None? ==> !fault.Answered? || forall o :: o in run.store.orgs ==> run.store.orgs[o] != DEFAULT_ORG
      ensures run.drawn == old(run.drawn)
    {
      hide Sound, Steps, OrgNamed, Violates, Called, AfterAttempt, ClusterNamed;
      org := run.store.GetOrganizationByName(DEFAULT_ORG, fault);
      NamedOrg(run.cipher, run.machine, org, fault);
      ghost var c := run.ChoiceFor(fault, "", None, None);
      run.Take(t, c, run.machine.procs[t],
           if org.Some? then Some(FindCluster(stack, org.value)) else if again then None else Some(AddOrg(stack)));
    }

    method AddOrganization(t: nat, stack: string, id: Id, fault: Fault) returns (ok: bool)
      requires run.At(t, Some(AddOrg(stack))) && id in run.drawn
      modifies run`machine, run`trace, run`drawn, run.store
      ensures run.At(t, Some(if ok then FindCluster(stack, id) else FindOrgAgain(stack)))
      ensures ok ==> id in run.store.orgs && run.store.orgs[id] == "default"
      ensures run.store.clusters == old(run.store.clusters) && run.store.jobs == old(run.store.jobs)
      ensures (fault.Answered? && id !in old(run.store.orgs) &&
               (forall o :: o in old(run.store.orgs) ==> old(run.store.orgs)[o] != DEFAULT_ORG)) ==> ok
      ensures run.drawn == old(run.drawn) - {id}
    {
      hide Sound, Steps, OrgNamed, AfterAttempt, ClusterNamed;
      ghost var c := run.ChoiceFor(fault, "", Some(id), None);
      ok := run.store.CreateOrganization(id, DEFAULT_ORG, fault);
      run.Take(t, c, AddOrg(stack), Some(if ok then FindCluster(stack, id) else FindOrgAgain(stack)));
    }

    /** The default organization: found, created, or found after another request has created it first. */
    method EnsureDefaultOrganization(t: nat, stack: string, id: Id, f: ProvisionFaults) returns (org: Option<Id>)
      requires run.At(t, Some(FindOrg(stack))) && id in run.drawn && id !in run.store.orgs
      modifies run`machine, run`trace, run`drawn, run.store
      ensures run.At(t, if org.Some? then Some(FindCluster(stack, org.value)) else None)
      ensures org.Some? ==> org.value in run.store.orgs && run.store.orgs[org.value] == "default"
      ensures f.findOrg.Answered? && f.addOrg.Answered? ==> org.Some?
      ensures run.store.clusters == old(run.store.clusters) && run.store.jobs == old(run.store.jobs)
      ensures run.drawn >= old(run.drawn) - {id}
    {
      hide *;
      org := FindOrganization(t, stack, false, f.findOrg);
      if org.Some? {
        return;
      }
      var ok := AddOrganization(t, stack, id, f.addOrg);
      if ok {
        return Some(id);
      }
      org := FindOrganization(t, stack, true, f.findAgain);
    }

    /** The cluster row of the stack: reset if it was destroyed or failed, left alone otherwise. */
    method FindStack(t: nat, stack: string, org: Id, fault: Fault) returns (found: Option<Id>, free: bool)
      requires run.At(t, Some(FindCluster(stack, org)))
      modifies run`machine, run`trace, run`drawn
      ensures run.At(t, if found.None? then Some(AddCluster(stack, org))
                    else if free then Some(Reset(stack, found.value)) else None)
      ensures found.Some? ==> found.value in run.store.clusters && run.store.clusters[found.value].name == stack
      ensures found.Some? && !free ==> InUse(run.store.clusters[found.value], stack)
      ensures found.Some? && free ==> !InUse(run.store.clusters[found.value], stack)
      ensures found.None? && fault.Answered? ==> NoStack(run.store.clusters, stack)
      ensures found.Some? ==> OnlyStack(run.store.clusters, stack, found.value)
      ensures run.drawn == old(run.drawn)
    {
      hide OnlyStack, Sound, Steps, OrgNamed, Violates, Called, AfterAttempt, ClusterNamed;
      found := run.store.GetClusterByName(stack, fault);
      NamedCluster(run.cipher, run.machine, stack, found, fault);
      StackIsTheOne(run, stack, found);
      free := false;
      if found.Some? {
        var status := run.store.clusters[found.value].status;
        free := status.Destroyed? || status.Failed?;
      }
      ghost var c := run.ChoiceFor(fault, "", None, None);
      run.Take(t, c, FindCluster(stack, org),
           if found.None? then Some(AddCluster(stack, org)) else if free then Some(Reset(stack, found.value)) else None);
    }

    method ResetStack(t: nat, stack: string, id: Id, region: string, job: Id, fault: Fault) returns (ok: bool)
      requires run.At(t, Some(Reset(stack, id))) && job in run.drawn && id in run.store.clusters
      modifies run`machine, run`trace, run`drawn, run.store
      ensures run.At(t, if ok then Some(AddJob(ProvisionTask(job, id, stack))) else None) && ok == fault.Answered?
      ensures ok ==> id in run.store.clusters && IsReset(run.store.clusters[id], old(run.store.clusters)[id].name, region)
      ensures run.store.jobs == old(run.store.jobs)
    {
      hide Sound, Steps, OrgNamed, AfterAttempt, ClusterNamed;
      ghost var c := run.ChoiceFor(fault, region, None, Some(job));
      ok := run.store.ResetClusterRow(id, region, Provisioning, fault);
      run.Take(t, c, Reset(stack, id), if ok then Some(AddJob(ProvisionTask(job, id, stack))) else None);
    }

    method AddStack(t: nat, stack: string, org: Id, id: Id, region: string, job: Id, fault: Fault) returns (ok: bool)
      requires run.At(t, Some(AddCluster(stack, org))) && id in run.drawn && job in run.drawn && id != job
      modifies run`machine, run`trace, run`drawn, run.store
      ensures run.At(t, if ok then Some(AddJob(ProvisionTask(job, id, stack))) else None)
      ensures ok ==> id in run.store.clusters && IsReset(run.store.clusters[id], stack, region)
      ensures run.store.jobs == old(run.store.jobs)
      ensures (fault.Answered? && id !in old(run.store.clusters) && org in old(run.store.orgs) &&
               NoStack(old(run.store.clusters), stack)) ==> ok
    {
      hide Sound, Steps, OrgNamed, AfterAttempt, ClusterNamed;
      ghost var c := run.ChoiceFor(fault, region, Some(id), Some(job));
      ok := run.store.CreateCluster(id, ClusterRow(org, stack, region, Provisioning, NO_KUBECONFIG, ""), fault);
      run.Take(t, c, AddCluster(stack, org), if ok then Some(AddJob(ProvisionTask(job, id, stack))) else None);
    }

    /** CreateJobRecord; a failed INSERT is only logged. */
    method CreateJobRecord(p: Payload, fault: Fault)
      modifies run.store
      ensures run.store.Contents() ==
                if JobRecord(p).Some? then Called(old(run.store.Contents()), InsertJob(p.job, JobRecord(p).value), fault, 0)
                else old(run.store.Contents())
      ensures p.job in run.store.jobs <==>
                p.job in old(run.store.jobs) ||
                (JobRecord(p).Some? && !fault.Refused? &&
                 !Violates(old(run.store.Contents()), InsertJob(p.job, JobRecord(p).value)))
      ensures p.job in run.store.jobs && p.job !in old(run.store.jobs) ==> JobRecord(p) == Some(run.store.jobs[p.job])
      ensures run.store.clusters == old(run.store.clusters) && run.store.deployments == old(run.store.deployments)
    {
      if JobRecord(p).Some? {
        var ok := run.store.CreateJob(p.job, JobRecord(p).value, fault);
      }
    }

    method RecordJob(t: nat, p: Payload, fault: Fault)
      requires run.At(t, Some(AddJob(p)))
      modifies run`machine, run`trace, run`drawn, run.store
      ensures run.At(t, Some(Enqueue(p)))
      ensures run.store.clusters == old(run.store.clusters) && run.store.deployments == old(run.store.deployments)
      ensures p.job !in old(run.store.jobs) && ClusterExists(run.store.clusters, p) ==>
                (p.job in run.store.jobs <==> JobRecord(p).Some? && !fault.Refused?)
      ensures p.job in run.store.jobs && p.job !in old(run.store.jobs) ==> JobRecord(p) == Some(run.store.jobs[p.job])
    {
      RecordFits(run, t, p);
      hide Sound, Steps, JobRecord, Violates, Called, AfterAttempt, OrgNamed, ClusterNamed;
      ghost var c := run.ChoiceFor(fault, "", None, None);
      CreateJobRecord(p, fault);
      run.Take(t, c, AddJob(p), Some(Enqueue(p)));
    }

    method EnqueueTask(t: nat, p: Payload, fault: Fault) returns (ok: bool)
      requires run.At(t, Some(Enqueue(p)))
      modifies run`machine, run`trace, run`drawn, run.client
      ensures run.At(t, None)
      ensures ok == (fault.Answered? && TaskIdOf(p) !in old(run.client.held))
      ensures ok ==> run.client.held == old(run.client.held)[TaskIdOf(p) := p]
    {
      hide Sound, Steps, TaskIdOf, OrgNamed, Violates, Called, AfterAttempt, ClusterNamed;
      ghost var c := run.ChoiceFor(fault, "", None, None);
      ok := run.client.Enqueue(p, fault);
      run.Take(t, c, Enqueue(p), None);
    }

    /** From the created or reset row on. */
    method RecordAndEnqueue(t: nat, p: Payload, addJob: Fault, enqueue: Fault) returns (ok: bool)
      requires run.At(t, Some(AddJob(p)))
      modifies run`machine, run`trace, run`drawn, run.store, run.client
      ensures run.At(t, None)
      ensures run.store.clusters == old(run.store.clusters) && run.store.deployments == old(run.store.deployments)
      ensures p.job !in old(run.store.jobs) && ClusterExists(run.store.clusters, p) ==>
                (p.job in run.store.jobs <==> JobRecord(p).Some? && !addJob.Refused?)
      ensures p.job in run.store.jobs && p.job !in old(run.store.jobs) ==> JobRecord(p) == Some(run.store.jobs[p.job])
      ensures ok == (enqueue.Answered? && TaskIdOf(p) !in old(run.client.held))
      ensures ok ==> run.client.held == old(run.client.held)[TaskIdOf(p) := p]
    {
      hide *;
      RecordJob(t, p, addJob);
      ok := EnqueueTask(t, p, enqueue);
    }

    /** The row for the stack, new or reset; none when the stack is in use or a call fails. */
    method ReserveStack(t: nat, stack: string, region: string, org: Id, cluster: Id, job: Id, f: ProvisionFaults,
                        ghost held: map<TaskId, Payload>)
        returns (id: Option<Id>, inUse: Option<Id>)
      requires run.At(t, Some(FindCluster(stack, org))) && cluster in run.drawn && job in run.drawn && cluster != job
      modifies run`machine, run`trace, run`drawn, run.store
      ensures run.At(t, if id.Some? then Some(AddJob(ProvisionTask(job, id.value, stack))) else None)
      ensures id.Some? ==>
                inUse.None? && id.value in run.store.clusters && IsReset(run.store.clusters[id.value], stack, region)
      ensures run.store.jobs == old(run.store.jobs)
      ensures (f.findCluster.Answered? && f.reset.Answered? && f.addCluster.Answered? && org in old(run.store.orgs) &&
               IsFree(old(run.store.clusters), held, stack, cluster)) ==>
                id.Some? && ProvisionId(id.value) !in held
      ensures f.findCluster.Answered? && IsBusy(old(run.store.clusters), stack) ==> inUse.Some? && id.None?
      ensures inUse.Some? ==>
                && run.store.clusters == old(run.store.clusters) && inUse.value in run.store.clusters
                && InUse(run.store.clusters[inUse.value], stack)
    {
      hide *;
      var found, free := FindStack(t, stack, org, f.findCluster);
      id, inUse := None, None;
      FreeMeans(run.store.clusters, held, stack, cluster, found);
      BusyMeans(run.store.clusters, stack, found);
      if found.None? {
        var ok := AddStack(t, stack, org, cluster, region, job, f.addCluster);
        id := if ok then Some(cluster) else None;
      } else if free {
        var ok := ResetStack(t, stack, found.value, region, job, f.reset);
        id := if ok then found else None;
      } else {
        inUse := found;
      }
    }

    /** The call is a run of one process of the machine. An accepted request leaves the stack's row reset and
        its task held; a stack that is in use is left alone. */
    method HandleProvision(t: nat, stack: string, region: string, org: Id, cluster: Id, job: Id, f: ProvisionFaults)
        returns (r: Response)
      requires run.Tracks() && t !in run.machine.procs && run.machine.used !! {org, cluster, job}
      requires org != cluster && org != job && cluster != job && org !in run.store.orgs
      modifies run, run.store, run.client
      ensures run.At(t, None) && run.origin == Next(run.cipher, old(run.machine), Request(t, FindOrg(stack)))
      ensures r.Accepted? ==>
                && r.job == job && r.target.Some? && r.target.value in run.store.clusters
                && IsReset(run.store.clusters[r.target.value], stack, region)
                && run.client.held ==
                   old(run.client.held)[ProvisionId(r.target.value) := ProvisionTask(job, r.target.value, stack)]
      ensures r.Conflict? ==>
                && run.store.clusters == old(run.store.clusters) && r.resource in run.store.clusters
                && InUse(run.store.clusters[r.resource], stack)
      ensures r.Conflict? || r.StoreError? ==> run.client.held == old(run.client.held)
      ensures AllAnswered(f) && IsFree(old(run.store.clusters), old(run.client.held), stack, cluster) ==> r.Accepted?
      ensures AllAnswered(f) && IsBusy(old(run.store.clusters), stack) ==> r.Conflict?
      ensures r.Accepted? ==> (r.job in run.store.jobs <==> !f.addJob.Refused?)
      ensures r.Accepted? && r.job in run.store.jobs ==>
                run.store.jobs[r.job] == JobRow(ProvisionCluster, r.target, None, Queued, None, 0, None, None)
    {
      hide *;
      Answers(f);
      JobIdsWereDrawn(run);
      run.Begin(t, FindOrg(stack), {org, cluster, job});
      var owner := EnsureDefaultOrganization(t, stack, org, f);
      if owner.None? {
        return StoreError;
      }
      var id, inUse := ReserveStack(t, stack, region, owner.value, cluster, job, f, run.client.held);
      if id.None? {
        return if inUse.Some? then Conflict(inUse.value) else StoreError;
      }
      ProvisionTaskId(job, id.value, stack);
      var ok := RecordAndEnqueue(t, ProvisionTask(job, id.value, stack), f.addJob, f.enqueue);
      r := if ok then Accepted(job, id) else QueueError;
    }

    /** The cluster of the stack, unless it must not be destroyed now; a stack without a row (or one that could not
        be looked up) is destroyed all the same. */
    method FindForDestroying(t: nat, stack: string, job: Id, fault: Fault) returns (found: Option<Id>, refused: bool)
      requires run.At(t, Some(FindForDestroy(stack))) && job in run.drawn
      modifies run`machine, run`trace, run`drawn
      ensures run.At(t, if refused then None else Some(AddJob(DestroyTask(job, found, stack))))
      ensures found.Some? ==> found.value in run.store.clusters && run.store.clusters[found.value].name == stack
      ensures refused <==> found.Some? && !Destroyable(run.store.clusters[found.value].status)
      ensures found.None? && fault.Answered? ==> NoStack(run.store.clusters, stack)
    {
      hide Sound, Steps, OrgNamed, Violates, Called, AfterAttempt, ClusterNamed;
      found := run.store.GetClusterByName(stack, fault);
      NamedCluster(run.cipher, run.machine, stack, found, fault);
      refused := false;
      if found.Some? {
        var status := run.store.clusters[found.value].status;
        refused := status.Destroyed? || status.Provisioning? || status.Installing?;
      }
      ghost var c := run.ChoiceFor(fault, "", None, Some(job));
      run.Take(t, c, FindForDestroy(stack), if refused then None else Some(AddJob(DestroyTask(job, found, stack))));
    }

    method HandleDestroy(t: nat, stack: string, job: Id, f: DestroyFaults) returns (r: Response)
      requires run.Tracks() && t !in run.machine.procs && job !in run.machine.used
      modifies run, run.store, run.client
      ensures run.At(t, None) && run.origin == Next(run.cipher, old(run.machine), Request(t, FindForDestroy(stack)))
      ensures run.store.clusters == old(run.store.clusters)
      ensures r.Accepted? ==>
                && r.job == job
                && run.client.held == old(run.client.held)[DestroyId(stack) := DestroyTask(job, r.target, stack)]
                && (r.target.Some? ==>
                      r.target.value in run.store.clusters && run.store.clusters[r.target.value].name == stack)
      ensures r.Conflict? ==>
                && run.client.held == old(run.client.held) && r.resource in run.store.clusters
                && run.store.clusters[r.resource].name == stack && !Destroyable(run.store.clusters[r.resource].status)
      ensures f.findCluster.Answered? && f.enqueue.Answered? && DestroyId(stack) !in old(run.client.held) &&
              (forall c :: c in run.store.clusters && run.store.clusters[c].name == stack ==>
                 Destroyable(run.store.clusters[c].status))
              ==> r.Accepted?
      ensures r.Accepted? && r.target.None? && f.findCluster.Answered? ==> NoStack(run.store.clusters, stack)
      ensures r.Accepted? ==> (r.job in run.store.jobs <==> r.target.Some? && !f.addJob.Refused?)
      ensures r.Accepted? && r.job in run.store.jobs ==>
                run.store.jobs[r.job] == JobRow(DestroyCluster, r.target, None, Queued, None, 0, None, None)
    {
      hide *;
      JobIdsWereDrawn(run);
      run.Begin(t, FindForDestroy(stack), {job});
      var found, refused := FindForDestroying(t, stack, job, f.findCluster);
      if refused {
        return Conflict(found.value);
      }
      DestroyTaskId(job, found, stack);
      var ok := RecordAndEnqueue(t, DestroyTask(job, found, stack), f.addJob, f.enqueue);
      r := if ok then Accepted(job, found) else QueueError;
    }

    method FindActiveCluster(t: nat, name: string, namespace: string, nodePort: nat, field: ClusterField, listed: seq<Id>,
                             find: Fault, list: Fault) returns (cluster: Option<Id>)
      requires run.At(t, Some(FindForDeploy(name, namespace, nodePort))) && IsClusterList(run.store.Contents(), listed)
      modifies run`machine, run`trace, run`drawn
      ensures run.At(t, if cluster.Some?
                    then Some(AddDeployment(DeployedName(name), DeployedNamespace(namespace), DeployedPort(nodePort),
                                            cluster.value))
                    else None)
      ensures cluster.Some? ==> IsChosen(run.store.clusters, field, listed, cluster.value)
      ensures find.Answered? && list.Answered? && HasTarget(run.store.Contents(), field, listed) ==> cluster.Some?
      ensures run.drawn == old(run.drawn)
    {
      hide Sound, Steps, OrgNamed, Violates, Called, AfterAttempt, ClusterNamed, DeployedName, IsClusterList;
      cluster := ResolveClusterId(run.store, field, listed, find, list);
      ghost var c := run.ChoiceFor(if cluster.Some? then Answered else Refused, "", None, None);
      c := if cluster.Some? then c.(pick := cluster.value) else c;
      run.Take(t, c, FindForDeploy(name, namespace, nodePort),
           if cluster.Some?
           then Some(AddDeployment(DeployedName(name), DeployedNamespace(namespace), DeployedPort(nodePort), cluster.value))
           else None);
    }

    method AddDeploymentRow(t: nat, model: string, namespace: string, nodePort: nat, cluster: Id, id: Id, job: Id,
                            fault: Fault, now: int) returns (ok: bool)
      requires run.At(t, Some(AddDeployment(model, namespace, nodePort, cluster)))
      requires id in run.drawn && job in run.drawn && id != job
      modifies run`machine, run`trace, run`drawn, run.store
      ensures run.At(t, if ok then Some(AddJob(DeployTask(job, id, cluster, model, nodePort))) else None)
      ensures ok ==> id in run.store.deployments &&
                     run.store.deployments[id] == DeploymentRow(cluster, model, namespace, nodePort, Pending, "", now)
      ensures fault.Answered? && id !in old(run.store.deployments) && cluster in old(run.store.clusters) ==> ok
      ensures run.store.clusters == old(run.store.clusters) && run.store.jobs == old(run.store.jobs)
    {
      hide Sound, Steps, OrgNamed, AfterAttempt, ClusterNamed;
      ghost var c := run.ChoiceFor(fault, "", Some(id), Some(job));
      c := c.(now := now);
      ok := run.store.CreateDeployment(id, DeploymentRow(cluster, model, namespace, nodePort, Pending, "", now), fault);
      run.Take(t, c, AddDeployment(model, namespace, nodePort, cluster),
           if ok then Some(AddJob(DeployTask(job, id, cluster, model, nodePort))) else None);
    }

    /** An accepted request leaves a pending row under the normalised name on an active cluster, and a held task that
        carries the same values. */
    method PostDeploy(t: nat, name: string, namespace: string, nodePort: nat, field: ClusterField, listed: seq<Id>,
                      deployment: Id, job: Id, f: DeployFaults, now: int) returns (r: Response)
      requires run.Tracks() && t !in run.machine.procs && run.machine.used !! {deployment, job} && deployment != job
      requires IsClusterList(run.store.Contents(), listed)
      modifies run, run.store, run.client
      ensures run.At(t, None)
      ensures run.origin == Next(run.cipher, old(run.machine), Request(t, FindForDeploy(name, namespace, nodePort)))
      ensures r.Accepted? ==>
                && r.job == job && r.target == Some(deployment) && deployment in run.store.deployments
                && var row := run.store.deployments[deployment];
                   && IsNormalised(name, row.model) && ToLower(row.model) == row.model
                   && row.namespace == (if namespace == "" then "default" else namespace)
                   && row.nodePort == (if nodePort == 0 then 30000 else nodePort)
                   && row.status.Pending? && row.serviceUrl == "" && row.updatedAt == now
                   && IsChosen(old(run.store.clusters), field, listed, row.cluster)
                   && run.client.held == old(run.client.held)[DeployId(deployment) :=
                                       DeployTask(job, deployment, row.cluster, row.model, row.nodePort)]
      ensures (f.find.Answered? && f.list.Answered? && f.addDeployment.Answered? && f.enqueue.Answered? &&
               HasTarget(old(run.store.Contents()), field, listed) &&
               deployment !in old(run.store.deployments) && DeployId(deployment) !in old(run.client.held)) ==> r.Accepted?
      ensures r.NotFound? || r.StoreError? ==> run.client.held == old(run.client.held)
      ensures r.Accepted? ==> (r.job in run.store.jobs <==> !f.addJob.Refused?)
      ensures r.Accepted? && r.job in run.store.jobs ==>
                var cluster := run.store.deployments[deployment].cluster;
                run.store.jobs[r.job] == JobRow(DeployModel, Some(cluster), Some(deployment), Queued, None, 0, None, None)
    {
      hide *;
      JobIdsWereDrawn(run);
      run.Begin(t, FindForDeploy(name, namespace, nodePort), {deployment, job});
      var cluster := FindActiveCluster(t, name, namespace, nodePort, field, listed, f.find, f.list);
      if cluster.None? {
        return NotFound;
      }
      ActiveExists(run.store.clusters, field, listed, cluster.value);
      var model, space, port := DeployedName(name), DeployedNamespace(namespace), DeployedPort(nodePort);
      var ok := AddDeploymentRow(t, model, space, port, cluster.value, deployment, job, f.addDeployment, now);
      if !ok {
        return StoreError;
      }
      Normalised(name, namespace, nodePort);
      DeployTaskId(job, deployment, cluster.value, model, port);
      ok := RecordAndEnqueue(t, DeployTask(job, deployment, cluster.value, model, port), f.addJob, f.enqueue);
      r := if ok then Accepted(job, Some(deployment)) else QueueError;
    }

    method FindDeployment(t: nat, d: Id, job: Id, fault: Fault) returns (p: Option<Payload>, refused: bool)
      requires run.At(t, Some(FindForDelete(d))) && job in run.drawn
      modifies run`machine, run`trace, run`drawn
      ensures run.At(t, if p.Some? then Some(Enqueue(p.value)) else None)
      ensures p.Some? ==>
                && d in run.store.deployments && !refused
                && p == Some(DeleteTask(job, d, run.store.deployments[d].cluster, run.store.deployments[d].model))
      ensures p.Some? || refused <==> fault.Answered? && d in run.store.deployments
      ensures refused <==> fault.Answered? && d in run.store.deployments && IsOver(run.store.deployments[d].status)
    {
      hide Sound, Steps, OrgNamed, Violates, Called, AfterAttempt, ClusterNamed;
      p, refused := None, false;
      if fault.Answered? && d in run.store.deployments {
        var row := run.store.deployments[d];
        refused := IsOver(row.status);
        p := if refused then None else Some(DeleteTask(job, d, row.cluster, row.model));
      }
      ghost var c := run.ChoiceFor(fault, "", None, Some(job));
      run.Take(t, c, FindForDelete(d), if p.Some? then Some(Enqueue(p.value)) else None);
    }

    /** No table changes; in particular the job id in the answer has no row. */
    method HandleDeleteDeployment(t: nat, d: Id, job: Id, f: DeleteFaults) returns (r: Response)
      requires run.Tracks() && t !in run.machine.procs && job !in run.machine.used
      modifies run, run.client
      ensures run.At(t, None) && run.origin == Next(run.cipher, old(run.machine), Request(t, FindForDelete(d)))
      ensures r.Accepted? ==>
                && r.job == job && d in run.store.deployments
                && run.client.held == old(run.client.held)[DeleteId(d) :=
                                    DeleteTask(job, d, run.store.deployments[d].cluster, run.store.deployments[d].model)]
      ensures r.Conflict? || r.NotFound? ==> run.client.held == old(run.client.held)
      ensures r.Conflict? <==>
                f.findDeployment.Answered? && d in run.store.deployments && IsOver(run.store.deployments[d].status)
      ensures r.NotFound? <==> !f.findDeployment.Answered? || d !in run.store.deployments
      ensures r.Accepted? ==> r.job !in run.store.jobs
    {
      hide *;
      JobIdsWereDrawn(run);
      run.Begin(t, FindForDelete(d), {job});
      var p, refused := FindDeployment(t, d, job, f.findDeployment);
      if p.None? {
        return if refused then Conflict(d) else NotFound;
      }
      DeleteTaskId(job, d, run.store.deployments[d].cluster, run.store.deployments[d].model);
      var ok := EnqueueTask(t, p.value, f.enqueue);
      r := if ok then Accepted(job, Some(d)) else QueueError;
    }
  }

  predicate ClusterExists(clusters: map<Id, ClusterRow>, p: Payload) {
    p.DeployTask? ==> p.cluster in clusters
  }

  /** The rows that a job record refers to exist. */
  lemma RecordFits(run: Tracker, t: nat, p: Payload)
    requires run.At(t, Some(AddJob(p)))
    ensures JobRecord(p).Some? && p.job !in run.store.jobs && ClusterExists(run.store.clusters, p) ==>
              !Violates(run.store.Contents(), InsertJob(p.job, JobRecord(p).value))
  {
    hide AllCoupled, Reports, Steps, OneOfEach;
    assert ProcFits(run.machine.db, run.machine.procs[t]);
  }

  lemma StackIsTheOne(run: Tracker, stack: string, found: Option<Id>)
    requires run.Tracks()
    requires found.Some? ==> found.value in run.store.clusters && run.store.clusters[found.value].name == stack
    ensures found.Some? ==> OnlyStack(run.store.clusters, stack, found.value)
  {
    hide AllCoupled, Reports, PayloadFits, ProcFits;
    assert OneOfEach(run.machine.db);
  }

  lemma JobIdsWereDrawn(run: Tracker)
    requires run.Tracks()
    ensures forall j :: j in run.store.jobs ==> j in run.machine.used
  {
    hide Unique, AllCoupled, Reports;
    RowsHaveRecords(run.cipher, run.machine);
  }

  lemma Answers(f: ProvisionFaults)
    ensures AllAnswered(f) ==>
              && f.findOrg.Answered? && f.addOrg.Answered? && f.findCluster.Answered? && f.reset.Answered?
              && f.addCluster.Answered? && f.enqueue.Answered?
  {
  }

  /** What is free is new, or an old row that may be reset. */
  lemma FreeMeans(clusters: map<Id, ClusterRow>, held: map<TaskId, Payload>, stack: string, cluster: Id, found: Option<Id>)
    ensures IsFree(clusters, held, stack, cluster) ==> cluster !in clusters && ProvisionId(cluster) !in held
    ensures (IsFree(clusters, held, stack, cluster) && found.Some? && found.value in clusters &&
             clusters[found.value].name == stack) ==>
              !InUse(clusters[found.value], stack) && ProvisionId(found.value) !in held
  {
  }

  /** A stack that is in use is the one that was found. */
  lemma BusyMeans(clusters: map<Id, ClusterRow>, stack: string, found: Option<Id>)
    ensures IsBusy(clusters, stack) && NoStack(clusters, stack) ==> false
    ensures IsBusy(clusters, stack) && found.Some? && found.value in clusters && OnlyStack(clusters, stack, found.value) ==>
              InUse(clusters[found.value], stack)
  {
  }

  lemma ActiveExists(clusters: map<Id, ClusterRow>, field: ClusterField, listed: seq<Id>, c: Id)
    requires IsChosen(clusters, field, listed, c)
    ensures c in clusters
  {
  }

  lemma ProvisionTaskId(job: Id, cluster: Id, stack: string)
    ensures TaskIdOf(ProvisionTask(job, cluster, stack)) == ProvisionId(cluster)
    ensures JobRecord(ProvisionTask(job, cluster, stack)) ==
            Some(JobRow(ProvisionCluster, Some(cluster), None, Queued, None, 0, None, None))
    ensures forall clusters :: ClusterExists(clusters, ProvisionTask(job, cluster, stack))
  {
  }

  lemma DestroyTaskId(job: Id, target: Option<Id>, stack: string)
    ensures TaskIdOf(DestroyTask(job, target, stack)) == DestroyId(stack)
    ensures JobRecord(DestroyTask(job, target, stack)) ==
            if target.Some? then Some(JobRow(DestroyCluster, target, None, Queued, None, 0, None, None)) else None
    ensures forall clusters :: ClusterExists(clusters, DestroyTask(job, target, stack))
  {
  }

  lemma DeployTaskId(job: Id, d: Id, cluster: Id, model: string, nodePort: nat)
    ensures TaskIdOf(DeployTask(job, d, cluster, model, nodePort)) == DeployId(d)
    ensures JobRecord(DeployTask(job, d, cluster, model, nodePort)) ==
            Some(JobRow(DeployModel, Some(cluster), Some(d), Queued, None, 0, None, None))
    ensures forall clusters :: ClusterExists(clusters, DeployTask(job, d, cluster, model, nodePort)) <==> cluster in clusters
  {
  }

  lemma DeleteTaskId(job: Id, d: Id, cluster: Id, model: string)
    ensures TaskIdOf(DeleteTask(job, d, cluster, model)) == DeleteId(d)
  {
  }

  lemma Normalised(name: string, namespace: string, nodePort: nat)
    ensures IsNormalised(name, DeployedName(name)) && ToLower(DeployedName(name)) == DeployedName(name)
    ensures DeployedNamespace(namespace) == if namespace == "" then "default" else namespace
    ensures DeployedPort(nodePort) == if nodePort == 0 then 30000 else nodePort
  {
    DeployedNameIsLower(name);
    forall i | 0 <= i < |name| && name[i] != '_'
      ensures ToLower(UnderscoresToDashes(name))[i] == ToLower(name)[i]
    {
      assert UnderscoresToDashes(name)[i] == name[i];
    }
    forall i, k | 0 <= i < |name| ensures IsSmall(name[i], ToLower(name)[i], k) {
      LowerIsSmall(name, i, if 0 <= k then k else 0);
    }
  }
}
