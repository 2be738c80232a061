/** What every reachable state of the lifecycle protocol keeps. */
module LifecycleSafety {
  import opened Common
  import opened Kubeconfig
  import opened Store
  import opened Lifecycle

  // ----- One organization, one row and one task per stack -----

  predicate SamePlace(d: DeploymentRow, e: DeploymentRow) {
    d.cluster == e.cluster && d.model == e.model && d.nodePort == e.nodePort
  }

  /** What never changes once it is there. */
  ghost predicate Extends(db: Db, db': Db) {
    && db.orgs.Keys <= db'.orgs.Keys
    && (forall c :: c in db.clusters ==> c in db'.clusters && db'.clusters[c].name == db.clusters[c].name)
    && (forall d :: d in db.deployments ==> d in db'.deployments && SamePlace(db'.deployments[d], db.deployments[d]))
  }

  ghost predicate OneOfEach(db: Db) {
    && (forall o :: o in db.orgs ==> db.orgs[o] == DEFAULT_ORG)
    && (forall o, p :: o in db.orgs && p in db.orgs ==> o == p)
    && (forall c :: c in db.clusters ==> db.clusters[c].org in db.orgs)
    && (forall c, d :: c in db.clusters && d in db.clusters && db.clusters[c].name == db.clusters[d].name ==> c == d)
  }

  ghost predicate PayloadFits(db: Db, p: Payload) {
    match p
    case ProvisionTask(_, c, stack) => c in db.clusters && db.clusters[c].name == stack
    case DeployTask(_, d, c, model, port) =>
      && d in db.deployments && db.deployments[d].cluster == c && db.deployments[d].model == model
      && db.deployments[d].nodePort == port
    case DeleteTask(_, d, c, model) =>
      d in db.deployments && db.deployments[d].cluster == c && db.deployments[d].model == model
    case DestroyTask(_, t, stack) => t.Some? ==> t.value in db.clusters && db.clusters[t.value].name == stack
  }

  /** The calls whose results an attempt ignores. */
  predicate IsCall(s: Statement) {
    || (s.SetClusterStatus? && (s.clusterStatus.Installing? || s.clusterStatus.Failed? || s.clusterStatus.Destroying?))
    || (s.SetDeploymentStatus? && !s.deploymentStatus.Active?)
    || (s.SetStatusByCluster? && s.deploymentStatus.Orphaned?) || s.SetJobStatus?
  }

  ghost predicate Calls(ss: seq<Statement>) {
    forall i :: 0 <= i < |ss| ==> IsCall(ss[i])
  }

  ghost predicate ProcFits(db: Db, p: Proc) {
    match p
    case FindCluster(_, org) => org in db.orgs
    case Reset(stack, c) => c in db.clusters && db.clusters[c].name == stack
    case AddCluster(_, org) => org in db.orgs
    case AddJob(payload) => PayloadFits(db, payload)
    case Enqueue(payload) => PayloadFits(db, payload)
    case Attempt(payload, calls, _) => PayloadFits(db, payload) && Calls(calls)
    case _ => true
  }

  ghost predicate Unique(w: World) {
    && OneOfEach(w.db)
    && (forall t :: t in w.procs ==> ProcFits(w.db, w.procs[t]))
    && (forall id :: id in w.queue ==> TaskIdOf(w.queue[id]) == id && PayloadFits(w.db, w.queue[id]))
  }

  /** A deploy request goes on only with a cluster that is active when it is looked up. */
  lemma DeploysFindActiveClusters(db: Db, name: string, namespace: string, nodePort: nat, c: Choice, ok: bool)
    ensures var next := After(db, FindForDeploy(name, namespace, nodePort), c, ok);
            next.Some? ==>
              && next.value.AddDeployment? && next.value.cluster in db.clusters
              && db.clusters[next.value.cluster].status.Active?
  {
  }

  lemma EmptyOrTaken(db: Db)
    requires OneOfEach(db)
    ensures db.orgs == map[] || DEFAULT_ORG in db.orgs.Values
  {
    if db.orgs != map[] {
      var o :| o in db.orgs;
      assert db.orgs[o] in db.orgs.Values;
    }
  }

  lemma FirstOrgOnly(db: Db, id: Id)
    requires OneOfEach(db) && !Violates(db, InsertOrg(id, DEFAULT_ORG))
    ensures OneOfEach(db.(orgs := db.orgs[id := DEFAULT_ORG])) && Extends(db, db.(orgs := db.orgs[id := DEFAULT_ORG]))
  {
    EmptyOrTaken(db);
  }

  lemma NewNameOnly(db: Db, id: Id, row: ClusterRow)
    requires OneOfEach(db) && row.org in db.orgs && !Violates(db, InsertCluster(id, row))
    ensures OneOfEach(db.(clusters := db.clusters[id := row])) && Extends(db, db.(clusters := db.clusters[id := row]))
  {
    assert forall c :: c in db.clusters ==> db.clusters[c].org == row.org;
  }

  lemma UpdateKeepsNames(db: Db, id: Id, row: ClusterRow)
    requires OneOfEach(db) && id in db.clusters && row.org == db.clusters[id].org && row.name == db.clusters[id].name
    ensures OneOfEach(db.(clusters := Put(db.clusters, id, row))) && Extends(db, db.(clusters := Put(db.clusters, id, row)))
  {
  }

  lemma ClusterStatementKeepsRows(db: Db, s: Statement, now: int)
    requires OneOfEach(db) && (s.SetClusterStatus? || s.SetClusterDetails? || s.ResetCluster?)
    ensures OneOfEach(Execute(db, s, now)) && Extends(db, Execute(db, s, now))
  {
    if s.cluster in db.clusters {
      UpdateKeepsNames(db, s.cluster, Execute(db, s, now).clusters[s.cluster]);
    }
    hide OneOfEach, SamePlace;
  }

  lemma DeploymentStatementKeepsRows(db: Db, s: Statement, now: int)
    requires s.InsertDeployment? ==> s.deployment !in db.deployments
    requires s.InsertDeployment? || s.SetDeploymentStatus? || s.SetServiceUrl? || s.SetStatusByCluster?
    ensures var db' := Execute(db, s, now); Extends(db, db') && db'.orgs == db.orgs && db'.clusters == db.clusters
  {
  }

  lemma JobStatementKeepsRows(db: Db, s: Statement, now: int)
    requires s.InsertJob? || s.SetJobStatus?
    ensures Execute(db, s, now) == db.(jobs := Execute(db, s, now).jobs)
  {
  }

  lemma ExecuteKeepsRows(db: Db, s: Statement, now: int)
    requires OneOfEach(db) && !Violates(db, s)
    requires s.InsertOrg? ==> s.orgName == DEFAULT_ORG
    requires s.InsertCluster? ==> s.row.org in db.orgs
    ensures OneOfEach(Execute(db, s, now)) && Extends(db, Execute(db, s, now))
  {
    if s.InsertOrg? {
      FirstOrgOnly(db, s.org);
    } else if s.InsertCluster? {
      NewNameOnly(db, s.cluster, s.row);
    } else if s.SetClusterStatus? || s.SetClusterDetails? || s.ResetCluster? {
      ClusterStatementKeepsRows(db, s, now);
      hide *;
    } else if s.InsertJob? || s.SetJobStatus? {
      JobStatementKeepsRows(db, s, now);
      hide Execute, SamePlace;
    } else {
      DeploymentStatementKeepsRows(db, s, now);
      hide Execute, Extends;
    }
  }

  lemma StatementKeepsRows(db: Db, s: Statement, fault: Fault, now: int)
    requires OneOfEach(db)
    requires s.InsertOrg? ==> s.orgName == DEFAULT_ORG
    requires s.InsertCluster? ==> s.row.org in db.orgs
    ensures OneOfEach(Called(db, s, fault, now)) && Extends(db, Called(db, s, fault, now))
  {
    if !Violates(db, s) {
      ExecuteKeepsRows(db, s, now);
    }
    hide Execute, OneOfEach, Violates;
  }

  lemma StatementIsSafe(cipher: Option<Aead>, db: Db, p: Proc, c: Choice)
    requires ProcFits(db, p) && StatementOf(cipher, p, c).Some?
    ensures var s := StatementOf(cipher, p, c).value;
            && (s.InsertOrg? ==> s.orgName == DEFAULT_ORG)
            && (s.InsertCluster? ==> s.row.org in db.orgs)
  {
    hide KubeconfigOf, ServiceUrl, PayloadFits;
  }

  lemma FitsInExtension(db: Db, db': Db, p: Proc)
    requires ProcFits(db, p) && Extends(db, db')
    ensures ProcFits(db', p)
  {
    hide Calls;
  }

  lemma PlannedCalls(p: Payload, message: string)
    ensures Calls(FirstCalls(p)) && Calls(FailCalls(p, message))
    ensures Calls([]) && Calls([SetJobStatus(p.job, JobStatus.Failed, message)])
    ensures Completes(p, []).value.calls == [SetJobStatus(p.job, JobStatus.Completed, "")]
    ensures Calls(Completes(p, []).value.calls)
  {
  }

  lemma AttemptKeepsFit(db: Db, db': Db, p: Proc, c: Choice, ok: bool)
    requires p.Attempt? && ProcFits(db, p) && Extends(db, db')
    ensures After(db, p, c, ok).Some? ==> ProcFits(db', After(db, p, c, ok).value)
  {
    FitsInExtension(db, db', p);
    PlannedCalls(p.payload, c.message);
    hide PayloadFits, FailCalls, FirstCalls, Extends;
  }

  predicate Inserts(p: Proc) {
    p.AddOrg? || p.AddCluster? || p.AddDeployment?
  }

  lemma LookupKeepsFit(db: Db, db': Db, p: Proc, c: Choice, ok: bool)
    requires !p.Attempt? && !Inserts(p) && ProcFits(db, p) && Extends(db, db')
    ensures AfterHandler(db, p, c, ok).Some? ==> ProcFits(db', AfterHandler(db, p, c, ok).value)
  {
    hide Calls;
  }

  /** A row that was inserted is there for the next step; a lookup that failed found the row of another request. */
  lemma InsertKeepsFit(cipher: Option<Aead>, db: Db, p: Proc, c: Choice, ok: bool)
    requires Inserts(p) && ProcFits(db, p)
    requires ok ==> Succeeds(db, StatementOf(cipher, p, c).value, c.fault)
    requires Extends(db, Called(db, StatementOf(cipher, p, c).value, c.fault, c.now))
    ensures AfterHandler(db, p, c, ok).Some? ==>
              ProcFits(Called(db, StatementOf(cipher, p, c).value, c.fault, c.now), AfterHandler(db, p, c, ok).value)
  {
    hide Calls, OrgNamed, ClusterNamed, Violates, Extends;
  }

  lemma StepKeepsRows(cipher: Option<Aead>, w: World, t: nat, c: Choice)
    requires Unique(w) && t in w.procs
    ensures var db := StepOf(cipher, w, t, w.procs[t], c).db; OneOfEach(db) && Extends(w.db, db)
  {
    var p := w.procs[t];
    var s := StatementOf(cipher, p, c);
    hide OneOfEach, Extends, StatementOf, Called, After, Written, QueueAfter, IssuedAfter, RunsAfter, PayloadFits;
    if s.Some? {
      StatementIsSafe(cipher, w.db, p, c);
      StatementKeepsRows(w.db, s.value, c.fault, c.now);
    }
    ExtendsItself(w.db);
  }

  lemma ExtendsItself(db: Db)
    ensures Extends(db, db)
  {
  }

  lemma NextFits(cipher: Option<Aead>, w: World, t: nat, c: Choice)
    requires t in w.procs && ProcFits(w.db, w.procs[t]) && Extends(w.db, StepOf(cipher, w, t, w.procs[t], c).db)
    ensures var w' := StepOf(cipher, w, t, w.procs[t], c); t in w'.procs ==> ProcFits(w'.db, w'.procs[t])
  {
    var p := w.procs[t];
    var s, w' := StatementOf(cipher, p, c), StepOf(cipher, w, t, p, c);
    var ok := c.fault.Answered? && (s.Some? ==> !Violates(w.db, s.value));
    assert w'.procs == Following(w.procs, t, After(w.db, p, c, ok));
    if Inserts(p) {
      InsertKeepsFit(cipher, w.db, p, c, ok);
      hide Called;
    } else {
      hide Called, StatementOf;
      if p.Attempt? {
        AttemptKeepsFit(w.db, w'.db, p, c, ok);
      } else {
        LookupKeepsFit(w.db, w'.db, p, c, ok);
      }
    }
    hide AfterAttempt, AfterHandler, Violates, Written, RunsAfter, QueueAfter, IssuedAfter, ProcFits, Extends;
  }

  lemma StepKeepsUnique(cipher: Option<Aead>, w: World, t: nat, c: Choice)
    requires Unique(w) && t in w.procs
    ensures Unique(StepOf(cipher, w, t, w.procs[t], c))
  {
    var p, w' := w.procs[t], StepOf(cipher, w, t, w.procs[t], c);
    StepKeepsRows(cipher, w, t, c);
    NextFits(cipher, w, t, c);
    hide StatementOf, Called, After, OneOfEach, Violates, Written, RunsAfter, IssuedAfter, ProcFits, Extends;
    forall u | u in w'.procs ensures ProcFits(w'.db, w'.procs[u]) {
      if u != t {
        FitsInExtension(w.db, w'.db, w.procs[u]);
      }
    }
    forall id | id in w'.queue ensures TaskIdOf(w'.queue[id]) == id && PayloadFits(w'.db, w'.queue[id]) {
      QueuedFits(w.db, w'.db, w.queue, p, c, id);
    }
  }

  lemma QueuedFits(db: Db, db': Db, queue: map<TaskId, Payload>, p: Proc, c: Choice, id: TaskId)
    requires Extends(db, db') && ProcFits(db, p) && id in QueueAfter(queue, p, c)
    requires forall i :: i in queue ==> TaskIdOf(queue[i]) == i && PayloadFits(db, queue[i])
    ensures var q := QueueAfter(queue, p, c)[id]; TaskIdOf(q) == id && PayloadFits(db', q)
  {
    hide Calls, TaskIdOf;
  }

  lemma EventKeepsUnique(cipher: Option<Aead>, w: World, e: Event)
    requires Unique(w)
    ensures Unique(Next(cipher, w, e))
  {
    hide StepOf, OneOfEach, PayloadFits, FirstCalls;
    match e
    case Step(t, c) =>
      if t in w.procs {
        StepKeepsUnique(cipher, w, t, c);
      }
      hide Unique;
    case PickUp(t, id) =>
      if id in w.queue {
        PlannedCalls(w.queue[id], "");
      }
      hide Calls;
    case _ =>
      hide Calls;
  }

  lemma {:induction false} UniqueHolds(cipher: Option<Aead>, es: seq<Event>)
    ensures Unique(Run(cipher, es))
  {
    if es == [] {
      assert Unique(INIT);
    } else {
      hide Unique, Next;
      UniqueHolds(cipher, es[..|es| - 1]);
      EventKeepsUnique(cipher, Run(cipher, es[..|es| - 1]), es[|es| - 1]);
    }
  }

  /** In every interleaving of requests and attempts, whatever fails: there is at most one organization, at most one
      cluster row per stack name, and at most one queued provision task per stack name, whose cluster id is
      that row's. */
  lemma OneRowAndOneTaskPerStack(cipher: Option<Aead>, es: seq<Event>)
    ensures var w := Run(cipher, es);
            && (forall o, p :: o in w.db.orgs && p in w.db.orgs ==> o == p && w.db.orgs[o] == DEFAULT_ORG)
            && (forall c, d :: c in w.db.clusters && d in w.db.clusters && w.db.clusters[c].name == w.db.clusters[d].name
                  ==> c == d)
            && (forall i :: i in w.queue && w.queue[i].ProvisionTask? ==>
                  w.queue[i].cluster in w.db.clusters && w.db.clusters[w.queue[i].cluster].name == w.queue[i].stack)
            && (forall i, j :: (i in w.queue && j in w.queue && w.queue[i].ProvisionTask? && w.queue[j].ProvisionTask? &&
                  w.queue[i].stack == w.queue[j].stack) ==> i == j)
  {
    UniqueHolds(cipher, es);
    var w := Run(cipher, es);
    hide Run;
    forall i, j | i in w.queue && j in w.queue && w.queue[i].ProvisionTask? && w.queue[j].ProvisionTask? &&
      w.queue[i].stack == w.queue[j].stack ensures i == j {
      assert PayloadFits(w.db, w.queue[i]) && PayloadFits(w.db, w.queue[j]);
    }
  }
}
