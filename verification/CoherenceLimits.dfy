/** What Coherence rests on: for each of its conditions a run that breaks this condition only and ends with a live cache
    entry for a target that no listing has; and, with all conditions kept, a run in which a name with an upper-case
    letter is served from the cache only. */
module CoherenceLimits {
  import opened Common
  import opened Kubeconfig
  import opened Store
  import opened Subsequences
  import opened Text
  import opened Tracking
  import opened Coherence
  import L = Lifecycle
  import D = Discovery
  import S = LifecycleSafety

  /** The conditions of Coherence.Allowed. */
  datatype Condition = OneAtATime | NotWhileResolving | WritesSucceed | DeletionsSucceed | NoDestroys | NoCrashes

  predicate MayStart(x: Option<Condition>, s: State) {
    && (s.world.procs == map[] || x == Some(OneAtATime))
    && (s.proxy.resolvers == map[] || x == Some(NotWhileResolving))
  }

  /** As Allowed, without condition `x`. */
  ghost predicate AllowedWithout(x: Option<Condition>, cipher: Option<Aead>, s: State, e: Event) {
    match e
    case Handle(Request(_, p), _) => MayStart(x, s) && (!p.FindForDestroy? || x == Some(NoDestroys))
    case Handle(PickUp(_, _), _) => MayStart(x, s)
    case Handle(Step(t, c), drop) =>
      && (drop.Answered? || x == Some(DeletionsSucceed))
      && (t in s.world.procs && L.StatementOf(cipher, s.world.procs[t], c).Some? ==>
            c.fault.Answered? || x == Some(WritesSucceed))
    case Handle(Crash(_), _) => x == Some(NoCrashes)
    case _ => Allowed(cipher, s, e)
  }

  ghost function RunWithout(x: Option<Condition>, cipher: Option<Aead>, es: seq<Event>): State {
    if es == [] then INIT
    else
      var s, e := RunWithout(x, cipher, es[..|es| - 1]), es[|es| - 1];
      if AllowedWithout(x, cipher, s, e) then Occurs(cipher, s, e) else s
  }

  /** Without leaving out a condition, these are the runs of Coherence. */
  lemma {:induction false} AllConditionsKept(cipher: Option<Aead>, es: seq<Event>)
    ensures RunWithout(None, cipher, es) == Run(cipher, es)
  {
    if es == [] {
    } else {
      AllConditionsKept(cipher, es[..|es| - 1]);
      hide Occurs;
    }
  }

  ghost predicate Reached(x: Option<Condition>, cipher: Option<Aead>, s: State) {
    exists es :: RunWithout(x, cipher, es) == s
  }

  lemma Extend(x: Option<Condition>, cipher: Option<Aead>, s: State, e: Event)
    requires Reached(x, cipher, s) && AllowedWithout(x, cipher, s, e)
    ensures Reached(x, cipher, Occurs(cipher, s, e))
  {
    var es :| RunWithout(x, cipher, es) == s;
    hide AllowedWithout, Occurs;
    assert (es + [e])[..|es|] == es;
    assert RunWithout(x, cipher, es + [e]) == Occurs(cipher, s, e);
  }

  // ----- Steps of one process, while others stand still -----

  predicate Stands(s: State, t: nat, p: L.Proc) {
    t in s.world.procs && s.world.procs[t] == p
  }

  function Others(s: State, t: nat): map<nat, L.Proc> {
    s.world.procs - {t}
  }

  /** Process t has moved; the cache has not changed. */
  ghost predicate Moved(x: Option<Condition>, cipher: Option<Aead>, s: State, s': State, t: nat) {
    Reached(x, cipher, s') && s'.proxy == s.proxy && Others(s', t) == Others(s, t)
  }

  /** In addition neither have the queue and the tables. */
  ghost predicate OnlyMoved(x: Option<Condition>, cipher: Option<Aead>, s: State, s': State, t: nat) {
    Moved(x, cipher, s, s', t) && s'.world.db == s.world.db && s'.world.queue == s.world.queue
  }

  lemma Begin(x: Option<Condition>, cipher: Option<Aead>, s: State, t: nat, p: L.Proc) returns (s': State)
    requires Reached(x, cipher, s) && t !in s.world.procs && MayStart(x, s)
    requires L.IsStart(p) && (p.FindForDestroy? ==> x == Some(NoDestroys))
    ensures OnlyMoved(x, cipher, s, s', t) && Stands(s', t, p)
  {
    hide Reached;
    s' := Occurs(cipher, s, Handle(L.Request(t, p), Answered));
    Extend(x, cipher, s, Handle(L.Request(t, p), Answered));
    assert Others(s', t) == Others(s, t);
  }

  lemma Attempts(x: Option<Condition>, cipher: Option<Aead>, s: State, t: nat, p: L.Payload) returns (s': State)
    requires Reached(x, cipher, s) && t !in s.world.procs && MayStart(x, s)
    requires L.TaskIdOf(p) in s.world.queue && s.world.queue[L.TaskIdOf(p)] == p
    ensures OnlyMoved(x, cipher, s, s', t) && Stands(s', t, L.Attempt(p, L.FirstCalls(p), L.FirstStage(p)))
  {
    hide L.FirstCalls, L.FirstStage, L.TaskIdOf, Reached;
    s' := Occurs(cipher, s, Handle(L.PickUp(t, L.TaskIdOf(p)), Answered));
    Extend(x, cipher, s, Handle(L.PickUp(t, L.TaskIdOf(p)), Answered));
    assert Others(s', t) == Others(s, t);
  }

  /** One step with fresh UUIDs. */
  lemma Takes(x: Option<Condition>, cipher: Option<Aead>, s: State, t: nat, p: L.Proc, choice: L.Choice, drop: Fault)
      returns (s': State, c: L.Choice)
    requires Reached(x, cipher, s) && Stands(s, t, p)
    requires choice.fault.Answered? || x == Some(WritesSucceed) || (p.Attempt? && p.calls == [] && p.stage.ReadCluster?)
    requires drop.Answered? || x == Some(DeletionsSucceed)
    ensures Reached(x, cipher, s') && c == choice.(row := c.row, job := c.job)
    ensures c.row !in s.world.db.orgs && c.row !in s.world.db.clusters && c.row !in s.world.db.deployments
    ensures s'.world.db == L.DbAfter(cipher, s.world.db, p, c) && s'.world.queue == L.QueueAfter(s.world.queue, p, c)
    ensures var next := L.After(s.world.db, p, c, L.CallOk(cipher, s.world.db, p, c));
            && Others(s', t) == Others(s, t)
            && (if next.Some? then Stands(s', t, next.value) else t !in s'.world.procs)
            && s'.proxy == if ServesModel(p) && next.None? then D.Next(s.proxy, D.WorkerDrop(p.payload.model, drop))
                           else s.proxy
  {
    var db := s.world.db;
    var row, job := FreshIds(s.world.used, db.orgs.Keys + db.clusters.Keys + db.deployments.Keys);
    c := choice.(row := row, job := job);
    s' := Occurs(cipher, s, Handle(L.Step(t, c), drop));
    hide L.DbAfter, L.After, L.CallOk, L.QueueAfter, L.WritesAfter, L.IssuedAfter, L.RunsAfter, Reached, D.Next;
    Extend(x, cipher, s, Handle(L.Step(t, c), drop));
    assert Others(s', t) == Others(s, t);
  }

  /** One call whose result the attempt ignores. */
  lemma Calls(x: Option<Condition>, cipher: Option<Aead>, s: State, t: nat, p: L.Payload, call: Statement,
              rest: seq<Statement>, stage: L.Stage, fault: Fault) returns (s': State)
    requires Reached(x, cipher, s) && Stands(s, t, L.Attempt(p, [call] + rest, stage))
    requires call.SetClusterStatus? || call.SetDeploymentStatus? || call.SetJobStatus?
    requires fault.Answered? || x == Some(WritesSucceed)
    ensures Moved(x, cipher, s, s', t) && Stands(s', t, L.Attempt(p, rest, stage))
    ensures s'.world.queue == s.world.queue
    ensures s'.world.db == if fault.Refused? then s.world.db else Execute(s.world.db, call, 0)
  {
    hide Reached, Execute, L.AfterHandler;
    var c;
    assert ([call] + rest)[1..] == rest;
    s', c := Takes(x, cipher, s, t, L.Attempt(p, [call] + rest, stage), Works(0).(fault := fault), Answered);
  }

  predicate IsOutside(stage: L.Stage) {
    || stage.RunPulumi? || stage.ReadCluster? || stage.ApplyModel? || stage.AwaitHealth? || stage.RunPulumiDestroy?
  }

  /** The attempt has read the cluster, or something outside the store has worked or failed. */
  lemma Outside(x: Option<Condition>, cipher: Option<Aead>, s: State, t: nat, p: L.Payload, stage: L.Stage,
                choice: L.Choice, calls: seq<Statement>, next: L.Stage) returns (s': State)
    requires Reached(x, cipher, s) && Stands(s, t, L.Attempt(p, [], stage)) && IsOutside(stage)
    requires choice.fault.Answered? || stage.ReadCluster?
    requires L.AfterAttempt(s.world.db, p, [], stage, choice, choice.fault.Answered?) == Some(L.Attempt(p, calls, next))
    ensures OnlyMoved(x, cipher, s, s', t) && Stands(s', t, L.Attempt(p, calls, next))
  {
    hide Reached, L.AfterAttempt, L.AfterHandler;
    var proc := L.Attempt(p, [], stage);
    var c;
    s', c := Takes(x, cipher, s, t, proc, choice, Answered);
    UuidsDoNotMatter(cipher, s.world.db, s.world.queue, proc, choice, c.row, c.job);
  }

  /** A status update of the resource and one of the job, in this order. */
  lemma TwoCalls(x: Option<Condition>, cipher: Option<Aead>, s: State, t: nat, p: L.Payload, calls: seq<Statement>,
                 stage: L.Stage, fault: Fault) returns (s': State)
    requires Reached(x, cipher, s) && Stands(s, t, L.Attempt(p, calls, stage))
    requires |calls| == 2 && (calls[0].SetClusterStatus? || calls[0].SetDeploymentStatus?) && calls[1].SetJobStatus?
    requires fault.Answered? || x == Some(WritesSucceed)
    ensures Moved(x, cipher, s, s', t) && Stands(s', t, L.Attempt(p, [], stage)) && s'.world.queue == s.world.queue
    ensures var db := if fault.Refused? then s.world.db else Execute(s.world.db, calls[0], 0);
            s'.world.db == db.(jobs := s'.world.db.jobs)
  {
    hide Reached;
    assert calls == [calls[0]] + [calls[1]];
    s' := Calls(x, cipher, s, t, p, calls[0], [calls[1]], stage, fault);
    assert [calls[1]] == [calls[1]] + [];
    S.JobStatementKeepsRows(s'.world.db, calls[1], 0);
    hide Execute;
    s' := Calls(x, cipher, s', t, p, calls[1], [], stage, Answered);
  }

  /** The attempt ends. */
  lemma Ends(x: Option<Condition>, cipher: Option<Aead>, s: State, t: nat, p: L.Payload, ok: bool, drop: Fault)
      returns (s': State)
    requires Reached(x, cipher, s) && Stands(s, t, L.Attempt(p, [], L.End(ok)))
    requires drop.Answered? || x == Some(DeletionsSucceed)
    ensures Reached(x, cipher, s') && s'.world.db == s.world.db && s'.world.procs == Others(s, t)
    ensures s'.world.queue == if ok then s.world.queue - {L.TaskIdOf(p)} else s.world.queue
    ensures s'.proxy == if p.DeployTask? || p.DeleteTask? then D.Next(s.proxy, D.WorkerDrop(p.model, drop)) else s.proxy
  {
    hide Reached, L.TaskIdOf, D.Next, L.AfterHandler;
    var c;
    s', c := Takes(x, cipher, s, t, L.Attempt(p, [], L.End(ok)), Works(0), drop);
    assert s'.world.procs == Others(s', t);
  }

  /** The last report, and the end. */
  lemma Completes(x: Option<Condition>, cipher: Option<Aead>, s: State, t: nat, p: L.Payload) returns (s': State)
    requires Reached(x, cipher, s)
    requires Stands(s, t, L.Attempt(p, [SetJobStatus(p.job, Completed, "")], L.End(true)))
    ensures Reached(x, cipher, s') && s'.world.db == s.world.db.(jobs := s'.world.db.jobs)
    ensures s'.world.procs == Others(s, t) && s'.world.queue == s.world.queue - {L.TaskIdOf(p)}
    ensures s'.proxy == if p.DeployTask? || p.DeleteTask? then D.Next(s.proxy, D.WorkerDrop(p.model, Answered)) else s.proxy
  {
    hide Reached, L.TaskIdOf, D.Next;
    var last := SetJobStatus(p.job, Completed, "");
    assert [last] == [last] + [];
    s' := Calls(x, cipher, s, t, p, last, [], L.End(true), Answered);
    s' := Ends(x, cipher, s', t, p, true, Answered);
  }

  /** The job record and the enqueue. */
  lemma Records(x: Option<Condition>, cipher: Option<Aead>, s: State, t: nat, p: L.Payload) returns (s': State)
    requires Reached(x, cipher, s) && Stands(s, t, L.AddJob(p))
    ensures Moved(x, cipher, s, s', t) && Stands(s', t, L.Enqueue(p))
    ensures s'.world.queue == s.world.queue && s'.world.db == s.world.db.(jobs := s'.world.db.jobs)
  {
    hide Reached, Violates, L.JobRecord, L.AfterAttempt;
    var c;
    s', c := Takes(x, cipher, s, t, L.AddJob(p), Works(0), Answered);
  }

  lemma Enqueues(x: Option<Condition>, cipher: Option<Aead>, s: State, t: nat, p: L.Payload) returns (s': State)
    requires Reached(x, cipher, s) && Stands(s, t, L.Enqueue(p)) && L.TaskIdOf(p) !in s.world.queue
    ensures Reached(x, cipher, s') && s'.proxy == s.proxy && s'.world.db == s.world.db
    ensures s'.world.procs == Others(s, t) && s'.world.queue == s.world.queue[L.TaskIdOf(p) := p]
  {
    hide Reached, L.TaskIdOf;
    var c;
    s', c := Takes(x, cipher, s, t, L.Enqueue(p), Works(0), Answered);
    assert s'.world.procs == Others(s', t);
  }

  // ----- A cluster -----

  const IP: Address := "10.0.0.1"

  /** Every call is answered and every external call works. */
  function Works(pick: Id): L.Choice {
    L.Choice(Answered, true, L.Outputs([], [], IP), pick, "", "southindia", 0, 0, 0)
  }

  function Fails(): L.Choice {
    Works(0).(works := false)
  }

  /** One organization and one cluster. */
  ghost predicate OneCluster(db: Db, o: Id, k: Id) {
    && db.orgs == map[o := L.DEFAULT_ORG] && db.clusters.Keys == {k} && db.clusters[k].name == "s"
  }

  ghost predicate IsUp(db: Db, k: Id) {
    k in db.clusters && db.clusters[k].status.Active? && db.clusters[k].publicIp == IP
  }

  lemma Named(db: Db, o: Id, k: Id)
    ensures db.orgs == map[] ==> L.OrgNamed(db, L.DEFAULT_ORG) == None
    ensures db.clusters == map[] ==> L.ClusterNamed(db, "s") == None
    ensures OneCluster(db, o, k) ==> L.OrgNamed(db, L.DEFAULT_ORG) == Some(o) && L.ClusterNamed(db, "s") == Some(k)
  {
    if OneCluster(db, o, k) {
      assert o in db.orgs && k in db.clusters;
    }
  }

  lemma NewOrganization(x: Option<Condition>, cipher: Option<Aead>) returns (s: State, o: Id)
    ensures Moved(x, cipher, INIT, s, 0) && s.world.queue == map[] && Stands(s, 0, L.FindCluster("s", o))
    ensures s.world.db == EMPTY.(orgs := map[o := L.DEFAULT_ORG])
  {
    assert RunWithout(x, cipher, []) == INIT;
    hide Reached, L.OrgNamed;
    Named(EMPTY, 0, 0);
    s := Begin(x, cipher, INIT, 0, L.FindOrg("s"));
    var c;
    s, c := Takes(x, cipher, s, 0, L.FindOrg("s"), Works(0), Answered);
    s, c := Takes(x, cipher, s, 0, L.AddOrg("s"), Works(0), Answered);
    o := c.row;
  }

  lemma NewCluster(x: Option<Condition>, cipher: Option<Aead>) returns (s: State, o: Id, k: Id, j: Id)
    ensures Moved(x, cipher, INIT, s, 0) && s.world.queue == map[] && Stands(s, 0, L.AddJob(L.ProvisionTask(j, k, "s")))
    ensures OneCluster(s.world.db, o, k) && s.world.db.deployments == map[]
  {
    hide Reached;
    s, o := NewOrganization(x, cipher);
    s := FindsNoCluster(x, cipher, s, o);
    var c;
    s, c := Takes(x, cipher, s, 0, L.AddCluster("s", o), Works(0), Answered);
    k, j := c.row, c.job;
  }

  lemma FindsNoCluster(x: Option<Condition>, cipher: Option<Aead>, s: State, o: Id) returns (s': State)
    requires Reached(x, cipher, s) && Stands(s, 0, L.FindCluster("s", o)) && s.world.db.clusters == map[]
    ensures OnlyMoved(x, cipher, s, s', 0) && Stands(s', 0, L.AddCluster("s", o))
  {
    hide Reached, L.ClusterNamed, L.AfterAttempt;
    Named(s.world.db, 0, 0);
    var c;
    s', c := Takes(x, cipher, s, 0, L.FindCluster("s", o), Works(0), Answered);
  }

  /** A provision task is held, its cluster not yet made. */
  lemma HeldProvision(x: Option<Condition>, cipher: Option<Aead>) returns (s: State, o: Id, k: Id, p: L.Payload)
    ensures p == L.ProvisionTask(p.job, k, "s")
    ensures Reached(x, cipher, s) && s.proxy == D.INIT && s.world.procs == map[]
    ensures s.world.queue == map[L.ProvisionId(k) := p]
    ensures OneCluster(s.world.db, o, k) && s.world.db.deployments == map[]
  {
    hide Reached;
    var j;
    s, o, k, j := NewCluster(x, cipher);
    p := L.ProvisionTask(j, k, "s");
    s := Records(x, cipher, s, 0, p);
    s := Enqueues(x, cipher, s, 0, p);
  }

  /** An attempt of the provision task is picked up. */
  lemma Provisions(x: Option<Condition>, cipher: Option<Aead>, s0: State, t: nat, o: Id, p: L.Payload) returns (s: State)
    requires Reached(x, cipher, s0) && t !in s0.world.procs && MayStart(x, s0)
    requires p.ProvisionTask? && L.ProvisionId(p.cluster) in s0.world.queue && s0.world.queue[L.ProvisionId(p.cluster)] == p
    requires OneCluster(s0.world.db, o, p.cluster)
    ensures Moved(x, cipher, s0, s, t) && s.world.queue == s0.world.queue && Stands(s, t, L.Attempt(p, [], L.RunPulumi))
    ensures OneCluster(s.world.db, o, p.cluster) && s.world.db.deployments == s0.world.db.deployments
  {
    hide Reached;
    s := Attempts(x, cipher, s0, t, p);
    s := TwoCalls(x, cipher, s, t, p, L.FirstCalls(p), L.RunPulumi, Answered);
  }

  /** Pulumi works and the write of what it brought takes effect. */
  lemma Saves(x: Option<Condition>, cipher: Option<Aead>, s0: State, t: nat, o: Id, p: L.Payload, fault: Fault)
      returns (s: State)
    requires Reached(x, cipher, s0) && p.ProvisionTask? && Stands(s0, t, L.Attempt(p, [], L.RunPulumi))
    requires OneCluster(s0.world.db, o, p.cluster) && !fault.Refused? && (fault.Answered? || x == Some(WritesSucceed))
    ensures Moved(x, cipher, s0, s, t) && s.world.queue == s0.world.queue
    ensures Stands(s, t, if fault.Answered? then L.Attempt(p, [SetJobStatus(p.job, Completed, "")], L.End(true))
                         else L.Attempt(p, L.FailCalls(p, ""), L.End(false)))
    ensures OneCluster(s.world.db, o, p.cluster) && IsUp(s.world.db, p.cluster)
    ensures s.world.db.deployments == s0.world.db.deployments
  {
    hide Reached, L.FailCalls;
    var saving := L.SaveCluster(L.RunOf(p, Works(0).outputs));
    s := Outside(x, cipher, s0, t, p, L.RunPulumi, Works(0), [], saving);
    hide L.AfterAttempt;
    var c;
    s, c := Takes(x, cipher, s, t, L.Attempt(p, [], saving), Works(0).(fault := fault), Answered);
    DetailsSaved(cipher, s0.world.db, o, p, c);
  }

  lemma DetailsSaved(cipher: Option<Aead>, db: Db, o: Id, p: L.Payload, c: L.Choice)
    requires p.ProvisionTask? && OneCluster(db, o, p.cluster) && !c.fault.Refused? && c.outputs.ip == IP && c.message == ""
    ensures var proc := L.Attempt(p, [], L.SaveCluster(L.RunOf(p, c.outputs)));
            var db' := L.DbAfter(cipher, db, proc, c);
            && OneCluster(db', o, p.cluster) && IsUp(db', p.cluster) && db'.deployments == db.deployments
            && L.QueueAfter(map[], proc, c) == map[]
            && L.After(db, proc, c, L.CallOk(cipher, db, proc, c)) ==
               Some(if c.fault.Answered? then L.Attempt(p, [SetJobStatus(p.job, Completed, "")], L.End(true))
                    else L.Attempt(p, L.FailCalls(p, ""), L.End(false)))
  {
    hide L.KubeconfigOf, L.FailCalls;
    assert [] + [SetJobStatus(p.job, Completed, "")] == [SetJobStatus(p.job, Completed, "")];
  }

  /** The cluster becomes active, and its task is done. */
  lemma ComesUp(x: Option<Condition>, cipher: Option<Aead>, s0: State, t: nat, o: Id, p: L.Payload) returns (s: State)
    requires Reached(x, cipher, s0) && t !in s0.world.procs && MayStart(x, s0)
    requires p.ProvisionTask? && L.ProvisionId(p.cluster) in s0.world.queue && s0.world.queue[L.ProvisionId(p.cluster)] == p
    requires OneCluster(s0.world.db, o, p.cluster)
    ensures Reached(x, cipher, s) && s.proxy == s0.proxy && s.world.procs == s0.world.procs
    ensures s.world.queue == s0.world.queue - {L.ProvisionId(p.cluster)}
    ensures OneCluster(s.world.db, o, p.cluster) && IsUp(s.world.db, p.cluster)
    ensures s.world.db.deployments == s0.world.db.deployments
  {
    hide Reached;
    s := Provisions(x, cipher, s0, t, o, p);
    s := Saves(x, cipher, s, t, o, p, Answered);
    s := Completes(x, cipher, s, t, p);
    assert Others(s0, t) == s0.world.procs;
  }

  /** An attempt whose Pulumi run fails leaves the cluster failed. */
  lemma GivesUp(x: Option<Condition>, cipher: Option<Aead>, s0: State, t: nat, p: L.Payload, k: Id) returns (s: State)
    requires Reached(x, cipher, s0) && k in s0.world.db.clusters
    requires (p.ProvisionTask? && p.cluster == k && Stands(s0, t, L.Attempt(p, [], L.RunPulumi))) ||
             (p.DestroyTask? && p.target == Some(k) && Stands(s0, t, L.Attempt(p, [], L.RunPulumiDestroy)))
    ensures Reached(x, cipher, s) && s.proxy == s0.proxy && s.world.procs == Others(s0, t) && s.world.queue == s0.world.queue
    ensures var row := s0.world.db.clusters[k].(status := ClusterStatus.Failed);
            s.world.db == s0.world.db.(clusters := s0.world.db.clusters[k := row], jobs := s.world.db.jobs)
  {
    hide Reached, L.AfterHandler, L.TaskIdOf;
    var calls := [SetClusterStatus(k, ClusterStatus.Failed), SetJobStatus(p.job, JobStatus.Failed, "")];
    assert L.FailCalls(p, "") == calls;
    hide L.FailCalls;
    s := Outside(x, cipher, s0, t, p, s0.world.procs[t].stage, Fails(), calls, L.End(false));
    s := TwoCalls(x, cipher, s, t, p, calls, L.End(false), Answered);
    s := Ends(x, cipher, s, t, p, false, Answered);
  }

  // ----- A deployment -----

  const URL := L.ServiceUrl(IP, 30000)

  /** One deployment, of model "m", active on the active cluster. */
  ghost predicate Serves(db: Db, k: Id, d: Id) {
    && db.deployments.Keys == {d} && db.deployments[d].cluster == k && db.deployments[d].model == "m"
    && db.deployments[d].status.Active? && db.deployments[d].serviceUrl == URL && IsUp(db, k)
  }

  lemma LowerName()
    ensures L.DeployedName("m") == "m" && ToLower("m") == "m"
  {
    assert UnderscoresToDashes("m") == "m" && ToLower("m") == "m";
  }

  /** A deploy request for model "m" finds the active cluster. */
  lemma FindsCluster(x: Option<Condition>, cipher: Option<Aead>, s0: State, k: Id) returns (s: State)
    requires Reached(x, cipher, s0) && s0.world.procs == map[] && MayStart(x, s0) && IsUp(s0.world.db, k)
    ensures OnlyMoved(x, cipher, s0, s, 0) && Stands(s, 0, L.AddDeployment("m", "default", 30000, k))
  {
    hide Reached, L.OrgNamed, L.ClusterNamed, L.AfterAttempt;
    LowerName();
    hide L.DeployedName;
    var c;
    s := Begin(x, cipher, s0, 0, L.FindForDeploy("m", "", 30000));
    s, c := Takes(x, cipher, s, 0, L.FindForDeploy("m", "", 30000), Works(k), Answered);
  }

  lemma AddsDeployment(x: Option<Condition>, cipher: Option<Aead>, s0: State, k: Id)
      returns (s: State, d: Id, p: L.Payload)
    requires Reached(x, cipher, s0) && s0.world.procs == map[] && MayStart(x, s0) && IsUp(s0.world.db, k)
    requires s0.world.db.deployments == map[]
    ensures p == L.DeployTask(p.job, d, k, "m", 30000)
    ensures Moved(x, cipher, s0, s, 0) && s.world.queue == s0.world.queue && Stands(s, 0, L.AddJob(p))
    ensures s.world.db ==
              s0.world.db.(deployments := map[d := DeploymentRow(k, "m", "default", 30000, Pending, "", 0)])
  {
    hide Reached, L.OrgNamed, L.ClusterNamed, L.AfterAttempt;
    s := FindsCluster(x, cipher, s0, k);
    var c;
    s, c := Takes(x, cipher, s, 0, L.AddDeployment("m", "default", 30000, k), Works(0), Answered);
    d, p := c.row, L.DeployTask(c.job, c.row, k, "m", 30000);
  }

  /** A deploy task is held for a pending row. */
  lemma OrdersDeployment(x: Option<Condition>, cipher: Option<Aead>, s0: State, k: Id)
      returns (s: State, d: Id, p: L.Payload)
    requires Reached(x, cipher, s0) && s0.world.procs == map[] && MayStart(x, s0) && IsUp(s0.world.db, k)
    requires s0.world.db.deployments == map[] && forall id :: id in s0.world.queue ==> id.ProvisionId?
    ensures p == L.DeployTask(p.job, d, k, "m", 30000)
    ensures Reached(x, cipher, s) && s.proxy == s0.proxy && s.world.procs == map[]
    ensures s.world.queue == s0.world.queue[L.DeployId(d) := p]
    ensures var rows := map[d := DeploymentRow(k, "m", "default", 30000, Pending, "", 0)];
            s.world.db == s0.world.db.(deployments := rows, jobs := s.world.db.jobs)
  {
    hide Reached;
    s, d, p := AddsDeployment(x, cipher, s0, k);
    s := Records(x, cipher, s, 0, p);
    s := Enqueues(x, cipher, s, 0, p);
  }

  /** Its attempt makes the two status updates. */
  lemma BeginsDeploy(x: Option<Condition>, cipher: Option<Aead>, s0: State, p: L.Payload) returns (s: State)
    requires Reached(x, cipher, s0) && s0.world.procs == map[] && MayStart(x, s0)
    requires p.DeployTask? && s0.world.db.deployments.Keys == {p.deployment}
    requires L.DeployId(p.deployment) in s0.world.queue && s0.world.queue[L.DeployId(p.deployment)] == p
    ensures Moved(x, cipher, s0, s, 0) && s.world.queue == s0.world.queue
    ensures Stands(s, 0, L.Attempt(p, [], L.ReadCluster)) && OnlyUpdated(s0.world.db, s.world.db, p.deployment)
  {
    hide Reached;
    s := Attempts(x, cipher, s0, 0, p);
    s := TwoCalls(x, cipher, s, 0, p, L.FirstCalls(p), L.ReadCluster, Answered);
  }

  /** It reads the cluster's address. */
  lemma Reads(x: Option<Condition>, cipher: Option<Aead>, s0: State, p: L.Payload) returns (s: State)
    requires Reached(x, cipher, s0) && p.DeployTask? && IsUp(s0.world.db, p.cluster)
    requires Stands(s0, 0, L.Attempt(p, [], L.ReadCluster))
    ensures OnlyMoved(x, cipher, s0, s, 0) && Stands(s, 0, L.Attempt(p, [], L.ApplyModel(IP)))
  {
    hide Reached;
    s := Outside(x, cipher, s0, 0, p, L.ReadCluster, Works(0), [], L.ApplyModel(IP));
  }

  /** Nothing but what changes in the only deployment's row, and job rows, has changed. */
  predicate OnlyUpdated(db: Db, db': Db, d: Id) {
    && db'.orgs == db.orgs && db'.clusters == db.clusters && db.deployments.Keys == db'.deployments.Keys == {d}
    && S.SamePlace(db'.deployments[d], db.deployments[d])
  }

  /** The manifests are applied and the node port answers. */
  lemma Applies(x: Option<Condition>, cipher: Option<Aead>, s0: State, p: L.Payload) returns (s: State)
    requires Reached(x, cipher, s0) && p.DeployTask? && Stands(s0, 0, L.Attempt(p, [], L.ApplyModel(IP)))
    requires s0.world.db.deployments.Keys == {p.deployment}
    ensures Moved(x, cipher, s0, s, 0) && s.world.queue == s0.world.queue
    ensures Stands(s, 0, L.Attempt(p, [], L.SaveUrl(IP))) && OnlyUpdated(s0.world.db, s.world.db, p.deployment)
  {
    hide Reached;
    var deploying := SetDeploymentStatus(p.deployment, Deploying);
    s := Outside(x, cipher, s0, 0, p, L.ApplyModel(IP), Works(0), [deploying], L.AwaitHealth(IP));
    assert [deploying] == [deploying] + [];
    s := Calls(x, cipher, s, 0, p, deploying, [], L.AwaitHealth(IP), Answered);
    s := Outside(x, cipher, s, 0, p, L.AwaitHealth(IP), Works(0), [], L.SaveUrl(IP));
  }

  lemma Activates(x: Option<Condition>, cipher: Option<Aead>, s0: State, p: L.Payload) returns (s: State)
    requires Reached(x, cipher, s0) && p.DeployTask? && p.nodePort == 30000 && Stands(s0, 0, L.Attempt(p, [], L.SaveUrl(IP)))
    requires s0.world.db.deployments.Keys == {p.deployment}
    ensures Moved(x, cipher, s0, s, 0) && s.world.queue == s0.world.queue
    ensures Stands(s, 0, L.Attempt(p, [SetJobStatus(p.job, Completed, "")], L.End(true)))
    ensures OnlyUpdated(s0.world.db, s.world.db, p.deployment)
    ensures var row := s.world.db.deployments[p.deployment]; row.status.Active? && row.serviceUrl == URL
  {
    hide Reached, L.AfterHandler, L.Fails, L.ServiceUrl;
    var c;
    s, c := Takes(x, cipher, s0, 0, L.Attempt(p, [], L.SaveUrl(IP)), Works(0), Answered);
    assert [] + [SetJobStatus(p.job, Completed, "")] == [SetJobStatus(p.job, Completed, "")];
  }

  lemma DropFromNothing(proxy: D.State, model: string, drop: Fault)
    requires proxy.cache == map[]
    ensures D.Next(proxy, D.WorkerDrop(model, drop)) == proxy
  {
    hide TrimSpace, ModelTargetsKey;
  }

  lemma Finishes(x: Option<Condition>, cipher: Option<Aead>, s0: State, p: L.Payload) returns (s: State)
    requires Reached(x, cipher, s0) && p.DeployTask? && p.nodePort == 30000 && Stands(s0, 0, L.Attempt(p, [], L.SaveUrl(IP)))
    requires s0.world.db.deployments.Keys == {p.deployment} && s0.proxy.cache == map[]
    ensures Reached(x, cipher, s) && s.proxy == s0.proxy && s.world.procs == Others(s0, 0)
    ensures s.world.queue == s0.world.queue - {L.DeployId(p.deployment)}
    ensures OnlyUpdated(s0.world.db, s.world.db, p.deployment)
    ensures var row := s.world.db.deployments[p.deployment]; row.status.Active? && row.serviceUrl == URL
  {
    hide Reached, L.ServiceUrl, D.Next;
    s := Activates(x, cipher, s0, p);
    s := Completes(x, cipher, s, 0, p);
    DropFromNothing(s0.proxy, p.model, Answered);
  }

  /** A deployment is ordered and becomes active. */
  lemma Deploys(x: Option<Condition>, cipher: Option<Aead>, s0: State, o: Id, k: Id) returns (s: State, d: Id)
    requires Reached(x, cipher, s0) && s0.proxy == D.INIT && s0.world.procs == map[]
    requires OneCluster(s0.world.db, o, k) && IsUp(s0.world.db, k)
    requires s0.world.db.deployments == map[] && forall id :: id in s0.world.queue ==> id.ProvisionId?
    ensures Reached(x, cipher, s) && s.proxy == D.INIT && s.world.procs == map[] && s.world.queue == s0.world.queue
    ensures OneCluster(s.world.db, o, k) && Serves(s.world.db, k, d)
  {
    hide Reached, L.ServiceUrl;
    var p;
    s, d, p := OrdersDeployment(x, cipher, s0, k);
    assert s.world.queue - {L.DeployId(d)} == s0.world.queue;
    s := BeginsDeploy(x, cipher, s, p);
    s := Reads(x, cipher, s, p);
    s := Applies(x, cipher, s, p);
    s := Finishes(x, cipher, s, p);
  }

  // ----- Resolving model "m" -----

  lemma ListsTheDeployment(db: Db, k: Id, d: Id)
    requires Serves(db, k, d)
    ensures IsListing(db, "m", [URL])
  {
    assert IsTarget(db, "m", db.deployments[d]);
    assert IsCursor(db, "m", [d]);
  }

  lemma ResolverTakes(x: Option<Condition>, cipher: Option<Aead>, s: State, e: D.Event) returns (s': State)
    requires Reached(x, cipher, s) && s.world.procs == map[] && !e.WorkerDrop?
    requires e.List? && e.fault.Answered? && e.thread in s.proxy.resolvers ==>
               IsListing(s.world.db, s.proxy.resolvers[e.thread].model, e.targets)
    ensures Reached(x, cipher, s') && s' == s.(proxy := D.Next(s.proxy, e))
  {
    hide Reached, D.Next, IsListing;
    s' := Occurs(cipher, s, Resolve(e));
    Extend(x, cipher, s, Resolve(e));
  }

  /** A request has listed and probed the target and is about to cache it. */
  const WRITING := D.State(0, map[], map[0 := D.Writing("m", [URL], 0)], [D.Listing("m", [URL], 0)], [])

  /** It has cached the target and been sent to it. */
  const FILLED :=
    D.State(0, map[ModelTargetsKey("m") := D.Entry([URL], D.TTL)], map[],
            [D.Listing("m", [URL], 0)], [D.Served("m", URL, 0)])

  lemma ReadListProbe()
    ensures var read := D.Next(D.INIT, D.Read(0, "m", Answered));
            && read.resolvers == map[0 := D.Asking("m")]
            && D.Next(D.Next(read, D.List(0, [URL], Answered)), D.Probe(0, [true])) == WRITING
  {
    assert TrimSpace("m") == "m" && Keep([URL], [true]) == [URL];
    hide TrimSpace, Keep, L.ServiceUrl, ModelTargetsKey;
  }

  lemma WriteAndChoose()
    ensures D.Next(D.Next(WRITING, D.WriteBack(0, Answered)), D.Choose(0, 0)) == FILLED
  {
    hide L.ServiceUrl, ModelTargetsKey;
  }

  lemma Resolves(x: Option<Condition>, cipher: Option<Aead>, s0: State, k: Id, d: Id) returns (s: State)
    requires Reached(x, cipher, s0) && s0.proxy == D.INIT && s0.world.procs == map[] && Serves(s0.world.db, k, d)
    ensures Reached(x, cipher, s) && s == s0.(proxy := WRITING)
  {
    hide *;
    ListsTheDeployment(s0.world.db, k, d);
    ReadListProbe();
    s := ResolverTakes(x, cipher, s0, D.Read(0, "m", Answered));
    s := ResolverTakes(x, cipher, s, D.List(0, [URL], Answered));
    s := ResolverTakes(x, cipher, s, D.Probe(0, [true]));
  }

  lemma Caches(x: Option<Condition>, cipher: Option<Aead>, s0: State) returns (s: State)
    requires Reached(x, cipher, s0) && s0.proxy == WRITING && s0.world.procs == map[]
    ensures Reached(x, cipher, s) && s == s0.(proxy := FILLED)
  {
    hide *;
    WriteAndChoose();
    s := ResolverTakes(x, cipher, s0, D.WriteBack(0, Answered));
    s := ResolverTakes(x, cipher, s, D.Choose(0, 0));
  }

  /** The cluster and the deployment are active, the target is cached, and nothing is at work. */
  lemma Serving(x: Option<Condition>, cipher: Option<Aead>) returns (s: State, o: Id, k: Id, d: Id)
    ensures Reached(x, cipher, s) && s.proxy == FILLED && s.world.procs == map[] && s.world.queue == map[]
    ensures OneCluster(s.world.db, o, k) && Serves(s.world.db, k, d)
  {
    hide Reached, Serves, IsUp, L.ServiceUrl, ModelTargetsKey;
    s, o, k, d := Deployed(x, cipher);
    s := Resolves(x, cipher, s, k, d);
    s := Caches(x, cipher, s);
  }

  lemma Deployed(x: Option<Condition>, cipher: Option<Aead>) returns (s: State, o: Id, k: Id, d: Id)
    ensures Reached(x, cipher, s) && s.proxy == D.INIT && s.world.procs == map[] && s.world.queue == map[]
    ensures OneCluster(s.world.db, o, k) && Serves(s.world.db, k, d)
  {
    hide Reached, Serves, IsUp, OneCluster;
    var p;
    s, o, k, p := HeldProvision(x, cipher);
    s := ComesUp(x, cipher, s, 0, o, p);
    s, d := Deploys(x, cipher, s, o, k);
  }

  // ----- A delete of the deployment -----

  lemma RequestsDelete(x: Option<Condition>, cipher: Option<Aead>, s0: State, k: Id, d: Id)
      returns (s: State, p: L.Payload)
    requires Reached(x, cipher, s0) && s0.world.queue == map[] && s0.world.procs == map[] && MayStart(x, s0)
    requires Serves(s0.world.db, k, d)
    ensures p == L.DeleteTask(p.job, d, k, "m")
    ensures Reached(x, cipher, s) && s == s0.(world := s.world) && s.world.db == s0.world.db && s.world.procs == map[]
    ensures s.world.queue == map[L.DeleteId(d) := p]
  {
    hide Reached, L.OrgNamed, L.ClusterNamed, L.AfterAttempt, L.ServiceUrl;
    var c;
    s := Begin(x, cipher, s0, 0, L.FindForDelete(d));
    s, c := Takes(x, cipher, s, 0, L.FindForDelete(d), Works(0), Answered);
    p := L.DeleteTask(c.job, d, k, "m");
    hide L.After, L.DbAfter, L.QueueAfter;
    s := Enqueues(x, cipher, s, 0, p);
  }

  /** The attempt takes the deployment out of "active". */
  lemma BeginsDelete(x: Option<Condition>, cipher: Option<Aead>, s0: State, k: Id, d: Id) returns (s: State, p: L.Payload)
    requires Reached(x, cipher, s0) && s0.world.queue == map[] && s0.world.procs == map[] && MayStart(x, s0)
    requires Serves(s0.world.db, k, d)
    ensures p == L.DeleteTask(p.job, d, k, "m")
    ensures Moved(x, cipher, s0, s, 0) && Stands(s, 0, L.Attempt(p, [], L.ReadCluster))
    ensures s.world.db.deployments.Keys == {d} && !s.world.db.deployments[d].status.Active?
  {
    hide Reached, L.ServiceUrl;
    s, p := RequestsDelete(x, cipher, s0, k, d);
    s := Attempts(x, cipher, s, 0, p);
    s := TwoCalls(x, cipher, s, 0, p, L.FirstCalls(p), L.ReadCluster, Answered);
  }

  /** It cannot read the cluster and gives up. */
  lemma FailsDelete(x: Option<Condition>, cipher: Option<Aead>, s0: State, p: L.Payload, drop: Fault) returns (s: State)
    requires Reached(x, cipher, s0) && p.DeleteTask? && Stands(s0, 0, L.Attempt(p, [], L.ReadCluster))
    requires drop.Answered? || x == Some(DeletionsSucceed)
    ensures Reached(x, cipher, s) && s.world.procs == Others(s0, 0)
    ensures s.world.db == s0.world.db.(jobs := s.world.db.jobs)
    ensures s.proxy == D.Next(s0.proxy, D.WorkerDrop(p.model, drop))
  {
    hide Reached, L.TaskIdOf, D.Next;
    var last := SetJobStatus(p.job, JobStatus.Failed, "");
    s := Outside(x, cipher, s0, 0, p, L.ReadCluster, Works(0).(fault := Refused), [last], L.End(false));
    assert [last] == [last] + [];
    s := Calls(x, cipher, s, 0, p, last, [], L.End(false), Answered);
    s := Ends(x, cipher, s, 0, p, false, drop);
  }

  // ----- Every condition is needed -----

  /** Nothing is at work, the next request for model "m" is sent to the cached target, and no listing has it. */
  ghost predicate EndsStale(s: State) {
    && Idle(s) && D.Live(s.proxy.cache, ModelTargetsKey("m"), s.proxy.now) == Some([URL])
    && forall listing :: IsListing(s.world.db, ToLower("m"), listing) ==> URL !in listing
  }

  lemma NothingListed(db: Db, d: Id, model: string, targets: seq<string>)
    requires db.deployments.Keys == {d} && !IsTarget(db, model, db.deployments[d]) && IsListing(db, model, targets)
    ensures targets == []
  {
    hide IsListing, IsTarget;
    if targets != [] {
      ListingMembers(db, model, targets, targets[0]);
    }
  }

  lemma IsStale(s: State, d: Id)
    requires s.world.procs == map[] && s.proxy == FILLED && s.world.db.deployments.Keys == {d}
    requires forall model :: !IsTarget(s.world.db, model, s.world.db.deployments[d])
    ensures EndsStale(s)
  {
    hide IsListing, IsTarget, ToLower, ModelTargetsKey, L.ServiceUrl;
    forall listing | IsListing(s.world.db, ToLower("m"), listing) ensures URL !in listing {
      NothingListed(s.world.db, d, ToLower("m"), listing);
    }
  }

  /** A delete during a resolve: the resolve writes the target back. */
  lemma OverlapEndsStale(cipher: Option<Aead>) returns (s: State)
    ensures Reached(Some(NotWhileResolving), cipher, s) && EndsStale(s)
  {
    hide Reached, EndsStale, Serves, OneCluster, L.ServiceUrl, ModelTargetsKey, D.Next;
    var x := Some(NotWhileResolving);
    var o, k, d, p;
    s, o, k, d := Deployed(x, cipher);
    s := Resolves(x, cipher, s, k, d);
    s, p := BeginsDelete(x, cipher, s, k, d);
    s := FailsDelete(x, cipher, s, p, Answered);
    DropFromNothing(WRITING, "m", Answered);
    s := Caches(x, cipher, s);
    IsStale(s, d);
  }

  /** A delete whose deletion of the keys is refused. */
  lemma KeptKeysEndStale(cipher: Option<Aead>) returns (s: State)
    ensures Reached(Some(DeletionsSucceed), cipher, s) && EndsStale(s)
  {
    hide Reached, EndsStale, Serves, OneCluster, L.ServiceUrl, ModelTargetsKey, TrimSpace;
    var x := Some(DeletionsSucceed);
    var o, k, d, p;
    s, o, k, d := Serving(x, cipher);
    s, p := BeginsDelete(x, cipher, s, k, d);
    s := FailsDelete(x, cipher, s, p, Refused);
    IsStale(s, d);
  }

  /** A delete that crashes before it deletes the keys. */
  lemma CrashEndsStale(cipher: Option<Aead>) returns (s: State)
    ensures Reached(Some(NoCrashes), cipher, s) && EndsStale(s)
  {
    hide Reached, EndsStale, Serves, OneCluster, L.ServiceUrl, ModelTargetsKey;
    var x := Some(NoCrashes);
    var o, k, d, p;
    s, o, k, d := Serving(x, cipher);
    s, p := BeginsDelete(x, cipher, s, k, d);
    Extend(x, cipher, s, Handle(L.Crash(0), Answered));
    s := Occurs(cipher, s, Handle(L.Crash(0), Answered));
    IsStale(s, d);
  }

  /** A destroy task, which deletes no keys. */
  lemma DestroyEndsStale(cipher: Option<Aead>) returns (s: State)
    ensures Reached(Some(NoDestroys), cipher, s) && EndsStale(s)
  {
    hide Reached, EndsStale, OneCluster, L.ServiceUrl, ModelTargetsKey;
    var x := Some(NoDestroys);
    var o, k, d, p;
    s, o, k, d := Serving(x, cipher);
    s, p := RequestsDestroy(x, cipher, s, o, k);
    s := BeginsDestroy(x, cipher, s, k, p);
    s := GivesUp(x, cipher, s, 0, p, k);
    IsStale(s, d);
  }

  lemma BeginsDestroy(x: Option<Condition>, cipher: Option<Aead>, s0: State, k: Id, p: L.Payload) returns (s: State)
    requires Reached(x, cipher, s0) && p == L.DestroyTask(p.job, Some(k), "s") && k in s0.world.db.clusters
    requires Stands(s0, 0, L.Enqueue(p)) && s0.world.queue == map[] && Others(s0, 0) == map[] && s0.proxy.resolvers == map[]
    ensures Moved(x, cipher, s0, s, 0) && Stands(s, 0, L.Attempt(p, [], L.RunPulumiDestroy))
    ensures s.world.db.deployments == s0.world.db.deployments && k in s.world.db.clusters
  {
    hide Reached;
    var calls := [SetJobStatus(p.job, JobStatus.Running, ""), SetClusterStatus(k, Destroying)];
    s := Enqueues(x, cipher, s0, 0, p);
    s := Attempts(x, cipher, s, 0, p);
    assert L.FirstCalls(p) == calls;
    hide L.FirstCalls;
    s := MarksDestroying(x, cipher, s, p, k, calls);
  }

  lemma MarksDestroying(x: Option<Condition>, cipher: Option<Aead>, s0: State, p: L.Payload, k: Id, calls: seq<Statement>)
      returns (s: State)
    requires Reached(x, cipher, s0) && k in s0.world.db.clusters
    requires calls == [SetJobStatus(p.job, JobStatus.Running, ""), SetClusterStatus(k, Destroying)]
    requires Stands(s0, 0, L.Attempt(p, calls, L.RunPulumiDestroy))
    ensures Moved(x, cipher, s0, s, 0) && Stands(s, 0, L.Attempt(p, [], L.RunPulumiDestroy))
    ensures s.world.db.deployments == s0.world.db.deployments && k in s.world.db.clusters
  {
    hide Reached;
    assert calls == [calls[0]] + [calls[1]] && [calls[1]] == [calls[1]] + [];
    s := Calls(x, cipher, s0, 0, p, calls[0], [calls[1]], L.RunPulumiDestroy, Answered);
    s := Calls(x, cipher, s, 0, p, calls[1], [], L.RunPulumiDestroy, Answered);
  }

  lemma RequestsDestroy(x: Option<Condition>, cipher: Option<Aead>, s0: State, o: Id, k: Id) returns (s: State, p: L.Payload)
    requires Reached(x, cipher, s0) && x == Some(NoDestroys) && s0.world.procs == map[] && MayStart(x, s0)
    requires OneCluster(s0.world.db, o, k) && IsUp(s0.world.db, k)
    ensures p == L.DestroyTask(p.job, Some(k), "s")
    ensures Moved(x, cipher, s0, s, 0) && Stands(s, 0, L.Enqueue(p)) && s.world.queue == s0.world.queue
    ensures s.world.db == s0.world.db.(jobs := s.world.db.jobs)
  {
    hide Reached, L.ClusterNamed, L.OrgNamed, L.AfterAttempt;
    Named(s0.world.db, o, k);
    var c;
    s := Begin(x, cipher, s0, 0, L.FindForDestroy("s"));
    s, c := Takes(x, cipher, s, 0, L.FindForDestroy("s"), Works(0), Answered);
    p := L.DestroyTask(c.job, Some(k), "s");
    hide L.After, L.DbAfter, L.QueueAfter;
    s := Records(x, cipher, s, 0, p);
  }

  /** When an active cluster's provision task is still held, a retry takes the cluster down without deleting keys. */
  lemma RetryEndsStale(x: Option<Condition>, cipher: Option<Aead>, s0: State, o: Id, p: L.Payload) returns (s: State)
    requires Reached(x, cipher, s0) && s0.proxy == D.INIT && s0.world.procs == map[]
    requires p.ProvisionTask? && s0.world.queue == map[L.ProvisionId(p.cluster) := p]
    requires OneCluster(s0.world.db, o, p.cluster) && IsUp(s0.world.db, p.cluster) && s0.world.db.deployments == map[]
    ensures Reached(x, cipher, s) && EndsStale(s)
  {
    hide Reached, EndsStale, L.ServiceUrl, ModelTargetsKey, D.Next;
    var d;
    s, d := Deploys(x, cipher, s0, o, p.cluster);
    s := Resolves(x, cipher, s, p.cluster, d);
    s := Caches(x, cipher, s);
    s := Provisions(x, cipher, s, 0, o, p);
    s := GivesUp(x, cipher, s, 0, p, p.cluster);
    IsStale(s, d);
  }

  /** The write of the address takes effect unanswered and the write of the failure is refused: the cluster is active and
      its task still held. */
  lemma LostWritesEndStale(cipher: Option<Aead>) returns (s: State)
    ensures Reached(Some(WritesSucceed), cipher, s) && EndsStale(s)
  {
    hide Reached, EndsStale, L.ServiceUrl, D.Next;
    var x := Some(WritesSucceed);
    var o, k, p;
    s, o, k, p := HeldProvision(x, cipher);
    s := Provisions(x, cipher, s, 0, o, p);
    s := Saves(x, cipher, s, 0, o, p, Unacknowledged);
    s := TwoCalls(x, cipher, s, 0, p, L.FailCalls(p, ""), L.End(false), Refused);
    s := Ends(x, cipher, s, 0, p, false, Answered);
    s := RetryEndsStale(x, cipher, s, o, p);
  }

  /** A second request for the stack finds the cluster failed and resets it, but enqueues only after the first task has
      made the cluster active: the cluster is active and the second task held. */
  lemma RaceEndsStale(cipher: Option<Aead>) returns (s: State)
    ensures Reached(Some(OneAtATime), cipher, s) && EndsStale(s)
  {
    hide Reached, EndsStale, L.ServiceUrl, D.Next;
    var x := Some(OneAtATime);
    var o, k, p, q;
    s, o, k, p := HeldProvision(x, cipher);
    s := Provisions(x, cipher, s, 0, o, p);
    s := GivesUp(x, cipher, s, 0, p, k);
    s, q := ResetsStack(x, cipher, s, o, k);
    s := ComesUp(x, cipher, s, 0, o, p);
    s := Enqueues(x, cipher, s, 1, q);
    s := RetryEndsStale(x, cipher, s, o, q);
  }

  lemma FindsFailed(x: Option<Condition>, cipher: Option<Aead>, s0: State, o: Id, k: Id) returns (s: State)
    requires Reached(x, cipher, s0) && s0.world.procs == map[] && MayStart(x, s0)
    requires OneCluster(s0.world.db, o, k) && s0.world.db.clusters[k].status.Failed?
    ensures OnlyMoved(x, cipher, s0, s, 1) && Stands(s, 1, L.Reset("s", k))
  {
    hide Reached, L.ClusterNamed, L.OrgNamed, L.AfterAttempt, Called, Violates;
    Named(s0.world.db, o, k);
    var c;
    s := Begin(x, cipher, s0, 1, L.FindOrg("s"));
    s, c := Takes(x, cipher, s, 1, L.FindOrg("s"), Works(0), Answered);
    s, c := Takes(x, cipher, s, 1, L.FindCluster("s", o), Works(0), Answered);
  }

  lemma ResetsStack(x: Option<Condition>, cipher: Option<Aead>, s0: State, o: Id, k: Id) returns (s: State, q: L.Payload)
    requires Reached(x, cipher, s0) && s0.world.procs == map[] && MayStart(x, s0)
    requires OneCluster(s0.world.db, o, k) && s0.world.db.clusters[k].status.Failed?
    ensures q == L.ProvisionTask(q.job, k, "s")
    ensures Moved(x, cipher, s0, s, 1) && Stands(s, 1, L.Enqueue(q)) && s.world.queue == s0.world.queue
    ensures OneCluster(s.world.db, o, k) && s.world.db.deployments == s0.world.db.deployments
  {
    hide Reached, L.ClusterNamed, L.OrgNamed, L.AfterAttempt;
    var c;
    s := FindsFailed(x, cipher, s0, o, k);
    s, c := Takes(x, cipher, s, 1, L.Reset("s", k), Works(0), Answered);
    q := L.ProvisionTask(c.job, k, "s");
    hide L.After, L.DbAfter, L.QueueAfter;
    s := Records(x, cipher, s, 1, q);
  }

  lemma Witness(x: Option<Condition>, cipher: Option<Aead>, s: State) returns (es: seq<Event>)
    requires Reached(x, cipher, s)
    ensures RunWithout(x, cipher, es) == s
  {
    es :| RunWithout(x, cipher, es) == s;
  }

  /** Each of the conditions is needed: without it, and with all the others, some run ends with nothing at work and a
      live cache entry for a target that no listing has. */
  lemma EveryConditionIsNeeded(cipher: Option<Aead>, x: Condition) returns (es: seq<Event>)
    ensures EndsStale(RunWithout(Some(x), cipher, es))
  {
    hide *;
    var s;
    match x {
      case OneAtATime => s := RaceEndsStale(cipher);
      case NotWhileResolving => s := OverlapEndsStale(cipher);
      case WritesSucceed => s := LostWritesEndStale(cipher);
      case DeletionsSucceed => s := KeptKeysEndStale(cipher);
      case NoDestroys => s := DestroyEndsStale(cipher);
      case NoCrashes => s := CrashEndsStale(cipher);
    }
    es := Witness(Some(x), cipher, s);
  }

  // ----- A name with an upper-case letter -----

  /** Then a request for model "M" has been sent to the cached target, too. */
  const SHARED := FILLED.(served := [D.Served("m", URL, 0), D.Served("M", URL, 0)])

  /** What a request for "M" does once the entry has expired. */
  const LATER := [Resolve(D.Tick(D.TTL + 1)), Resolve(D.Read(0, "M", Answered)), Resolve(D.List(0, [], Answered))]

  lemma Shares()
    ensures ToLower("M") == "m"
    ensures D.Next(D.Next(D.Next(FILLED, D.Read(0, "M", Answered)), D.Probe(0, [true])), D.Choose(0, 0)) == SHARED
  {
    assert ToLower("M") == "m" && ToLower("m") == "m" && TrimSpace("M") == "M" && Keep([URL], [true]) == [URL];
    hide TrimSpace, Keep, L.ServiceUrl, ToLower;
  }

  lemma AsksInVain()
    ensures var asking := D.Next(D.Next(SHARED, D.Tick(D.TTL + 1)), D.Read(0, "M", Answered));
            var answered := D.Next(asking, D.List(0, [], Answered));
            && asking.resolvers == map[0 := D.Asking("M")]
            && answered.resolvers == map[] && answered.served == SHARED.served
  {
    assert ToLower("M") == "m" && ToLower("m") == "m" && TrimSpace("M") == "M";
    hide TrimSpace, L.ServiceUrl, ToLower;
  }

  lemma ListsNothing(db: Db, k: Id, d: Id)
    requires Serves(db, k, d)
    ensures IsListing(db, "M", []) && forall listing :: IsListing(db, "M", listing) ==> listing == []
  {
    assert IsCursor(db, "M", []);
    assert IsListing(db, "M", []);
    forall listing | IsListing(db, "M", listing) ensures listing == [] {
      NothingListed(db, d, "M", listing);
    }
  }

  lemma OneMoreEvent(cipher: Option<Aead>, es: seq<Event>, e: Event)
    ensures Run(cipher, es + [e]) == Next(cipher, Run(cipher, es), e)
  {
    assert (es + [e])[..|es|] == es;
    hide Next;
  }

  /** Three more events of a run in which nothing is at work. */
  lemma AsksLater(cipher: Option<Aead>, es: seq<Event>)
    requires Run(cipher, es).proxy == SHARED && Run(cipher, es).world.procs == map[]
    requires IsListing(Run(cipher, es).world.db, "M", [])
    ensures var s, s' := Run(cipher, es), Run(cipher, es + LATER);
            s'.world == s.world && s'.proxy.resolvers == map[] && s'.proxy.served == s.proxy.served
  {
    AsksInVain();
    hide Run, D.Next, L.ServiceUrl, ModelTargetsKey, IsListing;
    OneMoreEvent(cipher, es, LATER[0]);
    OneMoreEvent(cipher, es + [LATER[0]], LATER[1]);
    OneMoreEvent(cipher, es + [LATER[0]] + [LATER[1]], LATER[2]);
    assert es + LATER == es + [LATER[0]] + [LATER[1]] + [LATER[2]];
  }

  /** With every condition kept: model "M" is served from the entry of "m" although no listing has it; once the entry has
      expired a request for "M" gets no answer although "m" is listed as before. */
  lemma MixedCaseLivesOnTheEntry(cipher: Option<Aead>) returns (es: seq<Event>)
    ensures var s, s' := Run(cipher, es), Run(cipher, es + LATER);
            && ToLower("M") == "m" && D.Served("M", URL, 0) in s.proxy.served
            && (forall listing :: IsListing(s.world.db, "M", listing) ==> listing == [])
            && s'.proxy.resolvers == map[] && s'.proxy.served == s.proxy.served
            && s'.world == s.world && IsListing(s'.world.db, "m", [URL])
  {
    hide *;
    var s, o, k, d := Serving(None, cipher);
    ListsTheDeployment(s.world.db, k, d);
    ListsNothing(s.world.db, k, d);
    Shares();
    s := ResolverTakes(None, cipher, s, D.Read(0, "M", Answered));
    s := ResolverTakes(None, cipher, s, D.Probe(0, [true]));
    s := ResolverTakes(None, cipher, s, D.Choose(0, 0));
    es := Witness(None, cipher, s);
    AllConditionsKept(cipher, es);
    AsksLater(cipher, es);
    SharedServes();
  }

  lemma SharedServes()
    ensures D.Served("M", URL, 0) in SHARED.served
  {
    hide L.ServiceUrl;
  }
}
