/** One attempt of each kind of task, call by call, while no other task interferes; an attempt of a held task is a run of
    one process of the lifecycle machine
    (internal/worker/server.go; internal/kube/client.go; internal/worker/client.go). */
module WorkerServer {
  import opened Common
  import opened Kubeconfig
  import opened Store
  import opened Text
  import opened MigrationFiles
  import opened Lifecycle
  import opened Tracking
  import opened AttemptRows
  import Kube

  // Times are in milliseconds.
  const API_TIMEOUT: nat := 10_000
  const DIAL_TIMEOUT: nat := 2_000
  const PROBE_PAUSE: nat := 10_000
  const MAX_PROBES: nat := 90
  const TASK_TIMEOUT: nat := 20 * 60 * 1000

  /** What the waiting loop meets: whether the i-th dial connects, how long it takes, and whether the context is done
      during the pause after it. */
  datatype Probing = Probing(connects: nat -> bool, takes: nat -> nat, done: nat -> bool)

  ghost predicate DialsTimeOut(w: Probing) {
    forall i :: w.takes(i) <= DIAL_TIMEOUT
  }

  datatype Health = Healthy | Cancelled | TimedOut

  /** Nothing ends the waiting before probe n. */
  ghost predicate Waiting(w: Probing, n: nat) {
    forall i: nat :: i < n ==> !w.connects(i) && !w.done(i)
  }

  ghost predicate BecomesHealthy(w: Probing) {
    exists n: nat :: n < 90 && Waiting(w, n) && w.connects(n)
  }

  ghost predicate IsCancelled(w: Probing) {
    exists n: nat :: n < 90 && Waiting(w, n) && !w.connects(n) && w.done(n)
  }

  /** Dials until one connects, the context is done, or 90 dials have failed. */
  method WaitForHealth(w: Probing) returns (health: Health, probes: nat, elapsed: nat)
    requires DialsTimeOut(w)
    ensures health == Healthy <==> BecomesHealthy(w)
    ensures health == Cancelled <==> IsCancelled(w)
    ensures health == TimedOut <==> Waiting(w, 90)
    ensures health == TimedOut ==> probes == 90 && elapsed >= 900_000
    ensures health == Healthy ==> 0 < probes && Waiting(w, probes - 1) && w.connects(probes - 1)
    ensures probes <= 90 && elapsed <= probes * 12_000
  {
    probes, elapsed := 0, 0;
    while probes < MAX_PROBES
      invariant probes <= MAX_PROBES && Waiting(w, probes)
      invariant probes * PROBE_PAUSE <= elapsed <= probes * (DIAL_TIMEOUT + PROBE_PAUSE)
    {
      ghost var n := probes;
      elapsed := elapsed + w.takes(probes);
      probes := probes + 1;
      if w.connects(probes - 1) {
        assert Waiting(w, n) && w.connects(n);
        return Healthy, probes, elapsed;
      }
      elapsed := elapsed + PROBE_PAUSE;
      if w.done(probes - 1) {
        assert Waiting(w, n) && !w.connects(n) && w.done(n);
        return Cancelled, probes, elapsed;
      }
    }
    health := TimedOut;
  }

  /** How the calls of a deploy or delete attempt end: the writes, the read of the cluster, the client built from its
      kubeconfig, the Kubernetes calls and how long each takes, the waiting, and the deletions from Redis. */
  datatype Outcomes = Outcomes(
    write: nat -> Fault, now: nat -> int, read: Fault, client: bool, api: seq<Fault>, apiTakes: nat -> nat,
    probing: Probing, drop: nat -> Fault, message: string)

  /** A provision attempt: Pulumi's address, what each SSH fetch brings, and the nonce, if it can be drawn. */
  datatype ProvisionOutcomes = ProvisionOutcomes(
    write: nat -> Fault, now: nat -> int, address: Option<Address>, fetch: nat -> Option<ByteString>,
    nonce: Option<ByteString>, message: string)

  ghost predicate TimesOut(o: Outcomes) {
    DialsTimeOut(o.probing) && forall i :: o.apiTakes(i) <= API_TIMEOUT
  }

  ghost predicate Reliable(o: Outcomes) {
    forall n :: o.write(n).Answered? && o.drop(n).Answered?
  }

  predicate CannotBeRead(db: Db, t: Task, o: Outcomes) {
    t.cluster.Some? && (!o.read.Answered? || t.cluster.value !in db.clusters)
  }

  ghost predicate ReliableWrites(o: ProvisionOutcomes) {
    forall n :: o.write(n).Answered?
  }

  const MAX_FETCHES: nat := 30

  ghost predicate IsFirst(fetch: nat -> Option<ByteString>, n: nat) {
    fetch(n).Some? && forall i: nat :: i < n ==> fetch(i).None?
  }

  ghost predicate IsFetched(fetch: nat -> Option<ByteString>) {
    exists n: nat :: n < 30 && IsFirst(fetch, n)
  }

  /** Tries up to 30 times, and returns what the first successful try brings. */
  method FetchKubeconfigWithRetry(fetch: nat -> Option<ByteString>) returns (r: Option<ByteString>, attempts: nat)
    ensures r.Some? <==> IsFetched(fetch)
    ensures r.Some? ==> 0 < attempts <= 30 && IsFirst(fetch, attempts - 1) && r == fetch(attempts - 1)
    ensures r.None? ==> attempts == 30
  {
    r, attempts := None, 0;
    while attempts < MAX_FETCHES
      invariant attempts <= MAX_FETCHES && r.None? && forall i: nat :: i < attempts ==> fetch(i).None?
    {
      r := fetch(attempts);
      attempts := attempts + 1;
      if r.Some? {
        assert IsFirst(fetch, attempts - 1);
        return;
      }
    }
  }

  /** A stage that waits for something outside the store, or reads a row. */
  predicate IsExternal(stage: Stage) {
    || stage.RunPulumi? || stage.ReadCluster? || stage.ApplyModel? || stage.AwaitHealth?
    || stage.RemoveModel? || stage.RunPulumiDestroy?
  }

  predicate CanFail(p: Payload, stage: Stage) {
    stage.ReadCluster? ==> p.DeployTask?
  }

  lemma SameReach(server: Server, db: Db, db': Db, t: Task, o: Outcomes)
    requires OnlyTouches(db, db', t.deployment, t.job)
    ensures server.Reachable(db, t, o) == server.Reachable(db', t, o) && db'.clusters == db.clusters
    ensures CannotBeRead(db, t, o) == CannotBeRead(db', t, o)
  {
  }

  lemma InTime()
    ensures 1_120_000 < TASK_TIMEOUT && 4 * API_TIMEOUT + MAX_PROBES * (DIAL_TIMEOUT + PROBE_PAUSE) == 1_120_000
  {
  }

  lemma ContentsAre(store: PostgresStore)
    ensures var db := store.Contents(); db.clusters == store.clusters && db.deployments == store.deployments
  {
  }

  lemma ReliableWrite(o: Outcomes)
    ensures Reliable(o) ==> forall n :: o.write(n).Answered?
  {
  }

  lemma ReliableProvision(o: ProvisionOutcomes)
    ensures ReliableWrites(o) ==> forall n :: o.write(n).Answered?
  {
  }

  /** The nonce has the cipher's size, and the cipher opens what it seals. */
  ghost predicate CanSeal(cipher: Option<Aead>, nonce: Option<ByteString>) {
    cipher.Some? ==> OpensWhatItSeals(cipher.value) && nonce.Some? && |nonce.value| == cipher.value.nonceSize
  }

  lemma SealedNamesAddress(cipher: Option<Aead>, nonce: Option<ByteString>, fetched: ByteString, ip: Address)
    ensures CanSeal(cipher, nonce) ==>
              NamesAddress(cipher, Stored(cipher, if nonce.Some? then nonce.value else [], fetched, AsciiBytes(ip)),
                           fetched, ip)
  {
    hide OpensWhatItSeals, NamesAddress, Stored;
    if CanSeal(cipher, nonce) {
      StoredNamesAddress(cipher, if nonce.Some? then nonce.value else [], fetched, ip);
    }
  }

  lemma KubeconfigIs(cipher: Option<Aead>, r: ProvisionRun)
    ensures KubeconfigOf(cipher, r) == Stored(cipher, r.outputs.nonce, r.outputs.fetched, AsciiBytes(r.outputs.ip))
  {
  }

  lemma AtMeansBefore(run: Tracker, t: nat, p: Proc)
    requires run.At(t, Some(p))
    ensures run.Before(t, p) && run.client.held == run.machine.queue && run.store.Contents() == run.machine.db
  {
    hide Sound, Steps;
  }

  class Server {
    /** The store and the queue, and the process the current attempt is. */
    const run: Tracker
    const cipher: Option<Aead>
    /** The keys present in Redis. */
    var keys: set<string>

    constructor (run: Tracker, cipher: Option<Aead>)
      ensures this.run == run && this.cipher == cipher && keys == {}
    {
      this.run, this.cipher, this.keys := run, cipher, {};
    }

    /** The attempt's process, if it is followed, stands here. */
    ghost predicate Stands(g: Guide, calls: seq<Statement>, stage: Stage)
      reads run, run.store, run.client
    {
      g.following ==> run.cipher == cipher && run.At(g.thread, Some(Attempt(g.payload, calls, stage)))
    }

    ghost predicate Stood(g: Guide, calls: seq<Statement>, stage: Stage)
      reads run, run.client
    {
      g.following ==>
        && run.cipher == cipher && run.Before(g.thread, Attempt(g.payload, calls, stage))
        && run.client.held == run.machine.queue
    }

    ghost predicate IsOver(g: Guide)
      reads run, run.store, run.client
    {
      g.following ==> run.At(g.thread, None)
    }

    ghost predicate InStep(g: Guide)
      reads run, run.store
    {
      g.following ==> run.store.Contents() == run.machine.db
    }

    lemma StandsMeansStood(g: Guide, calls: seq<Statement>, stage: Stage)
      requires Stands(g, calls, stage)
      ensures Stood(g, calls, stage) && InStep(g)
    {
      if g.following {
        AtMeansBefore(run, g.thread, Attempt(g.payload, calls, stage));
      }
    }

    /** The next call of the attempt has been made. */
    ghost method Made(g: Guide, s: Statement, rest: seq<Statement>, stage: Stage, fault: Fault, now: int)
      requires Stood(g, [s] + rest, stage)
      requires g.following ==> run.store.Contents() == Called(run.machine.db, s, fault, now)
      modifies run`machine, run`trace, run`drawn
      ensures Stands(g, rest, stage)
    {
      if g.following {
        assert ([s] + rest)[1..] == rest;
        hide Called;
        run.Made(g.thread, g.payload, [s] + rest, stage, fault, now);
      }
    }

    /** The attempt goes on as `c` decides. */
    ghost method Goes(g: Guide, stage: Stage, c: Choice, calls: seq<Statement>, next: Stage)
      requires Stood(g, [], stage)
      requires g.following ==>
                 && run.store.Contents() == DbAfter(run.cipher, run.machine.db, Attempt(g.payload, [], stage), c)
                 && !stage.End?
                 && AfterAttempt(run.machine.db, g.payload, [], stage, c,
                                 CallOk(run.cipher, run.machine.db, Attempt(g.payload, [], stage), c))
                    == Some(Attempt(g.payload, calls, next))
      modifies run`machine, run`trace, run`drawn
      ensures Stands(g, calls, next)
    {
      if g.following {
        hide DbAfter, AfterAttempt, AfterHandler, CallOk;
        run.Passed(g.thread, Attempt(g.payload, [], stage), c, Some(Attempt(g.payload, calls, next)));
      }
    }

    /** The attempt is over, and its task is done if it reports no error. */
    method Return(ok: bool, id: TaskId, ghost g: Guide)
      requires Stands(g, [], End(ok)) && (g.following ==> id == TaskIdOf(g.payload))
      modifies run`machine, run`trace, run`drawn, run.client
      ensures IsOver(g)
      ensures run.client.held == if ok then old(run.client.held) - {id} else old(run.client.held)
    {
      hide TaskIdOf;
      StandsMeansStood(g, [], End(ok));
      if ok {
        run.client.Done(id);
      }
      if g.following {
        run.Ended(g.thread, g.payload, ok);
      }
    }

    lemma NotFollowed(g: Guide)
      requires !g.following
      ensures IsOver(g) && forall calls, stage :: Stands(g, calls, stage)
    {
    }

    /** The task to be attempted is held, and the process is a new one. */
    ghost predicate IsHeld(g: Guide)
      reads run, run.store, run.client
    {
      g.following ==>
        && run.cipher == cipher && run.Tracks() && g.thread !in run.machine.procs
        && TaskIdOf(g.payload) in run.client.held && run.client.held[TaskIdOf(g.payload)] == g.payload
    }

    ghost method PickUp(g: Guide)
      requires IsHeld(g)
      modifies run`machine, run`origin, run`trace, run`drawn
      ensures Stands(g, FirstCalls(g.payload), FirstStage(g.payload))
      ensures g.following ==> run.origin == Next(cipher, old(run.machine), Event.PickUp(g.thread, TaskIdOf(g.payload)))
    {
      if g.following {
        hide FirstCalls, FirstStage, TaskIdOf, Next;
        run.PickUp(g.thread, TaskIdOf(g.payload));
      }
    }

    /** An external call has worked, or a row has been read. */
    ghost method Works(g: Guide, stage: Stage, outputs: Outputs, calls: seq<Statement>, next: Stage)
      requires Stands(g, [], stage) && IsExternal(stage)
      requires g.following ==>
                 AfterAttempt(run.store.Contents(), g.payload, [], stage,
                              AttemptChoice(Answered, true, outputs, "", 0), true) == Some(Attempt(g.payload, calls, next))
      modifies run`machine, run`trace, run`drawn
      ensures Stands(g, calls, next)
    {
      hide Stands, Stood, AfterAttempt;
      StandsMeansStood(g, [], stage);
      Goes(g, stage, AttemptChoice(Answered, true, outputs, "", 0), calls, next);
    }

    /** An external call has failed, or a row cannot be read. */
    ghost method Fails(g: Guide, stage: Stage, message: string, calls: seq<Statement>)
      requires Stands(g, [], stage) && IsExternal(stage)
      requires g.following ==> CanFail(g.payload, stage) && calls == FailCalls(g.payload, message)
      modifies run`machine, run`trace, run`drawn
      ensures Stands(g, calls, End(false))
    {
      hide Stands, Stood, FailCalls;
      StandsMeansStood(g, [], stage);
      Goes(g, stage, AttemptChoice(Refused, false, Outputs([], [], ""), message, 0), calls, End(false));
    }

    method InvalidateModelCache(model: string, fault: Fault)
      modifies this
      ensures keys == if TrimSpace(model) == "" then old(keys)
                      else Effect(fault, old(keys), old(keys) - {ModelTargetsKey(model), ModelRoundRobinKey(model)})
    {
      if TrimSpace(model) != "" && !fault.Refused? {
        keys := keys - {ModelTargetsKey(model), ModelRoundRobinKey(model)};
      }
    }

    method SetDeployment(d: Id, status: DeploymentStatus, j: Id, fault: Fault, now: int,
                         ghost g: Guide, ghost rest: seq<Statement>, ghost stage: Stage)
      requires Stands(g, [SetDeploymentStatus(d, status)] + rest, stage)
      modifies run.store, run`machine, run`trace, run`drawn
      ensures Stands(g, rest, stage)
      ensures OnlyTouches(old(run.store.Contents()), run.store.Contents(), Some(d), j)
      ensures fault.Answered? ==> DeploymentIs(run.store.Contents(), Some(d), status)
      ensures d in old(run.store.deployments) ==>
                run.store.deployments[d].serviceUrl == old(run.store.deployments)[d].serviceUrl
      ensures run.store.jobs == old(run.store.jobs)
    {
      hide Stands, Stood, OnlyTouches, DeploymentIs, Called;
      StandsMeansStood(g, [SetDeploymentStatus(d, status)] + rest, stage);
      DeploymentIsSet(run.store.Contents(), d, status, j, fault, now);
      var ok := run.store.UpdateDeploymentStatus(d, status, fault, now);
      Made(g, SetDeploymentStatus(d, status), rest, stage, fault, now);
    }

    /** failJob, completeJob and the update to running. */
    method SetJob(j: Id, status: JobStatus, message: string, d: Option<Id>, fault: Fault, now: int,
                  ghost g: Guide, ghost rest: seq<Statement>, ghost stage: Stage)
      requires status.Completed? ==> message == ""
      requires Stands(g, [SetJobStatus(j, status, message)] + rest, stage)
      modifies run.store, run`machine, run`trace, run`drawn
      ensures Stands(g, rest, stage)
      ensures OnlyTouches(old(run.store.Contents()), run.store.Contents(), d, j)
      ensures fault.Answered? ==> JobIs(run.store.Contents(), j, status, message)
      ensures fault.Answered? && status.Running? ==> Started(run.store.Contents(), j)
      ensures run.store.deployments == old(run.store.deployments)
    {
      hide Stands, Stood, OnlyTouches, JobIs, Started, Called;
      StandsMeansStood(g, [SetJobStatus(j, status, message)] + rest, stage);
      JobIsSet(run.store.Contents(), j, status, message, d, fault, now);
      var ok := run.store.UpdateJobStatus(j, status, message, fault, now);
      Made(g, SetJobStatus(j, status, message), rest, stage, fault, now);
    }

    /** What every error path between the parsing of the ids and the final write does; most of them also drop the
        model's keys. */
    method GiveUp(t: Task, o: Outcomes, drops: bool, ghost g: Guide)
      requires t.deployment.Some? && Stands(g, GivingUp(t, o.message), End(false))
      modifies this, run.store, run`machine, run`trace, run`drawn
      ensures Stands(g, [], End(false))
      ensures OnlyTouches(old(run.store.Contents()), run.store.Contents(), t.deployment, t.job)
      ensures Reliable(o) ==> DeploymentIs(run.store.Contents(), t.deployment, DeploymentStatus.Failed)
      ensures Reliable(o) ==> JobIs(run.store.Contents(), t.job, JobStatus.Failed, o.message)
      ensures keys <= old(keys)
      ensures Reliable(o) && drops && TrimSpace(t.model) != "" ==>
                ModelTargetsKey(t.model) !in keys && ModelRoundRobinKey(t.model) !in keys
    {
      hide Stands;
      var failed := SetDeploymentStatus(t.deployment.value, DeploymentStatus.Failed);
      ghost var last := [SetJobStatus(t.job, JobStatus.Failed, o.message)];
      assert [failed] + last == GivingUp(t, o.message) && last + [] == last;
      SetDeployment(t.deployment.value, DeploymentStatus.Failed, t.job, o.write(4), o.now(4), g, last, End(false));
      ghost var db1 := run.store.Contents();
      if drops {
        InvalidateModelCache(t.model, o.drop(1));
      }
      SetJob(t.job, JobStatus.Failed, o.message, t.deployment, o.write(5), o.now(5), g, [], End(false));
      TouchesInTurn(old(run.store.Contents()), db1, run.store.Contents(), t.deployment, t.job);
    }

    /** The URL has been written, or not. */
    ghost method UrlSaved(g: Guide, t: Task, ip: string, fault: Fault, now: int, message: string)
      requires t.deployment.Some? && IsDeploy(g, t) && Stood(g, [], SaveUrl(ip))
      requires g.following ==>
                 run.store.Contents() == Called(run.machine.db, SavedUrl(t, ip), fault, now)
      modifies run`machine, run`trace, run`drawn
      ensures Stands(g, [FinalReport(t.job, fault.Answered?, message)], End(fault.Answered?))
    {
      hide Stands, Stood, Called, ServiceUrl;
      assert [] + [FinalReport(t.job, fault.Answered?, message)] == [FinalReport(t.job, fault.Answered?, message)];
      Goes(g, SaveUrl(ip), AttemptChoice(fault, false, Outputs([], [], ""), message, now),
           [FinalReport(t.job, fault.Answered?, message)], End(fault.Answered?));
    }

    method SaveUrlOf(t: Task, ip: string, message: string, fault: Fault, now: int, ghost g: Guide) returns (ok: bool)
      requires t.deployment.Some? && IsDeploy(g, t) && Stands(g, [], SaveUrl(ip))
      modifies run.store, run`machine, run`trace, run`drawn
      ensures Stands(g, [FinalReport(t.job, ok, message)], End(ok))
      ensures OnlyTouches(old(run.store.Contents()), run.store.Contents(), t.deployment, t.job) && ok == fault.Answered?
      ensures ok ==> DeploymentIs(run.store.Contents(), t.deployment, DeploymentStatus.Active)
      ensures ok ==> UrlIs(run.store.Contents(), t.deployment, ServiceUrl(ip, t.nodePort))
    {
      hide Stands, Stood, ServiceUrl, OnlyTouches, DeploymentIs, UrlIs, Called;
      StandsMeansStood(g, [], SaveUrl(ip));
      UrlIsSet(run.store.Contents(), t, ServiceUrl(ip, t.nodePort), fault, now);
      var url := ServiceUrl(ip, t.nodePort);
      ok := run.store.UpdateDeploymentServiceURL(t.deployment.value, DeploymentStatus.Active, url, fault, now);
      UrlSaved(g, t, ip, fault, now, message);
    }

    /** The final write and the report. */
    method SaveAndReport(t: Task, ip: string, o: Outcomes, ghost g: Guide) returns (ok: bool)
      requires t.deployment.Some? && IsDeploy(g, t) && Stands(g, [], SaveUrl(ip))
      modifies this, run.store, run`machine, run`trace, run`drawn
      ensures Stands(g, [], End(ok))
      ensures OnlyTouches(old(run.store.Contents()), run.store.Contents(), t.deployment, t.job)
      ensures ok == o.write(3).Answered?
      ensures ok ==> DeploymentIs(run.store.Contents(), t.deployment, DeploymentStatus.Active)
      ensures ok ==> UrlIs(run.store.Contents(), t.deployment, ServiceUrl(ip, t.nodePort))
      ensures Reliable(o) ==> ok && JobIs(run.store.Contents(), t.job, JobStatus.Completed, "")
      ensures Reliable(o) && TrimSpace(t.model) != "" ==>
                ModelTargetsKey(t.model) !in keys && ModelRoundRobinKey(t.model) !in keys
    {
      hide OnlyTouches, JobIs, TrimSpace, ModelTargetsKey, Stands, ServiceUrl;
      ok := SaveUrlOf(t, ip, o.message, o.write(3), o.now(3), g);
      ghost var db1 := run.store.Contents();
      assert [FinalReport(t.job, ok, o.message)] + [] == [FinalReport(t.job, ok, o.message)];
      if !ok {
        InvalidateModelCache(t.model, o.drop(1));
        SetJob(t.job, JobStatus.Failed, o.message, t.deployment, o.write(5), o.now(5), g, [], End(false));
      } else {
        SetJob(t.job, JobStatus.Completed, "", t.deployment, o.write(5), o.now(5), g, [], End(true));
        InvalidateModelCache(t.model, o.drop(1));
      }
      TouchesInTurn(old(run.store.Contents()), db1, run.store.Contents(), t.deployment, t.job);
    }

    method Begin(t: Task, o: Outcomes, ghost g: Guide)
      requires t.deployment.Some? && Stands(g, Beginning(t, Building), ReadCluster)
      modifies run.store, run`machine, run`trace, run`drawn
      ensures Stands(g, [], ReadCluster)
      ensures OnlyTouches(old(run.store.Contents()), run.store.Contents(), t.deployment, t.job)
      ensures Reliable(o) ==> Started(run.store.Contents(), t.job)
    {
      hide Stands;
      ghost var last := [SetJobStatus(t.job, JobStatus.Running, "")];
      assert Beginning(t, Building) == [SetDeploymentStatus(t.deployment.value, Building)] + last && last + [] == last;
      SetDeployment(t.deployment.value, Building, t.job, o.write(0), o.now(0), g, last, ReadCluster);
      ghost var db1 := run.store.Contents();
      SetJob(t.job, JobStatus.Running, "", t.deployment, o.write(1), o.now(1), g, [], ReadCluster);
      TouchesInTurn(old(run.store.Contents()), db1, run.store.Contents(), t.deployment, t.job);
    }

    /** The cluster can be read, its kubeconfig decrypted, and a client built from it. */
    predicate Reachable(db: Db, t: Task, o: Outcomes) {
      && t.deployment.Some? && t.cluster.Some? && o.read.Answered? && t.cluster.value in db.clusters
      && Load(cipher, db.clusters[t.cluster.value].kubeconfig).Some? && o.client
    }

    /** From the manifests to the end of the wait: either the URL can be saved, or the attempt gives up. */
    method ApplyAndWait(t: Task, o: Outcomes, kube: Kube.Client, ghost ip: string, ghost g: Guide)
        returns (applied: bool, health: Health, probes: nat, elapsed: nat)
      requires t.deployment.Some? && TimesOut(o) && IsDeploy(g, t) && Stands(g, [], ApplyModel(ip))
      modifies run.store, kube, run`machine, run`trace, run`drawn
      ensures if applied && health == Healthy then Stands(g, [], SaveUrl(ip))
              else Stands(g, GivingUp(t, o.message), End(false))
      ensures OnlyTouches(old(run.store.Contents()), run.store.Contents(), t.deployment, t.job)
      ensures (kube.Contents(), applied) ==
              Kube.Deployed(old(kube.Contents()), t.namespace, Kube.ModelConfig(t.model, t.modelUrl, t.nodePort), o.api)
      ensures applied ==> (health == Healthy <==> BecomesHealthy(o.probing))
      ensures probes <= 90 && elapsed <= 40_000 + 90 * 12_000
    {
      hide Stands, BecomesHealthy, IsCancelled, Waiting, Kube.Deployed;
      applied := kube.DeployModel(t.namespace, Kube.ModelConfig(t.model, t.modelUrl, t.nodePort), o.api);
      health, probes := TimedOut, 0;
      elapsed := o.apiTakes(0) + o.apiTakes(1) + o.apiTakes(2) + o.apiTakes(3);
      if !applied {
        Fails(g, ApplyModel(ip), o.message, GivingUp(t, o.message));
        return;
      }
      ghost var deploying := [SetDeploymentStatus(t.deployment.value, Deploying)];
      assert deploying + [] == deploying;
      Works(g, ApplyModel(ip), Outputs([], [], ""), deploying, AwaitHealth(ip));
      SetDeployment(t.deployment.value, Deploying, t.job, o.write(2), o.now(2), g, [], AwaitHealth(ip));
      var waited;
      health, probes, waited := WaitForHealth(o.probing);
      elapsed := elapsed + waited;
      if health == Healthy {
        Works(g, AwaitHealth(ip), Outputs([], [], ""), [], SaveUrl(ip));
      } else {
        Fails(g, AwaitHealth(ip), o.message, GivingUp(t, o.message));
      }
    }

    /** The row of the cluster has been read, and a client built from it, or not. */
    ghost method ClusterRead(g: Guide, t: Task, message: string, found: bool)
      requires t.deployment.Some? && t.cluster.Some? && IsDeploy(g, t) && Stands(g, [], ReadCluster)
      requires found ==> t.cluster.value in run.store.clusters
      modifies run`machine, run`trace, run`drawn
      ensures if found then Stands(g, [], ApplyModel(run.store.clusters[t.cluster.value].publicIp))
              else Stands(g, GivingUp(t, message), End(false))
    {
      hide Stands;
      if found {
        Works(g, ReadCluster, Outputs([], [], ""), [], ApplyModel(run.store.clusters[t.cluster.value].publicIp));
      } else {
        Fails(g, ReadCluster, message, GivingUp(t, message));
      }
    }

    /** With reliable writes an attempt ends in exactly one of two ways: success, the deployment active at the cluster's
        address and the job completed; or an error, the deployment failed and the job failed. It succeeds if and only
        if every outside call does; and it is over well before the task's timeout, its store and Redis calls
        aside. An attempt of a held task is a run of one process of the lifecycle machine. */
    method HandleDeployModelTask(t: Task, o: Outcomes, kube: Kube.Client, ghost g: Guide)
        returns (ok: bool, probes: nat, elapsed: nat)
      requires TimesOut(o) && IsHeld(g) && IsDeploy(g, t)
      modifies this, kube, run, run.store, run.client
      ensures IsOver(g)
      ensures g.following ==> run.origin == Next(cipher, old(run.machine), Event.PickUp(g.thread, TaskIdOf(g.payload)))
      ensures ok ==> t.deployment.Some? && run.client.held == old(run.client.held) - {DeployId(t.deployment.value)}
      ensures !ok ==> run.client.held == old(run.client.held)
      ensures OnlyTouches(old(run.store.Contents()), run.store.Contents(), t.deployment, t.job)
      ensures ok <==>
                && t.deployment.Some? && t.cluster.Some? && o.read.Answered? && t.cluster.value in old(run.store.clusters)
                && Load(cipher, old(run.store.clusters)[t.cluster.value].kubeconfig).Some? && o.client
                && Kube.Deployed(old(kube.Contents()), t.namespace,
                                 Kube.ModelConfig(t.model, t.modelUrl, t.nodePort), o.api).1
                && BecomesHealthy(o.probing) && o.write(3).Answered?
      ensures ok ==> DeploymentIs(run.store.Contents(), t.deployment, DeploymentStatus.Active)
      ensures ok && t.deployment.value in run.store.deployments ==>
                IsHttpUrl(run.store.deployments[t.deployment.value].serviceUrl,
                          old(run.store.clusters)[t.cluster.value].publicIp, t.nodePort)
      ensures Reliable(o) && ok ==> JobIs(run.store.Contents(), t.job, JobStatus.Completed, "")
      ensures Reliable(o) && !ok ==> DeploymentIs(run.store.Contents(), t.deployment, DeploymentStatus.Failed)
      ensures Reliable(o) && !ok ==> JobIs(run.store.Contents(), t.job, JobStatus.Failed, o.message)
      ensures Reliable(o) && t.deployment.Some? && t.cluster.Some? ==> Started(run.store.Contents(), t.job)
      ensures Reliable(o) && t.deployment.Some? && TrimSpace(t.model) != "" ==>
                ModelTargetsKey(t.model) !in keys && ModelRoundRobinKey(t.model) !in keys
      ensures kube.Contents() ==
                if t.deployment.Some? && t.cluster.Some? && o.read.Answered? && t.cluster.value in old(run.store.clusters) &&
                   Load(cipher, old(run.store.clusters)[t.cluster.value].kubeconfig).Some? && o.client
                then Kube.Deployed(old(kube.Contents()), t.namespace,
                                   Kube.ModelConfig(t.model, t.modelUrl, t.nodePort), o.api).0
                else old(kube.Contents())
      ensures probes <= 90 && elapsed <= 1_120_000 < TASK_TIMEOUT
    {
      hide *;
      ok, probes, elapsed := false, 0, 0;
      InTime();
      PickUp(g);
      InvalidateModelCache(t.model, o.drop(0));
      ReachableMeans(run.store, t, o);
      if t.deployment.None? || t.cluster.None? {
        Unparsed(g, t);
        FailUnparsed(t, o, true, g);
        return;
      }
      DeployBegins(g, t);
      ghost var db0 := run.store.Contents();
      Begin(t, o, g);
      ghost var db1 := run.store.Contents();
      SameReach(this, db0, db1, t, o);
      ReachableMeans(run.store, t, o);
      var readable := Reachable(run.store.Contents(), t, o);
      ClusterRead(g, t, o.message, readable);
      if !readable {
        GiveUp(t, o, true, g);
        Return(false, DeployId(t.deployment.value), g);
        TouchesInTurn(db0, db1, run.store.Contents(), t.deployment, t.job);
        StartedStays(db1, run.store.Contents(), t.deployment, t.job);
        return;
      }
      var ip := run.store.clusters[t.cluster.value].publicIp;
      var applied, health;
      applied, health, probes, elapsed := ApplyAndWait(t, o, kube, ip, g);
      ghost var db2 := run.store.Contents();
      TouchesInTurn(db0, db1, db2, t.deployment, t.job);
      StartedStays(db1, db2, t.deployment, t.job);
      if !applied || health != Healthy {
        GiveUp(t, o, true, g);
      } else {
        ok := SaveAndReport(t, ip, o, g);
      }
      UrlIsHttp(run.store, t, ip);
      Return(ok, DeployId(t.deployment.value), g);
      TouchesInTurn(db0, db2, run.store.Contents(), t.deployment, t.job);
      StartedStays(db2, run.store.Contents(), t.deployment, t.job);
    }

    /** A task with an id that does not parse: without a deployment id only the job is failed. */
    method FailUnparsed(t: Task, o: Outcomes, drops: bool, ghost g: Guide)
      requires (t.deployment.None? || t.cluster.None?) && !g.following
      modifies this, run.store, run`machine, run`trace, run`drawn
      ensures OnlyTouches(old(run.store.Contents()), run.store.Contents(), t.deployment, t.job)
      ensures Reliable(o) ==> DeploymentIs(run.store.Contents(), t.deployment, DeploymentStatus.Failed)
      ensures Reliable(o) ==> JobIs(run.store.Contents(), t.job, JobStatus.Failed, o.message)
      ensures keys <= old(keys)
      ensures Reliable(o) && drops && t.deployment.Some? && TrimSpace(t.model) != "" ==>
                ModelTargetsKey(t.model) !in keys && ModelRoundRobinKey(t.model) !in keys
      ensures IsOver(g)
    {
      hide *;
      NotFollowed(g);
      ReliableWrite(o);
      if t.deployment.None? {
        SetJob(t.job, JobStatus.Failed, o.message, None, o.write(5), o.now(5), g, [], End(false));
        NoDeployment(run.store.Contents());
      } else {
        GiveUp(t, o, drops, g);
      }
      NotFollowed(g);
    }

    // ----- Delete -----

    /** With reliable writes: success, the deployment deleted and the job completed; or an error and the job failed, with
        the deployment failed, or left deleting when its cluster cannot be read. */
    method HandleDeleteModelTask(t: Task, o: Outcomes, kube: Kube.Client, ghost g: Guide) returns (ok: bool)
      requires IsHeld(g) && IsDelete(g, t)
      modifies this, kube, run, run.store, run.client
      ensures IsOver(g)
      ensures g.following ==> run.origin == Next(cipher, old(run.machine), Event.PickUp(g.thread, TaskIdOf(g.payload)))
      ensures ok ==> t.deployment.Some? && run.client.held == old(run.client.held) - {DeleteId(t.deployment.value)}
      ensures !ok ==> run.client.held == old(run.client.held)
      ensures OnlyTouches(old(run.store.Contents()), run.store.Contents(), t.deployment, t.job)
      ensures ok <==>
                && t.deployment.Some? && t.cluster.Some? && o.read.Answered? && t.cluster.value in old(run.store.clusters)
                && Load(cipher, old(run.store.clusters)[t.cluster.value].kubeconfig).Some? && o.client
                && Kube.Deleted(old(kube.Contents()), t.namespace, t.model, o.api).1 && o.write(2).Answered?
      ensures ok ==> DeploymentIs(run.store.Contents(), t.deployment, DeploymentStatus.Deleted)
      ensures Reliable(o) && ok ==> JobIs(run.store.Contents(), t.job, JobStatus.Completed, "")
      ensures Reliable(o) && !ok ==> JobIs(run.store.Contents(), t.job, JobStatus.Failed, o.message)
      ensures Reliable(o) && !ok ==>
                DeploymentIs(run.store.Contents(), t.deployment,
                             if t.cluster.Some? && (!o.read.Answered? || t.cluster.value !in old(run.store.clusters))
                             then Deleting else DeploymentStatus.Failed)
      ensures Reliable(o) && t.deployment.Some? && t.cluster.Some? ==> Started(run.store.Contents(), t.job)
      ensures Reliable(o) && t.deployment.Some? && t.cluster.Some? && TrimSpace(t.model) != "" ==>
                ModelTargetsKey(t.model) !in keys && ModelRoundRobinKey(t.model) !in keys
      ensures kube.Contents() ==
                if t.deployment.Some? && t.cluster.Some? && o.read.Answered? && t.cluster.value in old(run.store.clusters) &&
                   Load(cipher, old(run.store.clusters)[t.cluster.value].kubeconfig).Some? && o.client
                then Kube.Deleted(old(kube.Contents()), t.namespace, t.model, o.api).0 else old(kube.Contents())
    {
      hide *;
      ok := false;
      PickUp(g);
      ReachableMeans(run.store, t, o);
      if t.deployment.None? || t.cluster.None? {
        Unparsed(g, t);
        FailUnparsed(t, o, false, g);
        NoDeployment(run.store.Contents());
        return;
      }
      DeleteBegins(g, t);
      ghost var db0 := run.store.Contents();
      BeginDelete(t, o, g);
      ghost var db1 := run.store.Contents();
      SameReach(this, db0, db1, t, o);
      ReachableMeans(run.store, t, o);
      if CannotBeRead(run.store.Contents(), t, o) {
        FailUnread(t, o, g);
        SameDeployments(db1, run.store.Contents(), t.deployment);
      } else {
        ClusterReadForDelete(g, t);
        var decrypted := Load(cipher, run.store.clusters[t.cluster.value].kubeconfig).Some?;
        var removed := false;
        if decrypted && o.client {
          removed := kube.DeleteModel(t.namespace, t.model, o.api);
        }
        if !removed {
          FailsToRemove(g, t, o.message);
          GiveUp(t, o, !decrypted, g);
        } else {
          ok := ReportDeleted(t, o, g);
        }
      }
      Return(ok, DeleteId(t.deployment.value), g);
      TouchesInTurn(db0, db1, run.store.Contents(), t.deployment, t.job);
      StartedStays(db1, run.store.Contents(), t.deployment, t.job);
    }

    method BeginDelete(t: Task, o: Outcomes, ghost g: Guide)
      requires t.deployment.Some? && Stands(g, Beginning(t, Deleting), ReadCluster)
      modifies this, run.store, run`machine, run`trace, run`drawn
      ensures Stands(g, [], ReadCluster)
      ensures OnlyTouches(old(run.store.Contents()), run.store.Contents(), t.deployment, t.job)
      ensures Reliable(o) ==> DeploymentIs(run.store.Contents(), t.deployment, Deleting)
      ensures Reliable(o) ==> Started(run.store.Contents(), t.job)
      ensures Reliable(o) && TrimSpace(t.model) != "" ==>
                ModelTargetsKey(t.model) !in keys && ModelRoundRobinKey(t.model) !in keys
    {
      hide Stands;
      ghost var last := [SetJobStatus(t.job, JobStatus.Running, "")];
      assert Beginning(t, Deleting) == [SetDeploymentStatus(t.deployment.value, Deleting)] + last && last + [] == last;
      SetDeployment(t.deployment.value, Deleting, t.job, o.write(0), o.now(0), g, last, ReadCluster);
      ghost var db1 := run.store.Contents();
      InvalidateModelCache(t.model, o.drop(0));
      SetJob(t.job, JobStatus.Running, "", t.deployment, o.write(1), o.now(1), g, [], ReadCluster);
      TouchesInTurn(old(run.store.Contents()), db1, run.store.Contents(), t.deployment, t.job);
    }

    /** The cluster cannot be read: the deployment stays as it is. */
    method FailUnread(t: Task, o: Outcomes, ghost g: Guide)
      requires t.deployment.Some? && IsDelete(g, t) && Stands(g, [], ReadCluster)
      modifies run.store, run`machine, run`trace, run`drawn
      ensures Stands(g, [], End(false))
      ensures OnlyTouches(old(run.store.Contents()), run.store.Contents(), t.deployment, t.job)
      ensures Reliable(o) ==> JobIs(run.store.Contents(), t.job, JobStatus.Failed, o.message)
      ensures run.store.Contents().deployments == old(run.store.Contents().deployments)
    {
      hide Stands, Stood;
      ghost var last := [SetJobStatus(t.job, JobStatus.Failed, o.message)];
      assert last + [] == last;
      StandsMeansStood(g, [], ReadCluster);
      Goes(g, ReadCluster, AttemptChoice(Refused, false, Outputs([], [], ""), o.message, 0), last, End(false));
      SetJob(t.job, JobStatus.Failed, o.message, t.deployment, o.write(5), o.now(5), g, [], End(false));
    }

    ghost method ClusterReadForDelete(g: Guide, t: Task)
      requires IsDelete(g, t) && t.cluster.Some? && t.cluster.value in run.store.clusters && Stands(g, [], ReadCluster)
      modifies run`machine, run`trace, run`drawn
      ensures Stands(g, [], RemoveModel)
    {
      hide Stands;
      Works(g, ReadCluster, Outputs([], [], ""), [], RemoveModel);
    }

    ghost method FailsToRemove(g: Guide, t: Task, message: string)
      requires t.deployment.Some? && IsDelete(g, t) && Stands(g, [], RemoveModel)
      modifies run`machine, run`trace, run`drawn
      ensures Stands(g, GivingUp(t, message), End(false))
    {
      hide Stands;
      Fails(g, RemoveModel, message, GivingUp(t, message));
    }

    /** The deployment has been marked deleted, or not. */
    ghost method DeletedSaved(g: Guide, t: Task, fault: Fault, now: int)
      requires t.deployment.Some? && IsDelete(g, t) && Stood(g, [], SaveDeleted)
      requires g.following ==>
                 run.store.Contents() ==
                 Called(run.machine.db, SetDeploymentStatus(t.deployment.value, DeploymentStatus.Deleted), fault, now)
      modifies run`machine, run`trace, run`drawn
      ensures Stands(g, if fault.Answered? then [FinalReport(t.job, true, "")] else [], End(fault.Answered?))
    {
      hide Stands, Stood, Called;
      assert [] + [FinalReport(t.job, true, "")] == [FinalReport(t.job, true, "")];
      Goes(g, SaveDeleted, AttemptChoice(fault, false, Outputs([], [], ""), "", now),
           if fault.Answered? then [FinalReport(t.job, true, "")] else [], End(fault.Answered?));
    }

    /** When the last status cannot be written the job is not failed: it stays running. */
    method ReportDeleted(t: Task, o: Outcomes, ghost g: Guide) returns (ok: bool)
      requires t.deployment.Some? && IsDelete(g, t) && Stands(g, [], RemoveModel)
      modifies run.store, run`machine, run`trace, run`drawn
      ensures Stands(g, [], End(ok))
      ensures OnlyTouches(old(run.store.Contents()), run.store.Contents(), t.deployment, t.job)
      ensures ok == o.write(2).Answered?
      ensures ok ==> DeploymentIs(run.store.Contents(), t.deployment, DeploymentStatus.Deleted)
      ensures Reliable(o) ==> ok && JobIs(run.store.Contents(), t.job, JobStatus.Completed, "")
      ensures !ok ==> run.store.jobs == old(run.store.jobs)
    {
      hide Stands, Stood, OnlyTouches, DeploymentIs, JobIs, Called;
      DeploymentIsSet(run.store.Contents(), t.deployment.value, DeploymentStatus.Deleted, t.job, o.write(2), o.now(2));
      Works(g, RemoveModel, Outputs([], [], ""), [], SaveDeleted);
      StandsMeansStood(g, [], SaveDeleted);
      ok := run.store.UpdateDeploymentStatus(t.deployment.value, DeploymentStatus.Deleted, o.write(2), o.now(2));
      ghost var db1 := run.store.Contents();
      DeletedSaved(g, t, o.write(2), o.now(2));
      assert [FinalReport(t.job, true, "")] + [] == [FinalReport(t.job, true, "")];
      if ok {
        SetJob(t.job, JobStatus.Completed, "", t.deployment, o.write(5), o.now(5), g, [], End(true));
        SameDeployments(db1, run.store.Contents(), t.deployment);
        TouchesInTurn(old(run.store.Contents()), db1, run.store.Contents(), t.deployment, t.job);
      }
    }

    // ----- Provision -----

    method SetCluster(c: Id, status: ClusterStatus, j: Id, fault: Fault,
                      ghost g: Guide, ghost rest: seq<Statement>, ghost stage: Stage)
      requires Stands(g, [SetClusterStatus(c, status)] + rest, stage)
      modifies run.store, run`machine, run`trace, run`drawn
      ensures Stands(g, rest, stage)
      ensures OnlyTouchesCluster(old(run.store.Contents()), run.store.Contents(), Some(c), j)
      ensures fault.Answered? ==> ClusterIs(run.store.Contents(), Some(c), status)
      ensures run.store.jobs == old(run.store.jobs)
    {
      hide Stands, Stood, OnlyTouchesCluster, ClusterIs, Called;
      StandsMeansStood(g, [SetClusterStatus(c, status)] + rest, stage);
      ClusterIsSet(run.store.Contents(), c, status, j, fault);
      var ok := run.store.UpdateClusterStatus(c, status, fault);
      Made(g, SetClusterStatus(c, status), rest, stage, fault, 0);
    }

    method SetJobOfCluster(j: Id, status: JobStatus, message: string, c: Option<Id>, fault: Fault, now: int,
                           ghost g: Guide, ghost rest: seq<Statement>, ghost stage: Stage)
      requires status.Completed? ==> message == ""
      requires Stands(g, [SetJobStatus(j, status, message)] + rest, stage)
      modifies run.store, run`machine, run`trace, run`drawn
      ensures Stands(g, rest, stage)
      ensures OnlyTouchesCluster(old(run.store.Contents()), run.store.Contents(), c, j)
      ensures fault.Answered? ==> JobIs(run.store.Contents(), j, status, message)
      ensures fault.Answered? && status.Running? ==> Started(run.store.Contents(), j)
      ensures run.store.clusters == old(run.store.clusters)
    {
      hide Stands, Stood, OnlyTouches, OnlyTouchesCluster, JobIs, Started, Called;
      StandsMeansStood(g, [SetJobStatus(j, status, message)] + rest, stage);
      ghost var db0 := run.store.Contents();
      JobIsSet(db0, j, status, message, None, fault, now);
      var ok := run.store.UpdateJobStatus(j, status, message, fault, now);
      TouchesClusterToo(db0, run.store.Contents(), c, j);
      Made(g, SetJobStatus(j, status, message), rest, stage, fault, now);
    }

    method GiveUpCluster(c: Id, j: Id, message: string, status: Fault, report: Fault, now: int, ghost g: Guide)
      requires Stands(g, GivingUpCluster(c, j, message), End(false))
      modifies run.store, run`machine, run`trace, run`drawn
      ensures Stands(g, [], End(false))
      ensures OnlyTouchesCluster(old(run.store.Contents()), run.store.Contents(), Some(c), j)
      ensures status.Answered? ==> ClusterIs(run.store.Contents(), Some(c), ClusterStatus.Failed)
      ensures report.Answered? ==> JobIs(run.store.Contents(), j, JobStatus.Failed, message)
    {
      hide Stands;
      ghost var last := [SetJobStatus(j, JobStatus.Failed, message)];
      assert GivingUpCluster(c, j, message) == [SetClusterStatus(c, ClusterStatus.Failed)] + last && last + [] == last;
      SetCluster(c, ClusterStatus.Failed, j, status, g, last, End(false));
      ghost var db1 := run.store.Contents();
      SetJobOfCluster(j, JobStatus.Failed, message, Some(c), report, now, g, [], End(false));
      TouchesClusterInTurn(old(run.store.Contents()), db1, run.store.Contents(), Some(c), j);
    }

    method BeginProvision(c: Id, job: Id, o: ProvisionOutcomes, ghost g: Guide)
      requires Stands(g, [SetClusterStatus(c, Installing), SetJobStatus(job, JobStatus.Running, "")], RunPulumi)
      modifies run.store, run`machine, run`trace, run`drawn
      ensures Stands(g, [], RunPulumi)
      ensures OnlyTouchesCluster(old(run.store.Contents()), run.store.Contents(), Some(c), job)
      ensures ReliableWrites(o) ==> Started(run.store.Contents(), job)
    {
      hide Stands;
      ghost var last := [SetJobStatus(job, JobStatus.Running, "")];
      assert [SetClusterStatus(c, Installing), last[0]] == [SetClusterStatus(c, Installing)] + last && last + [] == last;
      SetCluster(c, Installing, job, o.write(0), g, last, RunPulumi);
      ghost var db1 := run.store.Contents();
      SetJobOfCluster(job, JobStatus.Running, "", Some(c), o.write(1), o.now(1), g, [], RunPulumi);
      TouchesClusterInTurn(old(run.store.Contents()), db1, run.store.Contents(), Some(c), job);
    }

    /** With reliable writes: success, the cluster active with the file and the address of this run and the job completed;
        or an error, the cluster failed and the job failed. It succeeds if and only if every outside call does. */
    method HandleProvisionClusterTask(job: Id, cluster: Option<Id>, stack: string, o: ProvisionOutcomes, ghost g: Guide)
        returns (ok: bool)
      requires IsHeld(g) && IsProvision(g, job, cluster, stack)
      modifies run, run.store, run.client
      ensures IsOver(g)
      ensures g.following ==> run.origin == Next(cipher, old(run.machine), Event.PickUp(g.thread, TaskIdOf(g.payload)))
      ensures ok ==> cluster.Some? && run.client.held == old(run.client.held) - {ProvisionId(cluster.value)}
      ensures !ok ==> run.client.held == old(run.client.held)
      ensures OnlyTouchesCluster(old(run.store.Contents()), run.store.Contents(), cluster, job)
      ensures ok <==> cluster.Some? && o.address.Some? && IsFetched(o.fetch) && (cipher.Some? ==> o.nonce.Some?) &&
                      o.write(2).Answered?
      ensures ok && cluster.value in old(run.store.clusters) ==>
                && cluster.value in run.store.clusters && run.store.clusters[cluster.value].status.Active?
                && run.store.clusters[cluster.value].publicIp == o.address.value
                && exists n: nat :: n < 30 && IsFirst(o.fetch, n) &&
                     run.store.clusters[cluster.value].kubeconfig ==
                     Stored(cipher, if o.nonce.Some? then o.nonce.value else [], o.fetch(n).value,
                            AsciiBytes(o.address.value)) &&
                     (CanSeal(cipher, o.nonce) ==>
                        NamesAddress(cipher, run.store.clusters[cluster.value].kubeconfig, o.fetch(n).value,
                                     o.address.value))
      ensures ReliableWrites(o) && ok ==> JobIs(run.store.Contents(), job, JobStatus.Completed, "")
      ensures ReliableWrites(o) && !ok ==> ClusterIs(run.store.Contents(), cluster, ClusterStatus.Failed)
      ensures ReliableWrites(o) && !ok ==> JobIs(run.store.Contents(), job, JobStatus.Failed, o.message)
      ensures ReliableWrites(o) && cluster.Some? ==> Started(run.store.Contents(), job)
    {
      hide *;
      ok := false;
      PickUp(g);
      ReliableProvision(o);
      if cluster.None? {
        NoClusterNotFollowed(g, job, cluster, stack);
        NotFollowed(g);
        SetJobOfCluster(job, JobStatus.Failed, o.message, cluster, o.write(4), o.now(4), g, [], End(false));
        NoCluster(run.store.Contents());
        NotFollowed(g);
        return;
      }
      ProvisionBegins(g, job, cluster, stack);
      ContentsAre(run.store);
      ghost var db0 := run.store.Contents();
      BeginProvision(cluster.value, job, o, g);
      ghost var db2 := run.store.Contents();
      SameClusterIds(db0, db2, cluster, job);
      ContentsAre(run.store);
      var fetched, attempts := None, 0;
      if o.address.Some? {
        fetched, attempts := FetchKubeconfigWithRetry(o.fetch);
      }
      if o.address.None? || fetched.None? || (cipher.Some? && o.nonce.None?) {
        FailsToProvision(g, cluster.value, job, stack, o.message);
        GiveUpCluster(cluster.value, job, o.message, o.write(3), o.write(4), o.now(4), g);
      } else {
        var nonce := if o.nonce.Some? then o.nonce.value else [];
        var r := ProvisionRun(job, cluster.value, Outputs(nonce, fetched.value, o.address.value));
        StackIsUp(g, job, cluster.value, stack, r.outputs);
        KubeconfigIs(cipher, r);
        SealedNamesAddress(cipher, o.nonce, fetched.value, o.address.value);
        ok := SaveCluster(cluster.value, r, job, stack, o, g);
      }
      Return(ok, ProvisionId(cluster.value), g);
      TouchesClusterInTurn(db0, db2, run.store.Contents(), cluster, job);
      StartedStaysToo(db2, run.store.Contents(), cluster, job);
    }

    ghost method FailsToProvision(g: Guide, c: Id, job: Id, stack: string, message: string)
      requires IsProvision(g, job, Some(c), stack) && Stands(g, [], RunPulumi)
      modifies run`machine, run`trace, run`drawn
      ensures Stands(g, GivingUpCluster(c, job, message), End(false))
    {
      hide Stands;
      Fails(g, RunPulumi, message, GivingUpCluster(c, job, message));
    }

    ghost method StackIsUp(g: Guide, job: Id, c: Id, stack: string, outputs: Outputs)
      requires IsProvision(g, job, Some(c), stack) && Stands(g, [], RunPulumi)
      modifies run`machine, run`trace, run`drawn
      ensures Stands(g, [], Stage.SaveCluster(ProvisionRun(job, c, outputs)))
    {
      hide Stands;
      Works(g, RunPulumi, outputs, [], Stage.SaveCluster(ProvisionRun(job, c, outputs)));
    }

    /** The kubeconfig and the address have been written, or not. */
    ghost method ClusterSaved(g: Guide, c: Id, job: Id, stack: string, r: ProvisionRun, fault: Fault, message: string)
      requires IsProvision(g, job, Some(c), stack) && Stood(g, [], Stage.SaveCluster(r))
      requires g.following ==>
                 run.store.Contents() ==
                 Called(run.machine.db,
                        SetClusterDetails(c, ClusterStatus.Active, KubeconfigOf(cipher, r), r.outputs.ip), fault, 0)
      modifies run`machine, run`trace, run`drawn
      ensures Stands(g, if fault.Answered? then [FinalReport(job, true, "")] else GivingUpCluster(c, job, message),
                     End(fault.Answered?))
    {
      hide Stands, Called, KubeconfigOf;
      assert [] + [FinalReport(job, true, "")] == [FinalReport(job, true, "")];
      Goes(g, Stage.SaveCluster(r), AttemptChoice(fault, false, Outputs([], [], ""), message, 0),
           if fault.Answered? then [FinalReport(job, true, "")] else GivingUpCluster(c, job, message),
           End(fault.Answered?));
    }

    method SaveCluster(c: Id, r: ProvisionRun, job: Id, stack: string, o: ProvisionOutcomes, ghost g: Guide)
        returns (ok: bool)
      requires IsProvision(g, job, Some(c), stack) && Stands(g, [], Stage.SaveCluster(r))
      modifies run.store, run`machine, run`trace, run`drawn
      ensures Stands(g, [], End(ok))
      ensures OnlyTouchesCluster(old(run.store.Contents()), run.store.Contents(), Some(c), job)
      ensures ok == o.write(2).Answered?
      ensures ok && c in old(run.store.clusters) ==>
                && c in run.store.clusters && run.store.clusters[c].status.Active?
                && run.store.clusters[c].kubeconfig == KubeconfigOf(cipher, r)
                && run.store.clusters[c].publicIp == r.outputs.ip
      ensures ok && o.write(4).Answered? ==> JobIs(run.store.Contents(), job, JobStatus.Completed, "")
      ensures !ok && o.write(3).Answered? ==> ClusterIs(run.store.Contents(), Some(c), ClusterStatus.Failed)
      ensures !ok && o.write(4).Answered? ==> JobIs(run.store.Contents(), job, JobStatus.Failed, o.message)
    {
      hide Stands, Stood, KubeconfigOf, OnlyTouchesCluster, ClusterIs, JobIs, Called;
      StandsMeansStood(g, [], Stage.SaveCluster(r));
      DetailsAreSet(run.store.Contents(), c, ClusterStatus.Active, KubeconfigOf(cipher, r), r.outputs.ip, job, o.write(2));
      ok := run.store.UpdateClusterDetails(c, ClusterStatus.Active, KubeconfigOf(cipher, r), r.outputs.ip, o.write(2));
      ghost var db1 := run.store.Contents();
      ClusterSaved(g, c, job, stack, r, o.write(2), o.message);
      assert [FinalReport(job, true, "")] + [] == [FinalReport(job, true, "")];
      if ok {
        SetJobOfCluster(job, JobStatus.Completed, "", Some(c), o.write(4), o.now(4), g, [], End(true));
      } else {
        GiveUpCluster(c, job, o.message, o.write(3), o.write(4), o.now(4), g);
      }
      TouchesClusterInTurn(old(run.store.Contents()), db1, run.store.Contents(), Some(c), job);
    }

    // ----- Destroy -----

    /** A deployment that is not deleted or failed is orphaned with its cluster. */
    method OrphanDeployments(c: Id, j: Id, fault: Fault, now: int,
                             ghost g: Guide, ghost rest: seq<Statement>, ghost stage: Stage)
      requires Stands(g, [SetStatusByCluster(c, Orphaned)] + rest, stage)
      modifies run.store, run`machine, run`trace, run`drawn
      ensures Stands(g, rest, stage)
      ensures TouchesAround(old(run.store.Contents()), run.store.Contents(), Some(c), j)
      ensures run.store.clusters == old(run.store.clusters)
      ensures fault.Answered? ==> NoneRuns(run.store.Contents(), c)
    {
      hide Stands, Stood, NoneRuns, TouchesAround, Called;
      StandsMeansStood(g, [SetStatusByCluster(c, Orphaned)] + rest, stage);
      DeploymentsAreOrphaned(run.store.Contents(), c, j, fault, now);
      var ok := run.store.UpdateDeploymentsStatusByCluster(c, Orphaned, fault, now);
      Made(g, SetStatusByCluster(c, Orphaned), rest, stage, fault, now);
    }

    /** With reliable writes: success, the job completed and, for a known cluster, its row destroyed and cleared and none
        of its deployments left running; or an error, and the cluster and the job failed. Without a cluster id only
        the job is touched. */
    method HandleDestroyClusterTask(job: Id, cluster: Option<Id>, stack: string, destroys: bool, o: ProvisionOutcomes,
                                    ghost g: Guide) returns (ok: bool)
      requires IsHeld(g) && IsDestroy(g, job, cluster, stack)
      modifies run, run.store, run.client
      ensures IsOver(g)
      ensures g.following ==> run.origin == Next(cipher, old(run.machine), Event.PickUp(g.thread, TaskIdOf(g.payload)))
      ensures run.client.held == if ok then old(run.client.held) - {DestroyId(stack)} else old(run.client.held)
      ensures TouchesAround(old(run.store.Contents()), run.store.Contents(), cluster, job)
      ensures ok <==> destroys && (cluster.Some? ==> o.write(2).Answered?)
      ensures ok && cluster.Some? && cluster.value in old(run.store.clusters) ==>
                && cluster.value in run.store.clusters && run.store.clusters[cluster.value].status.Destroyed?
                && run.store.clusters[cluster.value].kubeconfig == NO_KUBECONFIG
                && run.store.clusters[cluster.value].publicIp == ""
      ensures ok && cluster.Some? && o.write(5).Answered? ==> NoneRuns(run.store.Contents(), cluster.value)
      ensures !ok ==> run.store.deployments == old(run.store.deployments)
      ensures ReliableWrites(o) && ok ==> JobIs(run.store.Contents(), job, JobStatus.Completed, "")
      ensures ReliableWrites(o) && !ok ==> ClusterIs(run.store.Contents(), cluster, ClusterStatus.Failed)
      ensures ReliableWrites(o) && !ok ==> JobIs(run.store.Contents(), job, JobStatus.Failed, o.message)
      ensures ReliableWrites(o) ==> Started(run.store.Contents(), job)
    {
      hide *;
      PickUp(g);
      ContentsAre(run.store);
      DestroyBegins(g, job, cluster, stack);
      ghost var db0 := run.store.Contents();
      BeginDestroy(job, cluster, o, g);
      ghost var db2 := run.store.Contents();
      SameClusterIds(db0, db2, cluster, job);
      SameRows(db0, db2, cluster, job);
      ContentsAre(run.store);
      ok := destroys;
      if ok && cluster.Some? {
        TouchesAroundToo(db0, db2, cluster, job);
        StackIsGone(g, job, cluster.value, stack);
        ok := SaveDestroyed(cluster.value, job, stack, o, g);
        TouchesAroundInTurn(db0, db2, run.store.Contents(), cluster, job);
        StartedStaysAround(db2, run.store.Contents(), cluster, job);
      } else {
        ReportDestroy(job, cluster, stack, destroys, o, g);
        SameRows(db2, run.store.Contents(), cluster, job);
        StartedStaysToo(db2, run.store.Contents(), cluster, job);
        TouchesClusterInTurn(db0, db2, run.store.Contents(), cluster, job);
        TouchesAroundToo(db0, run.store.Contents(), cluster, job);
      }
      ContentsAre(run.store);
      Return(ok, DestroyId(stack), g);
    }

    method BeginDestroy(job: Id, cluster: Option<Id>, o: ProvisionOutcomes, ghost g: Guide)
      requires Stands(g, BeginningDestroy(job, cluster), RunPulumiDestroy)
      modifies run.store, run`machine, run`trace, run`drawn
      ensures Stands(g, [], RunPulumiDestroy)
      ensures OnlyTouchesCluster(old(run.store.Contents()), run.store.Contents(), cluster, job)
      ensures ReliableWrites(o) ==> Started(run.store.Contents(), job)
    {
      hide Stands, OnlyTouchesCluster, Started, ClusterIs, JobIs;
      ghost var rest := if cluster.Some? then [SetClusterStatus(cluster.value, Destroying)] else [];
      assert rest + [] == rest;
      SetJobOfCluster(job, JobStatus.Running, "", cluster, o.write(1), o.now(1), g, rest, RunPulumiDestroy);
      ghost var db1 := run.store.Contents();
      if cluster.Some? {
        SetCluster(cluster.value, Destroying, job, o.write(0), g, [], RunPulumiDestroy);
        TouchesClusterInTurn(old(run.store.Contents()), db1, run.store.Contents(), cluster, job);
        StartedStaysToo(db1, run.store.Contents(), cluster, job);
      }
    }

    /** The report when Pulumi has failed, or when there is no row to clear. */
    method ReportDestroy(job: Id, cluster: Option<Id>, stack: string, destroys: bool, o: ProvisionOutcomes, ghost g: Guide)
      requires IsDestroy(g, job, cluster, stack) && Stands(g, [], RunPulumiDestroy) && (destroys ==> cluster.None?)
      modifies run.store, run`machine, run`trace, run`drawn
      ensures Stands(g, [], End(destroys))
      ensures OnlyTouchesCluster(old(run.store.Contents()), run.store.Contents(), cluster, job)
      ensures ReliableWrites(o) && destroys ==> JobIs(run.store.Contents(), job, JobStatus.Completed, "")
      ensures ReliableWrites(o) && !destroys ==> ClusterIs(run.store.Contents(), cluster, ClusterStatus.Failed)
      ensures ReliableWrites(o) && !destroys ==> JobIs(run.store.Contents(), job, JobStatus.Failed, o.message)
    {
      hide Stands, OnlyTouchesCluster, JobIs;
      ghost var last := [FinalReport(job, destroys, o.message)];
      assert last + [] == last;
      if destroys {
        assert [] + last == last;
        Works(g, RunPulumiDestroy, Outputs([], [], ""), last, End(true));
        SetJobOfCluster(job, JobStatus.Completed, "", cluster, o.write(4), o.now(4), g, [], End(true));
      } else if cluster.Some? {
        Fails(g, RunPulumiDestroy, o.message, GivingUpCluster(cluster.value, job, o.message));
        GiveUpCluster(cluster.value, job, o.message, o.write(3), o.write(4), o.now(4), g);
      } else {
        Fails(g, RunPulumiDestroy, o.message, last);
        SetJobOfCluster(job, JobStatus.Failed, o.message, cluster, o.write(4), o.now(4), g, [], End(false));
      }
    }

    ghost method StackIsGone(g: Guide, job: Id, c: Id, stack: string)
      requires IsDestroy(g, job, Some(c), stack) && Stands(g, [], RunPulumiDestroy)
      modifies run`machine, run`trace, run`drawn
      ensures Stands(g, [], Stage.SaveDestroyed)
    {
      hide Stands;
      Works(g, RunPulumiDestroy, Outputs([], [], ""), [], Stage.SaveDestroyed);
    }

    /** The row has been cleared, or not. */
    ghost method DestroyedSaved(g: Guide, c: Id, job: Id, stack: string, fault: Fault, message: string)
      requires IsDestroy(g, job, Some(c), stack) && Stood(g, [], Stage.SaveDestroyed)
      requires g.following ==>
                 run.store.Contents() == Called(run.machine.db, SetClusterDetails(c, Destroyed, NO_KUBECONFIG, ""), fault, 0)
      modifies run`machine, run`trace, run`drawn
      ensures Stands(g, (if fault.Answered? then [SetStatusByCluster(c, Orphaned)] else []) +
                        [FinalReport(job, fault.Answered?, message)], End(fault.Answered?))
    {
      hide Stands, Stood, Called;
      assert [] + [FinalReport(job, fault.Answered?, message)] == [FinalReport(job, fault.Answered?, message)];
      Goes(g, Stage.SaveDestroyed, AttemptChoice(fault, false, Outputs([], [], ""), message, 0),
           (if fault.Answered? then [SetStatusByCluster(c, Orphaned)] else []) +
           [FinalReport(job, fault.Answered?, message)],
           End(fault.Answered?));
    }

    method SaveDestroyed(c: Id, job: Id, stack: string, o: ProvisionOutcomes, ghost g: Guide) returns (ok: bool)
      requires IsDestroy(g, job, Some(c), stack) && Stands(g, [], Stage.SaveDestroyed)
      modifies run.store, run`machine, run`trace, run`drawn
      ensures Stands(g, [], End(ok))
      ensures TouchesAround(old(run.store.Contents()), run.store.Contents(), Some(c), job)
      ensures ok == o.write(2).Answered?
      ensures ok && c in old(run.store.clusters) ==>
                && c in run.store.clusters && run.store.clusters[c].status.Destroyed?
                && run.store.clusters[c].kubeconfig == NO_KUBECONFIG && run.store.clusters[c].publicIp == ""
      ensures ok && o.write(5).Answered? ==> NoneRuns(run.store.Contents(), c)
      ensures !ok ==> run.store.deployments == old(run.store.deployments)
      ensures ReliableWrites(o) ==> ok && JobIs(run.store.Contents(), job, JobStatus.Completed, "")
    {
      hide Stands, Stood, OnlyTouchesCluster, JobIs, NoneRuns, TouchesAround, Called;
      ghost var db0 := run.store.Contents();
      StandsMeansStood(g, [], Stage.SaveDestroyed);
      DetailsAreSet(run.store.Contents(), c, Destroyed, NO_KUBECONFIG, "", job, o.write(2));
      ok := run.store.UpdateClusterDetails(c, Destroyed, NO_KUBECONFIG, "", o.write(2));
      ghost var db1 := run.store.Contents();
      DestroyedSaved(g, c, job, stack, o.write(2), o.message);
      ghost var last := [FinalReport(job, ok, o.message)];
      assert [] + last == last && last + [] == last;
      if !ok {
        SetJobOfCluster(job, JobStatus.Failed, o.message, Some(c), o.write(4), o.now(4), g, [], End(false));
        TouchesClusterInTurn(db0, db1, run.store.Contents(), Some(c), job);
        TouchesAroundToo(db0, run.store.Contents(), Some(c), job);
        SameRows(db0, run.store.Contents(), Some(c), job);
        return;
      }
      OrphanDeployments(c, job, o.write(5), o.now(5), g, last, End(true));
      ghost var db2 := run.store.Contents();
      SetJobOfCluster(job, JobStatus.Completed, "", Some(c), o.write(4), o.now(4), g, [], End(true));
      ghost var db3 := run.store.Contents();
      TouchesAroundToo(db0, db1, Some(c), job);
      TouchesAroundInTurn(db0, db1, db2, Some(c), job);
      SameRows(db2, db3, Some(c), job);
      NoneRunsStays(db2, db3, c);
      TouchesAroundToo(db2, db3, Some(c), job);
      TouchesAroundInTurn(db0, db2, db3, Some(c), job);
    }

    lemma UrlIsHttp(store: PostgresStore, t: Task, ip: string)
      ensures t.deployment.Some? && t.deployment.value in store.deployments &&
              UrlIs(store.Contents(), t.deployment, ServiceUrl(ip, t.nodePort)) ==>
                IsHttpUrl(store.deployments[t.deployment.value].serviceUrl, ip, t.nodePort)
    {
      ServiceUrlIsHttp(ip, t.nodePort);
      hide IsHttpUrl, ServiceUrl;
    }

    lemma Unparsed(g: Guide, t: Task)
      requires (IsDeploy(g, t) || IsDelete(g, t)) && (t.deployment.None? || t.cluster.None?)
      ensures !g.following
    {
    }

    lemma ReachableMeans(store: PostgresStore, t: Task, o: Outcomes)
      ensures CannotBeRead(store.Contents(), t, o) <==>
                t.cluster.Some? && (!o.read.Answered? || t.cluster.value !in store.clusters)
      ensures Reachable(store.Contents(), t, o) <==>
                && t.deployment.Some? && t.cluster.Some? && !CannotBeRead(store.Contents(), t, o)
                && Load(cipher, store.clusters[t.cluster.value].kubeconfig).Some? && o.client
      ensures store.Contents().clusters == store.clusters
    {
      hide Load;
    }

    lemma DeployBegins(g: Guide, t: Task)
      requires t.deployment.Some? && IsDeploy(g, t) && Stands(g, FirstCalls(g.payload), FirstStage(g.payload))
      ensures Stands(g, Beginning(t, Building), ReadCluster)
      ensures g.following ==> TaskIdOf(g.payload) == DeployId(t.deployment.value)
    {
    }

    lemma DeleteBegins(g: Guide, t: Task)
      requires t.deployment.Some? && IsDelete(g, t) && Stands(g, FirstCalls(g.payload), FirstStage(g.payload))
      ensures Stands(g, Beginning(t, Deleting), ReadCluster)
      ensures g.following ==> TaskIdOf(g.payload) == DeleteId(t.deployment.value)
    {
    }

    lemma ProvisionBegins(g: Guide, job: Id, cluster: Option<Id>, stack: string)
      requires cluster.Some? && IsProvision(g, job, cluster, stack)
      requires Stands(g, FirstCalls(g.payload), FirstStage(g.payload))
      ensures Stands(g, [SetClusterStatus(cluster.value, Installing), SetJobStatus(job, JobStatus.Running, "")], RunPulumi)
      ensures g.following ==> TaskIdOf(g.payload) == ProvisionId(cluster.value)
    {
    }

    lemma NoClusterNotFollowed(g: Guide, job: Id, cluster: Option<Id>, stack: string)
      requires IsProvision(g, job, cluster, stack) && cluster.None?
      ensures !g.following
    {
    }

    lemma DestroyBegins(g: Guide, job: Id, cluster: Option<Id>, stack: string)
      requires IsDestroy(g, job, cluster, stack) && Stands(g, FirstCalls(g.payload), FirstStage(g.payload))
      ensures Stands(g, BeginningDestroy(job, cluster), RunPulumiDestroy)
      ensures g.following ==> TaskIdOf(g.payload) == DestroyId(stack)
    {
    }
  }
}
