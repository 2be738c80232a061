/** When the target cache agrees with the database: handlers and worker attempts that run one at a time, never while a
    target is being resolved, whose writes and deletions succeed, no crash and no destroy task. Resolvers may interleave
    with each other, and their own Redis calls may fail (internal/http/handlers/deploy.go, internal/http/handlers/proxy.go,
    internal/worker/server.go, internal/store/postgres.go, internal/cache/keys.go). */
module Coherence {
  import opened Common
  import opened Kubeconfig
  import opened Store
  import opened Subsequences
  import opened Text
  import opened LifecycleSafety
  import opened LifecycleReports
  import opened ModelNames
  import L = Lifecycle
  import D = Discovery

  datatype State = State(world: L.World, proxy: D.State)

  const INIT := State(L.INIT, D.INIT)

  /** `drop` is how the deletion of the model's keys ends, when the step ends an attempt that makes one. */
  datatype Event = Handle(step: L.Event, drop: Fault) | Resolve(event: D.Event)

  predicate Idle(s: State) {
    s.world.procs == map[] && s.proxy.resolvers == map[]
  }

  /** A handler starts only when nothing else is at work and its writes succeed; a listing is a true answer. */
  ghost predicate Allowed(cipher: Option<Aead>, s: State, e: Event) {
    match e
    case Handle(Request(_, p), _) => Idle(s) && !p.FindForDestroy?
    case Handle(PickUp(_, _), _) => Idle(s)
    case Handle(Step(t, c), drop) =>
      drop.Answered? && (t in s.world.procs && L.StatementOf(cipher, s.world.procs[t], c).Some? ==> c.fault.Answered?)
    case Handle(Crash(_), _) => false
    case Handle(Release(_), _) => true
    case Resolve(List(t, targets, fault)) =>
      && s.world.procs == map[]
      && (t in s.proxy.resolvers && fault.Answered? ==> IsListing(s.world.db, s.proxy.resolvers[t].model, targets))
    case Resolve(WorkerDrop(_, _)) => false
    case Resolve(_) => s.world.procs == map[]
  }

  predicate ServesModel(p: L.Proc) {
    p.Attempt? && (p.payload.DeployTask? || p.payload.DeleteTask?)
  }

  /** An attempt of a deploy or delete task deletes its model's keys; that they are gone by its end, when those calls are
      answered, is what WorkerServer proves of HandleDeployModelTask and HandleDeleteModelTask. No resolve can see the
      deletions apart from the attempt's other effects, and they are taken together at its end. */
  function ProxyAfter(proxy: D.State, before: map<nat, L.Proc>, after: map<nat, L.Proc>, e: L.Event, drop: Fault): D.State {
    if e.Step? && e.proc in before && e.proc !in after && ServesModel(before[e.proc])
    then D.Next(proxy, D.WorkerDrop(before[e.proc].payload.model, drop))
    else proxy
  }

  ghost function Occurs(cipher: Option<Aead>, s: State, e: Event): State {
    match e
    case Handle(step, drop) =>
      var world := L.Next(cipher, s.world, step);
      State(world, ProxyAfter(s.proxy, s.world.procs, world.procs, step, drop))
    case Resolve(event) => s.(proxy := D.Next(s.proxy, event))
  }

  ghost function Next(cipher: Option<Aead>, s: State, e: Event): State {
    if Allowed(cipher, s, e) then Occurs(cipher, s, e) else s
  }

  ghost function Run(cipher: Option<Aead>, es: seq<Event>): State {
    if es == [] then INIT else Next(cipher, Run(cipher, es[..|es| - 1]), es[|es| - 1])
  }

  // ----- What a target must be -----

  /** Some active deployment of exactly this model, on an active cluster, has this URL. */
  ghost predicate IsActive(db: Db, model: string, url: string) {
    exists d :: d in db.deployments && IsTarget(db, model, db.deployments[d]) && db.deployments[d].serviceUrl == url
  }

  ghost predicate Covered(db: Db, model: string, targets: seq<string>) {
    forall u :: u in targets ==> IsActive(db, model, u)
  }

  function ModelOf(key: string): string {
    if |key| < |TARGETS_PREFIX| then "" else key[|TARGETS_PREFIX|..]
  }

  lemma ModelOfKey(model: string)
    ensures ModelOf(ModelTargetsKey(model)) == ToLower(model)
    ensures ModelTargetsKey(model) == TARGETS_PREFIX + ToLower(model)
  {
  }

  // ----- The database side -----

  predicate Dormant(db: Db, c: Id) {
    c in db.clusters ==> !db.clusters[c].status.Active?
  }

  /** The calls of an attempt concern its own resource. */
  predicate OwnCall(p: L.Payload, s: Statement) {
    match s
    case SetJobStatus(_, _, _) => true
    case SetClusterStatus(c, _) => p.ProvisionTask? && c == p.cluster
    case SetDeploymentStatus(d, _) => (p.DeployTask? || p.DeleteTask?) && d == p.deployment
    case _ => false
  }

  /** Until its final write, and after a failure, a provision attempt's cluster is not active. */
  ghost predicate ProcQuiet(db: Db, p: L.Proc) {
    match p
    case Reset(_, c) => Dormant(db, c)
    case AddDeployment(model, _, _, _) => ToLower(model) == model
    case FindForDestroy(_) => false
    case AddJob(payload) => !payload.DestroyTask? && (payload.ProvisionTask? ==> Dormant(db, payload.cluster))
    case Enqueue(payload) => !payload.DestroyTask? && (payload.ProvisionTask? ==> Dormant(db, payload.cluster))
    case Attempt(payload, calls, stage) =>
      && !payload.DestroyTask? && StageFits(payload, stage)
      && (forall i :: 0 <= i < |calls| ==> OwnCall(payload, calls[i]))
      && (payload.ProvisionTask? ==>
            if stage == L.End(true) then forall i :: 0 <= i < |calls| ==> calls[i].SetJobStatus?
            else Dormant(db, payload.cluster))
    case _ => true
  }

  predicate Returning(p: L.Proc, id: L.TaskId) {
    p.Attempt? && L.TaskIdOf(p.payload) == id && p.stage == L.End(true)
  }

  /** A held provision task's cluster is not active, unless the attempt that has just made it active is about to
      return. */
  ghost predicate HeldQuiet(w: L.World, id: L.TaskId) {
    && id in w.queue && !w.queue[id].DestroyTask?
    && (w.queue[id].ProvisionTask? && !Dormant(w.db, w.queue[id].cluster) ==>
          exists t :: t in w.procs && Returning(w.procs[t], id))
  }

  ghost predicate Quiet(w: L.World) {
    && Unique(w) && NamesAreLower(w.db)
    && (forall t, u :: t in w.procs && u in w.procs ==> t == u)
    && (forall t :: t in w.procs ==> ProcQuiet(w.db, w.procs[t]))
    && (forall id :: id in w.queue ==> HeldQuiet(w, id))
  }

  // ----- The proxy side -----

  ghost predicate HasTargets(r: D.Resolver) {
    r.Cached? || r.Listed? || r.Writing? || r.Choosing?
  }

  ghost predicate Exempt(w: L.World, key: string) {
    exists t :: t in w.procs && ServesModel(w.procs[t]) && ModelTargetsKey(w.procs[t].payload.model) == key
  }

  ghost predicate CacheCovered(w: L.World, proxy: D.State) {
    forall k :: k in proxy.cache ==>
      && k == TARGETS_PREFIX + ModelOf(k) && TrimSpace(ModelOf(k)) != ""
      && (Exempt(w, k) || Covered(w.db, ModelOf(k), proxy.cache[k].targets))
  }

  ghost predicate ResolverCovered(db: Db, r: D.Resolver) {
    && r.model != "" && TrimSpace(r.model) == r.model
    && (HasTargets(r) ==> Covered(db, ToLower(r.model), r.targets))
  }

  ghost predicate ResolversCovered(db: Db, proxy: D.State) {
    forall t :: t in proxy.resolvers ==> ResolverCovered(db, proxy.resolvers[t])
  }

  ghost predicate Inv(s: State) {
    && Quiet(s.world)
    && (s.world.procs != map[] ==> s.proxy.resolvers == map[])
    && CacheCovered(s.world, s.proxy)
    && ResolversCovered(s.world.db, s.proxy)
  }

  // ----- Resolver steps -----

  lemma KeptIsCovered(db: Db, model: string, targets: seq<string>, up: seq<bool>)
    requires Covered(db, model, targets)
    ensures Covered(db, model, Keep(targets, up))
  {
    KeepIsSubsequence(targets, up);
    forall u | u in Keep(targets, up) ensures IsActive(db, model, u) {
      SubsequenceMembers(Keep(targets, up), targets, u);
    }
  }

  /** All stored names are lower case, so a query that finds anything was in lower case. */
  lemma ListedIsCovered(db: Db, model: string, targets: seq<string>)
    requires NamesAreLower(db) && IsListing(db, model, targets)
    ensures Covered(db, ToLower(model), targets)
  {
    forall u | u in targets ensures IsActive(db, ToLower(model), u) {
      ListingMembers(db, model, targets, u);
    }
  }

  lemma NothingExempt(w: L.World)
    requires w.procs == map[]
    ensures forall k :: !Exempt(w, k)
  {
  }

  lemma ResolverStep(s: State, e: D.Event)
    requires Inv(s) && s.world.procs == map[] && !e.WorkerDrop?
    requires e.List? && e.fault.Answered? && e.thread in s.proxy.resolvers ==>
               IsListing(s.world.db, s.proxy.resolvers[e.thread].model, e.targets)
    ensures Inv(s.(proxy := D.Next(s.proxy, e)))
  {
    hide Unique, ProcQuiet, HeldQuiet, NamesAreLower, Covered, IsListing, TrimSpace, ToLower, ModelTargetsKey, ModelOf, Keep,
      Exempt;
    var db, proxy := s.world.db, s.proxy;
    NothingExempt(s.world);
    match e
    case Read(t, raw, fault) =>
      TrimIsIdempotent(raw);
      ModelOfKey(TrimSpace(raw));
    case Probe(t, up) =>
      if t in proxy.resolvers && HasTargets(proxy.resolvers[t]) {
        KeptIsCovered(db, ToLower(proxy.resolvers[t].model), proxy.resolvers[t].targets, up);
      }
    case WriteBack(t, fault) =>
      if t in proxy.resolvers {
        ModelOfKey(proxy.resolvers[t].model);
        LowerKeepsText(proxy.resolvers[t].model);
      }
    case List(t, targets, fault) =>
      if t in proxy.resolvers && fault.Answered? {
        ListedIsCovered(db, proxy.resolvers[t].model, targets);
      }
    case _ =>
  }

  // ----- Handler steps -----

  /** The statement leaves the targets of every model but `own` as they are or adds to them. */
  ghost predicate Gentle(db: Db, own: Option<string>, s: Statement) {
    match s
    case InsertCluster(_, row) => !row.status.Active?
    case SetClusterStatus(c, status) => Dormant(db, c) && !status.Active?
    case ResetCluster(c, _, status) => Dormant(db, c) && !status.Active?
    case SetClusterDetails(c, _, _, _) => Dormant(db, c)
    case InsertDeployment(_, row) => ToLower(row.model) == row.model
    case SetDeploymentStatus(d, _) => d in db.deployments && own == Some(db.deployments[d].model)
    case SetServiceUrl(d, _, _) => d in db.deployments && own == Some(db.deployments[d].model)
    case SetStatusByCluster(_, _) => false
    case _ => true
  }

  function Own(p: L.Proc): Option<string> {
    if ServesModel(p) then Some(p.payload.model) else None
  }

  lemma SentStatementIsGentle(cipher: Option<Aead>, db: Db, p: L.Proc, c: L.Choice)
    requires ProcFits(db, p) && ProcQuiet(db, p) && L.StatementOf(cipher, p, c).Some?
    ensures Gentle(db, Own(p), L.StatementOf(cipher, p, c).value)
  {
    hide ToLower, L.KubeconfigOf, L.ServiceUrl;
  }

  lemma GentleKeepsTarget(db: Db, own: Option<string>, s: Statement, fault: Fault, now: int, model: string, url: string)
    requires Gentle(db, own, s) && IsActive(db, model, url) && own != Some(model)
    ensures IsActive(Called(db, s, fault, now), model, url)
  {
    hide ToLower, UpdatedJob;
    var db' := Called(db, s, fault, now);
    var d :| d in db.deployments && IsTarget(db, model, db.deployments[d]) && db.deployments[d].serviceUrl == url;
    assert d in db'.deployments && db'.deployments[d] == db.deployments[d];
    assert IsTarget(db', model, db'.deployments[d]);
  }

  lemma GentleKeepsDormant(db: Db, own: Option<string>, s: Statement, fault: Fault, now: int, c: Id)
    requires Gentle(db, own, s) && Dormant(db, c) && (s.SetClusterDetails? ==> s.cluster != c)
    ensures Dormant(Called(db, s, fault, now), c)
  {
    hide ToLower, UpdatedJob, Violates, Cascaded;
  }

  /** A handler goes on quietly: a cluster it will provision is new, or was found destroyed or failed. */
  lemma HandlerGoesOn(cipher: Option<Aead>, db: Db, p: L.Proc, c: L.Choice, ok: bool, db': Db)
    requires !p.Attempt? && ProcQuiet(db, p)
    requires var s := L.StatementOf(cipher, p, c);
             if s.Some? then db' == Called(db, s.value, Answered, c.now) && ok == !Violates(db, s.value) else db' == db
    ensures L.After(db, p, c, ok).Some? ==> ProcQuiet(db', L.After(db, p, c, ok).value)
  {
    if p.FindForDeploy? {
      DeployedNameIsLower(p.name);
    }
    hide ToLower, L.DeployedName, L.OrgNamed, L.ClusterNamed, Violates;
  }

  lemma PlannedOwnCalls(p: L.Payload, message: string)
    requires !p.DestroyTask?
    ensures forall i :: 0 <= i < |L.FirstCalls(p)| ==> OwnCall(p, L.FirstCalls(p)[i])
    ensures forall i :: 0 <= i < |L.FailCalls(p, message)| ==> OwnCall(p, L.FailCalls(p, message)[i])
    ensures StageFits(p, L.FirstStage(p)) && L.FirstStage(p) != L.End(true)
  {
  }

  /** With the calls still to make, the attempt stays where it is. */
  lemma CallsGoOn(db: Db, db': Db, p: L.Proc)
    requires p.Attempt? && p.calls != [] && ProcQuiet(db, p)
    requires p.payload.ProvisionTask? && Dormant(db, p.payload.cluster) ==> Dormant(db', p.payload.cluster)
    ensures ProcQuiet(db', L.Attempt(p.payload, p.calls[1..], p.stage))
  {
    hide OwnCall, StageFits;
  }

  lemma AttemptGoesOn(db: Db, db': Db, p: L.Proc, c: L.Choice, ok: bool)
    requires p.Attempt? && p.calls == [] && ProcQuiet(db, p)
    requires p.stage.SaveCluster? ==> ok
    requires !p.stage.SaveCluster? && p.payload.ProvisionTask? && Dormant(db, p.payload.cluster) ==>
               Dormant(db', p.payload.cluster)
    ensures L.After(db, p, c, ok).Some? ==> ProcQuiet(db', L.After(db, p, c, ok).value)
  {
    PlannedOwnCalls(p.payload, c.message);
    hide L.FailCalls, L.FirstCalls, Dormant;
  }

  /** The attempt whose next call may make cluster `c` active. */
  predicate Saving(p: L.Proc, c: Id) {
    p.Attempt? && p.calls == [] && p.stage.SaveCluster? && p.payload.ProvisionTask? && p.payload.cluster == c
  }

  lemma DetailsComeFromSaving(cipher: Option<Aead>, db: Db, p: L.Proc, c: L.Choice)
    requires ProcQuiet(db, p) && L.StatementOf(cipher, p, c).Some? && L.StatementOf(cipher, p, c).value.SetClusterDetails?
    ensures Saving(p, L.StatementOf(cipher, p, c).value.cluster)
  {
  }

  /** What one step makes of the database. */
  ghost predicate GentleStep(db: Db, p: L.Proc, db': Db) {
    && NamesAreLower(db')
    && (forall c :: Dormant(db, c) && !Saving(p, c) ==> Dormant(db', c))
    && (forall m, u :: IsActive(db, m, u) && Own(p) != Some(m) ==> IsActive(db', m, u))
  }

  lemma StepIsGentle(cipher: Option<Aead>, w: L.World, t: nat, c: L.Choice)
    requires Quiet(w) && t in w.procs
    requires L.StatementOf(cipher, w.procs[t], c).Some? ==> c.fault.Answered?
    ensures GentleStep(w.db, w.procs[t], L.StepOf(cipher, w, t, w.procs[t], c).db)
  {
    var p, db := w.procs[t], L.StepOf(cipher, w, t, w.procs[t], c).db;
    var s := L.StatementOf(cipher, p, c);
    assert db == if s.Some? then Called(w.db, s.value, c.fault, c.now) else w.db;
    assert NamesAreLower(w.db) && ProcFits(w.db, p) && ProcQuiet(w.db, p);
    hide L.StatementOf, L.StepOf, Called, Gentle, IsActive, Dormant, Quiet, NamesAreLower, Own, ProcFits, ProcQuiet, Saving;
    if s.Some? {
      SentStatementIsGentle(cipher, w.db, p, c);
      StatementKeepsNames(w.db, s.value, c.fault, c.now);
      if s.value.SetClusterDetails? {
        DetailsComeFromSaving(cipher, w.db, p, c);
      }
      forall c' | Dormant(w.db, c') && !Saving(p, c') ensures Dormant(db, c') {
        GentleKeepsDormant(w.db, Own(p), s.value, c.fault, c.now, c');
      }
      forall m, u | IsActive(w.db, m, u) && Own(p) != Some(m) ensures IsActive(db, m, u) {
        GentleKeepsTarget(w.db, Own(p), s.value, c.fault, c.now, m, u);
      }
    }
  }

  lemma NextIsQuiet(cipher: Option<Aead>, w: L.World, t: nat, c: L.Choice)
    requires Quiet(w) && t in w.procs
    requires L.StatementOf(cipher, w.procs[t], c).Some? ==> c.fault.Answered?
    ensures var w' := L.StepOf(cipher, w, t, w.procs[t], c); t in w'.procs ==> ProcQuiet(w'.db, w'.procs[t])
  {
    var p, w' := w.procs[t], L.StepOf(cipher, w, t, w.procs[t], c);
    var s := L.StatementOf(cipher, p, c);
    var ok := c.fault.Answered? && (s.Some? ==> !Violates(w.db, s.value));
    StepIsGentle(cipher, w, t, c);
    assert w'.procs == L.Following(w.procs, t, L.After(w.db, p, c, ok));
    assert w'.db == if s.Some? then Called(w.db, s.value, c.fault, c.now) else w.db;
    assert ProcQuiet(w.db, p);
    if p.Attempt? {
      if p.calls != [] {
        CallsGoOn(w.db, w'.db, p);
      } else {
        assert p.stage.SaveCluster? ==> ok;
        AttemptGoesOn(w.db, w'.db, p, c, ok);
      }
    } else {
      HandlerGoesOn(cipher, w.db, p, c, ok, w'.db);
    }
    hide L.StatementOf, L.StepOf, L.AfterAttempt, L.AfterHandler, Called, Violates, Quiet, ProcQuiet, IsActive, Dormant;
  }

  lemma SavingWorks(cipher: Option<Aead>, db: Db, p: L.Proc, c: L.Choice, cluster: Id)
    requires Saving(p, cluster) && (L.StatementOf(cipher, p, c).Some? ==> c.fault.Answered?)
    ensures L.CallOk(cipher, db, p, c)
  {
  }

  lemma HeldStaysQuiet(cipher: Option<Aead>, w: L.World, t: nat, c: L.Choice, id: L.TaskId)
    requires Quiet(w) && t in w.procs
    requires L.StatementOf(cipher, w.procs[t], c).Some? ==> c.fault.Answered?
    requires id in L.StepOf(cipher, w, t, w.procs[t], c).queue
    ensures HeldQuiet(L.StepOf(cipher, w, t, w.procs[t], c), id)
  {
    var p, w' := w.procs[t], L.StepOf(cipher, w, t, w.procs[t], c);
    StepIsGentle(cipher, w, t, c);
    assert ProcQuiet(w.db, p);
    hide L.After, L.CallOk, L.DbAfter, L.WritesAfter, L.IssuedAfter, L.RunsAfter, Dormant, IsActive, NamesAreLower,
      Own, Unique;
    if id in w.queue {
      assert HeldQuiet(w, id) && L.TaskIdOf(w.queue[id]) == id by { QueueIds(w, id); }
      if w.queue[id].ProvisionTask? && !Dormant(w'.db, w.queue[id].cluster) {
        if Saving(p, w.queue[id].cluster) {
          SavingWorks(cipher, w.db, p, c, w.queue[id].cluster);
        }
        StillReturning(w, t, c, L.CallOk(cipher, w.db, p, c), id);
        assert Returning(w'.procs[t], id);
      }
    } else {
      NewlyHeld(w, p, c, id);
    }
    hide Quiet, ProcQuiet, Returning, L.TaskIdOf;
  }

  lemma QueueIds(w: L.World, id: L.TaskId)
    requires Unique(w) && id in w.queue
    ensures L.TaskIdOf(w.queue[id]) == id
  {
    hide OneOfEach, ProcFits;
  }

  lemma NewlyHeld(w: L.World, p: L.Proc, c: L.Choice, id: L.TaskId)
    requires ProcQuiet(w.db, p) && id !in w.queue && id in L.QueueAfter(w.queue, p, c)
    ensures var q := L.QueueAfter(w.queue, p, c)[id];
            p.Enqueue? && q == p.payload && !q.DestroyTask? && (q.ProvisionTask? ==> Dormant(w.db, q.cluster))
  {
  }

  lemma StillReturning(w: L.World, t: nat, c: L.Choice, ok: bool, id: L.TaskId)
    requires t in w.procs && id in w.queue && w.queue[id].ProvisionTask? && L.TaskIdOf(w.queue[id]) == id
    requires (exists u :: u in w.procs && Returning(w.procs[u], id)) || Saving(w.procs[t], w.queue[id].cluster)
    requires forall u :: u in w.procs ==> t == u
    requires id in L.QueueAfter(w.queue, w.procs[t], c) && (Saving(w.procs[t], w.queue[id].cluster) ==> ok)
    ensures L.After(w.db, w.procs[t], c, ok).Some? && Returning(L.After(w.db, w.procs[t], c, ok).value, id)
  {
  }

  lemma StepStaysQuiet(cipher: Option<Aead>, w: L.World, t: nat, c: L.Choice)
    requires Quiet(w) && t in w.procs
    requires L.StatementOf(cipher, w.procs[t], c).Some? ==> c.fault.Answered?
    ensures Quiet(L.StepOf(cipher, w, t, w.procs[t], c))
  {
    var w' := L.StepOf(cipher, w, t, w.procs[t], c);
    StepKeepsUnique(cipher, w, t, c);
    StepIsGentle(cipher, w, t, c);
    NextIsQuiet(cipher, w, t, c);
    forall id | id in w'.queue ensures HeldQuiet(w', id) {
      HeldStaysQuiet(cipher, w, t, c, id);
    }
    hide L.StatementOf, L.After, L.CallOk, L.DbAfter, L.WritesAfter, L.QueueAfter, L.IssuedAfter, L.RunsAfter, Unique,
      ProcQuiet, HeldQuiet, IsActive, Dormant, NamesAreLower;
  }

  /** An attempt stays on its payload until it ends. */
  lemma AttemptKeepsPayload(cipher: Option<Aead>, w: L.World, t: nat, c: L.Choice)
    requires t in w.procs && ServesModel(w.procs[t])
    ensures var w' := L.StepOf(cipher, w, t, w.procs[t], c);
            t in w'.procs ==> ServesModel(w'.procs[t]) && w'.procs[t].payload == w.procs[t].payload
  {
    hide L.DbAfter, L.CallOk, L.WritesAfter, L.QueueAfter, L.IssuedAfter, L.RunsAfter, L.FailCalls;
  }

  /** The entries of the attempt's model are gone when it ends. */
  lemma DroppedAtTheEnd(w: L.World, proxy: D.State, after: map<nat, L.Proc>, t: nat, c: L.Choice,
                        k: string)
    requires CacheCovered(w, proxy) && t in w.procs && k in ProxyAfter(proxy, w.procs, after, L.Step(t, c), Answered).cache
    requires ServesModel(w.procs[t]) ==> ToLower(w.procs[t].payload.model) == w.procs[t].payload.model
    ensures k in proxy.cache && ProxyAfter(proxy, w.procs, after, L.Step(t, c), Answered).cache[k] == proxy.cache[k]
    ensures t !in after && ServesModel(w.procs[t]) ==> k != ModelTargetsKey(w.procs[t].payload.model)
  {
    if ServesModel(w.procs[t]) {
      ModelOfKey(w.procs[t].payload.model);
    }
    hide ToLower, TrimSpace, ModelTargetsKey, ModelOf, Exempt, Covered;
  }

  lemma ResolversStay(proxy: D.State, before: map<nat, L.Proc>, after: map<nat, L.Proc>, e: L.Event)
    ensures ProxyAfter(proxy, before, after, e, Answered).resolvers == proxy.resolvers
  {
  }

  /** A cache entry of another model stays covered; one of the attempt's own model is exempt until it is deleted. */
  lemma EntryStaysCovered(w: L.World, w': L.World, t: nat, k: string, targets: seq<string>)
    requires t in w.procs && GentleStep(w.db, w.procs[t], w'.db) && forall u :: u in w.procs ==> t == u
    requires Exempt(w, k) || Covered(w.db, ModelOf(k), targets)
    requires k == TARGETS_PREFIX + ModelOf(k)
    requires ServesModel(w.procs[t]) ==> ToLower(w.procs[t].payload.model) == w.procs[t].payload.model
    requires ServesModel(w.procs[t]) && t in w'.procs ==>
               ServesModel(w'.procs[t]) && w'.procs[t].payload == w.procs[t].payload
    requires ServesModel(w.procs[t]) && t !in w'.procs ==> k != ModelTargetsKey(w.procs[t].payload.model)
    ensures Exempt(w', k) || Covered(w'.db, ModelOf(k), targets)
  {
    var p := w.procs[t];
    if ServesModel(p) && k == ModelTargetsKey(p.payload.model) {
      assert Exempt(w', k);
    } else {
      assert !Exempt(w, k);
      if ServesModel(p) {
        ModelOfKey(p.payload.model);
      }
    }
    hide IsActive, Dormant, NamesAreLower, ModelOf, ToLower, ModelTargetsKey, Saving, Exempt;
  }

  lemma OwnName(w: L.World, t: nat)
    requires Quiet(w) && t in w.procs && ServesModel(w.procs[t])
    ensures ToLower(w.procs[t].payload.model) == w.procs[t].payload.model
  {
    hide ToLower, Calls, OneOfEach, ProcQuiet, HeldQuiet;
    assert ProcFits(w.db, w.procs[t]);
  }

  lemma HandlerKeepsCache(cipher: Option<Aead>, s: State, t: nat, c: L.Choice)
    requires Inv(s) && t in s.world.procs
    requires L.StatementOf(cipher, s.world.procs[t], c).Some? ==> c.fault.Answered?
    ensures var w' := L.StepOf(cipher, s.world, t, s.world.procs[t], c);
            CacheCovered(w', ProxyAfter(s.proxy, s.world.procs, w'.procs, L.Step(t, c), Answered))
  {
    var w, w' := s.world, L.StepOf(cipher, s.world, t, s.world.procs[t], c);
    var proxy' := ProxyAfter(s.proxy, w.procs, w'.procs, L.Step(t, c), Answered);
    StepIsGentle(cipher, w, t, c);
    if ServesModel(w.procs[t]) {
      AttemptKeepsPayload(cipher, w, t, c);
      OwnName(w, t);
    }
    assert forall u :: u in w.procs ==> t == u;
    hide L.StatementOf, L.StepOf, Quiet, GentleStep, Covered, ModelOf, TrimSpace, ToLower, ModelTargetsKey, ServesModel,
      ProxyAfter, ResolversCovered, Exempt;
    forall k | k in proxy'.cache
      ensures k in s.proxy.cache && (Exempt(w', k) || Covered(w'.db, ModelOf(k), proxy'.cache[k].targets))
    {
      DroppedAtTheEnd(w, s.proxy, w'.procs, t, c, k);
      EntryStaysCovered(w, w', t, k, s.proxy.cache[k].targets);
    }
  }

  lemma HandlerStep(cipher: Option<Aead>, s: State, t: nat, c: L.Choice)
    requires Inv(s) && t in s.world.procs
    requires L.StatementOf(cipher, s.world.procs[t], c).Some? ==> c.fault.Answered?
    ensures var w' := L.StepOf(cipher, s.world, t, s.world.procs[t], c);
            Inv(State(w', ProxyAfter(s.proxy, s.world.procs, w'.procs, L.Step(t, c), Answered)))
  {
    var w, w' := s.world, L.StepOf(cipher, s.world, t, s.world.procs[t], c);
    StepStaysQuiet(cipher, w, t, c);
    HandlerKeepsCache(cipher, s, t, c);
    ResolversStay(s.proxy, w.procs, w'.procs, L.Step(t, c));
    hide L.StatementOf, L.StepOf, Quiet, CacheCovered, ProxyAfter, ResolverCovered;
    assert s.proxy.resolvers == map[];
  }

  /** A handler starts when no other is at work. */
  lemma StartStaysQuiet(s: State, t: nat, p: L.Proc)
    requires Inv(s) && Idle(s) && ProcQuiet(s.world.db, p) && Unique(s.world.(procs := s.world.procs[t := p]))
    ensures Inv(s.(world := s.world.(procs := s.world.procs[t := p])))
  {
    NothingExempt(s.world);
    HeldWithoutProcs(s.world);
    hide Unique, NamesAreLower, Covered, ModelOf, TrimSpace, ProcQuiet, Dormant, Exempt;
  }

  lemma HeldWithoutProcs(w: L.World)
    requires Quiet(w) && w.procs == map[]
    ensures forall id :: id in w.queue ==>
              !w.queue[id].DestroyTask? && (w.queue[id].ProvisionTask? ==> Dormant(w.db, w.queue[id].cluster))
  {
    hide Unique, NamesAreLower, Dormant, ProcQuiet;
    forall id | id in w.queue
      ensures !w.queue[id].DestroyTask? && (w.queue[id].ProvisionTask? ==> Dormant(w.db, w.queue[id].cluster))
    {
      assert HeldQuiet(w, id);
    }
  }

  lemma RequestStaysQuiet(cipher: Option<Aead>, s: State, t: nat, p: L.Proc, drop: Fault)
    requires Inv(s) && Allowed(cipher, s, Handle(L.Request(t, p), drop))
    ensures Inv(Next(cipher, s, Handle(L.Request(t, p), drop)))
  {
    EventKeepsUnique(cipher, s.world, L.Request(t, p));
    if L.IsStart(p) && t !in s.world.procs {
      hide Unique, Quiet;
      StartStaysQuiet(s, t, p);
    }
    hide Inv, Unique;
  }

  lemma PickUpStaysQuiet(cipher: Option<Aead>, s: State, t: nat, id: L.TaskId, drop: Fault)
    requires Inv(s) && Allowed(cipher, s, Handle(L.PickUp(t, id), drop))
    ensures Inv(Next(cipher, s, Handle(L.PickUp(t, id), drop)))
  {
    EventKeepsUnique(cipher, s.world, L.PickUp(t, id));
    HeldWithoutProcs(s.world);
    if id in s.world.queue && t !in s.world.procs {
      var q := s.world.queue[id];
      PlannedOwnCalls(q, "");
      hide Unique, Quiet, L.FirstCalls, L.FirstStage, StageFits, OwnCall;
      StartStaysQuiet(s, t, L.Attempt(q, L.FirstCalls(q), L.FirstStage(q)));
    }
    hide Inv, Unique;
  }

  lemma ReleaseStaysQuiet(cipher: Option<Aead>, s: State, id: L.TaskId, drop: Fault)
    requires Inv(s)
    ensures Inv(Next(cipher, s, Handle(L.Release(id), drop)))
  {
    hide Unique, NamesAreLower, Covered, ModelOf, TrimSpace, ModelTargetsKey, ToLower, L.StepOf, Returning, ProcQuiet,
      Dormant, ServesModel;
    EventKeepsUnique(cipher, s.world, L.Release(id));
  }

  lemma EventKeepsInv(cipher: Option<Aead>, s: State, e: Event)
    requires Inv(s)
    ensures Inv(Next(cipher, s, e))
  {
    if Allowed(cipher, s, e) {
      match e
      case Handle(Step(t, c), _) =>
        if t in s.world.procs {
          HandlerStep(cipher, s, t, c);
        }
        hide Inv, L.StepOf;
      case Handle(Crash(_), _) =>
      case Handle(Release(id), drop) =>
        ReleaseStaysQuiet(cipher, s, id, drop);
        hide Inv;
      case Handle(Request(t, p), drop) =>
        RequestStaysQuiet(cipher, s, t, p, drop);
        hide Inv;
      case Handle(PickUp(t, id), drop) =>
        PickUpStaysQuiet(cipher, s, t, id, drop);
        hide Inv;
      case Resolve(event) =>
        ResolverStep(s, event);
        hide Inv;
    }
  }

  lemma {:induction false} InvHolds(cipher: Option<Aead>, es: seq<Event>)
    ensures Inv(Run(cipher, es))
  {
    if es == [] {
    } else {
      hide Inv, Next;
      InvHolds(cipher, es[..|es| - 1]);
      EventKeepsInv(cipher, Run(cipher, es[..|es| - 1]), es[|es| - 1]);
    }
  }

  /** Whenever no handler is at work, every cached target of a model, and every target a resolver has in hand,
      is in the current listing of the model's lower-case name. */
  lemma CachedTargetsAreActive(cipher: Option<Aead>, es: seq<Event>, model: string)
    requires Run(cipher, es).world.procs == map[]
    ensures var s := Run(cipher, es);
            ModelTargetsKey(model) in s.proxy.cache ==>
              forall u, listing ::
                (u in s.proxy.cache[ModelTargetsKey(model)].targets && IsListing(s.world.db, ToLower(model), listing)) ==>
                  u in listing
    ensures var s := Run(cipher, es);
            forall t :: t in s.proxy.resolvers && s.proxy.resolvers[t].Choosing? && s.proxy.resolvers[t].model == model ==>
              forall u, listing ::
                (u in s.proxy.resolvers[t].targets && IsListing(s.world.db, ToLower(model), listing)) ==> u in listing
  {
    InvHolds(cipher, es);
    var s := Run(cipher, es);
    hide Run, Quiet, IsListing, ToLower, ModelTargetsKey, ModelOf, TrimSpace;
    NothingExempt(s.world);
    ModelOfKey(model);
    forall u, listing | IsActive(s.world.db, ToLower(model), u) && IsListing(s.world.db, ToLower(model), listing)
      ensures u in listing
    {
      ListingMembers(s.world.db, ToLower(model), listing, u);
    }
    hide IsActive;
  }
}
