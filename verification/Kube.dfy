/** Applying and removing a model in Kubernetes, one API call after the other; any call may fail, with or
    without effect, and a crash is a history that stops there (internal/kube/vllm.go). */
module Kube {
  import opened Common

  /** Namespace and name. */
  type Key = (string, string)

  /** The objects of the cluster: a Deployment by the model URL it downloads, a Service by its node port. */
  datatype Objects = Objects(deployments: map<Key, string>, services: map<Key, int>)

  datatype ModelConfig = ModelConfig(name: string, modelUrl: string, nodePort: int)

  function KeyOf(namespace: string, name: string): Key {
    (namespace, if name == "" then "vllm" else name)
  }

  /** How the i-th call of an attempt ends; an attempt that crashes makes no further call. */
  function Call(faults: seq<Fault>, i: nat): Fault {
    if i < |faults| then faults[i] else Refused
  }

  // ----- The two operations, as functions of the objects and of how their calls end -----

  /** Get the Deployment and create it when there is none; true when the operation goes on. */
  function EnsureDeployment(s: Objects, k: Key, url: string, get: Fault, create: Fault): (Objects, bool) {
    if !get.Answered? then (s, false)
    else if k in s.deployments then (s, true)
    else (Effect(create, s, s.(deployments := s.deployments[k := url])), create.Answered?)
  }

  function EnsureService(s: Objects, k: Key, port: int, get: Fault, create: Fault): (Objects, bool) {
    if !get.Answered? then (s, false)
    else if k in s.services then (s, true)
    else (Effect(create, s, s.(services := s.services[k := port])), create.Answered?)
  }

  function Deployed(s: Objects, namespace: string, cfg: ModelConfig, faults: seq<Fault>): (Objects, bool) {
    var k := KeyOf(namespace, cfg.name);
    var (s1, goesOn) := EnsureDeployment(s, k, cfg.modelUrl, Call(faults, 0), Call(faults, 1));
    if goesOn then EnsureService(s1, k, cfg.nodePort, Call(faults, 2), Call(faults, 3)) else (s1, false)
  }

  /** Service first, then Deployment; an object that is not there counts as deleted. */
  function Deleted(s: Objects, namespace: string, name: string, faults: seq<Fault>): (Objects, bool) {
    var k := KeyOf(namespace, name);
    var s1 := Effect(Call(faults, 0), s, s.(services := s.services - {k}));
    if !Call(faults, 0).Answered? then (s1, false)
    else (Effect(Call(faults, 1), s1, s1.(deployments := s1.deployments - {k})), Call(faults, 1).Answered?)
  }

  /** What a deploy is for: both objects exist; an object that existed is kept as it was. */
  function Goal(s: Objects, namespace: string, cfg: ModelConfig): Objects {
    var k := KeyOf(namespace, cfg.name);
    Objects(if k in s.deployments then s.deployments else s.deployments[k := cfg.modelUrl],
            if k in s.services then s.services else s.services[k := cfg.nodePort])
  }

  /** What a delete is for. */
  function Without(s: Objects, namespace: string, name: string): Objects {
    var k := KeyOf(namespace, name);
    Objects(s.deployments - {k}, s.services - {k})
  }

  // ----- What they leave, object by object -----

  /** A deploy addresses the objects of its namespace and name, or of "vllm" when it has none: when it succeeds they exist,
      with the requested URL and port where there was none and as they were otherwise; no others change. */
  lemma DeployedObjects(s: Objects, namespace: string, cfg: ModelConfig, faults: seq<Fault>)
    ensures var (t, ok) := Deployed(s, namespace, cfg, faults);
            && (ok && cfg.name != "" ==>
                  && (namespace, cfg.name) in t.deployments && (namespace, cfg.name) in t.services
                  && t.deployments[(namespace, cfg.name)] ==
                     (if (namespace, cfg.name) in s.deployments then s.deployments[(namespace, cfg.name)] else cfg.modelUrl)
                  && t.services[(namespace, cfg.name)] ==
                     (if (namespace, cfg.name) in s.services then s.services[(namespace, cfg.name)] else cfg.nodePort))
            && (ok ==> |faults| > 2 && faults[0].Answered? && faults[2].Answered?)
            && (cfg.name == "" ==> Deployed(s, namespace, cfg.(name := "vllm"), faults) == (t, ok))
            && (forall ns, name :: ns != namespace || name != (if cfg.name == "" then "vllm" else cfg.name) ==>
                  Same(s, t, ns, name))
  {
  }

  /** A delete likewise: when it succeeds neither object exists; no others change. */
  lemma DeletedObjects(s: Objects, namespace: string, name: string, faults: seq<Fault>)
    ensures var (t, ok) := Deleted(s, namespace, name, faults);
            && (ok && name != "" ==> (namespace, name) !in t.deployments && (namespace, name) !in t.services)
            && (ok <==> |faults| > 1 && faults[0].Answered? && faults[1].Answered?)
            && (name == "" ==> Deleted(s, namespace, "vllm", faults) == (t, ok))
            && (forall ns, n :: ns != namespace || n != (if name == "" then "vllm" else name) ==> Same(s, t, ns, n))
  {
  }

  /** The two objects of this namespace and name are the same in both. */
  ghost predicate Same(s: Objects, t: Objects, namespace: string, name: string) {
    && ((namespace, name) in s.deployments <==> (namespace, name) in t.deployments)
    && ((namespace, name) in s.services <==> (namespace, name) in t.services)
    && ((namespace, name) in s.deployments ==> s.deployments[(namespace, name)] == t.deployments[(namespace, name)])
    && ((namespace, name) in s.services ==> s.services[(namespace, name)] == t.services[(namespace, name)])
  }

  // ----- The calls of the client, in sequence -----

  class Client {
    var deployments: map<Key, string>
    var services: map<Key, int>

    function Contents(): Objects
      reads this
    {
      Objects(deployments, services)
    }

    method CreateDeployment(k: Key, url: string, fault: Fault) returns (ok: bool)
      requires k !in deployments
      modifies this
      ensures Contents() == Effect(fault, old(Contents()), Objects(old(deployments)[k := url], old(services)))
      ensures ok == fault.Answered?
    {
      if !fault.Refused? {
        deployments := deployments[k := url];
      }
      ok := fault.Answered?;
    }

    method CreateService(k: Key, port: int, fault: Fault) returns (ok: bool)
      requires k !in services
      modifies this
      ensures Contents() == Effect(fault, old(Contents()), Objects(old(deployments), old(services)[k := port]))
      ensures ok == fault.Answered?
    {
      if !fault.Refused? {
        services := services[k := port];
      }
      ok := fault.Answered?;
    }

    method DeployModel(namespace: string, cfg: ModelConfig, faults: seq<Fault>) returns (ok: bool)
      modifies this
      ensures (Contents(), ok) == Deployed(old(Contents()), namespace, cfg, faults)
      ensures ok && cfg.name != "" ==>
                && (namespace, cfg.name) in deployments && (namespace, cfg.name) in services
                && ((namespace, cfg.name) !in old(deployments) ==> deployments[(namespace, cfg.name)] == cfg.modelUrl)
                && ((namespace, cfg.name) !in old(services) ==> services[(namespace, cfg.name)] == cfg.nodePort)
      ensures forall ns, name :: ns != namespace || name != (if cfg.name == "" then "vllm" else cfg.name) ==>
                Same(old(Contents()), Contents(), ns, name)
    {
      DeployedObjects(Contents(), namespace, cfg, faults);
      hide Same;
      var k := KeyOf(namespace, cfg.name);
      if !Call(faults, 0).Answered? {
        return false;
      }
      if k !in deployments {
        ok := CreateDeployment(k, cfg.modelUrl, Call(faults, 1));
        if !ok {
          return;
        }
      }
      if !Call(faults, 2).Answered? {
        return false;
      }
      if k !in services {
        ok := CreateService(k, cfg.nodePort, Call(faults, 3));
        return;
      }
      ok := true;
    }

    method DeleteModel(namespace: string, name: string, faults: seq<Fault>) returns (ok: bool)
      modifies this
      ensures (Contents(), ok) == Deleted(old(Contents()), namespace, name, faults)
      ensures ok && name != "" ==> (namespace, name) !in deployments && (namespace, name) !in services
      ensures forall ns, n :: ns != namespace || n != (if name == "" then "vllm" else name) ==>
                Same(old(Contents()), Contents(), ns, n)
    {
      DeletedObjects(Contents(), namespace, name, faults);
      hide Same;
      var k := KeyOf(namespace, name);
      if !Call(faults, 0).Refused? {
        services := services - {k};
      }
      if !Call(faults, 0).Answered? {
        return false;
      }
      if !Call(faults, 1).Refused? {
        deployments := deployments - {k};
      }
      ok := Call(faults, 1).Answered?;
    }
  }

  // ----- Any sequential history -----

  datatype Op =
    | Deploy(namespace: string, cfg: ModelConfig, faults: seq<Fault>)
    | Delete(namespace: string, name: string, faults: seq<Fault>)

  function Target(op: Op): Key {
    if op.Deploy? then KeyOf(op.namespace, op.cfg.name) else KeyOf(op.namespace, op.name)
  }

  function Do(s: Objects, op: Op): (Objects, bool) {
    match op
    case Deploy(ns, cfg, faults) => Deployed(s, ns, cfg, faults)
    case Delete(ns, name, faults) => Deleted(s, ns, name, faults)
  }

  function Run(s: Objects, ops: seq<Op>): Objects {
    if ops == [] then s else Do(Run(s, ops[..|ops| - 1]), ops[|ops| - 1]).0
  }

  /** A Service exists only where its Deployment does. */
  ghost predicate Safe(s: Objects) {
    s.services.Keys <= s.deployments.Keys
  }

  /** The operation is one on the objects of this namespace and name. */
  predicate Addresses(op: Op, namespace: string, name: string) {
    && op.namespace == namespace
    && match op
       case Deploy(_, cfg, _) => cfg.name == name || (cfg.name == "" && name == "vllm")
       case Delete(_, n, _) => n == name || (n == "" && name == "vllm")
  }

  lemma OneOperation(s: Objects, op: Op)
    ensures Safe(s) ==> Safe(Do(s, op).0)
  {
  }

  lemma OneOperationElsewhere(s: Objects, op: Op, namespace: string, name: string)
    requires !Addresses(op, namespace, name)
    ensures Same(s, Do(s, op).0, namespace, name)
  {
    match op
    case Deploy(ns, cfg, faults) =>
      DeployedObjects(s, ns, cfg, faults);
      hide Deployed, Same;
    case Delete(ns, n, faults) =>
      DeletedObjects(s, ns, n, faults);
      hide Deleted, Same;
  }

  /** Crash-safe order: over any history of deploys and deletes of any names, each stopped by a failure at any
      call, no Service is left without its Deployment. */
  lemma {:induction false} ServicesHaveDeployments(s: Objects, ops: seq<Op>)
    requires Safe(s)
    ensures Safe(Run(s, ops))
  {
    if ops == [] {
    } else {
      hide Do, Safe;
      ServicesHaveDeployments(s, ops[..|ops| - 1]);
      OneOperation(Run(s, ops[..|ops| - 1]), ops[|ops| - 1]);
    }
  }

  lemma SameIsTransitive(s: Objects, t: Objects, u: Objects, namespace: string, name: string)
    requires Same(s, t, namespace, name) && Same(t, u, namespace, name)
    ensures Same(s, u, namespace, name)
  {
  }

  /** The objects of a name that no operation of the history addresses stay as they were. */
  lemma {:induction false} OtherNamesAreUntouched(s: Objects, ops: seq<Op>, namespace: string, name: string)
    requires forall i :: 0 <= i < |ops| ==> !Addresses(ops[i], namespace, name)
    ensures Same(s, Run(s, ops), namespace, name)
  {
    if ops == [] {
    } else {
      hide Do, Addresses, Same;
      var t := Run(s, ops[..|ops| - 1]);
      OtherNamesAreUntouched(s, ops[..|ops| - 1], namespace, name);
      OneOperationElsewhere(t, ops[|ops| - 1], namespace, name);
      SameIsTransitive(s, t, Do(t, ops[|ops| - 1]).0, namespace, name);
    }
  }

  // ----- Overlapping operations -----

  /** What an operation that is under way does next. */
  datatype Stage = GetDeployment | CreateDeployment | GetService | CreateService | DeleteService | DeleteDeployment

  datatype Work = Work(key: Key, url: string, port: int, stage: Stage)

  function Begun(op: Op): Work {
    match op
    case Deploy(_, cfg, _) => Work(Target(op), cfg.modelUrl, cfg.nodePort, GetDeployment)
    case Delete(_, _, _) => Work(Target(op), "", 0, DeleteService)
  }

  /** The objects after the next call of `w`; creating what exists is refused. */
  function AfterCall(s: Objects, w: Work, fault: Fault): Objects {
    match w.stage
    case CreateDeployment =>
      if w.key in s.deployments then s else Effect(fault, s, s.(deployments := s.deployments[w.key := w.url]))
    case CreateService =>
      if w.key in s.services then s else Effect(fault, s, s.(services := s.services[w.key := w.port]))
    case DeleteService => Effect(fault, s, s.(services := s.services - {w.key}))
    case DeleteDeployment => Effect(fault, s, s.(deployments := s.deployments - {w.key}))
    case _ => s
  }

  /** Where `w` stands after its next call; none when it is over. */
  function Going(s: Objects, w: Work, fault: Fault): Option<Work> {
    if !fault.Answered? then None
    else
      match w.stage
      case GetDeployment => Some(w.(stage := if w.key in s.deployments then GetService else CreateDeployment))
      case CreateDeployment => if w.key in s.deployments then None else Some(w.(stage := GetService))
      case GetService => if w.key in s.services then None else Some(w.(stage := CreateService))
      case DeleteService => Some(w.(stage := DeleteDeployment))
      case _ => None
  }

  function StageNumber(stage: Stage): nat {
    match stage
    case GetDeployment => 0
    case CreateDeployment => 1
    case GetService => 2
    case CreateService => 3
    case DeleteService => 0
    case DeleteDeployment => 1
  }

  /** An operation whose calls no other call comes between. */
  function Alone(s: Objects, w: Work, faults: seq<Fault>): Objects
    decreases 4 - StageNumber(w.stage)
  {
    var fault := Call(faults, StageNumber(w.stage));
    var next := Going(s, w, fault);
    if next.None? then AfterCall(s, w, fault) else Alone(AfterCall(s, w, fault), next.value, faults)
  }

  /** Call by call, an undisturbed operation is the operation of a sequential history. */
  lemma AloneIsDone(s: Objects, op: Op)
    ensures Alone(s, Begun(op), op.faults) == Do(s, op).0
  {
    var w := Begun(op);
    if op.Deploy? {
      var get := Going(s, w, Call(op.faults, 0));
      if get.Some? && get.value.stage == CreateDeployment {
        DeployHalf(AfterCall(s, get.value, Call(op.faults, 1)), w.(stage := GetService), op.faults);
      } else {
        DeployHalf(s, w.(stage := GetService), op.faults);
      }
    } else {
      DeleteHalf(AfterCall(s, w, Call(op.faults, 0)), w.(stage := DeleteDeployment), op.faults);
    }
  }

  lemma DeployHalf(s: Objects, w: Work, faults: seq<Fault>)
    requires w.stage == GetService
    ensures Alone(s, w, faults) == EnsureService(s, w.key, w.port, Call(faults, 2), Call(faults, 3)).0
  {
    var last := w.(stage := CreateService);
    assert Alone(s, last, faults) == AfterCall(s, last, Call(faults, 3));
  }

  lemma DeleteHalf(s: Objects, w: Work, faults: seq<Fault>)
    requires w.stage == DeleteDeployment
    ensures Alone(s, w, faults) == AfterCall(s, w, Call(faults, 1))
  {
  }

  datatype System = System(objects: Objects, works: map<nat, Work>)

  datatype Event = Start(id: nat, op: Op) | Continue(id: nat, fault: Fault) | Stop(id: nat)

  function Next(y: System, e: Event): System {
    match e
    case Start(i, op) => if i in y.works then y else y.(works := y.works[i := Begun(op)])
    case Continue(i, fault) =>
      if i !in y.works then y
      else
        var w := y.works[i];
        var next := Going(y.objects, w, fault);
        System(AfterCall(y.objects, w, fault), if next.Some? then y.works[i := next.value] else y.works - {i})
    case Stop(i) => y.(works := y.works - {i})
  }

  function Interleaved(s: Objects, es: seq<Event>): System {
    if es == [] then System(s, map[]) else Next(Interleaved(s, es[..|es| - 1]), es[|es| - 1])
  }

  /** The call that would break the order: a Service created without its Deployment, or a Deployment deleted under its
      Service. */
  predicate BreaksOrder(s: Objects, w: Work, fault: Fault) {
    && !fault.Refused?
    && ((w.stage == CreateService && w.key !in s.services && w.key !in s.deployments) ||
        (w.stage == DeleteDeployment && w.key in s.services))
  }

  /** A single call keeps the order if and only if it is not such a call. */
  lemma CallKeepsOrderExactlyWhen(s: Objects, w: Work, fault: Fault)
    requires Safe(s)
    ensures Safe(AfterCall(s, w, fault)) <==> !BreaksOrder(s, w, fault)
  {
    if BreaksOrder(s, w, fault) {
      assert w.key in AfterCall(s, w, fault).services && w.key !in AfterCall(s, w, fault).deployments;
    }
  }

  /** Operations on one name exclude each other: none is started while another is under way. */
  ghost predicate Excludes(s: Objects, es: seq<Event>) {
    es == [] ||
    var y, e := Interleaved(s, es[..|es| - 1]), es[|es| - 1];
    && Excludes(s, es[..|es| - 1])
    && (e.Start? ==> forall i :: i in y.works ==> y.works[i].key != Target(e.op))
  }

  /** What a stage has established about its own objects. */
  ghost predicate WorkFits(s: Objects, w: Work) {
    && (w.stage == GetService || w.stage == CreateService ==> w.key in s.deployments)
    && (w.stage == DeleteDeployment ==> w.key !in s.services)
  }

  ghost predicate InOrder(y: System) {
    && Safe(y.objects)
    && (forall i :: i in y.works ==> WorkFits(y.objects, y.works[i]))
    && (forall i, j :: i in y.works && j in y.works && i != j ==> y.works[i].key != y.works[j].key)
  }

  lemma CallFits(s: Objects, w: Work, fault: Fault)
    requires WorkFits(s, w)
    ensures !BreaksOrder(s, w, fault)
    ensures Going(s, w, fault).Some? ==>
              Going(s, w, fault).value.key == w.key && WorkFits(AfterCall(s, w, fault), Going(s, w, fault).value)
    ensures forall v: Work :: v.key != w.key && WorkFits(s, v) ==> WorkFits(AfterCall(s, w, fault), v)
  {
  }

  lemma EventKeepsOrder(y: System, e: Event)
    requires InOrder(y) && (e.Start? ==> forall i :: i in y.works ==> y.works[i].key != Target(e.op))
    ensures InOrder(Next(y, e))
  {
    if e.Continue? && e.id in y.works {
      hide AfterCall, Going, BreaksOrder, Safe, WorkFits;
      CallFits(y.objects, y.works[e.id], e.fault);
      CallKeepsOrderExactlyWhen(y.objects, y.works[e.id], e.fault);
    }
  }

  /** Crash-safe order for interleaved calls: when operations on one name exclude each other, any interleaving of
      operations on any names, each call failing or the operation stopping anywhere, leaves no Service without its
      Deployment. */
  lemma {:induction false} ExclusionKeepsOrder(s: Objects, es: seq<Event>)
    requires Safe(s) && Excludes(s, es)
    ensures InOrder(Interleaved(s, es))
  {
    if es == [] {
    } else {
      hide InOrder, Next, Safe;
      ExclusionKeepsOrder(s, es[..|es| - 1]);
      EventKeepsOrder(Interleaved(s, es[..|es| - 1]), es[|es| - 1]);
    }
  }

  /** Without exclusion the order is lost from every store: a delete between the two halves of a deploy of the same name
      leaves a Service without a Deployment although every call is answered. */
  lemma DeleteInsideDeployLeavesService(s: Objects, namespace: string, cfg: ModelConfig)
    ensures var k := KeyOf(namespace, cfg.name);
            var s1 := EnsureDeployment(s, k, cfg.modelUrl, Answered, Answered).0;
            var s2 := Deleted(s1, namespace, cfg.name, [Answered, Answered]).0;
            var s3 := EnsureService(s2, k, cfg.nodePort, Answered, Answered).0;
            k in s3.services && k !in s3.deployments && !Safe(s3)
  {
    var k := KeyOf(namespace, cfg.name);
    var s1 := EnsureDeployment(s, k, cfg.modelUrl, Answered, Answered).0;
    var s2 := Deleted(s1, namespace, cfg.name, [Answered, Answered]).0;
    assert s2 == Without(s1, namespace, cfg.name);
    assert k in EnsureService(s2, k, cfg.nodePort, Answered, Answered).0.services;
  }

  // ----- Retries -----

  /** An attempt never moves away from the goal, reports success only at the goal, and succeeds when every
      call is answered. */
  lemma AttemptKeepsGoal(s: Objects, namespace: string, cfg: ModelConfig, faults: seq<Fault>)
    ensures var (t, ok) := Deployed(s, namespace, cfg, faults);
            && Goal(t, namespace, cfg) == Goal(s, namespace, cfg)
            && (ok ==> t == Goal(s, namespace, cfg))
            && ((forall i :: 0 <= i < 4 ==> Call(faults, i).Answered?) ==> ok)
  {
  }

  lemma AttemptKeepsRemoval(s: Objects, namespace: string, name: string, faults: seq<Fault>)
    ensures var (t, ok) := Deleted(s, namespace, name, faults);
            && Without(t, namespace, name) == Without(s, namespace, name)
            && (ok <==> Call(faults, 0).Answered? && Call(faults, 1).Answered?)
            && (ok ==> t == Without(s, namespace, name))
  {
  }

  /** The objects after a row of attempts with the same arguments. */
  function DeployAttempts(s: Objects, namespace: string, cfg: ModelConfig, attempts: seq<seq<Fault>>): Objects {
    if attempts == [] then s
    else Deployed(DeployAttempts(s, namespace, cfg, attempts[..|attempts| - 1]), namespace, cfg,
                  attempts[|attempts| - 1]).0
  }

  function DeleteAttempts(s: Objects, namespace: string, name: string, attempts: seq<seq<Fault>>): Objects {
    if attempts == [] then s
    else Deleted(DeleteAttempts(s, namespace, name, attempts[..|attempts| - 1]), namespace, name,
                 attempts[|attempts| - 1]).0
  }

  lemma {:induction false} AttemptsKeepGoal(s: Objects, namespace: string, cfg: ModelConfig, attempts: seq<seq<Fault>>)
    ensures Goal(DeployAttempts(s, namespace, cfg, attempts), namespace, cfg) == Goal(s, namespace, cfg)
  {
    if attempts == [] {
    } else {
      AttemptsKeepGoal(s, namespace, cfg, attempts[..|attempts| - 1]);
      AttemptKeepsGoal(DeployAttempts(s, namespace, cfg, attempts[..|attempts| - 1]), namespace, cfg,
                       attempts[|attempts| - 1]);
    }
  }

  lemma {:induction false} AttemptsKeepRemoval(s: Objects, namespace: string, name: string, attempts: seq<seq<Fault>>)
    ensures Without(DeleteAttempts(s, namespace, name, attempts), namespace, name) == Without(s, namespace, name)
  {
    if attempts == [] {
    } else {
      AttemptsKeepRemoval(s, namespace, name, attempts[..|attempts| - 1]);
      AttemptKeepsRemoval(DeleteAttempts(s, namespace, name, attempts[..|attempts| - 1]), namespace, name,
                          attempts[|attempts| - 1]);
    }
  }

  /** Retry convergence: however many attempts came before and however their calls ended, a successful deploy
      leaves what one successful deploy from the start leaves. */
  lemma DeployRetriesConverge(s: Objects, namespace: string, cfg: ModelConfig, attempts: seq<seq<Fault>>,
                              last: seq<Fault>, once: seq<Fault>)
    requires Deployed(DeployAttempts(s, namespace, cfg, attempts), namespace, cfg, last).1
    requires Deployed(s, namespace, cfg, once).1
    ensures Deployed(DeployAttempts(s, namespace, cfg, attempts), namespace, cfg, last).0
         == Deployed(s, namespace, cfg, once).0
  {
    AttemptsKeepGoal(s, namespace, cfg, attempts);
    AttemptKeepsGoal(DeployAttempts(s, namespace, cfg, attempts), namespace, cfg, last);
    AttemptKeepsGoal(s, namespace, cfg, once);
  }

  lemma {:induction false} DeleteRetriesConverge(s: Objects, namespace: string, name: string, attempts: seq<seq<Fault>>,
                              last: seq<Fault>, once: seq<Fault>)
    requires Deleted(DeleteAttempts(s, namespace, name, attempts), namespace, name, last).1
    requires Deleted(s, namespace, name, once).1
    ensures Deleted(DeleteAttempts(s, namespace, name, attempts), namespace, name, last).0
         == Deleted(s, namespace, name, once).0
  {
    AttemptsKeepRemoval(s, namespace, name, attempts);
    AttemptKeepsRemoval(DeleteAttempts(s, namespace, name, attempts), namespace, name, last);
    AttemptKeepsRemoval(s, namespace, name, once);
  }

  /** A successful deploy serves the requested URL if and only if there was no Deployment of that name or it
      already had that URL: the operation creates, it does not update. */
  lemma DeployDoesNotUpdate(s: Objects, namespace: string, cfg: ModelConfig, faults: seq<Fault>)
    requires Deployed(s, namespace, cfg, faults).1
    ensures var k, t := KeyOf(namespace, cfg.name), Deployed(s, namespace, cfg, faults).0;
            && k in t.deployments && k in t.services
            && (t.deployments[k] == cfg.modelUrl <==> k !in s.deployments || s.deployments[k] == cfg.modelUrl)
            && (t.services[k] == cfg.nodePort <==> k !in s.services || s.services[k] == cfg.nodePort)
  {
  }

  /** A delete undoes a deploy of a new name, whichever of the calls of earlier attempts failed. */
  lemma {:induction false} DeleteUndoesDeploy(s: Objects, namespace: string, cfg: ModelConfig, attempts: seq<seq<Fault>>,
                           faults: seq<Fault>)
    requires KeyOf(namespace, cfg.name) !in s.deployments && KeyOf(namespace, cfg.name) !in s.services
    requires Deleted(DeployAttempts(s, namespace, cfg, attempts), namespace, cfg.name, faults).1
    ensures Deleted(DeployAttempts(s, namespace, cfg, attempts), namespace, cfg.name, faults).0 == s
  {
    var t := DeployAttempts(s, namespace, cfg, attempts);
    AttemptsTouchOnlyTheirKey(s, namespace, cfg, attempts);
    AttemptKeepsRemoval(t, namespace, cfg.name, faults);
    assert Without(s, namespace, cfg.name) == s;
  }

  lemma HalvesTouchOnlyTheirKey(s: Objects, namespace: string, name: string, url: string, port: int,
                                get: Fault, create: Fault)
    ensures var k := KeyOf(namespace, name);
            && Without(EnsureDeployment(s, k, url, get, create).0, namespace, name) == Without(s, namespace, name)
            && Without(EnsureService(s, k, port, get, create).0, namespace, name) == Without(s, namespace, name)
  {
  }

  lemma DeployTouchesOnlyItsKey(s: Objects, namespace: string, cfg: ModelConfig, faults: seq<Fault>)
    ensures Without(Deployed(s, namespace, cfg, faults).0, namespace, cfg.name) == Without(s, namespace, cfg.name)
  {
    var k := KeyOf(namespace, cfg.name);
    var s1 := EnsureDeployment(s, k, cfg.modelUrl, Call(faults, 0), Call(faults, 1)).0;
    HalvesTouchOnlyTheirKey(s, namespace, cfg.name, cfg.modelUrl, cfg.nodePort, Call(faults, 0), Call(faults, 1));
    HalvesTouchOnlyTheirKey(s1, namespace, cfg.name, cfg.modelUrl, cfg.nodePort, Call(faults, 2), Call(faults, 3));
    hide EnsureDeployment, EnsureService, Without, KeyOf, Call;
  }

  lemma {:induction false} AttemptsTouchOnlyTheirKey(s: Objects, namespace: string, cfg: ModelConfig,
                                                     attempts: seq<seq<Fault>>)
    ensures Without(DeployAttempts(s, namespace, cfg, attempts), namespace, cfg.name)
         == Without(s, namespace, cfg.name)
  {
    if attempts == [] {
    } else {
      hide Deployed, Without;
      AttemptsTouchOnlyTheirKey(s, namespace, cfg, attempts[..|attempts| - 1]);
      DeployTouchesOnlyItsKey(DeployAttempts(s, namespace, cfg, attempts[..|attempts| - 1]), namespace, cfg,
                              attempts[|attempts| - 1]);
    }
  }
}
