/** Service discovery: any number of threads read the cached target list of a model, probe it, prune it,
    write it back and choose a target, falling back to Postgres; every Redis call may fail
    (internal/http/handlers/proxy.go, resolveModelTarget and the functions it calls).

    Times are in milliseconds. `P` bounds how long one resolve takes from its read of a list
    to writing it back or returning a target from it. */
module Discovery {
  import opened Common
  import opened Subsequences
  import opened Text

  /** serviceDiscoveryCacheTTL. */
  const TTL: nat := 30_000

  /** A cached list; Redis still returns it at the instant `expiry`. */
  datatype Entry = Entry(targets: seq<string>, expiry: int)

  /** One answer of ListActiveDeploymentTargets. */
  datatype Listing = Listing(model: string, targets: seq<string>, at: int)

  /** One target handed to a request. */
  datatype Served = Served(model: string, target: string, at: int)

  /** Where a resolving thread stands; `readAt` is when its list was read. */
  datatype Resolver =
    | Cached(model: string, targets: seq<string>, readAt: int)
    | Dropping(model: string, askStore: bool)
    | Asking(model: string)
    | Listed(model: string, targets: seq<string>, readAt: int)
    | Writing(model: string, targets: seq<string>, readAt: int)
    | Choosing(model: string, targets: seq<string>, readAt: int)

  datatype State = State(
    now: int,
    cache: map<string, Entry>,
    resolvers: map<nat, Resolver>,
    listings: seq<Listing>,
    served: seq<Served>)

  const INIT := State(0, map[], map[], [], [])

  datatype Event =
    | Tick(dt: nat)
    | Read(thread: nat, model: string, fault: Fault)
    | Probe(thread: nat, up: seq<bool>)
    | WriteBack(thread: nat, fault: Fault)
    | Drop(thread: nat, fault: Fault)
    | List(thread: nat, targets: seq<string>, fault: Fault)
    | Choose(thread: nat, position: nat)
    | WorkerDrop(model: string, fault: Fault)

  function Live(cache: map<string, Entry>, key: string, now: int): Option<seq<string>> {
    if key in cache && now <= cache[key].expiry && cache[key].targets != [] then Some(cache[key].targets) else None
  }

  /** Where a thread goes once it has probed its list. */
  function AfterProbe(r: Resolver, up: seq<bool>): Resolver
    requires r.Cached? || r.Listed?
  {
    var healthy := Keep(r.targets, up);
    if healthy == [] then Dropping(r.model, r.Cached?)
    else if r.Cached? && |healthy| == |r.targets| then Choosing(r.model, healthy, r.readAt)
    else Writing(r.model, healthy, r.readAt)
  }

  function Next(s: State, e: Event): State {
    match e
    case Tick(dt) => s.(now := s.now + dt)
    case Read(t, raw, fault) =>
      var model := TrimSpace(raw);
      var hit := Live(s.cache, ModelTargetsKey(model), s.now);
      if t in s.resolvers || model == "" then s
      else if fault.Answered? && hit.Some? then s.(resolvers := s.resolvers[t := Cached(model, hit.value, s.now)])
      else s.(resolvers := s.resolvers[t := Asking(model)])
    case Probe(t, up) =>
      if t in s.resolvers && (s.resolvers[t].Cached? || s.resolvers[t].Listed?)
      then s.(resolvers := s.resolvers[t := AfterProbe(s.resolvers[t], up)])
      else s
    case WriteBack(t, fault) =>
      if t in s.resolvers && s.resolvers[t].Writing? then
        var Writing(model, targets, readAt) := s.resolvers[t];
        s.(cache := Effect(fault, s.cache, s.cache[ModelTargetsKey(model) := Entry(targets, s.now + TTL)]),
           resolvers := s.resolvers[t := Choosing(model, targets, readAt)])
      else s
    case Drop(t, fault) =>
      if t in s.resolvers && s.resolvers[t].Dropping? then
        var Dropping(model, askStore) := s.resolvers[t];
        s.(cache := Effect(fault, s.cache, s.cache - {ModelTargetsKey(model)}),
           resolvers := if askStore then s.resolvers[t := Asking(model)] else s.resolvers - {t})
      else s
    case List(t, targets, fault) =>
      if t in s.resolvers && s.resolvers[t].Asking? then
        var model := s.resolvers[t].model;
        if !fault.Answered? then s.(resolvers := s.resolvers - {t})
        else s.(listings := s.listings + [Listing(model, targets, s.now)],
                resolvers := if targets == [] then s.resolvers - {t}
                             else s.resolvers[t := Listed(model, targets, s.now)])
      else s
    case Choose(t, i) =>
      if t in s.resolvers && s.resolvers[t].Choosing? && i < |s.resolvers[t].targets| then
        var Choosing(model, targets, _) := s.resolvers[t];
        s.(served := s.served + [Served(model, targets[i], s.now)], resolvers := s.resolvers - {t})
      else s
    case WorkerDrop(model, fault) =>
      if TrimSpace(model) == "" then s
      else s.(cache := Effect(fault, s.cache, s.cache - {ModelTargetsKey(model)}))
  }

  function RunFrom(s: State, es: seq<Event>): State {
    if es == [] then s else Next(RunFrom(s, es[..|es| - 1]), es[|es| - 1])
  }

  function Run(es: seq<Event>): State {
    RunFrom(INIT, es)
  }

  lemma OneMoreEvent(s: State, es: seq<Event>, e: Event)
    ensures RunFrom(s, es + [e]) == Next(RunFrom(s, es), e) && RunFrom(s, []) == s
  {
    assert (es + [e])[..|es|] == es;
  }

  /** The step does not write back or return a list that was read more than P ago. */
  predicate InTime(s: State, e: Event, P: nat) {
    (e.WriteBack? || e.Choose?) && e.thread in s.resolvers &&
    (s.resolvers[e.thread].Writing? || s.resolvers[e.thread].Choosing?)
    ==> s.now <= s.resolvers[e.thread].readAt + P
  }

  ghost predicate Timely(s: State, es: seq<Event>, P: nat) {
    es == [] ||
    (Timely(s, es[..|es| - 1], P) && InTime(RunFrom(s, es[..|es| - 1]), es[|es| - 1], P))
  }

  // ----- Provenance and staleness -----

  /** The age k write-backs can add up to. */
  function Budget(k: int, P: nat): int {
    k * (TTL + P)
  }

  lemma OneMoreWriteBack(k: int, P: nat)
    ensures Budget(k + 1, P) == Budget(k, P) + TTL + P
  {
  }

  lemma BudgetGrows(k: int, m: int, P: nat)
    requires k <= m
    ensures Budget(k, P) <= Budget(m, P)
  {
    assert (m - k) * (TTL + P) >= 0;
    assert Budget(m, P) == Budget(k, P) + (m - k) * (TTL + P);
  }

  /** `targets`, good until `deadline`, came from the listing `l`: what is left of it in order, and every
      write-back since has shortened it. */
  ghost predicate From(l: Listing, key: string, targets: seq<string>, deadline: int, P: nat) {
    && l.model != "" && TrimSpace(l.model) == l.model && ModelTargetsKey(l.model) == key
    && IsSubsequence(targets, l.targets)
    && deadline <= l.at + Budget(|l.targets| - |targets| + 1, P)
  }

  ghost predicate Supported(ls: seq<Listing>, key: string, targets: seq<string>, deadline: int, P: nat) {
    targets != [] && exists j :: 0 <= j < |ls| && From(ls[j], key, targets, deadline, P)
  }

  ghost predicate Fresh(ls: seq<Listing>, v: Served, P: nat) {
    exists j :: 0 <= j < |ls| && FreshIn(ls[j], v, P)
  }

  ghost predicate FreshIn(l: Listing, v: Served, P: nat) {
    && l.model != "" && TrimSpace(l.model) == l.model && ToLower(l.model) == ToLower(v.model)
    && v.target in l.targets
    && v.at <= l.at + Budget(|l.targets|, P) + P
  }

  ghost predicate ResolverOk(ls: seq<Listing>, r: Resolver, P: nat) {
    && r.model != "" && TrimSpace(r.model) == r.model
    && match r
       case Cached(m, ts, at) => Supported(ls, ModelTargetsKey(m), ts, at, P)
       case Listed(m, ts, at) => ts != [] && Listing(m, ts, at) in ls
       case Writing(m, ts, at) => Supported(ls, ModelTargetsKey(m), ts, at + TTL + P, P)
       case Choosing(m, ts, at) => Supported(ls, ModelTargetsKey(m), ts, at, P)
       case _ => true
  }

  ghost predicate Inv(s: State, P: nat) {
    && (forall k :: k in s.cache ==> Supported(s.listings, k, s.cache[k].targets, s.cache[k].expiry, P))
    && (forall t :: t in s.resolvers ==> ResolverOk(s.listings, s.resolvers[t], P))
    && (forall i :: 0 <= i < |s.served| ==> Fresh(s.listings, s.served[i], P))
  }

  lemma MoreListings(s: State, l: Listing, P: nat)
    requires Inv(s, P)
    ensures Inv(s.(listings := s.listings + [l]), P)
  {
    hide IsSubsequence, Budget, TrimSpace, ModelTargetsKey, ToLower;
    var ls := s.listings + [l];
    forall key, ts, d | Supported(s.listings, key, ts, d, P) ensures Supported(ls, key, ts, d, P) {
      var j :| 0 <= j < |s.listings| && From(s.listings[j], key, ts, d, P);
      assert From(ls[j], key, ts, d, P);
    }
    forall v | Fresh(s.listings, v, P) ensures Fresh(ls, v, P) {
      var j :| 0 <= j < |s.listings| && FreshIn(s.listings[j], v, P);
      assert FreshIn(ls[j], v, P);
    }
  }

  /** Shortening a cached list leaves room for one more write-back. */
  lemma PruneKeepsSupport(ls: seq<Listing>, key: string, ts: seq<string>, healthy: seq<string>, readAt: int, P: nat)
    requires Supported(ls, key, ts, readAt, P) && healthy != [] && IsSubsequence(healthy, ts)
    ensures Supported(ls, key, healthy, if |healthy| < |ts| then readAt + TTL + P else readAt, P)
  {
    var j :| 0 <= j < |ls| && From(ls[j], key, ts, readAt, P);
    PruneKeepsOrigin(ls[j], key, ts, healthy, readAt, P);
  }

  lemma {:induction false} PruneKeepsOrigin(l: Listing, key: string, ts: seq<string>, healthy: seq<string>, readAt: int,
                                            P: nat)
    requires From(l, key, ts, readAt, P) && IsSubsequence(healthy, ts)
    ensures From(l, key, healthy, if |healthy| < |ts| then readAt + TTL + P else readAt, P)
  {
    hide IsSubsequence, TrimSpace, ModelTargetsKey, Budget;
    SubsequenceLength(healthy, ts);
    SubsequenceIsTransitive(healthy, ts, l.targets);
    OneMoreWriteBack(|l.targets| - |ts| + 1, P);
    if |healthy| < |ts| {
      BudgetGrows(|l.targets| - |ts| + 2, |l.targets| - |healthy| + 1, P);
    }
  }

  /** A list read from Postgres has not used any write-back. */
  lemma ListingSupports(ls: seq<Listing>, l: Listing, healthy: seq<string>, P: nat)
    requires l in ls && l.model != "" && TrimSpace(l.model) == l.model
    requires healthy != [] && IsSubsequence(healthy, l.targets)
    ensures Supported(ls, ModelTargetsKey(l.model), healthy, l.at + TTL + P, P)
  {
    SubsequenceLength(healthy, l.targets);
    hide IsSubsequence, TrimSpace, ToLower;
    BudgetGrows(1, |l.targets| - |healthy| + 1, P);
    assert From(l, ModelTargetsKey(l.model), healthy, l.at + TTL + P, P);
  }

  lemma ProbeKeepsSupport(ls: seq<Listing>, r: Resolver, up: seq<bool>, P: nat)
    requires ResolverOk(ls, r, P) && (r.Cached? || r.Listed?)
    ensures ResolverOk(ls, AfterProbe(r, up), P)
  {
    hide Keep, IsSubsequence, TrimSpace, ModelTargetsKey, Supported;
    var healthy := Keep(r.targets, up);
    KeepIsSubsequence(r.targets, up);
    if healthy != [] {
      if r.Cached? {
        PruneKeepsSupport(ls, ModelTargetsKey(r.model), r.targets, healthy, r.readAt, P);
      } else {
        ListingSupports(ls, Listing(r.model, r.targets, r.readAt), healthy, P);
      }
    }
  }

  lemma EarlierDeadline(ls: seq<Listing>, key: string, ts: seq<string>, d: int, early: int, P: nat)
    requires Supported(ls, key, ts, d, P) && early <= d
    ensures Supported(ls, key, ts, early, P)
  {
    var j :| 0 <= j < |ls| && From(ls[j], key, ts, d, P);
    assert From(ls[j], key, ts, early, P);
  }

  lemma ChosenIsFresh(ls: seq<Listing>, m: string, ts: seq<string>, readAt: int, i: nat, now: int, P: nat)
    requires Supported(ls, ModelTargetsKey(m), ts, readAt, P) && i < |ts| && now <= readAt + P
    ensures Fresh(ls, Served(m, ts[i], now), P)
  {
    var j :| 0 <= j < |ls| && From(ls[j], ModelTargetsKey(m), ts, readAt, P);
    hide IsSubsequence, TrimSpace, ToLower;
    KeysAgreeUpToCase(ls[j].model, m);
    SubsequenceMembers(ts, ls[j].targets, ts[i]);
    BudgetGrows(|ls[j].targets| - |ts| + 1, |ls[j].targets|, P);
    assert FreshIn(ls[j], Served(m, ts[i], now), P);
  }

  lemma ReadKeepsInv(s: State, t: nat, raw: string, fault: Fault, P: nat)
    requires Inv(s, P)
    ensures Inv(Next(s, Read(t, raw, fault)), P)
  {
    var key := ModelTargetsKey(TrimSpace(raw));
    TrimIsIdempotent(raw);
    hide TrimSpace, ToLower, IsSubsequence, Budget;
    if Live(s.cache, key, s.now).Some? {
      EarlierDeadline(s.listings, key, s.cache[key].targets, s.cache[key].expiry, s.now, P);
    }
  }

  lemma WriteBackKeepsInv(s: State, t: nat, fault: Fault, P: nat)
    requires Inv(s, P) && InTime(s, WriteBack(t, fault), P) && t in s.resolvers && s.resolvers[t].Writing?
    ensures Inv(Next(s, WriteBack(t, fault)), P)
  {
    hide IsSubsequence, Budget, TrimSpace, ModelTargetsKey;
    var Writing(m, ts, readAt) := s.resolvers[t];
    EarlierDeadline(s.listings, ModelTargetsKey(m), ts, readAt + TTL + P, s.now + TTL, P);
    EarlierDeadline(s.listings, ModelTargetsKey(m), ts, readAt + TTL + P, readAt, P);
  }

  lemma ListKeepsInv(s: State, t: nat, targets: seq<string>, P: nat)
    requires Inv(s, P) && t in s.resolvers && s.resolvers[t].Asking?
    ensures Inv(Next(s, List(t, targets, Answered)), P)
  {
    hide IsSubsequence, Budget, TrimSpace, ModelTargetsKey;
    var l := Listing(s.resolvers[t].model, targets, s.now);
    MoreListings(s, l, P);
    assert l in s.listings + [l];
  }

  lemma StepKeepsInv(s: State, e: Event, P: nat)
    requires Inv(s, P) && InTime(s, e, P)
    ensures Inv(Next(s, e), P)
  {
    hide IsSubsequence, Budget, TrimSpace, ModelTargetsKey;
    match e
    case Tick(_) =>
    case Read(t, raw, fault) => ReadKeepsInv(s, t, raw, fault, P);
    case Probe(t, up) =>
      if t in s.resolvers && (s.resolvers[t].Cached? || s.resolvers[t].Listed?) {
        ProbeKeepsSupport(s.listings, s.resolvers[t], up, P);
      }
    case WriteBack(t, fault) =>
      if t in s.resolvers && s.resolvers[t].Writing? {
        WriteBackKeepsInv(s, t, fault, P);
      }
    case Drop(_, _) =>
    case List(t, targets, fault) =>
      if t in s.resolvers && s.resolvers[t].Asking? && fault.Answered? {
        ListKeepsInv(s, t, targets, P);
      }
    case Choose(t, i) =>
      if t in s.resolvers && s.resolvers[t].Choosing? && i < |s.resolvers[t].targets| {
        var Choosing(m, ts, readAt) := s.resolvers[t];
        ChosenIsFresh(s.listings, m, ts, readAt, i, s.now, P);
      }
    case WorkerDrop(_, _) =>
  }

  lemma {:induction false} InvHolds(es: seq<Event>, P: nat)
    requires Timely(INIT, es, P)
    ensures Inv(Run(es), P)
  {
    if es == [] {
    } else {
      InvHolds(es[..|es| - 1], P);
      StepKeepsInv(Run(es[..|es| - 1]), es[|es| - 1], P);
    }
  }

  // ----- Main results -----

  lemma {:induction false} TimelyForLonger(s: State, es: seq<Event>, P: nat, Q: nat)
    requires Timely(s, es, P) && P <= Q
    ensures Timely(s, es, Q)
  {
    if es == [] {
    } else {
      TimelyForLonger(s, es[..|es| - 1], P, Q);
    }
  }

  /** Every interleaving is timely for some bound. */
  lemma {:induction false} EveryRunIsTimely(s: State, es: seq<Event>) returns (P: nat)
    ensures Timely(s, es, P)
  {
    P := 0;
    if es == [] {
    } else {
      var e := es[|es| - 1];
      var before := RunFrom(s, es[..|es| - 1]);
      var Q := EveryRunIsTimely(s, es[..|es| - 1]);
      P := Q;
      if (e.WriteBack? || e.Choose?) && e.thread in before.resolvers {
        var r := before.resolvers[e.thread];
        if (r.Writing? || r.Choosing?) && before.now - r.readAt > P {
          P := before.now - r.readAt;
        }
      }
      TimelyForLonger(s, es[..|es| - 1], Q, P);
    }
  }

  /** Whatever the interleaving and however slow the threads, a cached list is never empty and is, in order,
      what is left of one earlier answer of Postgres for a model that lower-cases to its key. */
  lemma CachedListsComeFromOneListing(es: seq<Event>, key: string)
    requires key in Run(es).cache
    ensures Run(es).cache[key].targets != []
    ensures exists j ::
              && 0 <= j < |Run(es).listings|
              && ModelTargetsKey(Run(es).listings[j].model) == key
              && TrimSpace(Run(es).listings[j].model) == Run(es).listings[j].model
              && IsSubsequence(Run(es).cache[key].targets, Run(es).listings[j].targets)
  {
    var P := EveryRunIsTimely(INIT, es);
    InvHolds(es, P);
    var s := Run(es);
    var j :| 0 <= j < |s.listings| && From(s.listings[j], key, s.cache[key].targets, s.cache[key].expiry, P);
  }

  /** Bounded staleness: a served target was in an answer of Postgres, with n targets, taken no earlier
      than n * (TTL + P) + P before. */
  lemma StalenessIsBounded(es: seq<Event>, P: nat, i: nat)
    requires Timely(INIT, es, P) && i < |Run(es).served|
    ensures exists j ::
              && 0 <= j < |Run(es).listings|
              && var l, v := Run(es).listings[j], Run(es).served[i];
                 && ToLower(l.model) == ToLower(v.model) && v.target in l.targets
                 && v.at <= l.at + |l.targets| * (30_000 + P) + P
  {
    InvHolds(es, P);
    var s := Run(es);
    assert Fresh(s.listings, s.served[i], P);
    var j :| 0 <= j < |s.listings| && FreshIn(s.listings[j], s.served[i], P);
  }

  // ----- The bound is attained -----

  function Up(n: nat): seq<bool> {
    if n == 0 then [] else [true] + Up(n - 1)
  }

  lemma {:induction false} KeepAll(ts: seq<string>)
    ensures Keep(ts, Up(|ts|)) == ts
  {
    if ts == [] {
    } else {
      KeepAll(ts[1..]);
      assert Up(|ts|)[1..] == Up(|ts| - 1);
    }
  }

  /** `z` is reached from the empty cache by the timely interleaving `es`. */
  ghost predicate Reaches(es: seq<Event>, P: nat, z: State) {
    Timely(INIT, es, P) && Run(es) == z
  }

  lemma Reached(es: seq<Event>, P: nat, z: State)
    requires Reaches(es, P, z)
    ensures Timely(INIT, es, P) && Run(es) == z
  {
  }

  lemma OneMore(es: seq<Event>, P: nat, z: State, e: Event)
    requires Reaches(es, P, z) && InTime(z, e, P)
    ensures Reaches(es + [e], P, Next(z, e))
  {
    assert (es + [e])[..|es + [e]| - 1] == es;
  }

  /** The cached list is read at the last moment Redis returns it, probed, and held for as long as P allows. */
  lemma LateRead(es: seq<Event>, P: nat, z: State, ts: seq<string>, up: seq<bool>) returns (es': seq<Event>)
    requires Reaches(es, P, z) && ts != []
    requires z.cache == map[ModelTargetsKey("m") := Entry(ts, z.now + TTL)] && z.resolvers == map[]
    ensures Reaches(es', P, z.(now := z.now + TTL + P,
                               resolvers := map[0 := AfterProbe(Cached("m", ts, z.now + TTL), up)]))
  {
    assert TrimSpace("m") == "m";
    hide TrimSpace, ModelTargetsKey, Reaches, AfterProbe;
    var z1 := z.(now := z.now + TTL);
    OneMore(es, P, z, Tick(TTL));
    var z2 := z1.(resolvers := map[0 := Cached("m", ts, z1.now)]);
    OneMore(es + [Tick(TTL)], P, z1, Read(0, "m", Answered));
    assert Next(z1, Read(0, "m", Answered)) == z2;
    var z3 := z1.(resolvers := map[0 := AfterProbe(z2.resolvers[0], up)]);
    OneMore(es + [Tick(TTL)] + [Read(0, "m", Answered)], P, z2, Probe(0, up));
    assert Next(z2, Probe(0, up)) == z3;
    es' := es + [Tick(TTL)] + [Read(0, "m", Answered)] + [Probe(0, up)] + [Tick(P)];
    OneMore(es + [Tick(TTL)] + [Read(0, "m", Answered)] + [Probe(0, up)], P, z3, Tick(P));
  }

  /** The first target of a list that is to be written back, or needs no writing back, is returned. */
  lemma ChooseFirst(es: seq<Event>, P: nat, z: State, left: seq<string>) returns (es': seq<Event>)
    requires Reaches(es, P, z) && left != []
    requires z.resolvers == map[0 := Choosing("m", left, z.now - P)]
    ensures Reaches(es', P, z.(resolvers := map[], served := z.served + [Served("m", left[0], z.now)]))
  {
    hide Reaches;
    OneMore(es, P, z, Choose(0, 0));
    es' := es + [Choose(0, 0)];
    assert Next(z, Choose(0, 0)) == z.(resolvers := map[], served := z.served + [Served("m", left[0], z.now)]);
  }

  lemma WriteBackLate(es: seq<Event>, P: nat, z: State, left: seq<string>) returns (es': seq<Event>, served: seq<Served>)
    requires Reaches(es, P, z) && left != []
    requires z.resolvers == map[0 := Writing("m", left, z.now - P)]
    requires z.cache.Keys <= {ModelTargetsKey("m")}
    ensures Reaches(es', P, State(z.now, map[ModelTargetsKey("m") := Entry(left, z.now + TTL)], map[], z.listings, served))
  {
    hide Reaches, ModelTargetsKey;
    var y := z.(cache := map[ModelTargetsKey("m") := Entry(left, z.now + TTL)],
                resolvers := map[0 := Choosing("m", left, z.now - P)]);
    OneMore(es, P, z, WriteBack(0, Answered));
    assert Next(z, WriteBack(0, Answered)) == y;
    es' := ChooseFirst(es + [WriteBack(0, Answered)], P, y, left);
    served := z.served + [Served("m", left[0], z.now)];
  }

  lemma FirstRead(all: seq<string>, P: nat) returns (es: seq<Event>)
    requires all != []
    ensures Reaches(es, P, State(0, map[], map[0 := Listed("m", all, 0)], [Listing("m", all, 0)], []))
  {
    assert TrimSpace("m") == "m";
    assert Reaches([], P, INIT);
    hide TrimSpace, ModelTargetsKey, Reaches;
    OneMore([], P, INIT, Read(0, "m", Answered));
    var z := INIT.(resolvers := map[0 := Asking("m")]);
    assert Next(INIT, Read(0, "m", Answered)) == z;
    es := [] + [Read(0, "m", Answered)];
    OneMore(es, P, z, List(0, all, Answered));
    es := es + [List(0, all, Answered)];
    assert Next(z, List(0, all, Answered)) ==
           State(0, map[], map[0 := Listed("m", all, 0)], [Listing("m", all, 0)], []);
  }

  lemma FirstList(all: seq<string>, P: nat) returns (es: seq<Event>)
    requires all != []
    ensures Reaches(es, P, State(P, map[], map[0 := Writing("m", all, 0)], [Listing("m", all, 0)], []))
  {
    KeepAll(all);
    hide Reaches, Keep;
    es := FirstRead(all, P);
    var z := State(0, map[], map[0 := Listed("m", all, 0)], [Listing("m", all, 0)], []);
    OneMore(es, P, z, Probe(0, Up(|all|)));
    es := es + [Probe(0, Up(|all|))];
    var y := z.(resolvers := map[0 := Writing("m", all, 0)]);
    assert Next(z, Probe(0, Up(|all|))) == y;
    OneMore(es, P, y, Tick(P));
    es := es + [Tick(P)];
  }

  /** Each round prunes one target and renews the entry of the rest. */
  lemma {:induction false} PruneOneByOne(all: seq<string>, k: nat, P: nat) returns (es: seq<Event>, z: State)
    requires k < |all|
    decreases k
    ensures Reaches(es, P, z) && z.listings == [Listing("m", all, 0)] && z.resolvers == map[]
    ensures z.now == P + Budget(k, P) && z.cache == map[ModelTargetsKey("m") := Entry(all[k..], z.now + TTL)]
  {
    hide Reaches, ModelTargetsKey;
    var served;
    if k == 0 {
      assert Budget(k, P) == 0;
      es := FirstList(all, P);
      es, served := WriteBackLate(es, P, State(P, map[], map[0 := Writing("m", all, 0)], [Listing("m", all, 0)], []), all);
      z := State(P, map[ModelTargetsKey("m") := Entry(all, P + TTL)], map[], [Listing("m", all, 0)], served);
    } else {
      OneMoreWriteBack(k - 1, P);
      hide Budget;
      es, z := PruneOneByOne(all, k - 1, P);
      es, z := NextRound(all, k, P, es, z);
    }
  }

  lemma KeepTheRest(all: seq<string>, k: nat)
    requires 0 < k < |all|
    ensures Keep(all[k - 1..], [false] + Up(|all| - k)) == all[k..]
  {
    var ts, up := all[k - 1..], [false] + Up(|all| - k);
    KeepAll(all[k..]);
    assert ts[1..] == all[k..] && up[1..] == Up(|all| - k);
  }

  lemma NextRound(all: seq<string>, k: nat, P: nat, es: seq<Event>, z: State) returns (es': seq<Event>, y: State)
    requires 0 < k < |all| && Reaches(es, P, z) && z.listings == [Listing("m", all, 0)] && z.resolvers == map[]
    requires z.cache == map[ModelTargetsKey("m") := Entry(all[k - 1..], z.now + TTL)]
    ensures Reaches(es', P, y) && y.listings == z.listings && y.resolvers == map[] && y.now == z.now + TTL + P
    ensures y.cache == map[ModelTargetsKey("m") := Entry(all[k..], y.now + TTL)]
  {
    hide Reaches, ModelTargetsKey, Keep, Up;
    KeepTheRest(all, k);
    var ts, up := all[k - 1..], [false] + Up(|all| - k);
    var served;
    es' := LateRead(es, P, z, ts, up);
    y := z.(now := z.now + TTL + P, resolvers := map[0 := Writing("m", all[k..], z.now + TTL)]);
    es', served := WriteBackLate(es', P, y, all[k..]);
    y := State(y.now, map[ModelTargetsKey("m") := Entry(all[k..], y.now + TTL)], map[], y.listings, served);
  }

  /** No smaller bound holds: for every non-empty listing and every P there is a timely interleaving that serves
      a target exactly n * (TTL + P) + P after the only time Postgres named it. */
  lemma StalenessBoundIsAttained(all: seq<string>, P: nat) returns (es: seq<Event>)
    requires all != []
    ensures Timely(INIT, es, P)
    ensures Run(es).listings == [Listing("m", all, 0)]
    ensures Run(es).served != []
    ensures Run(es).served[|Run(es).served| - 1].at == |all| * (30_000 + P) + P
  {
    var n, z := |all|, INIT;
    es, z := PruneOneByOne(all, n - 1, P);
    var last := all[n - 1..];
    KeepAll(last);
    hide Reaches, Keep, ModelTargetsKey;
    es := LateRead(es, P, z, last, Up(1));
    var y := z.(now := z.now + TTL + P, resolvers := map[0 := Choosing("m", last, z.now + TTL)]);
    es := ChooseFirst(es, P, y, last);
    OneMoreWriteBack(n - 1, P);
    assert Reaches(es, P, y.(resolvers := map[], served := y.served + [Served("m", last[0], y.now)]));
    Reached(es, P, y.(resolvers := map[], served := y.served + [Served("m", last[0], y.now)]));
  }
}
