/** The proxy handler as an object, one call at a time: what its methods do to the proxy table, the Redis entries and
    the counters, and that resolving a model is a run of the service-discovery machine
    (internal/http/handlers/proxy.go). */
module ProxyHandling {
  import opened Common
  import opened RoundRobin
  import opened Subsequences
  import opened Text
  import D = Discovery

  /** httputil.ReverseProxy: an identity and the target it forwards to. */
  class ReverseProxy {
    const target: string

    constructor (target: string)
      ensures this.target == target
    {
      this.target := target;
    }
  }

  /** The probes of one list (a missing answer is a failed probe), how long they take, and how SET and DEL end
      after them. */
  datatype Round = Round(up: seq<bool>, wait: nat, write: Fault, drop: Fault)

  /** How the calls of one resolve end: Redis GET, the round of the cached list, the query (none: it failed), the round
      of its list, and INCR; `seed` is the clock of the local fallback. */
  datatype Outcomes = Outcomes(
    get: Fault, cached: Round, listing: Option<seq<string>>, listed: Round, incr: Fault, seed: int)

  predicate Answers(up: seq<bool>, i: nat) {
    i < |up| && up[i]
  }

  /** The targets whose probe failed. */
  function Failing(targets: seq<string>, up: seq<bool>): set<string> {
    set i | 0 <= i < |targets| && !Answers(up, i) :: targets[i]
  }

  lemma {:induction false} KeepOfAppend(targets: seq<string>, up: seq<bool>, i: nat)
    requires i < |targets|
    ensures Keep(targets[..i + 1], up) == Keep(targets[..i], up) + if Answers(up, i) then [targets[i]] else []
  {
    if up == [] {
    } else if i == 0 {
      assert targets[..1] == [targets[0]];
    } else {
      KeepOfAppend(targets[1..], up[1..], i - 1);
      assert targets[..i + 1][1..] == targets[1..][..i] && targets[..i][1..] == targets[1..][..i - 1];
    }
  }

  lemma FailingOfAppend(targets: seq<string>, up: seq<bool>, i: nat)
    requires i < |targets|
    ensures Failing(targets[..i + 1], up) == Failing(targets[..i], up) + if Answers(up, i) then {} else {targets[i]}
  {
    var more := targets[..i + 1];
    assert forall k :: 0 <= k < i ==> more[k] == targets[..i][k];
    assert more[i] == targets[i];
  }

  /** The listed targets whose probe answers. */
  function FromStore(o: Outcomes): seq<string> {
    if o.listing.Some? then Keep(o.listing.value, o.listed.up) else []
  }

  /** How long the probes of the listed targets take, and which of them fail. */
  function AtStore(o: Outcomes): (nat, set<string>) {
    if o.listing.None? || o.listing.value == [] then (0, {})
    else (o.listed.wait, Failing(o.listing.value, o.listed.up))
  }

  /** Which of the targets is handed out, and what becomes of the model's counter: the target at the old counter modulo
      their number, and the counter one higher; when INCR gives no answer, the target at the clock's position; a single
      target leaves the counter alone. */
  predicate Chosen(before: map<string, nat>, after: map<string, nat>, key: string, targets: seq<string>, incr: Fault,
                   seed: int, target: string) {
    var n, counter := |targets|, if key in before then before[key] else 0;
    && n > 0
    && if n == 1 then target == targets[0] && after == before
       else
         && after == (if incr.Refused? then before else before[key := counter + 1])
         && target == if incr.Answered? then targets[counter % n] else if seed >= 0 then targets[seed % n] else targets[0]
  }

  /** What the query brings: an answer among the listed targets whose probe answered, which are cached for 30 s; when there
      are none the model's entries go and there is no answer; nothing happens when nothing is listed. */
  predicate StoreAnswers(cache: map<string, D.Entry>, counters: map<string, nat>, cache': map<string, D.Entry>,
                         counters': map<string, nat>, model: string, now: int, o: Outcomes, r: Option<string>) {
    var list, counter, usable := ModelTargetsKey(model), ModelRoundRobinKey(model), FromStore(o);
    if o.listing.None? || o.listing.value == [] then r.None? && cache' == cache && counters' == counters
    else if usable == [] then
      && r.None? && cache' == Effect(o.listed.drop, cache, cache - {list})
      && counters' == Effect(o.listed.drop, counters, counters - {counter})
    else
      && r.Some? && cache' == Effect(o.listed.write, cache, cache[list := D.Entry(usable, now + 30_000)])
      && Chosen(counters, counters', counter, usable, o.incr, o.seed, r.value)
  }

  /** What a hit brings: an answer among the cached targets whose probe answered, which are cached for another 30 s if they
      are fewer; when there are none the model's entries go and the query decides. */
  predicate CacheAnswers(cache: map<string, D.Entry>, counters: map<string, nat>, cache': map<string, D.Entry>,
                         counters': map<string, nat>, model: string, now: int, hit: seq<string>, o: Outcomes,
                         r: Option<string>) {
    var list, counter, usable := ModelTargetsKey(model), ModelRoundRobinKey(model), Keep(hit, o.cached.up);
    if usable == [] then
      StoreAnswers(Effect(o.cached.drop, cache, cache - {list}), Effect(o.cached.drop, counters, counters - {counter}),
                   cache', counters', model, now, o, r)
    else
      && r.Some?
      && cache' == (if |usable| == |hit| then cache
                    else Effect(o.cached.write, cache, cache[list := D.Entry(usable, now + 30_000)]))
      && Chosen(counters, counters', counter, usable, o.incr, o.seed, r.value)
  }

  class ProxyHandler {
    var defaultTarget: string
    var proxyByTarget: map<string, ReverseProxy>
    var cache: map<string, D.Entry>
    var counters: map<string, nat>
    var now: int
    ghost var listings: seq<D.Listing>
    ghost var served: seq<D.Served>

    ghost predicate Valid()
      reads this
    {
      forall k :: k in proxyByTarget ==> proxyByTarget[k].target == k
    }

    /** The machine's state, with the resolver of this call. */
    ghost function View(resolvers: map<nat, D.Resolver>): D.State
      reads this
    {
      D.State(now, cache, resolvers, listings, served)
    }

    constructor (defaultTarget: string)
      ensures Valid() && View(map[]) == D.INIT && counters == map[] && proxyByTarget == map[]
      ensures this.defaultTarget == TrimSpace(defaultTarget)
    {
      this.defaultTarget := TrimSpace(defaultTarget);
      proxyByTarget, cache, counters, now := map[], map[], map[], 0;
      listings, served := [], [];
    }

    /** Under the write lock the table is looked at again. */
    method StoreOrReuse(built: ReverseProxy) returns (p: ReverseProxy)
      requires Valid()
      modifies this`proxyByTarget
      ensures Valid()
      ensures p == if built.target in old(proxyByTarget) then old(proxyByTarget)[built.target] else built
      ensures proxyByTarget == old(proxyByTarget)[built.target := p]
    {
      if built.target in proxyByTarget {
        assert proxyByTarget[built.target := proxyByTarget[built.target]] == proxyByTarget;
        return proxyByTarget[built.target];
      }
      proxyByTarget := proxyByTarget[built.target := built];
      p := built;
    }

    /** Get or create: the entry there is, or one new entry for the trimmed target; nothing for a target that is blank
        or does not parse. */
    method ProxyForTarget(raw: string, parses: bool) returns (p: ReverseProxy?)
      requires Valid()
      modifies this`proxyByTarget
      ensures Valid()
      ensures p != null ==>
                p.target == TrimSpace(raw) && TrimSpace(raw) in proxyByTarget && proxyByTarget[TrimSpace(raw)] == p
      ensures p == null <==> TrimSpace(raw) == "" || (TrimSpace(raw) !in old(proxyByTarget) && !parses)
      ensures p == null || TrimSpace(raw) in old(proxyByTarget) ==> proxyByTarget == old(proxyByTarget)
      ensures p != null && TrimSpace(raw) !in old(proxyByTarget) ==>
                fresh(p) && proxyByTarget == old(proxyByTarget)[TrimSpace(raw) := p]
    {
      var target := TrimSpace(raw);
      if target == "" {
        return null;
      }
      if target in proxyByTarget {
        return proxyByTarget[target];
      }
      if !parses {
        return null;
      }
      var built := new ReverseProxy(target);
      p := StoreOrReuse(built);
    }

    method EvictProxyTarget(target: string)
      requires Valid()
      modifies this`proxyByTarget
      ensures Valid() && proxyByTarget == old(proxyByTarget) - {target}
    {
      proxyByTarget := proxyByTarget - {target};
    }

    /** The targets whose probe answers, in order; the proxies of the others are evicted. */
    method FilterHealthyTargets(targets: seq<string>, up: seq<bool>) returns (healthy: seq<string>)
      requires Valid()
      modifies this`proxyByTarget
      ensures Valid() && healthy == Keep(targets, up)
      ensures proxyByTarget == old(proxyByTarget) - Failing(targets, up)
    {
      healthy := [];
      for i := 0 to |targets|
        invariant Valid() && healthy == Keep(targets[..i], up)
        invariant proxyByTarget == old(proxyByTarget) - Failing(targets[..i], up)
      {
        KeepOfAppend(targets, up, i);
        FailingOfAppend(targets, up, i);
        if i < |up| && up[i] {
          healthy := healthy + [targets[i]];
        } else {
          EvictProxyTarget(targets[i]);
        }
      }
      assert targets[..|targets|] == targets;
    }

    method SetTargetsInCache(model: string, targets: seq<string>, fault: Fault)
      modifies this`cache
      ensures cache == Effect(fault, old(cache), old(cache)[ModelTargetsKey(model) := D.Entry(targets, now + D.TTL)])
    {
      if !fault.Refused? {
        cache := cache[ModelTargetsKey(model) := D.Entry(targets, now + D.TTL)];
      }
    }

    method ReadTargetsFromCache(model: string, fault: Fault) returns (r: Option<seq<string>>)
      ensures r.Some? && r.value != [] <==> fault.Answered? && D.Live(cache, ModelTargetsKey(model), now).Some?
      ensures r.Some? && r.value != [] ==> r == D.Live(cache, ModelTargetsKey(model), now)
    {
      var key := ModelTargetsKey(model);
      if !fault.Answered? || key !in cache || now > cache[key].expiry {
        return None;
      }
      r := Some(cache[key].targets);
    }

    method InvalidateModelCache(model: string, fault: Fault)
      modifies this`cache, this`counters
      ensures cache == Effect(fault, old(cache), old(cache) - {ModelTargetsKey(model)})
      ensures counters == Effect(fault, old(counters), old(counters) - {ModelRoundRobinKey(model)})
    {
      if !fault.Refused? {
        cache, counters := cache - {ModelTargetsKey(model)}, counters - {ModelRoundRobinKey(model)};
      }
    }

    /** The counter's next position when Redis answers, the clock's otherwise; a single target needs neither. */
    method SelectRoundRobinTarget(model: string, targets: seq<string>, fault: Fault, seed: int) returns (idx: nat)
      requires targets != []
      modifies this`counters
      ensures idx < |targets|
      ensures |targets| == 1 || fault.Refused? ==> counters == old(counters)
      ensures |targets| > 1 && !fault.Refused? ==> ModelRoundRobinKey(model) in counters
      ensures |targets| > 1 && !fault.Refused? ==>
                var key := ModelRoundRobinKey(model);
                var before := if key in old(counters) then old(counters)[key] else 0;
                && counters == old(counters)[key := before + 1]
                && (fault.Answered? ==> idx == Position(before + 1, |targets|))
      ensures |targets| > 1 && !fault.Answered? ==> idx == FallbackPosition(seed, |targets|)
      ensures Chosen(old(counters), counters, ModelRoundRobinKey(model), targets, fault, seed, targets[idx])
    {
      if |targets| == 1 {
        return 0;
      }
      var key := ModelRoundRobinKey(model);
      if !fault.Refused? {
        counters := counters[key := (if key in counters then counters[key] else 0) + 1];
      }
      if fault.Answered? {
        EveryPositionIsInRange(counters[key], seed, |targets|);
        return GoRemainder(counters[key] - 1, |targets|);
      }
      EveryPositionIsInRange(1, seed, |targets|);
      var i := GoRemainder(seed, |targets|);
      idx := if i < 0 then 0 else i;
    }

    // ----- Resolving is a run of the machine -----

    /** One target of the probed list is handed out. */
    method Choose(model: string, healthy: seq<string>, o: Outcomes, ghost readAt: int, ghost s: D.State,
                  ghost es: seq<D.Event>) returns (target: string, ghost es': seq<D.Event>)
      requires healthy != [] && D.RunFrom(s, es) == View(map[0 := D.Choosing(model, healthy, readAt)])
      modifies this`counters, this`served
      ensures D.RunFrom(s, es') == View(map[]) && target in healthy
      ensures served == old(served) + [D.Served(model, target, now)]
      ensures Chosen(old(counters), counters, ModelRoundRobinKey(model), healthy, o.incr, o.seed, target)
    {
      var idx := SelectRoundRobinTarget(model, healthy, o.incr, o.seed);
      target := healthy[idx];
      served := served + [D.Served(model, target, now)];
      D.OneMoreEvent(s, es, D.Choose(0, idx));
      es' := es + [D.Choose(0, idx)];
      OneThread(D.Choosing(model, healthy, readAt), D.Asking(model));
      hide D.RunFrom;
    }

    /** From the answer of the query on. */
    method FinishListed(model: string, targets: seq<string>, o: Outcomes, ghost s: D.State, ghost es: seq<D.Event>)
        returns (r: Option<string>, ghost es': seq<D.Event>)
      requires Valid() && targets != [] && D.RunFrom(s, es) == View(map[0 := D.Listed(model, targets, now)])
      modifies this`proxyByTarget, this`cache, this`counters, this`now, this`listings, this`served
      ensures Valid() && D.RunFrom(s, es') == View(map[])
      ensures if r.Some? then r.value in Keep(targets, o.listed.up) else Keep(targets, o.listed.up) == []
      ensures served == old(served) + if r.Some? then [D.Served(model, r.value, now)] else []
      ensures now == old(now) + o.listed.wait && proxyByTarget == old(proxyByTarget) - Failing(targets, o.listed.up)
      ensures o.listing == Some(targets) ==> StoreAnswers(old(cache), old(counters), cache, counters, model, now, o, r)
    {
      hide D.RunFrom, Keep, Failing, ModelTargetsKey, ModelRoundRobinKey, Chosen, TrimSpace, ToLower, D.Live;
      ghost var readAt := now;
      var healthy := FilterHealthyTargets(targets, o.listed.up);
      now := now + o.listed.wait;
      es' := TwoMore(s, es, D.Probe(0, o.listed.up), D.Tick(o.listed.wait));
      OneThread(D.Listed(model, targets, readAt), D.AfterProbe(D.Listed(model, targets, readAt), o.listed.up));
      if healthy == [] {
        InvalidateModelCache(model, o.listed.drop);
        D.OneMoreEvent(s, es', D.Drop(0, o.listed.drop));
        es' := es' + [D.Drop(0, o.listed.drop)];
        OneThread(D.Dropping(model, false), D.Asking(model));
        return None, es';
      }
      SetTargetsInCache(model, healthy, o.listed.write);
      D.OneMoreEvent(s, es', D.WriteBack(0, o.listed.write));
      es' := es' + [D.WriteBack(0, o.listed.write)];
      OneThread(D.Writing(model, healthy, readAt), D.Choosing(model, healthy, readAt));
      var target;
      target, es' := Choose(model, healthy, o, readAt, s, es');
      r := Some(target);
    }

    /** From the query on. */
    method ResolveFromStore(model: string, o: Outcomes, ghost s: D.State, ghost es: seq<D.Event>)
        returns (r: Option<string>, ghost es': seq<D.Event>)
      requires Valid() && D.RunFrom(s, es) == View(map[0 := D.Asking(model)])
      modifies this`proxyByTarget, this`cache, this`counters, this`now, this`listings, this`served
      ensures Valid() && D.RunFrom(s, es') == View(map[])
      ensures if r.Some? then r.value in FromStore(o) else FromStore(o) == []
      ensures served == old(served) + if r.Some? then [D.Served(model, r.value, now)] else []
      ensures StoreAnswers(old(cache), old(counters), cache, counters, model, now, o, r)
      ensures now == old(now) + AtStore(o).0 && proxyByTarget == old(proxyByTarget) - AtStore(o).1
    {
      hide D.RunFrom, Chosen, Failing, ModelTargetsKey, ModelRoundRobinKey;
      OneThread(D.Asking(model), D.Asking(model));
      if o.listing.None? {
        D.OneMoreEvent(s, es, D.List(0, [], Refused));
        return None, es + [D.List(0, [], Refused)];
      }
      var targets := o.listing.value;
      D.OneMoreEvent(s, es, D.List(0, targets, Answered));
      es' := es + [D.List(0, targets, Answered)];
      listings := listings + [D.Listing(model, targets, now)];
      if targets == [] {
        return None, es';
      }
      OneThread(D.Asking(model), D.Listed(model, targets, now));
      r, es' := FinishListed(model, targets, o, s, es');
    }

    /** No cached target has answered. */
    method DropAndAsk(model: string, o: Outcomes, ghost s: D.State, ghost es: seq<D.Event>)
        returns (r: Option<string>, ghost es': seq<D.Event>)
      requires Valid() && D.RunFrom(s, es) == View(map[0 := D.Dropping(model, true)])
      modifies this`proxyByTarget, this`cache, this`counters, this`now, this`listings, this`served
      ensures Valid() && D.RunFrom(s, es') == View(map[])
      ensures if r.Some? then r.value in FromStore(o) else FromStore(o) == []
      ensures served == old(served) + if r.Some? then [D.Served(model, r.value, now)] else []
      ensures StoreAnswers(Effect(o.cached.drop, old(cache), old(cache) - {ModelTargetsKey(model)}),
                           Effect(o.cached.drop, old(counters), old(counters) - {ModelRoundRobinKey(model)}),
                           cache, counters, model, now, o, r)
      ensures now == old(now) + AtStore(o).0 && proxyByTarget == old(proxyByTarget) - AtStore(o).1
    {
      hide D.RunFrom, ModelTargetsKey, ModelRoundRobinKey, StoreAnswers, AtStore, FromStore, TrimSpace, ToLower, D.Live;
      InvalidateModelCache(model, o.cached.drop);
      D.OneMoreEvent(s, es, D.Drop(0, o.cached.drop));
      es' := es + [D.Drop(0, o.cached.drop)];
      OneThread(D.Dropping(model, true), D.Asking(model));
      r, es' := ResolveFromStore(model, o, s, es');
    }

    /** From a hit in the cache on. */
    method FinishCached(model: string, targets: seq<string>, o: Outcomes, ghost s: D.State, ghost es: seq<D.Event>)
        returns (r: Option<string>, ghost es': seq<D.Event>)
      requires Valid() && D.RunFrom(s, es) == View(map[0 := D.Cached(model, targets, now)])
      modifies this`proxyByTarget, this`cache, this`counters, this`now, this`listings, this`served
      ensures Valid() && D.RunFrom(s, es') == View(map[])
      ensures var usable := if Keep(targets, o.cached.up) != [] then Keep(targets, o.cached.up) else FromStore(o);
              if r.Some? then r.value in usable else usable == []
      ensures served == old(served) + if r.Some? then [D.Served(model, r.value, now)] else []
      ensures CacheAnswers(old(cache), old(counters), cache, counters, model, now, targets, o, r)
      ensures var failed := Keep(targets, o.cached.up) == [];
              && now == old(now) + o.cached.wait + (if failed then AtStore(o).0 else 0)
              && proxyByTarget ==
                 old(proxyByTarget) - Failing(targets, o.cached.up) - (if failed then AtStore(o).1 else {})
    {
      hide D.RunFrom, Keep, Failing, ModelTargetsKey, ModelRoundRobinKey, Chosen, StoreAnswers, AtStore, FromStore,
        TrimSpace, ToLower, D.Live;
      ghost var readAt := now;
      var healthy := FilterHealthyTargets(targets, o.cached.up);
      now := now + o.cached.wait;
      es' := TwoMore(s, es, D.Probe(0, o.cached.up), D.Tick(o.cached.wait));
      OneThread(D.Cached(model, targets, readAt), D.AfterProbe(D.Cached(model, targets, readAt), o.cached.up));
      if healthy == [] {
        r, es' := DropAndAsk(model, o, s, es');
        return;
      }
      if |healthy| != |targets| {
        SetTargetsInCache(model, healthy, o.cached.write);
        D.OneMoreEvent(s, es', D.WriteBack(0, o.cached.write));
        es' := es' + [D.WriteBack(0, o.cached.write)];
        OneThread(D.Writing(model, healthy, readAt), D.Choosing(model, healthy, readAt));
      }
      var target;
      target, es' := Choose(model, healthy, o, readAt, s, es');
      r := Some(target);
    }

    /** A blank model goes to the default target. Any other call answers with a cached target whose probe has answered;
        if there is none, with a listed one; and fails exactly when there is none either. It is a run of the
        machine's thread 0, which hands out the target that is returned. */
    method ResolveModelTarget(raw: string, o: Outcomes) returns (r: Option<string>, ghost es: seq<D.Event>)
      requires Valid()
      modifies this`proxyByTarget, this`cache, this`counters, this`now, this`listings, this`served
      ensures Valid()
      ensures View(map[]) == D.RunFrom(old(View(map[])), es)
      ensures TrimSpace(raw) == "" ==> es == [] && r == if defaultTarget == "" then None else Some(defaultTarget)
      ensures TrimSpace(raw) != "" ==>
                var hit := D.Live(old(cache), ModelTargetsKey(TrimSpace(raw)), old(now));
                var cached := if o.get.Answered? && hit.Some? then Keep(hit.value, o.cached.up) else [];
                var usable := if cached != [] then cached else FromStore(o);
                if r.Some? then r.value in usable else usable == []
      ensures TrimSpace(raw) != "" ==>
                served == old(served) + if r.Some? then [D.Served(TrimSpace(raw), r.value, now)] else []
      ensures TrimSpace(raw) != "" ==>
                var hit := D.Live(old(cache), ModelTargetsKey(TrimSpace(raw)), old(now));
                if o.get.Answered? && hit.Some?
                then CacheAnswers(old(cache), old(counters), cache, counters, TrimSpace(raw), now, hit.value, o, r)
                else StoreAnswers(old(cache), old(counters), cache, counters, TrimSpace(raw), now, o, r)
      ensures TrimSpace(raw) != "" ==>
                var hit := D.Live(old(cache), ModelTargetsKey(TrimSpace(raw)), old(now));
                var cached := if o.get.Answered? && hit.Some? then hit.value else [];
                var failed := Keep(cached, o.cached.up) == [];
                && now == old(now) + (if cached == [] then 0 else o.cached.wait) + (if failed then AtStore(o).0 else 0)
                && proxyByTarget == old(proxyByTarget) - Failing(cached, o.cached.up) - (if failed then AtStore(o).1 else {})
      ensures TrimSpace(raw) == "" ==> counters == old(counters) && proxyByTarget == old(proxyByTarget)
    {
      var model := TrimSpace(raw);
      if model == "" {
        return if defaultTarget == "" then None else Some(defaultTarget), [];
      }
      ghost var s := View(map[]);
      D.OneMoreEvent(s, [], D.Read(0, raw, o.get));
      hide D.RunFrom, TrimSpace, ModelTargetsKey, D.Live, CacheAnswers, StoreAnswers, AtStore;
      var read := ReadTargetsFromCache(model, o.get);
      es := [] + [D.Read(0, raw, o.get)];
      if read.Some? && read.value != [] {
        r, es := FinishCached(model, read.value, o, s, es);
      } else {
        r, es := ResolveFromStore(model, o, s, es);
      }
    }
  }

  lemma OneThread(before: D.Resolver, after: D.Resolver)
    ensures map[0 := before][0 := after] == map[0 := after] && map[0 := before] - {0} == map[]
  {
  }

  lemma TwoMore(s: D.State, es: seq<D.Event>, e: D.Event, f: D.Event) returns (es': seq<D.Event>)
    ensures es' == es + [e] + [f] && D.RunFrom(s, es') == D.Next(D.Next(D.RunFrom(s, es), e), f)
  {
    es' := es + [e] + [f];
    hide D.Next;
    D.OneMoreEvent(s, es, e);
    D.OneMoreEvent(s, es + [e], f);
  }

  // ----- Many calls -----

  /** Calls for one model over one list of targets, each finding the model's counter as the one before left it. */
  ghost predicate InTurn(before: seq<map<string, nat>>, after: seq<map<string, nat>>, key: string, targets: seq<string>,
                         seeds: seq<int>, answers: seq<string>) {
    && |before| == |after| == |seeds| == |answers|
    && (forall j :: 0 <= j < |answers| ==> Chosen(before[j], after[j], key, targets, Answered, seeds[j], answers[j]))
    && (forall j :: 0 < j < |answers| ==>
          key in before[j] && key in after[j - 1] && before[j][key] == after[j - 1][key])
  }

  function Counter(counters: map<string, nat>, key: string): nat {
    if key in counters then counters[key] else 0
  }

  /** The counter that the first call finds. */
  function FirstCounter(before: seq<map<string, nat>>, key: string): nat {
    if before == [] then 0 else Counter(before[0], key)
  }

  /** The target at position `counter` modulo the number of targets. */
  function Turn(targets: seq<string>, counter: nat): string
    requires targets != []
  {
    targets[counter % |targets|]
  }

  lemma OneAnswer(before: map<string, nat>, after: map<string, nat>, key: string, targets: seq<string>, seed: int,
                  answer: string)
    requires Chosen(before, after, key, targets, Answered, seed, answer) && |targets| > 1
    ensures answer == Turn(targets, Counter(before, key)) && Counter(after, key) == Counter(before, key) + 1
  {
  }

  lemma {:induction false} AnswerInTurn(before: seq<map<string, nat>>, after: seq<map<string, nat>>, key: string,
                                        targets: seq<string>, seeds: seq<int>, answers: seq<string>, j: nat)
    requires InTurn(before, after, key, targets, seeds, answers) && j < |answers| && |targets| > 1
    ensures j < |before| && Counter(before[j], key) == FirstCounter(before, key) + j
    ensures answers[j] == Turn(targets, FirstCounter(before, key) + j)
  {
    OneAnswer(before[j], after[j], key, targets, seeds[j], answers[j]);
    hide Chosen, Turn;
    if j == 0 {
    } else {
      AnswerInTurn(before, after, key, targets, seeds, answers, j - 1);
      OneAnswer(before[j - 1], after[j - 1], key, targets, seeds[j - 1], answers[j - 1]);
    }
  }

  lemma TurnIs(targets: seq<string>, counter: nat, i: nat)
    requires i < |targets| && forall a, b :: 0 <= a < b < |targets| ==> targets[a] != targets[b]
    ensures Turn(targets, counter) == targets[i] <==> counter % |targets| == i
  {
  }

  lemma {:induction false} TurnsAreHits(targets: seq<string>, from: nat, answers: seq<string>, i: nat)
    requires i < |targets| && forall a, b :: 0 <= a < b < |targets| ==> targets[a] != targets[b]
    requires forall j :: 0 <= j < |answers| ==> answers[j] == Turn(targets, from + j)
    ensures multiset(answers)[targets[i]] == Hits(from, |answers|, |targets|, i)
  {
    hide Turn;
    if answers == [] {
      assert Hits(from, 0, |targets|, i) == 0;
    } else {
      var k := |answers| - 1;
      TurnsAreHits(targets, from, answers[..k], i);
      TurnIs(targets, from + k, i);
      assert answers == answers[..k] + [answers[k]];
      assert multiset(answers) == multiset(answers[..k]) + multiset{answers[k]};
    }
  }

  /** K answers over one list hand out each of its n targets floor(K/n) or ceil(K/n) times. */
  lemma AnswersAreBalanced(before: seq<map<string, nat>>, after: seq<map<string, nat>>, key: string,
                           targets: seq<string>, seeds: seq<int>, answers: seq<string>, i: nat)
    requires InTurn(before, after, key, targets, seeds, answers) && i < |targets| && |targets| > 1
    requires forall a, b :: 0 <= a < b < |targets| ==> targets[a] != targets[b]
    ensures |answers| / |targets| <= multiset(answers)[targets[i]] <= (|answers| + |targets| - 1) / |targets|
  {
    hide *;
    var from := FirstCounter(before, key);
    forall j | 0 <= j < |answers| ensures answers[j] == Turn(targets, from + j) {
      AnswerInTurn(before, after, key, targets, seeds, answers, j);
    }
    TurnsAreHits(targets, from, answers, i);
    HitsAreBalanced(from, |answers|, |targets|, i);
  }
}
