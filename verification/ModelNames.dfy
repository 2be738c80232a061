/** Model names in every run of the lifecycle machine: handlers store lower-case names only, the query for targets
    compares names exactly, and the cache is keyed by the lower-case name
    (internal/http/handlers/deploy.go, internal/http/handlers/proxy.go, internal/store/postgres.go,
    internal/cache/keys.go). */
module ModelNames {
  import opened Common
  import opened Kubeconfig
  import opened Store
  import opened Text
  import opened Lifecycle
  import opened LifecycleSafety
  import D = Discovery

  ghost predicate NamesAreLower(db: Db) {
    forall d :: d in db.deployments ==> ToLower(db.deployments[d].model) == db.deployments[d].model
  }

  /** A handler that is about to store a name stores a lower-case one. */
  ghost predicate AddsLowerName(p: Proc) {
    p.AddDeployment? ==> ToLower(p.model) == p.model
  }

  ghost predicate LowerNames(w: World) {
    NamesAreLower(w.db) && forall t :: t in w.procs ==> AddsLowerName(w.procs[t])
  }

  lemma StatementKeepsNames(db: Db, s: Statement, fault: Fault, now: int)
    requires NamesAreLower(db) && (s.InsertDeployment? ==> ToLower(s.deploymentRow.model) == s.deploymentRow.model)
    ensures NamesAreLower(Called(db, s, fault, now))
  {
    hide ToLower, UpdatedJob, Violates;
  }

  lemma DeployedNameIsLower(name: string)
    ensures ToLower(DeployedName(name)) == DeployedName(name)
  {
    LowerIsIdempotent(UnderscoresToDashes(name));
    assert ToLower("vllm") == "vllm";
  }

  lemma SentNameIsLower(cipher: Option<Aead>, db: Db, p: Proc, c: Choice)
    requires ProcFits(db, p) && AddsLowerName(p)
    ensures var s := StatementOf(cipher, p, c);
            s.Some? && s.value.InsertDeployment? ==> ToLower(s.value.deploymentRow.model) == s.value.deploymentRow.model
  {
    hide ToLower, KubeconfigOf, ServiceUrl, PayloadFits;
  }

  lemma NextAddsLowerName(db: Db, p: Proc, c: Choice, ok: bool)
    ensures After(db, p, c, ok).Some? ==> AddsLowerName(After(db, p, c, ok).value)
  {
    if p.FindForDeploy? {
      DeployedNameIsLower(p.name);
    }
    hide ToLower, DeployedName, OrgNamed, ClusterNamed, FailCalls;
  }

  lemma StepKeepsNames(cipher: Option<Aead>, w: World, t: nat, c: Choice)
    requires LowerNames(w) && Unique(w) && t in w.procs
    ensures LowerNames(StepOf(cipher, w, t, w.procs[t], c))
  {
    var p, s := w.procs[t], StatementOf(cipher, w.procs[t], c);
    SentNameIsLower(cipher, w.db, p, c);
    NextAddsLowerName(w.db, p, c, CallOk(cipher, w.db, p, c));
    hide Unique, ToLower, StatementOf, After, CallOk, Called, QueueAfter, IssuedAfter, WritesAfter, RunsAfter;
    if s.Some? {
      StatementKeepsNames(w.db, s.value, c.fault, c.now);
    }
    hide NamesAreLower;
  }

  lemma EventKeepsNames(cipher: Option<Aead>, w: World, e: Event)
    requires LowerNames(w) && Unique(w)
    ensures LowerNames(Next(cipher, w, e))
  {
    hide Unique, NamesAreLower, StepOf, ToLower, FirstCalls, FirstStage;
    if e.Step? && e.proc in w.procs {
      StepKeepsNames(cipher, w, e.proc, e.choice);
    }
  }

  /** Whatever interleaves, fails or crashes. */
  lemma {:induction false} NamesHold(cipher: Option<Aead>, es: seq<Event>)
    ensures LowerNames(Run(cipher, es))
  {
    if es == [] {
    } else {
      hide Unique, LowerNames, Next;
      NamesHold(cipher, es[..|es| - 1]);
      UniqueHolds(cipher, es[..|es| - 1]);
      EventKeepsNames(cipher, Run(cipher, es[..|es| - 1]), es[|es| - 1]);
    }
  }

  // ----- Names with upper-case letters -----

  /** In every run a query for a name with an upper-case letter finds nothing. */
  lemma MixedCaseIsNeverListed(cipher: Option<Aead>, es: seq<Event>, model: string, listing: seq<string>)
    requires IsListing(Run(cipher, es).db, model, listing) && ToLower(model) != model
    ensures listing == []
  {
    NamesHold(cipher, es);
    var db := Run(cipher, es).db;
    hide Run, IsListing, ToLower, AddsLowerName;
    if listing != [] {
      ListingMembers(db, model, listing, listing[0]);
    }
  }

  /** In every run the query finds the same targets for a name and for its lower-case form, whose cache entry the two
      share, if and only if the name is lower case or its lower-case form has no targets. */
  lemma ListingsAgreeExactlyWhen(cipher: Option<Aead>, es: seq<Event>, model: string, listing: seq<string>,
                                 lower: seq<string>)
    requires IsListing(Run(cipher, es).db, model, listing) && IsListing(Run(cipher, es).db, ToLower(model), lower)
    ensures ModelTargetsKey(model) == ModelTargetsKey(ToLower(model))
    ensures (forall url :: url in listing <==> url in lower) <==> ToLower(model) == model || lower == []
  {
    LowerIsIdempotent(model);
    var db := Run(cipher, es).db;
    hide Run, IsListing, ToLower;
    if ToLower(model) == model {
      forall url ensures url in listing <==> url in lower {
        ListingMembers(db, model, listing, url);
        ListingMembers(db, model, lower, url);
      }
    } else {
      MixedCaseIsNeverListed(cipher, es, model, listing);
      assert lower != [] ==> lower[0] in lower;
    }
  }

  /** So a request for such a name, whatever the cache holds, goes on with exactly the live entry of the lower-case form;
      and when it comes to ask the store, at once or after all targets of the entry were found down, it ends
      unanswered. */
  lemma MixedCaseIsOnlyCached(cipher: Option<Aead>, es: seq<Event>, s: D.State, t: nat, raw: string, later: D.State,
                              listing: seq<string>, fault: Fault)
    requires t !in s.resolvers && TrimSpace(raw) != "" && ToLower(TrimSpace(raw)) != TrimSpace(raw)
    requires t in later.resolvers && later.resolvers[t] == D.Asking(TrimSpace(raw))
    requires IsListing(Run(cipher, es).db, TrimSpace(raw), listing)
    ensures var model := TrimSpace(raw);
            var entry := D.Live(s.cache, ModelTargetsKey(ToLower(model)), s.now);
            D.Next(s, D.Read(t, raw, Answered)).resolvers ==
              s.resolvers[t := if entry.Some? then D.Cached(model, entry.value, s.now) else D.Asking(model)]
    ensures var answered := D.Next(later, D.List(t, listing, fault));
            t !in answered.resolvers && answered.served == later.served && answered.cache == later.cache
  {
    var model := TrimSpace(raw);
    MixedCaseIsNeverListed(cipher, es, model, listing);
    LowerIsIdempotent(model);
    KeysAgreeUpToCase(model, ToLower(model));
    hide *;
    ReadsEntry(s, t, raw);
    AsksStore(later, t, model, fault);
  }

  lemma ReadsEntry(s: D.State, t: nat, raw: string)
    requires t !in s.resolvers && TrimSpace(raw) != ""
    ensures var model := TrimSpace(raw);
            var entry := D.Live(s.cache, ModelTargetsKey(model), s.now);
            D.Next(s, D.Read(t, raw, Answered)).resolvers ==
              s.resolvers[t := if entry.Some? then D.Cached(model, entry.value, s.now) else D.Asking(model)]
  {
    hide TrimSpace, ModelTargetsKey, D.Live;
  }

  lemma AsksStore(s: D.State, t: nat, model: string, fault: Fault)
    requires t in s.resolvers && s.resolvers[t] == D.Asking(model)
    ensures var answered := D.Next(s, D.List(t, [], fault));
            t !in answered.resolvers && answered.served == s.served && answered.cache == s.cache
  {
  }
}
