/** The table of reverse proxies: a get-or-create that looks under the read lock, builds outside any lock
    and looks again under the write lock, while failed probes evict entries
    (internal/http/handlers/proxy.go, proxyForTarget and evictProxyTarget). */
module ProxyTable {
  import opened Common
  import opened Text

  /** One allocated reverse proxy: its identity and the target it forwards to. */
  datatype Proxy = Proxy(id: nat, target: string)

  /** Where one call of proxyForTarget stands. `begun` and `ended` are how many operations had taken effect when it began
      and when it returned; `at` is the place of its own operation. */
  datatype Call =
    | Looking(target: string, begun: nat)
    | Building(target: string, begun: nat)
    | Storing(proxy: Proxy, begun: nat)
    | Returned(target: string, begun: nat, result: Option<Proxy>, at: nat, ended: nat)

  /** What a call or an eviction does to the table at the moment it takes effect; calls are numbered. */
  datatype Op = Get(call: nat, target: string, proxy: Proxy) | Evict(target: string)

  datatype State = State(table: map<string, Proxy>, calls: map<nat, Call>, built: nat, history: seq<Op>)

  const INIT := State(map[], map[], 0, [])

  /** One atomic action: a step of a call, or an eviction. */
  datatype Event =
    | Begin(call: nat, raw: string)
    | Look(call: nat)
    | Build(call: nat, parses: bool)
    | Store(call: nat)
    | EvictTarget(target: string)

  function Next(s: State, e: Event): State {
    match e
    case Begin(c, raw) =>
      if c in s.calls then s
      else
        var target, now := TrimSpace(raw), |s.history|;
        s.(calls := s.calls[c := if target == "" then Returned(target, now, None, now, now) else Looking(target, now)])
    case Look(c) =>
      if c !in s.calls || !s.calls[c].Looking? then s
      else
        var Looking(target, begun) := s.calls[c];
        if target in s.table then Finish(s, c, target, begun, s.table[target])
        else s.(calls := s.calls[c := Building(target, begun)])
    case Build(c, parses) =>
      if c !in s.calls || !s.calls[c].Building? then s
      else
        var Building(target, begun) := s.calls[c];
        if !parses then s.(calls := s.calls[c := Returned(target, begun, None, |s.history|, |s.history|)])
        else s.(calls := s.calls[c := Storing(Proxy(s.built, target), begun)], built := s.built + 1)
    case Store(c) =>
      if c !in s.calls || !s.calls[c].Storing? then s
      else
        var Storing(p, begun) := s.calls[c];
        if p.target in s.table then Finish(s, c, p.target, begun, s.table[p.target])
        else Finish(s.(table := s.table[p.target := p]), c, p.target, begun, p)
    case EvictTarget(target) =>
      s.(table := s.table - {target}, history := s.history + [Evict(target)])
  }

  /** The call's operation takes effect and the call returns. */
  function Finish(s: State, c: nat, target: string, begun: nat, p: Proxy): State {
    s.(calls := s.calls[c := Returned(target, begun, Some(p), |s.history|, |s.history| + 1)],
       history := s.history + [Get(c, target, p)])
  }

  /** The state after an interleaving of calls and evictions, from an empty table. */
  function Run(es: seq<Event>): State {
    if es == [] then INIT else Next(Run(es[..|es| - 1]), es[|es| - 1])
  }

  // ----- The atomic object the table should be -----

  /** The table left by operations performed one at a time. */
  function Replay(h: seq<Op>): map<string, Proxy> {
    if h == [] then map[]
    else
      var before := Replay(h[..|h| - 1]);
      match h[|h| - 1]
      case Get(_, k, p) => before[k := p]
      case Evict(k) => before - {k}
  }

  /** Each get returns the entry that is there or, when there is none, a proxy built for its own
      key that no get has returned before. */
  ghost predicate Legal(h: seq<Op>) {
    h == [] ||
    var before := h[..|h| - 1];
    && Legal(before)
    && match h[|h| - 1]
       case Get(_, k, p) =>
         && p.target == k
         && (if k in Replay(before) then Replay(before)[k] == p else !Issued(before, p))
       case Evict(k) => true
  }

  predicate Gets(op: Op, k: string, p: Proxy) {
    op.Get? && op.target == k && op.proxy == p
  }

  ghost predicate Issued(h: seq<Op>, p: Proxy) {
    exists i :: 0 <= i < |h| && Gets(h[i], p.target, p)
  }

  /** The operation is the call's own, and it took effect while the call was under way. */
  ghost predicate TookEffect(h: seq<Op>, c: nat, call: Call) {
    call.Returned? && call.result.Some? ==>
      && call.begun <= call.at < call.ended <= |h|
      && h[call.at] == Get(c, call.target, call.result.value)
  }

  /** A get at place `i` is that of a call that has returned what it got. */
  ghost predicate IsOwned(calls: map<nat, Call>, i: nat, op: Op) {
    op.Get? ==>
      && op.call in calls && calls[op.call].Returned?
      && calls[op.call].result == Some(op.proxy) && calls[op.call].at == i
  }

  ghost predicate Begun(h: seq<Op>, call: Call) {
    call.begun <= |h|
  }

  ghost predicate CallsMatch(calls: map<nat, Call>, h: seq<Op>) {
    && (forall c :: c in calls ==> Begun(h, calls[c]) && TookEffect(h, c, calls[c]))
    && (forall i :: 0 <= i < |h| ==> IsOwned(calls, i, h[i]))
  }

  ghost predicate BuiltApart(s: State) {
    && (forall i :: 0 <= i < |s.history| && s.history[i].Get? ==> s.history[i].proxy.id < s.built)
    && (forall c :: c in s.calls && s.calls[c].Storing? ==>
          s.calls[c].proxy.id < s.built && !Issued(s.history, s.calls[c].proxy))
    && (forall c, d :: c in s.calls && d in s.calls && c != d && s.calls[c].Storing? && s.calls[d].Storing? ==>
          s.calls[c].proxy.id != s.calls[d].proxy.id)
  }

  ghost predicate Inv(s: State) {
    && s.table == Replay(s.history) && Legal(s.history)
    && (forall k :: k in s.table ==> s.table[k].target == k && Issued(s.history, s.table[k]))
    && BuiltApart(s) && CallsMatch(s.calls, s.history)
  }

  lemma Appended(h: seq<Op>, op: Op)
    ensures (h + [op])[..|h + [op]| - 1] == h && (h + [op])[|h + [op]| - 1] == op
    ensures forall p :: Issued(h + [op], p) <==> Issued(h, p) || Gets(op, p.target, p)
  {
    var g := h + [op];
    assert g[..|g| - 1] == h;
    forall p ensures Issued(g, p) <==> Issued(h, p) || Gets(op, p.target, p) {
      if Issued(h, p) {
        var i :| 0 <= i < |h| && Gets(h[i], p.target, p);
        assert g[i] == h[i];
      }
      if Gets(op, p.target, p) {
        assert g[|h|] == op;
      }
    }
  }

  lemma LegalExtension(h: seq<Op>, op: Op)
    requires Legal(h)
    requires op.Get? ==> op.proxy.target == op.target
    requires op.Get? ==> if op.target in Replay(h) then Replay(h)[op.target] == op.proxy else !Issued(h, op.proxy)
    ensures Legal(h + [op])
    ensures Replay(h + [op]) == if op.Get? then Replay(h)[op.target := op.proxy] else Replay(h) - {op.target}
  {
    assert (h + [op])[..|h + [op]| - 1] == h;
  }

  lemma FinishKeepsCalls(s: State, c: nat, k: string, p: Proxy)
    requires CallsMatch(s.calls, s.history) && c in s.calls && !s.calls[c].Returned?
    ensures var s' := Finish(s, c, k, s.calls[c].begun, p); CallsMatch(s'.calls, s'.history)
  {
    hide Issued;
  }

  lemma FinishKeepsApart(s: State, c: nat, k: string, p: Proxy)
    requires BuiltApart(s) && c in s.calls && !s.calls[c].Returned? && p.target == k && p.id < s.built
    requires Issued(s.history, p) || s.calls[c] == Storing(p, s.calls[c].begun)
    ensures BuiltApart(Finish(s, c, k, s.calls[c].begun, p))
  {
    Appended(s.history, Get(c, k, p));
    assert forall d :: d in s.calls && s.calls[d].Storing? && d != c ==> s.calls[d].proxy != p;
    hide Issued;
  }

  lemma IssuedWasBuilt(s: State, p: Proxy)
    requires BuiltApart(s) && Issued(s.history, p)
    ensures p.id < s.built
  {
  }

  /** A get that finds its target in the table. */
  lemma HitKeepsInv(s: State, c: nat, k: string)
    requires Inv(s) && c in s.calls && !s.calls[c].Returned? && k in s.table
    ensures Inv(Finish(s, c, k, s.calls[c].begun, s.table[k]))
  {
    var op := Get(c, k, s.table[k]);
    LegalExtension(s.history, op);
    IssuedWasBuilt(s, s.table[k]);
    FinishKeepsCalls(s, c, k, s.table[k]);
    FinishKeepsApart(s, c, k, s.table[k]);
    hide Legal, Replay, CallsMatch, BuiltApart;
    Appended(s.history, op);
    assert s.table[k := s.table[k]] == s.table;
    hide Issued;
  }

  /** A get that stores the proxy it built. */
  lemma MissKeepsInv(s: State, c: nat)
    requires Inv(s) && c in s.calls && s.calls[c].Storing? && s.calls[c].proxy.target !in s.table
    ensures Inv(Next(s, Store(c)))
  {
    var p := s.calls[c].proxy;
    LegalExtension(s.history, Get(c, p.target, p));
    var t := s.(table := s.table[p.target := p]);
    assert BuiltApart(t);
    FinishKeepsCalls(t, c, p.target, p);
    FinishKeepsApart(t, c, p.target, p);
    assert Next(s, Store(c)) == Finish(t, c, p.target, s.calls[c].begun, p);
    hide Legal, Replay, CallsMatch, BuiltApart, Next;
    Appended(s.history, Get(c, p.target, p));
    hide Issued;
  }

  lemma EvictKeepsCalls(calls: map<nat, Call>, h: seq<Op>, k: string)
    requires CallsMatch(calls, h)
    ensures CallsMatch(calls, h + [Evict(k)])
  {
    hide Issued;
  }

  lemma EvictKeepsInv(s: State, k: string)
    requires Inv(s)
    ensures Inv(Next(s, EvictTarget(k)))
  {
    LegalExtension(s.history, Evict(k));
    EvictKeepsCalls(s.calls, s.history, k);
    hide Legal, Replay, CallsMatch, TookEffect;
    Appended(s.history, Evict(k));
    hide Issued;
  }

  lemma BeginKeepsInv(s: State, c: nat, raw: string)
    requires Inv(s)
    ensures Inv(Next(s, Begin(c, raw)))
  {
    hide Legal, Replay, Issued, TrimSpace;
  }

  lemma BuildKeepsApart(s: State, c: nat, parses: bool)
    requires BuiltApart(s)
    ensures BuiltApart(Next(s, Build(c, parses)))
  {
    assert forall k :: !Issued(s.history, Proxy(s.built, k));
    hide Issued;
  }

  lemma BuildKeepsInv(s: State, c: nat, parses: bool)
    requires Inv(s)
    ensures Inv(Next(s, Build(c, parses)))
  {
    BuildKeepsApart(s, c, parses);
    hide Legal, Replay, Issued, BuiltApart;
  }

  lemma LookKeepsInv(s: State, c: nat)
    requires Inv(s)
    ensures Inv(Next(s, Look(c)))
  {
    hide Replay, Legal, Issued;
    if c in s.calls && s.calls[c].Looking? && s.calls[c].target in s.table {
      HitKeepsInv(s, c, s.calls[c].target);
    }
  }

  lemma StoreKeepsInv(s: State, c: nat)
    requires Inv(s)
    ensures Inv(Next(s, Store(c)))
  {
    hide Replay, Legal, Issued;
    if c in s.calls && s.calls[c].Storing? {
      if s.calls[c].proxy.target in s.table {
        HitKeepsInv(s, c, s.calls[c].proxy.target);
      } else {
        MissKeepsInv(s, c);
      }
    }
  }

  lemma StepKeepsInv(s: State, e: Event)
    requires Inv(s)
    ensures Inv(Next(s, e))
  {
    hide Inv, Next;
    match e
    case Begin(c, raw) => BeginKeepsInv(s, c, raw);
    case Look(c) => LookKeepsInv(s, c);
    case Build(c, parses) => BuildKeepsInv(s, c, parses);
    case Store(c) => StoreKeepsInv(s, c);
    case EvictTarget(k) => EvictKeepsInv(s, k);
  }

  lemma {:induction false} InvHolds(es: seq<Event>)
    ensures Inv(Run(es))
  {
    if es == [] {
    } else {
      InvHolds(es[..|es| - 1]);
      StepKeepsInv(Run(es[..|es| - 1]), es[|es| - 1]);
    }
  }

  /** Whatever the interleaving, the table is the one that its operations, performed one at a time in the order they took
      effect, leave behind, and each entry forwards to its own key. Each call that returned a proxy has one operation of
      its own, which got that proxy and took effect between the call's begin and its return; and there are no other gets. */
  lemma {:induction false} RefinesAtomicTable(es: seq<Event>)
    ensures var s := Run(es);
            && Legal(s.history) && s.table == Replay(s.history)
            && (forall k :: k in s.table ==> s.table[k].target == k)
            && (forall c :: c in s.calls && s.calls[c].Returned? && s.calls[c].result.Some? ==>
                  && s.calls[c].begun <= s.calls[c].at < s.calls[c].ended <= |s.history|
                  && s.history[s.calls[c].at] == Get(c, s.calls[c].target, s.calls[c].result.value))
            && (forall i :: 0 <= i < |s.history| && s.history[i].Get? ==>
                  && s.history[i].call in s.calls && s.calls[s.history[i].call].Returned?
                  && s.calls[s.history[i].call].at == i && s.calls[s.history[i].call].result == Some(s.history[i].proxy))
  {
    InvHolds(es);
    hide Legal, Replay, Run, Issued, BuiltApart;
  }

  // ----- What atomicity gives the callers -----

  lemma {:induction false} LegalPrefix(h: seq<Op>, m: nat)
    requires Legal(h) && m <= |h|
    ensures Legal(h[..m])
  {
    if m == |h| {
      assert h[..m] == h;
    } else {
      LegalPrefix(h[..|h| - 1], m);
      assert h[..|h| - 1][..m] == h[..m];
    }
  }

  /** What one more operation does to key `k`, and to the proxy `p` got for it before. */
  lemma LastOperation(h: seq<Op>, m: nat, k: string)
    requires Legal(h) && m < |h|
    ensures h[m] == Evict(k) ==> k !in Replay(h[..m + 1])
    ensures h[m].target != k ==>
              (k in Replay(h[..m + 1]) <==> k in Replay(h[..m])) &&
              (k in Replay(h[..m]) ==> Replay(h[..m + 1])[k] == Replay(h[..m])[k])
    ensures h[m].Get? && h[m].target == k ==>
              && k in Replay(h[..m + 1]) && Replay(h[..m + 1])[k] == h[m].proxy && h[m].proxy.target == k
              && (if k in Replay(h[..m]) then Replay(h[..m])[k] == h[m].proxy else !Issued(h[..m], h[m].proxy))
  {
    LegalPrefix(h, m + 1);
    assert h[..m + 1][..m] == h[..m];
  }

  ghost predicate EvictedBetween(h: seq<Op>, k: string, i: nat, m: nat)
    requires m <= |h|
  {
    exists e :: i < e < m && h[e] == Evict(k)
  }

  /** Once got, a proxy stays under its key until the key is evicted, and never comes back after that. */
  lemma {:induction false} EntryUntilEviction(h: seq<Op>, i: nat, m: nat, k: string, p: Proxy)
    requires Legal(h) && i < m <= |h| && Gets(h[i], k, p)
    ensures p.target == k
    ensures if EvictedBetween(h, k, i, m) then k in Replay(h[..m]) ==> Replay(h[..m])[k] != p
            else k in Replay(h[..m]) && Replay(h[..m])[k] == p
  {
    LastOperation(h, m - 1, k);
    hide Legal, Replay;
    if m == i + 1 {
      assert !EvictedBetween(h, k, i, m);
    } else {
      EntryUntilEviction(h, i, m - 1, k, p);
      assert Issued(h[..m - 1], p) by {
        assert Gets(h[..m - 1][i], p.target, p);
      }
      if EvictedBetween(h, k, i, m - 1) {
        assert EvictedBetween(h, k, i, m);
      } else {
        assert EvictedBetween(h, k, i, m) <==> h[m - 1] == Evict(k);
      }
      hide Issued, EvictedBetween;
    }
  }

  lemma SameEntry(h: seq<Op>, i: nat, j: nat, k: string, p: Proxy, q: Proxy)
    requires Legal(h) && i < j < |h| && Gets(h[i], k, p) && Gets(h[j], k, q)
    ensures p == q <==> !EvictedBetween(h, k, i, j)
  {
    EntryUntilEviction(h, i, j, k, p);
    LastOperation(h, j, k);
    hide Legal, Replay;
    assert Issued(h[..j], p) by {
      assert Gets(h[..j][i], p.target, p);
    }
    hide Issued, EvictedBetween;
  }

  /** Two calls that returned a proxy for one target returned the same object if and only if the target was not evicted
      between the moments, within the calls, at which they took effect. */
  lemma SameProxyUnlessEvicted(es: seq<Event>, c: nat, d: nat)
    requires var calls := Run(es).calls;
             && c in calls && calls[c].Returned? && calls[c].result.Some?
             && d in calls && calls[d].Returned? && calls[d].result.Some?
             && calls[c].target == calls[d].target
    ensures var s := Run(es);
            var i, j := s.calls[c].at, s.calls[d].at;
            && s.calls[c].begun <= i < s.calls[c].ended <= |s.history|
            && s.calls[d].begun <= j < s.calls[d].ended <= |s.history|
            && (i == j <==> c == d)
            && (s.calls[c].result == s.calls[d].result <==>
                  !exists e :: (i < e < j || j < e < i) && s.history[e] == Evict(s.calls[c].target))
  {
    RefinesAtomicTable(es);
    var s := Run(es);
    var i, j, k := s.calls[c].at, s.calls[d].at, s.calls[c].target;
    hide Run, Legal, Replay;
    if i < j {
      SameEntry(s.history, i, j, k, s.calls[c].result.value, s.calls[d].result.value);
    } else if j < i {
      SameEntry(s.history, j, i, k, s.calls[d].result.value, s.calls[c].result.value);
    }
  }

  // ----- An undisturbed call -----

  /** A call that nothing comes between: nothing for a target that is blank, or new and unparseable; the entry there is; or
      one new entry for the trimmed target. */
  lemma UndisturbedCall(s: State, c: nat, raw: string, parses: bool)
    requires c !in s.calls
    ensures var target := TrimSpace(raw);
            var t := Next(Next(Next(Next(s, Begin(c, raw)), Look(c)), Build(c, parses)), Store(c));
            && c in t.calls && t.calls[c].Returned? && t.calls[c].target == target
            && (if target == "" || (target !in s.table && !parses) then t.calls[c].result == None && t.table == s.table
                else if target in s.table then t.calls[c].result == Some(s.table[target]) && t.table == s.table
                else
                  && t.calls[c].result == Some(Proxy(s.built, target))
                  && t.table == s.table[target := Proxy(s.built, target)])
  {
    hide TrimSpace;
  }
}
