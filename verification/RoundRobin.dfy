/** Round-robin choice of a target: the shared Redis counter and the local fallback
    (internal/http/handlers/proxy.go, selectRoundRobinTarget). */
module RoundRobin {

  /** Go's `%`: the remainder takes the sign of the dividend. */
  function GoRemainder(a: int, n: int): int
    requires n > 0
  {
    if a >= 0 then a % n else -((-a) % n)
  }

  /** Position chosen by the caller that INCR answered with `counter`. */
  function Position(counter: int, n: nat): int
    requires n > 0
  {
    GoRemainder(counter - 1, n)
  }

  /** Position chosen from the clock when Redis gives no counter. */
  function FallbackPosition(seed: int, n: nat): int
    requires n > 0
  {
    var idx := GoRemainder(seed, n);
    if idx < 0 then 0 else idx
  }

  /** On every path the index is in range; without the sign check it is, exactly when the seed is
      not negative or is a multiple of n. */
  lemma EveryPositionIsInRange(counter: int, seed: int, n: nat)
    requires n > 0 && counter >= 1
    ensures 0 <= Position(counter, n) < n && Position(counter, n) == (counter - 1) % n
    ensures 0 <= FallbackPosition(seed, n) < n
    ensures FallbackPosition(seed, n) == if seed >= 0 then seed % n else 0
    ensures 0 <= GoRemainder(seed, n) < n <==> seed >= 0 || (-seed) % n == 0
  {
  }

  // ----- Any number of callers sharing one counter -----

  /** `computed` holds the positions of callers whose INCR has been answered and who have not returned. */
  datatype State = State(counter: nat, computed: multiset<int>, returned: seq<int>)

  /** INCR is one atomic Redis command; the caller returns at any later moment. */
  datatype Event = Incr | Return(position: int)

  predicate Enabled(s: State, e: Event) {
    e.Return? ==> e.position in s.computed
  }

  function Next(s: State, e: Event, n: nat): State
    requires n > 0 && Enabled(s, e)
  {
    match e
    case Incr => s.(counter := s.counter + 1, computed := s.computed + multiset{Position(s.counter + 1, n)})
    case Return(p) => s.(computed := s.computed - multiset{p}, returned := s.returned + [p])
  }

  /** `es` is a possible interleaving from `s`, and `t` the state it ends in. */
  ghost predicate Runs(s: State, es: seq<Event>, n: nat, t: State)
    requires n > 0
    decreases |es|
  {
    if es == [] then t == s
    else Enabled(s, es[0]) && Runs(Next(s, es[0], n), es[1..], n, t)
  }

  /** How many of the numbers from, ..., from + k - 1 leave remainder i. */
  function Hits(from: nat, k: nat, n: nat, i: nat): nat
    requires n > 0
  {
    if k == 0 then 0
    else Hits(from, k - 1, n, i) + if (from + k - 1) % n == i then 1 else 0
  }

  lemma Multiples(n: int, d: int)
    requires n > 0
    ensures d >= 1 ==> n * d >= n
    ensures d <= -1 ==> n * d <= -n
  {
  }

  lemma OneMoreRound(a: nat, n: nat)
    requires n > 0
    ensures (a + n) / n == a / n + 1 && (a + n) % n == a % n
  {
    var d := (a + n) / n - a / n - 1;
    assert n * d == a % n - (a + n) % n by {
      assert a == n * (a / n) + a % n;
      assert a + n == n * ((a + n) / n) + (a + n) % n;
    }
    Multiples(n, d);
  }

  lemma {:induction false} HitsFromTheFront(from: nat, k: nat, n: nat, i: nat)
    requires n > 0 && k > 0
    ensures Hits(from, k, n, i) == (if from % n == i then 1 else 0) + Hits(from + 1, k - 1, n, i)
  {
    if k > 1 {
      HitsFromTheFront(from, k - 1, n, i);
    }
  }

  lemma SmallRemainder(a: nat, n: nat)
    requires a < n
    ensures a % n == a
  {
    Multiples(n, a / n);
    assert a == n * (a / n) + a % n;
  }

  lemma {:induction false} HitsBelow(k: nat, n: nat, i: nat)
    requires i < n && k <= n
    ensures Hits(0, k, n, i) == if i < k then 1 else 0
  {
    if k == 0 {
    } else {
      HitsBelow(k - 1, n, i);
      SmallRemainder(k - 1, n);
    }
  }

  /** Any n consecutive numbers contain each remainder once. */
  lemma {:induction false} OneHitPerRound(from: nat, n: nat, i: nat)
    requires i < n
    ensures Hits(from, n, n, i) == 1
  {
    if from == 0 {
      HitsBelow(n, n, i);
    } else {
      OneHitPerRound(from - 1, n, i);
      HitsFromTheFront(from - 1, n, n, i);
      OneMoreRound(from - 1, n);
    }
  }

  lemma {:induction false} HitsSplit(from: nat, j: nat, k: nat, n: nat, i: nat)
    requires n > 0
    ensures Hits(from, j + k, n, i) == Hits(from, j, n, i) + Hits(from + j, k, n, i)
  {
    if k == 0 {
    } else {
      HitsSplit(from, j, k - 1, n, i);
      assert from + j + k - 1 == from + (j + k) - 1;
    }
  }

  /** What rounding down and rounding up k/n come to below one round, and one round further. */
  lemma Rounds(k: nat, n: nat)
    requires n > 0
    ensures k < n ==> k / n == 0 && (k + n - 1) / n == if k == 0 then 0 else 1
    ensures (k + n) / n == k / n + 1 && (k + n + n - 1) / n == (k + n - 1) / n + 1
  {
    OneMoreRound(k, n);
    OneMoreRound(k + n - 1, n);
    if 0 < k < n {
      OneMoreRound(k - 1, n);
    }
  }

  lemma PartialRound(from: nat, k: nat, n: nat, i: nat)
    requires i < n && k < n
    ensures Hits(from, k, n, i) <= 1
  {
    OneHitPerRound(from, n, i);
    HitsSplit(from, k, n - k, n, i);
  }

  /** Among any k consecutive numbers every remainder occurs floor(k/n) or ceil(k/n) times. */
  lemma {:induction false} HitsAreBalanced(from: nat, k: nat, n: nat, i: nat)
    requires i < n
    ensures k / n <= Hits(from, k, n, i) <= (k + n - 1) / n
  {
    if k < n {
      PartialRound(from, k, n, i);
      Rounds(k, n);
    } else {
      var j := k - n;
      HitsAreBalanced(from, j, n, i);
      HitsSplit(from, j, n, n, i);
      OneHitPerRound(from + j, n, i);
      Rounds(j, n);
    }
  }

  /** What the callers have been given since the counter stood at `from`, returned or not,
      are the positions of consecutive counter values. */
  ghost predicate Consecutive(s: State, from: nat, n: nat, i: nat)
    requires n > 0
  {
    && from <= s.counter
    && |s.returned| + |s.computed| == s.counter - from
    && multiset(s.returned)[i] + s.computed[i] == Hits(from, s.counter - from, n, i)
  }

  lemma OneMoreHit(from: nat, counter: nat, n: nat, i: nat)
    requires n > 0 && from <= counter
    ensures Hits(from, counter + 1 - from, n, i) ==
            Hits(from, counter - from, n, i) + if Position(counter + 1, n) == i then 1 else 0
  {
  }

  lemma StepKeepsConsecutive(s: State, e: Event, n: nat, from: nat, i: nat)
    requires n > 0 && Consecutive(s, from, n, i) && Enabled(s, e)
    ensures Consecutive(Next(s, e, n), from, n, i)
  {
    hide Hits, Position;
    match e
    case Incr =>
      OneMoreHit(from, s.counter, n, i);
    case Return(p) =>
      assert multiset(s.returned + [p]) == multiset(s.returned) + multiset{p};
  }

  lemma {:induction false} RunsKeepConsecutive(s: State, es: seq<Event>, n: nat, t: State, from: nat, i: nat)
    requires n > 0 && Consecutive(s, from, n, i) && Runs(s, es, n, t)
    ensures Consecutive(t, from, n, i)
    decreases |es|
  {
    if es == [] {
    } else {
      StepKeepsConsecutive(s, es[0], n, from, i);
      RunsKeepConsecutive(Next(s, es[0], n), es[1..], n, t, from, i);
    }
  }

  /** Fairness: however the callers interleave, a window of selections that starts and ends with no
      caller in between chooses each of the n positions floor(K/n) or ceil(K/n) times. */
  lemma SelectionIsFair(s: State, es: seq<Event>, n: nat, t: State, i: nat)
    requires i < n
    requires s.computed == multiset{} && s.returned == []
    requires Runs(s, es, n, t) && t.computed == multiset{}
    ensures |t.returned| == t.counter - s.counter
    ensures |t.returned| / n <= multiset(t.returned)[i] <= (|t.returned| + n - 1) / n
  {
    RunsKeepConsecutive(s, es, n, t, s.counter, i);
    HitsAreBalanced(s.counter, |t.returned|, n, i);
  }
}
