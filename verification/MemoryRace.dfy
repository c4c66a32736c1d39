/** The memory test and the charge that follows it take no lock together: every interleaving of `K`
    allocating threads, with any number of frees in between, under a user limit. */
module MemoryRace {
  import opened Bytes

  /** The number of allocating threads, the capacity, and the largest request. */
  datatype Setup = Setup(K: nat, cap: size_t, most: size_t)

  /** What has been charged, and the request of each thread that has passed the test and not yet
      charged it, or 0. */
  datatype State = State(usage: nat, flight: seq<nat>)

  /** A test that reads what another thread collected meanwhile is one made at that later time. */
  datatype Step = Test(t: nat, size: size_t) | Charge(t: nat) | Free(size: size_t)

  /** `total_idle`, a 64-bit word. */
  function Idle(c: Setup, s: State): size_t { (c.cap - s.usage) % WORD }

  predicate Enabled(c: Setup, s: State, e: Step) {
    match e
    case Test(t, size) => t < |s.flight| && s.flight[t] == 0 && size <= c.most && Idle(c, s) > size
    case Charge(t) => t < |s.flight|
    case Free(size) => size <= s.usage
  }

  function Next(c: Setup, s: State, e: Step): State
    requires Enabled(c, s, e)
  {
    match e
    case Test(t, size) => s.(flight := s.flight[t := size])
    case Charge(t) => State(s.usage + s.flight[t], s.flight[t := 0])
    case Free(size) => s.(usage := s.usage - size)
  }

  function Init(c: Setup): State { State(0, seq(c.K, _ => 0)) }

  ghost predicate Runs(c: Setup, s: State, es: seq<Step>)
    decreases |es|
  {
    es == [] || (Enabled(c, s, es[0]) && Runs(c, Next(c, s, es[0]), es[1..]))
  }

  ghost function After(c: Setup, s: State, es: seq<Step>): State
    requires Runs(c, s, es)
    decreases |es|
  {
    if es == [] then s else After(c, Next(c, s, es[0]), es[1..])
  }

  ghost predicate Reachable(c: Setup, s: State) { exists es :: Runs(c, Init(c), es) && After(c, Init(c), es) == s }

  // ---------------------------------------------------------------- the bound

  function Sum(xs: seq<nat>): nat { if xs == [] then 0 else xs[0] + Sum(xs[1..]) }

  lemma {:induction false} SumUpdate(xs: seq<nat>, t: nat, x: nat)
    requires t < |xs|
    ensures Sum(xs[t := x]) == Sum(xs) - xs[t] + x
  {
    if t == 0 {
      assert xs[0 := x][1..] == xs[1..];
    } else {
      SumUpdate(xs[1..], t - 1, x);
      assert xs[t := x][1..] == xs[1..][t - 1 := x];
    }
  }

  lemma {:induction false} SumAtMost(xs: seq<nat>, m: nat)
    requires forall t :: 0 <= t < |xs| ==> xs[t] <= m
    ensures Sum(xs) <= |xs| * m
  {
    if xs != [] {
      SumAtMost(xs[1..], m);
      assert |xs| * m == m + |xs[1..]| * m;
    }
  }

  lemma {:induction false} SumOfZeros(k: nat)
    ensures Sum(seq(k, _ => 0)) == 0
  {
    if k > 0 {
      SumOfZeros(k - 1);
      assert seq(k, _ => 0)[1..] == seq(k - 1, _ => 0);
    }
  }

  /** The largest request that can pass. */
  function Largest(c: Setup): nat { if c.cap == 0 then 0 else if c.most < c.cap then c.most else c.cap - 1 }

  /** All but one of the threads may be ahead of their charges. */
  function Bound(c: Setup): nat {
    if c.K == 0 || c.cap == 0 then 0 else c.cap - 1 + (c.K - 1) * Largest(c)
  }

  ghost predicate Inv(c: Setup, s: State) {
    && |s.flight| == c.K && (forall t :: 0 <= t < |s.flight| ==> s.flight[t] <= Largest(c))
    && s.usage + Sum(s.flight) <= Bound(c)
  }

  lemma TestKeeps(c: Setup, s: State, t: nat, size: size_t)
    requires Bound(c) <= c.cap && Inv(c, s) && Enabled(c, s, Test(t, size))
    ensures Inv(c, Next(c, s, Test(t, size)))
  {
    assert Idle(c, s) == c.cap - s.usage;
    assert size <= Largest(c);
    hide Largest;
    SumUpdate(s.flight, t, size);
    var others := s.flight[..t] + s.flight[t + 1..];
    SumWithout(s.flight, t);
    SumAtMost(others, Largest(c));
    assert |others| == c.K - 1;
  }

  lemma {:induction false} SumWithout(xs: seq<nat>, t: nat)
    requires t < |xs|
    ensures Sum(xs) == xs[t] + Sum(xs[..t] + xs[t + 1..])
  {
    if t == 0 {
      assert xs[..0] + xs[1..] == xs[1..];
    } else {
      SumWithout(xs[1..], t - 1);
      assert xs[1..][..t - 1] + xs[1..][t..] == (xs[..t] + xs[t + 1..])[1..];
    }
  }

  lemma StepKeeps(c: Setup, s: State, e: Step)
    requires Bound(c) <= c.cap && Inv(c, s) && Enabled(c, s, e)
    ensures Inv(c, Next(c, s, e))
  {
    match e
    case Test(t, size) => TestKeeps(c, s, t, size);
    case Charge(t) => SumUpdate(s.flight, t, 0);
    case Free(_) =>
  }

  lemma {:induction false} RunKeeps(c: Setup, s: State, es: seq<Step>)
    requires Bound(c) <= c.cap && Inv(c, s) && Runs(c, s, es)
    ensures Inv(c, After(c, s, es))
    decreases |es|
  {
    hide Inv, Bound, Enabled, Next;
    if es != [] {
      StepKeeps(c, s, es[0]);
      RunKeeps(c, Next(c, s, es[0]), es[1..]);
    }
  }

  lemma UsageBound(c: Setup, s: State)
    requires Bound(c) <= c.cap && Reachable(c, s)
    ensures s.usage <= Bound(c)
  {
    var es :| Runs(c, Init(c), es) && After(c, Init(c), es) == s;
    SumOfZeros(c.K);
    RunKeeps(c, Init(c), es);
  }

  // ---------------------------------------------------------------- exactly when it holds

  /** The counter stays strictly below the capacity, as it does for one thread, exactly when there is
      one thread at most, or no request can pass. */
  lemma StaysBelowIff(c: Setup)
    ensures (forall s :: Reachable(c, s) ==> s.usage == 0 || s.usage < c.cap)
       <==> c.K <= 1 || c.most == 0 || c.cap <= 1
  {
    if c.K <= 1 || c.most == 0 || c.cap <= 1 {
      NoSurplus(c);
      forall s | Reachable(c, s) ensures s.usage == 0 || s.usage < c.cap { UsageBound(c, s); }
    } else {
      var s := Crowd(c, c.cap - 2, 1, 2);
      assert s.usage == c.cap;
    }
  }

  lemma NoSurplus(c: Setup)
    requires c.K <= 1 || c.most == 0 || c.cap <= 1
    ensures Bound(c) <= c.cap && (c.cap > 0 ==> Bound(c) < c.cap)
  {
    if c.K > 0 && c.cap > 0 { assert (c.K - 1) * Largest(c) == 0; }
  }

  /** The counter can rise above the capacity exactly when all threads but one can have two bytes or
      more in flight. */
  lemma NeverOverIff(c: Setup)
    ensures (forall s :: Reachable(c, s) ==> s.usage <= c.cap)
       <==> c.K == 0 || c.cap == 0 || (c.K - 1) * Largest(c) <= 1
  {
    if Bound(c) <= c.cap {
      forall s | Reachable(c, s) ensures s.usage <= c.cap { UsageBound(c, s); }
    } else {
      AtLeastTwo(c);
      if Largest(c) == 1 {
        var s := Crowd(c, c.cap - 2, 1, 3);
        assert s.usage > c.cap;
      } else {
        var s := Crowd(c, c.cap - 3, 2, 2);
        assert s.usage > c.cap;
      }
    }
  }

  lemma AtLeastTwo(c: Setup)
    requires Bound(c) > c.cap
    ensures c.K >= 2 && c.cap >= 2 && Largest(c) >= 1 && (Largest(c) == 1 ==> c.K >= 3)
  {
    assert Largest(c) == 0 ==> (c.K - 1) * Largest(c) == 0;
  }

  /** From then on the difference wraps around, and the test lets pass what it should refuse. */
  lemma OverIsBlind(c: Setup, s: State, size: size_t)
    requires c.cap < s.usage < WORD
    ensures Idle(c, s) > size <==> size < WORD - (s.usage - c.cap)
  {
    assert (c.cap - s.usage) % WORD == c.cap - s.usage + WORD;
  }

  // ---------------------------------------------------------------- the runs

  lemma {:induction false} RunOneMore(c: Setup, s: State, es: seq<Step>, e: Step)
    requires Runs(c, s, es) && Enabled(c, After(c, s, es), e)
    ensures Runs(c, s, es + [e]) && After(c, s, es + [e]) == Next(c, After(c, s, es), e)
    decreases |es|
  {
    hide Enabled, Next;
    if es == [] {
      assert es + [e] == [e] && [e][1..] == [];
      assert Runs(c, Next(c, s, e), []);
    } else {
      RunOneMore(c, Next(c, s, es[0]), es[1..], e);
      assert (es + [e])[0] == es[0] && (es + [e])[1..] == es[1..] + [e];
    }
  }

  lemma ReachStep(c: Setup, s: State, e: Step)
    requires Reachable(c, s) && Enabled(c, s, e)
    ensures Reachable(c, Next(c, s, e))
  {
    hide Enabled, Next, Runs, After;
    var es :| Runs(c, Init(c), es) && After(c, Init(c), es) == s;
    RunOneMore(c, Init(c), es, e);
  }

  /** Thread 0 charges `n` bytes, one by one. */
  lemma {:induction false} Fill(c: Setup, n: nat) returns (s: State)
    requires c.K >= 1 && c.most >= 1 && n < c.cap
    ensures Reachable(c, s) && s == State(n, seq(c.K, _ => 0))
  {
    if n == 0 {
      s := Init(c);
      assert Runs(c, s, []) && After(c, s, []) == s;
    } else {
      s := Fill(c, n - 1);
      assert Idle(c, s) == c.cap - (n - 1);
      ReachStep(c, s, Test(0, 1));
      s := Next(c, s, Test(0, 1));
      ReachStep(c, s, Charge(0));
      s := Next(c, s, Charge(0));
      assert s.flight == seq(c.K, _ => 0);
    }
  }

  /** After that `k` threads pass the test with `size` bytes each, before any of them is charged. */
  lemma Crowd(c: Setup, n: nat, size: size_t, k: nat) returns (s: State)
    requires 1 <= k <= c.K && 1 <= size <= c.most && n + size < c.cap
    ensures Reachable(c, s) && s.usage == n + k * size
  {
    s := Fill(c, n);
    s := TestAll(c, s, size, k);
    s := ChargeAll(c, s, size, k);
  }

  lemma {:induction false} TestAll(c: Setup, s: State, size: size_t, k: nat) returns (s': State)
    requires k <= c.K && size <= c.most && s.usage + size < c.cap
    requires Reachable(c, s) && s.flight == seq(c.K, _ => 0)
    ensures Reachable(c, s') && s' == State(s.usage, seq(c.K, t => if t < k then size else 0))
  {
    if k == 0 {
      s' := s;
      assert s.flight == seq(c.K, t => if t < 0 then size else 0);
    } else {
      s' := TestAll(c, s, size, k - 1);
      assert Idle(c, s') == c.cap - s'.usage;
      ReachStep(c, s', Test(k - 1, size));
      s' := Next(c, s', Test(k - 1, size));
      assert s'.flight == seq(c.K, t => if t < k then size else 0);
    }
  }

  lemma {:induction false} ChargeAll(c: Setup, s: State, size: size_t, k: nat) returns (s': State)
    requires k <= c.K && Reachable(c, s) && s.flight == seq(c.K, t => if t < k then size else 0)
    ensures Reachable(c, s') && s'.usage == s.usage + k * size
    decreases k
  {
    if k == 0 {
      s' := s;
    } else {
      ReachStep(c, s, Charge(k - 1));
      var s1 := Next(c, s, Charge(k - 1));
      assert s1.flight == seq(c.K, t => if t < k - 1 then size else 0);
      s' := ChargeAll(c, s1, size, k - 1);
      assert k * size == (k - 1) * size + size;
    }
  }
}
