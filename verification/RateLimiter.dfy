/** The rate limiter of the work queue, for any clock readings. */
module RateLimiters {
  import opened Bytes
  import opened Options

  /** A grant: the time it is for, and how far it pushed the next one. Times are microseconds. */
  datatype Grant = Grant(time: nat, charge: nat)

  const WIDE := 0x1_0000_0000_0000_0000_0000_0000_0000_0000 // times are 128-bit words

  function RealMin(a: real, b: real): real { if b < a then b else a }

  lemma ProductNotNegative(x: real, y: real)
    requires x >= 0.0 && y >= 0.0
    ensures x * y >= 0.0
  {
  }

  /** The microseconds that `permits` permits cost: the product, truncated to an integer. */
  function Charge(permits: real, interval: real): (n: nat)
    requires permits >= 0.0 && interval >= 0.0
    ensures n as real <= permits * interval < n as real + 1.0
  {
    ProductNotNegative(permits, interval);
    (permits * interval).Floor
  }

  /** Every grant is at least the previous grant's charge after it. */
  ghost predicate Spaced(gs: seq<Grant>) {
    forall i :: 0 <= i < |gs| - 1 ==> gs[i].time + gs[i].charge <= gs[i + 1].time
  }

  /** `grants` is the history of all claims. */
  class RateLimiter {
    var interval: real
    var maxPermits: real
    var storedPermits: real
    var nextFree: nat
    ghost var grants: seq<Grant>

    ghost predicate Valid()
      reads this
    {
      && interval >= 0.0 && maxPermits == 0.0 && storedPermits == 0.0
      && Spaced(grants)
      && (grants != [] ==> grants[|grants| - 1].time + grants[|grants| - 1].charge <= nextFree)
    }

    constructor ()
      ensures Valid() && grants == [] && nextFree == 0
    {
      interval, maxPermits, storedPermits, nextFree := 0.0, 0.0, 0.0, 0;
      grants := [];
    }

    /** `set_rate`; false is its exception. */
    method SetRate(rate: real) returns (ok: bool)
      requires Valid()
      modifies this`interval
      ensures Valid() && ok == (rate > 0.0)
      ensures interval == if ok then 1000000.0 / rate else old(interval)
    {
      if rate <= 0.0 { return false; }
      interval := 1000000.0 / rate;
      ok := true;
    }

    /** `sync`; dividing by a zero interval gives infinity. */
    method Sync(now: nat)
      requires Valid()
      modifies this`storedPermits, this`nextFree
      ensures Valid() && nextFree == if now > old(nextFree) then now else old(nextFree)
    {
      if now > nextFree {
        storedPermits := if interval == 0.0 then maxPermits
                         else RealMin(maxPermits, storedPermits + (now - nextFree) as real / interval);
        nextFree := now;
      }
    }

    /** `claim_next`: the time to wait before the grant. */
    method ClaimNext(permits: real, now: nat) returns (wait: nat)
      requires Valid() && permits >= 0.0
      modifies this
      ensures Valid() && interval == old(interval)
      ensures now + wait == if now > old(nextFree) then now else old(nextFree)
      ensures grants == old(grants) + [Grant(now + wait, Charge(permits, interval))]
      ensures nextFree == now + wait + Charge(permits, interval)
    {
      Sync(now);
      wait := nextFree - now;
      var stored := RealMin(permits, storedPermits);
      var freshPermits := permits - stored;
      grants := grants + [Grant(nextFree, Charge(freshPermits, interval))];
      nextFree := nextFree + Charge(freshPermits, interval);
      storedPermits := storedPermits - stored;
    }

    /** `aquire`; None is `LOG_FATAL`. */
    method Aquire(permits: int, now: nat) returns (wait: Option<nat>)
      requires Valid()
      modifies this
      ensures Valid() && interval == old(interval)
      ensures wait == None <==> permits <= 0
      ensures if wait == None then grants == old(grants) && nextFree == old(nextFree)
              else grants == old(grants) + [Grant(now + wait.value, Charge(permits as real, interval))]
      ensures wait.Some? ==>
                && now + wait.value == (if now > old(nextFree) then now else old(nextFree))
                && nextFree == now + wait.value + Charge(permits as real, interval)
    {
      if permits <= 0 { return None; }
      var w := ClaimNext(permits as real, now);
      wait := Some(w);
    }

    /** `try_aquire`, with its two clock readings. A time before the epoch would count as one far in the
        future, since it is compared as an unsigned word. */
    method TryAquire(permits: int, timeout: int32, now: nat, later: nat) returns (ok: bool, wait: Option<nat>)
      requires Valid() && nextFree < WIDE / 2
      modifies this
      ensures Valid()
      ensures ok <==> old(nextFree) <= now + timeout * 1000 || now + timeout * 1000 < 0
      ensures wait == None <==> !ok || permits <= 0
      ensures wait == None ==> grants == old(grants) && nextFree == old(nextFree)
      ensures interval == old(interval)
      ensures wait.Some? ==>
                && later + wait.value == (if later > old(nextFree) then later else old(nextFree))
                && grants == old(grants) + [Grant(later + wait.value, Charge(permits as real, interval))]
                && nextFree == later + wait.value + Charge(permits as real, interval)
      ensures ok && permits > 0 && now <= later && now + timeout * 1000 >= 0 ==>
                wait.value <= if timeout > 0 then timeout * 1000 else 0
    {
      var until := now + timeout * 1000;
      if nextFree > (if until < 0 then until + WIDE else until) { return false, None; }
      wait := Aquire(permits, later);
      ok := true;
    }
  }

  // ---------------------------------------------------------------- the rate bound

  /** The number of grants at times from `a` to `b`. */
  function CountIn(gs: seq<Grant>, a: int, b: int): nat {
    if gs == [] then 0
    else CountIn(gs[..|gs| - 1], a, b) + if a <= gs[|gs| - 1].time <= b then 1 else 0
  }

  lemma {:induction false} CountUpTo(gs: seq<Grant>, a: int, b: int, c: int)
    requires forall i :: 0 <= i < |gs| ==> gs[i].time <= c
    ensures CountIn(gs, a, b) <= CountIn(gs, a, c)
  {
    if gs != [] { CountUpTo(gs[..|gs| - 1], a, b, c); }
  }

  /** Grants in a spaced history come at least the smallest charge apart. */
  lemma {:induction false} EarlierGrants(gs: seq<Grant>, d: nat, i: nat)
    requires Spaced(gs) && forall k :: 0 <= k < |gs| ==> gs[k].charge >= d
    requires i < |gs| - 1
    ensures gs[i].time + d <= gs[|gs| - 1].time
    decreases |gs| - i
  {
    if i < |gs| - 2 { EarlierGrants(gs, d, i + 1); }
  }

  /** n grants that each charge at least d, at times from a to b, take (n - 1) * d microseconds. */
  lemma {:induction false} WindowBound(gs: seq<Grant>, d: nat, a: int, b: int)
    requires d > 0 && Spaced(gs) && forall k :: 0 <= k < |gs| ==> gs[k].charge >= d
    ensures if b < a then CountIn(gs, a, b) == 0 else CountIn(gs, a, b) * d <= b - a + d
  {
    if gs != [] {
      var init, last := gs[..|gs| - 1], gs[|gs| - 1];
      WindowBound(init, d, a, b);
      if a <= last.time <= b {
        forall i | 0 <= i < |init| ensures init[i].time <= last.time - d { EarlierGrants(gs, d, i); }
        CountUpTo(init, a, b, last.time - d);
        WindowBound(init, d, a, last.time - d);
        CountTimes(CountIn(init, a, b), CountIn(init, a, last.time - d), d);
      }
    }
  }

  lemma CountTimes(m: nat, n: nat, d: nat)
    requires m <= n
    ensures m * d <= n * d && (m + 1) * d == m * d + d
  {
  }

  /** When the k-th grant may come, as far as the earlier ones go. */
  function FreeAt(gs: seq<Grant>, k: nat): nat
    requires k <= |gs|
  {
    if k == 0 then 0 else gs[k - 1].time + 2000
  }

  predicate Prompt(gs: seq<Grant>, clock: seq<nat>, k: nat)
    requires k < |gs| && k < |clock|
  {
    gs[k].charge == 2000 && gs[k].time == Later(clock[k], FreeAt(gs, k))
  }

  function Later(a: nat, b: nat): nat { if a > b then a else b }

  lemma OnePermit()
    ensures Charge(1 as real, 2000.0) == 2000
  {
  }

  /** One permit per clock reading at 500 permits per second, whatever the clock does: a grant comes
      as soon as the clock and 2000 microseconds since the last grant allow, and any window of
      T microseconds holds at most T / 2000 + 1 of the grants. */
  method SinglePermits(clock: seq<nat>) returns (gs: seq<Grant>)
    ensures |gs| == |clock|
    ensures forall i :: 0 <= i < |gs| ==> Prompt(gs, clock, i)
    ensures forall a: int, b: int :: a <= b ==> CountIn(gs, a, b) <= (b - a) / 2000 + 1
  {
    hide Charge, CountIn;
    OnePermit();
    var limiter := new RateLimiter();
    var ok := limiter.SetRate(500.0);
    gs := [];
    for i := 0 to |clock|
      invariant limiter.Valid() && fresh(limiter) && limiter.interval == 2000.0 && limiter.grants == gs
      invariant |gs| == i && limiter.nextFree == FreeAt(gs, i)
      invariant forall k :: 0 <= k < i ==> Prompt(gs, clock, k)
    {
      var wait := limiter.Aquire(1, clock[i]);
      ghost var earlier := gs;
      gs := gs + [Grant(clock[i] + wait.value, 2000)];
      forall k | 0 <= k < i ensures Prompt(gs, clock, k) { assert Prompt(earlier, clock, k); }
      assert Prompt(gs, clock, i);
    }
    forall k | 0 <= k < |gs| ensures gs[k].charge == 2000 { assert Prompt(gs, clock, k); }
    forall a: int, b: int | a <= b ensures CountIn(gs, a, b) <= (b - a) / 2000 + 1 { WindowBound(gs, 2000, a, b); }
  }
}
