/** The worker pool of a batch load or batch backup: a feeder, `K` workers and a collector, on two
    unbounded channels, in every interleaving. */
module FanIn {
  import opened Options
  import C = Channel

  /** What becomes of a default item, whose file name is empty: `LoadPool` asks another node for it and
      gets false; `BackupPool` looks it up in its own storage, which ends the process. */
  datatype Pool = LoadPool | BackupPool

  /** The pool, the number of items and the number of workers. */
  datatype Setup = Setup(pool: Pool, N: nat, K: nat)

  /** A result and the item it is for; a worker that popped nothing works on a default item. */
  datatype Res = Res(origin: Option<nat>, ok: bool)

  datatype Worker =
    | Testing                    // about to evaluate the loop condition
    | Entering                   // the channel was open or not empty
    | Popping                    // past the unlocked test of operator<<
    | Running(item: Option<nat>)
    | Reporting(r: Res)
    | Gone

  /** `popped`, `produced` and `succeeded` are history: how many items were popped, every result
      reported, and the items whose task ran and returned true; `ended` says the process has ended. */
  datatype State = State(
    items: C.Chan<nat>, fed: nat, workers: map<nat, Worker>, results: C.Chan<Res>, collected: seq<Res>,
    popped: nat, produced: seq<Res>, succeeded: set<nat>, ended: bool)

  datatype Step = Feed | CloseFeed | Test(w: nat) | Enter(w: nat) | Pop(w: nat) | Finish(w: nat, ok: bool)
                | Report(w: nat) | Collect

  function WorkerOf(s: State, w: nat): Worker { if w in s.workers then s.workers[w] else Testing }

  /** Until the collector has its `N` results. */
  predicate Enabled(c: Setup, s: State, e: Step) {
    && !s.ended && |s.collected| < c.N
    && match e
       case Feed => s.fed < c.N && !s.items.closed
       case CloseFeed => s.fed == c.N
       case Test(w) => w < c.K && WorkerOf(s, w).Testing? && C.MayRead(s.items)
       case Enter(w) => w < c.K && WorkerOf(s, w).Entering?
       case Pop(w) => w < c.K && WorkerOf(s, w).Popping? && C.MayRead(s.items)
       case Finish(w, ok) => w < c.K && WorkerOf(s, w).Running? && (ok ==> WorkerOf(s, w).item.Some?)
       case Report(w) => w < c.K && WorkerOf(s, w).Reporting?
       case Collect => C.MayRead(s.results) && s.results.queue != []
  }

  function Put(s: State, w: nat, wk: Worker): State { s.(workers := s.workers[w := wk]) }

  function Next(c: Setup, s: State, e: Step): State
    requires Enabled(c, s, e)
  {
    match e
    case Feed => s.(items := C.Pushed(s.items, s.fed), fed := s.fed + 1)
    case CloseFeed => s.(items := s.items.(closed := true))
    case Test(w) => Put(s, w, if s.items.closed && s.items.size == 0 then Gone else Entering)
    case Enter(w) => Put(s, w, if s.items.closed && s.items.size == 0 then Running(None) else Popping)
    case Pop(w) =>
      if s.items.size == 0 || s.items.queue == [] then Put(s, w, Running(None))
      else Put(s, w, Running(Some(s.items.queue[0]))).(items := C.Popped(s.items), popped := s.popped + 1)
    case Finish(w, ok) =>
      var item := WorkerOf(s, w).item;
      if item.None? && c.pool.BackupPool? then s.(ended := true)
      else Put(s, w, Reporting(Res(item, ok))).(
        succeeded := if ok then s.succeeded + {item.value} else s.succeeded)
    case Report(w) =>
      var r := WorkerOf(s, w).r;
      Put(s, w, Testing).(results := C.Pushed(s.results, r), produced := s.produced + [r])
    case Collect => s.(results := C.Popped(s.results), collected := s.collected + [s.results.queue[0]])
  }

  function Init(): State { State(C.Empty(), 0, map[], C.Empty(), [], 0, [], {}, false) }

  // ---------------------------------------------------------------- each item has one holder

  /** The item a worker holds. */
  function Held(wk: Worker): Option<nat> {
    match wk
    case Running(item) => item
    case Reporting(r) => r.origin
    case _ => None
  }

  ghost predicate HeldApart(s: State) {
    && (forall w :: w in s.workers && Held(s.workers[w]).Some? ==> Held(s.workers[w]).value < s.popped)
    && (forall v, w :: v in s.workers && w in s.workers && v != w && Held(s.workers[v]).Some? ==>
          Held(s.workers[v]) != Held(s.workers[w]))
    && (forall w, k :: w in s.workers && 0 <= k < |s.produced| && Held(s.workers[w]).Some? ==>
          s.produced[k].origin != Held(s.workers[w]))
  }

  predicate Genuine(s: State, r: Res) {
    r.ok ==> r.origin.Some? && r.origin.value in s.succeeded
  }

  ghost predicate ProducedApart(s: State) {
    && (forall k :: 0 <= k < |s.produced| && s.produced[k].origin.Some? ==> s.produced[k].origin.value < s.popped)
    && (forall j, k :: 0 <= j < k < |s.produced| && s.produced[j].origin.Some? ==>
          s.produced[j].origin != s.produced[k].origin)
    && (forall k :: 0 <= k < |s.produced| ==> Genuine(s, s.produced[k]))
    && (forall w :: w in s.workers && s.workers[w].Reporting? ==> Genuine(s, s.workers[w].r))
  }

  ghost predicate Inv(c: Setup, s: State) {
    && C.Consistent(s.items, 0) && C.Consistent(s.results, 0)
    && s.popped + |s.items.queue| == s.fed <= c.N
    && (forall k :: 0 <= k < |s.items.queue| ==> s.items.queue[k] == s.popped + k)
    && s.collected + s.results.queue == s.produced
    && HeldApart(s) && ProducedApart(s)
  }

  lemma PopKeeps(c: Setup, s: State, w: nat)
    requires Inv(c, s) && Enabled(c, s, Pop(w))
    ensures Inv(c, Next(c, s, Pop(w)))
  {
    hide HeldApart, ProducedApart;
    PopHolds(c, s, w);
    PopProduces(c, s, w);
  }

  /** The item taken is one that nobody has held. */
  lemma PopHolds(c: Setup, s: State, w: nat)
    requires Inv(c, s) && Enabled(c, s, Pop(w))
    ensures HeldApart(Next(c, s, Pop(w)))
  {
    var s' := Next(c, s, Pop(w));
    if s.items.queue != [] { assert s.items.queue[0] == s.popped; }
    assert forall v :: v in s'.workers && v != w ==> v in s.workers && s'.workers[v] == s.workers[v];
  }

  lemma PopProduces(c: Setup, s: State, w: nat)
    requires ProducedApart(s) && Enabled(c, s, Pop(w))
    ensures ProducedApart(Next(c, s, Pop(w)))
  {
  }

  /** A worker that changes without taking a new item keeps holders apart. */
  lemma HolderMoves(s: State, s': State, w: nat, wk: Worker)
    requires HeldApart(s) && ProducedApart(s) && s'.workers == s.workers[w := wk] && s'.popped == s.popped
    requires Held(wk) == None || Held(wk) == Held(WorkerOf(s, w))
    requires s'.produced == s.produced
      || (Held(wk) == None && WorkerOf(s, w).Reporting? && s'.produced == s.produced + [WorkerOf(s, w).r])
    ensures HeldApart(s')
  {
    assert forall v :: v in s'.workers && v != w ==> v in s.workers && s'.workers[v] == s.workers[v];
  }

  lemma ReportKeeps(c: Setup, s: State, w: nat)
    requires Inv(c, s) && Enabled(c, s, Report(w))
    ensures Inv(c, Next(c, s, Report(w)))
  {
    var s' := Next(c, s, Report(w));
    assert s'.collected + s'.results.queue == (s.collected + s.results.queue) + [WorkerOf(s, w).r];
    HolderMoves(s, s', w, Testing);
  }

  lemma CollectKeeps(c: Setup, s: State)
    requires Inv(c, s) && Enabled(c, s, Collect)
    ensures Inv(c, Next(c, s, Collect))
  {
    var s' := Next(c, s, Collect);
    assert s'.collected + s'.results.queue == s.collected + ([s.results.queue[0]] + s.results.queue[1..]);
  }

  lemma FinishKeeps(c: Setup, s: State, w: nat, ok: bool)
    requires Inv(c, s) && Enabled(c, s, Finish(w, ok))
    ensures Inv(c, Next(c, s, Finish(w, ok)))
  {
    var s' := Next(c, s, Finish(w, ok));
    HolderMoves(s, s', w, s'.workers[w]);
  }

  lemma MoveKeeps(c: Setup, s: State, w: nat, e: Step)
    requires Inv(c, s) && Enabled(c, s, e) && (e == Test(w) || e == Enter(w))
    ensures Inv(c, Next(c, s, e))
  {
    var s' := Next(c, s, e);
    HolderMoves(s, s', w, s'.workers[w]);
  }

  lemma StepKeeps(c: Setup, s: State, e: Step)
    requires Inv(c, s) && Enabled(c, s, e)
    ensures Inv(c, Next(c, s, e))
  {
    match e
    case Test(w) => MoveKeeps(c, s, w, e);
    case Enter(w) => MoveKeeps(c, s, w, e);
    case Pop(w) => PopKeeps(c, s, w);
    case Report(w) => ReportKeeps(c, s, w);
    case Finish(w, ok) => FinishKeeps(c, s, w, ok);
    case Collect => CollectKeeps(c, s);
    case _ =>
  }

  /** A run. */
  ghost predicate Runs(c: Setup, s: State, es: seq<Step>)
    decreases |es|
  {
    es == [] || (Enabled(c, s, es[0]) && Runs(c, Next(c, s, es[0]), es[1..]))
  }

  ghost function After(c: Setup, s: State, es: seq<Step>): State
    requires Runs(c, s, es)
    decreases |es|
  {
    if es == [] then s else After(c, Next(c, s, es[0]), es[1..])
  }

  /** Some interleaving ends in `s`. */
  ghost predicate Reachable(c: Setup, s: State) { exists es :: Runs(c, Init(), es) && After(c, Init(), es) == s }

  lemma {:induction false} RunKeeps(c: Setup, s: State, es: seq<Step>)
    requires Inv(c, s) && Runs(c, s, es)
    ensures Inv(c, After(c, s, es))
    decreases |es|
  {
    if es != [] {
      StepKeeps(c, s, es[0]);
      RunKeeps(c, Next(c, s, es[0]), es[1..]);
    }
  }

  // ---------------------------------------------------------------- the collector's verdict

  /** The collecting loop: true unless some result is false. */
  method Verdict(results: seq<Res>) returns (res: bool)
    ensures res <==> forall k :: 0 <= k < |results| ==> results[k].ok
  {
    res := true;
    for i := 0 to |results|
      invariant res <==> AllOk(results[..i])
    {
      assert results[..i + 1] == results[..i] + [results[i]];
      if !results[i].ok { res := false; }
    }
    assert results[..|results|] == results;
  }

  ghost predicate AllOk(results: seq<Res>) { forall k :: 0 <= k < |results| ==> results[k].ok }

  function Upto(n: nat): (s: set<nat>)
    ensures |s| == n && forall i: nat :: i in s <==> i < n
  {
    if n == 0 then {} else Upto(n - 1) + {n - 1}
  }

  /** n different numbers below n are all the numbers below n. */
  lemma {:induction false} Pigeonhole(xs: seq<nat>)
    requires forall i :: 0 <= i < |xs| ==> xs[i] < |xs|
    requires forall i, j :: 0 <= i < j < |xs| ==> xs[i] != xs[j]
    ensures forall v: nat :: v < |xs| ==> v in xs
  {
    var range := set i | 0 <= i < |xs| :: xs[i];
    DistinctSize(xs);
    assert range <= Upto(|xs|);
    SubsetOfSameSize(range, Upto(|xs|));
    forall v: nat | v < |xs| ensures v in xs { assert v in Upto(|xs|); }
  }

  lemma SubsetOfSameSize<T>(a: set<T>, b: set<T>)
    requires a <= b && |a| == |b|
    ensures a == b
  {
    assert b == a + (b - a);
    assert |b - a| == 0;
  }

  lemma {:induction false} DistinctSize(xs: seq<nat>)
    requires forall i, j :: 0 <= i < j < |xs| ==> xs[i] != xs[j]
    ensures |set i | 0 <= i < |xs| :: xs[i]| == |xs|
  {
    if xs != [] {
      var init := xs[..|xs| - 1];
      DistinctSize(init);
      assert (set i | 0 <= i < |xs| :: xs[i]) == (set i | 0 <= i < |init| :: init[i]) + {xs[|xs| - 1]};
    }
  }

  /** In every interleaving, with any number of workers: if all N results collected are true, each of
      the N tasks ran and returned true, although a worker may have popped a default item. */
  lemma TrueMeansAllSucceeded(c: Setup, s: State)
    requires Reachable(c, s) && |s.collected| == c.N && AllOk(s.collected)
    ensures forall i: nat :: i < c.N ==> i in s.succeeded
  {
    var es :| Runs(c, Init(), es) && After(c, Init(), es) == s;
    RunKeeps(c, Init(), es);
    forall k | 0 <= k < c.N ensures s.collected[k] == s.produced[k] && Genuine(s, s.produced[k]) {}
    var origins := seq(c.N, k requires 0 <= k < c.N => s.collected[k].origin.value);
    Pigeonhole(origins);
    forall i: nat | i < c.N ensures i in s.succeeded { assert i in origins; }
  }

  // ---------------------------------------------------------------- when the converse fails

  /** Every task returned true, and still a false result was collected. */
  predicate Alarmed(c: Setup, s: State) {
    && |s.collected| == c.N && (exists k :: 0 <= k < c.N && !s.collected[k].ok)
    && forall i: nat :: i < c.N ==> i in s.succeeded
  }

  ghost predicate MayAlarm(c: Setup) { exists s :: Reachable(c, s) && Alarmed(c, s) }

  ghost predicate MayEnd(c: Setup) { exists s :: Reachable(c, s) && s.ended }

  /** A false alarm is possible exactly when items are loaded by two workers or more. */
  lemma FalseAlarmIff(c: Setup)
    ensures MayAlarm(c) <==> c.pool.LoadPool? && c.N >= 1 && c.K >= 2
  {
    if c.pool.LoadPool? && c.N >= 1 && c.K >= 2 {
      var s := DefaultItem(c);
      var t := ReportDefault(c, s);
      assert Alarmed(c, t);
    } else {
      forall s | Reachable(c, s) ensures !Alarmed(c, s) { NoAlarm(c, s); }
    }
  }

  /** The process may end exactly when items are backed up by two workers or more. */
  lemma ProcessEndsIff(c: Setup)
    ensures MayEnd(c) <==> c.pool.BackupPool? && c.N >= 1 && c.K >= 2
  {
    if c.pool.BackupPool? && c.N >= 1 && c.K >= 2 {
      var s := DefaultItem(c);
      ReachStep(c, s, Finish(1, false));
      assert Next(c, s, Finish(1, false)).ended;
    } else {
      forall s | Reachable(c, s) ensures !s.ended { NoAlarm(c, s); }
    }
  }

  /** What a result of an item says about its task is true; and no result is a default item's, unless
      two workers or more load. */
  ghost predicate Exact(c: Setup, s: State) {
    && (forall w :: w in s.workers ==> ExactWorker(c, s, s.workers[w]))
    && (forall k :: 0 <= k < |s.produced| ==> ExactResult(c, s, s.produced[k]))
    && (s.ended ==> c.pool.BackupPool? && c.K >= 2)
  }

  predicate ExactResult(c: Setup, s: State, r: Res) {
    if r.origin.None? then c.pool.LoadPool? && c.K >= 2 else !r.ok ==> r.origin.value !in s.succeeded
  }

  predicate ExactWorker(c: Setup, s: State, wk: Worker) {
    match wk
    case Running(item) => if item.None? then c.K >= 2 else item.value !in s.succeeded
    case Reporting(r) => ExactResult(c, s, r)
    case Entering => c.K <= 1 ==> s.items.size > 0
    case Popping => c.K <= 1 ==> s.items.size > 0
    case _ => true
  }

  /** Only items that were popped can have succeeded, and with one worker only worker 0 works. */
  ghost predicate Bounds(c: Setup, s: State) {
    (forall v :: v in s.succeeded ==> v < s.popped) && (forall w :: w in s.workers ==> w < c.K)
  }

  lemma StepExact(c: Setup, s: State, e: Step)
    requires Inv(c, s) && Exact(c, s) && Bounds(c, s) && Enabled(c, s, e)
    ensures Exact(c, Next(c, s, e)) && Bounds(c, Next(c, s, e))
  {
    match e
    case Test(w) => MoveExact(c, s, e, w);
    case Enter(w) => MoveExact(c, s, e, w);
    case Pop(w) => PopExact(c, s, w);
    case Finish(w, ok) => FinishExact(c, s, w, ok);
    case Report(w) => ReportExact(c, s, w);
    case _ => ChannelExact(c, s, e);
  }

  lemma MoveExact(c: Setup, s: State, e: Step, w: nat)
    requires Inv(c, s) && Exact(c, s) && Bounds(c, s) && Enabled(c, s, e) && (e == Test(w) || e == Enter(w))
    ensures Exact(c, Next(c, s, e)) && Bounds(c, Next(c, s, e))
  {
    var s' := Next(c, s, e);
    assert forall v :: v in s'.workers && v != w ==> v in s.workers && s'.workers[v] == s.workers[v];
  }

  lemma PopExact(c: Setup, s: State, w: nat)
    requires Inv(c, s) && Exact(c, s) && Bounds(c, s) && Enabled(c, s, Pop(w))
    ensures Exact(c, Next(c, s, Pop(w))) && Bounds(c, Next(c, s, Pop(w)))
  {
    var s' := Next(c, s, Pop(w));
    assert forall v :: v in s'.workers && v != w ==> v in s.workers && s'.workers[v] == s.workers[v];
    if s.items.queue != [] { assert s.items.queue[0] == s.popped; }
  }

  lemma FinishExact(c: Setup, s: State, w: nat, ok: bool)
    requires Inv(c, s) && Exact(c, s) && Bounds(c, s) && Enabled(c, s, Finish(w, ok))
    ensures Exact(c, Next(c, s, Finish(w, ok))) && Bounds(c, Next(c, s, Finish(w, ok)))
  {
    var s', item := Next(c, s, Finish(w, ok)), WorkerOf(s, w).item;
    assert w in s.workers && Held(s.workers[w]) == item;
    forall v | v in s'.workers ensures ExactWorker(c, s', s'.workers[v]) {
      if v != w && item.Some? { assert Held(s.workers[v]).Some? ==> Held(s.workers[v]) != item; }
    }
  }

  lemma ReportExact(c: Setup, s: State, w: nat)
    requires Inv(c, s) && Exact(c, s) && Bounds(c, s) && Enabled(c, s, Report(w))
    ensures Exact(c, Next(c, s, Report(w))) && Bounds(c, Next(c, s, Report(w)))
  {
    var s' := Next(c, s, Report(w));
    assert forall v :: v in s'.workers && v != w ==> v in s.workers && s'.workers[v] == s.workers[v];
  }

  lemma ChannelExact(c: Setup, s: State, e: Step)
    requires Exact(c, s) && Bounds(c, s) && Enabled(c, s, e) && (e.Feed? || e.CloseFeed? || e.Collect?)
    ensures Exact(c, Next(c, s, e)) && Bounds(c, Next(c, s, e))
  {
    var s' := Next(c, s, e);
    assert forall w :: w in s.workers ==> ExactWorker(c, s, s.workers[w]) ==> ExactWorker(c, s', s.workers[w]);
  }

  lemma {:induction false} RunExact(c: Setup, s: State, es: seq<Step>)
    requires Inv(c, s) && Exact(c, s) && Bounds(c, s) && Runs(c, s, es)
    ensures Inv(c, After(c, s, es)) && Exact(c, After(c, s, es))
    decreases |es|
  {
    hide Inv, Exact, Bounds, Next, Enabled;
    if es != [] {
      StepKeeps(c, s, es[0]);
      StepExact(c, s, es[0]);
      RunExact(c, Next(c, s, es[0]), es[1..]);
    }
  }

  /** Without default items a false result is that of a task that returned false. */
  lemma NoAlarm(c: Setup, s: State)
    requires Reachable(c, s)
    ensures c.pool.BackupPool? || c.N == 0 || c.K <= 1 ==> !Alarmed(c, s)
    ensures c.pool.LoadPool? || c.N == 0 || c.K <= 1 ==> !s.ended
  {
    var es :| Runs(c, Init(), es) && After(c, Init(), es) == s;
    RunExact(c, Init(), es);
    forall k | 0 <= k < |s.collected| ensures s.collected[k] == s.produced[k] && ExactResult(c, s, s.produced[k]) {}
  }

  // ---------------------------------------------------------------- the run to a default item

  lemma {:induction false} RunOneMore(c: Setup, s: State, es: seq<Step>, e: Step)
    requires Runs(c, s, es) && Enabled(c, After(c, s, es), e)
    ensures Runs(c, s, es + [e]) && After(c, s, es + [e]) == Next(c, After(c, s, es), e)
    decreases |es|
  {
    hide Enabled, Next;
    if es == [] {
      assert es + [e] == [e] && [e][1..] == [];
      assert Runs(c, Next(c, s, e), []);
    } else {
      RunOneMore(c, Next(c, s, es[0]), es[1..], e);
      assert (es + [e])[0] == es[0] && (es + [e])[1..] == es[1..] + [e];
    }
  }

  lemma ReachStep(c: Setup, s: State, e: Step)
    requires Reachable(c, s) && Enabled(c, s, e)
    ensures Reachable(c, Next(c, s, e))
  {
    hide Enabled, Next, Runs, After;
    var es :| Runs(c, Init(), es) && After(c, Init(), es) == s;
    RunOneMore(c, Init(), es, e);
  }

  lemma InitReachable(c: Setup)
    ensures Reachable(c, Init())
  {
    assert Runs(c, Init(), []) && After(c, Init(), []) == Init();
  }

  /** k items are done, the next one is fed; worker 0 is idle, and worker 1 has found the channel open. */
  predicate Midway(s: State, k: nat) {
    && s.items == C.Chan([k], 1, false) && s.fed == k + 1 && !s.ended
    && WorkerOf(s, 0) == Testing && WorkerOf(s, 1) == Entering
    && s.results == C.Empty() && |s.collected| == k && forall i: nat :: i < k ==> i in s.succeeded
  }

  lemma {:induction false} ReachMidway(c: Setup, k: nat) returns (s: State)
    requires c.K >= 2 && k < c.N
    ensures Reachable(c, s) && Midway(s, k)
  {
    hide Reachable;
    if k == 0 {
      s := Init();
      InitReachable(c);
      ReachStep(c, s, Feed);
      s := Next(c, s, Feed);
      ReachStep(c, s, Test(1));
      s := Next(c, s, Test(1));
    } else {
      s := ReachMidway(c, k - 1);
      s := TakeItem(c, s, k - 1);
      s := Succeed(c, s, k - 1);
      ReachStep(c, s, Report(0));
      s := Next(c, s, Report(0));
      ReachStep(c, s, Collect);
      s := Next(c, s, Collect);
      ReachStep(c, s, Feed);
      s := Next(c, s, Feed);
    }
  }

  /** Worker 0 takes the item that is left. */
  lemma TakeItem(c: Setup, s: State, k: nat) returns (s': State)
    requires c.K >= 2 && k < c.N && Reachable(c, s) && Midway(s, k)
    ensures Reachable(c, s')
    ensures s' == s.(items := C.Empty(), popped := s.popped + 1, workers := s.workers[0 := Running(Some(k))])
  {
    hide Reachable;
    ReachStep(c, s, Test(0));
    s' := Next(c, s, Test(0));
    ReachStep(c, s', Enter(0));
    s' := Next(c, s', Enter(0));
    ReachStep(c, s', Pop(0));
    s' := Next(c, s', Pop(0));
    assert s'.workers == s.workers[0 := Running(Some(k))];
  }

  lemma Succeed(c: Setup, s: State, k: nat) returns (s': State)
    requires c.K >= 2 && Reachable(c, s) && !s.ended && |s.collected| < c.N && WorkerOf(s, 0) == Running(Some(k))
    ensures Reachable(c, s')
    ensures s' == s.(workers := s.workers[0 := Reporting(Res(Some(k), true))], succeeded := s.succeeded + {k})
  {
    ReachStep(c, s, Finish(0, true));
    s' := Next(c, s, Finish(0, true));
  }

  /** Worker 1 holds a default item, while every task has returned true. */
  predicate HoldsDefault(c: Setup, s: State) {
    && WorkerOf(s, 1) == Running(None) && !s.ended
    && s.results == C.Empty() && |s.collected| + 1 == c.N && forall i: nat :: i < c.N ==> i in s.succeeded
  }

  /** Worker 0 takes the last item and succeeds; the channel closes, and worker 1 finds it empty. */
  lemma DefaultItem(c: Setup) returns (s: State)
    requires c.K >= 2 && c.N >= 1
    ensures Reachable(c, s) && HoldsDefault(c, s)
  {
    hide Reachable;
    s := ReachMidway(c, c.N - 1);
    s := TakeItem(c, s, c.N - 1);
    s := Succeed(c, s, c.N - 1);
    ReachStep(c, s, CloseFeed);
    s := Next(c, s, CloseFeed);
    ReachStep(c, s, Enter(1));
    s := Next(c, s, Enter(1));
  }

  /** Its false result is collected in place of a true one. */
  lemma ReportDefault(c: Setup, s: State) returns (s': State)
    requires c.pool.LoadPool? && c.K >= 2 && Reachable(c, s) && HoldsDefault(c, s)
    ensures Reachable(c, s') && Alarmed(c, s')
  {
    hide Reachable;
    ReachStep(c, s, Finish(1, false));
    s' := Next(c, s, Finish(1, false));
    ReachStep(c, s', Report(1));
    s' := Next(c, s', Report(1));
    ReachStep(c, s', Collect);
    s' := Next(c, s', Collect);
    assert s'.collected[c.N - 1] == Res(None, false);
  }
}
