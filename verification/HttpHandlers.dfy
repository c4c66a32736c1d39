/** The http handlers as sequential code over the shared state, proved to be runs of what the
    transition system allows, whatever everyone else does while they wait. */
module HttpHandlers {
  import opened Lifecycle
  import opened Options
  import opened LifecycleGuarantees
  import opened CoordinatorServer
  import opened LifecycleRuns
  import opened LifecycleConditions

  // ---------------------------------------------------------------- everyone else

  /** What happens elsewhere while a handler sleeps for the k-th time. */
  type Others = (nat, State) -> State

  /** While node `n` holds its createMetadata lock, the others may do anything the code allows. */
  ghost predicate Behave(c: Config, n: nat, others: Others) {
    forall k: nat, s: State :: |s.nodes| == c.W && n < c.W ==> Elsewhere(c, n, s, others(k, s))
  }

  /** Some run without the steps of the lock's holder: only they touch its list and its eviction. */
  ghost predicate Elsewhere(c: Config, n: nat, s: State, t: State)
    requires |s.nodes| == c.W && n < c.W
  {
    && Leads(AnyClient, c, s, t) && |t.nodes| == c.W
    && t.nodes[n].eviction == s.nodes[n].eviction && t.nodes[n].iters == s.nodes[n].iters
  }

  /** No run loses a row. */
  lemma RowsStay(c: Config, s: State, t: State)
    requires Leads(AnyClient, c, s, t)
    ensures s.rows.Keys <= t.rows.Keys
  {
    var es :| Runs(AnyClient, c, s, es) && After(AnyClient, c, s, es) == t;
    RowsStayInRun(c, s, es);
  }

  lemma {:induction false} RowsStayInRun(c: Config, s: State, es: seq<Event>)
    requires Runs(AnyClient, c, s, es)
    ensures s.rows.Keys <= After(AnyClient, c, s, es).rows.Keys
    decreases |es|
  {
    hide CanHappen, Apply;
    if es != [] {
      if es[0].Create? || es[0].FinishEvict? { RowsStayInSave(c, s, es[0]); } else { SameIterations(c, s, es[0]); }
      RowsStayInRun(c, Apply(c, s, es[0]), es[1..]);
    }
  }

  lemma RowsStayInSave(c: Config, s: State, e: Event)
    requires CanHappen(c, s, e) && (e.Create? || e.FinishEvict?)
    ensures s.rows.Keys <= Apply(c, s, e).rows.Keys
  {
  }

  /** `Blocked`: the environment gave no more turns and the handler still waits. */
  datatype Reply = OK | ERROR | Blocked

  /** How often the handler may sleep, what happens meanwhile, which database calls fail, and
      whether memory can be allocated. */
  datatype Setting = Setting(patience: nat, others: Others, batchOk: bool, reloadOk: nat -> bool,
                             markOk: nat -> bool, allocOk: bool, rowOk: bool)

  /** Where an eviction stopped: the files it had not finished; the state in which it last looked at the
      row of the first of them, and how often it had slept by then; and how often at the end. With no
      file left, `s` is the state at the end. */
  datatype Halt = Halt(todo: seq<File>, s: State, slept: nat, turns: nat)

  /** The eviction at node n was at file `f`, not yet marked, and what it had read of its row last has to be
      waited for. */
  ghost predicate Waiting(c: Config, s: State, n: nat, f: File) {
    && n < |s.nodes| && s.nodes[n].eviction.Evicting? && f in s.nodes[n].eviction.seen
    && var st := s.nodes[n].eviction.seen[f];
    (st == CACHED && c.W > 1) || (st == BACKED_UP && c.persist)
  }

  /** A database call that was due has failed: reading the row again, or else marking it. */
  ghost predicate CallFails(c: Config, n: nat, env: Setting, h: Halt) {
    h.todo != [] && if Waiting(c, h.s, n, h.todo[0]) then h.slept < env.patience && !env.reloadOk(h.slept)
                    else !env.markOk(h.slept)
  }

  /** Between `s` and `t`, the eviction at node n stood at its first file left. */
  ghost predicate Stopped(c: Config, s: State, t: State, n: nat, h: Halt) {
    && Leads(AnyClient, c, s, h.s) && Leads(AnyClient, c, h.s, t) && h.slept <= h.turns
    && n < |h.s.nodes| && h.s.nodes[n].eviction.Evicting?
    && h.s.nodes[n].eviction.todo == h.todo && !h.s.nodes[n].eviction.marked
    && (h.todo != [] ==> h.todo[0] in h.s.nodes[n].eviction.seen)
  }

  method Sleep(cl: Cluster, n: nat, others: Others, k: nat, ghost s0: State)
    requires |cl.nodes| == cl.c.W && n < cl.c.W && Behave(cl.c, n, others) && Leads(AnyClient, cl.c, s0, cl.S())
    modifies cl
    ensures Elsewhere(cl.c, n, old(cl.S()), cl.S()) && Leads(AnyClient, cl.c, s0, cl.S())
    ensures old(cl.rows).Keys <= cl.rows.Keys
  {
    hide Leads;
    assert Elsewhere(cl.c, n, cl.S(), others(k, cl.S()));
    var t := others(k, cl.S());
    RowsStay(cl.c, cl.S(), t);
    LeadsOn(AnyClient, cl.c, s0, cl.S(), t);
    cl.rows, cl.nodes, cl.disk := t.rows, t.nodes, t.disk;
    cl.tasks, cl.saved, cl.diskFailed, cl.late, cl.replaced := t.tasks, t.saved, t.diskFailed, t.late, t.replaced;
    assert cl.S() == t;
  }

  // ---------------------------------------------------------------- helpers

  method FreshId(tasks: map<nat, Task>) returns (id: nat)
    ensures id !in tasks
  {
    ghost var b := Unused(tasks);
    id :| id !in tasks;
  }

  /** `BatchLoad` with the filter for this node and its oldest iteration. */
  method BatchLoad(cl: Cluster, n: nat) returns (vec: seq<File>)
    requires n < |cl.nodes|
    ensures forall f :: f in vec <==> InOldest(cl.S(), n, f)
    ensures forall f :: f in vec <==>
              && f in cl.rows && cl.rows[f].rank == n && cl.nodes[n].iters != []
              && cl.rows[f].iteration == Some(cl.nodes[n].iters[0])
  {
    vec := [];
    var left := cl.rows.Keys;
    while left != {}
      invariant left <= cl.rows.Keys
      invariant forall f :: f in vec <==> f !in left && InOldest(cl.S(), n, f)
      decreases |left|
    {
      var f :| f in left;
      if cl.rows[f].rank == n && |cl.nodes[n].iters| > 0 && cl.rows[f].iteration == Some(cl.nodes[n].iters[0]) {
        vec := vec + [f];
      }
      left := left - {f};
    }
  }

  // ---------------------------------------------------------------- deleteOldestIteration

  /** The eviction in progress at node `n` has reached `todo`. */
  ghost predicate At(cl: Cluster, n: nat, todo: seq<File>, marked: bool, req: Request)
    reads cl
  {
    && |cl.nodes| == cl.c.W && n < cl.c.W && cl.nodes[n].eviction.Evicting?
    && var ev := cl.nodes[n].eviction;
    && ev == Evicting(todo, ev.seen, marked, req) && (forall f :: f in todo ==> f in ev.seen && f in cl.rows)
  }

  /** `f` has been marked and its key posted. */
  ghost predicate Marked(s: State, n: nat, f: File) {
    f in s.rows && s.rows[f].state == OBSOLESCENT && exists id :: id in s.tasks && s.tasks[id] == Task(n, f, Posting)
  }

  predicate Freed(s: State, n: nat, f: File) { n < |s.nodes| && f !in s.nodes[n].dict }

  /** Between `s` and `t` the file was marked and its key posted, and after that its data was gone. */
  ghost predicate Evicted(c: Config, s: State, t: State, n: nat, f: File) {
    exists m, e :: && Leads(AnyClient, c, s, m) && Marked(m, n, f)
                   && Leads(AnyClient, c, m, e) && Freed(e, n, f) && Leads(AnyClient, c, e, t)
  }

  lemma EvictedWithin(c: Config, r: State, s: State, t: State, u: State, n: nat, f: File)
    requires Leads(AnyClient, c, r, s) && Evicted(c, s, t, n, f) && Leads(AnyClient, c, t, u)
    ensures Evicted(c, r, u, n, f)
  {
    hide Leads, Marked, Freed;
    var m, e :| && Leads(AnyClient, c, s, m) && Marked(m, n, f)
                && Leads(AnyClient, c, m, e) && Freed(e, n, f) && Leads(AnyClient, c, e, t);
    LeadsOn(AnyClient, c, r, s, m);
    LeadsOn(AnyClient, c, e, t, u);
  }

  /** Mark one row OBSOLESCENT, queue its key, and wait until the local copy is gone. */
  method EvictFile(cl: Cluster, n: nat, todo: seq<File>, req: Request, env: Setting, k0: nat)
    returns (r: Reply, k: nat, ghost halt: Halt)
    requires At(cl, n, todo, false, req) && todo != [] && Behave(cl.c, n, env.others)
    modifies cl
    ensures Leads(AnyClient, cl.c, old(cl.S()), cl.S())
    ensures |cl.nodes| == cl.c.W && cl.nodes[n].iters == old(cl.nodes[n].iters)
    ensures r == OK ==> At(cl, n, todo[1..], false, req) && Evicted(cl.c, old(cl.S()), cl.S(), n, todo[0])
    ensures r == ERROR ==> cl.nodes[n].eviction == Idle
    ensures halt.todo == todo && halt.turns == k && k0 <= halt.slept && Stopped(cl.c, old(cl.S()), cl.S(), n, halt)
    ensures forall j :: k0 <= j < halt.slept ==> env.reloadOk(j)
    ensures r == ERROR <==> CallFails(cl.c, n, env, halt)
    ensures r == OK <==> !Waiting(cl.c, halt.s, n, todo[0]) && env.markOk(halt.slept) && todo[0] !in cl.nodes[n].dict
    ensures r == Blocked ==> k >= env.patience
  {
    hide Leads, Apply, CanHappen, Behave;
    ghost var s0 := cl.S();
    LeadsNow(AnyClient, cl.c, s0);
    r, k := AwaitCopies(cl, n, todo, req, env, k0, s0);
    halt := Halt(todo, cl.S(), k, k);
    LeadsNow(AnyClient, cl.c, cl.S());
    if r == Blocked { return; }
    if r == ERROR || !env.markOk(k) {
      Release(cl, n, halt.s);
      LeadsOn(AnyClient, cl.c, s0, halt.s, cl.S());
      return ERROR, k, halt;
    }
    Mark(cl, n, todo, req, halt.s);
    ghost var m := cl.S();
    LeadsNow(AnyClient, cl.c, m);
    LeadsOn(AnyClient, cl.c, s0, halt.s, m);
    r, k := AwaitDeletion(cl, n, todo, req, env, k, m);
    halt := halt.(turns := k);
    if r == OK { EvictedNow(cl.c, s0, m, cl.S(), n, todo[0]); }
    LeadsOn(AnyClient, cl.c, s0, m, cl.S());
    LeadsOn(AnyClient, cl.c, halt.s, m, cl.S());
    if r != OK { return; }
    ghost var e := cl.S();
    MoveOn(cl, n, todo, req);
    EvictedWithin(cl.c, s0, s0, e, cl.S(), n, todo[0]) by { LeadsNow(AnyClient, cl.c, s0); }
    LeadsOn(AnyClient, cl.c, s0, e, cl.S());
    LeadsOn(AnyClient, cl.c, halt.s, e, cl.S());
  }

  lemma EvictedNow(c: Config, s: State, m: State, e: State, n: nat, f: File)
    requires Leads(AnyClient, c, s, m) && Marked(m, n, f) && Leads(AnyClient, c, m, e) && Freed(e, n, f)
    ensures Evicted(c, s, e, n, f)
  {
    hide Leads, Marked, Freed;
    LeadsNow(AnyClient, c, e);
  }

  /** Read the row again and again, until the state it was in need not be waited for. */
  method AwaitCopies(cl: Cluster, n: nat, todo: seq<File>, req: Request, env: Setting, k0: nat, ghost s0: State)
    returns (r: Reply, k: nat)
    requires At(cl, n, todo, false, req) && todo != [] && Behave(cl.c, n, env.others)
    requires Leads(AnyClient, cl.c, s0, cl.S())
    modifies cl
    ensures Leads(AnyClient, cl.c, s0, cl.S()) && At(cl, n, todo, false, req)
    ensures cl.nodes[n].iters == old(cl.nodes[n].iters)
    ensures k0 <= k && forall j :: k0 <= j < k ==> env.reloadOk(j)
    ensures r == if !Waiting(cl.c, cl.S(), n, todo[0]) then OK else if k >= env.patience then Blocked else ERROR
    ensures r == ERROR ==> !env.reloadOk(k)
    ensures !Waiting(cl.c, old(cl.S()), n, todo[0]) ==> k == k0 && cl.S() == old(cl.S())
  {
    hide Leads, Behave;
    k := k0;
    while WaitsFor(cl.c, cl.nodes[n].eviction.seen[todo[0]])
      invariant At(cl, n, todo, false, req) && Leads(AnyClient, cl.c, s0, cl.S())
      invariant cl.nodes[n].iters == old(cl.nodes[n].iters)
      invariant k0 <= k && forall j :: k0 <= j < k ==> env.reloadOk(j)
      invariant !Waiting(cl.c, old(cl.S()), n, todo[0]) ==> k == k0 && cl.S() == old(cl.S())
      decreases env.patience - k
    {
      if k >= env.patience { return Blocked, k; }
      Sleep(cl, n, env.others, k, s0);
      if !env.reloadOk(k) { return ERROR, k; }
      k := k + 1;
      Reload(cl, n, todo, req, s0);
    }
    r := OK;
  }

  method Reload(cl: Cluster, n: nat, todo: seq<File>, req: Request, ghost s0: State)
    requires At(cl, n, todo, false, req) && todo != [] && Leads(AnyClient, cl.c, s0, cl.S())
    requires WaitsFor(cl.c, cl.nodes[n].eviction.seen[todo[0]])
    modifies cl`nodes
    ensures At(cl, n, todo, false, req) && Leads(AnyClient, cl.c, s0, cl.S())
    ensures cl.nodes[n].eviction.seen == old(cl.nodes[n].eviction.seen)[todo[0] := cl.rows[todo[0]].state]
    ensures cl.nodes == old(cl.nodes)[n := old(cl.nodes[n]).(eviction := cl.nodes[n].eviction)]
  {
    hide Leads;
    LeadsStep(AnyClient, cl.c, s0, cl.S(), Reread(n));
    var ev := cl.nodes[n].eviction;
    cl.nodes := cl.nodes[n := cl.nodes[n].(eviction := ev.(seen := ev.seen[todo[0] := cl.rows[todo[0]].state]))];
  }

  /** The row is marked on the strength of what was last read of it. */
  method Mark(cl: Cluster, n: nat, todo: seq<File>, req: Request, ghost s0: State)
    requires At(cl, n, todo, false, req) && todo != [] && Leads(AnyClient, cl.c, s0, cl.S())
    requires !WaitsFor(cl.c, cl.nodes[n].eviction.seen[todo[0]])
    modifies cl
    ensures At(cl, n, todo, true, req) && Leads(AnyClient, cl.c, s0, cl.S()) && Marked(cl.S(), n, todo[0])
    ensures cl.nodes == old(cl.nodes)[n := old(cl.nodes[n]).(eviction := cl.nodes[n].eviction)]
    ensures cl.rows == old(cl.rows)[todo[0] := old(cl.rows)[todo[0]].(state := OBSOLESCENT)]
    ensures exists id: nat :: id !in old(cl.tasks) && cl.tasks == old(cl.tasks)[id := Task(n, todo[0], Posting)]
    ensures cl.disk == old(cl.disk)
  {
    hide Leads;
    var file := todo[0];
    var id := FreshId(cl.tasks);
    LeadsStep(AnyClient, cl.c, s0, cl.S(), MarkEvict(n, id));
    cl.nodes := cl.nodes[n := cl.nodes[n].(eviction := cl.nodes[n].eviction.(marked := true))];
    cl.rows := cl.rows[file := cl.rows[file].(state := OBSOLESCENT)];
    cl.tasks := cl.tasks[id := Task(n, file, Posting)];
    assert cl.tasks[id] == Task(n, file, Posting);
  }

  method AwaitDeletion(cl: Cluster, n: nat, todo: seq<File>, req: Request, env: Setting, k0: nat, ghost s0: State)
    returns (r: Reply, k: nat)
    requires At(cl, n, todo, true, req) && todo != [] && Behave(cl.c, n, env.others)
    requires Leads(AnyClient, cl.c, s0, cl.S())
    modifies cl
    ensures At(cl, n, todo, true, req) && Leads(AnyClient, cl.c, s0, cl.S())
    ensures cl.nodes[n].iters == old(cl.nodes[n].iters) && k0 <= k
    ensures r == if todo[0] in cl.nodes[n].dict then Blocked else OK
    ensures r == Blocked ==> k >= env.patience
  {
    hide Leads, Behave;
    k := k0;
    while todo[0] in cl.nodes[n].dict
      invariant At(cl, n, todo, true, req) && Leads(AnyClient, cl.c, s0, cl.S())
      invariant cl.nodes[n].iters == old(cl.nodes[n].iters) && k0 <= k
      decreases env.patience - k
    {
      if k >= env.patience { return Blocked, k; }
      Sleep(cl, n, env.others, k, s0);
      k := k + 1;
    }
    r := OK;
  }

  /** On to the next file. */
  method MoveOn(cl: Cluster, n: nat, todo: seq<File>, req: Request)
    requires At(cl, n, todo, true, req) && todo != [] && Freed(cl.S(), n, todo[0])
    modifies cl`nodes
    ensures At(cl, n, todo[1..], false, req) && Leads(AnyClient, cl.c, old(cl.S()), cl.S())
    ensures cl.nodes == old(cl.nodes)[n := old(cl.nodes[n]).(eviction := cl.nodes[n].eviction)]
  {
    hide Leads;
    LeadsNow(AnyClient, cl.c, cl.S());
    LeadsStep(AnyClient, cl.c, cl.S(), cl.S(), EvictNext(n));
    cl.nodes := cl.nodes[n := cl.nodes[n].(eviction := cl.nodes[n].eviction.(todo := todo[1..], marked := false))];
  }

  /** Give up and unlock. */
  method Release(cl: Cluster, n: nat, ghost s0: State)
    requires |cl.nodes| == cl.c.W && n < cl.c.W && cl.nodes[n].eviction.Evicting?
    requires Leads(AnyClient, cl.c, s0, cl.S())
    modifies cl`nodes
    ensures Leads(AnyClient, cl.c, s0, cl.S())
    ensures cl.nodes == old(cl.nodes)[n := old(cl.nodes[n]).(eviction := Idle)]
  {
    hide Leads;
    LeadsStep(AnyClient, cl.c, s0, cl.S(), AbortEvict(n));
    cl.nodes := cl.nodes[n := cl.nodes[n].(eviction := Idle)];
  }

  /** Read the states of all files at once, and begin. */
  method BeginEviction(cl: Cluster, n: nat, req: Request, vec: seq<File>)
    requires CanBeginEvict(cl.c, cl.S(), n, req, vec)
    modifies cl`nodes
    ensures At(cl, n, vec, false, req) && Leads(AnyClient, cl.c, old(cl.S()), cl.S())
    ensures cl.nodes == old(cl.nodes)[n := old(cl.nodes[n]).(eviction := cl.nodes[n].eviction)]
  {
    hide Leads;
    LeadsNow(AnyClient, cl.c, cl.S());
    LeadsStep(AnyClient, cl.c, cl.S(), cl.S(), BeginEvict(n, req, vec));
    var seen := map f | f in vec :: cl.rows[f].state;
    cl.nodes := cl.nodes[n := cl.nodes[n].(eviction := Evicting(vec, seen, false, req))];
    assert cl.S() == DoBeginEvict(cl.c, old(cl.S()), n, req, vec);
  }

  /** Evict every file of the oldest iteration, with the lock held. */
  method DeleteOldestIteration(cl: Cluster, n: nat, req: Request, env: Setting) returns (r: Reply, ghost halt: Halt)
    requires |cl.nodes| == cl.c.W && n < cl.c.W && cl.nodes[n].eviction.Idle? && Behave(cl.c, n, env.others)
    requires req.iteration.Some? && req.iteration.value !in cl.nodes[n].iters && |cl.nodes[n].iters| >= cl.c.cap
    modifies cl
    ensures Leads(AnyClient, cl.c, old(cl.S()), cl.S())
    ensures |cl.nodes| == cl.c.W && cl.nodes[n].iters == old(cl.nodes[n].iters)
    ensures r == OK ==> At(cl, n, [], false, req) && |cl.nodes[n].iters| > 0 && halt.s == cl.S()
    ensures env.batchOk ==>
              forall f :: InOldest(old(cl.S()), n, f) && f !in halt.todo ==> Evicted(cl.c, old(cl.S()), cl.S(), n, f)
    ensures r == ERROR ==> cl.nodes[n].eviction == Idle
    ensures r == ERROR <==>
              || !env.batchOk || (forall f :: !InOldest(old(cl.S()), n, f)) || CallFails(cl.c, n, env, halt)
    ensures r == OK <==> env.batchOk && (exists f :: InOldest(old(cl.S()), n, f)) && halt.todo == []
    ensures r == Blocked ==> halt.turns >= env.patience
    ensures env.batchOk && (exists f :: InOldest(old(cl.S()), n, f)) ==>
              Stopped(cl.c, old(cl.S()), cl.S(), n, halt)
    ensures Stuck(cl.c, old(cl.S()), n) ==> r == ERROR && cl.S() == old(cl.S())
  {
    hide Leads, Apply, CanHappen, Evicted, Behave, Waiting, Stopped;
    ghost var s0 := cl.S();
    LeadsNow(AnyClient, cl.c, s0);
    halt := Halt([], s0, 0, 0);
    if !env.batchOk { return ERROR, halt; }
    var vec := BatchLoad(cl, n);
    if |vec| == 0 { return ERROR, halt; }
    assert InOldest(cl.S(), n, vec[0]);
    BeginEviction(cl, n, req, vec);
    var k := 0;
    for i := 0 to |vec|
      invariant At(cl, n, vec[i..], false, req) && Leads(AnyClient, cl.c, s0, cl.S())
      invariant cl.nodes[n].iters == s0.nodes[n].iters
      invariant forall j :: 0 <= j < i ==> Evicted(cl.c, s0, cl.S(), n, vec[j])
    {
      ghost var s := cl.S();
      assert vec[i..][0] == vec[i] && vec[i..][1..] == vec[i + 1..];
      r, k, halt := EvictFile(cl, n, vec[i..], req, env, k);
      LeadsOn(AnyClient, cl.c, s0, s, cl.S());
      StoppedWithin(cl.c, s0, s, cl.S(), n, halt);
      forall j | 0 <= j < i ensures Evicted(cl.c, s0, cl.S(), n, vec[j]) {
        EvictedWithin(cl.c, s0, s0, s, cl.S(), n, vec[j]);
      }
      if r != OK { return; }
      LeadsNow(AnyClient, cl.c, cl.S());
      EvictedWithin(cl.c, s0, s, cl.S(), cl.S(), n, vec[i]);
    }
    assert vec[|vec|..] == [];
    r, halt := OK, Halt([], cl.S(), k, k);
    StoppedAtEnd(cl.c, s0, cl.S(), n, k);
  }

  lemma StoppedAtEnd(c: Config, s: State, t: State, n: nat, turns: nat)
    requires Leads(AnyClient, c, s, t) && n < |t.nodes| && t.nodes[n].eviction.Evicting?
    requires t.nodes[n].eviction.todo == [] && !t.nodes[n].eviction.marked
    ensures Stopped(c, s, t, n, Halt([], t, turns, turns))
  {
    hide Leads;
    LeadsNow(AnyClient, c, t);
  }

  lemma StoppedWithin(c: Config, r: State, s: State, t: State, n: nat, h: Halt)
    requires Leads(AnyClient, c, r, s) && Stopped(c, s, t, n, h)
    ensures Stopped(c, r, t, n, h)
  {
    hide Leads;
    LeadsOn(AnyClient, c, r, s, h.s);
  }

  // ---------------------------------------------------------------- the handlers

  /** What the end of a save leaves: nothing new, memory alone, or memory and row. */
  function Entered(c: Config, s: State, n: nat, req: Request, allocOk: bool, rowOk: bool): State
    requires n < |s.nodes| == c.W
  {
    if req.size > 0 && allocOk && !rowOk then DoStray(c, s, n, req.file, req.size)
    else CreateEntry(s, n, req, allocOk)
  }

  /** Find or allocate memory, and write the PENDING row. */
  method SaveEntry(cl: Cluster, n: nat, req: Request, allocOk: bool, rowOk: bool) returns (r: Reply)
    requires n < |cl.nodes| == cl.c.W
    modifies cl`nodes, cl`rows
    ensures cl.S() == Entered(cl.c, old(cl.S()), n, req, allocOk, rowOk)
    ensures r == if req.size == 0 || !allocOk || !rowOk then ERROR else OK
  {
    if req.size == 0 || !allocOk { return ERROR; }
    if req.file !in cl.nodes[n].dict {
      cl.nodes := cl.nodes[n := cl.nodes[n].(dict := cl.nodes[n].dict[req.file := Zeros(req.size)])];
    }
    assert cl.nodes == CreateEntry(old(cl.S()), n, req, allocOk).nodes;
    if !rowOk { return ERROR; }
    cl.rows := cl.rows[req.file := Row(n, req.iteration, PENDING, req.size)];
    r := OK;
  }

  /** The end of a save is a step, or two when the row cannot be written. */
  lemma EnterIsRun(c: Config, s0: State, s: State, n: nat, req: Request, allocOk: bool, rowOk: bool)
    requires Leads(AnyClient, c, s0, s) && CanCreate(c, s, n, req)
    ensures Leads(AnyClient, c, s0, Entered(c, PushIteration(s, n, req.iteration), n, req, allocOk, rowOk))
  {
    hide Leads;
    var stray := req.size > 0 && allocOk && !rowOk;
    LeadsStep(AnyClient, c, s0, s, Create(n, req, allocOk && !stray));
    if stray {
      LeadsStep(AnyClient, c, s0, DoCreate(c, s, n, req, false), Stray(n, req.file, req.size));
    }
  }

  /** A new iteration is listed last, in place of the oldest when the list was full. */
  predicate Listed(was: seq<nat>, now: seq<nat>, iteration: Option<nat>, cap: nat) {
    match iteration
    case None => now == was
    case Some(i) =>
      if i in was then now == was
      else if |was| < cap then now == was + [i]
      else was != [] && now == was[1..] + [i]
  }

  /** The save needs room in a full list. */
  predicate NeedsRoom(c: Config, s: State, n: nat, req: Request)
    requires n < |s.nodes|
  {
    req.iteration.Some? && req.iteration.value !in s.nodes[n].iters && |s.nodes[n].iters| >= c.cap
  }

  /** Called when no one else holds the lock of this node. Without need for room it succeeds exactly when
      memory can be found and the row written. With it, every file of the oldest iteration has to be
      evicted first, which fails exactly when there is none or a database call fails; then the same. A
      successful save leaves the row PENDING with memory behind it and its iteration listed, and memory
      that the file had is kept. */
  method CreateMetadata(cl: Cluster, n: nat, req: Request, env: Setting) returns (r: Reply, ghost halt: Halt)
    requires |cl.nodes| == cl.c.W && n < cl.c.W && cl.nodes[n].eviction.Idle? && Behave(cl.c, n, env.others)
    modifies cl
    ensures Leads(AnyClient, cl.c, old(cl.S()), cl.S()) && |cl.nodes| == cl.c.W
    ensures r != Blocked ==> cl.nodes[n].eviction.Idle?
    ensures r == OK ==> req.file in cl.rows && cl.rows[req.file] == Row(n, req.iteration, PENDING, req.size)
    ensures r == OK ==> req.file in cl.nodes[n].dict
    ensures r == OK ==> Listed(old(cl.nodes[n].iters), cl.nodes[n].iters, req.iteration, cl.c.cap)
    ensures !NeedsRoom(cl.c, old(cl.S()), n, req) ==>
              && r == (if req.size > 0 && env.allocOk && env.rowOk then OK else ERROR)
              && SavedOver(cl.c, old(cl.S()), cl.S(), n, req, env)
    ensures NeedsRoom(cl.c, old(cl.S()), n, req) ==>
              && (r == ERROR <==>
                    || !env.batchOk || (forall f :: !InOldest(old(cl.S()), n, f)) || CallFails(cl.c, n, env, halt)
                    || (halt.todo == [] && !(req.size > 0 && env.allocOk && env.rowOk)))
              && (r == OK <==>
                    && env.batchOk && (exists f :: InOldest(old(cl.S()), n, f)) && halt.todo == []
                    && req.size > 0 && env.allocOk && env.rowOk)
              && (r == Blocked ==> halt.turns >= env.patience)
    ensures NeedsRoom(cl.c, old(cl.S()), n, req) && env.batchOk && (exists f :: InOldest(old(cl.S()), n, f)) ==>
              && Stopped(cl.c, old(cl.S()), cl.S(), n, halt)
              && (forall f :: InOldest(old(cl.S()), n, f) && f !in halt.todo ==>
                    Evicted(cl.c, old(cl.S()), cl.S(), n, f))
              && (halt.todo == [] ==> |halt.s.nodes| == cl.c.W && SavedOver(cl.c, halt.s, cl.S(), n, req, env))
    ensures Stuck(cl.c, old(cl.S()), n) && NeedsRoom(cl.c, old(cl.S()), n, req) ==> r == ERROR && cl.S() == old(cl.S())
  {
    hide Leads, Evicted, Behave, Stuck, Waiting, Stopped, SavedOver;
    ghost var s0 := cl.S();
    LeadsNow(AnyClient, cl.c, s0);
    halt := Halt([], s0, 0, 0);
    if req.iteration.Some? && req.iteration.value !in cl.nodes[n].iters {
      if |cl.nodes[n].iters| >= cl.c.cap {
        r, halt := DeleteOldestIteration(cl, n, req, env);
        if r == OK {
          r := FinishEviction(cl, n, req, env);
          LeadsOn(AnyClient, cl.c, s0, halt.s, cl.S());
          StillEvicted(cl.c, s0, cl.S(), n, halt);
        }
        return;
      }
    }
    r := SaveWithRoom(cl, n, req, env);
  }

  /** The iteration is listed, or there is room to list it. */
  method SaveWithRoom(cl: Cluster, n: nat, req: Request, env: Setting) returns (r: Reply)
    requires |cl.nodes| == cl.c.W && n < cl.c.W && cl.nodes[n].eviction.Idle? && !NeedsRoom(cl.c, cl.S(), n, req)
    modifies cl
    ensures Leads(AnyClient, cl.c, old(cl.S()), cl.S()) && |cl.nodes| == cl.c.W && cl.nodes[n].eviction.Idle?
    ensures r == if req.size > 0 && env.allocOk && env.rowOk then OK else ERROR
    ensures SavedOver(cl.c, old(cl.S()), cl.S(), n, req, env)
    ensures Listed(old(cl.nodes[n].iters), cl.nodes[n].iters, req.iteration, cl.c.cap)
    ensures r == OK ==> req.file in cl.rows && cl.rows[req.file] == Row(n, req.iteration, PENDING, req.size)
    ensures r == OK ==> req.file in cl.nodes[n].dict
  {
    hide Leads;
    ghost var s0 := cl.S();
    LeadsNow(AnyClient, cl.c, s0);
    EnterIsRun(cl.c, s0, s0, n, req, env.allocOk, env.rowOk);
    if req.iteration.Some? && req.iteration.value !in cl.nodes[n].iters {
      cl.nodes := cl.nodes[n := cl.nodes[n].(iters := cl.nodes[n].iters + [req.iteration.value])];
    }
    r := SaveEntry(cl, n, req, env.allocOk, env.rowOk);
    RoomySave(cl.c, s0, cl.S(), n, req, env);
    hide Entered;
  }

  /** From `s` to `t`, with n's list as it is in `t`, memory is found for the file or allocated, and the row
      is written. */
  ghost predicate SavedOver(c: Config, s: State, t: State, n: nat, req: Request, env: Setting)
    requires n < |s.nodes| == c.W
  {
    && |t.nodes| == c.W
    && t.rows == (if req.size > 0 && env.allocOk && env.rowOk
                  then s.rows[req.file := Row(n, req.iteration, PENDING, req.size)] else s.rows)
    && t.nodes == s.nodes[n := t.nodes[n]] && t.nodes[n].backup == s.nodes[n].backup && t.nodes[n].eviction == Idle
    && t.nodes[n].iters == (match req.iteration
                            case None => s.nodes[n].iters
                            case Some(i) =>
                              if i in s.nodes[n].iters then s.nodes[n].iters
                              else if |s.nodes[n].iters| < c.cap then s.nodes[n].iters + [i]
                              else if s.nodes[n].iters == [] then [] else s.nodes[n].iters[1..] + [i])
    && t.nodes[n].dict == (if req.size > 0 && env.allocOk && req.file !in s.nodes[n].dict
                           then s.nodes[n].dict[req.file := seq(req.size, _ => 0)] else s.nodes[n].dict)
    && t == s.(rows := t.rows, nodes := t.nodes)
  }

  lemma RoomySave(c: Config, s: State, t: State, n: nat, req: Request, env: Setting)
    requires n < |s.nodes| == c.W && s.nodes[n].eviction.Idle? && !NeedsRoom(c, s, n, req)
    requires t == Entered(c, PushIteration(s, n, req.iteration), n, req, env.allocOk, env.rowOk)
    ensures SavedOver(c, s, t, n, req, env)
  {
    EnteredParts(c, PushIteration(s, n, req.iteration), n, req, env);
    hide Entered;
  }

  lemma EnteredParts(c: Config, s: State, n: nat, req: Request, env: Setting)
    requires n < |s.nodes| == c.W
    ensures var t := Entered(c, s, n, req, env.allocOk, env.rowOk);
            && t.rows == (if req.size > 0 && env.allocOk && env.rowOk
                          then s.rows[req.file := Row(n, req.iteration, PENDING, req.size)] else s.rows)
            && t.nodes == s.nodes[n := s.nodes[n].(dict :=
                 if req.size > 0 && env.allocOk && req.file !in s.nodes[n].dict
                 then s.nodes[n].dict[req.file := seq(req.size, _ => 0)] else s.nodes[n].dict)]
            && t == s.(rows := t.rows, nodes := t.nodes)
  {
  }

  /** What the eviction has done stays done while the save ends. */
  lemma StillEvicted(c: Config, s: State, t: State, n: nat, h: Halt)
    requires n < |s.nodes| && Stopped(c, s, h.s, n, h) && Leads(AnyClient, c, h.s, t)
    requires forall f :: InOldest(s, n, f) ==> Evicted(c, s, h.s, n, f)
    ensures Stopped(c, s, t, n, h) && forall f :: InOldest(s, n, f) ==> Evicted(c, s, t, n, f)
  {
    hide Leads, Evicted;
    LeadsNow(AnyClient, c, s);
    LeadsOn(AnyClient, c, h.s, h.s, t);
    forall f | InOldest(s, n, f) ensures Evicted(c, s, t, n, f) { EvictedWithin(c, s, s, h.s, t, n, f); }
  }

  /** The oldest iteration leaves the list, the new one joins it, and the lock is released. */
  method FinishEviction(cl: Cluster, n: nat, req: Request, env: Setting) returns (r: Reply)
    requires At(cl, n, [], false, req) && |cl.nodes[n].iters| > 0 && req.iteration.Some?
    requires req.iteration.value !in cl.nodes[n].iters && |cl.nodes[n].iters| >= cl.c.cap
    modifies cl
    ensures Leads(AnyClient, cl.c, old(cl.S()), cl.S()) && |cl.nodes| == cl.c.W
    ensures cl.nodes[n].eviction.Idle? && cl.nodes[n].iters == old(cl.nodes[n].iters)[1..] + [req.iteration.value]
    ensures r == if req.size > 0 && env.allocOk && env.rowOk then OK else ERROR
    ensures r == OK ==> req.file in cl.rows && cl.rows[req.file] == Row(n, req.iteration, PENDING, req.size)
    ensures r == OK ==> req.file in cl.nodes[n].dict
    ensures SavedOver(cl.c, old(cl.S()), cl.S(), n, req, env)
  {
    hide Leads;
    LeadsNow(AnyClient, cl.c, cl.S());
    ghost var stray := req.size > 0 && env.allocOk && !env.rowOk;
    ghost var s1 := DoFinishEvict(cl.c, cl.S(), n, env.allocOk && !stray);
    LeadsStep(AnyClient, cl.c, cl.S(), cl.S(), FinishEvict(n, env.allocOk && !stray));
    if stray { LeadsStep(AnyClient, cl.c, cl.S(), s1, Stray(n, req.file, req.size)); }
    var iters := cl.nodes[n].iters[1..] + [req.iteration.value];
    cl.nodes := cl.nodes[n := cl.nodes[n].(eviction := Idle, iters := iters)];
    r := SaveEntry(cl, n, req, env.allocOk, env.rowOk);
  }

  /** Write the reported state into the row, if there is one, and queue the key. A file that the engine
      reports complete is from then on the last completed save. */
  method UpdateMetadata(cl: Cluster, n: nat, file: File, st: CkState, updateOk: bool) returns (r: Reply)
    requires n < |cl.nodes| == cl.c.W
    modifies cl
    ensures Leads(AnyClient, cl.c, old(cl.S()), cl.S())
    ensures r == if updateOk then OK else ERROR
    ensures !updateOk ==> cl.S() == old(cl.S())
    ensures updateOk ==>
              && cl.rows == SetState(old(cl.S()), file, st).rows
              && (exists id: nat :: id !in old(cl.tasks) && cl.tasks == old(cl.tasks)[id := Task(n, file, Posting)])
    ensures cl.nodes == old(cl.nodes) && cl.disk == old(cl.disk)
    ensures cl.saved == if updateOk && st == CACHED && file in old(cl.rows) && file in old(cl.nodes)[n].dict
                        then old(cl.saved)[file := old(cl.nodes)[n].dict[file]] else old(cl.saved)
  {
    hide Leads;
    LeadsNow(AnyClient, cl.c, cl.S());
    if !updateOk { return ERROR; }
    var id := FreshId(cl.tasks);
    if st == CACHED && file in cl.rows && file in cl.nodes[n].dict {
      LeadsStep(AnyClient, cl.c, cl.S(), cl.S(), Complete(n, file, id));
      cl.saved := cl.saved[file := cl.nodes[n].dict[file]];
      cl.diskFailed := cl.diskFailed - {file};
    } else {
      LeadsStep(AnyClient, cl.c, cl.S(), cl.S(), Report(n, file, st, id));
    }
    if file in cl.rows { cl.rows := cl.rows[file := cl.rows[file].(state := st)]; }
    cl.tasks := cl.tasks[id := Task(n, file, Posting)];
    r := OK;
  }

  /** Read the row, refuse what is not in memory, and look the entry up. An entry is served of a row that is
      saved and not being evicted, by its owner or the next node, if that holds the file. */
  method ReadMetadata(cl: Cluster, n: nat, file: File) returns (a: Answer)
    requires |cl.nodes| == cl.c.W && n < cl.c.W
    ensures a == GetMetadata(cl.c, cl.S(), n, file)
    ensures a.Entry? <==>
              && file in cl.rows && cl.rows[file].state in {CACHED, BACKED_UP, PERSISTENT}
              && (if n == cl.rows[file].rank then file in cl.nodes[n].dict
                  else n == (cl.rows[file].rank + 1) % cl.c.W && file in cl.nodes[n].backup)
    ensures a.FromThirdNode? <==>
              && file in cl.rows && cl.rows[file].state in {CACHED, BACKED_UP, PERSISTENT}
              && n != cl.rows[file].rank && n != (cl.rows[file].rank + 1) % cl.c.W
    ensures a.Entry? ==>
              a.data == if n == cl.rows[file].rank then cl.nodes[n].dict[file] else cl.nodes[n].backup[file]
  {
    if file !in cl.rows { return Refused; }
    var metadata := cl.rows[file];
    if metadata.state == BROKEN || metadata.state == OBSOLESCENT || metadata.state == PENDING { return Refused; }
    if (metadata.rank + 1) % cl.c.W != n {
      if metadata.rank != n { return FromThirdNode; }
    }
    if metadata.rank == n {
      if file !in cl.nodes[n].dict { return Refused; }
      return Entry(cl.nodes[n].dict[file]);
    }
    if file !in cl.nodes[n].backup { return Refused; }
    a := Entry(cl.nodes[n].backup[file]);
  }
}
