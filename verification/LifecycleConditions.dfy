/** Where a promise depends on what clients and evictions do: the exact condition, action by action. */
module LifecycleConditions {
  import opened Lifecycle
  import opened Options
  import opened LifecycleInvariant
  import opened LifecycleFrame
  import opened LifecycleTheorems
  import opened LifecycleGuarantees
  import opened LifecycleRuns
  import LifecycleCache
  import LifecycleWork

  // ---------------------------------------------------------------- evictions and BROKEN rows

  ghost predicate Broken(s: State, f: File) { f in s.rows && s.rows[f].state == BROKEN }

  /** An eviction can lead to a BROKEN row, without the file being marked once more, exactly when at the
      moment of marking some worker of its owner has read the row, in a state it would act on, and has
      not yet looked for the data. */
  lemma EvictionBreaksIff(c: Config, s: State, n: nat, id: nat)
    requires c.W >= 2 && Reachable(DisciplinedClient, c, s) && CanMarkEvict(c, s, n, id)
    requires !Broken(s, s.nodes[n].eviction.todo[0])
    ensures var f := s.nodes[n].eviction.todo[0];
            (exists t :: Leads(Sparing(f), c, DoMarkEvict(c, s, n, id), t) && Broken(t, f)) <==> HasReader(s, n, f)
  {
    hide Leads;
    var f, s' := s.nodes[n].eviction.todo[0], DoMarkEvict(c, s, n, id);
    ReachableSafe(DisciplinedClient, c, s);
    MarksOwnRow(c, s, n, id);
    if HasReader(s, n, f) {
      var t := BrokenBehindReader(c, s, n, id);
      assert Broken(t, f);
    } else {
      MarkedIsSound(c, s, n, id);
      forall t | Leads(Sparing(f), c, s', t) ensures !Broken(t, f) { SoundAfter(c, s', t, f); }
    }
  }

  lemma MarksOwnRow(c: Config, s: State, n: nat, id: nat)
    requires Safe(DisciplinedClient, c, s) && CanMarkEvict(c, s, n, id)
    ensures s.rows[s.nodes[n].eviction.todo[0]].rank == n < c.W
  {
    LifecycleCache.CacheByMarkEvict(c, s, n, id);
  }


  /** The key posted by the marking is handled first and frees the data; then the reader looks for it. */
  lemma BrokenBehindReader(c: Config, s: State, n: nat, id: nat) returns (t: State)
    requires c.W >= 2 && Safe(DisciplinedClient, c, s) && CanMarkEvict(c, s, n, id)
    requires s.rows[s.nodes[n].eviction.todo[0]].rank == n < c.W && HasReader(s, n, s.nodes[n].eviction.todo[0])
    ensures var f := s.nodes[n].eviction.todo[0];
            Leads(Sparing(f), c, DoMarkEvict(c, s, n, id), t) && Broken(t, f)
  {
    hide Leads;
    var f, s' := s.nodes[n].eviction.todo[0], DoMarkEvict(c, s, n, id);
    var i :| Reader(s, n, f, i);
    assert FileOk(c, s, f) && TaskOk(c, s, i);
    LeadsNow(Sparing(f), c, s');
    var s1 := s';
    if f in s'.nodes[n].dict {
      var peer := Unused(s'.tasks);
      s1 := Free(Sparing(f), c, s', s', id, f, peer);
    }
    StepCheck(Sparing(f), c, s', s1, i);
    t := DoCheck(c, s1, i, true);
  }

  /** The row is not BROKEN, and once it is OBSOLESCENT no worker of its owner is about to be surprised. */
  ghost predicate Sound(c: Config, s: State, f: File) {
    f in s.rows && s.rows[f].state != BROKEN && (s.rows[f].state == OBSOLESCENT ==> !HasReader(s, s.rows[f].rank, f))
  }

  lemma MarkedIsSound(c: Config, s: State, n: nat, id: nat)
    requires c.W >= 2 && Safe(DisciplinedClient, c, s) && CanMarkEvict(c, s, n, id)
    requires s.rows[s.nodes[n].eviction.todo[0]].rank == n && !HasReader(s, n, s.nodes[n].eviction.todo[0])
    ensures var f, s' := s.nodes[n].eviction.todo[0], DoMarkEvict(c, s, n, id);
            Safe(Sparing(f), c, s') && Sound(c, s', f)
  {
    var f, s' := s.nodes[n].eviction.todo[0], DoMarkEvict(c, s, n, id);
    StepSafe(DisciplinedClient, c, s, MarkEvict(n, id));
    forall i ensures !Reader(s', n, f, i) { assert !Reader(s, n, f, i); }
  }

  /** A reader has just fetched the row, or was one before. */
  lemma ReaderByFetch(c: Config, s: State, e: Event, n: nat, f: File, i: nat)
    requires CanHappen(c, s, e) && Reader(Apply(c, s, e), n, f, i)
    ensures Reader(s, n, f, i) || (e.Fetch? && f in s.rows && s.rows[f].state !in {OBSOLESCENT, BROKEN})
  {
    if !e.Fetch? {
      hide Apply, CanHappen;
      LoadedBefore(c, s, e, i);
    }
  }

  predicate Handles(e: Event) {
    e.Create? || e.BeginEvict? || e.Reread? || e.EvictNext? || e.AbortEvict? || e.FinishEvict?
    || e.Stray? || e.UserWrite?
  }

  predicate Posts(e: Event) { e.MarkEvict? || e.Complete? || e.Report? }

  predicate Copies(e: Event) { e.Begin? || e.Finish? }

  predicate Lands(e: Event) { e.Install? || e.Arrive? || e.LateSave? }

  /** Only a fetch makes a task Loaded. */
  lemma LoadedBefore(c: Config, s: State, e: Event, i: nat)
    requires CanHappen(c, s, e) && !e.Fetch? && i in Apply(c, s, e).tasks && Apply(c, s, e).tasks[i].stage.Loaded?
    ensures i in s.tasks && s.tasks[i] == Apply(c, s, e).tasks[i]
  {
    hide Apply, CanHappen;
    if Handles(e) {
      LoadedBeforeHandler(c, s, e, i);
    } else if Posts(e) {
      LoadedBeforePost(c, s, e, i);
    } else if Copies(e) {
      LoadedBeforeCopy(c, s, e, i);
    } else if Lands(e) {
      LoadedBeforeLanding(c, s, e, i);
    } else if e.Fail? {
      LoadedBeforeFail(c, s, e, i);
    } else if e.Notify? || e.Delete? {
      LoadedBeforeDeletion(c, s, e, i);
    } else {
      LoadedBeforeStage(c, s, e, i);
    }
  }

  lemma LoadedBeforeHandler(c: Config, s: State, e: Event, i: nat)
    requires CanHappen(c, s, e) && Handles(e) && i in Apply(c, s, e).tasks
    ensures i in s.tasks && s.tasks[i] == Apply(c, s, e).tasks[i]
  {
  }

  lemma LoadedBeforePost(c: Config, s: State, e: Event, i: nat)
    requires CanHappen(c, s, e) && Posts(e) && i in Apply(c, s, e).tasks && Apply(c, s, e).tasks[i].stage.Loaded?
    ensures i in s.tasks && s.tasks[i] == Apply(c, s, e).tasks[i]
  {
  }

  lemma LoadedBeforeCopy(c: Config, s: State, e: Event, i: nat)
    requires CanHappen(c, s, e) && Copies(e) && i in Apply(c, s, e).tasks && Apply(c, s, e).tasks[i].stage.Loaded?
    ensures i in s.tasks && s.tasks[i] == Apply(c, s, e).tasks[i]
  {
  }

  lemma LoadedBeforeLanding(c: Config, s: State, e: Event, i: nat)
    requires CanHappen(c, s, e) && Lands(e) && i in Apply(c, s, e).tasks && Apply(c, s, e).tasks[i].stage.Loaded?
    ensures i in s.tasks && s.tasks[i] == Apply(c, s, e).tasks[i]
  {
  }

  lemma LoadedBeforeFail(c: Config, s: State, e: Event, i: nat)
    requires CanHappen(c, s, e) && e.Fail? && i in Apply(c, s, e).tasks && Apply(c, s, e).tasks[i].stage.Loaded?
    ensures i in s.tasks && s.tasks[i] == Apply(c, s, e).tasks[i]
  {
  }

  lemma LoadedBeforeDeletion(c: Config, s: State, e: Event, i: nat)
    requires CanHappen(c, s, e) && i in Apply(c, s, e).tasks && Apply(c, s, e).tasks[i].stage.Loaded?
    requires e.Notify? || e.Delete?
    ensures i in s.tasks && s.tasks[i] == Apply(c, s, e).tasks[i]
  {
  }

  lemma LoadedBeforeStage(c: Config, s: State, e: Event, i: nat)
    requires CanHappen(c, s, e) && i in Apply(c, s, e).tasks && Apply(c, s, e).tasks[i].stage.Loaded?
    requires e.Push? || e.Check? || e.Skip? || e.Update?
    ensures i in s.tasks && s.tasks[i] == Apply(c, s, e).tasks[i]
  {
  }

  lemma OthersKeepRow(c: Config, s: State, e: Event, f: File)
    requires CanHappen(c, s, e) && e.MarkEvict? && s.nodes[e.n].eviction.todo[0] != f && f in s.rows
    ensures f in Apply(c, s, e).rows && Apply(c, s, e).rows[f] == s.rows[f]
  {
  }

  lemma SameRank(c: Config, s: State, e: Event, f: File)
    requires Permits(DisciplinedClient, c, s, e) && f in s.rows
    ensures f in Apply(c, s, e).rows && Apply(c, s, e).rows[f].rank == s.rows[f].rank
  {
    if !e.Create? && !e.FinishEvict? {
      hide Apply, CanHappen;
      SameIterations(c, s, e);
    }
  }

  lemma SoundStep(c: Config, s: State, e: Event, f: File)
    requires c.W >= 2 && Safe(Sparing(f), c, s) && Sound(c, s, f) && Permits(Sparing(f), c, s, e)
    ensures Sound(c, Apply(c, s, e), f)
  {
    hide Apply, CanHappen;
    StepEdge(c, s, e, f);
    SameRank(c, s, e, f);
    if e.Check? { CheckEdge(c, s, e, f); }
    if e.MarkEvict? { OthersKeepRow(c, s, e, f); }
    var s', n := Apply(c, s, e), s.rows[f].rank;
    if s'.rows[f].state == OBSOLESCENT {
      forall i ensures !Reader(s', n, f, i) {
        if Reader(s', n, f, i) { ReaderByFetch(c, s, e, n, f, i); }
      }
    }
  }

  lemma SoundAfter(c: Config, s: State, t: State, f: File)
    requires c.W >= 2 && Safe(Sparing(f), c, s) && Sound(c, s, f) && Leads(Sparing(f), c, s, t)
    ensures Sound(c, t, f)
  {
    var es :| Runs(Sparing(f), c, s, es) && After(Sparing(f), c, s, es) == t;
    SoundRun(c, s, es, f);
  }

  lemma {:induction false} SoundRun(c: Config, s: State, es: seq<Event>, f: File)
    requires c.W >= 2 && Safe(Sparing(f), c, s) && Sound(c, s, f) && Runs(Sparing(f), c, s, es)
    ensures Sound(c, After(Sparing(f), c, s, es), f)
    decreases |es|
  {
    hide Sound, Safe, Apply, CanHappen, Respects;
    if es != [] {
      SoundStep(c, s, es[0], f);
      StepSafe(Sparing(f), c, s, es[0]);
      SoundRun(c, Apply(c, s, es[0]), es[1..], f);
    }
  }

  /** So a run whose evictions all meet the condition has no BROKEN row. */
  lemma QuietNeverBreaks(c: Config, s: State, f: File)
    requires c.W >= 2 && Reachable(QuietEviction, c, s)
    ensures !Broken(s, f)
  {
    ReachableSafe(QuietEviction, c, s);
    assert FileOk(c, s, f);
    assert LifecycleWork.Tidy(c, s, f);
  }

  // ---------------------------------------------------------------- evictions and the disk

  /** In a run, the step takes a copy of `f` from memory, while the last save is not on disk. */
  ghost predicate FreesUnsaved(c: Config, s: State, e: Event, n: nat, f: File) {
    && Reachable(DisciplinedClient, c, s) && Permits(DisciplinedClient, c, s, e)
    && n < |s.nodes| && FreesAt(c, s, e, n, f) && !OnDisk(Apply(c, s, e), f)
  }

  /** When a cache can be full, memory may be freed before the last save is on disk exactly when
      persistence is off or the node is alone. */
  lemma FreesUnsavedIff(c: Config)
    requires c.W >= 1 && c.cap >= 1
    ensures (exists s, e, n, f :: FreesUnsaved(c, s, e, n, f)) <==> !c.persist || c.W == 1
  {
    hide Leads, Apply, CanHappen, Respects;
    if c.persist && c.W >= 2 {
      forall s, e, n, f ensures !FreesUnsaved(c, s, e, n, f) {
        if FreesUnsaved(c, s, e, n, f) { FreedOnlyWhenOnDisk(c, s, e, n, f); }
      }
    } else {
      var s, id := EvictedUnsaved(c, "f");
      DeletesUnsaved(c, s, id, "f");
      assert FreesUnsaved(c, s, Delete(id), 0, "f");
    }
  }

  lemma DeletesUnsaved(c: Config, s: State, id: nat, f: File)
    requires CanDelete(c, s, id) && |s.nodes| == c.W >= 1 && f !in s.disk
    requires f in s.nodes[0].dict && f !in DoDelete(c, s, id).nodes[0].dict
    ensures Permits(DisciplinedClient, c, s, Delete(id)) && FreesAt(c, s, Delete(id), 0, f)
    ensures !OnDisk(Apply(c, s, Delete(id)), f)
  {
  }

  ghost predicate FreesAt(c: Config, s: State, e: Event, n: nat, f: File)
    requires CanHappen(c, s, e) && n < |s.nodes|
  {
    |Apply(c, s, e).nodes| == |s.nodes| && Frees(s, Apply(c, s, e), n, f)
  }

  ghost predicate OnDisk(s: State, f: File) { f in s.saved && Known(s.disk, f, s.saved[f]) }

  /** In a run, a worker copies from memory that has been freed under it. */
  ghost predicate ReadsFreed(c: Config, s: State, i: nat) {
    && Reachable(DisciplinedClient, c, s) && i in s.tasks && s.tasks[i].stage.Copying?
    && s.tasks[i].node < |s.nodes| && s.tasks[i].key !in s.nodes[s.tasks[i].node].dict
  }

  /** That happens exactly when a single node writes to disk: there an eviction does not wait for the
      write. */
  lemma ReadsFreedIff(c: Config)
    requires c.W >= 1 && c.cap >= 1
    ensures (exists s, i :: ReadsFreed(c, s, i)) <==> c.persist && c.W == 1
  {
    hide Leads;
    if c.persist && c.W == 1 {
      var s := FreedUnderCopy(c, "f");
      assert ReadsFreed(c, s, 0);
    } else {
      forall s, i ensures !ReadsFreed(c, s, i) {
        if ReadsFreed(c, s, i) { CopiesOnRing(c, s, i); }
      }
    }
  }

  lemma CopiesOnRing(c: Config, s: State, i: nat)
    requires Reachable(DisciplinedClient, c, s) && i in s.tasks && s.tasks[i].stage.Copying? && !(c.persist && c.W == 1)
    ensures s.tasks[i].node < |s.nodes| && s.tasks[i].key in s.nodes[s.tasks[i].node].dict
  {
    hide Leads;
    ReachableSafe(DisciplinedClient, c, s);
    assert FileOk(c, s, s.tasks[i].key);
    assert TaskOk(c, s, i);
    NeverReadsFreedMemory(c, s, i);
  }

  /** While task 0 writes the file to disk, it is evicted and task 1 frees it. */
  lemma FreedUnderCopy(c: Config, f: File) returns (s: State)
    requires c.W == 1 && c.persist && c.cap >= 1
    ensures ReadsFreed(c, s, 0)
  {
    hide Leads;
    var rule, i := DisciplinedClient, InitState(c);
    s := SaveInFullCache(rule, c, f);
    s := Pick(rule, c, i, s, 0, f);
    StepBegin(rule, c, i, s, 0);
    s := DoBegin(c, s, 0);
    s := MarkOldest(rule, c, i, s, f, CACHED, 1);
    s := Pick(rule, c, i, s, 1, f);
    StepDelete(rule, c, i, s, 1);
    s := DoDelete(c, s, 1);
  }

  // ---------------------------------------------------------------- reads at the owner

  /** The owner of a live row refuses to serve it. */
  ghost predicate OwnerRefuses(c: Config, s: State, f: File) {
    && Reachable(DisciplinedClient, c, s) && |s.nodes| == c.W
    && f in s.rows && IsLive(s.rows[f].state) && s.rows[f].rank < c.W
    && GetMetadata(c, s, s.rows[f].rank, f) == Refused
  }

  /** That happens exactly when a single node writes to disk: an eviction may free the file before the
      row turns PERSISTENT. */
  lemma OwnerRefusesIff(c: Config)
    requires c.W >= 1 && c.cap >= 1
    ensures (exists s, f :: OwnerRefuses(c, s, f)) <==> c.persist && c.W == 1
  {
    hide Leads, GetMetadata;
    if c.persist && c.W == 1 {
      var s := FreedBeforePersistent(c, "f");
      assert OwnerRefuses(c, s, "f");
    } else {
      forall s, f ensures !OwnerRefuses(c, s, f) {
        if OwnerRefuses(c, s, f) { OwnerServes(c, s, f); }
      }
    }
  }

  lemma OwnerServes(c: Config, s: State, f: File)
    requires Reachable(DisciplinedClient, c, s) && f in s.rows && IsLive(s.rows[f].state) && !(c.persist && c.W == 1)
    ensures |s.nodes| == c.W && s.rows[f].rank < c.W && GetMetadata(c, s, s.rows[f].rank, f) != Refused
  {
    hide Leads;
    ReachableSafe(DisciplinedClient, c, s);
    assert FileOk(c, s, f);
    CorrectReads(c, s, s.rows[f].rank, f);
  }

  /** Task 0 has written the file to disk; it is evicted and freed before task 0 updates the row. */
  lemma FreedBeforePersistent(c: Config, f: File) returns (s: State)
    requires c.W == 1 && c.persist && c.cap >= 1
    ensures OwnerRefuses(c, s, f)
  {
    hide Leads;
    var rule, i := DisciplinedClient, InitState(c);
    s := SaveInFullCache(rule, c, f);
    s := Pick(rule, c, i, s, 0, f);
    StepBegin(rule, c, i, s, 0);
    s := DoBegin(c, s, 0);
    StepFinish(rule, c, i, s, 0);
    s := DoFinish(c, s, 0, None);
    s := MarkOldest(rule, c, i, s, f, CACHED, 1);
    s := Pick(rule, c, i, s, 1, f);
    StepDelete(rule, c, i, s, 1);
    s := DoDelete(c, s, 1);
    StepUpdate(rule, c, i, s, 0);
    s := DoUpdate(c, s, 0, true);
  }

  // ---------------------------------------------------------------- reads at the next node

  /** If the next node answers with an entry, it is the last completed save. */
  ghost predicate ReadsLastSave(c: Config, s: State, f: File)
    requires f in s.rows
  {
    && |s.nodes| == c.W && s.rows[f].rank < c.W
    && var a := GetMetadata(c, s, Next(c, s.rows[f].rank), f);
    a.Entry? ==> f in s.saved && a.data == s.saved[f]
  }

  /** The next node never answers with anything but the last completed save, in every row state but
      CACHED. */
  lemma NextNodeReadsIff(c: Config, st: CkState)
    requires c.W >= 2
    ensures (forall s, f :: Reachable(DisciplinedClient, c, s) && f in s.rows && s.rows[f].state == st ==>
               ReadsLastSave(c, s, f))
       <==> st != CACHED
  {
    if st == CACHED {
      var s := StaleReadAtNextNode(c, "f");
      assert !ReadsLastSave(c, s, "f");
    } else {
      forall s, f | Reachable(DisciplinedClient, c, s) && f in s.rows && s.rows[f].state == st
        ensures ReadsLastSave(c, s, f)
      {
        ReachableSafe(DisciplinedClient, c, s);
        assert FileOk(c, s, f);
        if st in {BACKED_UP, PERSISTENT} { CorrectReads(c, s, Next(c, s.rows[f].rank), f); }
      }
    }
  }

  /** A file that is saved again is served with its old bytes by the next node until the new ones
      are backed up. */
  lemma StaleReadAtNextNode(c: Config, f: File) returns (s: State)
    requires c.W >= 2
    ensures Reachable(DisciplinedClient, c, s) && |s.nodes| == c.W
    ensures f in s.rows && s.rows[f].rank == 0 && s.rows[f].state == CACHED && f in s.saved
    ensures GetMetadata(c, s, 1, f).Entry? && GetMetadata(c, s, 1, f).data != s.saved[f]
  {
    hide Leads;
    assert Next(c, 0) == 1;
    var rule, i := DisciplinedClient, InitState(c);
    LeadsNow(rule, c, i);
    var s1 := SavedOnce(rule, c, i, i, f, [0]);
    var s2 := BackUpRound(rule, c, i, s1, 0, f);
    var s3 := GiveUp(rule, c, i, s2, 0, f);
    assert s3.tasks == map[] && s3.nodes[1].backup[f] == [0];
    s := SavedOnce(rule, c, i, s3, f, [1]);
  }

  // ---------------------------------------------------------------- a full list that nothing can leave

  /** The list of node n is full, and no row carries its oldest iteration. */
  ghost predicate Stuck(c: Config, s: State, n: nat) {
    && n < |s.nodes| == c.W && s.nodes[n].eviction.Idle?
    && 0 < |s.nodes[n].iters| && c.cap <= |s.nodes[n].iters|
    && forall f :: !InOldest(s, n, f)
  }

  /** On a full list a save of a new iteration waits for an eviction, and one can begin unless the node
      is stuck. */
  lemma StuckRefuses(c: Config, s: State, n: nat, req: Request)
    requires n < |s.nodes| == c.W && s.nodes[n].eviction.Idle?
    requires 0 < |s.nodes[n].iters| && c.cap <= |s.nodes[n].iters|
    requires req.iteration.Some? && req.iteration.value !in s.nodes[n].iters
    ensures !CanCreate(c, s, n, req)
    ensures (forall todo :: !CanBeginEvict(c, s, n, req, todo)) <==> Stuck(c, s, n)
  {
    var xs := set f | f in s.rows && InOldest(s, n, f);
    var todo := Enumerate(xs);
    if Stuck(c, s, n) {
      forall other: seq<File> ensures !CanBeginEvict(c, s, n, req, other) {
        assert |other| > 0 ==> other[0] in other;
      }
    } else {
      var f :| InOldest(s, n, f);
      assert f in todo;
      assert CanBeginEvict(c, s, n, req, todo);
    }
  }

  lemma {:induction false} Enumerate(xs: set<File>) returns (todo: seq<File>)
    ensures forall f :: f in todo <==> f in xs
    decreases |xs|
  {
    if xs == {} {
      todo := [];
    } else {
      var x :| x in xs;
      var rest := Enumerate(xs - {x});
      todo := [x] + rest;
      forall f ensures f in todo <==> f in xs { assert f in xs <==> f == x || f in xs - {x}; }
    }
  }

  /** The save that ends it: one more file in the oldest iteration. */
  predicate Unsticks(s: State, n: nat, e: Event)
    requires n < |s.nodes| && |s.nodes[n].iters| > 0
  {
    e.Create? && e.n == n && e.req.iteration == Some(s.nodes[n].iters[0]) && e.req.size > 0 && e.allocOk
  }

  /** Whatever anyone does, a stuck node stays stuck, except by a save in its oldest iteration. */
  lemma StuckUntil(c: Config, s: State, e: Event, n: nat)
    requires Stuck(c, s, n) && CanHappen(c, s, e)
    ensures Stuck(c, Apply(c, s, e), n) <==> !Unsticks(s, n, e)
  {
    hide Apply, CanHappen;
    if e.Create? {
      CreateWhenStuck(c, s, e, n);
    } else if e.FinishEvict? {
      FinishWhenStuck(c, s, e, n);
    } else {
      OthersWhenStuck(c, s, e, n);
    }
  }

  lemma CreateWhenStuck(c: Config, s: State, e: Event, n: nat)
    requires Stuck(c, s, n) && CanHappen(c, s, e) && e.Create?
    ensures Stuck(c, Apply(c, s, e), n) <==> !Unsticks(s, n, e)
  {
    var s' := Apply(c, s, e);
    if Unsticks(s, n, e) {
      assert InOldest(s', n, e.req.file);
    } else {
      forall f ensures !InOldest(s', n, f) { assert !InOldest(s, n, f); }
    }
  }

  lemma FinishWhenStuck(c: Config, s: State, e: Event, n: nat)
    requires Stuck(c, s, n) && CanHappen(c, s, e) && e.FinishEvict?
    ensures Stuck(c, Apply(c, s, e), n)
  {
    var s' := Apply(c, s, e);
    forall f ensures !InOldest(s', n, f) { assert !InOldest(s, n, f); }
  }

  /** Every other event leaves rank and iteration of every row alone, and the list of a node that is
      not evicting. */
  lemma OthersWhenStuck(c: Config, s: State, e: Event, n: nat)
    requires Stuck(c, s, n) && CanHappen(c, s, e) && !e.Create? && !e.FinishEvict?
    ensures Stuck(c, Apply(c, s, e), n)
  {
    hide Apply, CanHappen;
    var s' := Apply(c, s, e);
    SameIterations(c, s, e);
    KeepsIdle(c, s, e, n);
    forall f ensures !InOldest(s', n, f) { assert !InOldest(s, n, f); }
  }

  lemma KeepsIdle(c: Config, s: State, e: Event, n: nat)
    requires Stuck(c, s, n) && CanHappen(c, s, e) && !e.Create? && !e.FinishEvict?
    ensures |Apply(c, s, e).nodes| == |s.nodes| && Apply(c, s, e).nodes[n].eviction.Idle?
  {
    hide Apply, CanHappen;
    if FromOutside(e) { KeepsIdleOutside(c, s, e, n); } else { SameEvictions(c, s, e); }
  }

  lemma KeepsIdleOutside(c: Config, s: State, e: Event, n: nat)
    requires Stuck(c, s, n) && CanHappen(c, s, e) && FromOutside(e) && !e.Create? && !e.FinishEvict?
    ensures |Apply(c, s, e).nodes| == |s.nodes| && Apply(c, s, e).nodes[n].eviction.Idle?
  {
    if e.BeginEvict? {
      assert e.todo[0] in e.todo;
      assert InOldest(s, e.n, e.todo[0]);
    }
  }

  lemma SameIterations(c: Config, s: State, e: Event)
    requires CanHappen(c, s, e) && !e.Create? && !e.FinishEvict?
    ensures SameLists(s, Apply(c, s, e))
  {
    hide Apply, CanHappen;
    if Handles(e) {
      SameListsByHandler(c, s, e);
    } else if Posts(e) {
      SameListsByPost(c, s, e);
    } else if Copies(e) {
      SameListsByCopy(c, s, e);
    } else if Lands(e) {
      SameListsByLanding(c, s, e);
    } else if e.Fail? {
      SameListsByFail(c, s, e);
    } else if e.Notify? || e.Delete? {
      SameListsByDeletion(c, s, e);
    } else if e.Check? || e.Update? {
      SameListsByRowChange(c, s, e);
    } else {
      SameListsByStage(c, s, e);
    }
  }

  /** The lists of iterations are as before, and so are rank and iteration of every row. */
  ghost predicate SameLists(s: State, s': State) {
    && |s'.nodes| == |s.nodes|
    && (forall n :: 0 <= n < |s.nodes| ==> s'.nodes[n].iters == s.nodes[n].iters)
    && s'.rows.Keys == s.rows.Keys
    && (forall f :: f in s.rows ==> s'.rows[f].rank == s.rows[f].rank && s'.rows[f].iteration == s.rows[f].iteration)
  }

  lemma SameListsByHandler(c: Config, s: State, e: Event)
    requires CanHappen(c, s, e) && Handles(e) && !e.Create? && !e.FinishEvict?
    ensures SameLists(s, Apply(c, s, e))
  {
  }

  lemma SameListsByPost(c: Config, s: State, e: Event)
    requires CanHappen(c, s, e) && Posts(e)
    ensures SameLists(s, Apply(c, s, e))
  {
  }

  lemma SameListsByCopy(c: Config, s: State, e: Event)
    requires CanHappen(c, s, e) && Copies(e)
    ensures SameLists(s, Apply(c, s, e))
  {
  }

  lemma SameListsByLanding(c: Config, s: State, e: Event)
    requires CanHappen(c, s, e) && Lands(e)
    ensures SameLists(s, Apply(c, s, e))
  {
  }

  lemma SameListsByFail(c: Config, s: State, e: Event)
    requires CanHappen(c, s, e) && e.Fail?
    ensures SameLists(s, Apply(c, s, e))
  {
  }

  lemma SameListsByDeletion(c: Config, s: State, e: Event)
    requires CanHappen(c, s, e) && (e.Notify? || e.Delete?)
    ensures SameLists(s, Apply(c, s, e))
  {
  }

  lemma SameListsByRowChange(c: Config, s: State, e: Event)
    requires CanHappen(c, s, e) && (e.Check? || e.Update?)
    ensures SameLists(s, Apply(c, s, e))
  {
  }

  lemma SameListsByStage(c: Config, s: State, e: Event)
    requires CanHappen(c, s, e) && (e.Push? || e.Fetch? || e.Skip?)
    ensures SameLists(s, Apply(c, s, e))
  {
  }

  /** It happens: saves that fail for want of memory fill the list and leave no row. */
  lemma StuckByFailedSaves(c: Config)
    requires c.W >= 1 && c.cap >= 1
    ensures Reachable(DisciplinedClient, c, Listing(c, c.cap)) && Stuck(c, Listing(c, c.cap), 0)
  {
    FillList(DisciplinedClient, c, c.cap);
  }
}
