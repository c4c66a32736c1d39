/** When a file that is saved again stays durable. */
module LifecycleResave {
  import opened Lifecycle
  import opened Options
  import opened LifecycleInvariant
  import opened LifecycleFrame
  import opened LifecycleCache
  import opened LifecycleTheorems
  import opened LifecycleGuarantees
  import opened LifecycleRuns
  import opened LifecycleTwin
  import opened LifecycleClearing
  import opened LifecycleOldest

  // ---------------------------------------------------------------- the next node has no memory for the file

  /** A waiting key of a file that is CACHED, and the key of its last save. */
  ghost predicate TwoKeys(c: Config, s: State, i: nat, j: nat, f: File) {
    && c.W >= 2 && i != j && AtOwner(c, s, i, f) && AtOwner(c, s, j, f) && s.rows[f].state == CACHED
    && Paused(s, f) && f in s.saved
  }

  /** The waiting key is picked up after the new save completes, and its copy misses; the new save's own
      key backs the file up; then the memory of the first copy takes the place of the backup. */
  lemma Overwritten(c: Config, s: State, n: nat, req: Request, i: nat) returns (t: State)
    requires c.W >= 2 && Inv(c, s) && CanCreate(c, s, n, req) && MaySaveHastily(s, n, req) && req.size > 0
    requires i in s.tasks && s.tasks[i].key == req.file && s.tasks[i].node == n
    requires req.file !in s.nodes[Next(c, n)].backup
    ensures Leads(DisciplinedClient, c, DoCreate(c, s, n, req, true), t) && !HeldTwice(c, t, req.file)
  {
    hide Leads;
    var rule, f, s0 := DisciplinedClient, req.file, DoCreate(c, s, n, req, true);
    LeadsNow(rule, c, s0);
    var data := seq(req.size, _ => 1);
    StepUserWrite(rule, c, s0, s0, n, f, data);
    var s1 := DoUserWrite(c, s0, n, f, data);
    var j := Unused(s1.tasks);
    StepComplete(rule, c, s0, s1, n, f, j);
    var s2 := DoComplete(c, s1, n, f, j);
    assert s2.saved[f] == data && s2.tasks[i] == s.tasks[i];
    t := Overtaken(c, s0, s2, i, j, f);
  }

  lemma Overtaken(c: Config, s0: State, s: State, i: nat, j: nat, f: File) returns (t: State)
    requires Leads(RULE, c, s0, s) && TwoKeys(c, s, i, j, f)
    requires s.saved[f] == seq(s.rows[f].size, _ => 1) && f !in s.nodes[Next(c, s.rows[f].rank)].backup
    ensures Leads(RULE, c, s0, t) && !HeldTwice(c, t, f)
  {
    hide Leads;
    var snap := s.rows[f];
    var s1 := Pick(RULE, c, s0, s, i, f);
    StepBegin(RULE, c, s0, s1, i);
    var s2 := DoBegin(c, s1, i);
    assert s2.tasks == s.tasks[i := Task(snap.rank, f, Copying(snap, Missed))];
    assert Unwritten(c, s2, Next(c, snap.rank), f);
    var s3 := BackUpRound(RULE, c, s0, s2, j, f);
    assert s3.tasks[i] == Task(snap.rank, f, Copying(snap, Missed));
    t := Replace(c, s0, s3, i, f, snap);
  }

  lemma Replace(c: Config, s0: State, s: State, i: nat, f: File, snap: Row) returns (t: State)
    requires c.W >= 2 && Leads(RULE, c, s0, s) && |s.nodes| == c.W
    requires i in s.tasks && s.tasks[i] == Task(snap.rank, f, Copying(snap, Missed)) && snap.rank < c.W
    requires snap.state == CACHED && snap.size > 0 && f in s.rows && s.rows[f] == snap.(state := BACKED_UP)
    requires f in s.saved && s.saved[f] == seq(snap.size, _ => 1)
    ensures Leads(RULE, c, s0, t) && !HeldTwice(c, t, f)
  {
    hide Leads;
    StepInstall(RULE, c, s0, s, i);
    t := DoInstall(c, s, i);
    assert t.nodes[Next(c, snap.rank)].backup[f][0] == 0 && t.saved[f][0] == 1;
  }

  // ---------------------------------------------------------------- the file can be evicted

  /** The file gets to the front of the list; the waiting key copies it once more; meanwhile the save's
      own key takes it to where its eviction need not wait, and it is evicted; then the slower key
      writes BACKED_UP over the row. */
  lemma EvictedUnderWork(c: Config, s: State, n: nat, req: Request, i: nat) returns (t: State)
    requires c.W >= 2 && Safe(RULE, c, s) && CanCreate(c, s, n, req) && MaySaveHastily(s, n, req) && req.size > 0
    requires i in s.tasks && s.tasks[i].key == req.file && s.tasks[i].node == n
    requires req.iteration.Some? && req.file in s.nodes[Next(c, n)].backup
    ensures Leads(DisciplinedClient, c, DoCreate(c, s, n, req, true), t) && !HeldTwice(c, t, req.file)
  {
    hide Leads, Safe;
    var f, s0 := req.file, DoCreate(c, s, n, req, true);
    LeadsNow(RULE, c, s0);
    ListAfterSave(c, s, n, req);
    CrowdAfterSave(c, s, n, req);
    OwnAfterSave(c, s, n, req, i);
    var s1 := Foreground(c, s0, s0, n, f);
    t := Lose(c, s0, s0, s1, n, f, i);
  }

  /** What the losing run needs of the file itself. */
  ghost predicate Again(c: Config, s: State, n: nat, f: File, i: nat) {
    && |s.nodes| == c.W >= 2 && n < c.W && AtOwner(c, s, i, f) && s.rows[f].rank == n && s.rows[f].state == PENDING
    && f in s.nodes[Next(c, n)].backup && Paused(s, f)
  }

  lemma OwnAfterSave(c: Config, s: State, n: nat, req: Request, i: nat)
    requires c.W >= 2 && CanCreate(c, s, n, req) && MaySaveHastily(s, n, req) && req.size > 0
    requires i in s.tasks && s.tasks[i].key == req.file && s.tasks[i].node == n
    requires req.file in s.nodes[Next(c, n)].backup
    ensures Again(c, DoCreate(c, s, n, req, true), n, req.file, i)
  {
  }

  lemma AgainFrame(c: Config, s: State, s': State, n: nat, f: File, i: nat)
    requires Again(c, s, n, f, i) && SameFile(s, s', f)
    ensures Again(c, s', n, f, i)
  {
  }

  lemma ListAfterSave(c: Config, s: State, n: nat, req: Request)
    requires c.W >= 2 && Safe(RULE, c, s) && CanCreate(c, s, n, req) && req.size > 0 && req.iteration.Some?
    ensures var s' := DoCreate(c, s, n, req, true);
            && |s'.nodes| == c.W && s'.nodes[n].eviction.Idle? && NoDuplicates(s'.nodes[n].iters)
            && req.file in s'.rows && s'.rows[req.file].rank == n && s'.rows[req.file].iteration == req.iteration
            && req.iteration.value in s'.nodes[n].iters
  {
    assert CacheOk(c, s, n);
  }

  lemma CrowdAfterSave(c: Config, s: State, n: nat, req: Request)
    requires c.W >= 2 && Safe(RULE, c, s) && CanCreate(c, s, n, req)
    ensures |DoCreate(c, s, n, req, true).nodes| > n
    ensures forall g :: g in Crowd(DoCreate(c, s, n, req, true), n, req.file) ==>
              Drivable(c, DoCreate(c, s, n, req, true), n, g)
  {
    hide Drivable, SameFile;
    var s1, s' := PushIteration(s, n, req.iteration), DoCreate(c, s, n, req, true);
    assert s1 == SetNode(s, n, s1.nodes[n]);
    OthersByBookkeeping(s, n, s1.nodes[n]);
    OthersByCreateEntry(s1, n, req, true);
    forall g | g in Crowd(s', n, req.file) ensures Drivable(c, s', n, g) {
      assert SameFile(s, s1, g) && SameFile(s1, s', g);
      SameRow(s1, s', g);
      OkIsDrivable(c, s, g);
      DrivableFrame(c, s, s1, n, g);
      DrivableFrame(c, s1, s', n, g);
    }
  }

  lemma SameRow(s: State, s': State, g: File)
    requires SameFile(s, s', g)
    ensures SameIn(s.rows, s'.rows, g)
  {
  }

  lemma Lose(c: Config, s0: State, s: State, s1: State, n: nat, f: File, i: nat) returns (t: State)
    requires Leads(RULE, c, s0, s1) && Again(c, s, n, f, i) && SameFile(s, s1, f) && Foremost(c, s1, n, f)
    ensures Leads(RULE, c, s0, t) && !HeldTwice(c, t, f)
  {
    hide Leads, SameFile;
    AgainFrame(c, s, s1, n, f, i);
    var j := Unused(s1.tasks);
    StepComplete(RULE, c, s0, s1, n, f, j);
    var s2 := DoComplete(c, s1, n, f, j);
    t := Race(c, s0, s2, n, f, i, j);
  }

  lemma Race(c: Config, s0: State, s: State, n: nat, f: File, i: nat, j: nat) returns (t: State)
    requires Leads(RULE, c, s0, s) && TwoKeys(c, s, i, j, f) && Foremost(c, s, n, f) && s.rows[f].rank == n
    requires f in s.nodes[Next(c, n)].backup
    ensures Leads(RULE, c, s0, t) && !HeldTwice(c, t, f)
  {
    hide Leads;
    var s1 := Pick(RULE, c, s0, s, i, f);
    var s2 := CopyToPeer(RULE, c, s0, s1, i, f);
    var s3 := BackUpRound(RULE, c, s0, s2, j, f);
    if c.persist { s3 := PersistRound(RULE, c, s0, s3, j, f); }
    assert s3.tasks[i] == Task(n, f, Copied(s.rows[f]));
    ForemostRipe(c, s, s3, n, f);
    var m := SomeNewIteration(s3, n);
    var req := EmptyRequest(s3, f, m);
    var s4 := Evict(c, s0, s3, n, f, j, req);
    t := Overtake(c, s0, s4, n, f, i, s.rows[f]);
  }

  lemma ForemostRipe(c: Config, s: State, s': State, n: nat, f: File)
    requires Foremost(c, s, n, f) && |s'.nodes| == |s.nodes| && s'.nodes[n].eviction == s.nodes[n].eviction
    requires s'.nodes[n].iters == s.nodes[n].iters && f in s'.rows && s'.rows == s.rows[f := s'.rows[f]]
    requires s'.rows[f] == s.rows[f].(state := if c.persist then PERSISTENT else BACKED_UP)
    ensures Ripe(c, s', n, f)
  {
    forall h ensures InOldest(s', n, h) <==> h == f {
      if h != f { assert h !in Crowd(s, n, f); }
    }
  }

  lemma Overtake(c: Config, s0: State, s: State, n: nat, f: File, i: nat, snap: Row) returns (t: State)
    requires Leads(RULE, c, s0, s) && |s.nodes| == c.W >= 2 && i in s.tasks && s.tasks[i] == Task(n, f, Copied(snap))
    requires snap.state == CACHED && n < c.W && f in s.rows && s.rows[f].rank == n && f !in s.nodes[n].dict
    ensures Leads(RULE, c, s0, t) && !HeldTwice(c, t, f)
  {
    hide Leads;
    StepUpdate(RULE, c, s0, s, i);
    t := DoUpdate(c, s, i, true);
  }

  // ---------------------------------------------------------------- the condition

  /** A save keeps the file durable, whatever disciplined clients do from then on, exactly when the file's
      key was neither waiting nor running at its owner, or the save names no iteration and the next node
      already has memory for the file. */
  lemma SaveDurableIff(c: Config, s: State, n: nat, req: Request)
    requires c.W >= 2 && Reachable(DisciplinedClient, c, s)
    requires CanCreate(c, s, n, req) && MaySaveHastily(s, n, req) && req.size > 0
    ensures (forall t :: Leads(DisciplinedClient, c, DoCreate(c, s, n, req, true), t) ==> HeldTwice(c, t, req.file))
       <==> Settled(s, n, req.file) || (req.iteration == None && req.file in s.nodes[Next(c, n)].backup)
  {
    hide Leads;
    var f, s' := req.file, DoCreate(c, s, n, req, true);
    ReachableSafe(DisciplinedClient, c, s);
    if Settled(s, n, f) {
      StepCreate(DisciplinedClient, c, InitState(c), s, n, req, true);
      forall t | Leads(DisciplinedClient, c, s', t) ensures HeldTwice(c, t, f) {
        LeadsOn(DisciplinedClient, c, InitState(c), s', t);
        AlwaysHeldTwice(c, t, f);
      }
    } else {
      var i :| i in s.tasks && s.tasks[i].key == f && s.tasks[i].node == n;
      assert FileOk(c, s, f) && TaskOk(c, s, i);
      if f !in s.nodes[Next(c, n)].backup {
        var t := Overwritten(c, s, n, req, i);
      } else if req.iteration.Some? {
        var t := EvictedUnderWork(c, s, n, req, i);
      } else {
        forall t | Leads(DisciplinedClient, c, s', t) ensures HeldTwice(c, t, f) { TwinDurable(c, s, n, req, t); }
      }
    }
  }

  lemma AlwaysHeldTwice(c: Config, s: State, f: File)
    requires c.W >= 2 && Reachable(DisciplinedClient, c, s)
    ensures HeldTwice(c, s, f)
  {
    ReachableSafe(DisciplinedClient, c, s);
    assert FileOk(c, s, f);
  }
}
