/** Disciplined clients can always take a file out of its iteration: its running reconciles are parked, its
    keys are dropped, and it is saved again outside every iteration. */
module LifecycleClearing {
  import opened Lifecycle
  import opened Options
  import opened LifecycleInvariant
  import opened LifecycleFrame
  import opened LifecycleCache
  import opened LifecycleTheorems
  import opened LifecycleRuns

  const RULE: Rule := DisciplinedClient

  // ---------------------------------------------------------------- a file that can be laid to rest

  /** What is left of the invariant of a file of node n. */
  ghost predicate Drivable(c: Config, s: State, n: nat, g: File) {
    && |s.nodes| == c.W >= 2 && n < c.W
    && g in s.rows && s.rows[g].rank == n && s.rows[g].size > 0
    && (s.rows[g].state !in {OBSOLESCENT, BROKEN} ==> g in s.nodes[n].dict)
    && forall i :: i in s.tasks && s.tasks[i].key == g ==> DrivableTask(c, s.rows[g], s.tasks[i])
  }

  predicate DrivableTask(c: Config, r: Row, t: Task) {
    && t.node < c.W
    && (t.stage.Copying? || t.stage.Copied? ==> CopiesToPeer(c, t.stage.snap) || CopiesToDisk(c, t.stage.snap))
    && (t.stage.Notified? ==> r.state in {OBSOLESCENT, BROKEN})
  }

  lemma OkIsDrivable(c: Config, s: State, g: File)
    requires c.W >= 2 && Inv(c, s) && g in s.rows
    ensures Drivable(c, s, s.rows[g].rank, g)
  {
    assert FileOk(c, s, g);
    forall i | i in s.tasks && s.tasks[i].key == g ensures DrivableTask(c, s.rows[g], s.tasks[i]) {
      assert TaskOk(c, s, i);
    }
  }

  lemma DrivableFrame(c: Config, s: State, s': State, n: nat, g: File)
    requires Drivable(c, s, n, g) && SameFile(s, s', g)
    ensures Drivable(c, s', n, g)
  {
  }

  /** `s'` differs from `s` in the file `g` only. */
  ghost predicate Touches(s: State, s': State, g: File) { Only(s, s', g) && SameBooks(s, s') }

  lemma TouchTwice(s: State, s1: State, s2: State, g: File)
    requires Touches(s, s1, g) && Touches(s1, s2, g)
    ensures Touches(s, s2, g)
  {
    hide SameFile;
    forall h | h != g ensures SameFile(s, s2, h) { SameChain(s, s1, s2, h); }
  }

  lemma SameChain(s: State, s1: State, s2: State, h: File)
    requires SameFile(s, s1, h) && SameFile(s1, s2, h)
    ensures SameFile(s, s2, h)
  {
  }

  lemma TouchesNothing(s: State, g: File)
    ensures Touches(s, s, g)
  {
  }

  // ---------------------------------------------------------------- running tasks are parked

  /** The same rows and other tasks; task i is gone or as in `st`. */
  ghost predicate Moved(s: State, s': State, i: nat) {
    && s'.rows == s.rows && (forall k :: k in s'.tasks ==> k in s.tasks)
    && (forall k :: k in s.tasks && k != i ==> k in s'.tasks && s'.tasks[k] == s.tasks[k])
    && (i in s.tasks && i in s'.tasks ==> s'.tasks[i].key == s.tasks[i].key && s'.tasks[i].node == s.tasks[i].node)
  }

  /** One event takes a running task on: it is dropped or posted again, or found to have its data. */
  function ParkEvent(c: Config, t: Task, i: nat): Event
    requires t.stage.Running()
  {
    match t.stage
    case Loaded(_) => Check(i, false)
    case Checked(snap) =>
      if Skips(c, snap) then Skip(i, false)
      else if CopiesToPeer(c, snap) || CopiesToDisk(c, snap) then Event.Fail(i, None, false)
      else if Notifies(c, snap, t.node) then Notify(i, false, None)
      else Delete(i)
    case Copying(_, _) => Event.Fail(i, None, false)
    case Copied(_) => Update(i, false)
    case Notified(_) => Delete(i)
  }

  /** Task i has been taken on; the file is still where it must be. */
  ghost predicate Parked(s: State, s': State, n: nat, g: File, i: nat) {
    && Moved(s, s', i) && |s'.nodes| == |s.nodes| && n < |s.nodes| && g in s.rows && i in s.tasks
    && (s.rows[g].state !in {OBSOLESCENT, BROKEN} && g in s.nodes[n].dict ==> g in s'.nodes[n].dict)
    && (i in s'.tasks ==> s'.tasks[i].stage.Posting? || (s.tasks[i].stage.Loaded? && s'.tasks[i].stage.Checked?))
  }

  lemma ParkLoaded(c: Config, s: State, n: nat, g: File, i: nat)
    requires n < |s.nodes| && g in s.rows && CanCheck(c, s, i)
    ensures Parked(s, DoCheck(c, s, i, false), n, g, i)
  {
  }

  lemma ParkSkip(c: Config, s: State, n: nat, g: File, i: nat)
    requires n < |s.nodes| && g in s.rows && CanSkip(c, s, i)
    ensures Parked(s, DoSkip(c, s, i, false), n, g, i)
  {
  }

  lemma ParkFail(c: Config, s: State, n: nat, g: File, i: nat)
    requires n < |s.nodes| && g in s.rows && CanFail(c, s, i, None, false)
    ensures Parked(s, DoFail(c, s, i, None, false), n, g, i)
  {
  }

  lemma ParkNotice(c: Config, s: State, n: nat, g: File, i: nat)
    requires n < |s.nodes| && g in s.rows && CanNotify(c, s, i, false, None)
    ensures Parked(s, DoNotify(c, s, i, false, None), n, g, i)
  {
  }

  lemma ParkUpdate(c: Config, s: State, n: nat, g: File, i: nat)
    requires n < |s.nodes| && g in s.rows && CanUpdate(c, s, i)
    ensures Parked(s, DoUpdate(c, s, i, false), n, g, i)
  {
  }

  lemma ParkDelete(c: Config, s: State, n: nat, g: File, i: nat)
    requires n < |s.nodes| && g in s.rows && CanDelete(c, s, i) && c.W >= 2
    requires s.tasks[i].key == g && (s.tasks[i].stage.Notified? ==> s.rows[g].state in {OBSOLESCENT, BROKEN})
    ensures Parked(s, DoDelete(c, s, i), n, g, i)
  {
  }

  lemma ParkHappens(c: Config, s: State, n: nat, g: File, i: nat)
    requires Drivable(c, s, n, g) && i in s.tasks && s.tasks[i].key == g && s.tasks[i].stage.Running()
    ensures Permits(RULE, c, s, ParkEvent(c, s.tasks[i], i))
    ensures Parked(s, Apply(c, s, ParkEvent(c, s.tasks[i], i)), n, g, i)
  {
    hide DoCheck, DoSkip, DoFail, DoNotify, DoDelete, DoUpdate, Parked;
    assert DrivableTask(c, s.rows[g], s.tasks[i]);
    match s.tasks[i].stage
    case Loaded(_) => ParkLoaded(c, s, n, g, i);
    case Checked(snap) =>
      if Skips(c, snap) {
        ParkSkip(c, s, n, g, i);
      } else if CopiesToPeer(c, snap) || CopiesToDisk(c, snap) {
        ParkFail(c, s, n, g, i);
      } else if Notifies(c, snap, s.tasks[i].node) {
        ParkNotice(c, s, n, g, i);
      } else {
        ParkDelete(c, s, n, g, i);
      }
    case Copying(_, _) => ParkFail(c, s, n, g, i);
    case Copied(_) => ParkUpdate(c, s, n, g, i);
    case Notified(_) => ParkDelete(c, s, n, g, i);
  }

  lemma ParkTouches(c: Config, s: State, n: nat, g: File, i: nat)
    requires Drivable(c, s, n, g) && i in s.tasks && s.tasks[i].key == g && s.tasks[i].stage.Running()
    requires Permits(RULE, c, s, ParkEvent(c, s.tasks[i], i))
    ensures Touches(s, Apply(c, s, ParkEvent(c, s.tasks[i], i)), g)
  {
    hide Only, DoCheck, DoSkip, DoFail, DoNotify, DoDelete, DoUpdate, Drivable, SameBooks;
    var e := ParkEvent(c, s.tasks[i], i);
    SameEvictions(c, s, e);
    match e
    case Check(id, ok) => OthersByCheck(c, s, id, ok);
    case Skip(id, touch) => OthersBySkip(c, s, id, touch);
    case Fail(id, post, lingers) => OthersByFail(c, s, id, post, lingers);
    case Notify(id, ok, post) => OthersByNotify(c, s, id, ok, post);
    case Update(id, ok) => OthersByUpdate(c, s, id, ok);
    case Delete(id) => OthersByDelete(c, s, id);
    case _ =>
  }

  lemma ParkKeeps(c: Config, s: State, s': State, n: nat, g: File, i: nat)
    requires Drivable(c, s, n, g) && Parked(s, s', n, g, i)
    ensures Drivable(c, s', n, g)
  {
    forall k | k in s'.tasks && s'.tasks[k].key == g ensures DrivableTask(c, s'.rows[g], s'.tasks[k]) {
      assert k in s.tasks && s.tasks[k].key == g;
      assert DrivableTask(c, s.rows[g], s.tasks[k]);
    }
  }

  /** The running tasks of a file. */
  function Running(s: State, g: File): set<nat> {
    set i | i in s.tasks && s.tasks[i].key == g && s.tasks[i].stage.Running()
  }

  function LoadedOnes(s: State, g: File): set<nat> {
    set i | i in s.tasks && s.tasks[i].key == g && s.tasks[i].stage.Loaded?
  }

  lemma {:induction false} ParkAll(c: Config, s0: State, s: State, n: nat, g: File) returns (s': State)
    requires Leads(RULE, c, s0, s) && Drivable(c, s, n, g)
    ensures Leads(RULE, c, s0, s') && Drivable(c, s', n, g) && Touches(s, s', g) && Running(s', g) == {}
    decreases |Running(s, g)| + |LoadedOnes(s, g)|
  {
    hide Leads, Apply, Drivable, Touches;
    if Running(s, g) == {} {
      s' := s;
      TouchesNothing(s, g);
    } else {
      var i :| i in Running(s, g);
      var e := ParkEvent(c, s.tasks[i], i);
      ParkHappens(c, s, n, g, i);
      ParkTouches(c, s, n, g, i);
      ParkKeeps(c, s, Apply(c, s, e), n, g, i);
      LeadsStep(RULE, c, s0, s, e);
      var s1 := Apply(c, s, e);
      ParkProgress(s, s1, n, g, i);
      s' := ParkAll(c, s0, s1, n, g);
      TouchTwice(s, s1, s', g);
    }
  }

  lemma ParkProgress(s: State, s': State, n: nat, g: File, i: nat)
    requires i in Running(s, g) && Parked(s, s', n, g, i)
    ensures |Running(s', g)| + |LoadedOnes(s', g)| < |Running(s, g)| + |LoadedOnes(s, g)|
  {
    assert Running(s', g) <= Running(s, g);
    assert LoadedOnes(s', g) <= LoadedOnes(s, g);
    Smaller(Running(s', g), Running(s, g));
    Smaller(LoadedOnes(s', g), LoadedOnes(s, g));
    if i in Running(s', g) {
      assert i in LoadedOnes(s, g) && i !in LoadedOnes(s', g);
    }
  }

  lemma Smaller<T>(a: set<T>, b: set<T>)
    requires a <= b
    ensures |a| <= |b| && (a != b ==> |a| < |b|)
  {
    assert b == a + (b - a);
    if a != b {
      var x :| x in b - a;
      assert |b - a| > 0;
    }
  }

  // ---------------------------------------------------------------- keys at rest are dropped

  /** A file of node n none of whose keys is being handled. */
  ghost predicate Resting(c: Config, s: State, n: nat, g: File) {
    && |s.nodes| == c.W >= 2 && n < c.W
    && g in s.rows && s.rows[g].rank == n && s.rows[g].size > 0
    && (s.rows[g].state !in {OBSOLESCENT, BROKEN} ==> g in s.nodes[n].dict)
    && Paused(s, g)
  }

  lemma ParkedRests(c: Config, s: State, n: nat, g: File)
    requires Drivable(c, s, n, g) && Running(s, g) == {}
    ensures Resting(c, s, n, g)
  {
    forall i | i in s.tasks && s.tasks[i].key == g ensures !s.tasks[i].stage.Running() {
      assert i !in Running(s, g);
    }
  }

  /** The keys of a file that wait at node n. */
  function Waiting(s: State, n: nat, g: File): set<nat> {
    set i | i in s.tasks && s.tasks[i].key == g && s.tasks[i].node == n
  }

  /** Key i is gone, and the file is at rest. */
  ghost predicate Dismissed(c: Config, s: State, s': State, n: nat, g: File, i: nat) {
    Resting(c, s', n, g) && Touches(s, s', g) && Waiting(s', n, g) == Waiting(s, n, g) - {i}
  }

  lemma {:induction false} DismissAll(c: Config, s0: State, s: State, n: nat, g: File) returns (s': State)
    requires Leads(RULE, c, s0, s) && Resting(c, s, n, g)
    ensures Leads(RULE, c, s0, s') && Resting(c, s', n, g) && Touches(s, s', g) && Waiting(s', n, g) == {}
    decreases |Waiting(s, n, g)|
  {
    hide Leads, Resting, Touches;
    if Waiting(s, n, g) == {} {
      s' := s;
      TouchesNothing(s, g);
    } else {
      var i :| i in Waiting(s, n, g);
      var s1 := Dismiss(c, s0, s, n, g, i);
      Smaller(Waiting(s1, n, g), Waiting(s, n, g));
      s' := DismissAll(c, s0, s1, n, g);
      TouchTwice(s, s1, s', g);
    }
  }

  lemma Dismiss(c: Config, s0: State, s: State, n: nat, g: File, i: nat) returns (s': State)
    requires Leads(RULE, c, s0, s) && Resting(c, s, n, g) && i in Waiting(s, n, g)
    ensures Leads(RULE, c, s0, s') && Dismissed(c, s, s', n, g, i)
  {
    hide Leads, Dismissed;
    var st := s.rows[g].state;
    if g !in s.nodes[n].dict {
      s' := DismissGone(c, s0, s, n, g, i);
    } else if st in {PENDING, PERSISTENT, BROKEN} {
      s' := DismissDone(c, s0, s, n, g, i);
    } else if st == OBSOLESCENT {
      s' := DismissEvicted(c, s0, s, n, g, i);
    } else if st == BACKED_UP {
      s' := DismissBackedUp(c, s0, s, n, g, i);
    } else {
      s' := DismissCached(c, s0, s, n, g, i);
    }
  }

  lemma DismissGone(c: Config, s0: State, s: State, n: nat, g: File, i: nat) returns (s': State)
    requires Leads(RULE, c, s0, s) && Resting(c, s, n, g) && i in Waiting(s, n, g) && g !in s.nodes[n].dict
    ensures Leads(RULE, c, s0, s') && Dismissed(c, s, s', n, g, i)
  {
    hide Leads;
    var s1 := s;
    if s.tasks[i].stage.Posting? {
      StepPush(RULE, c, s0, s, i);
      s1 := SetStage(s, i, Queued);
    }
    StepFetch(RULE, c, s0, s1, i);
    var s2 := SetStage(s1, i, Loaded(s.rows[g]));
    StepCheck(RULE, c, s0, s2, i);
    s' := DoCheck(c, s2, i, true);
    assert s'.tasks == s.tasks - {i};
    assert s' == Drop(s, i);
    OthersByDrop(s, i);
  }

  lemma DismissDone(c: Config, s0: State, s: State, n: nat, g: File, i: nat) returns (s': State)
    requires Leads(RULE, c, s0, s) && Resting(c, s, n, g) && i in Waiting(s, n, g) && g in s.nodes[n].dict
    requires s.rows[g].state in {PENDING, PERSISTENT, BROKEN}
    ensures Leads(RULE, c, s0, s') && Dismissed(c, s, s', n, g, i)
  {
    hide Leads;
    var s1 := Pick(RULE, c, s0, s, i, g);
    StepSkip(RULE, c, s0, s1, i);
    s' := DoSkip(c, s1, i, false);
    assert s'.tasks == s.tasks - {i};
    OthersByDrop(s, i);
  }

  lemma DismissBackedUp(c: Config, s0: State, s: State, n: nat, g: File, i: nat) returns (s': State)
    requires Leads(RULE, c, s0, s) && Resting(c, s, n, g) && i in Waiting(s, n, g) && g in s.nodes[n].dict
    requires s.rows[g].state == BACKED_UP
    ensures Leads(RULE, c, s0, s') && Dismissed(c, s, s', n, g, i)
  {
    hide Leads;
    s' := GiveUp(RULE, c, s0, s, i, g);
    OthersByDrop(s, i);
    OthersByDiskFailure(s, i);
  }

  lemma DismissCached(c: Config, s0: State, s: State, n: nat, g: File, i: nat) returns (s': State)
    requires Leads(RULE, c, s0, s) && Resting(c, s, n, g) && i in Waiting(s, n, g) && g in s.nodes[n].dict
    requires s.rows[g].state == CACHED
    ensures Leads(RULE, c, s0, s') && Dismissed(c, s, s', n, g, i)
  {
    hide Leads;
    var s1 := BackUpRound(RULE, c, s0, s, i, g);
    BackedRests(c, s, s1, n, g, i);
    hide Resting, Touches;
    s' := DismissBackedUp(c, s0, s1, n, g, i);
    TouchTwice(s, s1, s', g);
  }

  lemma BackedRests(c: Config, s: State, s': State, n: nat, g: File, i: nat)
    requires Resting(c, s, n, g) && i in Waiting(s, n, g) && g in s.nodes[n].dict
    requires var data := Take(s.nodes[n].dict[g], s.rows[g].size);
             s' == SetStage(SetState(Backed(s, Next(c, n), g, data), g, BACKED_UP), i, Posting)
    ensures Resting(c, s', n, g) && Touches(s, s', g) && Waiting(s', n, g) == Waiting(s, n, g)
    ensures g in s'.nodes[n].dict && s'.rows[g].state == BACKED_UP
  {
  }

  lemma DismissEvicted(c: Config, s0: State, s: State, n: nat, g: File, i: nat) returns (s': State)
    requires Leads(RULE, c, s0, s) && Resting(c, s, n, g) && i in Waiting(s, n, g) && g in s.nodes[n].dict
    requires s.rows[g].state == OBSOLESCENT
    ensures Leads(RULE, c, s0, s') && Dismissed(c, s, s', n, g, i)
  {
    hide Leads;
    var peer := Unused(s.tasks);
    s' := Free(RULE, c, s0, s, i, g, peer);
    FreedRests(c, s, s', n, g, i, peer);
  }

  lemma FreedRests(c: Config, s: State, s': State, n: nat, g: File, i: nat, peer: nat)
    requires Resting(c, s, n, g) && i in Waiting(s, n, g) && peer !in s.tasks && s.rows[g].state == OBSOLESCENT
    requires s' == SetNode(s, n, s.nodes[n].(dict := s.nodes[n].dict - {g})).(
                     tasks := s.tasks[peer := Task(Next(c, n), g, Posting)] - {i})
    ensures Dismissed(c, s, s', n, g, i)
  {
  }

  // ---------------------------------------------------------------- saved again, outside every iteration

  lemma Resave(c: Config, s0: State, s: State, n: nat, g: File) returns (s': State)
    requires Leads(RULE, c, s0, s) && Resting(c, s, n, g) && Waiting(s, n, g) == {} && s.nodes[n].eviction.Idle?
    ensures Leads(RULE, c, s0, s') && Touches(s, s', g)
    ensures s'.rows == s.rows[g := Row(n, None, PENDING, s.rows[g].size)]
  {
    hide Leads;
    var req := Request(g, None, s.rows[g].size);
    forall i | i in s.tasks && s.tasks[i].key == g ensures s.tasks[i].node != n { assert i !in Waiting(s, n, g); }
    StepCreate(RULE, c, s0, s, n, req, true);
    s' := DoCreate(c, s, n, req, true);
    OthersByCreateEntry(s, n, req, true);
  }

  /** Node n takes a file out of its iteration. */
  lemma MoveAway(c: Config, s0: State, s: State, n: nat, g: File) returns (s': State)
    requires Leads(RULE, c, s0, s) && Drivable(c, s, n, g) && s.nodes[n].eviction.Idle?
    ensures Leads(RULE, c, s0, s') && Touches(s, s', g)
    ensures g in s'.rows && s'.rows[g].rank == n && s'.rows[g].iteration == None
  {
    hide Leads, Drivable, Resting, Only;
    assert |s.nodes| > n by { DrivableNode(c, s, n, g); }
    var s1 := ParkAll(c, s0, s, n, g);
    ParkedRests(c, s1, n, g);
    var s2 := DismissAll(c, s0, s1, n, g);
    TouchTwice(s, s1, s2, g);
    s' := Resave(c, s0, s2, n, g);
    TouchTwice(s, s2, s', g);
  }

  lemma DrivableNode(c: Config, s: State, n: nat, g: File)
    requires Drivable(c, s, n, g)
    ensures n < |s.nodes|
  {
  }
}
