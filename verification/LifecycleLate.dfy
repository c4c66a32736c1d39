/** What becomes of a backup when a server handler outlives the failed copy it was serving. */
module LifecycleLate {
  import opened Lifecycle
  import opened Options
  import opened LifecycleInvariant
  import opened LifecycleFrame
  import opened LifecycleTheorems
  import opened LifecycleGuarantees
  import opened LifecycleRuns

  /** A row for which `SurvivesNodeLoss` promises two copies. */
  predicate IsBackedUp(s: State, f: File) { f in s.rows && s.rows[f].state in {BACKED_UP, PERSISTENT} }

  /** With disciplined clients and any late handlers, a backed-up file has both its copies exactly when
      no late handler has put fresh memory in place of the backup, or the file is all zeros anyway. */
  lemma HeldTwiceIff(c: Config, s: State, f: File)
    requires c.W >= 2 && Reachable(LateHandlers, c, s) && IsBackedUp(s, f)
    ensures f in s.saved
    ensures HeldTwice(c, s, f) <==> f !in s.replaced || s.saved[f] == Zeros(s.rows[f].size)
  {
    ReachableSafe(LateHandlers, c, s);
    assert FileOk(c, s, f);
  }

  /** A late handler lingers for the file. */
  ghost predicate Awaited(s: State, f: File) { exists l :: l in s.late && l.file == f }

  /** A backed-up file can lose its backup to a late handler in the next step exactly when one lingers
      for it, which only a copy that failed before the next node had memory for the file leaves. */
  lemma LateLosesIff(c: Config, s: State, f: File)
    requires c.W >= 2 && Reachable(LateHandlers, c, s) && IsBackedUp(s, f) && HeldTwice(c, s, f)
    ensures f in s.saved
    ensures (exists l, last :: CanLateSave(c, s, l) && !HeldTwice(c, DoLateSave(c, s, l, last), f))
       <==> Awaited(s, f) && s.saved[f] != Zeros(s.rows[f].size)
  {
    ReachableSafe(LateHandlers, c, s);
    assert FileOk(c, s, f);
    if Awaited(s, f) && s.saved[f] != Zeros(s.rows[f].size) {
      var l :| l in s.late && l.file == f;
      assert LateOk(c, s, l);
      assert CanLateSave(c, s, l) && !HeldTwice(c, DoLateSave(c, s, l, true), f);
    }
  }

  /** Only a copy that fails before the next node has memory for the file leaves a handler behind. */
  lemma LingersOnlyAfterMiss(c: Config, s: State, e: Event, l: Late)
    requires CanHappen(c, s, e) && l in Apply(c, s, e).late && l !in s.late
    ensures e.Fail? && s.tasks[e.id].key == l.file && s.tasks[e.id].stage.Copying? && s.tasks[e.id].stage.place.Missed?
  {
    hide Apply, CanHappen;
    if FromOutside(e) {
      OutsideReplacesNothing(c, s, e);
    } else if !e.Fail? {
      WorkLeavesNobody(c, s, e);
    } else {
      FailLeavesOne(c, s, e, l);
    }
  }

  lemma WorkLeavesNobody(c: Config, s: State, e: Event)
    requires CanHappen(c, s, e) && !FromOutside(e) && !e.Fail?
    ensures Apply(c, s, e).late <= s.late
  {
  }

  lemma FailLeavesOne(c: Config, s: State, e: Event, l: Late)
    requires CanHappen(c, s, e) && e.Fail? && l in Apply(c, s, e).late && l !in s.late
    ensures s.tasks[e.id].key == l.file && s.tasks[e.id].stage.Copying? && s.tasks[e.id].stage.place.Missed?
  {
  }

  /** The first copy fails while the server stands between its lookup and saving the memory; the key is
      handled again and the file backed up; then the handler saves its memory, which is empty. */
  lemma LostToLateHandler(c: Config, f: File) returns (s: State)
    requires c.W >= 2
    ensures Reachable(LateHandlers, c, s) && IsBackedUp(s, f) && !HeldTwice(c, s, f)
  {
    hide Leads;
    assert Next(c, 0) == 1;
    var rule, i := LateHandlers, InitState(c);
    LeadsNow(rule, c, i);
    s := SavedOnce(rule, c, i, i, f, [1]);
    s := Pick(rule, c, i, s, 0, f);
    StepBegin(rule, c, i, s, 0);
    s := DoBegin(c, s, 0);
    StepFail(rule, c, i, s, 0, true);
    s := DoFail(c, s, 0, None, true);
    s := BackUpRound(rule, c, i, s, 0, f);
    StepLateSave(c, i, s, Late(1, f, 1));
    s := DoLateSave(c, s, Late(1, f, 1), true);
    assert s.nodes[1].backup[f] == [0] && s.saved[f] == [1];
  }
}
