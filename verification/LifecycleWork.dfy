/** Work is never lost, and an eviction reaches both copies. */
module LifecycleWork {
  import opened Lifecycle
  import opened Options
  import opened LifecycleInvariant
  import opened LifecycleFrame
  import opened LifecycleSteps

  /** A stage that has not read the row yet, or has read it as OBSOLESCENT. */
  predicate IsAwake(stage: Stage) { stage.Running() ==> stage.snap.state == OBSOLESCENT }

  ghost predicate Awake(s: State, n: nat, f: File, i: nat) {
    i in s.tasks && s.tasks[i].node == n && s.tasks[i].key == f && IsAwake(s.tasks[i].stage)
  }

  ghost predicate HasOwnerTask(s: State, f: File)
    requires f in s.rows
  {
    exists i :: OwnerTask(s, f, i)
  }

  ghost predicate HasAwake(s: State, n: nat, f: File) { exists i :: Awake(s, n, f, i) }

  /** A file still to be backed up, persisted or freed at its owner has a task there. */
  ghost predicate Alive(c: Config, s: State, f: File)
    requires |s.nodes| == c.W
  {
    f in s.rows && s.rows[f].rank < c.W ==>
      var r := s.rows[f];
      && (r.state == CACHED ==> HasOwnerTask(s, f))
      && (r.state == BACKED_UP && c.persist ==> f in s.diskFailed || HasOwnerTask(s, f))
      && (r.state == OBSOLESCENT && f in s.nodes[r.rank].dict ==> HasAwake(s, r.rank, f))
  }

  ghost predicate AliveInv(c: Config, s: State) {
    |s.nodes| == c.W && forall f :: Alive(c, s, f)
  }

  ghost predicate NotifiedTask(s: State, f: File, i: nat)
    requires f in s.rows
  {
    OwnerTask(s, f, i) && s.tasks[i].stage.Notified?
  }

  /** The owner has freed its copy or is about to. */
  ghost predicate Freeing(s: State, f: File)
    requires f in s.rows && s.rows[f].rank < |s.nodes|
  {
    f !in s.nodes[s.rows[f].rank].dict || exists i :: NotifiedTask(s, f, i)
  }

  /** No owner's task read the row as BROKEN, and none that has just read it is out of date. */
  predicate UpToDate(r: Row, stage: Stage) {
    stage.Running() ==>
      && stage.snap.state != BROKEN
      && (stage.Loaded? ==> stage.snap.state in {OBSOLESCENT, r.state})
  }

  /** With quiet evictions no row is BROKEN, and once the owner lets go of an evicted file the next
      node has let go too or will. */
  ghost predicate Tidy(c: Config, s: State, f: File)
    requires |s.nodes| == c.W
  {
    f in s.rows && s.rows[f].rank < c.W ==>
      var r := s.rows[f];
      var x := Next(c, r.rank);
      && r.state != BROKEN
      && (forall i :: OwnerTask(s, f, i) ==> UpToDate(r, s.tasks[i].stage))
      && (r.state == OBSOLESCENT && f in s.nodes[x].backup && Freeing(s, f) ==> HasAwake(s, x, f))
  }

  ghost predicate TidyInv(c: Config, s: State) {
    |s.nodes| == c.W && forall f :: Tidy(c, s, f)
  }

  // ---------------------------------------------------------------- carrying tasks over

  /** Task `id` apart, the tasks of the first state are still there. */
  ghost predicate Kept(s: State, s': State, id: nat) {
    forall j :: j in s.tasks && j != id ==> j in s'.tasks && s'.tasks[j] == s.tasks[j]
  }

  lemma OwnerCarried(s: State, s': State, f: File, id: nat)
    requires f in s.rows && f in s'.rows && s'.rows[f].rank == s.rows[f].rank
    requires HasOwnerTask(s, f) && Kept(s, s', id)
    requires OwnerTask(s, f, id) ==> OwnerTask(s', f, id)
    ensures HasOwnerTask(s', f)
  {
    var i :| OwnerTask(s, f, i);
    assert OwnerTask(s', f, i);
  }

  lemma AwakeCarried(s: State, s': State, n: nat, f: File, id: nat)
    requires HasAwake(s, n, f) && Kept(s, s', id)
    requires Awake(s, n, f, id) ==> Awake(s', n, f, id)
    ensures HasAwake(s', n, f)
  {
    var i :| Awake(s, n, f, i);
    assert Awake(s', n, f, i);
  }

  lemma FrameAlive(c: Config, s: State, s': State, f: File)
    requires |s.nodes| == c.W && c.W >= 1 && SameFile(s, s', f) && Alive(c, s, f)
    ensures Alive(c, s', f)
  {
    if f in s.rows && s.rows[f].rank < c.W {
      var o := s.rows[f].rank;
      assert forall i :: OwnerTask(s, f, i) ==> OwnerTask(s', f, i);
      assert forall i :: Awake(s, o, f, i) ==> Awake(s', o, f, i);
    }
  }

  lemma FrameTidy(c: Config, s: State, s': State, f: File)
    requires |s.nodes| == c.W && c.W >= 1 && SameFile(s, s', f) && Tidy(c, s, f)
    ensures Tidy(c, s', f)
  {
    if f in s.rows && s.rows[f].rank < c.W {
      assert forall i :: OwnerTask(s', f, i) ==> OwnerTask(s, f, i);
      assert forall i :: NotifiedTask(s', f, i) ==> NotifiedTask(s, f, i);
      assert forall i :: Awake(s, Next(c, s.rows[f].rank), f, i) ==> Awake(s', Next(c, s.rows[f].rank), f, i);
      assert Freeing(s', f) ==> Freeing(s, f);
    }
  }

  lemma LocalizeAlive(c: Config, s: State, s': State, f: File)
    requires AliveInv(c, s) && c.W >= 1 && |s'.nodes| == c.W && Only(s, s', f) && Alive(c, s', f)
    ensures AliveInv(c, s')
  {
    forall g ensures Alive(c, s', g) {
      if g != f { FrameAlive(c, s, s', g); }
    }
  }

  lemma LocalizeTidy(c: Config, s: State, s': State, f: File)
    requires TidyInv(c, s) && c.W >= 1 && |s'.nodes| == c.W && Only(s, s', f) && Tidy(c, s', f)
    ensures TidyInv(c, s')
  {
    forall g ensures Tidy(c, s', g) {
      if g != f { FrameTidy(c, s, s', g); }
    }
  }

  // ---------------------------------------------------------------- one task moves on

  /** What an event on task `id` leaves alone: the row, and the other tasks. */
  ghost predicate SameRowAndTasks(s: State, s': State, id: nat, f: File) {
    && |s'.nodes| == |s.nodes|
    && f in s.rows && f in s'.rows && s'.rows[f] == s.rows[f]
    && Kept(s, s', id)
  }

  /** The task stays, and stays awake if it was: the owner's side of the file is still looked after. */
  lemma AliveAfterMove(c: Config, s: State, s': State, id: nat)
    requires c.W >= 1 && |s.nodes| == c.W && id in s.tasks
    requires var f := s.tasks[id].key;
             && SameRowAndTasks(s, s', id, f) && Alive(c, s, f) && f in s.rows && s.rows[f].rank < c.W
             && (f in s'.diskFailed <==> f in s.diskFailed)
             && (f in s'.nodes[s.rows[f].rank].dict ==> f in s.nodes[s.rows[f].rank].dict)
    requires id in s'.tasks && s'.tasks[id].node == s.tasks[id].node && s'.tasks[id].key == s.tasks[id].key
    requires s.rows[s.tasks[id].key].state == OBSOLESCENT && IsAwake(s.tasks[id].stage) ==> IsAwake(s'.tasks[id].stage)
    ensures Alive(c, s', s.tasks[id].key)
  {
    var f := s.tasks[id].key;
    var r := s.rows[f];
    if HasOwnerTask(s, f) { OwnerCarried(s, s', f, id); }
    if r.state == OBSOLESCENT && HasAwake(s, r.rank, f) { AwakeCarried(s, s', r.rank, f, id); }
  }

  /** A task may go once nobody relies on it. */
  lemma AliveAfterDrop(c: Config, s: State, s': State, id: nat)
    requires c.W >= 1 && |s.nodes| == c.W && id in s.tasks
    requires var f := s.tasks[id].key;
             && SameRowAndTasks(s, s', id, f) && Alive(c, s, f) && f in s.rows && s.rows[f].rank < c.W
             && (f in s.diskFailed ==> f in s'.diskFailed)
    requires var f := s.tasks[id].key; var r := s.rows[f];
             && |s'.nodes| == c.W
             && (f in s'.nodes[r.rank].dict ==> f in s.nodes[r.rank].dict)
             && (s.tasks[id].node == r.rank ==>
                   && r.state != CACHED
                   && (r.state == BACKED_UP && c.persist ==> f in s'.diskFailed)
                   && (r.state == OBSOLESCENT && f in s'.nodes[r.rank].dict ==> !IsAwake(s.tasks[id].stage)))
    ensures Alive(c, s', s.tasks[id].key)
  {
    var f := s.tasks[id].key;
    var r := s.rows[f];
    if HasOwnerTask(s, f) && (s.tasks[id].node != r.rank) { OwnerCarried(s, s', f, id); }
    if r.state == OBSOLESCENT && f in s'.nodes[r.rank].dict { AwakeCarried(s, s', r.rank, f, id); }
  }

  // ---------------------------------------------------------------- Alive, event by event

  /** The events of a task that leave the row alone and keep the task. */
  lemma AliveByStage(c: Config, s: State, id: nat, st: Stage)
    requires c.W >= 2 && Inv(c, s) && AliveInv(c, s) && id in s.tasks && TaskOk(c, s, id)
    requires IsAwake(s.tasks[id].stage) && s.rows[s.tasks[id].key].state == OBSOLESCENT ==> IsAwake(st)
    ensures AliveInv(c, SetStage(s, id, st))
  {
    var s' := SetStage(s, id, st);
    assert Alive(c, s, s.tasks[id].key);
    AliveAfterMove(c, s, s', id);
    OthersByStage(s, id, st);
    LocalizeAlive(c, s, s', s.tasks[id].key);
  }

  lemma AliveByFetch(c: Config, s: State, id: nat, ok: bool)
    requires c.W >= 2 && Inv(c, s) && AliveInv(c, s) && CanFetch(c, s, id)
    ensures AliveInv(c, DoFetch(s, id, ok))
  {
    var t := s.tasks[id];
    assert FileOk(c, s, t.key) && TaskOk(c, s, id);
    if ok && s.rows[t.key].rank != t.node && s.rows[t.key].state != OBSOLESCENT {
      assert Alive(c, s, t.key);
      AliveAfterDrop(c, s, Drop(s, id), id);
      OthersByDrop(s, id);
      LocalizeAlive(c, s, Drop(s, id), t.key);
    } else {
      AliveByStage(c, s, id, if ok then Loaded(s.rows[t.key]) else Posting);
    }
  }

  lemma AliveByCheck(c: Config, s: State, id: nat, ok: bool)
    requires c.W >= 2 && Inv(c, s) && AliveInv(c, s) && CanCheck(c, s, id)
    ensures AliveInv(c, DoCheck(c, s, id, ok))
  {
    var t := s.tasks[id];
    var snap, f, s' := t.stage.snap, t.key, DoCheck(c, s, id, ok);
    assert FileOk(c, s, f) && TaskOk(c, s, id) && Alive(c, s, f);
    if snap.size > 0 && Holds(s.nodes[t.node], t.node, snap, f) {
      AliveByStage(c, s, id, Checked(snap));
    } else if snap.state !in {OBSOLESCENT, BROKEN} && !ok {
      AliveByStage(c, s, id, Posting);
    } else {
      if snap.state in {OBSOLESCENT, BROKEN} {
        AliveAfterDrop(c, s, s', id);
      }
      OthersByCheck(c, s, id, ok);
      LocalizeAlive(c, s, s', f);
    }
  }

  lemma AliveBySkip(c: Config, s: State, id: nat, touch: bool)
    requires c.W >= 2 && Inv(c, s) && AliveInv(c, s) && CanSkip(c, s, id)
    ensures AliveInv(c, DoSkip(c, s, id, touch))
  {
    var t := s.tasks[id];
    assert FileOk(c, s, t.key) && TaskOk(c, s, id) && Alive(c, s, t.key);
    AliveAfterDrop(c, s, DoSkip(c, s, id, touch), id);
    OthersBySkip(c, s, id, touch);
    LocalizeAlive(c, s, DoSkip(c, s, id, touch), t.key);
  }

  lemma AliveByBegin(c: Config, s: State, id: nat)
    requires c.W >= 2 && Inv(c, s) && AliveInv(c, s) && CanBegin(c, s, id)
    ensures AliveInv(c, DoBegin(c, s, id))
  {
    var f := s.tasks[id].key;
    assert FileOk(c, s, f) && TaskOk(c, s, id) && Alive(c, s, f);
    AliveAfterMove(c, s, DoBegin(c, s, id), id);
    OthersByBegin(c, s, id);
    LocalizeAlive(c, s, DoBegin(c, s, id), f);
  }

  lemma AliveByInstall(c: Config, s: State, id: nat)
    requires c.W >= 2 && Inv(c, s) && AliveInv(c, s) && CanInstall(c, s, id)
    ensures AliveInv(c, DoInstall(c, s, id))
  {
    var f := s.tasks[id].key;
    assert FileOk(c, s, f) && TaskOk(c, s, id) && Alive(c, s, f);
    NoneOrphaned(c, s, id, Next(c, s.tasks[id].node));
    AliveAfterMove(c, s, DoInstall(c, s, id), id);
    OthersByInstall(c, s, id);
    LocalizeAlive(c, s, DoInstall(c, s, id), f);
  }

  lemma AliveByArrive(c: Config, s: State, id: nat, data: Bytes)
    requires c.W >= 2 && Inv(c, s) && AliveInv(c, s) && CanArrive(c, s, id, data)
    ensures AliveInv(c, DoArrive(c, s, id, data))
  {
    var f := s.tasks[id].key;
    assert FileOk(c, s, f) && TaskOk(c, s, id) && Alive(c, s, f);
    AliveAfterMove(c, s, DoArrive(c, s, id, data), id);
    OthersByArrive(c, s, id, data);
    LocalizeAlive(c, s, DoArrive(c, s, id, data), f);
  }

  lemma AliveByFail(c: Config, s: State, id: nat, post: Option<nat>, lingers: bool)
    requires c.W >= 2 && Inv(c, s) && AliveInv(c, s) && CanFail(c, s, id, post, lingers)
    ensures AliveInv(c, DoFail(c, s, id, post, lingers))
  {
    var f, s' := s.tasks[id].key, DoFail(c, s, id, post, lingers);
    assert FileOk(c, s, f) && TaskOk(c, s, id) && Alive(c, s, f);
    if s.tasks[id].stage.snap.state == CACHED {
      AliveAfterMove(c, s, s', id);
    } else {
      AliveAfterDrop(c, s, s', id);
    }
    OthersByFail(c, s, id, post, lingers);
    LocalizeAlive(c, s, s', f);
  }

  lemma AliveByFinish(c: Config, s: State, id: nat, post: Option<nat>)
    requires c.W >= 2 && Inv(c, s) && AliveInv(c, s) && CanFinish(c, s, id, post)
    ensures AliveInv(c, DoFinish(c, s, id, post))
  {
    var f, s' := s.tasks[id].key, DoFinish(c, s, id, post);
    assert FileOk(c, s, f) && TaskOk(c, s, id) && Alive(c, s, f);
    AliveAfterMove(c, s, s', id);
    OthersByFinish(c, s, id, post);
    LocalizeAlive(c, s, s', f);
  }

  lemma AliveByUpdate(c: Config, s: State, id: nat, ok: bool)
    requires c.W >= 2 && Inv(c, s) && AliveInv(c, s) && CanUpdate(c, s, id)
    ensures AliveInv(c, DoUpdate(c, s, id, ok))
  {
    var f, s' := s.tasks[id].key, DoUpdate(c, s, id, ok);
    assert FileOk(c, s, f) && TaskOk(c, s, id) && Alive(c, s, f);
    assert OwnerTask(s', f, id);
    OthersByUpdate(c, s, id, ok);
    LocalizeAlive(c, s, s', f);
  }

  lemma AliveByNotify(c: Config, s: State, id: nat, ok: bool, post: Option<nat>)
    requires c.W >= 2 && Inv(c, s) && AliveInv(c, s) && CanNotify(c, s, id, ok, post)
    ensures AliveInv(c, DoNotify(c, s, id, ok, post))
  {
    var f, s' := s.tasks[id].key, DoNotify(c, s, id, ok, post);
    assert FileOk(c, s, f) && TaskOk(c, s, id) && Alive(c, s, f);
    AliveAfterMove(c, s, s', id);
    OthersByNotify(c, s, id, ok, post);
    LocalizeAlive(c, s, s', f);
  }

  lemma AliveByDelete(c: Config, s: State, id: nat)
    requires c.W >= 2 && Inv(c, s) && AliveInv(c, s) && CanDelete(c, s, id)
    ensures AliveInv(c, DoDelete(c, s, id))
  {
    var f, s' := s.tasks[id].key, DoDelete(c, s, id);
    assert FileOk(c, s, f) && TaskOk(c, s, id) && Alive(c, s, f);
    AliveAfterDrop(c, s, s', id);
    OthersByDelete(c, s, id);
    LocalizeAlive(c, s, s', f);
  }

  lemma AliveByMarkEvict(c: Config, s: State, n: nat, id: nat)
    requires c.W >= 2 && Inv(c, s) && AliveInv(c, s) && CanMarkEvict(c, s, n, id)
    requires s.rows[s.nodes[n].eviction.todo[0]].rank == n
    ensures AliveInv(c, DoMarkEvict(c, s, n, id))
  {
    var f, s' := s.nodes[n].eviction.todo[0], DoMarkEvict(c, s, n, id);
    assert Awake(s', n, f, id);
    OthersByMarkEvict(c, s, n, id);
    LocalizeAlive(c, s, s', f);
  }

  lemma AliveByComplete(c: Config, s: State, n: nat, f: File, id: nat)
    requires c.W >= 2 && Inv(c, s) && AliveInv(c, s) && CanComplete(c, s, n, f, id) && s.rows[f].rank == n
    ensures AliveInv(c, DoComplete(c, s, n, f, id))
  {
    var s' := DoComplete(c, s, n, f, id);
    assert OwnerTask(s', f, id);
    OthersByComplete(c, s, n, f, id);
    LocalizeAlive(c, s, s', f);
  }

  lemma AliveByUserWrite(c: Config, s: State, n: nat, f: File, data: Bytes)
    requires c.W >= 2 && Inv(c, s) && AliveInv(c, s) && CanUserWrite(c, s, n, f)
    requires f in s.rows && s.rows[f].state == PENDING
    ensures AliveInv(c, DoUserWrite(c, s, n, f, data))
  {
    OthersByUserWrite(c, s, n, f, data);
    LocalizeAlive(c, s, DoUserWrite(c, s, n, f, data), f);
  }

  lemma AliveByBookkeeping(c: Config, s: State, n: nat, node: Node)
    requires c.W >= 2 && AliveInv(c, s) && n < c.W
    requires node.dict == s.nodes[n].dict && node.backup == s.nodes[n].backup
    ensures AliveInv(c, SetNode(s, n, node))
  {
    OthersByBookkeeping(s, n, node);
    forall f ensures Alive(c, SetNode(s, n, node), f) {
      FrameAlive(c, s, SetNode(s, n, node), f);
    }
  }

  lemma AliveByCreateEntry(c: Config, s: State, n: nat, req: Request, allocOk: bool)
    requires c.W >= 2 && AliveInv(c, s) && n < c.W
    ensures AliveInv(c, CreateEntry(s, n, req, allocOk))
  {
    var s' := CreateEntry(s, n, req, allocOk);
    OthersByCreateEntry(s, n, req, allocOk);
    assert Alive(c, s, req.file);
    LocalizeAlive(c, s, s', req.file);
  }
}
