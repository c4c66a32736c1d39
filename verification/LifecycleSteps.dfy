/** Every event a disciplined client and the nodes can cause keeps the invariant. */
module LifecycleSteps {
  import opened Lifecycle
  import opened Options
  import opened LifecycleInvariant
  import opened LifecycleFrame

  // ---------------------------------------------------------------- updates of a row

  /** Moving a row is sound once its data is where the new state says and every running reconcile
      of it tolerates the new state. */
  lemma SetStateKeeps(c: Config, s: State, f: File, st: CkState)
    requires Inv(c, s) && f in s.rows && FileOk(c, s, f) && s.rows[f].state != PENDING && st != PENDING
    requires DataOk(c, SetState(s, f, st), f)
    requires forall i :: i in s.tasks && s.tasks[i].key == f ==> TaskOk(c, SetState(s, f, st), i)
    requires st in {CACHED, BACKED_UP} || (st == PERSISTENT && c.W >= 2) ==>
               forall i, j :: OwnerTask(s, f, i) && OwnerTask(s, f, j) ==> i == j
    ensures Inv(c, SetState(s, f, st))
  {
    var s' := SetState(s, f, st);
    assert forall i :: OwnerTask(s', f, i) ==> OwnerTask(s, f, i);
    assert forall i :: WriterTask(c, s', f, i) ==> WriterTask(c, s, f, i);
    assert WorkOk(c, s', f);
    Localize(c, s, s', f);
  }

  // ---------------------------------------------------------------- stages of Reconcile

  lemma KeepPush(c: Config, s: State, id: nat)
    requires Inv(c, s) && CanPush(c, s, id)
    ensures Inv(c, SetStage(s, id, Queued))
  {
    assert FileOk(c, s, s.tasks[id].key);
    assert TaskOk(c, s, id);
    RestageKeeps(c, s, id, Queued);
  }

  lemma RequeueKeeps(c: Config, s: State, id: nat)
    requires Inv(c, s) && id in s.tasks
    ensures Inv(c, SetStage(s, id, Posting))
  {
    assert FileOk(c, s, s.tasks[id].key);
    assert TaskOk(c, s, id);
    RestageKeeps(c, s, id, Posting);
  }

  lemma KeepFetch(c: Config, s: State, id: nat, ok: bool)
    requires Inv(c, s) && CanFetch(c, s, id)
    ensures Inv(c, DoFetch(s, id, ok))
  {
    var t := s.tasks[id];
    assert FileOk(c, s, t.key);
    assert TaskOk(c, s, id);
    var r := s.rows[t.key];
    if !ok {
      RequeueKeeps(c, s, id);
    } else if r.rank != t.node && r.state != OBSOLESCENT {
      DropKeeps(c, s, id);
    } else {
      if r.rank == t.node { assert OwnerTask(s, t.key, id); }
      forall j | WriterTask(c, s, t.key, j) && Writer(c, t.(stage := Loaded(r))) ensures j == id {
        assert TaskOk(c, s, j);
        assert OwnerTask(s, t.key, j);
      }
      RestageKeeps(c, s, id, Loaded(r));
    }
  }

  lemma KeepCheck(c: Config, s: State, id: nat, ok: bool)
    requires Inv(c, s) && CanCheck(c, s, id)
    ensures Inv(c, DoCheck(c, s, id, ok))
  {
    var t := s.tasks[id];
    var snap := t.stage.snap;
    assert FileOk(c, s, t.key);
    assert TaskOk(c, s, id);
    if snap.size > 0 && Holds(s.nodes[t.node], t.node, snap, t.key) {
      KeepSameSnap(c, s, id, Checked(snap));
    } else if snap.state in {OBSOLESCENT, BROKEN} {
      DropKeeps(c, s, id);
    } else if !ok {
      RequeueKeeps(c, s, id);
    } else {
      BreakKeeps(c, s, id);
    }
  }

  lemma KeepSameSnap(c: Config, s: State, id: nat, st: Stage)
    requires Inv(c, s) && id in s.tasks && s.tasks[id].stage.Running() && st.Running()
    requires st.snap == s.tasks[id].stage.snap
    requires TaskOk(c, SetStage(s, id, st), id)
    ensures Inv(c, SetStage(s, id, st))
  {
    var f := s.tasks[id].key;
    assert FileOk(c, s, f);
    assert TaskOk(c, s, id);
    if Writer(c, s.tasks[id].(stage := st)) { assert WriterTask(c, s, f, id); }
    RestageKeeps(c, s, id, st);
  }

  /** Data found missing: only possible after the row was evicted behind the task's back. */
  lemma BreakKeeps(c: Config, s: State, id: nat)
    requires Inv(c, s) && CanCheck(c, s, id)
    requires var t := s.tasks[id]; var snap := t.stage.snap;
             snap.state !in {OBSOLESCENT, BROKEN}
             && !(snap.size > 0 && Holds(s.nodes[t.node], t.node, snap, t.key))
    ensures Inv(c, Drop(SetState(s, s.tasks[id].key, BROKEN), id))
    ensures s.tasks[id].key in s.rows && s.rows[s.tasks[id].key].state !in {PENDING, CACHED}
  {
    var t := s.tasks[id];
    var f, s1 := t.key, Drop(s, id);
    assert FileOk(c, s, f);
    assert TaskOk(c, s, id);
    DropKeeps(c, s, id);
    assert FileOk(c, s1, f);
    var s2 := SetState(s1, f, BROKEN);
    forall i | i in s1.tasks && s1.tasks[i].key == f ensures TaskOk(c, s2, i) {
      assert TaskOk(c, s1, i);
      assert WriterTask(c, s, f, i) && WriterTask(c, s, f, id) ==> i == id;
    }
    SetStateKeeps(c, s1, f, BROKEN);
    assert s2 == Drop(SetState(s, f, BROKEN), id);
  }

  lemma TouchKeeps(c: Config, s: State, f: File)
    requires Inv(c, s) && f !in s.disk
    ensures Inv(c, s.(disk := s.disk[f := []]))
  {
    var s' := s.(disk := s.disk[f := []]);
    assert FileOk(c, s, f);
    forall i | i in s'.tasks && s'.tasks[i].key == f ensures TaskOk(c, s', i) {
      assert TaskOk(c, s, i);
    }
    assert forall i :: WriterTask(c, s', f, i) ==> WriterTask(c, s, f, i);
    if f in s.rows {
      assert forall i :: OwnerTask(s', f, i) ==> OwnerTask(s, f, i);
      assert DataOk(c, s', f) && WorkOk(c, s', f);
    }
    Localize(c, s, s', f);
  }

  lemma KeepSkip(c: Config, s: State, id: nat, touch: bool)
    requires Inv(c, s) && CanSkip(c, s, id)
    ensures Inv(c, DoSkip(c, s, id, touch))
  {
    var t := s.tasks[id];
    DropKeeps(c, s, id);
    if touch && t.stage.snap.state in {CACHED, BACKED_UP} && t.key !in s.disk {
      TouchKeeps(c, Drop(s, id), t.key);
      assert Drop(s, id).(disk := s.disk[t.key := []]) == DoSkip(c, s, id, touch);
    }
  }

  /** A task that is copying belongs to the owner. */
  lemma CopierIsOwner(c: Config, s: State, id: nat)
    requires Inv(c, s) && id in s.tasks && s.tasks[id].stage.Running()
    requires CopiesToPeer(c, s.tasks[id].stage.snap) || CopiesToDisk(c, s.tasks[id].stage.snap)
    ensures TaskOk(c, s, id) && FileOk(c, s, s.tasks[id].key) && s.tasks[id].key in s.rows
    ensures s.tasks[id].node == s.rows[s.tasks[id].key].rank
    ensures WriterTask(c, s, s.tasks[id].key, id)
  {
    assert FileOk(c, s, s.tasks[id].key);
    assert TaskOk(c, s, id);
  }

  lemma KeepBegin(c: Config, s: State, id: nat)
    requires Inv(c, s) && CanBegin(c, s, id)
    ensures Inv(c, DoBegin(c, s, id))
  {
    var t := s.tasks[id];
    var snap := t.stage.snap;
    CopierIsOwner(c, s, id);
    if CopiesToDisk(c, snap) {
      DiskKeeps(c, s, id, []);
      var s1 := s.(disk := s.disk[t.key := []]);
      CopierIsOwner(c, s1, id);
      KeepSameSnap(c, s1, id, Copying(snap, Live));
    } else {
      KeepSameSnap(c, s, id, DoBegin(c, s, id).tasks[id].stage);
    }
  }

  /** Nobody else writes to the file's backup, so nobody is orphaned. */
  lemma NoneOrphaned(c: Config, s: State, id: nat, x: nat)
    requires Inv(c, s) && id in s.tasks && s.tasks[id].stage.Copying? && !s.tasks[id].stage.place.Live?
    requires CopiesToPeer(c, s.tasks[id].stage.snap)
    ensures Orphan(c, s.tasks, x, s.tasks[id].key) == s.tasks
  {
    var f := s.tasks[id].key;
    CopierIsOwner(c, s, id);
    forall i | i in s.tasks ensures !WritesTo(c, s.tasks[i], x, f) {
      if WritesTo(c, s.tasks[i], x, f) { assert WriterTask(c, s, f, i); }
    }
  }

  lemma KeepInstall(c: Config, s: State, id: nat)
    requires Inv(c, s) && CanInstall(c, s, id)
    ensures Inv(c, DoInstall(c, s, id))
  {
    var t := s.tasks[id];
    var snap, x := t.stage.snap, Next(c, t.node);
    NoneOrphaned(c, s, id, x);
    BackupKeeps(c, s, id, Zeros(snap.size), s.replaced);
    var s1 := PutBackup(s, x, t.key, Zeros(snap.size));
    assert PutFresh(c, s, x, t.key, snap.size) == s1;
    CopierIsOwner(c, s1, id);
    KeepSameSnap(c, s1, id, Copying(snap, Live));
  }

  lemma KeepArrive(c: Config, s: State, id: nat, data: Bytes)
    requires Inv(c, s) && CanArrive(c, s, id, data)
    ensures Inv(c, DoArrive(c, s, id, data))
  {
    var t := s.tasks[id];
    assert FileOk(c, s, t.key);
    assert TaskOk(c, s, id);
    if CopiesToPeer(c, t.stage.snap) {
      BackupKeeps(c, s, id, data, s.replaced);
    } else {
      DiskKeeps(c, s, id, data);
    }
  }

  lemma PostPeerKeeps(c: Config, s: State, id: nat, f: File)
    requires Inv(c, s) && id !in s.tasks && f in s.rows && c.W >= 2 && s.rows[f].rank < c.W
    ensures Inv(c, Post(s, id, Next(c, s.rows[f].rank), f))
  {
    assert FileOk(c, s, f);
    PostKeeps(c, s, id, Next(c, s.rows[f].rank), f);
  }

  lemma KeepFail(c: Config, s: State, id: nat, post: Option<nat>, lingers: bool)
    requires Inv(c, s) && CanFail(c, s, id, post, lingers)
    ensures Inv(c, DoFail(c, s, id, post, lingers))
  {
    var t := s.tasks[id];
    var snap, x := t.stage.snap, Next(c, t.node);
    CopierIsOwner(c, s, id);
    if CopiesToPeer(c, snap) {
      var l := Late(x, t.key, snap.size);
      LingerKeeps(c, s, l);
      var s1 := if lingers then s.(late := s.late + {l}) else s;
      RequeueKeeps(c, s1, id);
      if post.Some? { PostPeerKeeps(c, SetStage(s1, id, Posting), post.value, t.key); }
    } else if snap.state == CACHED {
      RequeueKeeps(c, s, id);
    } else {
      DropKeeps(c, s, id);
      ForgetKeeps(c, Drop(s, id), s.diskFailed + {t.key});
    }
  }

  lemma LingerKeeps(c: Config, s: State, l: Late)
    requires Inv(c, s) && LateOk(c, s, l)
    ensures Inv(c, s.(late := s.late + {l}))
  {
    var s' := s.(late := s.late + {l});
    forall f ensures FileOk(c, s', f) {
      assert FileOk(c, s, f);
      forall i | i in s'.tasks && s'.tasks[i].key == f ensures TaskOk(c, s', i) { assert TaskOk(c, s, i); }
      assert forall i :: WriterTask(c, s', f, i) ==> WriterTask(c, s, f, i);
      if f in s.rows {
        assert forall i :: OwnerTask(s', f, i) ==> OwnerTask(s, f, i);
        assert DataOk(c, s', f) && WorkOk(c, s', f);
      }
    }
  }

  lemma ForgetKeeps(c: Config, s: State, failed: set<File>)
    requires Inv(c, s)
    ensures Inv(c, s.(diskFailed := failed))
  {
    var s' := s.(diskFailed := failed);
    forall f ensures FileOk(c, s', f) {
      assert FileOk(c, s, f);
      forall i | i in s'.tasks && s'.tasks[i].key == f ensures TaskOk(c, s', i) {
        assert TaskOk(c, s, i);
      }
      assert forall i :: WriterTask(c, s', f, i) ==> WriterTask(c, s, f, i);
      if f in s.rows {
        assert forall i :: OwnerTask(s', f, i) ==> OwnerTask(s, f, i);
        assert DataOk(c, s', f) && WorkOk(c, s', f);
      }
    }
  }

  lemma KeepFinish(c: Config, s: State, id: nat, post: Option<nat>)
    requires Inv(c, s) && CanFinish(c, s, id, post)
    ensures Inv(c, DoFinish(c, s, id, post))
  {
    var t := s.tasks[id];
    var snap, x := t.stage.snap, Next(c, t.node);
    CopierIsOwner(c, s, id);
    var data := Take(s.nodes[t.node].dict[t.key], snap.size);
    assert data == s.saved[t.key];
    if CopiesToPeer(c, snap) {
      var s1 := s;
      if t.stage.place.Live? {
        BackupKeeps(c, s, id, data, s.replaced - {t.key});
        s1 := PutBackup(s, x, t.key, data).(replaced := s.replaced - {t.key});
      }
      CopierIsOwner(c, s1, id);
      KeepSameSnap(c, s1, id, Copied(snap));
      if post.Some? { PostPeerKeeps(c, SetStage(s1, id, Copied(snap)), post.value, t.key); }
    } else {
      DiskKeeps(c, s, id, data);
      var s1 := s.(disk := s.disk[t.key := data]);
      CopierIsOwner(c, s1, id);
      KeepSameSnap(c, s1, id, Copied(snap));
    }
  }

  /** A late handler puts fresh memory in place of the backup, and of what a copy is being written to. */
  lemma KeepLateSave(c: Config, s: State, l: Late, last: bool)
    requires Inv(c, s) && CanLateSave(c, s, l)
    ensures Inv(c, DoLateSave(c, s, l, last))
  {
    var f, s' := l.file, DoLateSave(c, s, l, last);
    assert FileOk(c, s, f);
    LateTasks(c, s, l, last);
    assert forall i :: OwnerTask(s', f, i) ==> OwnerTask(s, f, i);
    assert forall i :: WriterTask(c, s', f, i) ==> WriterTask(c, s, f, i);
    assert DataOk(c, s', f) && WorkOk(c, s', f);
    OthersByLateSave(c, s, l, last);
    Localize(c, s, s', f);
  }

  lemma LateTasks(c: Config, s: State, l: Late, last: bool)
    requires Inv(c, s) && CanLateSave(c, s, l) && FileOk(c, s, l.file)
    ensures var s' := DoLateSave(c, s, l, last);
            forall i :: i in s'.tasks && s.tasks[i].key == l.file ==> TaskOk(c, s', i)
  {
    var s' := DoLateSave(c, s, l, last);
    forall i | i in s'.tasks && s.tasks[i].key == l.file ensures TaskOk(c, s', i) { assert TaskOk(c, s, i); }
  }

  lemma KeepUpdate(c: Config, s: State, id: nat, ok: bool)
    requires Inv(c, s) && CanUpdate(c, s, id)
    ensures Inv(c, DoUpdate(c, s, id, ok))
  {
    var t := s.tasks[id];
    var f, snap := t.key, t.stage.snap;
    assert FileOk(c, s, f);
    assert TaskOk(c, s, id);
    CopierIsOwner(c, s, id);
    RequeueKeeps(c, s, id);
    if ok {
      var s1 := SetStage(s, id, Posting);
      assert FileOk(c, s1, f);
      var to := StateAfterCopy(c, snap);
      var s2 := SetState(s1, f, to);
      assert OwnerTask(s1, f, id);
      forall i | i in s1.tasks && s1.tasks[i].key == f ensures TaskOk(c, s2, i) {
        assert TaskOk(c, s1, i);
        if i != id {
          assert !WriterTask(c, s, f, i);
          assert c.W >= 2 ==> !OwnerTask(s1, f, i);
        }
      }
      SetStateKeeps(c, s1, f, to);
      assert s2 == SetStage(SetState(s, f, to), id, Posting);
    }
  }

  lemma KeepNotify(c: Config, s: State, id: nat, ok: bool, post: Option<nat>)
    requires Inv(c, s) && CanNotify(c, s, id, ok, post)
    ensures Inv(c, DoNotify(c, s, id, ok, post))
  {
    var t := s.tasks[id];
    assert FileOk(c, s, t.key);
    assert TaskOk(c, s, id);
    var s1 := SetStage(s, id, if ok then Notified(t.stage.snap) else Posting);
    if ok { KeepSameSnap(c, s, id, Notified(t.stage.snap)); } else { RequeueKeeps(c, s, id); }
    if post.Some? { PostPeerKeeps(c, s1, post.value, t.key); }
  }

  /** Local memory is freed only while the row is OBSOLESCENT or BROKEN (or, alone in the world,
      written back by an overtaken reconcile). */
  lemma FreeKeeps(c: Config, s: State, id: nat)
    requires Inv(c, s) && CanDelete(c, s, id)
    ensures var t := s.tasks[id];
            Inv(c, SetNode(s, t.node, StorageDelete(s.nodes[t.node], t.node, t.stage.snap, t.key)))
  {
    var t := s.tasks[id];
    assert FileOk(c, s, t.key);
    FreedFile(c, s, id);
    hide FileOk;
    Localize(c, s, SetNode(s, t.node, StorageDelete(s.nodes[t.node], t.node, t.stage.snap, t.key)), t.key);
  }

  lemma FreedFile(c: Config, s: State, id: nat)
    requires Inv(c, s) && CanDelete(c, s, id)
    ensures var t := s.tasks[id];
            FileOk(c, SetNode(s, t.node, StorageDelete(s.nodes[t.node], t.node, t.stage.snap, t.key)), t.key)
  {
    var t := s.tasks[id];
    var f := t.key;
    assert FileOk(c, s, f);
    assert TaskOk(c, s, id);
    var s' := SetNode(s, t.node, StorageDelete(s.nodes[t.node], t.node, t.stage.snap, f));
    forall i | i in s'.tasks && s'.tasks[i].key == f ensures TaskOk(c, s', i) {
      assert TaskOk(c, s, i);
    }
    assert forall i :: OwnerTask(s', f, i) ==> OwnerTask(s, f, i);
    assert forall i :: WriterTask(c, s', f, i) ==> WriterTask(c, s, f, i);
    assert DataOk(c, s', f);
  }

  lemma KeepDelete(c: Config, s: State, id: nat)
    requires Inv(c, s) && CanDelete(c, s, id)
    ensures Inv(c, DoDelete(c, s, id))
  {
    var t := s.tasks[id];
    FreeKeeps(c, s, id);
    DropKeeps(c, SetNode(s, t.node, StorageDelete(s.nodes[t.node], t.node, t.stage.snap, t.key)), id);
  }

  // ---------------------------------------------------------------- handlers and the client

  /** The iteration list and the eviction under way are no concern of the invariant. */
  lemma BookkeepingKeeps(c: Config, s: State, n: nat, node: Node)
    requires Inv(c, s) && n < c.W && node.dict == s.nodes[n].dict && node.backup == s.nodes[n].backup
    ensures Inv(c, SetNode(s, n, node))
  {
    forall f ensures FileOk(c, SetNode(s, n, node), f) {
      assert FileOk(c, s, f);
      FrameFile(c, s, SetNode(s, n, node), f);
    }
  }

  lemma KeepMarkEvict(c: Config, s: State, n: nat, id: nat)
    requires Inv(c, s) && CanMarkEvict(c, s, n, id)
    requires var r := s.rows[s.nodes[n].eviction.todo[0]];
             r.rank == n && r.state != PENDING && !WaitsFor(c, r.state)
    ensures Inv(c, DoMarkEvict(c, s, n, id))
  {
    var ev := s.nodes[n].eviction;
    var f := ev.todo[0];
    var s1 := SetEviction(s, n, ev.(marked := true));
    BookkeepingKeeps(c, s, n, s.nodes[n].(eviction := ev.(marked := true)));
    assert FileOk(c, s1, f);
    var s2 := SetState(s1, f, OBSOLESCENT);
    forall i | i in s1.tasks && s1.tasks[i].key == f ensures TaskOk(c, s2, i) {
      assert TaskOk(c, s1, i);
    }
    SetStateKeeps(c, s1, f, OBSOLESCENT);
    assert FileOk(c, s2, f);
    PostKeeps(c, s2, id, n, f);
  }

  lemma KeepComplete(c: Config, s: State, n: nat, f: File, id: nat)
    requires Inv(c, s) && CanComplete(c, s, n, f, id)
    requires s.rows[f].rank == n && s.rows[f].state == PENDING
    ensures Inv(c, DoComplete(c, s, n, f, id))
  {
    assert FileOk(c, s, f);
    var s1 := SetState(s, f, CACHED).(saved := s.saved[f := s.nodes[n].dict[f]],
                                      diskFailed := s.diskFailed - {f});
    forall i | i in s1.tasks && s1.tasks[i].key == f ensures TaskOk(c, s1, i) {
      assert TaskOk(c, s, i);
    }
    assert DataOk(c, s1, f) && WorkOk(c, s1, f);
    Localize(c, s, s1, f);
    assert FileOk(c, s1, f);
    PostKeeps(c, s1, id, n, f);
  }

  lemma KeepUserWrite(c: Config, s: State, n: nat, f: File, data: Bytes)
    requires Inv(c, s) && CanUserWrite(c, s, n, f)
    requires f in s.rows && s.rows[f].rank == n && s.rows[f].state == PENDING && |data| == s.rows[f].size
    ensures Inv(c, DoUserWrite(c, s, n, f, data))
  {
    var s' := DoUserWrite(c, s, n, f, data);
    assert FileOk(c, s, f);
    forall i | i in s'.tasks && s'.tasks[i].key == f ensures TaskOk(c, s', i) {
      assert TaskOk(c, s, i);
    }
    assert DataOk(c, s', f) && WorkOk(c, s', f);
    Localize(c, s, s', f);
  }

  lemma KeepCreateEntry(c: Config, s: State, n: nat, req: Request, allocOk: bool)
    requires Inv(c, s) && n < c.W && MaySave(s, n, req)
    ensures Inv(c, CreateEntry(s, n, req, allocOk))
  {
    var s', f := CreateEntry(s, n, req, allocOk), req.file;
    assert FileOk(c, s, f);
    if req.size > 0 && allocOk {
      forall i | i in s'.tasks && s'.tasks[i].key == f ensures TaskOk(c, s', i) {
        assert TaskOk(c, s, i);
      }
      assert DataOk(c, s', f) && WorkOk(c, s', f);
      Localize(c, s, s', f);
    }
  }

  lemma KeepCreate(c: Config, s: State, n: nat, req: Request, allocOk: bool)
    requires Inv(c, s) && CanCreate(c, s, n, req) && MaySave(s, n, req)
    ensures Inv(c, DoCreate(c, s, n, req, allocOk))
  {
    var iter := req.iteration;
    if iter.Some? && iter.value !in s.nodes[n].iters {
      BookkeepingKeeps(c, s, n, s.nodes[n].(iters := s.nodes[n].iters + [iter.value]));
    }
    KeepCreateEntry(c, PushIteration(s, n, iter), n, req, allocOk);
  }

  lemma KeepFinishEvict(c: Config, s: State, n: nat, allocOk: bool)
    requires Inv(c, s) && CanFinishEvict(c, s, n) && MaySave(s, n, s.nodes[n].eviction.req)
    ensures Inv(c, DoFinishEvict(c, s, n, allocOk))
  {
    var req := s.nodes[n].eviction.req;
    var node := s.nodes[n].(eviction := Idle, iters := s.nodes[n].iters[1..] + [req.iteration.value]);
    BookkeepingKeeps(c, s, n, node);
    KeepCreateEntry(c, SetNode(s, n, node), n, req, allocOk);
  }
}
