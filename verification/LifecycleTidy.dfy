/** With quiet evictions no row is ever BROKEN, and an eviction also frees the peer's copy. */
module LifecycleTidy {
  import opened Lifecycle
  import opened Options
  import opened LifecycleInvariant
  import opened LifecycleFrame
  import opened LifecycleSteps
  import opened LifecycleWork

  /** An event on task `id` that leaves the row alone. */
  lemma TidyAfterTask(c: Config, s: State, s': State, id: nat)
    requires c.W >= 2 && |s.nodes| == c.W && id in s.tasks && TidyInv(c, s)
    requires Only(s, s', s.tasks[id].key) && SameRowAndTasks(s, s', id, s.tasks[id].key)
    requires s.rows[s.tasks[id].key].rank < c.W
    requires var f := s.tasks[id].key; var o := s.rows[f].rank; var x := Next(c, o);
             && (forall i :: OwnerTask(s', f, i) && i != id ==> OwnerTask(s, f, i) && s'.tasks[i] == s.tasks[i])
             && (OwnerTask(s', f, id) ==> UpToDate(s.rows[f], s'.tasks[id].stage))
             && (NotifiedTask(s', f, id) && !NotifiedTask(s, f, id) ==> HasAwake(s', x, f))
             && (s.rows[f].state == OBSOLESCENT ==>
                   && (f in s'.nodes[x].backup ==> f in s.nodes[x].backup)
                   && (f !in s'.nodes[o].dict && f in s.nodes[o].dict ==> NotifiedTask(s, f, id))
                   && (f in s'.nodes[x].backup && Awake(s, x, f, id) ==> Awake(s', x, f, id)))
    ensures TidyInv(c, s')
  {
    var f := s.tasks[id].key;
    var o := s.rows[f].rank;
    var x := Next(c, o);
    assert Tidy(c, s, f);
    if s.rows[f].state == OBSOLESCENT && f in s'.nodes[x].backup && Freeing(s', f) && !HasAwake(s', x, f) {
      assert Freeing(s, f) by {
        if f in s'.nodes[o].dict {
          var i :| NotifiedTask(s', f, i);
          assert NotifiedTask(s, f, i);
        }
      }
      AwakeCarried(s, s', x, f, id);
    }
    LocalizeTidy(c, s, s', f);
  }

  ghost predicate TidyPre(c: Config, s: State) { c.W >= 2 && Inv(c, s) && TidyInv(c, s) }

  lemma TidyByPush(c: Config, s: State, id: nat)
    requires TidyPre(c, s) && CanPush(c, s, id)
    ensures TidyInv(c, SetStage(s, id, Queued))
  {
    assert FileOk(c, s, s.tasks[id].key) && TaskOk(c, s, id);
    OthersByStage(s, id, Queued);
    TidyAfterTask(c, s, SetStage(s, id, Queued), id);
  }

  lemma TidyByFetch(c: Config, s: State, id: nat, ok: bool)
    requires TidyPre(c, s) && CanFetch(c, s, id)
    ensures TidyInv(c, DoFetch(s, id, ok))
  {
    assert FileOk(c, s, s.tasks[id].key) && TaskOk(c, s, id) && Tidy(c, s, s.tasks[id].key);
    OthersByFetch(c, s, id, ok);
    TidyAfterTask(c, s, DoFetch(s, id, ok), id);
  }

  lemma TidyByCheck(c: Config, s: State, id: nat, ok: bool)
    requires TidyPre(c, s) && CanCheck(c, s, id)
    ensures TidyInv(c, DoCheck(c, s, id, ok))
  {
    var f := s.tasks[id].key;
    assert FileOk(c, s, f) && TaskOk(c, s, id) && Tidy(c, s, f);
    if s.tasks[id].node == s.rows[f].rank { assert OwnerTask(s, f, id); }
    OthersByCheck(c, s, id, ok);
    TidyAfterTask(c, s, DoCheck(c, s, id, ok), id);
  }

  lemma TidyBySkip(c: Config, s: State, id: nat, touch: bool)
    requires TidyPre(c, s) && CanSkip(c, s, id)
    ensures TidyInv(c, DoSkip(c, s, id, touch))
  {
    assert FileOk(c, s, s.tasks[id].key) && TaskOk(c, s, id);
    OthersBySkip(c, s, id, touch);
    TidyAfterTask(c, s, DoSkip(c, s, id, touch), id);
  }

  lemma TidyByBegin(c: Config, s: State, id: nat)
    requires TidyPre(c, s) && CanBegin(c, s, id)
    ensures TidyInv(c, DoBegin(c, s, id))
  {
    assert FileOk(c, s, s.tasks[id].key) && TaskOk(c, s, id);
    OthersByBegin(c, s, id);
    TidyAfterTask(c, s, DoBegin(c, s, id), id);
  }

  lemma TidyByInstall(c: Config, s: State, id: nat)
    requires TidyPre(c, s) && CanInstall(c, s, id)
    ensures TidyInv(c, DoInstall(c, s, id))
  {
    assert FileOk(c, s, s.tasks[id].key) && TaskOk(c, s, id);
    NoneOrphaned(c, s, id, Next(c, s.tasks[id].node));
    OthersByInstall(c, s, id);
    TidyAfterTask(c, s, DoInstall(c, s, id), id);
  }

  lemma TidyByArrive(c: Config, s: State, id: nat, data: Bytes)
    requires TidyPre(c, s) && CanArrive(c, s, id, data)
    ensures TidyInv(c, DoArrive(c, s, id, data))
  {
    var f, s' := s.tasks[id].key, DoArrive(c, s, id, data);
    assert FileOk(c, s, f) && TaskOk(c, s, id) && Tidy(c, s, f);
    assert forall i :: OwnerTask(s', f, i) ==> OwnerTask(s, f, i);
    OthersByArrive(c, s, id, data);
    LocalizeTidy(c, s, s', f);
  }

  lemma TidyByFail(c: Config, s: State, id: nat, post: Option<nat>, lingers: bool)
    requires TidyPre(c, s) && CanFail(c, s, id, post, lingers)
    ensures TidyInv(c, DoFail(c, s, id, post, lingers))
  {
    assert FileOk(c, s, s.tasks[id].key) && TaskOk(c, s, id);
    OthersByFail(c, s, id, post, lingers);
    TidyAfterTask(c, s, DoFail(c, s, id, post, lingers), id);
  }

  lemma TidyByFinish(c: Config, s: State, id: nat, post: Option<nat>)
    requires TidyPre(c, s) && CanFinish(c, s, id, post)
    ensures TidyInv(c, DoFinish(c, s, id, post))
  {
    assert FileOk(c, s, s.tasks[id].key) && TaskOk(c, s, id);
    OthersByFinish(c, s, id, post);
    TidyAfterTask(c, s, DoFinish(c, s, id, post), id);
  }

  lemma TidyByUpdate(c: Config, s: State, id: nat, ok: bool)
    requires TidyPre(c, s) && CanUpdate(c, s, id)
    ensures TidyInv(c, DoUpdate(c, s, id, ok))
  {
    var f, s' := s.tasks[id].key, DoUpdate(c, s, id, ok);
    assert FileOk(c, s, f) && TaskOk(c, s, id) && Tidy(c, s, f);
    OthersByUpdate(c, s, id, ok);
    assert OwnerTask(s, f, id);
    assert forall i :: OwnerTask(s', f, i) ==> OwnerTask(s, f, i);
    LocalizeTidy(c, s, s', f);
  }

  lemma TidyByNotify(c: Config, s: State, id: nat, ok: bool, post: Option<nat>)
    requires TidyPre(c, s) && CanNotify(c, s, id, ok, post)
    ensures TidyInv(c, DoNotify(c, s, id, ok, post))
  {
    var f, s' := s.tasks[id].key, DoNotify(c, s, id, ok, post);
    assert FileOk(c, s, f) && TaskOk(c, s, id);
    OthersByNotify(c, s, id, ok, post);
    if ok { assert Awake(s', Next(c, s.rows[f].rank), f, post.value); }
    TidyAfterTask(c, s, s', id);
  }

  lemma TidyByDelete(c: Config, s: State, id: nat)
    requires TidyPre(c, s) && CanDelete(c, s, id)
    ensures TidyInv(c, DoDelete(c, s, id))
  {
    assert FileOk(c, s, s.tasks[id].key) && TaskOk(c, s, id);
    OthersByDelete(c, s, id);
    TidyAfterTask(c, s, DoDelete(c, s, id), id);
  }

  lemma TidyByMarkEvict(c: Config, s: State, n: nat, id: nat)
    requires TidyPre(c, s) && CanMarkEvict(c, s, n, id)
    requires var f := s.nodes[n].eviction.todo[0];
             && s.rows[f].rank == n && s.rows[f].state != PENDING
             && !HasReader(s, n, f)
    ensures TidyInv(c, DoMarkEvict(c, s, n, id))
  {
    var f, s' := s.nodes[n].eviction.todo[0], DoMarkEvict(c, s, n, id);
    var x := Next(c, n);
    assert FileOk(c, s, f) && Tidy(c, s, f);
    OthersByMarkEvict(c, s, n, id);
    forall i | OwnerTask(s', f, i) && i != id ensures OwnerTask(s, f, i) && TaskOk(c, s, i) && !Reader(s, n, f, i) {}
    if f in s'.nodes[x].backup && Freeing(s', f) {
      assert s.rows[f].state == OBSOLESCENT && Freeing(s, f) by {
        if f in s'.nodes[n].dict {
          var i :| NotifiedTask(s', f, i);
          assert NotifiedTask(s, f, i);
        }
      }
      AwakeCarried(s, s', x, f, id);
    }
    LocalizeTidy(c, s, s', f);
  }

  lemma TidyByComplete(c: Config, s: State, n: nat, f: File, id: nat)
    requires TidyPre(c, s) && CanComplete(c, s, n, f, id)
    requires s.rows[f].rank == n && s.rows[f].state == PENDING
    ensures TidyInv(c, DoComplete(c, s, n, f, id))
  {
    var s' := DoComplete(c, s, n, f, id);
    assert FileOk(c, s, f) && Tidy(c, s, f);
    assert forall i :: OwnerTask(s', f, i) ==> i == id;
    OthersByComplete(c, s, n, f, id);
    LocalizeTidy(c, s, s', f);
  }

  lemma TidyByUserWrite(c: Config, s: State, n: nat, f: File, data: Bytes)
    requires TidyPre(c, s) && CanUserWrite(c, s, n, f)
    requires f in s.rows && s.rows[f].state == PENDING
    ensures TidyInv(c, DoUserWrite(c, s, n, f, data))
  {
    var s' := DoUserWrite(c, s, n, f, data);
    assert Tidy(c, s, f);
    assert forall i :: OwnerTask(s', f, i) ==> OwnerTask(s, f, i);
    OthersByUserWrite(c, s, n, f, data);
    LocalizeTidy(c, s, s', f);
  }

  lemma TidyByBookkeeping(c: Config, s: State, n: nat, node: Node)
    requires c.W >= 2 && TidyInv(c, s) && n < c.W
    requires node.dict == s.nodes[n].dict && node.backup == s.nodes[n].backup
    ensures TidyInv(c, SetNode(s, n, node))
  {
    OthersByBookkeeping(s, n, node);
    forall f ensures Tidy(c, SetNode(s, n, node), f) {
      FrameTidy(c, s, SetNode(s, n, node), f);
    }
  }

  lemma TidyByCreateEntry(c: Config, s: State, n: nat, req: Request, allocOk: bool)
    requires TidyPre(c, s) && n < c.W && MaySave(s, n, req)
    ensures TidyInv(c, CreateEntry(s, n, req, allocOk))
  {
    var s', f := CreateEntry(s, n, req, allocOk), req.file;
    assert FileOk(c, s, f) && Tidy(c, s, f);
    OthersByCreateEntry(s, n, req, allocOk);
    LocalizeTidy(c, s, s', f);
  }
}
