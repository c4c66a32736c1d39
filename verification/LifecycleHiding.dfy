/** Hiding one file from a run leaves a run: what happens to one file is no concern of the others. */
module LifecycleHiding {
  import opened Lifecycle
  import opened Options
  import opened LifecycleInvariant
  import opened LifecycleCache
  import opened LifecycleFrame

  // ---------------------------------------------------------------- a state without one file

  function Bare(node: Node, f: File): Node { node.(dict := node.dict - {f}, backup := node.backup - {f}) }

  function Others(tasks: map<nat, Task>, f: File): map<nat, Task> {
    map i | i in tasks && tasks[i].key != f :: tasks[i]
  }

  function Elsewhere(late: set<Late>, f: File): set<Late> { set l | l in late && l.file != f }

  function Without(s: State, f: File): State {
    State(s.rows - {f}, seq(|s.nodes|, n requires 0 <= n < |s.nodes| => Bare(s.nodes[n], f)), s.disk - {f},
          Others(s.tasks, f), s.saved - {f}, s.diskFailed - {f}, Elsewhere(s.late, f), s.replaced - {f})
  }

  /** No eviction lists the file. */
  ghost predicate Unlisted(s: State, f: File) {
    forall n :: 0 <= n < |s.nodes| && s.nodes[n].eviction.Evicting? ==> f !in s.nodes[n].eviction.todo
  }

  lemma SameButHidden(s: State, f: File, g: File)
    requires g != f
    ensures SameFile(s, Without(s, f), g) && SameFile(Without(s, f), s, g)
  {
  }

  /** The rest of a sound state is sound. */
  lemma HidingKeeps(c: Config, s: State, f: File)
    requires Inv(c, s) && CacheInv(c, s) && Unlisted(s, f)
    ensures Inv(c, Without(s, f)) && CacheInv(c, Without(s, f))
  {
    var s' := Without(s, f);
    forall g ensures FileOk(c, s', g) {
      if g != f {
        assert FileOk(c, s, g);
        SameButHidden(s, f, g);
        FrameFile(c, s, s', g);
      }
    }
    forall n | 0 <= n < c.W ensures CacheOk(c, s', n) {
      assert CacheOk(c, s, n);
      assert forall g :: InOldest(s', n, g) ==> InOldest(s, n, g);
      if s'.nodes[n].eviction.Evicting? {
        forall g | g in s'.nodes[n].eviction.todo ensures ListedOk(c, s', n, g) { assert ListedOk(c, s, n, g); }
      }
    }
  }

  // ---------------------------------------------------------------- whom an event is about

  /** The event may change what is known of `f`. */
  predicate About(s: State, e: Event, f: File) {
    match e
    case Create(_, req, allocOk) => req.file == f && req.size > 0 && allocOk
    case FinishEvict(n, allocOk) =>
      n < |s.nodes| && s.nodes[n].eviction.Evicting? && s.nodes[n].eviction.req.file == f
      && s.nodes[n].eviction.req.size > 0 && allocOk
    case Complete(_, g, _) => g == f
    case Report(_, g, _, _) => g == f
    case Stray(_, g, _) => g == f
    case UserWrite(_, g, _) => g == f
    case BeginEvict(_, _, _) => false
    case Reread(_) => false
    case MarkEvict(_, _) => false
    case EvictNext(_) => false
    case AbortEvict(_) => false
    case LateSave(l, _) => l.file == f
    case _ => e.id in s.tasks && s.tasks[e.id].key == f
  }

  // ---------------------------------------------------------------- events about other files

  lemma HideStage(s: State, id: nat, st: Stage, f: File)
    requires id in s.tasks && s.tasks[id].key != f
    ensures Without(SetStage(s, id, st), f) == SetStage(Without(s, f), id, st)
  {
  }

  /** What an event on a task reads. */
  lemma Visible(c: Config, s: State, id: nat, f: File)
    requires TaskAt(c, s, id) && s.tasks[id].key != f
    ensures var h, t := Without(s, f), s.tasks[id];
            && TaskAt(c, h, id) && h.tasks[id] == t && SameIn(s.rows, h.rows, t.key) && SameIn(s.disk, h.disk, t.key)
            && SameIn(s.nodes[t.node].dict, h.nodes[t.node].dict, t.key)
            && SameIn(s.nodes[t.node].backup, h.nodes[t.node].backup, t.key)
  {
  }

  lemma HideDrop(s: State, id: nat, f: File)
    ensures Without(Drop(s, id), f) == Drop(Without(s, f), id)
  {
  }

  lemma HidePost(s: State, post: Option<nat>, n: nat, g: File, f: File)
    requires g != f && FreshIf(s, post)
    ensures Without(PostIf(s, post, n, g), f) == PostIf(Without(s, f), post, n, g) && FreshIf(Without(s, f), post)
  {
  }

  lemma HideState(s: State, g: File, st: CkState, f: File)
    requires g != f
    ensures Without(SetState(s, g, st), f) == SetState(Without(s, f), g, st)
  {
  }

  lemma HideBackup(s: State, x: nat, g: File, data: Bytes, f: File)
    requires g != f && x < |s.nodes|
    ensures Without(PutBackup(s, x, g, data), f) == PutBackup(Without(s, f), x, g, data)
  {
    assert s.nodes[x].backup[g := data] - {f} == (s.nodes[x].backup - {f})[g := data];
    assert Without(PutBackup(s, x, g, data), f).nodes == PutBackup(Without(s, f), x, g, data).nodes;
  }

  lemma HideDisk(s: State, g: File, data: Bytes, f: File)
    requires g != f
    ensures Without(s.(disk := s.disk[g := data]), f)
         == Without(s, f).(disk := Without(s, f).disk[g := data])
  {
  }

  lemma HideOrphan(c: Config, tasks: map<nat, Task>, x: nat, g: File, f: File)
    requires g != f && c.W > 0
    ensures Others(Orphan(c, tasks, x, g), f) == Orphan(c, Others(tasks, f), x, g)
  {
  }

  /** Eviction and iterations of a node are not hidden. */
  lemma HideNode(s: State, n: nat, ev: Eviction, iters: seq<nat>, f: File)
    requires n < |s.nodes|
    ensures Without(SetNode(s, n, s.nodes[n].(eviction := ev, iters := iters)), f)
         == SetNode(Without(s, f), n, Without(s, f).nodes[n].(eviction := ev, iters := iters))
  {
    assert Without(SetNode(s, n, s.nodes[n].(eviction := ev, iters := iters)), f).nodes
        == SetNode(Without(s, f), n, Without(s, f).nodes[n].(eviction := ev, iters := iters)).nodes;
  }

  lemma HideEntry(s: State, n: nat, req: Request, allocOk: bool, f: File)
    requires n < |s.nodes| && (req.file == f ==> req.size == 0 || !allocOk)
    ensures Without(CreateEntry(s, n, req, allocOk), f) == CreateEntry(Without(s, f), n, req, allocOk)
  {
    if req.size > 0 && allocOk {
      var s1, s2 := Without(CreateEntry(s, n, req, allocOk), f), CreateEntry(Without(s, f), n, req, allocOk);
      assert s.nodes[n].dict[req.file := Zeros(req.size)] - {f} == (s.nodes[n].dict - {f})[req.file := Zeros(req.size)];
      assert s1.nodes == s2.nodes && s1.rows == s2.rows;
    }
  }

  /** What is asked of an event about another file holds without `f`, and its effect is the same. */
  ghost predicate Projects(c: Config, s: State, e: Event, f: File)
    requires CanHappen(c, s, e)
  {
    Permits(DisciplinedClient, c, Without(s, f), e) && Without(Apply(c, s, e), f) == Apply(c, Without(s, f), e)
  }

  lemma ProjectCreate(c: Config, s: State, e: Event, f: File)
    requires e.Create?
    requires Permits(DisciplinedClient, c, s, e) && !About(s, e, f)
    ensures Projects(c, s, e, f)
  {
    HideCreate(c, s, e.n, e.req, e.allocOk, f);
    MaySaveHidden(s, e.n, e.req, f);
    hide DoCreate, CanCreate, Without, MaySave;
  }

  lemma HideCreate(c: Config, s: State, n: nat, req: Request, allocOk: bool, f: File)
    requires CanCreate(c, s, n, req) && (req.file == f ==> req.size == 0 || !allocOk)
    ensures CanCreate(c, Without(s, f), n, req)
    ensures Without(DoCreate(c, s, n, req, allocOk), f) == DoCreate(c, Without(s, f), n, req, allocOk)
  {
    hide CreateEntry;
    if req.iteration.Some? && req.iteration.value !in s.nodes[n].iters {
      HideNode(s, n, s.nodes[n].eviction, s.nodes[n].iters + [req.iteration.value], f);
    }
    HideEntry(PushIteration(s, n, req.iteration), n, req, allocOk, f);
  }

  lemma MaySaveHidden(s: State, n: nat, req: Request, f: File)
    requires MaySave(s, n, req)
    ensures MaySave(Without(s, f), n, req)
  {
  }

  lemma ProjectFinishEvict(c: Config, s: State, e: Event, f: File)
    requires e.FinishEvict?
    requires Permits(DisciplinedClient, c, s, e) && !About(s, e, f)
    ensures Projects(c, s, e, f)
  {
    var n, allocOk := e.n, e.allocOk;
    hide CreateEntry;
    var req := s.nodes[n].eviction.req;
    var iters := s.nodes[n].iters[1..] + [req.iteration.value];
    HideNode(s, n, Idle, iters, f);
    HideEntry(SetNode(s, n, s.nodes[n].(eviction := Idle, iters := iters)), n, req, allocOk, f);
    MaySaveHidden(s, n, req, f);
  }

  lemma ProjectBeginEvict(c: Config, s: State, e: Event, f: File)
    requires e.BeginEvict?
    requires Permits(DisciplinedClient, c, s, e) && f !in e.todo
    ensures Projects(c, s, e, f)
  {
    var n, req, todo := e.n, e.req, e.todo;
    var h := Without(s, f);
    forall g ensures g in todo <==> InOldest(h, n, g) { assert g in todo <==> InOldest(s, n, g); }
    assert StatesOf(h, todo) == StatesOf(s, todo);
    HideNode(s, n, Evicting(todo, StatesOf(s, todo), false, req), s.nodes[n].iters, f);
  }

  lemma ProjectNote(c: Config, s: State, e: Event, f: File)
    requires Permits(DisciplinedClient, c, s, e) && Unlisted(s, f) && (e.Reread? || e.EvictNext? || e.AbortEvict?)
    ensures Projects(c, s, e, f)
  {
    HideNode(s, e.n, Apply(c, s, e).nodes[e.n].eviction, s.nodes[e.n].iters, f);
  }

  lemma ProjectMark(c: Config, s: State, e: Event, f: File)
    requires e.MarkEvict?
    requires Permits(DisciplinedClient, c, s, e) && Unlisted(s, f)
    ensures Projects(c, s, e, f)
  {
    var n, id := e.n, e.id;
    var ev := s.nodes[n].eviction;
    var s1 := SetEviction(s, n, ev.(marked := true));
    HideNode(s, n, ev.(marked := true), s.nodes[n].iters, f);
    HideState(s1, ev.todo[0], OBSOLESCENT, f);
    HidePost(SetState(s1, ev.todo[0], OBSOLESCENT), Some(id), n, ev.todo[0], f);
  }

  function Save(s: State, g: File, data: Bytes): State {
    s.(saved := s.saved[g := data], diskFailed := s.diskFailed - {g})
  }

  lemma HideSaved(s: State, g: File, data: Bytes, f: File)
    requires g != f
    ensures Without(Save(s, g, data), f) == Save(Without(s, f), g, data)
  {
    assert s.diskFailed - {g} - {f} == s.diskFailed - {f} - {g};
    assert s.saved[g := data] - {f} == (s.saved - {f})[g := data];
  }

  lemma ProjectComplete(c: Config, s: State, e: Event, f: File)
    requires e.Complete?
    requires Permits(DisciplinedClient, c, s, e) && e.file != f
    ensures Projects(c, s, e, f)
  {
    var n, g, id := e.n, e.file, e.id;
    var s1, data := SetState(s, g, CACHED), s.nodes[n].dict[g];
    HideState(s, g, CACHED, f);
    HideSaved(s1, g, data, f);
    HidePost(Save(s1, g, data), Some(id), n, g, f);
  }

  lemma ProjectUserWrite(c: Config, s: State, e: Event, f: File)
    requires e.UserWrite?
    requires Permits(DisciplinedClient, c, s, e) && e.file != f
    ensures Projects(c, s, e, f)
  {
    var n, g, data := e.n, e.file, e.data;
    assert s.nodes[n].dict[g := data] - {f} == (s.nodes[n].dict - {f})[g := data];
    assert Without(DoUserWrite(c, s, n, g, data), f).nodes == DoUserWrite(c, Without(s, f), n, g, data).nodes;
  }

  lemma ProjectFetch(c: Config, s: State, id: nat, ok: bool, f: File)
    requires CanFetch(c, s, id) && s.tasks[id].key != f
    ensures Projects(c, s, Fetch(id, ok), f)
  {
    HideDrop(s, id, f);
    HideStage(s, id, Posting, f);
    if s.tasks[id].key in s.rows { HideStage(s, id, Loaded(s.rows[s.tasks[id].key]), f); }
  }

  lemma ProjectPush(c: Config, s: State, id: nat, f: File)
    requires CanPush(c, s, id) && s.tasks[id].key != f
    ensures Projects(c, s, Push(id), f)
  {
    HideStage(s, id, Queued, f);
  }

  lemma ProjectCheck(c: Config, s: State, id: nat, ok: bool, f: File)
    requires CanCheck(c, s, id) && s.tasks[id].key != f
    ensures Projects(c, s, Check(id, ok), f)
  {
    var t := s.tasks[id];
    var snap := t.stage.snap;
    Visible(c, s, id, f);
    hide Without;
    if snap.size > 0 && Holds(s.nodes[t.node], t.node, snap, t.key) {
      HideStage(s, id, Checked(snap), f);
    } else if snap.state in {OBSOLESCENT, BROKEN} {
      HideDrop(s, id, f);
    } else if ok {
      HideState(s, t.key, BROKEN, f);
      HideDrop(SetState(s, t.key, BROKEN), id, f);
    } else {
      HideStage(s, id, Posting, f);
    }
  }

  lemma ProjectSkip(c: Config, s: State, id: nat, touch: bool, f: File)
    requires CanSkip(c, s, id) && s.tasks[id].key != f
    ensures Projects(c, s, Skip(id, touch), f)
  {
    var t := s.tasks[id];
    HideDisk(s, t.key, [], f);
    HideDrop(s, id, f);
    HideDrop(s.(disk := s.disk[t.key := []]), id, f);
  }

  lemma ProjectUpdate(c: Config, s: State, id: nat, ok: bool, f: File)
    requires CanUpdate(c, s, id) && s.tasks[id].key != f
    ensures Projects(c, s, Update(id, ok), f)
  {
    var st := StateAfterCopy(c, s.tasks[id].stage.snap);
    HideState(s, s.tasks[id].key, st, f);
    HideStage(if ok then SetState(s, s.tasks[id].key, st) else s, id, Posting, f);
  }

  lemma ProjectBegin(c: Config, s: State, id: nat, f: File)
    requires CanBegin(c, s, id) && s.tasks[id].key != f
    ensures Projects(c, s, Begin(id), f)
  {
    var t := s.tasks[id];
    HideDisk(s, t.key, [], f);
    HideStage(s.(disk := s.disk[t.key := []]), id, Copying(t.stage.snap, Live), f);
    HideStage(s, id, DoBegin(c, s, id).tasks[id].stage, f);
  }

  lemma ProjectInstall(c: Config, s: State, id: nat, f: File)
    requires CanInstall(c, s, id) && s.tasks[id].key != f
    ensures Projects(c, s, Install(id), f)
  {
    var t := s.tasks[id];
    var x := Next(c, t.node);
    HideBackup(s, x, t.key, Zeros(t.stage.snap.size), f);
    HideOrphan(c, s.tasks, x, t.key, f);
    HideStage(PutFresh(c, s, x, t.key, t.stage.snap.size), id, Copying(t.stage.snap, Live), f);
  }

  lemma ProjectArrive(c: Config, s: State, id: nat, data: Bytes, f: File)
    requires CanArrive(c, s, id, data) && s.tasks[id].key != f
    ensures Projects(c, s, Arrive(id, data), f)
  {
    var t := s.tasks[id];
    HideBackup(s, Next(c, t.node), t.key, data, f);
    HideDisk(s, t.key, data, f);
  }

  lemma ProjectFail(c: Config, s: State, id: nat, post: Option<nat>, lingers: bool, f: File)
    requires CanFail(c, s, id, post, lingers) && s.tasks[id].key != f
    ensures Projects(c, s, Fail(id, post, lingers), f)
  {
    if CopiesToPeer(c, s.tasks[id].stage.snap) {
      HidePeerFail(c, s, id, post, lingers, f);
      hide DoFail, CanFail, Without;
    } else {
      ProjectDiskFail(c, s, id, post, lingers, f);
    }
  }

  lemma HideLinger(s: State, l: Late, f: File)
    requires l.file != f
    ensures Without(s.(late := s.late + {l}), f) == Without(s, f).(late := Without(s, f).late + {l})
  {
    assert Elsewhere(s.late + {l}, f) == Elsewhere(s.late, f) + {l};
  }

  lemma HidePeerFail(c: Config, s: State, id: nat, post: Option<nat>, lingers: bool, f: File)
    requires CanFail(c, s, id, post, lingers) && s.tasks[id].key != f && CopiesToPeer(c, s.tasks[id].stage.snap)
    ensures CanFail(c, Without(s, f), id, post, lingers)
    ensures Without(DoFail(c, s, id, post, lingers), f) == DoFail(c, Without(s, f), id, post, lingers)
  {
    var t := s.tasks[id];
    Visible(c, s, id, f);
    hide Without;
    var l := Late(Next(c, t.node), t.key, t.stage.snap.size);
    var s1 := if lingers then s.(late := s.late + {l}) else s;
    HideLinger(s, l, f);
    HideStage(s1, id, Posting, f);
    HidePost(SetStage(s1, id, Posting), post, Next(c, t.node), t.key, f);
  }

  lemma ProjectDiskFail(c: Config, s: State, id: nat, post: Option<nat>, lingers: bool, f: File)
    requires CanFail(c, s, id, post, lingers) && s.tasks[id].key != f && !CopiesToPeer(c, s.tasks[id].stage.snap)
    ensures Projects(c, s, Fail(id, post, lingers), f)
  {
    var t := s.tasks[id];
    HideStage(s, id, Posting, f);
    HideDrop(s, id, f);
    assert s.diskFailed + {t.key} - {f} == s.diskFailed - {f} + {t.key};
  }

  lemma ProjectFinish(c: Config, s: State, id: nat, post: Option<nat>, f: File)
    requires CanFinish(c, s, id, post) && s.tasks[id].key != f
    ensures Projects(c, s, Finish(id, post), f)
  {
    HideFinish(c, s, id, post, f);
    hide DoFinish, CanFinish, Without;
  }

  lemma HideFinish(c: Config, s: State, id: nat, post: Option<nat>, f: File)
    requires CanFinish(c, s, id, post) && s.tasks[id].key != f
    ensures CanFinish(c, Without(s, f), id, post)
    ensures Without(DoFinish(c, s, id, post), f) == DoFinish(c, Without(s, f), id, post)
  {
    var toPeer := CopiesToPeer(c, s.tasks[id].stage.snap);
    hide DoFinish, CanFinish, Without;
    if toPeer {
      HidePeerFinish(c, s, id, post, f);
    } else {
      HideDiskFinish(c, s, id, post, f);
    }
  }

  lemma HideDiskFinish(c: Config, s: State, id: nat, post: Option<nat>, f: File)
    requires CanFinish(c, s, id, post) && s.tasks[id].key != f && !CopiesToPeer(c, s.tasks[id].stage.snap)
    ensures CanFinish(c, Without(s, f), id, post)
    ensures Without(DoFinish(c, s, id, post), f) == DoFinish(c, Without(s, f), id, post)
  {
    var t := s.tasks[id];
    Visible(c, s, id, f);
    hide Without;
    var data := Take(s.nodes[t.node].dict[t.key], t.stage.snap.size);
    HideDisk(s, t.key, data, f);
    HideStage(s.(disk := s.disk[t.key := data]), id, Copied(t.stage.snap), f);
  }

  lemma HideHealing(s: State, x: nat, g: File, data: Bytes, f: File)
    requires g != f && x < |s.nodes|
    ensures Without(PutBackup(s, x, g, data).(replaced := s.replaced - {g}), f)
         == PutBackup(Without(s, f), x, g, data).(replaced := Without(s, f).replaced - {g})
  {
    HideBackup(s, x, g, data, f);
    assert s.replaced - {g} - {f} == s.replaced - {f} - {g};
  }

  lemma HidePeerFinish(c: Config, s: State, id: nat, post: Option<nat>, f: File)
    requires CanFinish(c, s, id, post) && s.tasks[id].key != f && CopiesToPeer(c, s.tasks[id].stage.snap)
    ensures CanFinish(c, Without(s, f), id, post)
    ensures Without(DoFinish(c, s, id, post), f) == DoFinish(c, Without(s, f), id, post)
  {
    var t := s.tasks[id];
    Visible(c, s, id, f);
    hide Without;
    var x, data := Next(c, t.node), Take(s.nodes[t.node].dict[t.key], t.stage.snap.size);
    HideHealing(s, x, t.key, data, f);
    var s1 := if t.stage.place.Orphaned? then s
              else PutBackup(s, x, t.key, data).(replaced := s.replaced - {t.key});
    HideStage(s1, id, Copied(t.stage.snap), f);
    HidePost(SetStage(s1, id, Copied(t.stage.snap)), post, x, t.key, f);
  }

  lemma ProjectNotify(c: Config, s: State, id: nat, ok: bool, post: Option<nat>, f: File)
    requires CanNotify(c, s, id, ok, post) && s.tasks[id].key != f
    ensures Projects(c, s, Notify(id, ok, post), f)
  {
    HideNotify(c, s, id, ok, post, f);
    hide DoNotify, CanNotify, Without;
  }

  lemma HideNotify(c: Config, s: State, id: nat, ok: bool, post: Option<nat>, f: File)
    requires CanNotify(c, s, id, ok, post) && s.tasks[id].key != f
    ensures CanNotify(c, Without(s, f), id, ok, post)
    ensures Without(DoNotify(c, s, id, ok, post), f) == DoNotify(c, Without(s, f), id, ok, post)
  {
    var t := s.tasks[id];
    Visible(c, s, id, f);
    hide Without;
    var st := if ok then Notified(t.stage.snap) else Posting;
    HideStage(s, id, st, f);
    HidePost(SetStage(s, id, st), post, Next(c, t.node), t.key, f);
  }

  lemma HideFreeing(s: State, n: nat, row: Row, g: File, f: File)
    requires n < |s.nodes| && g != f
    ensures Without(SetNode(s, n, StorageDelete(s.nodes[n], n, row, g)), f)
         == SetNode(Without(s, f), n, StorageDelete(Without(s, f).nodes[n], n, row, g))
  {
    var node := s.nodes[n];
    assert node.dict - {g} - {f} == node.dict - {f} - {g};
    assert node.backup - {g} - {f} == node.backup - {f} - {g};
    assert Without(SetNode(s, n, StorageDelete(node, n, row, g)), f).nodes
        == SetNode(Without(s, f), n, StorageDelete(Without(s, f).nodes[n], n, row, g)).nodes;
  }

  lemma ProjectDelete(c: Config, s: State, id: nat, f: File)
    requires CanDelete(c, s, id) && s.tasks[id].key != f
    ensures Projects(c, s, Delete(id), f)
  {
    var t := s.tasks[id];
    HideFreeing(s, t.node, t.stage.snap, t.key, f);
    HideDrop(SetNode(s, t.node, StorageDelete(s.nodes[t.node], t.node, t.stage.snap, t.key)), id, f);
  }

  lemma ProjectOutside(c: Config, s: State, e: Event, f: File)
    requires Permits(DisciplinedClient, c, s, e) && !About(s, e, f) && Unlisted(s, f)
    requires Saves(e) || Notes(e) || e.MarkEvict? || e.Complete? || e.UserWrite?
    requires e.BeginEvict? ==> f !in e.todo
    ensures Projects(c, s, e, f)
  {
    assert CanHappen(c, s, e);
    hide Projects, Apply, Unlisted, Permits, CanHappen;
    if e.Create? {
      ProjectCreate(c, s, e, f);
    } else if e.FinishEvict? {
      ProjectFinishEvict(c, s, e, f);
    } else if e.BeginEvict? {
      ProjectBeginEvict(c, s, e, f);
    } else if e.MarkEvict? {
      ProjectMark(c, s, e, f);
    } else if e.Complete? {
      ProjectComplete(c, s, e, f);
    } else if e.UserWrite? {
      ProjectUserWrite(c, s, e, f);
    } else {
      ProjectNote(c, s, e, f);
    }
  }

  lemma ProjectWork(c: Config, s: State, e: Event, f: File)
    requires CanHappen(c, s, e) && !About(s, e, f) && !e.LateSave? && !e.Report? && !e.Stray?
    requires !(Saves(e) || Notes(e) || e.MarkEvict? || e.Complete? || e.UserWrite?)
    ensures Projects(c, s, e, f)
  {
    hide Projects, Apply;
    match e
    case Push(id) => ProjectPush(c, s, id, f);
    case Fetch(id, ok) => ProjectFetch(c, s, id, ok, f);
    case Check(id, ok) => ProjectCheck(c, s, id, ok, f);
    case Skip(id, touch) => ProjectSkip(c, s, id, touch, f);
    case Begin(id) => ProjectBegin(c, s, id, f);
    case Install(id) => ProjectInstall(c, s, id, f);
    case Arrive(id, data) => ProjectArrive(c, s, id, data, f);
    case Fail(id, post, lingers) => ProjectFail(c, s, id, post, lingers, f);
    case Finish(id, post) => ProjectFinish(c, s, id, post, f);
    case Update(id, ok) => ProjectUpdate(c, s, id, ok, f);
    case Notify(id, ok, post) => ProjectNotify(c, s, id, ok, post, f);
    case Delete(id) => ProjectDelete(c, s, id, f);
    case _ =>
  }

  /** A disciplined event about other files is one without `f` too, and does the same there. */
  lemma ProjectEvent(c: Config, s: State, e: Event, f: File)
    requires Permits(DisciplinedClient, c, s, e) && !About(s, e, f) && Unlisted(s, f)
    requires e.BeginEvict? ==> f !in e.todo
    ensures Projects(c, s, e, f)
  {
    hide Projects, Apply, CanHappen, Unlisted;
    if Saves(e) || Notes(e) || e.MarkEvict? || e.Complete? || e.UserWrite? {
      ProjectOutside(c, s, e, f);
    } else {
      ProjectWork(c, s, e, f);
    }
  }
}
