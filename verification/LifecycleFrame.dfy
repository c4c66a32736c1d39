/** An event touches at most one file. */
module LifecycleFrame {
  import opened Lifecycle
  import opened Options
  import opened LifecycleInvariant

  // ---------------------------------------------------------------- kinds of events

  /** A step of an http handler or of the training process. */
  predicate FromOutside(e: Event) {
    || e.Create? || e.BeginEvict? || e.Reread? || e.MarkEvict? || e.EvictNext? || e.AbortEvict? || e.FinishEvict?
    || e.Complete? || e.Report? || e.Stray? || e.UserWrite?
  }

  /** A step of the eviction's own bookkeeping. */
  predicate Notes(e: Event) { e.BeginEvict? || e.Reread? || e.EvictNext? || e.AbortEvict? }

  predicate Saves(e: Event) { e.Create? || e.FinishEvict? }

  // ---------------------------------------------------------------- what differs

  /** Lists and evictions of all nodes are the same. */
  ghost predicate SameBooks(s: State, s': State) {
    && |s'.nodes| == |s.nodes|
    && forall n :: 0 <= n < |s.nodes| ==>
         s'.nodes[n].eviction == s.nodes[n].eviction && s'.nodes[n].iters == s.nodes[n].iters
  }

  /** Only `f` may differ. */
  ghost predicate Only(s: State, s': State, f: File) { forall g :: g != f ==> SameFile(s, s', g) }

  lemma Chain(s: State, s1: State, s2: State, f: File)
    requires Only(s, s1, f) && Only(s1, s2, f)
    ensures Only(s, s2, f)
  {
    forall g | g != f ensures SameFile(s, s2, g) {
      assert SameFile(s, s1, g) && SameFile(s1, s2, g);
    }
  }

  lemma OthersByStage(s: State, id: nat, st: Stage)
    requires id in s.tasks
    ensures Only(s, SetStage(s, id, st), s.tasks[id].key)
  {
  }

  lemma OthersByDrop(s: State, id: nat)
    requires id in s.tasks
    ensures Only(s, Drop(s, id), s.tasks[id].key)
  {
  }

  lemma OthersByFetch(c: Config, s: State, id: nat, ok: bool)
    requires CanFetch(c, s, id)
    ensures Only(s, DoFetch(s, id, ok), s.tasks[id].key)
  {
  }

  lemma OthersByCheck(c: Config, s: State, id: nat, ok: bool)
    requires CanCheck(c, s, id)
    ensures Only(s, DoCheck(c, s, id, ok), s.tasks[id].key)
  {
    var t := s.tasks[id];
    OthersByStage(s, id, Posting);
    OthersByStage(s, id, Checked(t.stage.snap));
    OthersByDrop(s, id);
    OthersByDrop(SetState(s, t.key, BROKEN), id);
    Chain(s, SetState(s, t.key, BROKEN), Drop(SetState(s, t.key, BROKEN), id), t.key);
  }

  lemma OthersBySkip(c: Config, s: State, id: nat, touch: bool)
    requires CanSkip(c, s, id)
    ensures Only(s, DoSkip(c, s, id, touch), s.tasks[id].key)
  {
  }

  lemma OthersByBackup(s: State, n: nat, f: File, data: Bytes)
    requires n < |s.nodes|
    ensures Only(s, PutBackup(s, n, f, data), f)
  {
  }

  lemma OthersByDisk(s: State, f: File, data: Bytes)
    ensures Only(s, s.(disk := s.disk[f := data]), f)
  {
  }

  lemma OthersByPost(s: State, post: Option<nat>, n: nat, f: File)
    requires FreshIf(s, post)
    ensures Only(s, PostIf(s, post, n, f), f)
  {
  }

  /** A write to disk changes the disk, then the stage. */
  lemma OthersByDiskCopy(s: State, data: Bytes, id: nat, st: Stage)
    requires id in s.tasks
    ensures Only(s, SetStage(s.(disk := s.disk[s.tasks[id].key := data]), id, st), s.tasks[id].key)
  {
    var f := s.tasks[id].key;
    var s1 := s.(disk := s.disk[f := data]);
    OthersByDisk(s, f, data);
    OthersByStage(s1, id, st);
    Chain(s, s1, SetStage(s1, id, st), f);
  }

  lemma OthersByBegin(c: Config, s: State, id: nat)
    requires CanBegin(c, s, id)
    ensures Only(s, DoBegin(c, s, id), s.tasks[id].key)
  {
    var t := s.tasks[id];
    if CopiesToDisk(c, t.stage.snap) {
      OthersByDiskCopy(s, [], id, Copying(t.stage.snap, Live));
    } else {
      OthersByStage(s, id, DoBegin(c, s, id).tasks[id].stage);
    }
  }

  lemma OthersByFresh(c: Config, s: State, x: nat, f: File, size: nat)
    requires x < |s.nodes| == c.W
    ensures Only(s, PutFresh(c, s, x, f, size), f)
  {
  }

  lemma OthersByInstall(c: Config, s: State, id: nat)
    requires CanInstall(c, s, id)
    ensures Only(s, DoInstall(c, s, id), s.tasks[id].key)
  {
    hide Only;
    var t := s.tasks[id];
    var s1 := PutFresh(c, s, Next(c, t.node), t.key, t.stage.snap.size);
    OthersByFresh(c, s, Next(c, t.node), t.key, t.stage.snap.size);
    OthersByStage(s1, id, Copying(t.stage.snap, Live));
    Chain(s, s1, DoInstall(c, s, id), t.key);
  }

  lemma OthersByArrive(c: Config, s: State, id: nat, data: Bytes)
    requires CanArrive(c, s, id, data)
    ensures Only(s, DoArrive(c, s, id, data), s.tasks[id].key)
  {
    hide Only;
    OthersByBackup(s, Next(c, s.tasks[id].node), s.tasks[id].key, data);
    OthersByDisk(s, s.tasks[id].key, data);
  }

  lemma OthersByFail(c: Config, s: State, id: nat, post: Option<nat>, lingers: bool)
    requires CanFail(c, s, id, post, lingers)
    ensures Only(s, DoFail(c, s, id, post, lingers), s.tasks[id].key)
  {
    var t := s.tasks[id];
    var f, x := t.key, Next(c, t.node);
    if CopiesToPeer(c, t.stage.snap) {
      hide Only;
      var s1 := if lingers then s.(late := s.late + {Late(x, f, t.stage.snap.size)}) else s;
      OthersByLinger(s, Late(x, f, t.stage.snap.size));
      OthersByStage(s, id, Posting);
      OthersByStage(s1, id, Posting);
      Chain(s, s.(late := s.late + {Late(x, f, t.stage.snap.size)}), SetStage(s1, id, Posting), f);
      OthersByPost(SetStage(s1, id, Posting), post, x, f);
      Chain(s, SetStage(s1, id, Posting), DoFail(c, s, id, post, lingers), f);
    } else if t.stage.snap.state == CACHED {
      OthersByStage(s, id, Posting);
    } else {
      OthersByDiskFailure(s, id);
    }
  }

  lemma OthersByLinger(s: State, l: Late)
    ensures Only(s, s.(late := s.late + {l}), l.file)
  {
  }

  lemma OthersByDiskFailure(s: State, id: nat)
    requires id in s.tasks
    ensures Only(s, Drop(s, id).(diskFailed := s.diskFailed + {s.tasks[id].key}), s.tasks[id].key)
  {
  }

  lemma OthersByLateSave(c: Config, s: State, l: Late, last: bool)
    requires CanLateSave(c, s, l)
    ensures Only(s, DoLateSave(c, s, l, last), l.file)
  {
    hide PutFresh;
    var s1 := PutFresh(c, s, l.node, l.file, l.size);
    OthersByFresh(c, s, l.node, l.file, l.size);
    assert Only(s1, s1.(late := if last then s1.late - {l} else s1.late, replaced := s1.replaced + {l.file}), l.file);
    FreshIsOnlyMemory(c, s, l.node, l.file, l.size);
    Chain(s, s1, DoLateSave(c, s, l, last), l.file);
  }

  lemma FreshIsOnlyMemory(c: Config, s: State, x: nat, f: File, size: nat)
    requires x < |s.nodes| == c.W
    ensures PutFresh(c, s, x, f, size).late == s.late && PutFresh(c, s, x, f, size).replaced == s.replaced
  {
  }

  lemma OthersByFinish(c: Config, s: State, id: nat, post: Option<nat>)
    requires CanFinish(c, s, id, post)
    ensures Only(s, DoFinish(c, s, id, post), s.tasks[id].key)
  {
    var t := s.tasks[id];
    var f, data := t.key, Take(s.nodes[t.node].dict[t.key], t.stage.snap.size);
    if CopiesToPeer(c, t.stage.snap) {
      hide Only;
      var x := Next(c, t.node);
      var s1 := PutBackup(s, x, f, data).(replaced := s.replaced - {f});
      OthersByHealing(s, x, f, data);
      var s2 := if t.stage.place.Orphaned? then s else s1;
      OthersByStage(s2, id, Copied(t.stage.snap));
      Chain(s, s1, SetStage(s1, id, Copied(t.stage.snap)), f);
      OthersByPost(SetStage(s2, id, Copied(t.stage.snap)), post, x, f);
      Chain(s, SetStage(s2, id, Copied(t.stage.snap)), DoFinish(c, s, id, post), f);
    } else {
      OthersByDiskCopy(s, data, id, Copied(t.stage.snap));
    }
  }

  lemma OthersByHealing(s: State, x: nat, f: File, data: Bytes)
    requires x < |s.nodes|
    ensures Only(s, PutBackup(s, x, f, data).(replaced := s.replaced - {f}), f)
  {
  }

  lemma OthersByUpdate(c: Config, s: State, id: nat, ok: bool)
    requires CanUpdate(c, s, id)
    ensures Only(s, DoUpdate(c, s, id, ok), s.tasks[id].key)
  {
  }

  lemma OthersByNotify(c: Config, s: State, id: nat, ok: bool, post: Option<nat>)
    requires CanNotify(c, s, id, ok, post)
    ensures Only(s, DoNotify(c, s, id, ok, post), s.tasks[id].key)
  {
  }

  lemma OthersByDelete(c: Config, s: State, id: nat)
    requires CanDelete(c, s, id)
    ensures Only(s, DoDelete(c, s, id), s.tasks[id].key)
  {
  }

  lemma OthersByCreateEntry(s: State, n: nat, req: Request, allocOk: bool)
    requires n < |s.nodes|
    ensures Only(s, CreateEntry(s, n, req, allocOk), req.file)
  {
  }

  lemma OthersByMarkEvict(c: Config, s: State, n: nat, id: nat)
    requires CanMarkEvict(c, s, n, id)
    ensures Only(s, DoMarkEvict(c, s, n, id), s.nodes[n].eviction.todo[0])
  {
  }

  lemma OthersByComplete(c: Config, s: State, n: nat, f: File, id: nat)
    requires CanComplete(c, s, n, f, id)
    ensures Only(s, DoComplete(c, s, n, f, id), f)
  {
  }

  lemma OthersByUserWrite(c: Config, s: State, n: nat, f: File, data: Bytes)
    requires CanUserWrite(c, s, n, f)
    ensures Only(s, DoUserWrite(c, s, n, f, data), f)
  {
  }

  lemma OthersByBookkeeping(s: State, n: nat, node: Node)
    requires n < |s.nodes| && node.dict == s.nodes[n].dict && node.backup == s.nodes[n].backup
    ensures forall g :: SameFile(s, SetNode(s, n, node), g)
  {
  }

  /** What workers do is no concern of the iteration lists and of evictions. */
  lemma SameEvictions(c: Config, s: State, e: Event)
    requires CanHappen(c, s, e) && !FromOutside(e)
    ensures SameBooks(s, Apply(c, s, e))
  {
    hide Apply, CanHappen;
    if e.Fail? || e.Install? || e.LateSave? {
      SameEvictionsAtPeer(c, s, e);
    } else if e.Finish? {
      SameEvictionsByFinish(c, s, e);
    } else if e.Begin? || e.Arrive? {
      SameEvictionsByCopy(c, s, e);
    } else {
      SameEvictionsByStage(c, s, e);
    }
  }

  lemma SameEvictionsAtPeer(c: Config, s: State, e: Event)
    requires CanHappen(c, s, e) && (e.Fail? || e.Install? || e.LateSave?)
    ensures SameBooks(s, Apply(c, s, e))
  {
  }

  lemma SameEvictionsByCopy(c: Config, s: State, e: Event)
    requires CanHappen(c, s, e) && (e.Begin? || e.Arrive?)
    ensures SameBooks(s, Apply(c, s, e))
  {
  }

  lemma SameEvictionsByFinish(c: Config, s: State, e: Event)
    requires CanHappen(c, s, e) && e.Finish?
    ensures SameBooks(s, Apply(c, s, e))
  {
  }

  lemma SameEvictionsByStage(c: Config, s: State, e: Event)
    requires CanHappen(c, s, e) && !FromOutside(e)
    requires !(e.Fail? || e.Install? || e.LateSave? || e.Begin? || e.Arrive? || e.Finish?)
    ensures SameBooks(s, Apply(c, s, e))
  {
  }
}
