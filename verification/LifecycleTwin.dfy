/** A file outside every iteration, saved again while its key was still queued, when the next node has
    memory for it: reconciles of it overlap, and still the two copies in memory agree. */
module LifecycleTwin {
  import opened Lifecycle
  import opened Options
  import opened LifecycleInvariant
  import opened LifecycleFrame
  import opened LifecycleCache
  import opened LifecycleTheorems
  import opened LifecycleGuarantees
  import opened LifecycleHiding

  // ---------------------------------------------------------------- the invariant of such a file

  predicate OnTheWay(st: CkState) { st in {PENDING, CACHED, BACKED_UP, PERSISTENT} }

  /** The next node holds the last completed save. */
  ghost predicate Mirrored(c: Config, s: State, f: File)
    requires f in s.rows && s.rows[f].rank < |s.nodes| == c.W
  {
    f in s.saved && Known(s.nodes[Next(c, s.rows[f].rank)].backup, f, s.saved[f])
  }

  /** A reconcile of the file: overlapping ones all send the bytes of the last completed save. */
  ghost predicate TwinTask(c: Config, s: State, f: File, t: Task)
    requires f in s.rows && s.rows[f].rank < |s.nodes| == c.W
  {
    var r := s.rows[f];
    && (t.node == r.rank || t.node == Next(c, r.rank))
    && (t.stage.Running() ==>
          var snap := t.stage.snap;
          && t.node == r.rank && snap.rank == r.rank && snap.size == r.size && OnTheWay(snap.state)
          && (snap.state != PENDING ==> r.state != PENDING)
          && (snap.state in {BACKED_UP, PERSISTENT} ==> Mirrored(c, s, f))
          && (t.stage.Copying? || t.stage.Copied? ==> CopiesToPeer(c, snap) || CopiesToDisk(c, snap))
          && (t.stage.Copying? ==> t.stage.place.Live?)
          && (t.stage.Copied? && CopiesToPeer(c, snap) ==> Mirrored(c, s, f))
          && !t.stage.Notified?)
  }

  ghost predicate TwinData(c: Config, s: State, f: File) {
    && |s.nodes| == c.W && f in s.rows && s.rows[f].rank < c.W
    && var r := s.rows[f];
    && r.iteration == None && r.size > 0 && OnTheWay(r.state)
    && f in s.nodes[r.rank].dict && |s.nodes[r.rank].dict[f]| == r.size
    && (forall n :: 0 <= n < c.W && f in s.nodes[n].dict ==> n == r.rank)
    && f in s.nodes[Next(c, r.rank)].backup
    && (r.state != PENDING ==> f in s.saved && s.nodes[r.rank].dict[f] == s.saved[f])
    && (r.state in {BACKED_UP, PERSISTENT} ==> Mirrored(c, s, f))
    && f !in s.replaced && (forall l :: l in s.late && l.file == f ==> LateOk(c, s, l))
  }

  ghost predicate Twin(c: Config, s: State, f: File) {
    && TwinData(c, s, f)
    && (forall i :: i in s.tasks && s.tasks[i].key == f ==> TwinTask(c, s, f, s.tasks[i]))
    && Unlisted(s, f)
  }

  lemma TwinHeldTwice(c: Config, s: State, f: File)
    requires c.W >= 2 && Twin(c, s, f)
    ensures HeldTwice(c, s, f)
  {
  }

  /** Nothing about the file has changed, and no eviction has listed it. */
  lemma TwinFrame(c: Config, s: State, s': State, f: File)
    requires c.W >= 2 && Twin(c, s, f) && SameFile(s, s', f) && Unlisted(s', f)
    ensures Twin(c, s', f)
  {
    forall i | i in s'.tasks && s'.tasks[i].key == f ensures TwinTask(c, s', f, s'.tasks[i]) {
      assert TwinTask(c, s, f, s.tasks[i]);
    }
  }

  // ---------------------------------------------------------------- one update at a time

  lemma TwinRestage(c: Config, s: State, id: nat, st: Stage, f: File)
    requires c.W >= 2 && Twin(c, s, f) && id in s.tasks && s.tasks[id].key == f
    requires TwinTask(c, s, f, s.tasks[id].(stage := st))
    ensures Twin(c, SetStage(s, id, st), f)
  {
  }

  lemma TwinDrop(c: Config, s: State, id: nat, f: File)
    requires c.W >= 2 && Twin(c, s, f)
    ensures Twin(c, Drop(s, id), f)
  {
  }

  lemma TwinPost(c: Config, s: State, post: Option<nat>, n: nat, f: File)
    requires c.W >= 2 && Twin(c, s, f) && FreshIf(s, post)
    requires n == s.rows[f].rank || n == Next(c, s.rows[f].rank)
    ensures Twin(c, PostIf(s, post, n, f), f)
  {
  }

  /** Bytes reach the backup; if it agreed with the last save before, it still does. */
  lemma TwinBackup(c: Config, s: State, f: File, data: Bytes, replaced: set<File>)
    requires c.W >= 2 && Twin(c, s, f) && (Mirrored(c, s, f) ==> data == s.saved[f]) && f !in replaced
    ensures Twin(c, PutBackup(s, Next(c, s.rows[f].rank), f, data).(replaced := replaced), f)
  {
    var s' := PutBackup(s, Next(c, s.rows[f].rank), f, data).(replaced := replaced);
    forall i | i in s'.tasks && s'.tasks[i].key == f ensures TwinTask(c, s', f, s'.tasks[i]) {
      assert TwinTask(c, s, f, s.tasks[i]);
    }
  }

  lemma TwinDisk(c: Config, s: State, f: File, disk: map<File, Bytes>)
    requires c.W >= 2 && Twin(c, s, f)
    ensures Twin(c, s.(disk := disk), f)
  {
  }

  lemma TwinRow(c: Config, s: State, f: File, st: CkState)
    requires c.W >= 2 && Twin(c, s, f) && s.rows[f].state != PENDING && st in {BACKED_UP, PERSISTENT}
    requires Mirrored(c, s, f)
    ensures Twin(c, SetState(s, f, st), f)
  {
    var s' := SetState(s, f, st);
    forall i | i in s'.tasks && s'.tasks[i].key == f ensures TwinTask(c, s', f, s'.tasks[i]) {
      assert TwinTask(c, s, f, s.tasks[i]);
    }
  }

  // ---------------------------------------------------------------- the events about the file

  lemma TwinFetch(c: Config, s: State, id: nat, ok: bool, f: File)
    requires c.W >= 2 && Twin(c, s, f) && CanFetch(c, s, id) && s.tasks[id].key == f
    ensures Twin(c, DoFetch(s, id, ok), f)
  {
    hide Twin;
    TwinFacts(c, s, id, f);
    if !ok {
      TwinRestage(c, s, id, Posting, f);
    } else if s.rows[f].rank != s.tasks[id].node {
      TwinDrop(c, s, id, f);
    } else {
      TwinRestage(c, s, id, Loaded(s.rows[f]), f);
    }
  }

  lemma TwinFacts(c: Config, s: State, id: nat, f: File)
    requires Twin(c, s, f) && id in s.tasks && s.tasks[id].key == f
    ensures TwinData(c, s, f) && TwinTask(c, s, f, s.tasks[id])
  {
  }

  lemma TwinCheck(c: Config, s: State, id: nat, ok: bool, f: File)
    requires c.W >= 2 && Twin(c, s, f) && CanCheck(c, s, id) && s.tasks[id].key == f
    ensures Twin(c, DoCheck(c, s, id, ok), f)
  {
    hide Twin;
    TwinFacts(c, s, id, f);
    TwinRestage(c, s, id, Checked(s.tasks[id].stage.snap), f);
  }

  lemma TwinSkip(c: Config, s: State, id: nat, touch: bool, f: File)
    requires c.W >= 2 && Twin(c, s, f) && CanSkip(c, s, id) && s.tasks[id].key == f
    ensures Twin(c, DoSkip(c, s, id, touch), f)
  {
    hide Twin;
    TwinDrop(c, s, id, f);
    TwinDisk(c, s, f, DoSkip(c, s, id, touch).disk);
    TwinDrop(c, s.(disk := DoSkip(c, s, id, touch).disk), id, f);
  }

  lemma TwinBegin(c: Config, s: State, id: nat, f: File)
    requires c.W >= 2 && Twin(c, s, f) && CanBegin(c, s, id) && s.tasks[id].key == f
    ensures Twin(c, DoBegin(c, s, id), f)
  {
    hide Twin;
    TwinFacts(c, s, id, f);
    var st := Copying(s.tasks[id].stage.snap, Live);
    if CopiesToDisk(c, s.tasks[id].stage.snap) {
      var s1 := s.(disk := s.disk[f := []]);
      TwinDisk(c, s, f, s1.disk);
      TwinFacts(c, s1, id, f);
      TwinRestage(c, s1, id, st, f);
    } else {
      TwinRestage(c, s, id, st, f);
    }
  }

  /** A mixture of equal bytes is those bytes. */
  lemma TwinArrive(c: Config, s: State, id: nat, data: Bytes, f: File)
    requires c.W >= 2 && Twin(c, s, f) && CanArrive(c, s, id, data) && s.tasks[id].key == f
    ensures Twin(c, DoArrive(c, s, id, data), f)
  {
    hide Twin;
    TwinFacts(c, s, id, f);
    if CopiesToPeer(c, s.tasks[id].stage.snap) {
      if Mirrored(c, s, f) { assert data == s.saved[f]; }
      TwinBackup(c, s, f, data, s.replaced);
    } else {
      TwinDisk(c, s, f, s.disk[f := data]);
    }
  }

  lemma TwinFail(c: Config, s: State, id: nat, post: Option<nat>, lingers: bool, f: File)
    requires c.W >= 2 && Twin(c, s, f) && CanFail(c, s, id, post, lingers) && s.tasks[id].key == f
    ensures Twin(c, DoFail(c, s, id, post, lingers), f)
  {
    hide Twin;
    TwinFacts(c, s, id, f);
    TwinRestage(c, s, id, Posting, f);
    if CopiesToPeer(c, s.tasks[id].stage.snap) {
      TwinPost(c, SetStage(s, id, Posting), post, Next(c, s.tasks[id].node), f);
    } else if s.tasks[id].stage.snap.state != CACHED {
      TwinDrop(c, s, id, f);
      TwinGivenUp(c, Drop(s, id), s.diskFailed + {f}, f);
    }
  }

  lemma TwinGivenUp(c: Config, s: State, failed: set<File>, f: File)
    requires c.W >= 2 && Twin(c, s, f)
    ensures Twin(c, s.(diskFailed := failed), f)
  {
  }

  lemma TwinPeerFinish(c: Config, s: State, id: nat, post: Option<nat>, f: File)
    requires c.W >= 2 && Twin(c, s, f) && CanFinish(c, s, id, post) && s.tasks[id].key == f
    requires CopiesToPeer(c, s.tasks[id].stage.snap)
    ensures Twin(c, DoFinish(c, s, id, post), f)
  {
    hide Twin;
    TwinFacts(c, s, id, f);
    var t := s.tasks[id];
    var x, data := Next(c, t.node), Take(s.nodes[t.node].dict[f], t.stage.snap.size);
    var s1 := PutBackup(s, x, f, data).(replaced := s.replaced - {f});
    assert data == s.saved[f];
    TwinBackup(c, s, f, data, s.replaced - {f});
    TwinFacts(c, s1, id, f);
    TwinRestage(c, s1, id, Copied(t.stage.snap), f);
    TwinPost(c, SetStage(s1, id, Copied(t.stage.snap)), post, x, f);
  }

  lemma TwinDiskFinish(c: Config, s: State, id: nat, post: Option<nat>, f: File)
    requires c.W >= 2 && Twin(c, s, f) && CanFinish(c, s, id, post) && s.tasks[id].key == f
    requires !CopiesToPeer(c, s.tasks[id].stage.snap)
    ensures Twin(c, DoFinish(c, s, id, post), f)
  {
    hide Twin;
    var t := s.tasks[id];
    var s1 := s.(disk := s.disk[f := Take(s.nodes[t.node].dict[f], t.stage.snap.size)]);
    TwinDisk(c, s, f, s1.disk);
    TwinFacts(c, s1, id, f);
    TwinRestage(c, s1, id, Copied(t.stage.snap), f);
  }

  lemma TwinUpdate(c: Config, s: State, id: nat, ok: bool, f: File)
    requires c.W >= 2 && Twin(c, s, f) && CanUpdate(c, s, id) && s.tasks[id].key == f
    ensures Twin(c, DoUpdate(c, s, id, ok), f)
  {
    hide Twin;
    TwinFacts(c, s, id, f);
    var s1 := s;
    if ok {
      TwinRow(c, s, f, StateAfterCopy(c, s.tasks[id].stage.snap));
      s1 := SetState(s, f, StateAfterCopy(c, s.tasks[id].stage.snap));
    }
    TwinFacts(c, s1, id, f);
    TwinRestage(c, s1, id, Posting, f);
  }

  lemma TwinComplete(c: Config, s: State, n: nat, f: File, id: nat)
    requires c.W >= 2 && Twin(c, s, f) && CanComplete(c, s, n, f, id)
    requires s.rows[f].rank == n && s.rows[f].state == PENDING
    ensures Twin(c, DoComplete(c, s, n, f, id), f)
  {
    var s' := DoComplete(c, s, n, f, id);
    forall i | i in s'.tasks && s'.tasks[i].key == f ensures TwinTask(c, s', f, s'.tasks[i]) {
      if i != id { assert TwinTask(c, s, f, s.tasks[i]); }
    }
  }

  lemma TwinUserWrite(c: Config, s: State, n: nat, f: File, data: Bytes)
    requires c.W >= 2 && Twin(c, s, f) && CanUserWrite(c, s, n, f)
    requires s.rows[f].rank == n && s.rows[f].state == PENDING && |data| == s.rows[f].size
    ensures Twin(c, DoUserWrite(c, s, n, f, data), f)
  {
    var s' := DoUserWrite(c, s, n, f, data);
    forall i | i in s'.tasks && s'.tasks[i].key == f ensures TwinTask(c, s', f, s'.tasks[i]) {
      assert TwinTask(c, s, f, s.tasks[i]);
    }
  }

  // ---------------------------------------------------------------- any event

  /** A save of the file that has an effect: the one thing that ends the overlap. */
  predicate SavesAgain(s: State, e: Event, f: File) { Saves(e) && About(s, e, f) }

  lemma TwinWork(c: Config, s: State, e: Event, f: File)
    requires c.W >= 2 && Twin(c, s, f) && CanHappen(c, s, e) && About(s, e, f) && !FromOutside(e) && !e.LateSave?
    ensures Twin(c, Apply(c, s, e), f)
  {
    TwinFacts(c, s, e.id, f);
    hide Twin, DoFetch, DoCheck, DoSkip, DoBegin, DoArrive, DoFail, DoFinish, DoUpdate;
    match e
    case Push(id) => TwinRestage(c, s, id, Queued, f);
    case Fetch(id, ok) => TwinFetch(c, s, id, ok, f);
    case Check(id, ok) => TwinCheck(c, s, id, ok, f);
    case Skip(id, touch) => TwinSkip(c, s, id, touch, f);
    case Begin(id) => TwinBegin(c, s, id, f);
    case Arrive(id, data) => TwinArrive(c, s, id, data, f);
    case Fail(id, post, lingers) => TwinFail(c, s, id, post, lingers, f);
    case Finish(id, post) =>
      if CopiesToPeer(c, s.tasks[id].stage.snap) {
        TwinPeerFinish(c, s, id, post, f);
      } else {
        TwinDiskFinish(c, s, id, post, f);
      }
    case Update(id, ok) => TwinUpdate(c, s, id, ok, f);
    case _ =>
  }

  /** An event about another file leaves this one alone. */
  lemma OthersLeaveAlone(c: Config, s: State, e: Event, f: File)
    requires Permits(DisciplinedClient, c, s, e) && !About(s, e, f) && Unlisted(s, f)
    ensures SameFile(s, Apply(c, s, e), f)
  {
    hide Apply, CanHappen;
    if FromOutside(e) { OutsideLeavesAlone(c, s, e, f); } else { WorkLeavesAlone(c, s, e, f); }
  }

  lemma WorkLeavesAlone(c: Config, s: State, e: Event, f: File)
    requires CanHappen(c, s, e) && !About(s, e, f) && !FromOutside(e) && !e.LateSave?
    ensures SameFile(s, Apply(c, s, e), f)
  {
    hide DoFetch, DoCheck, DoSkip, DoBegin, DoInstall, DoArrive, DoFail, DoFinish, DoUpdate, DoNotify, DoDelete;
    hide SameFile;
    match e
    case Push(id) => OthersByStage(s, id, Queued);
    case Fetch(id, ok) => OthersByFetch(c, s, id, ok);
    case Check(id, ok) => OthersByCheck(c, s, id, ok);
    case Skip(id, touch) => OthersBySkip(c, s, id, touch);
    case Begin(id) => OthersByBegin(c, s, id);
    case Install(id) => OthersByInstall(c, s, id);
    case Arrive(id, data) => OthersByArrive(c, s, id, data);
    case Fail(id, post, lingers) => OthersByFail(c, s, id, post, lingers);
    case Finish(id, post) => OthersByFinish(c, s, id, post);
    case Update(id, ok) => OthersByUpdate(c, s, id, ok);
    case Notify(id, ok, post) => OthersByNotify(c, s, id, ok, post);
    case Delete(id) => OthersByDelete(c, s, id);
    case _ =>
  }

  lemma OutsideLeavesAlone(c: Config, s: State, e: Event, f: File)
    requires Permits(DisciplinedClient, c, s, e) && !About(s, e, f) && FromOutside(e) && Unlisted(s, f)
    ensures SameFile(s, Apply(c, s, e), f)
  {
    if Notes(e) {
      hide SameFile;
      NotesOnly(c, s, e);
      OthersByBookkeeping(s, e.n, Apply(c, s, e).nodes[e.n]);
    } else if e.MarkEvict? {
      OthersByMarkEvict(c, s, e.n, e.id);
    } else if e.Complete? {
      OthersByComplete(c, s, e.n, e.file, e.id);
    } else if e.UserWrite? {
      OthersByUserWrite(c, s, e.n, e.file, e.data);
    } else {
      SavesLeaveAlone(c, s, e, f);
    }
  }

  lemma SavesLeaveAlone(c: Config, s: State, e: Event, f: File)
    requires CanHappen(c, s, e) && !About(s, e, f) && Saves(e)
    ensures SameFile(s, Apply(c, s, e), f)
  {
    hide CreateEntry, SameFile;
    match e
    case Create(n, req, allocOk) =>
      if req.iteration.Some? {
        OthersByBookkeeping(s, n, s.nodes[n].(iters := s.nodes[n].iters + [req.iteration.value]));
      }
      OthersByBookkeeping(s, n, s.nodes[n]);
      var s1 := PushIteration(s, n, req.iteration);
      assert SetNode(s, n, s.nodes[n]) == s;
      EntryLeavesAlone(s1, n, req, allocOk, f);
      SameTwice(s, s1, CreateEntry(s1, n, req, allocOk), f);
    case FinishEvict(n, allocOk) =>
      var req := s.nodes[n].eviction.req;
      var node := s.nodes[n].(eviction := Idle, iters := s.nodes[n].iters[1..] + [req.iteration.value]);
      OthersByBookkeeping(s, n, node);
      EntryLeavesAlone(SetNode(s, n, node), n, req, allocOk, f);
      SameTwice(s, SetNode(s, n, node), CreateEntry(SetNode(s, n, node), n, req, allocOk), f);
  }

  lemma SameTwice(s: State, s1: State, s2: State, f: File)
    requires SameFile(s, s1, f) && SameFile(s1, s2, f)
    ensures SameFile(s, s2, f)
  {
  }

  lemma EntryLeavesAlone(s: State, n: nat, req: Request, allocOk: bool, f: File)
    requires n < |s.nodes| && (req.file == f ==> req.size == 0 || !allocOk)
    ensures SameFile(s, CreateEntry(s, n, req, allocOk), f)
  {
  }

  /** A file outside every iteration never gets onto the list of an eviction. */
  lemma StaysUnlisted(c: Config, s: State, e: Event, f: File)
    requires CanHappen(c, s, e) && Unlisted(s, f) && f in s.rows && s.rows[f].iteration == None
    ensures Unlisted(Apply(c, s, e), f)
    ensures e.BeginEvict? ==> f !in e.todo
  {
    hide Apply, CanHappen;
    if FromOutside(e) { OutsideListsNot(c, s, e, f); } else { WorkListsNothing(c, s, e, f); }
  }

  lemma OutsideListsNot(c: Config, s: State, e: Event, f: File)
    requires CanHappen(c, s, e) && FromOutside(e) && Unlisted(s, f) && f in s.rows && s.rows[f].iteration == None
    ensures Unlisted(Apply(c, s, e), f)
    ensures e.BeginEvict? ==> f !in e.todo
  {
    hide Unlisted;
    if Notes(e) {
      NoteListsNot(c, s, e, f);
    } else if Saves(e) {
      SaveListsNot(c, s, e, f);
    } else {
      ClientListsNot(c, s, e, f);
    }
  }

  lemma NoteListsNot(c: Config, s: State, e: Event, f: File)
    requires CanHappen(c, s, e) && Notes(e) && Unlisted(s, f) && f in s.rows && s.rows[f].iteration == None
    ensures Unlisted(Apply(c, s, e), f)
    ensures e.BeginEvict? ==> f !in e.todo
  {
    if e.BeginEvict? { assert f in e.todo <==> InOldest(s, e.n, f); }
  }

  lemma SaveListsNot(c: Config, s: State, e: Event, f: File)
    requires CanHappen(c, s, e) && Saves(e) && Unlisted(s, f)
    ensures Unlisted(Apply(c, s, e), f)
  {
  }

  lemma ClientListsNot(c: Config, s: State, e: Event, f: File)
    requires CanHappen(c, s, e) && FromOutside(e) && !Notes(e) && !Saves(e) && Unlisted(s, f)
    ensures Unlisted(Apply(c, s, e), f)
  {
  }

  lemma WorkListsNothing(c: Config, s: State, e: Event, f: File)
    requires CanHappen(c, s, e) && !FromOutside(e) && Unlisted(s, f)
    ensures Unlisted(Apply(c, s, e), f)
  {
    hide Unlisted;
    SameEvictions(c, s, e);
    assert Unlisted(Apply(c, s, e), f) by { UnlistedFrame(s, Apply(c, s, e), f); }
  }

  lemma UnlistedFrame(s: State, s': State, f: File)
    requires Unlisted(s, f) && |s'.nodes| == |s.nodes|
    requires forall n :: 0 <= n < |s.nodes| ==> s'.nodes[n].eviction == s.nodes[n].eviction
    ensures Unlisted(s', f)
  {
  }

  lemma TwinStep(c: Config, s: State, e: Event, f: File)
    requires c.W >= 2 && Twin(c, s, f) && Permits(DisciplinedClient, c, s, e) && !SavesAgain(s, e, f)
    ensures Twin(c, Apply(c, s, e), f)
  {
    hide Apply, CanHappen;
    StaysUnlisted(c, s, e, f);
    if !About(s, e, f) {
      OthersLeaveAlone(c, s, e, f);
      TwinFrame(c, s, Apply(c, s, e), f);
    } else if FromOutside(e) {
      TwinClient(c, s, e, f);
    } else {
      TwinWork(c, s, e, f);
    }
  }

  lemma TwinClient(c: Config, s: State, e: Event, f: File)
    requires c.W >= 2 && Twin(c, s, f) && Permits(DisciplinedClient, c, s, e) && !SavesAgain(s, e, f)
    requires About(s, e, f) && FromOutside(e)
    ensures Twin(c, Apply(c, s, e), f)
  {
    if e.Complete? {
      TwinComplete(c, s, e.n, f, e.id);
    } else {
      TwinUserWrite(c, s, e.n, f, e.data);
    }
  }

  // ---------------------------------------------------------------- the rest of the state

  lemma MapApart<T(!new)>(m: map<File, T>, m': map<File, T>, f: File)
    requires forall g :: g != f ==> SameIn(m, m', g)
    ensures m - {f} == m' - {f}
  {
    forall g ensures g in m - {f} <==> g in m' - {f} { assert g != f ==> SameIn(m, m', g); }
    forall g | g in m - {f} ensures (m - {f})[g] == (m' - {f})[g] { assert SameIn(m, m', g); }
  }

  /** A state is the same without `f` if only `f` differs. */
  lemma OnlyHidden(s: State, s': State, f: File)
    requires Only(s, s', f) && SameBooks(s, s')
    ensures Without(s', f) == Without(s, f)
  {
    forall g | g != f
      ensures SameIn(s.rows, s'.rows, g) && SameIn(s.disk, s'.disk, g) && SameIn(s.saved, s'.saved, g)
      ensures (g in s.diskFailed <==> g in s'.diskFailed) && (g in s.replaced <==> g in s'.replaced)
    {
      assert SameFile(s, s', g);
    }
    MapApart(s.rows, s'.rows, f);
    MapApart(s.disk, s'.disk, f);
    MapApart(s.saved, s'.saved, f);
    assert s.diskFailed - {f} == s'.diskFailed - {f} && s.replaced - {f} == s'.replaced - {f};
    SameTasksHidden(s, s', f);
    SameNodesHidden(s, s', f);
  }

  lemma SameTasksHidden(s: State, s': State, f: File)
    requires Only(s, s', f)
    ensures Others(s'.tasks, f) == Others(s.tasks, f) && Elsewhere(s'.late, f) == Elsewhere(s.late, f)
  {
    forall i | i in s.tasks && s.tasks[i].key != f ensures i in s'.tasks && s'.tasks[i] == s.tasks[i] {
      assert SameFile(s, s', s.tasks[i].key);
    }
    forall i | i in s'.tasks && s'.tasks[i].key != f ensures i in s.tasks && s.tasks[i] == s'.tasks[i] {
      assert SameFile(s, s', s'.tasks[i].key);
    }
    forall l: Late | l.file != f ensures l in s.late <==> l in s'.late { assert SameFile(s, s', l.file); }
  }

  lemma SameNodesHidden(s: State, s': State, f: File)
    requires Only(s, s', f) && SameBooks(s, s')
    ensures Without(s', f).nodes == Without(s, f).nodes
  {
    forall n | 0 <= n < |s.nodes| ensures Bare(s'.nodes[n], f) == Bare(s.nodes[n], f) {
      forall g | g != f
        ensures SameIn(s.nodes[n].dict, s'.nodes[n].dict, g) && SameIn(s.nodes[n].backup, s'.nodes[n].backup, g)
      {
        assert SameFile(s, s', g);
      }
      MapApart(s.nodes[n].dict, s'.nodes[n].dict, f);
      MapApart(s.nodes[n].backup, s'.nodes[n].backup, f);
    }
  }

  /** An event about the file changes nothing else. */
  lemma AboutHidden(c: Config, s: State, e: Event, f: File)
    requires Permits(DisciplinedClient, c, s, e) && About(s, e, f) && !Saves(e)
    ensures Without(Apply(c, s, e), f) == Without(s, f)
  {
    hide Apply, CanHappen;
    if FromOutside(e) { ClientChangesOnly(c, s, e, f); } else { WorkChangesOnly(c, s, e, f); SameEvictions(c, s, e); }
    OnlyHidden(s, Apply(c, s, e), f);
  }

  lemma ClientChangesOnly(c: Config, s: State, e: Event, f: File)
    requires Permits(DisciplinedClient, c, s, e) && About(s, e, f) && !Saves(e) && FromOutside(e)
    ensures Only(s, Apply(c, s, e), f) && SameBooks(s, Apply(c, s, e))
  {
    hide Only;
    if e.Complete? {
      OthersByComplete(c, s, e.n, f, e.id);
    } else {
      OthersByUserWrite(c, s, e.n, f, e.data);
    }
  }

  lemma WorkChangesOnly(c: Config, s: State, e: Event, f: File)
    requires CanHappen(c, s, e) && About(s, e, f) && !FromOutside(e) && !e.LateSave?
    ensures Only(s, Apply(c, s, e), f)
  {
    hide DoFetch, DoCheck, DoSkip, DoBegin, DoInstall, DoArrive, DoFail, DoFinish, DoUpdate, DoNotify, DoDelete, Only;
    match e
    case Push(id) => OthersByStage(s, id, Queued);
    case Fetch(id, ok) => OthersByFetch(c, s, id, ok);
    case Check(id, ok) => OthersByCheck(c, s, id, ok);
    case Skip(id, touch) => OthersBySkip(c, s, id, touch);
    case Begin(id) => OthersByBegin(c, s, id);
    case Install(id) => OthersByInstall(c, s, id);
    case Arrive(id, data) => OthersByArrive(c, s, id, data);
    case Fail(id, post, lingers) => OthersByFail(c, s, id, post, lingers);
    case Finish(id, post) => OthersByFinish(c, s, id, post);
    case Update(id, ok) => OthersByUpdate(c, s, id, ok);
    case Notify(id, ok, post) => OthersByNotify(c, s, id, ok, post);
    case Delete(id) => OthersByDelete(c, s, id);
    case _ =>
  }

  // ---------------------------------------------------------------- from the hasty save on

  ghost predicate Sound(c: Config, s: State) { Inv(c, s) && CacheInv(c, s) }

  /** Either all is as a disciplined client would have it, or it is but for `f`, which is a twin. */
  ghost predicate SoundBut(c: Config, s: State, f: File) {
    s.replaced == {} && (Sound(c, s) || (Twin(c, s, f) && Sound(c, Without(s, f))))
  }

  lemma SoundHeldTwice(c: Config, s: State, f: File)
    requires c.W >= 2 && SoundBut(c, s, f)
    ensures HeldTwice(c, s, f)
  {
    if Sound(c, s) { assert FileOk(c, s, f); } else { TwinHeldTwice(c, s, f); }
  }

  /** Saving the file again, once its reconciles have come to rest, ends the overlap: but for the row,
      the state is one that a disciplined client would have. */
  lemma TwinExit(c: Config, s: State, e: Event, f: File)
    requires c.W >= 2 && Twin(c, s, f) && Sound(c, Without(s, f)) && Permits(DisciplinedClient, c, s, e)
    requires SavesAgain(s, e, f)
    ensures Sound(c, Apply(c, s, e))
  {
    hide Sound;
    var h := SetState(s, f, PENDING);
    SavesAsPending(c, s, e, f);
    RestedIsSound(c, s, f);
    StepInvCache(c, h, e);
  }

  lemma StepInvCache(c: Config, s: State, e: Event)
    requires Sound(c, s) && Permits(DisciplinedClient, c, s, e)
    ensures Sound(c, Apply(c, s, e))
  {
    hide Apply, Permits;
    StepInv(DisciplinedClient, c, s, e);
    StepCache(DisciplinedClient, c, s, e);
  }

  /** The save overwrites the row, so it might as well have been PENDING. */
  lemma SavesAsPending(c: Config, s: State, e: Event, f: File)
    requires Permits(DisciplinedClient, c, s, e) && SavesAgain(s, e, f) && f in s.rows
    ensures Permits(DisciplinedClient, c, SetState(s, f, PENDING), e)
    ensures Apply(c, SetState(s, f, PENDING), e) == Apply(c, s, e)
    ensures Settled(s, s.rows[f].rank, f)
  {
    if e.Create? { CreatesAsPending(c, s, e, f); } else { FinishesAsPending(c, s, e, f); }
  }

  lemma SameEntry(s: State, n: nat, req: Request, h: State)
    requires n < |s.nodes| && req.size > 0 && h == SetState(s, req.file, PENDING)
    ensures CreateEntry(h, n, req, true) == CreateEntry(s, n, req, true)
  {
    assert CreateEntry(h, n, req, true).rows == CreateEntry(s, n, req, true).rows;
  }

  lemma MayStillSave(s: State, n: nat, req: Request)
    requires MaySave(s, n, req)
    ensures MaySave(SetState(s, req.file, PENDING), n, req)
  {
  }

  lemma CreatesAsPending(c: Config, s: State, e: Event, f: File)
    requires Permits(DisciplinedClient, c, s, e) && SavesAgain(s, e, f) && f in s.rows && e.Create?
    ensures Permits(DisciplinedClient, c, SetState(s, f, PENDING), e)
    ensures Apply(c, SetState(s, f, PENDING), e) == Apply(c, s, e)
    ensures Settled(s, s.rows[f].rank, f)
  {
    hide CreateEntry;
    var h := SetState(s, f, PENDING);
    MayStillSave(s, e.n, e.req);
    SameEntry(PushIteration(s, e.n, e.req.iteration), e.n, e.req, PushIteration(h, e.n, e.req.iteration));
  }

  lemma FinishesAsPending(c: Config, s: State, e: Event, f: File)
    requires Permits(DisciplinedClient, c, s, e) && SavesAgain(s, e, f) && f in s.rows && e.FinishEvict?
    ensures Permits(DisciplinedClient, c, SetState(s, f, PENDING), e)
    ensures Apply(c, SetState(s, f, PENDING), e) == Apply(c, s, e)
    ensures Settled(s, s.rows[f].rank, f)
  {
    hide CreateEntry;
    var h, req := SetState(s, f, PENDING), s.nodes[e.n].eviction.req;
    var node := s.nodes[e.n].(eviction := Idle, iters := s.nodes[e.n].iters[1..] + [req.iteration.value]);
    MayStillSave(s, e.n, req);
    SameEntry(SetNode(s, e.n, node), e.n, req, SetNode(h, e.n, node));
  }

  lemma RestedIsSound(c: Config, s: State, f: File)
    requires c.W >= 2 && Twin(c, s, f) && Sound(c, Without(s, f)) && Settled(s, s.rows[f].rank, f)
    ensures Sound(c, SetState(s, f, PENDING))
  {
    var h, w := SetState(s, f, PENDING), Without(s, f);
    forall g ensures FileOk(c, h, g) {
      if g != f {
        SameButHidden(s, f, g);
        assert SameFile(w, h, g) by { SameTwice(w, s, h, g); }
        assert FileOk(c, w, g);
        FrameFile(c, w, h, g);
      } else {
        RestedFile(c, s, f);
      }
    }
    forall n | 0 <= n < c.W ensures CacheOk(c, h, n) { RestedNode(c, s, f, n); }
  }

  lemma RestedFile(c: Config, s: State, f: File)
    requires c.W >= 2 && Twin(c, s, f) && Settled(s, s.rows[f].rank, f)
    ensures FileOk(c, SetState(s, f, PENDING), f)
  {
    var h := SetState(s, f, PENDING);
    forall i | i in h.tasks && h.tasks[i].key == f ensures TaskOk(c, h, i) { assert TwinTask(c, s, f, s.tasks[i]); }
    assert forall i :: !WriterTask(c, h, f, i);
    assert Settled(h, h.rows[f].rank, f);
  }

  lemma RestedNode(c: Config, s: State, f: File, n: nat)
    requires c.W >= 2 && Twin(c, s, f) && CacheInv(c, Without(s, f)) && n < c.W
    ensures CacheOk(c, SetState(s, f, PENDING), n)
  {
    var h, w := SetState(s, f, PENDING), Without(s, f);
    assert CacheOk(c, w, n);
    forall g | g in h.nodes[n].dict && g in h.rows && h.rows[g].iteration.Some?
      ensures h.rows[g].iteration.value in h.nodes[n].iters
    {
      assert g in w.nodes[n].dict && g in w.rows;
    }
    if h.nodes[n].eviction.Evicting? {
      forall g | g in h.nodes[n].eviction.todo ensures ListedOk(c, h, n, g) { assert ListedOk(c, w, n, g); }
      forall g | g in h.nodes[n].dict && InOldest(h, n, g) ensures g in h.nodes[n].eviction.todo {
        assert g in w.nodes[n].dict && InOldest(w, n, g);
      }
    }
  }

  lemma SoundButStep(c: Config, s: State, e: Event, f: File)
    requires c.W >= 2 && SoundBut(c, s, f) && Permits(DisciplinedClient, c, s, e)
    ensures SoundBut(c, Apply(c, s, e), f)
  {
    hide Apply, CanHappen, Sound, Twin;
    ReplacedOnlyByLate(c, s, e);
    if Sound(c, s) {
      StepInvCache(c, s, e);
    } else if SavesAgain(s, e, f) {
      TwinExit(c, s, e, f);
    } else {
      TwinStep(c, s, e, f);
      RestStep(c, s, e, f);
    }
  }

  lemma RestStep(c: Config, s: State, e: Event, f: File)
    requires c.W >= 2 && Twin(c, s, f) && Sound(c, Without(s, f)) && Permits(DisciplinedClient, c, s, e)
    requires !SavesAgain(s, e, f)
    ensures Sound(c, Without(Apply(c, s, e), f))
  {
    hide Apply, CanHappen, Sound, Without;
    if About(s, e, f) {
      AboutHidden(c, s, e, f);
    } else {
      StaysUnlisted(c, s, e, f);
      ProjectEvent(c, s, e, f);
      StepInvCache(c, Without(s, f), e);
    }
  }

  lemma {:induction false} SoundButRun(c: Config, s: State, es: seq<Event>, f: File)
    requires c.W >= 2 && SoundBut(c, s, f) && Runs(DisciplinedClient, c, s, es)
    ensures SoundBut(c, After(DisciplinedClient, c, s, es), f)
    decreases |es|
  {
    hide SoundBut, Apply, CanHappen, Respects;
    if es != [] {
      SoundButStep(c, s, es[0], f);
      SoundButRun(c, Apply(c, s, es[0]), es[1..], f);
    }
  }

  /** The hasty save of a file that the next node has memory for makes it a twin. */
  lemma TwinEntry(c: Config, s: State, n: nat, req: Request)
    requires c.W >= 2 && Safe(DisciplinedClient, c, s) && CanCreate(c, s, n, req) && MaySaveHastily(s, n, req)
    requires req.size > 0 && req.iteration == None
    requires req.file in s.rows && req.file in s.nodes[Next(c, n)].backup
    ensures SoundBut(c, DoCreate(c, s, n, req, true), req.file)
  {
    var f, s' := req.file, DoCreate(c, s, n, req, true);
    assert FileOk(c, s, f);
    forall m | 0 <= m < c.W && s.nodes[m].eviction.Evicting? ensures f !in s.nodes[m].eviction.todo {
      assert CacheOk(c, s, m);
      assert f in s.nodes[m].eviction.todo ==> ListedOk(c, s, m, f);
    }
    TwinTasksAtEntry(c, s, n, req);
    assert Twin(c, s', f);
    HidingKeeps(c, s, f);
    OthersByCreateEntry(s, n, req, true);
    OnlyHidden(s, s', f);
  }

  lemma TwinTasksAtEntry(c: Config, s: State, n: nat, req: Request)
    requires c.W >= 2 && Inv(c, s) && CanCreate(c, s, n, req) && MaySaveHastily(s, n, req)
    requires req.size > 0 && req.iteration == None && req.file in s.rows
    ensures var s' := DoCreate(c, s, n, req, true);
            forall i :: i in s'.tasks && s'.tasks[i].key == req.file ==> TwinTask(c, s', req.file, s'.tasks[i])
  {
    var f, s' := req.file, DoCreate(c, s, n, req, true);
    forall i | i in s'.tasks && s'.tasks[i].key == f ensures TwinTask(c, s', f, s'.tasks[i]) {
      assert FileOk(c, s, f);
      assert TaskOk(c, s, i);
    }
  }

  /** Such a save keeps the file durable, whatever disciplined clients do from then on. */
  lemma TwinDurable(c: Config, s: State, n: nat, req: Request, t: State)
    requires c.W >= 2 && Reachable(DisciplinedClient, c, s) && CanCreate(c, s, n, req) && MaySaveHastily(s, n, req)
    requires req.size > 0 && req.iteration == None
    requires req.file in s.rows && req.file in s.nodes[Next(c, n)].backup
    requires Leads(DisciplinedClient, c, DoCreate(c, s, n, req, true), t)
    ensures HeldTwice(c, t, req.file)
  {
    ReachableSafe(DisciplinedClient, c, s);
    TwinEntry(c, s, n, req);
    var s' := DoCreate(c, s, n, req, true);
    var es :| Runs(DisciplinedClient, c, s', es) && After(DisciplinedClient, c, s', es) == t;
    SoundButRun(c, s', es, req.file);
    SoundHeldTwice(c, t, req.file);
  }
}
