/** The checkpoint lifecycle on a ring of `W` nodes, as a transition system.

    The shared state is the metadata table, each node's two dictionaries, the disk and the
    reconcile work.  One call of `AddRateLimited` is one `Task`; it is first `Posting` (the caller
    waits for a permit or for queue space), then `Queued`, then runs through the stages of one
    `Reconcile` call, and is either dropped or posted again.  Every stage boundary is a point
    where other nodes, workers and handlers may act. */
module Lifecycle {
  import opened Options

  type File = string
  type Bytes = seq<int>

  datatype CkState = PENDING | CACHED | BACKED_UP | PERSISTENT | BROKEN | OBSOLESCENT

  /** One row of the metadata table; iteration `None` is the string "unknown". */
  datatype Row = Row(rank: nat, iteration: Option<nat>, state: CkState, size: nat)

  datatype Request = Request(file: File, iteration: Option<nat>, size: nat)

  /** The holder of the createMetadata lock, while it evicts the oldest iteration. `seen` is the state
      of each row as the holder last read it: once for all files when the eviction begins, and again
      for the file it is waiting for. */
  datatype Eviction = Idle | Evicting(todo: seq<File>, seen: map<File, CkState>, marked: bool, req: Request)

  datatype Node = Node(dict: map<File, Bytes>, backup: map<File, Bytes>, iters: seq<nat>, eviction: Eviction)

  /** Where the bytes of a copy to the next node go. The server there has looked the file up and found
      no memory (`Missed`), the memory it found or allocated is the file's (`Live`), or other memory has
      taken its place since (`Orphaned`). A copy to disk is always `Live`. */
  datatype Place = Missed | Live | Orphaned

  datatype Stage =
    | Posting
    | Queued
    | Loaded(snap: Row)    // row read from the table
    | Checked(snap: Row)   // local data found
    | Copying(snap: Row, place: Place) // bytes on their way to the next node or to disk
    | Copied(snap: Row)    // bytes arrived, state not yet updated
    | Notified(snap: Row)  // next node told to delete, local data not yet deleted
  {
    predicate Running() { !Posting? && !Queued? }
  }

  datatype Task = Task(node: nat, key: File, stage: Stage)

  /** Server handlers whose client has given up after the handler's lookup missed: each will still save
      fresh memory of that size for the file at its node. */
  datatype Late = Late(node: nat, file: File, size: nat)

  /** World size, persistence flag, and the cap on cached iterations. */
  datatype Config = Config(W: nat, persist: bool, cap: nat)

  /** `saved` holds the bytes of the last completed save, `diskFailed` the files whose disk write
      failed since then, `replaced` those whose backup is the fresh memory of a late handler; these
      three are history only, no step reads them. */
  datatype State = State(
    rows: map<File, Row>,
    nodes: seq<Node>,
    disk: map<File, Bytes>,
    tasks: map<nat, Task>,
    saved: map<File, Bytes>,
    diskFailed: set<File>,
    late: set<Late>,
    replaced: set<File>)

  datatype Event =
    // http handlers
    | Create(n: nat, req: Request, allocOk: bool)
    | BeginEvict(n: nat, req: Request, todo: seq<File>)
    | Reread(n: nat)
    | MarkEvict(n: nat, id: nat)
    | EvictNext(n: nat)
    | AbortEvict(n: nat)
    | FinishEvict(n: nat, allocOk: bool)
    | Complete(n: nat, file: File, id: nat)
    | Report(n: nat, file: File, st: CkState, id: nat)
    | Stray(n: nat, file: File, size: nat)
    // the training process, through the shared memory it was given
    | UserWrite(n: nat, file: File, data: Bytes)
    // work queue and the stages of Reconcile
    | Push(id: nat)
    | Fetch(id: nat, ok: bool)
    | Check(id: nat, ok: bool)
    | Skip(id: nat, touch: bool)
    | Begin(id: nat)
    | Install(id: nat)
    | Arrive(id: nat, data: Bytes)
    | Fail(id: nat, post: Option<nat>, lingers: bool)
    | Finish(id: nat, post: Option<nat>)
    | Update(id: nat, ok: bool)
    | Notify(id: nat, ok: bool, post: Option<nat>)
    | Delete(id: nat)
    | LateSave(late: Late, last: bool)

  function Next(c: Config, n: nat): (x: nat)
    requires c.W > 0
    ensures x < c.W
    ensures c.W >= 2 && n < c.W ==> x != n
  {
    (n + 1) % c.W
  }

  /** `getPrevNode`. */
  function Prev(c: Config, n: nat): nat
    requires c.W > 0
  {
    if n == 0 then c.W - 1 else n - 1
  }

  /** A node is the previous node of its next node, and the other way round. */
  lemma RingInverse(c: Config, n: nat)
    requires n < c.W
    ensures Prev(c, Next(c, n)) == n && Prev(c, n) < c.W && Next(c, Prev(c, n)) == n
  {
    hide Next;
    NextValue(c, n);
    NextValue(c, Prev(c, n));
  }

  lemma NextValue(c: Config, n: nat)
    requires n < c.W
    ensures Next(c, n) == if n == c.W - 1 then 0 else n + 1
  {
  }

  // ---------------------------------------------------------------- state updates

  function SetNode(s: State, n: nat, node: Node): State
    requires n < |s.nodes|
  {
    s.(nodes := s.nodes[n := node])
  }

  function SetStage(s: State, id: nat, stage: Stage): State
    requires id in s.tasks
  {
    s.(tasks := s.tasks[id := s.tasks[id].(stage := stage)])
  }

  function Drop(s: State, id: nat): State {
    s.(tasks := s.tasks - {id})
  }

  function Post(s: State, id: nat, n: nat, f: File): State {
    s.(tasks := s.tasks[id := Task(n, f, Posting)])
  }

  function PostIf(s: State, post: Option<nat>, n: nat, f: File): State {
    if post.Some? then Post(s, post.value, n, f) else s
  }

  function SetState(s: State, f: File, st: CkState): State {
    if f in s.rows then s.(rows := s.rows[f := s.rows[f].(state := st)]) else s
  }

  function PutBackup(s: State, n: nat, f: File, data: Bytes): State
    requires n < |s.nodes|
  {
    SetNode(s, n, s.nodes[n].(backup := s.nodes[n].backup[f := data]))
  }

  function Zeros(n: nat): Bytes { seq(n, _ => 0) }

  /** What a transfer of `size` bytes from the start of `data` carries. */
  function Take(data: Bytes, size: nat): Bytes {
    if size <= |data| then data[..size] else data
  }

  // ---------------------------------------------------------------- steps

  /** A node's copy of the file as `Storage::Load` looks it up for this row. */
  predicate Holds(node: Node, n: nat, row: Row, f: File) {
    if row.rank == n then f in node.dict else f in node.backup
  }

  predicate CopiesToPeer(c: Config, snap: Row) { snap.state == CACHED && c.W >= 2 }

  predicate CopiesToDisk(c: Config, snap: Row) {
    c.persist && ((snap.state == CACHED && c.W < 2) || snap.state == BACKED_UP)
  }

  predicate Skips(c: Config, snap: Row) {
    || snap.state in {PENDING, PERSISTENT, BROKEN}
    || (!c.persist && ((snap.state == CACHED && c.W < 2) || snap.state == BACKED_UP))
  }

  predicate Notifies(c: Config, snap: Row, n: nat) {
    snap.state == OBSOLESCENT && c.W > 1 && snap.rank == n
  }

  /** The row states for which `deleteOldestIteration` keeps waiting. */
  predicate WaitsFor(c: Config, st: CkState) {
    (st == CACHED && c.W > 1) || (st == BACKED_UP && c.persist)
  }

  predicate FreshIf(s: State, post: Option<nat>) { post.Some? ==> post.value !in s.tasks }

  predicate TaskAt(c: Config, s: State, id: nat) {
    id in s.tasks && s.tasks[id].node < |s.nodes| == c.W
  }

  /** Rows of this node that carry its oldest iteration. */
  predicate InOldest(s: State, n: nat, f: File)
    requires n < |s.nodes|
  {
    f in s.rows && s.rows[f].rank == n && |s.nodes[n].iters| > 0
    && s.rows[f].iteration == Some(s.nodes[n].iters[0])
  }

  // http handlers

  /** The part of `createMetadata` after the iteration bookkeeping: find or allocate memory, write
      the PENDING row. */
  function CreateEntry(s: State, n: nat, req: Request, allocOk: bool): State
    requires n < |s.nodes|
  {
    if req.size == 0 || !allocOk then s
    else
      var node := s.nodes[n];
      var node' := if req.file in node.dict then node
                   else node.(dict := node.dict[req.file := Zeros(req.size)]);
      SetNode(s, n, node').(rows := s.rows[req.file := Row(n, req.iteration, PENDING, req.size)])
  }

  function PushIteration(s: State, n: nat, iter: Option<nat>): State
    requires n < |s.nodes|
  {
    if iter.Some? && iter.value !in s.nodes[n].iters
    then SetNode(s, n, s.nodes[n].(iters := s.nodes[n].iters + [iter.value]))
    else s
  }

  predicate CanCreate(c: Config, s: State, n: nat, req: Request) {
    && n < |s.nodes| == c.W
    && (req.iteration.Some? ==>
          && s.nodes[n].eviction.Idle?
          && (req.iteration.value in s.nodes[n].iters || |s.nodes[n].iters| < c.cap))
  }

  function DoCreate(c: Config, s: State, n: nat, req: Request, allocOk: bool): State
    requires CanCreate(c, s, n, req)
  {
    CreateEntry(PushIteration(s, n, req.iteration), n, req, allocOk)
  }

  ghost predicate CanBeginEvict(c: Config, s: State, n: nat, req: Request, todo: seq<File>) {
    && n < |s.nodes| == c.W && s.nodes[n].eviction.Idle? && |s.nodes[n].iters| > 0
    && req.iteration.Some? && req.iteration.value !in s.nodes[n].iters && |s.nodes[n].iters| >= c.cap
    && |todo| > 0 && (forall f :: f in todo <==> InOldest(s, n, f))
  }

  /** The states of the files of an eviction, all read at once. */
  function StatesOf(s: State, todo: seq<File>): map<File, CkState>
    requires forall f :: f in todo ==> f in s.rows
  {
    map f | f in todo :: s.rows[f].state
  }

  function DoBeginEvict(c: Config, s: State, n: nat, req: Request, todo: seq<File>): State
    requires CanBeginEvict(c, s, n, req, todo)
  {
    SetEviction(s, n, Evicting(todo, StatesOf(s, todo), false, req))
  }

  predicate EvictsAt(c: Config, s: State, n: nat) {
    n < |s.nodes| == c.W && s.nodes[n].eviction.Evicting?
  }

  /** The eviction is at a file it has not marked. */
  predicate EvictsNext(c: Config, s: State, n: nat) {
    && EvictsAt(c, s, n)
    && var ev := s.nodes[n].eviction;
    && !ev.marked && |ev.todo| > 0 && ev.todo[0] in s.rows && ev.todo[0] in ev.seen
  }

  predicate CanReread(c: Config, s: State, n: nat) {
    EvictsNext(c, s, n) && WaitsFor(c, s.nodes[n].eviction.seen[s.nodes[n].eviction.todo[0]])
  }

  function DoReread(c: Config, s: State, n: nat): State
    requires CanReread(c, s, n)
  {
    var ev := s.nodes[n].eviction;
    SetEviction(s, n, ev.(seen := ev.seen[ev.todo[0] := s.rows[ev.todo[0]].state]))
  }

  function SetEviction(s: State, n: nat, ev: Eviction): State
    requires n < |s.nodes|
  {
    SetNode(s, n, s.nodes[n].(eviction := ev))
  }

  predicate CanMarkEvict(c: Config, s: State, n: nat, id: nat) {
    && EvictsNext(c, s, n) && id !in s.tasks
    && !WaitsFor(c, s.nodes[n].eviction.seen[s.nodes[n].eviction.todo[0]])
  }

  function DoMarkEvict(c: Config, s: State, n: nat, id: nat): State
    requires CanMarkEvict(c, s, n, id)
  {
    var ev := s.nodes[n].eviction;
    Post(SetState(SetEviction(s, n, ev.(marked := true)), ev.todo[0], OBSOLESCENT), id, n, ev.todo[0])
  }

  predicate CanEvictNext(c: Config, s: State, n: nat) {
    && EvictsAt(c, s, n)
    && var ev := s.nodes[n].eviction;
    && ev.marked && |ev.todo| > 0 && ev.todo[0] !in s.nodes[n].dict
  }

  function DoEvictNext(c: Config, s: State, n: nat): State
    requires CanEvictNext(c, s, n)
  {
    var ev := s.nodes[n].eviction;
    SetEviction(s, n, ev.(todo := ev.todo[1..], marked := false))
  }

  predicate CanFinishEvict(c: Config, s: State, n: nat) {
    && EvictsAt(c, s, n) && |s.nodes[n].iters| > 0
    && s.nodes[n].eviction.todo == [] && s.nodes[n].eviction.req.iteration.Some?
  }

  function DoFinishEvict(c: Config, s: State, n: nat, allocOk: bool): State
    requires CanFinishEvict(c, s, n)
  {
    var req := s.nodes[n].eviction.req;
    var iters := s.nodes[n].iters[1..] + [req.iteration.value];
    CreateEntry(SetNode(s, n, s.nodes[n].(eviction := Idle, iters := iters)), n, req, allocOk)
  }

  predicate CanComplete(c: Config, s: State, n: nat, f: File, id: nat) {
    n < |s.nodes| == c.W && id !in s.tasks && f in s.rows && f in s.nodes[n].dict
  }

  function DoComplete(c: Config, s: State, n: nat, f: File, id: nat): State
    requires CanComplete(c, s, n, f, id)
  {
    Post(SetState(s, f, CACHED).(saved := s.saved[f := s.nodes[n].dict[f]], diskFailed := s.diskFailed - {f}),
         id, n, f)
  }

  /** Any other `updateMetadata`: of a row that does not exist, of a file without memory here, or to a
      state the engine never sends. */
  predicate CanReport(c: Config, s: State, n: nat, id: nat) { n < |s.nodes| == c.W && id !in s.tasks }

  function DoReport(c: Config, s: State, n: nat, f: File, st: CkState, id: nat): State
    requires CanReport(c, s, n, id)
  {
    Post(SetState(s, f, st), id, n, f)
  }

  /** `createMetadata` finds or allocates memory, but cannot write the row. */
  predicate CanStray(c: Config, s: State, n: nat, size: nat) { n < |s.nodes| == c.W && size > 0 }

  function DoStray(c: Config, s: State, n: nat, f: File, size: nat): State
    requires CanStray(c, s, n, size)
  {
    if f in s.nodes[n].dict then s else SetNode(s, n, s.nodes[n].(dict := s.nodes[n].dict[f := Zeros(size)]))
  }

  predicate CanUserWrite(c: Config, s: State, n: nat, f: File) {
    n < |s.nodes| == c.W && f in s.nodes[n].dict
  }

  function DoUserWrite(c: Config, s: State, n: nat, f: File, data: Bytes): State
    requires CanUserWrite(c, s, n, f)
  {
    SetNode(s, n, s.nodes[n].(dict := s.nodes[n].dict[f := data]))
  }

  // the stages of Reconcile

  predicate CanPush(c: Config, s: State, id: nat) { TaskAt(c, s, id) && s.tasks[id].stage.Posting? }

  predicate CanFetch(c: Config, s: State, id: nat) { TaskAt(c, s, id) && s.tasks[id].stage.Queued? }

  function DoFetch(s: State, id: nat, ok: bool): State
    requires id in s.tasks
  {
    var t := s.tasks[id];
    if !ok then SetStage(s, id, Posting)
    else if t.key !in s.rows then Drop(s, id)
    else if s.rows[t.key].rank != t.node && s.rows[t.key].state != OBSOLESCENT then Drop(s, id)
    else SetStage(s, id, Loaded(s.rows[t.key]))
  }

  predicate CanCheck(c: Config, s: State, id: nat) { TaskAt(c, s, id) && s.tasks[id].stage.Loaded? }

  function DoCheck(c: Config, s: State, id: nat, ok: bool): State
    requires CanCheck(c, s, id)
  {
    var t := s.tasks[id];
    var snap := t.stage.snap;
    if snap.size > 0 && Holds(s.nodes[t.node], t.node, snap, t.key) then SetStage(s, id, Checked(snap))
    else if snap.state in {OBSOLESCENT, BROKEN} then Drop(s, id)
    else if ok then Drop(SetState(s, t.key, BROKEN), id)
    else SetStage(s, id, Posting)
  }

  predicate CanSkip(c: Config, s: State, id: nat) {
    TaskAt(c, s, id) && var st := s.tasks[id].stage; st.Checked? && Skips(c, st.snap)
  }

  /** With persistence off an empty file is opened for append; that may fail, unnoticed. */
  function DoSkip(c: Config, s: State, id: nat, touch: bool): State
    requires CanSkip(c, s, id)
  {
    var t := s.tasks[id];
    var s1 := if touch && t.stage.snap.state in {CACHED, BACKED_UP} && t.key !in s.disk
              then s.(disk := s.disk[t.key := []]) else s;
    Drop(s1, id)
  }

  predicate CanBegin(c: Config, s: State, id: nat) {
    && TaskAt(c, s, id)
    && var st := s.tasks[id].stage;
    && st.Checked? && (CopiesToPeer(c, st.snap) || CopiesToDisk(c, st.snap))
  }

  /** The server looks the file up; a disk write truncates the file. */
  function DoBegin(c: Config, s: State, id: nat): State
    requires CanBegin(c, s, id)
  {
    var t := s.tasks[id];
    var snap := t.stage.snap;
    if CopiesToDisk(c, snap) then SetStage(s.(disk := s.disk[t.key := []]), id, Copying(snap, Live))
    else SetStage(s, id, Copying(snap, if t.key in s.nodes[Next(c, t.node)].backup then Live else Missed))
  }

  /** Fresh memory takes the place of what other copies of the file to node `x` have been writing to. */
  function Orphan(c: Config, tasks: map<nat, Task>, x: nat, f: File): map<nat, Task>
    requires c.W > 0
  {
    map i | i in tasks :: if WritesTo(c, tasks[i], x, f) then tasks[i].(stage := Copying(tasks[i].stage.snap, Orphaned))
                          else tasks[i]
  }

  predicate WritesTo(c: Config, t: Task, x: nat, f: File)
    requires c.W > 0
  {
    && t.key == f && t.stage.Copying? && t.stage.place.Live?
    && CopiesToPeer(c, t.stage.snap) && Next(c, t.node) == x
  }

  function PutFresh(c: Config, s: State, x: nat, f: File, size: nat): State
    requires x < |s.nodes| == c.W
  {
    PutBackup(s, x, f, Zeros(size)).(tasks := Orphan(c, s.tasks, x, f))
  }

  predicate CanInstall(c: Config, s: State, id: nat) {
    && TaskAt(c, s, id)
    && var st := s.tasks[id].stage;
    && st.Copying? && st.place.Missed? && CopiesToPeer(c, st.snap)
  }

  /** The server saves the memory it has allocated, whatever is there by now. */
  function DoInstall(c: Config, s: State, id: nat): State
    requires CanInstall(c, s, id)
  {
    var t := s.tasks[id];
    SetStage(PutFresh(c, s, Next(c, t.node), t.key, t.stage.snap.size), id, Copying(t.stage.snap, Live))
  }

  /** Each byte is what was there or what has been sent. */
  predicate Mixed(data: Bytes, was: Bytes, sent: Bytes) {
    |data| == |was| && forall k :: 0 <= k < |data| ==> data[k] == was[k] || (k < |sent| && data[k] == sent[k])
  }

  predicate CanArrive(c: Config, s: State, id: nat, data: Bytes) {
    && TaskAt(c, s, id)
    && var t := s.tasks[id];
    && t.stage.Copying? && t.stage.place.Live? && t.key in s.nodes[t.node].dict
    && (CopiesToPeer(c, t.stage.snap) ==>
          && t.key in s.nodes[Next(c, t.node)].backup
          && Mixed(data, s.nodes[Next(c, t.node)].backup[t.key],
                   Take(s.nodes[t.node].dict[t.key], t.stage.snap.size)))
  }

  /** Some bytes arrive; on disk, anything may. */
  function DoArrive(c: Config, s: State, id: nat, data: Bytes): State
    requires CanArrive(c, s, id, data)
  {
    var t := s.tasks[id];
    if CopiesToPeer(c, t.stage.snap) then PutBackup(s, Next(c, t.node), t.key, data)
    else s.(disk := s.disk[t.key := data])
  }

  predicate CanFail(c: Config, s: State, id: nat, post: Option<nat>, lingers: bool) {
    && TaskAt(c, s, id) && FreshIf(s, post)
    && var st := s.tasks[id].stage;
    && (st.Checked? || st.Copying?)
    && (CopiesToPeer(c, st.snap) || (CopiesToDisk(c, st.snap) && post == None))
    && (lingers ==> st.Copying? && st.place.Missed? && CopiesToPeer(c, st.snap))
  }

  /** The copy fails; the peer may have queued the key, and its handler may linger. */
  function DoFail(c: Config, s: State, id: nat, post: Option<nat>, lingers: bool): State
    requires CanFail(c, s, id, post, lingers)
  {
    var t := s.tasks[id];
    var snap := t.stage.snap;
    if CopiesToPeer(c, snap) then
      var x := Next(c, t.node);
      var s1 := if lingers then s.(late := s.late + {Late(x, t.key, snap.size)}) else s;
      PostIf(SetStage(s1, id, Posting), post, x, t.key)
    else if snap.state == CACHED then SetStage(s, id, Posting)
    else Drop(s, id).(diskFailed := s.diskFailed + {t.key})
  }

  predicate CanLateSave(c: Config, s: State, l: Late) { l in s.late && l.node < |s.nodes| == c.W }

  /** One of the handlers that linger for the file saves its memory; there may be more of them. */
  function DoLateSave(c: Config, s: State, l: Late, last: bool): State
    requires CanLateSave(c, s, l)
  {
    PutFresh(c, s, l.node, l.file, l.size).(late := if last then s.late - {l} else s.late,
                                            replaced := s.replaced + {l.file})
  }

  predicate CanFinish(c: Config, s: State, id: nat, post: Option<nat>) {
    && TaskAt(c, s, id) && FreshIf(s, post)
    && var st := s.tasks[id].stage;
    && st.Copying? && !st.place.Missed?
    && (CopiesToPeer(c, st.snap) || (CopiesToDisk(c, st.snap) && post == None))
    && s.tasks[id].key in s.nodes[s.tasks[id].node].dict
  }

  function DoFinish(c: Config, s: State, id: nat, post: Option<nat>): State
    requires CanFinish(c, s, id, post)
  {
    var t := s.tasks[id];
    var snap := t.stage.snap;
    var data := Take(s.nodes[t.node].dict[t.key], snap.size);
    if CopiesToPeer(c, snap) then
      var x := Next(c, t.node);
      var s1 := if t.stage.place.Orphaned? then s
                else PutBackup(s, x, t.key, data).(replaced := s.replaced - {t.key});
      PostIf(SetStage(s1, id, Copied(snap)), post, x, t.key)
    else
      SetStage(s.(disk := s.disk[t.key := data]), id, Copied(snap))
  }

  function StateAfterCopy(c: Config, snap: Row): CkState {
    if snap.state == CACHED && c.W > 1 then BACKED_UP else PERSISTENT
  }

  predicate CanUpdate(c: Config, s: State, id: nat) { TaskAt(c, s, id) && s.tasks[id].stage.Copied? }

  /** Whether or not the row could be updated, the key is posted again. */
  function DoUpdate(c: Config, s: State, id: nat, ok: bool): State
    requires CanUpdate(c, s, id)
  {
    var t := s.tasks[id];
    SetStage(if ok then SetState(s, t.key, StateAfterCopy(c, t.stage.snap)) else s, id, Posting)
  }

  predicate CanNotify(c: Config, s: State, id: nat, ok: bool, post: Option<nat>) {
    && TaskAt(c, s, id) && s.tasks[id].stage.Checked?
    && FreshIf(s, post) && (ok ==> post.Some?)
    && Notifies(c, s.tasks[id].stage.snap, s.tasks[id].node)
  }

  function DoNotify(c: Config, s: State, id: nat, ok: bool, post: Option<nat>): State
    requires CanNotify(c, s, id, ok, post)
  {
    var t := s.tasks[id];
    PostIf(SetStage(s, id, if ok then Notified(t.stage.snap) else Posting), post, Next(c, t.node), t.key)
  }

  /** `Storage::Delete`: the owner's dictionary first, otherwise the backup dictionary. */
  function StorageDelete(node: Node, n: nat, row: Row, f: File): Node {
    if row.rank == n && f in node.dict then node.(dict := node.dict - {f})
    else node.(backup := node.backup - {f})
  }

  predicate CanDelete(c: Config, s: State, id: nat) {
    && TaskAt(c, s, id)
    && var st := s.tasks[id].stage;
    && (st.Notified?
        || (st.Checked? && st.snap.state == OBSOLESCENT && !Notifies(c, st.snap, s.tasks[id].node)))
  }

  function DoDelete(c: Config, s: State, id: nat): State
    requires CanDelete(c, s, id)
  {
    var t := s.tasks[id];
    Drop(SetNode(s, t.node, StorageDelete(s.nodes[t.node], t.node, t.stage.snap, t.key)), id)
  }

  /** What the code allows, whatever its clients do. */
  ghost predicate CanHappen(c: Config, s: State, e: Event) {
    match e
    case Create(n, req, _) => CanCreate(c, s, n, req)
    case BeginEvict(n, req, todo) => CanBeginEvict(c, s, n, req, todo)
    case Reread(n) => CanReread(c, s, n)
    case MarkEvict(n, id) => CanMarkEvict(c, s, n, id)
    case EvictNext(n) => CanEvictNext(c, s, n)
    case AbortEvict(n) => EvictsAt(c, s, n)
    case FinishEvict(n, _) => CanFinishEvict(c, s, n)
    case Complete(n, f, id) => CanComplete(c, s, n, f, id)
    case Report(n, _, _, id) => CanReport(c, s, n, id)
    case Stray(n, _, size) => CanStray(c, s, n, size)
    case UserWrite(n, f, _) => CanUserWrite(c, s, n, f)
    case Push(id) => CanPush(c, s, id)
    case Fetch(id, _) => CanFetch(c, s, id)
    case Check(id, _) => CanCheck(c, s, id)
    case Skip(id, _) => CanSkip(c, s, id)
    case Begin(id) => CanBegin(c, s, id)
    case Install(id) => CanInstall(c, s, id)
    case Arrive(id, data) => CanArrive(c, s, id, data)
    case Fail(id, post, lingers) => CanFail(c, s, id, post, lingers)
    case Finish(id, post) => CanFinish(c, s, id, post)
    case Update(id, _) => CanUpdate(c, s, id)
    case Notify(id, ok, post) => CanNotify(c, s, id, ok, post)
    case Delete(id) => CanDelete(c, s, id)
    case LateSave(l, _) => CanLateSave(c, s, l)
  }

  function Apply(c: Config, s: State, e: Event): State
    requires CanHappen(c, s, e)
  {
    match e
    case Create(n, req, allocOk) => DoCreate(c, s, n, req, allocOk)
    case BeginEvict(n, req, todo) => DoBeginEvict(c, s, n, req, todo)
    case Reread(n) => DoReread(c, s, n)
    case MarkEvict(n, id) => DoMarkEvict(c, s, n, id)
    case EvictNext(n) => DoEvictNext(c, s, n)
    case AbortEvict(n) => SetEviction(s, n, Idle)
    case FinishEvict(n, allocOk) => DoFinishEvict(c, s, n, allocOk)
    case Complete(n, f, id) => DoComplete(c, s, n, f, id)
    case Report(n, f, st, id) => DoReport(c, s, n, f, st, id)
    case Stray(n, f, size) => DoStray(c, s, n, f, size)
    case UserWrite(n, f, data) => DoUserWrite(c, s, n, f, data)
    case Push(id) => SetStage(s, id, Queued)
    case Fetch(id, ok) => DoFetch(s, id, ok)
    case Check(id, ok) => DoCheck(c, s, id, ok)
    case Skip(id, touch) => DoSkip(c, s, id, touch)
    case Begin(id) => DoBegin(c, s, id)
    case Install(id) => DoInstall(c, s, id)
    case Arrive(id, data) => DoArrive(c, s, id, data)
    case Fail(id, post, lingers) => DoFail(c, s, id, post, lingers)
    case Finish(id, post) => DoFinish(c, s, id, post)
    case Update(id, ok) => DoUpdate(c, s, id, ok)
    case Notify(id, ok, post) => DoNotify(c, s, id, ok, post)
    case Delete(id) => DoDelete(c, s, id)
    case LateSave(l, last) => DoLateSave(c, s, l, last)
  }

  function InitState(c: Config): State {
    State(map[], seq(c.W, _ => Node(map[], map[], [], Idle)), map[], map[], map[], {}, {}, {})
  }

  // ---------------------------------------------------------------- what the clients respect

  /** No reconcile of `f` runs anywhere. */
  ghost predicate Paused(s: State, f: File) {
    forall i :: i in s.tasks && s.tasks[i].key == f ==> !s.tasks[i].stage.Running()
  }

  /** No reconcile of `f` waits or runs at `n`, and none runs at another node. */
  ghost predicate Settled(s: State, n: nat, f: File) {
    forall i :: i in s.tasks && s.tasks[i].key == f ==> s.tasks[i].node != n && !s.tasks[i].stage.Running()
  }

  /** A file has one owner and one size. */
  ghost predicate SameOwner(s: State, n: nat, req: Request) {
    req.file in s.rows ==> s.rows[req.file].rank == n && s.rows[req.file].size == req.size
  }

  /** The file is on the list of the eviction under way at node n. */
  predicate BeingEvicted(s: State, n: nat, f: File) {
    n < |s.nodes| && s.nodes[n].eviction.Evicting? && f in s.nodes[n].eviction.todo
  }

  ghost predicate MaySave(s: State, n: nat, req: Request) {
    SameOwner(s, n, req) && Settled(s, n, req.file) && !BeingEvicted(s, n, req.file)
  }

  /** A client completes and writes only what it has asked to save, only settled files that are not
      being evicted are saved again, no file of the oldest iteration is PENDING when its eviction
      begins, the rows of new files are written, and no server handler outlives its failed copy. */
  ghost predicate Disciplined(c: Config, s: State, e: Event)
    requires CanHappen(c, s, e)
  {
    match e
    case Create(n, req, allocOk) => MaySave(s, n, req)
    case FinishEvict(n, allocOk) => MaySave(s, n, s.nodes[n].eviction.req)
    case BeginEvict(_, _, todo) => forall f :: f in todo ==> s.rows[f].state != PENDING
    case Complete(n, f, _) => s.rows[f].rank == n && s.rows[f].state == PENDING
    case Report(_, _, _, _) => false
    case Stray(_, _, _) => false
    case LateSave(_, _) => false
    case UserWrite(n, f, data) =>
      f in s.rows && s.rows[f].rank == n && s.rows[f].state == PENDING && |data| == s.rows[f].size
    case _ => true
  }

  /** As `Disciplined`, but a file may be saved again while its key is still queued. */
  ghost predicate Hasty(c: Config, s: State, e: Event)
    requires CanHappen(c, s, e)
  {
    match e
    case Create(n, req, allocOk) => MaySaveHastily(s, n, req)
    case FinishEvict(n, allocOk) => MaySaveHastily(s, n, s.nodes[n].eviction.req)
    case _ => Disciplined(c, s, e)
  }

  ghost predicate MaySaveHastily(s: State, n: nat, req: Request) {
    SameOwner(s, n, req) && Paused(s, req.file) && !BeingEvicted(s, n, req.file)
  }

  /** A worker of node n stands between having read the row, in a state it would act on, and looking
      for the local data. */
  ghost predicate HasReader(s: State, n: nat, f: File) { exists i :: Reader(s, n, f, i) }

  predicate Reader(s: State, n: nat, f: File, i: nat) {
    && i in s.tasks && s.tasks[i].node == n && s.tasks[i].key == f
    && s.tasks[i].stage.Loaded? && s.tasks[i].stage.snap.state !in {OBSOLESCENT, BROKEN}
  }

  // ---------------------------------------------------------------- runs

  /** What a run respects. `Sparing(f)` is disciplined and marks `f` for eviction no more; under
      `LateHandlers` clients are disciplined, and server handlers may outlive their failed copies. */
  datatype Rule = AnyClient | HastyClient | DisciplinedClient | QuietEviction | Sparing(file: File) | LateHandlers

  predicate Strict(rule: Rule) { !rule.AnyClient? && !rule.HastyClient? }

  ghost predicate Respects(rule: Rule, c: Config, s: State, e: Event)
    requires CanHappen(c, s, e)
  {
    match rule
    case AnyClient => true
    case HastyClient => Hasty(c, s, e)
    case DisciplinedClient => Disciplined(c, s, e)
    case QuietEviction => Disciplined(c, s, e) && (e.MarkEvict? ==> !HasReader(s, e.n, s.nodes[e.n].eviction.todo[0]))
    case LateHandlers => e.LateSave? || Disciplined(c, s, e)
    case Sparing(f) => Disciplined(c, s, e) && (e.MarkEvict? ==> s.nodes[e.n].eviction.todo[0] != f)
  }

  ghost predicate Permits(rule: Rule, c: Config, s: State, e: Event) {
    CanHappen(c, s, e) && Respects(rule, c, s, e)
  }

  /** `es` can be executed from `s`, each event as `rule` demands. */
  ghost predicate Runs(rule: Rule, c: Config, s: State, es: seq<Event>)
    decreases |es|
  {
    es == [] || (Permits(rule, c, s, es[0]) && Runs(rule, c, Apply(c, s, es[0]), es[1..]))
  }

  ghost function After(rule: Rule, c: Config, s: State, es: seq<Event>): State
    requires Runs(rule, c, s, es)
    decreases |es|
  {
    if es == [] then s else After(rule, c, Apply(c, s, es[0]), es[1..])
  }

  /** Some run takes `s` to `t`. */
  ghost predicate Leads(rule: Rule, c: Config, s: State, t: State) {
    exists es :: Runs(rule, c, s, es) && After(rule, c, s, es) == t
  }

  /** Reachable from the empty cluster under a rule. */
  ghost predicate Reachable(rule: Rule, c: Config, s: State) { c.W >= 1 && Leads(rule, c, InitState(c), s) }

  lemma LeadsNow(rule: Rule, c: Config, s: State)
    ensures Leads(rule, c, s, s)
  {
    assert Runs(rule, c, s, []) && After(rule, c, s, []) == s;
  }

  lemma {:induction false} RunsBoth(rule: Rule, c: Config, s: State, es: seq<Event>, fs: seq<Event>)
    requires Runs(rule, c, s, es) && Runs(rule, c, After(rule, c, s, es), fs)
    ensures Runs(rule, c, s, es + fs) && After(rule, c, s, es + fs) == After(rule, c, After(rule, c, s, es), fs)
    decreases |es|
  {
    hide CanHappen, Respects, Apply;
    if es == [] {
      assert es + fs == fs;
    } else {
      RunsBoth(rule, c, Apply(c, s, es[0]), es[1..], fs);
      assert (es + fs)[0] == es[0] && (es + fs)[1..] == es[1..] + fs;
    }
  }

  lemma LeadsOn(rule: Rule, c: Config, s: State, t: State, u: State)
    requires Leads(rule, c, s, t) && Leads(rule, c, t, u)
    ensures Leads(rule, c, s, u)
  {
    hide Runs, After;
    var es :| Runs(rule, c, s, es) && After(rule, c, s, es) == t;
    var fs :| Runs(rule, c, t, fs) && After(rule, c, t, fs) == u;
    RunsBoth(rule, c, s, es, fs);
  }

  lemma OneStep(rule: Rule, c: Config, s: State, e: Event)
    requires Permits(rule, c, s, e)
    ensures Leads(rule, c, s, Apply(c, s, e))
  {
    hide CanHappen, Respects, Apply;
    assert [e][0] == e && [e][1..] == [];
    assert Runs(rule, c, Apply(c, s, e), []);
    assert Runs(rule, c, s, [e]) && After(rule, c, s, [e]) == Apply(c, s, e);
  }

  lemma LeadsStep(rule: Rule, c: Config, s: State, t: State, e: Event)
    requires Leads(rule, c, s, t) && Permits(rule, c, t, e)
    ensures Leads(rule, c, s, Apply(c, t, e))
  {
    hide CanHappen, Respects, Apply, Leads;
    OneStep(rule, c, t, e);
    LeadsOn(rule, c, s, t, Apply(c, t, e));
  }
}
