/** The inductive invariant of disciplined runs, one file at a time. */
module LifecycleInvariant {
  import opened Lifecycle
  import opened Options

  // ---------------------------------------------------------------- the invariant

  ghost predicate Known<T(!new)>(m: map<File, T>, f: File, v: T) { f in m && m[f] == v }

  /** States in which the owner must still hold the bytes. */
  predicate MustHold(c: Config, st: CkState) {
    st in {PENDING, CACHED, BACKED_UP} || (st == PERSISTENT && c.W >= 2)
  }

  /** A reconcile that may still write bytes and then the row. */
  predicate Writer(c: Config, t: Task) {
    t.stage.Running() && (t.stage.snap.state == CACHED || (t.stage.snap.state == BACKED_UP && c.persist))
  }

  /** The states the row may have moved to since an owner's task read it. */
  predicate MayFollow(c: Config, seen: CkState, now: CkState) {
    match seen
    case PENDING => false
    case CACHED => now == CACHED || (c.W < 2 && now in {OBSOLESCENT, BROKEN})
    case BACKED_UP => now == BACKED_UP || (!c.persist && now in {OBSOLESCENT, BROKEN})
    case PERSISTENT => now in {PERSISTENT, OBSOLESCENT, BROKEN}
    case _ => now in {OBSOLESCENT, BROKEN} || (c.W < 2 && now == PERSISTENT)
  }

  /** The next node holds the last completed save, or the fresh memory of a late handler. */
  ghost predicate BackupOk(c: Config, s: State, f: File, r: Row)
    requires r.rank < |s.nodes| == c.W
  {
    f in s.saved && Known(s.nodes[Next(c, r.rank)].backup, f, if f in s.replaced then Zeros(r.size) else s.saved[f])
  }

  ghost predicate OwnerTaskOk(c: Config, s: State, f: File, r: Row, stage: Stage)
    requires r.rank < |s.nodes| == c.W
  {
    stage.Running() ==>
      var snap := stage.snap;
      && snap.rank == r.rank && snap.size == r.size
      && MayFollow(c, snap.state, r.state)
      && (snap.state == BACKED_UP ==> c.W >= 2)
      && (stage.Copying? || stage.Copied? ==> CopiesToPeer(c, snap) || CopiesToDisk(c, snap))
      && (stage.Copied? && CopiesToPeer(c, snap) ==> BackupOk(c, s, f, r))
      && (stage.Copying? && CopiesToDisk(c, snap) ==> stage.place.Live?)
      && (stage.Copying? && stage.place.Orphaned? ==> f in s.replaced && BackupOk(c, s, f, r))
      && (stage.Copied? && CopiesToDisk(c, snap) ==> f in s.saved && Known(s.disk, f, s.saved[f]))
      && (stage.Notified? ==> snap.state == OBSOLESCENT && c.W >= 2)
  }

  predicate PeerTaskOk(r: Row, stage: Stage) {
    stage.Running() ==>
      && (stage.Loaded? || stage.Checked?)
      && stage.snap.rank == r.rank && stage.snap.size == r.size
      && stage.snap.state == OBSOLESCENT && r.state in {OBSOLESCENT, BROKEN}
  }

  ghost predicate TaskOk(c: Config, s: State, i: nat)
    requires i in s.tasks && |s.nodes| == c.W
  {
    var t := s.tasks[i];
    && t.node < c.W
    && t.key in s.rows && s.rows[t.key].rank < c.W
    && (if t.node == s.rows[t.key].rank then OwnerTaskOk(c, s, t.key, s.rows[t.key], t.stage)
        else t.node == Next(c, s.rows[t.key].rank) && PeerTaskOk(s.rows[t.key], t.stage))
  }

  /** The bytes of the last completed save are where the row's state says they are. */
  ghost predicate DataOk(c: Config, s: State, f: File)
    requires f in s.rows && s.rows[f].rank < |s.nodes| == c.W
  {
    var r := s.rows[f];
    var own := s.nodes[r.rank].dict;
    && r.size > 0
    && (f in own ==> |own[f]| == r.size)
    && (MustHold(c, r.state) ==> f in own)
    && (r.state != PENDING ==> f in s.saved && (f in own ==> own[f] == s.saved[f]))
    && (r.state == BACKED_UP ==> c.W >= 2) && (r.state == PERSISTENT ==> c.persist)
    && (c.W >= 2 && r.state in {BACKED_UP, PERSISTENT} ==> BackupOk(c, s, f, r))
    && (r.state == PERSISTENT || (c.W >= 2 && c.persist && r.state in {OBSOLESCENT, BROKEN}) ==>
          Known(s.disk, f, s.saved[f]))
  }

  ghost predicate OwnerTask(s: State, f: File, i: nat)
    requires f in s.rows
  {
    i in s.tasks && s.tasks[i].key == f && s.tasks[i].node == s.rows[f].rank
  }

  ghost predicate WriterTask(c: Config, s: State, f: File, i: nat) {
    i in s.tasks && s.tasks[i].key == f && Writer(c, s.tasks[i])
  }

  /** Work on one file never overlaps while its row is on the way up. */
  ghost predicate WorkOk(c: Config, s: State, f: File)
    requires f in s.rows
  {
    var r := s.rows[f];
    && (r.state == PENDING ==> Settled(s, r.rank, f))
    && (r.state in {CACHED, BACKED_UP} || (r.state == PERSISTENT && c.W >= 2) ==>
          forall i, j :: OwnerTask(s, f, i) && OwnerTask(s, f, j) ==> i == j)
    && (forall i, j :: WriterTask(c, s, f, i) && WriterTask(c, s, f, j) ==> i == j)
  }

  ghost predicate FileOk(c: Config, s: State, f: File)
    requires |s.nodes| == c.W
  {
    && (f in s.rows ==> s.rows[f].rank < c.W && DataOk(c, s, f) && WorkOk(c, s, f))
    && (forall n :: 0 <= n < c.W && f in s.nodes[n].dict ==> f in s.rows && s.rows[f].rank == n)
    && (forall i :: i in s.tasks && s.tasks[i].key == f ==> TaskOk(c, s, i))
    && (forall l :: l in s.late && l.file == f ==> LateOk(c, s, l))
  }

  /** A lingering handler serves the file's next node, and its memory has the file's size. */
  predicate LateOk(c: Config, s: State, l: Late)
    requires |s.nodes| == c.W
  {
    && l.file in s.rows && s.rows[l.file].rank < c.W
    && l.node == Next(c, s.rows[l.file].rank) && l.size == s.rows[l.file].size
  }

  ghost predicate Inv(c: Config, s: State) {
    && c.W >= 1 && |s.nodes| == c.W
    && forall f :: FileOk(c, s, f)
  }

  // ---------------------------------------------------------------- framing

  ghost predicate SameTasks(s: State, s': State, f: File) {
    && (forall i :: i in s.tasks && s.tasks[i].key == f ==> i in s'.tasks && s'.tasks[i] == s.tasks[i])
    && (forall i :: i in s'.tasks && s'.tasks[i].key == f ==> i in s.tasks && s'.tasks[i] == s.tasks[i])
  }

  ghost predicate SameIn<T(!new)>(m: map<File, T>, m': map<File, T>, f: File) {
    (f in m <==> f in m') && (f in m ==> m[f] == m'[f])
  }

  /** Nothing about `f` differs between the two states. */
  ghost predicate SameFile(s: State, s': State, f: File) {
    && |s.nodes| == |s'.nodes|
    && SameIn(s.rows, s'.rows, f) && SameIn(s.disk, s'.disk, f) && SameIn(s.saved, s'.saved, f)
    && (f in s.diskFailed <==> f in s'.diskFailed) && (f in s.replaced <==> f in s'.replaced)
    && (forall l: Late :: l.file == f ==> (l in s.late <==> l in s'.late))
    && (forall n :: 0 <= n < |s.nodes| ==>
          SameIn(s.nodes[n].dict, s'.nodes[n].dict, f) && SameIn(s.nodes[n].backup, s'.nodes[n].backup, f))
    && SameTasks(s, s', f)
  }

  lemma FrameFile(c: Config, s: State, s': State, f: File)
    requires |s.nodes| == c.W && c.W >= 1 && FileOk(c, s, f) && SameFile(s, s', f)
    ensures FileOk(c, s', f)
  {
    forall i | i in s'.tasks && s'.tasks[i].key == f ensures TaskOk(c, s', i) {
      assert TaskOk(c, s, i);
    }
    if f in s'.rows {
      assert DataOk(c, s', f);
      assert forall i :: OwnerTask(s', f, i) ==> OwnerTask(s, f, i);
      assert forall i :: WriterTask(c, s', f, i) ==> WriterTask(c, s, f, i);
      assert WorkOk(c, s', f);
    }
  }

  lemma Localize(c: Config, s: State, s': State, f: File)
    requires Inv(c, s) && FileOk(c, s, f)
    requires |s'.nodes| == c.W && FileOk(c, s', f)
    requires forall g :: g != f ==> SameFile(s, s', g)
    ensures Inv(c, s')
  {
    forall g ensures FileOk(c, s', g) {
      if g != f {
        assert FileOk(c, s, g);
        FrameFile(c, s, s', g);
      }
    }
  }

  // ---------------------------------------------------------------- one update at a time

  /** Only tasks change, and not this one. */
  lemma OtherTaskOk(c: Config, s: State, s': State, i: nat)
    requires s' == s.(tasks := s'.tasks) && |s.nodes| == c.W
    requires i in s.tasks && i in s'.tasks && s'.tasks[i] == s.tasks[i] && TaskOk(c, s, i)
    ensures TaskOk(c, s', i)
  {
  }

  lemma RestageKeeps(c: Config, s: State, id: nat, st: Stage)
    requires Inv(c, s) && id in s.tasks
    requires TaskOk(c, SetStage(s, id, st), id)
    requires st.Running() ==> s.rows[s.tasks[id].key].state != PENDING
    requires Writer(c, s.tasks[id].(stage := st)) ==>
               forall j :: WriterTask(c, s, s.tasks[id].key, j) ==> j == id
    ensures Inv(c, SetStage(s, id, st))
  {
    var s', f := SetStage(s, id, st), s.tasks[id].key;
    assert f in s.rows && s.rows[f].rank < c.W;
    hide TaskOk, DataOk;
    assert FileOk(c, s, f);
    forall i | i in s'.tasks && s'.tasks[i].key == f ensures TaskOk(c, s', i) {
      if i != id { OtherTaskOk(c, s, s', i); }
    }
    SameData(c, s, s', f);
    assert forall i :: OwnerTask(s', f, i) ==> OwnerTask(s, f, i);
    assert forall i :: WriterTask(c, s', f, i) ==> i == id || WriterTask(c, s, f, i);
    Localize(c, s, s', f);
  }

  lemma SameData(c: Config, s: State, s': State, f: File)
    requires s' == s.(tasks := s'.tasks) && |s.nodes| == c.W
    requires f in s.rows && s.rows[f].rank < c.W && DataOk(c, s, f)
    ensures DataOk(c, s', f)
  {
  }

  lemma DropKeeps(c: Config, s: State, id: nat)
    requires Inv(c, s) && id in s.tasks
    ensures Inv(c, Drop(s, id))
  {
    var s', f := Drop(s, id), s.tasks[id].key;
    assert FileOk(c, s, f);
    assert TaskOk(c, s, id);
    assert f in s.rows;
    hide TaskOk;
    forall i | i in s'.tasks && s'.tasks[i].key == f ensures TaskOk(c, s', i) { OtherTaskOk(c, s, s', i); }
    assert forall i :: OwnerTask(s', f, i) ==> OwnerTask(s, f, i);
    assert forall i :: WriterTask(c, s', f, i) ==> WriterTask(c, s, f, i);
    Localize(c, s, s', f);
  }

  lemma PostKeeps(c: Config, s: State, id: nat, n: nat, f: File)
    requires Inv(c, s) && id !in s.tasks && f in s.rows
    requires s.rows[f].rank < c.W && (n == s.rows[f].rank || n == Next(c, s.rows[f].rank))
    requires n == s.rows[f].rank ==> s.rows[f].state != PENDING
    requires n == s.rows[f].rank && s.rows[f].state !in {OBSOLESCENT, BROKEN} ==>
               forall i :: !OwnerTask(s, f, i)
    ensures Inv(c, Post(s, id, n, f))
  {
    var s' := Post(s, id, n, f);
    assert TaskOk(c, s', id);
    hide TaskOk, DataOk;
    assert FileOk(c, s, f);
    forall i | i in s'.tasks && s'.tasks[i].key == f ensures TaskOk(c, s', i) {
      if i != id { OtherTaskOk(c, s, s', i); }
    }
    SameData(c, s, s', f);
    assert forall i :: OwnerTask(s', f, i) ==> i == id || OwnerTask(s, f, i);
    assert forall i :: WriterTask(c, s', f, i) ==> WriterTask(c, s, f, i);
    Localize(c, s, s', f);
  }

  /** While the peer copy of a CACHED file is being written, nothing relies on it. */
  lemma BackupKeeps(c: Config, s: State, id: nat, data: Bytes, replaced: set<File>)
    requires Inv(c, s) && id in s.tasks && s.tasks[id].stage.Running() && !s.tasks[id].stage.Copied?
    requires CopiesToPeer(c, s.tasks[id].stage.snap)
    requires s.tasks[id].stage.Copying? ==> !s.tasks[id].stage.place.Orphaned?
    requires replaced == s.replaced || replaced == s.replaced - {s.tasks[id].key}
    ensures s.tasks[id].key in s.rows && s.rows[s.tasks[id].key].rank == s.tasks[id].node < c.W
    ensures s.rows[s.tasks[id].key].state == CACHED
    ensures Inv(c, PutBackup(s, Next(c, s.tasks[id].node), s.tasks[id].key, data).(replaced := replaced))
  {
    var f := s.tasks[id].key;
    assert FileOk(c, s, f);
    assert TaskOk(c, s, id);
    assert WriterTask(c, s, f, id);
    BackedFile(c, s, id, data, replaced);
    hide FileOk;
    Localize(c, s, PutBackup(s, Next(c, s.tasks[id].node), f, data).(replaced := replaced), f);
  }

  lemma BackedFile(c: Config, s: State, id: nat, data: Bytes, replaced: set<File>)
    requires Inv(c, s) && id in s.tasks && s.tasks[id].stage.Running() && !s.tasks[id].stage.Copied?
    requires CopiesToPeer(c, s.tasks[id].stage.snap) && TaskOk(c, s, id) && WriterTask(c, s, s.tasks[id].key, id)
    requires s.tasks[id].stage.Copying? ==> !s.tasks[id].stage.place.Orphaned?
    requires s.tasks[id].key in s.rows && s.rows[s.tasks[id].key].rank == s.tasks[id].node < c.W
    requires s.rows[s.tasks[id].key].state == CACHED
    requires replaced == s.replaced || replaced == s.replaced - {s.tasks[id].key}
    ensures FileOk(c, PutBackup(s, Next(c, s.tasks[id].node), s.tasks[id].key, data).(replaced := replaced),
                   s.tasks[id].key)
  {
    var f := s.tasks[id].key;
    assert FileOk(c, s, f);
    var s' := PutBackup(s, Next(c, s.tasks[id].node), f, data).(replaced := replaced);
    forall i | i in s'.tasks && s'.tasks[i].key == f ensures TaskOk(c, s', i) {
      assert TaskOk(c, s, i);
      assert i != id ==> !WriterTask(c, s, f, i);
    }
    assert forall i :: OwnerTask(s', f, i) ==> OwnerTask(s, f, i);
    assert forall i :: WriterTask(c, s', f, i) ==> WriterTask(c, s, f, i);
  }

  /** While a file is being written to disk, nothing relies on its disk content. */
  lemma DiskKeeps(c: Config, s: State, id: nat, data: Bytes)
    requires Inv(c, s) && id in s.tasks && s.tasks[id].stage.Running() && !s.tasks[id].stage.Copied?
    requires CopiesToDisk(c, s.tasks[id].stage.snap)
    ensures Inv(c, s.(disk := s.disk[s.tasks[id].key := data]))
  {
    var f := s.tasks[id].key;
    assert FileOk(c, s, f);
    assert TaskOk(c, s, id);
    assert WriterTask(c, s, f, id);
    var s' := s.(disk := s.disk[f := data]);
    forall i | i in s'.tasks && s'.tasks[i].key == f ensures TaskOk(c, s', i) {
      assert TaskOk(c, s, i);
      assert i != id ==> !WriterTask(c, s, f, i);
    }
    assert forall i :: OwnerTask(s', f, i) ==> OwnerTask(s, f, i);
    assert forall i :: WriterTask(c, s', f, i) ==> WriterTask(c, s, f, i);
    Localize(c, s, s', f);
  }
}
