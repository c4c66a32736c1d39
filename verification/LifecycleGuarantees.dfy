/** The promises of the checkpoint engine, for every reachable state and every next step. */
module LifecycleGuarantees {
  import opened Lifecycle
  import opened Options
  import opened LifecycleInvariant
  import opened LifecycleFrame
  import opened LifecycleWork
  import opened LifecycleTidy
  import opened LifecycleCache
  import opened LifecycleTheorems

  // ---------------------------------------------------------------- durability

  /** Node `n` restarts with empty memory; the table and the disk survive. */
  function Wipe(s: State, n: nat): State
    requires n < |s.nodes|
  {
    SetNode(s, n, Node(map[], map[], [], Idle))
  }

  ghost predicate HasCopy(s: State, n: nat, f: File, data: Bytes) {
    n < |s.nodes| && (Known(s.nodes[n].dict, f, data) || Known(s.nodes[n].backup, f, data))
  }

  /** A backed-up or persistent file is held twice, and outlives the memory of any one node. */
  lemma SurvivesNodeLoss(c: Config, s: State, f: File, lost: nat)
    requires c.W >= 2 && Reachable(DisciplinedClient, c, s) && lost < c.W
    requires f in s.rows && s.rows[f].state in {BACKED_UP, PERSISTENT}
    ensures |s.nodes| == c.W && s.rows[f].rank < c.W && f in s.saved
    ensures Known(s.nodes[s.rows[f].rank].dict, f, s.saved[f])
    ensures Known(s.nodes[Next(c, s.rows[f].rank)].backup, f, s.saved[f])
    ensures exists n :: n != lost && HasCopy(Wipe(s, lost), n, f, s.saved[f])
  {
    ReachableSafe(DisciplinedClient, c, s);
    assert FileOk(c, s, f);
    var o := s.rows[f].rank;
    if lost == o {
      assert HasCopy(Wipe(s, lost), Next(c, o), f, s.saved[f]);
    } else {
      assert HasCopy(Wipe(s, lost), o, f, s.saved[f]);
    }
  }

  /** A backed-up or persistent file has its saved bytes at its owner and at the next node. */
  ghost predicate HeldTwice(c: Config, s: State, f: File) {
    f in s.rows && s.rows[f].state in {BACKED_UP, PERSISTENT} ==>
      && |s.nodes| == c.W && s.rows[f].rank < c.W && f in s.saved
      && Known(s.nodes[s.rows[f].rank].dict, f, s.saved[f])
      && Known(s.nodes[Next(c, s.rows[f].rank)].backup, f, s.saved[f])
  }

  /** A persistent file is on disk, in a world of any size. */
  lemma PersistentOnDisk(c: Config, s: State, f: File)
    requires Reachable(DisciplinedClient, c, s)
    requires f in s.rows && s.rows[f].state == PERSISTENT
    ensures f in s.saved && Known(s.disk, f, s.saved[f])
  {
    ReachableSafe(DisciplinedClient, c, s);
    assert FileOk(c, s, f);
  }

  /** No worker copies from memory that has been freed. */
  lemma NeverReadsFreedMemory(c: Config, s: State, i: nat)
    requires c.W >= 2 && Reachable(DisciplinedClient, c, s)
    requires i in s.tasks && s.tasks[i].stage.Copying?
    ensures s.tasks[i].node < |s.nodes| && s.tasks[i].key in s.saved
    ensures Known(s.nodes[s.tasks[i].node].dict, s.tasks[i].key, s.saved[s.tasks[i].key])
    ensures Take(s.saved[s.tasks[i].key], s.tasks[i].stage.snap.size) == s.saved[s.tasks[i].key]
  {
    ReachableSafe(DisciplinedClient, c, s);
    assert FileOk(c, s, s.tasks[i].key);
    assert TaskOk(c, s, i);
  }

  /** The PENDING branch of Reconcile is never taken, and a node that is not the owner reconciles
      nothing but OBSOLESCENT rows. */
  lemma PendingNeverReconciled(c: Config, s: State, i: nat)
    requires Reachable(DisciplinedClient, c, s) && i in s.tasks && s.tasks[i].stage.Running()
    ensures s.tasks[i].stage.snap.state != PENDING
    ensures s.tasks[i].stage.snap.rank != s.tasks[i].node ==> s.tasks[i].stage.snap.state == OBSOLESCENT
  {
    ReachableSafe(DisciplinedClient, c, s);
    assert FileOk(c, s, s.tasks[i].key);
    assert TaskOk(c, s, i);
  }

  // ---------------------------------------------------------------- lifecycle order

  /** The edges of the lifecycle, each with the event that takes it. A single node evicts CACHED rows
      too, so there an update that comes late may revive a row, and a row may be found without data. */
  predicate Edge(c: Config, from: CkState, to: CkState, e: Event) {
    || to == from
    || (to == PENDING && (e.Create? || e.FinishEvict?))
    || (from == PENDING && to == CACHED && e.Complete?)
    || (from == CACHED && to == (if c.W >= 2 then BACKED_UP else PERSISTENT) && e.Update?)
    || (from == BACKED_UP && to == PERSISTENT && e.Update?)
    || (from != PENDING && to == OBSOLESCENT && !WaitsFor(c, from) && e.MarkEvict?)
    || (from == OBSOLESCENT && to == BROKEN && e.Check?)
    || (c.W < 2 && from in {OBSOLESCENT, BROKEN} && to == PERSISTENT && e.Update?)
    || (c.W < 2 && from == PERSISTENT && to == BROKEN && e.Check?)
  }

  /** A row moves only along CACHED, BACKED_UP, PERSISTENT, OBSOLESCENT, and back to PENDING only when
      it is saved again; with two nodes or more, BROKEN comes only from OBSOLESCENT. */
  lemma RowsMoveForward(c: Config, s: State, e: Event, f: File)
    requires Reachable(DisciplinedClient, c, s) && Permits(DisciplinedClient, c, s, e)
    requires f in s.rows
    ensures f in Apply(c, s, e).rows
    ensures Edge(c, s.rows[f].state, Apply(c, s, e).rows[f].state, e)
  {
    ReachableSafe(DisciplinedClient, c, s);
    StepEdge(c, s, e, f);
  }

  lemma StepEdge(c: Config, s: State, e: Event, f: File)
    requires Inv(c, s) && CacheInv(c, s) && Permits(DisciplinedClient, c, s, e) && f in s.rows
    ensures f in Apply(c, s, e).rows
    ensures Edge(c, s.rows[f].state, Apply(c, s, e).rows[f].state, e)
  {
    hide Apply;
    if e.Check? {
      CheckEdge(c, s, e, f);
    } else if e.Update? {
      UpdateEdge(c, s, e, f);
    } else if e.Install? || e.Arrive? || e.LateSave? {
      LandingEdge(c, s, e, f);
    } else if e.Fail? {
      FailEdge(c, s, e, f);
    } else if e.Finish? || e.Notify? || e.Delete? {
      EndEdge(c, s, e, f);
    } else if e.Fetch? || e.Skip? || e.Begin? || e.Push? {
      StageEdge(c, s, e, f);
    } else if e.MarkEvict? {
      MarkEdge(c, s, e, f);
    } else {
      HandlerEdge(c, s, e, f);
    }
  }

  lemma MarkEdge(c: Config, s: State, e: Event, f: File)
    requires CacheInv(c, s) && CanHappen(c, s, e) && e.MarkEvict? && f in s.rows
    ensures f in Apply(c, s, e).rows
    ensures Edge(c, s.rows[f].state, Apply(c, s, e).rows[f].state, e)
  {
    CacheByMarkEvict(c, s, e.n, e.id);
  }

  lemma StageEdge(c: Config, s: State, e: Event, f: File)
    requires CanHappen(c, s, e) && (e.Fetch? || e.Skip? || e.Begin? || e.Push?)
    ensures Apply(c, s, e).rows == s.rows
  {
  }

  lemma LandingEdge(c: Config, s: State, e: Event, f: File)
    requires CanHappen(c, s, e) && (e.Install? || e.Arrive? || e.LateSave?)
    ensures Apply(c, s, e).rows == s.rows
  {
  }

  lemma FailEdge(c: Config, s: State, e: Event, f: File)
    requires CanHappen(c, s, e) && e.Fail?
    ensures Apply(c, s, e).rows == s.rows
  {
  }

  lemma EndEdge(c: Config, s: State, e: Event, f: File)
    requires CanHappen(c, s, e) && (e.Finish? || e.Notify? || e.Delete?)
    ensures Apply(c, s, e).rows == s.rows
  {
  }

  lemma HandlerEdge(c: Config, s: State, e: Event, f: File)
    requires Permits(DisciplinedClient, c, s, e) && f in s.rows
    requires e.Create? || e.BeginEvict? || e.Reread? || e.EvictNext? || e.AbortEvict? || e.FinishEvict?
             || e.Complete? || e.Report? || e.Stray? || e.UserWrite?
    ensures f in Apply(c, s, e).rows
    ensures Edge(c, s.rows[f].state, Apply(c, s, e).rows[f].state, e)
  {
  }

  /** A row turns BROKEN only under a worker that had read it before it was evicted. */
  lemma CheckEdge(c: Config, s: State, e: Event, f: File)
    requires Inv(c, s) && CanHappen(c, s, e) && e.Check? && f in s.rows
    ensures var rows := Apply(c, s, e).rows;
            f in rows
            && (rows[f].state != s.rows[f].state ==>
                  && rows[f].state == BROKEN && Reader(s, s.rows[f].rank, f, e.id)
                  && (s.rows[f].state == OBSOLESCENT || (c.W < 2 && s.rows[f].state == PERSISTENT)))
  {
    assert FileOk(c, s, s.tasks[e.id].key);
    assert TaskOk(c, s, e.id);
  }

  lemma UpdateEdge(c: Config, s: State, e: Event, f: File)
    requires Inv(c, s) && CanHappen(c, s, e) && e.Update? && f in s.rows
    ensures f in Apply(c, s, e).rows
    ensures Edge(c, s.rows[f].state, Apply(c, s, e).rows[f].state, e)
  {
    assert FileOk(c, s, s.tasks[e.id].key);
    assert TaskOk(c, s, e.id);
  }

  // ---------------------------------------------------------------- eviction

  /** The step takes a copy of `f` from the memory of node `n`. */
  ghost predicate Frees(s: State, s': State, n: nat, f: File)
    requires n < |s.nodes| == |s'.nodes|
  {
    || (f in s.nodes[n].dict && f !in s'.nodes[n].dict)
    || (f in s.nodes[n].backup && f !in s'.nodes[n].backup)
  }

  /** Evicting never overtakes persistence. */
  lemma EvictionWaits(c: Config, s: State, e: Event, f: File)
    requires c.W >= 2 && c.persist && f in s.rows && s.rows[f].state in {CACHED, BACKED_UP}
    requires Reachable(DisciplinedClient, c, s) && Permits(DisciplinedClient, c, s, e)
    ensures f in Apply(c, s, e).rows && Apply(c, s, e).rows[f].state != OBSOLESCENT
  {
    ReachableSafe(DisciplinedClient, c, s);
    StepEdge(c, s, e, f);
  }

  /** Memory is freed only once the bytes of the last completed save are on disk. */
  lemma FreedOnlyWhenOnDisk(c: Config, s: State, e: Event, n: nat, f: File)
    requires c.W >= 2 && c.persist
    requires Reachable(DisciplinedClient, c, s) && Permits(DisciplinedClient, c, s, e)
    requires n < |s.nodes| == |Apply(c, s, e).nodes| && Frees(s, Apply(c, s, e), n, f)
    ensures f in Apply(c, s, e).saved && Known(Apply(c, s, e).disk, f, Apply(c, s, e).saved[f])
  {
    ReachableSafe(DisciplinedClient, c, s);
    StepFrees(c, s, e, n, f);
  }

  lemma StepFrees(c: Config, s: State, e: Event, n: nat, f: File)
    requires c.W >= 2 && c.persist && Inv(c, s) && CanHappen(c, s, e)
    requires n < |s.nodes| == |Apply(c, s, e).nodes| && Frees(s, Apply(c, s, e), n, f)
    ensures f in Apply(c, s, e).saved && Known(Apply(c, s, e).disk, f, Apply(c, s, e).saved[f])
  {
    if e.Delete? {
      DeletesOnlyPersisted(c, s, e.id);
    } else if e.Fail? || e.Install? || e.LateSave? {
      FailuresFreeNothing(c, s, e, n, f);
    } else if e.Finish? || e.Begin? || e.Arrive? {
      TransfersFreeNothing(c, s, e, n, f);
    } else if e.Create? || e.FinishEvict? {
      SavesFreeNothing(c, s, e, n, f);
    } else if e.MarkEvict? || e.Complete? || e.Report? || e.Stray? || e.UserWrite? {
      HandlersFreeNothing(c, s, e, n, f);
    } else {
      StagesFreeNothing(c, s, e, n, f);
    }
  }

  lemma FailuresFreeNothing(c: Config, s: State, e: Event, n: nat, f: File)
    requires CanHappen(c, s, e) && (e.Fail? || e.Install? || e.LateSave?)
    requires n < |s.nodes| == |Apply(c, s, e).nodes|
    ensures !Frees(s, Apply(c, s, e), n, f)
  {
  }

  lemma TransfersFreeNothing(c: Config, s: State, e: Event, n: nat, f: File)
    requires CanHappen(c, s, e) && (e.Finish? || e.Begin? || e.Arrive?)
    requires n < |s.nodes| == |Apply(c, s, e).nodes|
    ensures !Frees(s, Apply(c, s, e), n, f)
  {
  }

  lemma SavesFreeNothing(c: Config, s: State, e: Event, n: nat, f: File)
    requires CanHappen(c, s, e) && (e.Create? || e.FinishEvict?)
    requires n < |s.nodes| == |Apply(c, s, e).nodes|
    ensures !Frees(s, Apply(c, s, e), n, f)
  {
    hide CreateEntry;
    match e
    case Create(m, req, allocOk) => EntryFreesNothing(PushIteration(s, m, req.iteration), m, req, allocOk, n, f);
    case FinishEvict(m, allocOk) =>
      var req := s.nodes[m].eviction.req;
      var iters := s.nodes[m].iters[1..] + [req.iteration.value];
      EntryFreesNothing(SetNode(s, m, s.nodes[m].(eviction := Idle, iters := iters)), m, req, allocOk, n, f);
  }

  lemma EntryFreesNothing(s: State, m: nat, req: Request, allocOk: bool, n: nat, f: File)
    requires m < |s.nodes| && n < |s.nodes|
    ensures |CreateEntry(s, m, req, allocOk).nodes| == |s.nodes| && !Frees(s, CreateEntry(s, m, req, allocOk), n, f)
  {
  }

  lemma HandlersFreeNothing(c: Config, s: State, e: Event, n: nat, f: File)
    requires CanHappen(c, s, e) && (e.MarkEvict? || e.Complete? || e.Report? || e.Stray? || e.UserWrite?)
    requires n < |s.nodes| == |Apply(c, s, e).nodes|
    ensures !Frees(s, Apply(c, s, e), n, f)
  {
  }

  lemma StagesFreeNothing(c: Config, s: State, e: Event, n: nat, f: File)
    requires CanHappen(c, s, e)
    requires e.BeginEvict? || e.Reread? || e.EvictNext? || e.AbortEvict? || e.Push? || e.Fetch? || e.Check? || e.Skip?
             || e.Update? || e.Notify?
    requires n < |s.nodes| == |Apply(c, s, e).nodes|
    ensures !Frees(s, Apply(c, s, e), n, f)
  {
  }

  lemma DeletesOnlyPersisted(c: Config, s: State, id: nat)
    requires c.W >= 2 && c.persist && Inv(c, s) && CanDelete(c, s, id)
    ensures var f := s.tasks[id].key; f in s.saved && Known(s.disk, f, s.saved[f])
  {
    assert FileOk(c, s, s.tasks[id].key);
    assert TaskOk(c, s, id);
  }

  /** For an OBSOLESCENT row: while the owner holds the data its key is waiting or being handled
      there, and once it does not, the next node holds no copy or its key is waiting there. */
  lemma EvictionReachesBothCopies(c: Config, s: State, f: File)
    requires c.W >= 2 && Reachable(QuietEviction, c, s)
    requires f in s.rows && s.rows[f].state == OBSOLESCENT
    ensures |s.nodes| == c.W && s.rows[f].rank < c.W
    ensures f in s.nodes[s.rows[f].rank].dict ==> HasAwake(s, s.rows[f].rank, f)
    ensures f !in s.nodes[s.rows[f].rank].dict ==>
              f !in s.nodes[Next(c, s.rows[f].rank)].backup || HasAwake(s, Next(c, s.rows[f].rank), f)
  {
    ReachableSafe(QuietEviction, c, s);
    assert FileOk(c, s, f) && Alive(c, s, f) && Tidy(c, s, f);
  }

  // ---------------------------------------------------------------- no lost work

  /** A row on its way up always has its key queued, about to be queued or being handled at its
      owner, unless a disk write for it has failed. */
  lemma NoLostWork(c: Config, s: State, f: File)
    requires c.W >= 2 && c.persist && Reachable(DisciplinedClient, c, s) && f in s.rows
    ensures s.rows[f].state == CACHED ==> HasOwnerTask(s, f)
    ensures s.rows[f].state == BACKED_UP ==> f in s.diskFailed || HasOwnerTask(s, f)
  {
    ReachableSafe(DisciplinedClient, c, s);
    assert FileOk(c, s, f) && Alive(c, s, f);
  }

  /** Only a failed disk write gives up on a file; a completed save clears the mark. */
  lemma GivesUpOnlyOnDiskFailure(c: Config, s: State, e: Event, f: File)
    requires CanHappen(c, s, e)
    ensures f in Apply(c, s, e).diskFailed && f !in s.diskFailed ==>
              e.Fail? && s.tasks[e.id].key == f && CopiesToDisk(c, s.tasks[e.id].stage.snap)
    ensures e.Complete? && e.file == f ==> f !in Apply(c, s, e).diskFailed
  {
    if FromOutside(e) {
      hide Apply;
      OutsideNeverGivesUp(c, s, e);
    } else if !e.Fail? {
      hide Apply;
      OthersNeverGiveUp(c, s, e);
    }
  }

  lemma OutsideNeverGivesUp(c: Config, s: State, e: Event)
    requires CanHappen(c, s, e) && FromOutside(e)
    ensures Apply(c, s, e).diskFailed == if e.Complete? then s.diskFailed - {e.file} else s.diskFailed
  {
  }

  lemma OthersNeverGiveUp(c: Config, s: State, e: Event)
    requires CanHappen(c, s, e) && !FromOutside(e) && !e.Fail?
    ensures Apply(c, s, e).diskFailed == s.diskFailed
  {
  }

  // ---------------------------------------------------------------- the iteration cap

  /** The list of cached iterations has no duplicates, never exceeds the cap, and lists the
      iteration of every file the node holds. */
  lemma BoundedCache(c: Config, s: State, n: nat)
    requires Reachable(DisciplinedClient, c, s) && n < c.W
    ensures |s.nodes| == c.W && |s.nodes[n].iters| <= c.cap && NoDuplicates(s.nodes[n].iters)
    ensures forall f :: f in s.nodes[n].dict ==>
              f in s.rows && s.rows[f].rank == n
              && (s.rows[f].iteration.Some? ==> s.rows[f].iteration.value in s.nodes[n].iters)
  {
    ReachableSafe(DisciplinedClient, c, s);
    assert CacheOk(c, s, n);
    forall f | f in s.nodes[n].dict ensures f in s.rows && s.rows[f].rank == n { assert FileOk(c, s, f); }
  }

  // ---------------------------------------------------------------- reads

  datatype Answer = Refused | FromThirdNode | Entry(data: Bytes)

  /** `getMetadata` at node `n`; other nodes first fetch a copy, which is not modelled. */
  function GetMetadata(c: Config, s: State, n: nat, f: File): Answer
    requires |s.nodes| == c.W && n < c.W && c.W > 0
  {
    if f !in s.rows || s.rows[f].state in {BROKEN, OBSOLESCENT, PENDING} then Refused
    else if Next(c, s.rows[f].rank) != n && s.rows[f].rank != n then FromThirdNode
    else if !Holds(s.nodes[n], n, s.rows[f], f) then Refused
    else Entry(if s.rows[f].rank == n then s.nodes[n].dict[f] else s.nodes[n].backup[f])
  }

  predicate IsLive(st: CkState) { st in {CACHED, BACKED_UP, PERSISTENT} }

  /** Whatever the owner of a live row serves, and the next node of a backed-up one, is the last
      completed save; on a ring they always serve it, and a single node does so unless the row is
      PERSISTENT. */
  lemma CorrectReads(c: Config, s: State, n: nat, f: File)
    requires Reachable(DisciplinedClient, c, s) && n < c.W && f in s.rows && IsLive(s.rows[f].state)
    ensures |s.nodes| == c.W && f in s.saved
    ensures n == s.rows[f].rank ==> GetMetadata(c, s, n, f) in {Refused, Entry(s.saved[f])}
    ensures n == s.rows[f].rank && (c.W >= 2 || s.rows[f].state != PERSISTENT) ==>
              GetMetadata(c, s, n, f) == Entry(s.saved[f])
    ensures c.W >= 2 && n == Next(c, s.rows[f].rank) && s.rows[f].state != CACHED ==>
              GetMetadata(c, s, n, f) == Entry(s.saved[f])
  {
    ReachableSafe(DisciplinedClient, c, s);
    assert FileOk(c, s, f);
  }

  /** Who serves a file: nobody while its row is PENDING, OBSOLESCENT or BROKEN; otherwise its owner, unless
      a single node has freed a PERSISTENT file, and the next node, once it has a backup, which it need
      not have while the row is CACHED. */
  lemma ServedIff(c: Config, s: State, n: nat, f: File)
    requires Reachable(DisciplinedClient, c, s) && n < c.W
    ensures |s.nodes| == c.W
    ensures GetMetadata(c, s, n, f).Entry? <==>
              && f in s.rows && s.rows[f].state in {CACHED, BACKED_UP, PERSISTENT}
              && (if n == s.rows[f].rank then c.W >= 2 || s.rows[f].state != PERSISTENT || f in s.nodes[n].dict
                  else n == (s.rows[f].rank + 1) % c.W && (s.rows[f].state != CACHED || f in s.nodes[n].backup))
    ensures GetMetadata(c, s, n, f).Entry? ==>
              && f in s.saved
              && (n == s.rows[f].rank || s.rows[f].state != CACHED ==> GetMetadata(c, s, n, f).data == s.saved[f])
  {
    ReachableSafe(DisciplinedClient, c, s);
    assert FileOk(c, s, f);
  }
}
