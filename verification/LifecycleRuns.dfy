/** The pieces that runs of the lifecycle are put together from, and some runs. */
module LifecycleRuns {
  import opened Lifecycle
  import opened Options
  import opened LifecycleInvariant
  import opened LifecycleTheorems

  // ---------------------------------------------------------------- steps

  lemma StepPush(rule: Rule, c: Config, s0: State, s: State, id: nat)
    requires Leads(rule, c, s0, s) && CanPush(c, s, id)
    ensures Leads(rule, c, s0, SetStage(s, id, Queued))
  {
    LeadsStep(rule, c, s0, s, Push(id));
  }

  lemma StepFetch(rule: Rule, c: Config, s0: State, s: State, id: nat)
    requires Leads(rule, c, s0, s) && CanFetch(c, s, id)
    ensures Leads(rule, c, s0, DoFetch(s, id, true))
  {
    LeadsStep(rule, c, s0, s, Fetch(id, true));
  }

  lemma StepCheck(rule: Rule, c: Config, s0: State, s: State, id: nat)
    requires Leads(rule, c, s0, s) && CanCheck(c, s, id)
    ensures Leads(rule, c, s0, DoCheck(c, s, id, true))
  {
    LeadsStep(rule, c, s0, s, Check(id, true));
  }

  lemma StepSkip(rule: Rule, c: Config, s0: State, s: State, id: nat)
    requires Leads(rule, c, s0, s) && CanSkip(c, s, id)
    ensures Leads(rule, c, s0, DoSkip(c, s, id, false))
  {
    LeadsStep(rule, c, s0, s, Skip(id, false));
  }

  lemma StepBegin(rule: Rule, c: Config, s0: State, s: State, id: nat)
    requires Leads(rule, c, s0, s) && CanBegin(c, s, id)
    ensures Leads(rule, c, s0, DoBegin(c, s, id))
  {
    LeadsStep(rule, c, s0, s, Begin(id));
  }

  lemma StepInstall(rule: Rule, c: Config, s0: State, s: State, id: nat)
    requires Leads(rule, c, s0, s) && CanInstall(c, s, id)
    ensures Leads(rule, c, s0, DoInstall(c, s, id))
  {
    LeadsStep(rule, c, s0, s, Install(id));
  }

  lemma StepFail(rule: Rule, c: Config, s0: State, s: State, id: nat, lingers: bool)
    requires Leads(rule, c, s0, s) && CanFail(c, s, id, None, lingers)
    ensures Leads(rule, c, s0, DoFail(c, s, id, None, lingers))
  {
    LeadsStep(rule, c, s0, s, Fail(id, None, lingers));
  }

  lemma StepLateSave(c: Config, s0: State, s: State, l: Late)
    requires Leads(LateHandlers, c, s0, s) && CanLateSave(c, s, l)
    ensures Leads(LateHandlers, c, s0, DoLateSave(c, s, l, true))
  {
    LeadsStep(LateHandlers, c, s0, s, LateSave(l, true));
  }

  lemma StepFinish(rule: Rule, c: Config, s0: State, s: State, id: nat)
    requires Leads(rule, c, s0, s) && CanFinish(c, s, id, None)
    ensures Leads(rule, c, s0, DoFinish(c, s, id, None))
  {
    LeadsStep(rule, c, s0, s, Finish(id, None));
  }

  lemma StepUpdate(rule: Rule, c: Config, s0: State, s: State, id: nat)
    requires Leads(rule, c, s0, s) && CanUpdate(c, s, id)
    ensures Leads(rule, c, s0, DoUpdate(c, s, id, true))
  {
    LeadsStep(rule, c, s0, s, Update(id, true));
  }

  lemma StepNotify(rule: Rule, c: Config, s0: State, s: State, id: nat, peer: nat)
    requires Leads(rule, c, s0, s) && CanNotify(c, s, id, true, Some(peer))
    ensures Leads(rule, c, s0, DoNotify(c, s, id, true, Some(peer)))
  {
    LeadsStep(rule, c, s0, s, Notify(id, true, Some(peer)));
  }

  lemma StepDelete(rule: Rule, c: Config, s0: State, s: State, id: nat)
    requires Leads(rule, c, s0, s) && CanDelete(c, s, id)
    ensures Leads(rule, c, s0, DoDelete(c, s, id))
  {
    LeadsStep(rule, c, s0, s, Delete(id));
  }

  lemma StepBeginEvict(rule: Rule, c: Config, s0: State, s: State, n: nat, req: Request, todo: seq<File>)
    requires Leads(rule, c, s0, s) && CanBeginEvict(c, s, n, req, todo)
    requires forall f :: f in todo ==> s.rows[f].state != PENDING
    ensures Leads(rule, c, s0, DoBeginEvict(c, s, n, req, todo))
  {
    LeadsStep(rule, c, s0, s, BeginEvict(n, req, todo));
  }

  lemma StepMarkEvict(rule: Rule, c: Config, s0: State, s: State, n: nat, id: nat)
    requires Leads(rule, c, s0, s) && CanMarkEvict(c, s, n, id) && !rule.QuietEviction? && !rule.Sparing?
    ensures Leads(rule, c, s0, DoMarkEvict(c, s, n, id))
  {
    LeadsStep(rule, c, s0, s, MarkEvict(n, id));
  }

  lemma StepEvictNext(rule: Rule, c: Config, s0: State, s: State, n: nat)
    requires Leads(rule, c, s0, s) && CanEvictNext(c, s, n)
    ensures Leads(rule, c, s0, DoEvictNext(c, s, n))
  {
    LeadsStep(rule, c, s0, s, EvictNext(n));
  }

  lemma StepFinishEvict(rule: Rule, c: Config, s0: State, s: State, n: nat, allocOk: bool)
    requires Leads(rule, c, s0, s) && CanFinishEvict(c, s, n)
    requires MaySave(s, n, s.nodes[n].eviction.req)
    ensures Leads(rule, c, s0, DoFinishEvict(c, s, n, allocOk))
  {
    LeadsStep(rule, c, s0, s, FinishEvict(n, allocOk));
  }

  lemma StepCreate(rule: Rule, c: Config, s0: State, s: State, n: nat, req: Request, allocOk: bool)
    requires Leads(rule, c, s0, s) && CanCreate(c, s, n, req)
    requires if Strict(rule) then MaySave(s, n, req) else MaySaveHastily(s, n, req)
    ensures Leads(rule, c, s0, DoCreate(c, s, n, req, allocOk))
  {
    LeadsStep(rule, c, s0, s, Create(n, req, allocOk));
  }

  lemma StepComplete(rule: Rule, c: Config, s0: State, s: State, n: nat, f: File, id: nat)
    requires Leads(rule, c, s0, s) && CanComplete(c, s, n, f, id)
    requires s.rows[f].rank == n && s.rows[f].state == PENDING
    ensures Leads(rule, c, s0, DoComplete(c, s, n, f, id))
  {
    LeadsStep(rule, c, s0, s, Complete(n, f, id));
  }

  lemma StepUserWrite(rule: Rule, c: Config, s0: State, s: State, n: nat, f: File, data: Bytes)
    requires Leads(rule, c, s0, s) && CanUserWrite(c, s, n, f)
    requires f in s.rows && s.rows[f].rank == n && s.rows[f].state == PENDING && |data| == s.rows[f].size
    ensures Leads(rule, c, s0, DoUserWrite(c, s, n, f, data))
  {
    LeadsStep(rule, c, s0, s, UserWrite(n, f, data));
  }

  /** There is always an unused task number. */
  lemma Unused(tasks: map<nat, Task>) returns (id: nat)
    ensures id !in tasks
  {
    id := Above(tasks.Keys);
    assert id !in tasks.Keys;
  }

  lemma {:induction false} Above(xs: set<nat>) returns (b: nat)
    ensures forall x :: x in xs ==> x < b
    decreases |xs|
  {
    if xs == {} {
      b := 0;
    } else {
      var x :| x in xs;
      var rest := Above(xs - {x});
      b := if x < rest then rest else x + 1;
      forall y | y in xs ensures y < b { assert y == x || y in xs - {x}; }
    }
  }

  // ---------------------------------------------------------------- a key at its owner

  /** Task i is a call for `f` at its owner, which holds the file. */
  ghost predicate AtOwner(c: Config, s: State, i: nat, f: File) {
    && |s.nodes| == c.W && i in s.tasks && s.tasks[i].key == f
    && f in s.rows && s.rows[f].rank == s.tasks[i].node < c.W && s.rows[f].size > 0
    && f in s.nodes[s.tasks[i].node].dict
  }

  /** Queue a key, let a worker read the row and find the data. */
  lemma Pick(rule: Rule, c: Config, s0: State, s: State, i: nat, f: File) returns (s': State)
    requires Leads(rule, c, s0, s) && AtOwner(c, s, i, f) && !s.tasks[i].stage.Running()
    ensures s' == SetStage(s, i, Checked(s.rows[f])) && Leads(rule, c, s0, s')
  {
    hide Leads;
    var s1 := s;
    if s.tasks[i].stage.Posting? {
      StepPush(rule, c, s0, s, i);
      s1 := SetStage(s, i, Queued);
    }
    StepFetch(rule, c, s0, s1, i);
    var s2 := SetStage(s1, i, Loaded(s.rows[f]));
    StepCheck(rule, c, s0, s2, i);
    s' := SetStage(s2, i, Checked(s.rows[f]));
    assert s'.tasks == s.tasks[i := Task(s.tasks[i].node, f, Checked(s.rows[f]))];
  }

  /** The row goes one state up and the key is posted again. */
  lemma Raise(rule: Rule, c: Config, s0: State, s: State, i: nat, f: File) returns (s': State)
    requires Leads(rule, c, s0, s) && AtOwner(c, s, i, f) && c.W >= 2
    requires s.tasks[i].stage.Copied? && s.tasks[i].stage.snap.state in {CACHED, BACKED_UP}
    ensures s' == SetStage(SetState(s, f, StateAfterCopy(c, s.tasks[i].stage.snap)), i, Posting)
    ensures Leads(rule, c, s0, s')
  {
    StepUpdate(rule, c, s0, s, i);
    s' := DoUpdate(c, s, i, true);
  }

  /** No copy of the file to node x is under way in the memory that the node has for it. */
  ghost predicate Unwritten(c: Config, s: State, x: nat, f: File)
    requires c.W > 0
  {
    forall i :: i in s.tasks ==> !WritesTo(c, s.tasks[i], x, f)
  }

  lemma NothingToOrphan(c: Config, s: State, x: nat, f: File)
    requires c.W > 0 && Unwritten(c, s, x, f)
    ensures Orphan(c, s.tasks, x, f) == s.tasks
  {
  }

  /** What a copy of `data` to node x leaves. */
  function Backed(s: State, x: nat, f: File, data: Bytes): State
    requires x < |s.nodes|
  {
    PutBackup(s, x, f, data).(replaced := s.replaced - {f})
  }

  /** The bytes of a checked CACHED file go to the next node, which finds or allocates memory for them. */
  lemma CopyToPeer(rule: Rule, c: Config, s0: State, s: State, i: nat, f: File) returns (s': State)
    requires Leads(rule, c, s0, s) && AtOwner(c, s, i, f) && c.W >= 2
    requires s.tasks[i].stage == Checked(s.rows[f]) && s.rows[f].state == CACHED
    requires var x := Next(c, s.rows[f].rank); f in s.nodes[x].backup || Unwritten(c, s, x, f)
    ensures Leads(rule, c, s0, s')
    ensures var snap := s.rows[f]; var x := Next(c, snap.rank);
            s' == SetStage(Backed(s, x, f, Take(s.nodes[snap.rank].dict[f], snap.size)), i, Copied(snap))
  {
    hide Leads, Unwritten;
    var snap := s.rows[f];
    var x := Next(c, snap.rank);
    var s1 := SetStage(s, i, Copying(snap, if f in s.nodes[x].backup then Live else Missed));
    StepBegin(rule, c, s0, s, i);
    if f in s.nodes[x].backup {
      s' := SendAll(rule, c, s0, s1, i, f, snap);
    } else {
      var s2 := Allocate(rule, c, s0, s, i, f);
      s' := SendAll(rule, c, s0, s2, i, f, snap);
      assert s2.nodes[snap.rank].dict == s.nodes[snap.rank].dict;
      PutTwice(s, x, f, Zeros(snap.size), Take(s.nodes[snap.rank].dict[f], snap.size));
    }
    assert s'.tasks == s.tasks[i := Task(snap.rank, f, Copied(snap))];
  }

  lemma PutTwice(s: State, x: nat, f: File, a: Bytes, b: Bytes)
    requires x < |s.nodes|
    ensures PutBackup(PutBackup(s, x, f, a), x, f, b).nodes == PutBackup(s, x, f, b).nodes
  {
    assert s.nodes[x].backup[f := a][f := b] == s.nodes[x].backup[f := b];
  }

  /** The next node has no memory for the file yet. */
  lemma Allocate(rule: Rule, c: Config, s0: State, s: State, i: nat, f: File) returns (s': State)
    requires AtOwner(c, s, i, f) && c.W >= 2 && s.tasks[i].stage.Checked?
    requires var x := Next(c, s.rows[f].rank); f !in s.nodes[x].backup && Unwritten(c, s, x, f)
    requires s.rows[f].state == CACHED && Leads(rule, c, s0, SetStage(s, i, Copying(s.rows[f], Missed)))
    ensures Leads(rule, c, s0, s')
    ensures var snap := s.rows[f];
            s' == SetStage(PutBackup(s, Next(c, snap.rank), f, Zeros(snap.size)), i, Copying(snap, Live))
  {
    hide Leads;
    var snap := s.rows[f];
    var s1 := SetStage(s, i, Copying(snap, Missed));
    NothingToOrphan(c, s1, Next(c, snap.rank), f);
    StepInstall(rule, c, s0, s1, i);
    s' := DoInstall(c, s1, i);
    assert s'.tasks == s.tasks[i := Task(snap.rank, f, Copying(snap, Live))];
  }

  lemma SendAll(rule: Rule, c: Config, s0: State, s: State, i: nat, f: File, snap: Row) returns (s': State)
    requires Leads(rule, c, s0, s) && |s.nodes| == c.W >= 2 && i in s.tasks && snap.state == CACHED
    requires s.tasks[i] == Task(snap.rank, f, Copying(snap, Live)) && snap.rank < c.W && f in s.nodes[snap.rank].dict
    ensures Leads(rule, c, s0, s')
    ensures s' == SetStage(Backed(s, Next(c, snap.rank), f, Take(s.nodes[snap.rank].dict[f], snap.size)), i,
                           Copied(snap))
  {
    hide Leads;
    StepFinish(rule, c, s0, s, i);
    s' := DoFinish(c, s, i, None);
  }

  /** One round through the queue backs a CACHED file up. */
  lemma BackUpRound(rule: Rule, c: Config, s0: State, s: State, i: nat, f: File) returns (s': State)
    requires Leads(rule, c, s0, s) && AtOwner(c, s, i, f) && !s.tasks[i].stage.Running()
    requires c.W >= 2 && s.rows[f].state == CACHED
    requires var x := Next(c, s.rows[f].rank); f in s.nodes[x].backup || Unwritten(c, s, x, f)
    ensures Leads(rule, c, s0, s') && AtOwner(c, s', i, f)
    ensures var data := Take(s.nodes[s.rows[f].rank].dict[f], s.rows[f].size);
            var x := Next(c, s.rows[f].rank);
            s' == SetStage(SetState(Backed(s, x, f, data), f, BACKED_UP), i, Posting)
  {
    hide Leads;
    var o := s.rows[f].rank;
    var data := Take(s.nodes[o].dict[f], s.rows[f].size);
    var s1 := Pick(rule, c, s0, s, i, f);
    var s2 := CopyToPeer(rule, c, s0, s1, i, f);
    s' := Raise(rule, c, s0, s2, i, f);
    assert s'.tasks == s.tasks[i := Task(o, f, Posting)];
  }

  /** One round through the queue writes a BACKED_UP file to disk. */
  lemma PersistRound(rule: Rule, c: Config, s0: State, s: State, i: nat, f: File) returns (s': State)
    requires Leads(rule, c, s0, s) && AtOwner(c, s, i, f) && !s.tasks[i].stage.Running()
    requires c.W >= 2 && c.persist && s.rows[f].state == BACKED_UP
    ensures Leads(rule, c, s0, s') && AtOwner(c, s', i, f)
    ensures var data := Take(s.nodes[s.rows[f].rank].dict[f], s.rows[f].size);
            s' == SetStage(SetState(s.(disk := s.disk[f := data]), f, PERSISTENT), i, Posting)
  {
    hide Leads;
    var s1 := Pick(rule, c, s0, s, i, f);
    StepBegin(rule, c, s0, s1, i);
    var s2 := DoBegin(c, s1, i);
    StepFinish(rule, c, s0, s2, i);
    s' := Raise(rule, c, s0, DoFinish(c, s2, i, None), i, f);
    var data := Take(s.nodes[s.rows[f].rank].dict[f], s.rows[f].size);
    assert s'.disk == s.disk[f := data];
    assert s'.tasks == s.tasks[i := Task(s.rows[f].rank, f, Posting)];
  }

  /** Two rounds take a CACHED row to PERSISTENT; the key is posted once more. */
  lemma Climb(rule: Rule, c: Config, s0: State, s: State, i: nat, f: File) returns (s': State)
    requires Leads(rule, c, s0, s) && AtOwner(c, s, i, f) && !s.tasks[i].stage.Running()
    requires c.W >= 2 && c.persist && s.rows[f].state == CACHED
    requires var x := Next(c, s.rows[f].rank); f in s.nodes[x].backup || Unwritten(c, s, x, f)
    ensures Leads(rule, c, s0, s') && AtOwner(c, s', i, f)
    ensures s'.rows == s.rows[f := s.rows[f].(state := PERSISTENT)]
    ensures s'.tasks == s.tasks[i := Task(s.rows[f].rank, f, Posting)]
    ensures s'.nodes == PutBackup(s, Next(c, s.rows[f].rank), f,
                                  Take(s.nodes[s.rows[f].rank].dict[f], s.rows[f].size)).nodes
    ensures s'.saved == s.saved
  {
    hide Leads;
    var s1 := BackUpRound(rule, c, s0, s, i, f);
    s' := PersistRound(rule, c, s0, s1, i, f);
    assert s'.rows == s.rows[f := s.rows[f].(state := PERSISTENT)];
    assert s'.tasks == s.tasks[i := Task(s.rows[f].rank, f, Posting)];
  }

  /** The worker has nothing left to do for a BACKED_UP file, because persistence is off or because the
      write to disk fails, and drops the key. */
  lemma GiveUp(rule: Rule, c: Config, s0: State, s: State, i: nat, f: File) returns (s': State)
    requires Leads(rule, c, s0, s) && AtOwner(c, s, i, f) && !s.tasks[i].stage.Running()
    requires c.W >= 2 && s.rows[f].state == BACKED_UP
    ensures Leads(rule, c, s0, s')
    ensures s' == Drop(s, i).(diskFailed := if c.persist then s.diskFailed + {f} else s.diskFailed)
  {
    hide Leads;
    var s1 := Pick(rule, c, s0, s, i, f);
    if c.persist {
      StepFail(rule, c, s0, s1, i, false);
      s' := DoFail(c, s1, i, None, false);
    } else {
      StepSkip(rule, c, s0, s1, i);
      s' := DoSkip(c, s1, i, false);
    }
    assert s'.tasks == s.tasks - {i};
  }

  /** The owner notifies the next node and frees an evicted file. */
  lemma Free(rule: Rule, c: Config, s0: State, s: State, i: nat, f: File, peer: nat) returns (s': State)
    requires Leads(rule, c, s0, s) && AtOwner(c, s, i, f) && !s.tasks[i].stage.Running()
    requires c.W >= 2 && s.rows[f].state == OBSOLESCENT && peer !in s.tasks
    ensures Leads(rule, c, s0, s')
    ensures var r := s.rows[f].rank;
            s' == SetNode(s, r, s.nodes[r].(dict := s.nodes[r].dict - {f})).(
                    tasks := s.tasks[peer := Task(Next(c, r), f, Posting)] - {i})
  {
    hide Leads;
    var s1 := Pick(rule, c, s0, s, i, f);
    StepNotify(rule, c, s0, s1, i, peer);
    var s2 := DoNotify(c, s1, i, true, Some(peer));
    StepDelete(rule, c, s0, s2, i);
    s' := DoDelete(c, s2, i);
    assert s2.tasks - {i} == s.tasks[peer := Task(Next(c, s.rows[f].rank), f, Posting)] - {i};
  }

  // ---------------------------------------------------------------- a full cache

  function Numbers(k: nat): (s: seq<nat>)
    ensures |s| == k && forall i :: 0 <= i < k ==> s[i] == i
  {
    if k == 0 then [] else Numbers(k - 1) + [k - 1]
  }

  /** Node 0 lists iterations 0 to k - 1 and holds nothing. */
  function Listing(c: Config, k: nat): State
    requires c.W >= 1
  {
    SetNode(InitState(c), 0, Node(map[], map[], Numbers(k), Idle))
  }

  lemma {:induction false} FillList(rule: Rule, c: Config, k: nat)
    requires c.W >= 1 && k <= c.cap
    ensures Leads(rule, c, InitState(c), Listing(c, k))
  {
    if k == 0 {
      assert Listing(c, 0) == InitState(c) by {
        assert Listing(c, 0).nodes == InitState(c).nodes;
      }
      LeadsNow(rule, c, InitState(c));
    } else {
      hide Leads;
      FillList(rule, c, k - 1);
      var s := Listing(c, k - 1);
      var req := Request("failed", Some(k - 1), 0);
      StepCreate(rule, c, InitState(c), s, 0, req, false);
      assert Numbers(k) == Numbers(k - 1) + [k - 1];
      assert DoCreate(c, s, 0, req, false) == Listing(c, k);
    }
  }

  /** Node 0 saves one byte as `f` in iteration 0 while its list is full. */
  lemma SaveInFullCache(rule: Rule, c: Config, f: File) returns (s: State)
    requires c.W >= 1 && c.cap >= 1
    ensures Leads(rule, c, InitState(c), s) && AtOwner(c, s, 0, f)
    ensures s.rows == map[f := Row(0, Some(0), CACHED, 1)] && s.tasks == map[0 := Task(0, f, Posting)]
    ensures s.nodes[0].iters == Numbers(c.cap) && s.nodes[0].eviction == Idle
    ensures f in s.saved && s.disk == map[]
  {
    hide Leads;
    FillList(rule, c, c.cap);
    var s0 := Listing(c, c.cap);
    var req := Request(f, Some(0), 1);
    assert s0.nodes[0].iters[0] == 0;
    StepCreate(rule, c, InitState(c), s0, 0, req, true);
    var s1 := DoCreate(c, s0, 0, req, true);
    StepComplete(rule, c, InitState(c), s1, 0, f, 0);
    s := DoComplete(c, s1, 0, f, 0);
  }

  /** A file of node 0 in the oldest iteration of a full list, which an eviction need not wait for. */
  ghost predicate Evictable(c: Config, s: State, f: File, st: CkState) {
    && |s.nodes| == c.W >= 1 && c.cap >= 1 && st != PENDING && !WaitsFor(c, st)
    && s.rows == map[f := Row(0, Some(0), st, 1)] && f in s.nodes[0].dict
    && s.nodes[0].iters == Numbers(c.cap) && s.nodes[0].eviction == Idle
  }

  /** Node 0 needs room and marks `f`. */
  lemma MarkOldest(rule: Rule, c: Config, s0: State, s: State, f: File, st: CkState, id: nat) returns (s': State)
    requires Leads(rule, c, s0, s) && !rule.QuietEviction? && !rule.Sparing?
    requires Evictable(c, s, f, st) && id !in s.tasks
    ensures Leads(rule, c, s0, s') && |s'.nodes| == c.W && s'.disk == s.disk && s'.saved == s.saved
    ensures s'.nodes == s.nodes[0 := s'.nodes[0]] && s'.nodes[0].dict == s.nodes[0].dict
    ensures s'.rows == map[f := Row(0, Some(0), OBSOLESCENT, 1)] && s'.tasks == s.tasks[id := Task(0, f, Posting)]
  {
    hide Leads, CanBeginEvict, DoBeginEvict, StatesOf, InOldest, DoMarkEvict, CanMarkEvict;
    var req := Request("next", Some(c.cap), 0);
    NeedsRoomFor(c, s, f, st, req);
    StepBeginEvict(rule, c, s0, s, 0, req, [f]);
    var s1 := SetEviction(s, 0, Evicting([f], map[f := st], false, req));
    s' := MarkFirst(rule, c, s0, s1, f, st, req, id);
  }

  lemma MarkFirst(rule: Rule, c: Config, s0: State, s: State, f: File, st: CkState, req: Request, id: nat)
    returns (s': State)
    requires Leads(rule, c, s0, s) && !rule.QuietEviction? && !rule.Sparing?
    requires |s.nodes| == c.W >= 1 && !WaitsFor(c, st) && id !in s.tasks
    requires s.rows == map[f := Row(0, Some(0), st, 1)]
    requires s.nodes[0].eviction == Evicting([f], map[f := st], false, req)
    ensures Leads(rule, c, s0, s') && |s'.nodes| == c.W && s'.disk == s.disk && s'.saved == s.saved
    ensures s'.nodes == s.nodes[0 := s'.nodes[0]] && s'.nodes[0].dict == s.nodes[0].dict
    ensures s'.rows == map[f := Row(0, Some(0), OBSOLESCENT, 1)] && s'.tasks == s.tasks[id := Task(0, f, Posting)]
  {
    hide Leads, DoMarkEvict;
    MarksFirst(c, s, f, st, req, id);
    StepMarkEvict(rule, c, s0, s, 0, id);
    s' := DoMarkEvict(c, s, 0, id);
  }

  lemma MarksFirst(c: Config, s: State, f: File, st: CkState, req: Request, id: nat)
    requires |s.nodes| == c.W >= 1 && !WaitsFor(c, st) && id !in s.tasks
    requires s.rows == map[f := Row(0, Some(0), st, 1)]
    requires s.nodes[0].eviction == Evicting([f], map[f := st], false, req)
    ensures CanMarkEvict(c, s, 0, id)
    ensures var node := s.nodes[0].(eviction := s.nodes[0].eviction.(marked := true));
            DoMarkEvict(c, s, 0, id) == s.(nodes := s.nodes[0 := node],
                                           rows := map[f := Row(0, Some(0), OBSOLESCENT, 1)],
                                           tasks := s.tasks[id := Task(0, f, Posting)])
  {
  }

  lemma NeedsRoomFor(c: Config, s: State, f: File, st: CkState, req: Request)
    requires Evictable(c, s, f, st) && req.iteration == Some(c.cap)
    ensures CanBeginEvict(c, s, 0, req, [f])
    ensures DoBeginEvict(c, s, 0, req, [f]) == SetEviction(s, 0, Evicting([f], map[f := st], false, req))
  {
    forall g ensures g in [f] <==> InOldest(s, 0, g) {}
    assert StatesOf(s, [f]) == map[f := st];
  }

  lemma EvictAtOwner(rule: Rule, c: Config, s0: State, s: State, f: File, id: nat, peer: nat) returns (s': State)
    requires Leads(rule, c, s0, s) && !rule.QuietEviction? && !rule.Sparing?
    requires c.W >= 2 && Evictable(c, s, f, PERSISTENT) && id !in s.tasks && peer !in s.tasks && id != peer
    ensures Leads(rule, c, s0, s') && |s'.nodes| == c.W
    ensures s'.rows == map[f := Row(0, Some(0), OBSOLESCENT, 1)]
    ensures s'.tasks == s.tasks[peer := Task(1, f, Posting)]
    ensures f !in s'.nodes[0].dict && s'.nodes[1].backup == s.nodes[1].backup
  {
    hide Leads;
    assert Next(c, 0) == 1;
    var s1 := MarkOldest(rule, c, s0, s, f, PERSISTENT, id);
    s' := Free(rule, c, s0, s1, id, f, peer);
    assert s'.tasks == s.tasks[peer := Task(1, f, Posting)];
  }

  /** Node 0 saves one byte, outside every iteration. */
  lemma SavedOnce(rule: Rule, c: Config, s0: State, s: State, f: File, data: Bytes) returns (s': State)
    requires Strict(rule) && c.W >= 2 && Leads(rule, c, s0, s) && |s.nodes| == c.W && s.tasks == map[] && |data| == 1
    requires s.nodes[0].eviction == Idle
    requires f in s.rows ==> s.rows[f].rank == 0 && s.rows[f].size == 1
    ensures Leads(rule, c, s0, s') && AtOwner(c, s', 0, f)
    ensures s'.tasks == map[0 := Task(0, f, Posting)] && s'.rows[f] == Row(0, None, CACHED, 1)
    ensures s'.nodes[0].dict[f] == data && f in s'.saved && s'.saved[f] == data
    ensures s'.nodes[0].eviction == Idle && s'.nodes[1] == s.nodes[1]
  {
    hide Leads;
    var req := Request(f, None, 1);
    StepCreate(rule, c, s0, s, 0, req, true);
    var s1 := DoCreate(c, s, 0, req, true);
    StepUserWrite(rule, c, s0, s1, 0, f, data);
    var s2 := DoUserWrite(c, s1, 0, f, data);
    StepComplete(rule, c, s0, s2, 0, f, 0);
    s' := DoComplete(c, s2, 0, f, 0);
  }

  // ---------------------------------------------------------------- two runs

  /** An eviction that slips between a worker's reading the row and its looking for the data makes
      the row BROKEN.  The next node then drops the notice to delete, and its copy stays. */
  lemma BrokenByUnquietEviction(c: Config, f: File) returns (s: State)
    requires c.W >= 2 && c.persist && c.cap >= 1
    ensures Reachable(DisciplinedClient, c, s) && |s.nodes| == c.W
    ensures f in s.rows && s.rows[f].state == BROKEN
    ensures f in s.nodes[Next(c, s.rows[f].rank)].backup && s.tasks == map[]
  {
    hide Leads;
    assert Next(c, 0) == 1;
    var rule, i := DisciplinedClient, InitState(c);
    var s1 := EvictedBehindReader(c, f);
    StepCheck(rule, c, i, s1, 0);
    var s2 := DoCheck(c, s1, 0, true);
    StepPush(rule, c, i, s2, 2);
    var s3 := SetStage(s2, 2, Queued);
    StepFetch(rule, c, i, s3, 2);
    s := DoFetch(s3, 2, true);
  }

  /** Task 0 has read the row as PERSISTENT; meanwhile the file was evicted and freed. */
  lemma EvictedBehindReader(c: Config, f: File) returns (s: State)
    requires c.W >= 2 && c.persist && c.cap >= 1
    ensures Leads(DisciplinedClient, c, InitState(c), s) && |s.nodes| == c.W
    ensures s.rows == map[f := Row(0, Some(0), OBSOLESCENT, 1)]
    ensures s.tasks == map[0 := Task(0, f, Loaded(Row(0, Some(0), PERSISTENT, 1))), 2 := Task(1, f, Posting)]
    ensures f !in s.nodes[0].dict && f in s.nodes[1].backup
  {
    hide Leads;
    assert Next(c, 0) == 1;
    var rule, i := DisciplinedClient, InitState(c);
    var s0 := SaveInFullCache(rule, c, f);
    var s1 := Climb(rule, c, i, s0, 0, f);
    StepPush(rule, c, i, s1, 0);
    var s2 := SetStage(s1, 0, Queued);
    StepFetch(rule, c, i, s2, 0);
    var s3 := DoFetch(s2, 0, true);
    s := EvictAtOwner(rule, c, i, s3, f, 1, 2);
  }

  /** If a file may be saved again while its key is merely queued, two reconciles of it overlap; the
      slower one writes BACKED_UP over a row whose data has been evicted since. No operation fails. */
  lemma LostByHastyClient(c: Config, f: File) returns (s: State)
    requires c.W >= 2 && c.persist && c.cap >= 1
    ensures Reachable(HastyClient, c, s) && |s.nodes| == c.W
    ensures f in s.rows && s.rows[f].rank == 0 && s.rows[f].state == BACKED_UP && f !in s.nodes[0].dict
  {
    hide Leads;
    var rule, i := HastyClient, InitState(c);
    var s1 := SavedTwice(c, f);
    var s2 := Pick(rule, c, i, s1, 0, f);
    var s3 := CopyToPeer(rule, c, i, s2, 0, f);
    var s4 := Climb(rule, c, i, s3, 1, f);
    var s5 := EvictAtOwner(rule, c, i, s4, f, 2, 3);
    StepUpdate(rule, c, i, s5, 0);
    s := DoUpdate(c, s5, 0, true);
  }

  /** The first save's key is queued, the second save's is about to be. */
  lemma SavedTwice(c: Config, f: File) returns (s: State)
    requires c.W >= 2 && c.persist && c.cap >= 1
    ensures Leads(HastyClient, c, InitState(c), s) && AtOwner(c, s, 0, f) && AtOwner(c, s, 1, f)
    ensures s.rows == map[f := Row(0, Some(0), CACHED, 1)]
    ensures s.tasks == map[0 := Task(0, f, Queued), 1 := Task(0, f, Posting)]
    ensures s.nodes[0].iters == Numbers(c.cap) && s.nodes[0].eviction == Idle
  {
    hide Leads;
    var rule, i := HastyClient, InitState(c);
    var s0 := SaveInFullCache(rule, c, f);
    StepPush(rule, c, i, s0, 0);
    var s1 := SetStage(s0, 0, Queued);
    var req := Request(f, Some(0), 1);
    assert s1.nodes[0].iters[0] == 0;
    StepCreate(rule, c, i, s1, 0, req, true);
    var s2 := DoCreate(c, s1, 0, req, true);
    StepComplete(rule, c, i, s2, 0, f, 1);
    s := DoComplete(c, s2, 0, f, 1);
  }

  /** On a single node, or without persistence, a file is evicted that was never written to disk. */
  lemma EvictedUnsaved(c: Config, f: File) returns (s: State, id: nat)
    requires c.W >= 1 && c.cap >= 1 && !(c.persist && c.W >= 2)
    ensures Leads(DisciplinedClient, c, InitState(c), s) && CanDelete(c, s, id) && |s.nodes| == c.W
    ensures f in s.nodes[0].dict && f !in DoDelete(c, s, id).nodes[0].dict && f in s.saved && f !in s.disk
  {
    hide Leads;
    var rule, i := DisciplinedClient, InitState(c);
    s := SaveInFullCache(rule, c, f);
    if c.W == 1 {
      s := MarkOldest(rule, c, i, s, f, CACHED, 1);
      s := Pick(rule, c, i, s, 0, f);
      id := 0;
    } else {
      s := BackUpRound(rule, c, i, s, 0, f);
      s := MarkOldest(rule, c, i, s, f, BACKED_UP, 1);
      s := Pick(rule, c, i, s, 1, f);
      StepNotify(rule, c, i, s, 1, 2);
      s := DoNotify(c, s, 1, true, Some(2));
      id := 1;
    }
  }
}
