/** The cache of each node is bounded by iterations, while an eviction is under way too. */
module LifecycleCache {
  import opened Lifecycle
  import opened Options
  import opened LifecycleInvariant

  ghost predicate NoDuplicates(q: seq<nat>) { forall i, j :: 0 <= i < j < |q| ==> q[i] != q[j] }

  /** A row on the list of an eviction: no client is writing it, and if it still had to be waited for,
      the eviction last saw it in such a state too. */
  ghost predicate ListedOk(c: Config, s: State, n: nat, f: File)
    requires n < |s.nodes| && s.nodes[n].eviction.Evicting?
  {
    var seen := s.nodes[n].eviction.seen;
    && f in s.rows && s.rows[f].rank == n && f in seen
    && s.rows[f].state != PENDING && (WaitsFor(c, s.rows[f].state) ==> WaitsFor(c, seen[f]))
  }

  ghost predicate EvictionOk(c: Config, s: State, n: nat)
    requires n < |s.nodes|
  {
    var node := s.nodes[n];
    node.eviction.Evicting? ==>
      && |node.iters| > 0
      && node.eviction.req.iteration.Some? && node.eviction.req.iteration.value !in node.iters
      && (forall f :: f in node.eviction.todo ==> ListedOk(c, s, n, f))
      && (forall f :: f in node.dict && InOldest(s, n, f) ==> f in node.eviction.todo)
  }

  ghost predicate CacheOk(c: Config, s: State, n: nat)
    requires n < |s.nodes|
  {
    var node := s.nodes[n];
    && |node.iters| <= c.cap
    && NoDuplicates(node.iters)
    && (forall f :: f in node.dict && f in s.rows && s.rows[f].iteration.Some? ==>
          s.rows[f].iteration.value in node.iters)
    && EvictionOk(c, s, n)
  }

  ghost predicate CacheInv(c: Config, s: State) {
    |s.nodes| == c.W && forall n :: 0 <= n < c.W ==> CacheOk(c, s, n)
  }

  /** A row moves on without being saved again: to a state to be waited for only from another one. */
  predicate Onward(c: Config, was: CkState, now: CkState) {
    (now == PENDING ==> was == PENDING) && (WaitsFor(c, now) ==> was == PENDING || WaitsFor(c, was))
  }

  /** Nothing the cache bound speaks of has changed, except that rows may have moved on and files may
      be gone. */
  ghost predicate CacheUntouched(c: Config, s: State, s': State) {
    && |s'.nodes| == |s.nodes|
    && (forall f :: f in s.rows ==>
          && f in s'.rows && s'.rows[f].rank == s.rows[f].rank && s'.rows[f].iteration == s.rows[f].iteration
          && Onward(c, s.rows[f].state, s'.rows[f].state))
    && (forall f :: f in s'.rows ==> f in s.rows)
    && (forall n :: 0 <= n < |s.nodes| ==>
          && s'.nodes[n].iters == s.nodes[n].iters && s'.nodes[n].eviction == s.nodes[n].eviction
          && forall f :: f in s'.nodes[n].dict ==> f in s.nodes[n].dict)
  }

  lemma FrameCache(c: Config, s: State, s': State)
    requires CacheInv(c, s) && CacheUntouched(c, s, s')
    ensures CacheInv(c, s')
  {
    forall n | 0 <= n < c.W ensures CacheOk(c, s', n) {
      assert CacheOk(c, s, n);
      assert forall f :: f in s'.rows && InOldest(s', n, f) ==> InOldest(s, n, f);
      if s'.nodes[n].eviction.Evicting? {
        forall f | f in s'.nodes[n].eviction.todo ensures ListedOk(c, s', n, f) { assert ListedOk(c, s, n, f); }
      }
    }
  }

  lemma CacheByTask(c: Config, s: State, e: Event)
    requires CacheInv(c, s) && CanHappen(c, s, e)
    requires e.Push? || e.Fetch? || e.Check? || e.Skip? || e.Notify?
    ensures CacheInv(c, Apply(c, s, e))
  {
    FrameCache(c, s, Apply(c, s, e));
  }

  lemma CacheByComplete(c: Config, s: State, n: nat, f: File, id: nat)
    requires CacheInv(c, s) && CanComplete(c, s, n, f, id) && s.rows[f].state == PENDING
    ensures CacheInv(c, DoComplete(c, s, n, f, id))
  {
    FrameCache(c, s, DoComplete(c, s, n, f, id));
  }

  lemma CacheByUserWrite(c: Config, s: State, n: nat, f: File, data: Bytes)
    requires CacheInv(c, s) && CanUserWrite(c, s, n, f)
    ensures CacheInv(c, DoUserWrite(c, s, n, f, data))
  {
    FrameCache(c, s, DoUserWrite(c, s, n, f, data));
  }

  lemma CacheByUpdate(c: Config, s: State, id: nat, ok: bool)
    requires Inv(c, s) && CacheInv(c, s) && CanUpdate(c, s, id)
    ensures CacheInv(c, DoUpdate(c, s, id, ok))
  {
    assert FileOk(c, s, s.tasks[id].key);
    assert TaskOk(c, s, id);
    FrameCache(c, s, DoUpdate(c, s, id, ok));
  }

  lemma CacheByBegin(c: Config, s: State, id: nat)
    requires CacheInv(c, s) && CanBegin(c, s, id)
    ensures CacheInv(c, DoBegin(c, s, id))
  {
    FrameCache(c, s, DoBegin(c, s, id));
  }

  lemma CacheByInstall(c: Config, s: State, id: nat)
    requires CacheInv(c, s) && CanInstall(c, s, id)
    ensures CacheInv(c, DoInstall(c, s, id))
  {
    FrameCache(c, s, DoInstall(c, s, id));
  }

  lemma CacheByArrive(c: Config, s: State, id: nat, data: Bytes)
    requires CacheInv(c, s) && CanArrive(c, s, id, data)
    ensures CacheInv(c, DoArrive(c, s, id, data))
  {
    FrameCache(c, s, DoArrive(c, s, id, data));
  }

  lemma CacheByLateSave(c: Config, s: State, l: Late, last: bool)
    requires CacheInv(c, s) && CanLateSave(c, s, l)
    ensures CacheInv(c, DoLateSave(c, s, l, last))
  {
    FrameCache(c, s, DoLateSave(c, s, l, last));
  }

  lemma CacheByFail(c: Config, s: State, id: nat, post: Option<nat>, lingers: bool)
    requires CacheInv(c, s) && CanFail(c, s, id, post, lingers)
    ensures CacheInv(c, DoFail(c, s, id, post, lingers))
  {
    FrameCache(c, s, DoFail(c, s, id, post, lingers));
  }

  lemma CacheByFinish(c: Config, s: State, id: nat, post: Option<nat>)
    requires CacheInv(c, s) && CanFinish(c, s, id, post)
    ensures CacheInv(c, DoFinish(c, s, id, post))
  {
    FrameCache(c, s, DoFinish(c, s, id, post));
  }

  lemma CacheByDelete(c: Config, s: State, id: nat)
    requires CacheInv(c, s) && CanDelete(c, s, id)
    ensures CacheInv(c, DoDelete(c, s, id))
  {
    FrameCache(c, s, DoDelete(c, s, id));
  }

  /** The last part of createMetadata: the file's iteration must be listed already. */
  lemma CacheByCreateEntry(c: Config, s: State, n: nat, req: Request, allocOk: bool)
    requires Inv(c, s) && CacheInv(c, s) && n < c.W
    requires (req.file in s.rows ==> s.rows[req.file].rank == n) && !BeingEvicted(s, n, req.file)
    requires req.iteration.Some? ==> req.iteration.value in s.nodes[n].iters && s.nodes[n].eviction.Idle?
    ensures CacheInv(c, CreateEntry(s, n, req, allocOk))
  {
    var s' := CreateEntry(s, n, req, allocOk);
    assert FileOk(c, s, req.file);
    forall m | 0 <= m < c.W ensures CacheOk(c, s', m) {
      assert CacheOk(c, s, m);
      forall f | f in s'.nodes[m].dict && InOldest(s', m, f) && s'.nodes[m].eviction.Evicting?
        ensures f in s'.nodes[m].eviction.todo
      {
        if f != req.file { assert InOldest(s, m, f); }
      }
      if s'.nodes[m].eviction.Evicting? {
        forall f | f in s'.nodes[m].eviction.todo ensures ListedOk(c, s', m, f) { assert ListedOk(c, s, m, f); }
      }
    }
  }

  lemma CacheByCreate(c: Config, s: State, n: nat, req: Request, allocOk: bool)
    requires Inv(c, s) && CacheInv(c, s) && CanCreate(c, s, n, req)
    requires (req.file in s.rows ==> s.rows[req.file].rank == n) && !BeingEvicted(s, n, req.file)
    requires Inv(c, PushIteration(s, n, req.iteration))
    ensures CacheInv(c, DoCreate(c, s, n, req, allocOk))
  {
    var s1 := PushIteration(s, n, req.iteration);
    forall m | 0 <= m < c.W ensures CacheOk(c, s1, m) {
      assert CacheOk(c, s, m);
      if s1.nodes[m].eviction.Evicting? {
        assert forall f :: InOldest(s1, m, f) ==> InOldest(s, m, f);
        forall f | f in s1.nodes[m].eviction.todo ensures ListedOk(c, s1, m, f) { assert ListedOk(c, s, m, f); }
      }
    }
    CacheByCreateEntry(c, s1, n, req, allocOk);
  }

  lemma CacheByEviction(c: Config, s: State, n: nat, ev: Eviction)
    requires CacheInv(c, s) && n < c.W
    requires ev.Evicting? ==> EvictionOk(c, SetEviction(s, n, ev), n)
    ensures CacheInv(c, SetEviction(s, n, ev))
  {
    var s' := SetEviction(s, n, ev);
    forall m | 0 <= m < c.W ensures CacheOk(c, s', m) {
      assert CacheOk(c, s, m);
      assert m != n ==> forall f :: InOldest(s', m, f) ==> InOldest(s, m, f);
      if m != n && s'.nodes[m].eviction.Evicting? {
        forall f | f in s'.nodes[m].eviction.todo ensures ListedOk(c, s', m, f) { assert ListedOk(c, s, m, f); }
      }
    }
  }

  lemma CacheByBeginEvict(c: Config, s: State, n: nat, req: Request, todo: seq<File>)
    requires CacheInv(c, s) && CanBeginEvict(c, s, n, req, todo)
    requires forall f :: f in todo ==> s.rows[f].state != PENDING
    ensures CacheInv(c, DoBeginEvict(c, s, n, req, todo))
  {
    var s' := DoBeginEvict(c, s, n, req, todo);
    forall f | f in todo ensures ListedOk(c, s', n, f) { assert InOldest(s, n, f); }
    forall f | f in s'.nodes[n].dict && InOldest(s', n, f) ensures f in todo { assert InOldest(s, n, f); }
    CacheByEviction(c, s, n, s'.nodes[n].eviction);
  }

  /** The eviction stays at its file, having marked it or read it again. */
  lemma CacheByProgress(c: Config, s: State, n: nat, ev: Eviction)
    requires CacheInv(c, s) && EvictsAt(c, s, n) && ev.Evicting?
    requires var was := s.nodes[n].eviction;
             && ev.todo == was.todo && ev.req == was.req
             && forall f :: f in ev.todo ==>
                  f in s.rows && f in ev.seen
                  && (ev.seen[f] == s.rows[f].state || (f in was.seen && ev.seen[f] == was.seen[f]))
    ensures CacheInv(c, SetEviction(s, n, ev))
  {
    var s' := SetEviction(s, n, ev);
    assert CacheOk(c, s, n);
    forall f | f in ev.todo ensures ListedOk(c, s', n, f) { assert ListedOk(c, s, n, f); }
    assert forall f :: InOldest(s', n, f) ==> InOldest(s, n, f);
    CacheByEviction(c, s, n, ev);
  }

  lemma CacheByReread(c: Config, s: State, n: nat)
    requires CacheInv(c, s) && CanReread(c, s, n)
    ensures CacheInv(c, DoReread(c, s, n))
  {
    assert CacheOk(c, s, n);
    assert forall f :: f in s.nodes[n].eviction.todo ==> ListedOk(c, s, n, f);
    CacheByProgress(c, s, n, DoReread(c, s, n).nodes[n].eviction);
  }

  /** What the eviction marks is neither PENDING nor still to be waited for, although it may have read
      the row long ago. */
  lemma CacheByMarkEvict(c: Config, s: State, n: nat, id: nat)
    requires CacheInv(c, s) && CanMarkEvict(c, s, n, id)
    ensures CacheInv(c, DoMarkEvict(c, s, n, id))
    ensures var r := s.rows[s.nodes[n].eviction.todo[0]];
            r.rank == n && r.state != PENDING && !WaitsFor(c, r.state)
  {
    var ev := s.nodes[n].eviction;
    assert CacheOk(c, s, n);
    assert ev.todo[0] in ev.todo && ListedOk(c, s, n, ev.todo[0]);
    assert forall f :: f in ev.todo ==> ListedOk(c, s, n, f);
    CacheByProgress(c, s, n, ev.(marked := true));
    FrameCache(c, SetEviction(s, n, ev.(marked := true)), DoMarkEvict(c, s, n, id));
  }

  lemma CacheByEvictNext(c: Config, s: State, n: nat)
    requires CacheInv(c, s) && CanEvictNext(c, s, n)
    ensures CacheInv(c, DoEvictNext(c, s, n))
  {
    var ev := s.nodes[n].eviction;
    assert CacheOk(c, s, n);
    var ev' := ev.(todo := ev.todo[1..], marked := false);
    var s' := SetEviction(s, n, ev');
    forall f | f in ev'.todo ensures ListedOk(c, s', n, f) { assert f in ev.todo && ListedOk(c, s, n, f); }
    forall f | f in s'.nodes[n].dict && InOldest(s', n, f) ensures f in ev'.todo {
      assert InOldest(s, n, f) && f in ev.todo && f != ev.todo[0];
    }
    CacheByEviction(c, s, n, ev');
  }

  /** Dropping the oldest iteration is sound: every file of it has left the cache. */
  lemma CacheByFinishEvict(c: Config, s: State, n: nat, allocOk: bool)
    requires Inv(c, s) && CacheInv(c, s) && CanFinishEvict(c, s, n)
    requires MaySave(s, n, s.nodes[n].eviction.req)
    requires var req := s.nodes[n].eviction.req;
             Inv(c, SetNode(s, n, s.nodes[n].(eviction := Idle,
                                             iters := s.nodes[n].iters[1..] + [req.iteration.value])))
    ensures CacheInv(c, DoFinishEvict(c, s, n, allocOk))
  {
    var was, req := s.nodes[n].iters, s.nodes[n].eviction.req;
    var iters := was[1..] + [req.iteration.value];
    var s1 := SetNode(s, n, s.nodes[n].(eviction := Idle, iters := iters));
    forall m | 0 <= m < c.W ensures CacheOk(c, s1, m) {
      assert CacheOk(c, s, m);
      if m == n {
        forall f | f in s1.nodes[n].dict && f in s1.rows && s1.rows[f].iteration.Some?
          ensures s1.rows[f].iteration.value in iters
        {
          assert FileOk(c, s, f);
          var i := s.rows[f].iteration.value;
          assert i in was;
          if i == was[0] { assert InOldest(s, n, f); }
        }
      } else {
        assert forall f :: InOldest(s1, m, f) ==> InOldest(s, m, f);
        if s1.nodes[m].eviction.Evicting? {
          forall f | f in s1.nodes[m].eviction.todo ensures ListedOk(c, s1, m, f) { assert ListedOk(c, s, m, f); }
        }
      }
    }
    CacheByCreateEntry(c, s1, n, req, allocOk);
  }
}
