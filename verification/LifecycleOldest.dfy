/** Disciplined clients can bring any file of a node to the front of its list and evict it. */
module LifecycleOldest {
  import opened Lifecycle
  import opened Options
  import opened LifecycleInvariant
  import opened LifecycleFrame
  import opened LifecycleCache
  import opened LifecycleRuns
  import opened LifecycleClearing

  // ---------------------------------------------------------------- what is not in use

  lemma {:induction false} Longer(names: set<File>) returns (b: nat)
    ensures forall x :: x in names ==> |x| < b
    decreases |names|
  {
    if names == {} {
      b := 0;
    } else {
      var x :| x in names;
      var rest := Longer(names - {x});
      b := if |x| < rest then rest else |x| + 1;
      forall y | y in names ensures |y| < b { assert y == x || y in names - {x}; }
    }
  }

  /** Nobody has heard of this file. */
  ghost predicate NewName(s: State, d: File) {
    d !in s.rows && forall i :: i in s.tasks ==> s.tasks[i].key != d
  }

  lemma SomeNewName(s: State, f: File) returns (d: File)
    ensures NewName(s, d) && d != f
  {
    var keys := set i | i in s.tasks :: s.tasks[i].key;
    var names := s.rows.Keys + keys + {f};
    var b := Longer(names);
    d := seq(b, _ => 'd');
    assert d !in names;
    forall i | i in s.tasks ensures s.tasks[i].key != d { assert s.tasks[i].key in keys; }
  }

  /** No row and no list of node n has this iteration. */
  ghost predicate NewIteration(s: State, n: nat, m: nat)
    requires n < |s.nodes|
  {
    m !in s.nodes[n].iters && forall g :: g in s.rows ==> s.rows[g].iteration != Some(m)
  }

  lemma SomeNewIteration(s: State, n: nat) returns (m: nat)
    requires n < |s.nodes|
    ensures NewIteration(s, n, m)
  {
    var listed := set x: nat | x in s.nodes[n].iters;
    var used := set g | g in s.rows && s.rows[g].iteration.Some? :: s.rows[g].iteration.value;
    m := Above(listed + used);
    assert m !in listed && m !in used;
    forall g | g in s.rows ensures s.rows[g].iteration != Some(m) {
      if s.rows[g].iteration.Some? { assert s.rows[g].iteration.value in used; }
    }
  }

  // ---------------------------------------------------------------- the other files leave the list

  /** The other files of node n whose iteration is on its list. */
  function Crowd(s: State, n: nat, f: File): set<File>
    requires n < |s.nodes|
  {
    set g | g in s.rows && g != f && s.rows[g].rank == n && s.rows[g].iteration.Some?
            && s.rows[g].iteration.value in s.nodes[n].iters
  }

  lemma {:induction false} MoveCrowd(c: Config, s0: State, s: State, n: nat, f: File) returns (s': State)
    requires Leads(RULE, c, s0, s) && n < |s.nodes| && s.nodes[n].eviction.Idle?
    requires forall g :: g in Crowd(s, n, f) ==> Drivable(c, s, n, g)
    ensures Leads(RULE, c, s0, s') && SameFile(s, s', f) && SameBooks(s, s') && Crowd(s', n, f) == {}
    decreases |Crowd(s, n, f)|
  {
    hide Leads, Drivable;
    if Crowd(s, n, f) == {} {
      s' := s;
    } else {
      var g :| g in Crowd(s, n, f);
      var s1 := MoveAway(c, s0, s, n, g);
      CrowdShrinks(s, s1, n, f, g);
      forall h | h in Crowd(s1, n, f) ensures Drivable(c, s1, n, h) { DrivableFrame(c, s, s1, n, h); }
      Smaller(Crowd(s1, n, f), Crowd(s, n, f));
      s' := MoveCrowd(c, s0, s1, n, f);
      SameChain(s, s1, s', f);
    }
  }

  lemma CrowdShrinks(s: State, s': State, n: nat, f: File, g: File)
    requires n < |s.nodes| && g in Crowd(s, n, f) && Touches(s, s', g) && g in s'.rows && s'.rows[g].iteration == None
    ensures Crowd(s', n, f) == Crowd(s, n, f) - {g}
    ensures forall h :: h in Crowd(s', n, f) ==> SameFile(s, s', h)
  {
    forall h | h != g ensures h in Crowd(s', n, f) <==> h in Crowd(s, n, f) { assert SameFile(s, s', h); }
  }

  // ---------------------------------------------------------------- a list without a crowd

  /** Node n is not evicting, and has no file but `f` on its list. */
  ghost predicate Quiet(c: Config, s: State, n: nat, f: File) {
    && |s.nodes| == c.W >= 2 && n < c.W && s.nodes[n].eviction.Idle?
    && NoDuplicates(s.nodes[n].iters) && Crowd(s, n, f) == {}
  }

  /** The list has been extended by one new iteration. */
  lemma {:induction false} Fill(c: Config, s0: State, s: State, n: nat, f: File) returns (s': State)
    requires Leads(RULE, c, s0, s) && Quiet(c, s, n, f)
    ensures Leads(RULE, c, s0, s') && Quiet(c, s', n, f) && SameFile(s, s', f)
    ensures |s'.nodes[n].iters| >= c.cap && s.nodes[n].iters <= s'.nodes[n].iters
    decreases c.cap - |s.nodes[n].iters|
  {
    hide Leads;
    if |s.nodes[n].iters| >= c.cap {
      s' := s;
    } else {
      var m := SomeNewIteration(s, n);
      var d := SomeNewName(s, f);
      var req := Request(d, Some(m), 0);
      StepCreate(RULE, c, s0, s, n, req, false);
      var s1 := DoCreate(c, s, n, req, false);
      OthersByBookkeeping(s, n, s1.nodes[n]);
      Extends(c, s, s1, n, f, m);
      hide Quiet;
      s' := Fill(c, s0, s1, n, f);
      SameChain(s, s1, s', f);
    }
  }

  lemma Extends(c: Config, s: State, s': State, n: nat, f: File, m: nat)
    requires Quiet(c, s, n, f) && NewIteration(s, n, m)
    requires s' == SetNode(s, n, s.nodes[n].(iters := s.nodes[n].iters + [m]))
    ensures Quiet(c, s', n, f)
  {
    forall g ensures g !in Crowd(s', n, f) {
      assert g !in Crowd(s, n, f);
    }
  }

  // ---------------------------------------------------------------- one file is evicted

  /** `g` alone has the oldest iteration of node n, and its eviction need not wait. */
  ghost predicate Ripe(c: Config, s: State, n: nat, g: File) {
    && |s.nodes| == c.W >= 2 && n < c.W && s.nodes[n].eviction.Idle?
    && |s.nodes[n].iters| >= c.cap && (forall h :: InOldest(s, n, h) <==> h == g)
    && g in s.rows && s.rows[g].state != PENDING && !WaitsFor(c, s.rows[g].state)
  }

  /** Node n has freed `g` on behalf of `req`. */
  ghost predicate Evicted(c: Config, s: State, s': State, n: nat, g: File, id: nat, req: Request) {
    && n < |s.nodes| == |s'.nodes| == c.W && Only(s, s', g) && g in s.rows
    && s'.rows == s.rows[g := s.rows[g].(state := OBSOLESCENT)] && g !in s'.nodes[n].dict
    && s'.nodes[n].iters == s.nodes[n].iters
    && s'.nodes[n].eviction.Evicting? && s'.nodes[n].eviction.marked
    && s'.nodes[n].eviction.todo == [g] && s'.nodes[n].eviction.req == req
    && (forall k :: k in s.tasks && k != id ==> k in s'.tasks && s'.tasks[k] == s.tasks[k])
    && (forall k :: k in s'.tasks ==> s'.tasks[k].key == g || (k in s.tasks && s'.tasks[k] == s.tasks[k]))
  }

  lemma Evict(c: Config, s0: State, s: State, n: nat, g: File, id: nat, req: Request) returns (s': State)
    requires Leads(RULE, c, s0, s) && Ripe(c, s, n, g) && req.iteration.Some?
    requires req.iteration.value !in s.nodes[n].iters
    requires AtOwner(c, s, id, g) && !s.tasks[id].stage.Running()
    ensures Leads(RULE, c, s0, s') && Evicted(c, s, s', n, g, id, req)
  {
    hide Leads, Ripe, Evicted;
    var s1, a := Mark(c, s0, s, n, g, req);
    RipeRank(c, s, n, g);
    var b := Unused(s1.tasks);
    s' := Free(RULE, c, s0, s1, id, g, b);
    RipeFreed(c, s, s', n, g, id, req, a, b);
  }

  lemma RipeRank(c: Config, s: State, n: nat, g: File)
    requires Ripe(c, s, n, g)
    ensures n < |s.nodes| == c.W && c.W >= 2 && g in s.rows && s.rows[g].rank == n
  {
    assert InOldest(s, n, g);
  }

  lemma Mark(c: Config, s0: State, s: State, n: nat, g: File, req: Request) returns (s': State, a: nat)
    requires Leads(RULE, c, s0, s) && Ripe(c, s, n, g) && req.iteration.Some?
    requires req.iteration.value !in s.nodes[n].iters
    ensures a !in s.tasks && s' == Marked(s, n, g, req, a) && Leads(RULE, c, s0, s')
  {
    hide Leads, CanBeginEvict, DoBeginEvict, StatesOf, InOldest, DoMarkEvict, CanMarkEvict;
    RipeBegins(c, s, n, g, req);
    StepBeginEvict(RULE, c, s0, s, n, req, [g]);
    a := Unused(s.tasks);
    RipeMarks(c, s, n, g, req, a);
    StepMarkEvict(RULE, c, s0, SetEviction(s, n, Evicting([g], map[g := s.rows[g].state], false, req)), n, a);
    s' := Marked(s, n, g, req, a);
  }

  lemma RipeBegins(c: Config, s: State, n: nat, g: File, req: Request)
    requires Ripe(c, s, n, g) && req.iteration.Some? && req.iteration.value !in s.nodes[n].iters
    ensures CanBeginEvict(c, s, n, req, [g])
    ensures DoBeginEvict(c, s, n, req, [g]) == SetEviction(s, n, Evicting([g], map[g := s.rows[g].state], false, req))
  {
    assert InOldest(s, n, g);
    assert StatesOf(s, [g]) == map[g := s.rows[g].state];
  }

  lemma RipeMarks(c: Config, s: State, n: nat, g: File, req: Request, a: nat)
    requires Ripe(c, s, n, g) && g in s.rows && a !in s.tasks
    ensures var s1 := SetEviction(s, n, Evicting([g], map[g := s.rows[g].state], false, req));
            CanMarkEvict(c, s1, n, a) && DoMarkEvict(c, s1, n, a) == Marked(s, n, g, req, a)
  {
  }

  function Marked(s: State, n: nat, g: File, req: Request, a: nat): State
    requires n < |s.nodes| && g in s.rows
  {
    var ev := Evicting([g], map[g := s.rows[g].state], true, req);
    s.(nodes := s.nodes[n := s.nodes[n].(eviction := ev)],
       rows := s.rows[g := s.rows[g].(state := OBSOLESCENT)],
       tasks := s.tasks[a := Task(n, g, Posting)])
  }

  lemma RipeFreed(c: Config, s: State, s': State, n: nat, g: File, id: nat, req: Request, a: nat, b: nat)
    requires Ripe(c, s, n, g) && a !in s.tasks && b !in s.tasks && a != b
    requires id in s.tasks && s.tasks[id].key == g && s' == Freed(c, s, n, g, id, req, a, b)
    ensures Evicted(c, s, s', n, g, id, req)
  {
    OnlyFreed(c, s, n, g, id, req, a, b);
    hide Only;
  }

  /** Key a has been posted by the marking, key b for the next node, and key id is done. */
  function Freed(c: Config, s: State, n: nat, g: File, id: nat, req: Request, a: nat, b: nat): State
    requires n < |s.nodes| && g in s.rows && c.W > 0
  {
    var m := Marked(s, n, g, req, a);
    SetNode(m, n, m.nodes[n].(dict := m.nodes[n].dict - {g})).(
      tasks := m.tasks[b := Task(Next(c, n), g, Posting)] - {id})
  }

  lemma OnlyFreed(c: Config, s: State, n: nat, g: File, id: nat, req: Request, a: nat, b: nat)
    requires n < |s.nodes| && g in s.rows && c.W > 0 && a !in s.tasks && b !in s.tasks && a != b
    requires id in s.tasks && s.tasks[id].key == g
    ensures Only(s, Freed(c, s, n, g, id, req, a, b), g)
  {
  }

  // ---------------------------------------------------------------- the oldest iteration goes

  // ---------------------------------------------------------------- the oldest iteration goes

  /** `d` is a file of the oldest iteration of node n with one key, which is at rest. */
  ghost predicate Single(c: Config, s: State, n: nat, d: File, id: nat) {
    && Resting(c, s, n, d) && d in s.nodes[n].dict && InOldest(s, n, d)
    && (forall i :: i in s.tasks && s.tasks[i].key == d <==> i == id) && s.tasks[id].node == n
  }

  /** A new file joins the oldest iteration. */
  lemma Decoy(c: Config, s0: State, s: State, n: nat, d: File) returns (s': State, id: nat)
    requires Leads(RULE, c, s0, s) && |s.nodes| == c.W >= 2 && n < c.W && s.nodes[n].eviction.Idle?
    requires NewName(s, d) && |s.nodes[n].iters| > 0
    ensures Leads(RULE, c, s0, s') && Touches(s, s', d) && Single(c, s', n, d, id)
    ensures s'.rows[d].state == CACHED
  {
    hide Leads, Touches;
    var req := Request(d, Some(s.nodes[n].iters[0]), 1);
    var s1 := JoinOldest(c, s0, s, n, req);
    id := Unused(s.tasks);
    StepComplete(RULE, c, s0, s1, n, d, id);
    s' := DoComplete(c, s1, n, d, id);
    CompleteTouches(c, s1, n, d, id);
    TouchTwice(s, s1, s', d);
  }

  lemma JoinOldest(c: Config, s0: State, s: State, n: nat, req: Request) returns (s': State)
    requires Leads(RULE, c, s0, s) && |s.nodes| == c.W >= 2 && n < c.W && s.nodes[n].eviction.Idle?
    requires NewName(s, req.file) && |s.nodes[n].iters| > 0 && req.iteration == Some(s.nodes[n].iters[0])
    ensures s' == CreateEntry(s, n, req, true) && Leads(RULE, c, s0, s') && Touches(s, s', req.file)
  {
    hide Leads;
    StepCreate(RULE, c, s0, s, n, req, true);
    s' := DoCreate(c, s, n, req, true);
    OthersByCreateEntry(s, n, req, true);
  }

  lemma CompleteTouches(c: Config, s: State, n: nat, f: File, id: nat)
    requires CanComplete(c, s, n, f, id)
    ensures Touches(s, DoComplete(c, s, n, f, id), f)
  {
    OthersByComplete(c, s, n, f, id);
  }

  /** Its file is backed up, and written to disk where files are. */
  lemma Ripen(c: Config, s0: State, s: State, n: nat, d: File, id: nat) returns (s': State)
    requires Leads(RULE, c, s0, s) && Resting(c, s, n, d) && d in s.nodes[n].dict && id in Waiting(s, n, d)
    requires s.rows[d].state == CACHED
    ensures Leads(RULE, c, s0, s') && Touches(s, s', d) && Ripened(c, s, s', n, d, id)
  {
    hide Leads, Touches;
    s' := BackUpRound(RULE, c, s0, s, id, d);
    BackedRests(c, s, s', n, d, id);
    if c.persist {
      var s1 := s';
      s' := PersistRound(RULE, c, s0, s1, id, d);
      PersistedTouches(s1, s', n, d, id);
      TouchTwice(s, s1, s', d);
    }
  }

  /** Only the row's state has changed of what an eviction looks at. */
  ghost predicate Ripened(c: Config, s: State, s': State, n: nat, d: File, id: nat) {
    && d in s.rows && |s'.nodes| == c.W && n < c.W && d in s'.nodes[n].dict && id in s.tasks
    && s'.rows == s.rows[d := s.rows[d].(state := if c.persist then PERSISTENT else BACKED_UP)]
    && s'.tasks == s.tasks[id := Task(n, d, Posting)]
  }

  lemma PersistedTouches(s: State, s': State, n: nat, d: File, id: nat)
    requires d in s.rows && id in s.tasks && s.tasks[id].key == d && d in s'.disk
    requires s' == SetStage(SetState(s.(disk := s.disk[d := s'.disk[d]]), d, PERSISTENT), id, Posting)
    ensures Touches(s, s', d)
  {
  }

  lemma DecoyRipe(c: Config, s: State, s1: State, s2: State, n: nat, f: File, d: File, id: nat)
    requires Quiet(c, s, n, f) && |s.nodes[n].iters| >= c.cap && !InOldest(s, n, f)
    requires Touches(s, s1, d) && Single(c, s1, n, d, id) && Touches(s1, s2, d) && Ripened(c, s1, s2, n, d, id)
    ensures Ripe(c, s2, n, d) && AtOwner(c, s2, id, d) && !s2.tasks[id].stage.Running()
    ensures s2.nodes[n].iters == s.nodes[n].iters
  {
    forall h ensures InOldest(s2, n, h) <==> h == d {
      if h != d {
        assert SameFile(s, s1, h) && SameFile(s1, s2, h);
        assert h !in Crowd(s, n, f);
      }
    }
  }

  /** The eviction ends, and the list goes on without its oldest iteration. */
  lemma Finish(c: Config, s0: State, s: State, s1: State, n: nat, d: File, id: nat, req: Request) returns (s': State)
    requires Leads(RULE, c, s0, s1) && n < |s.nodes| && Evicted(c, s, s1, n, d, id, req)
    requires req.iteration.Some? && req.size == 0 && NewName(s, req.file) && d in s.rows && |s.nodes[n].iters| > 0
    ensures Leads(RULE, c, s0, s') && |s1.nodes| == |s.nodes|
    ensures s' == SetNode(s1, n, s1.nodes[n].(eviction := Idle, iters := s.nodes[n].iters[1..] + [req.iteration.value]))
  {
    hide Leads, Only;
    StepEvictNext(RULE, c, s0, s1, n);
    var s2 := DoEvictNext(c, s1, n);
    assert s2.nodes[n].eviction.todo == [];
    forall i | i in s2.tasks ensures s2.tasks[i].key != req.file { assert i in s1.tasks; }
    StepFinishEvict(RULE, c, s0, s2, n, false);
    s' := DoFinishEvict(c, s2, n, false);
  }

  lemma Dropped(c: Config, s: State, s2: State, s3: State, s': State, n: nat, f: File, d: File, id: nat, req: Request)
    requires Quiet(c, s, n, f) && |s.nodes[n].iters| > 0 && d != f
    requires Touches(s, s2, d) && s2.nodes[n].iters == s.nodes[n].iters && InOldest(s2, n, d)
    requires Evicted(c, s2, s3, n, d, id, req) && req.iteration.Some? && NewIteration(s2, n, req.iteration.value)
    requires s' == SetNode(s3, n, s3.nodes[n].(eviction := Idle,
                                               iters := s.nodes[n].iters[1..] + [req.iteration.value]))
    ensures Quiet(c, s', n, f) && SameFile(s, s', f)
  {
    hide Only, SameFile;
    OthersByBookkeeping(s3, n, s'.nodes[n]);
    SameThrough(s, s2, s3, s', d, f);
    forall g ensures g !in Crowd(s', n, f) {
      assert s'.rows == s3.rows;
      if g != d {
        assert g !in Crowd(s, n, f);
        RowKept(s, s2, d, g);
      }
    }
  }

  lemma SameThrough(s: State, s2: State, s3: State, s': State, d: File, f: File)
    requires d != f && Touches(s, s2, d) && Only(s2, s3, d) && SameFile(s3, s', f)
    ensures SameFile(s, s', f)
  {
    hide SameFile;
    SameChain(s, s2, s3, f);
    SameChain(s, s3, s', f);
  }

  lemma RowKept(s: State, s2: State, d: File, g: File)
    requires d != g && Touches(s, s2, d)
    ensures SameIn(s.rows, s2.rows, g)
  {
    assert SameFile(s, s2, g);
  }

  /** With its list full, a node that has no file but `f` on it can drop its oldest iteration. */
  lemma DropOldest(c: Config, s0: State, s: State, n: nat, f: File) returns (s': State, m: nat)
    requires Leads(RULE, c, s0, s) && Quiet(c, s, n, f) && |s.nodes[n].iters| >= c.cap && |s.nodes[n].iters| > 0
    requires !InOldest(s, n, f)
    ensures Leads(RULE, c, s0, s') && Quiet(c, s', n, f) && SameFile(s, s', f)
    ensures s'.nodes[n].iters == s.nodes[n].iters[1..] + [m]
  {
    hide Leads, NewIteration, Touches, Quiet, Evicted, SameFile, Ripe;
    var d := SomeNewName(s, f);
    QuietNode(c, s, n, f);
    var s1, id := Decoy(c, s0, s, n, d);
    var s2 := Ripen(c, s0, s1, n, d, id);
    DecoyRipe(c, s, s1, s2, n, f, d, id);
    TouchTwice(s, s1, s2, d);
    m := SomeNewIteration(s2, n);
    var req := EmptyRequest(s2, d, m);
    var s3 := Evict(c, s0, s2, n, d, id, req);
    s' := Finish(c, s0, s2, s3, n, d, id, req);
    Dropped(c, s, s2, s3, s', n, f, d, id, req);
  }

  lemma EmptyRequest(s: State, d: File, m: nat) returns (req: Request)
    ensures req == Request(req.file, Some(m), 0) && NewName(s, req.file)
  {
    var e := SomeNewName(s, d);
    req := Request(e, Some(m), 0);
  }

  lemma QuietNode(c: Config, s: State, n: nat, f: File)
    requires Quiet(c, s, n, f)
    ensures |s.nodes| == c.W >= 2 && n < c.W && s.nodes[n].eviction.Idle?
  {
  }

  /** `f`, which stands at position p of the list, gets to its front. */
  lemma {:induction false} ToFront(c: Config, s0: State, s: State, n: nat, f: File, p: nat) returns (s': State)
    requires Leads(RULE, c, s0, s) && Quiet(c, s, n, f) && p < |s.nodes[n].iters| && |s.nodes[n].iters| >= c.cap
    requires f in s.rows && s.rows[f].rank == n && s.rows[f].iteration == Some(s.nodes[n].iters[p])
    ensures Leads(RULE, c, s0, s') && Quiet(c, s', n, f) && SameFile(s, s', f)
    ensures InOldest(s', n, f) && |s'.nodes[n].iters| >= c.cap
    decreases p
  {
    hide Leads;
    if p == 0 {
      s' := s;
    } else {
      var s1, m := DropOldest(c, s0, s, n, f);
      hide Quiet;
      s' := ToFront(c, s0, s1, n, f, p - 1);
      SameChain(s, s1, s', f);
    }
  }

  /** A file of node n whose iteration is on the list is alone in the oldest iteration of a full list. */
  ghost predicate Foremost(c: Config, s: State, n: nat, f: File) {
    Quiet(c, s, n, f) && InOldest(s, n, f) && |s.nodes[n].iters| >= c.cap
  }

  lemma Foreground(c: Config, s0: State, s: State, n: nat, f: File) returns (s': State)
    requires Leads(RULE, c, s0, s) && |s.nodes| == c.W >= 2 && n < c.W && s.nodes[n].eviction.Idle?
    requires NoDuplicates(s.nodes[n].iters) && f in s.rows && s.rows[f].rank == n
    requires s.rows[f].iteration.Some? && s.rows[f].iteration.value in s.nodes[n].iters
    requires forall g :: g in Crowd(s, n, f) ==> Drivable(c, s, n, g)
    ensures Leads(RULE, c, s0, s') && SameFile(s, s', f) && Foremost(c, s', n, f)
  {
    hide Leads, Drivable, Crowd;
    var s1 := MoveCrowd(c, s0, s, n, f);
    var s2 := Fill(c, s0, s1, n, f);
    SameChain(s, s1, s2, f);
    var p: nat :| p < |s.nodes[n].iters| && s.nodes[n].iters[p] == s.rows[f].iteration.value;
    s' := ToFront(c, s0, s2, n, f, p);
    SameChain(s, s2, s', f);
  }
}
