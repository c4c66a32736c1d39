/** `Coordinator::Reconcile` as sequential code over mutable state, proved to be one pass through the
    stages of the transition system. */
module CoordinatorServer {
  import opened Lifecycle
  import opened Options
  import opened Coordinator

  class Cluster {
    const c: Config
    var rows: map<File, Row>
    var nodes: seq<Node>
    var disk: map<File, Bytes>
    var tasks: map<nat, Task>
    var saved: map<File, Bytes> // history
    var diskFailed: set<File> // history
    var late: set<Late>
    var replaced: set<File> // history

    constructor (c: Config)
      ensures this.c == c && S() == InitState(c)
    {
      this.c := c;
      rows, disk, tasks := map[], map[], map[];
      nodes := seq(c.W, _ => Node(map[], map[], [], Idle));
      saved, diskFailed, late, replaced := map[], {}, {}, {};
    }

    function S(): State
      reads this
    {
      State(rows, nodes, disk, tasks, saved, diskFailed, late, replaced)
    }

    /** Write `size` bytes to disk, after truncating the file. */
    method WriteToDisk(key: File, data: Bytes, env: Env) returns (ok: bool)
      modifies this`disk
      ensures ok == env.copyOk
      ensures disk == if ok then old(disk)[key := data]
                      else if env.reached then old(disk)[key := if env.wrote then env.junk else []] else old(disk)
    {
      if !env.copyOk && !env.reached { return false; }
      disk := disk[key := []];
      if !env.copyOk {
        if env.wrote { disk := disk[key := env.junk]; }
        return false;
      }
      disk := disk[key := data];
      return true;
    }

    /** Copy `data` into the backup memory that the next node finds or allocates for the file; it then
        queues the key. */
    method BackUp(n: nat, key: File, size: nat, data: Bytes, env: Env) returns (ok: bool)
      requires n < |nodes| == c.W
      modifies this`nodes, this`tasks, this`late, this`replaced
      ensures ok == env.copyOk
      ensures S() == PeerAfter(c, old(S()), n, key, size, data, env)
      ensures ok ==>
                var x := (n + 1) % c.W;
                nodes == old(nodes)[x := old(nodes)[x].(backup := old(nodes)[x].backup[key := data])]
      ensures !ok && !(env.reached && env.wrote) ==> nodes == old(nodes)
    {
      if !env.copyOk && !env.reached { return false; }
      var x := (n + 1) % c.W;
      if key !in nodes[x].backup {
        if !env.copyOk && !env.wrote {
          if env.lingers { late := late + {Late(x, key, size)}; }
          if env.posted { tasks := tasks[env.peerId := Task(x, key, Posting)]; }
          return false;
        }
        nodes := nodes[x := nodes[x].(backup := nodes[x].backup[key := Zeros(size)])];
        tasks := Orphan(c, tasks, x, key);
      }
      if env.copyOk {
        nodes := nodes[x := nodes[x].(backup := nodes[x].backup[key := data])];
        assert nodes[x].backup == old(nodes)[x].backup[key := data];
        replaced := replaced - {key};
      } else if env.wrote {
        var was := nodes[x].backup[key];
        nodes := nodes[x := nodes[x].(backup := nodes[x].backup[key := Partly(was, data, env.arrived)])];
      }
      if env.posted { tasks := tasks[env.peerId := Task(x, key, Posting)]; }
      return env.copyOk;
    }

    /** Ask the next node to queue the key, so that it notices the eviction. */
    method NotifyPeer(n: nat, key: File, env: Env) returns (ok: bool)
      requires n < |nodes| == c.W
      modifies this`tasks
      ensures ok == env.copyOk
      ensures tasks == if ok || env.posted then old(tasks)[env.peerId := Task(Next(c, n), key, Posting)]
                       else old(tasks)
    {
      if env.copyOk || env.posted { tasks := tasks[env.peerId := Task((n + 1) % c.W, key, Posting)]; }
      return env.copyOk;
    }

    /** What this call did, as far as the state without the queue entry `id` goes. */
    ghost predicate Reached(s: State, id: nat)
      reads this
    {
      && rows == s.rows && nodes == s.nodes && disk == s.disk
      && saved == s.saved && diskFailed == s.diskFailed && late == s.late && replaced == s.replaced
      && tasks - {id} == s.tasks - {id}
    }

    /** The body of the reconcile handler; the answer is whether the key need not be queued again. */
    method Reconcile(id: nat, env: Env) returns (doNotRequeue: bool)
      requires CanFetch(c, S(), id) && EnvFits(S(), env)
      modifies this
      ensures Reached(AfterLoad(c, old(S()), id, env), id)
      ensures doNotRequeue <==> id !in AfterLoad(c, old(S()), id, env).tasks
      ensures id in tasks && tasks[id] == old(tasks[id])
    {
      var n, key := tasks[id].node, tasks[id].key;
      if !env.loadOk { return false; }
      if key !in rows { return true; }
      var metadata := rows[key];
      if metadata.rank != n && metadata.state != OBSOLESCENT { return true; }

      var found := if metadata.rank == n then key in nodes[n].dict else key in nodes[n].backup;
      if metadata.size == 0 || !found {
        if metadata.state == OBSOLESCENT { return true; }
        if metadata.state != BROKEN {
          if !env.markOk { return false; }
          rows := rows[key := metadata.(state := BROKEN)];
        }
        return true;
      }

      ghost var s2 := DoCheck(c, DoFetch(S(), id, true), id, env.markOk);
      assert s2.tasks[id].stage == Checked(metadata);
      doNotRequeue := Act(id, n, key, metadata, env, s2);
    }

    /** The switch over the row's state, with the row and the data at hand. */
    method Act(id: nat, n: nat, key: File, metadata: Row, env: Env, ghost s: State)
      returns (doNotRequeue: bool)
      requires TaskAt(c, s, id) && s.tasks[id] == Task(n, key, Checked(metadata)) && EnvFits(s, env)
      requires Reached(s, id) && id in tasks && tasks[id].stage.Queued? && EnvFits(S(), env)
      requires key in rows && rows[key] == metadata
      requires Holds(nodes[n], n, metadata, key) && (metadata.rank != n ==> metadata.state == OBSOLESCENT)
      modifies this
      ensures Reached(AfterChecked(c, s, id, env), id)
      ensures doNotRequeue <==> id !in AfterChecked(c, s, id, env).tasks
      ensures id in tasks && tasks[id] == old(tasks[id])
    {
      match metadata.state {
        case CACHED =>
          if c.W < 2 {
            doNotRequeue := ActCachedAlone(id, n, key, metadata, env, s);
          } else {
            doNotRequeue := ActCachedOnRing(id, n, key, metadata, env, s);
          }
        case BACKED_UP => doNotRequeue := ActBackedUp(id, n, key, metadata, env, s);
        case OBSOLESCENT => doNotRequeue := ActObsolescent(id, n, key, metadata, env, s);
        case _ => doNotRequeue := true;
      }
    }

    /** Alone, write to disk, or leave it at that when persistence is off. */
    method ActCachedAlone(id: nat, n: nat, key: File, metadata: Row, env: Env, ghost s: State)
      returns (doNotRequeue: bool)
      requires TaskAt(c, s, id) && s.tasks[id] == Task(n, key, Checked(metadata)) && EnvFits(s, env)
      requires Reached(s, id) && id in tasks && tasks[id].stage.Queued? && EnvFits(S(), env)
      requires key in rows && rows[key] == metadata
      requires Holds(nodes[n], n, metadata, key) && (metadata.rank != n ==> metadata.state == OBSOLESCENT)
      requires metadata.state == CACHED && c.W < 2
      modifies this
      ensures Reached(AfterChecked(c, s, id, env), id)
      ensures doNotRequeue <==> id !in AfterChecked(c, s, id, env).tasks
      ensures id in tasks && tasks[id] == old(tasks[id])
    {
      if !c.persist {
        Touch(key, env);
        return true;
      }
      AfterDiskCopy(c, s, id, env);
      hide AfterChecked;
      var data := Take(nodes[n].dict[key], metadata.size);
      var ok := WriteToDisk(key, data, env);
      if ok && env.updateOk { rows := rows[key := metadata.(state := PERSISTENT)]; }
      return false;
    }

    /** On a ring, back up to the next node; always queue the key again. */
    method ActCachedOnRing(id: nat, n: nat, key: File, metadata: Row, env: Env, ghost s: State)
      returns (doNotRequeue: bool)
      requires TaskAt(c, s, id) && s.tasks[id] == Task(n, key, Checked(metadata)) && EnvFits(s, env)
      requires Reached(s, id) && id in tasks && tasks[id].stage.Queued? && EnvFits(S(), env)
      requires key in rows && rows[key] == metadata
      requires Holds(nodes[n], n, metadata, key) && (metadata.rank != n ==> metadata.state == OBSOLESCENT)
      requires metadata.state == CACHED && c.W >= 2
      modifies this
      ensures Reached(AfterChecked(c, s, id, env), id)
      ensures doNotRequeue <==> id !in AfterChecked(c, s, id, env).tasks
      ensures id in tasks && tasks[id] == old(tasks[id])
    {
      hide AfterChecked, PeerAfter;
      var data := Take(nodes[n].dict[key], metadata.size);
      PeerCopyMatches(c, s, id, env);
      PeerAfterApart(c, S(), s, id, n, key, metadata.size, data, env);
      PeerAfterKeeps(c, S(), id, n, key, metadata.size, data, env);
      var ok := BackUp(n, key, metadata.size, data, env);
      if ok && env.updateOk { rows := rows[key := metadata.(state := BACKED_UP)]; }
      return false;
    }

    /** Write to disk, then move the row on; a failed write ends the matter. */
    method ActBackedUp(id: nat, n: nat, key: File, metadata: Row, env: Env, ghost s: State)
      returns (doNotRequeue: bool)
      requires TaskAt(c, s, id) && s.tasks[id] == Task(n, key, Checked(metadata)) && EnvFits(s, env)
      requires Reached(s, id) && id in tasks && tasks[id].stage.Queued? && EnvFits(S(), env)
      requires key in rows && rows[key] == metadata
      requires Holds(nodes[n], n, metadata, key) && (metadata.rank != n ==> metadata.state == OBSOLESCENT)
      requires metadata.state == BACKED_UP
      modifies this
      ensures Reached(AfterChecked(c, s, id, env), id)
      ensures doNotRequeue <==> id !in AfterChecked(c, s, id, env).tasks
      ensures id in tasks && tasks[id] == old(tasks[id])
    {
      if !c.persist {
        Touch(key, env);
        return true;
      }
      AfterDiskCopy(c, s, id, env);
      hide AfterChecked;
      var data := Take(nodes[n].dict[key], metadata.size);
      var ok := WriteToDisk(key, data, env);
      if !ok {
        diskFailed := diskFailed + {key};
        return true;
      }
      if env.updateOk { rows := rows[key := metadata.(state := PERSISTENT)]; }
      return false;
    }

    /** The owner tells the next node first; then the local copy is freed. */
    method ActObsolescent(id: nat, n: nat, key: File, metadata: Row, env: Env, ghost s: State)
      returns (doNotRequeue: bool)
      requires TaskAt(c, s, id) && s.tasks[id] == Task(n, key, Checked(metadata)) && EnvFits(s, env)
      requires Reached(s, id) && id in tasks && tasks[id].stage.Queued? && EnvFits(S(), env)
      requires key in rows && rows[key] == metadata
      requires Holds(nodes[n], n, metadata, key) && (metadata.rank != n ==> metadata.state == OBSOLESCENT)
      requires metadata.state == OBSOLESCENT
      modifies this
      ensures Reached(AfterChecked(c, s, id, env), id)
      ensures doNotRequeue <==> id !in AfterChecked(c, s, id, env).tasks
      ensures id in tasks && tasks[id] == old(tasks[id])
    {
      if c.W > 1 && metadata.rank == n {
        UpdateApart(tasks, id, env.peerId, Task(Next(c, n), key, Posting));
        UpdateApart(s.tasks, id, env.peerId, Task(Next(c, n), key, Posting));
        var ok := NotifyPeer(n, key, env);
        if !ok { return false; }
      }
      DeleteLocal(n, key, metadata);
      return true;
    }

    /** Persistence is off: leave an empty file in place, if there is none. */
    method Touch(key: File, env: Env)
      modifies this`disk
      ensures disk == if env.touch && key !in old(disk) then old(disk)[key := []] else old(disk)
    {
      if env.touch && key !in disk { disk := disk[key := []]; }
    }

    method DeleteLocal(n: nat, key: File, metadata: Row)
      requires n < |nodes|
      modifies this`nodes
      ensures nodes == old(nodes)[n := StorageDelete(old(nodes)[n], n, metadata, key)]
    {
      var node := nodes[n];
      if metadata.rank == n && key in node.dict {
        nodes := nodes[n := node.(dict := node.dict - {key})];
      } else {
        nodes := nodes[n := node.(backup := node.backup - {key})];
      }
    }

    /** One turn of `Operator::run`: fetch the key, reconcile, post it again unless it is done. */
    method RunOnce(id: nat, env: Env)
      requires CanFetch(c, S(), id) && EnvFits(S(), env)
      modifies this
      ensures S() == AfterLoad(c, old(S()), id, env)
    {
      CallEnds(c, S(), id, env);
      ghost var s' := AfterLoad(c, S(), id, env);
      var done := Reconcile(id, env);
      if done {
        tasks := tasks - {id};
        assert s'.tasks - {id} == s'.tasks;
      } else {
        tasks := tasks[id := tasks[id].(stage := Posting)];
        assert tasks == (tasks - {id})[id := s'.tasks[id]];
        assert s'.tasks == (s'.tasks - {id})[id := s'.tasks[id]];
      }
    }
  }

  lemma UpdateApart<V>(m: map<nat, V>, id: nat, k: nat, v: V)
    requires k != id
    ensures m[k := v] - {id} == (m - {id})[k := v]
  {
  }

  /** What a call to back up leaves behind at both ends. */
  function PeerAfter(c: Config, s: State, n: nat, f: File, size: nat, data: Bytes, env: Env): State
    requires n < |s.nodes| == c.W
  {
    var x := Next(c, n);
    if !env.copyOk && !env.reached then s
    else if f !in s.nodes[x].backup && !env.copyOk && !env.wrote then
      PostIf(if env.lingers then s.(late := s.late + {Late(x, f, size)}) else s, PostOf(env), x, f)
    else PostIf(Written(x, f, data, env, if f in s.nodes[x].backup then s else PutFresh(c, s, x, f, size)),
                PostOf(env), x, f)
  }

  /** The bytes that arrive in memory that is there, from state `s1` on. */
  function Written(x: nat, f: File, data: Bytes, env: Env, s1: State): State
    requires x < |s1.nodes| && f in s1.nodes[x].backup
  {
    if env.copyOk then PutBackup(s1, x, f, data).(replaced := s1.replaced - {f})
    else if env.wrote then PutBackup(s1, x, f, Partly(s1.nodes[x].backup[f], data, env.arrived))
    else s1
  }

  /** The same, but for the task itself. */
  predicate Alike(s: State, s': State, id: nat) {
    && s.nodes == s'.nodes && s.late == s'.late && s.replaced == s'.replaced && s.disk == s'.disk
    && s.saved == s'.saved && s.diskFailed == s'.diskFailed && s.tasks - {id} == s'.tasks - {id}
  }

  lemma OrphanApart(c: Config, tasks: map<nat, Task>, id: nat, x: nat, f: File)
    requires c.W > 0
    ensures Orphan(c, tasks, x, f) - {id} == Orphan(c, tasks - {id}, x, f)
  {
  }

  lemma PostApart(s: State, s': State, id: nat, post: Option<nat>, n: nat, f: File)
    requires Alike(s, s', id) && post != Some(id)
    ensures Alike(PostIf(s, post, n, f), PostIf(s', post, n, f), id)
  {
    if post.Some? {
      UpdateApart(s.tasks, id, post.value, Task(n, f, Posting));
      UpdateApart(s'.tasks, id, post.value, Task(n, f, Posting));
    }
  }

  lemma FreshApart(c: Config, s: State, s': State, id: nat, x: nat, f: File, size: nat)
    requires x < |s.nodes| == c.W && Alike(s, s', id)
    ensures Alike(PutFresh(c, s, x, f, size), PutFresh(c, s', x, f, size), id)
  {
    OrphanApart(c, s.tasks, id, x, f);
    OrphanApart(c, s'.tasks, id, x, f);
  }

  lemma PeerAfterApart(c: Config, s: State, s': State, id: nat, n: nat, f: File, size: nat, data: Bytes, env: Env)
    requires n < |s.nodes| == c.W && Alike(s, s', id) && env.peerId != id
    ensures Alike(PeerAfter(c, s, n, f, size, data, env), PeerAfter(c, s', n, f, size, data, env), id)
  {
    hide PostIf, PutFresh, Written;
    var x := Next(c, n);
    FreshIsThere(c, s, x, f, size);
    FreshIsThere(c, s', x, f, size);
    if f !in s.nodes[x].backup && !env.copyOk && !env.wrote {
      PostApart(s, s', id, PostOf(env), x, f);
      var l := Late(x, f, size);
      PostApart(s.(late := s.late + {l}), s'.(late := s'.late + {l}), id, PostOf(env), x, f);
    } else if env.copyOk || env.reached {
      var t := if f in s.nodes[x].backup then s else PutFresh(c, s, x, f, size);
      var t' := if f in s.nodes[x].backup then s' else PutFresh(c, s', x, f, size);
      FreshApart(c, s, s', id, x, f, size);
      WrittenApart(x, f, data, env, t, t', id);
      PostApart(Written(x, f, data, env, t), Written(x, f, data, env, t'), id, PostOf(env), x, f);
    }
  }

  lemma WrittenApart(x: nat, f: File, data: Bytes, env: Env, t: State, t': State, id: nat)
    requires x < |t.nodes| && f in t.nodes[x].backup && Alike(t, t', id)
    ensures Alike(Written(x, f, data, env, t), Written(x, f, data, env, t'), id)
  {
  }

  lemma FreshIsThere(c: Config, s: State, x: nat, f: File, size: nat)
    requires x < |s.nodes| == c.W
    ensures var s' := PutFresh(c, s, x, f, size); |s'.nodes| == c.W && f in s'.nodes[x].backup
  {
  }

  /** Rows are left alone, and so is a task that is not copying. */
  lemma PeerAfterKeeps(c: Config, s: State, id: nat, n: nat, f: File, size: nat, data: Bytes, env: Env)
    requires n < |s.nodes| == c.W && env.peerId != id && id in s.tasks && !s.tasks[id].stage.Copying?
    ensures var s' := PeerAfter(c, s, n, f, size, data, env);
            s'.rows == s.rows && id in s'.tasks && s'.tasks[id] == s.tasks[id]
  {
  }

  /** The stages of the transition system leave behind what the call does. */
  lemma PeerCopyMatches(c: Config, s: State, id: nat, env: Env)
    requires CanBegin(c, s, id) && EnvFits(s, env) && OnlyEvictsForeign(s, id)
    requires CopiesToPeer(c, s.tasks[id].stage.snap) && s.tasks[id].key in s.nodes[s.tasks[id].node].dict
    requires s.tasks[id].key in s.rows
    ensures var t, s' := s.tasks[id], AfterChecked(c, s, id, env);
            var data := Take(s.nodes[t.node].dict[t.key], t.stage.snap.size);
            && Alike(s', PeerAfter(c, s, t.node, t.key, t.stage.snap.size, data, env), id) && id in s'.tasks
            && s'.rows == if env.copyOk && env.updateOk then SetState(s, t.key, BACKED_UP).rows else s.rows
  {
    hide AfterBegin;
    var t := s.tasks[id];
    if env.copyOk || env.reached {
      hide PeerAfter;
      var s1 := DoBegin(c, s, id);
      BeginMatches(c, s1, id, env);
      var data := Take(s.nodes[t.node].dict[t.key], t.stage.snap.size);
      PeerAfterApart(c, s1, s, id, t.node, t.key, t.stage.snap.size, data, env);
    } else {
      StageApart(s, id, Posting);
    }
  }

  lemma BeginMatches(c: Config, s: State, id: nat, env: Env)
    requires IsSending(c, s, id) && EnvFits(s, env) && CopiesToPeer(c, s.tasks[id].stage.snap)
    requires s.tasks[id].key in s.rows && (env.copyOk || env.reached)
    requires s.tasks[id].stage.place.Live? <==> s.tasks[id].key in s.nodes[Next(c, s.tasks[id].node)].backup
    ensures var t, s' := s.tasks[id], AfterBegin(c, s, id, env);
            var data := Take(s.nodes[t.node].dict[t.key], t.stage.snap.size);
            && Alike(s', PeerAfter(c, s, t.node, t.key, t.stage.snap.size, data, env), id) && id in s'.tasks
            && s'.rows == if env.copyOk && env.updateOk then SetState(s, t.key, BACKED_UP).rows else s.rows
  {
    var t := s.tasks[id];
    var x, data := Next(c, t.node), Take(s.nodes[t.node].dict[t.key], t.stage.snap.size);
    if t.stage.place.Missed? && (env.copyOk || env.wrote) {
      InstallMatches(c, s, id);
      var s1 := DoInstall(c, s, id);
      MemoryMatches(c, s1, id, env);
      var s2 := PutFresh(c, s, x, t.key, t.stage.snap.size);
      PostApart(Written(x, t.key, data, env, s1), Written(x, t.key, data, env, s2), id, PostOf(env), x, t.key);
    } else if t.stage.place.Live? {
      MemoryMatches(c, s, id, env);
    } else {
      GivenUpMatches(c, s, id, env);
    }
  }

  lemma InstallMatches(c: Config, s: State, id: nat)
    requires IsSending(c, s, id) && CanInstall(c, s, id)
    ensures var t, s' := s.tasks[id], DoInstall(c, s, id);
            && IsSending(c, s', id) && s'.tasks[id] == t.(stage := Copying(t.stage.snap, Live))
            && s'.nodes[t.node].dict == s.nodes[t.node].dict && s'.rows == s.rows
            && Alike(s', PutFresh(c, s, Next(c, t.node), t.key, t.stage.snap.size), id)
            && forall i :: i in s'.tasks <==> i in s.tasks
  {
  }

  lemma MemoryMatches(c: Config, s: State, id: nat, env: Env)
    requires IsSending(c, s, id) && EnvFits(s, env) && CopiesToPeer(c, s.tasks[id].stage.snap)
    requires s.tasks[id].stage.place.Live? && s.tasks[id].key in s.rows
    ensures var t, s' := s.tasks[id], AfterMemory(c, s, id, env);
            var x := Next(c, t.node);
            var data := Take(s.nodes[t.node].dict[t.key], t.stage.snap.size);
            && Alike(s', PostIf(Written(x, t.key, data, env, s), PostOf(env), x, t.key), id) && id in s'.tasks
            && s'.rows == if env.copyOk && env.updateOk then SetState(s, t.key, BACKED_UP).rows else s.rows
  {
    var t := s.tasks[id];
    var x, data := Next(c, t.node), Take(s.nodes[t.node].dict[t.key], t.stage.snap.size);
    var s1 := Written(x, t.key, data, env, s);
    var stage := if env.copyOk then Copied(t.stage.snap) else Posting;
    StageApart(s1, id, stage);
    PostApart(SetStage(s1, id, stage), s1, id, PostOf(env), x, t.key);
    StageApart(PostIf(SetStage(s1, id, stage), PostOf(env), x, t.key), id, Posting);
  }

  lemma StageApart(s: State, id: nat, stage: Stage)
    requires id in s.tasks
    ensures Alike(SetStage(s, id, stage), s, id)
  {
  }

  lemma GivenUpMatches(c: Config, s: State, id: nat, env: Env)
    requires IsSending(c, s, id) && EnvFits(s, env) && CopiesToPeer(c, s.tasks[id].stage.snap)
    requires s.tasks[id].stage.place.Missed? && !env.copyOk && !env.wrote
    ensures var t, s' := s.tasks[id], AfterMemory(c, s, id, env);
            var l := Late(Next(c, t.node), t.key, t.stage.snap.size);
            var s1 := if env.lingers then s.(late := s.late + {l}) else s;
            Alike(s', PostIf(s1, PostOf(env), Next(c, t.node), t.key), id) && id in s'.tasks && s'.rows == s.rows
  {
    var t := s.tasks[id];
    var l := Late(Next(c, t.node), t.key, t.stage.snap.size);
    var s1 := if env.lingers then s.(late := s.late + {l}) else s;
    StageApart(s1, id, Posting);
    PostApart(SetStage(s1, id, Posting), s1, id, PostOf(env), Next(c, t.node), t.key);
  }

  lemma AfterDiskWrite(c: Config, s: State, id: nat, env: Env)
    requires CanBegin(c, s, id) && EnvFits(s, env) && OnlyEvictsForeign(s, id)
    requires CopiesToDisk(c, s.tasks[id].stage.snap)
    requires s.tasks[id].key in s.rows && s.tasks[id].key in s.nodes[s.tasks[id].node].dict
    requires Holds(s.nodes[s.tasks[id].node], s.tasks[id].node, s.tasks[id].stage.snap, s.tasks[id].key)
    requires env.copyOk
    ensures var t, s' := s.tasks[id], AfterChecked(c, s, id, env);
            && s'.nodes == s.nodes && s'.saved == s.saved && s'.diskFailed == s.diskFailed
            && s'.late == s.late && s'.replaced == s.replaced
            && s'.disk == s.disk[t.key := Take(s.nodes[t.node].dict[t.key], t.stage.snap.size)]
            && s'.rows == (if env.updateOk then SetState(s, t.key, PERSISTENT).rows else s.rows)
            && s'.tasks - {id} == s.tasks - {id} && id in s'.tasks
  {
  }

  lemma AfterFailedDiskWrite(c: Config, s: State, id: nat, env: Env)
    requires CanBegin(c, s, id) && EnvFits(s, env) && OnlyEvictsForeign(s, id)
    requires CopiesToDisk(c, s.tasks[id].stage.snap)
    requires s.tasks[id].key in s.rows && s.tasks[id].key in s.nodes[s.tasks[id].node].dict
    requires Holds(s.nodes[s.tasks[id].node], s.tasks[id].node, s.tasks[id].stage.snap, s.tasks[id].key)
    requires !env.copyOk
    ensures var t, s' := s.tasks[id], AfterChecked(c, s, id, env);
            && s'.nodes == s.nodes && s'.saved == s.saved && s'.rows == s.rows
            && s'.late == s.late && s'.replaced == s.replaced
            && s'.disk == (if env.reached then s.disk[t.key := if env.wrote then env.junk else []] else s.disk)
            && s'.tasks - {id} == s.tasks - {id} && (id !in s'.tasks <==> t.stage.snap.state == BACKED_UP)
            && s'.diskFailed == if t.stage.snap.state == BACKED_UP then s.diskFailed + {t.key} else s.diskFailed
  {
    hide AfterMemory;
    if env.reached { FailedDiskEnd(c, DoBegin(c, s, id), id, env); }
  }

  lemma FailedDiskEnd(c: Config, s: State, id: nat, env: Env)
    requires IsSending(c, s, id) && EnvFits(s, env) && CopiesToDisk(c, s.tasks[id].stage.snap) && !env.copyOk
    requires s.tasks[id].stage.place.Live?
    ensures var t, s' := s.tasks[id], AfterMemory(c, s, id, env);
            var gaveUp := t.stage.snap.state == BACKED_UP;
            && s' == s.(tasks := s'.tasks, disk := if env.wrote then s.disk[t.key := env.junk] else s.disk,
                        diskFailed := if gaveUp then s.diskFailed + {t.key} else s.diskFailed)
            && s'.tasks - {id} == s.tasks - {id} && (id !in s'.tasks <==> gaveUp)
  {
  }

  lemma AfterDiskCopy(c: Config, s: State, id: nat, env: Env)
    requires CanBegin(c, s, id) && EnvFits(s, env) && OnlyEvictsForeign(s, id)
    requires CopiesToDisk(c, s.tasks[id].stage.snap)
    requires s.tasks[id].key in s.rows && s.tasks[id].key in s.nodes[s.tasks[id].node].dict
    requires Holds(s.nodes[s.tasks[id].node], s.tasks[id].node, s.tasks[id].stage.snap, s.tasks[id].key)
    ensures var t, s' := s.tasks[id], AfterChecked(c, s, id, env);
            var gaveUp := !env.copyOk && t.stage.snap.state == BACKED_UP;
            && s'.nodes == s.nodes && s'.saved == s.saved && s'.late == s.late && s'.replaced == s.replaced
            && s'.disk == (if env.copyOk then s.disk[t.key := Take(s.nodes[t.node].dict[t.key], t.stage.snap.size)]
                           else if env.reached then s.disk[t.key := if env.wrote then env.junk else []] else s.disk)
            && s'.rows == (if env.copyOk && env.updateOk then SetState(s, t.key, PERSISTENT).rows else s.rows)
            && s'.tasks - {id} == s.tasks - {id} && (id !in s'.tasks <==> gaveUp)
            && s'.diskFailed == if gaveUp then s.diskFailed + {t.key} else s.diskFailed
  {
    hide AfterChecked;
    if env.copyOk { AfterDiskWrite(c, s, id, env); } else { AfterFailedDiskWrite(c, s, id, env); }
  }

  /** A call ends with the key dropped or posted again at the same node. */
  lemma CallEnds(c: Config, s: State, id: nat, env: Env)
    requires CanFetch(c, s, id) && EnvFits(s, env)
    ensures var s' := AfterLoad(c, s, id, env);
            id in s'.tasks ==> s'.tasks[id] == s.tasks[id].(stage := Posting)
  {
    var s0 := SetStage(s, id, Posting);
    assert SetStage(s0, id, Queued) == s by {
      assert s0.tasks[id := s0.tasks[id].(stage := Queued)] == s.tasks;
    }
    HandleProgress(c, s0, id, env);
  }

  // ---------------------------------------------------------------- a pass is a run

  /** The events of the work queue, which every rule allows. */
  predicate ByWorker(e: Event) {
    || e.Fetch? || e.Check? || e.Skip? || e.Begin? || e.Install? || e.Arrive? || e.Fail? || e.Finish? || e.Update?
    || e.Notify? || e.Delete?
  }

  lemma WorkersAreFree(rule: Rule, c: Config, s: State, e: Event)
    requires CanHappen(c, s, e) && ByWorker(e)
    ensures Permits(rule, c, s, e)
  {
    hide CanHappen;
  }

  lemma LeadsFirst(rule: Rule, c: Config, s: State, e: Event, s': State)
    requires CanHappen(c, s, e) && ByWorker(e) && Leads(rule, c, Apply(c, s, e), s')
    ensures Leads(rule, c, s, s')
  {
    hide CanHappen, Respects, Apply, Leads;
    WorkersAreFree(rule, c, s, e);
    OneStep(rule, c, s, e);
    LeadsOn(rule, c, s, Apply(c, s, e), s');
  }

  lemma CopyIsRun(rule: Rule, c: Config, s: State, id: nat, env: Env)
    requires IsSending(c, s, id) && EnvFits(s, env)
    ensures Leads(rule, c, s, AfterBegin(c, s, id, env))
  {
    hide Leads, AfterMemory;
    if s.tasks[id].stage.place.Missed? && (env.copyOk || env.wrote) {
      InstallMatches(c, s, id);
      SendingIsRun(rule, c, DoInstall(c, s, id), id, env);
      LeadsFirst(rule, c, s, Install(id), AfterBegin(c, s, id, env));
    } else {
      SendingIsRun(rule, c, s, id, env);
    }
  }

  lemma SendingIsRun(rule: Rule, c: Config, s: State, id: nat, env: Env)
    requires IsSending(c, s, id) && EnvFits(s, env)
    requires env.copyOk || env.wrote ==> s.tasks[id].stage.place.Live?
    ensures Leads(rule, c, s, AfterMemory(c, s, id, env))
  {
    hide Leads, DoFail;
    var s', t := AfterMemory(c, s, id, env), s.tasks[id];
    var post := if CopiesToPeer(c, t.stage.snap) then PostOf(env) else None;
    LeadsNow(rule, c, s');
    if env.copyOk {
      ArrivalIsRun(rule, c, s, id, env, post);
    } else if env.wrote {
      PartialIsRun(rule, c, s, id, post, Arrived(c, s, id, env));
    } else {
      LeadsFirst(rule, c, s, Fail(id, post, env.lingers && t.stage.place.Missed?), s');
    }
  }

  lemma PartialIsRun(rule: Rule, c: Config, s: State, id: nat, post: Option<nat>, data: Bytes)
    requires CanArrive(c, s, id, data) && CanFail(c, DoArrive(c, s, id, data), id, post, false)
    ensures Leads(rule, c, s, DoFail(c, DoArrive(c, s, id, data), id, post, false))
  {
    hide Leads, DoFail, DoArrive;
    var s1 := DoArrive(c, s, id, data);
    LeadsNow(rule, c, DoFail(c, s1, id, post, false));
    LeadsFirst(rule, c, s1, Fail(id, post, false), DoFail(c, s1, id, post, false));
    LeadsFirst(rule, c, s, Arrive(id, data), DoFail(c, s1, id, post, false));
  }

  lemma ArrivalIsRun(rule: Rule, c: Config, s: State, id: nat, env: Env, post: Option<nat>)
    requires CanFinish(c, s, id, post)
    ensures Leads(rule, c, s, DoUpdate(c, DoFinish(c, s, id, post), id, env.updateOk))
  {
    FinishedIsCopied(c, s, id, post);
    hide Leads, DoUpdate, DoFinish, CanFinish, CanUpdate;
    var s1 := DoFinish(c, s, id, post);
    UpdateIsRun(rule, c, s1, id, env.updateOk);
    LeadsFirst(rule, c, s, Finish(id, post), DoUpdate(c, s1, id, env.updateOk));
  }

  lemma UpdateIsRun(rule: Rule, c: Config, s: State, id: nat, ok: bool)
    requires CanUpdate(c, s, id)
    ensures Leads(rule, c, s, DoUpdate(c, s, id, ok))
  {
    hide Leads, DoUpdate;
    LeadsNow(rule, c, DoUpdate(c, s, id, ok));
    LeadsFirst(rule, c, s, Update(id, ok), DoUpdate(c, s, id, ok));
  }

  lemma FinishedIsCopied(c: Config, s: State, id: nat, post: Option<nat>)
    requires CanFinish(c, s, id, post)
    ensures CanUpdate(c, DoFinish(c, s, id, post), id)
  {
  }

  lemma ActionIsRun(rule: Rule, c: Config, s: State, id: nat, env: Env)
    requires TaskAt(c, s, id) && s.tasks[id].stage.Checked? && EnvFits(s, env) && OnlyEvictsForeign(s, id)
    requires Holds(s.nodes[s.tasks[id].node], s.tasks[id].node, s.tasks[id].stage.snap, s.tasks[id].key)
    ensures Leads(rule, c, s, AfterChecked(c, s, id, env))
  {
    hide Leads;
    var s', snap := AfterChecked(c, s, id, env), s.tasks[id].stage.snap;
    LeadsNow(rule, c, s');
    if Skips(c, snap) {
      LeadsFirst(rule, c, s, Skip(id, env.touch), s');
    } else if CopiesToPeer(c, snap) || CopiesToDisk(c, snap) {
      TransferIsRun(rule, c, s, id, env);
    } else if Notifies(c, snap, s.tasks[id].node) {
      NoticeIsRun(rule, c, s, id, env);
    } else {
      LeadsFirst(rule, c, s, Delete(id), s');
    }
  }

  lemma TransferIsRun(rule: Rule, c: Config, s: State, id: nat, env: Env)
    requires CanBegin(c, s, id) && EnvFits(s, env) && OnlyEvictsForeign(s, id)
    requires Holds(s.nodes[s.tasks[id].node], s.tasks[id].node, s.tasks[id].stage.snap, s.tasks[id].key)
    ensures Leads(rule, c, s, AfterChecked(c, s, id, env))
  {
    hide Leads;
    if env.copyOk || env.reached {
      CopyIsRun(rule, c, DoBegin(c, s, id), id, env);
      hide DoBegin, AfterBegin;
      LeadsFirst(rule, c, s, Begin(id), AfterChecked(c, s, id, env));
    } else {
      FailureIsRun(rule, c, s, id, env);
    }
  }

  lemma FailureIsRun(rule: Rule, c: Config, s: State, id: nat, env: Env)
    requires CanBegin(c, s, id) && EnvFits(s, env) && OnlyEvictsForeign(s, id) && !env.copyOk && !env.reached
    requires Holds(s.nodes[s.tasks[id].node], s.tasks[id].node, s.tasks[id].stage.snap, s.tasks[id].key)
    ensures Leads(rule, c, s, AfterChecked(c, s, id, env))
  {
    hide Leads, DoFail;
    var s' := AfterChecked(c, s, id, env);
    LeadsNow(rule, c, s');
    LeadsFirst(rule, c, s, Fail(id, None, false), s');
  }

  lemma NoticeIsRun(rule: Rule, c: Config, s: State, id: nat, env: Env)
    requires TaskAt(c, s, id) && s.tasks[id].stage.Checked? && EnvFits(s, env) && OnlyEvictsForeign(s, id)
    requires Holds(s.nodes[s.tasks[id].node], s.tasks[id].node, s.tasks[id].stage.snap, s.tasks[id].key)
    requires Notifies(c, s.tasks[id].stage.snap, s.tasks[id].node)
    ensures Leads(rule, c, s, AfterChecked(c, s, id, env))
  {
    hide Leads;
    if env.copyOk {
      NoticeThenDelete(rule, c, s, id, Some(env.peerId));
    } else {
      hide DoNotify;
      var s' := AfterChecked(c, s, id, env);
      LeadsNow(rule, c, s');
      LeadsFirst(rule, c, s, Notify(id, false, PostOf(env)), s');
    }
  }

  lemma NoticeThenDelete(rule: Rule, c: Config, s: State, id: nat, post: Option<nat>)
    requires CanNotify(c, s, id, true, post) && CanDelete(c, DoNotify(c, s, id, true, post), id)
    ensures Leads(rule, c, s, DoDelete(c, DoNotify(c, s, id, true, post), id))
  {
    hide Leads, DoDelete, DoNotify;
    var s1 := DoNotify(c, s, id, true, post);
    LeadsNow(rule, c, DoDelete(c, s1, id));
    LeadsFirst(rule, c, s1, Delete(id), DoDelete(c, s1, id));
    LeadsFirst(rule, c, s, Notify(id, true, post), DoDelete(c, s1, id));
  }

  /** One uninterrupted `Reconcile` is a run of the transition system, whatever the rule. */
  lemma ReconcileIsRun(rule: Rule, c: Config, s: State, id: nat, env: Env)
    requires CanFetch(c, s, id) && EnvFits(s, env)
    ensures Leads(rule, c, s, AfterLoad(c, s, id, env))
  {
    hide Leads;
    var s', s1 := AfterLoad(c, s, id, env), DoFetch(s, id, env.loadOk);
    if id in s1.tasks && s1.tasks[id].stage.Loaded? {
      CheckIsRun(rule, c, s1, id, env);
    } else {
      LeadsNow(rule, c, s');
    }
    LeadsFirst(rule, c, s, Fetch(id, env.loadOk), s');
  }

  lemma CheckIsRun(rule: Rule, c: Config, s: State, id: nat, env: Env)
    requires CanCheck(c, s, id) && EnvFits(s, env) && OnlyEvictsForeign(s, id)
    ensures Leads(rule, c, s, AfterCheck(c, s, id, env))
  {
    hide Leads;
    var s', s1 := AfterCheck(c, s, id, env), DoCheck(c, s, id, env.markOk);
    if id in s1.tasks && s1.tasks[id].stage.Checked? {
      ActionIsRun(rule, c, s1, id, env);
    } else {
      LeadsNow(rule, c, s');
    }
    LeadsFirst(rule, c, s, Check(id, env.markOk), s');
  }
}
