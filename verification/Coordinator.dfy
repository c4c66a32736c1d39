/** One uninterrupted `Reconcile`, as the sequential code runs it, against the stages of the
    transition system; and how often a key is handled before it is dropped. */
module Coordinator {
  import opened Lifecycle
  import opened Options

  /** How the environment answers one call: database, copy to peer or disk, database again.
      `reached` says whether a failing copy got as far as the lookup or the truncated file, `wrote`
      whether bytes were written then (to a backup those at `arrived`, to disk `junk`), `lingers`
      whether the server's handler outlives it, `posted` whether the peer queued the key of a copy, and
      `peerId` names that queue entry. */
  datatype Env = Env(loadOk: bool, markOk: bool, copyOk: bool, updateOk: bool, reached: bool, wrote: bool,
                     arrived: set<nat>, junk: Bytes, lingers: bool, touch: bool, posted: bool, peerId: nat)

  predicate EnvFits(s: State, env: Env) { env.peerId !in s.tasks }

  function PostOf(env: Env): Option<nat> { if env.posted then Some(env.peerId) else None }

  // ---------------------------------------------------------------- the stages in one go

  /** A row read by another node than its owner is OBSOLESCENT. */
  predicate OnlyEvictsForeign(s: State, id: nat)
    requires id in s.tasks && s.tasks[id].stage.Running()
  {
    s.tasks[id].stage.snap.rank != s.tasks[id].node ==> s.tasks[id].stage.snap.state == OBSOLESCENT
  }

  function AfterLoad(c: Config, s: State, id: nat, env: Env): State
    requires CanFetch(c, s, id) && EnvFits(s, env)
  {
    var s1 := DoFetch(s, id, env.loadOk);
    if id in s1.tasks && s1.tasks[id].stage.Loaded? then AfterCheck(c, s1, id, env) else s1
  }

  function AfterCheck(c: Config, s: State, id: nat, env: Env): State
    requires CanCheck(c, s, id) && EnvFits(s, env) && OnlyEvictsForeign(s, id)
  {
    var s1 := DoCheck(c, s, id, env.markOk);
    if id in s1.tasks && s1.tasks[id].stage.Checked? then AfterChecked(c, s1, id, env) else s1
  }

  function AfterChecked(c: Config, s: State, id: nat, env: Env): State
    requires TaskAt(c, s, id) && s.tasks[id].stage.Checked? && EnvFits(s, env) && OnlyEvictsForeign(s, id)
    requires Holds(s.nodes[s.tasks[id].node], s.tasks[id].node, s.tasks[id].stage.snap, s.tasks[id].key)
  {
    var t := s.tasks[id];
    var snap := t.stage.snap;
    if Skips(c, snap) then DoSkip(c, s, id, env.touch)
    else if CopiesToPeer(c, snap) || CopiesToDisk(c, snap) then
      if env.copyOk || env.reached then AfterBegin(c, DoBegin(c, s, id), id, env)
      else DoFail(c, s, id, None, false)
    else if Notifies(c, snap, t.node) then
      if env.copyOk then DoDelete(c, DoNotify(c, s, id, true, Some(env.peerId)), id)
      else DoNotify(c, s, id, false, PostOf(env))
    else DoDelete(c, s, id)
  }

  /** The bytes in a backup once those at `arrived` have been sent. */
  function Partly(was: Bytes, sent: Bytes, arrived: set<nat>): (data: Bytes)
    ensures Mixed(data, was, sent)
  {
    seq(|was|, k requires 0 <= k < |was| => if k in arrived && k < |sent| then sent[k] else was[k])
  }

  /** The task is copying; on its way to the next node the memory it writes to is there, if any. */
  predicate IsSending(c: Config, s: State, id: nat) {
    && TaskAt(c, s, id)
    && var t := s.tasks[id];
    && t.stage.Copying? && !t.stage.place.Orphaned? && t.key in s.nodes[t.node].dict
    && (|| (CopiesToPeer(c, t.stage.snap) && (t.stage.place.Live? ==> t.key in s.nodes[Next(c, t.node)].backup))
        || (CopiesToDisk(c, t.stage.snap) && !CopiesToPeer(c, t.stage.snap) && t.stage.place.Live?))
  }

  function AfterBegin(c: Config, s: State, id: nat, env: Env): State
    requires IsSending(c, s, id) && EnvFits(s, env)
  {
    if s.tasks[id].stage.place.Missed? && (env.copyOk || env.wrote) then AfterMemory(c, DoInstall(c, s, id), id, env)
    else AfterMemory(c, s, id, env)
  }

  function AfterMemory(c: Config, s: State, id: nat, env: Env): State
    requires IsSending(c, s, id) && EnvFits(s, env)
    requires env.copyOk || env.wrote ==> s.tasks[id].stage.place.Live?
  {
    var t := s.tasks[id];
    var post := if CopiesToPeer(c, t.stage.snap) then PostOf(env) else None;
    if env.copyOk then DoUpdate(c, DoFinish(c, s, id, post), id, env.updateOk)
    else if env.wrote then DoFail(c, DoArrive(c, s, id, Arrived(c, s, id, env)), id, post, false)
    else DoFail(c, s, id, post, env.lingers && t.stage.place.Missed?)
  }

  function Arrived(c: Config, s: State, id: nat, env: Env): (data: Bytes)
    requires IsSending(c, s, id) && s.tasks[id].stage.place.Live?
    ensures CanArrive(c, s, id, data)
  {
    var t := s.tasks[id];
    if CopiesToPeer(c, t.stage.snap) then
      Partly(s.nodes[Next(c, t.node)].backup[t.key], Take(s.nodes[t.node].dict[t.key], t.stage.snap.size), env.arrived)
    else env.junk
  }

  /** One call of the handler for a queued key: what `Operator::run` makes of it, up to the point
      where the key is dropped or posted again. */
  function Handle(c: Config, s: State, id: nat, env: Env): State
    requires CanPush(c, s, id) && EnvFits(s, env)
  {
    AfterLoad(c, SetStage(s, id, Queued), id, env)
  }

  // ---------------------------------------------------------------- how often a key is handled

  /** Some operation of this call was attempted and failed: reading the row, marking it BROKEN,
      copying or notifying, or updating the row after a copy. */
  predicate OperationFails(c: Config, s: State, id: nat, env: Env)
    requires CanPush(c, s, id)
  {
    var t := s.tasks[id];
    || !env.loadOk
    || (t.key in s.rows && (s.rows[t.key].rank == t.node || s.rows[t.key].state == OBSOLESCENT) &&
        var r := s.rows[t.key];
        if r.size > 0 && Holds(s.nodes[t.node], t.node, r, t.key) then
          ActionFails(c, r, t.node, env)
        else
          r.state !in {OBSOLESCENT, BROKEN} && !env.markOk)
  }

  predicate ActionFails(c: Config, r: Row, n: nat, env: Env) {
    if CopiesToPeer(c, r) || CopiesToDisk(c, r) then !env.copyOk || !env.updateOk
    else Notifies(c, r, n) && !env.copyOk
  }

  function Rank(st: CkState): nat {
    match st case PENDING => 0 case CACHED => 1 case BACKED_UP => 2 case PERSISTENT => 3
             case OBSOLESCENT => 4 case BROKEN => 5
  }

  /** Handler calls still needed when nothing fails. */
  function Need(s: State, f: File): (k: nat)
    ensures 1 <= k <= 3
  {
    if f !in s.rows then 1
    else match s.rows[f].state case CACHED => 3 case BACKED_UP => 2 case _ => 1
  }

  /** What one call makes of the row and the key.  `r` is the row as it was read. */
  predicate Result(c: Config, s: State, s': State, id: nat, failed: bool, r: Row)
    requires id in s.tasks
  {
    var f := s.tasks[id].key;
    && |s'.nodes| == c.W
    && (id in s'.tasks ==> s'.tasks[id] == s.tasks[id].(stage := Posting))
    && (|| (s'.rows == s.rows && (id in s'.tasks ==> failed))
        || (s'.rows == s.rows[f := r.(state := BROKEN)] && id !in s'.tasks
            && r.state !in {OBSOLESCENT, BROKEN})
        || (s'.rows == s.rows[f := r.(state := StateAfterCopy(c, r))] && r.state in {CACHED, BACKED_UP}))
  }

  lemma ResultOfSending(c: Config, s: State, id: nat, env: Env)
    requires IsSending(c, s, id) && EnvFits(s, env)
    requires env.copyOk || env.wrote ==> s.tasks[id].stage.place.Live?
    requires s.tasks[id].key in s.rows && s.rows[s.tasks[id].key] == s.tasks[id].stage.snap
    ensures Result(c, s, AfterMemory(c, s, id, env), id, !env.copyOk || !env.updateOk, s.tasks[id].stage.snap)
  {
  }

  lemma ResultOfCopy(c: Config, s: State, id: nat, env: Env)
    requires IsSending(c, s, id) && EnvFits(s, env)
    requires s.tasks[id].key in s.rows && s.rows[s.tasks[id].key] == s.tasks[id].stage.snap
    ensures Result(c, s, AfterBegin(c, s, id, env), id, !env.copyOk || !env.updateOk, s.tasks[id].stage.snap)
  {
    hide AfterMemory;
    if s.tasks[id].stage.place.Missed? && (env.copyOk || env.wrote) {
      ResultOfSending(c, DoInstall(c, s, id), id, env);
    } else {
      ResultOfSending(c, s, id, env);
    }
  }

  /** The checked row leads to a copy. */
  lemma ResultOfTransfer(c: Config, s: State, id: nat, env: Env)
    requires CanBegin(c, s, id) && EnvFits(s, env) && OnlyEvictsForeign(s, id)
    requires Holds(s.nodes[s.tasks[id].node], s.tasks[id].node, s.tasks[id].stage.snap, s.tasks[id].key)
    requires s.tasks[id].key in s.rows && s.rows[s.tasks[id].key] == s.tasks[id].stage.snap
    ensures Result(c, s, AfterChecked(c, s, id, env), id, !env.copyOk || !env.updateOk, s.tasks[id].stage.snap)
  {
    var snap := s.tasks[id].stage.snap;
    if env.copyOk || env.reached {
      var s1 := DoBegin(c, s, id);
      ResultOfCopy(c, s1, id, env);
    }
  }

  lemma ResultOfAction(c: Config, s: State, id: nat, env: Env)
    requires TaskAt(c, s, id) && s.tasks[id].stage.Checked? && EnvFits(s, env) && OnlyEvictsForeign(s, id)
    requires Holds(s.nodes[s.tasks[id].node], s.tasks[id].node, s.tasks[id].stage.snap, s.tasks[id].key)
    requires s.tasks[id].key in s.rows && s.rows[s.tasks[id].key] == s.tasks[id].stage.snap
    ensures Result(c, s, AfterChecked(c, s, id, env), id,
                   ActionFails(c, s.tasks[id].stage.snap, s.tasks[id].node, env), s.tasks[id].stage.snap)
  {
    var snap := s.tasks[id].stage.snap;
    if CopiesToPeer(c, snap) || CopiesToDisk(c, snap) {
      ResultOfTransfer(c, s, id, env);
    }
  }

  lemma ResultOfCall(c: Config, s: State, id: nat, env: Env)
    requires CanPush(c, s, id) && EnvFits(s, env) && s.tasks[id].key in s.rows
    ensures Result(c, s, Handle(c, s, id, env), id, OperationFails(c, s, id, env), s.rows[s.tasks[id].key])
  {
    var s1 := SetStage(s, id, Queued);
    var s2 := DoFetch(s1, id, env.loadOk);
    if id in s2.tasks && s2.tasks[id].stage.Loaded? {
      var s3 := DoCheck(c, s2, id, env.markOk);
      if id in s3.tasks && s3.tasks[id].stage.Checked? {
        ResultOfAction(c, s3, id, env);
      }
    }
  }

  lemma UnknownKeyDropped(c: Config, s: State, id: nat, env: Env)
    requires CanPush(c, s, id) && EnvFits(s, env) && s.tasks[id].key !in s.rows
    ensures var s' := Handle(c, s, id, env);
            |s'.nodes| == c.W && s'.rows == s.rows
            && (id in s'.tasks <==> !env.loadOk) && (id in s'.tasks ==> s'.tasks[id] == s.tasks[id])
  {
  }

  /** A call without failures drops the key or brings it closer; no call loses ground, and a key
      that is not dropped is posted again. */
  lemma HandleProgress(c: Config, s: State, id: nat, env: Env)
    requires CanPush(c, s, id) && EnvFits(s, env)
    ensures var s' := Handle(c, s, id, env);
            |s'.nodes| == c.W
            && (id in s'.tasks ==>
                  && s'.tasks[id] == s.tasks[id]
                  && Need(s', s.tasks[id].key) <= Need(s, s.tasks[id].key)
                  && (!OperationFails(c, s, id, env) ==> Need(s', s.tasks[id].key) < Need(s, s.tasks[id].key)))
  {
    if s.tasks[id].key in s.rows {
      ResultOfCall(c, s, id, env);
    } else {
      UnknownKeyDropped(c, s, id, env);
    }
  }

  /** The environments fit, one call after the other. */
  predicate EnvsFit(c: Config, s: State, id: nat, envs: seq<Env>)
    requires CanPush(c, s, id)
    decreases |envs|
  {
    envs == [] ||
    (EnvFits(s, envs[0]) &&
      (HandleProgress(c, s, id, envs[0]);
       var s' := Handle(c, s, id, envs[0]);
       id in s'.tasks ==> EnvsFit(c, s', id, envs[1..])))
  }

  /** Whether the key has been dropped after at most this many calls. */
  predicate Dropped(c: Config, s: State, id: nat, envs: seq<Env>)
    requires CanPush(c, s, id) && EnvsFit(c, s, id, envs)
    decreases |envs|
  {
    envs != [] &&
      (HandleProgress(c, s, id, envs[0]);
       var s' := Handle(c, s, id, envs[0]);
       id in s'.tasks ==> Dropped(c, s', id, envs[1..]))
  }

  /** In how many of these calls an operation fails. */
  function FailedCalls(c: Config, s: State, id: nat, envs: seq<Env>): nat
    requires CanPush(c, s, id) && EnvsFit(c, s, id, envs)
    decreases |envs|
  {
    if envs == [] then 0
    else
      HandleProgress(c, s, id, envs[0]);
      var s' := Handle(c, s, id, envs[0]);
      (if OperationFails(c, s, id, envs[0]) then 1 else 0)
      + (if id in s'.tasks then FailedCalls(c, s', id, envs[1..]) else 0)
  }

  /** With nobody else touching the row, a key is dropped within `Need` calls, plus one for each
      call in which an operation fails. */
  lemma {:induction false} DroppedWithinNeed(c: Config, s: State, id: nat, envs: seq<Env>)
    requires CanPush(c, s, id) && EnvsFit(c, s, id, envs)
    requires |envs| >= Need(s, s.tasks[id].key) + FailedCalls(c, s, id, envs)
    ensures Dropped(c, s, id, envs)
    decreases |envs|
  {
    HandleProgress(c, s, id, envs[0]);
    var s' := Handle(c, s, id, envs[0]);
    if id in s'.tasks {
      DroppedWithinNeed(c, s', id, envs[1..]);
    }
  }

  /** A key is handled at most 3 times more often than operations fail. */
  lemma DroppedWithinThree(c: Config, s: State, id: nat, envs: seq<Env>)
    requires CanPush(c, s, id) && EnvsFit(c, s, id, envs) && |envs| >= 3 + FailedCalls(c, s, id, envs)
    ensures Dropped(c, s, id, envs)
  {
    DroppedWithinNeed(c, s, id, envs);
  }

  // ---------------------------------------------------------------- what is done when a key is dropped

  /** The state after these calls, or after the one that drops the key. */
  function AfterCalls(c: Config, s: State, id: nat, envs: seq<Env>): State
    requires CanPush(c, s, id) && EnvsFit(c, s, id, envs)
    decreases |envs|
  {
    if envs == [] then s
    else
      HandleProgress(c, s, id, envs[0]);
      var s' := Handle(c, s, id, envs[0]);
      if id in s'.tasks then AfterCalls(c, s', id, envs[1..]) else s'
  }

  /** The key stands for a file that its node owns and holds. */
  predicate AtHome(c: Config, s: State, id: nat) {
    && TaskAt(c, s, id)
    && var t := s.tasks[id];
    && t.key in s.rows && s.rows[t.key].rank == t.node && s.rows[t.key].size > 0 && t.key in s.nodes[t.node].dict
  }

  /** What transfers of the file carry. */
  function Payload(c: Config, s: State, id: nat): Bytes
    requires AtHome(c, s, id)
  {
    Take(s.nodes[s.tasks[id].node].dict[s.tasks[id].key], s.rows[s.tasks[id].key].size)
  }

  predicate Stored(m: map<File, Bytes>, f: File, data: Bytes) { f in m && m[f] == data }

  /** A call that moves a row up leaves the bytes where the new state says they are. */
  lemma StepUp(c: Config, s: State, id: nat, env: Env)
    requires CanPush(c, s, id) && EnvFits(s, env) && AtHome(c, s, id) && c.persist && !OperationFails(c, s, id, env)
    requires s.rows[s.tasks[id].key].state in {CACHED, BACKED_UP}
    ensures var s', f, n := Handle(c, s, id, env), s.tasks[id].key, s.tasks[id].node;
            && id in s'.tasks && s'.tasks[id] == s.tasks[id] && AtHome(c, s', id)
            && s'.rows[f] == s.rows[f].(state := StateAfterCopy(c, s.rows[f]))
            && Payload(c, s', id) == Payload(c, s, id)
            && if StateAfterCopy(c, s.rows[f]) == PERSISTENT
               then Stored(s'.disk, f, Payload(c, s, id)) && s'.nodes == s.nodes
               else Stored(s'.nodes[Next(c, n)].backup, f, Payload(c, s, id))
  {
    var s1 := SetStage(s, id, Queued);
    var s2 := DoFetch(s1, id, true);
    var s3 := DoCheck(c, s2, id, env.markOk);
    var s4 := DoBegin(c, s3, id);
    assert s3.tasks[id].stage == Checked(s.rows[s.tasks[id].key]);
    assert Handle(c, s, id, env) == AfterBegin(c, s4, id, env);
    StepUpByCopy(c, s4, id, env);
  }

  lemma StepUpByCopy(c: Config, s: State, id: nat, env: Env)
    requires IsSending(c, s, id) && EnvFits(s, env) && env.copyOk && env.updateOk && AtHome(c, s, id)
    requires s.rows[s.tasks[id].key] == s.tasks[id].stage.snap
    ensures var s', t := AfterBegin(c, s, id, env), s.tasks[id];
            && |s'.nodes| == c.W && id in s'.tasks && s'.tasks[id] == t.(stage := Posting)
            && s'.rows == s.rows[t.key := t.stage.snap.(state := StateAfterCopy(c, t.stage.snap))]
            && s'.nodes[t.node].dict == s.nodes[t.node].dict
            && if CopiesToPeer(c, t.stage.snap)
               then Stored(s'.nodes[Next(c, t.node)].backup, t.key, Payload(c, s, id))
               else Stored(s'.disk, t.key, Payload(c, s, id)) && s'.nodes == s.nodes
  {
    hide AfterMemory, StateAfterCopy;
    if s.tasks[id].stage.place.Missed? {
      InstallKeepsHome(c, s, id);
      StepUpBySending(c, DoInstall(c, s, id), id, env);
    } else {
      StepUpBySending(c, s, id, env);
    }
  }

  lemma InstallKeepsHome(c: Config, s: State, id: nat)
    requires IsSending(c, s, id) && AtHome(c, s, id) && CanInstall(c, s, id)
    ensures var s', t := DoInstall(c, s, id), s.tasks[id];
            && IsSending(c, s', id) && AtHome(c, s', id) && s'.rows == s.rows
            && s'.tasks[id] == t.(stage := Copying(t.stage.snap, Live))
            && s'.nodes[t.node].dict == s.nodes[t.node].dict
            && forall env :: EnvFits(s, env) ==> EnvFits(s', env)
  {
  }

  lemma StepUpBySending(c: Config, s: State, id: nat, env: Env)
    requires IsSending(c, s, id) && EnvFits(s, env) && env.copyOk && env.updateOk && AtHome(c, s, id)
    requires s.tasks[id].stage.place.Live? && s.rows[s.tasks[id].key] == s.tasks[id].stage.snap
    ensures var s', t := AfterMemory(c, s, id, env), s.tasks[id];
            && |s'.nodes| == c.W && id in s'.tasks && s'.tasks[id] == t.(stage := Posting)
            && s'.rows == s.rows[t.key := t.stage.snap.(state := StateAfterCopy(c, t.stage.snap))]
            && s'.nodes[t.node].dict == s.nodes[t.node].dict
            && if CopiesToPeer(c, t.stage.snap)
               then Stored(s'.nodes[Next(c, t.node)].backup, t.key, Payload(c, s, id))
               else Stored(s'.disk, t.key, Payload(c, s, id)) && s'.nodes == s.nodes
  {
  }

  /** With persistence on and nothing failing, the key of a row on its way up is dropped only once the
      row is PERSISTENT, its bytes are on disk and, on a ring, at the next node. */
  lemma {:induction false} DroppedOncePersistent(c: Config, s: State, id: nat, envs: seq<Env>)
    requires CanPush(c, s, id) && EnvsFit(c, s, id, envs) && AtHome(c, s, id) && c.persist
    requires FailedCalls(c, s, id, envs) == 0 && Dropped(c, s, id, envs)
    requires s.rows[s.tasks[id].key].state in {CACHED, BACKED_UP, PERSISTENT}
    ensures var s', f, n := AfterCalls(c, s, id, envs), s.tasks[id].key, s.tasks[id].node;
            && id !in s'.tasks && |s'.nodes| == c.W
            && f in s'.rows && s'.rows[f] == s.rows[f].(state := PERSISTENT)
            && (s.rows[f].state in {CACHED, BACKED_UP} || Stored(s.disk, f, Payload(c, s, id)) ==>
                  Stored(s'.disk, f, Payload(c, s, id)))
            && (c.W >= 2 && (s.rows[f].state == CACHED || Stored(s.nodes[Next(c, n)].backup, f, Payload(c, s, id))) ==>
                  Stored(s'.nodes[Next(c, n)].backup, f, Payload(c, s, id)))
    decreases |envs|
  {
    hide Handle, OperationFails;
    var s' := Handle(c, s, id, envs[0]);
    HandleProgress(c, s, id, envs[0]);
    if s.rows[s.tasks[id].key].state == PERSISTENT {
      NothingToDo(c, s, id, envs[0]);
    } else {
      StepUp(c, s, id, envs[0]);
      DroppedOncePersistent(c, s', id, envs[1..]);
    }
  }

  lemma NothingToDo(c: Config, s: State, id: nat, env: Env)
    requires CanPush(c, s, id) && EnvFits(s, env) && AtHome(c, s, id) && !OperationFails(c, s, id, env)
    requires s.rows[s.tasks[id].key].state == PERSISTENT
    ensures Handle(c, s, id, env) == Drop(s, id)
  {
    assert Handle(c, s, id, env).tasks == s.tasks - {id};
  }

  /** With nothing failing, the owner drops the key of an evicted file once its own copy is gone and the
      key is posted at the next node, which drops it once the backup is gone too. */
  lemma DroppedOnceFreed(c: Config, s: State, id: nat, env: Env, env': Env)
    requires c.W >= 2 && CanPush(c, s, id) && EnvFits(s, env) && AtHome(c, s, id)
    requires s.rows[s.tasks[id].key].state == OBSOLESCENT && !OperationFails(c, s, id, env)
    ensures var s1, f, n := Handle(c, s, id, env), s.tasks[id].key, s.tasks[id].node;
            && id !in s1.tasks && |s1.nodes| == c.W && f !in s1.nodes[n].dict
            && CanPush(c, s1, env.peerId) && s1.tasks[env.peerId] == Task(Next(c, n), f, Posting)
            && (EnvFits(s1, env') && !OperationFails(c, s1, env.peerId, env') ==>
                  var s2 := Handle(c, s1, env.peerId, env');
                  && env.peerId !in s2.tasks && |s2.nodes| == c.W
                  && f !in s2.nodes[n].dict && f !in s2.nodes[Next(c, n)].backup)
  {
    var s1, n := Handle(c, s, id, env), s.tasks[id].node;
    FreedAtHome(c, s, id, env);
    if EnvFits(s1, env') && !OperationFails(c, s1, env.peerId, env') {
      FreedAtPeer(c, s1, env.peerId, env');
    }
  }

  lemma FreedAtHome(c: Config, s: State, id: nat, env: Env)
    requires c.W >= 2 && CanPush(c, s, id) && EnvFits(s, env) && AtHome(c, s, id)
    requires s.rows[s.tasks[id].key].state == OBSOLESCENT && !OperationFails(c, s, id, env)
    ensures var s1, f, n := Handle(c, s, id, env), s.tasks[id].key, s.tasks[id].node;
            && id !in s1.tasks && |s1.nodes| == c.W && f !in s1.nodes[n].dict && s1.rows == s.rows
            && CanPush(c, s1, env.peerId) && s1.tasks[env.peerId] == Task(Next(c, n), f, Posting)
  {
  }

  lemma FreedAtPeer(c: Config, s: State, id: nat, env: Env)
    requires CanPush(c, s, id) && EnvFits(s, env) && !OperationFails(c, s, id, env)
    requires s.tasks[id].key in s.rows && s.rows[s.tasks[id].key].state == OBSOLESCENT
    requires s.rows[s.tasks[id].key].rank != s.tasks[id].node && s.rows[s.tasks[id].key].size > 0
    ensures var s', f, n := Handle(c, s, id, env), s.tasks[id].key, s.tasks[id].node;
            && id !in s'.tasks && |s'.nodes| == c.W && f !in s'.nodes[n].backup
            && forall m :: 0 <= m < c.W ==> s'.nodes[m].dict == s.nodes[m].dict
  {
    var s1 := SetStage(s, id, Queued);
    var s2 := DoFetch(s1, id, true);
    var s3 := DoCheck(c, s2, id, env.markOk);
    assert s2.nodes == s.nodes && s3.nodes == s.nodes;
    hide DoFetch, DoCheck;
    assert id in s3.tasks ==> AfterChecked(c, s3, id, env) == DoDelete(c, s3, id);
  }

  /** Reconcile moves a row forward in lifecycle order, and touches no other row. */
  lemma HandleMovesForward(c: Config, s: State, id: nat, env: Env, f: File)
    requires CanPush(c, s, id) && EnvFits(s, env) && f in s.rows
    ensures var s' := Handle(c, s, id, env);
            && f in s'.rows && s'.rows[f] == s.rows[f].(state := s'.rows[f].state)
            && Rank(s.rows[f].state) <= Rank(s'.rows[f].state)
            && (f != s.tasks[id].key ==> s'.rows[f] == s.rows[f])
  {
    var k := s.tasks[id].key;
    if k in s.rows {
      ResultOfCall(c, s, id, env);
      assert s.rows[k].state in {CACHED, BACKED_UP} ==> Rank(s.rows[k].state) < Rank(StateAfterCopy(c, s.rows[k]));
    } else {
      UnknownKeyDropped(c, s, id, env);
    }
  }

  /** Reconciling at a node that does not own the file changes neither the table nor that node's
      `dict_`; all it can do is free the backup of an evicted file. */
  lemma HandleAtNonOwner(c: Config, s: State, id: nat, env: Env)
    requires CanPush(c, s, id) && EnvFits(s, env)
    requires s.tasks[id].key in s.rows && s.rows[s.tasks[id].key].rank != s.tasks[id].node
    ensures var s' := Handle(c, s, id, env); var n := s.tasks[id].node; var f := s.tasks[id].key;
            && s'.rows == s.rows && s'.disk == s.disk
            && (s'.nodes == s.nodes
                || (s.rows[f].state == OBSOLESCENT
                    && s'.nodes == s.nodes[n := s.nodes[n].(backup := s.nodes[n].backup - {f})]))
  {
    var s1 := SetStage(s, id, Queued);
    var s2 := DoFetch(s1, id, env.loadOk);
    if id in s2.tasks && s2.tasks[id].stage.Loaded? {
      var s3 := DoCheck(c, s2, id, env.markOk);
      assert s3.rows == s.rows && s3.nodes == s.nodes && s3.disk == s.disk;
      assert id in s3.tasks && s3.tasks[id].stage.Checked? ==>
          AfterChecked(c, s3, id, env) == DoDelete(c, s3, id);
    }
  }

  // ---------------------------------------------------------------- what one call decides

  /** Calls that end before the data is looked up: a row that cannot be read is tried again, a key without
      a row, or of a file that another node owns and does not evict, is dropped. */
  lemma DecidesByRow(c: Config, s: State, id: nat, env: Env)
    requires CanPush(c, s, id) && EnvFits(s, env)
    ensures var s', t := Handle(c, s, id, env), s.tasks[id];
            && (!env.loadOk ==> s' == s)
            && (env.loadOk && (t.key !in s.rows ||
                  (s.rows[t.key].rank != t.node && s.rows[t.key].state != OBSOLESCENT)) ==>
                  s' == s.(tasks := s.tasks - {id}))
  {
    var s1 := SetStage(s, id, Queued);
    assert SetStage(s1, id, Posting).tasks == s.tasks;
    assert s1.tasks - {id} == s.tasks - {id};
  }

  /** The row has been read, at the owner or because the file is evicted. */
  ghost predicate Read(c: Config, s: State, id: nat, env: Env) {
    && CanPush(c, s, id) && EnvFits(s, env) && env.loadOk
    && var t := s.tasks[id];
    t.key in s.rows && (s.rows[t.key].rank == t.node || s.rows[t.key].state == OBSOLESCENT)
  }

  /** The node of the key holds the file. */
  ghost predicate Present(s: State, id: nat)
    requires id in s.tasks && s.tasks[id].node < |s.nodes| && s.tasks[id].key in s.rows
  {
    var t := s.tasks[id];
    s.rows[t.key].size > 0
    && (if s.rows[t.key].rank == t.node then t.key in s.nodes[t.node].dict else t.key in s.nodes[t.node].backup)
  }

  /** Without the data, a row being evicted or already BROKEN is done with; any other turns BROKEN, or the
      key is tried again if it cannot. */
  lemma DecidesByData(c: Config, s: State, id: nat, env: Env)
    requires Read(c, s, id, env) && !Present(s, id)
    ensures var s', f := Handle(c, s, id, env), s.tasks[id].key;
            s' == if s.rows[f].state in {OBSOLESCENT, BROKEN} then s.(tasks := s.tasks - {id})
                  else if env.markOk
                  then s.(tasks := s.tasks - {id}, rows := s.rows[f := s.rows[f].(state := BROKEN)])
                  else s
  {
    var s1 := SetStage(s, id, Queued);
    var s2 := DoFetch(s1, id, true);
    assert SetStage(s2, id, Posting).tasks == s.tasks;
    assert s2.tasks - {id} == s.tasks - {id};
  }

  lemma ReadAndPresent(c: Config, s: State, id: nat, env: Env) returns (s': State)
    requires Read(c, s, id, env) && Present(s, id)
    ensures var t := s.tasks[id];
            s' == s.(tasks := s.tasks[id := t.(stage := Checked(s.rows[t.key]))])
    ensures TaskAt(c, s', id) && EnvFits(s', env) && OnlyEvictsForeign(s', id)
    ensures var t := s.tasks[id]; Holds(s'.nodes[t.node], t.node, s.rows[t.key], t.key)
    ensures Handle(c, s, id, env) == AfterChecked(c, s', id, env)
  {
    var s1 := SetStage(s, id, Queued);
    var s2 := DoFetch(s1, id, true);
    s' := DoCheck(c, s2, id, env.markOk);
    assert s'.tasks == s.tasks[id := s.tasks[id].(stage := Checked(s.rows[s.tasks[id].key]))];
  }

  /** A row that is PENDING, PERSISTENT or BROKEN needs nothing, and without persistence nor does one that
      would be written to disk: at most an empty file is left there. */
  lemma DecidesNothing(c: Config, s: State, id: nat, env: Env)
    requires Read(c, s, id, env) && Present(s, id)
    requires var st := s.rows[s.tasks[id].key].state;
             st in {PENDING, PERSISTENT, BROKEN} || (!c.persist && (st == BACKED_UP || (st == CACHED && c.W < 2)))
    ensures var s', f := Handle(c, s, id, env), s.tasks[id].key;
            s' == s.(tasks := s.tasks - {id},
                     disk := if env.touch && f !in s.disk && s.rows[f].state in {CACHED, BACKED_UP}
                             then s.disk[f := []] else s.disk)
  {
    var s1 := ReadAndPresent(c, s, id, env);
    hide Handle;
    assert s1.tasks - {id} == s.tasks - {id};
  }

  /** On a ring a CACHED file goes to the next node, and then its row is BACKED_UP; whatever fails, the key is
      tried again, and the row stays as it is. */
  lemma DecidesBackup(c: Config, s: State, id: nat, env: Env)
    requires Read(c, s, id, env) && Present(s, id) && c.W >= 2 && s.rows[s.tasks[id].key].state == CACHED
    ensures var s', f, n := Handle(c, s, id, env), s.tasks[id].key, s.tasks[id].node;
            var x := (n + 1) % c.W;
            && |s'.nodes| == c.W && id in s'.tasks && s'.tasks[id] == s.tasks[id] && s'.disk == s.disk
            && s'.nodes[n].dict == s.nodes[n].dict
            && s'.rows == (if env.copyOk && env.updateOk then s.rows[f := s.rows[f].(state := BACKED_UP)] else s.rows)
            && (env.copyOk ==> s'.nodes[x].backup == s.nodes[x].backup[f := Payload(c, s, id)])
            && (!env.copyOk && !(env.reached && env.wrote) ==> s'.nodes == s.nodes)
  {
    var s1 := ReadAndPresent(c, s, id, env);
    hide Handle;
    if env.copyOk || env.reached {
      BackupReached(c, s1, id, env);
    } else {
      BackupNotReached(c, s1, id, env);
    }
    hide AfterChecked;
  }

  /** The checked row leads to a copy to the next node. */
  ghost predicate ToPeer(c: Config, s: State, id: nat, env: Env) {
    && TaskAt(c, s, id) && s.tasks[id].stage.Checked? && CopiesToPeer(c, s.tasks[id].stage.snap)
    && EnvFits(s, env) && OnlyEvictsForeign(s, id) && AtHome(c, s, id)
    && s.rows[s.tasks[id].key] == s.tasks[id].stage.snap
  }

  lemma BackupNotReached(c: Config, s: State, id: nat, env: Env)
    requires ToPeer(c, s, id, env) && !env.copyOk && !env.reached
    ensures var s', t := AfterChecked(c, s, id, env), s.tasks[id];
            && s'.nodes == s.nodes && s'.rows == s.rows && s'.disk == s.disk
            && id in s'.tasks && s'.tasks[id] == t.(stage := Posting)
  {
  }

  lemma BackupReached(c: Config, s: State, id: nat, env: Env)
    requires ToPeer(c, s, id, env) && (env.copyOk || env.reached)
    ensures var s', t := AfterChecked(c, s, id, env), s.tasks[id];
            var x := Next(c, t.node);
            && |s'.nodes| == c.W && id in s'.tasks && s'.tasks[id] == t.(stage := Posting) && s'.disk == s.disk
            && s'.nodes[t.node].dict == s.nodes[t.node].dict
            && s'.rows == (if env.copyOk && env.updateOk
                           then s.rows[t.key := t.stage.snap.(state := BACKED_UP)] else s.rows)
            && (env.copyOk ==> s'.nodes[x].backup == s.nodes[x].backup[t.key := Payload(c, s, id)])
            && (!env.copyOk && !env.wrote ==> s'.nodes == s.nodes)
  {
    BackupByCopy(c, DoBegin(c, s, id), id, env);
    hide AfterBegin;
  }

  lemma BackupByCopy(c: Config, s: State, id: nat, env: Env)
    requires IsSending(c, s, id) && EnvFits(s, env) && AtHome(c, s, id) && c.W >= 2
    requires s.rows[s.tasks[id].key] == s.tasks[id].stage.snap && s.tasks[id].stage.snap.state == CACHED
    ensures var s', t := AfterBegin(c, s, id, env), s.tasks[id];
            var x := Next(c, t.node);
            && |s'.nodes| == c.W && id in s'.tasks && s'.tasks[id] == t.(stage := Posting) && s'.disk == s.disk
            && s'.nodes[t.node].dict == s.nodes[t.node].dict
            && s'.rows == (if env.copyOk && env.updateOk
                           then s.rows[t.key := t.stage.snap.(state := BACKED_UP)] else s.rows)
            && (env.copyOk ==> s'.nodes[x].backup == s.nodes[x].backup[t.key := Payload(c, s, id)])
            && (!env.copyOk && !env.wrote ==> s'.nodes == s.nodes)
  {
    hide AfterMemory;
    var t := s.tasks[id];
    if t.stage.place.Missed? && (env.copyOk || env.wrote) {
      var s1 := DoInstall(c, s, id);
      InstallKeepsHome(c, s, id);
      BackupBySending(c, s1, id, env);
      var x := Next(c, t.node);
      assert s.nodes[x].backup[t.key := Zeros(t.stage.snap.size)][t.key := Payload(c, s, id)]
          == s.nodes[x].backup[t.key := Payload(c, s, id)];
    } else {
      BackupBySending(c, s, id, env);
    }
  }

  lemma BackupBySending(c: Config, s: State, id: nat, env: Env)
    requires IsSending(c, s, id) && EnvFits(s, env) && AtHome(c, s, id) && c.W >= 2
    requires env.copyOk || env.wrote ==> s.tasks[id].stage.place.Live?
    requires s.rows[s.tasks[id].key] == s.tasks[id].stage.snap && s.tasks[id].stage.snap.state == CACHED
    ensures var s', t := AfterMemory(c, s, id, env), s.tasks[id];
            var x := Next(c, t.node);
            && |s'.nodes| == c.W && id in s'.tasks && s'.tasks[id] == t.(stage := Posting) && s'.disk == s.disk
            && s'.nodes[t.node].dict == s.nodes[t.node].dict
            && s'.rows == (if env.copyOk && env.updateOk
                           then s.rows[t.key := t.stage.snap.(state := BACKED_UP)] else s.rows)
            && (env.copyOk ==> s'.nodes[x].backup == s.nodes[x].backup[t.key := Payload(c, s, id)])
            && (!env.copyOk && !env.wrote ==> s'.nodes == s.nodes)
  {
  }

  /** A CACHED file of a single node, or a BACKED_UP one, is written to disk, and then its row is PERSISTENT.
      If the write fails, the single node tries again, and the other gives up. */
  lemma DecidesDisk(c: Config, s: State, id: nat, env: Env)
    requires Read(c, s, id, env) && Present(s, id) && c.persist
    requires var st := s.rows[s.tasks[id].key].state; st == BACKED_UP || (st == CACHED && c.W < 2)
    ensures var s', f := Handle(c, s, id, env), s.tasks[id].key;
            && s'.nodes == s.nodes
            && s'.rows == (if env.copyOk && env.updateOk then s.rows[f := s.rows[f].(state := PERSISTENT)] else s.rows)
            && s'.tasks == (if env.copyOk || s.rows[f].state == CACHED then s.tasks else s.tasks - {id})
            && (env.copyOk ==> s'.disk == s.disk[f := Payload(c, s, id)])
  {
    var s1 := ReadAndPresent(c, s, id, env);
    hide Handle;
    if env.copyOk || env.reached {
      DiskReached(c, s1, id, env);
    } else {
      DiskNotReached(c, s1, id, env);
    }
    hide AfterChecked;
    assert s1.tasks - {id} == s.tasks - {id};
    assert s1.tasks[id := s.tasks[id]] == s.tasks;
  }

  /** The checked row leads to a write to disk. */
  ghost predicate ToDisk(c: Config, s: State, id: nat, env: Env) {
    && TaskAt(c, s, id) && s.tasks[id].stage.Checked? && CopiesToDisk(c, s.tasks[id].stage.snap)
    && EnvFits(s, env) && OnlyEvictsForeign(s, id) && AtHome(c, s, id)
    && s.rows[s.tasks[id].key] == s.tasks[id].stage.snap
  }

  lemma DiskNotReached(c: Config, s: State, id: nat, env: Env)
    requires ToDisk(c, s, id, env) && !env.copyOk && !env.reached
    ensures var s', t := AfterChecked(c, s, id, env), s.tasks[id];
            && s'.nodes == s.nodes && s'.rows == s.rows
            && s'.tasks == if t.stage.snap.state == CACHED then s.tasks[id := t.(stage := Posting)] else s.tasks - {id}
  {
  }

  lemma DiskReached(c: Config, s: State, id: nat, env: Env)
    requires ToDisk(c, s, id, env) && (env.copyOk || env.reached)
    ensures var s', t := AfterChecked(c, s, id, env), s.tasks[id];
            && s'.nodes == s.nodes
            && s'.rows == (if env.copyOk && env.updateOk
                           then s.rows[t.key := t.stage.snap.(state := PERSISTENT)] else s.rows)
            && s'.tasks == (if env.copyOk || t.stage.snap.state == CACHED
                            then s.tasks[id := t.(stage := Posting)] else s.tasks - {id})
            && (env.copyOk ==> s'.disk == s.disk[t.key := Payload(c, s, id)])
  {
    var s1 := DoBegin(c, s, id);
    DiskByCopy(c, s1, id, env);
    hide AfterBegin;
    assert s1.tasks - {id} == s.tasks - {id};
    assert s1.tasks[id := s.tasks[id].(stage := Posting)] == s.tasks[id := s.tasks[id].(stage := Posting)];
    assert s1.disk[s.tasks[id].key := Payload(c, s, id)] == s.disk[s.tasks[id].key := Payload(c, s, id)];
  }

  lemma DiskByCopy(c: Config, s: State, id: nat, env: Env)
    requires IsSending(c, s, id) && EnvFits(s, env) && AtHome(c, s, id) && CopiesToDisk(c, s.tasks[id].stage.snap)
    requires s.rows[s.tasks[id].key] == s.tasks[id].stage.snap
    ensures var s', t := AfterBegin(c, s, id, env), s.tasks[id];
            && s'.nodes == s.nodes
            && s'.rows == (if env.copyOk && env.updateOk
                           then s.rows[t.key := t.stage.snap.(state := PERSISTENT)] else s.rows)
            && s'.tasks == (if env.copyOk || t.stage.snap.state == CACHED
                            then s.tasks[id := t.(stage := Posting)] else s.tasks - {id})
            && (env.copyOk ==> s'.disk == s.disk[t.key := Payload(c, s, id)])
  {
  }

  /** An evicted file: the owner on a ring first has the next node queue the key, and tries again if that
      fails; then the node's copy is freed. */
  lemma DecidesEviction(c: Config, s: State, id: nat, env: Env)
    requires Read(c, s, id, env) && Present(s, id) && s.rows[s.tasks[id].key].state == OBSOLESCENT
    ensures var s', f, n := Handle(c, s, id, env), s.tasks[id].key, s.tasks[id].node;
            var asks := c.W >= 2 && s.rows[f].rank == n;
            && |s'.nodes| == c.W && s'.rows == s.rows && s'.disk == s.disk
            && (asks && !env.copyOk ==>
                  s'.nodes == s.nodes && id in s'.tasks && s'.tasks[id] == s.tasks[id])
            && (!asks || env.copyOk ==>
                  && s'.tasks
                     == (if asks then s.tasks[env.peerId := Task((n + 1) % c.W, f, Posting)] else s.tasks) - {id}
                  && s'.nodes == s.nodes[n := if s.rows[f].rank == n
                                              then s.nodes[n].(dict := s.nodes[n].dict - {f})
                                              else s.nodes[n].(backup := s.nodes[n].backup - {f})])
  {
    var s1 := ReadAndPresent(c, s, id, env);
    hide Handle;
    assert s1.tasks - {id} == s.tasks - {id};
    var peer := Task(Next(c, s.tasks[id].node), s.tasks[id].key, Posting);
    assert s1.tasks[id := s1.tasks[id].(stage := Notified(s.rows[s.tasks[id].key]))][env.peerId := peer] - {id}
        == s.tasks[env.peerId := peer] - {id};
  }
}
