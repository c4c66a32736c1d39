/** What holds in every run. */
module LifecycleTheorems {
  import opened Lifecycle
  import opened Options
  import opened LifecycleInvariant
  import opened LifecycleFrame
  import opened LifecycleSteps
  import opened LifecycleWork
  import opened LifecycleTidy
  import opened LifecycleCache

  // ---------------------------------------------------------------- all events at once

  ghost predicate Safe(rule: Rule, c: Config, s: State) {
    && Inv(c, s) && CacheInv(c, s)
    && (rule != LateHandlers ==> s.replaced == {})
    && (c.W >= 2 && rule != LateHandlers ==> AliveInv(c, s))
    && (c.W >= 2 && rule == QuietEviction ==> TidyInv(c, s))
  }

  lemma NotesOnly(c: Config, s: State, e: Event)
    requires CanHappen(c, s, e) && Notes(e)
    ensures e.n < |s.nodes| == c.W && Apply(c, s, e) == SetEviction(s, e.n, Apply(c, s, e).nodes[e.n].eviction)
  {
  }

  lemma StepInvOutside(rule: Rule, c: Config, s: State, e: Event)
    requires Strict(rule) && Inv(c, s) && CacheInv(c, s) && Permits(rule, c, s, e)
    requires FromOutside(e) && !Notes(e)
    ensures Inv(c, Apply(c, s, e))
  {
    hide DoCreate, DoFinishEvict, DoMarkEvict, DoComplete, DoUserWrite;
    match e
    case Create(n, req, allocOk) => KeepCreate(c, s, n, req, allocOk);
    case MarkEvict(n, id) => CacheByMarkEvict(c, s, n, id); KeepMarkEvict(c, s, n, id);
    case FinishEvict(n, allocOk) => KeepFinishEvict(c, s, n, allocOk);
    case Complete(n, f, id) => KeepComplete(c, s, n, f, id);
    case UserWrite(n, f, data) => KeepUserWrite(c, s, n, f, data);
    case _ =>
  }

  lemma StepInvWork(rule: Rule, c: Config, s: State, e: Event)
    requires Inv(c, s) && CanHappen(c, s, e) && !FromOutside(e)
    ensures Inv(c, Apply(c, s, e))
  {
    hide DoFetch, DoCheck, DoSkip, DoBegin, DoInstall, DoArrive, DoFail, DoFinish, DoUpdate, DoNotify, DoDelete;
    hide DoLateSave;
    match e
    case Push(id) => KeepPush(c, s, id);
    case Fetch(id, ok) => KeepFetch(c, s, id, ok);
    case Check(id, ok) => KeepCheck(c, s, id, ok);
    case Skip(id, touch) => KeepSkip(c, s, id, touch);
    case Begin(id) => KeepBegin(c, s, id);
    case Install(id) => KeepInstall(c, s, id);
    case Arrive(id, data) => KeepArrive(c, s, id, data);
    case Fail(id, post, lingers) => KeepFail(c, s, id, post, lingers);
    case Finish(id, post) => KeepFinish(c, s, id, post);
    case Update(id, ok) => KeepUpdate(c, s, id, ok);
    case Notify(id, ok, post) => KeepNotify(c, s, id, ok, post);
    case Delete(id) => KeepDelete(c, s, id);
    case LateSave(l, last) => KeepLateSave(c, s, l, last);
    case _ =>
  }

  lemma StepInv(rule: Rule, c: Config, s: State, e: Event)
    requires Strict(rule) && Inv(c, s) && CacheInv(c, s) && Permits(rule, c, s, e)
    ensures Inv(c, Apply(c, s, e))
  {
    hide Apply, CanHappen, Inv, CacheInv;
    if !FromOutside(e) {
      StepInvWork(rule, c, s, e);
    } else if Notes(e) {
      NotesOnly(c, s, e);
      BookkeepingKeeps(c, s, e.n, Apply(c, s, e).nodes[e.n]);
    } else {
      StepInvOutside(rule, c, s, e);
    }
  }

  lemma StepCache(rule: Rule, c: Config, s: State, e: Event)
    requires Strict(rule) && Inv(c, s) && CacheInv(c, s) && Permits(rule, c, s, e)
    ensures CacheInv(c, Apply(c, s, e))
  {
    hide DoCreate, DoFinishEvict, DoMarkEvict, DoComplete, DoUserWrite;
    match e
    case Create(n, req, allocOk) =>
      if req.iteration.Some? {
        BookkeepingKeeps(c, s, n, s.nodes[n].(iters := s.nodes[n].iters + [req.iteration.value]));
      }
      CacheByCreate(c, s, n, req, allocOk);
    case BeginEvict(n, req, todo) => CacheByBeginEvict(c, s, n, req, todo);
    case Reread(n) => CacheByReread(c, s, n);
    case MarkEvict(n, id) => CacheByMarkEvict(c, s, n, id);
    case EvictNext(n) => CacheByEvictNext(c, s, n);
    case AbortEvict(n) => CacheByEviction(c, s, n, Idle);
    case FinishEvict(n, allocOk) =>
      var req := s.nodes[n].eviction.req;
      var iters := s.nodes[n].iters[1..] + [req.iteration.value];
      BookkeepingKeeps(c, s, n, s.nodes[n].(eviction := Idle, iters := iters));
      CacheByFinishEvict(c, s, n, allocOk);
    case Complete(n, f, id) => CacheByComplete(c, s, n, f, id);
    case UserWrite(n, f, data) => CacheByUserWrite(c, s, n, f, data);
    case Begin(id) => CacheByBegin(c, s, id);
    case Install(id) => CacheByInstall(c, s, id);
    case Arrive(id, data) => CacheByArrive(c, s, id, data);
    case Fail(id, post, lingers) => CacheByFail(c, s, id, post, lingers);
    case Finish(id, post) => CacheByFinish(c, s, id, post);
    case Update(id, ok) => CacheByUpdate(c, s, id, ok);
    case Delete(id) => CacheByDelete(c, s, id);
    case LateSave(l, last) => CacheByLateSave(c, s, l, last);
    case Report(_, _, _, _) =>
    case Stray(_, _, _) =>
    case _ => CacheByTask(c, s, e);
  }

  lemma StepAliveSave(rule: Rule, c: Config, s: State, e: Event)
    requires c.W >= 2 && AliveInv(c, s) && CanHappen(c, s, e) && Saves(e)
    ensures AliveInv(c, Apply(c, s, e))
  {
    hide CreateEntry;
    match e
    case Create(n, req, allocOk) =>
      if req.iteration.Some? {
        AliveByBookkeeping(c, s, n, s.nodes[n].(iters := s.nodes[n].iters + [req.iteration.value]));
      }
      AliveByCreateEntry(c, PushIteration(s, n, req.iteration), n, req, allocOk);
    case FinishEvict(n, allocOk) =>
      var req := s.nodes[n].eviction.req;
      var node := s.nodes[n].(eviction := Idle, iters := s.nodes[n].iters[1..] + [req.iteration.value]);
      AliveByBookkeeping(c, s, n, node);
      AliveByCreateEntry(c, SetNode(s, n, node), n, req, allocOk);
  }

  lemma StepAliveOutside(rule: Rule, c: Config, s: State, e: Event)
    requires Strict(rule) && c.W >= 2 && Inv(c, s) && CacheInv(c, s) && AliveInv(c, s)
    requires Permits(rule, c, s, e)
    requires FromOutside(e) && !Notes(e) && !Saves(e)
    ensures AliveInv(c, Apply(c, s, e))
  {
    hide DoMarkEvict, DoComplete, DoUserWrite;
    match e
    case MarkEvict(n, id) => CacheByMarkEvict(c, s, n, id); AliveByMarkEvict(c, s, n, id);
    case Complete(n, f, id) => AliveByComplete(c, s, n, f, id);
    case UserWrite(n, f, data) => AliveByUserWrite(c, s, n, f, data);
    case _ =>
  }

  lemma StepAliveWork(rule: Rule, c: Config, s: State, e: Event)
    requires Strict(rule) && c.W >= 2 && Inv(c, s) && CacheInv(c, s) && AliveInv(c, s)
    requires Permits(rule, c, s, e)
    requires !FromOutside(e) && !e.LateSave?
    ensures AliveInv(c, Apply(c, s, e))
  {
    hide DoFetch, DoCheck, DoSkip, DoBegin, DoInstall, DoArrive, DoFail, DoFinish, DoUpdate, DoNotify, DoDelete;
    match e
    case Push(id) => assert FileOk(c, s, s.tasks[id].key); AliveByStage(c, s, id, Queued);
    case Fetch(id, ok) => AliveByFetch(c, s, id, ok);
    case Check(id, ok) => AliveByCheck(c, s, id, ok);
    case Skip(id, touch) => AliveBySkip(c, s, id, touch);
    case Begin(id) => AliveByBegin(c, s, id);
    case Install(id) => AliveByInstall(c, s, id);
    case Arrive(id, data) => AliveByArrive(c, s, id, data);
    case Fail(id, post, lingers) => AliveByFail(c, s, id, post, lingers);
    case Finish(id, post) => AliveByFinish(c, s, id, post);
    case Update(id, ok) => AliveByUpdate(c, s, id, ok);
    case Notify(id, ok, post) => AliveByNotify(c, s, id, ok, post);
    case Delete(id) => AliveByDelete(c, s, id);
    case _ =>
  }

  lemma StepAlive(rule: Rule, c: Config, s: State, e: Event)
    requires Strict(rule) && rule != LateHandlers && c.W >= 2 && Inv(c, s) && CacheInv(c, s) && AliveInv(c, s)
    requires Permits(rule, c, s, e)
    ensures AliveInv(c, Apply(c, s, e))
  {
    hide Apply, CanHappen, Inv, CacheInv, AliveInv;
    if !FromOutside(e) {
      StepAliveWork(rule, c, s, e);
    } else if Notes(e) {
      NotesOnly(c, s, e);
      AliveByBookkeeping(c, s, e.n, Apply(c, s, e).nodes[e.n]);
    } else if Saves(e) {
      StepAliveSave(rule, c, s, e);
    } else {
      StepAliveOutside(rule, c, s, e);
    }
  }

  lemma StepTidySave(c: Config, s: State, e: Event)
    requires c.W >= 2 && Inv(c, s) && TidyInv(c, s) && Permits(QuietEviction, c, s, e) && Saves(e)
    ensures TidyInv(c, Apply(c, s, e))
  {
    hide CreateEntry;
    match e
    case Create(n, req, allocOk) =>
      if req.iteration.Some? {
        var node := s.nodes[n].(iters := s.nodes[n].iters + [req.iteration.value]);
        TidyByBookkeeping(c, s, n, node);
        BookkeepingKeeps(c, s, n, node);
      }
      TidyByCreateEntry(c, PushIteration(s, n, req.iteration), n, req, allocOk);
    case FinishEvict(n, allocOk) =>
      var req := s.nodes[n].eviction.req;
      var node := s.nodes[n].(eviction := Idle, iters := s.nodes[n].iters[1..] + [req.iteration.value]);
      TidyByBookkeeping(c, s, n, node);
      BookkeepingKeeps(c, s, n, node);
      TidyByCreateEntry(c, SetNode(s, n, node), n, req, allocOk);
  }

  lemma StepTidyOutside(c: Config, s: State, e: Event)
    requires c.W >= 2 && Inv(c, s) && CacheInv(c, s) && TidyInv(c, s) && Permits(QuietEviction, c, s, e)
    requires FromOutside(e) && !Notes(e) && !Saves(e)
    ensures TidyInv(c, Apply(c, s, e))
  {
    hide DoMarkEvict, DoComplete, DoUserWrite;
    match e
    case MarkEvict(n, id) => CacheByMarkEvict(c, s, n, id); TidyByMarkEvict(c, s, n, id);
    case Complete(n, f, id) => TidyByComplete(c, s, n, f, id);
    case UserWrite(n, f, data) => TidyByUserWrite(c, s, n, f, data);
    case _ =>
  }

  lemma StepTidyWork(c: Config, s: State, e: Event)
    requires c.W >= 2 && Inv(c, s) && CacheInv(c, s) && TidyInv(c, s) && Permits(QuietEviction, c, s, e)
    requires !FromOutside(e)
    ensures TidyInv(c, Apply(c, s, e))
  {
    hide DoFetch, DoCheck, DoSkip, DoBegin, DoInstall, DoArrive, DoFail, DoFinish, DoUpdate, DoNotify, DoDelete;
    match e
    case Push(id) => TidyByPush(c, s, id);
    case Fetch(id, ok) => TidyByFetch(c, s, id, ok);
    case Check(id, ok) => TidyByCheck(c, s, id, ok);
    case Skip(id, touch) => TidyBySkip(c, s, id, touch);
    case Begin(id) => TidyByBegin(c, s, id);
    case Install(id) => TidyByInstall(c, s, id);
    case Arrive(id, data) => TidyByArrive(c, s, id, data);
    case Fail(id, post, lingers) => TidyByFail(c, s, id, post, lingers);
    case Finish(id, post) => TidyByFinish(c, s, id, post);
    case Update(id, ok) => TidyByUpdate(c, s, id, ok);
    case Notify(id, ok, post) => TidyByNotify(c, s, id, ok, post);
    case Delete(id) => TidyByDelete(c, s, id);
    case _ =>
  }

  lemma StepTidy(c: Config, s: State, e: Event)
    requires c.W >= 2 && Inv(c, s) && CacheInv(c, s) && TidyInv(c, s) && Permits(QuietEviction, c, s, e)
    ensures TidyInv(c, Apply(c, s, e))
  {
    hide Apply, CanHappen, Inv, CacheInv, TidyInv;
    if !FromOutside(e) {
      StepTidyWork(c, s, e);
    } else if Notes(e) {
      NotesOnly(c, s, e);
      TidyByBookkeeping(c, s, e.n, Apply(c, s, e).nodes[e.n]);
    } else if Saves(e) {
      StepTidySave(c, s, e);
    } else {
      StepTidyOutside(c, s, e);
    }
  }

  /** Only a late handler replaces a backup. */
  lemma ReplacedOnlyByLate(c: Config, s: State, e: Event)
    requires CanHappen(c, s, e) && !e.LateSave?
    ensures Apply(c, s, e).replaced <= s.replaced
  {
    hide Apply, CanHappen;
    if FromOutside(e) { OutsideReplacesNothing(c, s, e); } else { WorkReplacesNothing(c, s, e); }
  }

  lemma OutsideReplacesNothing(c: Config, s: State, e: Event)
    requires CanHappen(c, s, e) && FromOutside(e)
    ensures Apply(c, s, e).replaced == s.replaced && Apply(c, s, e).late == s.late
  {
  }

  lemma WorkReplacesNothing(c: Config, s: State, e: Event)
    requires CanHappen(c, s, e) && !FromOutside(e) && !e.LateSave?
    ensures Apply(c, s, e).replaced <= s.replaced
  {
  }

  lemma StepSafe(rule: Rule, c: Config, s: State, e: Event)
    requires Strict(rule) && Safe(rule, c, s) && Permits(rule, c, s, e)
    ensures Safe(rule, c, Apply(c, s, e))
  {
    hide Apply, CanHappen, Inv, CacheInv, AliveInv, TidyInv;
    StepInv(rule, c, s, e);
    StepCache(rule, c, s, e);
    if rule != LateHandlers { ReplacedOnlyByLate(c, s, e); }
    if c.W >= 2 && rule != LateHandlers {
      StepAlive(rule, c, s, e);
      if rule == QuietEviction { StepTidy(c, s, e); }
    }
  }

  lemma InitSafe(rule: Rule, c: Config)
    requires c.W >= 1
    ensures Safe(rule, c, InitState(c))
  {
    var s := InitState(c);
    forall f ensures FileOk(c, s, f) && Alive(c, s, f) && Tidy(c, s, f) {}
  }

  lemma {:induction false} RunSafe(rule: Rule, c: Config, s: State, es: seq<Event>)
    requires Strict(rule) && Safe(rule, c, s) && Runs(rule, c, s, es)
    ensures Safe(rule, c, After(rule, c, s, es))
    decreases |es|
  {
    if es != [] {
      StepSafe(rule, c, s, es[0]);
      RunSafe(rule, c, Apply(c, s, es[0]), es[1..]);
    }
  }

  lemma ReachableSafe(rule: Rule, c: Config, s: State)
    requires Strict(rule) && Reachable(rule, c, s)
    ensures Safe(rule, c, s)
  {
    var es :| Runs(rule, c, InitState(c), es) && After(rule, c, InitState(c), es) == s;
    InitSafe(rule, c);
    RunSafe(rule, c, InitState(c), es);
  }
}
