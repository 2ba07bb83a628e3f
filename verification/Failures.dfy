/** The failure overwrite: what a goroutine's copy of the record is, and what writing it back does, in every run of
    the whole service. */
module Failures {
  import opened Records
  import opened Ledgers
  import opened Handlers
  import opened Sessions
  import opened Forge

  /** The goroutine has nothing left to write. */
  predicate Past(t: Task) {
    t.phase == Over || t.phase == Finished
  }

  /** A record as the create request made it, with this saga ID and status: no step has recorded anything in it. */
  function Unbuilt(i: Ident, status: string): Record {
    NewRecord(i.id, i.owner, i.dryRun, i.failAtHealth, i.createdAt).(sagaId := i.sagaId, status := status)
  }

  /** The goroutine's copy never holds anything a step recorded. */
  predicate StaysUnbuilt(t: Task) {
    && t.env == Unbuilt(IdentOf(t.env), t.env.status)
    && (t.env.status == PROVISIONING || (t.env.status == FAILED && Past(t)))
  }

  /** A failed status comes from the overwrite, so only once its goroutine has nothing left to write. */
  ghost predicate Marks(f: Service) {
    && (forall e :: e in f.tasks ==> StaysUnbuilt(f.tasks[e]))
    && (forall e :: e in f.sys.world.store && f.sys.world.store[e].status == FAILED ==>
                      e in f.tasks && Past(f.tasks[e]))
    && (forall h :: h in f.sys.handlers && f.sys.handlers[h].stage.Working?
                    && f.sys.handlers[h].stage.local.status == FAILED
                    ==> h.envId in f.tasks && Past(f.tasks[h.envId]))
  }

  lemma ProceedMarks(t: Task, ev: Happening)
    requires StaysUnbuilt(t)
    ensures
      var (t', wrote) := Proceed(t, ev);
      && StaysUnbuilt(t') && t'.env.id == t.env.id && (Past(t) ==> Past(t'))
      && (t'.env.status == FAILED ==> Past(t'))
  {
  }

  lemma MoveMarks(cfg: Settings, f: Service, ev: Happening)
    requires Rows(f) && Marks(f) && Moves(f, ev)
    ensures Marks(Happen(cfg, f, ev))
  {
    hide Proceed, Effective, StaysUnbuilt, Past, HandlerOk, Served, TaskOk;
    ProceedMarks(f.tasks[ev.id], Effective(f.open, ev));
    TaskNamed(f, ev.id);
  }

  lemma TaskNamed(f: Service, id: string)
    requires Rows(f) && id in f.tasks
    ensures f.tasks[id].env.id == id && 8 <= |id|
  {
    assert TaskOk(f.sys.world.store, id, f.tasks[id]);
  }

  lemma NewMarks(cfg: Settings, f: Service, ev: Happening)
    requires Marks(f) && ApiSide(ev) && !Moves(f, ev)
    ensures Marks(Happen(cfg, f, ev))
  {
    hide Happen, Marks;
    var g := Happen(cfg, f, ev);
    ServedIs(cfg, f, ev);
    if ev.Request? { NewTaskMarks(f, g, ev); } else { SameMarks(f, g); }
  }

  function NewTask(ev: Happening): Task
    requires ev.Request?
  {
    Task(NewRecord(ev.id, ev.owner, ev.dryRun, ev.failAtHealth, ev.now), Accepted, false)
  }

  lemma SameMarks(f: Service, g: Service)
    requires Marks(f) && g.sys == f.sys && g.tasks == f.tasks
    ensures Marks(g)
  {
  }

  lemma NewTaskMarks(f: Service, g: Service, ev: Happening)
    requires Marks(f) && ev.Request? && g.sys == f.sys
    requires g.tasks == f.tasks || (ev.id !in f.tasks && g.tasks == f.tasks[ev.id := NewTask(ev)])
    ensures Marks(g)
  {
    hide StaysUnbuilt, Past;
    assert StaysUnbuilt(NewTask(ev)) by { NewUnbuilt(ev); }
  }

  lemma NewUnbuilt(ev: Happening)
    requires ev.Request?
    ensures StaysUnbuilt(NewTask(ev))
  {
  }

  /** No step sets the failed status. */
  lemma PerformMarks(cfg: Settings, step: Step, a: Action, w: World, r: Record, o: Outcome)
    ensures var v := Perform(cfg, step, a, w, r, o); v.Go? && v.local.status == FAILED ==> r.status == FAILED
  {
    hide Attempt, Short, Skips, PurgeSome, Apply;
    AttemptLocal(cfg, a, w, r, o);
  }

  lemma TickMarks(cfg: Settings, w: World, id: string, handler: Handler, o: Outcome)
    ensures
      var (_, handler') := Tick(cfg, w, id, handler, o);
      handler'.stage.Working? && handler'.stage.local.status == FAILED ==>
        || (handler.stage.Working? && handler.stage.local.status == FAILED)
        || (handler.stage.Loading? && id in w.store && w.store[id].status == FAILED)
  {
    hide Perform, Program;
    if handler.stage.Working? && handler.stage.pc < |handler.stage.prog| {
      PerformMarks(cfg, handler.step, handler.stage.prog[handler.stage.pc], w, handler.stage.local, o);
    }
  }

  lemma WorkMarks(cfg: Settings, f: Service, h: Hid, o: Outcome)
    requires Rows(f) && Marks(f) && h in f.sys.handlers
    ensures Marks(Happen(cfg, f, Work(h, o)))
  {
    hide StaysUnbuilt, Past, HandlerOk, TaskOk, Happen;
    WorkIs(cfg, f, h, o);
    WorkKeepsMark(cfg, f, h, o);
  }

  lemma WorkKeepsMark(cfg: Settings, f: Service, h: Hid, o: Outcome)
    requires h in f.sys.handlers
    ensures
      var g, handler := Happen(cfg, f, Work(h, o)), f.sys.handlers[h];
      && h in g.sys.handlers
      && (g.sys.handlers[h].stage.Working? && g.sys.handlers[h].stage.local.status == FAILED ==>
            || (handler.stage.Working? && handler.stage.local.status == FAILED)
            || (handler.stage.Loading? && h.envId in f.sys.world.store && f.sys.world.store[h.envId].status == FAILED))
  {
    hide Tick, Reached, Served;
    TickMarks(cfg, f.sys.world, h.envId, f.sys.handlers[h], Reached(f, h, o));
  }

  lemma OtherMarks(cfg: Settings, f: Service, ev: Happening)
    requires Marks(f) && !ApiSide(ev) && (ev.Work? ==> ev.h !in f.sys.handlers)
    ensures Marks(Happen(cfg, f, ev))
  {
    hide Tick, StaysUnbuilt, Past, Reached, Served, AckedStep;
  }

  lemma HappenMarks(cfg: Settings, f: Service, ev: Happening)
    requires Rows(f) && Marks(f)
    ensures Marks(Happen(cfg, f, ev))
  {
    hide Rows, Marks, Happen;
    if Moves(f, ev) {
      MoveMarks(cfg, f, ev);
    } else if ApiSide(ev) {
      NewMarks(cfg, f, ev);
    } else if ev.Work? && ev.h in f.sys.handlers {
      WorkMarks(cfg, f, ev.h, ev.o);
    } else {
      OtherMarks(cfg, f, ev);
    }
  }

  lemma {:induction false} HistoryMarks(cfg: Settings, f: Service, evs: seq<Happening>)
    requires Rows(f) && Order(f) && Marks(f)
    ensures var g := History(cfg, f, evs); Rows(g) && Order(g) && Marks(g)
    decreases |evs|
  {
    if evs == [] {
    } else {
      hide Happen, Rows, Order, Marks;
      HappenKeeps(cfg, f, evs[0]);
      HappenMarks(cfg, f, evs[0]);
      HistoryMarks(cfg, Happen(cfg, f, evs[0]), evs[1..]);
    }
  }

  lemma Reachable(cfg: Settings, l: Ledger, issued: map<Key, string>, evs: seq<Happening>)
    ensures var f := History(cfg, Idle(l, issued), evs); Rows(f) && Order(f) && Marks(f)
  {
    hide Happen, Rows, Order;
    IdleOk(l, issued);
    HistoryMarks(cfg, Idle(l, issued), evs);
  }

  /** A failed saga ends with a stale record, in any run: whatever the workers' handlers stored since the saga began,
      the overwrite that is applied replaces the row by the record of the create request, with nothing recorded by any
      step, marked failed. The environment keeps its identity, and no other row changes. */
  lemma FailedSagaEndsStale(cfg: Settings, l: Ledger, issued: map<Key, string>, evs: seq<Happening>, id: EnvId,
                            o: Outcome)
    requires
      var f := History(cfg, Idle(l, issued), evs);
      id in f.tasks && f.tasks[id].phase == Failing && f.open && Applied(o)
    ensures
      var f := History(cfg, Idle(l, issued), evs);
      var g := Happen(cfg, f, FailurePut(id, o));
      && id in f.sys.world.store
      && g.sys.world.store == f.sys.world.store[id := Unbuilt(IdentOf(f.tasks[id].env), FAILED)]
      && (forall step :: !Marked(step, g.sys.world.store[id])) && g.sys.world.store[id].status == "failed"
      && (f.tasks[id].began ==> IdentOf(f.tasks[id].env) == IdentOf(f.sys.world.store[id]))
      && g.sys.world.ledger == f.sys.world.ledger
  {
    hide Rows, Order, Happen, History, Marked, Unbuilt;
    UnbuiltIsUnmarked(IdentOf(History(cfg, Idle(l, issued), evs).tasks[id].env));
    Reachable(cfg, l, issued, evs);
    OverwriteIs(cfg, History(cfg, Idle(l, issued), evs), id, o);
  }

  lemma OverwriteIs(cfg: Settings, f: Service, id: EnvId, o: Outcome)
    requires Rows(f) && Marks(f) && id in f.tasks && f.tasks[id].phase == Failing && f.open && Applied(o)
    ensures
      var g := Happen(cfg, f, FailurePut(id, o));
      && id in f.sys.world.store && f.sys.world.store[id].status != FAILED
      && g.sys.world.store == f.sys.world.store[id := Unbuilt(IdentOf(f.tasks[id].env), FAILED)]
      && (f.tasks[id].began ==> IdentOf(f.tasks[id].env) == IdentOf(f.sys.world.store[id]))
      && g.sys.world.ledger == f.sys.world.ledger
  {
    hide HandlerOk, Served, TaskOk, StaysUnbuilt;
    var t := f.tasks[id];
    assert TaskOk(f.sys.world.store, id, t) && StaysUnbuilt(t);
    FailingRow(f.sys.world.store, id, t);
  }

  lemma FailingRow(store: map<string, Record>, id: EnvId, t: Task)
    requires TaskOk(store, id, t) && StaysUnbuilt(t) && t.phase == Failing
    ensures id in store && t.env.id == id && t.env.(status := FAILED) == Unbuilt(IdentOf(t.env), FAILED)
    ensures t.began ==> IdentOf(t.env) == IdentOf(store[id])
  {
  }

  lemma UnbuiltIsUnmarked(i: Ident)
    ensures Unbuilt(i, FAILED).status == "failed" && forall step :: !Marked(step, Unbuilt(i, FAILED))
  {
  }
}
