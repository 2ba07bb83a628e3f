/** The whole service: forge-api's request handlers and provisioning goroutines, each with its own copy of a record,
    beside forge-worker's handlers over the same store (internal/apiserver/server.go, cmd/forge-api/main.go). */
module Forge {
  import opened Records
  import opened Ledgers
  import opened Handlers
  import opened Sessions

  /** How far POST /envs/create and the goroutine it starts have come. */
  datatype Phase =
    | Accepted     // request validated, nothing written
    | Rejected     // the first Put failed
    | Stored       // the record is written, the goroutine not yet registered
    | Registered   // wg.Add(1), the goroutine is about to create the saga
    | SagaMade     // the saga has an ID, in memory only
    | Persisted    // the saga ID is stored
    | Started      // saga-conductor runs the saga
    | Failing      // Provision returned an error
    | Over         // nothing left but wg.Done
    | Finished

  /** env is the goroutine's copy of the record; began tells whether the saga was ever started. */
  datatype Task = Task(env: Record, phase: Phase, began: bool)

  /** An open connection: the next request can be read from it, or one is being handled. */
  datatype Conn = Ready | Busy(id: string)

  /** How ListenAndServe came back: not yet, through wg.Wait, or at once because serving failed. */
  datatype Exit = Serving | Waited | ServeFailed

  /** down: the lifecycle context is cancelled. open: the store is not closed. */
  datatype Service = Service(sys: Sys, tasks: map<string, Task>, count: int, conns: map<string, Conn>,
                             listening: bool, down: bool, exit: Exit, open: bool)

  datatype Happening =
    | Connect(c: string)
    | Hangup(c: string)
    | Request(c: string, id: EnvId, owner: string, dryRun: bool, failAtHealth: bool, now: nat)
    | Reply(c: string)
    | FirstPut(id: EnvId, o: Outcome)
    | Register(id: EnvId)
    | CreateSaga(id: EnvId, o: Outcome)
    | PersistSaga(id: EnvId, o: Outcome)
    | StartSaga(id: EnvId)
    | SagaEnds(id: EnvId, failed: bool)
    | FailurePut(id: EnvId, o: Outcome)
    | Done(id: EnvId)
    | Shutdown
    | Return
    | ServeFails
    | CloseStore
    | Deliver(h: Hid, step: Step, dir: Direction)
    | Work(h: Hid, o: Outcome)
    | Die(h: Hid)

  function Idle(l: Ledger, issued: map<Key, string>): Service {
    Service(Sys(World(map[], l, issued), map[]), map[], 0, map[], true, false, Serving, true)
  }

  /** One move of a task, and whether it writes its copy to the store. */
  function Proceed(t: Task, ev: Happening): (Task, bool) {
    match ev
    case FirstPut(_, o) =>
      if t.phase != Accepted then (t, false) else (t.(phase := if o.Ok? then Stored else Rejected), Applied(o))
    case Register(_) =>
      (if t.phase != Stored then t else t.(phase := Registered), false)
    case CreateSaga(_, o) =>
      (if t.phase != Registered then t
       else if o.Ok? then t.(phase := SagaMade, env := t.env.(sagaId := o.value))
       else t.(phase := Failing), false)
    case PersistSaga(_, o) =>
      if t.phase != SagaMade then (t, false) else (t.(phase := if o.Ok? then Persisted else Failing), Applied(o))
    case StartSaga(_) =>
      (if t.phase != Persisted then t else t.(phase := Started, began := true), false)
    case SagaEnds(_, failed) =>
      (if t.phase != Started then t else t.(phase := if failed then Failing else Over), false)
    case FailurePut(_, o) =>
      if t.phase != Failing then (t, false) else (t.(phase := Over, env := t.env.(status := FAILED)), Applied(o))
    case Done(_) =>
      (if t.phase != Over then t else t.(phase := Finished), false)
    case _ => (t, false)
  }

  /** What the move adds to the wait counter. */
  function Counted(before: Phase, after: Phase): int {
    if before == Stored && after == Registered then 1 else if before == Over && after == Finished then -1 else 0
  }

  function Written(store: map<string, Record>, r: Record, wrote: bool): map<string, Record> {
    if wrote then store[r.id := r] else store
  }

  /** A forward delivery of this step was acknowledged. */
  ghost predicate AckedStep(f: Service, id: string, step: Step) {
    exists h: Hid :: h in f.sys.handlers && h.envId == id && f.sys.handlers[h] == Handler(step, Forward, Replied(Acked))
  }

  /** The conductor sends a step for a started saga only, and a forward step once its predecessor is acknowledged. */
  ghost predicate MaySend(f: Service, id: string, step: Step, dir: Direction) {
    && id in f.tasks && f.tasks[id].began
    && (dir == Forward ==> forall i | 0 < i < |STEPS| && STEPS[i] == step :: AckedStep(f, id, STEPS[i - 1]))
  }

  predicate OfTask(ev: Happening) {
    match ev
    case FirstPut(_, _) => true
    case Register(_) => true
    case CreateSaga(_, _) => true
    case PersistSaga(_, _) => true
    case StartSaga(_) => true
    case SagaEnds(_, _) => true
    case FailurePut(_, _) => true
    case Done(_) => true
    case _ => false
  }

  /** An event of forge-api that moves an existing task. */
  predicate Moves(f: Service, ev: Happening) {
    OfTask(ev) && ev.id in f.tasks
  }

  /** A create request that was let in and has not reached wg.Add. */
  predicate InFlight(phase: Phase) {
    phase == Accepted || phase == Stored
  }

  /** A closed store refuses every access. */
  function Effective(open: bool, ev: Happening): Happening {
    if open then ev
    else
      match ev
      case FirstPut(id, _) => FirstPut(id, Fail)
      case PersistSaga(id, _) => PersistSaga(id, Fail)
      case FailurePut(id, _) => FailurePut(id, Fail)
      case _ => ev
  }

  /** The same for a handler that is to read or store its record. */
  function Reached(f: Service, h: Hid, o: Outcome): Outcome {
    if f.open || h !in f.sys.handlers then o
    else
      match f.sys.handlers[h].stage
      case Loading => Fail
      case Working(_, prog, pc) => if pc < |prog| && prog[pc] == Put then Fail else o
      case _ => o
  }

  /** A request is answered; after a shutdown its connection is not used again. */
  function Answered(f: Service, c: string): map<string, Conn> {
    if f.down then f.conns - {c} else f.conns[c := Ready]
  }

  /** What concerns connections and the server itself. */
  function Served(f: Service, ev: Happening): Service {
    match ev
    case Connect(c) => if f.listening && c !in f.conns then f.(conns := f.conns[c := Ready]) else f
    case Hangup(c) => f.(conns := f.conns - {c})
    case Request(c, id, owner, dryRun, fail, now) =>
      if c !in f.conns || f.conns[c] != Ready || id in f.tasks then f
      else if owner == "" then f.(conns := Answered(f, c))
      else f.(conns := f.conns[c := Busy(id)],
           tasks := f.tasks[id := Task(NewRecord(id, owner, dryRun, fail, now), Accepted, false)])
    case Reply(c) =>
      if c !in f.conns || f.conns[c] == Ready || (f.conns[c].id in f.tasks && InFlight(f.tasks[f.conns[c].id].phase))
      then f
      else f.(conns := Answered(f, c))
    case Shutdown => f.(down := true, listening := false)
    case Return => if f.down && f.exit == Serving && f.count == 0 then f.(exit := Waited) else f
    case ServeFails => if !f.down && f.exit == Serving then f.(listening := false, exit := ServeFailed) else f
    case CloseStore => if f.exit == Serving then f else f.(open := false)
    case _ => f
  }

  /** One event; an event that is not possible changes nothing. */
  ghost function Happen(cfg: Settings, f: Service, ev: Happening): Service {
    if Moves(f, ev) then
      var t := f.tasks[ev.id];
      var (t', wrote) := Proceed(t, Effective(f.open, ev));
      f.(tasks := f.tasks[ev.id := t'], count := f.count + Counted(t.phase, t'.phase),
      sys := f.sys.(world := f.sys.world.(store := Written(f.sys.world.store, t'.env, wrote))))
    else
      match ev
      case Deliver(h, step, dir) =>
        if MaySend(f, h.envId, step, dir) then f.(sys := Advance(cfg, f.sys, Arrive(h, step, dir))) else f
      case Work(h, o) => f.(sys := Advance(cfg, f.sys, Act(h, Reached(f, h, o))))
      case Die(h) => f.(sys := Advance(cfg, f.sys, Crash(h)))
      case _ => Served(f, ev)
  }

  ghost function History(cfg: Settings, f: Service, evs: seq<Happening>): Service
    decreases |evs|
  {
    if evs == [] then f else History(cfg, Happen(cfg, f, evs[0]), evs[1..])
  }

  // ----- the invariant -----

  /** The stored record of a task, seen from the goroutine's copy. */
  predicate TaskOk(store: map<string, Record>, id: string, t: Task) {
    && t.env.id == id && t.env.status != READY
    && (id in store ==> IdentOf(store[id]).(sagaId := "") == IdentOf(t.env).(sagaId := ""))
    && (t.began ==> id in store && store[id].sagaId == t.env.sagaId && t.phase in {Started, Failing, Over, Finished})
    && (!t.began && id in store ==> store[id].status != READY && store[id].sagaId in {"", t.env.sagaId})
    && match t.phase
       case Accepted => id !in store && t.env.sagaId == ""
       case Rejected => t.env.sagaId == ""
       case Stored => id in store && t.env.sagaId == ""
       case Registered => id in store && t.env.sagaId == ""
       case SagaMade => id in store && store[id].sagaId == ""
       case Persisted => id in store && store[id].sagaId == t.env.sagaId
       case Started => t.began
       case _ => id in store
  }

  predicate HandlerOk(ident: Ident, handler: Handler) {
    var health := handler.step == Health && handler.dir == Forward;
    match handler.stage
    case Working(local, prog, pc) =>
      && IdentOf(local) == ident
      && (Fill in prog ==> handler.dir == Forward)
      && (health ==> prog == [Check, Probe] && (pc >= 2 ==> !ident.failAtHealth))
    case Replied(answer) => health && answer == Acked ==> !ident.failAtHealth
    case _ => true
  }

  ghost predicate Sent(f: Service, id: string, step: Step) {
    exists h: Hid :: h in f.sys.handlers && h.envId == id && f.sys.handlers[h].step == step
                     && f.sys.handlers[h].dir == Forward
  }

  /** Tasks and records belong together, handlers only exist once the saga has begun. */
  ghost predicate Rows(f: Service) {
    && (forall e :: e in f.tasks ==> TaskOk(f.sys.world.store, e, f.tasks[e]))
    && (forall e :: e in f.sys.world.store ==> e in f.tasks)
    && (forall h :: h in f.sys.handlers ==>
                      h.envId in f.tasks && f.tasks[h.envId].began
                      && HandlerOk(IdentOf(f.tasks[h.envId].env), f.sys.handlers[h]))
  }

  /** The order of forward steps, and where a ready status can come from. */
  ghost predicate Order(f: Service) {
    && (forall h: Hid, i :: h in f.sys.handlers && f.sys.handlers[h].dir == Forward && 0 < i < |STEPS|
                            && STEPS[i] == f.sys.handlers[h].step
                            ==> AckedStep(f, h.envId, STEPS[i - 1]))
    && (forall e :: e in f.sys.world.store && f.sys.world.store[e].status == READY ==> Sent(f, e, Registry))
    && (forall h :: h in f.sys.handlers && f.sys.handlers[h].stage.Working?
                    && f.sys.handlers[h].stage.local.status == READY
                    ==> Sent(f, h.envId, Registry))
  }

  // ----- what handlers do to records -----

  lemma AttemptLocal(cfg: Settings, a: Action, w: World, r: Record, o: Outcome)
    ensures
      var v := Attempt(cfg, a, w, r, o);
      v.Go? ==> IdentOf(v.local) == IdentOf(r) && v.local.status == r.status
  {
    hide Intent, Legal, Apply, Short;
  }

  lemma PerformLocal(cfg: Settings, step: Step, a: Action, w: World, r: Record, o: Outcome)
    ensures
      var v := Perform(cfg, step, a, w, r, o);
      && (v.Go? ==> IdentOf(v.local) == IdentOf(r))
      && (v.Go? && v.local.status == READY ==> r.status == READY || (a == Fill && step == Registry))
      && (v.Stop? && v.answer == Acked ==> a == Check && step != Health)
      && (v.Go? && a == Probe ==> !r.failAtHealth)
  {
    hide Attempt, Short, Skips, PurgeSome, Apply;
    AttemptLocal(cfg, a, w, r, o);
    AttemptAnswers(cfg, a, w, r, o);
  }

  lemma AttemptAnswers(cfg: Settings, a: Action, w: World, r: Record, o: Outcome)
    ensures Attempt(cfg, a, w, r, o).Stop? ==> Attempt(cfg, a, w, r, o).answer == Refused
  {
    hide Intent, Legal, Apply, Updated;
  }

  lemma ProgramFacts(cfg: Settings, step: Step, dir: Direction, r: Record)
    ensures Fill in Program(cfg, step, dir, r) ==> dir == Forward
    ensures step == Health && dir == Forward ==> Program(cfg, step, dir, r) == [Check, Probe]
  {
  }

  /** One step of one handler: who it is for stays, and so does the order of the saga. */
  lemma TickOk(cfg: Settings, w: World, id: string, handler: Handler, o: Outcome, ident: Ident)
    requires HandlerOk(ident, handler) && ident.id == id && (id in w.store ==> IdentOf(w.store[id]) == ident)
    ensures
      var (w', handler') := Tick(cfg, w, id, handler, o);
      && handler'.step == handler.step && handler'.dir == handler.dir && HandlerOk(ident, handler')
      && (handler.stage == Replied(Acked) ==> handler' == handler)
      && (w'.store == w.store || (handler.stage.Working? && w'.store == w.store[id := handler.stage.local]))
      && (handler'.stage.Working? && handler'.stage.local.status == READY ==>
            || (handler.stage.Working? && handler.stage.local.status == READY)
            || (handler.stage.Loading? && id in w.store && w.store[id].status == READY)
            || (handler.step == Registry && handler.dir == Forward))
  {
    hide Perform, Program;
    if handler.stage.Loading? {
      if id in w.store { ProgramFacts(cfg, handler.step, handler.dir, w.store[id]); }
    } else if handler.stage.Working? && handler.stage.pc < |handler.stage.prog| {
      var a := handler.stage.prog[handler.stage.pc];
      PerformLocal(cfg, handler.step, a, w, handler.stage.local, o);
      PerformStores(cfg, handler.step, a, w, handler.stage.local, o);
    }
  }

  // ----- preservation -----

  /** What a later state keeps of an earlier one: handlers' acknowledgements and deliveries. */
  ghost predicate Remembers(f: Service, g: Service) {
    forall h :: h in f.sys.handlers ==>
                  && h in g.sys.handlers && g.sys.handlers[h].step == f.sys.handlers[h].step
                  && g.sys.handlers[h].dir == f.sys.handlers[h].dir
                  && (f.sys.handlers[h].stage == Replied(Acked) ==> g.sys.handlers[h].stage == Replied(Acked))
  }

  lemma RememberedAck(f: Service, g: Service, id: string, step: Step)
    requires Remembers(f, g) && AckedStep(f, id, step)
    ensures AckedStep(g, id, step)
  {
    var h: Hid :| h in f.sys.handlers && h.envId == id && f.sys.handlers[h] == Handler(step, Forward, Replied(Acked));
    assert g.sys.handlers[h] == Handler(step, Forward, Replied(Acked));
  }

  lemma RememberedSent(f: Service, g: Service, id: string, step: Step)
    requires Remembers(f, g) && Sent(f, id, step)
    ensures Sent(g, id, step)
  {
    var h: Hid :| h in f.sys.handlers && h.envId == id && f.sys.handlers[h].step == step
                  && f.sys.handlers[h].dir == Forward;
    assert h in g.sys.handlers;
  }

  predicate ApiSide(ev: Happening) {
    !ev.Deliver? && !ev.Work? && !ev.Die?
  }

  /** One move of a task, on its own row. */
  lemma ProceedOk(store: map<string, Record>, id: string, t: Task, ev: Happening)
    requires TaskOk(store, id, t)
    ensures
      var (t', wrote) := Proceed(t, ev);
      var store' := Written(store, t'.env, wrote);
      && TaskOk(store', id, t')
      && (t.began ==> t'.began && IdentOf(t'.env) == IdentOf(t.env))
      && (id in store ==>
            && id in store'
            && IdentOf(store'[id]).(sagaId := "") == IdentOf(store[id]).(sagaId := "")
            && (store[id].sagaId != "" || t.began ==> store'[id].sagaId == store[id].sagaId))
  {
  }

  lemma OtherTaskOk(store: map<string, Record>, store': map<string, Record>, id: string, t: Task)
    requires TaskOk(store, id, t)
    requires (id in store <==> id in store') && (id in store ==> store[id] == store'[id])
    ensures TaskOk(store', id, t)
  {
  }

  lemma ApiRows(cfg: Settings, f: Service, ev: Happening)
    requires ApiSide(ev) && Rows(f)
    ensures Rows(Happen(cfg, f, ev))
  {
    hide Rows, Happen;
    if Moves(f, ev) { MoveRows(cfg, f, ev); } else { ServedRows(cfg, f, ev); }
  }

  /** Connections and the server's own state concern no handler and no record; only a request brings a task. */
  lemma ServedIs(cfg: Settings, f: Service, ev: Happening)
    requires ApiSide(ev) && !Moves(f, ev)
    ensures
      var g := Happen(cfg, f, ev);
      && g.sys == f.sys && g.count == f.count
      && (g.tasks == f.tasks
          || (ev.Request? && ev.id !in f.tasks
              && g.tasks == f.tasks[ev.id := Task(NewRecord(ev.id, ev.owner, ev.dryRun, ev.failAtHealth, ev.now),
                                                  Accepted, false)]))
  {
    hide Answered;
  }

  lemma MoveRows(cfg: Settings, f: Service, ev: Happening)
    requires Moves(f, ev) && Rows(f)
    ensures Rows(Happen(cfg, f, ev))
  {
    hide HandlerOk, TaskOk, Proceed, Effective, Served;
    var g := Happen(cfg, f, ev);
    ProceedOk(f.sys.world.store, ev.id, f.tasks[ev.id], Effective(f.open, ev));
    TaskId(g.sys.world.store, ev.id, g.tasks[ev.id]);
    forall e | e in f.tasks && e != ev.id ensures TaskOk(g.sys.world.store, e, f.tasks[e]) {
      OtherTaskOk(f.sys.world.store, g.sys.world.store, e, f.tasks[e]);
    }
  }

  lemma ServedRows(cfg: Settings, f: Service, ev: Happening)
    requires ApiSide(ev) && !Moves(f, ev) && Rows(f)
    ensures Rows(Happen(cfg, f, ev))
  {
    hide HandlerOk, TaskOk, Happen, Served;
    ServedIs(cfg, f, ev);
    if ev.Request? && ev.id !in f.tasks { NewTaskOk(f.sys.world.store, ev); }
  }

  lemma TaskId(store: map<string, Record>, id: string, t: Task)
    requires TaskOk(store, id, t)
    ensures t.env.id == id && t.env.status != READY
  {
  }

  lemma NewTaskOk(store: map<string, Record>, ev: Happening)
    requires ev.Request? && ev.id !in store
    ensures TaskOk(store, ev.id, Task(NewRecord(ev.id, ev.owner, ev.dryRun, ev.failAtHealth, ev.now), Accepted, false))
  {
  }

  lemma ApiKeeps(cfg: Settings, f: Service, ev: Happening)
    requires ApiSide(ev) && Rows(f)
    ensures var g := Happen(cfg, f, ev);
            && g.sys.handlers == f.sys.handlers
            && forall e :: e in g.sys.world.store && g.sys.world.store[e].status == READY ==>
                             e in f.sys.world.store && f.sys.world.store[e].status == READY
  {
    hide HandlerOk, TaskOk, Proceed, AckedStep, Effective;
    if Moves(f, ev) {
      ProceedOk(f.sys.world.store, ev.id, f.tasks[ev.id], Effective(f.open, ev));
      TaskId(Happen(cfg, f, ev).sys.world.store, ev.id, Happen(cfg, f, ev).tasks[ev.id]);
    }
  }

  lemma WorkerRows(cfg: Settings, f: Service, ev: Happening)
    requires !ApiSide(ev) && Rows(f)
    ensures Rows(Happen(cfg, f, ev)) && Remembers(f, Happen(cfg, f, ev))
  {
    hide Happen, Rows, Remembers;
    if ev.Work? && ev.h in f.sys.handlers { WorkRows(cfg, f, ev.h, ev.o); } else { OtherRows(cfg, f, ev); }
  }

  /** A delivery arrives, or a handler dies. */
  lemma OtherRows(cfg: Settings, f: Service, ev: Happening)
    requires !ApiSide(ev) && Rows(f) && (ev.Work? ==> ev.h !in f.sys.handlers)
    ensures Rows(Happen(cfg, f, ev)) && Remembers(f, Happen(cfg, f, ev))
  {
    hide HandlerOk, AckedStep, Tick, TaskOk, Rows, Remembers;
    if ev.Deliver? {
      NewHandlerOk(ev.step, ev.dir);
      if ev.h !in f.sys.handlers && MaySend(f, ev.h.envId, ev.step, ev.dir) {
        OneHandlerRows(f, ev.h, Handler(ev.step, ev.dir, Loading));
      } else {
        NothingRows(f);
      }
    } else if ev.Die? && ev.h in f.sys.handlers && !f.sys.handlers[ev.h].stage.Replied? {
      Begun(f, ev.h);
      DeadHandlerOk(IdentOf(f.tasks[ev.h.envId].env), f.sys.handlers[ev.h]);
      OneHandlerRows(f, ev.h, f.sys.handlers[ev.h].(stage := Dead));
    } else {
      NothingRows(f);
    }
  }

  lemma Begun(f: Service, h: Hid)
    requires Rows(f) && h in f.sys.handlers
    ensures h.envId in f.tasks && f.tasks[h.envId].began
  {
  }

  lemma NothingRows(f: Service)
    requires Rows(f)
    ensures Rows(f) && Remembers(f, f)
  {
  }

  lemma OneHandlerRows(f: Service, h: Hid, handler: Handler)
    requires Rows(f) && h.envId in f.tasks && f.tasks[h.envId].began
             && HandlerOk(IdentOf(f.tasks[h.envId].env), handler)
    requires h in f.sys.handlers ==>
               f.sys.handlers[h].step == handler.step && f.sys.handlers[h].dir == handler.dir
               && !f.sys.handlers[h].stage.Replied?
    ensures var g := f.(sys := f.sys.(handlers := f.sys.handlers[h := handler])); Rows(g) && Remembers(f, g)
  {
    hide HandlerOk, TaskOk;
  }

  /** One step of one handler: the handler's own stage, and the store: the same, or with its copy as its environment's
      row. */
  lemma WorkIs(cfg: Settings, f: Service, h: Hid, o: Outcome)
    requires Rows(f) && h in f.sys.handlers
    ensures
      var g, id, handler := Happen(cfg, f, Work(h, o)), h.envId, f.sys.handlers[h];
      && id in f.tasks && f.tasks[id].began && id in f.sys.world.store
      && IdentOf(f.sys.world.store[id]) == IdentOf(f.tasks[id].env)
      && g.tasks == f.tasks && h in g.sys.handlers && g.sys.handlers == f.sys.handlers[h := g.sys.handlers[h]]
      && var store, store', handler' := f.sys.world.store, g.sys.world.store, g.sys.handlers[h];
      && handler'.step == handler.step && handler'.dir == handler.dir && HandlerOk(IdentOf(f.tasks[id].env), handler')
      && (handler.stage == Replied(Acked) ==> handler' == handler)
      && (store' == store || (handler.stage.Working? && store' == store[id := handler.stage.local]))
      && (handler'.stage.Working? && handler'.stage.local.status == READY ==>
            || (handler.stage.Working? && handler.stage.local.status == READY)
            || (handler.stage.Loading? && id in store && store[id].status == READY)
            || (handler.step == Registry && handler.dir == Forward))
  {
    hide HandlerOk, Tick, TaskOk, Reached, Served;
    var id := h.envId;
    BegunRow(f.sys.world.store, id, f.tasks[id]);
    TickOk(cfg, f.sys.world, id, f.sys.handlers[h], Reached(f, h, o), IdentOf(f.tasks[id].env));
  }

  lemma WorkRows(cfg: Settings, f: Service, h: Hid, o: Outcome)
    requires Rows(f) && h in f.sys.handlers
    ensures Rows(Happen(cfg, f, Work(h, o))) && Remembers(f, Happen(cfg, f, Work(h, o)))
  {
    hide HandlerOk, TaskOk, Happen;
    var id := h.envId;
    var store' := Happen(cfg, f, Work(h, o)).sys.world.store;
    WorkIs(cfg, f, h, o);
    if f.sys.handlers[h].stage.Working? { WorkingIdent(f, h); }
    TasksStayOk(f, store', id);
  }

  /** The row of a begun task is replaced by one with the same identity. */
  lemma TasksStayOk(f: Service, store': map<string, Record>, id: string)
    requires Rows(f) && id in f.tasks && f.tasks[id].began && id in f.sys.world.store
    requires store' == f.sys.world.store
             || (id in store' && IdentOf(store'[id]) == IdentOf(f.tasks[id].env)
                 && store' == f.sys.world.store[id := store'[id]])
    ensures forall e :: e in f.tasks ==> TaskOk(store', e, f.tasks[e])
    ensures forall e :: e in store' ==> e in f.tasks
  {
    hide TaskOk, HandlerOk;
    if store' != f.sys.world.store { BegunTaskOk(f.sys.world.store, store', id, f.tasks[id]); }
    forall e | e in f.tasks ensures TaskOk(store', e, f.tasks[e]) {
      if e != id { OtherTaskOk(f.sys.world.store, store', e, f.tasks[e]); }
    }
  }

  lemma BegunRow(store: map<string, Record>, id: string, t: Task)
    requires TaskOk(store, id, t) && t.began
    ensures id in store && IdentOf(store[id]) == IdentOf(t.env) && t.env.id == id
  {
  }

  lemma BegunTaskOk(store: map<string, Record>, store': map<string, Record>, id: string, t: Task)
    requires TaskOk(store, id, t) && t.began && id in store' && IdentOf(store'[id]) == IdentOf(t.env)
    ensures TaskOk(store', id, t)
  {
  }

  lemma WorkingIdent(f: Service, h: Hid)
    requires Rows(f) && h in f.sys.handlers && f.sys.handlers[h].stage.Working?
    ensures h.envId in f.tasks && IdentOf(f.sys.handlers[h].stage.local) == IdentOf(f.tasks[h.envId].env)
  {
  }

  lemma NewHandlerOk(step: Step, dir: Direction)
    ensures forall ident :: HandlerOk(ident, Handler(step, dir, Loading))
  {
  }

  lemma DeadHandlerOk(ident: Ident, handler: Handler)
    ensures HandlerOk(ident, handler.(stage := Dead))
  {
  }

  lemma HappenKeeps(cfg: Settings, f: Service, ev: Happening)
    requires Rows(f) && Order(f)
    ensures var g := Happen(cfg, f, ev); Rows(g) && Order(g) && Remembers(f, g)
  {
    var g := Happen(cfg, f, ev);
    if ApiSide(ev) {
      ApiRows(cfg, f, ev);
      ApiKeeps(cfg, f, ev);
      hide Happen, TaskOk, HandlerOk;
      OrderFollows(f, g);
    } else {
      WorkerRows(cfg, f, ev);
      WorkerOrder(cfg, f, ev);
    }
  }

  lemma OrderFollows(f: Service, g: Service)
    requires Order(f) && g.sys.handlers == f.sys.handlers
    requires forall e :: e in g.sys.world.store && g.sys.world.store[e].status == READY ==>
                           e in f.sys.world.store && f.sys.world.store[e].status == READY
    ensures Order(g)
  {
    forall e | e in g.sys.world.store && g.sys.world.store[e].status == READY ensures Sent(g, e, Registry) {
      RememberedSent(f, g, e, Registry);
    }
    forall h: Hid, i | h in g.sys.handlers && g.sys.handlers[h].dir == Forward && 0 < i < |STEPS|
                       && STEPS[i] == g.sys.handlers[h].step
      ensures AckedStep(g, h.envId, STEPS[i - 1])
    {
      RememberedAck(f, g, h.envId, STEPS[i - 1]);
    }
    forall h: Hid | h in g.sys.handlers && g.sys.handlers[h].stage.Working?
                    && g.sys.handlers[h].stage.local.status == READY
      ensures Sent(g, h.envId, Registry)
    {
      RememberedSent(f, g, h.envId, Registry);
    }
  }

  lemma WorkerOrder(cfg: Settings, f: Service, ev: Happening)
    requires !ApiSide(ev) && Rows(f) && Order(f) && Remembers(f, Happen(cfg, f, ev))
    ensures Order(Happen(cfg, f, ev))
  {
    hide Happen, Rows, Order, Remembers;
    if ev.Work? && ev.h in f.sys.handlers { WorkOrder(cfg, f, ev.h, ev.o); } else { OtherOrder(cfg, f, ev); }
  }

  /** Deliveries and crashes: new handlers have read nothing, and were allowed. */
  lemma OtherIs(cfg: Settings, f: Service, ev: Happening)
    requires !ApiSide(ev) && (ev.Work? ==> ev.h !in f.sys.handlers)
    ensures
      var g := Happen(cfg, f, ev);
      && g.sys.world == f.sys.world && g.tasks == f.tasks
      && forall h :: h in g.sys.handlers ==>
                       var handler := g.sys.handlers[h];
                       if h in f.sys.handlers
                       then handler in {f.sys.handlers[h], f.sys.handlers[h].(stage := Dead)}
                       else handler.stage.Loading? && MaySend(f, h.envId, handler.step, handler.dir)
  {
    hide Tick, Served, Reached, Effective, Proceed, AckedStep;
  }

  lemma OtherOrder(cfg: Settings, f: Service, ev: Happening)
    requires !ApiSide(ev) && Order(f) && Remembers(f, Happen(cfg, f, ev)) && (ev.Work? ==> ev.h !in f.sys.handlers)
    ensures Order(Happen(cfg, f, ev))
  {
    hide Happen, Remembers, AckedStep, Sent;
    var g := Happen(cfg, f, ev);
    OtherIs(cfg, f, ev);
    forall e | e in g.sys.world.store && g.sys.world.store[e].status == READY ensures Sent(g, e, Registry) {
      RememberedSent(f, g, e, Registry);
    }
    forall h: Hid, i | h in g.sys.handlers && g.sys.handlers[h].dir == Forward && 0 < i < |STEPS|
                       && STEPS[i] == g.sys.handlers[h].step
      ensures AckedStep(g, h.envId, STEPS[i - 1])
    {
      assert AckedStep(f, h.envId, STEPS[i - 1]);
      RememberedAck(f, g, h.envId, STEPS[i - 1]);
    }
    forall h: Hid | h in g.sys.handlers && g.sys.handlers[h].stage.Working?
                    && g.sys.handlers[h].stage.local.status == READY
      ensures Sent(g, h.envId, Registry)
    {
      RememberedSent(f, g, h.envId, Registry);
    }
  }

  lemma WorkOrder(cfg: Settings, f: Service, h0: Hid, o: Outcome)
    requires Rows(f) && Order(f) && h0 in f.sys.handlers && Remembers(f, Happen(cfg, f, Work(h0, o)))
    ensures Order(Happen(cfg, f, Work(h0, o)))
  {
    hide HandlerOk, AckedStep, Sent, Remembers, TaskOk, Happen;
    var g := Happen(cfg, f, Work(h0, o));
    WorkReady(cfg, f, h0, o);
    forall e | e in g.sys.world.store && g.sys.world.store[e].status == READY ensures Sent(g, e, Registry) {
      assert Sent(f, e, Registry);
      RememberedSent(f, g, e, Registry);
    }
    forall h: Hid | h in g.sys.handlers && g.sys.handlers[h].stage.Working?
                    && g.sys.handlers[h].stage.local.status == READY
      ensures Sent(g, h.envId, Registry)
    {
      assert Sent(f, h.envId, Registry);
      RememberedSent(f, g, h.envId, Registry);
    }
    AcksFollow(f, g);
  }

  /** A ready status, stored or at hand, was there before or comes from a registry step. */
  lemma WorkReady(cfg: Settings, f: Service, h0: Hid, o: Outcome)
    requires Rows(f) && Order(f) && h0 in f.sys.handlers
    ensures
      var g := Happen(cfg, f, Work(h0, o));
      && g.sys.handlers.Keys == f.sys.handlers.Keys
      && (forall e :: e in g.sys.world.store && g.sys.world.store[e].status == READY ==> Sent(f, e, Registry))
      && forall h :: h in g.sys.handlers && g.sys.handlers[h].stage.Working? ==>
                       g.sys.handlers[h].stage.local.status == READY ==> Sent(f, h.envId, Registry)
  {
    hide HandlerOk, AckedStep, Sent, TaskOk, Happen;
    WorkIs(cfg, f, h0, o);
    if f.sys.handlers[h0].step == Registry && f.sys.handlers[h0].dir == Forward { SentNow(f, h0); }
  }

  /** No delivery is new: each still has its predecessor acknowledged. */
  lemma AcksFollow(f: Service, g: Service)
    requires Order(f) && Remembers(f, g) && g.sys.handlers.Keys == f.sys.handlers.Keys
    ensures
      forall h: Hid, i :: h in g.sys.handlers && g.sys.handlers[h].dir == Forward && 0 < i < |STEPS|
                          && STEPS[i] == g.sys.handlers[h].step
                          ==> AckedStep(g, h.envId, STEPS[i - 1])
  {
    hide AckedStep, Sent;
    forall h: Hid, i | h in g.sys.handlers && g.sys.handlers[h].dir == Forward && 0 < i < |STEPS|
                       && STEPS[i] == g.sys.handlers[h].step
      ensures AckedStep(g, h.envId, STEPS[i - 1])
    {
      assert h in f.sys.handlers.Keys;
      assert AckedStep(f, h.envId, STEPS[i - 1]);
      RememberedAck(f, g, h.envId, STEPS[i - 1]);
    }
  }

  lemma SentNow(f: Service, h: Hid)
    requires h in f.sys.handlers && f.sys.handlers[h].dir == Forward
    ensures Sent(f, h.envId, f.sys.handlers[h].step)
  {
  }

  lemma {:induction false} HistoryKeeps(cfg: Settings, f: Service, evs: seq<Happening>)
    requires Rows(f) && Order(f)
    ensures var g := History(cfg, f, evs); Rows(g) && Order(g)
    decreases |evs|
  {
    if evs == [] {
    } else {
      hide Happen, Rows, Order;
      HappenKeeps(cfg, f, evs[0]);
      HistoryKeeps(cfg, Happen(cfg, f, evs[0]), evs[1..]);
    }
  }

  lemma IdleOk(l: Ledger, issued: map<Key, string>)
    ensures Rows(Idle(l, issued)) && Order(Idle(l, issued))
  {
  }

  // ----- the results -----

  /** Nothing about who the environment is for changes; the saga ID is written once. */
  ghost predicate SameIdentity(f: Service, g: Service, id: string) {
    id in f.sys.world.store ==>
      && id in g.sys.world.store
      && var i, j := IdentOf(f.sys.world.store[id]), IdentOf(g.sys.world.store[id]);
      && i.(sagaId := "") == j.(sagaId := "")
      && (i.sagaId != "" || (id in f.tasks && f.tasks[id].began) ==> i == j)
      && (id in f.tasks && f.tasks[id].began ==> id in g.tasks && g.tasks[id].began)
  }

  lemma HappenIdentity(cfg: Settings, f: Service, ev: Happening, id: string)
    requires Rows(f)
    ensures SameIdentity(f, Happen(cfg, f, ev), id)
  {
    hide Rows, SameIdentity, Happen;
    if Moves(f, ev) {
      MoveIdentity(cfg, f, ev, id);
    } else if ev.Work? && ev.h in f.sys.handlers {
      WorkIdentity(cfg, f, ev.h, ev.o, id);
    } else {
      OtherIdentity(cfg, f, ev, id);
    }
  }

  lemma MoveIdentity(cfg: Settings, f: Service, ev: Happening, id: string)
    requires Rows(f) && Moves(f, ev)
    ensures SameIdentity(f, Happen(cfg, f, ev), id)
  {
    hide HandlerOk, Proceed, TaskOk, Effective, Served;
    ProceedOk(f.sys.world.store, ev.id, f.tasks[ev.id], Effective(f.open, ev));
    TaskId(Happen(cfg, f, ev).sys.world.store, ev.id, Happen(cfg, f, ev).tasks[ev.id]);
  }

  lemma WorkIdentity(cfg: Settings, f: Service, h: Hid, o: Outcome, id: string)
    requires Rows(f) && h in f.sys.handlers
    ensures SameIdentity(f, Happen(cfg, f, Work(h, o)), id)
  {
    hide HandlerOk, TaskOk, Happen;
    WorkIs(cfg, f, h, o);
    BegunRow(f.sys.world.store, h.envId, f.tasks[h.envId]);
    if f.sys.handlers[h].stage.Working? { WorkingIdent(f, h); }
  }

  lemma OtherIdentity(cfg: Settings, f: Service, ev: Happening, id: string)
    requires Rows(f) && !Moves(f, ev) && (ev.Work? ==> ev.h !in f.sys.handlers)
    ensures SameIdentity(f, Happen(cfg, f, ev), id)
  {
    hide HandlerOk, TaskOk;
    if ApiSide(ev) {
      hide Happen, Rows;
      ServedIs(cfg, f, ev);
    } else {
      hide Happen, MaySend, AckedStep;
      OtherIs(cfg, f, ev);
    }
  }

  lemma {:induction false} HistoryIdentity(cfg: Settings, f: Service, evs: seq<Happening>, id: string)
    requires Rows(f) && Order(f)
    ensures SameIdentity(f, History(cfg, f, evs), id)
    decreases |evs|
  {
    if evs == [] {
    } else {
      hide Happen, Rows, Order;
      HappenKeeps(cfg, f, evs[0]);
      HappenIdentity(cfg, f, evs[0], id);
      HistoryIdentity(cfg, Happen(cfg, f, evs[0]), evs[1..], id);
    }
  }

  /** Identity fields are stable: from any reachable state on, whatever races with whatever, no write changes or drops
      an environment's ID, owner, dry-run flag, creation time or injected-failure flag, nor its saga ID once set. */
  lemma IdentityStable(cfg: Settings, l: Ledger, issued: map<Key, string>, before: seq<Happening>,
                       after: seq<Happening>, id: string)
    ensures
      var f := History(cfg, Idle(l, issued), before);
      SameIdentity(f, History(cfg, f, after), id)
  {
    hide Rows, Order;
    IdleOk(l, issued);
    HistoryKeeps(cfg, Idle(l, issued), before);
    HistoryIdentity(cfg, History(cfg, Idle(l, issued), before), after, id);
  }

  /** The saga ID is stored before any step can run: every copy a handler works on carries it. */
  lemma HandlersSeeTheSaga(cfg: Settings, l: Ledger, issued: map<Key, string>, evs: seq<Happening>, h: Hid)
    ensures
      var f := History(cfg, Idle(l, issued), evs);
      h in f.sys.handlers ==>
        && h.envId in f.tasks && h.envId in f.sys.world.store
        && f.sys.world.store[h.envId].sagaId == f.tasks[h.envId].env.sagaId
        && (f.sys.handlers[h].stage.Working? ==>
              IdentOf(f.sys.handlers[h].stage.local) == IdentOf(f.sys.world.store[h.envId]))
  {
    hide Order, Happen;
    IdleOk(l, issued);
    HistoryKeeps(cfg, Idle(l, issued), evs);
  }

  /** A stored ready status means every one of the first seven steps was acknowledged, health among them. */
  lemma ReadyMeansAllAcked(cfg: Settings, l: Ledger, issued: map<Key, string>, evs: seq<Happening>, id: string, i: nat)
    requires i < 7
    ensures
      var f := History(cfg, Idle(l, issued), evs);
      id in f.sys.world.store && f.sys.world.store[id].status == "ready" ==> AckedStep(f, id, STEPS[i])
  {
    var f := History(cfg, Idle(l, issued), evs);
    IdleOk(l, issued);
    HistoryKeeps(cfg, Idle(l, issued), evs);
    if id in f.sys.world.store && f.sys.world.store[id].status == READY {
      var h: Hid :| h in f.sys.handlers && h.envId == id && f.sys.handlers[h].step == Registry
                    && f.sys.handlers[h].dir == Forward;
      assert STEPS[7] == f.sys.handlers[h].step;
      EarlierAcked(f, id, i);
    }
  }

  lemma {:induction false} EarlierAcked(f: Service, id: string, i: nat)
    requires i < 7 && Order(f) && AckedStep(f, id, STEPS[6])
    ensures AckedStep(f, id, STEPS[i])
    decreases 7 - i
  {
    if i < 6 {
      EarlierAcked(f, id, i + 1);
      var h: Hid :| h in f.sys.handlers && h.envId == id
                    && f.sys.handlers[h] == Handler(STEPS[i + 1], Forward, Replied(Acked));
      assert STEPS[i + 1] == f.sys.handlers[h].step;
    }
  }

  lemma AckedHealthPassed(f: Service, id: string)
    requires Rows(f) && AckedStep(f, id, Health)
    ensures id in f.tasks && !f.tasks[id].env.failAtHealth
  {
    var h: Hid :| h in f.sys.handlers && h.envId == id && f.sys.handlers[h] == Handler(Health, Forward, Replied(Acked));
    assert HandlerOk(IdentOf(f.tasks[id].env), f.sys.handlers[h]);
  }

  lemma FlaggedNeverReady(cfg: Settings, l: Ledger, issued: map<Key, string>, evs: seq<Happening>, id: string)
    ensures
      var f := History(cfg, Idle(l, issued), evs);
      id in f.sys.world.store && f.sys.world.store[id].failAtHealth ==> f.sys.world.store[id].status != READY
  {
    hide Order, AckedStep, HandlerOk, Happen;
    var f := History(cfg, Idle(l, issued), evs);
    IdleOk(l, issued);
    HistoryKeeps(cfg, Idle(l, issued), evs);
    ReadyMeansAllAcked(cfg, l, issued, evs, id, 6);
    if AckedStep(f, id, Health) {
      AckedHealthPassed(f, id);
      assert id in f.sys.world.store ==> TaskOk(f.sys.world.store, id, f.tasks[id]);
    }
  }

  /** The goroutine's copy keeps what the request said. */
  predicate Keeps(before: Record, after: Record) {
    && after.id == before.id && after.owner == before.owner && after.dryRun == before.dryRun
    && after.createdAt == before.createdAt && after.failAtHealth == before.failAtHealth
  }

  lemma HappenKeepsCopy(cfg: Settings, f: Service, ev: Happening, id: string)
    requires id in f.tasks
    ensures id in Happen(cfg, f, ev).tasks && Keeps(f.tasks[id].env, Happen(cfg, f, ev).tasks[id].env)
  {
    if Moves(f, ev) {
      hide Effective, Served, Advance;
    } else if ApiSide(ev) {
      hide Happen;
      ServedIs(cfg, f, ev);
    } else {
      hide Advance, AckedStep, Reached, Served;
    }
  }

  lemma {:induction false} HistoryKeepsCopy(cfg: Settings, f: Service, evs: seq<Happening>, id: string)
    requires id in f.tasks
    ensures id in History(cfg, f, evs).tasks && Keeps(f.tasks[id].env, History(cfg, f, evs).tasks[id].env)
    decreases |evs|
  {
    if evs == [] {
    } else {
      hide Happen;
      HappenKeepsCopy(cfg, f, evs[0], id);
      HistoryKeepsCopy(cfg, Happen(cfg, f, evs[0]), evs[1..], id);
    }
  }

  lemma {:induction false} HistorySplits(cfg: Settings, f: Service, before: seq<Happening>, after: seq<Happening>)
    ensures History(cfg, f, before + after) == History(cfg, History(cfg, f, before), after)
    decreases |before|
  {
    hide Happen;
    if before == [] {
      assert [] + after == after;
    } else {
      assert (before + after)[0] == before[0] && (before + after)[1..] == before[1..] + after;
      HistorySplits(cfg, Happen(cfg, f, before[0]), before[1..], after);
    }
  }

  /** A create request that is let in: read from an open connection, with an owner, under an ID that is new. */
  predicate Accepts(f: Service, ev: Happening) {
    ev.Request? && ev.c in f.conns && f.conns[ev.c] == Ready && ev.id !in f.tasks && ev.owner != ""
  }

  lemma AcceptsIff(cfg: Settings, f: Service, ev: Happening)
    requires ev.Request? && ev.id !in f.tasks
    ensures ev.id in Happen(cfg, f, ev).tasks <==> Accepts(f, ev)
  {
    hide AckedStep;
  }

  /** What a create request says is what every later state of the service knows about its environment, in the
      goroutine's copy and in the stored record. */
  lemma RequestIsKept(cfg: Settings, l: Ledger, issued: map<Key, string>, before: seq<Happening>, ev: Happening,
                      after: seq<Happening>)
    requires Accepts(History(cfg, Idle(l, issued), before), ev)
    ensures
      var f := History(cfg, Idle(l, issued), before + [ev] + after);
      && ev.id in f.tasks
      && (ev.id in f.sys.world.store ==>
            var r := f.sys.world.store[ev.id];
            && r.id == ev.id && r.owner == ev.owner && r.dryRun == ev.dryRun && r.failAtHealth == ev.failAtHealth
            && r.createdAt == ev.now)
  {
    hide Happen, History, Rows, Order;
    var f := History(cfg, Idle(l, issued), before);
    var g := Happen(cfg, f, ev);
    HistorySplits(cfg, Idle(l, issued), before + [ev], after);
    HistorySplits(cfg, Idle(l, issued), before, [ev]);
    OneHappens(cfg, f, ev);
    AcceptedTask(cfg, f, ev);
    HistoryKeepsCopy(cfg, g, after, ev.id);
    IdleOk(l, issued);
    HistoryKeeps(cfg, Idle(l, issued), before + [ev] + after);
    if ev.id in History(cfg, g, after).sys.world.store { CopyAgrees(History(cfg, g, after), ev.id); }
  }

  lemma NewHasOwner(cfg: Settings, f: Service, ev: Happening, e: string)
    requires e in Happen(cfg, f, ev).tasks && e !in f.tasks
    ensures Happen(cfg, f, ev).tasks[e].env.owner != ""
  {
    hide Proceed, Effective, Advance, AckedStep, Reached;
  }

  lemma HappenKeepsOwners(cfg: Settings, f: Service, ev: Happening)
    requires forall e :: e in f.tasks ==> f.tasks[e].env.owner != ""
    ensures forall e :: e in Happen(cfg, f, ev).tasks ==> Happen(cfg, f, ev).tasks[e].env.owner != ""
  {
    hide Happen;
    forall e | e in Happen(cfg, f, ev).tasks && e in f.tasks
      ensures Happen(cfg, f, ev).tasks[e].env.owner != ""
    {
      HappenKeepsCopy(cfg, f, ev, e);
    }
    forall e | e in Happen(cfg, f, ev).tasks && e !in f.tasks
      ensures Happen(cfg, f, ev).tasks[e].env.owner != ""
    {
      NewHasOwner(cfg, f, ev, e);
    }
  }

  lemma {:induction false} HistoryKeepsOwners(cfg: Settings, f: Service, evs: seq<Happening>)
    requires forall e :: e in f.tasks ==> f.tasks[e].env.owner != ""
    ensures forall e :: e in History(cfg, f, evs).tasks ==> History(cfg, f, evs).tasks[e].env.owner != ""
    decreases |evs|
  {
    if evs == [] {
    } else {
      hide Happen;
      HappenKeepsOwners(cfg, f, evs[0]);
      HistoryKeepsOwners(cfg, Happen(cfg, f, evs[0]), evs[1..]);
    }
  }

  /** A request without an owner never becomes an environment. */
  lemma EveryRecordHasOwner(cfg: Settings, l: Ledger, issued: map<Key, string>, evs: seq<Happening>, id: string)
    ensures
      var f := History(cfg, Idle(l, issued), evs);
      id in f.sys.world.store ==> id in f.tasks && f.sys.world.store[id].owner == f.tasks[id].env.owner != ""
  {
    hide Happen, History, Rows, Order;
    IdleOk(l, issued);
    HistoryKeeps(cfg, Idle(l, issued), evs);
    HistoryKeepsOwners(cfg, Idle(l, issued), evs);
    var f := History(cfg, Idle(l, issued), evs);
    if id in f.sys.world.store { StoredIsTask(f, id); }
  }

  lemma StoredIsTask(f: Service, id: string)
    requires Rows(f) && id in f.sys.world.store
    ensures id in f.tasks && f.sys.world.store[id].owner == f.tasks[id].env.owner
  {
    hide HandlerOk;
    assert id in f.tasks ==> TaskOk(f.sys.world.store, id, f.tasks[id]);
  }

  lemma OneHappens(cfg: Settings, f: Service, ev: Happening)
    ensures History(cfg, f, [ev]) == Happen(cfg, f, ev)
  {
    hide Happen;
    assert [ev][1..] == [];
    assert History(cfg, f, [ev]) == History(cfg, Happen(cfg, f, ev), []);
  }

  lemma AcceptedTask(cfg: Settings, f: Service, ev: Happening)
    requires Accepts(f, ev)
    ensures
      var g := Happen(cfg, f, ev);
      && ev.id in g.tasks
      && var r := g.tasks[ev.id].env;
      && r.id == ev.id && r.owner == ev.owner && r.dryRun == ev.dryRun && r.failAtHealth == ev.failAtHealth
      && r.createdAt == ev.now
  {
  }

  lemma CopyAgrees(f: Service, id: string)
    requires Rows(f) && id in f.tasks && id in f.sys.world.store
    ensures Keeps(f.tasks[id].env, f.sys.world.store[id])
  {
    hide HandlerOk;
    assert TaskOk(f.sys.world.store, id, f.tasks[id]);
  }

  /** Injected failure is safe: an environment whose create request asked for the failure at health is never stored as
      ready, at whatever later moment. */
  lemma InjectedFailureNeverReady(cfg: Settings, l: Ledger, issued: map<Key, string>, before: seq<Happening>,
                                  ev: Happening, after: seq<Happening>)
    requires Accepts(History(cfg, Idle(l, issued), before), ev) && ev.failAtHealth
    ensures
      var f := History(cfg, Idle(l, issued), before + [ev] + after);
      ev.id in f.sys.world.store ==> f.sys.world.store[ev.id].status != "ready"
  {
    hide Happen, History;
    RequestIsKept(cfg, l, issued, before, ev, after);
    FlaggedNeverReady(cfg, l, issued, before + [ev] + after, ev.id);
  }
}
