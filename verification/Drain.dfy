/** Shutdown of forge-api: what waiting for the provisioning goroutines does and does not guarantee. */
module Drain {
  import opened Records
  import opened Ledgers
  import opened Handlers
  import opened Sessions
  import opened Forge
  import opened Failures

  /** Registered with the wait group and not yet done. */
  predicate Active(phase: Phase) {
    phase in {Registered, SagaMade, Persisted, Started, Failing, Over}
  }

  ghost function ActiveTasks(f: Service): set<string> {
    set e | e in f.tasks && Active(f.tasks[e].phase)
  }

  lemma CountFollows(cfg: Settings, f: Service, ev: Happening)
    requires f.count == |ActiveTasks(f)|
    ensures Happen(cfg, f, ev).count == |ActiveTasks(Happen(cfg, f, ev))|
  {
    hide Advance, AckedStep, Reached, Answered, Effective, Written, Active, Counted, Proceed;
    var g := Happen(cfg, f, ev);
    if Moves(f, ev) {
      PhaseCounts(f.tasks[ev.id], Effective(f.open, ev));
      OneTaskCounts(f, g, ev.id);
    } else {
      NewTasksAreNot(cfg, f, ev);
    }
  }

  lemma NewTasksAreNot(cfg: Settings, f: Service, ev: Happening)
    requires !Moves(f, ev)
    ensures var g := Happen(cfg, f, ev); g.count == f.count && ActiveTasks(g) == ActiveTasks(f)
  {
    if ApiSide(ev) {
      hide Happen;
      ServedIs(cfg, f, ev);
    } else {
      hide Advance, AckedStep, Reached, Served;
    }
  }

  /** What a move of a task adds to the counter is what it adds to the active tasks. */
  lemma PhaseCounts(t: Task, ev: Happening)
    ensures
      var t' := Proceed(t, ev).0;
      Counted(t.phase, t'.phase) == (if Active(t'.phase) then 1 else 0) - (if Active(t.phase) then 1 else 0)
  {
  }

  lemma OneTaskCounts(f: Service, g: Service, id: string)
    requires id in f.tasks && id in g.tasks && g.tasks == f.tasks[id := g.tasks[id]]
    ensures
      var p, q := f.tasks[id].phase, g.tasks[id].phase;
      |ActiveTasks(g)| == |ActiveTasks(f)| + (if Active(q) then 1 else 0) - (if Active(p) then 1 else 0)
  {
    hide Active;
    var p, q := f.tasks[id].phase, g.tasks[id].phase;
    if Active(p) && !Active(q) {
      assert ActiveTasks(g) == ActiveTasks(f) - {id};
    } else if !Active(p) && Active(q) {
      assert ActiveTasks(g) == ActiveTasks(f) + {id};
    } else {
      assert ActiveTasks(g) == ActiveTasks(f);
    }
  }

  lemma {:induction false} CountFollowsHistory(cfg: Settings, f: Service, evs: seq<Happening>)
    requires f.count == |ActiveTasks(f)|
    ensures History(cfg, f, evs).count == |ActiveTasks(History(cfg, f, evs))|
    decreases |evs|
  {
    if evs == [] {
    } else {
      hide Happen, ActiveTasks;
      CountFollows(cfg, f, evs[0]);
      CountFollowsHistory(cfg, Happen(cfg, f, evs[0]), evs[1..]);
    }
  }

  /** The wait counter is the number of goroutines registered and not done, over every schedule. */
  lemma CounterIsActive(cfg: Settings, l: Ledger, issued: map<Key, string>, evs: seq<Happening>)
    ensures var f := History(cfg, Idle(l, issued), evs); f.count == |ActiveTasks(f)|
  {
    assert ActiveTasks(Idle(l, issued)) == {};
    CountFollowsHistory(cfg, Idle(l, issued), evs);
  }

  // ----- the server's own state -----

  /** The store stays open until ListenAndServe is back; nobody listens after a shutdown or once it is back. */
  predicate Gates(f: Service) {
    (f.exit == Serving ==> f.open) && (f.listening ==> !f.down && f.exit == Serving)
  }

  lemma HappenGates(cfg: Settings, f: Service, ev: Happening)
    requires Gates(f)
    ensures Gates(Happen(cfg, f, ev))
  {
    hide Advance, AckedStep, Reached, Answered, Effective, Written, Proceed;
  }

  lemma {:induction false} HistoryGates(cfg: Settings, f: Service, evs: seq<Happening>)
    requires Gates(f)
    ensures Gates(History(cfg, f, evs))
    decreases |evs|
  {
    if evs == [] {
    } else {
      hide Happen;
      HappenGates(cfg, f, evs[0]);
      HistoryGates(cfg, Happen(cfg, f, evs[0]), evs[1..]);
    }
  }

  // ----- a closed store, a finished task -----

  lemma ClosedHappen(cfg: Settings, f: Service, ev: Happening)
    requires !f.open
    ensures var g := Happen(cfg, f, ev); !g.open && g.sys.world.store == f.sys.world.store
  {
    hide Tick, AckedStep, Answered, Perform;
    if ev.Work? { StoreChangesByPut(cfg, f.sys, Act(ev.h, Reached(f, ev.h, ev.o))); }
  }

  /** Once the store is closed, no event of either side changes it. */
  lemma {:induction false} ClosedStays(cfg: Settings, f: Service, evs: seq<Happening>)
    requires !f.open
    ensures var g := History(cfg, f, evs); !g.open && g.sys.world.store == f.sys.world.store
    decreases |evs|
  {
    if evs == [] {
    } else {
      hide Happen;
      ClosedHappen(cfg, f, evs[0]);
      ClosedStays(cfg, Happen(cfg, f, evs[0]), evs[1..]);
    }
  }

  predicate At(f: Service, id: string, phase: Phase) {
    id in f.tasks && f.tasks[id].phase == phase
  }

  lemma FinishedHappen(cfg: Settings, f: Service, ev: Happening, id: string)
    requires At(f, id, Finished)
    ensures
      var g := Happen(cfg, f, ev);
      id in g.tasks && g.tasks[id] == f.tasks[id] && (OfTask(ev) && ev.id == id ==> g.sys == f.sys)
  {
    if Moves(f, ev) {
      hide Advance, Served, Effective;
    } else if ApiSide(ev) {
      hide Happen;
      ServedIs(cfg, f, ev);
    } else {
      hide Advance, AckedStep, Reached, Served;
    }
  }

  /** A finished task never moves again, whatever else happens. */
  lemma {:induction false} FinishedStays(cfg: Settings, f: Service, evs: seq<Happening>, id: string)
    requires At(f, id, Finished)
    ensures var g := History(cfg, f, evs); id in g.tasks && g.tasks[id] == f.tasks[id]
    decreases |evs|
  {
    if evs == [] {
    } else {
      hide Happen;
      FinishedHappen(cfg, f, evs[0], id);
      FinishedStays(cfg, Happen(cfg, f, evs[0]), evs[1..], id);
    }
  }

  /** When wg.Wait can return, every goroutine registered by then is finished, and however the run goes on, it stays so
      and no event of it changes the store. */
  lemma WaitMeansFinished(cfg: Settings, l: Ledger, issued: map<Key, string>, before: seq<Happening>,
                          after: seq<Happening>, id: string, ev: Happening)
    ensures
      var f := History(cfg, Idle(l, issued), before);
      f.count == 0 && id in f.tasks && !InFlight(f.tasks[id].phase) && f.tasks[id].phase != Rejected ==>
        && At(f, id, Finished)
        && var g := History(cfg, f, after);
        && At(g, id, Finished) && g.tasks[id] == f.tasks[id]
        && (OfTask(ev) && ev.id == id ==> Happen(cfg, g, ev).sys == g.sys)
  {
    hide Happen, History;
    var f := History(cfg, Idle(l, issued), before);
    CounterIsActive(cfg, l, issued, before);
    if f.count == 0 && id in f.tasks && !InFlight(f.tasks[id].phase) && f.tasks[id].phase != Rejected {
      assert id !in ActiveTasks(f);
      FinishedStays(cfg, f, after, id);
      FinishedHappen(cfg, History(cfg, f, after), ev, id);
    }
  }

  // ----- when the API side can write no more -----

  predicate AllApi(evs: seq<Happening>) {
    forall i | 0 <= i < |evs| :: ApiSide(evs[i])
  }

  /** No API event changes the store from here on. */
  ghost predicate NoMoreWrites(cfg: Settings, f: Service) {
    forall evs :: AllApi(evs) ==> History(cfg, f, evs).sys.world.store == f.sys.world.store
  }

  /** A request can still be read: from a new connection, from an open one, or, unless the server is shutting down, from
      one that is busy with another request. */
  ghost predicate MayAsk(f: Service) {
    f.listening || exists c: string :: c in f.conns && (f.conns[c] == Ready || !f.down)
  }

  predicate Still(phase: Phase) {
    phase in {Rejected, Over, Finished}
  }

  ghost predicate Settled(f: Service) {
    !f.open || (!MayAsk(f) && forall e :: e in f.tasks ==> Still(f.tasks[e].phase))
  }

  lemma SettledHappen(cfg: Settings, f: Service, ev: Happening)
    requires Settled(f) && ApiSide(ev)
    ensures var g := Happen(cfg, f, ev); Settled(g) && g.sys.world.store == f.sys.world.store
  {
    hide AckedStep, Advance, Reached;
    if !f.open { ClosedHappen(cfg, f, ev); }
  }

  lemma {:induction false} SettledStays(cfg: Settings, f: Service, evs: seq<Happening>)
    requires Settled(f) && AllApi(evs)
    ensures History(cfg, f, evs).sys.world.store == f.sys.world.store
    decreases |evs|
  {
    if evs == [] {
    } else {
      hide Happen, Settled;
      assert ApiSide(evs[0]);
      SettledHappen(cfg, f, evs[0]);
      SettledStays(cfg, Happen(cfg, f, evs[0]), evs[1..]);
    }
  }

  /** Events of the API side that change the store. */
  ghost predicate Changes(cfg: Settings, f: Service, evs: seq<Happening>) {
    AllApi(evs) && History(cfg, f, evs).sys.world.store != f.sys.world.store
  }

  lemma ChangesFirst(cfg: Settings, f: Service, ev: Happening, rest: seq<Happening>)
    requires ApiSide(ev) && Changes(cfg, Happen(cfg, f, ev), rest) && Happen(cfg, f, ev).sys == f.sys
    ensures Changes(cfg, f, [ev] + rest)
  {
    hide Happen;
    assert ([ev] + rest)[0] == ev && ([ev] + rest)[1..] == rest;
  }

  lemma ChangesAtOnce(cfg: Settings, f: Service, ev: Happening)
    requires ApiSide(ev) && Happen(cfg, f, ev).sys.world.store != f.sys.world.store
    ensures Changes(cfg, f, [ev])
  {
    hide Happen;
    assert [ev][1..] == [];
    assert History(cfg, f, [ev]) == History(cfg, Happen(cfg, f, ev), []);
  }

  /** What takes a goroutine towards its failure overwrite without a write on the way. A cancelled context makes
      CreateSaga fail. */
  function Downhill(id: EnvId, phase: Phase): Happening {
    match phase
    case Stored => Register(id)
    case Registered => CreateSaga(id, Fail)
    case SagaMade => PersistSaga(id, Fail)
    case Persisted => StartSaga(id)
    case Started => SagaEnds(id, true)
    case _ => FailurePut(id, Ok(""))
  }

  function Height(phase: Phase): nat {
    match phase
    case Stored => 3
    case Registered => 2
    case SagaMade => 1
    case Persisted => 2
    case Started => 1
    case _ => 0
  }

  /** A task whose row is not marked failed and which can still write. */
  predicate CanFail(f: Service, id: EnvId) {
    && f.open && id in f.tasks && f.tasks[id].env.id == id && f.tasks[id].phase != Accepted && !Still(f.tasks[id].phase)
    && id in f.sys.world.store && f.sys.world.store[id].status != FAILED
  }

  lemma GoesDownhill(cfg: Settings, f: Service, id: EnvId)
    requires CanFail(f, id)
    ensures
      var ev := Downhill(id, f.tasks[id].phase);
      var g := Happen(cfg, f, ev);
      && ApiSide(ev)
      && if f.tasks[id].phase == Failing then g.sys.world.store != f.sys.world.store
         else g.sys == f.sys && CanFail(g, id) && Height(g.tasks[id].phase) < Height(f.tasks[id].phase)
  {
    hide Served, Proceed, Effective;
    var ev, t := Downhill(id, f.tasks[id].phase), f.tasks[id];
    assert Effective(f.open, ev) == ev by { OpenEffective(ev); }
    DownhillIs(id, t);
    if t.phase == Failing {
      assert Happen(cfg, f, ev).sys.world.store[id].status == FAILED;
    }
  }

  lemma OpenEffective(ev: Happening)
    ensures Effective(true, ev) == ev
  {
  }

  lemma DownhillIs(id: EnvId, t: Task)
    requires t.phase != Accepted && !Still(t.phase)
    ensures
      var ev := Downhill(id, t.phase);
      var (t', wrote) := Proceed(t, ev);
      && OfTask(ev) && ev.id == id && t'.env.id == t.env.id
      && if t.phase == Failing then wrote && t'.env.status == FAILED
         else !wrote && t'.phase != Accepted && !Still(t'.phase) && Height(t'.phase) < Height(t.phase)
  {
  }

  lemma {:induction false} Overwrites(cfg: Settings, f: Service, id: EnvId) returns (evs: seq<Happening>)
    requires CanFail(f, id)
    ensures Changes(cfg, f, evs)
    decreases Height(f.tasks[id].phase)
  {
    hide Happen, CanFail, Changes;
    GoesDownhill(cfg, f, id);
    assert id in f.tasks by { CanFailTask(f, id); }
    var ev := Downhill(id, f.tasks[id].phase);
    if f.tasks[id].phase == Failing {
      ChangesAtOnce(cfg, f, ev);
      evs := [ev];
    } else {
      CanFailTask(Happen(cfg, f, ev), id);
      var rest := Overwrites(cfg, Happen(cfg, f, ev), id);
      ChangesFirst(cfg, f, ev, rest);
      evs := [ev] + rest;
    }
  }

  lemma CanFailTask(f: Service, id: EnvId)
    requires CanFail(f, id)
    ensures id in f.tasks
  {
  }

  lemma {:induction false} FreshName(names: set<string>) returns (n: nat)
    ensures forall s :: s in names ==> |s| < n
    decreases |names|
  {
    if names == {} {
      n := 0;
    } else {
      var s :| s in names;
      var m := FreshName(names - {s});
      n := if m <= |s| then |s| + 1 else m;
      forall t | t in names ensures |t| < n { assert t == s || t in names - {s}; }
    }
  }

  lemma FreshId(names: set<string>) returns (id: EnvId)
    ensures id !in names
  {
    var n := FreshName(names);
    id := seq(n + 8, i => '0');
  }

  /** A request read from an open connection writes its record. */
  lemma RequestWrites(cfg: Settings, f: Service, c: string, id: EnvId)
    requires f.open && c in f.conns && f.conns[c] == Ready && id !in f.tasks && id !in f.sys.world.store
    ensures Changes(cfg, f, [Request(c, id, "ada", true, false, 0), FirstPut(id, Ok(""))])
  {
    hide Changes;
    var ask, put := Request(c, id, "ada", true, false, 0), FirstPut(id, Ok(""));
    var g := Happen(cfg, f, ask);
    assert g.sys == f.sys && At(g, id, Accepted) && g.open && g.tasks[id].env.id == id;
    assert Happen(cfg, g, put).sys.world.store[id].id == id;
    ChangesAtOnce(cfg, g, put);
    ChangesFirst(cfg, f, ask, [put]);
    assert [ask] + [put] == [ask, put];
  }

  lemma NewId(f: Service) returns (id: EnvId)
    requires Rows(f)
    ensures id !in f.tasks && id !in f.sys.world.store
  {
    id := FreshId(f.tasks.Keys);
  }

  lemma AskingWrites(cfg: Settings, f: Service) returns (evs: seq<Happening>)
    requires Rows(f) && Gates(f) && f.open && MayAsk(f) && forall e :: e in f.tasks ==> Still(f.tasks[e].phase)
    ensures Changes(cfg, f, evs)
  {
    hide Happen, Rows, Changes;
    var id := NewId(f);
    if f.listening {
      var c := FreshId(f.conns.Keys);
      assert Happen(cfg, f, Connect(c)) == f.(conns := f.conns[c := Ready]) by { ConnectIs(cfg, f, c); }
      RequestWrites(cfg, Happen(cfg, f, Connect(c)), c, id);
      ChangesFirst(cfg, f, Connect(c), [Request(c, id, "ada", true, false, 0), FirstPut(id, Ok(""))]);
      evs := [Connect(c)] + [Request(c, id, "ada", true, false, 0), FirstPut(id, Ok(""))];
    } else {
      var c: string :| c in f.conns && (f.conns[c] == Ready || !f.down);
      if f.conns[c] == Ready {
        RequestWrites(cfg, f, c, id);
        evs := [Request(c, id, "ada", true, false, 0), FirstPut(id, Ok(""))];
      } else {
        assert Happen(cfg, f, Reply(c)) == f.(conns := f.conns[c := Ready]) by { ReplyIs(cfg, f, c); }
        RequestWrites(cfg, Happen(cfg, f, Reply(c)), c, id);
        ChangesFirst(cfg, f, Reply(c), [Request(c, id, "ada", true, false, 0), FirstPut(id, Ok(""))]);
        evs := [Reply(c)] + [Request(c, id, "ada", true, false, 0), FirstPut(id, Ok(""))];
      }
    }
  }

  lemma ConnectIs(cfg: Settings, f: Service, c: string)
    requires f.listening && c !in f.conns
    ensures Happen(cfg, f, Connect(c)) == f.(conns := f.conns[c := Ready])
  {
  }

  lemma ReplyIs(cfg: Settings, f: Service, c: string)
    requires c in f.conns && f.conns[c] != Ready && !f.down && forall e :: e in f.tasks ==> Still(f.tasks[e].phase)
    ensures Happen(cfg, f, Reply(c)) == f.(conns := f.conns[c := Ready])
  {
  }

  lemma TaskWrites(cfg: Settings, f: Service, id: EnvId) returns (evs: seq<Happening>)
    requires Rows(f) && Marks(f) && f.open && id in f.tasks && !Still(f.tasks[id].phase)
    ensures Changes(cfg, f, evs)
  {
    hide Happen, HandlerOk, Changes, Served;
    var t := f.tasks[id];
    assert TaskOk(f.sys.world.store, id, t) && StaysUnbuilt(t);
    hide Rows, Marks, StaysUnbuilt;
    if t.phase == Accepted {
      assert Happen(cfg, f, FirstPut(id, Ok(""))).sys.world.store != f.sys.world.store by {
        FirstPutWrites(cfg, f, id);
      }
      ChangesAtOnce(cfg, f, FirstPut(id, Ok("")));
      evs := [FirstPut(id, Ok(""))];
    } else {
      assert CanFail(f, id) by { UnmarkedRow(f, id); }
      evs := Overwrites(cfg, f, id);
    }
  }

  lemma UnmarkedRow(f: Service, id: string)
    requires Marks(f) && id in f.sys.world.store && id in f.tasks && !Past(f.tasks[id])
    ensures f.sys.world.store[id].status != FAILED
  {
  }

  lemma FirstPutWrites(cfg: Settings, f: Service, id: EnvId)
    requires f.open && At(f, id, Accepted) && id !in f.sys.world.store && f.tasks[id].env.id == id
    ensures id in Happen(cfg, f, FirstPut(id, Ok(""))).sys.world.store
  {
    hide Served;
  }

  lemma Refutes(cfg: Settings, f: Service, evs: seq<Happening>)
    requires Changes(cfg, f, evs)
    ensures !NoMoreWrites(cfg, f)
  {
  }

  lemma UnsettledWrites(cfg: Settings, f: Service)
    requires Rows(f) && Marks(f) && Gates(f) && !Settled(f)
    ensures !NoMoreWrites(cfg, f)
  {
    hide Rows, Marks, Changes, MayAsk, NoMoreWrites;
    var evs: seq<Happening>;
    if exists e: string :: e in f.tasks && !Still(f.tasks[e].phase) {
      var e: string :| e in f.tasks && !Still(f.tasks[e].phase);
      TaskNamed(f, e);
      evs := TaskWrites(cfg, f, e);
    } else {
      evs := AskingWrites(cfg, f);
    }
    Refutes(cfg, f, evs);
  }

  /** In every reachable state: no later write of the API side is possible if and only if the store is closed, or no
      request can be read any more and every create request let in so far was rejected or has a goroutine with nothing
      left to write. */
  lemma NoMoreWritesIff(cfg: Settings, l: Ledger, issued: map<Key, string>, before: seq<Happening>)
    ensures var f := History(cfg, Idle(l, issued), before); NoMoreWrites(cfg, f) <==> Settled(f)
  {
    hide Happen, History, Rows, Order, Marks, Settled, Gates;
    var f := History(cfg, Idle(l, issued), before);
    Reachable(cfg, l, issued, before);
    assert Gates(Idle(l, issued)) by { IdleGates(l, issued); }
    HistoryGates(cfg, Idle(l, issued), before);
    if Settled(f) {
      forall evs | AllApi(evs) ensures History(cfg, f, evs).sys.world.store == f.sys.world.store {
        SettledStays(cfg, f, evs);
      }
    } else {
      UnsettledWrites(cfg, f);
    }
  }

  lemma IdleGates(l: Ledger, issued: map<Key, string>)
    ensures Gates(Idle(l, issued))
  {
  }

  ghost predicate NoneInFlight(f: Service) {
    forall e :: e in f.tasks ==> !InFlight(f.tasks[e].phase)
  }

  ghost predicate NoneReadable(f: Service) {
    forall c :: c in f.conns ==> f.conns[c] != Ready
  }

  /** ListenAndServe returns through the wait exactly when the lifecycle is over and every registered goroutine is
      done. */
  lemma ReturnsIff(cfg: Settings, l: Ledger, issued: map<Key, string>, before: seq<Happening>)
    requires History(cfg, Idle(l, issued), before).exit == Serving
    ensures
      var f := History(cfg, Idle(l, issued), before);
      Happen(cfg, f, Return).exit == Waited <==> f.down && forall e :: e in f.tasks ==> !Active(f.tasks[e].phase)
  {
    hide History, Active;
    var f := History(cfg, Idle(l, issued), before);
    CounterIsActive(cfg, l, issued, before);
    if f.count == 0 {
      forall e | e in f.tasks ensures !Active(f.tasks[e].phase) { assert e !in ActiveTasks(f); }
    }
    if forall e :: e in f.tasks ==> !Active(f.tasks[e].phase) {
      assert ActiveTasks(f) == {};
    }
  }

  /** Draining: when ListenAndServe returns through the wait, every registered goroutine is done, and no later write of
      the API side is possible exactly when no open connection can bring another request and no create request is still
      on its way to wg.Add: Shutdown makes the accept loop return at once, and nothing waits for the connections or the
      request handlers. */
  lemma DrainedIff(cfg: Settings, l: Ledger, issued: map<Key, string>, before: seq<Happening>)
    requires var f := History(cfg, Idle(l, issued), before); f.exit == Serving && Happen(cfg, f, Return).exit == Waited
    ensures
      var f := History(cfg, Idle(l, issued), before);
      var g := Happen(cfg, f, Return);
      && f.down && (forall e :: e in f.tasks ==> !Active(f.tasks[e].phase))
      && g == f.(exit := Waited) && (NoMoreWrites(cfg, g) <==> NoneReadable(g) && NoneInFlight(g))
  {
    hide Happen, History, Idle, NoMoreWrites;
    var f := History(cfg, Idle(l, issued), before);
    var g := Happen(cfg, f, Return);
    ReturnsIff(cfg, l, issued, before);
    HistoryThen(cfg, Idle(l, issued), before, Return);
    NoMoreWritesIff(cfg, l, issued, before + [Return]);
    IdleGates(l, issued);
    HistoryGates(cfg, Idle(l, issued), before);
    ReturnIs(cfg, f);
    forall e | e in f.tasks ensures Still(f.tasks[e].phase) <==> !InFlight(f.tasks[e].phase) {
      assert !Active(f.tasks[e].phase);
    }
  }

  lemma ReturnIs(cfg: Settings, f: Service)
    ensures Happen(cfg, f, Return) == if f.down && f.exit == Serving && f.count == 0 then f.(exit := Waited) else f
  {
  }

  lemma HistoryThen(cfg: Settings, f: Service, evs: seq<Happening>, ev: Happening)
    ensures History(cfg, f, evs + [ev]) == Happen(cfg, History(cfg, f, evs), ev)
  {
    HistorySplits(cfg, f, evs, [ev]);
    OneHappens(cfg, History(cfg, f, evs), ev);
  }

  /** An error of the listener is returned at once, without the wait: with the context not cancelled and the store not
      yet closed, only a state without connections and without goroutines that can still write is safe. */
  lemma ServeFailureIff(cfg: Settings, l: Ledger, issued: map<Key, string>, before: seq<Happening>)
    requires var f := History(cfg, Idle(l, issued), before); !f.down && f.exit == ServeFailed && f.open
    ensures
      var f := History(cfg, Idle(l, issued), before);
      NoMoreWrites(cfg, f) <==> f.conns == map[] && forall e :: e in f.tasks ==> Still(f.tasks[e].phase)
  {
    hide Happen, History, Idle, NoMoreWrites;
    var f := History(cfg, Idle(l, issued), before);
    NoMoreWritesIff(cfg, l, issued, before);
    IdleGates(l, issued);
    HistoryGates(cfg, Idle(l, issued), before);
    if !MayAsk(f) { assert forall c :: c !in f.conns; }
  }

  // ----- such schedules exist -----

  lemma {:induction false} HistoryFrom(cfg: Settings, f: Service, a: Happening, rest: seq<Happening>)
    ensures History(cfg, f, [a] + rest) == History(cfg, Happen(cfg, f, a), rest)
  {
    hide Happen;
    assert ([a] + rest)[0] == a && ([a] + rest)[1..] == rest;
  }

  /** A connection is accepted, and perhaps a create request is read from it, before the shutdown. */
  function Late(id: EnvId, asked: bool): seq<Happening> {
    [Connect("c")] + (if asked then [Request("c", id, "ada", true, false, 0)] else []) + [Shutdown, Return]
  }

  function Opened(l: Ledger, issued: map<Key, string>): Service {
    Idle(l, issued).(conns := map["c" := Ready])
  }

  function Asked(l: Ledger, issued: map<Key, string>, id: EnvId): Service {
    Idle(l, issued).(conns := map["c" := Busy(id)],
    tasks := map[id := Task(NewRecord(id, "ada", true, false, 0), Accepted, false)])
  }

  lemma OpensAndAsks(cfg: Settings, l: Ledger, issued: map<Key, string>, id: EnvId)
    ensures Happen(cfg, Idle(l, issued), Connect("c")) == Opened(l, issued)
    ensures Happen(cfg, Opened(l, issued), Request("c", id, "ada", true, false, 0)) == Asked(l, issued, id)
  {
    assert map["c" := Ready]["c" := Busy(id)] == map["c" := Busy(id)];
  }

  lemma Leaves(cfg: Settings, f: Service)
    requires f.exit == Serving && f.count == 0
    ensures History(cfg, f, [Shutdown, Return]) == f.(down := true, listening := false, exit := Waited)
  {
    hide Happen;
    var f1 := f.(down := true, listening := false);
    assert Happen(cfg, f, Shutdown) == f1 by { ShutdownIs(cfg, f); }
    ReturnIs(cfg, f1);
    assert [Shutdown, Return] == [Shutdown] + [Return] && [Return] == [Return] + [];
    HistoryFrom(cfg, f, Shutdown, [Return]);
    HistoryFrom(cfg, f1, Return, []);
  }

  lemma ShutdownIs(cfg: Settings, f: Service)
    ensures Happen(cfg, f, Shutdown) == f.(down := true, listening := false)
  {
  }

  /** Late writes exist: with a request let in, or with only a connection accepted, before the shutdown, ListenAndServe
      returns through the wait and the request still writes, unless the store is closed first. */
  lemma LateCreateHappens(cfg: Settings, l: Ledger, issued: map<Key, string>, id: EnvId, asked: bool)
    ensures
      var f := History(cfg, Idle(l, issued), Late(id, asked));
      f.exit == Waited && !NoMoreWrites(cfg, f) && NoMoreWrites(cfg, Happen(cfg, f, CloseStore))
  {
    hide Happen, History, NoMoreWrites;
    var f0 := Idle(l, issued);
    var ask := Request("c", id, "ada", true, false, 0);
    var evs := Late(id, asked);
    OpensAndAsks(cfg, l, issued, id);
    if asked {
      assert evs == [Connect("c")] + ([ask] + [Shutdown, Return]);
      HistoryFrom(cfg, Opened(l, issued), ask, [Shutdown, Return]);
      HistoryFrom(cfg, f0, Connect("c"), [ask] + [Shutdown, Return]);
      Leaves(cfg, Asked(l, issued, id));
    } else {
      assert evs == [Connect("c")] + [Shutdown, Return];
      HistoryFrom(cfg, f0, Connect("c"), [Shutdown, Return]);
      Leaves(cfg, Opened(l, issued));
    }
    var f := History(cfg, f0, evs);
    assert if asked then id in f.tasks && f.tasks[id].phase == Accepted else f.conns["c"] == Ready;
    NoMoreWritesIff(cfg, l, issued, evs);
    HistoryThen(cfg, f0, evs, CloseStore);
    NoMoreWritesIff(cfg, l, issued, evs + [CloseStore]);
    CloseIs(cfg, f);
  }

  lemma CloseIs(cfg: Settings, f: Service)
    requires f.exit != Serving
    ensures Happen(cfg, f, CloseStore) == f.(open := false)
  {
  }

  /** After a serve error even a goroutine that is registered with the wait group writes after the return. */
  lemma ServeErrorOvertakesWait(cfg: Settings, l: Ledger, issued: map<Key, string>, id: EnvId)
    ensures
      var evs := [Connect("c"), Request("c", id, "ada", true, false, 0), FirstPut(id, Ok("")), Register(id),
                  ServeFails];
      var f := History(cfg, Idle(l, issued), evs);
      f.exit == ServeFailed && f.count == 1 && At(f, id, Registered) && !NoMoreWrites(cfg, f)
  {
    hide Happen, History, NoMoreWrites;
    var ask, put := Request("c", id, "ada", true, false, 0), FirstPut(id, Ok(""));
    var f0 := Idle(l, issued);
    var evs := [Connect("c"), ask, put, Register(id), ServeFails];
    assert evs == [Connect("c")] + ([ask] + ([put] + ([Register(id)] + ([ServeFails] + []))));
    OpensAndAsks(cfg, l, issued, id);
    HistoryFrom(cfg, f0, Connect("c"), [ask] + ([put] + ([Register(id)] + ([ServeFails] + []))));
    var f2 := Asked(l, issued, id);
    HistoryFrom(cfg, Opened(l, issued), ask, [put] + ([Register(id)] + ([ServeFails] + [])));
    HistoryFrom(cfg, f2, put, [Register(id)] + ([ServeFails] + []));
    StoresAndRegisters(cfg, f2, id);
    var f3 := Happen(cfg, f2, put);
    HistoryFrom(cfg, f3, Register(id), [ServeFails] + []);
    HistoryFrom(cfg, Happen(cfg, f3, Register(id)), ServeFails, []);
    NoMoreWritesIff(cfg, l, issued, evs);
  }

  lemma StoresAndRegisters(cfg: Settings, f: Service, id: EnvId)
    requires At(f, id, Accepted) && f.open && !f.down && f.exit == Serving && f.count == 0
    ensures
      var g := Happen(cfg, Happen(cfg, Happen(cfg, f, FirstPut(id, Ok(""))), Register(id)), ServeFails);
      && History(cfg, g, []) == g
      && g.exit == ServeFailed && g.count == 1 && At(g, id, Registered) && g.open
  {
  }
}
