/** Overlapping retries of one dry-run request converge, in the record and outside the store. */
module Convergence {
  import opened Records
  import opened Ledgers
  import opened Handlers
  import opened Sessions
  import opened DryRun

  /** The world during a phase: the record, and the file or policy, each still as they were or already as intended,
      the record last. */
  predicate Between(start: World, goal: World, x: World) {
    && x.issued == start.issued
    && (x.store == start.store || x.store == goal.store)
    && (x.ledger == start.ledger || x.ledger == goal.ledger)
    && (x.store == goal.store ==> x.ledger == goal.ledger)
  }

  /** From this action on the request has done its work outside the store. */
  function Settled(dir: Direction): nat {
    if dir == Forward then 2 else 1
  }

  /** What an action does outside the store, given the ledger the phase aims at. */
  predicate LedgerOk(start: Ledger, goal: Ledger, dir: Direction, prog: seq<Action>, pc: nat, l: Ledger, v: Verdict)
    requires pc < |prog|
  {
    && (v.world.ledger == start || v.world.ledger == goal)
    && (l == goal ==> v.world.ledger == goal)
    && (v.Go? && pc + 1 >= Settled(dir) ==> v.world.ledger == goal)
    && (prog[pc] == Put ==> l == goal)
  }

  /** A handler at work in such a phase. */
  ghost predicate AtWork(cfg: Settings, step: Step, dir: Direction, base: Record, stored: bool, start: Ledger,
                         l: Ledger, local: Record, prog: seq<Action>, pc: nat) {
    var goal := GoalLedger(cfg, step, dir, base, start);
    && Basis(cfg, step, dir, base, stored) && Works(cfg, step, dir, base, stored, local, prog, pc)
    && (l == start || l == goal) && (stored ==> l == goal) && (pc >= Settled(dir) ==> l == goal)
  }

  lemma QuietLedger(cfg: Settings, step: Step, a: Action, w: World, r: Record, o: Outcome)
    requires a == Check || a == Fill || a == Wipe || a == Put || a == Probe || a == VerifyPolicy || a == ReloadPolicies
             || a == NameEntries
    ensures Perform(cfg, step, a, w, r, o).world.ledger == w.ledger
            && Perform(cfg, step, a, w, r, o).world.issued == w.issued
  {
    hide With, Without, AlreadyDone, AsksCloud, Joined, AppSpiffeId, DbProxySpiffeId;
  }

  lemma FillSettles(cfg: Settings, step: Step, dir: Direction, base: Record, stored: bool, start: Ledger, l: Ledger,
                    local: Record, prog: seq<Action>, pc: nat)
    requires AtWork(cfg, step, dir, base, stored, start, l, local, prog, pc) && pc < |prog|
    requires prog[pc] == Check || prog[pc] == Fill || prog[pc] == Wipe || prog[pc] == Probe || prog[pc] == Put
    ensures prog[pc] != Check && pc + 1 >= Settled(dir) ==> l == GoalLedger(cfg, step, dir, base, start)
    ensures prog[pc] == Check ==> pc == 0 && dir == Forward
    ensures prog[pc] == Put ==> l == GoalLedger(cfg, step, dir, base, start)
  {
    hide Basis, With, EnvPath, PolicyName, EnvFileOf, PolicyOf, AppSpiffeId, DbProxySpiffeId, Short, Blank;
    assert Basis(cfg, step, dir, base, stored);
    BasisFacts(cfg, step, dir, base, stored);
    if step == Identity && dir == Compensate { UnnamedIsBlank(cfg, step, dir, base, stored); }
  }

  lemma UnnamedIsBlank(cfg: Settings, step: Step, dir: Direction, base: Record, stored: bool)
    requires Basis(cfg, step, dir, base, stored)
    ensures base.svidExchangePolicyName == "" ==> Goal(cfg, Identity, Compensate, base) == base
    ensures base.svidExchangePolicyName != "" ==>
              base.svidExchangePolicyName == PolicyName(base.id) && Goal(cfg, Identity, Compensate, base) != base
    ensures base.localEnvPath == "" ==> Goal(cfg, Config, Compensate, base) == base
    ensures base.localEnvPath != "" ==>
              base.localEnvPath == EnvPath(cfg, base.id) && Goal(cfg, Config, Compensate, base) != base
  {
    hide EnvPath, PolicyName;
    assert GroupCanonical(cfg, Identity, base) && GroupCanonical(cfg, Config, base);
  }

  lemma WriteLedger(cfg: Settings, step: Step, dir: Direction, base: Record, stored: bool, start: Ledger, w: World,
                    local: Record, prog: seq<Action>, pc: nat, o: Outcome)
    requires AtWork(cfg, step, dir, base, stored, start, w.ledger, local, prog, pc) && pc < |prog|
             && prog[pc] == WriteEnvFile
    ensures LedgerOk(start, GoalLedger(cfg, step, dir, base, start), dir, prog, pc, w.ledger,
                     Perform(cfg, step, WriteEnvFile, w, local, o))
    ensures Perform(cfg, step, WriteEnvFile, w, local, o).world.issued == w.issued
  {
    hide Basis, EnvPath, PolicyName, EnvFileOf, Works, Perform;
    FileComes(cfg, step, dir, base, stored, local, prog, pc);
    BasisFacts(cfg, step, dir, base, stored);
    UnnamedIsBlank(cfg, step, dir, base, stored);
    UnmarkedPast(cfg, step, dir, base, stored, local, prog, pc);
    WriteIs(cfg, w, local, o);
  }

  lemma RemoveLedger(cfg: Settings, step: Step, dir: Direction, base: Record, stored: bool, start: Ledger, w: World,
                     local: Record, prog: seq<Action>, pc: nat, o: Outcome)
    requires AtWork(cfg, step, dir, base, stored, start, w.ledger, local, prog, pc) && pc < |prog|
             && prog[pc] == RemoveEnvFile
    ensures LedgerOk(start, GoalLedger(cfg, step, dir, base, start), dir, prog, pc, w.ledger,
                     Perform(cfg, step, RemoveEnvFile, w, local, o))
    ensures Perform(cfg, step, RemoveEnvFile, w, local, o).world.issued == w.issued
  {
    hide Basis, EnvPath, PolicyName, EnvFileOf, Works, Perform;
    FileComes(cfg, step, dir, base, stored, local, prog, pc);
    BasisFacts(cfg, step, dir, base, stored);
    UnnamedIsBlank(cfg, step, dir, base, stored);
    UnmarkedPast(cfg, step, dir, base, stored, local, prog, pc);
    RemovesOnce(cfg, step, dir, base, stored, local, prog, pc);
    RemoveIs(cfg, w, local, o);
    assert start - {EnvFileKey(cfg, base.id)} - {EnvFileKey(cfg, base.id)} == start - {EnvFileKey(cfg, base.id)};
  }

  lemma WriteIs(cfg: Settings, w: World, r: Record, o: Outcome)
    ensures
      var v := Perform(cfg, Config, WriteEnvFile, w, r, o);
      && v.world == (if Applied(o) then w.(ledger := w.ledger[EnvFileKey(cfg, r.id) := FileItem(EnvFileOf(cfg, r))])
                     else w)
      && (v.Go? <==> o.Ok?)
  {
    hide EnvPath, EnvFileOf, With, Without;
  }

  lemma RemoveIs(cfg: Settings, w: World, r: Record, o: Outcome)
    ensures
      var v := Perform(cfg, Config, RemoveEnvFile, w, r, o);
      if r.localEnvPath == "" then v.Go? && v.world == w
      else
        && v.world == (if Applied(o) then w.(ledger := w.ledger - {FileKey(r.localEnvPath)}) else w)
        && (v.Go? <==> o.Ok?)
  {
    hide With, Without;
  }

  lemma UnmarkedPast(cfg: Settings, step: Step, dir: Direction, base: Record, stored: bool, local: Record,
                     prog: seq<Action>, pc: nat)
    requires Works(cfg, step, dir, base, stored, local, prog, pc)
    ensures dir == Forward && pc >= 1 ==> !Marked(step, base)
  {
  }

  lemma RemovesOnce(cfg: Settings, step: Step, dir: Direction, base: Record, stored: bool, local: Record,
                    prog: seq<Action>, pc: nat)
    requires Works(cfg, step, dir, base, stored, local, prog, pc) && pc < |prog| && prog[pc] == RemoveEnvFile
    ensures local != base ==> stored
  {
    hide With, Without, Goal;
  }

  lemma PolicyLedger(cfg: Settings, step: Step, dir: Direction, base: Record, stored: bool, start: Ledger, w: World,
                     local: Record, prog: seq<Action>, pc: nat, o: Outcome)
    requires AtWork(cfg, step, dir, base, stored, start, w.ledger, local, prog, pc) && pc < |prog|
    requires prog[pc] == CreatePolicy || prog[pc] == DeletePolicy
    ensures LedgerOk(start, GoalLedger(cfg, step, dir, base, start), dir, prog, pc, w.ledger,
                     Perform(cfg, step, prog[pc], w, local, o))
    ensures Perform(cfg, step, prog[pc], w, local, o).world.issued == w.issued
    ensures
      var v := Perform(cfg, step, prog[pc], w, local, o);
      v.Go? && prog[pc] == CreatePolicy ==> PolicyKeyOf(base.id) !in w.ledger
  {
    hide Basis, EnvPath, PolicyName, EnvFileOf, PolicyOf, Works, With, Without, Perform;
    PolicyComes(cfg, step, dir, base, stored, local, prog, pc);
    BasisFacts(cfg, step, dir, base, stored);
    UnnamedIsBlank(cfg, step, dir, base, stored);
    UnmarkedPast(cfg, step, dir, base, stored, local, prog, pc);
    if prog[pc] == CreatePolicy { CreatePolicyIs(cfg, w, local, o); } else { DeletePolicyIs(cfg, w, local, o); }
    assert start - {PolicyKeyOf(base.id)} - {PolicyKeyOf(base.id)} == start - {PolicyKeyOf(base.id)};
  }

  lemma CreatePolicyIs(cfg: Settings, w: World, r: Record, o: Outcome)
    ensures
      var w' := w.(ledger := w.ledger[PolicyKeyOf(r.id) := PolicyOf(cfg, r.id)]);
      Perform(cfg, Identity, CreatePolicy, w, r, o)
      == if PolicyKeyOf(r.id) in w.ledger || !Applied(o) then Stop(w, Refused)
      else if o.Ok? then Go(w', r.(svidExchangePolicyName := PolicyName(r.id))) else Stop(w', Refused)
  {
    hide With, Without, PolicyName;
    assert KeyName(PolicyKeyOf(r.id)) == PolicyName(r.id) != "";
  }

  lemma DeletePolicyIs(cfg: Settings, w: World, r: Record, o: Outcome)
    ensures
      var k := PolicyKey(r.svidExchangePolicyName);
      var v := Perform(cfg, Identity, DeletePolicy, w, r, o);
      && (v.world == w || (k in w.ledger && v.world == w.(ledger := w.ledger - {k})))
      && (v.Go? ==> v.world == w.(ledger := w.ledger - {k}))
  {
    hide With, Without;
  }

  lemma LedgerTick(cfg: Settings, step: Step, dir: Direction, base: Record, stored: bool, start: Ledger, w: World,
                   local: Record, prog: seq<Action>, pc: nat, o: Outcome)
    requires AtWork(cfg, step, dir, base, stored, start, w.ledger, local, prog, pc) && pc < |prog|
    ensures LedgerOk(start, GoalLedger(cfg, step, dir, base, start), dir, prog, pc, w.ledger,
                     Perform(cfg, step, prog[pc], w, local, o))
    ensures Perform(cfg, step, prog[pc], w, local, o).world.issued == w.issued
  {
    hide Basis, Works, Perform, GoalLedger;
    DryActions(cfg, step, dir, base, stored, local, prog, pc);
    match prog[pc] {
      case WriteEnvFile => WriteLedger(cfg, step, dir, base, stored, start, w, local, prog, pc, o);
      case RemoveEnvFile => RemoveLedger(cfg, step, dir, base, stored, start, w, local, prog, pc, o);
      case CreatePolicy | DeletePolicy => PolicyLedger(cfg, step, dir, base, stored, start, w, local, prog, pc, o);
      case VerifyPolicy | ReloadPolicies | NameEntries =>
        QuietLedger(cfg, step, prog[pc], w, local, o);
        LaterComes(cfg, step, dir, base, stored, local, prog, pc);
      case Check | Fill | Wipe | Put | Probe =>
        QuietLedger(cfg, step, prog[pc], w, local, o);
        FillSettles(cfg, step, dir, base, stored, start, w.ledger, local, prog, pc);
    }
  }

  // ----- a phase: any deliveries of one request -----

  ghost predicate Phase(cfg: Settings, start: World, id: EnvId, step: Step, dir: Direction, s: Sys)
    requires DryRow(cfg, start, id)
  {
    var base, goal := start.store[id], GoalWorld(cfg, start, id, step, dir);
    && Between(start, goal, s.world)
    && id in s.world.store
    && forall h :: h in s.handlers ==> InPhase(cfg, base, goal, id, step, dir, s.world, h, s.handlers[h])
  }

  predicate InPhase(cfg: Settings, base: Record, goal: World, id: EnvId, step: Step, dir: Direction, x: World, h: Hid,
                    handler: Handler)
    requires id in x.store
  {
    && h.envId == id && handler.step == step && handler.dir == dir
    && Fits(cfg, step, dir, base, Stored(cfg, step, dir, base, id, x), handler.stage)
    && (handler.stage.Working? && handler.stage.pc >= Settled(dir) ==> x.ledger == goal.ledger)
  }

  /** The only moves of a phase: the outside reaches its goal, then the record does. */
  predicate Advances(goal: World, x: World, x': World) {
    && (x.store == goal.store ==> x'.store == goal.store)
    && (x.ledger == goal.ledger ==> x'.ledger == goal.ledger)
  }

  lemma PhaseTick(cfg: Settings, start: World, id: EnvId, step: Step, dir: Direction, s: Sys, h: Hid, o: Outcome)
    requires DryRow(cfg, start, id) && Phase(cfg, start, id, step, dir, s) && h in s.handlers
    ensures
      var base, goal := start.store[id], GoalWorld(cfg, start, id, step, dir);
      var (x', handler') := Tick(cfg, s.world, id, s.handlers[h], o);
      && Between(start, goal, x') && Advances(goal, s.world, x') && id in x'.store
      && InPhase(cfg, base, goal, id, step, dir, x', h, handler')
  {
    hide DryRecord, Program, Goal, Works, GoalLedger, Keeps, Tick, Fits, Stored, Store, Between, Advances;
    var handler := s.handlers[h];
    if handler.stage.Working? && handler.stage.pc < |handler.stage.prog| {
      WorkTick(cfg, start, id, step, dir, s, h, o);
    } else {
      QuietTick(cfg, start, id, step, dir, s, h, o);
    }
  }

  lemma WorkTick(cfg: Settings, start: World, id: EnvId, step: Step, dir: Direction, s: Sys, h: Hid, o: Outcome)
    requires DryRow(cfg, start, id) && Phase(cfg, start, id, step, dir, s) && h in s.handlers
    requires s.handlers[h].stage.Working? && s.handlers[h].stage.pc < |s.handlers[h].stage.prog|
    ensures
      var base, goal := start.store[id], GoalWorld(cfg, start, id, step, dir);
      var (x', handler') := Tick(cfg, s.world, id, s.handlers[h], o);
      && Between(start, goal, x') && Advances(goal, s.world, x') && id in x'.store
      && InPhase(cfg, base, goal, id, step, dir, x', h, handler')
  {
    var base, goal := start.store[id], GoalWorld(cfg, start, id, step, dir);
    var handler, stage := s.handlers[h], s.handlers[h].stage;
    var stored := Stored(cfg, step, dir, base, id, s.world);
    hide DryRecord, Perform, Program, Goal, Works, GoalLedger, Keeps, Fits, AtWork, Between, Advances;
    BetweenStores(cfg, start, goal, id, step, dir, s.world);
    TickFits(cfg, step, dir, base, id, s.world, handler, o);
    PhaseAtWork(cfg, start, id, step, dir, s, h);
    LedgerTick(cfg, step, dir, base, stored, start.ledger, s.world, stage.local, stage.prog, stage.pc, o);
    PerformStores(cfg, step, stage.prog[stage.pc], s.world, stage.local, o);
    StaysBetween(start, goal, s.world, Tick(cfg, s.world, id, handler, o).0, id,
                 stage.prog[stage.pc] == Put && Applied(o));
  }

  lemma BetweenStores(cfg: Settings, start: World, goal: World, id: EnvId, step: Step, dir: Direction, x: World)
    requires DryRow(cfg, start, id) && goal == GoalWorld(cfg, start, id, step, dir) && Between(start, goal, x)
             && id in x.store
    ensures Store(cfg, step, dir, start.store[id], id, x) && goal.store == start.store[id := goal.store[id]]
  {
    hide DryRecord, Goal, GoalLedger;
  }

  /** A step of the world that keeps to the two moves of a phase. */
  lemma StaysBetween(start: World, goal: World, x: World, x': World, id: EnvId, put: bool)
    requires Between(start, goal, x) && id in start.store && id in goal.store
             && goal.store == start.store[id := goal.store[id]]
    requires x'.issued == x.issued && (x'.store == x.store || (put && x'.store == x.store[id := goal.store[id]]))
    requires x'.ledger == start.ledger || x'.ledger == goal.ledger
    requires (x.ledger == goal.ledger ==> x'.ledger == goal.ledger) && (put ==> x.ledger == goal.ledger)
    ensures Between(start, goal, x') && Advances(goal, x, x')
  {
    assert start.store[id := goal.store[id]] == goal.store[id := goal.store[id]];
  }

  lemma PhaseAtWork(cfg: Settings, start: World, id: EnvId, step: Step, dir: Direction, s: Sys, h: Hid)
    requires DryRow(cfg, start, id) && Phase(cfg, start, id, step, dir, s) && h in s.handlers
             && s.handlers[h].stage.Working?
    ensures
      var base, stage := start.store[id], s.handlers[h].stage;
      AtWork(cfg, step, dir, base, Stored(cfg, step, dir, base, id, s.world), start.ledger, s.world.ledger, stage.local,
             stage.prog, stage.pc)
  {
    hide DryRecord, Goal, Works, GoalLedger;
    assert InPhase(cfg, start.store[id], GoalWorld(cfg, start, id, step, dir), id, step, dir, s.world, h,
                   s.handlers[h]);
  }

  lemma QuietTick(cfg: Settings, start: World, id: EnvId, step: Step, dir: Direction, s: Sys, h: Hid, o: Outcome)
    requires DryRow(cfg, start, id) && Phase(cfg, start, id, step, dir, s) && h in s.handlers
    requires s.handlers[h].stage.Working? ==> s.handlers[h].stage.pc >= |s.handlers[h].stage.prog|
    ensures
      var base, goal := start.store[id], GoalWorld(cfg, start, id, step, dir);
      var (x', handler') := Tick(cfg, s.world, id, s.handlers[h], o);
      && Between(start, goal, x') && Advances(goal, s.world, x') && id in x'.store
      && InPhase(cfg, base, goal, id, step, dir, x', h, handler')
  {
    hide DryRecord, Perform, Program, Goal, Works, GoalLedger, Keeps;
    var base := start.store[id];
    assert start.store == start.store[id := base];
    TickFits(cfg, step, dir, base, id, s.world, s.handlers[h], o);
  }

  lemma PhaseAct(cfg: Settings, start: World, id: EnvId, step: Step, dir: Direction, s: Sys, h: Hid, o: Outcome)
    requires DryRow(cfg, start, id) && Phase(cfg, start, id, step, dir, s) && h in s.handlers
    ensures Phase(cfg, start, id, step, dir, Advance(cfg, s, Act(h, o)))
    ensures Advances(GoalWorld(cfg, start, id, step, dir), s.world, Advance(cfg, s, Act(h, o)).world)
  {
    var base, goal := start.store[id], GoalWorld(cfg, start, id, step, dir);
    hide Tick, DryRecord, Fits, GoalWorld;
    PhaseTick(cfg, start, id, step, dir, s, h, o);
    var s' := Advance(cfg, s, Act(h, o));
    forall k | k in s.handlers && k != h ensures InPhase(cfg, base, goal, id, step, dir, s'.world, k, s'.handlers[k]) {
      assert InPhase(cfg, base, goal, id, step, dir, s.world, k, s.handlers[k]);
      StaysInPhase(cfg, start, id, step, dir, s.world, s'.world, k, s.handlers[k]);
    }
  }

  lemma StaysInPhase(cfg: Settings, start: World, id: EnvId, step: Step, dir: Direction, x: World, x': World, h: Hid,
                     handler: Handler)
    requires DryRow(cfg, start, id) && id in x.store && id in x'.store
    requires
      var base, goal := start.store[id], GoalWorld(cfg, start, id, step, dir);
      && InPhase(cfg, base, goal, id, step, dir, x, h, handler) && Advances(goal, x, x')
      && Between(start, goal, x) && Between(start, goal, x')
    ensures InPhase(cfg, start.store[id], GoalWorld(cfg, start, id, step, dir), id, step, dir, x', h, handler)
  {
    hide DryRecord, Goal, Fits, GoalLedger;
    var base := start.store[id];
    if Stored(cfg, step, dir, base, id, x') && !Stored(cfg, step, dir, base, id, x) {
      StoredFits(cfg, step, dir, base, false, handler.stage);
    }
  }

  lemma {:induction false} PhaseRun(cfg: Settings, start: World, id: EnvId, step: Step, dir: Direction, s: Sys,
                                    evs: seq<Event>)
    requires DryRow(cfg, start, id) && Phase(cfg, start, id, step, dir, s) && Only(evs, id, step, dir)
    ensures Phase(cfg, start, id, step, dir, Run(cfg, s, evs))
    ensures Advances(GoalWorld(cfg, start, id, step, dir), s.world, Run(cfg, s, evs).world)
    decreases |evs|
  {
    if evs == [] {
    } else {
      hide DryRow, GoalWorld, Advance, Phase;
      if evs[0].Act? && evs[0].h in s.handlers {
        PhaseAct(cfg, start, id, step, dir, s, evs[0].h, evs[0].o);
      } else {
        PhaseElse(cfg, start, id, step, dir, s, evs[0]);
      }
      PhaseRun(cfg, start, id, step, dir, Advance(cfg, s, evs[0]), evs[1..]);
    }
  }

  lemma PhaseElse(cfg: Settings, start: World, id: EnvId, step: Step, dir: Direction, s: Sys, ev: Event)
    requires DryRow(cfg, start, id) && Phase(cfg, start, id, step, dir, s)
    requires ev.Act? ==> ev.h !in s.handlers
    requires ev.Arrive? ==> ev.h.envId == id && ev.step == step && ev.dir == dir
    ensures Phase(cfg, start, id, step, dir, Advance(cfg, s, ev)) && Advance(cfg, s, ev).world == s.world
  {
    hide DryRecord, Goal, GoalLedger, Works;
  }

  lemma PhaseStarts(cfg: Settings, w: World, id: EnvId, step: Step, dir: Direction)
    requires DryRow(cfg, w, id)
    ensures Phase(cfg, w, id, step, dir, Sys(w, map[]))
  {
    hide DryRecord, EnvFileOf, PolicyOf, EnvPath, PolicyName, With, Without;
    assert w.store == w.store[id := w.store[id]];
    if Goal(cfg, step, dir, w.store[id]) != w.store[id] {
      assert w.store[id := Goal(cfg, step, dir, w.store[id])][id] != w.store[id];
    }
  }

  /** Overlapping retries: however many deliveries of one request run, interleave, fail or die, the record is at every
      moment either untouched or the goal; once one of them is acknowledged the whole world is the goal. */
  lemma RetriesConverge(cfg: Settings, w: World, id: EnvId, step: Step, dir: Direction, evs: seq<Event>)
    requires DryRow(cfg, w, id) && Only(evs, id, step, dir)
    ensures
      var s := Run(cfg, Sys(w, map[]), evs);
      var goal := GoalWorld(cfg, w, id, step, dir);
      && Between(w, goal, s.world)
      && (SomeAck(s) ==> s.world == goal && (step == Health && dir == Forward ==> !w.store[id].failAtHealth))
  {
    hide DryRow, GoalWorld, Run;
    PhaseStarts(cfg, w, id, step, dir);
    PhaseRun(cfg, w, id, step, dir, Sys(w, map[]), evs);
    var s := Run(cfg, Sys(w, map[]), evs);
    if SomeAck(s) {
      var h :| h in s.handlers && s.handlers[h].stage == Replied(Acked);
      AckMeansGoal(cfg, w, id, step, dir, s, h);
    }
  }

  lemma AckMeansGoal(cfg: Settings, w: World, id: EnvId, step: Step, dir: Direction, s: Sys, h: Hid)
    requires DryRow(cfg, w, id) && Phase(cfg, w, id, step, dir, s) && h in s.handlers
             && s.handlers[h].stage == Replied(Acked)
    ensures s.world == GoalWorld(cfg, w, id, step, dir)
            && (step == Health && dir == Forward ==> !w.store[id].failAtHealth)
  {
    hide DryRecord, Goal, GoalLedger;
    assert InPhase(cfg, w.store[id], GoalWorld(cfg, w, id, step, dir), id, step, dir, s.world, h, s.handlers[h]);
    assert w.store == w.store[id := w.store[id]];
  }

  /** The record is the goal from the first Put that is applied, and untouched until then. */
  lemma RecordIsGoalIffPut(cfg: Settings, w: World, id: EnvId, step: Step, dir: Direction, evs: seq<Event>)
    requires DryRow(cfg, w, id) && Only(evs, id, step, dir)
    ensures
      var s := Sys(w, map[]);
      Run(cfg, s, evs).world.store == if PutReached(cfg, s, evs) then GoalWorld(cfg, w, id, step, dir).store
      else w.store
  {
    hide DryRow, GoalWorld, Run;
    PhaseStarts(cfg, w, id, step, dir);
    if PutReached(cfg, Sys(w, map[]), evs) {
      PutMakesGoal(cfg, w, id, step, dir, Sys(w, map[]), evs);
    } else {
      NoPutNoChange(cfg, Sys(w, map[]), evs);
    }
  }

  lemma {:induction false} PutMakesGoal(cfg: Settings, start: World, id: EnvId, step: Step, dir: Direction, s: Sys,
                                        evs: seq<Event>)
    requires DryRow(cfg, start, id) && Phase(cfg, start, id, step, dir, s) && Only(evs, id, step, dir)
             && PutReached(cfg, s, evs)
    ensures Run(cfg, s, evs).world.store == GoalWorld(cfg, start, id, step, dir).store
    decreases |evs|
  {
    hide DryRow, GoalWorld, Phase, Advance;
    var s' := Advance(cfg, s, evs[0]);
    if evs[0].Act? && evs[0].h in s.handlers {
      PhaseAct(cfg, start, id, step, dir, s, evs[0].h, evs[0].o);
      if Stores(s, evs[0]) { PutStoresGoal(cfg, start, id, step, dir, s, evs[0].h, evs[0].o); }
    } else {
      PhaseElse(cfg, start, id, step, dir, s, evs[0]);
    }
    if Stores(s, evs[0]) {
      PhaseRun(cfg, start, id, step, dir, s', evs[1..]);
    } else {
      PutMakesGoal(cfg, start, id, step, dir, s', evs[1..]);
    }
  }

  lemma PutStoresGoal(cfg: Settings, start: World, id: EnvId, step: Step, dir: Direction, s: Sys, h: Hid, o: Outcome)
    requires DryRow(cfg, start, id) && Phase(cfg, start, id, step, dir, s) && Stores(s, Act(h, o))
    ensures Advance(cfg, s, Act(h, o)).world.store == GoalWorld(cfg, start, id, step, dir).store
  {
    hide DryRecord, Goal, GoalLedger, Perform, Works, Keeps;
    var base := start.store[id];
    var stage := s.handlers[h].stage;
    StoreChangesByPut(cfg, s, Act(h, o));
    assert InPhase(cfg, base, GoalWorld(cfg, start, id, step, dir), id, step, dir, s.world, h, s.handlers[h]);
    PutHoldsGoal(cfg, step, dir, base, Stored(cfg, step, dir, base, id, s.world), stage);
    GoalKeepsId(cfg, step, dir, base);
  }

  lemma PutHoldsGoal(cfg: Settings, step: Step, dir: Direction, base: Record, stored: bool, stage: Stage)
    requires Fits(cfg, step, dir, base, stored, stage) && stage.Working? && stage.pc < |stage.prog|
             && stage.prog[stage.pc] == Put
    ensures stage.local == Goal(cfg, step, dir, base)
  {
    hide Goal, With, Without, Underway;
  }
}
