/** Dry-run environments, on a worker with or without an svid-exchange connection: what any interleaving of any number
    of deliveries of one request, with faults and crashes anywhere, can do to the world. */
module DryRun {
  import opened Records
  import opened Ledgers
  import opened Handlers
  import opened Sessions

  /** The record a request is meant to leave. */
  function Goal(cfg: Settings, step: Step, dir: Direction, r: Record): Record {
    if dir == Forward then With(cfg, step, r) else Without(step, r)
  }

  /** On a connected worker identity goes to svid-exchange, in dry-run too. */
  predicate Remote(cfg: Settings, step: Step) {
    step == Identity && cfg.connected
  }

  function EnvFileKey(cfg: Settings, id: EnvId): Key {
    FileKey(EnvPath(cfg, id))
  }

  function PolicyKeyOf(id: EnvId): Key {
    PolicyKey(PolicyName(id))
  }

  /** The .env file and the policy after the request, given the record it finds. */
  function GoalLedger(cfg: Settings, step: Step, dir: Direction, r: Record, l: Ledger): Ledger {
    if Goal(cfg, step, dir, r) == r then l
    else if step == Config then
      if dir == Forward then l[EnvFileKey(cfg, r.id) := FileItem(EnvFileOf(cfg, r))] else l - {EnvFileKey(cfg, r.id)}
    else if Remote(cfg, step) then
      if dir == Forward then l[PolicyKeyOf(r.id) := PolicyOf(cfg, r.id)] else l - {PolicyKeyOf(r.id)}
    else l
  }

  function GoalWorld(cfg: Settings, w: World, id: EnvId, step: Step, dir: Direction): World
    requires id in w.store
  {
    var r := w.store[id];
    w.(store := w.store[id := Goal(cfg, step, dir, r)], ledger := GoalLedger(cfg, step, dir, r, w.ledger))
  }

  /** Every delivery in the trace is of this request. */
  predicate Only(evs: seq<Event>, id: string, step: Step, dir: Direction) {
    forall i | 0 <= i < |evs| && evs[i].Arrive? :: evs[i].h.envId == id && evs[i].step == step && evs[i].dir == dir
  }

  ghost predicate SomeAck(s: Sys) {
    exists h :: h in s.handlers && s.handlers[h].stage == Replied(Acked)
  }

  /** A dry-run record whose groups are each wholly empty or wholly as Execute writes them. */
  ghost predicate DryRecord(cfg: Settings, r: Record) {
    r.dryRun && Canonical(cfg, r)
  }

  ghost predicate DryRow(cfg: Settings, w: World, id: EnvId) {
    id in w.store && w.store[id].id == id && DryRecord(cfg, w.store[id])
  }

  function DryProgram(cfg: Settings, step: Step, dir: Direction, r: Record): seq<Action> {
    if dir == Forward then
      if step == Health then [Check, Probe]
      else if step == Config then [Check, WriteEnvFile, Put]
      else if Remote(cfg, step) then IDENTITY_PROGRAM
      else [Check, Fill, Put]
    else
    if step == Health then []
    else if step == Config then [RemoveEnvFile, Put]
    else if Remote(cfg, step) && r.svidExchangePolicyName != "" then IDENTITY_UNDO
    else [Wipe, Put]
  }

  lemma DryProgramIs(cfg: Settings, step: Step, dir: Direction, r: Record)
    requires r.dryRun
    ensures Program(cfg, step, dir, r) == DryProgram(cfg, step, dir, r)
  {
  }

  // ----- one handler and its record, whatever the world outside the store -----

  /** The handler's copy before it is complete. */
  function Underway(cfg: Settings, step: Step, dir: Direction, pc: nat, base: Record): Record {
    if dir == Forward && Remote(cfg, step) && pc >= 2 then base.(svidExchangePolicyName := PolicyName(base.id))
    else base
  }

  /** A handler that loaded base, or the goal once that was stored, at work. */
  predicate Works(cfg: Settings, step: Step, dir: Direction, base: Record, stored: bool, local: Record,
                  prog: seq<Action>, pc: nat) {
    var g := Goal(cfg, step, dir, base);
    && pc <= |prog|
    && (dir == Forward && pc >= 1 ==> !Marked(step, base))
    && if step == Health then
         prog == DryProgram(cfg, step, dir, base) && local == base && (dir == Forward && pc >= 2 ==> !base.failAtHealth)
       else if pc + 1 >= |prog| then
         (prog == DryProgram(cfg, step, dir, base) || prog == DryProgram(cfg, step, dir, g)) && local == g
         && (pc == |prog| ==> stored)
       else
         || (prog == DryProgram(cfg, step, dir, base) && local == Underway(cfg, step, dir, pc, base))
         || (prog == DryProgram(cfg, step, dir, g) && local == g && stored && pc == 0)
  }

  predicate Fits(cfg: Settings, step: Step, dir: Direction, base: Record, stored: bool, stage: Stage) {
    match stage
    case Loading => true
    case Dead => true
    case Replied(answer) => answer == Acked ==> stored && (step == Health && dir == Forward ==> !base.failAtHealth)
    case Working(local, prog, pc) => Works(cfg, step, dir, base, stored, local, prog, pc)
  }

  lemma GoalFacts(cfg: Settings, step: Step, dir: Direction, r: Record)
    requires GroupCanonical(cfg, step, r)
    ensures
      var g := Goal(cfg, step, dir, r);
      && IdentOf(g) == IdentOf(r) && g.id == r.id
      && Goal(cfg, step, dir, g) == g
      && (dir == Forward && step != Health ==> Marked(step, g))
      && (dir == Forward && Marked(step, r) ==> g == r)
      && (dir == Forward && step != Health && !Marked(step, r) ==> g != r)
      && (step == Health ==> g == r)
  {
  }

  /** A goal, once stored, is what remains to be reached. */
  lemma StoredFits(cfg: Settings, step: Step, dir: Direction, base: Record, stored: bool, stage: Stage)
    requires Fits(cfg, step, dir, base, stored, stage)
    ensures Fits(cfg, step, dir, base, true, stage)
  {
  }

  /** A handler that now loads the record. */
  lemma LoadFits(cfg: Settings, step: Step, dir: Direction, base: Record, local: Record)
    requires DryRecord(cfg, base) && (local == base || local == Goal(cfg, step, dir, base))
    ensures Fits(cfg, step, dir, base, local == Goal(cfg, step, dir, base),
                 Working(local, Program(cfg, step, dir, local), 0))
  {
    assert GroupCanonical(cfg, step, base);
    GoalFacts(cfg, step, dir, base);
    DryProgramIs(cfg, step, dir, local);
  }

  /** Where a phase starts from, and whether its goal is stored. */
  ghost predicate Basis(cfg: Settings, step: Step, dir: Direction, base: Record, stored: bool) {
    DryRecord(cfg, base) && (base == Goal(cfg, step, dir, base) ==> stored)
  }

  /** One action leads to a fitting stage; an applied Put stores the goal. */
  predicate Keeps(cfg: Settings, step: Step, dir: Direction, base: Record, stored: bool, prog: seq<Action>, pc: nat,
                  local: Record, o: Outcome, v: Verdict)
    requires pc < |prog|
  {
    var put := prog[pc] == Put && Applied(o);
    && (put ==> local == Goal(cfg, step, dir, base))
    && match v
       case Go(_, local') => Works(cfg, step, dir, base, stored || put, local', prog, pc + 1)
       case Stop(_, answer) => Fits(cfg, step, dir, base, stored || put, Replied(answer))
  }

  lemma BasisFacts(cfg: Settings, step: Step, dir: Direction, base: Record, stored: bool)
    requires Basis(cfg, step, dir, base, stored)
    ensures
      var g := Goal(cfg, step, dir, base);
      && base.dryRun && g.dryRun && g.id == base.id && g.failAtHealth == base.failAtHealth
      && Goal(cfg, step, dir, g) == g
      && (dir == Forward && step != Health ==> Marked(step, g))
      && (dir == Forward && Marked(step, base) ==> g == base)
      && (step == Health ==> g == base)
      && (g == base ==> stored)
  {
    assert GroupCanonical(cfg, step, base);
    GoalFacts(cfg, step, dir, base);
  }

  lemma CheckFits(cfg: Settings, step: Step, dir: Direction, base: Record, stored: bool, w: World, local: Record,
                  prog: seq<Action>, pc: nat, o: Outcome)
    requires Basis(cfg, step, dir, base, stored) && Works(cfg, step, dir, base, stored, local, prog, pc) && pc < |prog|
             && prog[pc] == Check
    ensures Keeps(cfg, step, dir, base, stored, prog, pc, local, o, Perform(cfg, step, Check, w, local, o))
  {
    hide Basis, With, Without, EnvPath, PolicyName;
    BasisFacts(cfg, step, dir, base, stored);
    CheckIs(cfg, step, w, local, o);
    CheckComesFirst(cfg, step, dir, base, stored, local, prog, pc);
  }

  lemma CheckIs(cfg: Settings, step: Step, w: World, local: Record, o: Outcome)
    requires local.dryRun
    ensures Perform(cfg, step, Check, w, local, o) == if Marked(step, local) then Stop(w, Acked) else Go(w, local)
  {
  }

  lemma CheckComesFirst(cfg: Settings, step: Step, dir: Direction, base: Record, stored: bool, local: Record,
                        prog: seq<Action>, pc: nat)
    requires Works(cfg, step, dir, base, stored, local, prog, pc) && pc < |prog| && prog[pc] == Check
    ensures pc == 0 && dir == Forward
  {
    hide With, Without, Goal, Underway;
  }

  lemma PutFits(cfg: Settings, step: Step, dir: Direction, base: Record, stored: bool, w: World, local: Record,
                prog: seq<Action>, pc: nat, o: Outcome)
    requires Basis(cfg, step, dir, base, stored) && Works(cfg, step, dir, base, stored, local, prog, pc) && pc < |prog|
    requires prog[pc] == Put || prog[pc] == Probe
    ensures Keeps(cfg, step, dir, base, stored, prog, pc, local, o, Perform(cfg, step, prog[pc], w, local, o))
  {
    hide Basis, With, Without, EnvPath, PolicyName;
    BasisFacts(cfg, step, dir, base, stored);
  }

  lemma FillFits(cfg: Settings, step: Step, dir: Direction, base: Record, stored: bool, w: World, local: Record,
                 prog: seq<Action>, pc: nat, o: Outcome)
    requires Basis(cfg, step, dir, base, stored) && Works(cfg, step, dir, base, stored, local, prog, pc) && pc < |prog|
    requires prog[pc] == Fill || prog[pc] == Wipe
    ensures Keeps(cfg, step, dir, base, stored, prog, pc, local, o, Perform(cfg, step, prog[pc], w, local, o))
  {
    hide Basis, With, Without, EnvPath, PolicyName;
    BasisFacts(cfg, step, dir, base, stored);
  }

  lemma FileFits(cfg: Settings, step: Step, dir: Direction, base: Record, stored: bool, w: World, local: Record,
                 prog: seq<Action>, pc: nat, o: Outcome)
    requires Basis(cfg, step, dir, base, stored) && Works(cfg, step, dir, base, stored, local, prog, pc) && pc < |prog|
    requires prog[pc] == WriteEnvFile || prog[pc] == RemoveEnvFile
    ensures Keeps(cfg, step, dir, base, stored, prog, pc, local, o, Perform(cfg, step, prog[pc], w, local, o))
  {
    hide Basis, EnvPath, PolicyName, EnvFileOf, Keeps, Works;
    FileComes(cfg, step, dir, base, stored, local, prog, pc);
    if prog[pc] == WriteEnvFile {
      WriteFits(cfg, step, dir, base, stored, w, local, prog, pc, o);
    } else {
      RemoveFits(cfg, step, dir, base, stored, w, local, prog, pc, o);
    }
  }

  lemma WriteFits(cfg: Settings, step: Step, dir: Direction, base: Record, stored: bool, w: World, local: Record,
                  prog: seq<Action>, pc: nat, o: Outcome)
    requires Basis(cfg, step, dir, base, stored) && Works(cfg, step, dir, base, stored, local, prog, pc) && pc < |prog|
             && prog[pc] == WriteEnvFile
    ensures Keeps(cfg, step, dir, base, stored, prog, pc, local, o, Perform(cfg, step, prog[pc], w, local, o))
  {
    hide Basis, EnvPath, PolicyName, EnvFileOf;
    BasisFacts(cfg, step, dir, base, stored);
    FileComes(cfg, step, dir, base, stored, local, prog, pc);
  }

  lemma RemoveFits(cfg: Settings, step: Step, dir: Direction, base: Record, stored: bool, w: World, local: Record,
                   prog: seq<Action>, pc: nat, o: Outcome)
    requires Basis(cfg, step, dir, base, stored) && Works(cfg, step, dir, base, stored, local, prog, pc) && pc < |prog|
             && prog[pc] == RemoveEnvFile
    ensures Keeps(cfg, step, dir, base, stored, prog, pc, local, o, Perform(cfg, step, prog[pc], w, local, o))
  {
    hide Basis, EnvPath, PolicyName, EnvFileOf, AppSpiffeId, DbProxySpiffeId, With, PolicyOf, Legal;
    BasisFacts(cfg, step, dir, base, stored);
    FileComes(cfg, step, dir, base, stored, local, prog, pc);
  }

  lemma FileComes(cfg: Settings, step: Step, dir: Direction, base: Record, stored: bool, local: Record,
                  prog: seq<Action>, pc: nat)
    requires Works(cfg, step, dir, base, stored, local, prog, pc) && pc < |prog|
             && (prog[pc] == WriteEnvFile || prog[pc] == RemoveEnvFile)
    ensures
      && step == Config && pc + 2 == |prog|
      && (if prog[pc] == WriteEnvFile then dir == Forward && pc == 1 && local == base
          else dir == Compensate && pc == 0 && (local == base || local == Goal(cfg, step, dir, base)))
  {
    hide With, Without, Goal;
  }

  lemma PolicyFits(cfg: Settings, step: Step, dir: Direction, base: Record, stored: bool, w: World, local: Record,
                   prog: seq<Action>, pc: nat, o: Outcome)
    requires Basis(cfg, step, dir, base, stored) && Works(cfg, step, dir, base, stored, local, prog, pc) && pc < |prog|
    requires prog[pc] == CreatePolicy || prog[pc] == DeletePolicy
    ensures Keeps(cfg, step, dir, base, stored, prog, pc, local, o, Perform(cfg, step, prog[pc], w, local, o))
  {
    hide Basis, EnvPath, PolicyName, PolicyOf, With, Without;
    BasisFacts(cfg, step, dir, base, stored);
    PolicyComes(cfg, step, dir, base, stored, local, prog, pc);
  }

  lemma PolicyComes(cfg: Settings, step: Step, dir: Direction, base: Record, stored: bool, local: Record,
                    prog: seq<Action>, pc: nat)
    requires Works(cfg, step, dir, base, stored, local, prog, pc) && pc < |prog|
             && (prog[pc] == CreatePolicy || prog[pc] == DeletePolicy)
    ensures
      && step == Identity && cfg.connected && local == base
      && (if prog[pc] == CreatePolicy then dir == Forward && prog == IDENTITY_PROGRAM && pc == 1
          else dir == Compensate && prog == IDENTITY_UNDO && pc == 0 && base.svidExchangePolicyName != ""
               && prog == DryProgram(cfg, step, dir, base))
  {
    hide With, PolicyName, Goal;
    GoalNamesNoPolicy(cfg, step, base);
  }

  lemma GoalNamesNoPolicy(cfg: Settings, step: Step, base: Record)
    ensures step == Identity ==> Goal(cfg, step, Compensate, base).svidExchangePolicyName == ""
  {
  }

  lemma LaterFits(cfg: Settings, step: Step, dir: Direction, base: Record, stored: bool, w: World, local: Record,
                  prog: seq<Action>, pc: nat, o: Outcome)
    requires Basis(cfg, step, dir, base, stored) && Works(cfg, step, dir, base, stored, local, prog, pc) && pc < |prog|
    requires prog[pc] == VerifyPolicy || prog[pc] == ReloadPolicies || prog[pc] == NameEntries
    ensures Keeps(cfg, step, dir, base, stored, prog, pc, local, o, Perform(cfg, step, prog[pc], w, local, o))
  {
    hide Basis, PolicyName, Goal, With, Without, Perform, AppSpiffeId, DbProxySpiffeId;
    BasisFacts(cfg, step, dir, base, stored);
    LaterComes(cfg, step, dir, base, stored, local, prog, pc);
    LaterIs(cfg, prog[pc], w, local, o);
    RemoteGoal(cfg, base);
  }

  lemma LaterComes(cfg: Settings, step: Step, dir: Direction, base: Record, stored: bool, local: Record,
                   prog: seq<Action>, pc: nat)
    requires Works(cfg, step, dir, base, stored, local, prog, pc) && pc < |prog|
    requires prog[pc] == VerifyPolicy || prog[pc] == ReloadPolicies || prog[pc] == NameEntries
    ensures step == Identity && cfg.connected && local == Underway(cfg, step, dir, pc, base)
            && prog == DryProgram(cfg, step, dir, base)
    ensures if dir == Forward then prog == IDENTITY_PROGRAM && 2 <= pc <= 4 && (prog[pc] == NameEntries <==> pc == 4)
            else prog == IDENTITY_UNDO && pc == 1
  {
    hide With, PolicyName, Goal, Underway;
    GoalNamesNoPolicy(cfg, step, base);
  }

  lemma LaterIs(cfg: Settings, a: Action, w: World, local: Record, o: Outcome)
    requires a == VerifyPolicy || a == ReloadPolicies || a == NameEntries
    ensures
      var v := Perform(cfg, Identity, a, w, local, o);
      && (v.Go? && a != NameEntries ==> v.local == local)
      && (v.Go? && a == NameEntries ==>
            v.local == local.(spireEntryIds := [AppSpiffeId(cfg, local.id), DbProxySpiffeId(cfg, local.id)]))
      && (v.Stop? ==> v.answer == Refused)
  {
    hide AppSpiffeId, DbProxySpiffeId, Joined, With, Without;
  }

  lemma RemoteGoal(cfg: Settings, base: Record)
    requires cfg.connected
    ensures
      Goal(cfg, Identity, Forward, base)
      == base.(svidExchangePolicyName := PolicyName(base.id),
      spireEntryIds := [AppSpiffeId(cfg, base.id), DbProxySpiffeId(cfg, base.id)])
  {
  }

  /** Any action of a fitting handler, in any world. */
  lemma ActionFits(cfg: Settings, step: Step, dir: Direction, base: Record, stored: bool, w: World, local: Record,
                   prog: seq<Action>, pc: nat, o: Outcome)
    requires Basis(cfg, step, dir, base, stored) && Works(cfg, step, dir, base, stored, local, prog, pc) && pc < |prog|
    ensures Keeps(cfg, step, dir, base, stored, prog, pc, local, o, Perform(cfg, step, prog[pc], w, local, o))
  {
    hide Basis, Keeps, Perform;
    DryActions(cfg, step, dir, base, stored, local, prog, pc);
    hide Works;
    match prog[pc] {
      case Check => CheckFits(cfg, step, dir, base, stored, w, local, prog, pc, o);
      case Fill | Wipe => FillFits(cfg, step, dir, base, stored, w, local, prog, pc, o);
      case Put | Probe => PutFits(cfg, step, dir, base, stored, w, local, prog, pc, o);
      case WriteEnvFile | RemoveEnvFile => FileFits(cfg, step, dir, base, stored, w, local, prog, pc, o);
      case CreatePolicy | DeletePolicy => PolicyFits(cfg, step, dir, base, stored, w, local, prog, pc, o);
      case VerifyPolicy | ReloadPolicies | NameEntries =>
        LaterFits(cfg, step, dir, base, stored, w, local, prog, pc, o);
    }
  }

  predicate DryAction(a: Action) {
    match a
    case Check | Fill | Wipe | Put | Probe | WriteEnvFile | RemoveEnvFile => true
    case CreatePolicy | DeletePolicy | VerifyPolicy | ReloadPolicies | NameEntries => true
    case _ => false
  }

  lemma DryActions(cfg: Settings, step: Step, dir: Direction, base: Record, stored: bool, local: Record,
                   prog: seq<Action>, pc: nat)
    requires Works(cfg, step, dir, base, stored, local, prog, pc) && pc < |prog|
    ensures DryAction(prog[pc])
  {
    hide Goal, Underway;
  }

  /** The record of the environment during a phase. */
  ghost predicate Store(cfg: Settings, step: Step, dir: Direction, base: Record, id: EnvId, w: World) {
    && base.id == id && id in w.store
    && (w.store[id] == base || w.store[id] == Goal(cfg, step, dir, base))
  }

  function Stored(cfg: Settings, step: Step, dir: Direction, base: Record, id: EnvId, w: World): bool
    requires id in w.store
  {
    w.store[id] == Goal(cfg, step, dir, base)
  }

  /** One step of a fitting handler, in any world outside the store: the record stays or becomes the goal, for good. */
  lemma TickFits(cfg: Settings, step: Step, dir: Direction, base: Record, id: EnvId, w: World, handler: Handler,
                 o: Outcome)
    requires DryRecord(cfg, base) && Store(cfg, step, dir, base, id, w) && handler.step == step && handler.dir == dir
    requires Fits(cfg, step, dir, base, Stored(cfg, step, dir, base, id, w), handler.stage)
    ensures
      var (w', handler') := Tick(cfg, w, id, handler, o);
      && Store(cfg, step, dir, base, id, w')
      && (w'.store == w.store || w'.store == w.store[id := Goal(cfg, step, dir, base)])
      && (Stored(cfg, step, dir, base, id, w) ==> Stored(cfg, step, dir, base, id, w'))
      && Fits(cfg, step, dir, base, Stored(cfg, step, dir, base, id, w'), handler'.stage)
      && handler'.step == step && handler'.dir == dir
  {
    hide DryRecord, Perform, Program, Goal, Works;
    var stored := Stored(cfg, step, dir, base, id, w);
    GoalKeepsId(cfg, step, dir, base);
    if handler.stage.Loading? {
      if o.Ok? { LoadFits(cfg, step, dir, base, w.store[id]); }
    } else if handler.stage.Working? {
      var local, prog, pc := handler.stage.local, handler.stage.prog, handler.stage.pc;
      if pc < |prog| {
        ActionFits(cfg, step, dir, base, stored, w, local, prog, pc, o);
        PerformStores(cfg, step, prog[pc], w, local, o);
      } else {
        EndFits(cfg, step, dir, base, stored, local, prog, pc);
      }
    }
  }

  lemma GoalKeepsId(cfg: Settings, step: Step, dir: Direction, r: Record)
    ensures Goal(cfg, step, dir, r).id == r.id
  {
  }

  lemma EndFits(cfg: Settings, step: Step, dir: Direction, base: Record, stored: bool, local: Record, prog: seq<Action>,
                pc: nat)
    requires DryRecord(cfg, base) && (base == Goal(cfg, step, dir, base) ==> stored)
    requires Works(cfg, step, dir, base, stored, local, prog, pc) && pc >= |prog|
    ensures Fits(cfg, step, dir, base, stored, Replied(Acked))
  {
    hide With, Without;
    BasisFacts(cfg, step, dir, base, stored);
  }
}
